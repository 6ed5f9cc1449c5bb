/** Fleets of workers: the aggregate status, and what cancelling a fleet makes of its workers. */
module Fleets {
  import opened Options
  import opened Lifecycle

  datatype Worker = Worker(workerId: string, role: string, objective: string, sessionId: string, agentId: Option<string>,
                           status: Status, executionId: string, cancellationState: Option<string>)

  datatype FleetStatus =
    | FleetUnknown | FleetSucceeded | FleetCancelled | FleetFailed | FleetRunning | FleetCancelling
    | CompletedWithFailures | OtherFleetStatus(name: string)

  datatype Fleet = Fleet(taskId: string, status: FleetStatus, workers: seq<Worker>)

  const REQUESTED := "requested"

  predicate Any(ws: seq<Worker>, s: Status) { exists w :: w in ws && w.status == s }

  predicate All(ws: seq<Worker>, s: Status) { forall w :: w in ws ==> w.status == s }

  predicate AnyRequested(ws: seq<Worker>) { exists w :: w in ws && w.cancellationState == Some(REQUESTED) }

  predicate AnyOpen(ws: seq<Worker>) { exists w :: w in ws && !Terminal(w.status) }

  function Aggregate(ws: seq<Worker>): FleetStatus {
    if ws == [] then FleetUnknown
    else if All(ws, Succeeded) then FleetSucceeded
    else if All(ws, Cancelled) then FleetCancelled
    else if Any(ws, Running) || Any(ws, Queued) || Any(ws, Paused) then
      if AnyRequested(ws) then FleetCancelling else FleetRunning
    else if Any(ws, Failed) && (Any(ws, Succeeded) || Any(ws, Cancelled)) then CompletedWithFailures
    else if All(ws, Failed) then FleetFailed
    else if Any(ws, Failed) then CompletedWithFailures
    else if Any(ws, Cancelled) then FleetCancelled
    else if Any(ws, Succeeded) then FleetSucceeded
    else FleetUnknown
  }

  /** `aggregate_fleet_status`: by the set of the statuses that occur. */
  method AggregateFleetStatus(ws: seq<Worker>) returns (status: FleetStatus)
    ensures status == Aggregate(ws)
  {
    if |ws| == 0 {
      return FleetUnknown;
    }
    var statuses := set w | w in ws :: w.status;
    assert forall s :: s in statuses <==> Any(ws, s);
    forall s
      ensures statuses <= {s} <==> All(ws, s)
    {
      assert All(ws, s) ==> forall x :: x in statuses ==> x == s;
      assert forall w :: w in ws ==> w.status in statuses;
    }
    if statuses <= {Succeeded} {
      return FleetSucceeded;
    }
    if statuses <= {Cancelled} {
      return FleetCancelled;
    }
    if Running in statuses || Queued in statuses || Paused in statuses {
      return if exists i :: 0 <= i < |ws| && ws[i].cancellationState == Some("requested") then FleetCancelling else FleetRunning;
    }
    if Failed in statuses && (Succeeded in statuses || Cancelled in statuses) {
      return CompletedWithFailures;
    }
    if statuses <= {Failed} {
      return FleetFailed;
    }
    if Failed in statuses {
      return CompletedWithFailures;
    }
    if Cancelled in statuses {
      return FleetCancelled;
    }
    if Succeeded in statuses {
      return FleetSucceeded;
    }
    return FleetUnknown;
  }

  /** The status `cancel_fleet` records. */
  function CancelStatus(ws: seq<Worker>): FleetStatus {
    if AnyOpen(ws) then FleetCancelling else Aggregate(ws)
  }

  method CancelledFleetStatus(ws: seq<Worker>) returns (status: FleetStatus)
    ensures status == CancelStatus(ws)
  {
    status := AggregateFleetStatus(ws);
    forall s: Status
      ensures s in TERMINAL <==> Terminal(s)
    {
      LifecycleIsTable(s, s);
    }
    if exists i :: 0 <= i < |ws| && ws[i].status !in TERMINAL {
      ghost var i :| 0 <= i < |ws| && ws[i].status !in TERMINAL;
      assert ws[i] in ws;
      status := FleetCancelling;
    }
  }

  predicate Live(w: Worker) { w.executionId != "" && !Terminal(w.status) }

  /** A worker after the cancellation, given the executions the cancellation left. */
  function AfterCancel(w: Worker, after: Executions): Worker {
    if !Live(w) then w
    else w.(status := if w.executionId in after then after[w.executionId].status else Cancelled,
            cancellationState := Some(REQUESTED))
  }

  function AllAfterCancel(ws: seq<Worker>, after: Executions): (r: seq<Worker>)
    ensures |r| == |ws| && forall i :: 0 <= i < |ws| ==> r[i] == AfterCancel(ws[i], after)
  {
    seq(|ws|, i requires 0 <= i < |ws| => AfterCancel(ws[i], after))
  }

  /* ---------- the stored order ---------- */

  /** Python's order on strings. */
  predicate Leq(a: string, b: string) {
    a == "" || (b != "" && (a[0] < b[0] || (a[0] == b[0] && Leq(a[1..], b[1..]))))
  }

  lemma LeqTotal(a: string, b: string)
    ensures Leq(a, b) || Leq(b, a)
  {
  }

  /** The first character at which two strings differ decides, or else the length. */
  lemma {:induction false} LeqIsLexicographic(a: string, b: string)
    ensures Leq(a, b) <==> a <= b || exists k :: DifferAt(a, b, k) && a[k] < b[k]
    decreases |a|
  {
    if a != "" && b != "" {
      LeqIsLexicographic(a[1..], b[1..]);
      if a[0] == b[0] {
        assert a <= b <==> a[1..] <= b[1..] by {
          assert a == [a[0]] + a[1..] && b == [b[0]] + b[1..];
        }
        if k :| DifferAt(a[1..], b[1..], k) && a[1..][k] < b[1..][k] {
          assert a[..k + 1] == [a[0]] + a[1..][..k] && b[..k + 1] == [b[0]] + b[1..][..k];
          assert DifferAt(a, b, k + 1);
        }
        if k :| DifferAt(a, b, k) && a[k] < b[k] {
          assert a[1..][..k - 1] == a[..k][1..] && b[1..][..k - 1] == b[..k][1..];
          assert DifferAt(a[1..], b[1..], k - 1);
        }
      } else {
        assert DifferAt(a, b, 0);
        if k :| DifferAt(a, b, k) && a[k] < b[k] {
          assert k > 0 ==> a[..k][0] == b[..k][0];
        }
      }
    }
  }

  predicate DifferAt(a: string, b: string, k: int) {
    0 <= k < |a| && k < |b| && a[..k] == b[..k] && a[k] != b[k]
  }

  function Insert(w: Worker, ws: seq<Worker>): seq<Worker> {
    if ws == [] || Leq(w.workerId, ws[0].workerId) then [w] + ws else [ws[0]] + Insert(w, ws[1..])
  }

  /** The stable sort by worker id that `upsert_fleet` stores. */
  function Sorted(ws: seq<Worker>): seq<Worker> {
    if ws == [] then [] else Insert(ws[0], Sorted(ws[1..]))
  }

  predicate InOrder(ws: seq<Worker>) {
    forall i :: 0 <= i < |ws| - 1 ==> Leq(ws[i].workerId, ws[i + 1].workerId)
  }

  lemma InsertPermutes(w: Worker, ws: seq<Worker>)
    ensures multiset(Insert(w, ws)) == multiset{w} + multiset(ws)
  {
    if ws != [] && !Leq(w.workerId, ws[0].workerId) {
      InsertPermutes(w, ws[1..]);
      assert ws == [ws[0]] + ws[1..];
    }
  }

  lemma SortPermutes(ws: seq<Worker>)
    ensures multiset(Sorted(ws)) == multiset(ws)
  {
    if ws != [] {
      SortPermutes(ws[1..]);
      InsertPermutes(ws[0], Sorted(ws[1..]));
      assert ws == [ws[0]] + ws[1..];
    }
  }

  lemma InsertKeepsOrder(w: Worker, ws: seq<Worker>)
    requires InOrder(ws)
    ensures InOrder(Insert(w, ws))
    ensures Insert(w, ws)[0] == w || (ws != [] && Insert(w, ws)[0] == ws[0])
  {
    if ws != [] && !Leq(w.workerId, ws[0].workerId) {
      InsertKeepsOrder(w, ws[1..]);
      LeqTotal(w.workerId, ws[0].workerId);
    }
  }

  lemma SortOrders(ws: seq<Worker>)
    ensures InOrder(Sorted(ws))
  {
    if ws != [] {
      SortOrders(ws[1..]);
      InsertKeepsOrder(ws[0], Sorted(ws[1..]));
    }
  }

  lemma SortKeepsOrdered(ws: seq<Worker>)
    requires InOrder(ws)
    ensures Sorted(ws) == ws
  {
  }

  lemma SameMembers(ws: seq<Worker>, ws': seq<Worker>)
    requires multiset(ws) == multiset(ws')
    ensures forall w :: w in ws <==> w in ws'
    ensures CancelStatus(ws) == CancelStatus(ws')
  {
    assert forall w :: w in ws <==> w in multiset(ws);
    assert forall w :: w in ws' <==> w in multiset(ws');
    assert ws == [] <==> ws' == [] by {
      assert |multiset(ws)| == |ws| && |multiset(ws')| == |ws'|;
    }
    assert forall s :: Any(ws, s) <==> Any(ws', s);
    assert forall s :: All(ws, s) <==> All(ws', s);
  }

  /* ---------- what cancelling a fleet achieves ---------- */

  /** The executions of the live workers, as far as they are known, have ended. */
  predicate LiveEnded(ws: seq<Worker>, after: Executions) {
    forall w :: w in ws && Live(w) && w.executionId in after ==> Terminal(after[w.executionId].status)
  }

  /** Every worker is still there; one with an execution has ended; a live one whose execution
      is known shows exactly that execution's status. */
  lemma CancelSettlesWorkers(ws: seq<Worker>, after: Executions, i: nat)
    requires LiveEnded(ws, after) && i < |ws|
    ensures var w, w' := ws[i], AllAfterCancel(ws, after)[i];
            && w'.workerId == w.workerId && w'.executionId == w.executionId
            && (w.executionId != "" ==> Terminal(w'.status))
            && (Live(w) && w.executionId in after ==> w'.status == after[w.executionId].status)
            && (!Live(w) ==> w' == w)
  {
  }

  /** A fleet whose workers all have executions ends in one of four ways. */
  lemma CancelSettlesFleet(ws: seq<Worker>, after: Executions)
    requires LiveEnded(ws, after) && ws != [] && forall w :: w in ws ==> w.executionId != ""
    ensures var status := CancelStatus(AllAfterCancel(ws, after));
            status.FleetSucceeded? || status.FleetFailed? || status.FleetCancelled? || status.CompletedWithFailures?
  {
    var ws' := AllAfterCancel(ws, after);
    forall w | w in ws'
      ensures Terminal(w.status)
    {
      var i :| 0 <= i < |ws'| && ws'[i] == w;
      CancelSettlesWorkers(ws, after, i);
    }
    assert ws'[0] in ws';
  }

  /** The aggregate tells the four endings apart exactly. */
  lemma EndingsMean(ws: seq<Worker>)
    requires ws != [] && !AnyOpen(ws)
    ensures CancelStatus(ws) == FleetSucceeded <==> All(ws, Succeeded)
    ensures CancelStatus(ws) == FleetFailed <==> All(ws, Failed)
    ensures CancelStatus(ws) == CompletedWithFailures <==> Any(ws, Failed) && !All(ws, Failed)
    ensures CancelStatus(ws) == FleetCancelled <==> Any(ws, Cancelled) && !Any(ws, Failed)
  {
    assert ws[0] in ws;
  }

  /** Cancelling the stored fleet again finds nothing to do and stores the same fleet. */
  lemma SecondCancelIsIdle(ws: seq<Worker>, after: Executions, later: Executions)
    requires LiveEnded(ws, after)
    ensures var stored := Sorted(AllAfterCancel(ws, after));
            && AllAfterCancel(stored, later) == stored
            && Sorted(stored) == stored
            && CancelStatus(stored) == CancelStatus(AllAfterCancel(ws, after))
  {
    var ws' := AllAfterCancel(ws, after);
    var stored := Sorted(ws');
    SortPermutes(ws');
    SameMembers(stored, ws');
    SortOrders(ws');
    SortKeepsOrdered(stored);
    forall i | 0 <= i < |stored|
      ensures !Live(stored[i])
    {
      assert stored[i] in ws';
      var j :| 0 <= j < |ws'| && ws'[j] == stored[i];
      CancelSettlesWorkers(ws, after, j);
    }
  }

  /* ---------- the cancellations one by one ---------- */

  predicate Targets(ws: seq<Worker>, id: string) {
    exists w :: w in ws && Live(w) && w.executionId == id
  }

  /** One execution once those of the live workers are cancelled, whoever else shares them. */
  predicate CancelledAt(executions: Executions, ws: seq<Worker>, now: int, after: Executions, id: string) {
    && (id in after <==> id in executions)
    && (id in executions ==>
          after[id] == if Targets(ws, id) && !Terminal(executions[id].status) then Advance(executions[id], Cancelled, now)
                       else executions[id])
  }

  ghost predicate CancelledAll(executions: Executions, ws: seq<Worker>, now: int, after: Executions) {
    forall id {:trigger CancelledAt(executions, ws, now, after, id)} :: CancelledAt(executions, ws, now, after, id)
  }

  /** Cancelling the next worker's execution, if it is live, known and open. */
  function CancelOne(w: Worker, a: Executions, now: int): Executions {
    if Live(w) && w.executionId in a && !Terminal(a[w.executionId].status) then
      a[w.executionId := Advance(a[w.executionId], Cancelled, now)]
    else a
  }

  lemma CancelNext(executions: Executions, ws: seq<Worker>, i: nat, now: int, a: Executions)
    requires i < |ws| && CancelledAll(executions, ws[..i], now, a)
    ensures CancelledAll(executions, ws[..i + 1], now, CancelOne(ws[i], a, now))
  {
    assert ws[..i + 1] == ws[..i] + [ws[i]];
    var ws', b := ws[..i + 1], CancelOne(ws[i], a, now);
    forall id
      ensures CancelledAt(executions, ws', now, b, id)
    {
      assert CancelledAt(executions, ws[..i], now, a, id);
      assert Targets(ws[..i + 1], id) <==> Targets(ws[..i], id) || (Live(ws[i]) && ws[i].executionId == id);
    }
  }

  /** Ended executions no longer change, so what the workers were told stays true. */
  lemma EndedStay(ws: seq<Worker>, a: Executions, b: Executions)
    requires LiveEnded(ws, a) && a.Keys == b.Keys && Evolves(a, b)
    ensures LiveEnded(ws, b) && AllAfterCancel(ws, a) == AllAfterCancel(ws, b)
  {
    forall w | w in ws
      ensures AfterCancel(w, a) == AfterCancel(w, b)
      ensures Live(w) && w.executionId in b ==> Terminal(b[w.executionId].status)
    {
      assert Live(w) && w.executionId in a ==> Continues(a, b, w.executionId);
    }
  }

  lemma AfterNext(ws: seq<Worker>, i: nat, after: Executions)
    requires i < |ws| && LiveEnded(ws[..i], after)
    requires Live(ws[i]) && ws[i].executionId in after ==> Terminal(after[ws[i].executionId].status)
    ensures LiveEnded(ws[..i + 1], after)
    ensures AllAfterCancel(ws[..i + 1], after) == AllAfterCancel(ws[..i], after) + [AfterCancel(ws[i], after)]
  {
  }
}
