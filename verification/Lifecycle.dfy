/** The execution record and its lifecycle table. */
module Lifecycle {
  import opened Options

  /** `Unlisted` is any other word an agent runtime may report. */
  datatype Status = Queued | Running | Paused | Succeeded | Failed | Cancelled | Unlisted(name: string)

  datatype Snapshot = Snapshot(
    executionId: string, taskId: string, sessionId: string, agentId: Option<string>, status: Status,
    createdAt: Option<int>, startedAt: Option<int>, finishedAt: Option<int>,
    error: Option<string>, result: Option<string>, metadata: map<string, string>,
    history: seq<Status>, cancelRequested: bool)

  predicate Terminal(s: Status) { s.Succeeded? || s.Failed? || s.Cancelled? }

  predicate Allowed(current: Status, target: Status) {
    match current
    case Queued => target.Running? || target.Cancelled?
    case Running => target.Paused? || target.Succeeded? || target.Failed? || target.Cancelled?
    case Paused => target.Running? || target.Cancelled? || target.Failed?
    case _ => false
  }

  const TERMINAL: set<Status> := {Succeeded, Failed, Cancelled}

  /** The table of the code. */
  const TRANSITIONS: map<Status, set<Status>> :=
    map[Queued := {Running, Cancelled},
        Running := {Paused, Succeeded, Failed, Cancelled},
        Paused := {Running, Cancelled, Failed},
        Succeeded := {}, Failed := {}, Cancelled := {}]

  /** The lifecycle is the table: work starts and resumes, pauses, and ends, and an end is final. */
  lemma LifecycleIsTable(current: Status, target: Status)
    ensures Allowed(current, target) <==> current in TRANSITIONS && target in TRANSITIONS[current]
    ensures Terminal(current) <==> current in TERMINAL
    ensures Terminal(current) <==> current in TRANSITIONS && TRANSITIONS[current] == {}
  {
    assert Running in TRANSITIONS[Queued] && Running in TRANSITIONS[Paused] && Paused in TRANSITIONS[Running];
  }

  function Fresh(id: string, taskId: string, sessionId: string, agentId: Option<string>, metadata: map<string, string>, now: int): Snapshot {
    Snapshot(id, taskId, sessionId, agentId, Queued, Some(now), None, None, None, None, metadata, [Queued], false)
  }

  /** The record after an allowed transition. */
  function Advance(rec: Snapshot, target: Status, now: int): Snapshot {
    rec.(status := target,
         history := rec.history + [target],
         startedAt := if target.Running? && rec.startedAt.None? then Some(now) else rec.startedAt,
         finishedAt := if Terminal(target) then Some(now) else rec.finishedAt,
         cancelRequested := rec.cancelRequested || target.Cancelled?)
  }

  /** A walk through the lifecycle table from the queue. */
  predicate LegalPath(h: seq<Status>) {
    && |h| > 0 && h[0].Queued?
    && forall i :: 0 <= i < |h| - 1 ==> Allowed(h[i], h[i + 1])
  }

  predicate WellFormed(s: Snapshot) {
    && LegalPath(s.history) && s.history[|s.history| - 1] == s.status
    && (s.finishedAt.Some? <==> Terminal(s.status))
    && (s.startedAt.Some? <==> Running in s.history)
    && (s.cancelRequested <==> s.status.Cancelled?)
  }

  lemma FreshIsWellFormed(id: string, taskId: string, sessionId: string, agentId: Option<string>, metadata: map<string, string>, now: int)
    ensures WellFormed(Fresh(id, taskId, sessionId, agentId, metadata, now))
  {
  }

  /** Every allowed transition keeps the whole record consistent. */
  lemma AdvanceKeepsWellFormed(rec: Snapshot, target: Status, now: int)
    requires WellFormed(rec) && Allowed(rec.status, target)
    ensures WellFormed(Advance(rec, target, now)) && rec.history <= Advance(rec, target, now).history
  {
  }

  /** In a legal history only the last status can be terminal, so a terminal record has no
      legal continuation. */
  lemma TerminalEndsHistory(h: seq<Status>, i: nat)
    requires LegalPath(h) && i < |h| && Terminal(h[i])
    ensures i == |h| - 1
    ensures forall longer :: LegalPath(longer) && h <= longer ==> longer == h
  {
    assert i < |h| - 1 ==> Allowed(h[i], h[i + 1]);
    forall longer | LegalPath(longer) && h <= longer
      ensures longer == h
    {
      assert |longer| > |h| ==> longer[i] == h[i] && Allowed(longer[i], longer[i + 1]);
    }
  }

  /** What the lifecycle fixes about a record; the payload fields stay open. */
  datatype Core = Core(executionId: string, status: Status, history: seq<Status>, createdAt: Option<int>,
                       startedAt: Option<int>, finishedAt: Option<int>, cancelRequested: bool)

  function CoreOf(s: Snapshot): Core {
    Core(s.executionId, s.status, s.history, s.createdAt, s.startedAt, s.finishedAt, s.cancelRequested)
  }

  type Executions = map<string, Snapshot>

  predicate Continues(a: Executions, b: Executions, id: string)
    requires id in a
  {
    && id in b && a[id].history <= b[id].history && a[id].createdAt == b[id].createdAt
    && (Terminal(a[id].status) ==> CoreOf(a[id]) == CoreOf(b[id]))
  }

  /** Executions are never dropped, histories only grow, terminal records keep their core. */
  ghost predicate Evolves(a: Executions, b: Executions) {
    forall id {:trigger Continues(a, b, id)} :: id in a ==> Continues(a, b, id)
  }

  lemma EvolvesTransitive(a: Executions, b: Executions, c: Executions)
    requires Evolves(a, b) && Evolves(b, c)
    ensures Evolves(a, c)
  {
    forall id | id in a
      ensures Continues(a, c, id)
    {
      assert Continues(a, b, id);
      assert Continues(b, c, id);
    }
  }
}
