/** Events reported by agents, projected onto executions. The projection writes past the lifecycle
    table: it takes any status as it comes. */
module AgentRuntime {
  import opened Options
  import opened Lifecycle

  /** For an optional text, absent and empty are the same to the code. */
  datatype AgentEvent = AgentEvent(
    eventId: string, eventType: string, executionId: string, taskId: string, sessionId: string,
    status: Option<Status>, agentId: string, metadata: map<string, string>)

  /** The record after an event that reports a status. */
  function Projected(rec: Snapshot, status: Status, agentId: string): Snapshot {
    rec.(status := status,
         agentId := if rec.agentId.Some? && rec.agentId.value != "" then rec.agentId
                    else if agentId != "" then Some(agentId) else None,
         history := if status in rec.history then rec.history else rec.history + [status],
         cancelRequested := rec.cancelRequested || status.Cancelled?)
  }

  /** What is stored of an event, apart from its generated id and its time. */
  datatype Logged = Logged(event: AgentEvent, sequence: nat)

  datatype View = View(executions: Executions, events: seq<Logged>, seen: set<string>)

  predicate Repeated(v: View, e: AgentEvent) { e.eventId != "" && e.eventId in v.seen }

  function After(v: View, e: AgentEvent): View {
    if Repeated(v, e) then v
    else
      View(if e.executionId != "" && e.executionId in v.executions && e.status.Some? then
             v.executions[e.executionId := Projected(v.executions[e.executionId], e.status.value, e.agentId)]
           else v.executions,
           v.events + [Logged(e, |v.events| + 1)],
           if e.eventId != "" then v.seen + {e.eventId} else v.seen)
  }

  function Run(v: View, stream: seq<AgentEvent>): View
    decreases |stream|
  {
    if stream == [] then v else Run(After(v, stream[0]), stream[1..])
  }

  /** The position repeats an id that occurs before it in the stream. */
  predicate Repeats(stream: seq<AgentEvent>, i: nat)
    requires i < |stream|
  {
    stream[i].eventId != "" && exists j :: 0 <= j < i && stream[j].eventId == stream[i].eventId
  }

  /** The stream without its repeats. */
  function Distinct(stream: seq<AgentEvent>): seq<AgentEvent> {
    if stream == [] then []
    else
      var n := |stream| - 1;
      Distinct(stream[..n]) + if Repeats(stream, n) then [] else [stream[n]]
  }

  lemma RunLast(v: View, stream: seq<AgentEvent>, e: AgentEvent)
    ensures Run(v, stream + [e]) == After(Run(v, stream), e)
    decreases |stream|
  {
    if stream != [] {
      assert (stream + [e])[1..] == stream[1..] + [e];
      RunLast(After(v, stream[0]), stream[1..], e);
    }
  }

  lemma {:induction false} SeenByRun(v: View, stream: seq<AgentEvent>)
    ensures forall id :: id in Run(v, stream).seen <==>
              id in v.seen || (id != "" && exists j :: 0 <= j < |stream| && stream[j].eventId == id)
    decreases |stream|
  {
    if stream != [] {
      var n := |stream| - 1;
      assert stream == stream[..n] + [stream[n]];
      RunLast(v, stream[..n], stream[n]);
      SeenByRun(v, stream[..n]);
      assert forall j :: 0 <= j < n ==> stream[..n][j] == stream[j];
    }
  }

  /** Delivering events again changes nothing: a stream projects like the stream without its
      repeats. */
  lemma {:induction false} RepeatsChangeNothing(v: View, stream: seq<AgentEvent>)
    requires v.seen == {}
    ensures Run(v, Distinct(stream)) == Run(v, stream)
    decreases |stream|
  {
    if stream != [] {
      var n := |stream| - 1;
      assert stream == stream[..n] + [stream[n]];
      RunLast(v, stream[..n], stream[n]);
      RepeatsChangeNothing(v, stream[..n]);
      SeenByRun(v, stream[..n]);
      assert forall j :: 0 <= j < n ==> stream[..n][j] == stream[j];
      assert Repeats(stream, n) <==> Repeated(Run(v, stream[..n]), stream[n]);
      if !Repeats(stream, n) {
        RunLast(v, Distinct(stream[..n]), stream[n]);
      } else {
        assert Distinct(stream) == Distinct(stream[..n]);
      }
    }
  }

  /** Of the statuses an event can report about a legal record, the record stays legal under two
      only: the status it has, and the first pause of a running execution. Any other one, in
      particular any ending, leaves the times or the history inconsistent. */
  lemma ProjectionIsLegalIff(rec: Snapshot, status: Status, agentId: string)
    requires WellFormed(rec)
    ensures WellFormed(Projected(rec, status, agentId)) <==>
              status == rec.status || (status.Paused? && rec.status.Running? && Paused !in rec.history)
  {
    var h, next := rec.history, Projected(rec, status, agentId).history;
    assert h[|h| - 1] in h;
    if status !in h {
      assert next[|h| - 1] == h[|h| - 1] && next[|h|] == status;
      assert LegalPath(next) ==> Allowed(h[|h| - 1], status);
      if Allowed(rec.status, status) {
        forall i | 0 <= i < |next| - 1
          ensures Allowed(next[i], next[i + 1])
        {
          assert i < |h| - 1 ==> Allowed(h[i], h[i + 1]);
        }
        assert rec.status.Paused? ==> Running in h by {
          assert |h| > 1 ==> Allowed(h[|h| - 2], h[|h| - 1]) && h[|h| - 2] in h;
        }
      }
      assert Running in next <==> Running in h || status == Running;
    }
  }

  /** The adapter with no runtime bound, together with the records and events of its store. */
  class InProcessAgentRuntimeAdapter {
    var executions: Executions
    var events: seq<Logged>
    var seenEventIds: set<string>

    function State(): View
      reads this
    {
      View(executions, events, seenEventIds)
    }

    constructor (executions: Executions, events: seq<Logged>)
      ensures State() == View(executions, events, {})
    {
      this.executions, this.events, seenEventIds := executions, events, {};
    }

    method IngestEvent(e: AgentEvent) returns (stored: Option<Logged>)
      modifies this
      ensures State() == After(old(State()), e)
      ensures stored.None? <==> Repeated(old(State()), e)
    {
      if e.eventId != "" && e.eventId in seenEventIds {
        return None;
      }
      if e.eventId != "" {
        seenEventIds := seenEventIds + {e.eventId};
      }
      if e.executionId != "" && e.executionId in executions && e.status.Some? {
        var updated := Update(executions[e.executionId], e);
        executions := executions[e.executionId := updated];
      }
      var logged := Logged(e, |events| + 1);
      events := events + [logged];
      return Some(logged);
    }

    /** The updated record: the reported status, whatever the table says. */
    method Update(existing: Snapshot, e: AgentEvent) returns (updated: Snapshot)
      requires e.status.Some?
      ensures updated == Projected(existing, e.status.value, e.agentId)
    {
      var status := e.status.value;
      var agentId := existing.agentId;
      if agentId == None || agentId == Some("") {
        agentId := if e.agentId == "" then None else Some(e.agentId);
      }
      var history := existing.history;
      if status !in history {
        history := history + [status];
      }
      updated := Snapshot(existing.executionId, existing.taskId, existing.sessionId, agentId, status, existing.createdAt,
                          existing.startedAt, existing.finishedAt, existing.error, existing.result, existing.metadata, history,
                          existing.cancelRequested || status == Cancelled);
    }

    method IngestAll(stream: seq<AgentEvent>)
      requires seenEventIds == {}
      modifies this
      ensures State() == Run(old(State()), Distinct(stream))
    {
      for i := 0 to |stream|
        invariant State() == Run(old(State()), stream[..i])
      {
        var _ := IngestEvent(stream[i]);
        RunLast(old(State()), stream[..i], stream[i]);
        assert stream[..i + 1] == stream[..i] + [stream[i]];
      }
      assert stream[..|stream|] == stream;
      RepeatsChangeNothing(old(State()), stream);
    }
  }
}
