/** The conversational interface of one worker: it asks for control actions, confirms them and
    cancels them. The ghost `hub` follows the interleaving model: every access to the shared
    state is one of its steps, so whatever holds of all interleavings of steps holds of all
    interleavings of these calls. */
module Interface {
  import opened Options
  import opened TimedMap
  import opened MemoryBackend
  import opened Confirmation
  import Lifecycle
  import ExecutionStore
  import Correlation
  import ControlApi

  const SUPPORTED := ["start", "cancel", "retry", "re-run", "approve", "reject", "pause", "resume"]

  function ActionOf(operation: string): ControlApi.Action {
    if operation == "start" then ControlApi.Start
    else if operation == "cancel" then ControlApi.Cancel
    else if operation == "retry" then ControlApi.Retry
    else if operation == "re-run" then ControlApi.ReRun
    else if operation == "approve" then ControlApi.Approve
    else if operation == "reject" then ControlApi.Reject
    else if operation == "pause" then ControlApi.Pause
    else if operation == "resume" then ControlApi.Resume
    else ControlApi.Unsupported(operation)
  }

  function TextOf(o: Option<string>): string { if o.Some? then o.value else "" }

  /** The clock readings of one confirmation, in the order in which the code takes them. */
  datatype Readings = Readings(fetch: int, check: int, peek: int, swap: int, swapStamp: int, save: int, claim: int, claimStamp: int)

  predicate InOrder(start: int, r: Readings) {
    start <= r.fetch <= r.check <= r.peek <= r.swap <= r.swapStamp <= r.save <= r.claim <= r.claimStamp
  }

  datatype Answer =
    | MissingToken | UnknownToken | ExpiredToken | WrongActor | AlreadyUsed
    | Answered(reply: ControlApi.Reply)

  datatype Offer = NoOperation | UnmappedSlackUser | NotSupported | NoExecution | Offered(token: string)

  /** The confirmed request as the control API gets it. */
  function ControlRequestOf(req: Request, p: Pending, role: Option<ControlApi.Role>): ControlApi.ControlRequest {
    ControlApi.ControlRequest(ActionOf(p.operation),
                              if req.actor != "" then req.actor else if p.actor != "" then p.actor else "anonymous",
                              TextOf(p.executionId), "", EventId(req.token), "", role)
  }

  function ArrivalOf(req: Request, p: Pending, role: Option<ControlApi.Role>, newId: string, newSession: string, r: Readings): ControlApi.Arrival {
    ControlApi.Arrival(ControlRequestOf(req, p, role), newId, newSession, r.claim, r.claimStamp)
  }

  /** The two worlds differ at most in the shared state. */
  ghost predicate SameButTable(w: ControlApi.World, w': ControlApi.World) { w' == w.(table := w'.table) }

  /** A confirmation without a token, or without an action to confirm, is turned away and changes
      nothing beyond the shared state; every other one is answered by the control API. */
  ghost predicate Confirms(table: Table<Value>, w: ControlApi.World, w': ControlApi.World, req: Request, session: Option<Pending>,
                           role: Option<ControlApi.Role>, newId: string, newSession: string, r: Readings, answer: Answer)
  {
    var found := FoundFor(table, req, session, r.fetch);
    if req.token == "" then answer == MissingToken && SameButTable(w, w')
    else if Refusal(found, req.actor, r.check).Some? then Some(answer) == Refusal(found, req.actor, r.check) && SameButTable(w, w')
    else
      match TakenFor(table, req, session, found.value, r)
      case None => answer == AlreadyUsed && SameButTable(w, w')
      case Some(p) =>
        var arrival := ArrivalOf(req, p, role, newId, newSession, r);
        var after := ControlApi.Afterwards(w, arrival);
        && answer.Answered?
        && if answer.reply.Died? then
             && w'.executions == after.executions && w'.approvals == after.approvals
             && (w'.events == w.events || w'.events == after.events)
           else SameButTable(after, w') && answer.reply == ControlApi.ReplyTo(w, arrival)
  }

  /** The confirmation gets hold of the action, whose claim is free and which the role may take. */
  ghost predicate Takes(table: Table<Value>, req: Request, session: Option<Pending>, role: Option<ControlApi.Role>, r: Readings, p: Pending) {
    && req.token != "" && var found := FoundFor(table, req, session, r.fetch);
    && Refusal(found, req.actor, r.check).None? && TakenFor(table, req, session, found.value, r) == Some(p)
    && Read(table, Slot("control_events", "nl-" + req.token), r.claim) == None && role != Some(ControlApi.Viewer)
    && ((p.executionId != None && p.executionId != Some("")) || p.operation in {"approve", "reject"})
  }

  /** What was asked for is what is done. */
  ghost predicate DoneAsAsked(operation: string, id: string, w: ControlApi.World, w': ControlApi.World, newId: string, newSession: string,
                              now: int)
  {
    && (operation == "cancel" ==> ControlApi.SteeredTo(w, w', id, ExecutionStore.CancelOutcome(w.executions, id, now)))
    && (operation == "pause" ==> ControlApi.SteeredTo(w, w', id, ExecutionStore.TransitionOutcome(w.executions, id, Lifecycle.Paused, now)))
    && (operation == "start" ==> ControlApi.SteeredTo(w, w', id, ExecutionStore.TransitionOutcome(w.executions, id, Lifecycle.Running, now)))
    && (operation == "resume" ==> ControlApi.SteeredTo(w, w', id, ExecutionStore.TransitionOutcome(w.executions, id, Lifecycle.Running, now)))
    && (operation in {"retry", "re-run"} ==> ControlApi.Restarted(w, w', id, newId, newSession, now))
    && (operation == "approve" ==> ControlApi.DecidedAs(w, w', id, "production_merge", true))
    && (operation == "reject" ==> ControlApi.DecidedAs(w, w', id, "production_merge", false))
  }

  /** A confirmation that takes an action does what was asked for. */
  lemma ConfirmationsAreKept(table: Table<Value>, w: ControlApi.World, w': ControlApi.World, req: Request, session: Option<Pending>,
                             role: Option<ControlApi.Role>, newId: string, newSession: string, r: Readings, answer: Answer, p: Pending)
    requires Confirms(table, w, w', req, session, role, newId, newSession, r, answer) && w.table == table
    requires Takes(table, req, session, role, r, p) && w'.patterns == w.patterns
    ensures DoneAsAsked(p.operation, TextOf(p.executionId), w, w', newId, newSession, r.claim)
  {
    var a := ArrivalOf(req, p, role, newId, newSession, r);
    TakenIsAnswered(table, w, w', req, session, role, newId, newSession, r, answer, p);
    AdmittedIsDone(w, a, p.operation);
    DoneCarries(p.operation, TextOf(p.executionId), w, ControlApi.Afterwards(w, a), w', newId, newSession, r.claim);
  }

  lemma TakenIsAnswered(table: Table<Value>, w: ControlApi.World, w': ControlApi.World, req: Request, session: Option<Pending>,
                        role: Option<ControlApi.Role>, newId: string, newSession: string, r: Readings, answer: Answer, p: Pending)
    requires Confirms(table, w, w', req, session, role, newId, newSession, r, answer) && w.table == table
    requires Takes(table, req, session, role, r, p)
    ensures var a := ArrivalOf(req, p, role, newId, newSession, r);
            var after := ControlApi.Afterwards(w, a);
            && w'.executions == after.executions && w'.approvals == after.approvals
            && a.request.action == ActionOf(p.operation) && a.request.executionId == TextOf(p.executionId) && a.request.targetAction == ""
            && (p.operation in SUPPORTED ==> ControlApi.Admitted(w.ix, w.table, a.request, a.now))
            && a.newId == newId && a.newSession == newSession && a.now == r.claim
  {
    OperationsAreActions(p.operation);
    ControlApi.AdmissionMeans(w, ArrivalOf(req, p, role, newId, newSession, r).request, r.claim);
  }

  lemma AdmittedIsDone(w: ControlApi.World, a: ControlApi.Arrival, operation: string)
    requires a.request.action == ActionOf(operation) && a.request.targetAction == ""
    requires operation in SUPPORTED ==> ControlApi.Admitted(w.ix, w.table, a.request, a.now)
    requires a.request.executionId != "" || a.request.correlationId == ""
    ensures DoneAsAsked(operation, a.request.executionId, w, ControlApi.Afterwards(w, a), a.newId, a.newSession, a.now)
  {
    OperationsAreActions(operation);
    ControlApi.RequestsAreFulfilled(w, a);
    ControlApi.AdmissionMeans(w, a.request, a.now);
    assert operation in {"start", "cancel", "retry", "re-run", "approve", "reject", "pause", "resume"} ==> operation in SUPPORTED;
  }

  lemma DoneCarries(operation: string, id: string, w: ControlApi.World, after: ControlApi.World, w': ControlApi.World, newId: string,
                    newSession: string, now: int)
    requires DoneAsAsked(operation, id, w, after, newId, newSession, now)
    requires w'.executions == after.executions && w'.approvals == after.approvals
    ensures DoneAsAsked(operation, id, w, w', newId, newSession, now)
  {
  }

  /** Each operation of the interface is the action of that name. */
  lemma OperationsAreActions(operation: string)
    ensures ActionOf("start") == ControlApi.Start && ActionOf("cancel") == ControlApi.Cancel
    ensures ActionOf("retry") == ControlApi.Retry && ActionOf("re-run") == ControlApi.ReRun
    ensures ActionOf("approve") == ControlApi.Approve && ActionOf("reject") == ControlApi.Reject
    ensures ActionOf("pause") == ControlApi.Pause && ActionOf("resume") == ControlApi.Resume
    ensures operation !in SUPPORTED ==> ActionOf(operation).Unsupported?
  {
    assert forall o :: o in SUPPORTED <==> o in {"start", "cancel", "retry", "re-run", "approve", "reject", "pause", "resume"};
  }

  /** The action a confirmation starts from: the shared copy, or else the session's own. */
  function FoundFor(table: Table<Value>, req: Request, session: Option<Pending>, at: int): Option<Pending> {
    var stored := StoredPending(table, req.token, at);
    if stored.Some? then stored else if Matches(session, req.token) then session else None
  }

  /** Why a confirmation is turned away at once, if it is. */
  function Refusal(found: Option<Pending>, actor: string, at: int): Option<Answer> {
    if found.None? then Some(UnknownToken)
    else if found.value.expiresAt < at then Some(ExpiredToken)
    else if !ActorFits(found.value, actor) then Some(WrongActor)
    else None
  }

  /** The check step turns away exactly what is refused, and touches nothing else. */
  lemma CheckRefuses(h: Hub, w: nat, req: Request, session: Option<Pending>, p: Pending, at: int)
    requires h.clock <= at && PhaseOf(h, w) == Fetched(req, session, p)
    ensures var h' := Next(h, Step(Check(w), at, at));
            && h'.table == h.table && h'.log == h.log && h'.clock == at
            && PhaseOf(h', w) == if Refusal(Some(p), req.actor, at).Some? then Idle else Checked(req, session, p, at)
  {
  }

  function ConsumeRun(w: nat, r: Readings): seq<Step> {
    [Step(Peek(w), r.peek, r.peek), Step(Swap(w), r.swap, r.swapStamp), Step(Settle(w), r.swapStamp, r.swapStamp)]
  }

  /** What consuming gets: the copy that was read, if it is still there to be swapped out. */
  function ConsumedFrom(table: Table<Value>, token: string, r: Readings): Option<Pending> {
    var data := StoredPending(table, token, r.peek);
    if data.Some? && Read(table, PendingSlot(token), r.swap) == Some(PendingControl(data.value)) then data else None
  }

  /** The action a worker that is not turned away goes on with, if it does. */
  function TakenFor(table: Table<Value>, req: Request, session: Option<Pending>, p: Pending, r: Readings): Option<Pending> {
    var consumed := ConsumedFrom(table, req.token, r);
    if consumed.Some? then consumed else if Matches(session, req.token) then Some(p) else None
  }

  /** The claims of event ids are as they were. */
  ghost predicate ClaimsKept(before: Table<Value>, after: Table<Value>) {
    forall id {:trigger ClaimSlot(id)} ::
      (ClaimSlot(id) in after <==> ClaimSlot(id) in before) && (ClaimSlot(id) in before ==> after[ClaimSlot(id)] == before[ClaimSlot(id)])
  }

  /** With the same claims a request has the same outcome, but for the other slots of the table. */
  lemma SameClaimsSameOutcome(w: ControlApi.World, table: Table<Value>, a: ControlApi.Arrival)
    requires ClaimsKept(w.table, table)
    ensures ControlApi.ReplyTo(w.(table := table), a) == ControlApi.ReplyTo(w, a)
    ensures var x, y := ControlApi.Afterwards(w.(table := table), a), ControlApi.Afterwards(w, a);
            x == y.(table := x.table)
  {
    assert ControlApi.ClaimAlive(table, a.request.eventId, a.now) <==> ControlApi.ClaimAlive(w.table, a.request.eventId, a.now) by {
      assert ClaimSlot(a.request.eventId) in table <==> ClaimSlot(a.request.eventId) in w.table;
    }
  }

  lemma ConsumeSteps(h: Hub, w: nat, req: Request, session: Option<Pending>, p: Pending, checkedAt: int, r: Readings)
    requires h.clock <= r.peek <= r.swap <= r.swapStamp && PhaseOf(h, w) == Checked(req, session, p, checkedAt)
    ensures var h', consumed := Confirmation.Run(h, ConsumeRun(w, r)), ConsumedFrom(h.table, req.token, r);
            && h'.clock == r.swapStamp && h'.log == h.log
            && h'.table == (if consumed.Some? then h.table - {PendingSlot(req.token)} else h.table)
            && PhaseOf(h', w) == (if consumed.Some? then Ready(req, consumed.value, checkedAt)
                                  else if Matches(session, req.token) then Ready(req, p, checkedAt) else Idle)
  {
    var steps := ConsumeRun(w, r);
    RunThree(h, steps[0], steps[1], steps[2]);
    var data, consumed := StoredPending(h.table, req.token, r.peek), ConsumedFrom(h.table, req.token, r);
    PeekReads(h, w, req, session, p, checkedAt, r.peek);
    SwapTakes(Next(h, steps[0]), w, req, session, p, checkedAt, data, r);
    SettleDrops(Next(Next(h, steps[0]), steps[1]), w, req, session, p, checkedAt, consumed, r.swapStamp);
    assert h.table - {PendingSlot(req.token)} - {PendingSlot(req.token)} == h.table - {PendingSlot(req.token)};
  }

  lemma PeekReads(h: Hub, w: nat, req: Request, session: Option<Pending>, p: Pending, checkedAt: int, at: int)
    requires h.clock <= at && PhaseOf(h, w) == Checked(req, session, p, checkedAt)
    ensures var h' := Next(h, Step(Peek(w), at, at));
            && h'.table == h.table && h'.clock == at && h'.log == h.log
            && PhaseOf(h', w) == Peeked(req, session, p, checkedAt, StoredPending(h.table, req.token, at))
  {
  }

  lemma SwapTakes(h: Hub, w: nat, req: Request, session: Option<Pending>, p: Pending, checkedAt: int, data: Option<Pending>, r: Readings)
    requires h.clock <= r.swap <= r.swapStamp && PhaseOf(h, w) == Peeked(req, session, p, checkedAt, data)
    ensures var h' := Next(h, Step(Swap(w), r.swap, r.swapStamp));
            var taken := data.Some? && Read(h.table, PendingSlot(req.token), r.swap) == Some(PendingControl(data.value));
            && h'.table == (if taken then h.table - {PendingSlot(req.token)} else h.table) && h'.clock == r.swapStamp && h'.log == h.log
            && PhaseOf(h', w) == Swapped(req, session, p, checkedAt, if taken then data else None)
  {
  }

  lemma SettleDrops(h: Hub, w: nat, req: Request, session: Option<Pending>, p: Pending, checkedAt: int, consumed: Option<Pending>, at: int)
    requires h.clock <= at && PhaseOf(h, w) == Swapped(req, session, p, checkedAt, consumed)
    ensures var h' := Next(h, Step(Settle(w), at, at));
            && h'.table == (if consumed.Some? then h.table - {PendingSlot(req.token)} else h.table) && h'.clock == at && h'.log == h.log
            && PhaseOf(h', w) == (if consumed.Some? then Ready(req, consumed.value, checkedAt)
                                  else if Matches(session, req.token) then Ready(req, p, checkedAt) else Idle)
  {
  }

  class YasinInterface {
    const shared: MemorySharedState<Value>
    const control: ControlApi.ControlAPI
    ghost var hub: Hub

    ghost predicate Synced()
      reads this, shared
    {
      shared.Valid() && hub.table == shared.table && shared.clock <= hub.clock
    }

    ghost predicate Valid()
      reads this, shared, control, control.policy, control.policy.shared, control.store, control.corr
    {
      Synced() && control.Valid() && control.policy.shared == shared
    }

    constructor (shared: MemorySharedState<Value>, control: ControlApi.ControlAPI, ghost hub: Hub)
      requires shared.Valid() && control.Valid() && control.policy.shared == shared
      requires hub.table == shared.table && shared.clock <= hub.clock
      ensures Valid() && this.shared == shared && this.control == control && this.hub == hub
    {
      this.shared, this.control, this.hub := shared, control, hub;
    }

    /** `get_pending_control`, or else the action in the session at hand. */
    method Fetch(ghost w: nat, req: Request, session: Option<Pending>, at: int) returns (pending: Option<Pending>)
      requires Synced() && hub.clock <= at && PhaseOf(hub, w) == Loaded(req, session)
      modifies shared, this`hub
      ensures Synced() && hub.clock == at && hub == Next(old(hub), Step(Action.Fetch(w), at, at))
      ensures hub.log == old(hub.log) && hub.table == old(hub).table
      ensures pending == FoundFor(old(hub).table, req, session, at)
      ensures PhaseOf(hub, w) == if pending.Some? then Fetched(req, session, pending.value) else Idle
    {
      var data := shared.Get(PendingSlot(req.token), at);
      pending := if data.Some? && data.value.PendingControl? then Some(data.value.pending) else None;
      if pending.None? && Matches(session, req.token) {
        pending := session;
      }
      hub := Next(hub, Step(Action.Fetch(w), at, at));
    }

    /** `consume_pending_control`: read, compare and set to nothing, delete. */
    method Consume(ghost w: nat, req: Request, session: Option<Pending>, p: Pending, checkedAt: int, r: Readings)
      returns (consumed: Option<Pending>, ghost steps: seq<Step>)
      requires Synced() && hub.clock <= r.peek <= r.swap <= r.swapStamp
      requires PhaseOf(hub, w) == Checked(req, session, p, checkedAt)
      modifies shared, this`hub
      ensures Synced() && hub.clock == r.swapStamp
      ensures steps == ConsumeRun(w, r) && consumed == ConsumedFrom(old(hub).table, req.token, r)
      ensures hub == Confirmation.Run(old(hub), steps) && hub.log == old(hub.log) && ClaimsKept(old(hub).table, hub.table)
      ensures PhaseOf(hub, w) ==
              if consumed.Some? then Ready(req, consumed.value, checkedAt)
              else if Matches(session, req.token) then Ready(req, p, checkedAt) else Idle
    {
      NamespacesApart();
      steps := ConsumeRun(w, r);
      ConsumeSteps(hub, w, req, session, p, checkedAt, r);
      var found := shared.Get(PendingSlot(req.token), r.peek);
      var data := if found.Some? && found.value.PendingControl? then Some(found.value.pending) else None;
      consumed := None;
      if data.Some? {
        var swapped := shared.CompareAndSet(PendingSlot(req.token), Some(PendingControl(data.value)), None, Some(1), r.swap, r.swapStamp);
        if swapped {
          shared.Delete(PendingSlot(req.token));
          consumed := data;
        }
      }
      hub := Confirmation.Run(hub, steps);
    }

    /** The session is saved without a pending action. */
    method SaveSettled(session: string, at: int)
      requires Synced() && hub.clock <= at
      modifies shared, this`hub
      ensures hub.log == old(hub.log) && hub.workers == old(hub.workers) && ClaimsKept(old(hub).table, hub.table)
      ensures Synced() && hub.clock == at && hub == Next(old(hub), Step(SaveSession(session, None), at, at))
    {
      NamespacesApart();
      shared.Set(SessionSlot(session), Some(SessionData(None)), Some(SESSION_TTL), at);
      hub := Next(hub, Step(SaveSession(session, None), at, at));
    }

    method ClearToken(token: string)
      requires Synced()
      modifies shared, this`hub
      ensures Synced() && hub.clock == old(hub.clock) && hub.log == old(hub.log) && hub.workers == old(hub.workers)
      ensures hub == Next(old(hub), Step(ClearPending(token), old(hub.clock), old(hub.clock))) && ClaimsKept(old(hub).table, hub.table)
    {
      NamespacesApart();
      shared.Delete(PendingSlot(token));
      hub := Next(hub, Step(ClearPending(token), hub.clock, hub.clock));
    }

    /** The call of the control API: all that it does to the shared state is to claim the event id,
        and only a request that wins the claim changes the execution store. */
    method CallControl(arrival: ControlApi.Arrival) returns (reply: ControlApi.Reply, ghost changed: bool)
      requires shared.Valid() && control.Valid() && control.policy.shared == shared
      requires shared.clock <= arrival.now <= arrival.stamp
      requires arrival.newId in control.store.ids && arrival.newId !in control.store.executions
      modifies shared, control.policy, control.store, control.corr
      ensures shared.Valid() && (!reply.Died? ==> control.Valid())
      ensures old(control.store.persists) <= control.store.persists && reply.Died? == control.DiedSince(old(control.store.persists))
      ensures ControlApi.Came(old(control.State()), ControlApi.Afterwards(old(control.State()), arrival), control.State(),
                              ControlApi.ReplyTo(old(control.State()), arrival), reply)
      ensures changed <==> control.store.executions != old(control.store.executions) || control.store.events != old(control.store.events)
      ensures ClaimsFor(old(control.corr.State()), old(shared.table), shared.table, arrival, changed)
      ensures shared.clock <= if ControlApi.Authorizes(old(control.corr.State()), arrival.request) then arrival.stamp else old(shared.clock)
    {
      ControlApi.ActsOrNot(control.State(), arrival);
      ghost var before := control.State();
      reply := control.Handle(arrival);
      changed := control.store.executions != before.executions || control.store.events != before.events;
    }

    /** The control API's part of a confirmation is a claim and an execution step, or neither when
        the request does not get as far as the policy engine. The execution store changes only
        together with an entry in the protocol's log. */
    method Execute(ghost w: nat, req: Request, arrival: ControlApi.Arrival) returns (reply: ControlApi.Reply, ghost steps: seq<Step>)
      requires Valid() && hub.clock <= arrival.now <= arrival.stamp && arrival.request.eventId == EventId(req.token)
      requires PhaseOf(hub, w).Ready? && PhaseOf(hub, w).req == req
      requires arrival.newId in control.store.ids && arrival.newId !in control.store.executions
      modifies shared, this`hub, control.policy, control.store, control.corr
      ensures !reply.Died? ==> Valid()
      ensures old(control.store.persists) <= control.store.persists && reply.Died? == control.DiedSince(old(control.store.persists))
      ensures ControlApi.Came(old(control.State()), ControlApi.Afterwards(old(control.State()), arrival), control.State(),
                              ControlApi.ReplyTo(old(control.State()), arrival), reply)
      ensures hub == Confirmation.Run(old(hub), steps) && OwnSteps(steps, w)
      ensures LogTells(old(hub.log), hub.log, req.token,
                       control.store.executions != old(control.store.executions) || control.store.events != old(control.store.events))
    {
      ghost var ix := control.corr.State();
      ghost var changed;
      reply, changed := CallControl(arrival);
      ExecutionSteps(ix, hub, w, arrival, shared.table, changed);
      steps := if ControlApi.Authorizes(ix, arrival.request) then ClaimSteps(w, changed, arrival.now, arrival.stamp) else [];
      hub := Confirmation.Run(hub, steps);
    }

    /** The action is found, in time, and the actor may confirm it; or the worker is done. */
    method Admit(ghost w: nat, req: Request, session: Option<Pending>, r: Readings)
      returns (refusal: Answer, admitted: Option<Pending>, ghost steps: seq<Step>)
      requires Synced() && InOrder(hub.clock, r) && PhaseOf(hub, w) == Loaded(req, session)
      modifies shared, this`hub
      ensures Synced() && hub.log == old(hub.log) && hub == Confirmation.Run(old(hub), steps) && OwnSteps(steps, w)
      ensures ClaimsKept(old(hub).table, hub.table) && (admitted.Some? ==> hub.table == old(hub).table)
      ensures var found := FoundFor(old(hub).table, req, session, r.fetch);
              match Refusal(found, req.actor, r.check)
              case None => admitted == found && PhaseOf(hub, w) == Checked(req, session, found.value, r.check) && hub.clock == r.check
              case Some(why) => admitted == None && refusal == why && PhaseOf(hub, w).Idle? && hub.clock <= r.save
    {
      refusal, admitted := UnknownToken, None;
      var pending := Fetch(w, req, session, r.fetch);
      steps := [Step(Action.Fetch(w), r.fetch, r.fetch)];
      RunOneMore(old(hub), [], steps[0]);
      assert [] + [steps[0]] == steps;
      if pending.None? {
        return;
      }
      var p := pending.value;
      ghost var check := Step(Check(w), r.check, r.check);
      RunOneMore(old(hub), steps, check);
      steps := steps + [check];
      CheckRefuses(hub, w, req, session, p, r.check);
      hub := Next(hub, check);
      if p.expiresAt < r.check {
        refusal, steps := Drop(w, req, steps, old(hub), r.save);
      } else if p.actor != "" && req.actor != "" && p.actor != req.actor {
        refusal := WrongActor;
      } else {
        admitted := pending;
      }
    }

    /** The shared copy is consumed, and the session saved without it; or the worker is done. */
    method Take(ghost w: nat, req: Request, session: Option<Pending>, p: Pending, r: Readings)
      returns (ready: Option<Pending>, ghost steps: seq<Step>)
      requires Synced() && hub.clock <= r.peek <= r.swap <= r.swapStamp <= r.save
      requires PhaseOf(hub, w) == Checked(req, session, p, r.check)
      modifies shared, this`hub
      ensures Synced() && hub.clock <= r.save && hub.log == old(hub.log)
      ensures hub == Confirmation.Run(old(hub), steps) && OwnSteps(steps, w)
      ensures ready == TakenFor(old(hub).table, req, session, p, r) && ClaimsKept(old(hub).table, hub.table)
      ensures PhaseOf(hub, w) == if ready.Some? then Ready(req, ready.value, r.check) else Idle
    {
      var consumed;
      consumed, steps := Consume(w, req, session, p, r.check, r);
      if consumed.None? && !Matches(session, req.token) {
        return None, steps;
      }
      ready := Some(if consumed.Some? then consumed.value else p);
      ghost var save := Step(SaveSession(req.session, None), r.save, r.save);
      RunOneMore(old(hub), steps, save);
      steps := steps + [save];
      SaveSettled(req.session, r.save);
    }

    /** The confirmation up to the point where the action is the worker's to execute. */
    method Prepare(ghost w: nat, req: Request, session: Option<Pending>, r: Readings)
      returns (refusal: Answer, ready: Option<Pending>, ghost steps: seq<Step>)
      requires Synced() && InOrder(hub.clock, r) && PhaseOf(hub, w) == Loaded(req, session)
      modifies shared, this`hub
      ensures Synced() && hub.clock <= r.save && hub.log == old(hub.log)
      ensures hub == Confirmation.Run(old(hub), steps) && OwnSteps(steps, w)
      ensures ClaimsKept(old(hub).table, hub.table)
      ensures PhaseOf(hub, w) == if ready.Some? then Ready(req, ready.value, r.check) else Idle
      ensures var found := FoundFor(old(hub).table, req, session, r.fetch);
              match Refusal(found, req.actor, r.check)
              case Some(why) => ready == None && refusal == why
              case None => ready == TakenFor(old(hub).table, req, session, found.value, r) && refusal == AlreadyUsed
    {
      var admitted;
      refusal, admitted, steps := Admit(w, req, session, r);
      if admitted.None? {
        return refusal, None, steps;
      }
      refusal := AlreadyUsed;
      ghost var more;
      ready, more := Take(w, req, session, admitted.value, r);
      RunFurther(old(hub), steps, more);
      steps := steps + more;
    }

    /** An expired token is cleared, and the session saved without it. */
    method Drop(ghost w: nat, req: Request, ghost steps: seq<Step>, ghost start: Hub, at: int) returns (refusal: Answer, ghost all: seq<Step>)
      requires Synced() && hub.clock <= at && hub == Confirmation.Run(start, steps) && OwnSteps(steps, w)
      modifies shared, this`hub
      ensures Synced() && hub.clock == at && refusal == ExpiredToken
      ensures ClaimsKept(old(hub).table, hub.table)
      ensures hub == Confirmation.Run(start, all) && OwnSteps(all, w) && hub.log == old(hub.log) && hub.workers == old(hub.workers)
    {
      ghost var clear := Step(ClearPending(req.token), hub.clock, hub.clock);
      ghost var save := Step(SaveSession(req.session, None), at, at);
      RunOneMore(start, steps, clear);
      RunOneMore(start, steps + [clear], save);
      all := steps + [clear] + [save];
      ClearToken(req.token);
      SaveSettled(req.session, at);
      refusal := ExpiredToken;
    }

    /** A confirmation is a run of the protocol's steps of this worker, whatever it finds. It is
        turned away for the reason there is, or its request has the outcome the control API gives
        it; and the execution store changes only together with an entry for the token in the
        protocol's log. */
    method HandleConfirm(ghost w: nat, req: Request, session: Option<Pending>, role: Option<ControlApi.Role>,
                         newId: string, newSession: string, r: Readings)
      returns (answer: Answer, ghost steps: seq<Step>)
      requires Valid() && InOrder(hub.clock, r) && PhaseOf(hub, w) == Loaded(req, session)
      requires newId in control.store.ids && newId !in control.store.executions
      modifies shared, this`hub, control.policy, control.store, control.corr
      ensures (answer.Answered? && answer.reply.Died?) == control.DiedSince(old(control.store.persists))
      ensures !control.DiedSince(old(control.store.persists)) ==> Valid()
      ensures hub == Confirmation.Run(old(hub), steps) && OwnSteps(steps, w)
      ensures LogTells(old(hub.log), hub.log, req.token,
                       control.store.executions != old(control.store.executions) || control.store.events != old(control.store.events))
      ensures Confirms(old(hub).table, old(control.State()), control.State(), req, session, role, newId, newSession, r, answer)
      ensures forall p :: Takes(old(hub).table, req, session, role, r, p) ==>
                DoneAsAsked(p.operation, TextOf(p.executionId), old(control.State()), control.State(), newId, newSession, r.claim)
    {
      ghost var table, before := hub.table, control.State();
      answer, steps := Confirm(w, req, session, role, newId, newSession, r);
      forall p | Takes(table, req, session, role, r, p)
        ensures DoneAsAsked(p.operation, TextOf(p.executionId), before, control.State(), newId, newSession, r.claim)
      {
        ConfirmationsAreKept(table, before, control.State(), req, session, role, newId, newSession, r, answer, p);
      }
    }

    method Confirm(ghost w: nat, req: Request, session: Option<Pending>, role: Option<ControlApi.Role>,
                   newId: string, newSession: string, r: Readings)
      returns (answer: Answer, ghost steps: seq<Step>)
      requires Valid() && InOrder(hub.clock, r) && PhaseOf(hub, w) == Loaded(req, session)
      requires newId in control.store.ids && newId !in control.store.executions
      modifies shared, this`hub, control.policy, control.store, control.corr
      ensures (answer.Answered? && answer.reply.Died?) == control.DiedSince(old(control.store.persists))
      ensures !control.DiedSince(old(control.store.persists)) ==> Valid()
      ensures hub == Confirmation.Run(old(hub), steps) && OwnSteps(steps, w)
      ensures LogTells(old(hub.log), hub.log, req.token,
                       control.store.executions != old(control.store.executions) || control.store.events != old(control.store.events))
      ensures Confirms(old(hub).table, old(control.State()), control.State(), req, session, role, newId, newSession, r, answer)
    {
      steps := [];
      if req.token == "" {
        return MissingToken, steps;
      }
      ghost var first := control.State();
      var ready;
      answer, ready, steps := Prepare(w, req, session, r);
      if ready.None? {
        return;
      }
      var arrival := ArrivalOf(req, ready.value, role, newId, newSession, r);
      SameClaimsSameOutcome(first, shared.table, arrival);
      var reply, more := Execute(w, req, arrival);
      RunFurther(old(hub), steps, more);
      answer, steps := Answered(reply), steps + more;
    }

    /** A control request mints a token, stores the action under it for an hour, and keeps it in
        the session; the token can be picked up by any worker until the hour is over. */
    method HandleControlRequest(operation: string, executionId: Option<string>, actor: string, session: string, user: User, token: string,
                                now: int, stamp: int) returns (offer: Offer, ghost steps: seq<Step>)
      requires Valid() && hub.clock <= now <= stamp && token !in hub.minted
      modifies shared, this`hub
      ensures Valid() && hub == Confirmation.Run(old(hub), steps) && hub.log == old(hub.log) && hub.workers == old(hub.workers)
      ensures offer.Offered? <==> Offerable(operation, executionId) && !Unmapped(user)
      ensures offer.UnmappedSlackUser? <==> operation != "" && Unmapped(user)
      ensures if offer.Offered?
              then offer == Offered(token) && Kept(old(hub), hub, ActionFor(token, operation, executionId, actor, now), session, stamp)
              else hub == old(hub)
    {
      steps := [];
      if operation == "" {
        EmptyIsUnsupported();
        return NoOperation, steps;
      }
      var role := if user.source == "slack" && user.slackUser != "" then user.mapped else user.given;
      if user.source == "slack" && user.slackUser != "" && role == None {
        return UnmappedSlackUser, steps;
      }
      if operation !in ["start", "cancel", "retry", "re-run", "approve", "reject", "pause", "resume"] {
        return NotSupported, steps;
      }
      if (executionId == None || executionId == Some("")) && operation != "approve" && operation != "reject" {
        return NoExecution, steps;
      }
      steps := Store(Pending(token, operation, executionId, actor, now, now + 3600), session, now, stamp);
      return Offered(token), steps;
    }

    method Store(p: Pending, session: string, now: int, stamp: int) returns (ghost steps: seq<Step>)
      requires Synced() && hub.clock <= now <= stamp && p.token !in hub.minted
      requires p.createdAt == now && p.expiresAt == now + TOKEN_LIFETIME
      modifies shared, this`hub
      ensures Synced() && hub == Confirmation.Run(old(hub), steps) && hub.log == old(hub.log) && hub.workers == old(hub.workers)
      ensures Kept(old(hub), hub, p, session, stamp)
    {
      steps := [Step(RequestControl(p), now, stamp), Step(SaveSession(session, Some(p)), stamp, stamp)];
      StoringStores(hub, p, session, now, stamp);
      shared.Set(PendingSlot(p.token), Some(PendingControl(p)), Some(PENDING_TTL), stamp);
      shared.Set(SessionSlot(session), Some(SessionData(Some(p))), Some(SESSION_TTL), stamp);
      hub := Confirmation.Run(hub, steps);
    }

    /** Cancelling clears the token that the session at hand knows. */
    method HandleCancelControl(session: string, pending: Option<Pending>, at: int) returns (ghost steps: seq<Step>)
      requires Valid() && hub.clock <= at
      modifies shared, this`hub
      ensures Valid() && hub == Confirmation.Run(old(hub), steps) && hub.log == old(hub.log) && hub.workers == old(hub.workers)
      ensures pending.Some? ==> forall t :: StoredPending(hub.table, pending.value.token, t) == None
      ensures pending.None? ==> hub == old(hub)
    {
      steps := [];
      if pending.Some? {
        ghost var clear := Step(ClearPending(pending.value.token), hub.clock, hub.clock);
        ghost var save := Step(SaveSession(session, None), at, at);
        RunOneMore(hub, steps, clear);
        RunOneMore(hub, steps + [clear], save);
        steps := steps + [clear] + [save];
        ClearToken(pending.value.token);
        SaveSettled(session, at);
        NamespacesApart();
      }
    }
  }

  /** Where a request comes from: the source, the session's Slack user if any, and the role that
      user's identity has, if it has one. */
  datatype User = User(source: string, slackUser: string, mapped: Option<ControlApi.Role>, given: Option<ControlApi.Role>)

  /** `_canonical_role`: for a Slack user the identity decides, whatever role was given. */
  function CanonicalRole(user: User): Option<ControlApi.Role> {
    if user.source == "slack" && user.slackUser != "" then user.mapped else user.given
  }

  predicate Unmapped(user: User) { user.source == "slack" && user.slackUser != "" && CanonicalRole(user).None? }

  predicate Offerable(operation: string, executionId: Option<string>) {
    operation in SUPPORTED && (TextOf(executionId) != "" || operation == "approve" || operation == "reject")
  }

  function ActionFor(token: string, operation: string, executionId: Option<string>, actor: string, now: int): Pending {
    Pending(token, operation, executionId, actor, now, now + TOKEN_LIFETIME)
  }

  lemma EmptyIsUnsupported()
    ensures "" !in SUPPORTED
  {
  }

  /** The action is minted, and can be found under its token and in the session while they live. */
  ghost predicate Kept(before: Hub, after: Hub, p: Pending, session: string, stamp: int) {
    && after.minted == before.minted[p.token := p]
    && (forall t :: t < stamp + 3600 ==> StoredPending(after.table, p.token, t) == Some(p))
    && (forall t :: t < stamp + 7 * 24 * 3600 ==> StoredSession(after.table, session, t) == Some(p))
  }

  lemma MintStep(h: Hub, p: Pending, now: int, stamp: int)
    requires h.clock <= now <= stamp && p.token !in h.minted
    requires p.createdAt == now && p.expiresAt == now + TOKEN_LIFETIME
    ensures Next(h, Step(RequestControl(p), now, stamp)) ==
            h.(table := Put(h.table, PendingSlot(p.token), Some(PendingControl(p)), Some(stamp + PENDING_TTL)),
               minted := h.minted[p.token := p], clock := stamp)
  {
  }

  lemma SaveStep(h: Hub, session: string, p: Pending, at: int)
    requires h.clock <= at && p.token in h.minted && h.minted[p.token] == p
    ensures Next(h, Step(SaveSession(session, Some(p)), at, at)) ==
            h.(table := Put(h.table, SessionSlot(session), Some(SessionData(Some(p))), Some(at + SESSION_TTL)), clock := at)
  {
  }

  lemma PutsAreKept(table: Table<Value>, p: Pending, session: string, stamp: int)
    ensures var t' := Put(Put(table, PendingSlot(p.token), Some(PendingControl(p)), Some(stamp + PENDING_TTL)),
                          SessionSlot(session), Some(SessionData(Some(p))), Some(stamp + SESSION_TTL));
            && (forall t :: t < stamp + PENDING_TTL ==> StoredPending(t', p.token, t) == Some(p))
            && (forall t :: t < stamp + SESSION_TTL ==> StoredSession(t', session, t) == Some(p))
  {
    NamespacesApart();
  }

  lemma StoringStores(h: Hub, p: Pending, session: string, now: int, stamp: int)
    requires h.clock <= now <= stamp && p.token !in h.minted
    requires p.createdAt == now && p.expiresAt == now + TOKEN_LIFETIME
    ensures var h' := Confirmation.Run(h, [Step(RequestControl(p), now, stamp), Step(SaveSession(session, Some(p)), stamp, stamp)]);
            && h'.table == Put(Put(h.table, PendingSlot(p.token), Some(PendingControl(p)), Some(stamp + PENDING_TTL)),
                               SessionSlot(session), Some(SessionData(Some(p))), Some(stamp + SESSION_TTL))
            && h'.clock == stamp && h'.log == h.log && h'.workers == h.workers && Kept(h, h', p, session, stamp)
  {
    var a, b := Step(RequestControl(p), now, stamp), Step(SaveSession(session, Some(p)), stamp, stamp);
    RunTwo(h, a, b);
    MintStep(h, p, now, stamp);
    SaveStep(Next(h, a), session, p, stamp);
    PutsAreKept(h.table, p, session, stamp);
  }

  function ClaimSteps(w: nat, changed: bool, now: int, stamp: int): seq<Step> {
    [Step(Claim(w), now, stamp), Step(Action.Execute(w, changed), stamp, stamp)]
  }

  /** What a request does to the shared table, and when it may change the execution store. */
  predicate ClaimsFor(ix: Correlation.Index, table: Table<Value>, table': Table<Value>, a: ControlApi.Arrival, changed: bool) {
    && table' == (if ControlApi.Authorizes(ix, a.request) then ControlApi.ClaimedTable(table, a.request.eventId, a.now, a.stamp) else table)
    && (changed ==> ControlApi.Authorizes(ix, a.request) && !ControlApi.ClaimAlive(table, a.request.eventId, a.now))
  }

  lemma ExecutionSteps(ix: Correlation.Index, h: Hub, w: nat, a: ControlApi.Arrival, table: Table<Value>, changed: bool)
    requires h.clock <= a.now <= a.stamp && PhaseOf(h, w).Ready? && a.request.eventId == EventId(PhaseOf(h, w).req.token)
    requires ClaimsFor(ix, h.table, table, a, changed)
    ensures var steps := if ControlApi.Authorizes(ix, a.request) then ClaimSteps(w, changed, a.now, a.stamp) else [];
            var h' := Confirmation.Run(h, steps);
            && h'.table == table && h'.clock == (if steps == [] then h.clock else a.stamp) && OwnSteps(steps, w)
            && LogTells(h.log, h'.log, PhaseOf(h, w).req.token, changed)
  {
    if ControlApi.Authorizes(ix, a.request) {
      ClaimThenExecute(h, w, changed, a.now, a.stamp);
    }
  }

  lemma ClaimTakes(h: Hub, w: nat, now: int, stamp: int)
    requires h.clock <= now <= stamp && PhaseOf(h, w).Ready?
    ensures var token, h' := PhaseOf(h, w).req.token, Next(h, Step(Claim(w), now, stamp));
            && h'.clock == stamp && h'.log == h.log && h'.table == ControlApi.ClaimedTable(h.table, EventId(token), now, stamp)
            && PhaseOf(h', w) == if ControlApi.ClaimAlive(h.table, EventId(token), now) then Idle
                                 else Claimed(PhaseOf(h, w).req, PhaseOf(h, w).pending)
  {
  }

  lemma ExecuteLogs(h: Hub, w: nat, changed: bool, at: int)
    requires h.clock <= at && (PhaseOf(h, w).Claimed? || PhaseOf(h, w).Idle?)
    ensures var ph, h' := PhaseOf(h, w), Next(h, Step(Action.Execute(w, changed), at, at));
            && h'.clock == at && h'.table == h.table
            && h'.log == h.log + if changed && ph.Claimed? then [MutationOf(ph.req, ph.pending)] else []
  {
    assert h.log + [] == h.log;
  }

  /** The two steps write what the control API writes, and log the mutation if the claim was won. */
  lemma ClaimThenExecute(h: Hub, w: nat, changed: bool, now: int, stamp: int)
    requires h.clock <= now <= stamp && PhaseOf(h, w).Ready?
    ensures var token, h' := PhaseOf(h, w).req.token, Confirmation.Run(h, ClaimSteps(w, changed, now, stamp));
            && h'.clock == stamp && h'.table == ControlApi.ClaimedTable(h.table, EventId(token), now, stamp)
            && LogTells(h.log, h'.log, token, changed && !ControlApi.ClaimAlive(h.table, EventId(token), now))
  {
    var steps := ClaimSteps(w, changed, now, stamp);
    RunTwo(h, steps[0], steps[1]);
    ClaimTakes(h, w, now, stamp);
    ExecuteLogs(Next(h, steps[0]), w, changed, stamp);
  }

  /** Steps of one worker, and the session saves and deletions that go with them. */
  ghost predicate OwnSteps(steps: seq<Step>, w: nat) {
    forall s :: s in steps ==>
      (ByWorker(s.action) && s.action.worker == w) || s.action.ClearPending? || (s.action.SaveSession? && s.action.pendingConfirmation.None?)
  }

  /** One entry for the token was added when something changed, and nothing otherwise. */
  ghost predicate LogTells(before: seq<Mutation>, after: seq<Mutation>, token: string, changed: bool) {
    if changed then |after| == |before| + 1 && after[..|before|] == before && after[|before|].token == token
    else after == before
  }

  lemma RunOneMore(h: Hub, steps: seq<Step>, s: Step)
    ensures Confirmation.Run(h, steps + [s]) == Next(Confirmation.Run(h, steps), s)
  {
  }

  lemma RunTwo(h: Hub, a: Step, b: Step)
    ensures Confirmation.Run(h, [a, b]) == Next(Next(h, a), b)
  {
    RunOneMore(h, [], a);
    RunOneMore(h, [a], b);
    assert [] + [a] == [a] && [a] + [b] == [a, b];
  }

  lemma RunThree(h: Hub, a: Step, b: Step, c: Step)
    ensures Confirmation.Run(h, [a, b, c]) == Next(Next(Next(h, a), b), c)
  {
    RunOneMore(h, [], a);
    RunOneMore(h, [a], b);
    RunOneMore(h, [a, b], c);
    assert [] + [a] == [a] && [a] + [b] == [a, b] && [a, b] + [c] == [a, b, c];
  }

  lemma {:induction false} RunFurther(h: Hub, first: seq<Step>, more: seq<Step>)
    ensures Confirmation.Run(h, first + more) == Confirmation.Run(Confirmation.Run(h, first), more)
  {
    if more == [] {
      assert first + more == first;
    } else {
      var init, last := more[..|more| - 1], more[|more| - 1];
      RunFurther(h, first, init);
      RunOneMore(h, first + init, last);
      assert first + more == (first + init) + [last];
    }
  }

  /** Calls on top of any interleaved past are again an interleaving: the bound of the protocol
      carries over to whatever mixture of calls and steps led here. */
  lemma CallsActAtMostOnce(past: seq<Step>, calls: seq<Step>, h: Hub)
    requires h == Confirmation.Run(Confirmation.Run(Start, past), calls) && NoLongStall(past + calls, STALL_LIMIT)
    ensures h == Confirmation.Run(Start, past + calls) && AtMostOnce(h) && Sound(h)
  {
    RunFurther(Start, past, calls);
    TokenActsAtMostOnce(past + calls);
    RunSound(past + calls);
  }
}
