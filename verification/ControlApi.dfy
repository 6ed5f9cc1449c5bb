/** The control API with its policy engine, over the execution store with no agent runtime bound. */
module ControlApi {
  import opened Options
  import opened TimedMap
  import opened MemoryBackend
  import opened Lifecycle
  import opened ExecutionStore
  import Correlation
  import Confirmation
  import Redaction

  datatype Role = Viewer | Operator | Developer | Admin

  datatype Action =
    | Status | Start | Cancel | Retry | ReRun | Approve | Reject | Pause | Resume
    | Privileged(name: string) | Unsupported(name: string)

  /** For an optional id, absent and empty are the same to the code. */
  datatype ControlRequest = ControlRequest(
    action: Action, actor: string, executionId: string, correlationId: string,
    eventId: string, targetAction: string, role: Option<Role>)

  datatype Decision = Allow | NeedsApproval | WrongRole | DuplicateEvent

  /** A request with the ids it may use and its clock readings. */
  datatype Arrival = Arrival(request: ControlRequest, newId: string, newSession: string, now: int, stamp: int)

  /** What a successful reply shows: an execution, how many are listed, or a decision. */
  datatype Payload = NoExecution | Shows(snap: Snapshot) | Lists(count: nat) | Decided(approved: bool)

  /** `Denied` is the reply 403, with the reason of the policy engine. */
  datatype Reply =
    | Success(correlationId: string, payload: Payload)
    | Failure(statusCode: nat)
    | Denied(reason: Decision)
    | Died

  predicate Unsuccessful(r: Reply) { r.Failure? || r.Denied? }

  const LISTED := 20

  function ShownOf(executions: Executions, id: string): Payload { if id in executions then Shows(executions[id]) else NoExecution }

  predicate Supported(a: Action) { !a.Privileged? && !a.Unsupported? }

  predicate Mutates(a: Action) { Supported(a) && !a.Status? }

  predicate MayMutate(role: Option<Role>) { role.None? || !role.value.Viewer? }

  type Approvals = map<(string, string), bool>

  predicate ClaimAlive(table: Table<Confirmation.Value>, eventId: string, now: int) {
    eventId != "" && Read(table, Confirmation.ClaimSlot(eventId), now).Some?
  }

  function ClaimedTable(table: Table<Confirmation.Value>, eventId: string, now: int, stamp: int): Table<Confirmation.Value> {
    if eventId == "" then table else Apply(table, Confirmation.ClaimOp(eventId), now, stamp)
  }

  class PolicyEngine {
    var approvals: Approvals
    var seenControl: set<string>
    const shared: MemorySharedState<Confirmation.Value>

    constructor (shared: MemorySharedState<Confirmation.Value>)
      ensures this.shared == shared && approvals == map[] && seenControl == {}
    {
      this.shared := shared;
      approvals, seenControl := map[], {};
    }

    method Evaluate(action: Action, executionId: string, role: Option<Role>) returns (d: Decision)
      ensures d.WrongRole? <==> Mutates(action) && !MayMutate(role)
      ensures d.NeedsApproval? <==>
                action.Privileged? && !((executionId, action.name) in approvals && approvals[(executionId, action.name)])
      ensures !d.DuplicateEvent?
    {
      if action in {Start, Cancel, Retry, ReRun, Approve, Reject, Pause, Resume} && role != None
         && role.value !in {Operator, Developer, Admin} {
        return WrongRole;
      }
      if action.Privileged? {
        if (executionId, action.name) in approvals && approvals[(executionId, action.name)] {
          return Allow;
        }
        return NeedsApproval;
      }
      return Allow;
    }

    /** The claim comes first: a duplicate is refused before its role is looked at, and a request
        that is then refused has used its event id up. */
    method AuthorizeAndRecord(action: Action, executionId: string, eventId: string, role: Option<Role>, now: int, stamp: int)
      returns (d: Decision)
      requires shared.Valid() && shared.clock <= now <= stamp
      modifies this`seenControl, shared
      ensures shared.Valid() && shared.clock <= stamp
      ensures d.DuplicateEvent? <==> ClaimAlive(old(shared.table), eventId, now)
      ensures d.WrongRole? <==> !d.DuplicateEvent? && Mutates(action) && !MayMutate(role)
      ensures d.NeedsApproval? ==> action.Privileged?
      ensures shared.table == ClaimedTable(old(shared.table), eventId, now, stamp)
    {
      if eventId != "" {
        var claimed := shared.CompareAndSet(Slot("control_events", eventId), None, Some(Confirmation.ClaimRecord),
                                            Some(7 * 24 * 3600), now, stamp);
        seenControl := seenControl + {eventId};
        if !claimed {
          return DuplicateEvent;
        }
      }
      d := Evaluate(action, executionId, role);
    }

    method Decide(executionId: string, action: string, approved: bool)
      modifies this`approvals
      ensures approvals == old(approvals)[(executionId, action) := approved]
    {
      approvals := approvals[(executionId, action) := approved];
    }
  }

  /** The execution a request is about: its own id first, then its correlation's. */
  function Target(ix: Correlation.Index, r: ControlRequest): string {
    if r.executionId != "" then r.executionId
    else if r.correlationId != "" && r.correlationId in ix.byCorr then ix.byCorr[r.correlationId].executionId
    else ""
  }

  /** The request gets as far as the policy engine, and so claims its event id. */
  predicate Authorizes(ix: Correlation.Index, r: ControlRequest) {
    Mutates(r.action) && (Target(ix, r) != "" || r.action.Approve? || r.action.Reject?)
  }

  /** The request gets past every check before the execution store is asked. */
  predicate Admitted(ix: Correlation.Index, table: Table<Confirmation.Value>, r: ControlRequest, now: int) {
    Authorizes(ix, r) && MayMutate(r.role) && !ClaimAlive(table, r.eventId, now)
  }

  /** What an admitted request asks of the execution store. */
  function Asked(executions: Executions, a: Action, id: string, now: int): Outcome {
    match a
    case Start => TransitionOutcome(executions, id, Running, now)
    case Resume => TransitionOutcome(executions, id, Running, now)
    case Pause => TransitionOutcome(executions, id, Paused, now)
    case Cancel => CancelOutcome(executions, id, now)
    case _ => UnknownExecution
  }

  /** A retry starts over under a new id, with everything the first attempt was given. */
  function RetryOf(p: Redaction.Patterns, rec: Snapshot, newId: string, newSession: string, now: int): Snapshot {
    Fresh(newId, rec.taskId, newSession, rec.agentId, Redaction.RedactTexts(p, rec.metadata["retried_from" := rec.executionId]), now)
  }

  function Effect(p: Redaction.Patterns, executions: Executions, a: Action, id: string, newId: string, newSession: string, now: int): (r: Executions)
    ensures executions.Keys <= r.Keys <= executions.Keys + {newId}
  {
    if a.Retry? || a.ReRun? then
      if id in executions then executions[newId := RetryOf(p, executions[id], newId, newSession, now)] else executions
    else Settled(executions, id, Asked(executions, a, id, now))
  }

  function MetaOr(meta: map<string, string>, key: string): string {
    if key in meta then meta[key] else ""
  }

  /** The registration attempted for a retry. */
  function RetryBinding(r: ControlRequest, rec: Snapshot, newId: string): Correlation.Binding {
    Correlation.Binding(newId, Correlation.Or(r.correlationId, MetaOr(rec.metadata, "correlation_id")),
                        MetaOr(rec.metadata, "board_id"), MetaOr(rec.metadata, "item_id"), "",
                        MetaOr(rec.metadata, "repository"), None, None, "", None, map[])
  }

  /** The answer to a request that was allowed. */
  function AllowedReply(p: Redaction.Patterns, executions: Executions, a: Arrival, id: string): Reply {
    var r := a.request;
    if r.action.Approve? || r.action.Reject? then Success(r.correlationId, Decided(r.action.Approve?))
    else if r.action.Retry? || r.action.ReRun? then
      if id in executions then
        Success(RetryBinding(r, executions[id], a.newId).correlationId, Shows(RetryOf(p, executions[id], a.newId, a.newSession, a.now)))
      else Failure(404)
    else
      match Asked(executions, r.action, id, a.now)
      case Done(snap) => Success(r.correlationId, Shows(snap))
      case InvalidTransition(_, _) => Failure(409)
      case _ => Failure(404)
  }

  /** What an admitted request tells the event log. */
  function Told(p: Redaction.Patterns, executions: Executions, a: Action, id: string, newId: string, newSession: string, now: int, seqNo: nat): seq<Event> {
    match a
    case Start => EventsOf(executions, id, Running, seqNo)
    case Resume => EventsOf(executions, id, Running, seqNo)
    case Pause => EventsOf(executions, id, Paused, seqNo)
    case Cancel => EventsOf(executions, id, Cancelled, seqNo)
    case Retry => RetryTold(p, executions, id, newId, newSession, now, seqNo)
    case ReRun => RetryTold(p, executions, id, newId, newSession, now, seqNo)
    case _ => []
  }

  function RetryTold(p: Redaction.Patterns, executions: Executions, id: string, newId: string, newSession: string, now: int, seqNo: nat): seq<Event> {
    if id in executions then
      [EventFor(ExecutionCreated, RetryOf(p, executions[id], newId, newSession, now), Queued, seqNo + 1)]
    else []
  }

  /** The answer to a status request: the execution it names, the one its correlation leads to, or
      else how many of the last ones are listed. */
  function StatusReply(executions: Executions, ix: Correlation.Index, id: string, correlationId: string): Reply {
    if id != "" then
      if id !in executions then Failure(404)
      else
        var found := Correlation.Follow(ix, ix.byExecution, id);
        Success(if found.Some? then found.value.correlationId else correlationId, Shows(executions[id]))
    else if correlationId != "" then
      if correlationId !in ix.byCorr then Failure(404)
      else Success(correlationId, ShownOf(executions, ix.byCorr[correlationId].executionId))
    else Success("", Lists(if |executions| < LISTED then |executions| else LISTED))
  }

  /** An allowed approval or rejection is what is on record for the operation afterwards. */
  function DecidedOn(approvals: Approvals, r: ControlRequest, id: string): Approvals {
    if r.action.Approve? || r.action.Reject? then
      approvals[(id, if r.targetAction != "" then r.targetAction else "production_merge") := r.action.Approve?]
    else approvals
  }

  /** Only a retry that has a correlation id, its own or the first attempt's, is registered. */
  function Recorrelated(ix: Correlation.Index, executions: Executions, r: ControlRequest, id: string, newId: string, now: int): Correlation.Index {
    if (r.action.Retry? || r.action.ReRun?) && id in executions && RetryBinding(r, executions[id], newId).correlationId != "" then
      Correlation.After(ix, RetryBinding(r, executions[id], newId), RetryBinding(r, executions[id], newId).correlationId, now)
    else ix
  }

  /** A known correlation stays with its execution: a retry is refused the correlation id of any
      other execution, and then nothing is filed at all. */
  lemma RetryNeverMovesCorrelations(ix: Correlation.Index, executions: Executions, r: ControlRequest, id: string, newId: string, now: int)
    requires Correlation.Wired(ix)
    ensures var ix' := Recorrelated(ix, executions, r, id, newId, now);
            && Correlation.Wired(ix')
            && (forall c :: c in ix.byCorr ==> c in ix'.byCorr && ix'.byCorr[c].executionId == ix.byCorr[c].executionId)
            && (r.correlationId in ix.byCorr && ix.byCorr[r.correlationId].executionId != newId && r.correlationId != "" ==> ix' == ix)
  {
    if id in executions && RetryBinding(r, executions[id], newId).correlationId != "" {
      var binding := RetryBinding(r, executions[id], newId);
      Correlation.RegisterKeepsWired(ix, binding, binding.correlationId, now);
    }
  }

  /** Everything a request can read or change. */
  datatype World = World(executions: Executions, events: seq<Event>, approvals: Approvals,
                         table: Table<Confirmation.Value>, ix: Correlation.Index, patterns: Redaction.Patterns)

  /** The world after an allowed action on the given execution. */
  function Performed(w: World, a: Arrival, id: string): World {
    var r := a.request;
    w.(executions := Effect(w.patterns, w.executions, r.action, id, a.newId, a.newSession, a.now),
       events := w.events + Told(w.patterns, w.executions, r.action, id, a.newId, a.newSession, a.now, |w.events|),
       approvals := DecidedOn(w.approvals, r, id),
       ix := Recorrelated(w.ix, w.executions, r, id, a.newId, a.now))
  }

  /** The world after a request: one that reaches the policy engine claims its event id, and one
      that is admitted acts. */
  function Afterwards(w: World, a: Arrival): World {
    if !Authorizes(w.ix, a.request) then w
    else
      var claimed := w.(table := ClaimedTable(w.table, a.request.eventId, a.now, a.stamp));
      if Admitted(w.ix, w.table, a.request, a.now) then Performed(claimed, a, Target(w.ix, a.request)) else claimed
  }

  /** The answer to a request. */
  function ReplyTo(w: World, a: Arrival): Reply {
    var r := a.request;
    if r.action.Status? then StatusReply(w.executions, w.ix, Target(w.ix, r), r.correlationId)
    else if !Authorizes(w.ix, r) then Failure(400)
    else if ClaimAlive(w.table, r.eventId, a.now) then Denied(DuplicateEvent)
    else if !MayMutate(r.role) then Denied(WrongRole)
    else AllowedReply(w.patterns, w.executions, a, Target(w.ix, r))
  }

  /** A process that dies persisting has changed the executions and the claims; the log it dies
      with has told all or nothing of it. */
  predicate DiedAfter(before: World, after: World, died: World) {
    && died.executions == after.executions && died.table == after.table && died.approvals == after.approvals
    && (died.events == before.events || died.events == after.events)
  }

  /** The outcome of a request is its world and its answer, or a death on the way there. */
  ghost predicate Came(before: World, after: World, now: World, answer: Reply, reply: Reply) {
    if reply.Died? then DiedAfter(before, after, now) else now == after && reply == answer
  }

  predicate Retries(a: Action) { a.Retry? || a.ReRun? }

  /** A retry in terms of its parts. */
  lemma RetryPerforms(w: World, a: Arrival, id: string)
    requires Retries(a.request.action)
    ensures Performed(w, a, id) ==
            if id !in w.executions then w
            else
              var made, binding := RetryOf(w.patterns, w.executions[id], a.newId, a.newSession, a.now), RetryBinding(a.request, w.executions[id], a.newId);
              w.(executions := w.executions[a.newId := made],
                 events := w.events + [EventFor(ExecutionCreated, made, Queued, |w.events| + 1)],
                 ix := if binding.correlationId != "" then Correlation.After(w.ix, binding, binding.correlationId, a.now) else w.ix)
  {
    assert w.events + [] == w.events;
  }

  lemma RetryCame(w: World, now: World, a: Arrival, id: string, crashed: bool)
    requires Retries(a.request.action) && id in w.executions
    requires var made, binding := RetryOf(w.patterns, w.executions[id], a.newId, a.newSession, a.now),
                                  RetryBinding(a.request, w.executions[id], a.newId);
             now == w.(executions := w.executions[a.newId := made],
                       events := w.events + (if crashed then [] else [EventFor(ExecutionCreated, made, Queued, |w.events| + 1)]),
                       ix := if crashed || binding.correlationId == "" then w.ix
                             else Correlation.After(w.ix, binding, binding.correlationId, a.now))
    ensures Came(w, Performed(w, a, id), now, AllowedReply(w.patterns, w.executions, a, id),
                 if crashed then Died
                 else Success(RetryBinding(a.request, w.executions[id], a.newId).correlationId, Shows(now.executions[a.newId])))
  {
    RetryPerforms(w, a, id);
    assert w.events + [] == w.events;
  }

  predicate Steers(a: Action) { a.Start? || a.Cancel? || a.Pause? || a.Resume? }

  function TargetOf(a: Action): Status
    requires Steers(a)
  {
    match a
    case Cancel => Cancelled
    case Pause => Paused
    case _ => Running
  }

  /** What an action asked of an execution comes to, in the terms of the execution store: steering
      is a transition, a retry a fresh execution of the same task, a decision an entry. */
  ghost predicate Fulfilled(action: Action, id: string, target: string, w: World, after: World, newId: string, newSession: string, now: int) {
    match action
    case Start => SteeredTo(w, after, id, TransitionOutcome(w.executions, id, Running, now))
    case Resume => SteeredTo(w, after, id, TransitionOutcome(w.executions, id, Running, now))
    case Pause => SteeredTo(w, after, id, TransitionOutcome(w.executions, id, Paused, now))
    case Cancel => SteeredTo(w, after, id, CancelOutcome(w.executions, id, now))
    case Retry => Restarted(w, after, id, newId, newSession, now)
    case ReRun => Restarted(w, after, id, newId, newSession, now)
    case Approve => DecidedAs(w, after, id, target, true)
    case Reject => DecidedAs(w, after, id, target, false)
    case _ => after.executions == w.executions && after.approvals == w.approvals
  }

  ghost predicate SteeredTo(w: World, after: World, id: string, out: Outcome) {
    after.approvals == w.approvals && after.executions == if out.Done? then w.executions[id := out.snap] else w.executions
  }

  ghost predicate Restarted(w: World, after: World, id: string, newId: string, newSession: string, now: int) {
    && after.approvals == w.approvals
    && if id !in w.executions then after.executions == w.executions
       else
         && after.executions.Keys == w.executions.Keys + {newId}
         && (forall x :: x in w.executions && x != newId ==> after.executions[x] == w.executions[x])
         && var first, again := w.executions[id], after.executions[newId];
            && again.executionId == newId && again.sessionId == newSession && again.status == Queued && again.history == [Queued]
            && again.taskId == first.taskId && again.agentId == first.agentId && again.createdAt == Some(now)
            && again.startedAt == again.finishedAt == None && again.error == again.result == None && !again.cancelRequested
            && Correlation.MetadataMerged(w.patterns, first.metadata["retried_from" := first.executionId], map[], again.metadata)
  }

  ghost predicate DecidedAs(w: World, after: World, id: string, target: string, approved: bool) {
    && after.executions == w.executions && after.approvals.Keys == w.approvals.Keys + {(id, target)}
    && after.approvals[(id, target)] == approved
    && forall k :: k in w.approvals && k != (id, target) ==> after.approvals[k] == w.approvals[k]
  }

  /** An admitted request does what its action says, and any other one nothing of the kind. */
  lemma RequestsAreFulfilled(w: World, a: Arrival)
    ensures var r := a.request;
            var target := if r.targetAction == "" then "production_merge" else r.targetAction;
            if Admitted(w.ix, w.table, r, a.now)
            then Fulfilled(r.action, Target(w.ix, r), target, w, Afterwards(w, a), a.newId, a.newSession, a.now)
            else Afterwards(w, a).executions == w.executions && Afterwards(w, a).approvals == w.approvals
  {
    var r, id := a.request, Target(w.ix, a.request);
    var claimed := w.(table := ClaimedTable(w.table, r.eventId, a.now, a.stamp));
    if Retries(r.action) {
      RetryIsFulfilled(claimed, a, id);
    } else if Steers(r.action) {
      SteeringIsFulfilled(claimed, a, id);
    }
  }

  lemma RetryIsFulfilled(w: World, a: Arrival, id: string)
    requires Retries(a.request.action)
    ensures Restarted(w, Performed(w, a, id), id, a.newId, a.newSession, a.now)
  {
    RetryPerforms(w, a, id);
    if id in w.executions {
      Correlation.RedactedMerges(w.patterns, w.executions[id].metadata["retried_from" := w.executions[id].executionId]);
    }
  }

  lemma SteeringIsFulfilled(w: World, a: Arrival, id: string)
    requires Steers(a.request.action)
    ensures SteeredTo(w, Performed(w, a, id), id, Asked(w.executions, a.request.action, id, a.now))
  {
    SteeringPerforms(w, a, id);
  }

  /** Who a request is about, and when it is admitted, without the names above. */
  lemma AdmissionMeans(w: World, r: ControlRequest, now: int)
    ensures r.executionId != "" ==> Target(w.ix, r) == r.executionId
    ensures r.executionId == "" && r.correlationId in w.ix.byCorr && r.correlationId != "" ==>
              Target(w.ix, r) == w.ix.byCorr[r.correlationId].executionId
    ensures r.executionId == "" && (r.correlationId !in w.ix.byCorr || r.correlationId == "") ==> Target(w.ix, r) == ""
    ensures Admitted(w.ix, w.table, r, now) <==>
              && r.action in {Start, Cancel, Retry, ReRun, Approve, Reject, Pause, Resume}
              && (Target(w.ix, r) != "" || r.action in {Approve, Reject}) && r.role != Some(Viewer)
              && (r.eventId == "" || Read(w.table, Slot("control_events", r.eventId), now) == None)
  {
  }

  /** A steering action in terms of the lifecycle. */
  lemma SteeringPerforms(w: World, a: Arrival, id: string)
    requires Steers(a.request.action)
    ensures Performed(w, a, id) ==
            w.(executions := Settled(w.executions, id, Asked(w.executions, a.request.action, id, a.now)),
               events := w.events + EventsOf(w.executions, id, TargetOf(a.request.action), |w.events|))
  {
  }

  class ControlAPI {
    const policy: PolicyEngine
    const store: ExecutionObserverStore
    const corr: Correlation.CorrelationStore

    constructor (policy: PolicyEngine, store: ExecutionObserverStore, corr: Correlation.CorrelationStore)
      ensures this.policy == policy && this.store == store && this.corr == corr
    {
      this.policy, this.store, this.corr := policy, store, corr;
    }

    ghost predicate Valid()
      reads this, policy, policy.shared, store, corr
    {
      policy.shared.Valid() && store.Valid() && corr.Valid()
    }

    ghost function State(): World
      reads this, policy, policy.shared, store, corr
    {
      World(store.executions, store.events, policy.approvals, policy.shared.table, corr.State(), store.patterns)
    }

    /** Whether a persist since then killed the process. */
    ghost predicate DiedSince(persists: nat)
      reads this, store
    {
      CrashedIn(store.fate, persists, store.persists)
    }

    /** The execution store's part of a request that was allowed. */
    method Mutate(a: Arrival, id: string) returns (reply: Reply)
      requires store.Valid() && corr.Valid() && id != "" && a.newId in store.ids && a.newId !in store.executions
      requires var x := a.request.action; Mutates(x) && !x.Approve? && !x.Reject?
      modifies store, corr
      ensures corr.Valid() && store.Consistent() && (!reply.Died? ==> store.Valid())
      ensures Evolves(old(store.executions), store.executions)
      ensures old(store.persists) <= store.persists && reply.Died? == DiedSince(old(store.persists))
      ensures Came(old(State()), Performed(old(State()), a, id), State(),
                   AllowedReply(store.patterns, old(store.executions), a, id), reply)
    {
      if Retries(a.request.action) {
        reply := RetryExecution(a, id);
      } else {
        reply := Steer(a, id);
      }
    }

    method Steer(a: Arrival, id: string) returns (reply: Reply)
      requires store.Valid() && corr.Valid() && Steers(a.request.action)
      modifies store
      ensures store.Valid() && Evolves(old(store.executions), store.executions)
      ensures old(store.persists) <= store.persists && reply.Died? == DiedSince(old(store.persists))
      ensures Came(old(State()), Performed(old(State()), a, id), State(),
                   AllowedReply(store.patterns, old(store.executions), a, id), reply)
    {
      SteeringPerforms(State(), a, id);
      var out := Ask(a.request.action, id, a.now);
      match out {
        case Done(snap) => reply := Success(a.request.correlationId, Shows(snap));
        case UnknownExecution => reply := Failure(404);
        case InvalidTransition(_, _) => reply := Failure(409);
        case Crashed => reply := Died;
      }
    }

    method Ask(action: Action, id: string, now: int) returns (out: Outcome)
      requires store.Valid() && Steers(action)
      modifies store
      ensures store.Valid() && Evolves(old(store.executions), store.executions) && old(store.persists) <= store.persists
      ensures out == Reported(Asked(old(store.executions), action, id, now), DiedSince(old(store.persists)))
      ensures store.executions == Settled(old(store.executions), id, Asked(old(store.executions), action, id, now))
      ensures store.events == old(store.events) + EventsOf(old(store.executions), id, TargetOf(action), |old(store.events)|)
    {
      match action {
        case Start => out := store.Start(id, now);
        case Cancel => out := store.Cancel(id, now);
        case Pause => out := store.Pause(id, now);
        case Resume => out := store.Resume(id, now);
      }
    }

    /** A correlation conflict is swallowed: the new execution is there, unregistered. */
    method RetryExecution(a: Arrival, id: string) returns (reply: Reply)
      requires store.Valid() && corr.Valid() && Retries(a.request.action)
      requires a.newId in store.ids && a.newId !in store.executions
      modifies store, corr
      ensures corr.Valid() && store.Consistent() && (!reply.Died? ==> store.Valid())
      ensures Evolves(old(store.executions), store.executions)
      ensures old(store.persists) <= store.persists && reply.Died? == DiedSince(old(store.persists))
      ensures Came(old(State()), Performed(old(State()), a, id), State(),
                   AllowedReply(store.patterns, old(store.executions), a, id), reply)
    {
      ghost var before := State();
      if id !in store.executions {
        RetryPerforms(before, a, id);
        return Failure(404);
      }
      var binding := Rebind(a, store.executions[id].metadata);
      var crashed := RetryKnown(a, id, binding);
      RetryCame(before, State(), a, id, crashed);
      return if crashed then Died else Success(binding.correlationId, Shows(store.executions[a.newId]));
    }

    method RetryKnown(a: Arrival, id: string, binding: Correlation.Binding) returns (crashed: bool)
      requires store.Valid() && corr.Valid() && id in store.executions
      requires binding == RetryBinding(a.request, store.executions[id], a.newId)
      requires a.newId in store.ids && a.newId !in store.executions
      modifies store, corr
      ensures corr.Valid() && store.Consistent() && (!crashed ==> store.Valid())
      ensures Evolves(old(store.executions), store.executions)
      ensures old(store.persists) <= store.persists && crashed == DiedSince(old(store.persists))
      ensures var rec := old(store.executions)[id];
              var made := RetryOf(store.patterns, rec, a.newId, a.newSession, a.now);
              && store.executions == old(store.executions)[a.newId := made]
              && store.events == old(store.events)
                   + (if crashed then [] else [EventFor(ExecutionCreated, made, Queued, |old(store.events)| + 1)])
              && corr.State() == if crashed || binding.correlationId == "" then old(corr.State())
                                 else Correlation.After(old(corr.State()), binding, binding.correlationId, a.now)
    {
      crashed := Recreate(a, id);
      if !crashed {
        Reregister(binding, a.now);
      }
    }

    /** The registration, from the metadata of the first attempt. */
    method Rebind(a: Arrival, meta: map<string, string>) returns (binding: Correlation.Binding)
      ensures binding == Correlation.Binding(a.newId, Correlation.Or(a.request.correlationId, MetaOr(meta, "correlation_id")),
                                             MetaOr(meta, "board_id"), MetaOr(meta, "item_id"), "", MetaOr(meta, "repository"),
                                             None, None, "", None, map[])
    {
      var correlationId, boardId, itemId, repository := a.request.correlationId, "", "", "";
      if correlationId == "" && "correlation_id" in meta {
        correlationId := meta["correlation_id"];
      }
      if "board_id" in meta {
        boardId := meta["board_id"];
      }
      if "item_id" in meta {
        itemId := meta["item_id"];
      }
      if "repository" in meta {
        repository := meta["repository"];
      }
      binding := Correlation.Binding(a.newId, correlationId, boardId, itemId, "", repository, None, None, "", None, map[]);
    }

    method Reregister(binding: Correlation.Binding, now: int)
      requires corr.Valid() && binding.metadata == map[]
      modifies corr
      ensures corr.Valid()
      ensures corr.State() == if binding.correlationId != "" then
                                Correlation.After(old(corr.State()), binding, binding.correlationId, now) else old(corr.State())
    {
      if binding.correlationId != "" {
        var _ := corr.Register(binding, binding.correlationId, now);
      }
    }

    /** The new attempt is a fresh execution with all that the first one was given. */
    method Recreate(a: Arrival, id: string) returns (crashed: bool)
      requires store.Valid() && id in store.executions && a.newId in store.ids && a.newId !in store.executions
      modifies store
      ensures store.Consistent() && (!crashed ==> store.Valid()) && Evolves(old(store.executions), store.executions)
      ensures old(store.persists) <= store.persists && crashed == DiedSince(old(store.persists))
      ensures var made := RetryOf(store.patterns, old(store.executions)[id], a.newId, a.newSession, a.now);
              && store.executions == old(store.executions)[a.newId := made]
              && store.events == old(store.events)
                   + if crashed then [] else [EventFor(ExecutionCreated, made, Queued, |old(store.events)| + 1)]
    {
      var snap := store.executions[id];
      assert RecordOk(store.executions, id);
      var out := store.CreateExecution(a.newId, snap.taskId, a.newSession, snap.agentId, snap.metadata["retried_from" := id], a.now);
      return out.Crashed?;
    }

    method Handle(a: Arrival) returns (reply: Reply)
      requires Valid() && policy.shared.clock <= a.now <= a.stamp
      requires a.newId in store.ids && a.newId !in store.executions
      modifies policy, policy.shared, store, corr
      ensures policy.shared.Valid() && store.Consistent() && corr.Valid() && (!reply.Died? ==> Valid())
      ensures policy.shared.clock <= if Authorizes(old(corr.State()), a.request) then a.stamp else old(policy.shared.clock)
      ensures Evolves(old(store.executions), store.executions)
      ensures old(store.persists) <= store.persists && reply.Died? == DiedSince(old(store.persists))
      ensures Came(old(State()), Afterwards(old(State()), a), State(), ReplyTo(old(State()), a), reply)
    {
      var r := a.request;
      if r.action !in {Status, Start, Cancel, Retry, ReRun, Approve, Reject, Pause, Resume} {
        return Failure(400);
      }
      var id := r.executionId;
      if id == "" && r.correlationId != "" && r.correlationId in corr.byCorr {
        id := corr.byCorr[r.correlationId].executionId;
      }
      if r.action.Status? {
        reply := StatusOf(id, r.correlationId);
        return;
      }
      if id == "" && !r.action.Approve? && !r.action.Reject? {
        return Failure(400);
      }
      reply := Proceed(a, id);
    }

    /** Authorisation, and then the action itself. */
    method Proceed(a: Arrival, id: string) returns (reply: Reply)
      requires Valid() && policy.shared.clock <= a.now <= a.stamp
      requires a.newId in store.ids && a.newId !in store.executions
      requires Authorizes(corr.State(), a.request) && id == Target(corr.State(), a.request)
      modifies policy, policy.shared, store, corr
      ensures policy.shared.Valid() && store.Consistent() && corr.Valid() && (!reply.Died? ==> Valid())
      ensures policy.shared.clock <= a.stamp && Evolves(old(store.executions), store.executions)
      ensures old(store.persists) <= store.persists && reply.Died? == DiedSince(old(store.persists))
      ensures Came(old(State()), Afterwards(old(State()), a), State(), ReplyTo(old(State()), a), reply)
    {
      var r := a.request;
      var decision := policy.AuthorizeAndRecord(r.action, id, r.eventId, r.role, a.now, a.stamp);
      if !decision.Allow? {
        return Denied(decision);
      }
      if r.action.Approve? || r.action.Reject? {
        policy.Decide(id, if r.targetAction != "" then r.targetAction else "production_merge", r.action.Approve?);
        return Success(r.correlationId, Decided(r.action.Approve?));
      }
      reply := Mutate(a, id);
    }

    method StatusOf(id: string, correlationId: string) returns (reply: Reply)
      requires corr.Valid()
      ensures reply == StatusReply(store.executions, corr.State(), id, correlationId)
    {
      if id != "" {
        if id !in store.executions {
          return Failure(404);
        }
        var found := correlationId;
        if id in corr.byExecution && corr.byExecution[id] in corr.byCorr {
          found := corr.byCorr[corr.byExecution[id]].correlationId;
        }
        return Success(found, Shows(store.executions[id]));
      }
      if correlationId != "" {
        if correlationId !in corr.byCorr {
          return Failure(404);
        }
        var bound := corr.byCorr[correlationId].executionId;
        return Success(correlationId, if bound in store.executions then Shows(store.executions[bound]) else NoExecution);
      }
      return Success("", Lists(if |store.executions| < 20 then |store.executions| else 20));
    }
  }

  /** A refused or unsuccessful request changes nothing but the claim on its event id; and whatever
      is asked, a known correlation keeps its execution. */
  lemma RefusedRequestsChangeNothing(w: World, a: Arrival)
    requires Correlation.Wired(w.ix)
    ensures Unsuccessful(ReplyTo(w, a)) || !MayMutate(a.request.role) || ClaimAlive(w.table, a.request.eventId, a.now) ==>
              Afterwards(w, a) == w.(table := Afterwards(w, a).table)
    ensures Correlation.Wired(Afterwards(w, a).ix)
    ensures forall c :: c in w.ix.byCorr ==>
              c in Afterwards(w, a).ix.byCorr && Afterwards(w, a).ix.byCorr[c].executionId == w.ix.byCorr[c].executionId
  {
    if Admitted(w.ix, w.table, a.request, a.now) {
      RetryNeverMovesCorrelations(w.ix, w.executions, a.request, Target(w.ix, a.request), a.newId, a.now);
    }
  }

  /* ---------- traces of requests ---------- */

  /** The world after a trace of requests. */
  function RunTrace(w: World, trace: seq<Arrival>): World {
    if trace == [] then w else Afterwards(RunTrace(w, trace[..|trace| - 1]), trace[|trace| - 1])
  }

  lemma TraceGrows(w: World, trace: seq<Arrival>, i: nat)
    requires i < |trace|
    ensures RunTrace(w, trace[..i + 1]) == Afterwards(RunTrace(w, trace[..i]), trace[i])
  {
    assert trace[..i + 1][..i] == trace[..i];
  }

  /** The request changes the execution store. */
  predicate Acts(w: World, a: Arrival) {
    Afterwards(w, a).executions != w.executions || Afterwards(w, a).events != w.events
  }

  /** What acts has an action that may, a role that may, a free event id and no failure reply. */
  lemma ActingIsAllowed(w: World, a: Arrival)
    requires Acts(w, a)
    ensures Mutates(a.request.action) && MayMutate(a.request.role) && !Unsuccessful(ReplyTo(w, a))
    ensures !ClaimAlive(w.table, a.request.eventId, a.now)
  {
    assert w.events + [] == w.events;
  }

  /** A request acts as asked, or not at all. */
  lemma ActsOrNot(w: World, a: Arrival)
    ensures Afterwards(w, a).executions == w.executions || Admitted(w.ix, w.table, a.request, a.now)
    ensures Afterwards(w, a).executions == w.executions
            || Afterwards(w, a).executions
               == Effect(w.patterns, w.executions, a.request.action, Target(w.ix, a.request), a.newId, a.newSession, a.now)
    ensures Acts(w, a) ==> Authorizes(w.ix, a.request) && !ClaimAlive(w.table, a.request.eventId, a.now)
    ensures Afterwards(w, a).table ==
            if Authorizes(w.ix, a.request) then ClaimedTable(w.table, a.request.eventId, a.now, a.stamp) else w.table
  {
    if Acts(w, a) {
      ActingIsAllowed(w, a);
    }
  }

  /** The claim of a request lasts seven days. */
  predicate ClaimLasts(table: Table<Confirmation.Value>, a: Arrival) {
    var slot := Confirmation.ClaimSlot(a.request.eventId);
    slot in table && table[slot].expires.Some? && a.stamp + Confirmation.CLAIM_TTL <= table[slot].expires.value
  }

  predicate Comes(trace: seq<Arrival>, i: nat, start: int)
    requires i < |trace|
  {
    start <= trace[i].now <= trace[i].stamp
  }

  predicate Precedes(trace: seq<Arrival>, i: nat, j: nat)
    requires i < |trace| && j < |trace|
  {
    trace[i].stamp <= trace[j].now && trace[i].newId != trace[j].newId
  }

  /** Clock readings never go back, and no two requests bring the same new id. */
  ghost predicate InOrder(trace: seq<Arrival>, start: int) {
    && (forall i {:trigger Comes(trace, i, start)} :: 0 <= i < |trace| ==> Comes(trace, i, start))
    && (forall i, j {:trigger Precedes(trace, i, j)} :: 0 <= i < j < |trace| ==> Precedes(trace, i, j))
  }

  lemma ClaimIsMade(w: World, a: Arrival)
    requires Authorizes(w.ix, a.request) && a.request.eventId != "" && !ClaimAlive(w.table, a.request.eventId, a.now)
    ensures ClaimLasts(Afterwards(w, a).table, a)
  {
  }

  lemma ClaimIsKept(w: World, a: Arrival, later: Arrival)
    requires ClaimLasts(w.table, a) && a.stamp <= later.stamp
    ensures ClaimLasts(Afterwards(w, later).table, a)
  {
  }

  lemma {:induction false} ClaimOutlives(w: World, trace: seq<Arrival>, start: int, i: nat, j: nat)
    requires i < j <= |trace| && InOrder(trace, start) && ClaimLasts(RunTrace(w, trace[..i + 1]).table, trace[i])
    ensures ClaimLasts(RunTrace(w, trace[..j]).table, trace[i])
  {
    if j > i + 1 {
      ClaimOutlives(w, trace, start, i, j - 1);
      TraceGrows(w, trace, j - 1);
      assert Precedes(trace, i, j - 1) && Comes(trace, j - 1, start);
      ClaimIsKept(RunTrace(w, trace[..j - 1]), trace[i], trace[j - 1]);
    }
  }

  /** The request at `i` changes the execution store. */
  predicate ActsAt(w: World, trace: seq<Arrival>, i: nat)
    requires i < |trace|
  {
    Acts(RunTrace(w, trace[..i]), trace[i])
  }

  lemma ActedBefore(w: World, trace: seq<Arrival>, start: int, i: nat, j: nat)
    requires i < j < |trace| && InOrder(trace, start)
    ensures ActsAt(w, trace, i) && trace[i].request.eventId != "" ==> ClaimLasts(RunTrace(w, trace[..j]).table, trace[i])
  {
    if ActsAt(w, trace, i) && trace[i].request.eventId != "" {
      var before := RunTrace(w, trace[..i]);
      ActingIsAllowed(before, trace[i]);
      ClaimIsMade(before, trace[i]);
      TraceGrows(w, trace, i);
      ClaimOutlives(w, trace, start, i, j);
    }
  }

  /** Of two requests with one event id both change the execution store only if the second comes
      at least seven days after the first made its claim. */
  lemma OneActPerWindow(w: World, trace: seq<Arrival>, start: int)
    requires InOrder(trace, start)
    ensures forall i: nat, j: nat {:trigger ActsAt(w, trace, i), ActsAt(w, trace, j)} ::
              i < j < |trace| && trace[i].request.eventId == trace[j].request.eventId != "" && ActsAt(w, trace, i) && ActsAt(w, trace, j) ==>
                trace[i].stamp + Confirmation.CLAIM_TTL <= trace[j].now
  {
    forall i: nat, j: nat |
      i < j < |trace| && trace[i].request.eventId == trace[j].request.eventId != "" && ActsAt(w, trace, i) && ActsAt(w, trace, j)
      ensures trace[i].stamp + Confirmation.CLAIM_TTL <= trace[j].now
    {
      ActedBefore(w, trace, start, i, j);
      ActingIsAllowed(RunTrace(w, trace[..j]), trace[j]);
    }
  }

  /** From the n-th on, every request comes late enough, and with an unused id for the execution
      it may create. */
  ghost predicate Ahead(trace: seq<Arrival>, n: nat, clock: int, executions: Executions) {
    forall i {:trigger AheadAt(trace, i, clock, executions)} :: n <= i < |trace| ==> AheadAt(trace, i, clock, executions)
  }

  predicate AheadAt(trace: seq<Arrival>, i: nat, clock: int, executions: Executions)
    requires i < |trace|
  {
    clock <= trace[i].now && trace[i].newId !in executions
  }

  ghost predicate KnownIds(trace: seq<Arrival>, ids: set<string>) {
    forall a :: a in trace ==> a.newId in ids
  }

  lemma AheadNext(trace: seq<Arrival>, n: nat, first: int, clock: int, later: int, w: World)
    requires InOrder(trace, first) && n < |trace| && Ahead(trace, n, clock, w.executions)
    requires later <= clock || later <= trace[n].stamp
    ensures Ahead(trace, n + 1, later, Afterwards(w, trace[n]).executions)
  {
    forall i | n < i < |trace|
      ensures AheadAt(trace, i, later, Afterwards(w, trace[n]).executions)
    {
      assert Precedes(trace, n, i) && AheadAt(trace, n, clock, w.executions) && AheadAt(trace, i, clock, w.executions);
    }
  }

  /** What the first requests of a trace were answered. */
  ghost predicate Answered(w: World, trace: seq<Arrival>, replies: seq<Reply>)
    requires |replies| <= |trace|
  {
    forall i {:trigger AnsweredAt(w, trace, replies, i)} :: 0 <= i < |replies| ==> AnsweredAt(w, trace, replies, i)
  }

  predicate AnsweredAt(w: World, trace: seq<Arrival>, replies: seq<Reply>, i: nat)
    requires i < |replies| <= |trace|
  {
    replies[i] == ReplyTo(RunTrace(w, trace[..i]), trace[i])
  }

  lemma AnsweredNext(w: World, trace: seq<Arrival>, replies: seq<Reply>, reply: Reply)
    requires |replies| < |trace| && Answered(w, trace, replies)
    requires reply == ReplyTo(RunTrace(w, trace[..|replies|]), trace[|replies|])
    ensures Answered(w, trace, replies + [reply])
  {
    forall i | 0 <= i <= |replies|
      ensures AnsweredAt(w, trace, replies + [reply], i)
    {
      assert i < |replies| ==> AnsweredAt(w, trace, replies, i);
    }
  }

  /** The world is what the requests answered so far make of it. */
  ghost predicate Going(start: World, trace: seq<Arrival>, replies: seq<Reply>, w: World, clock: int) {
    && |replies| <= |trace| && w == RunTrace(start, trace[..|replies|]) && Evolves(start.executions, w.executions)
    && Ahead(trace, |replies|, clock, w.executions) && Answered(start, trace, replies)
  }

  lemma GoingNext(start: World, trace: seq<Arrival>, replies: seq<Reply>, w: World, clock: int, reply: Reply, w': World, clock': int)
    requires Going(start, trace, replies, w, clock) && |replies| < |trace|
    requires reply == ReplyTo(w, trace[|replies|]) && w' == Afterwards(w, trace[|replies|]) && Evolves(w.executions, w'.executions)
    requires Ahead(trace, |replies| + 1, clock', w'.executions)
    ensures Going(start, trace, replies + [reply], w', clock')
  {
    TraceGrows(start, trace, |replies|);
    EvolvesTransitive(start.executions, w.executions, w'.executions);
    AnsweredNext(start, trace, replies, reply);
  }

  method ServeNext(api: ControlAPI, trace: seq<Arrival>, replies: seq<Reply>, ghost begun: nat, ghost first: int, ghost start: World)
      returns (reply: Reply)
    requires api.Valid() && |replies| < |trace| && InOrder(trace, first) && KnownIds(trace, api.store.ids)
    requires begun <= api.store.persists && !api.DiedSince(begun)
    requires Going(start, trace, replies, api.State(), api.policy.shared.clock)
    modifies api.policy, api.policy.shared, api.store, api.corr
    ensures begun <= api.store.persists && reply.Died? == api.DiedSince(begun)
    ensures if reply.Died? then
              && Evolves(start.executions, api.store.executions)
              && DiedAfter(RunTrace(start, trace[..|replies|]), RunTrace(start, trace[..|replies| + 1]), api.State())
            else
              api.Valid() && Going(start, trace, replies + [reply], api.State(), api.policy.shared.clock)
  {
    ghost var before, now, clock, n := api.State(), api.store.persists, api.policy.shared.clock, |replies|;
    assert trace[n] in trace && Comes(trace, n, first) && AheadAt(trace, n, clock, before.executions);
    TraceGrows(start, trace, n);
    reply := api.Handle(trace[|replies|]);
    AheadNext(trace, n, first, clock, api.policy.shared.clock, before);
    CrashedSplits(api.store.fate, begun, now, api.store.persists);
    EvolvesTransitive(start.executions, before.executions, api.store.executions);
    if !reply.Died? {
      GoingNext(start, trace, replies, before, clock, reply, api.State(), api.policy.shared.clock);
    }
  }

  /** One process life of the control API: every request gets its answer, and in the end the world
      is what the trace makes of it; or the process dies persisting, which ends the trace with a
      request that gets no answer. */
  method Serve(api: ControlAPI, trace: seq<Arrival>) returns (replies: seq<Reply>)
    requires api.Valid() && InOrder(trace, api.policy.shared.clock) && KnownIds(trace, api.store.ids)
    requires Ahead(trace, 0, api.policy.shared.clock, api.store.executions)
    modifies api.policy, api.policy.shared, api.store, api.corr
    ensures |replies| <= |trace| && Evolves(old(api.store.executions), api.store.executions)
    ensures Answered(old(api.State()), trace, replies)
    ensures |replies| < |trace| <==> api.DiedSince(old(api.store.persists))
    ensures var w, n := old(api.State()), |replies|;
            if n == |trace| then api.State() == RunTrace(w, trace)
            else DiedAfter(RunTrace(w, trace[..n]), RunTrace(w, trace[..n + 1]), api.State())
  {
    replies := [];
    ghost var first, begun, w := api.policy.shared.clock, api.store.persists, api.State();
    while |replies| < |trace|
      invariant api.Valid() && Going(w, trace, replies, api.State(), api.policy.shared.clock)
      invariant begun <= api.store.persists && !api.DiedSince(begun)
    {
      var reply := ServeNext(api, trace, replies, begun, first, w);
      if reply.Died? {
        return;
      }
      replies := replies + [reply];
    }
    assert trace[..|trace|] == trace;
  }

}
