/** Confirm-then-execute across workers. Every access to the shared state is one step, so the
    steps of different workers interleave freely; a worker keeps the copy of the session it
    loaded, however stale. Session saves by other handlers are unrestricted: any session may
    at any time be overwritten with no pending action or with any action ever requested. */
module Confirmation {
  import opened Options
  import opened TimedMap

  const TOKEN_LIFETIME := 3600
  const PENDING_TTL := 3600
  const CLAIM_TTL := 7 * 24 * 3600
  const SESSION_TTL := 7 * 24 * 3600

  /** The longest a worker may pause between its expiry check and its claim, exclusive. */
  const STALL_LIMIT := CLAIM_TTL - TOKEN_LIFETIME

  datatype Pending = Pending(token: string, operation: string, executionId: Option<string>, actor: string,
                             createdAt: int, expiresAt: int)

  datatype Value = PendingControl(pending: Pending) | SessionData(pendingConfirmation: Option<Pending>) | ClaimRecord

  const NS_PENDING := "yasin_pending_control"
  const NS_SESSIONS := "yasin_sessions"
  const NS_CLAIMS := "control_events"

  function PendingSlot(token: string): Slot { Slot(NS_PENDING, token) }
  function SessionSlot(session: string): Slot { Slot(NS_SESSIONS, session) }
  function ClaimSlot(eventId: string): Slot { Slot(NS_CLAIMS, eventId) }
  function EventId(token: string): string { "nl-" + token }

  datatype Request = Request(token: string, actor: string, session: string)

  /** Where a worker stands in handling one confirmation. */
  datatype Phase =
    | Idle
    | Loaded(req: Request, session: Option<Pending>)
    | Fetched(req: Request, session: Option<Pending>, pending: Pending)
    | Checked(req: Request, session: Option<Pending>, pending: Pending, checkedAt: int)
    | Peeked(req: Request, session: Option<Pending>, pending: Pending, checkedAt: int, data: Option<Pending>)
    | Swapped(req: Request, session: Option<Pending>, pending: Pending, checkedAt: int, consumed: Option<Pending>)
    | Ready(req: Request, pending: Pending, checkedAt: int)
    | Claimed(req: Request, pending: Pending)

  datatype Mutation = Mutation(token: string, operation: string, executionId: Option<string>, actor: string)

  /** `claimed` collects the tokens some confirmation has claimed; it steers nothing. */
  datatype Hub = Hub(table: Table<Value>, minted: map<string, Pending>, workers: map<nat, Phase>,
                     claimed: set<string>, log: seq<Mutation>, clock: int)

  datatype Action =
    | RequestControl(pending: Pending)
    | SaveSession(session: string, pendingConfirmation: Option<Pending>)
    | ClearPending(token: string)
    | ClaimElsewhere(eventId: string)
    | Load(worker: nat, req: Request)
    | Fetch(worker: nat)
    | Check(worker: nat)
    | Peek(worker: nat)
    | Swap(worker: nat)
    | Settle(worker: nat)
    | Claim(worker: nat)
    | Execute(worker: nat, allowed: bool)

  /** A step with its two clock readings. */
  datatype Step = Step(action: Action, now: int, stamp: int)

  function PhaseOf(h: Hub, worker: nat): Phase {
    if worker in h.workers then h.workers[worker] else Idle
  }

  function Move(h: Hub, worker: nat, phase: Phase): Hub {
    h.(workers := h.workers[worker := phase])
  }

  predicate Matches(session: Option<Pending>, token: string) {
    session.Some? && session.value.token == token
  }

  function Next(h: Hub, s: Step): Hub {
    if h.clock <= s.now <= s.stamp then Act(h, s).(clock := s.stamp) else h
  }

  function Act(h: Hub, s: Step): Hub {
    match s.action
    case RequestControl(p) => Mint(h, p, s.now, s.stamp)
    case SaveSession(session, p) =>
      if p.Some? && !Genuine(h.minted, p.value) then h
      else Write(h, Op.Set(SessionSlot(session), Some(SessionData(p)), Some(SESSION_TTL)), s.now, s.stamp)
    case ClearPending(token) => Write(h, Op.Delete(PendingSlot(token)), s.now, s.stamp)
    case ClaimElsewhere(eventId) => Write(h, ClaimOp(eventId), s.now, s.stamp)
    case Load(w, req) => StepLoad(h, w, req, s.now)
    case Fetch(w) => StepFetch(h, w, PhaseOf(h, w), s.now)
    case Check(w) => StepCheck(h, w, PhaseOf(h, w), s.now)
    case Peek(w) => StepPeek(h, w, PhaseOf(h, w), s.now)
    case Swap(w) => StepSwap(h, w, PhaseOf(h, w), s.now, s.stamp)
    case Settle(w) => StepSettle(h, w, PhaseOf(h, w), s.now, s.stamp)
    case Claim(w) => StepClaim(h, w, PhaseOf(h, w), s.now, s.stamp)
    case Execute(w, allowed) => StepExecute(h, w, PhaseOf(h, w), allowed)
  }

  function Write(h: Hub, op: Op<Value>, now: int, stamp: int): Hub {
    h.(table := Apply(h.table, op, now, stamp))
  }

  function ClaimOp(eventId: string): Op<Value> {
    Op.CompareAndSet(ClaimSlot(eventId), None, Some(ClaimRecord), Some(CLAIM_TTL))
  }

  /** A control request makes a fresh token; its expiry time is fixed here for all copies. */
  function Mint(h: Hub, p: Pending, now: int, stamp: int): Hub {
    if p.token in h.minted || p.createdAt != now || p.expiresAt != now + TOKEN_LIFETIME then h
    else Write(h, Op.Set(PendingSlot(p.token), Some(PendingControl(p)), Some(PENDING_TTL)), now, stamp)
         .(minted := h.minted[p.token := p])
  }

  function StepLoad(h: Hub, w: nat, req: Request, now: int): Hub {
    if !PhaseOf(h, w).Idle? then h else Move(h, w, Loaded(req, StoredSession(h.table, req.session, now)))
  }

  /** The shared copy of the pending action, or else the one in the session at hand. */
  function StepFetch(h: Hub, w: nat, ph: Phase, now: int): Hub {
    if !ph.Loaded? then h else
    var stored := StoredPending(h.table, ph.req.token, now);
    if stored.Some? then Move(h, w, Fetched(ph.req, ph.session, stored.value))
    else if Matches(ph.session, ph.req.token) then Move(h, w, Fetched(ph.req, ph.session, ph.session.value))
    else Move(h, w, Idle)
  }

  /** Expired tokens and foreign actors are turned away. */
  function StepCheck(h: Hub, w: nat, ph: Phase, now: int): Hub {
    if !ph.Fetched? then h
    else if ph.pending.expiresAt < now then Move(h, w, Idle)
    else if !ActorFits(ph.pending, ph.req.actor) then Move(h, w, Idle)
    else Move(h, w, Checked(ph.req, ph.session, ph.pending, now))
  }

  /** First half of consuming the shared copy: read it. */
  function StepPeek(h: Hub, w: nat, ph: Phase, now: int): Hub {
    if !ph.Checked? then h
    else Move(h, w, Peeked(ph.req, ph.session, ph.pending, ph.checkedAt, StoredPending(h.table, ph.req.token, now)))
  }

  /** Second half: compare-and-set what was read to None. */
  function StepSwap(h: Hub, w: nat, ph: Phase, now: int, stamp: int): Hub {
    if !ph.Peeked? then h
    else if ph.data.None? then Move(h, w, Swapped(ph.req, ph.session, ph.pending, ph.checkedAt, None))
    else
      var cas := Op.CompareAndSet(PendingSlot(ph.req.token), Some(PendingControl(ph.data.value)), None, Some(1));
      var consumed := if Reply(h.table, cas, now) == Flag(true) then ph.data else None;
      Move(Write(h, cas, now, stamp), w, Swapped(ph.req, ph.session, ph.pending, ph.checkedAt, consumed))
  }

  /** A worker that lost the race goes on when its own copy of the session names the token. */
  function StepSettle(h: Hub, w: nat, ph: Phase, now: int, stamp: int): Hub {
    if !ph.Swapped? then h
    else if ph.consumed.Some? then
      Move(Write(h, Op.Delete(PendingSlot(ph.req.token)), now, stamp), w, Ready(ph.req, ph.consumed.value, ph.checkedAt))
    else if Matches(ph.session, ph.req.token) then Move(h, w, Ready(ph.req, ph.pending, ph.checkedAt))
    else Move(h, w, Idle)
  }

  /** The Control API claims the event id before it does anything. */
  function StepClaim(h: Hub, w: nat, ph: Phase, now: int, stamp: int): Hub {
    if !ph.Ready? then h
    else if Reply(h.table, ClaimOp(EventId(ph.req.token)), now) != Flag(true) then Move(h, w, Idle)
    else
      Move(Write(h, ClaimOp(EventId(ph.req.token)), now, stamp).(claimed := h.claimed + {ph.req.token}), w,
           Claimed(ph.req, ph.pending))
  }

  /** Policy and lifecycle may still turn the action down; otherwise it mutates the store. */
  function StepExecute(h: Hub, w: nat, ph: Phase, allowed: bool): Hub {
    if !ph.Claimed? then h
    else Move(if allowed then h.(log := h.log + [MutationOf(ph.req, ph.pending)]) else h, w, Idle)
  }

  function MutationOf(req: Request, p: Pending): Mutation {
    Mutation(req.token, p.operation, p.executionId, if req.actor != "" then req.actor else p.actor)
  }

  function StoredPending(t: Table<Value>, token: string, now: int): Option<Pending> {
    var found: Option<Value> := Read(t, PendingSlot(token), now);
    match found
    case Some(PendingControl(p)) => Some(p)
    case _ => None
  }

  function StoredSession(t: Table<Value>, session: string, now: int): Option<Pending> {
    var found: Option<Value> := Read(t, SessionSlot(session), now);
    match found
    case Some(SessionData(p)) => p
    case _ => None
  }

  function Run(h: Hub, steps: seq<Step>): Hub
    decreases |steps|
  {
    if steps == [] then h else Next(Run(h, steps[..|steps| - 1]), steps[|steps| - 1])
  }

  const Start := Hub(map[], map[], map[], {}, [], 0)

  function Count(log: seq<Mutation>, token: string): nat {
    if log == [] then 0 else Count(log[..|log| - 1], token) + if log[|log| - 1].token == token then 1 else 0
  }

  ghost predicate AtMostOnce(h: Hub) {
    forall token :: Count(h.log, token) <= 1
  }

  /** At the claim, less than `limit` has passed since the worker's own expiry check. */
  predicate Stalls(h: Hub, s: Step, limit: int) {
    s.action.Claim? && PhaseOf(h, s.action.worker).Ready? ==>
      s.now < PhaseOf(h, s.action.worker).checkedAt + limit
  }

  predicate NoLongStall(steps: seq<Step>, limit: int)
    decreases |steps|
  {
    steps == [] ||
    (NoLongStall(steps[..|steps| - 1], limit) && Stalls(Run(Start, steps[..|steps| - 1]), steps[|steps| - 1], limit))
  }

  /* ---------- what every step keeps ---------- */

  predicate Genuine(minted: map<string, Pending>, p: Pending) {
    p.token in minted && minted[p.token] == p
  }

  predicate GenuineFor(minted: map<string, Pending>, p: Option<Pending>, token: string) {
    p.Some? ==> Genuine(minted, p.value) && p.value.token == token
  }

  predicate GenuineAny(minted: map<string, Pending>, p: Option<Pending>) {
    p.Some? ==> Genuine(minted, p.value)
  }

  predicate GenuineEntry(minted: map<string, Pending>, slot: Slot, v: Value) {
    && (slot.ns == NS_PENDING ==> v.PendingControl? && GenuineFor(minted, Some(v.pending), slot.key))
    && (slot.ns == NS_SESSIONS ==> v.SessionData? && GenuineAny(minted, v.pendingConfirmation))
  }

  predicate GenuineTable(minted: map<string, Pending>, t: Table<Value>) {
    forall slot :: slot in t ==> GenuineEntry(minted, slot, t[slot].value)
  }

  predicate ActorFits(p: Pending, actor: string) {
    p.actor == "" || actor == "" || p.actor == actor
  }

  /** A worker only ever holds actions as they were requested, and holds a live token check. */
  predicate GenuinePhase(h: Hub, phase: Phase) {
    match phase
    case Idle => true
    case Loaded(req, session) => GenuineAny(h.minted, session)
    case Fetched(req, session, p) => GenuineAny(h.minted, session) && GenuineFor(h.minted, Some(p), req.token)
    case Checked(req, session, p, at) =>
      GenuineAny(h.minted, session) && GenuineFor(h.minted, Some(p), req.token) && at <= p.expiresAt && ActorFits(p, req.actor)
    case Peeked(req, session, p, at, data) =>
      && GenuineAny(h.minted, session) && GenuineFor(h.minted, Some(p), req.token) && at <= p.expiresAt
      && ActorFits(p, req.actor) && GenuineFor(h.minted, data, req.token)
    case Swapped(req, session, p, at, consumed) =>
      && GenuineAny(h.minted, session) && GenuineFor(h.minted, Some(p), req.token) && at <= p.expiresAt
      && ActorFits(p, req.actor) && GenuineFor(h.minted, consumed, req.token)
    case Ready(req, p, at) => GenuineFor(h.minted, Some(p), req.token) && at <= p.expiresAt && ActorFits(p, req.actor)
    case Claimed(req, p) => GenuineFor(h.minted, Some(p), req.token) && ActorFits(p, req.actor) && req.token in h.claimed
  }

  predicate GenuineMutation(minted: map<string, Pending>, m: Mutation) {
    && m.token in minted
    && var p := minted[m.token];
       m.operation == p.operation && m.executionId == p.executionId && (p.actor != "" && m.actor != "" ==> m.actor == p.actor)
  }

  predicate Sound(h: Hub) {
    && (forall token :: token in h.minted ==>
          var p := h.minted[token];
          p.token == token && p.createdAt <= h.clock && p.expiresAt == p.createdAt + TOKEN_LIFETIME)
    && GenuineTable(h.minted, h.table)
    && (forall w :: w in h.workers ==> GenuinePhase(h, h.workers[w]))
    && (forall i :: 0 <= i < |h.log| ==> GenuineMutation(h.minted, h.log[i]))
  }

  lemma NamespacesApart()
    ensures NS_PENDING != NS_SESSIONS && NS_PENDING != NS_CLAIMS && NS_SESSIONS != NS_CLAIMS
  {
  }

  predicate Grows(minted: map<string, Pending>, minted': map<string, Pending>) {
    forall token :: token in minted ==> token in minted' && minted'[token] == minted[token]
  }

  lemma TableKept(minted: map<string, Pending>, minted': map<string, Pending>, t: Table<Value>, t': Table<Value>, slot: Slot)
    requires GenuineTable(minted, t) && Grows(minted, minted')
    requires forall s :: s in t' && s != slot ==> s in t && t'[s] == t[s]
    requires slot in t' ==> (slot in t && t'[slot] == t[slot]) || GenuineEntry(minted', slot, t'[slot].value)
    ensures GenuineTable(minted', t')
  {
  }

  lemma PhasesKept(h: Hub, h': Hub, worker: nat)
    requires forall w :: w in h.workers ==> GenuinePhase(h, h.workers[w])
    requires Grows(h.minted, h'.minted) && h.claimed <= h'.claimed
    requires forall w :: w in h'.workers && w != worker ==> w in h.workers && h'.workers[w] == h.workers[w]
    requires worker in h'.workers ==> (worker in h.workers && h'.workers[worker] == h.workers[worker]) || GenuinePhase(h', h'.workers[worker])
    ensures forall w :: w in h'.workers ==> GenuinePhase(h', h'.workers[w])
  {
  }

  /** A worker's step: at most one slot, at most one phase, at most one log entry. */
  lemma WorkerStep(h: Hub, h': Hub, w: nat, slot: Slot)
    requires Sound(h) && h'.minted == h.minted && h'.clock == h.clock && h.claimed <= h'.claimed
    requires forall s :: s in h'.table && s != slot ==> s in h.table && h'.table[s] == h.table[s]
    requires slot in h'.table ==> (slot in h.table && h'.table[slot] == h.table[slot]) || GenuineEntry(h'.minted, slot, h'.table[slot].value)
    requires forall x :: x in h'.workers && x != w ==> x in h.workers && h'.workers[x] == h.workers[x]
    requires w in h'.workers ==> (w in h.workers && h'.workers[w] == h.workers[w]) || GenuinePhase(h', h'.workers[w])
    requires h'.log == h.log || (|h'.log| == |h.log| + 1 && h'.log[..|h.log|] == h.log && GenuineMutation(h.minted, h'.log[|h.log|]))
    ensures Sound(h')
  {
    TableKept(h.minted, h'.minted, h.table, h'.table, slot);
    PhasesKept(h, h', w);
  }

  lemma SoundMint(h: Hub, p: Pending, now: int, stamp: int)
    requires Sound(h) && h.clock <= now <= stamp
    ensures Sound(Mint(h, p, now, stamp).(clock := stamp))
  {
    NamespacesApart();
    var h' := Mint(h, p, now, stamp).(clock := stamp);
    TableKept(h.minted, h'.minted, h.table, h'.table, PendingSlot(p.token));
    PhasesKept(h, h', 0);
  }

  lemma SoundWrite(h: Hub, op: Op<Value>, now: int, stamp: int)
    requires Sound(h) && !op.ClearNamespace?
    requires op.Set? && op.value.Some? ==> GenuineEntry(h.minted, op.slot, op.value.value)
    requires op.CompareAndSet? && op.value.Some? ==> GenuineEntry(h.minted, op.slot, op.value.value)
    requires op.TryAcquire? ==> GenuineEntry(h.minted, op.slot, op.owner)
    ensures Sound(Write(h, op, now, stamp))
  {
  }

  lemma SoundMove(h: Hub, w: nat, phase: Phase)
    requires Sound(h) && GenuinePhase(h, phase)
    ensures Sound(Move(h, w, phase))
  {
  }

  lemma Stored(h: Hub, token: string, session: string, now: int)
    requires Sound(h)
    ensures GenuineFor(h.minted, StoredPending(h.table, token, now), token)
    ensures GenuineAny(h.minted, StoredSession(h.table, session, now))
  {
  }

  lemma SoundEarly(h: Hub, w: nat, req: Request, now: int)
    requires Sound(h)
    ensures Sound(StepLoad(h, w, req, now))
    ensures Sound(StepFetch(h, w, PhaseOf(h, w), now))
    ensures Sound(StepCheck(h, w, PhaseOf(h, w), now))
    ensures Sound(StepPeek(h, w, PhaseOf(h, w), now))
  {
    var ph := PhaseOf(h, w);
    assert GenuinePhase(h, ph);
    Stored(h, if ph.Idle? then "" else ph.req.token, req.session, now);
    SoundMove(h, w, Idle);
    if ph.Idle? {
      SoundMove(h, w, Loaded(req, StoredSession(h.table, req.session, now)));
    } else {
      var next := StepPeek(StepCheck(StepFetch(h, w, ph, now), w, ph, now), w, ph, now);
      SoundMove(h, w, PhaseOf(next, w));
    }
  }

  lemma SoundSwap(h: Hub, w: nat, now: int, stamp: int)
    requires Sound(h)
    ensures Sound(StepSwap(h, w, PhaseOf(h, w), now, stamp))
  {
    var ph := PhaseOf(h, w);
    assert GenuinePhase(h, ph);
    var next := StepSwap(h, w, ph, now, stamp);
    if ph.Peeked? {
      var cas := Op.CompareAndSet(PendingSlot(ph.req.token), if ph.data.Some? then Some(PendingControl(ph.data.value)) else None, None, Some(1));
      SoundWrite(h, cas, now, stamp);
      SoundMove(if ph.data.Some? then Write(h, cas, now, stamp) else h, w, PhaseOf(next, w));
    }
  }

  lemma SoundSettle(h: Hub, w: nat, now: int, stamp: int)
    requires Sound(h)
    ensures Sound(StepSettle(h, w, PhaseOf(h, w), now, stamp))
  {
    var ph := PhaseOf(h, w);
    assert GenuinePhase(h, ph);
    if ph.Swapped? {
      var gone := Write(h, Op.Delete(PendingSlot(ph.req.token)), now, stamp);
      SoundWrite(h, Op.Delete(PendingSlot(ph.req.token)), now, stamp);
      if ph.consumed.Some? {
        SoundMove(gone, w, Ready(ph.req, ph.consumed.value, ph.checkedAt));
      } else {
        SoundMove(h, w, PhaseOf(StepSettle(h, w, ph, now, stamp), w));
      }
    }
  }

  lemma SoundClaim(h: Hub, w: nat, now: int, stamp: int)
    requires Sound(h)
    ensures Sound(StepClaim(h, w, PhaseOf(h, w), now, stamp))
  {
    NamespacesApart();
    var ph := PhaseOf(h, w);
    assert GenuinePhase(h, ph);
    if ph.Ready? {
      WorkerStep(h, StepClaim(h, w, ph, now, stamp), w, ClaimSlot(EventId(ph.req.token)));
    }
  }

  lemma SoundExecute(h: Hub, w: nat, allowed: bool)
    requires Sound(h)
    ensures Sound(StepExecute(h, w, PhaseOf(h, w), allowed))
  {
  }

  predicate ByWorker(a: Action) {
    !a.RequestControl? && !a.SaveSession? && !a.ClearPending? && !a.ClaimElsewhere?
  }

  lemma SoundByWorker(h: Hub, s: Step)
    requires Sound(h) && ByWorker(s.action)
    ensures Sound(Act(h, s))
  {
    match s.action {
      case Load(w, req) => SoundEarly(h, w, req, s.now);
      case Fetch(w) => SoundEarly(h, w, Request("", "", ""), s.now);
      case Check(w) => SoundEarly(h, w, Request("", "", ""), s.now);
      case Peek(w) => SoundEarly(h, w, Request("", "", ""), s.now);
      case Swap(w) => SoundSwap(h, w, s.now, s.stamp);
      case Settle(w) => SoundSettle(h, w, s.now, s.stamp);
      case Claim(w) => SoundClaim(h, w, s.now, s.stamp);
      case Execute(w, allowed) => SoundExecute(h, w, allowed);
    }
  }

  lemma SoundByOthers(h: Hub, s: Step)
    requires Sound(h) && !ByWorker(s.action) && !s.action.RequestControl?
    ensures Sound(Act(h, s))
  {
    NamespacesApart();
    match s.action {
      case SaveSession(session, p) =>
        if p.None? || Genuine(h.minted, p.value) {
          SoundWrite(h, Op.Set(SessionSlot(session), Some(SessionData(p)), Some(SESSION_TTL)), s.now, s.stamp);
        }
      case ClearPending(token) => SoundWrite(h, Op.Delete(PendingSlot(token)), s.now, s.stamp);
      case ClaimElsewhere(id) => SoundWrite(h, ClaimOp(id), s.now, s.stamp);
    }
  }

  lemma SoundStep(h: Hub, s: Step)
    requires Sound(h)
    ensures Sound(Next(h, s))
  {
    if h.clock <= s.now <= s.stamp {
      if s.action.RequestControl? {
        SoundMint(h, s.action.pending, s.now, s.stamp);
      } else {
        if ByWorker(s.action) {
          SoundByWorker(h, s);
        } else {
          SoundByOthers(h, s);
        }
        SameClock(h, s);
        SoundLater(Act(h, s), s.stamp);
      }
    }
  }

  lemma SameClock(h: Hub, s: Step)
    ensures Act(h, s).clock == h.clock
  {
  }

  lemma SoundLater(h: Hub, stamp: int)
    requires Sound(h) && h.clock <= stamp
    ensures Sound(h.(clock := stamp))
  {
  }

  /* ---------- at most once ---------- */

  lemma EventIdInjective(a: string, b: string)
    ensures EventId(a) == EventId(b) <==> a == b
  {
    assert EventId(a)[3..] == a && EventId(b)[3..] == b;
  }

  predicate HasClaimed(h: Hub, w: nat, token: string) {
    PhaseOf(h, w).Claimed? && PhaseOf(h, w).req.token == token
  }

  /** The claim entry outlives every check of the token by the stall limit. */
  predicate ClaimStands(h: Hub, token: string) {
    && token in h.minted
    && ClaimSlot(EventId(token)) in h.table
    && var e := h.table[ClaimSlot(EventId(token))];
       e.expires.Some? && h.minted[token].createdAt + CLAIM_TTL <= e.expires.value
  }

  ghost predicate Once(h: Hub, token: string) {
    && (token in h.claimed ==> ClaimStands(h, token))
    && (token !in h.claimed ==> Count(h.log, token) == 0 && forall w :: !HasClaimed(h, w, token))
    && Count(h.log, token) <= 1
    && (forall w :: HasClaimed(h, w, token) ==> Count(h.log, token) == 0)
    && (forall w, x :: HasClaimed(h, w, token) && HasClaimed(h, x, token) ==> w == x)
  }

  /** Steps that neither claim nor execute. */
  lemma OnceFrame(h: Hub, h': Hub, worker: nat, token: string)
    requires Once(h, token) && h'.log == h.log && h'.claimed == h.claimed
    requires forall w :: w != worker ==> PhaseOf(h', w) == PhaseOf(h, w)
    requires PhaseOf(h', worker) == PhaseOf(h, worker) || !PhaseOf(h', worker).Claimed?
    requires ClaimStands(h, token) ==> ClaimStands(h', token)
    ensures Once(h', token)
  {
    assert forall w :: HasClaimed(h', w, token) ==> HasClaimed(h, w, token);
  }

  /** Checked before the token expired, so the claim entry is still alive and the claim fails. */
  lemma SecondClaimFails(h: Hub, w: nat, now: int, stamp: int)
    requires Sound(h) && PhaseOf(h, w).Ready? && ClaimStands(h, PhaseOf(h, w).req.token)
    requires now < PhaseOf(h, w).checkedAt + STALL_LIMIT
    ensures StepClaim(h, w, PhaseOf(h, w), now, stamp) == Move(h, w, Idle)
  {
  }

  lemma OnceClaim(h: Hub, w: nat, now: int, stamp: int, token: string)
    requires Sound(h) && Once(h, token) && h.clock <= now <= stamp
    requires PhaseOf(h, w).Ready? ==> now < PhaseOf(h, w).checkedAt + STALL_LIMIT
    ensures Once(StepClaim(h, w, PhaseOf(h, w), now, stamp), token)
  {
    var ph := PhaseOf(h, w);
    var h' := StepClaim(h, w, ph, now, stamp);
    if ph.Ready? {
      if ph.req.token == token && token in h.claimed {
        SecondClaimFails(h, w, now, stamp);
      }
      if h' == Move(h, w, Idle) {
        OnceFrame(h, h', w, token);
      } else {
        assert GenuinePhase(h, ph);
        OnceClaimed(h, w, now, stamp, token);
      }
    }
  }

  /** The first claim of a token, or one of another token. */
  lemma OnceClaimed(h: Hub, w: nat, now: int, stamp: int, token: string)
    requires Once(h, token) && h.clock <= now <= stamp && PhaseOf(h, w).Ready? && GenuinePhase(h, PhaseOf(h, w))
    requires PhaseOf(h, w).req.token == token ==> token !in h.claimed && token in h.minted && h.minted[token].createdAt <= h.clock
    requires StepClaim(h, w, PhaseOf(h, w), now, stamp) != Move(h, w, Idle)
    ensures Once(StepClaim(h, w, PhaseOf(h, w), now, stamp), token)
  {
    var ph := PhaseOf(h, w);
    var h' := StepClaim(h, w, ph, now, stamp);
    EventIdInjective(token, ph.req.token);
    assert forall x :: x != w ==> PhaseOf(h', x) == PhaseOf(h, x);
    assert forall x :: HasClaimed(h', x, token) ==> (x == w && ph.req.token == token) || HasClaimed(h, x, token);
  }

  lemma OnceExecute(h: Hub, w: nat, allowed: bool, token: string)
    requires Sound(h) && Once(h, token)
    ensures Once(StepExecute(h, w, PhaseOf(h, w), allowed), token)
  {
    var ph := PhaseOf(h, w);
    var h' := StepExecute(h, w, ph, allowed);
    assert GenuinePhase(h, ph);
    if ph.Claimed? {
      assert forall x :: x != w ==> PhaseOf(h', x) == PhaseOf(h, x);
      assert HasClaimed(h, w, ph.req.token);
      assert forall x :: HasClaimed(h', x, token) ==> HasClaimed(h, x, token) && x != w;
      if allowed {
        assert h'.log[..|h'.log| - 1] == h.log;
      }
    }
  }

  lemma OnceMove(h: Hub, w: nat, phase: Phase, token: string)
    requires Once(h, token) && !phase.Claimed?
    ensures Once(Move(h, w, phase), token)
  {
    OnceFrame(h, Move(h, w, phase), w, token);
  }

  lemma OnceWrite(h: Hub, op: Op<Value>, now: int, stamp: int, token: string)
    requires Once(h, token) && !op.ClearNamespace? && op.slot.ns != NS_CLAIMS
    ensures Once(Write(h, op, now, stamp), token)
  {
    OnceFrame(h, Write(h, op, now, stamp), 0, token);
  }

  lemma OnceLater(h: Hub, stamp: int, token: string)
    requires Once(h, token)
    ensures Once(h.(clock := stamp), token)
  {
    OnceFrame(h, h.(clock := stamp), 0, token);
  }

  lemma OnceEarly(h: Hub, w: nat, req: Request, now: int, token: string)
    requires Once(h, token)
    ensures Once(StepLoad(h, w, req, now), token)
    ensures Once(StepFetch(h, w, PhaseOf(h, w), now), token)
    ensures Once(StepCheck(h, w, PhaseOf(h, w), now), token)
    ensures Once(StepPeek(h, w, PhaseOf(h, w), now), token)
  {
    forall phase: Phase | !phase.Claimed?
      ensures Once(Move(h, w, phase), token)
    {
      OnceMove(h, w, phase, token);
    }
  }

  lemma OnceSwap(h: Hub, w: nat, now: int, stamp: int, token: string)
    requires Once(h, token)
    ensures Once(StepSwap(h, w, PhaseOf(h, w), now, stamp), token)
  {
    NamespacesApart();
    var ph := PhaseOf(h, w);
    if ph.Peeked? {
      var next := PhaseOf(StepSwap(h, w, ph, now, stamp), w);
      OnceMove(h, w, next, token);
      if ph.data.Some? {
        var cas := Op.CompareAndSet(PendingSlot(ph.req.token), Some(PendingControl(ph.data.value)), None, Some(1));
        OnceWrite(h, cas, now, stamp, token);
        OnceMove(Write(h, cas, now, stamp), w, next, token);
      }
    }
  }

  lemma OnceSettle(h: Hub, w: nat, now: int, stamp: int, token: string)
    requires Once(h, token)
    ensures Once(StepSettle(h, w, PhaseOf(h, w), now, stamp), token)
  {
    NamespacesApart();
    var ph := PhaseOf(h, w);
    if ph.Swapped? {
      var next := PhaseOf(StepSettle(h, w, ph, now, stamp), w);
      OnceMove(h, w, next, token);
      var gone := Op<Value>.Delete(PendingSlot(ph.req.token));
      OnceWrite(h, gone, now, stamp, token);
      OnceMove(Write(h, gone, now, stamp), w, next, token);
    }
  }

  lemma OnceByOthers(h: Hub, s: Step, token: string)
    requires Sound(h) && Once(h, token) && !ByWorker(s.action) && h.clock <= s.now <= s.stamp
    ensures Once(Act(h, s), token)
  {
    NamespacesApart();
    match s.action {
      case SaveSession(session, p) =>
        OnceWrite(h, Op.Set(SessionSlot(session), Some(SessionData(p)), Some(SESSION_TTL)), s.now, s.stamp, token);
      case ClearPending(t) => OnceWrite(h, Op.Delete(PendingSlot(t)), s.now, s.stamp, token);
      case ClaimElsewhere(id) => OnceFrame(h, Write(h, ClaimOp(id), s.now, s.stamp), 0, token);
      case RequestControl(p) => OnceFrame(h, Mint(h, p, s.now, s.stamp), 0, token);
    }
  }

  predicate Quiet(a: Action) {
    ByWorker(a) && !a.Claim? && !a.Execute?
  }

  lemma OnceQuiet(h: Hub, s: Step, token: string)
    requires Once(h, token) && Quiet(s.action)
    ensures Once(Act(h, s), token)
  {
    match s.action {
      case Load(w, req) => OnceEarly(h, w, req, s.now, token);
      case Swap(w) => OnceSwap(h, w, s.now, s.stamp, token);
      case Settle(w) => OnceSettle(h, w, s.now, s.stamp, token);
      case Fetch(w) => OnceEarly(h, w, Request("", "", ""), s.now, token);
      case Check(w) => OnceEarly(h, w, Request("", "", ""), s.now, token);
      case Peek(w) => OnceEarly(h, w, Request("", "", ""), s.now, token);
    }
  }

  lemma OnceStep(h: Hub, s: Step, token: string)
    requires Sound(h) && Once(h, token) && Stalls(h, s, STALL_LIMIT)
    ensures Once(Next(h, s), token)
  {
    if h.clock <= s.now <= s.stamp {
      if Quiet(s.action) {
        OnceQuiet(h, s, token);
      } else if s.action.Claim? {
        OnceClaim(h, s.action.worker, s.now, s.stamp, token);
      } else if s.action.Execute? {
        OnceExecute(h, s.action.worker, s.action.allowed, token);
      } else {
        OnceByOthers(h, s, token);
      }
      OnceLater(Act(h, s), s.stamp, token);
    }
  }

  lemma {:induction false} RunKeeps(steps: seq<Step>)
    requires NoLongStall(steps, STALL_LIMIT)
    ensures Sound(Run(Start, steps))
    ensures forall token :: Once(Run(Start, steps), token)
  {
    if steps != [] {
      var init, last := steps[..|steps| - 1], steps[|steps| - 1];
      RunKeeps(init);
      var h := Run(Start, init);
      SoundStep(h, last);
      forall token
        ensures Once(Next(h, last), token)
      {
        OnceStep(h, last, token);
      }
    }
  }

  lemma {:induction false} RunSound(steps: seq<Step>)
    ensures Sound(Run(Start, steps))
  {
    if steps != [] {
      RunSound(steps[..|steps| - 1]);
      SoundStep(Run(Start, steps[..|steps| - 1]), steps[|steps| - 1]);
    }
  }

  /** Over every interleaving, one token causes at most one mutation, as long as no worker
      stalls for the limit between its expiry check and its claim. */
  lemma TokenActsAtMostOnce(steps: seq<Step>)
    requires NoLongStall(steps, STALL_LIMIT)
    ensures AtMostOnce(Run(Start, steps))
  {
    RunKeeps(steps);
    assert forall token :: Once(Run(Start, steps), token) ==> Count(Run(Start, steps).log, token) <= 1;
  }

  /** However the workers interleave and stall, a mutation is the one that was requested under
      its token, on the requested execution, by the actor who requested it. */
  lemma MutationsAreAsRequested(steps: seq<Step>, i: nat)
    requires i < |Run(Start, steps).log|
    ensures var h, m := Run(Start, steps), Run(Start, steps).log[i];
            && m.token in h.minted
            && m.operation == h.minted[m.token].operation
            && m.executionId == h.minted[m.token].executionId
            && (h.minted[m.token].actor != "" && m.actor != "" ==> m.actor == h.minted[m.token].actor)
  {
    RunSound(steps);
  }

  /* ---------- the stall bound is exact ---------- */

  ghost predicate Reaches(steps: seq<Step>, h: Hub, limit: int) {
    Run(Start, steps) == h && NoLongStall(steps, limit)
  }

  lemma Extend(steps: seq<Step>, h: Hub, s: Step, limit: int)
    requires Reaches(steps, h, limit) && Stalls(h, s, limit)
    ensures Reaches(steps + [s], Next(h, s), limit)
  {
  }

  ghost predicate SameElsewhere(h: Hub, h': Hub, w: nat) {
    && h'.log == h.log
    && (forall x: nat :: x != w ==> PhaseOf(h', x) == PhaseOf(h, x))
    && (forall slot: Slot, t :: slot.ns == NS_CLAIMS ==> Read(h'.table, slot, t) == Read(h.table, slot, t))
  }

  lemma StaleWorkerPeeks(steps: seq<Step>, h: Hub, w: nat, now: int, limit: int) returns (steps': seq<Step>, h': Hub)
    requires Reaches(steps, h, limit) && PhaseOf(h, w).Fetched? && h.clock <= now
    requires var ph := PhaseOf(h, w); now <= ph.pending.expiresAt && ActorFits(ph.pending, ph.req.actor)
    ensures Reaches(steps', h', limit) && h'.clock == now && SameElsewhere(h, h', w)
    ensures var ph, ph' := PhaseOf(h, w), PhaseOf(h', w);
            ph'.Peeked? && ph'.req == ph.req && ph'.session == ph.session && ph'.checkedAt == now
  {
    var s1 := Step(Check(w), now, now);
    var h1 := Next(h, s1);
    Extend(steps, h, s1, limit);
    var s2 := Step(Peek(w), now, now);
    h' := Next(h1, s2);
    Extend(steps + [s1], h1, s2, limit);
    steps' := steps + [s1] + [s2];
  }

  lemma StaleWorkerSwaps(h: Hub, w: nat, now: int)
    requires PhaseOf(h, w).Peeked? && h.clock <= now
    ensures var h' := Next(h, Step(Swap(w), now, now));
            var ph, ph' := PhaseOf(h, w), PhaseOf(h', w);
            && h'.clock == now && SameElsewhere(h, h', w)
            && ph'.Swapped? && ph'.req == ph.req && ph'.session == ph.session && ph'.checkedAt == ph.checkedAt
  {
    NamespacesApart();
  }

  lemma StaleWorkerSettles(h: Hub, w: nat, now: int)
    requires PhaseOf(h, w).Swapped? && h.clock <= now && Matches(PhaseOf(h, w).session, PhaseOf(h, w).req.token)
    ensures var h' := Next(h, Step(Settle(w), now, now));
            var ph, ph' := PhaseOf(h, w), PhaseOf(h', w);
            && h'.clock == now && SameElsewhere(h, h', w)
            && ph'.Ready? && ph'.req == ph.req && ph'.checkedAt == ph.checkedAt
  {
    NamespacesApart();
  }

  /** The first half of a confirmation, up to the claim. */
  lemma StaleWorkerGetsReady(steps: seq<Step>, h: Hub, w: nat, now: int, limit: int) returns (steps': seq<Step>, h': Hub)
    requires Reaches(steps, h, limit) && PhaseOf(h, w).Fetched? && h.clock <= now
    requires var ph := PhaseOf(h, w); Matches(ph.session, ph.req.token) && now <= ph.pending.expiresAt && ActorFits(ph.pending, ph.req.actor)
    ensures Reaches(steps', h', limit) && h'.clock == now && SameElsewhere(h, h', w)
    ensures PhaseOf(h', w).Ready? && PhaseOf(h', w).req == PhaseOf(h, w).req && PhaseOf(h', w).checkedAt == now
  {
    var peeked, h2 := StaleWorkerPeeks(steps, h, w, now, limit);
    StaleWorkerSwaps(h2, w, now);
    var h3 := Next(h2, Step(Swap(w), now, now));
    Extend(peeked, h2, Step(Swap(w), now, now), limit);
    StaleWorkerSettles(h3, w, now);
    h' := Next(h3, Step(Settle(w), now, now));
    Extend(peeked + [Step(Swap(w), now, now)], h3, Step(Settle(w), now, now), limit);
    steps' := peeked + [Step(Swap(w), now, now)] + [Step(Settle(w), now, now)];
  }

  /** A worker whose session copy names an unexpired token, and who finds no live claim,
      mutates the store: even when another worker has consumed the shared copy. */
  lemma StaleWorkerGetsThrough(steps: seq<Step>, h: Hub, w: nat, now: int, claimAt: int, limit: int)
    returns (steps': seq<Step>, h': Hub)
    requires Reaches(steps, h, limit) && PhaseOf(h, w).Fetched?
    requires var ph := PhaseOf(h, w); Matches(ph.session, ph.req.token) && now <= ph.pending.expiresAt && ActorFits(ph.pending, ph.req.actor)
    requires h.clock <= now <= claimAt < now + limit
    requires Read(h.table, ClaimSlot(EventId(PhaseOf(h, w).req.token)), claimAt) == None
    ensures Reaches(steps', h', limit) && h'.clock == claimAt
    ensures |h'.log| == |h.log| + 1 && h'.log[..|h.log|] == h.log && h'.log[|h.log|].token == PhaseOf(h, w).req.token
    ensures forall x: nat :: x != w ==> PhaseOf(h', x) == PhaseOf(h, x)
    ensures var slot := ClaimSlot(EventId(PhaseOf(h, w).req.token));
            slot in h'.table && h'.table[slot].expires == Some(claimAt + CLAIM_TTL)
  {
    var ready, r := StaleWorkerGetsReady(steps, h, w, now, limit);
    var s5 := Step(Claim(w), claimAt, claimAt);
    var h5 := Next(r, s5);
    Extend(ready, r, s5, limit);
    var s6 := Step(Execute(w, true), claimAt, claimAt);
    h' := Next(h5, s6);
    Extend(ready + [s5], h5, s6, limit);
    steps' := ready + [s5] + [s6];
  }

  ghost predicate Offered(h: Hub, p: Pending) {
    && h.clock == 0 && h.log == [] && ClaimSlot(EventId(p.token)) !in h.table
    && StoredPending(h.table, p.token, 0) == Some(p) && StoredSession(h.table, "s", 0) == Some(p)
  }

  lemma OfferAction(p: Pending, limit: int) returns (steps: seq<Step>, h: Hub)
    requires p.createdAt == 0 && p.expiresAt == TOKEN_LIFETIME
    ensures Reaches(steps, h, limit) && Offered(h, p) && h.workers == map[]
  {
    NamespacesApart();
    var s1 := Step(RequestControl(p), 0, 0);
    var h1 := Next(Start, s1);
    assert Reaches([], Start, limit);
    Extend([], Start, s1, limit);
    var s2 := Step(SaveSession("s", Some(p)), 0, 0);
    h := Next(h1, s2);
    Extend([] + [s1], h1, s2, limit);
    steps := [] + [s1] + [s2];
  }

  lemma PickUp(steps: seq<Step>, h: Hub, w: nat, p: Pending, limit: int) returns (steps': seq<Step>, h': Hub)
    requires Reaches(steps, h, limit) && Offered(h, p) && w !in h.workers
    ensures Reaches(steps', h', limit) && Offered(h', p)
    ensures h'.workers == h.workers[w := Fetched(Request(p.token, p.actor, "s"), Some(p), p)]
  {
    var s1, s2 := Step(Load(w, Request(p.token, p.actor, "s")), 0, 0), Step(Fetch(w), 0, 0);
    var h1 := Next(h, s1);
    Extend(steps, h, s1, limit);
    h' := Next(h1, s2);
    Extend(steps + [s1], h1, s2, limit);
    steps' := steps + [s1] + [s2];
  }

  /** A stall of exactly the limit is enough to act twice. */
  lemma DoubleMutation(limit: int) returns (steps: seq<Step>)
    requires STALL_LIMIT < limit
    ensures NoLongStall(steps, limit) && !AtMostOnce(Run(Start, steps))
  {
    var p := Pending("t", "cancel", Some("e"), "ops", 0, TOKEN_LIFETIME);
    var offer, o := OfferAction(p, limit);
    var one, h := PickUp(offer, o, 0, p, limit);
    var steps0, h0 := PickUp(one, h, 1, p, limit);
    var steps1, h1 := StaleWorkerGetsThrough(steps0, h0, 0, 0, 0, limit);
    assert PhaseOf(h1, 1) == PhaseOf(h0, 1);
    var h2: Hub;
    steps, h2 := StaleWorkerGetsThrough(steps1, h1, 1, TOKEN_LIFETIME, CLAIM_TTL, limit);
    assert h1.log == h2.log[..1] && h0.log == h1.log[..0];
    assert Count(h1.log, "t") == 1;
    assert Count(h2.log, "t") == 2;
  }

  lemma {:induction false} StallsWeaken(steps: seq<Step>, limit: int, larger: int)
    requires NoLongStall(steps, limit) && limit <= larger
    ensures NoLongStall(steps, larger)
  {
    if steps != [] {
      StallsWeaken(steps[..|steps| - 1], limit, larger);
    }
  }

  /** Seven days minus one hour: the largest stall bound under which no token acts twice. */
  lemma StallBoundIsExact(limit: int)
    ensures (forall steps :: NoLongStall(steps, limit) ==> AtMostOnce(Run(Start, steps))) <==> limit <= 601200
  {
    if limit <= STALL_LIMIT {
      forall steps | NoLongStall(steps, limit)
        ensures AtMostOnce(Run(Start, steps))
      {
        StallsWeaken(steps, limit, STALL_LIMIT);
        TokenActsAtMostOnce(steps);
      }
    } else {
      var steps := DoubleMutation(limit);
    }
  }
}
