/** Leases on the shared state: exclusion while a lease runs, fencing of late releases, and the
    reconciliation pass that relies on both. */
module Leases {
  import opened Options
  import opened TimedMap

  /** `owner` holds the slot at `now` for at least until `end`. */
  predicate Holds<V(==)>(t: Table<V>, slot: Slot, owner: V, now: int, end: int) {
    match Lookup(t, slot, now)
    case None => false
    case Some(e) => e.value == owner && (e.expires.Some? ==> end <= e.expires.value)
  }

  /** Steps that leave a running lease alone: anything on other slots, attempts and releases by
      other owners, and renewals by the owner that do not cut the lease short. */
  predicate Respects<V(==)>(step: Timed<V>, slot: Slot, owner: V, end: int) {
    match step.op
    case Get(_) => true
    case Set(s, _, _) => s != slot
    case Delete(s) => s != slot
    case CompareAndSet(s, expected, _, _) => s != slot || expected != Some(owner)
    case TryAcquire(s, o, ttl) => s != slot || o != owner || end <= step.stamp + ttl
    case Release(s, o) => s != slot || o != owner
    case ClearNamespace(ns) => ns != slot.ns
  }

  lemma LaterIsMonotone<V>(script: seq<Timed<V>>, start: int)
    requires script != [] && Monotone(script, start)
    ensures Monotone(script, script[0].now)
  {
  }

  lemma LeaseStep<V>(t: Table<V>, step: Timed<V>, slot: Slot, owner: V, start: int, end: int)
    requires Holds(t, slot, owner, start, end) && start <= step.now <= step.stamp && step.now < end
    requires Respects(step, slot, owner, end)
    ensures Holds(Apply(t, step.op, step.now, step.stamp), slot, owner, step.now, end)
    ensures forall later :: step.now <= later < end ==> Holds(Apply(t, step.op, step.now, step.stamp), slot, owner, later, end)
    ensures step.op.TryAcquire? && step.op.slot == slot && step.op.owner != owner ==>
              Reply(t, step.op, step.now) == Flag(false)
  {
  }

  /** Whatever the others try before `end`, they are refused, and the lease is still there:
      a late release by an earlier owner does not free it. */
  lemma {:induction false} LeaseExcludes<V>(t: Table<V>, script: seq<Timed<V>>, slot: Slot, owner: V, start: int, end: int)
    requires Holds(t, slot, owner, start, end) && Monotone(script, start)
    requires forall i :: 0 <= i < |script| ==> Respects(script[i], slot, owner, end) && script[i].now < end
    ensures |Answers(t, script)| == |script|
    ensures forall i :: 0 <= i < |script| && script[i].op.TryAcquire? && script[i].op.slot == slot && script[i].op.owner != owner
              ==> Answers(t, script)[i] == Flag(false)
    ensures Holds(Run(t, script), slot, owner, if script == [] then start else script[|script| - 1].now, end)
    decreases |script|
  {
    if script != [] {
      var step, rest := script[0], script[1..];
      var next := Apply(t, step.op, step.now, step.stamp);
      LeaseStep(t, step, slot, owner, start, end);
      if rest != [] {
        assert rest[0] == script[1] && rest[|rest| - 1] == script[|script| - 1];
        assert forall i :: 0 <= i < |rest| ==> rest[i] == script[i + 1];
        LaterIsMonotone(rest, step.stamp);
        LeaseExcludes(next, rest, slot, owner, rest[0].now, end);
      }
      assert Answers(t, script) == [Reply(t, step.op, step.now)] + Answers(next, rest);
      assert Run(t, script) == Run(next, rest);
      assert forall i :: 0 < i < |script| ==> script[i] == rest[i - 1] && Answers(t, script)[i] == Answers(next, rest)[i - 1];
    }
  }

  /* ---------- the reconciliation pass ---------- */

  const LEASE := 30
  const LOCK := Slot("reconcile_locks", "global")

  /** `running` maps each worker inside the reconcile body to the moment its lease was stamped. */
  datatype World = World(table: Table<string>, running: map<string, int>)

  datatype Action =
    | Enter(worker: string, now: int, stamp: int)
    | Leave(worker: string, now: int)

  function When(a: Action): int { a.now }

  function Settled(a: Action): int { if a.Enter? then a.stamp else a.now }

  /** A worker enters the body only when it gets the lock, and gives the lock back after it. */
  function Next(w: World, a: Action): World {
    match a
    case Enter(worker, now, stamp) =>
      var op := Op.TryAcquire(LOCK, worker, LEASE);
      if worker in w.running || Reply(w.table, op, now) != Flag(true) then w
      else World(Apply(w.table, op, now, stamp), w.running[worker := stamp])
    case Leave(worker, now) =>
      if worker !in w.running then w
      else World(Apply(w.table, Op.Release(LOCK, worker), now, now), w.running - {worker})
  }

  function RunAll(w: World, actions: seq<Action>): World
    decreases |actions|
  {
    if actions == [] then w else RunAll(Next(w, actions[0]), actions[1..])
  }

  predicate Ordered(actions: seq<Action>, start: int) {
    actions == [] ||
    (start <= When(actions[0]) <= Settled(actions[0]) && Ordered(actions[1..], Settled(actions[0])))
  }

  /** No body lasts as long as its lease: whenever something happens, every running body is
      younger than the lease. */
  predicate Prompt(w: World, actions: seq<Action>)
    decreases |actions|
  {
    actions == [] ||
    ((forall x :: x in w.running ==> When(actions[0]) < w.running[x] + LEASE) && Prompt(Next(w, actions[0]), actions[1..]))
  }

  predicate AtMostOne(w: World) {
    forall a, b :: a in w.running && b in w.running ==> a == b
  }

  predicate Inv(w: World) {
    && AtMostOne(w)
    && forall a :: a in w.running ==> LOCK in w.table && w.table[LOCK] == Entry(a, Some(w.running[a] + LEASE))
  }

  lemma PromptStep(w: World, a: Action)
    requires Inv(w) && When(a) <= Settled(a)
    requires forall x :: x in w.running ==> When(a) < w.running[x] + LEASE
    ensures Inv(Next(w, a))
  {
  }

  /** Reconcile bodies shorter than the lease never overlap, whatever the interleaving. */
  lemma {:induction false} BodiesNeverOverlap(w: World, actions: seq<Action>, start: int)
    requires Inv(w) && Ordered(actions, start) && Prompt(w, actions)
    ensures AtMostOne(RunAll(w, actions))
    decreases |actions|
  {
    if actions != [] {
      PromptStep(w, actions[0]);
      BodiesNeverOverlap(Next(w, actions[0]), actions[1..], Settled(actions[0]));
    }
  }

  /** The bound is exact: while one body runs, another worker gets in if and only if the lease
      of the first has run out. */
  lemma OverlapIffOverrun(w: World, holder: string, other: string, now: int, stamp: int)
    requires Inv(w) && holder in w.running && other != holder && now <= stamp
    ensures !AtMostOne(Next(w, Enter(other, now, stamp))) <==> w.running[holder] + LEASE <= now
  {
    var next := Next(w, Enter(other, now, stamp));
    assert other !in w.running;
    if w.running[holder] + LEASE <= now {
      assert Read(w.table, LOCK, now) == None;
      assert holder in next.running && other in next.running;
    } else {
      assert Read(w.table, LOCK, now) == Some(holder);
    }
  }
}
