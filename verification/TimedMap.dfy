/** The abstract timed map behind the shared-state backends: a slot whose expiry time has
    been reached is absent, and a slot that stores Python's None reads as absent.
    Every operation gets two clock readings, because the code reads the clock once to decide
    whether the stored entry is still alive and once more to stamp the new expiry time. */
module TimedMap {
  import opened Options

  datatype Slot = Slot(ns: string, key: string)

  datatype Entry<V> = Entry(value: V, expires: Option<int>)

  type Table<V> = map<Slot, Entry<V>>

  datatype Op<V> =
    | Get(slot: Slot)
    | Set(slot: Slot, value: Option<V>, ttl: Option<int>)
    | Delete(slot: Slot)
    | CompareAndSet(slot: Slot, expected: Option<V>, value: Option<V>, ttl: Option<int>)
    | TryAcquire(slot: Slot, owner: V, leaseTtl: int)
    | Release(slot: Slot, owner: V)
    | ClearNamespace(ns: string)

  /** One operation together with its clock readings. */
  datatype Timed<V> = Timed(op: Op<V>, now: int, stamp: int)

  datatype Answer<V> = Nothing | Found(value: Option<V>) | Flag(ok: bool)

  predicate Expired<V>(e: Entry<V>, now: int) {
    e.expires.Some? && e.expires.value <= now
  }

  /** What an operation at time `now` sees in a slot. */
  function Lookup<V>(t: Table<V>, slot: Slot, now: int): Option<Entry<V>> {
    if slot in t && !Expired(t[slot], now) then Some(t[slot]) else None
  }

  function Read<V>(t: Table<V>, slot: Slot, now: int): Option<V> {
    match Lookup(t, slot, now)
    case None => None
    case Some(e) => Some(e.value)
  }

  function Deadline(ttl: Option<int>, stamp: int): Option<int> {
    match ttl
    case None => None
    case Some(d) => Some(stamp + d)
  }

  function Put<V>(t: Table<V>, slot: Slot, value: Option<V>, expires: Option<int>): Table<V> {
    match value
    case None => t - {slot}
    case Some(v) => t[slot := Entry(v, expires)]
  }

  function Apply<V(==)>(t: Table<V>, op: Op<V>, now: int, stamp: int): Table<V> {
    match op
    case Get(_) => t
    case Set(slot, value, ttl) => Put(t, slot, value, Deadline(ttl, stamp))
    case Delete(slot) => t - {slot}
    case CompareAndSet(slot, expected, value, ttl) =>
      if Read(t, slot, now) == expected then Put(t, slot, value, Deadline(ttl, stamp)) else t
    case TryAcquire(slot, owner, ttl) =>
      if MayAcquire(t, slot, owner, now) then Put(t, slot, Some(owner), Some(stamp + ttl)) else t
    case Release(slot, owner) =>
      if Read(t, slot, now) == Some(owner) then t - {slot} else t
    case ClearNamespace(ns) => map slot | slot in t && slot.ns != ns :: t[slot]
  }

  predicate MayAcquire<V(==)>(t: Table<V>, slot: Slot, owner: V, now: int) {
    var current := Read(t, slot, now);
    current.None? || current.value == owner
  }

  function Reply<V(==)>(t: Table<V>, op: Op<V>, now: int): Answer<V> {
    match op
    case Get(slot) => Found(Read(t, slot, now))
    case CompareAndSet(slot, expected, _, _) => Flag(Read(t, slot, now) == expected)
    case TryAcquire(slot, owner, _) => Flag(MayAcquire(t, slot, owner, now))
    case _ => Nothing
  }

  /** What is set is there until its time to live is over, for good without one, and nowhere else. */
  lemma SetThenRead<V>(t: Table<V>, slot: Slot, v: V, ttl: Option<int>, stamp: int, other: Slot, at: int)
    ensures var t' := Apply(t, Set(slot, Some(v), ttl), stamp, stamp);
            && Read(t', slot, at) == (if ttl.Some? && at >= stamp + ttl.value then None else Some(v))
            && (other != slot ==> Read(t', other, at) == Read(t, other, at))
    ensures var t' := Apply(t, Delete(slot), stamp, stamp);
            Read(t', slot, at) == None && (other != slot ==> Read(t', other, at) == Read(t, other, at))
    ensures other.ns != slot.ns ==> Read(Apply(t, ClearNamespace(slot.ns), stamp, stamp), other, at) == Read(t, other, at)
    ensures Read(Apply(t, ClearNamespace(slot.ns), stamp, stamp), slot, at) == None
  {
  }

  /** Clock readings of a script never go back. */
  predicate Monotone<V>(script: seq<Timed<V>>, start: int) {
    script == [] ||
    (start <= script[0].now <= script[0].stamp && Monotone(script[1..], script[0].stamp))
  }

  function Run<V(==)>(t: Table<V>, script: seq<Timed<V>>): Table<V>
    decreases |script|
  {
    if script == [] then t
    else Run(Apply(t, script[0].op, script[0].now, script[0].stamp), script[1..])
  }

  function Answers<V(==)>(t: Table<V>, script: seq<Timed<V>>): seq<Answer<V>>
    decreases |script|
  {
    if script == [] then []
    else [Reply(t, script[0].op, script[0].now)] +
         Answers(Apply(t, script[0].op, script[0].now, script[0].stamp), script[1..])
  }

  lemma MonotoneEarlier<V>(script: seq<Timed<V>>, start: int, earlier: int)
    requires Monotone(script, start) && earlier <= start
    ensures Monotone(script, earlier)
  {
  }
}
