/** The process-local backend: two nested dictionaries, one for values and one for expiry
    times, purged lazily. The ghost `table` follows the abstract timed map; `Valid` says that
    at the last clock reading, and so ever after, the dictionaries show exactly what the table shows. */
module MemoryBackend {
  import opened Options
  import opened TimedMap

  type Data<V> = map<string, map<string, Option<V>>>
  type Expiry = map<string, map<string, int>>

  /** What the two dictionaries hold for one slot, alive or not. */
  datatype Cell<V> = Cell(value: Option<V>, expires: Option<int>)

  ghost function Visible<V>(cell: Option<Cell<V>>, t: int): Option<Entry<V>> {
    if cell.None? || cell.value.value.None? then None
    else
      var e := Entry(cell.value.value.value, cell.value.expires);
      if Expired(e, t) then None else Some(e)
  }

  /** Both dictionaries know the same namespaces; only stored keys have an expiry time. */
  ghost predicate Shape<V>(data: Data<V>, expiry: Expiry) {
    data.Keys == expiry.Keys && forall ns :: ns in data ==> expiry[ns].Keys <= data[ns].Keys
  }

  ghost function Raw<V>(data: Data<V>, expiry: Expiry, slot: Slot): Option<Cell<V>>
    requires Shape(data, expiry)
  {
    if slot.ns !in data || slot.key !in data[slot.ns] then None
    else Some(Cell(data[slot.ns][slot.key],
                   if slot.key in expiry[slot.ns] then Some(expiry[slot.ns][slot.key]) else None))
  }

  /** At the given time the dictionaries show what the table shows. */
  ghost predicate Shows<V>(data: Data<V>, expiry: Expiry, table: Table<V>, t: int)
    requires Shape(data, expiry)
  {
    forall slot {:trigger Raw(data, expiry, slot)} :: Visible(Raw(data, expiry, slot), t) == Lookup(table, slot, t)
  }

  lemma ShowsLater<V>(data: Data<V>, expiry: Expiry, table: Table<V>, t: int, later: int)
    requires Shape(data, expiry) && Shows(data, expiry, table, t) && t <= later
    ensures Shows(data, expiry, table, later)
  {
  }

  /** Dropping a slot shows as dropping it, or, when it was dead, as nothing. */
  lemma DroppedShows<V>(data: Data<V>, expiry: Expiry, table: Table<V>, t: int, slot: Slot, data': Data<V>, expiry': Expiry)
    requires Shape(data, expiry) && Shape(data', expiry') && Shows(data, expiry, table, t) && Raw(data', expiry', slot) == None
    requires forall s :: s != slot ==> Raw(data', expiry', s) == Raw(data, expiry, s)
    ensures Shows(data', expiry', table - {slot}, t)
    ensures Lookup(table, slot, t) == None ==> Shows(data', expiry', table, t)
  {
    forall s
      ensures Visible(Raw(data', expiry', s), t) == Lookup(table - {slot}, s, t)
      ensures Lookup(table, slot, t) == None ==> Visible(Raw(data', expiry', s), t) == Lookup(table, s, t)
    {
      assert s != slot ==> Raw(data', expiry', s) == Raw(data, expiry, s);
    }
  }

  lemma StoredShows<V>(data: Data<V>, expiry: Expiry, table: Table<V>, t: int, slot: Slot, value: Option<V>, expires: Option<int>,
                       data': Data<V>, expiry': Expiry)
    requires Shape(data, expiry) && Shape(data', expiry') && Shows(data, expiry, table, t)
    requires Raw(data', expiry', slot) == Some(Cell(value, expires))
    requires forall s :: s != slot ==> Raw(data', expiry', s) == Raw(data, expiry, s)
    ensures Shows(data', expiry', Put(table, slot, value, expires), t)
  {
    forall s
      ensures Visible(Raw(data', expiry', s), t) == Lookup(Put(table, slot, value, expires), s, t)
    {
      assert s != slot ==> Raw(data', expiry', s) == Raw(data, expiry, s);
    }
  }

  class MemorySharedState<V(==)> {
    var data: Data<V>
    var expiry: Expiry
    ghost var table: Table<V>
    ghost var clock: int

    ghost predicate Valid()
      reads this
    {
      Shape(data, expiry) && Shows(data, expiry, table, clock)
    }

    constructor (start: int)
      ensures Valid() && table == map[] && clock == start
    {
      data, expiry, table, clock := map[], map[], map[], start;
    }

    /** `_ns`: a namespace comes into being when it is first touched. */
    method Touch(ns: string)
      requires Shape(data, expiry)
      modifies this`data, this`expiry
      ensures Shape(data, expiry) && ns in data
      ensures forall s :: Raw(data, expiry, s) == Raw(old(data), old(expiry), s)
    {
      if ns !in data {
        data, expiry := data[ns := map[]], expiry[ns := map[]];
      }
    }

    /** The value `_ns(namespace).get(key)` returns. */
    method Current(slot: Slot) returns (value: Option<V>)
      requires Shape(data, expiry)
      modifies this`data, this`expiry
      ensures Shape(data, expiry)
      ensures forall s :: Raw(data, expiry, s) == Raw(old(data), old(expiry), s)
      ensures value == if Raw(data, expiry, slot).Some? then Raw(data, expiry, slot).value.value else None
    {
      Touch(slot.ns);
      value := if slot.key in data[slot.ns] then data[slot.ns][slot.key] else None;
    }

    method Store(slot: Slot, value: Option<V>, expires: Option<int>)
      requires Shape(data, expiry)
      modifies this`data, this`expiry
      ensures Shape(data, expiry) && Raw(data, expiry, slot) == Some(Cell(value, expires))
      ensures forall s :: s != slot ==> Raw(data, expiry, s) == Raw(old(data), old(expiry), s)
    {
      Touch(slot.ns);
      data := data[slot.ns := data[slot.ns][slot.key := value]];
      match expires {
        case Some(at) => expiry := expiry[slot.ns := expiry[slot.ns][slot.key := at]];
        case None => expiry := expiry[slot.ns := expiry[slot.ns] - {slot.key}];
      }
    }

    method Remove(slot: Slot)
      requires Shape(data, expiry)
      modifies this`data, this`expiry
      ensures Shape(data, expiry) && Raw(data, expiry, slot) == None
      ensures forall s :: s != slot ==> Raw(data, expiry, s) == Raw(old(data), old(expiry), s)
    {
      if slot.ns in data {
        data := data[slot.ns := data[slot.ns] - {slot.key}];
        expiry := expiry[slot.ns := expiry[slot.ns] - {slot.key}];
      }
    }

    /** `_purge`: drop the entry when its expiry time has been reached. */
    method Purge(slot: Slot, now: int)
      requires Valid() && clock <= now
      modifies this`data, this`expiry, this`clock
      ensures Valid() && clock == now
      ensures var cell := Raw(data, expiry, slot);
              cell.Some? && cell.value.expires.Some? ==> now < cell.value.expires.value
    {
      if slot.ns in expiry && slot.key in expiry[slot.ns] && expiry[slot.ns][slot.key] <= now {
        assert Visible(Raw(data, expiry, slot), now) == None;
        Remove(slot);
      }
      clock := now;
    }

    method Get(slot: Slot, now: int) returns (value: Option<V>)
      requires Valid() && clock <= now
      modifies this
      ensures Valid() && clock == now && table == old(table)
      ensures value == Read(table, slot, now)
    {
      Purge(slot, now);
      value := Current(slot);
      assert Visible(Raw(data, expiry, slot), now) == Lookup(table, slot, now);
    }

    method Set(slot: Slot, value: Option<V>, ttl: Option<int>, stamp: int)
      requires Valid() && clock <= stamp
      modifies this
      ensures Valid() && clock == stamp && table == Put(old(table), slot, value, Deadline(ttl, stamp))
    {
      ShowsLater(data, expiry, table, clock, stamp);
      Store(slot, value, if ttl == None then None else Some(stamp + ttl.value));
      StoredShows(old(data), old(expiry), table, stamp, slot, value, Deadline(ttl, stamp), data, expiry);
      table, clock := Put(table, slot, value, Deadline(ttl, stamp)), stamp;
    }

    method Delete(slot: Slot)
      requires Valid()
      modifies this
      ensures Valid() && clock == old(clock) && table == old(table) - {slot}
    {
      Remove(slot);
      table := table - {slot};
    }

    method CompareAndSet(slot: Slot, expected: Option<V>, value: Option<V>, ttl: Option<int>, now: int, stamp: int)
      returns (ok: bool)
      requires Valid() && clock <= now <= stamp
      modifies this
      ensures Valid() && now <= clock <= stamp
      ensures ok == (Read(old(table), slot, now) == expected)
      ensures table == Apply(old(table), Op.CompareAndSet(slot, expected, value, ttl), now, stamp)
    {
      var current := Get(slot, now);
      ok := current == expected;
      if ok {
        Set(slot, value, ttl, stamp);
      }
    }

    method TryAcquire(slot: Slot, owner: V, ttl: int, now: int, stamp: int) returns (ok: bool)
      requires Valid() && clock <= now <= stamp
      modifies this
      ensures Valid() && now <= clock <= stamp
      ensures ok == MayAcquire(old(table), slot, owner, now)
      ensures table == Apply(old(table), Op.TryAcquire(slot, owner, ttl), now, stamp)
    {
      var current := Get(slot, now);
      ok := current.None? || current.value == owner;
      if ok {
        Set(slot, Some(owner), Some(ttl), stamp);
      }
    }

    /** The code does not purge here: an owner whose lease has run out may still drop the dead
        entry, which no later operation can tell from leaving it. */
    method Release(slot: Slot, owner: V, now: int)
      requires Valid() && clock <= now
      modifies this
      ensures Valid() && clock == now
      ensures table == Apply(old(table), Op.Release(slot, owner), now, now)
    {
      ShowsLater(data, expiry, table, clock, now);
      clock := now;
      assert Visible(Raw(data, expiry, slot), now) == Lookup(table, slot, now);
      var current := Current(slot);
      if current == Some(owner) {
        Remove(slot);
        DroppedShows(old(data), old(expiry), table, now, slot, data, expiry);
        if Read(table, slot, now) == Some(owner) {
          table := table - {slot};
        }
      }
    }

    method ClearNamespace(ns: string)
      requires Valid()
      modifies this
      ensures Valid() && clock == old(clock)
      ensures table == Apply(old(table), Op.ClearNamespace(ns), clock, clock)
    {
      data, expiry := data - {ns}, expiry - {ns};
      assert forall s: Slot {:trigger Raw(data, expiry, s)} ::
          Raw(data, expiry, s) == if s.ns == ns then None else Raw(old(data), old(expiry), s);
      table := Apply(table, Op.ClearNamespace(ns), clock, clock);
    }

    method Perform(step: Timed<V>) returns (answer: Answer<V>)
      requires Valid() && clock <= step.now <= step.stamp
      modifies this
      ensures Valid() && clock <= step.stamp
      ensures answer == Reply(old(table), step.op, step.now)
      ensures table == Apply(old(table), step.op, step.now, step.stamp)
    {
      answer := Nothing;
      match step.op {
        case Get(slot) =>
          var value := Get(slot, step.now);
          answer := Found(value);
        case Set(slot, value, ttl) => Set(slot, value, ttl, step.stamp);
        case Delete(slot) => Delete(slot);
        case CompareAndSet(slot, expected, value, ttl) =>
          var ok := CompareAndSet(slot, expected, value, ttl, step.now, step.stamp);
          answer := Flag(ok);
        case TryAcquire(slot, owner, ttl) =>
          var ok := TryAcquire(slot, owner, ttl, step.now, step.stamp);
          answer := Flag(ok);
        case Release(slot, owner) => Release(slot, owner, step.now);
        case ClearNamespace(ns) => ClearNamespace(ns);
      }
    }

    /** Any script of operations gets exactly the answers of the abstract timed map. */
    method Replay(script: seq<Timed<V>>) returns (answers: seq<Answer<V>>)
      requires Valid() && Monotone(script, clock)
      modifies this
      ensures Valid()
      ensures answers == Answers(old(table), script) && table == Run(old(table), script)
    {
      answers := [];
      for i := 0 to |script|
        invariant Valid() && Monotone(script[i..], clock)
        invariant Run(old(table), script) == Run(table, script[i..])
        invariant Answers(old(table), script) == answers + Answers(table, script[i..])
      {
        var answer := Perform(script[i]);
        MonotoneEarlier(script[i..][1..], script[i].stamp, clock);
        answers := answers + [answer];
      }
    }
  }
}
