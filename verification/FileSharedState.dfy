/** The file backend: one JSON file per slot, replaced atomically through a temporary file
    while a lock file is held. The ghost `table` follows the abstract timed map on the plain
    spellings of the slots, which is what the file names stand for. */
module FileBackend {
  import opened Options
  import opened TimedMap
  import opened FileNames

  /** `Other` is any file that does not hold a readable record. */
  datatype FileBody<V> = Record(value: Option<V>, expires: Option<int>) | Other

  type Disk<V> = map<FilePath, FileBody<V>>

  /** What the file backend makes of an operation: the same on the plain spelling of its slot. */
  function CanonOp<V>(op: Op<V>): Op<V> {
    match op
    case Get(slot) => Op.Get(Canon(slot))
    case Set(slot, value, ttl) => Op.Set(Canon(slot), value, ttl)
    case Delete(slot) => Op.Delete(Canon(slot))
    case CompareAndSet(slot, expected, value, ttl) => Op.CompareAndSet(Canon(slot), expected, value, ttl)
    case TryAcquire(slot, owner, ttl) => Op.TryAcquire(Canon(slot), owner, ttl)
    case Release(slot, owner) => Op.Release(Canon(slot), owner)
    case ClearNamespace(ns) => Op.ClearNamespace(SafeNs(ns))
  }

  function CanonScript<V>(script: seq<Timed<V>>): seq<Timed<V>> {
    seq(|script|, i requires 0 <= i < |script| => Timed(CanonOp(script[i].op), script[i].now, script[i].stamp))
  }

  /** Clearing a namespace whose stuck files stay. */
  function Cleared<V>(t: Table<V>, ns: string, stuck: set<FilePath>): Table<V> {
    map slot | slot in t && (slot.ns != ns || DataFile(slot) in stuck) :: t[slot]
  }

  function ApplyToFiles<V(==)>(t: Table<V>, op: Op<V>, now: int, stamp: int, stuck: set<FilePath>): Table<V> {
    if op.ClearNamespace? then Cleared(t, op.ns, stuck) else Apply(t, op, now, stamp)
  }

  function AnswersOfFiles<V(==)>(t: Table<V>, script: seq<Timed<V>>, stuck: seq<set<FilePath>>): seq<Answer<V>>
    requires |stuck| == |script|
    decreases |script|
  {
    if script == [] then []
    else [Reply(t, script[0].op, script[0].now)] +
         AnswersOfFiles(ApplyToFiles(t, script[0].op, script[0].now, script[0].stamp, stuck[0]), script[1..], stuck[1..])
  }

  /** Nothing is stuck in any step. */
  predicate AllGo(stuck: seq<set<FilePath>>) { forall i :: 0 <= i < |stuck| ==> stuck[i] == {} }

  /** When every unlink succeeds, the files are the timed map on the plain spellings. */
  lemma {:induction false} NothingStuck<V>(t: Table<V>, script: seq<Timed<V>>, stuck: seq<set<FilePath>>)
    requires |stuck| == |script| && AllGo(stuck)
    ensures AnswersOfFiles(t, script, stuck) == Answers(t, script)
    decreases |script|
  {
    if script != [] {
      var op := script[0].op;
      assert stuck[0] == {};
      assert op.ClearNamespace? ==> Cleared(t, op.ns, {}) == Apply(t, op, script[0].now, script[0].stamp);
      assert AllGo(stuck[1..]);
      NothingStuck(Apply(t, op, script[0].now, script[0].stamp), script[1..], stuck[1..]);
    }
  }

  ghost function OnDisk<V>(files: Disk<V>, path: FilePath, t: int): Option<Entry<V>> {
    if path !in files || files[path].Other? || files[path].value.None? then None
    else
      var e := Entry(files[path].value.value, files[path].expires);
      if Expired(e, t) then None else Some(e)
  }

  /** The data file shows what the table shows, for a slot in its plain spelling. */
  ghost predicate Agrees<V>(files: Disk<V>, table: Table<V>, slot: Slot, t: int) {
    Canon(slot) == slot ==> OnDisk(files, DataFile(slot), t) == Lookup(table, slot, t)
  }

  ghost predicate AllAgree<V>(files: Disk<V>, table: Table<V>, t: int) {
    forall slot {:trigger Agrees(files, table, slot, t)} :: Agrees(files, table, slot, t)
  }

  lemma LaterAgrees<V>(files: Disk<V>, table: Table<V>, t: int, later: int)
    requires AllAgree(files, table, t) && t <= later
    ensures AllAgree(files, table, later)
  {
    forall slot
      ensures Agrees(files, table, slot, later)
    {
      assert Agrees(files, table, slot, t);
    }
  }

  /** Changing one data file, and lock and temporary files, changes what one slot shows. */
  lemma ChangeAgrees<V>(files: Disk<V>, table: Table<V>, files': Disk<V>, table': Table<V>, slot: Slot, t: int)
    requires AllAgree(files, table, t)
    requires forall p {:trigger p in files'} :: p != DataFile(slot) && p != TmpFile(slot) && p != LockFile(slot) ==>
               (p in files' <==> p in files) && (p in files' ==> files'[p] == files[p])
    requires table' - {Canon(slot)} == table - {Canon(slot)}
    requires OnDisk(files', DataFile(slot), t) == Lookup(table', Canon(slot), t)
    ensures AllAgree(files', table', t)
  {
    forall s
      ensures Agrees(files', table', s, t)
    {
      assert Agrees(files, table, s, t);
      FilesAreCanonical(s, slot);
      CompanionsNeverHoldData(s, slot);
      if Canon(s) == s && s != Canon(slot) {
        assert s in table' <==> s in table' - {Canon(slot)};
        assert s in table <==> s in table - {Canon(slot)};
        assert s in table' ==> table'[s] == (table' - {Canon(slot)})[s];
        assert s in table ==> table[s] == (table - {Canon(slot)})[s];
      }
    }
  }

  class FileSharedState<V(==)> {
    var files: Disk<V>
    ghost var table: Table<V>
    ghost var clock: int

    ghost predicate Valid()
      reads this
    {
      AllAgree(files, table, clock)
    }

    constructor (start: int)
      ensures Valid() && table == map[] && clock == start
    {
      files, table, clock := map[], map[], start;
    }

    /** Opening the lock file creates it. */
    method Lock(slot: Slot)
      modifies this`files
      ensures files == old(files)[LockFile(slot) := Other]
    {
      files := files[LockFile(slot) := Other];
    }

    /** `_read`: an expired file is unlinked if the unlink succeeds, and counts as absent
        either way. */
    method ReadRecord(path: FilePath, now: int) returns (body: Option<FileBody<V>>)
      modifies this`files
      ensures files == old(files) || (files == old(files) - {path} && body.None?)
      ensures body.Some? ==> path in files && body.value == files[path] && body.value.Record?
      ensures (if body.None? then None else body.value.value) ==
              (match OnDisk(old(files), path, now) case None => None case Some(e) => Some(e.value))
      ensures body.None? ==> OnDisk(old(files), path, now).None?
    {
      if path !in files || files[path].Other? {
        return None;
      }
      if files[path].expires.Some? && files[path].expires.value <= now {
        var unlinked: bool := *;
        if unlinked {
          files := files - {path};
        }
        return None;
      }
      return Some(files[path]);
    }

    /** `_write`: fill the temporary file, then let it take the place of the data file. */
    method WriteRecord(slot: Slot, value: Option<V>, expires: Option<int>)
      modifies this`files
      ensures files == old(files)[DataFile(slot) := Record(value, expires)] - {TmpFile(slot)}
    {
      CompanionsNeverHoldData(slot, slot);
      files := files[TmpFile(slot) := Record(value, expires)];
      files := files[DataFile(slot) := files[TmpFile(slot)]] - {TmpFile(slot)};
    }

    /** The body every operation starts with: take the lock, then `_read` the data file. */
    method Open(slot: Slot, now: int) returns (current: Option<V>)
      requires Valid() && clock <= now
      modifies this`files, this`clock
      ensures Valid() && clock == now
      ensures current == Read(table, Canon(slot), now)
    {
      LaterAgrees(files, table, clock, now);
      FilesAreCanonical(slot, slot);
      CompanionsNeverHoldData(slot, slot);
      assert Agrees(files, table, Canon(slot), now);
      ghost var before := files;
      Lock(slot);
      var body := ReadRecord(DataFile(slot), now);
      ChangeAgrees(before, table, files, table, slot, now);
      clock := now;
      current := if body.None? then None else body.value.value;
    }

    method Get(slot: Slot, now: int) returns (value: Option<V>)
      requires Valid() && clock <= now
      modifies this`files, this`clock
      ensures Valid() && clock == now
      ensures value == Read(table, Canon(slot), now)
    {
      value := Open(slot, now);
    }

    method Set(slot: Slot, value: Option<V>, ttl: Option<int>, stamp: int)
      requires Valid() && clock <= stamp
      modifies this`files, this`clock, this`table
      ensures Valid() && clock == stamp && table == Put(old(table), Canon(slot), value, Deadline(ttl, stamp))
    {
      LaterAgrees(files, table, clock, stamp);
      CompanionsNeverHoldData(slot, slot);
      ghost var before, after := files, Put(table, Canon(slot), value, Deadline(ttl, stamp));
      Lock(slot);
      WriteRecord(slot, value, if ttl == None then None else Some(stamp + ttl.value));
      assert after - {Canon(slot)} == table - {Canon(slot)};
      ChangeAgrees(before, table, files, after, slot, stamp);
      table, clock := after, stamp;
    }

    method Delete(slot: Slot)
      requires Valid()
      modifies this`files, this`table
      ensures Valid() && table == old(table) - {Canon(slot)}
    {
      CompanionsNeverHoldData(slot, slot);
      ghost var before, after := files, table - {Canon(slot)};
      Lock(slot);
      files := files - {DataFile(slot)};
      assert after - {Canon(slot)} == table - {Canon(slot)};
      ChangeAgrees(before, table, files, after, slot, clock);
      table := after;
    }

    method CompareAndSet(slot: Slot, expected: Option<V>, value: Option<V>, ttl: Option<int>, now: int, stamp: int)
      returns (ok: bool)
      requires Valid() && clock <= now <= stamp
      modifies this`files, this`clock, this`table
      ensures Valid() && now <= clock <= stamp
      ensures ok == (Read(old(table), Canon(slot), now) == expected)
      ensures table == Apply(old(table), Op.CompareAndSet(Canon(slot), expected, value, ttl), now, stamp)
    {
      var current := Open(slot, now);
      ok := current == expected;
      if ok {
        Set(slot, value, ttl, stamp);
      }
    }

    method TryAcquire(slot: Slot, owner: V, ttl: int, now: int, stamp: int) returns (ok: bool)
      requires Valid() && clock <= now <= stamp
      modifies this`files, this`clock, this`table
      ensures Valid() && now <= clock <= stamp
      ensures ok == MayAcquire(old(table), Canon(slot), owner, now)
      ensures table == Apply(old(table), Op.TryAcquire(Canon(slot), owner, ttl), now, stamp)
    {
      var current := Open(slot, now);
      ok := current.None? || current.value == owner;
      if ok {
        Set(slot, Some(owner), Some(ttl), stamp);
      }
    }

    method Release(slot: Slot, owner: V, now: int)
      requires Valid() && clock <= now
      modifies this`files, this`clock, this`table
      ensures Valid() && clock == now
      ensures table == Apply(old(table), Op.Release(Canon(slot), owner), now, now)
    {
      var current := Open(slot, now);
      if current == Some(owner) {
        Delete(slot);
      }
    }

    /** Every file of the namespace directory goes, lock files included, but for the stuck ones: a
        failing unlink is ignored, and the others go on. */
    method ClearNamespace(ns: string, stuck: set<FilePath>)
      requires Valid()
      modifies this`files, this`table
      ensures Valid() && table == Cleared(old(table), SafeNs(ns), stuck)
    {
      ghost var before, after := files, Cleared(table, SafeNs(ns), stuck);
      files := map p | p in files && (p.dir != SafeNs(ns) || p in stuck) :: files[p];
      forall slot
        ensures Agrees(files, after, slot, clock)
      {
        assert Agrees(before, table, slot, clock);
      }
      table := after;
    }

    method Perform(step: Timed<V>, stuck: set<FilePath>) returns (answer: Answer<V>)
      requires Valid() && clock <= step.now <= step.stamp
      modifies this`files, this`clock, this`table
      ensures Valid() && clock <= step.stamp
      ensures answer == Reply(old(table), CanonOp(step.op), step.now)
      ensures table == ApplyToFiles(old(table), CanonOp(step.op), step.now, step.stamp, stuck)
    {
      answer := Nothing;
      match step.op {
        case Get(slot) =>
          var value := Get(slot, step.now);
          answer := Found(value);
        case Set(slot, value, ttl) => Set(slot, value, ttl, step.stamp);
        case Delete(slot) => Delete(slot);
        case CompareAndSet(slot, expected, value, ttl) =>
          var ok := CompareAndSet(slot, expected, value, ttl, step.now, step.stamp);
          answer := Flag(ok);
        case TryAcquire(slot, owner, ttl) =>
          var ok := TryAcquire(slot, owner, ttl, step.now, step.stamp);
          answer := Flag(ok);
        case Release(slot, owner) => Release(slot, owner, step.now);
        case ClearNamespace(ns) => ClearNamespace(ns, stuck);
      }
    }

    /** Any script gets exactly the answers of the abstract timed map on the plain spellings, where
        clearing leaves the stuck files behind. */
    method Replay(script: seq<Timed<V>>, stuck: seq<set<FilePath>>) returns (answers: seq<Answer<V>>)
      requires Valid() && Monotone(script, clock) && |stuck| == |script|
      modifies this`files, this`clock, this`table
      ensures Valid() && answers == AnswersOfFiles(old(table), CanonScript(script), stuck)
    {
      answers := [];
      ghost var all := CanonScript(script);
      for i := 0 to |script|
        invariant Valid() && Monotone(script[i..], clock)
        invariant AnswersOfFiles(old(table), all, stuck) == answers + AnswersOfFiles(table, all[i..], stuck[i..])
      {
        var answer := Perform(script[i], stuck[i]);
        MonotoneEarlier(script[i..][1..], script[i].stamp, clock);
        assert all[i..][1..] == all[i + 1..] && stuck[i..][1..] == stuck[i + 1..];
        answers := answers + [answer];
      }
    }
  }
}

/** Both backends side by side. */
module Backends {
  import opened Options
  import opened TimedMap
  import opened MemoryBackend
  import opened FileNames
  import opened FileBackend

  /** The slots are told apart by their files, and their namespaces by their directories. */
  ghost predicate DistinctNames(slots: set<Slot>) {
    && (forall a, b {:trigger Canon(a), Canon(b)} :: a in slots && b in slots && Canon(a) == Canon(b) ==> a == b)
    && (forall a, b {:trigger Canon(a), Canon(b)} :: a in slots && b in slots && SafeNs(a.ns) == SafeNs(b.ns) ==> a.ns == b.ns)
  }

  /** The script names only these slots and their namespaces. */
  predicate Within<V>(script: seq<Timed<V>>, slots: set<Slot>) {
    forall i :: 0 <= i < |script| ==> OpWithin(script[i].op, slots)
  }

  predicate OpWithin<V>(op: Op<V>, slots: set<Slot>) {
    match op
    case ClearNamespace(ns) => exists s :: s in slots && s.ns == ns
    case _ => op.slot in slots
  }

  /** The two tables hold the same entries under the two spellings. */
  ghost predicate SameEntries<V>(t: Table<V>, canon: Table<V>, slots: set<Slot>) {
    forall s {:trigger Canon(s)} :: s in slots ==>
      (s in t <==> Canon(s) in canon) && (s in t ==> t[s] == canon[Canon(s)])
  }

  lemma SameStep<V>(t: Table<V>, canon: Table<V>, slots: set<Slot>, step: Timed<V>)
    requires DistinctNames(slots) && SameEntries(t, canon, slots) && OpWithin(step.op, slots)
    ensures Reply(t, step.op, step.now) == Reply(canon, CanonOp(step.op), step.now)
    ensures SameEntries(Apply(t, step.op, step.now, step.stamp), Apply(canon, CanonOp(step.op), step.now, step.stamp), slots)
  {
    if step.op.ClearNamespace? {
      var other :| other in slots && other.ns == step.op.ns;
      assert Canon(other).ns == SafeNs(step.op.ns);
    } else {
      assert Canon(step.op.slot) == Canon(step.op.slot);
    }
  }

  lemma {:induction false} SameRun<V>(t: Table<V>, canon: Table<V>, slots: set<Slot>, script: seq<Timed<V>>)
    requires DistinctNames(slots) && SameEntries(t, canon, slots) && Within(script, slots)
    ensures Answers(t, script) == Answers(canon, CanonScript(script))
    decreases |script|
  {
    if script != [] {
      SameStep(t, canon, slots, script[0]);
      assert CanonScript(script)[1..] == CanonScript(script[1..]);
      SameRun(Apply(t, script[0].op, script[0].now, script[0].stamp),
              Apply(canon, CanonOp(script[0].op), script[0].now, script[0].stamp), slots, script[1..]);
    }
  }

  /** Some operations, one right after the other at the same time. */
  function At<V>(ops: seq<Op<V>>, at: int): seq<Timed<V>> {
    seq(|ops|, i requires 0 <= i < |ops| => Timed(ops[i], at, at))
  }

  function AnswersAt<V(==)>(t: Table<V>, ops: seq<Op<V>>, at: int): seq<Answer<V>>
    decreases |ops|
  {
    if ops == [] then [] else [Reply(t, ops[0], at)] + AnswersAt(Apply(t, ops[0], at, at), ops[1..], at)
  }

  function CanonOps<V>(ops: seq<Op<V>>): seq<Op<V>> {
    seq(|ops|, i requires 0 <= i < |ops| => CanonOp(ops[i]))
  }

  lemma {:induction false} AnswersAtOnce<V>(t: Table<V>, canon: Table<V>, ops: seq<Op<V>>, at: int)
    ensures Monotone(At(ops, at), at)
    ensures Answers(t, At(ops, at)) == AnswersAt(t, ops, at)
    ensures Answers(canon, CanonScript(At(ops, at))) == AnswersAt(canon, CanonOps(ops), at)
    decreases |ops|
  {
    if ops != [] {
      var rest := At(ops[1..], at);
      assert At(ops, at)[1..] == rest;
      var plain := CanonScript(At(ops, at));
      assert plain == [Timed(CanonOp(ops[0]), at, at)] + CanonScript(rest);
      assert plain[1..] == CanonScript(rest);
      assert CanonOps(ops)[1..] == CanonOps(ops[1..]);
      AnswersAtOnce(Apply(t, ops[0], at, at), Apply(canon, CanonOp(ops[0]), at, at), ops[1..], at);
    }
  }

  /** What is stored under one of two slots that share a file is read under the other. */
  lemma SharedFileMixesSlots<V>(a: Slot, b: Slot, v: V, at: int) returns (script: seq<Timed<V>>)
    requires a != b && Canon(a) == Canon(b)
    ensures Within(script, {a, b}) && Monotone(script, at)
    ensures Answers(map[], script) != Answers(map[], CanonScript(script))
  {
    var ops: seq<Op<V>> := [Op.Set(a, Some(v), None), Op.Get(b)];
    script := At(ops, at);
    AnswersAtOnce(map[], map[], ops, at);
    var plain := CanonOps(ops);
    assert ops[1..] == [ops[1]] && plain[1..] == [plain[1]];
    assert AnswersAt(map[], ops, at)[1] == Found(None);
    assert AnswersAt(map[], plain, at)[1] == Found(Some(v));
  }

  /** Clearing one of two namespaces that share a directory clears the other. */
  lemma SharedDirectoryMixesNamespaces<V>(a: Slot, b: Slot, v: V, at: int) returns (script: seq<Timed<V>>)
    requires a.ns != b.ns && SafeNs(a.ns) == SafeNs(b.ns)
    ensures Within(script, {a, b}) && Monotone(script, at)
    ensures Answers(map[], script) != Answers(map[], CanonScript(script))
  {
    var ops: seq<Op<V>> := [Op.Set(a, Some(v), None), Op.ClearNamespace(b.ns), Op.Get(a)];
    script := At(ops, at);
    AnswersAtOnce(map[], map[], ops, at);
    assert OpWithin(ops[1], {a, b}) by {
      assert b in {a, b} && b.ns == ops[1].ns;
    }
    var plain := CanonOps(ops);
    AnswersToThree(map[], ops, at);
    AnswersToThree(map[], plain, at);
    assert AnswersAt(map[], ops, at)[2] == Found(Some(v));
    assert AnswersAt(map[], plain, at)[2] == Found(None);
  }

  lemma AnswersToThree<V>(t: Table<V>, ops: seq<Op<V>>, at: int)
    requires |ops| == 3
    ensures var t1 := Apply(t, ops[0], at, at);
            var t2 := Apply(t1, ops[1], at, at);
            AnswersAt(t, ops, at) == [Reply(t, ops[0], at), Reply(t1, ops[1], at), Reply(t2, ops[2], at)]
  {
    var t1 := Apply(t, ops[0], at, at);
    var t2 := Apply(t1, ops[1], at, at);
    var rest := ops[1..];
    assert rest[1..] == [ops[2]];
    assert AnswersAt(t2, [ops[2]], at) == [Reply(t2, ops[2], at)];
    assert AnswersAt(t1, rest, at) == [Reply(t1, rest[0], at)] + AnswersAt(t2, rest[1..], at);
    assert AnswersAt(t, ops, at) == [Reply(t, ops[0], at)] + AnswersAt(t1, rest, at);
  }

  /** The file backend answers like the memory backend, whatever is asked of a set of slots,
      exactly when no two of them share a file and no two of their namespaces a directory. */
  lemma BackendsAgreeIff<V>(slots: set<Slot>, v: V, start: int)
    ensures DistinctNames(slots) <==>
            (forall script: seq<Timed<V>> :: Within(script, slots) && Monotone(script, start) ==>
               Answers(map[], script) == Answers(map[], CanonScript(script)))
  {
    if DistinctNames(slots) {
      forall script: seq<Timed<V>> | Within(script, slots) && Monotone(script, start)
        ensures Answers(map[], script) == Answers(map[], CanonScript(script))
      {
        SameRun(map[], map[], slots, script);
      }
    } else if exists a, b :: a in slots && b in slots && Canon(a) == Canon(b) && a != b {
      var a, b :| a in slots && b in slots && Canon(a) == Canon(b) && a != b;
      var script := SharedFileMixesSlots(a, b, v, start);
      WithinMore(script, {a, b}, slots);
    } else {
      var a, b :| a in slots && b in slots && SafeNs(a.ns) == SafeNs(b.ns) && a.ns != b.ns;
      var script := SharedDirectoryMixesNamespaces(a, b, v, start);
      WithinMore(script, {a, b}, slots);
    }
  }

  lemma WithinMore<V>(script: seq<Timed<V>>, few: set<Slot>, slots: set<Slot>)
    requires Within(script, few) && few <= slots
    ensures Within(script, slots)
  {
  }

  /** Both backends on one script, with any failures to unlink an expired or a cleared file. */
  method SameAnswers<V(==)>(ghost slots: set<Slot>, script: seq<Timed<V>>, stuck: seq<set<FilePath>>, start: int)
    returns (memory: seq<Answer<V>>, file: seq<Answer<V>>)
    requires Monotone(script, start) && |stuck| == |script|
    ensures memory == Answers(map[], script) && file == AnswersOfFiles(map[], CanonScript(script), stuck)
    ensures DistinctNames(slots) && Within(script, slots) && AllGo(stuck) ==> memory == file
  {
    var m := new MemorySharedState<V>(start);
    var f := new FileSharedState<V>(start);
    memory := m.Replay(script);
    file := f.Replay(script, stuck);
    if DistinctNames(slots) && Within(script, slots) && AllGo(stuck) {
      NothingStuck(map[], CanonScript(script), stuck);
      SameRun(map[], map[], slots, script);
    }
  }

  /** The input at which the backends differ: two conversation keys of one namespace. */
  lemma ThreadKeysMix(ns: string, v: string, at: int) returns (script: seq<Timed<string>>)
    ensures Within(script, {Slot(ns, "slack:t"), Slot(ns, "slack_t")}) && Monotone(script, at)
    ensures Answers(map[], script) != Answers(map[], CanonScript(script))
  {
    SanitisingIsNotInjective(ns);
    FilesAreCanonical(Slot(ns, "slack:t"), Slot(ns, "slack_t"));
    assert "slack:t"[5] != "slack_t"[5];
    script := SharedFileMixesSlots(Slot(ns, "slack:t"), Slot(ns, "slack_t"), v, at);
  }
}
