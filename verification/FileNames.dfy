/** File names of the file backend: sanitised namespace directories and key files, with the
    `.tmp` and `.lock` companions that Python's `Path.with_suffix` derives from them.
    `str.isalnum` is modelled for ASCII. */
module FileNames {
  import opened TimedMap

  datatype FilePath = FilePath(dir: string, file: string)

  const NS_LIMIT := 64
  const KEY_LIMIT := 200

  predicate IsAlnum(c: char) {
    '0' <= c <= '9' || 'a' <= c <= 'z' || 'A' <= c <= 'Z'
  }

  predicate SafeInNs(c: char) { IsAlnum(c) || c == '-' || c == '_' }

  predicate SafeInKey(c: char) { SafeInNs(c) || c == '.' }

  function Truncate(s: string, limit: nat): string {
    if |s| <= limit then s else s[..limit]
  }

  function SafeNs(ns: string): string {
    Truncate(seq(|ns|, i requires 0 <= i < |ns| => if SafeInNs(ns[i]) then ns[i] else '_'), NS_LIMIT)
  }

  function SafeKey(key: string): string {
    Truncate(seq(|key|, i requires 0 <= i < |key| => if SafeInKey(key[i]) then key[i] else '_'), KEY_LIMIT)
  }

  /** ASCII digits, capitals, small letters, the hyphen and the underscore. */
  predicate IsPlain(c: char) {
    var n := c as int;
    48 <= n <= 57 || 65 <= n <= 90 || 97 <= n <= 122 || n == 45 || n == 95
  }

  /** Sanitising keeps letters, digits, `-` and `_`, and in keys dots, and puts `_` for the rest; 64
      characters of a namespace and 200 of a key count. */
  lemma NamesAreSanitised(name: string, i: nat)
    ensures |SafeNs(name)| == (if |name| < 64 then |name| else 64) && |SafeKey(name)| == if |name| < 200 then |name| else 200
    ensures i < |SafeNs(name)| ==> SafeNs(name)[i] == if IsPlain(name[i]) then name[i] else '_'
    ensures i < |SafeKey(name)| ==> SafeKey(name)[i] == if IsPlain(name[i]) || name[i] == '.' then name[i] else '_'
    ensures DataFile(Slot(name, name)) == FilePath(SafeNs(name), SafeKey(name) + ".json")
  {
  }

  /** Index of the last dot, or -1 (Python's `rfind`). */
  function LastDot(name: string): (i: int)
    ensures -1 <= i < |name|
  {
    if name == "" then -1
    else if name[|name| - 1] == '.' then |name| - 1
    else LastDot(name[..|name| - 1])
  }

  /** `Path.with_suffix`: a name whose only dot comes first has no suffix to replace. */
  function WithSuffix(name: string, suffix: string): string {
    var i := LastDot(name);
    if 0 < i < |name| - 1 then name[..i] + suffix else name + suffix
  }

  function DataFile(slot: Slot): FilePath {
    FilePath(SafeNs(slot.ns), SafeKey(slot.key) + ".json")
  }

  function TmpFile(slot: Slot): FilePath {
    var p := DataFile(slot);
    FilePath(p.dir, WithSuffix(p.file, ".tmp"))
  }

  function LockFile(slot: Slot): FilePath {
    var p := DataFile(slot);
    FilePath(p.dir, WithSuffix(p.file, ".lock"))
  }

  lemma LastDotSkips(name: string, c: char)
    ensures LastDot(name + [c]) == if c == '.' then |name| else LastDot(name)
  {
  }

  lemma SpellJson(stem: string)
    ensures stem + ".json" == stem + ['.'] + ['j'] + ['s'] + ['o'] + ['n']
  {
  }

  lemma LastDotOfJson(stem: string)
    ensures LastDot(stem + ".json") == |stem|
  {
    SpellJson(stem);
    LastDotSkips(stem, '.');
    LastDotSkips(stem + ['.'], 'j');
    LastDotSkips(stem + ['.'] + ['j'], 's');
    LastDotSkips(stem + ['.'] + ['j'] + ['s'], 'o');
    LastDotSkips(stem + ['.'] + ['j'] + ['s'] + ['o'], 'n');
  }

  lemma CompanionName(stem: string, suffix: string)
    ensures WithSuffix(stem + ".json", suffix) == if stem == "" then ".json" + suffix else stem + suffix
  {
    LastDotOfJson(stem);
    assert (stem + ".json")[..|stem|] == stem;
  }

  /** No operation on one slot can touch the data file of any slot through its temporary or
      its lock file. */
  lemma CompanionsNeverHoldData(a: Slot, b: Slot)
    ensures DataFile(a) != TmpFile(b) && DataFile(a) != LockFile(b)
  {
    CompanionName(SafeKey(b.key), ".tmp");
    CompanionName(SafeKey(b.key), ".lock");
    var data, tmp, lock := DataFile(a).file, TmpFile(b).file, LockFile(b).file;
    assert data[|data| - 1] == 'n' && tmp[|tmp| - 1] == 'p' && lock[|lock| - 1] == 'k';
  }

  lemma SuffixCancels(a: string, b: string, suffix: string)
    ensures a + suffix == b + suffix <==> a == b
  {
    if a + suffix == b + suffix {
      assert |a| == |b|;
      assert a == (a + suffix)[..|a|] == (b + suffix)[..|b|] == b;
    }
  }

  /** The names "" and ".json" share one temporary file, but then they share the lock as well:
      whenever two slots share a temporary file, one lock serialises their writes. */
  lemma SharedTmpIsGuardedByOneLock(a: Slot, b: Slot)
    ensures TmpFile(a) == TmpFile(b) <==> LockFile(a) == LockFile(b)
  {
    CompanionName(SafeKey(a.key), ".tmp");
    CompanionName(SafeKey(b.key), ".tmp");
    CompanionName(SafeKey(a.key), ".lock");
    CompanionName(SafeKey(b.key), ".lock");
    var x := if SafeKey(a.key) == "" then ".json" else SafeKey(a.key);
    var y := if SafeKey(b.key) == "" then ".json" else SafeKey(b.key);
    SuffixCancels(x, y, ".tmp");
    SuffixCancels(x, y, ".lock");
  }

  predicate PlainKey(key: string) {
    |key| <= KEY_LIMIT && forall c :: c in key ==> SafeInKey(c)
  }

  predicate PlainNs(ns: string) {
    |ns| <= NS_LIMIT && forall c :: c in ns ==> SafeInNs(c)
  }

  /** Sanitising leaves exactly the plain names alone. */
  lemma SanitisingIsIdentity(ns: string, key: string)
    ensures SafeNs(ns) == ns <==> PlainNs(ns)
    ensures SafeKey(key) == key <==> PlainKey(key)
  {
  }

  /** Slots with plain names never share a file. */
  lemma PlainNamesAreDistinct(a: Slot, b: Slot)
    requires PlainNs(a.ns) && PlainKey(a.key) && PlainNs(b.ns) && PlainKey(b.key)
    ensures DataFile(a) == DataFile(b) <==> a == b
  {
    SanitisingIsIdentity(a.ns, a.key);
    SanitisingIsIdentity(b.ns, b.key);
    SuffixCancels(a.key, b.key, ".json");
  }

  /** Other names can: a thread key "slack:t" and a key "slack_t" live in the same file. */
  lemma SanitisingIsNotInjective(ns: string)
    ensures DataFile(Slot(ns, "slack:t")) == DataFile(Slot(ns, "slack_t"))
  {
  }

  /** The slot whose plain spelling the file names of a slot really stand for. */
  function Canon(slot: Slot): Slot { Slot(SafeNs(slot.ns), SafeKey(slot.key)) }

  lemma SafeNamesArePlain(ns: string, key: string)
    ensures PlainNs(SafeNs(ns)) && PlainKey(SafeKey(key))
    ensures SafeNs(SafeNs(ns)) == SafeNs(ns) && SafeKey(SafeKey(key)) == SafeKey(key)
  {
  }

  /** Two slots share their files, data, temporary and lock, exactly when they sanitise alike. */
  lemma FilesAreCanonical(a: Slot, b: Slot)
    ensures DataFile(a) == DataFile(b) <==> Canon(a) == Canon(b)
    ensures DataFile(Canon(a)) == DataFile(a) && Canon(Canon(a)) == Canon(a)
  {
    SuffixCancels(SafeKey(a.key), SafeKey(b.key), ".json");
    SafeNamesArePlain(a.ns, a.key);
  }
}
