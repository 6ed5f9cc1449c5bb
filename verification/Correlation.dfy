/** The correlation store: five indexes over correlation records, with conflict detection.
    For a text argument, absent and empty are the same to the code; both are `""` here. */
module Correlation {
  import opened Options
  import opened Decimals
  import Redaction

  datatype Record = Record(
    correlationId: string, executionId: string, boardId: string, itemId: string, runId: string,
    repo: string, issue: Option<int>, pr: Option<int>, sha: string, ciStatus: Option<string>,
    metadata: map<string, string>, updatedAt: int)

  /** The arguments of `register`. */
  datatype Binding = Binding(
    executionId: string, correlationId: string, boardId: string, itemId: string, runId: string,
    repo: string, issue: Option<int>, pr: Option<int>, sha: string, ciStatus: Option<string>,
    metadata: map<string, string>)

  datatype Index = Index(
    byCorr: map<string, Record>, byExecution: map<string, string>, byItem: map<string, string>,
    byPr: map<string, string>, bySha: map<string, string>)

  const EMPTY := Index(map[], map[], map[], map[], map[])

  datatype Conflict = ItemTaken(executionId: string) | PrTaken(executionId: string) | CorrelationTaken(executionId: string)

  datatype Registration = Registered(record: Record) | Refused(conflict: Conflict)

  function PrKey(repo: string, pr: int): string { repo + "#" + Str(pr) }

  predicate HasPr(repo: string, pr: Option<int>) { repo != "" && pr.Some? }

  /** The record behind an index entry. */
  function Follow(ix: Index, index: map<string, string>, key: string): Option<Record> {
    if key in index && index[key] in ix.byCorr then Some(ix.byCorr[index[key]]) else None
  }

  /** The execution an index entry leads to. */
  function Reached(ix: Index, index: map<string, string>, key: string): Option<string> {
    match Follow(ix, index, key)
    case None => None
    case Some(r) => Some(r.executionId)
  }

  /* ---------- the specification of register ---------- */

  predicate Claimed(ix: Index, index: map<string, string>, key: string, cid: string, executionId: string) {
    && key in index && index[key] != "" && index[key] != cid
    && index[key] in ix.byCorr && ix.byCorr[index[key]].executionId != executionId
  }

  function ConflictOf(ix: Index, a: Binding, cid: string): Option<Conflict> {
    if a.itemId != "" && Claimed(ix, ix.byItem, a.itemId, cid, a.executionId) then
      Some(ItemTaken(ix.byCorr[ix.byItem[a.itemId]].executionId))
    else if HasPr(a.repo, a.pr) && Claimed(ix, ix.byPr, PrKey(a.repo, a.pr.value), cid, a.executionId) then
      Some(PrTaken(ix.byCorr[ix.byPr[PrKey(a.repo, a.pr.value)]].executionId))
    else if cid in ix.byCorr && ix.byCorr[cid].executionId != a.executionId then
      Some(CorrelationTaken(ix.byCorr[cid].executionId))
    else None
  }

  function Or(given: string, kept: string): string { if given != "" then given else kept }

  function OrKept<T>(given: Option<T>, kept: Option<T>): Option<T> { if given.Some? then given else kept }

  function Base(ix: Index, a: Binding, cid: string): Record {
    if cid in ix.byCorr then ix.byCorr[cid]
    else Record(cid, a.executionId, "", "", "", "", None, None, "", None, map[], 0)
  }

  /** The record with everything the call gave; what it did not give is kept. */
  function Merged(rec: Record, a: Binding, now: int): Record {
    rec.(boardId := Or(a.boardId, rec.boardId), itemId := Or(a.itemId, rec.itemId), runId := Or(a.runId, rec.runId),
         repo := Or(a.repo, rec.repo), issue := OrKept(a.issue, rec.issue), pr := OrKept(a.pr, rec.pr),
         sha := Or(a.sha, rec.sha), ciStatus := OrKept(a.ciStatus, rec.ciStatus),
         metadata := rec.metadata + a.metadata, updatedAt := now)
  }

  /** The metadata of a call is redacted before it is merged. */
  function Cleaned(p: Redaction.Patterns, a: Binding): Binding { a.(metadata := Redaction.RedactTexts(p, a.metadata)) }

  function Filed(ix: Index, rec: Record): Index {
    var cid := rec.correlationId;
    Index(ix.byCorr[cid := rec],
          ix.byExecution[rec.executionId := cid],
          if rec.itemId != "" then ix.byItem[rec.itemId := cid] else ix.byItem,
          if HasPr(rec.repo, rec.pr) then ix.byPr[PrKey(rec.repo, rec.pr.value) := cid] else ix.byPr,
          if rec.sha != "" then ix.bySha[rec.sha := cid] else ix.bySha)
  }

  function After(ix: Index, a: Binding, cid: string, now: int): Index {
    if ConflictOf(ix, a, cid).Some? then ix else Filed(ix, Merged(Base(ix, a, cid), a, now))
  }

  /* ---------- what a registration does, field by field ---------- */

  /** A text that was given replaces the one there was; one that was not leaves it. */
  predicate Overrides(given: string, before: string, after: string) {
    (given != "" ==> after == given) && (given == "" ==> after == before)
  }

  predicate OverridesSome<T(==)>(given: Option<T>, before: Option<T>, after: Option<T>) {
    (given.Some? ==> after == given) && (given.None? ==> after == before)
  }

  /** The key leads to the id, and every other key where it led. */
  ghost predicate Leads(before: map<string, string>, after: map<string, string>, key: string, cid: string) {
    && key in after && after[key] == cid
    && forall k :: k != key ==> (k in after <==> k in before) && (k in before ==> after[k] == before[k])
  }

  ghost predicate LeadsIf(condition: bool, before: map<string, string>, after: map<string, string>, key: string, cid: string) {
    if condition then Leads(before, after, key, cid) else after == before
  }

  /** New metadata is redacted, and overrides the old. */
  ghost predicate MetadataMerged(p: Redaction.Patterns, given: map<string, string>, before: map<string, string>, after: map<string, string>) {
    && after.Keys == before.Keys + given.Keys
    && forall k :: k in after ==>
         after[k] == if k !in given then before[k] else if p.secretKey(k) then "***" else p.scrub(given[k])
  }

  lemma RedactedMerges(p: Redaction.Patterns, given: map<string, string>)
    ensures MetadataMerged(p, given, map[], Redaction.RedactTexts(p, given))
  {
  }

  /** The record after a call, field by field. */
  ghost predicate Updated(p: Redaction.Patterns, was: Record, a: Binding, now: int, r: Record) {
    && r.correlationId == was.correlationId && r.executionId == was.executionId && r.updatedAt == now
    && Overrides(a.boardId, was.boardId, r.boardId) && Overrides(a.itemId, was.itemId, r.itemId)
    && Overrides(a.runId, was.runId, r.runId) && Overrides(a.repo, was.repo, r.repo) && Overrides(a.sha, was.sha, r.sha)
    && OverridesSome(a.issue, was.issue, r.issue) && OverridesSome(a.pr, was.pr, r.pr)
    && OverridesSome(a.ciStatus, was.ciStatus, r.ciStatus)
    && MetadataMerged(p, a.metadata, was.metadata, r.metadata)
  }

  /** The record is found under every key it carries, and nothing else has moved. */
  ghost predicate Findable(before: Index, after: Index, r: Record, cid: string) {
    && after.byCorr.Keys == before.byCorr.Keys + {cid} && after.byCorr[cid] == r
    && (forall c :: c in before.byCorr && c != cid ==> after.byCorr[c] == before.byCorr[c])
    && Leads(before.byExecution, after.byExecution, r.executionId, cid)
    && LeadsIf(r.itemId != "", before.byItem, after.byItem, r.itemId, cid)
    && LeadsIf(r.repo != "" && r.pr.Some?, before.byPr, after.byPr,
               r.repo + "#" + Str(if r.pr.Some? then r.pr.value else 0), cid)
    && LeadsIf(r.sha != "", before.bySha, after.bySha, r.sha, cid)
  }

  /** A registration that is not refused, in terms of the record there was and the one there is. */
  ghost predicate RegisteredAs(p: Redaction.Patterns, before: Index, after: Index, a: Binding, cid: string, now: int, r: Record) {
    && Findable(before, after, r, cid) && r.executionId == a.executionId
    && (cid in before.byCorr ==> Updated(p, before.byCorr[cid], a, now, r))
    && (cid !in before.byCorr ==> Updated(p, Record(cid, a.executionId, "", "", "", "", None, None, "", None, map[], 0), a, now, r))
  }

  lemma MergedIsUpdated(p: Redaction.Patterns, was: Record, a: Binding, now: int)
    ensures Updated(p, was, a, now, Merged(was, Cleaned(p, a), now))
  {
  }

  lemma FiledIsFindable(ix: Index, r: Record)
    ensures Findable(ix, Filed(ix, r), r, r.correlationId)
  {
  }

  /* ---------- what every index satisfies ---------- */

  /** A record is filed under its own id, and each of its keys leads to a record; its execution
      and its item lead back to its own execution. */
  predicate WellFiled(ix: Index, cid: string)
    requires cid in ix.byCorr
  {
    var rec := ix.byCorr[cid];
    && rec.correlationId == cid && cid != ""
    && Reached(ix, ix.byExecution, rec.executionId) == Some(rec.executionId)
    && (rec.itemId != "" ==> Reached(ix, ix.byItem, rec.itemId) == Some(rec.executionId))
    && (HasPr(rec.repo, rec.pr) ==> PrKey(rec.repo, rec.pr.value) in ix.byPr)
    && (rec.sha != "" ==> rec.sha in ix.bySha)
  }

  /** No entry dangles, and an execution leads to a record of that execution. */
  ghost predicate Wired(ix: Index) {
    && (forall cid {:trigger WellFiled(ix, cid)} :: cid in ix.byCorr ==> WellFiled(ix, cid))
    && (forall e :: e in ix.byExecution ==> Reached(ix, ix.byExecution, e) == Some(e))
    && ix.byItem.Values <= ix.byCorr.Keys && ix.byPr.Values <= ix.byCorr.Keys && ix.bySha.Values <= ix.byCorr.Keys
  }

  /** Every record that carries a pull request agrees with the index on its execution. */
  predicate PrAgrees(ix: Index, cid: string)
    requires cid in ix.byCorr
  {
    var rec := ix.byCorr[cid];
    HasPr(rec.repo, rec.pr) ==> Reached(ix, ix.byPr, PrKey(rec.repo, rec.pr.value)) == Some(rec.executionId)
  }

  ghost predicate PrsAgree(ix: Index) {
    forall cid {:trigger PrAgrees(ix, cid)} :: cid in ix.byCorr ==> PrAgrees(ix, cid)
  }

  lemma FiledFollows(ix: Index, rec: Record, index: map<string, string>, key: string)
    requires rec.correlationId in ix.byCorr ==> ix.byCorr[rec.correlationId].executionId == rec.executionId
    requires Reached(ix, index, key).Some?
    ensures Reached(Filed(ix, rec), index, key) == Reached(ix, index, key)
  {
  }

  /** The record a call would file: it carries its own id, and an item of its own execution only. */
  predicate Fileable(ix: Index, rec: Record) {
    && rec.correlationId != ""
    && (rec.correlationId in ix.byCorr ==> ix.byCorr[rec.correlationId].executionId == rec.executionId)
    && (rec.itemId in ix.byItem && rec.itemId != "" ==> Reached(ix, ix.byItem, rec.itemId) == Some(rec.executionId))
  }

  lemma MergedIsFileable(ix: Index, a: Binding, cid: string, now: int)
    requires Wired(ix) && cid != "" && ConflictOf(ix, a, cid).None?
    ensures Fileable(ix, Merged(Base(ix, a, cid), a, now))
    ensures Merged(Base(ix, a, cid), a, now).correlationId == cid
    ensures Merged(Base(ix, a, cid), a, now).executionId == a.executionId
  {
    assert cid in ix.byCorr ==> WellFiled(ix, cid);
    if a.itemId in ix.byItem {
      ItemsAreFollowed(ix);
      assert WellFiled(ix, ix.byItem[a.itemId]);
    }
  }

  lemma FiledKeepsRecord(ix: Index, rec: Record, c: string)
    requires Fileable(ix, rec) && (c in ix.byCorr ==> WellFiled(ix, c)) && c in Filed(ix, rec).byCorr
    ensures WellFiled(Filed(ix, rec), c)
  {
    var ix' := Filed(ix, rec);
    var r := ix'.byCorr[c];
    if c != rec.correlationId {
      FiledFollows(ix, rec, ix.byExecution, r.executionId);
      if r.itemId != "" {
        FiledFollows(ix, rec, ix.byItem, r.itemId);
      }
    }
  }

  lemma FiledKeepsExecution(ix: Index, rec: Record, e: string)
    requires Wired(ix) && Fileable(ix, rec) && e in Filed(ix, rec).byExecution
    ensures Reached(Filed(ix, rec), Filed(ix, rec).byExecution, e) == Some(e)
  {
  }

  lemma FiledKeepsItem(ix: Index, rec: Record, i: string)
    requires Wired(ix) && Fileable(ix, rec) && i in ix.byItem
    ensures Reached(Filed(ix, rec), Filed(ix, rec).byItem, i) == Reached(ix, ix.byItem, i)
  {
  }

  /** A conflict changes nothing; otherwise the indexes stay wired, and no correlation id, no
      execution and no item ever leads anywhere else than before. */
  lemma RegisterKeepsWired(ix: Index, a: Binding, cid: string, now: int)
    requires Wired(ix) && cid != ""
    ensures var ix' := After(ix, a, cid, now);
            && Wired(ix')
            && (ConflictOf(ix, a, cid).Some? ==> ix' == ix)
            && (forall c :: c in ix.byCorr ==> c in ix'.byCorr && ix'.byCorr[c].executionId == ix.byCorr[c].executionId)
            && (forall i :: i in ix.byItem ==> Reached(ix', ix'.byItem, i) == Reached(ix, ix.byItem, i))
  {
    if ConflictOf(ix, a, cid).None? {
      var rec := Merged(Base(ix, a, cid), a, now);
      MergedIsFileable(ix, a, cid, now);
      var ix' := Filed(ix, rec);
      forall c | c in ix'.byCorr
        ensures WellFiled(ix', c)
      {
        assert c in ix.byCorr ==> WellFiled(ix, c);
        FiledKeepsRecord(ix, rec, c);
      }
      forall e | e in ix'.byExecution
        ensures Reached(ix', ix'.byExecution, e) == Some(e)
      {
        FiledKeepsExecution(ix, rec, e);
      }
      forall i | i in ix.byItem
        ensures Reached(ix', ix'.byItem, i) == Reached(ix, ix.byItem, i)
      {
        FiledKeepsItem(ix, rec, i);
      }
    }
  }

  /* ---------- pull requests ---------- */

  lemma StrHasNoHash(n: int)
    ensures '#' !in Str(n)
  {
  }

  /** Of two readings of one key, the one that splits later finds the other's hash in its tail. */
  lemma LaterSplit(x: string, y: string, x': string, y': string)
    requires x + "#" + y == x' + "#" + y'
    ensures |x| < |x'| ==> '#' in y
  {
    var key := x + "#" + y;
    assert key[|x'|] == '#';
    assert |x| < |x'| ==> y[|x'| - |x| - 1] == key[|x'|];
  }

  /** Repository and number can be told apart in a key, whatever the repository is called. */
  lemma PrKeyIsInjective(repo: string, pr: int, repo': string, pr': int)
    requires PrKey(repo, pr) == PrKey(repo', pr')
    ensures repo == repo' && pr == pr'
  {
    var a, b, key := Str(pr), Str(pr'), PrKey(repo, pr);
    StrHasNoHash(pr);
    StrHasNoHash(pr');
    LaterSplit(repo, a, repo', b);
    LaterSplit(repo', b, repo, a);
    assert repo == key[..|repo|] && repo' == key[..|repo'|];
    assert a == key[|repo| + 1..] && b == key[|repo'| + 1..];
    StrIsInjective(pr, pr');
  }

  /** The call files a pull request it did not check: it passes only a part of the key, and the
      key it completes with the record's own part is another execution's. */
  predicate RebindsPr(ix: Index, a: Binding, cid: string, now: int) {
    var rec := Merged(Base(ix, a, cid), a, now);
    && !HasPr(a.repo, a.pr) && HasPr(rec.repo, rec.pr)
    && Claimed(ix, ix.byPr, PrKey(rec.repo, rec.pr.value), cid, a.executionId)
  }

  /** A pull request leads to the execution it led to before, for all of them, exactly when the
      call is refused or does not complete an unchecked key of another execution. */
  lemma PrsStayIff(ix: Index, a: Binding, cid: string, now: int)
    requires Wired(ix) && cid != ""
    ensures var ix' := After(ix, a, cid, now);
            (forall k :: k in ix.byPr ==> Reached(ix', ix'.byPr, k) == Reached(ix, ix.byPr, k))
            <==> ConflictOf(ix, a, cid).Some? || !RebindsPr(ix, a, cid, now)
  {
    if ConflictOf(ix, a, cid).None? {
      var rec := Merged(Base(ix, a, cid), a, now);
      var ix' := Filed(ix, rec);
      assert cid in ix.byCorr ==> WellFiled(ix, cid);
      forall k | k in ix.byPr
        ensures ix.byPr[k] in ix.byCorr && ix.byPr[k] != ""
      {
        assert ix.byPr[k] in ix.byPr.Values;
        assert WellFiled(ix, ix.byPr[k]);
      }
      if RebindsPr(ix, a, cid, now) {
        assert Reached(ix', ix'.byPr, PrKey(rec.repo, rec.pr.value)) != Reached(ix, ix.byPr, PrKey(rec.repo, rec.pr.value));
      } else {
        forall k | k in ix.byPr
          ensures Reached(ix', ix'.byPr, k) == Reached(ix, ix.byPr, k)
        {
          FiledFollows(ix, rec, ix.byPr, k);
        }
      }
    }
  }

  /** A call about a pull request alone, or about a part of its key. */
  function PrCall(executionId: string, repo: string, pr: Option<int>): Binding {
    Binding(executionId, "", "", "", "", repo, None, pr, "", None, map[])
  }

  /** Such calls exist: after a call with the whole key and one with the number alone, a call with
      the repository alone moves the pull request from the first execution to the second. */
  lemma PartialKeyMovesPr()
    ensures var ix := After(After(EMPTY, PrCall("e1", "org/hub", Some(7)), "c1", 0), PrCall("e2", "", Some(7)), "c2", 0);
            var a, key := PrCall("e2", "org/hub", None), PrKey("org/hub", 7);
            && Wired(ix) && PrsAgree(ix) && ConflictOf(ix, a, "c2").None? && Reached(ix, ix.byPr, key) == Some("e1")
            && Reached(After(ix, a, "c2", 0), After(ix, a, "c2", 0).byPr, key) == Some("e2")
  {
    var first := After(EMPTY, PrCall("e1", "org/hub", Some(7)), "c1", 0);
    var r1 := Record("c1", "e1", "", "", "", "org/hub", None, Some(7), "", None, map[], 0);
    assert first == Index(map["c1" := r1], map["e1" := "c1"], map[], map[PrKey("org/hub", 7) := "c1"], map[]);
    RegisterKeepsWired(EMPTY, PrCall("e1", "org/hub", Some(7)), "c1", 0);
    RegisterKeepsWired(first, PrCall("e2", "", Some(7)), "c2", 0);
  }

  /** A caller that passes the whole key, or completes none, or leaves the record's key as it is. */
  predicate CarefulPr(ix: Index, a: Binding, cid: string, now: int) {
    var before, after := Base(ix, a, cid), Merged(Base(ix, a, cid), a, now);
    HasPr(a.repo, a.pr) || !HasPr(after.repo, after.pr) || (after.repo == before.repo && after.pr == before.pr)
  }

  lemma CarefulCallsKeepPrs(ix: Index, a: Binding, cid: string, now: int)
    requires Wired(ix) && PrsAgree(ix) && cid != "" && CarefulPr(ix, a, cid, now)
    ensures var ix' := After(ix, a, cid, now);
            && PrsAgree(ix')
            && forall k :: k in ix.byPr ==> Reached(ix', ix'.byPr, k) == Reached(ix, ix.byPr, k)
  {
    var ix' := After(ix, a, cid, now);
    assert cid in ix.byCorr ==> PrAgrees(ix, cid);
    PrsStayIff(ix, a, cid, now);
    forall c | c in ix'.byCorr
      ensures PrAgrees(ix', c)
    {
      assert c in ix.byCorr ==> PrAgrees(ix, c) && WellFiled(ix, c);
    }
  }

  /** Filing one pull request never touches the entry of another. */
  lemma OtherPrsUntouched(ix: Index, rec: Record, repo: string, pr: int)
    requires !HasPr(rec.repo, rec.pr) || rec.repo != repo || rec.pr.value != pr
    ensures var key := PrKey(repo, pr);
            key in Filed(ix, rec).byPr <==> key in ix.byPr
    ensures var key := PrKey(repo, pr);
            key in ix.byPr ==> Filed(ix, rec).byPr[key] == ix.byPr[key]
  {
    if HasPr(rec.repo, rec.pr) && PrKey(rec.repo, rec.pr.value) == PrKey(repo, pr) {
      PrKeyIsInjective(rec.repo, rec.pr.value, repo, pr);
      assert false;
    }
  }

  /* ---------- runs ---------- */

  datatype Call = Call(binding: Binding, cid: string, now: int)

  function RunAll(ix: Index, calls: seq<Call>): Index
    decreases |calls|
  {
    if calls == [] then ix else RunAll(After(ix, calls[0].binding, calls[0].cid, calls[0].now), calls[1..])
  }

  predicate AllCareful(ix: Index, calls: seq<Call>)
    decreases |calls|
  {
    calls == [] ||
    (CarefulPr(ix, calls[0].binding, calls[0].cid, calls[0].now) &&
     AllCareful(After(ix, calls[0].binding, calls[0].cid, calls[0].now), calls[1..]))
  }

  /** Over any run of calls, refused or not, a correlation id and an item keep their execution
      for good; so does a pull request when every caller is careful with its key. */
  lemma {:induction false} BindingsArePermanent(ix: Index, calls: seq<Call>)
    requires Wired(ix) && forall call :: call in calls ==> call.cid != ""
    ensures Wired(RunAll(ix, calls))
    ensures forall c :: c in ix.byCorr ==>
              c in RunAll(ix, calls).byCorr && RunAll(ix, calls).byCorr[c].executionId == ix.byCorr[c].executionId
    ensures forall i :: i in ix.byItem ==> Reached(RunAll(ix, calls), RunAll(ix, calls).byItem, i) == Reached(ix, ix.byItem, i)
    ensures PrsAgree(ix) && AllCareful(ix, calls) ==>
              && PrsAgree(RunAll(ix, calls))
              && forall k :: k in ix.byPr ==> Reached(RunAll(ix, calls), RunAll(ix, calls).byPr, k) == Reached(ix, ix.byPr, k)
    decreases |calls|
  {
    if calls != [] {
      var a, cid, now := calls[0].binding, calls[0].cid, calls[0].now;
      var next := After(ix, a, cid, now);
      RegisterKeepsWired(ix, a, cid, now);
      ItemsAreFollowed(ix);
      BindingsArePermanent(next, calls[1..]);
      assert forall i :: i in ix.byItem ==> Reached(ix, ix.byItem, i).Some?;
      if PrsAgree(ix) && AllCareful(ix, calls) {
        CarefulCallsKeepPrs(ix, a, cid, now);
      }
    }
  }

  /** Two records that carry the same item always share their execution. */
  lemma ItemsHaveOneExecution(ix: Index, c: string, d: string)
    requires Wired(ix) && c in ix.byCorr && d in ix.byCorr
    requires ix.byCorr[c].itemId == ix.byCorr[d].itemId != ""
    ensures ix.byCorr[c].executionId == ix.byCorr[d].executionId
  {
    assert WellFiled(ix, c) && WellFiled(ix, d);
  }

  lemma ItemsAreFollowed(ix: Index)
    requires Wired(ix)
    ensures forall i :: i in ix.byItem ==> Reached(ix, ix.byItem, i).Some?
    ensures forall k :: k in ix.byPr ==> Reached(ix, ix.byPr, k).Some?
  {
  }

  /* ---------- resolving a GitHub event ---------- */

  /** The keys an event brings; `pr` counts only together with a repository. */
  datatype Keys = Keys(repo: string, pr: Option<int>, sha: string, hint: string)

  datatype Resolution = Matched(record: Record) | NotFound | Ambiguous

  /** The records the keys of the event lead to, in the order the code asks. */
  function ByHint(ix: Index, k: Keys): Option<Record> {
    if k.hint != "" && k.hint in ix.byCorr then Some(ix.byCorr[k.hint]) else None
  }

  function ByPr(ix: Index, k: Keys): Option<Record> {
    if HasPr(k.repo, k.pr) then Follow(ix, ix.byPr, PrKey(k.repo, k.pr.value)) else None
  }

  function BySha(ix: Index, k: Keys): Option<Record> {
    if k.sha != "" then Follow(ix, ix.bySha, k.sha) else None
  }

  /** Some key of the event leads to this record. */
  predicate Candidate(ix: Index, k: Keys, rec: Record) {
    ByHint(ix, k) == Some(rec) || ByPr(ix, k) == Some(rec) || BySha(ix, k) == Some(rec)
  }

  /** The answer is a match exactly when some key leads somewhere and all that do lead to the same
      execution; it is ambiguous exactly when two of them lead to different executions. */
  ghost predicate ResolvedAs(ix: Index, k: Keys, r: Resolution) {
    match r
    case Matched(rec) =>
      Candidate(ix, k, rec) && forall other :: Candidate(ix, k, other) ==> other.executionId == rec.executionId
    case NotFound => forall rec :: !Candidate(ix, k, rec)
    case Ambiguous => exists a, b :: Candidate(ix, k, a) && Candidate(ix, k, b) && a.executionId != b.executionId
  }

  /** The list holds exactly the records the keys lead to. */
  ghost predicate Listed(ix: Index, k: Keys, candidates: seq<Record>) {
    forall rec {:trigger Candidate(ix, k, rec)} :: Candidate(ix, k, rec) <==> rec in candidates
  }

  /** The first key that leads anywhere decides which record is returned. */
  function FirstFound(ix: Index, k: Keys): Option<Record> {
    if ByHint(ix, k).Some? then ByHint(ix, k) else if ByPr(ix, k).Some? then ByPr(ix, k) else BySha(ix, k)
  }

  class CorrelationStore {
    var byCorr: map<string, Record>
    var byExecution: map<string, string>
    var byItem: map<string, string>
    var byPr: map<string, string>
    var bySha: map<string, string>
    const patterns: Redaction.Patterns

    function State(): Index
      reads this
    {
      Index(byCorr, byExecution, byItem, byPr, bySha)
    }

    ghost predicate Valid()
      reads this
    {
      Wired(State())
    }

    constructor (patterns: Redaction.Patterns)
      ensures Valid() && State() == EMPTY && this.patterns == patterns
    {
      this.patterns := patterns;
      byCorr, byExecution, byItem, byPr, bySha := map[], map[], map[], map[], map[];
    }

    /** The check made for an item and for a pull request: is the key another execution's? */
    method CheckKey(index: map<string, string>, key: string, cid: string, executionId: string) returns (taken: Option<string>)
      ensures taken == if Claimed(State(), index, key, cid, executionId) then Some(byCorr[index[key]].executionId) else None
    {
      taken := None;
      var existing := if key in index then index[key] else "";
      if existing != "" && existing != cid && existing in byCorr {
        if byCorr[existing].executionId != executionId {
          taken := Some(byCorr[existing].executionId);
        }
      }
    }

    /** The three checks, in the order in which the code makes them. */
    method Check(a: Binding, cid: string) returns (conflict: Option<Conflict>)
      ensures conflict == ConflictOf(State(), a, cid)
    {
      if a.itemId != "" {
        var taken := CheckKey(byItem, a.itemId, cid, a.executionId);
        if taken.Some? {
          return Some(ItemTaken(taken.value));
        }
      }
      if a.pr.Some? && a.repo != "" {
        var taken := CheckKey(byPr, a.repo + "#" + Str(a.pr.value), cid, a.executionId);
        if taken.Some? {
          return Some(PrTaken(taken.value));
        }
      }
      if cid in byCorr && byCorr[cid].executionId != a.executionId {
        return Some(CorrelationTaken(byCorr[cid].executionId));
      }
      return None;
    }

    /** `minted` is the id generated when the caller names none; metadata is redacted. */
    method Register(a: Binding, minted: string, now: int) returns (out: Registration)
      requires Valid() && minted != ""
      modifies this
      ensures Valid()
      ensures State() == After(old(State()), Cleaned(patterns, a), Or(a.correlationId, minted), now)
      ensures a.metadata == map[] ==> State() == After(old(State()), a, Or(a.correlationId, minted), now)
      ensures match ConflictOf(old(State()), a, Or(a.correlationId, minted))
              case Some(conflict) => out == Refused(conflict) && State() == old(State())
              case None =>
                && out.Registered? && Or(a.correlationId, minted) in byCorr
                && out.record == byCorr[Or(a.correlationId, minted)] && out.record.executionId == a.executionId
                && RegisteredAs(patterns, old(State()), State(), a, if a.correlationId != "" then a.correlationId else minted, now, out.record)
    {
      var cid := if a.correlationId != "" then a.correlationId else minted;
      ghost var before, clean := State(), Cleaned(patterns, a);
      RegisterKeepsWired(before, clean, cid, now);
      var conflict := Check(a, cid);
      if conflict.Some? {
        return Refused(conflict.value);
      }
      MergedIsFileable(before, clean, cid, now);
      var rec := Enter(a, cid, now);
      return Registered(rec);
    }

    /** The record is looked up or begun, merged, and filed. */
    method Enter(a: Binding, cid: string, now: int) returns (rec: Record)
      requires Valid() && cid != "" && ConflictOf(State(), a, cid).None?
      modifies this
      ensures rec == Merged(Base(old(State()), a, cid), Cleaned(patterns, a), now) && State() == Filed(old(State()), rec)
      ensures RegisteredAs(patterns, old(State()), State(), a, cid, now, rec)
    {
      assert cid in byCorr ==> WellFiled(State(), cid);
      var was := if cid in byCorr then byCorr[cid] else Record(cid, a.executionId, "", "", "", "", None, None, "", None, map[], 0);
      rec := Merge(was, a, now);
      MergedIsUpdated(patterns, was, a, now);
      FiledIsFindable(State(), rec);
      File(rec);
    }

    /** Field by field, what the call gives. */
    method Merge(rec: Record, a: Binding, now: int) returns (merged: Record)
      ensures merged == Merged(rec, Cleaned(patterns, a), now)
    {
      merged := MergeTexts(rec, a);
      if a.issue.Some? {
        merged := merged.(issue := a.issue);
      }
      if a.pr.Some? {
        merged := merged.(pr := a.pr);
      }
      if a.ciStatus.Some? {
        merged := merged.(ciStatus := a.ciStatus);
      }
      if a.metadata != map[] {
        merged := merged.(metadata := merged.metadata + Redaction.RedactTexts(patterns, a.metadata));
      }
      assert a.metadata == map[] ==> rec.metadata + Redaction.RedactTexts(patterns, a.metadata) == rec.metadata;
      merged := merged.(updatedAt := now);
    }

    method MergeTexts(rec: Record, a: Binding) returns (merged: Record)
      ensures merged == rec.(boardId := Or(a.boardId, rec.boardId), itemId := Or(a.itemId, rec.itemId),
                             runId := Or(a.runId, rec.runId), repo := Or(a.repo, rec.repo), sha := Or(a.sha, rec.sha))
    {
      var boardId, itemId, runId, repo, sha := rec.boardId, rec.itemId, rec.runId, rec.repo, rec.sha;
      if a.boardId != "" {
        boardId := a.boardId;
      }
      if a.itemId != "" {
        itemId := a.itemId;
      }
      if a.runId != "" {
        runId := a.runId;
      }
      if a.repo != "" {
        repo := a.repo;
      }
      if a.sha != "" {
        sha := a.sha;
      }
      merged := rec.(boardId := boardId, itemId := itemId, runId := runId, repo := repo, sha := sha);
    }

    /** Writes the record under every key it now carries. */
    method File(rec: Record)
      modifies this
      ensures State() == Filed(old(State()), rec)
    {
      var cid := rec.correlationId;
      byCorr := byCorr[cid := rec];
      byExecution := byExecution[rec.executionId := cid];
      if rec.itemId != "" {
        byItem := byItem[rec.itemId := cid];
      }
      if rec.pr.Some? && rec.repo != "" {
        byPr := byPr[rec.repo + "#" + Str(rec.pr.value) := cid];
      }
      if rec.sha != "" {
        bySha := bySha[rec.sha := cid];
      }
    }

    method Clear()
      modifies this
      ensures Valid() && State() == EMPTY
    {
      byCorr, byExecution, byItem, byPr, bySha := map[], map[], map[], map[], map[];
    }

    method Candidates(k: Keys) returns (candidates: seq<Record>)
      requires Valid()
      ensures Listed(State(), k, candidates)
      ensures FirstFound(State(), k) == if candidates == [] then None else Some(candidates[0])
    {
      var ix := State();
      KeysLeadToFiled(ix, k);
      var hinted := AskByHint(k);
      var byNumber := AskByPr(k);
      var byCommit := AskBySha(k);
      candidates := Add(ix, [], hinted);
      candidates := Add(ix, candidates, byNumber);
      candidates := Add(ix, candidates, byCommit);
    }

    method AskByHint(k: Keys) returns (rec: Option<Record>)
      ensures rec == ByHint(State(), k)
    {
      rec := None;
      if k.hint != "" && k.hint in byCorr {
        rec := Some(byCorr[k.hint]);
      }
    }

    method AskByPr(k: Keys) returns (rec: Option<Record>)
      ensures rec == ByPr(State(), k)
    {
      rec := None;
      if k.pr.Some? && k.repo != "" {
        var key := k.repo + "#" + Str(k.pr.value);
        if key in byPr && byPr[key] in byCorr {
          rec := Some(byCorr[byPr[key]]);
        }
      }
    }

    method AskBySha(k: Keys) returns (rec: Option<Record>)
      ensures rec == BySha(State(), k)
    {
      rec := None;
      if k.sha != "" && k.sha in bySha && bySha[k.sha] in byCorr {
        rec := Some(byCorr[bySha[k.sha]]);
      }
    }

    method Resolve(k: Keys) returns (r: Resolution)
      requires Valid()
      ensures ResolvedAs(State(), k, r)
      ensures r.Matched? ==> Some(r.record) == FirstFound(State(), k)
      ensures r.Matched? ==> r.record.correlationId in byCorr && byCorr[r.record.correlationId] == r.record
    {
      KeysLeadToFiled(State(), k);
      var candidates := Candidates(k);
      if |candidates| == 0 {
        return NotFound;
      }
      assert Candidate(State(), k, candidates[0]);
      if |candidates| > 1 {
        if exists i :: 0 <= i < |candidates| && candidates[i].executionId != candidates[0].executionId {
          var i :| 0 <= i < |candidates| && candidates[i].executionId != candidates[0].executionId;
          assert Candidate(State(), k, candidates[i]);
          return Ambiguous;
        }
      }
      return Matched(candidates[0]);
    }
  }

  lemma KeysLeadToFiled(ix: Index, k: Keys)
    requires Wired(ix)
    ensures forall rec {:trigger Candidate(ix, k, rec)} :: Candidate(ix, k, rec) ==> OnFile(ix, rec)
    ensures ByHint(ix, k).Some? ==> OnFile(ix, ByHint(ix, k).value)
    ensures ByPr(ix, k).Some? ==> OnFile(ix, ByPr(ix, k).value)
    ensures BySha(ix, k).Some? ==> OnFile(ix, BySha(ix, k).value)
  {
    assert ByHint(ix, k).Some? ==> Candidate(ix, k, ByHint(ix, k).value);
    assert ByPr(ix, k).Some? ==> Candidate(ix, k, ByPr(ix, k).value);
    assert BySha(ix, k).Some? ==> Candidate(ix, k, BySha(ix, k).value);
    forall rec | Candidate(ix, k, rec)
      ensures OnFile(ix, rec)
    {
      FollowsAreFiled(ix, k, rec);
    }
  }

  lemma FollowsAreFiled(ix: Index, k: Keys, rec: Record)
    requires Wired(ix) && Candidate(ix, k, rec)
    ensures OnFile(ix, rec)
  {
    var cid :| cid in ix.byCorr && ix.byCorr[cid] == rec;
    assert WellFiled(ix, cid);
  }

  predicate OnFile(ix: Index, rec: Record) {
    rec.correlationId in ix.byCorr && ix.byCorr[rec.correlationId] == rec
  }

  /** A record is listed once, whichever keys lead to it. */
  method Add(ghost ix: Index, candidates: seq<Record>, rec: Option<Record>) returns (more: seq<Record>)
    requires (forall c :: c in candidates ==> OnFile(ix, c)) && (rec.Some? ==> OnFile(ix, rec.value))
    ensures forall c :: c in more <==> c in candidates || rec == Some(c)
    ensures forall c :: c in more ==> OnFile(ix, c)
    ensures if candidates != [] then more != [] && more[0] == candidates[0]
            else if rec.Some? then more == [rec.value] else more == []
  {
    more := candidates;
    if rec.Some? {
      if forall i :: 0 <= i < |candidates| ==> candidates[i].correlationId != rec.value.correlationId {
        more := candidates + [rec.value];
      } else {
        ghost var i :| 0 <= i < |candidates| && candidates[i].correlationId == rec.value.correlationId;
        assert OnFile(ix, candidates[i]) && candidates[i] == rec.value;
      }
    }
  }
}
