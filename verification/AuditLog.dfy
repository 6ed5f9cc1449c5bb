/** The audit log: a bounded list in memory, and a cached append-or-rewrite file that stands in
    for it across restarts. */
module AuditLog {
  import opened Options
  import opened Redaction

  /** Python's `str` of a value, its `float` of a text, and the redaction patterns. */
  datatype Style = Style(patterns: Patterns, text: Json -> string, parse: string -> Option<Time>)

  ghost predicate Sensible(st: Style) {
    && Settles(st.patterns) && (forall s :: st.text(Str(s)) == s)
    && !st.patterns.secretKey("target") && !st.patterns.secretKey("result") && !st.patterns.secretKey("execution_id")
    && !st.patterns.secretKey("external_ids") && !st.patterns.secretKey("outcome")
  }

  /* ---------- normalisation ---------- */

  predicate Truthy(v: Json) {
    match v
    case Null => false
    case Bool(b) => b
    case Num(n) => n != 0.0
    case Str(s) => s != ""
    case Arr(items) => items != []
    case Obj(fields) => fields != map[]
  }

  function Field(r: Row, key: string): Json { if key in r then r[key] else Null }

  function Inner(r: Row): Row {
    if "external_ids" in r && r["external_ids"].Obj? then r["external_ids"].fields else map[]
  }

  function TextOr(st: Style, v: Json, otherwise: string): string {
    if Truthy(v) then st.text(v) else otherwise
  }

  function TargetOf(st: Style, r: Row): string {
    TextOr(st, Field(r, "execution_id"), TextOr(st, Field(Inner(r), "target"), ""))
  }

  function ResultOf(st: Style, r: Row): string { TextOr(st, Field(r, "outcome"), "") }

  function RedactRow(p: Patterns, r: Row): Row { Redact(p, Obj(r), 0).fields }

  /** Looking up a target fails when there is no execution id and the external ids are no mapping. */
  predicate Shaped(r: Row) {
    "target" in r || Truthy(Field(r, "execution_id")) || "external_ids" !in r || r["external_ids"].Obj?
  }

  /** The record as it is stored; `None` when the code raises. */
  function Normalize(st: Style, record: Row): Option<Row> {
    var r := RedactRow(st.patterns, record);
    if !Shaped(r) then None
    else
      var r1 := if "target" in r then r else r["target" := Str(TargetOf(st, r))];
      Some(if "result" in r1 then r1 else r1["result" := Str(ResultOf(st, r1))])
  }

  /** `_normalize`, step by step; a lookup in something that is no mapping raises. */
  method NormalizeRow(st: Style, record: Row) returns (normal: Option<Row>)
    ensures normal == Normalize(st, record)
  {
    var row := RedactRow(st.patterns, record);
    if "target" !in row {
      var target := "";
      if "execution_id" in row && Truthy(row["execution_id"]) {
        target := st.text(row["execution_id"]);
      } else if "external_ids" in row {
        if !row["external_ids"].Obj? {
          return None;
        }
        var ids := row["external_ids"].fields;
        if "target" in ids && Truthy(ids["target"]) {
          target := st.text(ids["target"]);
        }
      }
      row := row["target" := Str(target)];
    }
    if "result" !in row {
      var result := "";
      if "outcome" in row && Truthy(row["outcome"]) {
        result := st.text(row["outcome"]);
      }
      row := row["result" := Str(result)];
    }
    return Some(row);
  }

  /** The texts that normalisation adds survive scrubbing. */
  predicate TextsSurvive(st: Style, record: Row) {
    var r := RedactRow(st.patterns, record);
    && ("target" in r || st.patterns.scrub(TargetOf(st, r)) == TargetOf(st, r))
    && ("result" in r || st.patterns.scrub(ResultOf(st, r)) == ResultOf(st, r))
  }

  lemma RedactRowTwice(p: Patterns, r: Row)
    requires Settles(p)
    ensures RedactRow(p, RedactRow(p, r)) == RedactRow(p, r)
  {
    RedactTwice(p, Obj(r), 0);
  }

  lemma RedactField(p: Patterns, r: Row, k: string)
    requires k in r
    ensures k in RedactRow(p, r)
    ensures RedactRow(p, r)[k] == if p.secretKey(k) then Str(MASK) else Redact(p, r[k], 1)
    ensures r[k].Str? && !p.secretKey(k) ==> RedactRow(p, r)[k] == Str(p.scrub(r[k].s))
    ensures r[k].Null? && !p.secretKey(k) ==> RedactRow(p, r)[k] == Null
  {
  }

  /** Redacting a row again: what was redacted stays, what was added is scrubbed. */
  lemma RedactAgain(p: Patterns, r: Row, row: Row, k: string)
    requires RedactRow(p, r) == r && r.Keys <= row.Keys && k in row && (k in r ==> row[k] == r[k])
    ensures k in RedactRow(p, row)
    ensures k in r ==> RedactRow(p, row)[k] == r[k]
    ensures k !in r && row[k].Str? && !p.secretKey(k) ==> RedactRow(p, row)[k] == Str(p.scrub(row[k].s))
  {
    RedactField(p, row, k);
    if k in r {
      RedactField(p, r, k);
    }
  }

  /** A stored record normalises to itself exactly when the added texts survive scrubbing. */
  lemma NormalizeTwiceIff(st: Style, record: Row)
    requires Sensible(st) && Normalize(st, record).Some?
    ensures var row := Normalize(st, record).value;
            Normalize(st, row) == Some(row) <==> TextsSurvive(st, record)
  {
    var p := st.patterns;
    var r, row := RedactRow(p, record), Normalize(st, record).value;
    RedactRowTwice(p, record);
    assert ResultOf(st, r["target" := Str(TargetOf(st, r))]) == ResultOf(st, r);
    var again := RedactRow(p, row);
    assert again.Keys == row.Keys;
    assert Normalize(st, row) == Some(again);
    RedactAgain(p, r, row, "target");
    RedactAgain(p, r, row, "result");
    forall k | k in row && k != "target" && k != "result"
      ensures again[k] == row[k]
    {
      RedactAgain(p, r, row, k);
    }
    assert again == row <==> again["target"] == row["target"] && again["result"] == row["result"];
  }

  /** Records whose ids and outcome are texts, as the policy engine writes them, are such. */
  lemma PolicyRecordsSettle(st: Style, record: Row)
    requires Sensible(st) && st.patterns.scrub("") == ""
    requires forall k :: k in {"execution_id", "outcome"} && k in record ==> record[k].Str? || record[k].Null?
    requires "external_ids" in record ==>
               (record["external_ids"].Obj? &&
                ("target" in record["external_ids"].fields ==> record["external_ids"].fields["target"].Str?))
    ensures Normalize(st, record).Some? && TextsSurvive(st, record)
  {
    var p := st.patterns;
    var r := RedactRow(p, record);
    forall k | k in record
      ensures k in r
    {
      RedactField(p, record, k);
    }
    if "execution_id" in record {
      RedactField(p, record, "execution_id");
    }
    if "outcome" in record {
      RedactField(p, record, "outcome");
    }
    if "external_ids" in record {
      RedactField(p, record, "external_ids");
      InnerIsRedacted(p, record["external_ids"].fields);
    }
  }

  lemma InnerIsRedacted(p: Patterns, ids: Row)
    requires !p.secretKey("target") && ("target" in ids ==> ids["target"].Str?)
    ensures Redact(p, Obj(ids), 1).Obj?
    ensures "target" in Redact(p, Obj(ids), 1).fields <==> "target" in ids
    ensures "target" in ids ==> Redact(p, Obj(ids), 1).fields["target"] == Str(p.scrub(ids["target"].s))
  {
  }

  /* ---------- queries ---------- */

  /** A time as Python's `float` reads it; `Never` stands for what is not a number and for minus
      infinity. */
  datatype Time = Never | At(time: real) | Always

  predicate Reaches(t: Time, since: real) { t.Always? || (t.At? && t.time >= since) }

  datatype Criterion = By(key: string, text: string) | Since(time: real)

  /** The `timestamp` of a row as a number, a missing one being 0; `None` when the code raises. */
  function TimeOf(st: Style, r: Row): Option<Time> {
    match Field(r, "timestamp")
    case Null => Some(At(0.0))
    case Bool(b) => Some(At(if b then 1.0 else 0.0))
    case Num(n) => Some(At(n))
    case Str(s) => if s == "" then Some(At(0.0)) else st.parse(s)
    case Arr(items) => if items == [] then Some(At(0.0)) else None
    case Obj(fields) => if fields == map[] then Some(At(0.0)) else None
  }

  predicate Passes(st: Style, r: Row, c: Criterion) {
    match c
    case By(key, text) => Field(r, key) == Str(text)
    case Since(time) => TimeOf(st, r).Some? && Reaches(TimeOf(st, r).value, time)
  }

  predicate PassesAll(st: Style, r: Row, cs: seq<Criterion>) { forall c :: c in cs ==> Passes(st, r, c) }

  /** The rows that meet every criterion, in order. */
  function Matching(st: Style, rows: seq<Row>, cs: seq<Criterion>): seq<Row> {
    if rows == [] then []
    else Matching(st, rows[..|rows| - 1], cs) + if PassesAll(st, rows[|rows| - 1], cs) then [rows[|rows| - 1]] else []
  }

  /** A row that gets as far as the i-th criterion has no time to compare there. */
  predicate Stumbles(st: Style, r: Row, cs: seq<Criterion>, i: nat)
    requires i < |cs|
  {
    cs[i].Since? && TimeOf(st, r).None? && PassesAll(st, r, cs[..i])
  }

  /** The query raises. */
  predicate Raises(st: Style, rows: seq<Row>, cs: seq<Criterion>) {
    exists r, i :: r in rows && 0 <= i < |cs| && Stumbles(st, r, cs, i)
  }

  function LastOf<T>(s: seq<T>, n: nat): seq<T> {
    if |s| <= n then s else s[|s| - n..]
  }

  /** What a query over the given rows returns; `None` when it raises. */
  function Listing(st: Style, rows: seq<Row>, cs: seq<Criterion>, limit: int): Option<seq<Row>> {
    if Raises(st, rows, cs) then None else Some(LastOf(Matching(st, rows, cs), if limit < 1 then 1 else limit))
  }

  /** The answer to a query over everything logged so far. */
  function Answer(st: Style, log: seq<Row>, retention: nat, cs: seq<Criterion>, limit: int): Option<seq<Row>> {
    Listing(st, LastOf(log, retention), cs, limit)
  }

  lemma {:induction false} MatchingNothing(st: Style, rows: seq<Row>)
    ensures Matching(st, rows, []) == rows
  {
    if rows != [] {
      MatchingNothing(st, rows[..|rows| - 1]);
    }
  }

  lemma MatchingAppends(st: Style, rows: seq<Row>, r: Row, cs: seq<Criterion>)
    ensures Matching(st, rows + [r], cs) == Matching(st, rows, cs) + if PassesAll(st, r, cs) then [r] else []
  {
    assert (rows + [r])[..|rows|] == rows;
  }

  lemma {:induction false} MatchingAre(st: Style, rows: seq<Row>, cs: seq<Criterion>, r: Row)
    ensures r in Matching(st, rows, cs) <==> r in rows && PassesAll(st, r, cs)
  {
    if rows != [] {
      assert rows == rows[..|rows| - 1] + [rows[|rows| - 1]];
      MatchingAre(st, rows[..|rows| - 1], cs, r);
    }
  }

  /** Criteria can be applied one after the other. */
  lemma {:induction false} MatchingInTurn(st: Style, rows: seq<Row>, cs: seq<Criterion>, c: Criterion)
    ensures Matching(st, Matching(st, rows, cs), [c]) == Matching(st, rows, cs + [c])
  {
    if rows != [] {
      var init, r := rows[..|rows| - 1], rows[|rows| - 1];
      MatchingInTurn(st, init, cs, c);
      assert PassesAll(st, r, cs + [c]) <==> PassesAll(st, r, cs) && PassesAll(st, r, [c]);
      assert Matching(st, rows, cs) == Matching(st, init, cs) + if PassesAll(st, r, cs) then [r] else [];
      if PassesAll(st, r, cs) {
        MatchingAppends(st, Matching(st, init, cs), r, [c]);
      } else {
        assert Matching(st, rows, cs) == Matching(st, init, cs);
      }
    }
  }

  /** One of the rows has no time to compare with the criterion. */
  predicate Stuck(st: Style, rows: seq<Row>, c: Criterion) {
    c.Since? && exists k :: 0 <= k < |rows| && TimeOf(st, rows[k]).None?
  }

  /** A query raises at a criterion when one of the rows still in play has no time. */
  lemma RaisesInTurn(st: Style, rows: seq<Row>, cs: seq<Criterion>, i: nat)
    requires i < |cs|
    ensures Raises(st, rows, cs[..i + 1]) <==>
              Raises(st, rows, cs[..i]) || Stuck(st, Matching(st, rows, cs[..i]), cs[i])
  {
    var upTo, before := cs[..i + 1], cs[..i];
    assert forall k :: 0 <= k < i ==> upTo[..k] == before[..k];
    assert upTo[..i] == before;
    forall r
      ensures r in Matching(st, rows, before) <==> r in rows && PassesAll(st, r, before)
    {
      MatchingAre(st, rows, before, r);
    }
    var left := Matching(st, rows, before);
    if Stuck(st, left, cs[i]) {
      var k :| 0 <= k < |left| && TimeOf(st, left[k]).None?;
      var r := left[k];
      assert r in left;
      assert Stumbles(st, r, upTo, i);
    }
    if Raises(st, rows, before) {
      var r, k :| r in rows && 0 <= k < i && Stumbles(st, r, before, k);
      assert Stumbles(st, r, upTo, k);
    }
    if Raises(st, rows, upTo) {
      var r, k :| r in rows && 0 <= k < i + 1 && Stumbles(st, r, upTo, k);
      assert k < i ==> Stumbles(st, r, before, k);
      assert k == i ==> r in Matching(st, rows, before);
    }
  }

  method Filter(st: Style, rows: seq<Row>, c: Criterion) returns (kept: seq<Row>)
    ensures kept == Matching(st, rows, [c])
  {
    kept := [];
    for i := 0 to |rows|
      invariant kept == Matching(st, rows[..i], [c])
    {
      var r := rows[i];
      var keep := false;
      match c {
        case By(key, text) => keep := key in r && r[key] == Str(text);
        case Since(since) =>
          var t := TimeOf(st, r);
          keep := t.Some? && (t.value.Always? || (t.value.At? && t.value.time >= since));
      }
      assert rows[..i + 1] == rows[..i] + [r];
      MatchingAppends(st, rows[..i], r, [c]);
      assert PassesAll(st, r, [c]) <==> Passes(st, r, c);
      if keep {
        kept := kept + [r];
      }
    }
    assert rows[..|rows|] == rows;
  }

  /** One comprehension per criterion, then the limit. */
  method Select(st: Style, items: seq<Row>, cs: seq<Criterion>, limit: int) returns (answer: Option<seq<Row>>)
    ensures answer == Listing(st, items, cs, limit)
  {
    var left := items;
    MatchingNothing(st, items);
    assert cs[..|cs|] == cs;
    for i := 0 to |cs|
      invariant left == Matching(st, items, cs[..i]) && !Raises(st, items, cs[..i])
    {
      RaisesInTurn(st, items, cs, i);
      if Stuck(st, left, cs[i]) {
        RaisesLater(st, items, cs, i + 1);
        return None;
      }
      MatchingInTurn(st, items, cs[..i], cs[i]);
      assert cs[..i + 1] == cs[..i] + [cs[i]];
      left := Filter(st, left, cs[i]);
    }
    var most := if limit < 1 then 1 else limit;
    answer := Some(if |left| <= most then left else left[|left| - most..]);
  }

  lemma RaisesLater(st: Style, rows: seq<Row>, cs: seq<Criterion>, i: nat)
    requires i <= |cs| && Raises(st, rows, cs[..i])
    ensures Raises(st, rows, cs)
  {
    var r, k :| r in rows && 0 <= k < i && Stumbles(st, r, cs[..i], k);
    assert cs[..i][..k] == cs[..k];
    assert Stumbles(st, r, cs, k);
  }

  lemma LastOfAppended<T>(s: seq<T>, x: T, n: nat)
    requires n > 0
    ensures LastOf(s + [x], n) == LastOf(LastOf(s, n) + [x], n)
  {
  }

  /* ---------- the store in memory ---------- */

  class MemoryAuditStore {
    const style: Style
    const retention: nat
    var items: seq<Row>
    /** Everything ever stored. */
    ghost var log: seq<Row>

    ghost predicate Valid()
      reads this
    {
      retention > 0 && items == LastOf(log, retention)
    }

    constructor (style: Style, retention: int)
      ensures Valid() && log == [] && this.style == style
      ensures this.retention == if retention < 1 then 1 else retention
    {
      this.style, this.retention := style, if retention < 1 then 1 else retention;
      items, log := [], [];
    }

    method Append(record: Row) returns (raised: bool)
      requires Valid()
      modifies this
      ensures Valid() && raised == Normalize(style, record).None?
      ensures log == if raised then old(log) else old(log) + [Normalize(style, record).value]
    {
      var row := NormalizeRow(style, record);
      if row.None? {
        return true;
      }
      LastOfAppended(log, row.value, retention);
      items := items + [row.value];
      if |items| > retention {
        items := items[|items| - retention..];
      }
      log := log + [row.value];
      return false;
    }

    method List(cs: seq<Criterion>, limit: int) returns (answer: Option<seq<Row>>)
      requires Valid()
      ensures answer == Answer(style, log, retention, cs, limit)
    {
      answer := Select(style, items, cs, limit);
    }

    method Clear()
      requires Valid()
      modifies this
      ensures Valid() && log == []
    {
      items, log := [], [];
    }
  }

  /* ---------- the store in a file ---------- */

  datatype Line = Line(row: Row) | Junk

  /** What follows the last line break: nothing, or the remains of an interrupted write. */
  datatype Tail = NoTail | Torn(line: Line)

  /** What a failing write of a line leaves behind: nothing, a part of it, or all but its end. */
  datatype Remains = NoRemains | Part | Whole

  /** How the files behave during one operation: after how many lines reading fails, if it does,
      and whether writing fails. */
  datatype Weather = Weather(readAfter: Option<nat>, writeFails: bool, remains: Remains)

  predicate Fair(w: Weather) { w.readAfter.None? && !w.writeFails }

  function TailAfter(tail: Tail, row: Row, remains: Remains): Tail {
    match remains
    case NoRemains => tail
    case Part => Torn(Junk)
    case Whole => if tail.NoTail? then Torn(Line(row)) else Torn(Junk)
  }

  /** The lines a reader gets before it fails. */
  function Readable(lines: seq<Line>, tail: Tail, readAfter: Option<nat>): seq<Line> {
    var all := if tail.Torn? then lines + [tail.line] else lines;
    if readAfter.Some? && readAfter.value < |all| then all[..readAfter.value] else all
  }

  function Lines(rows: seq<Row>): (lines: seq<Line>)
    ensures |lines| == |rows| && forall i :: 0 <= i < |rows| ==> lines[i] == Line(rows[i])
  {
    seq(|rows|, i requires 0 <= i < |rows| => Line(rows[i]))
  }

  /** The rows that parse, in order, with a torn tail read as one more line. */
  function Parsed(lines: seq<Line>): seq<Row> {
    if lines == [] then []
    else Parsed(lines[..|lines| - 1]) + if lines[|lines| - 1].Line? then [lines[|lines| - 1].row] else []
  }

  lemma {:induction false} ParsedLines(rows: seq<Row>)
    ensures Parsed(Lines(rows)) == rows
  {
    if rows != [] {
      var init := rows[..|rows| - 1];
      ParsedLines(init);
      assert Lines(rows)[..|rows| - 1] == Lines(init);
    }
  }

  ghost predicate IsSuffix<T>(s: seq<T>, of: seq<T>) {
    |s| <= |of| && s == of[|of| - |s|..]
  }

  lemma SuffixGrows<T>(s: seq<T>, of: seq<T>, x: T)
    requires IsSuffix(s, of)
    ensures IsSuffix(s + [x], of + [x])
  {
  }

  lemma SuffixOfSuffix<T>(s: seq<T>, of: seq<T>, n: nat)
    requires IsSuffix(s, of)
    ensures IsSuffix(LastOf(s, n), of)
  {
  }

  /** A row that loading leaves as it is. */
  predicate Settled(st: Style, row: Row) { Normalize(st, row) == Some(row) }

  ghost predicate SettledRows(st: Style, rows: seq<Row>) {
    forall r {:trigger Settled(st, r)} :: r in rows ==> Settled(st, r)
  }

  ghost predicate AllSettled(st: Style, lines: seq<Line>) {
    forall i :: 0 <= i < |lines| && lines[i].Line? ==> Settled(st, lines[i].row)
  }

  /** One more row keeps the cached list, whole or cut, the end of what the process saw; cut, it is
      the retained rows again if it was before. */
  lemma GrownCache(st: Style, cached: seq<Row>, process: seq<Row>, log: seq<Row>, row: Row, retention: nat)
    requires IsSuffix(cached, process) && SettledRows(st, cached) && SettledRows(st, [row]) && retention > 0
    ensures var items, kept := cached + [row], LastOf(cached + [row], retention);
            && IsSuffix(items, process + [row]) && IsSuffix(kept, process + [row])
            && SettledRows(st, items) && SettledRows(st, kept) && AllSettled(st, Lines(kept))
            && (cached == LastOf(log, retention) ==> kept == LastOf(log + [row], retention))
  {
    SuffixGrows(cached, process, row);
    SuffixOfSuffix(cached + [row], process + [row], retention);
    LastOfAppended(log, row, retention);
    RowsStaySettled(st, cached, row, retention);
  }

  lemma RowsStaySettled(st: Style, cached: seq<Row>, row: Row, retention: nat)
    requires SettledRows(st, cached) && SettledRows(st, [row])
    ensures var items, kept := cached + [row], LastOf(cached + [row], retention);
            SettledRows(st, items) && SettledRows(st, kept) && AllSettled(st, Lines(kept))
  {
  }

  /** Of a file in order, with a tail in order, the loaded rows are; and when nothing failed, they are
      the retained ones. */
  lemma LoadedRows(st: Style, lines: seq<Line>, tail: Tail, readAfter: Option<nat>, log: seq<Row>, retention: nat)
    requires AllSettled(st, lines) && (tail.Torn? ==> AllSettled(st, [tail.line]))
    ensures AllSettled(st, Readable(lines, tail, readAfter))
    ensures var items := LastOf(Parsed(Readable(lines, tail, readAfter)), retention);
            && SettledRows(st, items) && |items| <= retention
            && (tail.NoTail? && lines == Lines(LastOf(log, retention)) && readAfter.None? ==> items == LastOf(log, retention))
  {
    var all := Readable(lines, tail, readAfter);
    forall i | 0 <= i < |all| && all[i].Line?
      ensures Settled(st, all[i].row)
    {
      assert i < |lines| ==> all[i] == lines[i];
      assert i >= |lines| ==> tail.Torn? && all[i] == [tail.line][0];
    }
    ParsedAreSettled(st, all);
    ParsedLines(LastOf(log, retention));
  }

  lemma {:induction false} ParsedAreSettled(st: Style, lines: seq<Line>)
    requires AllSettled(st, lines)
    ensures SettledRows(st, Parsed(lines))
  {
    if lines != [] {
      ParsedAreSettled(st, lines[..|lines| - 1]);
    }
  }

  /* ---------- the store on disk as a value ---------- */

  /** The fields of a file store, with all that was ever stored, what this process has loaded and
      stored, whether a file operation ever failed, and how many rewrites have failed in a row. */
  datatype Life = Life(cache: Option<seq<Row>>, lines: seq<Line>, tail: Tail, failures: nat,
                       log: seq<Row>, process: seq<Row>, faulty: bool, overdue: nat)

  /** The rows a process has at hand: cached, or read now. */
  function AtHand(l: Life, readAfter: Option<nat>, retention: nat): seq<Row> {
    if l.cache.Some? then l.cache.value else LastOf(Parsed(Readable(l.lines, l.tail, readAfter)), retention)
  }

  function Opened(l: Life, readAfter: Option<nat>, retention: nat): Life {
    if l.cache.Some? then l
    else
      var rows := AtHand(l, readAfter, retention);
      l.(cache := Some(rows), process := rows, faulty := l.faulty || readAfter.Some?)
  }

  /** A row is added to the cached list. A full list is cut and rewritten, or, when that fails, left
      longer; otherwise the row is written behind the others, or its remains are. */
  function Stored(l: Life, row: Row, w: Weather, retention: nat): Life
    requires l.cache.Some?
  {
    var grown := l.cache.value + [row];
    var noted := l.(log := l.log + [row], process := l.process + [row], faulty := l.faulty || w.writeFails,
                    failures := if w.writeFails then l.failures + 1 else 0);
    if |grown| > retention then
      if w.writeFails then noted.(cache := Some(grown), overdue := l.overdue + 1)
      else noted.(cache := Some(LastOf(grown, retention)), overdue := 0, lines := Lines(LastOf(grown, retention)), tail := NoTail)
    else if w.writeFails then noted.(cache := Some(grown), tail := TailAfter(l.tail, row, w.remains))
    else noted.(cache := Some(grown), lines := l.lines + [if l.tail.Torn? then Junk else Line(row)], tail := NoTail)
  }

  function AppendedLife(st: Style, l: Life, record: Row, w: Weather, retention: nat): Life {
    var row := Normalize(st, record);
    if row.None? then l else Stored(Opened(l, w.readAfter, retention), row.value, w, retention)
  }

  function ClearedLife(l: Life, fails: bool): Life {
    var empty := l.(cache := Some([]), process := [], log := [], overdue := 0);
    if fails then empty.(faulty := true) else empty.(lines := [], tail := NoTail)
  }

  function Reborn(l: Life): Life { l.(cache := None, process := [], overdue := 0, failures := 0) }

  class FileAuditStore {
    const style: Style
    const retention: nat
    var lines: seq<Line>
    var tail: Tail
    var cache: Option<seq<Row>>
    var appendFailures: nat
    /** Everything ever stored, and what this process has loaded and stored. */
    ghost var log: seq<Row>
    ghost var process: seq<Row>
    /** Whether an operation on the file ever failed, and how many rewrites have failed in a row. */
    ghost var faulty: bool
    ghost var overdue: nat

    ghost function State(): Life
      reads this
    {
      Life(cache, lines, tail, appendFailures, log, process, faulty, overdue)
    }

    /** The cache is the end of what this process saw; it outgrows the bound by exactly the
        rewrites that failed in a row. */
    ghost predicate CacheOk()
      reads this
    {
      cache.Some? ==>
        IsSuffix(cache.value, process) && SettledRows(style, cache.value) &&
        (if overdue == 0 then |cache.value| <= retention else |cache.value| == retention + overdue)
    }

    /** Without failures the file holds the retained rows and nothing else. */
    ghost predicate Faultless()
      reads this
    {
      && tail.NoTail? && lines == Lines(LastOf(log, retention)) && overdue == 0
      && (cache.Some? ==> cache.value == LastOf(log, retention))
    }

    ghost predicate Valid()
      reads this
    {
      && retention > 0 && AllSettled(style, lines) && (tail.Torn? ==> AllSettled(style, [tail.line]))
      && (cache.None? ==> overdue == 0 && process == []) && CacheOk() && (!faulty ==> Faultless())
    }

    constructor (style: Style, retention: int)
      ensures Valid() && log == [] && !faulty && this.style == style
      ensures this.retention == if retention < 1 then 1 else retention
    {
      this.style, this.retention := style, if retention < 1 then 1 else retention;
      lines, tail, cache, appendFailures := [], NoTail, None, 0;
      log, process, faulty, overdue := [], [], false, 0;
    }

    /** A new process over the same file. */
    method Restart()
      requires Valid()
      modifies this
      ensures Valid() && State() == Reborn(old(State()))
    {
      cache, process, overdue, appendFailures := None, [], 0, 0;
    }

    /** Reads the file line by line unless it was read before; a read error ends the reading. */
    method Load(readAfter: Option<nat>) returns (items: seq<Row>)
      requires Valid()
      modifies this
      ensures Valid() && cache == Some(items) && log == old(log) && lines == old(lines) && tail == old(tail)
      ensures items == if old(cache).Some? then old(cache).value
                       else LastOf(Parsed(Readable(lines, tail, readAfter)), retention)
      ensures faulty == (old(faulty) || (old(cache).None? && readAfter.Some?))
      ensures process == (if old(cache).Some? then old(process) else items) && overdue == old(overdue)
      ensures appendFailures == old(appendFailures)
    {
      if cache.Some? {
        return cache.value;
      }
      LoadedRows(style, lines, tail, readAfter, log, retention);
      items := ReadLines(style, Readable(lines, tail, readAfter));
      faulty := faulty || readAfter.Some?;
      items := Cut(items);
      cache, process := Some(items), items;
    }

    method Cut(items: seq<Row>) returns (kept: seq<Row>)
      ensures kept == LastOf(items, retention)
    {
      kept := items;
      if |items| > retention {
        kept := items[|items| - retention..];
      }
    }

    /** Adds a row to the cached list first. A full list is then cut and the file rewritten, and
        if that fails the cut is forgotten and the error raised; otherwise the row is added to
        the file, and if that fails the row stays in the cache only. */
    method Append(record: Row, w: Weather) returns (raised: bool)
      requires Valid() && Sensible(style)
      requires Normalize(style, record).Some? ==> TextsSurvive(style, record)
      modifies this
      ensures Valid() && State() == AppendedLife(style, old(State()), record, w, retention)
      ensures raised <==> Normalize(style, record).None? || (w.writeFails && |AtHand(old(State()), w.readAfter, retention)| >= retention)
    {
      var row := NormalizeRow(style, record);
      if row.None? {
        return true;
      }
      NormalizeTwiceIff(style, record);
      var items := Load(w.readAfter);
      raised := StoreRow(row.value, w);
    }

    /** To the list that was loaded, and then to the file. */
    method StoreRow(row: Row, w: Weather) returns (raised: bool)
      requires Valid() && cache.Some? && SettledRows(style, [row])
      modifies this
      ensures Valid() && State() == Stored(old(State()), row, w, retention)
      ensures raised <==> w.writeFails && |old(cache).value| >= retention
    {
      if |cache.value| + 1 > retention {
        raised := AppendByRewriting(row, w.writeFails);
      } else {
        AppendLine(row, w.writeFails, w.remains);
        raised := false;
      }
    }

    /** The list is full: cut it and rewrite the file. If that fails, the cut is forgotten, the
        longer list stays cached, and the error is raised. */
    method AppendByRewriting(row: Row, fails: bool) returns (raised: bool)
      requires Valid() && cache.Some? && |cache.value| + 1 > retention && SettledRows(style, [row])
      modifies this
      ensures Valid() && log == old(log) + [row] && faulty == (old(faulty) || fails) && raised == fails
      ensures cache == Some(if fails then old(cache).value + [row] else LastOf(old(cache).value + [row], retention))
      ensures if fails then lines == old(lines) && tail == old(tail) else lines == Lines(cache.value) && tail == NoTail
      ensures process == old(process) + [row] && overdue == if fails then old(overdue) + 1 else 0
      ensures appendFailures == if fails then old(appendFailures) + 1 else 0
    {
      var items := cache.value + [row];
      GrownCache(style, cache.value, process, log, row, retention);
      log := log + [row];
      process := process + [row];
      cache := Some(items);
      var kept := items[|items| - retention..];
      if fails {
        appendFailures := appendFailures + 1;
        faulty, overdue := true, overdue + 1;
        return true;
      }
      lines, tail := Lines(kept), NoTail;
      appendFailures, overdue := 0, 0;
      cache := Some(kept);
      return false;
    }

    /** There is room: add a line to the file. If that fails, which is not raised, the row stays
        in the cache, and the file may end in the remains of the line. */
    method AppendLine(row: Row, fails: bool, remains: Remains)
      requires Valid() && cache.Some? && |cache.value| + 1 <= retention && SettledRows(style, [row])
      modifies this
      ensures Valid() && log == old(log) + [row] && faulty == (old(faulty) || fails)
      ensures cache == Some(old(cache).value + [row]) && process == old(process) + [row] && overdue == old(overdue)
      ensures if fails then lines == old(lines) && tail == TailAfter(old(tail), row, remains)
              else lines == old(lines) + [if old(tail).Torn? then Junk else Line(row)] && tail == NoTail
      ensures appendFailures == if fails then old(appendFailures) + 1 else 0
    {
      GrownCache(style, cache.value, process, log, row, retention);
      log := log + [row];
      process := process + [row];
      cache := Some(cache.value + [row]);
      if fails {
        appendFailures := appendFailures + 1;
        faulty := true;
        tail := TailAfter(tail, row, remains);
        return;
      }
      lines := lines + [if tail.Torn? then Junk else Line(row)];
      tail := NoTail;
      appendFailures := 0;
    }

    method List(cs: seq<Criterion>, limit: int, w: Weather) returns (answer: Option<seq<Row>>)
      requires Valid()
      modifies this
      ensures Valid() && State() == Opened(old(State()), w.readAfter, retention)
      ensures answer == Listing(style, AtHand(old(State()), w.readAfter, retention), cs, limit)
      ensures !faulty ==> answer == Answer(style, log, retention, cs, limit)
    {
      var items := Load(w.readAfter);
      answer := Select(style, items, cs, limit);
    }

    /** An unlinking that fails is ignored. */
    method Clear(fails: bool)
      requires Valid()
      modifies this
      ensures Valid() && State() == ClearedLife(old(State()), fails)
    {
      cache, process, log, overdue := Some([]), [], [], 0;
      if fails {
        faulty := true;
      } else {
        lines, tail := [], NoTail;
      }
    }
  }

  /** Line by line, skipping what does not parse. */
  method ReadLines(style: Style, all: seq<Line>) returns (items: seq<Row>)
    requires AllSettled(style, all)
    ensures items == Parsed(all) && SettledRows(style, items)
  {
    items := [];
    for i := 0 to |all|
      invariant items == Parsed(all[..i]) && SettledRows(style, items)
    {
      assert all[i].Line? ==> Settled(style, all[i].row);
      var row: Option<Row> := None;
      if all[i].Line? {
        row := NormalizeRow(style, all[i].row);
      }
      if row.Some? {
        items := items + [row.value];
      }
      assert all[..i + 1][..i] == all[..i];
    }
    assert all[..|all|] == all;
  }

  /* ---------- both stores together ---------- */

  datatype Op = Append(record: Row) | List(cs: seq<Criterion>, limit: int) | Clear | Restart

  /** An operation, and how the file behaves during it. */
  datatype Step = Step(op: Op, weather: Weather)

  type Answered = seq<Option<seq<Row>>>

  /** The log after an operation, by the records alone. */
  function LogAfter(st: Style, log: seq<Row>, op: Op): seq<Row> {
    match op
    case Append(record) =>
      var row := Normalize(st, record);
      if row.Some? then log + [row.value] else log
    case Clear => []
    case _ => log
  }

  function Reply(st: Style, log: seq<Row>, retention: nat, op: Op): Answered {
    if op.List? then [Answer(st, log, retention, op.cs, op.limit)] else []
  }

  /** The answers to a script, by the records alone. */
  function Answers(st: Style, log: seq<Row>, retention: nat, script: seq<Step>): Answered
    decreases |script|
  {
    if script == [] then []
    else Reply(st, log, retention, script[0].op) + Answers(st, LogAfter(st, log, script[0].op), retention, script[1..])
  }

  predicate Survives(st: Style, op: Op) {
    op.Append? && Normalize(st, op.record).Some? ==> TextsSurvive(st, op.record)
  }

  lemma AnswersNext(st: Style, all: Answered, past: Answered, log: seq<Row>, retention: nat, script: seq<Step>, i: nat)
    requires i < |script| && all == past + Answers(st, log, retention, script[i..])
    ensures all == past + Reply(st, log, retention, script[i].op)
                   + Answers(st, LogAfter(st, log, script[i].op), retention, script[i + 1..])
  {
  }

  function LifeAfter(st: Style, retention: nat, l: Life, step: Step): Life {
    match step.op
    case Append(record) => AppendedLife(st, l, record, step.weather, retention)
    case List(_, _) => Opened(l, step.weather.readAfter, retention)
    case Clear => ClearedLife(l, step.weather.writeFails)
    case Restart => Reborn(l)
  }

  function RunLife(st: Style, retention: nat, l: Life, script: seq<Step>): Life {
    if script == [] then l
    else LifeAfter(st, retention, RunLife(st, retention, l, script[..|script| - 1]), script[|script| - 1])
  }

  predicate InOneLife(script: seq<Step>) {
    forall i :: 0 <= i < |script| ==> script[i].op.Append? || script[i].op.List?
  }

  /** The rows a script stores. */
  function RowsOf(st: Style, script: seq<Step>): seq<Row> {
    if script == [] then []
    else RowsOf(st, script[..|script| - 1]) + RowOf(st, script[|script| - 1].op)
  }

  function RowOf(st: Style, op: Op): seq<Row> {
    if op.Append? && Normalize(st, op.record).Some? then [Normalize(st, op.record).value] else []
  }

  /** The operation needs the rows. */
  predicate Touches(st: Style, op: Op) { op.List? || (op.Append? && Normalize(st, op.record).Some?) }

  /** The rows a process began with: those it had at hand, or found when it first needed them. */
  function BegunWith(st: Style, retention: nat, l: Life, script: seq<Step>): seq<Row> {
    if l.cache.Some? then l.process
    else if script == [] then []
    else
      var init, last := script[..|script| - 1], script[|script| - 1];
      if RunLife(st, retention, l, init).cache.None? && Touches(st, last.op) then AtHand(l, last.weather.readAfter, retention)
      else BegunWith(st, retention, l, init)
  }

  /** How many appends in a row have failed to write, at the end of the script. */
  function Streak(st: Style, script: seq<Step>, before: nat): nat {
    if script == [] then before
    else Failing(st, script[|script| - 1], Streak(st, script[..|script| - 1], before))
  }

  function Failing(st: Style, step: Step, before: nat): nat {
    if RowOf(st, step.op) == [] then before else if step.weather.writeFails then before + 1 else 0
  }

  /** The cache is the end of what the process saw, and outgrows the bound by the failed rewrites. */
  ghost predicate Bounded(l: Life, retention: nat) {
    if l.cache.None? then l.process == [] && l.overdue == 0
    else
      && IsSuffix(l.cache.value, l.process)
      && if l.overdue == 0 then |l.cache.value| <= retention else |l.cache.value| == retention + l.overdue
  }

  /** However files behave: in one process life the cached list is the end of all that was there at
      first and all that was stored since, and it is longer than the bound by at most the number of
      appends that have failed in a row. */
  lemma {:induction false} OneLife(st: Style, retention: nat, l: Life, script: seq<Step>)
    requires retention > 0 && Bounded(l, retention) && InOneLife(script)
    ensures Lived(l, BegunWith(st, retention, l, script), RowsOf(st, script), Streak(st, script, l.overdue),
                  RunLife(st, retention, l, script), retention)
    decreases |script|
  {
    if script != [] {
      var init, step := script[..|script| - 1], script[|script| - 1];
      OneLife(st, retention, l, init);
      var midway := RunLife(st, retention, l, init);
      assert step.op.Append? || step.op.List?;
      LifeGoesOn(st, retention, midway, step);
      LivedNext(st, retention, l, BegunWith(st, retention, l, init), RowsOf(st, init), Streak(st, init, l.overdue), midway, step,
                LifeAfter(st, retention, midway, step));
    }
  }

  /** The process began with some rows, stored some more, and has failed to write so often in a row. */
  ghost predicate Lived(l: Life, begun: seq<Row>, rows: seq<Row>, streak: nat, a: Life, retention: nat) {
    && a.process == begun + rows && Bounded(a, retention) && a.overdue <= streak
    && (a.cache.Some? ==> IsSuffix(a.cache.value, begun + rows) && |a.cache.value| <= retention + streak)
    && (a.cache.None? ==> a == l && begun == [] && rows == [])
    && (l.cache.Some? ==> begun == l.process)
  }

  lemma LivedNext(st: Style, retention: nat, l: Life, begun: seq<Row>, rows: seq<Row>, streak: nat, midway: Life, step: Step, a: Life)
    requires Lived(l, begun, rows, streak, midway, retention) && GoesOn(st, retention, midway, step, a)
    ensures Lived(l, if midway.cache.None? && Touches(st, step.op) then AtHand(l, step.weather.readAfter, retention) else begun,
                  rows + RowOf(st, step.op), Failing(st, step, streak), a, retention)
  {
    if midway.cache.None? {
      assert rows + RowOf(st, step.op) == RowOf(st, step.op);
    } else {
      assert (begun + rows) + RowOf(st, step.op) == begun + (rows + RowOf(st, step.op));
    }
  }

  /** What an append or a query makes of a life in bounds. */
  ghost predicate GoesOn(st: Style, retention: nat, l: Life, step: Step, a: Life) {
    && Bounded(a, retention)
    && a.process == (if l.cache.None? && Touches(st, step.op) then AtHand(l, step.weather.readAfter, retention) else l.process)
                    + RowOf(st, step.op)
    && (a.cache.None? ==> a == l) && (a.cache.None? <==> l.cache.None? && !Touches(st, step.op))
    && a.overdue <= Failing(st, step, l.overdue)
  }

  lemma LifeGoesOn(st: Style, retention: nat, l: Life, step: Step)
    requires retention > 0 && Bounded(l, retention) && (step.op.Append? || step.op.List?)
    ensures GoesOn(st, retention, l, step, LifeAfter(st, retention, l, step))
  {
    if step.op.List? {
      OpenedGoesOn(st, retention, l, step);
    } else if RowOf(st, step.op) != [] {
      StoredGoesOn(st, retention, l, step);
    }
  }

  lemma OpenedGoesOn(st: Style, retention: nat, l: Life, step: Step)
    requires retention > 0 && Bounded(l, retention) && step.op.List?
    ensures GoesOn(st, retention, l, step, Opened(l, step.weather.readAfter, retention))
  {
    OpenedIsBounded(l, step.weather.readAfter, retention);
    var a := Opened(l, step.weather.readAfter, retention);
    assert RowOf(st, step.op) == [] && a.process + [] == a.process;
  }

  lemma StoredGoesOn(st: Style, retention: nat, l: Life, step: Step)
    requires retention > 0 && Bounded(l, retention) && step.op.Append? && Normalize(st, step.op.record).Some?
    ensures var loaded := Opened(l, step.weather.readAfter, retention);
            loaded.cache.Some? && GoesOn(st, retention, l, step, Stored(loaded, Normalize(st, step.op.record).value, step.weather, retention))
  {
    var loaded := Opened(l, step.weather.readAfter, retention);
    OpenedIsBounded(l, step.weather.readAfter, retention);
    StoredIsBounded(loaded, Normalize(st, step.op.record).value, step.weather, retention);
  }

  lemma OpenedIsBounded(l: Life, readAfter: Option<nat>, retention: nat)
    requires retention > 0 && Bounded(l, retention)
    ensures var a := Opened(l, readAfter, retention);
            && Bounded(a, retention) && a.cache.Some? && a.overdue == l.overdue
            && a.process == if l.cache.None? then AtHand(l, readAfter, retention) else l.process
  {
  }

  lemma StoredIsBounded(l: Life, row: Row, w: Weather, retention: nat)
    requires retention > 0 && Bounded(l, retention) && l.cache.Some?
    ensures var a := Stored(l, row, w, retention);
            && Bounded(a, retention) && a.cache.Some? && a.process == l.process + [row]
            && a.overdue <= if w.writeFails then l.overdue + 1 else 0
  {
    SuffixGrows(l.cache.value, l.process, row);
    SuffixOfSuffix(l.cache.value + [row], l.process + [row], retention);
  }

  method PerformInFile(store: FileAuditStore, step: Step) returns (answers: Answered)
    requires store.Valid() && Sensible(store.style) && Survives(store.style, step.op)
    modifies store
    ensures store.Valid() && store.log == LogAfter(store.style, old(store.log), step.op)
    ensures store.State() == LifeAfter(store.style, store.retention, old(store.State()), step)
    ensures store.faulty ==> old(store.faulty) || !Fair(step.weather)
    ensures !store.faulty ==> answers == Reply(store.style, old(store.log), store.retention, step.op)
  {
    answers := [];
    match step.op {
      case Append(record) => var _ := store.Append(record, step.weather);
      case List(cs, limit) =>
        var answer := store.List(cs, limit, step.weather);
        answers := [answer];
      case Clear => store.Clear(step.weather.writeFails);
      case Restart => store.Restart();
    }
  }

  method PerformInMemory(store: MemoryAuditStore, op: Op) returns (answers: Answered)
    requires store.Valid()
    modifies store
    ensures store.Valid() && store.log == LogAfter(store.style, old(store.log), op)
    ensures answers == Reply(store.style, old(store.log), store.retention, op)
  {
    answers := [];
    match op {
      case Append(record) => var _ := store.Append(record);
      case List(cs, limit) =>
        var answer := store.List(cs, limit);
        answers := [answer];
      case Clear => store.Clear();
      case Restart =>
    }
  }

  method PerformInBoth(file: FileAuditStore, memory: MemoryAuditStore, step: Step) returns (inFile: Answered, inMemory: Answered)
    requires file.Valid() && memory.Valid() && file.log == memory.log
    requires file.style == memory.style && file.retention == memory.retention
    requires Sensible(file.style) && Survives(file.style, step.op)
    modifies file, memory
    ensures file.Valid() && memory.Valid() && file.log == memory.log
    ensures memory.log == LogAfter(memory.style, old(memory.log), step.op)
    ensures inMemory == Reply(memory.style, old(memory.log), memory.retention, step.op)
    ensures Fair(step.weather) && !old(file.faulty) ==> inFile == inMemory && !file.faulty
    ensures file.State() == LifeAfter(file.style, file.retention, old(file.State()), step)
  {
    inMemory := PerformInMemory(memory, step.op);
    inFile := PerformInFile(file, step);
  }

  predicate AllFair(script: seq<Step>) { forall i :: 0 <= i < |script| ==> Fair(script[i].weather) }

  /** As long as no file operation fails, a file store that is restarted at will answers every
      script like a memory store that never is: the last retained records, filtered, limited. */
  method SameAnswers(file: FileAuditStore, memory: MemoryAuditStore, script: seq<Step>) returns (inFile: Answered, inMemory: Answered)
    requires file.Valid() && memory.Valid() && file.log == memory.log && !file.faulty
    requires file.style == memory.style && file.retention == memory.retention
    requires Sensible(file.style) && forall step :: step in script ==> Survives(file.style, step.op)
    modifies file, memory
    ensures file.Valid() && memory.Valid()
    ensures inMemory == Answers(memory.style, old(memory.log), memory.retention, script)
    ensures AllFair(script) ==> inFile == inMemory && !file.faulty
    ensures file.State() == RunLife(file.style, file.retention, old(file.State()), script)
  {
    inFile, inMemory := [], [];
    ghost var all := Answers(memory.style, memory.log, memory.retention, script);
    for i := 0 to |script|
      invariant file.Valid() && memory.Valid() && file.log == memory.log
      invariant all == inMemory + Answers(memory.style, memory.log, memory.retention, script[i..])
      invariant AllFair(script) ==> inFile == inMemory && !file.faulty
      invariant file.State() == RunLife(file.style, file.retention, old(file.State()), script[..i])
    {
      assert script[i] in script && script[..i + 1][..i] == script[..i];
      AnswersNext(memory.style, all, inMemory, memory.log, memory.retention, script, i);
      var replies, reply := PerformInBoth(file, memory, script[i]);
      inFile, inMemory := inFile + replies, inMemory + reply;
    }
    assert script[..|script|] == script;
  }
}
