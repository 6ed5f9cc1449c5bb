/** The execution store: lifecycle operations, the event log, and the durable records behind
    them. What becomes of each persist, a failure or a crash at any point of it, is an input: the
    n-th one meets the n-th fate, whatever that is. A crash leaves the fields exactly as they
    stood at that moment. */
module ExecutionStore {
  import opened Options
  import opened Lifecycle
  import opened FileNames
  import opened Fleets
  import opened Decimals
  import Redaction

  /* ---------- events ---------- */

  datatype EventKind =
    | ExecutionCreated | ExecutionStarted | ExecutionResumed | ExecutionPaused | ExecutionCompleted
    | ExecutionFailed | ExecutionCancelled | StateChanged | FleetCancelRequested | OtherKind(name: string)

  datatype Event = Event(kind: EventKind, executionId: string, taskId: string, sessionId: string,
                         workerId: Option<string>, status: Status, sequence: nat)

  /** An event about an execution; the store itself never names a worker. */
  function EventFor(kind: EventKind, rec: Snapshot, status: Status, sequence: nat): Event {
    Event(kind, rec.executionId, rec.taskId, rec.sessionId, None, status, sequence)
  }

  function KindFor(current: Status, target: Status): EventKind {
    match target
    case Running => if current.Paused? then ExecutionResumed else ExecutionStarted
    case Paused => ExecutionPaused
    case Succeeded => ExecutionCompleted
    case Failed => ExecutionFailed
    case Cancelled => ExecutionCancelled
    case _ => StateChanged
  }

  predicate TellsStatus(e: Event, id: string) {
    e.executionId == id && (e.kind.ExecutionCreated? || e.kind.StateChanged?)
  }

  /** The statuses the log tells about one execution, in order. */
  function Trail(events: seq<Event>, id: string): seq<Status> {
    if events == [] then []
    else
      var last := events[|events| - 1];
      Trail(events[..|events| - 1], id) + if TellsStatus(last, id) then [last.status] else []
  }

  lemma TrailGrows(events: seq<Event>, e: Event, id: string)
    ensures Trail(events + [e], id) == Trail(events, id) + if TellsStatus(e, id) then [e.status] else []
  {
  }

  predicate Numbered(events: seq<Event>) {
    forall i :: 0 <= i < |events| ==> events[i].sequence == i + 1
  }

  /* ---------- files ---------- */

  /** `Torn` is what an interrupted write leaves behind. */
  datatype Body = Record(snap: Snapshot) | Torn

  type Files = map<string, Body>

  const ID_LIMIT := 128

  function SafeId(id: string): string {
    Truncate(seq(|id|, i requires 0 <= i < |id| => if SafeInNs(id[i]) then id[i] else '_'), ID_LIMIT)
  }

  function DataName(id: string): string { SafeId(id) + ".json" }

  function TmpName(id: string): string { WithSuffix(DataName(id), ".tmp") }

  /** A record is filed under the id's first 128 characters, with `_` for all but letters, digits, `-`
      and `_`. */
  lemma RecordsAreNamed(id: string, i: nat)
    ensures DataName(id) == SafeId(id) + ".json" && |SafeId(id)| == if |id| < 128 then |id| else 128
    ensures i < |SafeId(id)| ==> SafeId(id)[i] == if IsPlain(id[i]) then id[i] else '_'
  {
  }

  predicate IsJson(name: string) {
    |name| >= 5 && name[|name| - 5..] == ".json"
  }

  lemma NamesApart(a: string, b: string)
    ensures IsJson(DataName(a)) && !IsJson(TmpName(b)) && DataName(a) != TmpName(b)
  {
  }

  function ScrubbedText(scrub: string -> string, text: Option<string>): Option<string> {
    if text.Some? then Some(scrub(text.value)) else None
  }

  /** What redaction makes of a record on its way to disk. */
  function Redacted(p: Redaction.Patterns, s: Snapshot): Snapshot {
    s.(executionId := p.scrub(s.executionId), taskId := p.scrub(s.taskId), sessionId := p.scrub(s.sessionId),
       agentId := ScrubbedText(p.scrub, s.agentId), error := ScrubbedText(p.scrub, s.error),
       result := ScrubbedText(p.scrub, s.result),
       metadata := Redaction.RedactTexts(p, s.metadata))
  }

  lemma RedactionKeepsCore(p: Redaction.Patterns, rec: Snapshot, s: Snapshot)
    requires WellFormed(rec) && CoreOf(s) == CoreOf(rec) && p.scrub(s.executionId) == s.executionId
    ensures WellFormed(Redacted(p, s)) && CoreOf(Redacted(p, s)) == CoreOf(rec)
  {
  }

  /** A durable record is a faithful, possibly older, version of the record in memory. */
  predicate Behind(files: Files, executions: Executions, id: string) {
    DataName(id) in files ==>
      && files[DataName(id)].Record?
      && var s := files[DataName(id)].snap;
         s.executionId == id && WellFormed(s) && id in executions && s.history <= executions[id].history
  }

  predicate Mirrors(files: Files, executions: Executions, id: string) {
    && DataName(id) in files && files[DataName(id)].Record? && id in executions
    && CoreOf(files[DataName(id)].snap) == CoreOf(executions[id])
  }

  /** The durable side of the store: every record is behind memory, the synced ones mirror it,
      and no other JSON file lies around. */
  ghost predicate DiskOk(files: Files, executions: Executions, ids: set<string>, synced: set<string>) {
    && synced <= executions.Keys <= ids
    && (forall id {:trigger Behind(files, executions, id)} :: id in ids ==> Behind(files, executions, id))
    && (forall id {:trigger Mirrors(files, executions, id)} :: id in synced ==> Mirrors(files, executions, id))
    && (forall name {:trigger HasOwner(files, ids, name)} :: HasOwner(files, ids, name))
  }

  ghost predicate HasOwner(files: Files, ids: set<string>, name: string) {
    name in files && IsJson(name) ==> exists id :: id in ids && name == DataName(id)
  }

  function DurableHistory(files: Files, id: string): seq<Status> {
    if DataName(id) in files && files[DataName(id)].Record? then files[DataName(id)].snap.history else []
  }

  predicate SameFile(before: Files, after: Files, name: string) {
    (name in after <==> name in before) && (name in after ==> after[name] == before[name])
  }

  /** Only the files of this execution were touched. */
  ghost predicate OnlyRecordOf(before: Files, after: Files, id: string) {
    forall name {:trigger SameFile(before, after, name)} :: name != DataName(id) && name != TmpName(id) ==> SameFile(before, after, name)
  }

  lemma OnlyRecordTransitive(a: Files, b: Files, c: Files, id: string)
    requires OnlyRecordOf(a, b, id) && OnlyRecordOf(b, c, id)
    ensures OnlyRecordOf(a, c, id)
  {
    forall name | name != DataName(id) && name != TmpName(id)
      ensures SameFile(a, c, name)
    {
      assert SameFile(a, b, name) && SameFile(b, c, name);
    }
  }

  ghost predicate OnlyTouched(before: Files, after: Files, touched: string) {
    forall name {:trigger SameFile(before, after, name)} :: name != touched ==> SameFile(before, after, name)
  }

  function JsonFiles(files: Files): set<string> { set name | name in files && IsJson(name) }

  /** Durable histories are never lost and never shrink. */
  ghost predicate DiskGrows(before: Files, after: Files, ids: set<string>) {
    forall id {:trigger DurableHistory(after, id)} :: id in ids ==> DurableHistory(before, id) <= DurableHistory(after, id)
  }

  lemma DiskGrowsTransitive(a: Files, b: Files, c: Files, ids: set<string>)
    requires DiskGrows(a, b, ids) && DiskGrows(b, c, ids)
    ensures DiskGrows(a, c, ids)
  {
  }

  /** A record as `load_durable` rebuilds it. */
  function Loaded(s: Snapshot): Snapshot {
    s.(taskId := if s.taskId == "" then "unknown" else s.taskId,
       sessionId := if s.sessionId == "" then "unknown" else s.sessionId)
  }

  /** What a reload keeps of a record on disk, field by field. */
  predicate Restored(s: Snapshot, r: Snapshot) {
    && r.executionId == s.executionId && r.agentId == s.agentId && r.status == s.status && r.history == s.history
    && r.createdAt == s.createdAt && r.startedAt == s.startedAt && r.finishedAt == s.finishedAt
    && r.error == s.error && r.result == s.result && r.metadata == s.metadata && r.cancelRequested == s.cancelRequested
    && r.taskId == (if s.taskId == "" then "unknown" else s.taskId)
    && r.sessionId == (if s.sessionId == "" then "unknown" else s.sessionId)
  }

  predicate ScrubbedSome(p: Redaction.Patterns, before: Option<string>, after: Option<string>) {
    (before.Some? <==> after.Some?) && (before.Some? ==> after.value == p.scrub(before.value))
  }

  predicate MetadataScrubbed(p: Redaction.Patterns, before: map<string, string>, after: map<string, string>) {
    && after.Keys == before.Keys
    && forall k :: k in before ==> after[k] == if p.secretKey(k) then "***" else p.scrub(before[k])
  }

  /** What two records share when one is the other on its way to disk or back: the lifecycle, and
      the scrubbed payload. */
  predicate ScrubbedPayload(p: Redaction.Patterns, r: Snapshot, s: Snapshot) {
    && s.status == r.status && s.history == r.history && s.cancelRequested == r.cancelRequested
    && s.createdAt == r.createdAt && s.startedAt == r.startedAt && s.finishedAt == r.finishedAt
    && ScrubbedSome(p, r.error, s.error) && ScrubbedSome(p, r.result, s.result) && ScrubbedSome(p, r.agentId, s.agentId)
    && MetadataScrubbed(p, r.metadata, s.metadata)
  }

  /** A record as it is written, field by field. */
  predicate ScrubbedAs(p: Redaction.Patterns, r: Snapshot, s: Snapshot) {
    && ScrubbedPayload(p, r, s) && s.executionId == p.scrub(r.executionId)
    && s.taskId == p.scrub(r.taskId) && s.sessionId == p.scrub(r.sessionId)
  }

  lemma RedactedIsScrubbed(p: Redaction.Patterns, r: Snapshot)
    ensures ScrubbedAs(p, r, Redacted(p, r))
  {
  }

  /** A record before a restart and after it. */
  predicate Survives(p: Redaction.Patterns, before: Snapshot, after: Snapshot) {
    && ScrubbedPayload(p, before, after)
    && after.taskId == (if p.scrub(before.taskId) == "" then "unknown" else p.scrub(before.taskId))
    && after.sessionId == (if p.scrub(before.sessionId) == "" then "unknown" else p.scrub(before.sessionId))
  }

  /** The record on disk is the one in memory, scrubbed. */
  predicate Whole(p: Redaction.Patterns, files: Files, executions: Executions, id: string) {
    && id in executions && DataName(id) in files && files[DataName(id)].Record?
    && ScrubbedAs(p, executions[id], files[DataName(id)].snap)
  }

  ghost predicate AllWhole(p: Redaction.Patterns, files: Files, executions: Executions, intact: set<string>) {
    forall id {:trigger Whole(p, files, executions, id)} :: id in intact ==> Whole(p, files, executions, id)
  }

  /** Of the files read so far, exactly the ones an execution owns are in memory. */
  predicate Loads(files: Files, loaded: Executions, ids: set<string>, read: set<string>, id: string) {
    && (id in loaded <==> id in ids && DataName(id) in read)
    && (id in loaded ==> DataName(id) in files && files[DataName(id)].Record? && loaded[id] == Loaded(files[DataName(id)].snap))
  }

  ghost predicate LoadedFrom(files: Files, loaded: Executions, ids: set<string>, read: set<string>) {
    forall id {:trigger Loads(files, loaded, ids, read, id)} :: Loads(files, loaded, ids, read, id)
  }

  /** Every JSON file parses and belongs to the execution it names. */
  lemma LoadNext(files: Files, was: Executions, ids: set<string>, synced: set<string>,
                 loaded: Executions, read: set<string>, name: string)
    requires DiskOk(files, was, ids, synced) && Distinct(ids) && "" !in ids
    requires LoadedFrom(files, loaded, ids, read) && name in files && IsJson(name)
    ensures files[name].Record? && files[name].snap.executionId != ""
    ensures var s := Loaded(files[name].snap); LoadedFrom(files, loaded[s.executionId := s], ids, read + {name})
  {
    assert HasOwner(files, ids, name);
    var owner :| owner in ids && name == DataName(owner);
    assert Behind(files, was, owner);
    var s := Loaded(files[name].snap);
    var loaded', read' := loaded[s.executionId := s], read + {name};
    forall id
      ensures Loads(files, loaded', ids, read', id)
    {
      assert Loads(files, loaded, ids, read, id);
      assert SameName(id, owner) && id in ids ==> id == owner;
    }
  }

  function Histories(executions: Executions): map<string, seq<Status>> { map id | id in executions :: executions[id].history }

  lemma LoadedIsConsistent(files: Files, was: Executions, loaded: Executions, ids: set<string>, synced: set<string>, read: set<string>)
    requires DiskOk(files, was, ids, synced) && LoadedFrom(files, loaded, ids, read)
    requires forall name :: name in read <==> name in files && IsJson(name)
    ensures DiskOk(files, loaded, ids, loaded.Keys) && RecordsOk(loaded)
    ensures AllReloaded(files, was, synced, loaded, ids)
    ensures LogOk([], 0, loaded, Histories(loaded))
    ensures files == map[] ==> loaded.Keys == {}
  {
    forall id
      ensures id in ids ==> Behind(files, loaded, id)
      ensures id in loaded ==> RecordOk(loaded, id) && Mirrors(files, loaded, id)
      ensures Reloaded(files, was, synced, loaded, ids, id)
    {
      assert id in ids ==> Behind(files, was, id);
      assert id in synced ==> Mirrors(files, was, id);
      assert Loads(files, loaded, ids, read, id);
      NamesApart(id, id);
    }
    forall name
      ensures HasOwner(files, ids, name)
    {
      assert HasOwner(files, ids, name);
    }
  }

  /** What a restart makes of one execution: it is there exactly when its record is on disk, never
      ahead of what it was, and unchanged when its last persist had succeeded. */
  predicate Reloaded(files: Files, was: Executions, synced: set<string>, loaded: Executions, ids: set<string>, id: string) {
    && (id in loaded <==> id in ids && DataName(id) in files)
    && (id in loaded ==> id in was && loaded[id].history <= was[id].history)
    && (id in synced ==> id in loaded && id in was && CoreOf(loaded[id]) == CoreOf(was[id]))
  }

  predicate IsRestored(files: Files, loaded: Executions, id: string)
    requires id in loaded
  {
    DataName(id) in files && files[DataName(id)].Record? && Restored(files[DataName(id)].snap, loaded[id])
  }

  ghost predicate AllRestored(files: Files, loaded: Executions) {
    forall id {:trigger IsRestored(files, loaded, id)} :: id in loaded ==> IsRestored(files, loaded, id)
  }

  predicate HasSurvived(p: Redaction.Patterns, was: Executions, loaded: Executions, id: string) {
    id in was && id in loaded && Survives(p, was[id], loaded[id])
  }

  ghost predicate AllSurvive(p: Redaction.Patterns, intact: set<string>, was: Executions, loaded: Executions) {
    forall id {:trigger HasSurvived(p, was, loaded, id)} :: id in intact ==> HasSurvived(p, was, loaded, id)
  }

  /** What was loaded is what is on disk, field by field; and what was whole has survived. */
  lemma LoadedSurvive(p: Redaction.Patterns, files: Files, was: Executions, ids: set<string>, intact: set<string>, loaded: Executions)
    requires LoadedFrom(files, loaded, ids, JsonFiles(files)) && AllWhole(p, files, was, intact) && was.Keys <= ids
    requires forall id :: id in ids ==> p.scrub(id) == id
    ensures AllRestored(files, loaded) && AllSurvive(p, intact, was, loaded)
  {
    forall id | id in loaded
      ensures IsRestored(files, loaded, id)
    {
      assert Loads(files, loaded, ids, JsonFiles(files), id);
    }
    forall id | id in intact
      ensures HasSurvived(p, was, loaded, id)
    {
      NamesApart(id, id);
      assert Whole(p, files, was, id) && Loads(files, loaded, ids, JsonFiles(files), id);
    }
  }

  ghost predicate AllReloaded(files: Files, was: Executions, synced: set<string>, loaded: Executions, ids: set<string>) {
    forall id {:trigger Reloaded(files, was, synced, loaded, ids, id)} :: Reloaded(files, was, synced, loaded, ids, id)
  }

  predicate SameName(a: string, b: string) { DataName(a) == DataName(b) }

  ghost predicate Distinct(ids: set<string>) {
    forall a, b {:trigger SameName(a, b)} :: a in ids && b in ids && SameName(a, b) ==> a == b
  }

  lemma TmpKeepsDisk(files: Files, executions: Executions, ids: set<string>, synced: set<string>, id: string, b: Body)
    requires DiskOk(files, executions, ids, synced)
    ensures DiskOk(files[TmpName(id) := b], executions, ids, synced)
    ensures DiskGrows(files, files[TmpName(id) := b], ids)
  {
    NamesApart(id, id);
    forall x | x in ids
      ensures DataName(x) != TmpName(id) && Behind(files[TmpName(id) := b], executions, x)
    {
      NamesApart(x, id);
      assert Behind(files, executions, x);
    }
    forall x | x in synced
      ensures Mirrors(files[TmpName(id) := b], executions, x)
    {
      NamesApart(x, id);
      assert Mirrors(files, executions, x);
    }
    var files' := files[TmpName(id) := b];
    forall name
      ensures HasOwner(files', ids, name)
    {
      assert HasOwner(files, ids, name);
    }
  }

  lemma TmpKeepsWhole(p: Redaction.Patterns, files: Files, executions: Executions, ids: set<string>, intact: set<string>, id: string, b: Body)
    requires AllWhole(p, files, executions, intact)
    ensures AllWhole(p, files[TmpName(id) := b], executions, intact)
  {
    var files' := files[TmpName(id) := b];
    forall x | x in intact
      ensures Whole(p, files', executions, x)
    {
      NamesApart(x, id);
      assert Whole(p, files, executions, x);
    }
  }

  lemma ReplaceKeepsWhole(p: Redaction.Patterns, files: Files, executions: Executions, ids: set<string>, intact: set<string>, id: string)
    requires AllWhole(p, files, executions, intact) && Distinct(ids) && id in executions && executions.Keys <= ids
    ensures AllWhole(p, Replaced(files, id, Redacted(p, executions[id])), executions, intact + {id})
  {
    var s := Redacted(p, executions[id]);
    var files' := Replaced(files, id, s);
    RedactedIsScrubbed(p, executions[id]);
    NamesApart(id, id);
    forall x | x in intact + {id}
      ensures Whole(p, files', executions, x)
    {
      NamesApart(x, id);
      assert x in intact ==> Whole(p, files, executions, x);
      assert SameName(x, id) && x in ids ==> x == id;
    }
  }

  lemma MemoryKeepsWhole(p: Redaction.Patterns, files: Files, executions: Executions, intact: set<string>, id: string, rec: Snapshot)
    requires AllWhole(p, files, executions, intact)
    ensures AllWhole(p, files, executions[id := rec], intact - {id})
  {
    forall x | x in intact - {id}
      ensures Whole(p, files, executions[id := rec], x)
    {
      assert Whole(p, files, executions, x);
    }
  }

  function Replaced(files: Files, id: string, s: Snapshot): Files {
    files[DataName(id) := Record(s)] - {TmpName(id)}
  }

  lemma ReplaceKeepsOne(files: Files, executions: Executions, id: string, s: Snapshot, x: string)
    requires id in executions && s.executionId == id && WellFormed(s) && CoreOf(s) == CoreOf(executions[id])
    requires Behind(files, executions, x) && (DataName(x) == DataName(id) ==> x == id)
    ensures Behind(Replaced(files, id, s), executions, x)
    ensures DurableHistory(files, x) <= DurableHistory(Replaced(files, id, s), x)
    ensures x == id || Mirrors(files, executions, x) ==> Mirrors(Replaced(files, id, s), executions, x)
  {
    NamesApart(x, id);
  }

  lemma ReplaceKeepsDisk(files: Files, executions: Executions, ids: set<string>, synced: set<string>, id: string, s: Snapshot)
    requires DiskOk(files, executions, ids, synced) && Distinct(ids) && id in executions
    requires s.executionId == id && WellFormed(s) && CoreOf(s) == CoreOf(executions[id])
    ensures DiskOk(Replaced(files, id, s), executions, ids, synced + {id})
    ensures DiskGrows(files, Replaced(files, id, s), ids)
  {
    forall x | x in ids
      ensures Behind(Replaced(files, id, s), executions, x)
      ensures DurableHistory(files, x) <= DurableHistory(Replaced(files, id, s), x)
      ensures x in synced + {id} ==> Mirrors(Replaced(files, id, s), executions, x)
    {
      assert Behind(files, executions, x);
      assert x in synced ==> Mirrors(files, executions, x);
      assert SameName(x, id) ==> x == id;
      ReplaceKeepsOne(files, executions, id, s, x);
    }
    var files' := Replaced(files, id, s);
    forall name
      ensures HasOwner(files', ids, name)
    {
      assert HasOwner(files, ids, name);
    }
  }

  lemma MemoryKeepsDisk(files: Files, executions: Executions, ids: set<string>, synced: set<string>, rec: Snapshot)
    requires DiskOk(files, executions, ids, synced) && rec.executionId in ids
    requires rec.executionId in executions ==> executions[rec.executionId].history <= rec.history
    ensures DiskOk(files, executions[rec.executionId := rec], ids, synced - {rec.executionId})
    ensures rec.executionId in executions && CoreOf(rec) == CoreOf(executions[rec.executionId]) ==>
              DiskOk(files, executions[rec.executionId := rec], ids, synced)
  {
    var next := executions[rec.executionId := rec];
    forall x | x in ids
      ensures Behind(files, next, x)
    {
      assert Behind(files, executions, x);
    }
    assert forall x :: x in synced ==> Mirrors(files, executions, x);
  }

  /** The event log tells exactly what was added to each history in this process. */
  ghost predicate LogOk(events: seq<Event>, seqNo: nat, executions: Executions, base: map<string, seq<Status>>) {
    && seqNo == |events| && Numbered(events) && base.Keys == executions.Keys
    && (forall id {:trigger TellsHistory(events, executions, base, id)} :: TellsHistory(events, executions, base, id))
  }

  predicate TellsHistory(events: seq<Event>, executions: Executions, base: map<string, seq<Status>>, id: string)
    requires base.Keys == executions.Keys
  {
    if id in executions then base[id] + Trail(events, id) == executions[id].history else Trail(events, id) == []
  }

  /** The filters of `list_events`; `None` lets everything pass. */
  datatype EventQuery = EventQuery(executionId: Option<string>, taskId: Option<string>, sessionId: Option<string>,
                                   workerId: Option<string>, kind: Option<EventKind>)

  function AboutExecution(id: string): EventQuery { EventQuery(Some(id), None, None, None, None) }

  predicate Passes(e: Event, q: EventQuery) {
    && (q.executionId.Some? ==> e.executionId == q.executionId.value)
    && (q.taskId.Some? ==> e.taskId == q.taskId.value)
    && (q.sessionId.Some? ==> e.sessionId == q.sessionId.value)
    && (q.workerId.Some? ==> e.workerId == q.workerId)
    && (q.kind.Some? ==> e.kind == q.kind.value)
  }

  /** The events that pass every filter, in order. */
  function Selected(events: seq<Event>, q: EventQuery): seq<Event> {
    if events == [] then []
    else
      Selected(events[..|events| - 1], q) + if Passes(events[|events| - 1], q) then [events[|events| - 1]] else []
  }

  lemma SelectedGrows(events: seq<Event>, e: Event, q: EventQuery)
    ensures Selected(events + [e], q) == Selected(events, q) + if Passes(e, q) then [e] else []
  {
    assert (events + [e])[..|events|] == events;
  }

  lemma {:induction false} SelectedInOrder(events: seq<Event>, q: EventQuery)
    requires Numbered(events)
    ensures forall i, j :: 0 <= i < j < |Selected(events, q)| ==> Selected(events, q)[i].sequence < Selected(events, q)[j].sequence
    ensures forall i :: 0 <= i < |Selected(events, q)| ==> Selected(events, q)[i].sequence <= |events|
  {
    if events != [] {
      SelectedInOrder(events[..|events| - 1], q);
    }
  }

  /** Listing an execution's events keeps all that the log tells about it. */
  lemma {:induction false} SelectedKeepsTrail(events: seq<Event>, id: string)
    ensures Trail(Selected(events, AboutExecution(id)), id) == Trail(events, id)
  {
    if events != [] {
      var init, last, q := events[..|events| - 1], events[|events| - 1], AboutExecution(id);
      assert events == init + [last];
      SelectedKeepsTrail(init, id);
      TrailGrows(init, last, id);
      SelectedGrows(init, last, q);
      if Passes(last, q) {
        TrailGrows(Selected(init, q), last, id);
      } else {
        assert Selected(events, q) == Selected(init, q) && !TellsStatus(last, id);
      }
    }
  }

  /** For an execution made in this process the log tells the whole history. */
  lemma LogTellsHistory(events: seq<Event>, seqNo: nat, executions: Executions, base: map<string, seq<Status>>, id: string)
    requires LogOk(events, seqNo, executions, base) && id in executions && base[id] == []
    ensures Trail(events, id) == Trail(Selected(events, AboutExecution(id)), id) == executions[id].history
  {
    SelectedKeepsTrail(events, id);
    assert TellsHistory(events, executions, base, id);
  }

  predicate RecordOk(executions: Executions, id: string)
    requires id in executions
  {
    executions[id].executionId == id && WellFormed(executions[id])
  }

  ghost predicate RecordsOk(executions: Executions) {
    forall id {:trigger RecordOk(executions, id)} :: id in executions ==> RecordOk(executions, id)
  }

  function TransitionEvents(rec: Snapshot, target: Status, seqNo: nat): seq<Event> {
    [EventFor(KindFor(rec.status, target), rec, target, seqNo + 1), EventFor(StateChanged, rec, target, seqNo + 2)]
  }

  predicate Moves(executions: Executions, id: string, target: Status) {
    id in executions && Allowed(executions[id].status, target)
  }

  /** The two events of an allowed transition; a refused one tells nothing. */
  function EventsOf(executions: Executions, id: string, target: Status, seqNo: nat): seq<Event> {
    if Moves(executions, id, target) then TransitionEvents(executions[id], target, seqNo) else []
  }

  lemma TransitionTrail(events: seq<Event>, rec: Snapshot, target: Status, seqNo: nat, id: string)
    requires Allowed(rec.status, target)
    ensures Trail(events + TransitionEvents(rec, target, seqNo), id) ==
            Trail(events, id) + if id == rec.executionId then [target] else []
  {
    var told := TransitionEvents(rec, target, seqNo);
    assert events + told == (events + [told[0]]) + [told[1]];
    TrailGrows(events, told[0], id);
    TrailGrows(events + [told[0]], told[1], id);
  }

  lemma AdvanceKeepsLog(executions: Executions, events: seq<Event>, seqNo: nat, base: map<string, seq<Status>>,
                        id: string, target: Status, now: int)
    requires LogOk(events, seqNo, executions, base)
    requires id in executions && executions[id].executionId == id && Allowed(executions[id].status, target)
    ensures LogOk(events + TransitionEvents(executions[id], target, seqNo), seqNo + 2,
                  executions[id := Advance(executions[id], target, now)], base)
  {
    var next := executions[id := Advance(executions[id], target, now)];
    var log := events + TransitionEvents(executions[id], target, seqNo);
    forall x
      ensures TellsHistory(log, next, base, x)
    {
      TransitionTrail(events, executions[id], target, seqNo, x);
      assert TellsHistory(events, executions, base, x);
    }
  }

  lemma AdvanceKeepsRecords(executions: Executions, id: string, target: Status, now: int)
    requires RecordsOk(executions) && id in executions && Allowed(executions[id].status, target)
    ensures var next := executions[id := Advance(executions[id], target, now)];
            RecordsOk(next) && Evolves(executions, next)
  {
    var next := executions[id := Advance(executions[id], target, now)];
    assert RecordOk(executions, id);
    AdvanceKeepsWellFormed(executions[id], target, now);
    assert RecordOk(next, id);
    forall x | x in next
      ensures RecordOk(next, x)
    {
      assert x in executions && RecordOk(executions, x);
    }
  }

  lemma AdvanceKeepsStore(executions: Executions, events: seq<Event>, seqNo: nat, base: map<string, seq<Status>>, files: Files,
                          ids: set<string>, synced: set<string>, id: string, target: Status, now: int)
    requires LogOk(events, seqNo, executions, base) && RecordsOk(executions) && DiskOk(files, executions, ids, synced)
    requires Moves(executions, id, target)
    ensures var next := executions[id := Advance(executions[id], target, now)];
            && LogOk(events + TransitionEvents(executions[id], target, seqNo), seqNo + 2, next, base)
            && RecordsOk(next) && Evolves(executions, next) && DiskOk(files, next, ids, synced - {id})
  {
    assert RecordOk(executions, id);
    AdvanceKeepsLog(executions, events, seqNo, base, id, target, now);
    AdvanceKeepsRecords(executions, id, target, now);
    MemoryKeepsDisk(files, executions, ids, synced, Advance(executions[id], target, now));
  }

  lemma AdditionKeepsRecords(executions: Executions, rec: Snapshot)
    requires RecordsOk(executions) && WellFormed(rec)
    ensures RecordsOk(executions[rec.executionId := rec])
  {
    var next := executions[rec.executionId := rec];
    forall x | x in next
      ensures RecordOk(next, x)
    {
      assert x in executions ==> RecordOk(executions, x);
    }
  }

  lemma CreateKeepsLog(executions: Executions, events: seq<Event>, seqNo: nat, base: map<string, seq<Status>>, rec: Snapshot)
    requires LogOk(events, seqNo, executions, base) && rec.executionId !in executions && rec.history == [Queued]
    ensures LogOk(events + [EventFor(ExecutionCreated, rec, Queued, seqNo + 1)], seqNo + 1,
                  executions[rec.executionId := rec], base[rec.executionId := []])
  {
    var e := EventFor(ExecutionCreated, rec, Queued, seqNo + 1);
    var next, base' := executions[rec.executionId := rec], base[rec.executionId := []];
    forall x
      ensures TellsHistory(events + [e], next, base', x)
    {
      TrailGrows(events, e, x);
      assert TellsHistory(events, executions, base, x);
    }
  }

  datatype Outcome = Done(snap: Snapshot) | UnknownExecution | InvalidTransition(current: Status, target: Status) | Crashed

  /** What a transition attempt comes to, by the lifecycle table alone. */
  function TransitionOutcome(executions: Executions, id: string, target: Status, now: int): Outcome {
    if id !in executions then UnknownExecution
    else if !Allowed(executions[id].status, target) then InvalidTransition(executions[id].status, target)
    else Done(Advance(executions[id], target, now))
  }

  /** What becomes of one persist. A write that does not come through may leave a torn file. */
  datatype Fate =
    | Fine
    | WriteFails(torn: bool) | ReplaceFails
    | CrashWriting(torn: bool) | CrashReplacing(done: bool)

  predicate Crashes(f: Fate) { f.CrashWriting? || f.CrashReplacing? }

  /** The record got to disk. */
  predicate Lands(f: Fate) { f.Fine? || (f.CrashReplacing? && f.done) }

  /** The process died in one of these persists. */
  ghost predicate CrashedIn(fate: nat -> Fate, first: nat, next: nat) {
    exists n {:trigger fate(n)} :: first <= n < next && Crashes(fate(n))
  }

  /** The operation reports what it did, unless the process died while persisting it. */
  function Reported(told: Outcome, crashed: bool): Outcome { if crashed then Crashed else told }

  /** A transition that takes place is persisted, once. */
  function Writes(durable: bool, executions: Executions, id: string, target: Status): nat {
    if durable && Moves(executions, id, target) then 1 else 0
  }

  /** The executions after an operation on one of them with the given outcome. */
  function Settled(executions: Executions, id: string, told: Outcome): Executions {
    if told.Done? then executions[id := told.snap] else executions
  }

  function CancelOutcome(executions: Executions, id: string, now: int): Outcome {
    if id in executions && Terminal(executions[id].status) then Done(executions[id])
    else TransitionOutcome(executions, id, Cancelled, now)
  }

  function FailOutcome(executions: Executions, id: string, now: int): Outcome {
    if id in executions && Terminal(executions[id].status) then Done(executions[id])
    else TransitionOutcome(executions, id, Failed, now)
  }

  function AfterFail(executions: Executions, id: string, scrub: string -> string, error: string, now: int): Executions {
    if id !in executions then executions
    else
      var written := executions[id := WithError(executions[id], scrub, error)];
      Settled(written, id, FailOutcome(written, id, now))
  }

  function AfterComplete(executions: Executions, id: string, scrub: string -> string, result: Option<string>, now: int): Executions {
    if id !in executions then executions
    else
      var written := executions[id := WithResult(executions[id], scrub, result)];
      Settled(written, id, TransitionOutcome(written, id, Succeeded, now))
  }

  function WithResult(rec: Snapshot, scrub: string -> string, result: Option<string>): Snapshot {
    rec.(result := ScrubbedText(scrub, result))
  }

  function WithError(rec: Snapshot, scrub: string -> string, error: string): Snapshot {
    rec.(error := Some(scrub(error)))
  }

  /** A completion that the table refuses leaves the record alone exactly when the result, once
      scrubbed, is the one it has. */
  lemma RefusedCompletionIff(executions: Executions, id: string, scrub: string -> string, result: Option<string>, now: int)
    requires id in executions && !Allowed(executions[id].status, Succeeded)
    ensures AfterComplete(executions, id, scrub, result, now) == executions <==> ScrubbedText(scrub, result) == executions[id].result
    ensures CoreOf(AfterComplete(executions, id, scrub, result, now)[id]) == CoreOf(executions[id])
  {
    var after := AfterComplete(executions, id, scrub, result, now);
    assert after[id] == WithResult(executions[id], scrub, result);
    assert ScrubbedText(scrub, result) == executions[id].result ==> after == executions;
  }

  /** A failure report about an ended record, or one the table refuses, leaves the record alone
      exactly when the error, once scrubbed, is the one it has. */
  lemma RefusedFailureIff(executions: Executions, id: string, scrub: string -> string, error: string, now: int)
    requires id in executions && !Allowed(executions[id].status, Failed)
    ensures AfterFail(executions, id, scrub, error, now) == executions <==> Some(scrub(error)) == executions[id].error
    ensures CoreOf(AfterFail(executions, id, scrub, error, now)[id]) == CoreOf(executions[id])
  {
    var after := AfterFail(executions, id, scrub, error, now);
    assert after[id] == WithError(executions[id], scrub, error);
    assert Some(scrub(error)) == executions[id].error ==> after == executions;
  }

  /** So the payload of an ended record is not frozen: here both calls change it. */
  lemma EndedPayloadChanges()
    ensures exists executions: Executions, scrub: string -> string ::
              && RecordsOk(executions) && "e" in executions && executions["e"].status.Cancelled?
              && AfterComplete(executions, "e", scrub, Some("late"), 9)["e"] != executions["e"]
              && AfterFail(executions, "e", scrub, "late", 9)["e"] != executions["e"]
  {
    var queued := Fresh("e", "t", "s", None, map[], 1);
    FreshIsWellFormed("e", "t", "s", None, map[], 1);
    AdvanceKeepsWellFormed(queued, Cancelled, 2);
    var executions: Executions, scrub: string -> string := map["e" := Advance(queued, Cancelled, 2)], text => text;
    assert forall id :: id in executions ==> id == "e" && RecordOk(executions, id);
    assert AfterComplete(executions, "e", scrub, Some("late"), 9)["e"].result == Some("late");
    assert AfterFail(executions, "e", scrub, "late", 9)["e"].error == Some("late");
  }

  lemma LegalStatus(rec: Snapshot)
    requires WellFormed(rec)
    ensures !rec.status.Unlisted? && (!Terminal(rec.status) ==> Allowed(rec.status, Cancelled))
  {
    var h := rec.history;
    assert |h| > 1 ==> Allowed(h[|h| - 2], h[|h| - 1]);
  }

  lemma PayloadKeepsLog(executions: Executions, events: seq<Event>, seqNo: nat, base: map<string, seq<Status>>, rec: Snapshot)
    requires LogOk(events, seqNo, executions, base)
    requires rec.executionId in executions && CoreOf(rec) == CoreOf(executions[rec.executionId])
    ensures LogOk(events, seqNo, executions[rec.executionId := rec], base)
  {
    var next := executions[rec.executionId := rec];
    forall x
      ensures TellsHistory(events, next, base, x)
    {
      assert TellsHistory(events, executions, base, x);
    }
  }

  function StatusOf(f: FleetStatus): Status {
    match f
    case FleetSucceeded => Succeeded
    case FleetFailed => Failed
    case FleetCancelled => Cancelled
    case FleetRunning => Running
    case FleetCancelling => Unlisted("cancelling")
    case CompletedWithFailures => Unlisted("completed_with_failures")
    case FleetUnknown => Unlisted("unknown")
    case OtherFleetStatus(name) => Unlisted(name)
  }

  /** An event of any other kind tells nothing about histories. */
  lemma QuietEventKeepsLog(events: seq<Event>, seqNo: nat, executions: Executions, base: map<string, seq<Status>>, e: Event)
    requires LogOk(events, seqNo, executions, base) && e.sequence == seqNo + 1
    requires !e.kind.ExecutionCreated? && !e.kind.StateChanged?
    ensures LogOk(events + [e], seqNo + 1, executions, base)
  {
    forall x
      ensures TellsHistory(events + [e], executions, base, x)
    {
      TrailGrows(events, e, x);
      assert TellsHistory(events, executions, base, x);
    }
  }

  datatype FleetOutcome = FleetDone(fleet: Fleet) | UnknownFleet | FleetCrashed

  /* ---------- recovery of stale executions ---------- */

  /** Python's `started_at or created_at or now`: a zero time counts as missing. */
  function Since(s: Snapshot, now: int): int {
    if s.startedAt.Some? && s.startedAt.value != 0 then s.startedAt.value
    else if s.createdAt.Some? && s.createdAt.value != 0 then s.createdAt.value
    else now
  }

  predicate Stale(s: Snapshot, maxAge: int, now: int) {
    !Terminal(s.status) && now - Since(s, now) >= maxAge
  }

  datatype Finding = Finding(executionId: string, status: Status, age: int, dryRun: bool)

  function FindingOf(s: Snapshot, now: int, dryRun: bool): Finding {
    Finding(s.executionId, s.status, now - Since(s, now), dryRun)
  }

  function StaleMessage(s: Snapshot, now: int): string {
    "recovered as stale after " + Str(now - Since(s, now)) + "s without terminal state"
  }

  /** One finding for each stale execution of the ones looked at, and no other. */
  ghost predicate Reports(findings: seq<Finding>, items: Executions, done: set<string>, maxAge: int, now: int, dryRun: bool)
    requires done <= items.Keys
  {
    forall f {:trigger Found(items, done, maxAge, now, dryRun, f)} :: f in findings <==> Found(items, done, maxAge, now, dryRun, f)
  }

  predicate Found(items: Executions, done: set<string>, maxAge: int, now: int, dryRun: bool, f: Finding)
    requires done <= items.Keys
  {
    exists id :: id in done && Stale(items[id], maxAge, now) && f == FindingOf(items[id], now, dryRun)
  }

  lemma ReportNext(findings: seq<Finding>, items: Executions, done: set<string>, maxAge: int, now: int, dryRun: bool, id: string)
    requires done <= items.Keys && id in items && Reports(findings, items, done, maxAge, now, dryRun)
    ensures var next := if Stale(items[id], maxAge, now) then findings + [FindingOf(items[id], now, dryRun)] else findings;
            Reports(next, items, done + {id}, maxAge, now, dryRun)
  {
    var next := if Stale(items[id], maxAge, now) then findings + [FindingOf(items[id], now, dryRun)] else findings;
    forall f
      ensures f in next <==> Found(items, done + {id}, maxAge, now, dryRun, f)
    {
      assert f in findings <==> Found(items, done, maxAge, now, dryRun, f);
      assert f == FindingOf(items[id], now, dryRun) && Stale(items[id], maxAge, now) ==> id in done + {id};
    }
  }

  /** What recovery makes of a stale record. */
  function Failing(s: Snapshot, scrub: string -> string, now: int): Snapshot {
    var blamed := WithError(s, scrub, StaleMessage(s, now));
    if Allowed(s.status, Failed) then Advance(blamed, Failed, now) else blamed
  }

  lemma StaleFails(executions: Executions, id: string, scrub: string -> string, maxAge: int, now: int)
    requires id in executions && Stale(executions[id], maxAge, now)
    ensures AfterFail(executions, id, scrub, StaleMessage(executions[id], now), now)
         == executions[id := Failing(executions[id], scrub, now)]
  {
  }

  /** One execution after recovery has looked at those in `done`. */
  predicate RecoveredAt(items: Executions, done: set<string>, scrub: string -> string, maxAge: int, now: int,
                        after: Executions, id: string)
  {
    && (id in after <==> id in items)
    && (id in items ==>
          after[id] == if id in done && Stale(items[id], maxAge, now) then Failing(items[id], scrub, now) else items[id])
  }

  ghost predicate Recovered(items: Executions, done: set<string>, scrub: string -> string, maxAge: int, now: int, after: Executions) {
    forall id {:trigger RecoveredAt(items, done, scrub, maxAge, now, after, id)} ::
      RecoveredAt(items, done, scrub, maxAge, now, after, id)
  }

  /** A stale record ends unless it is still queued: the table has no edge from the queue to
      failure, so a queued one is only given an error, and stays queued. */
  lemma RecoveryEndsAllButQueued(s: Snapshot, scrub: string -> string, maxAge: int, now: int)
    requires WellFormed(s) && Stale(s, maxAge, now)
    ensures Terminal(Failing(s, scrub, now).status) <==> !s.status.Queued?
    ensures s.status.Queued? ==> CoreOf(Failing(s, scrub, now)) == CoreOf(s) && Failing(s, scrub, now).error.Some?
  {
    LegalStatus(s);
  }

  lemma RecoverNext(items: Executions, done: set<string>, scrub: string -> string, maxAge: int, now: int, a: Executions, id: string)
    requires id in items && id !in done && Recovered(items, done, scrub, maxAge, now, a)
    ensures id in a && a[id] == items[id]
    ensures var b := if Stale(items[id], maxAge, now) then a[id := Failing(items[id], scrub, now)] else a;
            Recovered(items, done + {id}, scrub, maxAge, now, b)
  {
    assert RecoveredAt(items, done, scrub, maxAge, now, a, id);
    var b := if Stale(items[id], maxAge, now) then a[id := Failing(items[id], scrub, now)] else a;
    forall x
      ensures RecoveredAt(items, done + {id}, scrub, maxAge, now, b, x)
    {
      assert RecoveredAt(items, done, scrub, maxAge, now, a, x);
    }
  }

  lemma LeftOver(all: set<string>, pending: set<string>, id: string)
    requires pending <= all && id in pending
    ensures all - (pending - {id}) == all - pending + {id}
  {
  }

  lemma CrashedSplits(fate: nat -> Fate, a: nat, b: nat, c: nat)
    requires a <= b <= c
    ensures CrashedIn(fate, a, c) <==> CrashedIn(fate, a, b) || CrashedIn(fate, b, c)
  {
  }

  /** The log and the number of persists at some moment. */
  datatype Progress = Progress(events: seq<Event>, persists: nat)

  /** Every persist goes with the two events of one transition. */
  predicate Counted(durable: bool, events: int, events': int, persists: nat, persists': nat) {
    persists <= persists' && if durable then events' == events + 2 * (persists' - persists) else persists' == persists
  }

  /* ---------- the log as the journal of persists ---------- */

  predicate Tells(e: Event) { e.kind.ExecutionCreated? || e.kind.StateChanged? }

  /** How many status events there are: a durable store persists once for each. */
  function Tellings(events: seq<Event>): nat {
    if events == [] then 0 else Tellings(events[..|events| - 1]) + if Tells(events[|events| - 1]) then 1 else 0
  }

  /** The last persist of the execution in this process, if there was one, got to disk. */
  predicate Landed(events: seq<Event>, since: nat, fate: nat -> Fate, id: string) {
    if events == [] then true
    else
      var init, last := events[..|events| - 1], events[|events| - 1];
      if TellsStatus(last, id) then Lands(fate(since + Tellings(init))) else Landed(init, since, fate, id)
  }

  predicate SyncedAt(events: seq<Event>, since: nat, fate: nat -> Fate, synced: set<string>, id: string) {
    id in synced <==> Landed(events, since, fate, id)
  }

  /** Of the executions in memory, exactly those whose last persist landed are in sync with their
      records on disk. */
  ghost predicate JournalOk(events: seq<Event>, since: nat, persists: nat, fate: nat -> Fate, executions: Executions, synced: set<string>) {
    && persists == since + Tellings(events)
    && forall id {:trigger SyncedAt(events, since, fate, synced, id)} :: id in executions ==> SyncedAt(events, since, fate, synced, id)
  }

  /** All of these persists got to disk. */
  ghost predicate AllLand(fate: nat -> Fate, first: nat, next: nat) {
    forall n {:trigger fate(n)} :: first <= n < next ==> Lands(fate(n))
  }

  lemma TellingsGrow(events: seq<Event>, e: Event)
    ensures Tellings(events + [e]) == Tellings(events) + if Tells(e) then 1 else 0
  {
    assert (events + [e])[..|events|] == events;
  }

  lemma LandedGrows(events: seq<Event>, e: Event, since: nat, fate: nat -> Fate, id: string)
    ensures Landed(events + [e], since, fate, id) ==
            if TellsStatus(e, id) then Lands(fate(since + Tellings(events))) else Landed(events, since, fate, id)
  {
    assert (events + [e])[..|events|] == events;
  }

  lemma NewJournal(persists: nat, fate: nat -> Fate, executions: Executions)
    ensures JournalOk([], persists, persists, fate, executions, executions.Keys)
  {
    forall id | id in executions
      ensures SyncedAt([], persists, fate, executions.Keys, id)
    {
    }
  }

  lemma QuietEventKeepsJournal(events: seq<Event>, since: nat, persists: nat, fate: nat -> Fate, executions: Executions,
                               synced: set<string>, e: Event)
    requires JournalOk(events, since, persists, fate, executions, synced) && !Tells(e)
    ensures JournalOk(events + [e], since, persists, fate, executions, synced)
  {
    TellingsGrow(events, e);
    forall id | id in executions
      ensures SyncedAt(events + [e], since, fate, synced, id)
    {
      LandedGrows(events, e, since, fate, id);
      assert SyncedAt(events, since, fate, synced, id);
    }
  }

  /** A status event goes with the next persist. */
  lemma PersistKeepsJournal(events: seq<Event>, since: nat, persists: nat, fate: nat -> Fate, executions: Executions,
                            synced: set<string>, rec: Snapshot, e: Event)
    requires JournalOk(events, since, persists, fate, executions, synced) && TellsStatus(e, rec.executionId)
    ensures var id := rec.executionId;
            JournalOk(events + [e], since, persists + 1, fate, executions[id := rec],
                      if Lands(fate(persists)) then synced + {id} else synced - {id})
  {
    var id := rec.executionId;
    var synced' := if Lands(fate(persists)) then synced + {id} else synced - {id};
    TellingsGrow(events, e);
    forall x | x in executions[id := rec]
      ensures SyncedAt(events + [e], since, fate, synced', x)
    {
      LandedGrows(events, e, since, fate, x);
      assert x in executions ==> SyncedAt(events, since, fate, synced, x);
    }
  }

  lemma MoveKeepsJournal(events: seq<Event>, since: nat, persists: nat, fate: nat -> Fate, executions: Executions,
                         synced: set<string>, id: string, target: Status, now: int, seqNo: nat)
    requires JournalOk(events, since, persists, fate, executions, synced) && Moves(executions, id, target)
    requires executions[id].executionId == id
    ensures JournalOk(events + EventsOf(executions, id, target, seqNo), since, persists + 1, fate,
                      Settled(executions, id, TransitionOutcome(executions, id, target, now)),
                      if Lands(fate(persists)) then synced + {id} else synced - {id})
  {
    var rec := executions[id];
    var told := TransitionEvents(rec, target, seqNo);
    QuietEventKeepsJournal(events, since, persists, fate, executions, synced, told[0]);
    PersistKeepsJournal(events + [told[0]], since, persists, fate, executions, synced, Advance(rec, target, now), told[1]);
    assert events + told == (events + [told[0]]) + [told[1]];
  }

  /** As long as persists land, all that was in sync stays in sync, and all that is new is. */
  lemma {:induction false} LandingSyncs(events: seq<Event>, more: seq<Event>, since: nat, fate: nat -> Fate, id: string)
    requires AllLand(fate, since + Tellings(events), since + Tellings(events + more)) && Landed(events, since, fate, id)
    ensures Landed(events + more, since, fate, id)
    decreases |more|
  {
    if more == [] {
      assert events + more == events;
    } else {
      var init, last := more[..|more| - 1], more[|more| - 1];
      assert events + more == (events + init) + [last];
      TellingsGrow(events + init, last);
      LandedGrows(events + init, last, since, fate, id);
      TellingsIncrease(events, init);
      LandingSyncs(events, init, since, fate, id);
    }
  }

  lemma {:induction false} TellingsIncrease(events: seq<Event>, more: seq<Event>)
    ensures Tellings(events) <= Tellings(events + more)
    decreases |more|
  {
    if more == [] {
      assert events + more == events;
    } else {
      var init, last := more[..|more| - 1], more[|more| - 1];
      assert events + more == (events + init) + [last];
      TellingsIncrease(events, init);
      TellingsGrow(events + init, last);
    }
  }

  /** An execution the log does not tell of has nothing to land. */
  lemma {:induction false} UntoldLands(events: seq<Event>, since: nat, fate: nat -> Fate, id: string)
    requires Trail(events, id) == []
    ensures Landed(events, since, fate, id)
  {
    if events != [] {
      UntoldLands(events[..|events| - 1], since, fate, id);
    }
  }

  /** What one persist does: the redacted record is on disk, and in sync, or it is as it was. */
  predicate Persisted(p: Redaction.Patterns, f: Fate, snap: Snapshot, files: Files, synced: set<string>, files': Files, synced': set<string>) {
    var id := snap.executionId;
    && synced' == (if Lands(f) then synced + {id} else synced)
    && if Lands(f) then DataName(id) in files' && files'[DataName(id)] == Record(Redacted(p, snap))
       else
         SameFile(files, files', DataName(id))
  }

  lemma PersistFollows(p: Redaction.Patterns, f: Fate, snap: Snapshot, files: Files, synced: set<string>, executions: Executions,
                       files': Files, synced': set<string>)
    requires snap.executionId in executions && executions[snap.executionId] == snap
    requires Persisted(p, f, snap, files, synced - {snap.executionId}, files', synced') && OnlyRecordOf(files, files', snap.executionId)
    ensures DiskFollows(p, true, f, files, synced, executions, snap.executionId, true, files', synced')
  {
  }

  /** What one operation, on one execution, does to the disk: nothing when no persist goes with
      it; otherwise only the files of this execution are touched, and it is in sync, and the
      redacted record on disk, exactly when the persist lands. */
  ghost predicate DiskFollows(p: Redaction.Patterns, durable: bool, f: Fate, files: Files, synced: set<string>,
                              executions: Executions, id: string, moved: bool, files': Files, synced': set<string>)
  {
    if !moved || !durable then files' == files && synced' == synced
    else
      && id in executions && OnlyRecordOf(files, files', id)
      && synced' == (if Lands(f) then synced + {id} else synced - {id})
      && if Lands(f) then DataName(id) in files' && files'[DataName(id)] == Record(Redacted(p, executions[id]))
         else
           SameFile(files, files', DataName(id))
  }

  /** A persist that lands makes the record on disk the one in memory; any other change unmakes it. */
  predicate IntactFollows(durable: bool, f: Fate, intact: set<string>, executions: Executions, executions': Executions, id: string,
                          moved: bool, intact': set<string>)
  {
    intact' == if moved && durable then (if Lands(f) then intact + {id} else intact - {id})
               else if executions' == executions then intact else intact - {id}
  }

  /** In one process life the log is only added to, and the history an execution was loaded with
      stays what it was. */
  ghost predicate LogKept(events: seq<Event>, base: map<string, seq<Status>>, events': seq<Event>, base': map<string, seq<Status>>) {
    && events <= events' && base.Keys <= base'.Keys
    && forall id {:trigger BaseKept(base, base', id)} :: id in base' ==> BaseKept(base, base', id)
  }

  predicate BaseKept(base: map<string, seq<Status>>, base': map<string, seq<Status>>, id: string)
    requires id in base'
  {
    base'[id] == if id in base then base[id] else []
  }

  /** When every persist of a stretch lands, everything stays in sync with the disk. */
  ghost predicate StaysSynced(fate: nat -> Fate, first: nat, next: nat, executions: Executions, synced: set<string>,
                              executions': Executions, synced': set<string>)
  {
    AllLand(fate, first, next) && synced == executions.Keys ==> synced' == executions'.Keys
  }

  lemma SyncStays(events: seq<Event>, seqNo: nat, base: map<string, seq<Status>>, events': seq<Event>, since: nat, persists: nat,
                  persists': nat, fate: nat -> Fate, executions: Executions, synced: set<string>,
                  executions': Executions, synced': set<string>)
    requires LogOk(events, seqNo, executions, base) && JournalOk(events, since, persists, fate, executions, synced)
    requires JournalOk(events', since, persists', fate, executions', synced') && events <= events' && synced' <= executions'.Keys
    ensures StaysSynced(fate, persists, persists', executions, synced, executions', synced')
  {
    if AllLand(fate, persists, persists') && synced == executions.Keys {
      var more := events'[|events|..];
      assert events' == events + more;
      forall id | id in executions'
        ensures id in synced'
      {
        assert TellsHistory(events, executions, base, id) && SyncedAt(events', since, fate, synced', id);
        if id in executions {
          assert SyncedAt(events, since, fate, synced, id);
        } else {
          UntoldLands(events, since, fate, id);
        }
        LandingSyncs(events, more, since, fate, id);
      }
    }
  }

  class ExecutionObserverStore {
    var executions: Executions
    var events: seq<Event>
    var fleets: map<string, Fleet>
    var seqNo: nat
    var files: Files
    var persistFailures: nat
    /** How many persists were begun. */
    var persists: nat
    const durable: bool
    const patterns: Redaction.Patterns
    const fate: nat -> Fate
    ghost const ids: set<string>
    /** History each execution already had when this process loaded it. */
    ghost var base: map<string, seq<Status>>
    /** Executions whose last persist succeeded. */
    ghost var synced: set<string>
    /** Executions whose record on disk is the one in memory, scrubbed. */
    ghost var intact: set<string>
    /** How many persists were begun before this process. */
    ghost var since: nat

    /** Holds at every crash point, too: records are legal, and the disk is behind memory. */
    ghost predicate Consistent()
      reads this
    {
      && Distinct(ids) && "" !in ids && (forall id :: id in ids ==> patterns.scrub(id) == id)
      && RecordsOk(executions) && DiskOk(files, executions, ids, synced)
      && AllWhole(patterns, files, executions, intact) && (!durable ==> files == map[] && synced == {} && intact == {})
    }

    ghost predicate Valid()
      reads this
    {
      Settling() && (durable ==> JournalOk(events, since, persists, fate, executions, synced))
    }

    /** Holds when memory and log agree, also while a persist is still to come. */
    ghost predicate Settling()
      reads this
    {
      Consistent() && LogOk(events, seqNo, executions, base)
    }

    constructor (durable: bool, patterns: Redaction.Patterns, fate: nat -> Fate, ghost ids: set<string>)
      requires Distinct(ids) && "" !in ids && forall id :: id in ids ==> patterns.scrub(id) == id
      ensures Valid() && executions == map[] && events == [] && fleets == map[] && persists == 0
      ensures this.ids == ids && this.patterns == patterns && this.durable == durable && this.fate == fate
    {
      this.durable, this.patterns, this.fate, this.ids := durable, patterns, fate, ids;
      executions, events, fleets, seqNo, files, persistFailures, persists := map[], [], map[], 0, map[], 0, 0;
      base, synced, intact, since := map[], {}, {}, 0;
    }

    method EmitEvent(kind: EventKind, executionId: string, taskId: string, sessionId: string, status: Status)
      modifies this`events, this`seqNo
      ensures seqNo == old(seqNo) + 1
      ensures events == old(events) + [Event(kind, executionId, taskId, sessionId, None, status, seqNo)]
    {
      seqNo := seqNo + 1;
      events := events + [Event(kind, executionId, taskId, sessionId, None, status, seqNo)];
    }

    /** An event that reports no status of an execution. */
    method EmitQuietly(kind: EventKind, id: string, taskId: string, sessionId: string, status: Status)
      requires Valid() && !kind.ExecutionCreated? && !kind.StateChanged?
      modifies this`events, this`seqNo
      ensures Valid() && events == old(events) + [Event(kind, id, taskId, sessionId, None, status, seqNo)]
    {
      var e := Event(kind, id, taskId, sessionId, None, status, seqNo + 1);
      QuietEventKeepsLog(events, seqNo, executions, base, e);
      if durable {
        QuietEventKeepsJournal(events, since, persists, fate, executions, synced, e);
      }
      EmitEvent(kind, id, taskId, sessionId, status);
    }

    ghost predicate CrashedSince(start: Progress)
      reads this
    {
      CrashedIn(fate, start.persists, persists)
    }

    predicate CountedSince(start: Progress)
      reads this
    {
      start.events <= events && Counted(durable, |start.events|, |events|, start.persists, persists)
    }

    /** The temporary file is written; a failure or a crash can leave a torn one, or none. */
    method WriteTemporary(snap: Snapshot, f: Fate) returns (written: bool)
      requires Consistent() && durable && snap.executionId in executions
      modifies this`files
      ensures Consistent() && DiskGrows(old(files), files, ids) && OnlyRecordOf(old(files), files, snap.executionId)
      ensures OnlyTouched(old(files), files, TmpName(snap.executionId))
      ensures written <==> !f.WriteFails? && !f.CrashWriting?
      ensures written ==>
                TmpName(snap.executionId) in files && files[TmpName(snap.executionId)] == Record(Redacted(patterns, snap))
    {
      var id := snap.executionId;
      if f.WriteFails? || f.CrashWriting? {
        if f.torn {
          TmpKeepsDisk(files, executions, ids, synced, id, Torn);
          TmpKeepsWhole(patterns, files, executions, ids, intact, id, Torn);
          files := files[TmpName(id) := Torn];
        }
        return false;
      }
      TmpKeepsDisk(files, executions, ids, synced, id, Record(Redacted(patterns, snap)));
      TmpKeepsWhole(patterns, files, executions, ids, intact, id, Record(Redacted(patterns, snap)));
      var clean := Scrubbed(snap);
      files := files[TmpName(id) := Record(clean)];
      return true;
    }

    /** The record as it is written: every text scrubbed, the metadata redacted. */
    method Scrubbed(s: Snapshot) returns (clean: Snapshot)
      ensures clean == Redacted(patterns, s)
    {
      var agentId: Option<string>, error: Option<string>, result: Option<string> := None, None, None;
      if s.agentId.Some? {
        agentId := Some(patterns.scrub(s.agentId.value));
      }
      if s.error.Some? {
        error := Some(patterns.scrub(s.error.value));
      }
      if s.result.Some? {
        result := Some(patterns.scrub(s.result.value));
      }
      clean := Snapshot(patterns.scrub(s.executionId), patterns.scrub(s.taskId), patterns.scrub(s.sessionId), agentId, s.status,
                        s.createdAt, s.startedAt, s.finishedAt, error, result, Redaction.RedactTexts(patterns, s.metadata),
                        s.history, s.cancelRequested);
    }

    /** The temporary file takes the place of the record, all at once or not at all. */
    method ReplaceRecord(snap: Snapshot, f: Fate)
      requires Consistent() && durable
      requires snap.executionId in executions && snap == executions[snap.executionId]
      requires TmpName(snap.executionId) in files && files[TmpName(snap.executionId)] == Record(Redacted(patterns, snap))
      modifies this`files, this`synced, this`intact
      ensures intact == if Lands(f) then old(intact) + {snap.executionId} else old(intact)
      ensures Consistent() && DiskGrows(old(files), files, ids) && OnlyRecordOf(old(files), files, snap.executionId)
      ensures synced == if Lands(f) then old(synced) + {snap.executionId} else old(synced)
      ensures Lands(f) ==>
                DataName(snap.executionId) in files && files[DataName(snap.executionId)] == Record(Redacted(patterns, snap))
      ensures !Lands(f) ==> files == old(files)
    {
      var id := snap.executionId;
      if !Lands(f) {
        return;
      }
      assert RecordOk(executions, id);
      RedactionKeepsCore(patterns, executions[id], snap);
      NamesApart(id, id);
      ReplaceKeepsDisk(files, executions, ids, synced, id, Redacted(patterns, snap));
      ReplaceKeepsWhole(patterns, files, executions, ids, intact, id);
      files := files[DataName(id) := files[TmpName(id)]] - {TmpName(id)};
      synced, intact := synced + {id}, intact + {id};
    }

    /** `_persist_execution`: write a temporary file, then let it replace the record. Either
        step can fail, which is only counted, and a crash can come before, between or after. */
    method Persist(snap: Snapshot) returns (crashed: bool)
      requires Consistent() && snap.executionId in executions && snap == executions[snap.executionId]
      modifies this`files, this`synced, this`intact, this`persistFailures, this`persists
      ensures Consistent() && DiskGrows(old(files), files, ids) && OnlyRecordOf(old(files), files, snap.executionId)
      ensures persists == old(persists) + if durable then 1 else 0
      ensures crashed == CrashedIn(fate, old(persists), persists)
      ensures !durable ==> files == old(files) && synced == old(synced) && persistFailures == old(persistFailures)
      ensures durable ==> Persisted(patterns, fate(old(persists)), snap, old(files), old(synced), files, synced)
      ensures intact == if durable && Lands(fate(old(persists))) then old(intact) + {snap.executionId} else old(intact)
      ensures durable ==>
                var f := fate(old(persists));
                persistFailures == if f.Fine? then 0 else if Crashes(f) then old(persistFailures) else old(persistFailures) + 1
    {
      if !durable {
        return false;
      }
      var f := fate(persists);
      persists := persists + 1;
      NamesApart(snap.executionId, snap.executionId);
      var written := WriteTemporary(snap, f);
      ghost var between := files;
      assert SameFile(old(files), between, DataName(snap.executionId));
      if written {
        ReplaceRecord(snap, f);
        DiskGrowsTransitive(old(files), between, files, ids);
        OnlyRecordTransitive(old(files), between, files, snap.executionId);
      }
      if Crashes(f) {
        return true;
      }
      persistFailures := if f.Fine? then 0 else persistFailures + 1;
      return false;
    }

    /** `upsert_execution` for a record that is new here. */
    method AddExecution(snap: Snapshot) returns (crashed: bool)
      requires Consistent() && WellFormed(snap) && snap.executionId in ids && snap.executionId !in executions
      modifies this`executions, this`base, this`files, this`synced, this`intact, this`persistFailures, this`persists
      ensures Consistent() && executions == old(executions)[snap.executionId := snap] && DiskGrows(old(files), files, ids)
      ensures base == old(base)[snap.executionId := []]
      ensures persists == old(persists) + if durable then 1 else 0
      ensures crashed == CrashedIn(fate, old(persists), persists)
      ensures DiskFollows(patterns, durable, fate(old(persists)), old(files), old(synced), executions, snap.executionId, true, files, synced)
      ensures IntactFollows(durable, fate(old(persists)), old(intact), old(executions), executions, snap.executionId, true, intact)
    {
      MemoryKeepsDisk(files, executions, ids, synced, snap);
      MemoryKeepsWhole(patterns, files, executions, intact, snap.executionId, snap);
      assert Whole(patterns, files, executions, snap.executionId) ==> snap.executionId in executions;
      assert intact - {snap.executionId} == intact;
      AdditionKeepsRecords(executions, snap);
      executions, base := executions[snap.executionId := snap], base[snap.executionId := []];
      crashed := Persist(snap);
      if durable {
        assert old(synced) - {snap.executionId} == old(synced);
        PersistFollows(patterns, fate(old(persists)), snap, old(files), old(synced), executions, files, synced);
      }
    }

    /** `create_execution` under a fresh id. The record is stored before the event is logged, so
        a crash in between keeps the record and loses only the log of the dying process. */
    method CreateExecution(id: string, taskId: string, sessionId: string, agentId: Option<string>,
                           metadata: map<string, string>, now: int) returns (out: Outcome)
      requires Valid() && id in ids && id !in executions
      modifies this`executions, this`events, this`seqNo, this`base, this`files, this`synced, this`intact, this`persistFailures, this`persists
      ensures Consistent() && (!out.Crashed? ==> Valid())
      ensures persists == old(persists) + if durable then 1 else 0
      ensures var snap := Fresh(id, taskId, sessionId, agentId, Redaction.RedactTexts(patterns, metadata), now);
              && executions == old(executions)[id := snap] && out == Reported(Done(snap), CrashedIn(fate, old(persists), persists))
              && events == (if out.Crashed? then old(events) else old(events) + [EventFor(ExecutionCreated, snap, Queued, old(seqNo) + 1)])
      ensures base == old(base)[id := []]
      ensures Evolves(old(executions), executions) && DiskGrows(old(files), files, ids)
      ensures DiskFollows(patterns, durable, fate(old(persists)), old(files), old(synced), executions, id, true, files, synced)
      ensures IntactFollows(durable, fate(old(persists)), old(intact), old(executions), executions, id, true, intact)
    {
      var clean := Redaction.RedactTexts(patterns, metadata);
      FreshIsWellFormed(id, taskId, sessionId, agentId, clean, now);
      var snap := Snapshot(id, taskId, sessionId, agentId, Queued, Some(now), None, None, None, None, clean, [Queued], false);
      var crashed := AddAndTell(snap);
      return if crashed then Crashed else Done(snap);
    }

    method AddAndTell(snap: Snapshot) returns (crashed: bool)
      requires Valid() && WellFormed(snap) && snap.history == [Queued] && snap.executionId in ids && snap.executionId !in executions
      modifies this`executions, this`events, this`seqNo, this`base, this`files, this`synced, this`intact, this`persistFailures, this`persists
      ensures Consistent() && (!crashed ==> Valid()) && DiskGrows(old(files), files, ids)
      ensures persists == old(persists) + if durable then 1 else 0
      ensures crashed == CrashedIn(fate, old(persists), persists)
      ensures executions == old(executions)[snap.executionId := snap] && base == old(base)[snap.executionId := []]
      ensures events == old(events) + if crashed then [] else [EventFor(ExecutionCreated, snap, Queued, old(seqNo) + 1)]
      ensures DiskFollows(patterns, durable, fate(old(persists)), old(files), old(synced), executions, snap.executionId, true, files, synced)
      ensures IntactFollows(durable, fate(old(persists)), old(intact), old(executions), executions, snap.executionId, true, intact)
    {
      CreateKeepsLog(executions, events, seqNo, base, snap);
      if durable {
        PersistKeepsJournal(events, since, persists, fate, executions, synced, snap, EventFor(ExecutionCreated, snap, Queued, seqNo + 1));
      }
      crashed := AddExecution(snap);
      if !crashed {
        EmitEvent(ExecutionCreated, snap.executionId, snap.taskId, snap.sessionId, Queued);
      }
    }

    /** `_transition` of the store proper: the table decides, memory and log follow. */
    method TransitionInMemory(id: string, target: Status, now: int) returns (out: Outcome)
      requires Valid()
      modifies this`executions, this`events, this`seqNo, this`synced, this`intact
      ensures Settling() && !out.Crashed? && (!out.Done? ==> Valid()) && Evolves(old(executions), executions)
      ensures out == TransitionOutcome(old(executions), id, target, now)
      ensures executions == Settled(old(executions), id, out)
      ensures events == old(events) + EventsOf(old(executions), id, target, old(seqNo))
      ensures synced == if out.Done? then old(synced) - {id} else old(synced)
      ensures intact == if out.Done? then old(intact) - {id} else old(intact)
    {
      if id !in executions {
        return UnknownExecution;
      }
      var rec := executions[id];
      assert RecordOk(executions, id);
      LifecycleIsTable(rec.status, target);
      if rec.status !in TRANSITIONS || target !in TRANSITIONS[rec.status] {
        return InvalidTransition(rec.status, target);
      }
      MoveOn(id, target, now);
      return Done(executions[id]);
    }

    /** An allowed transition in memory and in the log. */
    method MoveOn(id: string, target: Status, now: int)
      requires Settling() && Moves(executions, id, target)
      modifies this`executions, this`events, this`seqNo, this`synced, this`intact
      ensures Settling() && Evolves(old(executions), executions)
      ensures executions == old(executions)[id := Advance(old(executions)[id], target, now)]
      ensures synced == old(synced) - {id} && intact == old(intact) - {id}
      ensures events == old(events) + TransitionEvents(old(executions)[id], target, old(seqNo))
    {
      var rec := executions[id];
      AdvanceKeepsStore(executions, events, seqNo, base, files, ids, synced, id, target, now);
      var updated := Moved(rec, target, now);
      MemoryKeepsWhole(patterns, files, executions, intact, id, updated);
      executions, synced, intact := executions[id := updated], synced - {id}, intact - {id};
      EmitTransition(rec, target);
    }

    /** The updated record, field by field. */
    method Moved(rec: Snapshot, target: Status, now: int) returns (updated: Snapshot)
      ensures updated == Advance(rec, target, now)
    {
      LifecycleIsTable(target, target);
      var startedAt, finishedAt, cancelRequested := rec.startedAt, rec.finishedAt, rec.cancelRequested;
      if target == Running && startedAt == None {
        startedAt := Some(now);
      }
      if target in TERMINAL {
        finishedAt := Some(now);
      }
      if target == Cancelled {
        cancelRequested := true;
      }
      updated := Snapshot(rec.executionId, rec.taskId, rec.sessionId, rec.agentId, target, rec.createdAt, startedAt, finishedAt,
                          rec.error, rec.result, rec.metadata, rec.history + [target], cancelRequested);
    }

    method EmitTransition(rec: Snapshot, target: Status)
      modifies this`events, this`seqNo
      ensures events == old(events) + TransitionEvents(rec, target, old(seqNo)) && seqNo == old(seqNo) + 2
    {
      var kind := StateChanged;
      match target {
        case Running => kind := ExecutionStarted;
        case Paused => kind := ExecutionPaused;
        case Succeeded => kind := ExecutionCompleted;
        case Failed => kind := ExecutionFailed;
        case Cancelled => kind := ExecutionCancelled;
        case _ =>
      }
      if rec.status == Paused && target == Running {
        kind := ExecutionResumed;
      }
      EmitEvent(kind, rec.executionId, rec.taskId, rec.sessionId, target);
      EmitEvent(StateChanged, rec.executionId, rec.taskId, rec.sessionId, target);
      assert events == old(events) + TransitionEvents(rec, target, old(seqNo));
    }

    /** The durable `_transition` around it: persist what changed. */
    method Transition(id: string, target: Status, now: int) returns (out: Outcome)
      requires Valid()
      modifies this`executions, this`events, this`seqNo, this`files, this`synced, this`intact, this`persistFailures, this`persists
      ensures Valid() && Evolves(old(executions), executions) && DiskGrows(old(files), files, ids)
      ensures out == Reported(TransitionOutcome(old(executions), id, target, now), CrashedIn(fate, old(persists), persists))
      ensures executions == Settled(old(executions), id, TransitionOutcome(old(executions), id, target, now))
      ensures persists == old(persists) + Writes(durable, old(executions), id, target)
      ensures events == old(events) + EventsOf(old(executions), id, target, old(seqNo))
      ensures DiskFollows(patterns, durable, fate(old(persists)), old(files), old(synced), executions, id,
                          Moves(old(executions), id, target), files, synced)
      ensures IntactFollows(durable, fate(old(persists)), old(intact), old(executions), executions, id,
                            Moves(old(executions), id, target), intact)
    {
      assert id in executions ==> RecordOk(executions, id);
      out := TransitionInMemory(id, target, now);
      if out.Done? {
        if durable {
          MoveKeepsJournal(old(events), since, persists, fate, old(executions), old(synced), id, target, now, old(seqNo));
        }
        var crashed := PersistMoved(id, old(synced), old(intact));
        if crashed {
          out := Crashed;
        }
      }
    }

    /** The persist of a record that has just moved on in memory. */
    method PersistMoved(id: string, ghost before: set<string>, ghost whole: set<string>) returns (crashed: bool)
      requires Settling() && id in executions && synced == before - {id} && (!durable ==> before == {} && whole == {})
      requires intact == whole - {id}
      requires durable ==> JournalOk(events, since, persists + 1, fate, executions, if Lands(fate(persists)) then before + {id} else before - {id})
      modifies this`files, this`synced, this`intact, this`persistFailures, this`persists
      ensures Valid() && DiskGrows(old(files), files, ids) && persists == old(persists) + if durable then 1 else 0
      ensures crashed == CrashedIn(fate, old(persists), persists)
      ensures DiskFollows(patterns, durable, fate(old(persists)), old(files), before, executions, id, true, files, synced)
      ensures intact == if durable && Lands(fate(old(persists))) then whole + {id} else whole - {id}
    {
      assert RecordOk(executions, id);
      var snap := executions[id];
      crashed := Persist(snap);
      if durable {
        PersistFollows(patterns, fate(old(persists)), snap, old(files), before, executions, files, synced);
      }
    }

    /** Put back a record whose payload fields were changed in place; nothing is persisted. */
    method Overwrite(rec: Snapshot)
      requires Valid() && rec.executionId in executions && CoreOf(rec) == CoreOf(executions[rec.executionId])
      modifies this`executions, this`intact
      ensures Valid() && Evolves(old(executions), executions)
      ensures executions == old(executions)[rec.executionId := rec]
      ensures intact == if executions == old(executions) then old(intact) else old(intact) - {rec.executionId}
    {
      assert RecordOk(executions, rec.executionId);
      assert rec.executionId in ids;
      MemoryKeepsDisk(files, executions, ids, synced, rec);
      AdditionKeepsRecords(executions, rec);
      PayloadKeepsLog(executions, events, seqNo, base, rec);
      MemoryKeepsWhole(patterns, files, executions, intact, rec.executionId, rec);
      assert executions[rec.executionId] == rec ==> executions[rec.executionId := rec] == executions;
      if executions[rec.executionId] != rec {
        intact := intact - {rec.executionId};
      }
      executions := executions[rec.executionId := rec];
    }

    method Start(id: string, now: int) returns (out: Outcome)
      requires Valid()
      modifies this`executions, this`events, this`seqNo, this`files, this`synced, this`intact, this`persistFailures, this`persists
      ensures Valid() && Evolves(old(executions), executions) && DiskGrows(old(files), files, ids)
      ensures out == Reported(TransitionOutcome(old(executions), id, Running, now), CrashedIn(fate, old(persists), persists))
      ensures persists == old(persists) + Writes(durable, old(executions), id, Running)
      ensures executions == Settled(old(executions), id, TransitionOutcome(old(executions), id, Running, now))
      ensures events == old(events) + EventsOf(old(executions), id, Running, old(seqNo))
      ensures DiskFollows(patterns, durable, fate(old(persists)), old(files), old(synced), executions, id,
                          Moves(old(executions), id, Running), files, synced)
      ensures IntactFollows(durable, fate(old(persists)), old(intact), old(executions), executions, id,
                            Moves(old(executions), id, Running), intact)
    {
      out := Transition(id, Running, now);
    }

    method Pause(id: string, now: int) returns (out: Outcome)
      requires Valid()
      modifies this`executions, this`events, this`seqNo, this`files, this`synced, this`intact, this`persistFailures, this`persists
      ensures Valid() && Evolves(old(executions), executions) && DiskGrows(old(files), files, ids)
      ensures out == Reported(TransitionOutcome(old(executions), id, Paused, now), CrashedIn(fate, old(persists), persists))
      ensures persists == old(persists) + Writes(durable, old(executions), id, Paused)
      ensures executions == Settled(old(executions), id, TransitionOutcome(old(executions), id, Paused, now))
      ensures events == old(events) + EventsOf(old(executions), id, Paused, old(seqNo))
      ensures DiskFollows(patterns, durable, fate(old(persists)), old(files), old(synced), executions, id,
                          Moves(old(executions), id, Paused), files, synced)
      ensures IntactFollows(durable, fate(old(persists)), old(intact), old(executions), executions, id,
                            Moves(old(executions), id, Paused), intact)
    {
      out := Transition(id, Paused, now);
    }

    /** `resume` asks for the same edge as `start`. */
    method Resume(id: string, now: int) returns (out: Outcome)
      requires Valid()
      modifies this`executions, this`events, this`seqNo, this`files, this`synced, this`intact, this`persistFailures, this`persists
      ensures Valid() && Evolves(old(executions), executions) && DiskGrows(old(files), files, ids)
      ensures out == Reported(TransitionOutcome(old(executions), id, Running, now), CrashedIn(fate, old(persists), persists))
      ensures persists == old(persists) + Writes(durable, old(executions), id, Running)
      ensures executions == Settled(old(executions), id, TransitionOutcome(old(executions), id, Running, now))
      ensures events == old(events) + EventsOf(old(executions), id, Running, old(seqNo))
      ensures DiskFollows(patterns, durable, fate(old(persists)), old(files), old(synced), executions, id,
                          Moves(old(executions), id, Running), files, synced)
      ensures IntactFollows(durable, fate(old(persists)), old(intact), old(executions), executions, id,
                            Moves(old(executions), id, Running), intact)
    {
      out := Transition(id, Running, now);
    }

    /** Cancelling ends every known execution; one that has ended is returned as it is. */
    method Cancel(id: string, now: int) returns (out: Outcome)
      requires Valid()
      modifies this`executions, this`events, this`seqNo, this`files, this`synced, this`intact, this`persistFailures, this`persists
      ensures Valid() && Evolves(old(executions), executions) && DiskGrows(old(files), files, ids)
      ensures out == Reported(CancelOutcome(old(executions), id, now), CrashedIn(fate, old(persists), persists))
      ensures persists == old(persists) + Writes(durable, old(executions), id, Cancelled)
      ensures executions == Settled(old(executions), id, CancelOutcome(old(executions), id, now))
      ensures out == UnknownExecution <==> id !in old(executions)
      ensures id in executions ==> Terminal(executions[id].status)
      ensures events == old(events) + EventsOf(old(executions), id, Cancelled, old(seqNo))
      ensures DiskFollows(patterns, durable, fate(old(persists)), old(files), old(synced), executions, id,
                          Moves(old(executions), id, Cancelled), files, synced)
      ensures IntactFollows(durable, fate(old(persists)), old(intact), old(executions), executions, id,
                            Moves(old(executions), id, Cancelled), intact)
    {
      if id !in executions {
        return UnknownExecution;
      }
      var rec := executions[id];
      if Terminal(rec.status) {
        return Done(rec);
      }
      assert RecordOk(executions, id);
      LegalStatus(rec);
      out := Transition(id, Cancelled, now);
    }

    /** The result is written before the table is asked, so it sticks even when the transition is
        refused. A record with a pending cancellation cannot be reached: `cancelRequested` comes
        only with the cancelled status itself. */
    method Complete(id: string, result: Option<string>, now: int) returns (out: Outcome)
      requires Valid()
      modifies this`executions, this`events, this`seqNo, this`files, this`synced, this`intact, this`persistFailures, this`persists
      ensures Valid() && Evolves(old(executions), executions) && DiskGrows(old(files), files, ids)
      ensures executions == AfterComplete(old(executions), id, patterns.scrub, result, now)
      ensures id !in old(executions) ==> out == UnknownExecution
      ensures id in old(executions) ==>
                var written := old(executions)[id := WithResult(old(executions)[id], patterns.scrub, result)];
                out == Reported(TransitionOutcome(written, id, Succeeded, now), CrashedIn(fate, old(persists), persists))
      ensures persists == old(persists) + Writes(durable, old(executions), id, Succeeded)
      ensures events == old(events) + EventsOf(old(executions), id, Succeeded, old(seqNo))
      ensures DiskFollows(patterns, durable, fate(old(persists)), old(files), old(synced), executions, id,
                          Moves(old(executions), id, Succeeded), files, synced)
      ensures IntactFollows(durable, fate(old(persists)), old(intact), old(executions), executions, id,
                            Moves(old(executions), id, Succeeded), intact)
    {
      if id !in executions {
        return UnknownExecution;
      }
      var rec := executions[id];
      assert RecordOk(executions, id);
      if rec.cancelRequested && !Terminal(rec.status) {
        assert false;
      }
      var clean := if result.Some? then Some(patterns.scrub(result.value)) else None;
      Overwrite(rec.(result := clean));
      ghost var before := executions;
      out := Transition(id, Succeeded, now);
      EvolvesTransitive(old(executions), before, executions);
    }

    /** The error is written first, even on a record that has ended. */
    method Fail(id: string, error: string, now: int) returns (out: Outcome)
      requires Valid()
      modifies this`executions, this`events, this`seqNo, this`files, this`synced, this`intact, this`persistFailures, this`persists
      ensures Valid() && Evolves(old(executions), executions) && DiskGrows(old(files), files, ids)
      ensures executions == AfterFail(old(executions), id, patterns.scrub, error, now)
      ensures id !in old(executions) ==> out == UnknownExecution
      ensures id in old(executions) ==>
                var written := old(executions)[id := WithError(old(executions)[id], patterns.scrub, error)];
                out == Reported(FailOutcome(written, id, now), CrashedIn(fate, old(persists), persists))
      ensures persists == old(persists) + Writes(durable, old(executions), id, Failed)
      ensures events == old(events) + EventsOf(old(executions), id, Failed, old(seqNo))
      ensures DiskFollows(patterns, durable, fate(old(persists)), old(files), old(synced), executions, id,
                          Moves(old(executions), id, Failed), files, synced)
      ensures IntactFollows(durable, fate(old(persists)), old(intact), old(executions), executions, id,
                            Moves(old(executions), id, Failed), intact)
    {
      if id !in executions {
        return UnknownExecution;
      }
      var rec := executions[id].(error := Some(patterns.scrub(error)));
      assert RecordOk(executions, id);
      Overwrite(rec);
      if Terminal(rec.status) {
        return Done(rec);
      }
      ghost var before := executions;
      out := Transition(id, Failed, now);
      EvolvesTransitive(old(executions), before, executions);
    }

    /** `list_events` with its filters and an optional limit, where zero means no limit and a
        negative one is ignored. Events are logged in the order of their numbers, so
        sorting them by number changes nothing. */
    method ListEvents(q: EventQuery, limit: Option<int>) returns (listed: seq<Event>)
      requires Valid()
      ensures var selected := Selected(events, q);
              listed == if limit.Some? && 0 < limit.value < |selected| then selected[|selected| - limit.value..] else selected
      ensures forall i, j :: 0 <= i < j < |listed| ==> listed[i].sequence < listed[j].sequence
    {
      SelectedInOrder(events, q);
      listed := [];
      for i := 0 to |events|
        invariant listed == Selected(events[..i], q)
      {
        assert events[..i + 1] == events[..i] + [events[i]];
        SelectedGrows(events[..i], events[i], q);
        var e := events[i];
        if (q.executionId == None || e.executionId == q.executionId.value) && (q.taskId == None || e.taskId == q.taskId.value)
           && (q.sessionId == None || e.sessionId == q.sessionId.value) && (q.workerId == None || e.workerId == q.workerId)
           && (q.kind == None || e.kind == q.kind.value) {
          listed := listed + [events[i]];
        }
      }
      assert events[..|events|] == events;
      if limit.Some? && 0 < limit.value < |listed| {
        listed := listed[|listed| - limit.value..];
      }
    }

    /** `upsert_fleet`: workers are stored in worker-id order. */
    method UpsertFleet(fleet: Fleet)
      modifies this`fleets
      ensures fleets == old(fleets)[fleet.taskId := fleet.(workers := Sorted(fleet.workers))]
    {
      fleets := fleets[fleet.taskId := Fleet(fleet.taskId, fleet.status, Sorted(fleet.workers))];
    }

    method CancelWorker(w: Worker, now: int) returns (w': Worker, crashed: bool)
      requires Valid()
      modifies this`executions, this`events, this`seqNo, this`files, this`synced, this`intact, this`persistFailures, this`persists
      ensures Valid() && Evolves(old(executions), executions) && DiskGrows(old(files), files, ids)
      ensures executions == CancelOne(w, old(executions), now)
      ensures !crashed ==> w' == AfterCancel(w, executions)
      ensures Live(w) && w.executionId in executions ==> Terminal(executions[w.executionId].status)
      ensures crashed == CrashedIn(fate, old(persists), persists) && Counted(durable, old(|events|), |events|, old(persists), persists)
      ensures old(events) <= events
      ensures executions.Keys == old(executions).Keys
    {
      w', crashed := w, false;
      if w.executionId != "" && !Terminal(w.status) {
        assert w.executionId in executions ==> RecordOk(executions, w.executionId);
        assert w.executionId in executions ==> Terminal(executions[w.executionId].status) || Allowed(executions[w.executionId].status, Cancelled) by {
          if w.executionId in executions {
            LegalStatus(executions[w.executionId]);
          }
        }
        var told := Cancel(w.executionId, now);
        if told.Crashed? {
          crashed := true;
          return;
        }
        var status := if told.Done? && w.executionId in executions then executions[w.executionId].status else Cancelled;
        w' := w.(status := status, cancellationState := Some(REQUESTED));
      }
    }

    /** The next worker of a fleet whose earlier workers are done. */
    method CancelNextWorker(ws: seq<Worker>, i: nat, now: int, ghost first: Executions, ghost disk: Files, ghost start: Progress)
      returns (w: Worker, crashed: bool)
      requires Valid() && i < |ws| && Evolves(first, executions) && DiskGrows(disk, files, ids)
      requires CancelledAll(first, ws[..i], now, executions) && LiveEnded(ws[..i], executions)
      requires !CrashedSince(start) && CountedSince(start)
      modifies this`executions, this`events, this`seqNo, this`files, this`synced, this`intact, this`persistFailures, this`persists
      ensures Valid() && Evolves(first, executions) && DiskGrows(disk, files, ids)
      ensures CancelledAll(first, ws[..i + 1], now, executions) && LiveEnded(ws[..i + 1], executions)
      ensures executions.Keys == old(executions).Keys
      ensures !crashed ==> AllAfterCancel(ws[..i + 1], executions) == AllAfterCancel(ws[..i], old(executions)) + [w]
      ensures crashed == CrashedSince(start) && CountedSince(start)
    {
      ghost var before, files', begun := executions, files, persists;
      w, crashed := CancelWorker(ws[i], now);
      CrashedSplits(fate, start.persists, begun, persists);
      CancelNext(first, ws, i, now, before);
      EvolvesTransitive(first, before, executions);
      DiskGrowsTransitive(disk, files', files, ids);
      EndedStay(ws[..i], before, executions);
      AfterNext(ws, i, executions);
    }

    method CancelWorkers(workers: seq<Worker>, now: int) returns (updated: seq<Worker>, crashed: bool)
      requires Valid()
      modifies this`executions, this`events, this`seqNo, this`files, this`synced, this`intact, this`persistFailures, this`persists
      ensures Valid() && Evolves(old(executions), executions) && DiskGrows(old(files), files, ids)
      ensures crashed == CrashedIn(fate, old(persists), persists) && Counted(durable, old(|events|), |events|, old(persists), persists)
      ensures old(events) <= events
      ensures executions.Keys == old(executions).Keys
      ensures !crashed ==>
                && LiveEnded(workers, executions) && CancelledAll(old(executions), workers, now, executions)
                && updated == AllAfterCancel(workers, executions)
    {
      ghost var start := Progress(events, persists);
      updated, crashed := [], false;
      for i := 0 to |workers|
        invariant Valid() && Evolves(old(executions), executions) && DiskGrows(old(files), files, ids)
        invariant !CrashedSince(start) && CountedSince(start) && executions.Keys == old(executions).Keys
        invariant CancelledAll(old(executions), workers[..i], now, executions)
        invariant LiveEnded(workers[..i], executions) && updated == AllAfterCancel(workers[..i], executions)
      {
        var w;
        w, crashed := CancelNextWorker(workers, i, now, old(executions), old(files), start);
        if crashed {
          return;
        }
        updated := updated + [w];
      }
      crashed := false;
      assert workers[..|workers|] == workers;
    }

    /** Cancels the executions of all live workers, and records what became of each worker. */
    method CancelFleet(taskId: string, now: int) returns (out: FleetOutcome)
      requires Valid()
      modifies this`executions, this`events, this`seqNo, this`files, this`synced, this`intact, this`persistFailures, this`persists, this`fleets
      ensures Valid() && Evolves(old(executions), executions) && DiskGrows(old(files), files, ids)
      ensures out.UnknownFleet? <==> taskId !in old(fleets)
      ensures out.UnknownFleet? ==> executions == old(executions) && events == old(events)
      ensures out.FleetDone? ==>
                var ws := old(fleets)[taskId].workers;
                && LiveEnded(ws, executions) && CancelledAll(old(executions), ws, now, executions)
                && out.fleet == Fleet(taskId, CancelStatus(AllAfterCancel(ws, executions)), AllAfterCancel(ws, executions))
                && fleets == old(fleets)[taskId := out.fleet.(workers := Sorted(out.fleet.workers))]
      ensures out.FleetDone? ==>
                |events| > 0 && events[|events| - 1] == Event(FleetCancelRequested, "", taskId, "", None, StatusOf(out.fleet.status), seqNo)
      ensures !out.FleetDone? ==> fleets == old(fleets)
      ensures executions.Keys == old(executions).Keys
      ensures out.FleetCrashed? <==> CrashedIn(fate, old(persists), persists)
      ensures Counted(durable, old(|events|), |events| - (if out.FleetDone? then 1 else 0), old(persists), persists)
      ensures old(events) <= events
      ensures durable ==> StaysSynced(fate, old(persists), persists, old(executions), old(synced), executions, synced)
    {
      if taskId !in fleets {
        return UnknownFleet;
      }
      var updated, crashed := CancelWorkers(fleets[taskId].workers, now);
      if durable {
        SyncStays(old(events), old(seqNo), old(base), events, since, old(persists), persists, fate, old(executions), old(synced), executions, synced);
      }
      if crashed {
        return FleetCrashed;
      }
      var status := CancelledFleetStatus(updated);
      var fleet := Fleet(taskId, status, updated);
      RecordFleet(fleet);
      return FleetDone(fleet);
    }

    /** The fleet is stored, and its cancellation told. */
    method RecordFleet(fleet: Fleet)
      requires Valid()
      modifies this`fleets, this`events, this`seqNo
      ensures Valid() && fleets == old(fleets)[fleet.taskId := fleet.(workers := Sorted(fleet.workers))]
      ensures events == old(events) + [Event(FleetCancelRequested, "", fleet.taskId, "", None, StatusOf(fleet.status), seqNo)]
    {
      UpsertFleet(fleet);
      EmitQuietly(FleetCancelRequested, "", fleet.taskId, "", StatusOf(fleet.status));
    }

    /** A stale execution is failed; a refusal is swallowed. */
    method RecoverOne(id: string, age: int, ghost items: Executions, ghost disk: Files, ghost start: Progress, maxAge: int, now: int)
      returns (crashed: bool)
      requires Valid() && id in executions && Stale(executions[id], maxAge, now) && age == now - Since(executions[id], now)
      requires Evolves(items, executions) && DiskGrows(disk, files, ids) && !CrashedSince(start) && CountedSince(start)
      modifies this`executions, this`events, this`seqNo, this`files, this`synced, this`intact, this`persistFailures, this`persists
      ensures Valid() && Evolves(items, executions) && DiskGrows(disk, files, ids)
      ensures executions == old(executions)[id := Failing(old(executions)[id], patterns.scrub, now)]
      ensures crashed == CrashedSince(start) && CountedSince(start)
    {
      StaleFails(executions, id, patterns.scrub, maxAge, now);
      ghost var before, files', begun := executions, files, persists;
      var told := Fail(id, "recovered as stale after " + Str(age) + "s without terminal state", now);
      CrashedSplits(fate, start.persists, begun, persists);
      EvolvesTransitive(items, before, executions);
      DiskGrowsTransitive(disk, files', files, ids);
      return told.Crashed?;
    }

    /** The recovery loop has looked at the executions in `done`. */
    ghost predicate Recovering(items: Executions, disk: Files, done: set<string>, start: Progress, maxAge: int, now: int)
      reads this
    {
      && Evolves(items, executions) && executions.Keys == items.Keys && DiskGrows(disk, files, ids)
      && Recovered(items, done, patterns.scrub, maxAge, now, executions) && CountedSince(start)
    }

    /** One round of the recovery loop. */
    method RecoverRound(id: string, ghost items: Executions, ghost disk: Files, ghost done: set<string>, ghost start: Progress,
                        maxAge: int, now: int) returns (crashed: bool)
      requires Valid() && id in items && id !in done && !CrashedSince(start)
      requires Recovering(items, disk, done, start, maxAge, now)
      modifies this`executions, this`events, this`seqNo, this`files, this`synced, this`intact, this`persistFailures, this`persists
      ensures Valid() && Recovering(items, disk, done + {id}, start, maxAge, now) && crashed == CrashedSince(start)
    {
      RecoverNext(items, done, patterns.scrub, maxAge, now, executions, id);
      crashed := false;
      var age, stale := AgeOf(executions[id], maxAge, now);
      if stale {
        crashed := RecoverOne(id, age, items, disk, start, maxAge, now);
      }
    }

    /** How long an execution has been open, and whether that is too long. */
    method AgeOf(snap: Snapshot, maxAge: int, now: int) returns (age: int, stale: bool)
      ensures age == now - Since(snap, now) && stale == Stale(snap, maxAge, now)
    {
      LifecycleIsTable(snap.status, snap.status);
      var started := now;
      if snap.startedAt.Some? && snap.startedAt.value != 0 {
        started := snap.startedAt.value;
      } else if snap.createdAt.Some? && snap.createdAt.value != 0 {
        started := snap.createdAt.value;
      }
      age := now - started;
      stale := snap.status !in TERMINAL && age >= maxAge;
    }

    /** The findings: every execution that has been open for too long. */
    method FindStale(items: Executions, maxAge: int, now: int, dryRun: bool) returns (findings: seq<Finding>)
      ensures Reports(findings, items, items.Keys, maxAge, now, dryRun)
    {
      findings := [];
      var pending := items.Keys;
      while pending != {}
        invariant pending <= items.Keys && Reports(findings, items, items.Keys - pending, maxAge, now, dryRun)
        decreases |pending|
      {
        var id :| id in pending;
        ReportNext(findings, items, items.Keys - pending, maxAge, now, dryRun, id);
        var age, stale := AgeOf(items[id], maxAge, now);
        if stale {
          findings := findings + [Finding(items[id].executionId, items[id].status, age, dryRun)];
        }
        assert items.Keys - (pending - {id}) == items.Keys - pending + {id};
        pending := pending - {id};
      }
      assert items.Keys - pending == items.Keys;
    }

    /** Recovery of executions that have been open for too long. Nothing that happens to one of
        them makes another one stale, so finding and failing can be told apart. */
    method RecoverStale(maxAge: int, now: int, dryRun: bool) returns (findings: seq<Finding>, crashed: bool)
      requires Valid()
      modifies this`executions, this`events, this`seqNo, this`files, this`synced, this`intact, this`persistFailures, this`persists
      ensures Valid() && Evolves(old(executions), executions) && DiskGrows(old(files), files, ids)
      ensures crashed == CrashedIn(fate, old(persists), persists) && Counted(durable, old(|events|), |events|, old(persists), persists)
      ensures old(events) <= events
      ensures executions.Keys == old(executions).Keys
      ensures dryRun ==> executions == old(executions) && events == old(events) && files == old(files)
      ensures !crashed && !dryRun ==>
                Recovered(old(executions), old(executions).Keys, patterns.scrub, maxAge, now, executions)
      ensures Reports(findings, old(executions), old(executions).Keys, maxAge, now, dryRun)
      ensures durable ==> StaysSynced(fate, old(persists), persists, old(executions), old(synced), executions, synced)
    {
      findings := FindStale(executions, maxAge, now, dryRun);
      crashed := false;
      if !dryRun {
        crashed := FailStale(maxAge, now);
      }
      if durable {
        SyncStays(old(events), old(seqNo), old(base), events, since, old(persists), persists, fate, old(executions), old(synced), executions, synced);
      }
    }

    method FailStale(maxAge: int, now: int) returns (crashed: bool)
      requires Valid()
      modifies this`executions, this`events, this`seqNo, this`files, this`synced, this`intact, this`persistFailures, this`persists
      ensures Valid() && Evolves(old(executions), executions) && DiskGrows(old(files), files, ids)
      ensures crashed == CrashedIn(fate, old(persists), persists) && Counted(durable, old(|events|), |events|, old(persists), persists)
      ensures old(events) <= events
      ensures executions.Keys == old(executions).Keys
      ensures !crashed ==> Recovered(old(executions), old(executions).Keys, patterns.scrub, maxAge, now, executions)
    {
      ghost var start, items := Progress(events, persists), executions;
      var pending := executions.Keys;
      crashed := false;
      while pending != {}
        invariant Valid() && pending <= items.Keys && !CrashedSince(start)
        invariant Recovering(items, old(files), items.Keys - pending, start, maxAge, now)
        decreases |pending|
      {
        var id :| id in pending;
        crashed := RecoverRound(id, items, old(files), items.Keys - pending, start, maxAge, now);
        if crashed {
          return;
        }
        LeftOver(items.Keys, pending, id);
        pending := pending - {id};
      }
      assert items.Keys - pending == items.Keys;
    }

    /** `load_durable` reads every JSON file that parses and names its execution. */
    method LoadDurable(ghost was: Executions)
      requires DiskOk(files, was, ids, synced) && Distinct(ids) && "" !in ids && executions == map[]
      modifies this`executions
      ensures LoadedFrom(files, executions, ids, JsonFiles(files))
    {
      var pending := JsonFiles(files);
      ghost var read: set<string> := {};
      assert LoadedFrom(files, executions, ids, read);
      while pending != {}
        invariant read + pending == JsonFiles(files)
        invariant LoadedFrom(files, executions, ids, read)
        decreases |pending|
      {
        var name :| name in pending;
        LoadNext(files, was, ids, synced, executions, read, name);
        pending, read := pending - {name}, read + {name};
        if files[name].Record? && files[name].snap.executionId != "" {
          var s := files[name].snap;
          var taskId, sessionId := "unknown", "unknown";
          if s.taskId != "" {
            taskId := s.taskId;
          }
          if s.sessionId != "" {
            sessionId := s.sessionId;
          }
          var snap := Snapshot(s.executionId, taskId, sessionId, s.agentId, s.status, s.createdAt, s.startedAt, s.finishedAt,
                               s.error, s.result, s.metadata, s.history, s.cancelRequested);
          executions := executions[snap.executionId := snap];
        }
      }
      assert read == JsonFiles(files);
    }

    /** A new process over the same directory. */
    method Restart()
      requires Consistent()
      modifies this
      ensures persists == old(persists)
      ensures Valid() && files == old(files) && events == [] && fleets == map[] && persistFailures == 0
      ensures AllReloaded(files, old(executions), old(synced), executions, ids)
      ensures LoadedFrom(files, executions, ids, JsonFiles(files))
      ensures synced == executions.Keys && since == persists
      ensures base == Histories(executions) && intact == {}
      ensures AllRestored(files, executions) && AllSurvive(patterns, old(intact), old(executions), executions)
    {
      ghost var was, whole := executions, intact;
      executions, events, fleets, seqNo, persistFailures, intact := map[], [], map[], 0, 0, {};
      LoadAll(was);
      LoadedSurvive(patterns, files, was, ids, whole, executions);
    }

    method LoadAll(ghost was: Executions)
      requires DiskOk(files, was, ids, synced) && Distinct(ids) && "" !in ids && executions == map[]
      requires (forall id :: id in ids ==> patterns.scrub(id) == id) && (!durable ==> files == map[])
      requires events == [] && seqNo == 0 && intact == {}
      modifies this`executions, this`base, this`synced, this`since
      ensures Valid() && AllReloaded(files, was, old(synced), executions, ids)
      ensures LoadedFrom(files, executions, ids, JsonFiles(files))
      ensures synced == executions.Keys && since == persists && base == Histories(executions)
    {
      LoadDurable(was);
      LoadedIsConsistent(files, was, executions, ids, synced, JsonFiles(files));
      NewJournal(persists, fate, executions);
      base, synced, since := Histories(executions), executions.Keys, persists;
    }
  }
}
