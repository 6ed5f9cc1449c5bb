/** The bridge from monday events to executions: each correlation is processed once, an item can
    be retried when its execution has ended. */
module MondayBridge {
  import opened Options
  import opened Lifecycle
  import opened ExecutionStore
  import Correlation
  import StoreRuns
  import Redaction

  const READY := "task.ready"

  /** For an optional text, absent and empty are the same to the code. */
  datatype MondayEvent = MondayEvent(
    eventId: string, eventType: string, boardId: string, itemId: string, correlationId: string, name: string,
    project: string, repository: string, priority: string, agent: string)

  function CorrOf(e: MondayEvent): string {
    if e.correlationId != "" then e.correlationId else "mon-" + e.boardId + "-" + e.itemId
  }

  function TaskName(e: MondayEvent): string {
    if e.name != "" then e.name else "monday-item-" + e.itemId
  }

  function MetadataOf(e: MondayEvent): map<string, string> {
    map["source" := "monday", "board_id" := e.boardId, "item_id" := e.itemId, "correlation_id" := CorrOf(e),
        "project" := e.project, "repository" := e.repository, "priority" := e.priority, "monday_event_id" := e.eventId]
  }

  function AgentOf(e: MondayEvent): Option<string> { if e.agent != "" then Some(e.agent) else None }

  /** The execution made for an event. */
  function NewRecord(p: Redaction.Patterns, e: MondayEvent, newId: string, now: int): Snapshot {
    Fresh(newId, TaskName(e), "sess-mon-" + e.itemId, AgentOf(e), Redaction.RedactTexts(p, MetadataOf(e)), now)
  }

  function BindingOf(e: MondayEvent, id: string): Correlation.Binding {
    Correlation.Binding(id, CorrOf(e), e.boardId, e.itemId, "sess-mon-" + e.itemId, e.repository, None, None, "", None, map[])
  }

  /** `list_events(item_id, event_type="task.ready", limit)`: the last ones. */
  function Ready(events: seq<MondayEvent>, itemId: string): seq<MondayEvent> {
    if events == [] then []
    else
      var e := events[|events| - 1];
      Ready(events[..|events| - 1], itemId) + if e.eventType == READY && (itemId == "" || e.itemId == itemId) then [e] else []
  }

  function LastOf<T>(s: seq<T>, limit: nat): seq<T> {
    if |s| <= limit then s else s[|s| - limit..]
  }

  lemma ReadyAreEvents(events: seq<MondayEvent>, itemId: string, e: MondayEvent)
    requires e in Ready(events, itemId)
    ensures e in events && e.eventType == READY && (itemId != "" ==> e.itemId == itemId)
  {
  }

  /** `list_events(item_id, event_type="task.ready", limit=1)`. */
  function Newest(events: seq<MondayEvent>, itemId: string): Option<MondayEvent> {
    var ready := LastOf(Ready(events, itemId), 1);
    if ready == [] then None else Some(ready[0])
  }

  lemma NewestIsEvent(events: seq<MondayEvent>, itemId: string)
    requires Newest(events, itemId).Some?
    ensures var e := Newest(events, itemId).value; e in events && e.eventType == READY && (itemId != "" ==> e.itemId == itemId)
  {
    ReadyAreEvents(events, itemId, Newest(events, itemId).value);
  }

  /** `created` maps each execution the bridge made to its item. */
  ghost predicate BridgeOk(created: map<string, string>, itemTo: map<string, string>, processed: set<string>,
                           executions: Executions, key: string -> string)
  {
    && (forall i :: i in itemTo ==> itemTo[i] in created && created[itemTo[i]] == i)
    && (forall x {:trigger Tracked(created, itemTo, processed, executions, key, x)} ::
          x in created ==> Tracked(created, itemTo, processed, executions, key, x))
  }

  /** An open execution of the bridge is the one its item leads to, and blocks its correlation. */
  predicate Tracked(created: map<string, string>, itemTo: map<string, string>, processed: set<string>,
                    executions: Executions, key: string -> string, x: string)
    requires x in created
  {
    && x in executions
    && (!Terminal(executions[x].status) ==>
          created[x] in itemTo && itemTo[created[x]] == x && key(created[x]) in processed)
  }

  ghost predicate OneOpenPerItem(created: map<string, string>, executions: Executions) {
    forall x {:trigger Single(created, executions, x)} :: Single(created, executions, x)
  }

  /** An open execution of the bridge is its item's only one. */
  ghost predicate Single(created: map<string, string>, executions: Executions, x: string) {
    Open(created, executions, x) ==> forall y :: Open(created, executions, y) && created[y] == created[x] ==> y == x
  }

  predicate Open(created: map<string, string>, executions: Executions, x: string) {
    x in created && x in executions && !Terminal(executions[x].status)
  }

  lemma BridgeKeepsOneOpen(created: map<string, string>, itemTo: map<string, string>, processed: set<string>,
                           executions: Executions, key: string -> string)
    requires BridgeOk(created, itemTo, processed, executions, key)
    ensures OneOpenPerItem(created, executions)
  {
    forall x
      ensures Single(created, executions, x)
    {
      forall y | Open(created, executions, x) && Open(created, executions, y) && created[y] == created[x]
        ensures y == x
      {
        assert Tracked(created, itemTo, processed, executions, key, x);
        assert Tracked(created, itemTo, processed, executions, key, y);
      }
    }
  }

  /** Whatever anyone else does to the executions, what has ended stays ended. */
  lemma OthersKeepBridge(created: map<string, string>, itemTo: map<string, string>, processed: set<string>, more: set<string>,
                         before: Executions, after: Executions, key: string -> string)
    requires BridgeOk(created, itemTo, processed, before, key) && Evolves(before, after) && processed <= more
    ensures BridgeOk(created, itemTo, more, after, key)
  {
    forall x | x in created
      ensures Tracked(created, itemTo, more, after, key, x)
    {
      assert Tracked(created, itemTo, processed, before, key, x);
      assert Continues(before, after, x);
    }
  }

  /** A new execution for an item none of whose executions is open. */
  lemma CreationKeepsBridge(created: map<string, string>, itemTo: map<string, string>, processed: set<string>,
                            before: Executions, after: Executions, key: string -> string, id: string, itemId: string)
    requires BridgeOk(created, itemTo, processed, before, key) && key(itemId) !in processed
    requires Evolves(before, after) && id !in before && id in after
    ensures BridgeOk(created[id := itemId], itemTo[itemId := id], processed + {key(itemId)}, after, key)
  {
    var made, items, seen := created[id := itemId], itemTo[itemId := id], processed + {key(itemId)};
    forall x | x in created
      ensures Tracked(created, itemTo, processed, before, key, x) && x != id
    {
      assert Tracked(created, itemTo, processed, before, key, x);
    }
    forall x | x in made
      ensures Tracked(made, items, seen, after, key, x)
    {
      assert x in created ==> Tracked(created, itemTo, processed, before, key, x) && Continues(before, after, x);
    }
  }

  /** Forgetting a correlation is safe once the item's execution has ended. */
  lemma DiscardKeepsBridge(created: map<string, string>, itemTo: map<string, string>, processed: set<string>,
                           executions: Executions, key: string -> string, itemId: string)
    requires BridgeOk(created, itemTo, processed, executions, key)
    requires OneToOne(key)
    requires itemId in itemTo ==> itemTo[itemId] in executions && Terminal(executions[itemTo[itemId]].status)
    ensures BridgeOk(created, itemTo, processed - {key(itemId)}, executions, key)
  {
    forall x | x in created
      ensures Tracked(created, itemTo, processed - {key(itemId)}, executions, key, x)
    {
      assert Lone(key, itemId);
      assert Tracked(created, itemTo, processed, executions, key, x);
    }
  }

  /** At the moment of a creation the item has no other open execution, even if the process dies
      before it can note the new one. */
  lemma CreationKeepsAll(created: map<string, string>, itemTo: map<string, string>, processed: set<string>,
                         before: Executions, after: Executions, key: string -> string, id: string, itemId: string)
    requires BridgeOk(created, itemTo, processed, before, key) && key(itemId) !in processed
    requires Remembers(itemTo, processed, key, Some(itemId))
    requires Evolves(before, after) && id !in before && id in after
    ensures OneOpenPerItem(created[id := itemId], after)
    ensures BridgeOk(created[id := itemId], itemTo[itemId := id], processed + {key(itemId)}, after, key)
    ensures Remembers(itemTo[itemId := id], processed + {key(itemId)}, key, None)
  {
    CreationKeepsBridge(created, itemTo, processed, before, after, key, id, itemId);
    BridgeKeepsOneOpen(created[id := itemId], itemTo[itemId := id], processed + {key(itemId)}, after, key);
    RemembersNew(itemTo, processed, key, itemId, id);
  }

  /** The correlation of every item that has an execution is remembered, but for the one item whose
      correlation was just forgotten. */
  ghost predicate Remembers(itemTo: map<string, string>, processed: set<string>, key: string -> string, but: Option<string>) {
    forall i {:trigger Kept(itemTo, processed, key, but, i)} :: Kept(itemTo, processed, key, but, i)
  }

  predicate Kept(itemTo: map<string, string>, processed: set<string>, key: string -> string, but: Option<string>, i: string) {
    i in itemTo && but != Some(i) ==> key(i) in processed
  }

  /** No two items share a correlation. */
  ghost predicate OneToOne(key: string -> string) {
    forall a {:trigger Lone(key, a)} :: Lone(key, a)
  }

  ghost predicate Lone(key: string -> string, a: string) {
    forall b :: key(b) == key(a) ==> b == a
  }

  lemma RemembersMore(itemTo: map<string, string>, processed: set<string>, key: string -> string, but: Option<string>,
                      more: set<string>, lacking: Option<string>)
    requires Remembers(itemTo, processed, key, but) && processed <= more
    requires but.Some? ==> key(but.value) in more || lacking == but
    ensures Remembers(itemTo, more, key, lacking)
  {
    forall i
      ensures Kept(itemTo, more, key, lacking, i)
    {
      assert Kept(itemTo, processed, key, but, i);
    }
  }

  lemma RemembersNew(itemTo: map<string, string>, processed: set<string>, key: string -> string, itemId: string, id: string)
    requires Remembers(itemTo, processed, key, Some(itemId))
    ensures Remembers(itemTo[itemId := id], processed + {key(itemId)}, key, None)
  {
    var items := itemTo[itemId := id];
    forall i
      ensures Kept(items, processed + {key(itemId)}, key, None, i)
    {
      assert Kept(itemTo, processed, key, Some(itemId), i);
    }
  }

  lemma RemembersOthers(itemTo: map<string, string>, processed: set<string>, key: string -> string, itemId: string)
    requires Remembers(itemTo, processed, key, None) && OneToOne(key)
    ensures Remembers(itemTo, processed - {key(itemId)}, key, Some(itemId))
  {
    forall i
      ensures Kept(itemTo, processed - {key(itemId)}, key, Some(itemId), i)
    {
      assert Kept(itemTo, processed, key, None, i) && Lone(key, itemId);
    }
  }

  datatype Processing = Nothing | Existing(snap: Snapshot) | Created(snap: Snapshot) | Crashed

  function Shown(snap: Option<Snapshot>): Processing { if snap.Some? then Existing(snap.value) else Nothing }

  function IdFor(itemTo: map<string, string>, ix: Correlation.Index, itemId: string): string {
    var bound := Correlation.Follow(ix, ix.byItem, itemId);
    if itemId in itemTo && itemTo[itemId] != "" then itemTo[itemId] else if bound.Some? then bound.value.executionId else ""
  }

  /** `_lookup_existing`: the execution the bridge made for the item last, or else the one the
      correlation store knows. */
  function LookedUp(itemTo: map<string, string>, ix: Correlation.Index, executions: Executions, itemId: string): Option<Snapshot> {
    var id := IdFor(itemTo, ix, itemId);
    if id != "" && id in executions then Some(executions[id]) else None
  }

  /** An event makes an execution: it is ready, has an item, and its correlation is not processed. */
  predicate Makes(e: MondayEvent, processed: set<string>) {
    e.eventType == READY && e.itemId != "" && CorrOf(e) !in processed
  }

  /** The item has an open execution to show for it. */
  predicate Blocked(found: Option<Snapshot>) { found.Some? && !Terminal(found.value.status) }

  /** An item's last ready event names an item, and brings its own correlation id or one that is not
      processed. For an empty item id it is the last ready event of all. */
  predicate Retriable(events: seq<MondayEvent>, processed: set<string>, itemId: string) {
    var newest := Newest(events, itemId);
    newest.Some? && newest.value.itemId != "" && (newest.value.correlationId != "" || CorrOf(newest.value) !in processed)
  }

  /** A retry is not a matter of the event's own correlation id alone: without one, the item is
      tried for the first time, and never again. */
  lemma RetryWithoutOwnId(itemId: string)
    requires itemId != ""
    ensures var e := MondayEvent("v", READY, "b", itemId, "", "", "", "", "", "");
            && Retriable([e], {}, itemId) && !Retriable([e], {CorrOf(e)}, itemId)
            && forall processed :: Retriable([e.(correlationId := "c")], processed, itemId)
  {
    var e := MondayEvent("v", READY, "b", itemId, "", "", "", "", "", "");
    assert [e][..0] == [] && [e.(correlationId := "c")][..0] == [];
    assert Ready([e], itemId) == [e] && Ready([e.(correlationId := "c")], itemId) == [e.(correlationId := "c")];
  }

  /* ---------- the bridge and its stores as values ---------- */

  /** What the bridge and the two stores it works on hold. */
  datatype Books = Books(processed: set<string>, itemTo: map<string, string>, created: map<string, string>,
                         executions: Executions, ix: Correlation.Index, patterns: Redaction.Patterns)

  /** A new execution is filed under its item and its correlation. */
  function Filed(e: MondayEvent, newId: string, now: int, b: Books): Books {
    b.(processed := b.processed + {CorrOf(e)}, created := b.created[newId := e.itemId], itemTo := b.itemTo[e.itemId := newId],
       executions := b.executions[newId := NewRecord(b.patterns, e, newId, now)],
       ix := Correlation.After(b.ix, BindingOf(e, newId), CorrOf(e), now))
  }

  /** The books after an event. */
  function AfterEvent(e: MondayEvent, newId: string, now: int, b: Books): Books {
    if Makes(e, b.processed) then Filed(e, newId, now, b)
    else if e.eventType == READY then b.(processed := b.processed + {CorrOf(e)})
    else b
  }

  /** What an event returns: its new execution, or the one its processed correlation has led to. */
  function ShownFor(e: MondayEvent, newId: string, now: int, b: Books): Processing {
    if Makes(e, b.processed) then Created(NewRecord(b.patterns, e, newId, now))
    else if e.eventType == READY && CorrOf(e) in b.processed then Shown(LookedUp(b.itemTo, b.ix, b.executions, e.itemId))
    else Nothing
  }

  /** A process that dies does so persisting the new execution, before that is filed. */
  ghost predicate Processed(e: MondayEvent, newId: string, now: int, before: Books, after: Books, out: Processing) {
    if out.Crashed? then
      Makes(e, before.processed) && after == AfterEvent(e, newId, now, before).(itemTo := before.itemTo, ix := before.ix)
    else
      after == AfterEvent(e, newId, now, before) && out == ShownFor(e, newId, now, before)
  }

  function Forgetting(processed: set<string>, e: MondayEvent): set<string> {
    if e.correlationId != "" then processed - {e.correlationId} else processed
  }

  /** A retry shows the item's execution when it is open. Otherwise it makes a new one exactly when
      the item's last ready event is retriable. */
  ghost predicate Retried(events: seq<MondayEvent>, itemId: string, newId: string, now: int, before: Books, after: Books,
                          out: Processing)
  {
    var found := LookedUp(before.itemTo, before.ix, before.executions, itemId);
    var newest := Newest(events, itemId);
    if Blocked(found) || newest.None? then
      after == before && out == if Blocked(found) then Shown(found) else Nothing
    else
      var e := newest.value;
      if Retriable(events, before.processed, itemId) then
        (out.Crashed? || out.Created?) && Processed(e, newId, now, before.(processed := Forgetting(before.processed, e)), after, out)
      else
        && after == before.(processed := before.processed + {CorrOf(e)})
        && out == if CorrOf(e) in Forgetting(before.processed, e)
                  then Shown(LookedUp(before.itemTo, before.ix, before.executions, e.itemId)) else Nothing
  }

  /** Processing the item's last ready event, with its own correlation forgotten, is a retry. */
  lemma ProcessingRetries(events: seq<MondayEvent>, itemId: string, newId: string, now: int, before: Books, after: Books,
                          out: Processing)
    requires Newest(events, itemId).Some? && !Blocked(LookedUp(before.itemTo, before.ix, before.executions, itemId))
    requires var e := Newest(events, itemId).value;
             Processed(e, newId, now, before.(processed := Forgetting(before.processed, e)), after, out)
    ensures Retried(events, itemId, newId, now, before, after, out)
  {
    NewestIsEvent(events, itemId);
    var e := Newest(events, itemId).value;
    assert Makes(e, Forgetting(before.processed, e)) <==> Retriable(events, before.processed, itemId);
    assert Forgetting(before.processed, e) + {CorrOf(e)} == before.processed + {CorrOf(e)};
  }

  /** The books after the first of the events, each with an id at hand, and how many of the events
      had an execution to show. */
  function Drained(events: seq<MondayEvent>, newIds: seq<string>, now: int, b: Books): Books
    requires |events| <= |newIds|
  {
    if events == [] then b
    else
      var n := |events| - 1;
      AfterEvent(events[n], newIds[n], now, Drained(events[..n], newIds, now, b))
  }

  function CountShown(events: seq<MondayEvent>, newIds: seq<string>, now: int, b: Books): nat
    requires |events| <= |newIds|
  {
    if events == [] then 0
    else
      var n := |events| - 1;
      CountShown(events[..n], newIds, now, b) + if ShownFor(events[n], newIds[n], now, Drained(events[..n], newIds, now, b)).Nothing? then 0 else 1
  }

  lemma DrainedGrows(events: seq<MondayEvent>, newIds: seq<string>, now: int, b: Books, i: nat)
    requires i < |events| <= |newIds|
    ensures var before := Drained(events[..i], newIds, now, b);
            && Drained(events[..i + 1], newIds, now, b) == AfterEvent(events[i], newIds[i], now, before)
            && CountShown(events[..i + 1], newIds, now, b) ==
               CountShown(events[..i], newIds, now, b) + if ShownFor(events[i], newIds[i], now, before).Nothing? then 0 else 1
  {
    assert events[..i + 1][..i] == events[..i] && events[..i + 1][i] == events[i];
  }

  /** The process died persisting the execution of one of the events. */
  ghost predicate DiedDraining(events: seq<MondayEvent>, newIds: seq<string>, now: int, b: Books, after: Books)
    requires |events| <= |newIds|
  {
    exists n: nat {:trigger DiedAt(events, newIds, now, b, after, n)} :: n < |events| && DiedAt(events, newIds, now, b, after, n)
  }

  ghost predicate DiedAt(events: seq<MondayEvent>, newIds: seq<string>, now: int, b: Books, after: Books, n: nat)
    requires n < |events| <= |newIds|
  {
    Processed(events[n], newIds[n], now, Drained(events[..n], newIds, now, b), after, Processing.Crashed)
  }

  /** The execution found, if any, has ended, and no other has changed. */
  ghost predicate CancelledFor(found: Option<Snapshot>, before: Executions, after: Executions) {
    if found.None? then after == before
    else
      var id := found.value.executionId;
      && id in after && Terminal(after[id].status)
      && forall x :: x in after && x != id ==> x in before && after[x] == before[x]
  }

  function Recalled(found: Option<Snapshot>, executions: Executions): Option<Snapshot> {
    if found.Some? && found.value.executionId in executions then Some(executions[found.value.executionId]) else None
  }

  class MondayRuntimeBridge {
    var processed: set<string>
    var itemTo: map<string, string>
    const store: ExecutionObserverStore
    const corr: Correlation.CorrelationStore
    /** Every execution the bridge ever made, with its item. */
    ghost var created: map<string, string>

    ghost predicate Valid()
      reads this, store, corr
    {
      store.Valid() && corr.Valid()
    }

    constructor (store: ExecutionObserverStore, corr: Correlation.CorrelationStore)
      ensures this.store == store && this.corr == corr && processed == {} && itemTo == map[] && created == map[]
    {
      this.store, this.corr := store, corr;
      processed, itemTo, created := {}, map[], map[];
    }

    /** Whether a persist since then killed the process. */
    ghost predicate DiedSince(persists: nat)
      reads this, store
    {
      CrashedIn(store.fate, persists, store.persists)
    }

    ghost function State(): Books
      reads this, store, corr
    {
      Books(processed, itemTo, created, store.executions, corr.State(), store.patterns)
    }

    method FindId(itemId: string) returns (id: string)
      ensures id == IdFor(itemTo, corr.State(), itemId)
    {
      id := if itemId in itemTo then itemTo[itemId] else "";
      if id == "" {
        var bound := Correlation.Follow(corr.State(), corr.byItem, itemId);
        if bound.Some? {
          id := bound.value.executionId;
        }
      }
    }

    method LookupExisting(itemId: string) returns (snap: Option<Snapshot>)
      ensures snap == LookedUp(itemTo, corr.State(), store.executions, itemId)
    {
      var id := FindId(itemId);
      if id == "" {
        return None;
      }
      snap := if id in store.executions then Some(store.executions[id]) else None;
    }

    /** One event: nothing unless it is ready; the existing execution when its correlation was
        processed before; a new execution otherwise. */
    method ProcessEvent(e: MondayEvent, newId: string, now: int) returns (out: Processing)
      requires Valid() && newId in store.ids && newId !in store.executions
      modifies this, store, corr
      ensures corr.Valid() && store.Consistent() && (!out.Crashed? ==> Valid())
      ensures old(store.persists) <= store.persists && out.Crashed? == DiedSince(old(store.persists))
      ensures Processed(e, newId, now, old(State()), State(), out)
    {
      if e.eventType != READY {
        return Nothing;
      }
      var c := e.correlationId;
      if c == "" {
        c := "mon-" + e.boardId + "-" + e.itemId;
      }
      if c in processed {
        assert processed + {c} == processed;
        var snap := LookupExisting(e.itemId);
        return Shown(snap);
      }
      processed := processed + {c};
      if e.itemId == "" {
        return Nothing;
      }
      out := Make(e, c, newId, now);
      if out.Created? {
        itemTo := itemTo[e.itemId := newId];
      }
      created := created[newId := e.itemId];
    }

    /** The execution, its correlation, whose conflict is swallowed, and the event about it. */
    method Make(e: MondayEvent, c: string, newId: string, now: int) returns (out: Processing)
      requires c == CorrOf(e)
      requires Valid() && newId in store.ids && newId !in store.executions
      modifies store, corr
      ensures corr.Valid() && store.Consistent() && (out.Crashed? || (out == Created(NewRecord(store.patterns, e, newId, now)) && store.Valid()))
      ensures old(store.persists) <= store.persists && out.Crashed? == DiedSince(old(store.persists))
      ensures store.executions == old(store.executions)[newId := NewRecord(store.patterns, e, newId, now)]
      ensures corr.State() == if out.Crashed? then old(corr.State())
                              else Correlation.After(old(corr.State()), BindingOf(e, newId), CorrOf(e), now)
    {
      var taskName, agentId, metadata := Describe(e, c);
      var made := store.CreateExecution(newId, taskName, "sess-mon-" + e.itemId, agentId, metadata, now);
      if made.Crashed? {
        return Processing.Crashed;
      }
      BindToItem(e, c, newId, now);
      store.EmitQuietly(OtherKind("integration.monday.task_ready"), newId, taskName, "sess-mon-" + e.itemId, Queued);
      return Created(made.snap);
    }

    method BindToItem(e: MondayEvent, c: string, newId: string, now: int)
      requires corr.Valid() && c == CorrOf(e) && c != ""
      modifies corr
      ensures corr.Valid() && corr.State() == Correlation.After(old(corr.State()), BindingOf(e, newId), CorrOf(e), now)
    {
      var binding := Correlation.Binding(newId, c, e.boardId, e.itemId, "sess-mon-" + e.itemId, e.repository, None, None, "", None, map[]);
      var _ := corr.Register(binding, c, now);
    }

    /** What the execution of an event is called, who works on it, and what is noted about it. */
    method Describe(e: MondayEvent, c: string) returns (taskName: string, agentId: Option<string>, metadata: map<string, string>)
      requires c == CorrOf(e)
      ensures taskName == TaskName(e) && agentId == AgentOf(e) && metadata == MetadataOf(e)
    {
      taskName := e.name;
      if taskName == "" {
        taskName := "monday-item-" + e.itemId;
      }
      agentId := None;
      if e.agent != "" {
        agentId := Some(e.agent);
      }
      metadata := map["source" := "monday"];
      metadata := metadata["board_id" := e.boardId]["item_id" := e.itemId]["correlation_id" := c];
      metadata := metadata["project" := e.project]["repository" := e.repository]["priority" := e.priority];
      metadata := metadata["monday_event_id" := e.eventId];
    }

    /** The item's execution if it is open. Otherwise its last ready event is processed again, after
        its correlation is forgotten, which it is only when the event brings it itself. */
    method RetryForItem(itemId: string, adapter: MondayAdapter, newId: string, now: int) returns (out: Processing)
      requires Valid() && newId in store.ids && newId !in store.executions
      modifies this, store, corr
      ensures corr.Valid() && store.Consistent() && (!out.Crashed? ==> Valid())
      ensures old(store.persists) <= store.persists && out.Crashed? == DiedSince(old(store.persists))
      ensures Retried(adapter.events, itemId, newId, now, old(State()), State(), out)
    {
      var existing := LookupExisting(itemId);
      if existing.Some? && !Terminal(existing.value.status) {
        return Existing(existing.value);
      }
      var listed := adapter.ListReady(itemId, 1);
      if |listed| == 0 {
        return Nothing;
      }
      if listed[0].correlationId != "" {
        processed := processed - {listed[0].correlationId};
      }
      out := ProcessEvent(listed[0], newId, now);
      ProcessingRetries(adapter.events, itemId, newId, now, old(State()), State(), out);
    }

    /** Every ready event the adapter still has, up to a hundred, is processed again. */
    method DrainPending(adapter: MondayAdapter, newIds: seq<string>, now: int) returns (count: nat, crashed: bool)
      requires Valid() && |newIds| == 100 && AllDistinct(newIds) && Unclaimed(newIds, 0, store.executions)
      requires forall id :: id in newIds ==> id in store.ids
      modifies this, store, corr
      ensures corr.Valid() && store.Consistent() && (!crashed ==> Valid())
      ensures old(store.persists) <= store.persists && crashed == DiedSince(old(store.persists))
      ensures var events := LastOf(Ready(adapter.events, ""), 100);
              if crashed then DiedDraining(events, newIds, now, old(State()), State())
              else State() == Drained(events, newIds, now, old(State())) && count == CountShown(events, newIds, now, old(State()))
    {
      count, crashed := 0, false;
      var events := adapter.ListReady("", 100);
      ghost var begun, start := store.persists, State();
      assert events[..0] == [];
      for i := 0 to |events|
        invariant Valid() && begun <= store.persists && !DiedSince(begun) && Unclaimed(newIds, i, store.executions)
        invariant State() == Drained(events[..i], newIds, now, start) && count == CountShown(events[..i], newIds, now, start)
      {
        var shown;
        shown, crashed := DrainOne(events, i, newIds, now, begun, start);
        if crashed {
          assert DiedAt(events, newIds, now, start, State(), i);
          return;
        }
        count := count + if shown then 1 else 0;
      }
      assert events[..|events|] == events;
    }

    /** One of the events, and whether it has an execution to show. */
    method DrainOne(events: seq<MondayEvent>, i: nat, newIds: seq<string>, now: int, ghost begun: nat, ghost start: Books)
        returns (shown: bool, crashed: bool)
      requires Valid() && i < |events| <= |newIds| && newIds[i] in store.ids
      requires AllDistinct(newIds) && Unclaimed(newIds, i, store.executions)
      requires begun <= store.persists && !DiedSince(begun) && State() == Drained(events[..i], newIds, now, start)
      modifies this, store, corr
      ensures corr.Valid() && store.Consistent() && (!crashed ==> Valid())
      ensures begun <= store.persists && crashed == DiedSince(begun) && (crashed ==> DiedAt(events, newIds, now, start, State(), i))
      ensures !crashed ==> State() == Drained(events[..i + 1], newIds, now, start) && Unclaimed(newIds, i + 1, store.executions)
      ensures !crashed ==> CountShown(events[..i + 1], newIds, now, start) == CountShown(events[..i], newIds, now, start) + if shown then 1 else 0
    {
      ghost var midway, before := store.persists, State();
      var out := ProcessEvent(events[i], newIds[i], now);
      CrashedSplits(store.fate, begun, midway, store.persists);
      DrainedGrows(events, newIds, now, start, i);
      if !out.Crashed? {
        ClaimedOne(newIds, i, before.executions, store.executions);
      }
      return !out.Nothing?, out.Crashed?;
    }

    /** Cancelling ends the execution the item leads to, and tells of it. */
    method CancelForItem(itemId: string, now: int) returns (snap: Option<Snapshot>, crashed: bool)
      requires Valid()
      modifies store
      ensures Valid() && Evolves(old(store.executions), store.executions)
      ensures store.executions.Keys == old(store.executions).Keys
      ensures old(store.persists) <= store.persists && crashed == DiedSince(old(store.persists))
      ensures CancelledFor(LookedUp(itemTo, corr.State(), old(store.executions), itemId), old(store.executions), store.executions)
      ensures !crashed ==> snap == Recalled(LookedUp(itemTo, corr.State(), old(store.executions), itemId), store.executions)
    {
      snap, crashed := None, false;
      var id := FindId(itemId);
      if id != "" && id in store.executions {
        assert RecordOk(store.executions, id);
        crashed := End(id, now);
        snap := Some(store.executions[id]);
      }
    }

    method End(id: string, now: int) returns (crashed: bool)
      requires store.Valid() && id in store.executions
      modifies store
      ensures store.Valid() && Evolves(old(store.executions), store.executions)
      ensures store.executions.Keys == old(store.executions).Keys
      ensures old(store.persists) <= store.persists && crashed == DiedSince(old(store.persists))
      ensures CancelledFor(Some(old(store.executions)[id]), old(store.executions), store.executions)
    {
      assert RecordOk(store.executions, id);
      var out := store.Cancel(id, now);
      crashed := out.Crashed?;
    }
  }

  ghost predicate AllDistinct(ids: seq<string>) {
    forall i {:trigger OnlyAt(ids, i)} :: 0 <= i < |ids| ==> OnlyAt(ids, i)
  }

  predicate OnlyAt(ids: seq<string>, i: nat)
    requires i < |ids|
  {
    forall j :: 0 <= j < |ids| && ids[j] == ids[i] ==> j == i
  }

  predicate Unclaimed(ids: seq<string>, from: nat, executions: Executions) {
    forall i :: from <= i < |ids| ==> ids[i] !in executions
  }

  lemma ClaimedOne(ids: seq<string>, n: nat, before: Executions, after: Executions)
    requires n < |ids| && AllDistinct(ids) && Unclaimed(ids, n, before) && after.Keys <= before.Keys + {ids[n]}
    ensures Unclaimed(ids, n + 1, after)
  {
    assert OnlyAt(ids, n);
  }

  class MondayAdapter {
    var events: seq<MondayEvent>
    var seen: set<string>

    constructor ()
      ensures events == [] && seen == {}
    {
      events, seen := [], {};
    }

    /** An event is taken once: neither its id nor its correlation, type and item come twice. */
    method Take(e: MondayEvent) returns (taken: bool)
      modifies this
      ensures taken <==> e.eventId !in old(seen) && DedupKey(e) !in old(seen)
      ensures events == if taken then old(events) + [e] else old(events)
      ensures seen == if taken then old(seen) + {e.eventId, DedupKey(e)} else old(seen)
    {
      var key := (if e.correlationId == "" then "None" else e.correlationId) + ":" + e.eventType + ":" + e.itemId;
      if e.eventId in seen || key in seen {
        return false;
      }
      seen := seen + {e.eventId, key};
      events := events + [e];
      return true;
    }

    /** The last ready events, of one item if one is named. */
    method ListReady(itemId: string, limit: nat) returns (listed: seq<MondayEvent>)
      requires limit > 0
      ensures listed == LastOf(Ready(events, itemId), limit)
    {
      listed := [];
      for i := 0 to |events|
        invariant listed == Ready(events[..i], itemId)
      {
        assert events[..i + 1][..i] == events[..i];
        if (itemId == "" || events[i].itemId == itemId) && events[i].eventType == "task.ready" {
          listed := listed + [events[i]];
        }
      }
      assert events[..|events|] == events;
      if |listed| > limit {
        listed := listed[|listed| - limit..];
      }
    }
  }

  function DedupKey(e: MondayEvent): string {
    (if e.correlationId != "" then e.correlationId else "None") + ":" + e.eventType + ":" + e.itemId
  }

  /* ---------- what the bridge keeps ---------- */

  /** Correlations and items correspond one to one; `but` names an item whose correlation was just
      forgotten. */
  ghost predicate BooksOk(b: Books, key: string -> string, but: Option<string>) {
    && BridgeOk(b.created, b.itemTo, b.processed, b.executions, key) && Remembers(b.itemTo, b.processed, key, but)
    && OneToOne(key) && "" !in b.executions
  }

  predicate Fits(e: MondayEvent, key: string -> string) { e.eventType == READY ==> CorrOf(e) == key(e.itemId) }

  ghost predicate AllFit(events: seq<MondayEvent>, key: string -> string) {
    forall e :: e in events ==> Fits(e, key)
  }

  /** Everything in the books but for one new execution, if any, is as it was. */
  predicate AddsOne(before: Books, after: Books, id: string, itemId: string) {
    && itemId != "" && id !in before.executions && id !in before.created
    && after.created == before.created[id := itemId] && after.executions.Keys == before.executions.Keys + {id}
    && forall x :: x in before.executions ==> after.executions[x] == before.executions[x]
  }

  predicate AddsNone(before: Books, after: Books) { after.created == before.created && after.executions == before.executions }

  lemma AddingEvolves(before: Books, after: Books, id: string, itemId: string)
    requires AddsOne(before, after, id, itemId) || AddsNone(before, after)
    ensures Evolves(before.executions, after.executions)
  {
  }

  /** An event makes at most one execution, of its own item, and keeps the books in order. */
  lemma ProcessedKeeps(e: MondayEvent, newId: string, now: int, before: Books, after: Books, out: Processing, key: string -> string,
                       but: Option<string>)
    requires Processed(e, newId, now, before, after, out) && BooksOk(before, key, but) && Fits(e, key)
    requires newId !in before.executions && newId != "" && (but.Some? ==> e.eventType == READY && but == Some(e.itemId))
    ensures OneOpenPerItem(after.created, after.executions) && (!out.Crashed? ==> BooksOk(after, key, None))
    ensures if Makes(e, before.processed) then AddsOne(before, after, newId, e.itemId) else AddsNone(before, after)
  {
    CreatedAreKnown(before.created, before.itemTo, before.processed, before.executions, key);
    if Makes(e, before.processed) {
      AddingEvolves(before, after, newId, e.itemId);
      RemembersMore(before.itemTo, before.processed, key, but, before.processed, Some(e.itemId));
      CreationKeepsAll(before.created, before.itemTo, before.processed, before.executions, after.executions, key, newId, e.itemId);
    } else {
      AddingEvolves(before, after, newId, e.itemId);
      OthersKeepBridge(before.created, before.itemTo, before.processed, after.processed, before.executions, after.executions, key);
      RemembersMore(before.itemTo, before.processed, key, but, after.processed, None);
      BridgeKeepsOneOpen(after.created, after.itemTo, after.processed, after.executions, key);
    }
  }

  /** A retry for the empty item id takes the last ready event of any item, and makes a second
      execution when that item has an open one already. */
  predicate Doubles(events: seq<MondayEvent>, itemId: string, b: Books) {
    && itemId == "" && !Blocked(LookedUp(b.itemTo, b.ix, b.executions, itemId)) && Retriable(events, b.processed, itemId)
    && var item := Newest(events, itemId).value.itemId;
       item in b.itemTo && Blocked(LookedUp(b.itemTo, b.ix, b.executions, item))
  }

  /** A retry keeps one open execution per item exactly when it does not double. */
  lemma RetryKeepsIff(events: seq<MondayEvent>, itemId: string, newId: string, now: int, before: Books, after: Books,
                      out: Processing, key: string -> string)
    requires Retried(events, itemId, newId, now, before, after, out) && BooksOk(before, key, None) && AllFit(events, key)
    requires newId !in before.executions && newId != ""
    ensures OneOpenPerItem(after.created, after.executions) <==> !Doubles(events, itemId, before)
    ensures !Doubles(events, itemId, before) && !out.Crashed? ==> BooksOk(after, key, None)
    ensures if !Blocked(LookedUp(before.itemTo, before.ix, before.executions, itemId)) && Retriable(events, before.processed, itemId)
            then AddsOne(before, after, newId, Newest(events, itemId).value.itemId) else AddsNone(before, after)
  {
    var found := LookedUp(before.itemTo, before.ix, before.executions, itemId);
    CreatedAreKnown(before.created, before.itemTo, before.processed, before.executions, key);
    BridgeKeepsOneOpen(before.created, before.itemTo, before.processed, before.executions, key);
    if !Blocked(found) && Newest(events, itemId).Some? {
      NewestIsEvent(events, itemId);
      var e := Newest(events, itemId).value;
      assert Fits(e, key);
      if !Retriable(events, before.processed, itemId) {
        OthersKeepBridge(before.created, before.itemTo, before.processed, after.processed, before.executions, after.executions, key);
        RemembersMore(before.itemTo, before.processed, key, None, after.processed, None);
      } else if Doubles(events, itemId, before) {
        DoublingOpensTwo(e, newId, now, before, after, out, key);
      } else {
        RetryingKeeps(e, newId, now, before, after, out, key);
      }
    }
  }

  lemma DoublingOpensTwo(e: MondayEvent, newId: string, now: int, before: Books, after: Books, out: Processing, key: string -> string)
    requires BooksOk(before, key, None) && newId !in before.executions && e.itemId in before.itemTo
    requires Blocked(LookedUp(before.itemTo, before.ix, before.executions, e.itemId)) && newId !in before.created
    requires Makes(e, Forgetting(before.processed, e))
    requires Processed(e, newId, now, before.(processed := Forgetting(before.processed, e)), after, out)
    ensures !OneOpenPerItem(after.created, after.executions)
  {
    var x := before.itemTo[e.itemId];
    assert Tracked(before.created, before.itemTo, before.processed, before.executions, key, x);
    assert Open(after.created, after.executions, x) && Open(after.created, after.executions, newId);
    assert !Single(after.created, after.executions, x);
  }

  lemma RetryingKeeps(e: MondayEvent, newId: string, now: int, before: Books, after: Books, out: Processing, key: string -> string)
    requires BooksOk(before, key, None) && Fits(e, key) && e.eventType == READY && newId !in before.executions && newId != ""
    requires e.itemId in before.itemTo ==> !Blocked(LookedUp(before.itemTo, before.ix, before.executions, e.itemId))
    requires Processed(e, newId, now, before.(processed := Forgetting(before.processed, e)), after, out)
    ensures OneOpenPerItem(after.created, after.executions) && (!out.Crashed? ==> BooksOk(after, key, None))
  {
    var forgot := before.(processed := Forgetting(before.processed, e));
    if e.correlationId != "" {
      assert e.itemId in before.itemTo ==>
             Tracked(before.created, before.itemTo, before.processed, before.executions, key, before.itemTo[e.itemId]);
      DiscardKeepsBridge(before.created, before.itemTo, before.processed, before.executions, key, e.itemId);
      RemembersOthers(before.itemTo, before.processed, key, e.itemId);
      ProcessedKeeps(e, newId, now, forgot, after, out, key, Some(e.itemId));
    } else {
      ProcessedKeeps(e, newId, now, forgot, after, out, key, None);
    }
  }

  /** Such a retry exists: the item has an open execution, and gets a second one. */
  lemma EmptyRetryDoubles(p: Redaction.Patterns)
    ensures var e := MondayEvent("v", READY, "b", "i", "c", "", "", "", "", "");
            var before := Filed(e, "x", 1, Books({}, map[], map[], map[], Correlation.EMPTY, p));
            var after := Filed(e, "y", 2, before.(processed := {}));
            && Retried([e], "", "y", 2, before, after, Created(after.executions["y"]))
            && OneOpenPerItem(before.created, before.executions) && !OneOpenPerItem(after.created, after.executions)
  {
    var e := MondayEvent("v", READY, "b", "i", "c", "", "", "", "", "");
    var before := Filed(e, "x", 1, Books({}, map[], map[], map[], Correlation.EMPTY, p));
    var after := Filed(e, "y", 2, before.(processed := {}));
    NewestOfOne(e);
    assert Forgetting(before.processed, e) == {};
    SecondIsOpen(p, e);
  }

  lemma NewestOfOne(e: MondayEvent)
    requires e.eventType == READY
    ensures Newest([e], "") == Some(e)
  {
    assert [e][..0] == [];
    assert Ready([e], "") == Ready([e][..0], "") + [e] == [e];
    assert LastOf([e], 1) == [e];
  }

  lemma SecondIsOpen(p: Redaction.Patterns, e: MondayEvent)
    requires e == MondayEvent("v", READY, "b", "i", "c", "", "", "", "", "")
    ensures var before := Filed(e, "x", 1, Books({}, map[], map[], map[], Correlation.EMPTY, p));
            var after := Filed(e, "y", 2, before.(processed := {}));
            OneOpenPerItem(before.created, before.executions) && !OneOpenPerItem(after.created, after.executions)
  {
    var before := Filed(e, "x", 1, Books({}, map[], map[], map[], Correlation.EMPTY, p));
    var after := Filed(e, "y", 2, before.(processed := {}));
    forall x
      ensures Single(before.created, before.executions, x)
    {
    }
    assert Open(after.created, after.executions, "x") && Open(after.created, after.executions, "y");
    assert !Single(after.created, after.executions, "x");
  }

  lemma CreatedAreKnown(created: map<string, string>, itemTo: map<string, string>, processed: set<string>,
                        executions: Executions, key: string -> string)
    requires BridgeOk(created, itemTo, processed, executions, key)
    ensures created.Keys <= executions.Keys
  {
    forall x | x in created
      ensures x in executions
    {
      assert Tracked(created, itemTo, processed, executions, key, x);
    }
  }

  /* ---------- draining ---------- */

  /** The item got an execution that was not there before. */
  predicate NewFor(created0: map<string, string>, created: map<string, string>, itemId: string) {
    exists x :: x in created && x !in created0 && created[x] == itemId
  }

  /** One of the events is about the item, with a correlation that was not processed before. */
  predicate FirstSeen(events: seq<MondayEvent>, processed0: set<string>, itemId: string) {
    itemId != "" && exists e :: e in events && e.itemId == itemId && CorrOf(e) !in processed0
  }

  /** The correlations of the events are processed. */
  ghost predicate AllProcessed(events: seq<MondayEvent>, before: set<string>, after: set<string>) {
    forall c :: c in after <==> c in before || exists e :: e in events && CorrOf(e) == c
  }

  ghost predicate AllReady(events: seq<MondayEvent>) {
    forall e :: e in events ==> e.eventType == READY
  }

  lemma ReadyFits(events: seq<MondayEvent>, key: string -> string)
    requires AllFit(events, key)
    ensures var ready := LastOf(Ready(events, ""), 100); AllFit(ready, key) && AllReady(ready) && forall e :: e in ready ==> e in events
  {
    forall e | e in LastOf(Ready(events, ""), 100)
      ensures e.eventType == READY && Fits(e, key) && e in events
    {
      ReadyAreEvents(events, "", e);
    }
  }

  /** New executions come under ids of the list, each for an item of one of the events, and nothing
      else changes. */
  ghost predicate AddsFor(before: Books, after: Books, ids: seq<string>, events: seq<MondayEvent>) {
    && before.created.Keys <= after.created.Keys && (forall x :: x in before.created ==> after.created[x] == before.created[x])
    && (forall x {:trigger NewFrom(after, ids, events, x)} :: x in after.created && x !in before.created ==>
          NewFrom(after, ids, events, x) && x !in before.executions)
    && after.executions.Keys == before.executions.Keys + (after.created.Keys - before.created.Keys)
    && forall x :: x in before.executions ==> after.executions[x] == before.executions[x]
  }

  predicate NewFrom(after: Books, ids: seq<string>, events: seq<MondayEvent>, x: string)
    requires x in after.created
  {
    x in ids && ReadyFor(events, after.created[x])
  }

  predicate ReadyFor(events: seq<MondayEvent>, itemId: string) {
    exists e :: e in events && e.eventType == READY && e.itemId == itemId
  }

  lemma AddsOneMore(before: Books, midway: Books, after: Books, ids: seq<string>, id: string, events: seq<MondayEvent>, e: MondayEvent)
    requires AddsFor(before, midway, ids, events) && e.eventType == READY
    requires AddsOne(midway, after, id, e.itemId) || AddsNone(midway, after)
    ensures AddsFor(before, after, ids + [id], events + [e])
  {
    forall x | x in after.created && x !in before.created
      ensures NewFrom(after, ids + [id], events + [e], x) && x !in before.executions
    {
      if x in midway.created {
        assert NewFrom(midway, ids, events, x);
        var f :| f in events && f.eventType == READY && f.itemId == midway.created[x];
        assert f in events + [e];
      } else {
        assert x == id && e in events + [e];
      }
    }
  }

  lemma NextKeeps(events: seq<MondayEvent>, newIds: seq<string>, n: nat, now: int, b: Books, midway: Books, after: Books,
                  out: Processing, key: string -> string)
    requires n < |events| <= |newIds| && BooksOk(midway, key, None) && AddsFor(b, midway, newIds[..n], events[..n])
    requires newIds[n] !in midway.executions && newIds[n] != "" && events[n].eventType == READY && Fits(events[n], key)
    requires Processed(events[n], newIds[n], now, midway, after, out)
    ensures OneOpenPerItem(after.created, after.executions) && (!out.Crashed? ==> BooksOk(after, key, None))
    ensures AddsFor(b, after, newIds[..n + 1], events[..n + 1])
    ensures after.executions.Keys <= midway.executions.Keys + {newIds[n]}
  {
    ProcessedKeeps(events[n], newIds[n], now, midway, after, out, key, None);
    AddsOneMore(b, midway, after, newIds[..n], newIds[n], events[..n], events[n]);
    assert events[..n] + [events[n]] == events[..n + 1] && newIds[..n] + [newIds[n]] == newIds[..n + 1];
  }

  /** Draining keeps the books in order, and makes executions of the items it is told of. */
  lemma {:induction false} DrainedKeeps(events: seq<MondayEvent>, newIds: seq<string>, now: int, b: Books, key: string -> string)
    requires |events| <= |newIds| && AllDistinct(newIds) && Unclaimed(newIds, 0, b.executions) && "" !in newIds
    requires BooksOk(b, key, None) && AllFit(events, key) && AllReady(events)
    ensures var a := Drained(events, newIds, now, b);
            && BooksOk(a, key, None) && AddsFor(b, a, newIds[..|events|], events) && Unclaimed(newIds, |events|, a.executions)
  {
    if events != [] {
      var n := |events| - 1;
      var midway, after := Drained(events[..n], newIds, now, b), Drained(events, newIds, now, b);
      PrefixFits(events, n, key);
      DrainedKeeps(events[..n], newIds, now, b, key);
      assert events[n] in events && newIds[n] in newIds && events[..n + 1] == events;
      NextKeeps(events, newIds, n, now, b, midway, after, ShownFor(events[n], newIds[n], now, midway), key);
      ClaimedOne(newIds, n, midway.executions, after.executions);
    }
  }

  /** Exactly the items first seen in the events get an execution. */
  lemma {:induction false} DrainMakesFirstSeen(events: seq<MondayEvent>, newIds: seq<string>, now: int, b: Books, key: string -> string,
                                               itemId: string)
    requires |events| <= |newIds| && AllDistinct(newIds) && Unclaimed(newIds, 0, b.executions) && "" !in newIds
    requires BooksOk(b, key, None) && AllFit(events, key) && AllReady(events)
    ensures FirstSeenMade(events, b, Drained(events, newIds, now, b), itemId)
  {
    if events != [] {
      var n := |events| - 1;
      var midway := Drained(events[..n], newIds, now, b);
      PrefixFits(events, n, key);
      DrainMakesFirstSeen(events[..n], newIds, now, b, key, itemId);
      DrainedKeeps(events[..n], newIds, now, b, key);
      CreatedAreKnown(midway.created, midway.itemTo, midway.processed, midway.executions, key);
      assert events == events[..n] + [events[n]];
      FirstSeenNext(events[..n], events[n], newIds[n], now, b, midway, key, itemId);
    }
  }

  lemma PrefixFits(events: seq<MondayEvent>, n: nat, key: string -> string)
    requires n <= |events| && AllFit(events, key) && AllReady(events)
    ensures AllFit(events[..n], key) && AllReady(events[..n])
  {
  }

  /** The item has a new execution exactly when it is first seen; all correlations are processed. */
  ghost predicate FirstSeenMade(events: seq<MondayEvent>, before: Books, after: Books, itemId: string) {
    && (NewFor(before.created, after.created, itemId) <==> FirstSeen(events, before.processed, itemId))
    && AllProcessed(events, before.processed, after.processed)
  }

  lemma FirstSeenNext(events: seq<MondayEvent>, e: MondayEvent, newId: string, now: int, start: Books, midway: Books,
                      key: string -> string, itemId: string)
    requires FirstSeenMade(events, start, midway, itemId) && start.created.Keys <= midway.created.Keys
    requires newId !in midway.created && OneToOne(key) && AllFit(events + [e], key) && AllReady(events + [e])
    ensures FirstSeenMade(events + [e], start, AfterEvent(e, newId, now, midway), itemId)
  {
    var after := AfterEvent(e, newId, now, midway);
    assert e in events + [e] && Fits(e, key) && Lone(key, e.itemId);
    assert FirstSeen(events + [e], start.processed, itemId) <==>
           FirstSeen(events, start.processed, itemId) || (itemId != "" && e.itemId == itemId && CorrOf(e) !in start.processed);
    if Makes(e, midway.processed) && itemId == e.itemId {
      assert after.created[newId] == itemId && newId !in start.created;
    } else {
      assert NewFor(start.created, after.created, itemId) <==> NewFor(start.created, midway.created, itemId);
      if itemId == e.itemId && itemId != "" && CorrOf(e) !in start.processed {
        var f :| f in events && CorrOf(f) == CorrOf(e);
        assert f in events + [e] && Fits(f, key) && f.itemId == itemId;
      }
    }
  }

  /* ---------- runs ---------- */

  datatype Op =
    | Arrive(e: MondayEvent, newId: string)
    | Retry(itemId: string, newId: string)
    | Drain(newIds: seq<string>)
    | CancelItem(itemId: string)
    | Elsewhere(op: StoreRuns.Op)

  datatype Timed = Timed(op: Op, now: int)

  /** The ids an operation brings are new ones. */
  predicate Unused(op: Op, executions: Executions) {
    match op
    case Arrive(_, id) => id !in executions
    case Retry(_, id) => id !in executions
    case Drain(newIds) => Unclaimed(newIds, 0, executions)
    case _ => true
  }

  /** A retry names an item; the ids an operation brings are ids of executions. */
  ghost predicate Proper(op: Op, ids: set<string>, key: string -> string) {
    match op
    case Arrive(e, id) => id in ids && Fits(e, key)
    case Retry(itemId, id) => id in ids && itemId != ""
    case Drain(newIds) => |newIds| == 100 && AllDistinct(newIds) && forall id :: id in newIds ==> id in ids
    case Elsewhere(op) => !op.Restart? && (op.Create? ==> op.id in ids)
    case _ => true
  }

  /** The operation brings the id for the item. */
  predicate Brings(op: Op, id: string, itemId: string) {
    match op
    case Arrive(e, newId) => newId == id && e.itemId == itemId
    case Retry(item, newId) => newId == id && item == itemId
    case Drain(newIds) => id in newIds
    case _ => false
  }

  predicate AskedElsewhere(op: Op, id: string) { op.Elsewhere? && op.op.Create? && op.op.id == id }

  /** Every execution that comes up in an operation is one the bridge made for an item that a known
      event is about, under the id brought for it, or one that someone else asked for. */
  ghost predicate Accounted(op: Op, events: seq<MondayEvent>, before: Books, after: Books) {
    && before.created.Keys <= after.created.Keys && (forall x :: x in before.created ==> after.created[x] == before.created[x])
    && (forall x {:trigger BroughtBy(op, events, after, x)} :: x in after.created && x !in before.created ==>
          BroughtBy(op, events, after, x) && x !in before.executions && x in after.executions)
    && (forall x {:trigger AskedElsewhere(op, x)} ::
          x in after.executions && x !in before.executions && x !in after.created ==> AskedElsewhere(op, x))
  }

  predicate BroughtBy(op: Op, events: seq<MondayEvent>, after: Books, x: string)
    requires x in after.created
  {
    Brings(op, x, after.created[x]) && ReadyFor(events, after.created[x])
  }

  lemma OneIsAccounted(op: Op, events: seq<MondayEvent>, before: Books, after: Books, id: string, itemId: string)
    requires AddsNone(before, after) || (AddsOne(before, after, id, itemId) && Brings(op, id, itemId) && ReadyFor(events, itemId))
    ensures Accounted(op, events, before, after)
  {
    forall x | x in after.created && x !in before.created
      ensures BroughtBy(op, events, after, x)
    {
      assert x == id;
    }
  }

  lemma DrainIsAccounted(newIds: seq<string>, n: nat, ready: seq<MondayEvent>, events: seq<MondayEvent>, before: Books, after: Books)
    requires n <= |newIds| && AddsFor(before, after, newIds[..n], ready) && forall e :: e in ready ==> e in events
    ensures Accounted(Drain(newIds), events, before, after)
  {
    forall x | x in after.created && x !in before.created
      ensures BroughtBy(Drain(newIds), events, after, x) && x !in before.executions && x in after.executions
    {
      assert NewFrom(after, newIds[..n], ready, x);
      var e :| e in ready && e.eventType == READY && e.itemId == after.created[x];
      assert e in events;
    }
  }

  /** What one operation must leave. */
  ghost predicate InOrder(bridge: MondayRuntimeBridge, key: string -> string, crashed: bool)
    reads bridge, bridge.store, bridge.corr
  {
    && OneOpenPerItem(bridge.created, bridge.store.executions)
    && (!crashed ==> bridge.Valid() && BooksOk(bridge.State(), key, None))
  }

  method Perform(bridge: MondayRuntimeBridge, adapter: MondayAdapter, op: Op, now: int, ghost key: string -> string) returns (crashed: bool)
    requires InOrder(bridge, key, false) && AllFit(adapter.events, key) && Proper(op, bridge.store.ids, key)
    modifies bridge, adapter, bridge.store, bridge.corr
    ensures InOrder(bridge, key, crashed) && AllFit(adapter.events, key)
    ensures adapter.events == old(adapter.events) || (op.Arrive? && adapter.events == old(adapter.events) + [op.e])
    ensures old(bridge.store.persists) <= bridge.store.persists && crashed == bridge.DiedSince(old(bridge.store.persists))
    ensures Accounted(op, adapter.events, old(bridge.State()), bridge.State())
    ensures Evolves(old(bridge.store.executions), bridge.store.executions)
  {
    crashed := false;
    OneIsAccounted(op, adapter.events, bridge.State(), bridge.State(), "", "");
    StoreRuns.EvolvesRefl(bridge.store.executions);
    if !Unused(op, bridge.store.executions) {
      return;
    }
    match op {
      case Arrive(e, newId) =>
        crashed := TakeAndProcess(bridge, adapter, e, newId, now, key);
      case Retry(itemId, newId) =>
        crashed := RetryAndCheck(bridge, adapter, itemId, newId, now, key);
      case Drain(newIds) =>
        crashed := DrainAndCheck(bridge, adapter, newIds, now, key);
      case CancelItem(itemId) =>
        crashed := CancelAndCheck(bridge, itemId, now, key);
      case Elsewhere(other) =>
        crashed := PerformElsewhere(bridge, other, now, key);
        assert Accounted(op, adapter.events, old(bridge.State()), bridge.State());
    }
  }

  method TakeAndProcess(bridge: MondayRuntimeBridge, adapter: MondayAdapter, e: MondayEvent, newId: string, now: int,
                        ghost key: string -> string) returns (crashed: bool)
    requires InOrder(bridge, key, false) && AllFit(adapter.events, key) && Fits(e, key)
    requires newId in bridge.store.ids && newId !in bridge.store.executions
    modifies bridge, adapter, bridge.store, bridge.corr
    ensures InOrder(bridge, key, crashed) && AllFit(adapter.events, key)
    ensures adapter.events == old(adapter.events) || adapter.events == old(adapter.events) + [e]
    ensures old(bridge.store.persists) <= bridge.store.persists && crashed == bridge.DiedSince(old(bridge.store.persists))
    ensures Accounted(Arrive(e, newId), adapter.events, old(bridge.State()), bridge.State())
    ensures Evolves(old(bridge.store.executions), bridge.store.executions)
  {
    crashed := false;
    ghost var before := bridge.State();
    OneIsAccounted(Arrive(e, newId), adapter.events, before, before, "", "");
    AddingEvolves(before, before, "", "");
    var taken := adapter.Take(e);
    if taken && e.eventType == READY {
      var out := bridge.ProcessEvent(e, newId, now);
      crashed := out.Crashed?;
      ProcessedKeeps(e, newId, now, before, bridge.State(), out, key, None);
      assert ReadyFor(adapter.events, e.itemId);
      OneIsAccounted(Arrive(e, newId), adapter.events, before, bridge.State(), newId, e.itemId);
      AddingEvolves(before, bridge.State(), newId, e.itemId);
    } else {
      OneIsAccounted(Arrive(e, newId), adapter.events, before, bridge.State(), "", "");
    }
  }

  method RetryAndCheck(bridge: MondayRuntimeBridge, adapter: MondayAdapter, itemId: string, newId: string, now: int,
                       ghost key: string -> string) returns (crashed: bool)
    requires InOrder(bridge, key, false) && AllFit(adapter.events, key) && itemId != ""
    requires newId in bridge.store.ids && newId !in bridge.store.executions
    modifies bridge, bridge.store, bridge.corr
    ensures InOrder(bridge, key, crashed)
    ensures old(bridge.store.persists) <= bridge.store.persists && crashed == bridge.DiedSince(old(bridge.store.persists))
    ensures Accounted(Retry(itemId, newId), adapter.events, old(bridge.State()), bridge.State())
    ensures Evolves(old(bridge.store.executions), bridge.store.executions)
  {
    ghost var before := bridge.State();
    var out := bridge.RetryForItem(itemId, adapter, newId, now);
    crashed := out.Crashed?;
    RetryKeepsIff(adapter.events, itemId, newId, now, before, bridge.State(), out, key);
    RetryIsAccounted(adapter.events, itemId, newId, now, before, bridge.State(), out, key);
  }

  lemma RetryIsAccounted(events: seq<MondayEvent>, itemId: string, newId: string, now: int, before: Books, after: Books, out: Processing,
                         key: string -> string)
    requires Retried(events, itemId, newId, now, before, after, out) && BooksOk(before, key, None) && AllFit(events, key)
    requires newId !in before.executions && newId != "" && itemId != ""
    ensures Accounted(Retry(itemId, newId), events, before, after) && Evolves(before.executions, after.executions)
  {
    RetryKeepsIff(events, itemId, newId, now, before, after, out, key);
    if Newest(events, itemId).Some? {
      NewestIsEvent(events, itemId);
      assert ReadyFor(events, itemId);
    }
    OneIsAccounted(Retry(itemId, newId), events, before, after, newId, itemId);
    AddingEvolves(before, after, newId, itemId);
  }

  method DrainAndCheck(bridge: MondayRuntimeBridge, adapter: MondayAdapter, newIds: seq<string>, now: int, ghost key: string -> string)
      returns (crashed: bool)
    requires InOrder(bridge, key, false) && AllFit(adapter.events, key) && Proper(Drain(newIds), bridge.store.ids, key)
    requires Unclaimed(newIds, 0, bridge.store.executions)
    modifies bridge, bridge.store, bridge.corr
    ensures InOrder(bridge, key, crashed)
    ensures old(bridge.store.persists) <= bridge.store.persists && crashed == bridge.DiedSince(old(bridge.store.persists))
    ensures Accounted(Drain(newIds), adapter.events, old(bridge.State()), bridge.State())
    ensures Evolves(old(bridge.store.executions), bridge.store.executions)
  {
    ghost var before := bridge.State();
    var count;
    count, crashed := bridge.DrainPending(adapter, newIds, now);
    DrainKeeps(adapter.events, newIds, now, before, bridge.State(), crashed, key);
  }

  lemma DrainKeeps(events: seq<MondayEvent>, newIds: seq<string>, now: int, before: Books, after: Books, crashed: bool, key: string -> string)
    requires BooksOk(before, key, None) && AllFit(events, key) && |newIds| == 100 && AllDistinct(newIds) && "" !in newIds
    requires Unclaimed(newIds, 0, before.executions)
    requires var ready := LastOf(Ready(events, ""), 100);
             if crashed then DiedDraining(ready, newIds, now, before, after) else after == Drained(ready, newIds, now, before)
    ensures OneOpenPerItem(after.created, after.executions) && (!crashed ==> BooksOk(after, key, None))
    ensures Accounted(Drain(newIds), events, before, after) && Evolves(before.executions, after.executions)
  {
    var ready := LastOf(Ready(events, ""), 100);
    ReadyFits(events, key);
    if crashed {
      var n: nat :| n < |ready| && DiedAt(ready, newIds, now, before, after, n);
      DyingKeeps(ready, newIds, n, now, before, after, key);
      DrainIsAccounted(newIds, n + 1, ready[..n + 1], events, before, after);
      AddsEvolve(before, after, newIds[..n + 1], ready[..n + 1]);
    } else {
      DrainedKeeps(ready, newIds, now, before, key);
      BridgeKeepsOneOpen(after.created, after.itemTo, after.processed, after.executions, key);
      DrainIsAccounted(newIds, |ready|, ready, events, before, after);
      AddsEvolve(before, after, newIds[..|ready|], ready);
    }
  }

  lemma DyingKeeps(ready: seq<MondayEvent>, newIds: seq<string>, n: nat, now: int, before: Books, after: Books, key: string -> string)
    requires n < |ready| <= |newIds| && DiedAt(ready, newIds, now, before, after, n)
    requires BooksOk(before, key, None) && AllFit(ready, key) && AllReady(ready)
    requires AllDistinct(newIds) && "" !in newIds && Unclaimed(newIds, 0, before.executions)
    ensures OneOpenPerItem(after.created, after.executions) && AddsFor(before, after, newIds[..n + 1], ready[..n + 1])
  {
    var midway := Drained(ready[..n], newIds, now, before);
    PrefixFits(ready, n, key);
    DrainedKeeps(ready[..n], newIds, now, before, key);
    assert ready[n] in ready && newIds[n] in newIds;
    NextKeeps(ready, newIds, n, now, before, midway, after, Processing.Crashed, key);
  }

  lemma AddsEvolve(before: Books, after: Books, ids: seq<string>, events: seq<MondayEvent>)
    requires AddsFor(before, after, ids, events)
    ensures Evolves(before.executions, after.executions)
  {
  }

  method CancelAndCheck(bridge: MondayRuntimeBridge, itemId: string, now: int, ghost key: string -> string) returns (crashed: bool)
    requires InOrder(bridge, key, false)
    modifies bridge.store
    ensures InOrder(bridge, key, false)
    ensures old(bridge.store.persists) <= bridge.store.persists && crashed == bridge.DiedSince(old(bridge.store.persists))
    ensures bridge.store.executions.Keys == old(bridge.store.executions).Keys
    ensures Evolves(old(bridge.store.executions), bridge.store.executions)
  {
    ghost var before := bridge.State();
    var snap;
    snap, crashed := bridge.CancelForItem(itemId, now);
    OthersKeepBooks(before, bridge.State(), key);
  }

  lemma OthersKeepBooks(before: Books, after: Books, key: string -> string)
    requires BooksOk(before, key, None) && Evolves(before.executions, after.executions) && "" !in after.executions
    requires after == before.(executions := after.executions)
    ensures BooksOk(after, key, None) && OneOpenPerItem(after.created, after.executions)
  {
    OthersKeepBridge(before.created, before.itemTo, before.processed, before.processed, before.executions, after.executions, key);
    BridgeKeepsOneOpen(after.created, after.itemTo, after.processed, after.executions, key);
  }

  method PerformElsewhere(bridge: MondayRuntimeBridge, op: StoreRuns.Op, now: int, ghost key: string -> string) returns (crashed: bool)
    requires InOrder(bridge, key, false) && !op.Restart? && (op.Create? ==> op.id in bridge.store.ids)
    modifies bridge.store
    ensures InOrder(bridge, key, crashed)
    ensures old(bridge.store.persists) <= bridge.store.persists && crashed == bridge.DiedSince(old(bridge.store.persists))
    ensures bridge.store.executions.Keys <= old(bridge.store.executions).Keys + (if op.Create? then {op.id} else {})
    ensures Evolves(old(bridge.store.executions), bridge.store.executions)
  {
    ghost var before := bridge.State();
    crashed := StoreRuns.Perform(bridge.store, op, now);
    OthersKeepBooks(before, bridge.State(), key);
  }

  /* ---------- whole runs ---------- */

  /** An event the bridge was told of in the run, or had been before. */
  predicate Told(script: seq<Timed>, events: seq<MondayEvent>, e: MondayEvent) {
    e in events || exists step :: step in script && step.op.Arrive? && step.op.e == e
  }

  /** A step brought the id for the item, which a ready event was about. */
  ghost predicate Brought(script: seq<Timed>, events: seq<MondayEvent>, id: string, itemId: string) {
    && (exists step :: step in script && Brings(step.op, id, itemId))
    && exists e {:trigger Told(script, events, e)} :: Told(script, events, e) && e.eventType == READY && e.itemId == itemId
  }

  /** Someone else asked for an execution with this id. */
  predicate MadeElsewhere(script: seq<Timed>, id: string) {
    exists step :: step in script && AskedElsewhere(step.op, id)
  }

  /** Every execution that is new is one the bridge made for an item it was told of, under an id
      brought for that item, or someone else's. */
  ghost predicate AllAccounted(script: seq<Timed>, events: seq<MondayEvent>, before: Books, after: Books) {
    && before.created.Keys <= after.created.Keys && (forall x :: x in before.created ==> after.created[x] == before.created[x])
    && (forall x {:trigger BroughtIn(script, events, after, x)} :: x in after.created && x !in before.created ==>
          BroughtIn(script, events, after, x) && x !in before.executions && x in after.executions)
    && (forall x {:trigger MadeElsewhere(script, x)} ::
          x in after.executions && x !in before.executions && x !in after.created ==> MadeElsewhere(script, x))
  }

  ghost predicate BroughtIn(script: seq<Timed>, events: seq<MondayEvent>, after: Books, x: string)
    requires x in after.created
  {
    Brought(script, events, x, after.created[x])
  }

  ghost predicate AllTold(script: seq<Timed>, events: seq<MondayEvent>, known: seq<MondayEvent>) {
    forall e {:trigger Told(script, events, e)} :: e in known ==> Told(script, events, e)
  }

  lemma ToldMore(script: seq<Timed>, more: seq<Timed>, events: seq<MondayEvent>, e: MondayEvent)
    requires Told(script, events, e)
    ensures Told(script + more, events, e)
  {
    if e !in events {
      var step :| step in script && step.op.Arrive? && step.op.e == e;
      assert step in script + more;
    }
  }

  lemma BroughtMore(script: seq<Timed>, more: seq<Timed>, events: seq<MondayEvent>, id: string, itemId: string)
    requires Brought(script, events, id, itemId)
    ensures Brought(script + more, events, id, itemId)
  {
    var step :| step in script && Brings(step.op, id, itemId);
    assert step in script + more;
    var e :| Told(script, events, e) && e.eventType == READY && e.itemId == itemId;
    ToldMore(script, more, events, e);
  }

  lemma MadeElsewhereMore(script: seq<Timed>, more: seq<Timed>, id: string)
    requires MadeElsewhere(script, id)
    ensures MadeElsewhere(script + more, id)
  {
    var step :| step in script && AskedElsewhere(step.op, id);
    assert step in script + more;
  }

  lemma AccountedNext(script: seq<Timed>, step: Timed, events: seq<MondayEvent>, known: seq<MondayEvent>, start: Books, before: Books,
                      after: Books)
    requires AllAccounted(script, events, start, before) && Accounted(step.op, known, before, after)
    requires AllTold(script + [step], events, known)
    requires before.created.Keys <= before.executions.Keys <= after.executions.Keys && start.executions.Keys <= before.executions.Keys
    ensures AllAccounted(script + [step], events, start, after)
  {
    forall x | x in after.created && x !in start.created
      ensures BroughtIn(script + [step], events, after, x) && x !in start.executions && x in after.executions
    {
      if x in before.created {
        assert BroughtIn(script, events, before, x);
        BroughtMore(script, [step], events, x, before.created[x]);
      } else {
        assert BroughtBy(step.op, known, after, x) && step in script + [step];
        var e :| e in known && e.eventType == READY && e.itemId == after.created[x];
        assert Told(script + [step], events, e);
      }
    }
    forall x | x in after.executions && x !in start.executions && x !in after.created
      ensures MadeElsewhere(script + [step], x)
    {
      if x in before.executions {
        assert MadeElsewhere(script, x);
        MadeElsewhereMore(script, [step], x);
      } else {
        assert AskedElsewhere(step.op, x) && step in script + [step];
      }
    }
  }

  lemma AllAccountedMore(script: seq<Timed>, more: seq<Timed>, events: seq<MondayEvent>, before: Books, after: Books)
    requires AllAccounted(script, events, before, after)
    ensures AllAccounted(script + more, events, before, after)
  {
    forall x | x in after.created && x !in before.created
      ensures BroughtIn(script + more, events, after, x) && x !in before.executions && x in after.executions
    {
      assert BroughtIn(script, events, after, x);
      BroughtMore(script, more, events, x, after.created[x]);
    }
    forall x | x in after.executions && x !in before.executions && x !in after.created
      ensures MadeElsewhere(script + more, x)
    {
      assert MadeElsewhere(script, x);
      MadeElsewhereMore(script, more, x);
    }
  }

  lemma ToldNext(script: seq<Timed>, step: Timed, events: seq<MondayEvent>, known: seq<MondayEvent>, known': seq<MondayEvent>)
    requires AllTold(script, events, known) && (known' == known || (step.op.Arrive? && known' == known + [step.op.e]))
    ensures AllTold(script + [step], events, known')
  {
    forall e | e in known'
      ensures Told(script + [step], events, e)
    {
      if e in known {
        ToldMore(script, [step], events, e);
      } else {
        assert step in script + [step];
      }
    }
  }

  lemma EvolvesKnows(a: Executions, b: Executions)
    requires Evolves(a, b)
    ensures a.Keys <= b.Keys
  {
    forall x | x in a
      ensures x in b
    {
      assert Continues(a, b, x);
    }
  }

  /** In every state of any run, mixed with any other use of the execution store, an item has at
      most one open execution that the bridge made; and the executions that came up in the run are
      those the bridge made for items it was told of and those others asked for. The run ends early
      when the process dies persisting, and all of this holds of what was in memory then. */
  method Run(bridge: MondayRuntimeBridge, adapter: MondayAdapter, script: seq<Timed>, ghost key: string -> string) returns (crashed: bool)
    requires InOrder(bridge, key, false) && AllFit(adapter.events, key)
    requires forall step :: step in script ==> Proper(step.op, bridge.store.ids, key)
    modifies bridge, adapter, bridge.store, bridge.corr
    ensures InOrder(bridge, key, crashed)
    ensures old(bridge.store.persists) <= bridge.store.persists && crashed == bridge.DiedSince(old(bridge.store.persists))
    ensures AllAccounted(script, old(adapter.events), old(bridge.State()), bridge.State())
    ensures Evolves(old(bridge.store.executions), bridge.store.executions)
  {
    crashed := false;
    ghost var begun, start := bridge.store.persists, bridge.State();
    StoreRuns.EvolvesRefl(bridge.store.executions);
    for i := 0 to |script|
      invariant !crashed && InOrder(bridge, key, false) && AllFit(adapter.events, key)
      invariant begun <= bridge.store.persists && !bridge.DiedSince(begun)
      invariant AllTold(script[..i], old(adapter.events), adapter.events)
      invariant AllAccounted(script[..i], old(adapter.events), start, bridge.State())
      invariant Evolves(start.executions, bridge.store.executions)
    {
      assert script[i] in script && script[..i + 1] == script[..i] + [script[i]];
      crashed := RunOne(bridge, adapter, script[..i], script[i], begun, old(adapter.events), start, key);
      if crashed {
        AllAccountedMore(script[..i + 1], script[i + 1..], old(adapter.events), start, bridge.State());
        assert script[..i + 1] + script[i + 1..] == script;
        return;
      }
    }
    assert script[..|script|] == script;
  }

  method RunOne(bridge: MondayRuntimeBridge, adapter: MondayAdapter, ghost script: seq<Timed>, step: Timed, ghost begun: nat,
                ghost events: seq<MondayEvent>, ghost start: Books, ghost key: string -> string) returns (crashed: bool)
    requires InOrder(bridge, key, false) && AllFit(adapter.events, key) && Proper(step.op, bridge.store.ids, key)
    requires begun <= bridge.store.persists && !bridge.DiedSince(begun) && AllTold(script, events, adapter.events)
    requires AllAccounted(script, events, start, bridge.State()) && Evolves(start.executions, bridge.store.executions)
    modifies bridge, adapter, bridge.store, bridge.corr
    ensures InOrder(bridge, key, crashed) && AllFit(adapter.events, key)
    ensures begun <= bridge.store.persists && crashed == bridge.DiedSince(begun) && AllTold(script + [step], events, adapter.events)
    ensures AllAccounted(script + [step], events, start, bridge.State()) && Evolves(start.executions, bridge.store.executions)
  {
    ghost var before, now, known := bridge.State(), bridge.store.persists, adapter.events;
    CreatedAreKnown(before.created, before.itemTo, before.processed, before.executions, key);
    crashed := Perform(bridge, adapter, step.op, step.now, key);
    CrashedSplits(bridge.store.fate, begun, now, bridge.store.persists);
    EvolvesKnows(start.executions, before.executions);
    EvolvesKnows(before.executions, bridge.store.executions);
    EvolvesTransitive(start.executions, before.executions, bridge.store.executions);
    ToldNext(script, step, events, known, adapter.events);
    AccountedNext(script, step, events, adapter.events, start, before, bridge.State());
  }
}
