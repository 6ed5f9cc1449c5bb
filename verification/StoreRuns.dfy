/** Whole runs of the execution store: any operations in any order, a crash inside any of them,
    and a new process over the same directory after each crash or whenever asked. */
module StoreRuns {
  import opened Options
  import opened Lifecycle
  import opened Fleets
  import opened ExecutionStore

  datatype Op =
    | Create(id: string, taskId: string, sessionId: string, agentId: Option<string>, metadata: map<string, string>)
    | Start(id: string) | Pause(id: string) | Resume(id: string) | Cancel(id: string)
    | Complete(id: string, result: Option<string>) | Fail(id: string, error: string)
    | UpsertFleet(fleet: Fleet) | CancelFleet(taskId: string)
    | RecoverStale(maxAge: int, dryRun: bool)
    | Restart

  datatype Timed = Timed(op: Op, now: int)

  /** The calls that only steer an existing execution. */
  method Steer(store: ExecutionObserverStore, op: Op, now: int) returns (crashed: bool)
    requires store.Valid()
    modifies store
    ensures store.Valid() && Evolves(old(store.executions), store.executions)
    ensures DiskGrows(old(store.files), store.files, store.ids)
    ensures old(store.persists) <= store.persists && crashed == CrashedIn(store.fate, old(store.persists), store.persists)
    ensures !store.durable ==> store.persists == old(store.persists)
    ensures store.executions.Keys == old(store.executions).Keys
    ensures old(store.events) <= store.events && store.base == old(store.base) && store.since == old(store.since)
  {
    var out: Outcome := UnknownExecution;
    match op {
      case Start(id) => out := store.Start(id, now);
      case Pause(id) => out := store.Pause(id, now);
      case Resume(id) => out := store.Resume(id, now);
      case Cancel(id) => out := store.Cancel(id, now);
      case Complete(id, result) => out := store.Complete(id, result, now);
      case Fail(id, error) => out := store.Fail(id, error, now);
      case _ =>
    }
    crashed := out.Crashed?;
  }

  /** What an operation other than a restart keeps: nothing is dropped, no history shrinks, what has
      ended stays, the log is only added to, and as long as persists land so does everything else. */
  ghost predicate LivesOn(durable: bool, fate: nat -> Fate, before: Moment, after: Moment) {
    && Evolves(before.executions, after.executions) && LogKept(before.events, before.base, after.events, after.base)
    && before.since == after.since && before.persists <= after.persists
    && (durable ==> StaysSynced(fate, before.persists, after.persists, before.executions, before.synced, after.executions, after.synced))
  }

  /** What the results about runs speak of. */
  datatype Moment = Moment(executions: Executions, events: seq<Event>, base: map<string, seq<Status>>, synced: set<string>,
                           since: nat, persists: nat)

  ghost function At(store: ExecutionObserverStore): Moment
    reads store
  {
    Moment(store.executions, store.events, store.base, store.synced, store.since, store.persists)
  }

  lemma LivesOnTransitive(durable: bool, fate: nat -> Fate, a: Moment, b: Moment, c: Moment)
    requires LivesOn(durable, fate, a, b) && LivesOn(durable, fate, b, c)
    ensures LivesOn(durable, fate, a, c)
  {
    EvolvesTransitive(a.executions, b.executions, c.executions);
    forall id | id in c.base
      ensures BaseKept(a.base, c.base, id)
    {
      assert BaseKept(b.base, c.base, id) && (id in b.base ==> BaseKept(a.base, b.base, id));
    }
  }

  method SteerOn(store: ExecutionObserverStore, op: Op, now: int) returns (crashed: bool)
    requires store.Valid()
    modifies store
    ensures store.Valid() && DiskGrows(old(store.files), store.files, store.ids)
    ensures crashed == CrashedIn(store.fate, old(store.persists), store.persists)
    ensures !store.durable ==> store.persists == old(store.persists)
    ensures store.executions.Keys == old(store.executions).Keys
    ensures LivesOn(store.durable, store.fate, old(At(store)), At(store))
  {
    crashed := Steer(store, op, now);
    if store.durable {
      SyncStays(old(store.events), old(store.seqNo), old(store.base), store.events, store.since, old(store.persists), store.persists,
                store.fate, old(store.executions), old(store.synced), store.executions, store.synced);
    }
  }

  /** The calls that look at many executions. */
  method Sweep(store: ExecutionObserverStore, op: Op, now: int) returns (crashed: bool)
    requires store.Valid() && (op.CancelFleet? || op.RecoverStale?)
    modifies store
    ensures store.Valid() && DiskGrows(old(store.files), store.files, store.ids)
    ensures crashed == CrashedIn(store.fate, old(store.persists), store.persists)
    ensures !store.durable ==> store.persists == old(store.persists)
    ensures store.executions.Keys == old(store.executions).Keys
    ensures LivesOn(store.durable, store.fate, old(At(store)), At(store))
  {
    if op.CancelFleet? {
      var out := store.CancelFleet(op.taskId, now);
      crashed := out.FleetCrashed?;
    } else {
      var findings;
      findings, crashed := store.RecoverStale(op.maxAge, now, op.dryRun);
    }
  }

  method Create(store: ExecutionObserverStore, op: Op, now: int) returns (crashed: bool)
    requires store.Valid() && op.Create? && op.id in store.ids
    modifies store
    ensures store.Consistent() && (!crashed ==> store.Valid()) && DiskGrows(old(store.files), store.files, store.ids)
    ensures crashed == CrashedIn(store.fate, old(store.persists), store.persists)
    ensures !store.durable ==> store.persists == old(store.persists)
    ensures store.executions.Keys == old(store.executions).Keys + {op.id}
    ensures LivesOn(store.durable, store.fate, old(At(store)), At(store))
  {
    crashed := false;
    if op.id !in store.executions {
      ghost var at := store.persists;
      var out := store.CreateExecution(op.id, op.taskId, op.sessionId, op.agentId, op.metadata, now);
      crashed := out.Crashed?;
      assert store.durable && AllLand(store.fate, at, store.persists) ==> Lands(store.fate(at));
    } else {
      EvolvesRefl(store.executions);
    }
  }

  lemma EvolvesRefl(executions: Executions)
    ensures Evolves(executions, executions)
  {
  }

  method Perform(store: ExecutionObserverStore, op: Op, now: int) returns (crashed: bool)
    requires store.Valid() && (op.Create? ==> op.id in store.ids)
    modifies store
    ensures store.Consistent() && (!crashed ==> store.Valid()) && (crashed ==> !op.Restart?)
    ensures old(store.persists) <= store.persists && crashed == CrashedIn(store.fate, old(store.persists), store.persists)
    ensures !store.durable ==> store.persists == old(store.persists)
    ensures !op.Restart? ==> store.executions.Keys == old(store.executions).Keys + (if op.Create? then {op.id} else {})
    ensures !op.Restart? ==> LivesOn(store.durable, store.fate, old(At(store)), At(store))
    ensures op.Restart? ==> Reborn(store.files, store.ids, old(At(store)), At(store))
    ensures DiskGrows(old(store.files), store.files, store.ids)
  {
    crashed := false;
    match op
    case Create(_, _, _, _, _) => crashed := Create(store, op, now);
    case UpsertFleet(fleet) => store.UpsertFleet(fleet);
    case CancelFleet(_) => crashed := Sweep(store, op, now);
    case RecoverStale(_, _) => crashed := Sweep(store, op, now);
    case Restart => store.Restart();
    case _ =>
      crashed := SteerOn(store, op, now);
  }

  /** What a new process finds: each execution on disk, in sync; none ahead of what it was, and one
      that was in sync with its whole core. */
  ghost predicate Reborn(files: Files, ids: set<string>, before: Moment, after: Moment) {
    && AllReloaded(files, before.executions, before.synced, after.executions, ids)
    && after.synced == after.executions.Keys && after.events == [] && after.base == Histories(after.executions)
    && after.persists == before.persists == after.since
  }

  predicate NoRestart(script: seq<Timed>) {
    forall i :: 0 <= i < |script| ==> !script[i].op.Restart?
  }

  /** Everything in memory is on disk, and nothing of what there was before is lost. */
  ghost predicate NothingLost(before: Moment, after: Moment) {
    after.synced == after.executions.Keys && Evolves(before.executions, after.executions)
  }

  /** When everything is in sync, a new process has lost nothing. */
  lemma RebirthLosesNothing(files: Files, ids: set<string>, start: Moment, before: Moment, after: Moment)
    requires NothingLost(start, before) && Reborn(files, ids, before, after)
    ensures NothingLost(start, after)
  {
    forall id | id in before.executions
      ensures Continues(before.executions, after.executions, id)
    {
      assert Reloaded(files, before.executions, before.synced, after.executions, ids, id);
    }
    EvolvesTransitive(start.executions, before.executions, after.executions);
  }

  lemma LandingLosesNothing(fate: nat -> Fate, start: Moment, before: Moment, after: Moment)
    requires NothingLost(start, before) && LivesOn(true, fate, before, after) && AllLand(fate, before.persists, after.persists)
    ensures NothingLost(start, after)
  {
    EvolvesTransitive(start.executions, before.executions, after.executions);
  }

  /** Whatever is asked, and wherever the process dies, every state a new process or a caller can
      see is a legal one, and what is durable is never lost or shortened. In one process life, that
      is between restarts and crashes, no execution is dropped, no history shrinks, what has ended
      stays as it ended, and the log is only added to. When all persists land, also those in which
      the process dies, restarts and crashes lose nothing of that. */
  method Drive(store: ExecutionObserverStore, script: seq<Timed>)
    requires store.Valid() && forall step :: step in script && step.op.Create? ==> step.op.id in store.ids
    modifies store
    ensures store.Valid() && old(store.persists) <= store.persists
    ensures DiskGrows(old(store.files), store.files, store.ids)
    ensures NoRestart(script) && !CrashedIn(store.fate, old(store.persists), store.persists) ==>
              LivesOn(store.durable, store.fate, old(At(store)), At(store))
    ensures store.durable && NothingLost(old(At(store)), old(At(store))) && AllLand(store.fate, old(store.persists), store.persists) ==>
              NothingLost(old(At(store)), At(store))
    ensures !store.durable ==> store.persists == old(store.persists)
  {
    ghost var start := At(store);
    EvolvesRefl(store.executions);
    for i := 0 to |script|
      invariant store.Valid() && start.persists <= store.persists
      invariant DiskGrows(old(store.files), store.files, store.ids)
      invariant NoRestart(script[..i]) && !CrashedIn(store.fate, start.persists, store.persists) ==>
                  LivesOn(store.durable, store.fate, start, At(store))
      invariant store.durable && NothingLost(start, start) && AllLand(store.fate, start.persists, store.persists) ==>
                  NothingLost(start, At(store))
      invariant !store.durable ==> store.persists == start.persists
    {
      assert script[i] in script;
      assert script[..i + 1] == script[..i] + [script[i]];
      ghost var disk := store.files;
      DriveOne(store, script[i], start);
      DiskGrowsTransitive(old(store.files), disk, store.files, store.ids);
      assert NoRestart(script[..i + 1]) ==> NoRestart(script[..i]) && !script[i].op.Restart? by {
        assert forall k :: 0 <= k < i ==> script[..i][k] == script[..i + 1][k];
        assert script[..i + 1][i] == script[i];
      }
    }
    assert script[..|script|] == script;
  }

  /** One operation, and a new process when the old one dies in it. */
  method DriveOne(store: ExecutionObserverStore, step: Timed, ghost start: Moment)
    requires store.Valid() && (step.op.Create? ==> step.op.id in store.ids) && start.persists <= store.persists
    modifies store
    ensures store.Valid() && old(store.persists) <= store.persists && DiskGrows(old(store.files), store.files, store.ids)
    ensures !step.op.Restart? && !CrashedIn(store.fate, start.persists, store.persists) ==>
              !CrashedIn(store.fate, start.persists, old(store.persists))
              && (LivesOn(store.durable, store.fate, start, old(At(store))) ==> LivesOn(store.durable, store.fate, start, At(store)))
    ensures store.durable && AllLand(store.fate, start.persists, store.persists) ==>
              AllLand(store.fate, start.persists, old(store.persists))
              && (NothingLost(start, old(At(store))) ==> NothingLost(start, At(store)))
    ensures !store.durable ==> store.persists == old(store.persists)
  {
    ghost var before := At(store);
    var crashed := Perform(store, step.op, step.now);
    CrashedSplits(store.fate, start.persists, before.persists, store.persists);
    ghost var after := At(store);
    if !step.op.Restart? && LivesOn(store.durable, store.fate, start, before) {
      LivesOnTransitive(store.durable, store.fate, start, before, after);
    }
    ghost var kept := store.durable && AllLand(store.fate, start.persists, store.persists) && NothingLost(start, before);
    if kept && step.op.Restart? {
      RebirthLosesNothing(store.files, store.ids, start, before, after);
    }
    if kept && !step.op.Restart? {
      LandingLosesNothing(store.fate, start, before, after);
    }
    if crashed {
      store.Restart();
      if kept {
        RebirthLosesNothing(store.files, store.ids, start, after, At(store));
      }
    }
  }

  /** A terminal status that has reached the disk is there for good: nothing after it in any
      later durable history of the execution. */
  lemma DurableEndingIsFinal(before: Files, after: Files, executions: Executions, ids: set<string>, synced: set<string>, id: string, i: nat)
    requires DiskOk(after, executions, ids, synced) && DiskGrows(before, after, ids) && id in ids
    requires i < |DurableHistory(before, id)| && Terminal(DurableHistory(before, id)[i])
    ensures DurableHistory(after, id) == DurableHistory(before, id) && i == |DurableHistory(before, id)| - 1
    ensures Terminal(after[DataName(id)].snap.status)
  {
    assert Behind(after, executions, id);
    assert DurableHistory(before, id) <= DurableHistory(after, id);
    TerminalEndsHistory(DurableHistory(after, id), i);
  }
}
