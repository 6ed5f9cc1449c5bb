/** GitHub events: each is taken once, and moves at most the one execution that all its keys
    agree on. */
module GithubAdapter {
  import opened Options
  import opened Decimals
  import opened Lifecycle
  import opened ExecutionStore
  import opened Correlation

  datatype GithubEvent = GithubEvent(
    eventId: string, keys: Keys, checkName: string, checkConclusion: string, checkStatus: string,
    prState: string, prMerged: bool)

  datatype Reaction = Finish | Blame | Begin | Leave

  /** What the event asks of an execution in the given status. */
  function ReactionTo(e: GithubEvent, status: Status): Reaction {
    if e.prMerged then (if Terminal(status) then Leave else Finish)
    else if e.checkConclusion == "failure" && status.Running? then Blame
    else if e.checkStatus == "in_progress" && status.Queued? then Begin
    else if e.prState == "open" && status.Queued? then Begin
    else Leave
  }

  function MergedResult(pr: Option<int>): string {
    "merged, pr " + if pr.Some? then Str(pr.value) else "None"
  }

  function CiError(e: GithubEvent): string { "CI failed: " + e.checkName }

  /** The executions after the event reached the given one. A queued execution whose pull request
      is merged keeps its status: the result is written, the transition is refused. */
  function Reacted(executions: Executions, id: string, e: GithubEvent, scrub: string -> string, now: int): Executions
    requires id in executions
  {
    var rec := executions[id];
    match ReactionTo(e, rec.status)
    case Leave => executions
    case Begin => executions[id := Advance(rec, Running, now)]
    case Blame => executions[id := Advance(WithError(rec, scrub, CiError(e)), Failed, now)]
    case Finish =>
      var written := WithResult(rec, scrub, Some(MergedResult(e.keys.pr)));
      executions[id := if rec.status.Running? then Advance(written, Succeeded, now) else written]
  }

  /** The registration that enriches the matched record. */
  function Enrichment(rec: Record, e: GithubEvent): Binding {
    Binding(rec.executionId, rec.correlationId, "", "", "",
            Or(e.keys.repo, rec.repo), None, OrKept(e.keys.pr, rec.pr), Or(e.keys.sha, rec.sha),
            if e.checkConclusion != "" then Some(e.checkConclusion)
            else if e.checkStatus != "" then Some(e.checkStatus) else rec.ciStatus,
            map[])
  }

  lemma EnrichmentIsCareful(ix: Index, e: GithubEvent, cid: string, now: int)
    requires Wired(ix) && cid in ix.byCorr
    ensures CarefulPr(ix, Enrichment(ix.byCorr[cid], e), cid, now)
  {
  }

  class GitHubAdapter {
    var seen: set<string>
    var events: seq<GithubEvent>

    constructor ()
      ensures seen == {} && events == []
    {
      seen, events := {}, [];
    }

    method Ingest(e: GithubEvent) returns (accepted: bool)
      modifies this
      ensures accepted == (e.eventId == "" || e.eventId !in old(seen))
      ensures events == if accepted then old(events) + [e] else old(events)
      ensures seen == if e.eventId == "" then old(seen) else old(seen) + {e.eventId}
    {
      if e.eventId != "" && e.eventId in seen {
        return false;
      }
      if e.eventId != "" {
        seen := seen + {e.eventId};
      }
      events := events + [e];
      return true;
    }

    /** An event without a match, or with an ambiguous one, changes neither store. Otherwise it
        changes the execution every resolvable key leads to, and no other; what the correlation
        store tells about executions, items and pull requests stays. `crashed` says that the
        process died while the execution was being persisted. */
    method ApplyToExecutions(e: GithubEvent, store: ExecutionObserverStore, corr: CorrelationStore, now: int)
      returns (ghost r: Resolution)
      requires store.Valid() && corr.Valid()
      modifies store, corr
      ensures store.Valid() && corr.Valid() && Evolves(old(store.executions), store.executions)
      ensures ResolvedAs(old(corr.State()), e.keys, r)
      ensures !r.Matched? || r.record.executionId !in old(store.executions) ==>
                store.executions == old(store.executions) && store.events == old(store.events) && corr.State() == old(corr.State())
      ensures r.Matched? && r.record.executionId in old(store.executions) ==>
                && store.executions == Reacted(old(store.executions), r.record.executionId, e, store.patterns.scrub, now)
                && corr.State() == After(old(corr.State()), Enrichment(r.record, e), r.record.correlationId, now)
      ensures PrsAgree(old(corr.State())) ==>
                && PrsAgree(corr.State())
                && forall k :: k in old(corr.byPr) ==>
                     Reached(corr.State(), corr.byPr, k) == Reached(old(corr.State()), old(corr.byPr), k)
    {
      var found := corr.Resolve(e.keys);
      r := found;
      if !found.Matched? || found.record.executionId !in store.executions {
        return;
      }
      var id := found.record.executionId;
      var snap := store.executions[id];
      assert RecordOk(store.executions, id);
      assert WellFiled(corr.State(), found.record.correlationId);
      EnrichmentIsCareful(corr.State(), e, found.record.correlationId, now);
      if PrsAgree(corr.State()) {
        CarefulCallsKeepPrs(corr.State(), Enrichment(found.record, e), found.record.correlationId, now);
      }
      var binding := Enrich(found.record, e);
      var _ := corr.Register(binding, found.record.correlationId, now);
      React(e, id, snap, store, now);
    }

    /** What the event brings, and otherwise what the record has. */
    method Enrich(rec: Record, e: GithubEvent) returns (binding: Binding)
      ensures binding == Enrichment(rec, e)
    {
      var repo, pr, sha, ciStatus := rec.repo, rec.pr, rec.sha, rec.ciStatus;
      if e.keys.repo != "" {
        repo := e.keys.repo;
      }
      if e.keys.pr != None {
        pr := e.keys.pr;
      }
      if e.keys.sha != "" {
        sha := e.keys.sha;
      }
      if e.checkConclusion != "" {
        ciStatus := Some(e.checkConclusion);
      } else if e.checkStatus != "" {
        ciStatus := Some(e.checkStatus);
      }
      binding := Binding(rec.executionId, rec.correlationId, "", "", "", repo, None, pr, sha, ciStatus, map[]);
    }

    method React(e: GithubEvent, id: string, snap: Snapshot, store: ExecutionObserverStore, now: int)
      requires store.Valid() && id in store.executions && snap == store.executions[id]
      modifies store
      ensures store.Valid() && Evolves(old(store.executions), store.executions)
      ensures store.executions == Reacted(old(store.executions), id, e, store.patterns.scrub, now)
    {
      assert RecordOk(store.executions, id);
      LegalStatus(snap);
      if e.prMerged {
        if !Terminal(snap.status) {
          var number := "None";
          if e.keys.pr.Some? {
            number := Str(e.keys.pr.value);
          }
          var _ := store.Complete(id, Some("merged, pr " + number), now);
        }
      } else {
        ReactToChecks(e, id, snap, store, now);
      }
    }

    method ReactToChecks(e: GithubEvent, id: string, snap: Snapshot, store: ExecutionObserverStore, now: int)
      requires store.Valid() && id in store.executions && snap == store.executions[id] && !e.prMerged
      modifies store
      ensures store.Valid() && Evolves(old(store.executions), store.executions)
      ensures store.executions == Reacted(old(store.executions), id, e, store.patterns.scrub, now)
    {
      assert RecordOk(store.executions, id);
      if e.checkConclusion == "failure" && snap.status.Running? {
        var _ := store.Fail(id, "CI failed: " + e.checkName, now);
      } else if e.checkStatus == "in_progress" && snap.status.Queued? {
        var _ := store.Start(id, now);
      } else if e.prState == "open" && snap.status.Queued? {
        var _ := store.Start(id, now);
      }
    }
  }

  /** An event changes at most the execution it reached. */
  lemma OnlyTheMatchedMoves(executions: Executions, id: string, e: GithubEvent, scrub: string -> string, now: int, other: string)
    requires id in executions && other in executions
    requires Reacted(executions, id, e, scrub, now)[other] != executions[other]
    ensures other == id && !Terminal(executions[id].status)
    ensures Reacted(executions, id, e, scrub, now)[id].status == executions[id].status <==>
              e.prMerged && !executions[id].status.Running?
  {
  }
}
