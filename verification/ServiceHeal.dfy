/** Starting an HTTP service: preflight, graceful stop of a verified old instance, then a start
    through the supervisor or an own spawn, and the verification of the new process. */
module ServiceHeal {
  import opened Options
  import opened Processes

  /** An empty pattern or endpoint stands for none. */
  datatype Project = Project(pattern: string, healthEndpoint: string)

  const STOP_ATTEMPTS := 50
  const RELEASE_ATTEMPTS := 50
  const VERIFY_ATTEMPTS := 20
  const STABLE_ATTEMPTS := 10
  const KILL_AFTER := 30

  /* ---------- evidence ---------- */

  /** The last thing learnt is that the process lives and is the service, by its own command line
      where a pattern is configured. */
  predicate EndsStrict(t: Trace, pid: int, pattern: string) {
    if pattern != "" then
      && |t| >= 2 && t[|t| - 2] == AliveProbe(pid, Some(true))
      && t[|t| - 1].CmdlineRead? && t[|t| - 1].pid == pid
      && t[|t| - 1].cmdline.Some? && Contains(t[|t| - 1].cmdline.value, pattern)
    else
      && |t| >= 3 && t[|t| - 3] == AliveProbe(pid, Some(true))
      && t[|t| - 2].CmdlineRead? && t[|t| - 2].pid == pid && t[|t| - 2].cmdline.Some?
      && t[|t| - 1] == VerifierAsked(pid, Some(true))
  }

  ghost predicate SeenStrict(t: Trace, from: nat, pid: int, pattern: string) {
    exists i {:trigger t[from..i]} :: from <= i <= |t| && EndsStrict(t[from..i], pid, pattern)
  }

  ghost predicate OwnChild(t: Trace, from: nat, pid: int) { Happened(t, from, Spawned(Some(pid))) }

  /** What the moment before an act must show. */
  ghost predicate Justified(t: Trace, from: nat, e: Event, pattern: string, self: int) {
    match e
    case Signalled(pid, signal, _) =>
      pid != self && (OwnChild(t, from, pid) || (signal.Term? && SeenStrict(t, from, pid, pattern)))
    case Spawned(_) => |t| > from + 1 && t[|t| - 2] == ManagedAsked(false) && t[|t| - 1] == PlaceAsked(true)
    case SvUp(_) => |t| > from && t[|t| - 1] == ManagedAsked(true)
    case SvDown(_) => |t| > from && t[|t| - 1] == ManagedAsked(true)
    case _ => true
  }

  /** Every act since `from` was justified at its moment. */
  ghost predicate ActsSafe(t: Trace, from: nat, pattern: string, self: int) {
    from <= |t| && forall i {:trigger SafeAt(t, from, i, pattern, self)} :: from <= i < |t| ==> SafeAt(t, from, i, pattern, self)
  }

  ghost predicate SafeAt(t: Trace, from: nat, i: nat, pattern: string, self: int)
    requires i < |t|
  {
    Justified(t[..i], from, t[i], pattern, self)
  }

  lemma StrictStays(t: Trace, t': Trace, from: nat, pid: int, pattern: string)
    requires SeenStrict(t, from, pid, pattern) && t <= t'
    ensures SeenStrict(t', from, pid, pattern)
  {
    var i :| from <= i <= |t| && EndsStrict(t[from..i], pid, pattern);
    assert t'[from..i] == t[from..i];
  }

  lemma StrictTail(t: Trace, pre: Trace, pid: int, pattern: string)
    requires EndsStrict(t, pid, pattern)
    ensures EndsStrict(pre + t, pid, pattern)
  {
    var u := pre + t;
    assert u[|u| - 1] == t[|t| - 1] && u[|u| - 2] == t[|t| - 2];
    assert |t| >= 3 ==> u[|u| - 3] == t[|t| - 3];
  }

  lemma StrictEarlier(t: Trace, from: nat, later: nat, pid: int, pattern: string)
    requires from <= later <= |t| && EndsStrict(t[later..], pid, pattern)
    ensures SeenStrict(t, from, pid, pattern)
  {
    StrictTail(t[later..], t[from..later], pid, pattern);
    assert t[from..|t|] == t[from..later] + t[later..];
  }

  lemma LookingIsSafe(t: Trace, t': Trace, from: nat, pattern: string, self: int)
    requires ActsSafe(t, from, pattern, self) && OnlyLooked(t, t')
    ensures ActsSafe(t', from, pattern, self)
  {
    forall i | from <= i < |t'|
      ensures SafeAt(t', from, i, pattern, self)
    {
      assert i < |t| ==> SafeAt(t, from, i, pattern, self) && t'[i] == t[i] && t'[..i] == t[..i];
    }
  }

  lemma ActIsSafe(t: Trace, t': Trace, from: nat, pattern: string, self: int)
    requires ActsSafe(t, from, pattern, self) && |t'| == |t| + 1 && t == t'[..|t|]
    requires Justified(t, from, t'[|t|], pattern, self)
    ensures ActsSafe(t', from, pattern, self)
  {
    forall i | from <= i < |t'|
      ensures SafeAt(t', from, i, pattern, self)
    {
      assert i < |t| ==> SafeAt(t, from, i, pattern, self) && t'[i] == t[i] && t'[..i] == t[..i];
    }
  }

  /* ---------- questions ---------- */

  method CheckAlive(os: Os, pid: int) returns (alive: bool)
    modifies os
    ensures os.trace == old(os.trace) + [AliveProbe(pid, Some(alive))] || (!alive && os.trace == old(os.trace) + [AliveProbe(pid, None)])
    ensures OnlyAsked(old(os.trace), os.trace)
    ensures alive <==> pid > 0 && old(os.Now()).alive == Some(true)
  {
    var answer := os.IsAlive(pid);
    if answer.None? {
      return false;
    }
    return answer.value;
  }

  /** What a look at a process tells, by the answers there are: nothing of the launcher itself, or
      unless it is alive and its command line can be read; then the pattern decides, or, where there is
      none, the verifier. */
  function StrictVerdict(answer: nat -> Answer, n: nat, self: int, pid: int, pattern: string): Option<bool> {
    if pid <= 0 || pid == self || answer(n).alive != Some(true) then None
    else match answer(n + 1).cmdline
      case None => None
      case Some(line) => if pattern != "" then Some(Contains(line, pattern)) else answer(n + 2).verdict
  }

  /** How many questions that takes. */
  function StrictQuestions(answer: nat -> Answer, n: nat, self: int, pid: int, pattern: string): nat {
    if pid <= 0 || pid == self then 0
    else if answer(n).alive != Some(true) then 1
    else if answer(n + 1).cmdline.None? || pattern != "" then 2
    else 3
  }

  /** True for the service, false for a foreign process, `None` when it cannot be told. */
  method StrictIdentity(os: Os, pid: int, project: Project) returns (verdict: Option<bool>)
    modifies os
    ensures OnlyLooked(old(os.trace), os.trace)
    ensures verdict == Some(true) ==> pid > 0 && pid != os.self && EndsStrict(os.trace[|old(os.trace)|..], pid, project.pattern)
    ensures verdict == StrictVerdict(os.answer, |old(os.trace)|, os.self, pid, project.pattern)
    ensures |os.trace| == |old(os.trace)| + StrictQuestions(os.answer, |old(os.trace)|, os.self, pid, project.pattern)
  {
    if pid <= 0 || pid == os.self {
      return None;
    }
    var alive := CheckAlive(os, pid);
    if !alive {
      return None;
    }
    var cmdline := os.ReadCmdline(pid);
    if cmdline.None? {
      return None;
    }
    if project.pattern != "" {
      return Some(Contains(cmdline.value, project.pattern));
    }
    verdict := os.AskVerifier(pid);
  }

  datatype Kind = SameService | ForeignProcess | Unknown

  function KindOf(verdict: Option<bool>): Kind {
    match verdict
    case Some(same) => if same then SameService else ForeignProcess
    case None => Unknown
  }

  /** What a process is found to be, by the answers there are: it must be alive, and the look at it
      tells the rest. */
  function KindBy(answer: nat -> Answer, n: nat, self: int, pid: int, pattern: string): Kind {
    if pid <= 0 || answer(n).alive != Some(true) then Unknown else KindOf(StrictVerdict(answer, n + 1, self, pid, pattern))
  }

  function KindQuestions(answer: nat -> Answer, n: nat, self: int, pid: int, pattern: string): nat {
    if pid <= 0 then 0 else if answer(n).alive != Some(true) then 1 else 1 + StrictQuestions(answer, n + 1, self, pid, pattern)
  }

  method ClassifyOwner(os: Os, pid: int, project: Project) returns (kind: Kind)
    modifies os
    ensures OnlyLooked(old(os.trace), os.trace)
    ensures kind.SameService? ==> pid != os.self && SeenStrict(os.trace, |old(os.trace)|, pid, project.pattern)
    ensures kind == KindBy(os.answer, |old(os.trace)|, os.self, pid, project.pattern)
    ensures |os.trace| == |old(os.trace)| + KindQuestions(os.answer, |old(os.trace)|, os.self, pid, project.pattern)
  {
    if pid <= 0 {
      return Unknown;
    }
    var alive := CheckAlive(os, pid);
    if !alive {
      return Unknown;
    }
    ghost var before := |os.trace|;
    var verdict := StrictIdentity(os, pid, project);
    if verdict == Some(true) {
      StrictEarlier(os.trace, |old(os.trace)|, before, pid, project.pattern);
      return SameService;
    }
    return if verdict == Some(false) then ForeignProcess else Unknown;
  }

  datatype Ownership = Ownership(occupied: bool, owners: set<int>, owned: Option<bool>)

  /** The port is occupied when an owner is listed, or else when something listens. */
  predicate OccupiedBy(answer: nat -> Answer, n: nat) { answer(n + 1).listening || answer(n).owners !in {None, Some({})} }

  function OwnQuestions(answer: nat -> Answer, n: nat): nat { if answer(n).owners in {None, Some({})} then 2 else 1 }

  /** The decision on who owns the port: owners where they can be listed, else only whether
      something listens. */
  method VerifyPortOwnership(os: Os, pid: Option<int>) returns (o: Ownership)
    modifies os
    ensures OnlyAsked(old(os.trace), os.trace) && |os.trace| == |old(os.trace)| + OwnQuestions(os.answer, |old(os.trace)|)
    ensures os.trace[|old(os.trace)|] == OwnersListed(old(os.Now()).owners)
    ensures o.occupied == OccupiedBy(os.answer, |old(os.trace)|)
    ensures |os.trace| == |old(os.trace)| + 2 ==> os.trace[|old(os.trace)| + 1] == PortProbed(o.occupied)
    ensures var asked := os.trace[|old(os.trace)|];
            && asked.OwnersListed?
            && (asked.owners.None? ==>
                  o.owned == None && o.owners == {} && Happened(os.trace, |old(os.trace)|, PortProbed(o.occupied)))
            && (asked.owners.Some? ==>
                  && o.owners == asked.owners.value && o.owned == Some(pid.Some? && pid.value in o.owners)
                  && (o.owners != {} ==> o.occupied)
                  && (o.owners == {} ==> Happened(os.trace, |old(os.trace)|, PortProbed(o.occupied))))
  {
    ghost var from := |os.trace|;
    var owners := os.PortOwners();
    if owners.None? {
      var listening := os.ProbePort();
      assert os.trace[from + 1] == PortProbed(listening);
      return Ownership(listening, {}, None);
    }
    var occupied := true;
    if owners.value == {} {
      occupied := os.ProbePort();
      assert os.trace[from + 1] == PortProbed(occupied);
    }
    return Ownership(occupied, owners.value, Some(pid.Some? && pid.value in owners.value));
  }

  /* ---------- preflight ---------- */

  datatype Decision = Free | Same | Foreign | Indeterminate

  datatype Preflight = Preflight(occupied: bool, same: seq<int>, foreign: seq<int>, unknown: seq<int>, decision: Decision)

  /** The processes found to be the service were strictly verified; every other one is foreign or
      unknown. */
  ghost predicate Sorted(t: Trace, from: nat, todo: set<int>, pre: Preflight, pattern: string, self: int) {
    && AllStrict(t, from, pre.same, pattern, self)
    && (forall p :: p in todo <==> Sorts(pre, p))
  }

  /** The process is on exactly the list its kind belongs to. */
  ghost predicate ListedAs(pre: Preflight, p: int, kind: Kind) {
    (p in pre.same <==> kind.SameService?) && (p in pre.foreign <==> kind.ForeignProcess?) && (p in pre.unknown <==> kind.Unknown?)
  }

  /** The process was looked at between the two moments, and listed as what it was found to be. */
  ghost predicate Judged(answer: nat -> Answer, from: nat, upto: nat, self: int, pattern: string, p: int, pre: Preflight) {
    exists q: nat {:trigger KindBy(answer, q, self, p, pattern)} ::
      from <= q <= upto && ListedAs(pre, p, KindBy(answer, q, self, p, pattern))
  }

  ghost predicate AllJudged(answer: nat -> Answer, from: nat, upto: nat, self: int, pattern: string, todo: set<int>, pre: Preflight) {
    forall p {:trigger Judged(answer, from, upto, self, pattern, p, pre)} :: p in todo ==> Judged(answer, from, upto, self, pattern, p, pre)
  }

  /** The process was added to the list of its kind, and nothing else changed. */
  ghost predicate Adds(pre: Preflight, pre': Preflight, p: int, kind: Kind) {
    && pre'.same == (if kind.SameService? then pre.same + [p] else pre.same)
    && pre'.foreign == (if kind.ForeignProcess? then pre.foreign + [p] else pre.foreign)
    && pre'.unknown == (if kind.Unknown? then pre.unknown + [p] else pre.unknown)
    && pre'.occupied == pre.occupied && pre'.decision == pre.decision
  }

  /** A single process is looked at first, and is on its list alone. */
  ghost predicate LoneSorted(answer: nat -> Answer, from: nat, self: int, pattern: string, p: int, pre: Preflight, now: nat) {
    && now == from + KindQuestions(answer, from, self, p, pattern)
    && Adds(Preflight(pre.occupied, [], [], [], pre.decision), pre, p, KindBy(answer, from, self, p, pattern))
  }

  ghost predicate Lonely(answer: nat -> Answer, from: nat, self: int, pattern: string, todo: set<int>, pre: Preflight, now: nat) {
    forall p {:trigger LoneSorted(answer, from, self, pattern, p, pre, now)} :: todo == {p} ==>
      LoneSorted(answer, from, self, pattern, p, pre, now)
  }

  /** So far nothing was looked at, or what was is done. */
  ghost predicate LonelySoFar(answer: nat -> Answer, from: nat, self: int, pattern: string, todo: set<int>, left: set<int>,
                              pre: Preflight, now: nat)
  {
    && (left == todo ==> now == from && pre.same == [] && pre.foreign == [] && pre.unknown == [])
    && (left == {} && todo != {} ==> Lonely(answer, from, self, pattern, todo, pre, now))
  }

  method ClassifyAll(os: Os, todo: set<int>, project: Project) returns (pre: Preflight)
    modifies os
    ensures OnlyLooked(old(os.trace), os.trace) && pre.occupied && pre.decision.Indeterminate?
    ensures Sorted(os.trace, |old(os.trace)|, todo, pre, project.pattern, os.self)
    ensures AllJudged(os.answer, |old(os.trace)|, |os.trace|, os.self, project.pattern, todo, pre)
    ensures Lonely(os.answer, |old(os.trace)|, os.self, project.pattern, todo, pre, |os.trace|)
  {
    pre := Preflight(true, [], [], [], Indeterminate);
    var left := todo;
    ghost var from, done := |os.trace|, {};
    while left != {}
      invariant left <= todo && done == todo - left
      invariant OnlyLooked(old(os.trace), os.trace) && pre.occupied && pre.decision.Indeterminate?
      invariant Sorted(os.trace, from, done, pre, project.pattern, os.self)
      invariant AllJudged(os.answer, from, |os.trace|, os.self, project.pattern, done, pre)
      invariant LonelySoFar(os.answer, from, os.self, project.pattern, todo, left, pre, |os.trace|)
      decreases |left|
    {
      ghost var was, at := pre, |os.trace|;
      NonEmpty(left);
      var pid :| pid in left;
      pre := ClassifyNext(os, pre, pid, project, done, from);
      JudgedOn(os.answer, from, at, |os.trace|, os.self, project.pattern, done, pid, was, pre);
      LonelyOn(os.answer, from, os.self, project.pattern, todo, left, pid, was, at, pre, |os.trace|);
      OneLess(todo, left, pid);
      done := done + {pid};
      left := left - {pid};
    }
    assert done == todo;
  }

  method ClassifyNext(os: Os, pre: Preflight, pid: int, project: Project, ghost done: set<int>, ghost from: nat) returns (pre': Preflight)
    requires from <= |os.trace| && Sorted(os.trace, from, done, pre, project.pattern, os.self)
    modifies os
    ensures OnlyLooked(old(os.trace), os.trace)
    ensures Sorted(os.trace, from, done + {pid}, pre', project.pattern, os.self)
    ensures Adds(pre, pre', pid, KindBy(os.answer, |old(os.trace)|, os.self, pid, project.pattern))
    ensures |os.trace| == |old(os.trace)| + KindQuestions(os.answer, |old(os.trace)|, os.self, pid, project.pattern)
  {
    ghost var before := os.trace;
    var kind := ClassifyOwner(os, pid, project);
    AllStrictStays(before, os.trace, from, from, pre.same, project.pattern, os.self);
    pre' := pre;
    if kind.SameService? {
      StrictLater(os.trace, from, |before|, pid, project.pattern);
      pre' := pre.(same := pre.same + [pid]);
    } else if kind.ForeignProcess? {
      pre' := pre.(foreign := pre.foreign + [pid]);
    } else {
      pre' := pre.(unknown := pre.unknown + [pid]);
    }
    forall p
      ensures p in done + {pid} <==> Sorts(pre', p)
    {
      assert p in done <==> Sorts(pre, p);
    }
  }

  lemma JudgedOn(answer: nat -> Answer, from: nat, at: nat, now: nat, self: int, pattern: string, done: set<int>, pid: int,
                 pre: Preflight, pre': Preflight)
    requires from <= at <= now && AllJudged(answer, from, at, self, pattern, done, pre)
    requires pid !in done && !Sorts(pre, pid) && Adds(pre, pre', pid, KindBy(answer, at, self, pid, pattern))
    ensures AllJudged(answer, from, now, self, pattern, done + {pid}, pre')
  {
    forall p | p in done
      ensures Judged(answer, from, now, self, pattern, p, pre')
    {
      assert Judged(answer, from, at, self, pattern, p, pre);
    }
    assert ListedAs(pre', pid, KindBy(answer, at, self, pid, pattern));
  }

  lemma LonelyOn(answer: nat -> Answer, from: nat, self: int, pattern: string, todo: set<int>, left: set<int>, pid: int,
                 pre: Preflight, at: nat, pre': Preflight, now: nat)
    requires pid in left && left <= todo && LonelySoFar(answer, from, self, pattern, todo, left, pre, at)
    requires Adds(pre, pre', pid, KindBy(answer, at, self, pid, pattern)) && now == at + KindQuestions(answer, at, self, pid, pattern)
    ensures LonelySoFar(answer, from, self, pattern, todo, left - {pid}, pre', now)
  {
    assert pid in todo;
    forall p | todo == {p}
      ensures LoneSorted(answer, from, self, pattern, p, pre', now)
    {
      assert left == todo;
    }
  }

  lemma StrictLater(t: Trace, from: nat, later: nat, pid: int, pattern: string)
    requires from <= later && SeenStrict(t, later, pid, pattern)
    ensures SeenStrict(t, from, pid, pattern)
  {
    var i :| later <= i <= |t| && EndsStrict(t[later..i], pid, pattern);
    StrictTail(t[later..i], t[from..later], pid, pattern);
    assert t[from..i] == t[from..later] + t[later..i];
  }

  method ProbeContractHealth(os: Os, project: Project) returns (healthy: bool)
    modifies os
    ensures OnlyLooked(old(os.trace), os.trace)
    ensures healthy ==> project.healthEndpoint != "" && Happened(os.trace, |old(os.trace)|, HealthProbed(true))
    ensures project.healthEndpoint != "" ==>
              os.trace == old(os.trace) + [HealthProbed(healthy)] && healthy == old(os.Now()).healthy
  {
    if project.healthEndpoint == "" {
      return false;
    }
    ghost var before := |os.trace|;
    healthy := os.ProbeHealth();
    assert os.trace[before] == HealthProbed(healthy);
  }

  predicate Sorts(pre: Preflight, pid: int) { pid in pre.same || pid in pre.foreign || pid in pre.unknown }

  /** Both lists of candidates that were asked for are sorted. */
  ghost predicate HintsSorted(t: Trace, from: nat, pre: Preflight) {
    exists i {:trigger t[i]} :: from <= i && i + 1 < |t| && t[i].HintsListed? && t[i + 1].HintsListed? &&
      forall p :: p in t[i].pids + t[i + 1].pids <==> Sorts(pre, p)
  }

  /** The first answer tells who owns the port. Every owner is sorted, or, where owners cannot be
      listed and something listens, every candidate; and only the strictly verified are the same. */
  ghost predicate Complete(t: Trace, from: nat, pre: Preflight) {
    && from < |t| && t[from].OwnersListed?
    && (t[from].owners.Some? ==> forall p :: p in t[from].owners.value <==> Sorts(pre, p))
    && (t[from].owners.None? && pre.occupied ==> HintsSorted(t, from, pre))
  }

  ghost predicate AllStrict(t: Trace, from: nat, pids: seq<int>, pattern: string, self: int) {
    forall p :: p in pids ==> p != self && SeenStrict(t, from, p, pattern)
  }

  predicate CouldBeSame(pre: Preflight) { pre.same != [] && pre.foreign == [] && pre.unknown == [] }

  /** What a preflight promises about its verdict. */
  ghost predicate Trusted(t: Trace, from: nat, pre: Preflight, pattern: string, self: int) {
    && Complete(t, from, pre) && AllStrict(t, from, pre.same, pattern, self)
    && (pre.decision.Free? <==> !pre.occupied)
    && (pre.decision.Free? ==> Happened(t, from, PortProbed(false)))
    && (pre.decision.Same? ==> CouldBeSame(pre))
    && (pre.decision.Same? && t[from].owners.None? ==> Happened(t, from, HealthProbed(true)))
    && (pre.decision.Foreign? <==> pre.foreign != [])
    && (t[from].owners.Some? && CouldBeSame(pre) ==> pre.decision.Same?)
  }

  lemma TrustStays(t: Trace, t': Trace, from: nat, pre: Preflight, pattern: string, self: int)
    requires Trusted(t, from, pre, pattern, self) && t <= t'
    ensures Trusted(t', from, pre, pattern, self)
  {
    AllStrictStays(t, t', from, from, pre.same, pattern, self);
    if pre.occupied && t[from].owners.None? {
      var i :| from <= i && i + 1 < |t| && t[i].HintsListed? && t[i + 1].HintsListed? &&
               forall p :: p in t[i].pids + t[i + 1].pids <==> Sorts(pre, p);
      assert t'[i] == t[i] && t'[i + 1] == t[i + 1];
    }
  }

  lemma AllStrictStays(t: Trace, t': Trace, from: nat, later: nat, pids: seq<int>, pattern: string, self: int)
    requires AllStrict(t, later, pids, pattern, self) && t <= t' && from <= later
    ensures AllStrict(t', from, pids, pattern, self)
  {
    forall p | p in pids
      ensures SeenStrict(t', from, p, pattern)
    {
      StrictLater(t, from, later, p, pattern);
      StrictStays(t, t', from, p, pattern);
    }
  }

  function Hinted(pids: set<int>, self: int): set<int> { set p | p in pids && p > 0 && p != self }

  /** The candidates of both lists are sorted. */
  method JudgeHints(os: Os, project: Project) returns (pre: Preflight)
    modifies os
    ensures OnlyLooked(old(os.trace), os.trace) && pre.occupied && pre.decision.Indeterminate?
    ensures AllStrict(os.trace, |old(os.trace)|, pre.same, project.pattern, os.self)
    ensures HintsSorted(os.trace, |old(os.trace)|, pre)
    ensures HintsJudged(os.answer, |old(os.trace)|, |os.trace|, os.self, project.pattern, pre)
  {
    ghost var from := |os.trace|;
    var candidates := os.Hints();
    var hints := os.Hints();
    assert candidates == Hinted(os.answer(from).hints, os.self) && hints == Hinted(os.answer(from + 1).hints, os.self);
    ghost var asked := os.trace;
    pre := ClassifyAll(os, candidates + hints, project);
    assert os.trace[from] == asked[from] && os.trace[from + 1] == asked[from + 1];
    AllStrictStays(os.trace, os.trace, from, |asked|, pre.same, project.pattern, os.self);
  }

  ghost predicate HintsJudged(answer: nat -> Answer, from: nat, upto: nat, self: int, pattern: string, pre: Preflight) {
    AllJudged(answer, from + 2, upto, self, pattern, Hinted(answer(from).hints, self) + Hinted(answer(from + 1).hints, self), pre)
  }

  /** Where owners cannot be listed, only a verified candidate together with the service's own
      health answer counts. */
  method CorrelateWithoutOwners(os: Os, project: Project) returns (pre: Preflight)
    modifies os
    ensures OnlyLooked(old(os.trace), os.trace)
    ensures AllStrict(os.trace, |old(os.trace)|, pre.same, project.pattern, os.self)
    ensures HintsSorted(os.trace, |old(os.trace)|, pre)
    ensures HintsJudged(os.answer, |old(os.trace)|, |os.trace|, os.self, project.pattern, pre)
    ensures pre.occupied && !pre.decision.Free? && (pre.decision.Foreign? <==> pre.foreign != [])
    ensures Correlated(os.trace, os.answer, pre, project.healthEndpoint)
    ensures pre.decision.Same? ==> Happened(os.trace, |old(os.trace)|, HealthProbed(true))
  {
    pre := JudgeHints(os, project);
    ghost var sorted := os.trace;
    assert HintsJudged(os.answer, |old(os.trace)|, |sorted|, os.self, project.pattern, pre);
    ghost var judged := pre;
    if pre.foreign != [] {
      pre := pre.(decision := Foreign);
    } else if pre.same != [] && pre.unknown == [] {
      var healthy := ProbeContractHealth(os, project);
      CorrelationStays(sorted, os.trace, |old(os.trace)|, pre, project.pattern, os.self);
      if healthy {
        pre := pre.(decision := Same);
      }
    }
    JudgedAnyway(os.trace, os.answer, |old(os.trace)|, |sorted|, |os.trace|, os.self, project.pattern, judged, pre);
  }

  /** Only verified candidates are the service, and its health answer, asked for last, decides. */
  ghost predicate Correlated(t: Trace, answer: nat -> Answer, pre: Preflight, endpoint: string) {
    && (CouldBeSame(pre) && endpoint != "" ==> EndsAsked(t, answer))
    && (pre.decision.Same? <==> CouldBeSame(pre) && endpoint != "" && EndsHealthy(t))
  }

  /** The last thing done was to ask for health, and the answer was taken as it came. */
  ghost predicate EndsAsked(t: Trace, answer: nat -> Answer) {
    t != [] && t[|t| - 1] == HealthProbed(answer(|t| - 1).healthy)
  }

  predicate EndsHealthy(t: Trace) { t != [] && t[|t| - 1] == HealthProbed(true) }

  lemma CorrelationStays(t: Trace, t': Trace, from: nat, pre: Preflight, pattern: string, self: int)
    requires HintsSorted(t, from, pre) && AllStrict(t, from, pre.same, pattern, self) && t <= t'
    ensures HintsSorted(t', from, pre) && AllStrict(t', from, pre.same, pattern, self)
  {
    AllStrictStays(t, t', from, from, pre.same, pattern, self);
    var i :| from <= i && i + 1 < |t| && t[i].HintsListed? && t[i + 1].HintsListed? &&
             forall p :: p in t[i].pids + t[i + 1].pids <==> Sorts(pre, p);
    assert t'[i] == t[i] && t'[i + 1] == t[i + 1];
  }

  /** What a process was found to be does not depend on the decision. */
  lemma JudgedAnyway(t: Trace, answer: nat -> Answer, from: nat, upto: nat, upto': nat, self: int, pattern: string,
                     pre: Preflight, pre': Preflight)
    requires HintsJudged(answer, from, upto, self, pattern, pre) && HintsSorted(t, from, pre) && upto <= upto'
    requires pre'.same == pre.same && pre'.foreign == pre.foreign && pre'.unknown == pre.unknown
    ensures HintsJudged(answer, from, upto', self, pattern, pre') && HintsSorted(t, from, pre')
  {
    assert forall p :: Sorts(pre, p) <==> Sorts(pre', p);
    var todo := Hinted(answer(from).hints, self) + Hinted(answer(from + 1).hints, self);
    SameListsJudged(answer, from + 2, upto, self, pattern, todo, pre, pre');
    JudgedLater(answer, from + 2, upto, upto', self, pattern, todo, pre');
  }

  lemma SameListsJudged(answer: nat -> Answer, from: nat, upto: nat, self: int, pattern: string, todo: set<int>,
                        pre: Preflight, pre': Preflight)
    requires AllJudged(answer, from, upto, self, pattern, todo, pre)
    requires pre'.same == pre.same && pre'.foreign == pre.foreign && pre'.unknown == pre.unknown
    ensures AllJudged(answer, from, upto, self, pattern, todo, pre')
  {
    forall p | p in todo
      ensures Judged(answer, from, upto, self, pattern, p, pre')
    {
      assert Judged(answer, from, upto, self, pattern, p, pre);
      var q: nat :| from <= q <= upto && ListedAs(pre, p, KindBy(answer, q, self, p, pattern));
      assert ListedAs(pre', p, KindBy(answer, q, self, p, pattern));
    }
  }

  /** The first look at the port finds no owner, and the second nothing that occupies it. */
  predicate Idle(answer: nat -> Answer, n: nat) { answer(n).owners in {None, Some({})} && !OccupiedBy(answer, n + 2) }

  /** The port's one owner is found to be the service. */
  ghost predicate SoleService(answer: nat -> Answer, n: nat, self: int, pattern: string, h: int) {
    answer(n).owners == Some({h}) && KindBy(answer, JudgesAt(answer, n), self, h, pattern).SameService?
  }

  /** When processes are looked at, after both looks at the port. */
  function JudgesAt(answer: nat -> Answer, n: nat): nat {
    var looked := n + OwnQuestions(answer, n);
    looked + OwnQuestions(answer, looked)
  }

  function JudgedAt(answer: nat -> Answer, n: nat, self: int, pattern: string, h: int): nat {
    JudgesAt(answer, n) + KindQuestions(answer, JudgesAt(answer, n), self, h, pattern)
  }

  /** A port owned by the service alone is found to be so. */
  ghost predicate SoleFound(answer: nat -> Answer, n: nat, self: int, pattern: string, pre: Preflight, now: nat) {
    forall h {:trigger SoleService(answer, n, self, pattern, h)} :: SoleService(answer, n, self, pattern, h) ==>
      pre.decision.Same? && pre.same == [h] && now == JudgedAt(answer, n, self, pattern, h)
  }

  /** Listed owners are sorted, and decide. */
  method JudgeOwners(os: Os, owners: set<int>, project: Project) returns (pre: Preflight)
    modifies os
    ensures OnlyLooked(old(os.trace), os.trace) && pre.occupied
    ensures Sorted(os.trace, |old(os.trace)|, owners, pre, project.pattern, os.self)
    ensures AllJudged(os.answer, |old(os.trace)|, |os.trace|, os.self, project.pattern, owners, pre)
    ensures Lonely(os.answer, |old(os.trace)|, os.self, project.pattern, owners, pre, |os.trace|)
    ensures DecidedByLists(pre)
  {
    var sorted := ClassifyAll(os, owners, project);
    pre := sorted;
    if pre.foreign != [] {
      pre := pre.(decision := Foreign);
    } else if pre.unknown == [] && pre.same != [] {
      pre := pre.(decision := Same);
    }
    SameListsJudged(os.answer, |old(os.trace)|, |os.trace|, os.self, project.pattern, owners, sorted, pre);
    SameListsLonely(os.answer, |old(os.trace)|, os.self, project.pattern, owners, sorted, pre, |os.trace|);
  }

  ghost predicate DecidedByLists(pre: Preflight) {
    && !pre.decision.Free? && (pre.decision.Foreign? <==> pre.foreign != [])
    && (pre.decision.Same? <==> CouldBeSame(pre))
  }

  lemma SameListsLonely(answer: nat -> Answer, from: nat, self: int, pattern: string, todo: set<int>,
                        pre: Preflight, pre': Preflight, now: nat)
    requires Lonely(answer, from, self, pattern, todo, pre, now)
    requires pre'.same == pre.same && pre'.foreign == pre.foreign && pre'.unknown == pre.unknown
    ensures Lonely(answer, from, self, pattern, todo, pre', now)
  {
    forall p | todo == {p}
      ensures LoneSorted(answer, from, self, pattern, p, pre', now)
    {
      assert LoneSorted(answer, from, self, pattern, p, pre, now);
    }
  }

  method PreflightService(os: Os, project: Project) returns (pre: Preflight)
    modifies os
    ensures OnlyLooked(old(os.trace), os.trace)
    ensures Trusted(os.trace, |old(os.trace)|, pre, project.pattern, os.self)
    ensures pre.decision.Free? <==> Idle(os.answer, |old(os.trace)|)
    ensures pre.decision.Free? ==> |os.trace| == |old(os.trace)| + 4
    ensures SoleFound(os.answer, |old(os.trace)|, os.self, project.pattern, pre, |os.trace|)
    ensures JudgedRight(os.answer, |old(os.trace)|, |os.trace|, os.self, project.pattern, pre)
    ensures pre.occupied && os.answer(|old(os.trace)|).owners.None? ==>
              Correlated(os.trace, os.answer, pre, project.healthEndpoint)
  {
    ghost var from := |os.trace|;
    var listed := VerifyPortOwnership(os, None);
    ghost var asked := os.trace;
    var probed := VerifyPortOwnership(os, None);
    ghost var looked := os.trace;
    assert looked[from] == asked[from];
    if !probed.occupied && listed.owners == {} {
      ghost var i :| |asked| <= i < |os.trace| && os.trace[i] == PortProbed(false);
      return Preflight(false, [], [], [], Free);
    }
    pre := JudgeOccupied(os, listed, project, from);
  }

  /** The part of the preflight that looks at processes. */
  method JudgeOccupied(os: Os, listed: Ownership, project: Project, ghost from: nat) returns (pre: Preflight)
    requires from < |os.trace| && os.trace[from] == OwnersListed(os.answer(from).owners)
    requires |os.trace| == JudgesAt(os.answer, from)
    requires match os.answer(from).owners
             case Some(owners) => listed.owned.Some? && listed.owners == owners
             case None => listed.owned.None?
    modifies os
    ensures OnlyLooked(old(os.trace), os.trace) && pre.occupied
    ensures Trusted(os.trace, from, pre, project.pattern, os.self)
    ensures SoleFound(os.answer, from, os.self, project.pattern, pre, |os.trace|)
    ensures JudgedRight(os.answer, from, |os.trace|, os.self, project.pattern, pre)
    ensures os.answer(from).owners.None? ==> Correlated(os.trace, os.answer, pre, project.healthEndpoint)
  {
    ghost var looked := os.trace;
    if listed.owned.None? {
      pre := CorrelateWithoutOwners(os, project);
      HintsEarlier(os.trace, from, |looked|, pre);
    } else {
      pre := JudgeOwners(os, listed.owners, project);
      JudgedEarlier(os.answer, from, |looked|, |os.trace|, os.self, project.pattern, listed.owners, pre);
      SoleIsSame(os.answer, from, os.self, project.pattern, pre, |os.trace|);
    }
    AllStrictStays(os.trace, os.trace, from, |looked|, pre.same, project.pattern, os.self);
    assert os.trace[from] == looked[from];
  }

  /** Each owner, or, where owners cannot be listed, each candidate, is on the list of what it was
      found to be. */
  ghost predicate JudgedRight(answer: nat -> Answer, from: nat, upto: nat, self: int, pattern: string, pre: Preflight) {
    pre.occupied ==>
      match answer(from).owners
      case Some(owners) => AllJudged(answer, from, upto, self, pattern, owners, pre)
      case None => HintsJudged(answer, JudgesAt(answer, from), upto, self, pattern, pre)
  }

  lemma JudgedLater(answer: nat -> Answer, from: nat, upto: nat, upto': nat, self: int, pattern: string, todo: set<int>, pre: Preflight)
    requires upto <= upto' && AllJudged(answer, from, upto, self, pattern, todo, pre)
    ensures AllJudged(answer, from, upto', self, pattern, todo, pre)
  {
    forall p | p in todo
      ensures Judged(answer, from, upto', self, pattern, p, pre)
    {
      assert Judged(answer, from, upto, self, pattern, p, pre);
    }
  }

  lemma JudgedEarlier(answer: nat -> Answer, from: nat, later: nat, upto: nat, self: int, pattern: string, todo: set<int>, pre: Preflight)
    requires from <= later && AllJudged(answer, later, upto, self, pattern, todo, pre)
    ensures AllJudged(answer, from, upto, self, pattern, todo, pre)
  {
    forall p | p in todo
      ensures Judged(answer, from, upto, self, pattern, p, pre)
    {
      assert Judged(answer, later, upto, self, pattern, p, pre);
    }
  }

  lemma SoleIsSame(answer: nat -> Answer, n: nat, self: int, pattern: string, pre: Preflight, now: nat)
    requires answer(n).owners.Some? && Lonely(answer, JudgesAt(answer, n), self, pattern, answer(n).owners.value, pre, now)
    requires DecidedByLists(pre)
    ensures SoleFound(answer, n, self, pattern, pre, now)
  {
    forall h | SoleService(answer, n, self, pattern, h)
      ensures pre.decision.Same? && pre.same == [h] && now == JudgedAt(answer, n, self, pattern, h)
    {
      assert LoneSorted(answer, JudgesAt(answer, n), self, pattern, h, pre, now);
    }
  }

  lemma HintsEarlier(t: Trace, from: nat, later: nat, pre: Preflight)
    requires HintsSorted(t, later, pre) && from <= later
    ensures HintsSorted(t, from, pre)
  {
  }

  /* ---------- stopping ---------- */

  /** When a process asked for again and again, up to the last moment, is first not alive; the answer is
      the moment after that look. */
  function GoneBy(answer: nat -> Answer, n: nat, pid: int, last: nat): Option<nat>
    requires n <= last
    decreases last - n
  {
    if DeadAt(answer, n, pid) then Some(n + 1) else if n == last then None else GoneBy(answer, n + 1, pid, last)
  }

  predicate DeadAt(answer: nat -> Answer, n: nat, pid: int) { pid <= 0 || answer(n).alive != Some(true) }

  /** It is the first such look, and there is none exactly when every look finds it alive. */
  lemma {:induction false} GoneByMeans(answer: nat -> Answer, n: nat, pid: int, last: nat)
    requires n <= last
    ensures match GoneBy(answer, n, pid, last)
            case Some(end) =>
              n < end <= last + 1 && DeadAt(answer, end - 1, pid) && (forall k: nat :: n <= k < end - 1 ==> !DeadAt(answer, k, pid))
            case None => forall k: nat :: n <= k <= last ==> !DeadAt(answer, k, pid)
    decreases last - n
  {
    if n < last && !DeadAt(answer, n, pid) {
      GoneByMeans(answer, n + 1, pid, last);
    }
  }

  /** True when the process was seen gone within the attempts. */
  method AwaitGone(os: Os, pid: int) returns (gone: bool)
    modifies os
    ensures OnlyLooked(old(os.trace), os.trace)
    ensures gone <==> ReportedGone(os.trace, |old(os.trace)|, pid)
    ensures EndsAs(gone, |os.trace|, GoneBy(os.answer, |old(os.trace)|, pid, |old(os.trace)| + STOP_ATTEMPTS))
  {
    ghost var from := |os.trace|;
    for i := 0 to 51
      invariant OnlyLooked(old(os.trace), os.trace) && |os.trace| == from + i && !ReportedGone(os.trace, from, pid)
      invariant i <= 50 ==> GoneBy(os.answer, from, pid, from + 50) == GoneBy(os.answer, from + i, pid, from + 50)
      invariant i == 51 ==> GoneBy(os.answer, from, pid, from + 50) == None
    {
      ghost var before := |os.trace|;
      var alive := CheckAlive(os, pid);
      if !alive {
        assert Absent(os.trace[before], pid);
        return true;
      }
    }
    return false;
  }

  /** Success is having an end, at that moment. */
  predicate EndsAs(ok: bool, now: nat, end: Option<nat>) { (ok <==> end.Some?) && (ok ==> now == end.value) }

  /** The process was reported not alive, or could not be signalled because it was not there; here
      a liveness probe that raises counts as not alive. */
  predicate Absent(e: Event, pid: int) {
    (e.AliveProbe? && e.pid == pid && e.alive != Some(true)) || (e.Signalled? && e.pid == pid && e.sent == NoProcess)
  }

  ghost predicate ReportedGone(t: Trace, from: nat, pid: int) {
    exists i {:trigger t[i]} :: from <= i < |t| && Absent(t[i], pid)
  }

  lemma ReportStays(t: Trace, t': Trace, from: nat, later: nat, pid: int)
    requires ReportedGone(t, later, pid) && t <= t' && from <= later
    ensures ReportedGone(t', from, pid)
  {
  }

  /** When a stop is over, by the answers there are: the process is not alive, or not there when the
      signal comes, or the signal is delivered and it goes within the attempts. */
  function StopBy(answer: nat -> Answer, n: nat, pid: int): Option<nat> {
    if answer(n).alive != Some(true) then Some(n + 1)
    else match answer(n + 1).sent
      case NoProcess => Some(n + 2)
      case Refused => None
      case Delivered => GoneBy(answer, n + 2, pid, n + 2 + STOP_ATTEMPTS)
  }

  /** SIGTERM for a process whose right to be signalled was established before. */
  method StopOwnedPid(os: Os, pid: int, project: Project, ghost from: nat) returns (gone: bool)
    requires ActsSafe(os.trace, from, project.pattern, os.self)
    requires SeenStrict(os.trace, from, pid, project.pattern)
    modifies os
    ensures old(os.trace) <= os.trace && ActsSafe(os.trace, from, project.pattern, os.self)
    ensures NoStart(old(os.trace), os.trace)
    ensures gone ==> ReportedGone(os.trace, |old(os.trace)|, pid)
    ensures pid > 0 && pid != os.self ==> EndsAs(gone, |os.trace|, StopBy(os.answer, |old(os.trace)|, pid))
  {
    if pid == os.self || pid <= 0 {
      return false;
    }
    ghost var start := os.trace;
    var alive := CheckAlive(os, pid);
    LookingIsSafe(start, os.trace, from, project.pattern, os.self);
    if !alive {
      assert Absent(os.trace[|start|], pid);
      return true;
    }
    ghost var before := os.trace;
    StrictStays(start, before, from, pid, project.pattern);
    var sent := os.Send(pid, Term);
    assert os.trace[..|before|] == before;
    ActIsSafe(before, os.trace, from, project.pattern, os.self);
    if sent == NoProcess {
      assert Absent(os.trace[|before|], pid);
      return true;
    }
    if sent == Refused {
      return false;
    }
    ghost var signalled := os.trace;
    gone := AwaitGone(os, pid);
    LookingIsSafe(signalled, os.trace, from, project.pattern, os.self);
    if gone {
      ReportStays(os.trace, os.trace, |start|, |signalled|, pid);
    }
  }

  /** No new process and no supervisor start happened. */
  ghost predicate NoStart(before: Trace, after: Trace) {
    before <= after && forall i {:trigger after[i]} :: |before| <= i < |after| ==> !after[i].Spawned? && !after[i].SvUp?
  }

  lemma NoStartTransitive(a: Trace, b: Trace, c: Trace)
    requires NoStart(a, b) && NoStart(b, c)
    ensures NoStart(a, c)
  {
  }

  /** When all of the processes, looked at one after the other, have been found to be the service. */
  function VerifiedBy(answer: nat -> Answer, n: nat, self: int, pids: seq<int>, pattern: string): Option<nat>
    decreases |pids|
  {
    if pids == [] then Some(n)
    else if StrictVerdict(answer, n, self, pids[0], pattern) != Some(true) then None
    else VerifiedBy(answer, n + StrictQuestions(answer, n, self, pids[0], pattern), self, pids[1..], pattern)
  }

  /** All were verified again, just now, before anything is touched. */
  method VerifyAll(os: Os, pids: seq<int>, project: Project) returns (ok: bool)
    modifies os
    ensures OnlyLooked(old(os.trace), os.trace)
    ensures ok ==> AllStrict(os.trace, |old(os.trace)|, pids, project.pattern, os.self) && forall p :: p in pids ==> p > 0
    ensures EndsAs(ok, |os.trace|, VerifiedBy(os.answer, |old(os.trace)|, os.self, pids, project.pattern))
  {
    ghost var from := |os.trace|;
    assert pids[0..] == pids && pids[..|pids|] == pids;
    for i := 0 to |pids|
      invariant OnlyLooked(old(os.trace), os.trace)
      invariant VerifiedBy(os.answer, from, os.self, pids, project.pattern) ==
                VerifiedBy(os.answer, |os.trace|, os.self, pids[i..], project.pattern)
      invariant AllStrict(os.trace, from, pids[..i], project.pattern, os.self) && forall p :: p in pids[..i] ==> p > 0
    {
      assert pids[i..][1..] == pids[i + 1..] && pids[..i + 1] == pids[..i] + [pids[i]];
      var verified := VerifyNext(os, pids[i], pids[..i], project, from);
      if !verified {
        return false;
      }
    }
    return true;
  }

  method VerifyNext(os: Os, pid: int, ghost done: seq<int>, project: Project, ghost from: nat) returns (verified: bool)
    requires from <= |os.trace| && AllStrict(os.trace, from, done, project.pattern, os.self)
    modifies os
    ensures OnlyLooked(old(os.trace), os.trace)
    ensures verified <==> StrictVerdict(os.answer, |old(os.trace)|, os.self, pid, project.pattern) == Some(true)
    ensures |os.trace| == |old(os.trace)| + StrictQuestions(os.answer, |old(os.trace)|, os.self, pid, project.pattern)
    ensures verified ==> pid > 0 && AllStrict(os.trace, from, done + [pid], project.pattern, os.self)
  {
    ghost var before := os.trace;
    var verdict := StrictIdentity(os, pid, project);
    verified := verdict == Some(true);
    AllStrictStays(before, os.trace, from, from, done, project.pattern, os.self);
    if verified {
      StrictEarlier(os.trace, from, |before|, pid, project.pattern);
    }
  }

  function DownAt(answer: nat -> Answer, n: nat): nat { if answer(n).managed then n + 2 else n + 1 }

  /** A managed service is first taken down through its supervisor. */
  method TakeDown(os: Os, project: Project, ghost from: nat)
    requires ActsSafe(os.trace, from, project.pattern, os.self)
    modifies os
    ensures NoStart(old(os.trace), os.trace) && ActsSafe(os.trace, from, project.pattern, os.self)
    ensures |os.trace| == DownAt(os.answer, |old(os.trace)|)
    ensures old(os.Now()).managed ==> os.trace[|os.trace| - 1].SvDown?
  {
    ghost var before := os.trace;
    var managed := os.IsManaged();
    LookingIsSafe(before, os.trace, from, project.pattern, os.self);
    if managed {
      before := os.trace;
      var _ := os.RunSvDown();
      assert os.trace[..|before|] == before;
      ActIsSafe(before, os.trace, from, project.pattern, os.self);
    }
  }

  /** At every act since `from` all the processes had been strictly verified since then. */
  ghost predicate VerifiedFirst(t: Trace, from: nat, pids: seq<int>, pattern: string, self: int) {
    forall i {:trigger t[i]} :: from <= i < |t| && Acts(t[i]) ==> AllStrict(t[..i], from, pids, pattern, self)
  }

  lemma CheckedFirst(start: Trace, checked: Trace, t: Trace, pids: seq<int>, pattern: string, self: int)
    requires OnlyLooked(start, checked) && checked <= t && AllStrict(checked, |start|, pids, pattern, self)
    ensures VerifiedFirst(t, |start|, pids, pattern, self)
  {
    forall i | |start| <= i < |checked|
      ensures !Acts(t[i])
    {
      assert t[i] == checked[i];
    }
    forall i | |checked| <= i < |t|
      ensures AllStrict(t[..i], |start|, pids, pattern, self)
    {
      AllStrictStays(checked, t[..i], |start|, |start|, pids, pattern, self);
    }
  }

  /** Processes verified since a later moment were verified since an earlier one, and only looking
      needs no verification. */
  lemma VerifiedFirstEarlier(t: Trace, t': Trace, from: nat, later: nat, pids: seq<int>, pattern: string, self: int)
    requires VerifiedFirst(t, later, pids, pattern, self) && OnlyLooked(t, t') && from <= later <= |t|
    requires OnlyLooked(t[..from], t[..later])
    ensures VerifiedFirst(t', from, pids, pattern, self)
  {
    forall i | from <= i < later
      ensures !Acts(t'[i])
    {
      assert t'[i] == t[..later][i];
    }
    forall i | later <= i < |t'| && Acts(t'[i])
      ensures AllStrict(t'[..i], from, pids, pattern, self)
    {
      assert i < |t| ==> t'[i] == t[i] && t'[..i] == t[..i];
      AllStrictStays(t'[..i], t'[..i], from, later, pids, pattern, self);
    }
  }

  /** When the whole stop is over, with every process gone. */
  function StoppedServiceBy(answer: nat -> Answer, n: nat, self: int, pids: seq<int>, pattern: string): Option<nat> {
    if pids == [] then None
    else match VerifiedBy(answer, n, self, pids, pattern)
      case None => None
      case Some(verified) => EndedBy(answer, verified, pids)
  }

  /** Every process of the list, all verified again before anything is touched, is gone when this
      returns true. */
  method StopServiceGracefully(os: Os, pids: seq<int>, project: Project, ghost from: nat) returns (stopped: bool)
    requires ActsSafe(os.trace, from, project.pattern, os.self)
    modifies os
    ensures NoStart(old(os.trace), os.trace) && ActsSafe(os.trace, from, project.pattern, os.self)
    ensures VerifiedFirst(os.trace, |old(os.trace)|, pids, project.pattern, os.self)
    ensures stopped ==> pids != [] && forall p :: p in pids ==> ReportedGone(os.trace, |old(os.trace)|, p)
    ensures EndsAs(stopped, |os.trace|, StoppedServiceBy(os.answer, |old(os.trace)|, os.self, pids, project.pattern))
  {
    if pids == [] {
      return false;
    }
    ghost var start := os.trace;
    var verified := VerifyAll(os, pids, project);
    LookingIsSafe(start, os.trace, from, project.pattern, os.self);
    if !verified {
      return false;
    }
    ghost var checked := os.trace;
    AllStrictStays(checked, checked, from, |start|, pids, project.pattern, os.self);
    stopped := StopVerified(os, pids, project, from);
    NoStartTransitive(start, checked, os.trace);
    CheckedFirst(start, checked, os.trace, pids, project.pattern, os.self);
    if stopped {
      forall p | p in pids
        ensures ReportedGone(os.trace, |start|, p)
      {
        ReportStays(os.trace, os.trace, |start|, |checked|, p);
      }
    }
  }

  /** When each of the processes, in turn, is not alive or has been stopped. */
  function StoppedBy(answer: nat -> Answer, n: nat, pids: seq<int>): Option<nat>
    decreases |pids|
  {
    if pids == [] then Some(n)
    else match (if answer(n).alive != Some(true) then Some(n + 1) else StopBy(answer, n + 1, pids[0]))
      case None => None
      case Some(end) => StoppedBy(answer, end, pids[1..])
  }

  /** When each of them, asked once more, is not alive. */
  function AbsentBy(answer: nat -> Answer, n: nat, pids: seq<int>): Option<nat>
    decreases |pids|
  {
    if pids == [] then Some(n) else if answer(n).alive == Some(true) then None else AbsentBy(answer, n + 1, pids[1..])
  }

  function EndedBy(answer: nat -> Answer, n: nat, pids: seq<int>): Option<nat> {
    match StoppedBy(answer, DownAt(answer, n), pids)
    case None => None
    case Some(end) => AbsentBy(answer, end, pids)
  }

  method StopVerified(os: Os, pids: seq<int>, project: Project, ghost from: nat) returns (stopped: bool)
    requires ActsSafe(os.trace, from, project.pattern, os.self)
    requires AllStrict(os.trace, from, pids, project.pattern, os.self) && forall p :: p in pids ==> p > 0
    modifies os
    ensures NoStart(old(os.trace), os.trace) && ActsSafe(os.trace, from, project.pattern, os.self)
    ensures stopped ==> forall p :: p in pids ==> ReportedGone(os.trace, |old(os.trace)|, p)
    ensures EndsAs(stopped, |os.trace|, EndedBy(os.answer, |old(os.trace)|, pids))
  {
    ghost var checked := os.trace;
    TakeDown(os, project, from);
    ghost var down := os.trace;
    AllStrictStays(checked, down, from, from, pids, project.pattern, os.self);
    stopped := StopEach(os, pids, project, from);
    NoStartTransitive(checked, down, os.trace);
    if !stopped {
      return false;
    }
    ghost var ended := os.trace;
    stopped := AllAbsent(os, pids);
    LookingIsSafe(ended, os.trace, from, project.pattern, os.self);
    NoStartTransitive(checked, ended, os.trace);
    if stopped {
      forall p | p in pids
        ensures ReportedGone(os.trace, |checked|, p)
      {
        ReportStays(os.trace, os.trace, |checked|, |ended|, p);
      }
    }
  }

  method StopEach(os: Os, pids: seq<int>, project: Project, ghost from: nat) returns (stopped: bool)
    requires ActsSafe(os.trace, from, project.pattern, os.self)
    requires AllStrict(os.trace, from, pids, project.pattern, os.self) && forall p :: p in pids ==> p > 0
    modifies os
    ensures NoStart(old(os.trace), os.trace) && ActsSafe(os.trace, from, project.pattern, os.self)
    ensures EndsAs(stopped, |os.trace|, StoppedBy(os.answer, |old(os.trace)|, pids))
  {
    assert pids[0..] == pids;
    for i := 0 to |pids|
      invariant NoStart(old(os.trace), os.trace) && ActsSafe(os.trace, from, project.pattern, os.self)
      invariant AllStrict(os.trace, from, pids, project.pattern, os.self)
      invariant StoppedBy(os.answer, |old(os.trace)|, pids) == StoppedBy(os.answer, |os.trace|, pids[i..])
    {
      ghost var before := os.trace;
      assert pids[i..][1..] == pids[i + 1..];
      var gone := StopNext(os, pids[i], project, from);
      NoStartTransitive(old(os.trace), before, os.trace);
      AllStrictStays(before, os.trace, from, from, pids, project.pattern, os.self);
      if !gone {
        return false;
      }
    }
    return true;
  }

  method StopNext(os: Os, pid: int, project: Project, ghost from: nat) returns (gone: bool)
    requires ActsSafe(os.trace, from, project.pattern, os.self)
    requires SeenStrict(os.trace, from, pid, project.pattern) && pid > 0 && pid != os.self
    modifies os
    ensures NoStart(old(os.trace), os.trace) && ActsSafe(os.trace, from, project.pattern, os.self)
    ensures EndsAs(gone, |os.trace|,
                   if old(os.Now()).alive != Some(true) then Some(|old(os.trace)| + 1) else StopBy(os.answer, |old(os.trace)| + 1, pid))
  {
    ghost var before := os.trace;
    var alive := CheckAlive(os, pid);
    LookingIsSafe(before, os.trace, from, project.pattern, os.self);
    if !alive {
      return true;
    }
    ghost var asked := os.trace;
    StrictStays(before, asked, from, pid, project.pattern);
    gone := StopOwnedPid(os, pid, project, from);
    NoStartTransitive(before, asked, os.trace);
  }

  /** None of the processes is reported alive any more. */
  method AllAbsent(os: Os, pids: seq<int>) returns (absent: bool)
    requires forall p :: p in pids ==> p > 0
    modifies os
    ensures OnlyLooked(old(os.trace), os.trace)
    ensures absent ==> forall p :: p in pids ==> ReportedGone(os.trace, |old(os.trace)|, p)
    ensures EndsAs(absent, |os.trace|, AbsentBy(os.answer, |old(os.trace)|, pids))
  {
    assert pids[0..] == pids;
    for i := 0 to |pids|
      invariant OnlyLooked(old(os.trace), os.trace)
      invariant AbsentBy(os.answer, |old(os.trace)|, pids) == AbsentBy(os.answer, |os.trace|, pids[i..])
      invariant forall j :: 0 <= j < i ==> ReportedGone(os.trace, |old(os.trace)|, pids[j])
    {
      ghost var before := os.trace;
      assert pids[i..][1..] == pids[i + 1..] && pids[i] in pids;
      var alive := CheckAlive(os, pids[i]);
      if alive {
        return false;
      }
      assert Absent(os.trace[|before|], pids[i]);
      forall j | 0 <= j < i
        ensures ReportedGone(os.trace, |old(os.trace)|, pids[j])
      {
        ReportStays(before, os.trace, |old(os.trace)|, |old(os.trace)|, pids[j]);
      }
    }
    return true;
  }

  /** When the port is looked at again and again; each time the owners of an occupied port are asked
      for, too. */
  function RoundAt(answer: nat -> Answer, n: nat, k: nat): nat
    decreases k, n
  {
    if k == 0 then n else JudgesAt(answer, RoundAt(answer, n, k - 1))
  }

  predicate Busy(answer: nat -> Answer, n: nat, k: nat) { OccupiedBy(answer, RoundAt(answer, n, k)) }

  /** The port is occupied at k looks, and then no more. */
  ghost predicate FreeAfter(answer: nat -> Answer, n: nat, k: nat) {
    !Busy(answer, n, k) && forall j: nat {:trigger Busy(answer, n, j)} :: j < k ==> Busy(answer, n, j)
  }

  ghost predicate FreeWithin(answer: nat -> Answer, n: nat, k: nat) { FreeAfter(answer, n, k) && k <= RELEASE_ATTEMPTS }

  /** True exactly when the port is free at one of the looks; as in the launcher, the owners of an
      occupied port are asked for, but change nothing. */
  method WaitPortFree(os: Os, oldPid: int) returns (released: bool, ghost k: nat)
    modifies os
    ensures OnlyLooked(old(os.trace), os.trace)
    ensures released ==> Happened(os.trace, |old(os.trace)|, PortProbed(false))
    ensures released ==> FreeWithin(os.answer, |old(os.trace)|, k) && |os.trace| == RoundAt(os.answer, |old(os.trace)|, k) + 2
    ensures !released ==> forall k: nat :: !FreeWithin(os.answer, |old(os.trace)|, k)
  {
    ghost var from := |os.trace|;
    var attempts := 50;
    for i := 0 to attempts
      invariant OnlyLooked(old(os.trace), os.trace) && |os.trace| == RoundAt(os.answer, from, i)
      invariant forall j: nat {:trigger Busy(os.answer, from, j)} :: j < i ==> Busy(os.answer, from, j)
    {
      assert Busy(os.answer, from, i) == OccupiedBy(os.answer, |os.trace|);
      var free := AskRound(os, oldPid, from);
      if free {
        return true, i;
      }
    }
    released := IsFree(os, from);
    k := attempts;
    assert Busy(os.answer, from, k) == !released;
    if !released {
      NeverFree(os.answer, from);
    }
  }

  lemma NeverFree(answer: nat -> Answer, n: nat)
    requires forall j: nat {:trigger Busy(answer, n, j)} :: j <= RELEASE_ATTEMPTS ==> Busy(answer, n, j)
    ensures forall k: nat :: !FreeWithin(answer, n, k)
  {
  }

  /** One look, and, where the port is occupied, one at the owners. */
  method AskRound(os: Os, oldPid: int, ghost from: nat) returns (free: bool)
    requires from <= |os.trace|
    modifies os
    ensures OnlyLooked(old(os.trace), os.trace) && free == !OccupiedBy(os.answer, |old(os.trace)|)
    ensures if free then Happened(os.trace, from, PortProbed(false)) && |os.trace| == |old(os.trace)| + 2
            else |os.trace| == JudgesAt(os.answer, |old(os.trace)|)
  {
    free := IsFree(os, from);
    if !free {
      var listed := VerifyPortOwnership(os, None);
      assert listed.owners == {} ==> oldPid !in listed.owners;
    }
  }

  method IsFree(os: Os, ghost from: nat) returns (free: bool)
    requires from <= |os.trace|
    modifies os
    ensures OnlyLooked(old(os.trace), os.trace) && |os.trace| == |old(os.trace)| + OwnQuestions(os.answer, |old(os.trace)|)
    ensures free == !OccupiedBy(os.answer, |old(os.trace)|)
    ensures free ==> Happened(os.trace, from, PortProbed(false)) && |os.trace| == |old(os.trace)| + 2
  {
    ghost var before := |os.trace|;
    var probed := VerifyPortOwnership(os, None);
    free := !probed.occupied;
    if free {
      ghost var k :| before <= k < |os.trace| && os.trace[k] == PortProbed(false);
      assert os.trace[k] == PortProbed(false);
    }
  }

  /** The old processes were reported gone, and after that the port was seen released. */
  ghost predicate GoneThenReleased(t: Trace, from: nat, k: nat, pids: seq<int>)
    requires k <= |t|
  {
    (forall p :: p in pids ==> SeenGone(t[..k], from, p)) && Happened(t, k, PortProbed(false))
  }

  ghost predicate Clear(t: Trace, from: nat, pre: Preflight) {
    || pre.decision.Free?
    || (pre.decision.Same? && pre.same != [] && exists k {:trigger t[..k]} :: from <= k <= |t| && GoneThenReleased(t, from, k, pre.same))
  }

  /** A managed service is only touched where its supervisor can be used. */
  function UsableBy(answer: nat -> Answer, n: nat): Option<nat> {
    if !answer(n).managed then Some(n + 1) else if answer(n + 1).usable then Some(n + 2) else None
  }

  /** When the old processes have been stopped. */
  function StopsBy(answer: nat -> Answer, n: nat, self: int, pids: seq<int>, pattern: string): Option<nat> {
    match UsableBy(answer, n)
    case None => None
    case Some(asked) => StoppedServiceBy(answer, asked, self, pids, pattern)
  }

  /** The old processes are stopped and gone, and the port is free after k more looks. */
  ghost predicate Heals(answer: nat -> Answer, n: nat, self: int, pids: seq<int>, pattern: string, k: nat) {
    StopsBy(answer, n, self, pids, pattern).Some? && Releases(answer, StopsBy(answer, n, self, pids, pattern).value, pids, k)
  }

  function HealedAt(answer: nat -> Answer, n: nat, self: int, pids: seq<int>, pattern: string, k: nat): nat
    requires StopsBy(answer, n, self, pids, pattern).Some?
    requires AllGoneBy(answer, StopsBy(answer, n, self, pids, pattern).value, pids).Some?
  {
    ReleasedAt(answer, StopsBy(answer, n, self, pids, pattern).value, pids, k)
  }

  /** From the moment on the signal comes through, the process is still alive at j looks, and after that
      gone for good. */
  ghost predicate Goes(answer: nat -> Answer, n: nat, j: nat) {
    && answer(n).sent.Delivered? && (forall k: nat {:trigger answer(k)} :: n < k <= n + j ==> answer(k).alive == Some(true))
    && (forall k: nat {:trigger answer(k)} :: n + j < k ==> answer(k).alive == Some(false))
  }

  /** The wait for such a process ends, and it is gone from then on. */
  lemma GoingEnds(answer: nat -> Answer, n: nat, h: int, j: nat)
    requires h > 0 && j <= STOP_ATTEMPTS && Goes(answer, n, j)
    ensures GoneBy(answer, n + 1, h, n + 1 + STOP_ATTEMPTS) == Some(n + j + 2)
  {
    GoneByMeans(answer, n + 1, h, n + 1 + STOP_ATTEMPTS);
    assert DeadAt(answer, n + 1 + j, h);
    assert forall k: nat :: n < k <= n + j ==> !DeadAt(answer, k, h);
  }

  /** A verified old instance that no supervisor manages, and that goes in time, is stopped and gone. */
  lemma GoingIsStopped(answer: nat -> Answer, n: nat, self: int, h: int, pattern: string, m: nat, j: nat)
    requires !answer(n).managed && StrictVerdict(answer, n + 1, self, h, pattern) == Some(true)
    requires m == n + 1 + StrictQuestions(answer, n + 1, self, h, pattern)
    requires !answer(m).managed && answer(m + 1).alive == Some(true) && answer(m + 2).alive == Some(true)
    requires j <= STOP_ATTEMPTS && Goes(answer, m + 3, j)
    ensures StopsBy(answer, n, self, [h], pattern) == Some(m + j + 6) && AllGoneBy(answer, m + j + 6, [h]) == Some(m + j + 7)
  {
    GoingIsEnded(answer, m, h, j);
    OneVerified(answer, n + 1, self, h, pattern);
    assert StoppedServiceBy(answer, n + 1, self, [h], pattern) == EndedBy(answer, m, [h]);
  }

  lemma OneVerified(answer: nat -> Answer, n: nat, self: int, h: int, pattern: string)
    requires StrictVerdict(answer, n, self, h, pattern) == Some(true)
    ensures VerifiedBy(answer, n, self, [h], pattern) == Some(n + StrictQuestions(answer, n, self, h, pattern))
  {
    assert [h][1..] == [];
  }

  lemma GoingIsEnded(answer: nat -> Answer, m: nat, h: int, j: nat)
    requires !answer(m).managed && answer(m + 1).alive == Some(true) && answer(m + 2).alive == Some(true)
    requires h > 0 && j <= STOP_ATTEMPTS && Goes(answer, m + 3, j)
    ensures EndedBy(answer, m, [h]) == Some(m + j + 6) && AllGoneBy(answer, m + j + 6, [h]) == Some(m + j + 7)
  {
    GoingEnds(answer, m + 3, h, j);
    var none := [h][1..];
    assert StoppedBy(answer, m + 1, [h]) == StoppedBy(answer, m + j + 5, none);
    assert AbsentBy(answer, m + j + 5, [h]) == AbsentBy(answer, m + j + 6, none);
    assert AllGoneBy(answer, m + j + 6, [h]) == AllGoneBy(answer, m + j + 7, none);
  }

  /** Stops the verified old instance, verified again before anything is touched; true exactly when
      all of it is stopped and gone and the port is free in time. */
  method HealSameServiceOwner(os: Os, pre: Preflight, project: Project, ghost from: nat) returns (healed: bool, ghost k: nat)
    requires ActsSafe(os.trace, from, project.pattern, os.self) && pre.decision.Same?
    modifies os
    ensures NoStart(old(os.trace), os.trace) && ActsSafe(os.trace, from, project.pattern, os.self)
    ensures VerifiedFirst(os.trace, |old(os.trace)|, pre.same, project.pattern, os.self)
    ensures healed ==> Clear(os.trace, from, pre)
    ensures healed ==>
              && Heals(os.answer, |old(os.trace)|, os.self, pre.same, project.pattern, k)
              && |os.trace| == HealedAt(os.answer, |old(os.trace)|, os.self, pre.same, project.pattern, k)
    ensures !healed ==> forall k: nat :: !Heals(os.answer, |old(os.trace)|, os.self, pre.same, project.pattern, k)
  {
    k := 0;
    if pre.same == [] {
      return false, k;
    }
    ghost var start := os.trace;
    var usable := MayTouch(os);
    LookingIsSafe(start, os.trace, from, project.pattern, os.self);
    if !usable {
      return false, k;
    }
    ghost var asked := os.trace;
    healed := StopServiceGracefully(os, pre.same, project, from);
    ghost var ended := os.trace;
    NoStartTransitive(start, asked, ended);
    assert ended[..|start|] == start && ended[..|asked|] == asked;
    VerifiedFirstEarlier(ended, ended, |start|, |asked|, pre.same, project.pattern, os.self);
    if healed {
      healed, k := Released(os, pre, project, from);
      NoStartTransitive(start, ended, os.trace);
      VerifiedFirstEarlier(ended, os.trace, |start|, |asked|, pre.same, project.pattern, os.self);
    }
  }

  method MayTouch(os: Os) returns (may: bool)
    modifies os
    ensures OnlyLooked(old(os.trace), os.trace)
    ensures EndsAs(may, |os.trace|, UsableBy(os.answer, |old(os.trace)|))
  {
    var managed := os.IsManaged();
    may := true;
    if managed {
      may := os.IsSvUsable();
    }
  }

  /** The part after the stop goes well: all are seen gone, and the port is free after k more looks. */
  ghost predicate Releases(answer: nat -> Answer, n: nat, pids: seq<int>, k: nat) {
    AllGoneBy(answer, n, pids).Some? && FreeWithin(answer, AllGoneBy(answer, n, pids).value, k)
  }

  function ReleasedAt(answer: nat -> Answer, n: nat, pids: seq<int>, k: nat): nat
    requires AllGoneBy(answer, n, pids).Some?
  {
    DroppedAt(answer, RoundAt(answer, AllGoneBy(answer, n, pids).value, k) + 2, pids)
  }

  /** After the stop: all seen gone, where a probe that raises refuses, and the port seen released. */
  method Released(os: Os, pre: Preflight, project: Project, ghost from: nat) returns (released: bool, ghost k: nat)
    requires ActsSafe(os.trace, from, project.pattern, os.self) && pre.decision.Same? && pre.same != []
    modifies os
    ensures OnlyLooked(old(os.trace), os.trace) && NoStart(old(os.trace), os.trace)
    ensures ActsSafe(os.trace, from, project.pattern, os.self)
    ensures released ==> Clear(os.trace, from, pre)
    ensures released ==>
              Releases(os.answer, |old(os.trace)|, pre.same, k) && |os.trace| == ReleasedAt(os.answer, |old(os.trace)|, pre.same, k)
    ensures !released ==> forall k: nat :: !Releases(os.answer, |old(os.trace)|, pre.same, k)
  {
    ghost var ended := os.trace;
    k := 0;
    released := AllGone(os, pre.same);
    ghost var gone := os.trace;
    if released {
      released, k := WaitPortFree(os, pre.same[0]);
    }
    if released {
      ghost var free := os.trace;
      assert free[..|gone|] == gone;
      forall p | p in pre.same
        ensures SeenGone(gone, from, p)
      {
        GoneEarlier(gone, from, |ended|, p);
      }
      assert GoneThenReleased(free, from, |gone|, pre.same);
      DropPids(os, pre.same);
      LookingKeepsClear(free, os.trace, from, pre);
    }
    LookingIsSafe(ended, os.trace, from, project.pattern, os.self);
  }

  lemma GoneEarlier(t: Trace, from: nat, later: nat, pid: int)
    requires SeenGone(t, later, pid) && from <= later
    ensures SeenGone(t, from, pid)
  {
  }

  /** When each of them, asked in turn, is known to be gone. */
  function AllGoneBy(answer: nat -> Answer, n: nat, pids: seq<int>): Option<nat>
    decreases |pids|
  {
    if pids == [] then Some(n)
    else if pids[0] > 0 && answer(n).alive != Some(false) then None
    else AllGoneBy(answer, n + 1, pids[1..])
  }

  /** None of the processes is alive any more, and every one of them could be asked. */
  method AllGone(os: Os, pids: seq<int>) returns (gone: bool)
    modifies os
    ensures OnlyLooked(old(os.trace), os.trace)
    ensures gone ==> forall p :: p in pids ==> SeenGone(os.trace, |old(os.trace)|, p)
    ensures EndsAs(gone, |os.trace|, AllGoneBy(os.answer, |old(os.trace)|, pids))
  {
    assert pids[0..] == pids;
    for i := 0 to |pids|
      invariant OnlyLooked(old(os.trace), os.trace)
      invariant AllGoneBy(os.answer, |old(os.trace)|, pids) == AllGoneBy(os.answer, |os.trace|, pids[i..])
      invariant forall j :: 0 <= j < i ==> SeenGone(os.trace, |old(os.trace)|, pids[j])
    {
      ghost var before := os.trace;
      assert pids[i..][1..] == pids[i + 1..];
      var answer := os.IsAlive(pids[i]);
      if answer != Some(false) {
        return false;
      }
      assert Gone(os.trace[|before|], pids[i]);
      forall j | 0 <= j < i
        ensures SeenGone(os.trace, |old(os.trace)|, pids[j])
      {
        GoneStays(before, os.trace, |old(os.trace)|, pids[j]);
      }
    }
    return true;
  }

  lemma LookingKeepsClear(t: Trace, t': Trace, from: nat, pre: Preflight)
    requires Clear(t, from, pre) && t <= t'
    ensures Clear(t', from, pre)
  {
    if !pre.decision.Free? {
      var k :| from <= k <= |t| && GoneThenReleased(t, from, k, pre.same);
      assert t'[..k] == t[..k];
      HappenedStays(t, t', k, PortProbed(false));
      assert GoneThenReleased(t', from, k, pre.same);
    }
  }

  /** When each of them has been asked for, and the record dropped where it is gone. */
  function DroppedAt(answer: nat -> Answer, n: nat, pids: seq<int>): nat
    decreases |pids|
  {
    if pids == [] then n
    else DroppedAt(answer, if pids[0] <= 0 || answer(n).alive == Some(false) then n + 2 else n + 1, pids[1..])
  }

  method DropPids(os: Os, pids: seq<int>)
    modifies os
    ensures OnlyLooked(old(os.trace), os.trace)
    ensures |os.trace| == DroppedAt(os.answer, |old(os.trace)|, pids)
  {
    assert pids[0..] == pids;
    for i := 0 to |pids|
      invariant OnlyLooked(old(os.trace), os.trace)
      invariant DroppedAt(os.answer, |old(os.trace)|, pids) == DroppedAt(os.answer, |os.trace|, pids[i..])
    {
      assert pids[i..][1..] == pids[i + 1..];
      var answer := os.IsAlive(pids[i]);
      if answer == Some(false) {
        os.RemovePid();
      }
    }
  }

  /* ---------- the running verdict ---------- */

  /** The port belongs to the process, or owners cannot be listed, something listens on it, and
      the service has a health endpoint to vouch for it. */
  ghost predicate PortEvidence(t: Trace, from: nat, pid: int, project: Project) {
    exists i {:trigger t[i]} :: from <= i < |t| && t[i].OwnersListed? &&
      if t[i].owners.Some? then pid in t[i].owners.value
      else project.healthEndpoint != "" && Happened(t, from, PortProbed(true))
  }

  ghost predicate ServingEvidence(t: Trace, from: nat, pid: int, project: Project) {
    PortEvidence(t, from, pid, project) && (project.healthEndpoint != "" ==> Happened(t, from, HealthProbed(true)))
  }

  ghost predicate RunningEvidence(t: Trace, from: nat, pid: int, project: Project) {
    && Happened(t, from, AliveProbe(pid, Some(true))) && Happened(t, from, VerifierAsked(pid, Some(true)))
    && ServingEvidence(t, from, pid, project)
  }

  lemma EvidenceEarlier(t: Trace, from: nat, later: nat, pid: int, project: Project)
    requires from <= later && RunningEvidence(t, later, pid, project)
    ensures RunningEvidence(t, from, pid, project)
  {
  }

  datatype Verdict = Verdict(running: bool, identity: Option<bool>)

  /** From the moment on the process is alive and verified, alone on its port, and healthy. */
  ghost predicate Sound(answer: nat -> Answer, from: nat, pid: int) {
    pid > 0 && forall k {:trigger answer(k)} :: from <= k ==> Serving(answer(k), pid)
  }

  predicate Serving(a: Answer, pid: int) {
    a.alive == Some(true) && a.verdict == Some(true) && a.owners == Some({pid}) && a.healthy
  }

  /** By the answers there are, the process owns the port, or, where owners cannot be told, something
      listens and there is a health endpoint to vouch for it. */
  predicate MayServe(answer: nat -> Answer, n: nat, pid: int, endpoint: string) {
    match answer(n).owners
    case Some(owners) => pid in owners
    case None => answer(n + 1).listening && endpoint != ""
  }

  predicate ServesBy(answer: nat -> Answer, n: nat, pid: int, endpoint: string) {
    MayServe(answer, n, pid, endpoint) && (endpoint != "" ==> answer(n + OwnQuestions(answer, n)).healthy)
  }

  function ServeQuestions(answer: nat -> Answer, n: nat, pid: int, endpoint: string): nat {
    OwnQuestions(answer, n) + if MayServe(answer, n, pid, endpoint) && endpoint != "" then 1 else 0
  }

  /** The verdict, by the answers there are: the process must be alive, verified, and serve. */
  function RunBy(answer: nat -> Answer, n: nat, pid: int, endpoint: string): Verdict {
    if pid <= 0 || answer(n).alive != Some(true) then Verdict(false, None)
    else Verdict(answer(n + 1).verdict == Some(true) && ServesBy(answer, n + 2, pid, endpoint), answer(n + 1).verdict)
  }

  function RunQuestions(answer: nat -> Answer, n: nat, pid: int, endpoint: string): nat {
    if pid <= 0 || answer(n).alive != Some(true) then 1
    else if answer(n + 1).verdict != Some(true) then 2
    else 2 + ServeQuestions(answer, n + 2, pid, endpoint)
  }

  /** The port and health part of the verdict. */
  method Serves(os: Os, project: Project, pid: int) returns (serves: bool)
    modifies os
    ensures OnlyAsked(old(os.trace), os.trace)
    ensures serves <==> ServingEvidence(os.trace, |old(os.trace)|, pid, project)
    ensures serves == ServesBy(os.answer, |old(os.trace)|, pid, project.healthEndpoint)
    ensures |os.trace| == |old(os.trace)| + ServeQuestions(os.answer, |old(os.trace)|, pid, project.healthEndpoint)
  {
    ghost var from := |os.trace|;
    var o := VerifyPortOwnership(os, Some(pid));
    if o.owned == Some(false) || (o.owned == None && (!o.occupied || project.healthEndpoint == "")) {
      return false;
    }
    ghost var asked := os.trace;
    serves := true;
    if project.healthEndpoint != "" {
      serves := os.ProbeHealth();
      assert os.trace[|asked|] == HealthProbed(serves);
    }
    assert os.trace[from] == asked[from];
    if o.owned.None? {
      HappenedStays(asked, os.trace, from, PortProbed(true));
    }
  }

  /** The verdict on a process; a liveness probe that raises is not caught here. */
  method VerifyRuntimeRunning(os: Os, project: Project, pid: int) returns (v: Verdict, raised: bool)
    modifies os
    ensures OnlyAsked(old(os.trace), os.trace)
    ensures v.running <==> RunningEvidence(os.trace, |old(os.trace)|, pid, project)
    ensures v == RunBy(os.answer, |old(os.trace)|, pid, project.healthEndpoint)
    ensures |os.trace| == |old(os.trace)| + RunQuestions(os.answer, |old(os.trace)|, pid, project.healthEndpoint)
    ensures raised <==> pid > 0 && old(os.Now()).alive.None?
  {
    ghost var from := |os.trace|;
    var alive := os.IsAlive(pid);
    if alive != Some(true) {
      return Verdict(false, None), alive.None?;
    }
    var identity := os.AskVerifier(pid);
    if identity != Some(true) {
      return Verdict(false, identity), false;
    }
    ghost var before := os.trace;
    var serves := Serves(os, project, pid);
    assert os.trace[from] == before[from] && os.trace[from + 1] == before[from + 1];
    ServingFromHere(os.trace, from, pid, project);
    return Verdict(serves, identity), false;
  }

  /** Asking for life and identity says nothing about port and health. */
  lemma ServingFromHere(t: Trace, from: nat, pid: int, project: Project)
    requires |t| >= from + 2 && t[from].AliveProbe? && t[from + 1].VerifierAsked?
    ensures ServingEvidence(t, from, pid, project) <==> ServingEvidence(t, from + 2, pid, project)
  {
    forall e: Event | !e.AliveProbe? && !e.VerifierAsked?
      ensures Happened(t, from, e) <==> Happened(t, from + 2, e)
    {
    }
  }

  /* ---------- starting ---------- */

  /** There is at most one start, and it was clear. */
  ghost predicate OneClearStart(t: Trace, from: nat, pre: Preflight) {
    forall i {:trigger ClearAt(t, from, i, pre)} :: from <= i < |t| ==> ClearAt(t, from, i, pre)
  }

  ghost predicate ClearAt(t: Trace, from: nat, i: nat, pre: Preflight)
    requires i < |t|
  {
    Starts(t[i]) ==> Clear(t[..i], from, pre) && forall j :: i < j < |t| ==> !Starts(t[j])
  }

  /** The last thing that happened to the PID file is the one at `j`. */
  ghost predicate LastRecord(t: Trace, j: nat) {
    j < |t| && Records(t[j]) && forall k {:trigger t[k]} :: j < k < |t| ==> !Records(t[k])
  }

  /** The process, for a spawn the child itself, was found running after the start at `s`, and
      recording it, which worked or not, is the last thing done to the PID file; and nothing was
      signalled, started or taken down from the start on. */
  ghost predicate Proven(t: Trace, s: nat, j: nat, project: Project) {
    && s < j < |t| && Starts(t[s]) && LastRecord(t, j) && t[j].PidSaved?
    && RunningEvidence(t, s + 1, t[j].pid, project)
    && (t[s].Spawned? ==> t[s].child == Some(t[j].pid) && t[j].written)
    && forall k {:trigger t[k]} :: s < k < |t| ==> !Acts(t[k])
  }

  ghost predicate FoundRunning(t: Trace, from: nat, project: Project, answer: nat -> Answer) {
    exists s: nat, j: nat {:trigger Proven(t, s, j, project)} :: from <= s && Proven(t, s, j, project) && t[j].written == answer(j).saved
  }

  /** The id of the process found running is on record. */
  ghost predicate Recorded(t: Trace, from: nat, project: Project) {
    exists s: nat, j: nat {:trigger Proven(t, s, j, project)} :: from <= s && Proven(t, s, j, project) && t[j].written
  }

  /** The service was started by its supervisor, and writing the PID file failed. */
  ghost predicate UnsavedByRunit(t: Trace, from: nat) {
    exists s {:trigger t[s]} :: from <= s < |t| && t[s].SvUp? && FailedSave(t, s)
  }

  ghost predicate FailedSave(t: Trace, s: nat) {
    exists j {:trigger t[j]} :: s < j < |t| && t[j].PidSaved? && !t[j].written
  }

  lemma StartIsClear(ready: Trace, started: Trace, from: nat, pre: Preflight)
    requires from <= |ready| && Clear(ready, from, pre) && NoStart(ready[..from], ready)
    requires |started| == |ready| + 1 && ready == started[..|ready|]
    ensures OneClearStart(started, from, pre)
  {
  }

  lemma NoMoreStarts(t: Trace, t': Trace, from: nat, pre: Preflight)
    requires OneClearStart(t, from, pre) && NoStart(t, t')
    ensures OneClearStart(t', from, pre)
  {
    forall i | from <= i < |t'|
      ensures ClearAt(t', from, i, pre)
    {
      assert i < |t| ==> ClearAt(t, from, i, pre) && t'[i] == t[i] && t'[..i] == t[..i];
    }
  }

  /** The process was seen alive and verified. */
  ghost predicate Vouched(t: Trace, from: nat, pid: int) {
    Happened(t, from, AliveProbe(pid, Some(true))) && Happened(t, from, VerifierAsked(pid, Some(true)))
  }

  /** The process was looked at and passed over. */
  ghost predicate PassedOver(t: Trace, from: nat, pid: int) {
    exists i {:trigger t[i]} :: from <= i < |t| && Unfit(t[i], pid)
  }

  predicate Unfit(e: Event, pid: int) { Dead(e, pid) || (e.VerifierAsked? && e.pid == pid && e.verdict != Some(true)) }

  /** A vouched member, or, when none was chosen, every one was passed over. */
  ghost predicate Chosen(t: Trace, from: nat, pids: set<int>, pid: Option<int>) {
    match pid
    case Some(p) => p in pids && Vouched(t, from, p)
    case None => forall p :: p in pids ==> PassedOver(t, from, p)
  }

  /** Nothing of the service is there yet: no owner of the port, no pattern match and no saved id. */
  predicate StillDown(answer: nat -> Answer, n: nat, self: int, pattern: string) {
    && answer(n).owners == Some({}) && (pattern != "" ==> Hinted(answer(n + 2).hints, self) == {})
    && answer(RecallAt(n, pattern)).onRecord in {None, Some(0)}
  }

  function RecallAt(n: nat, pattern: string): nat { if pattern != "" then n + 3 else n + 2 }

  /** Best live candidate: an owner of the port, a pattern match, or the saved id. */
  method DiscoverServicePid(os: Os, project: Project) returns (pid: Option<int>)
    modifies os
    ensures OnlyAsked(old(os.trace), os.trace)
    ensures forall p :: Sound(os.answer, |old(os.trace)|, p) ==> pid == Some(p)
    ensures StillDown(os.answer, |old(os.trace)|, os.self, project.pattern) ==>
              pid == None && |os.trace| == RecallAt(|old(os.trace)|, project.pattern) + 1
    ensures pid.Some? ==> Happened(os.trace, |old(os.trace)|, AliveProbe(pid.value, Some(true)))
    ensures forall p :: old(os.Now()).owners.Some? && p in old(os.Now()).owners.value && pid != Some(p) ==>
              PassedOver(os.trace, |old(os.trace)|, p) || (pid.Some? && pid.value in old(os.Now()).owners.value)
  {
    ghost var from := |os.trace|;
    var o := VerifyPortOwnership(os, None);
    ghost var listed := |os.trace|;
    pid := FirstVerified(os, o.owners);
    if pid.None? {
      ghost var passed := os.trace;
      pid := RecallPid(os, project);
      PassedStays(passed, os.trace, from, listed, o.owners);
    }
  }

  lemma PassedStays(t: Trace, t': Trace, from: nat, later: nat, pids: set<int>)
    requires (forall p :: p in pids ==> PassedOver(t, later, p)) && t <= t' && from <= later
    ensures forall p :: p in pids ==> PassedOver(t', from, p)
  {
    forall p | p in pids
      ensures PassedOver(t', from, p)
    {
      var i :| later <= i < |t| && Unfit(t[i], p);
      assert t'[i] == t[i];
    }
  }

  /** A pattern match, or the saved id of a live process. */
  method RecallPid(os: Os, project: Project) returns (pid: Option<int>)
    modifies os
    ensures OnlyAsked(old(os.trace), os.trace)
    ensures var hinted := if project.pattern == "" then {} else Hinted(old(os.Now()).hints, os.self);
            pid.None? || pid.value !in hinted ==>
              && (forall p :: p in hinted ==> PassedOver(os.trace, |old(os.trace)|, p))
              && (pid.Some? ==> Happened(os.trace, |old(os.trace)|, PidRead(pid)))
    ensures pid.Some? ==> Happened(os.trace, |old(os.trace)|, AliveProbe(pid.value, Some(true)))
    ensures (project.pattern != "" ==> Hinted(old(os.Now()).hints, os.self) == {}) &&
            os.answer(if project.pattern != "" then |old(os.trace)| + 1 else |old(os.trace)|).onRecord in {None, Some(0)} ==>
              pid == None && |os.trace| == |old(os.trace)| + if project.pattern != "" then 2 else 1
  {
    ghost var from := |os.trace|;
    ghost var passed := os.trace;
    ghost var hinted: set<int> := {};
    if project.pattern != "" {
      var hints := os.Hints();
      hinted := hints;
      pid := FirstVerified(os, hints);
      if pid.Some? {
        return;
      }
      passed := os.trace;
      PassedStays(passed, passed, from, from + 1, hints);
    }
    pid := ReadSaved(os);
    PassedStays(passed, os.trace, from, from, hinted);
  }

  /** The saved id, if its process is alive. */
  method ReadSaved(os: Os) returns (pid: Option<int>)
    modifies os
    ensures OnlyAsked(old(os.trace), os.trace)
    ensures pid.Some? ==> Happened(os.trace, |old(os.trace)|, PidRead(pid)) && Happened(os.trace, |old(os.trace)|, AliveProbe(pid.value, Some(true)))
    ensures old(os.Now()).onRecord in {None, Some(0)} ==> pid == None && |os.trace| == |old(os.trace)| + 1
    ensures var saved := old(os.Now()).onRecord;
            saved.Some? && saved.value > 0 && os.answer(|old(os.trace)| + 1).alive == Some(true) ==> pid == saved
  {
    ghost var from := |os.trace|;
    var saved := os.ReadPid();
    if saved.Some? && saved.value != 0 {
      var alive := CheckAlive(os, saved.value);
      if alive {
        assert os.trace[from] == PidRead(saved) && os.trace[from + 1] == AliveProbe(saved.value, Some(true));
        return saved;
      }
    }
    return None;
  }

  method FirstVerified(os: Os, pids: set<int>) returns (pid: Option<int>)
    modifies os
    ensures OnlyAsked(old(os.trace), os.trace)
    ensures Chosen(os.trace, |old(os.trace)|, pids, pid)
    ensures pids == {} ==> os.trace == old(os.trace)
    ensures forall p :: Sound(os.answer, |old(os.trace)|, p) && pids == {p} ==> pid == Some(p)
  {
    var left := pids;
    ghost var from := |os.trace|;
    while left != {}
      invariant left <= pids && OnlyAsked(old(os.trace), os.trace)
      invariant pids == {} ==> os.trace == old(os.trace)
      invariant forall p :: p in pids - left ==> PassedOver(os.trace, from, p)
      invariant forall p :: Sound(os.answer, |old(os.trace)|, p) && pids == {p} ==> left == pids
      decreases |left|
    {
      NonEmpty(left);
      var next :| next in left;
      ghost var before := os.trace;
      var fit := IsFit(os, next);
      if fit {
        VouchedEarlier(os.trace, from, |before|, next);
        return Some(next);
      }
      PassedStays(before, os.trace, from, from, pids - left);
      PassedStays(os.trace, os.trace, from, |before|, {next});
      left := left - {next};
    }
    return None;
  }

  lemma VouchedEarlier(t: Trace, from: nat, later: nat, pid: int)
    requires Vouched(t, later, pid) && from <= later
    ensures Vouched(t, from, pid)
  {
  }

  /** Alive and verified. */
  method IsFit(os: Os, pid: int) returns (fit: bool)
    modifies os
    ensures OnlyAsked(old(os.trace), os.trace)
    ensures if fit then Vouched(os.trace, |old(os.trace)|, pid) else PassedOver(os.trace, |old(os.trace)|, pid)
    ensures fit <==> pid > 0 && old(os.Now()).alive == Some(true) && os.answer(|old(os.trace)| + 1).verdict == Some(true)
  {
    ghost var from := |os.trace|;
    var alive := CheckAlive(os, pid);
    if !alive {
      assert Unfit(os.trace[from], pid);
      return false;
    }
    var verdict := os.AskVerifier(pid);
    fit := verdict == Some(true);
    assert os.trace[from] == AliveProbe(pid, Some(true)) && os.trace[from + 1] == VerifierAsked(pid, verdict);
    assert !fit ==> Unfit(os.trace[from + 1], pid);
  }

  /** The service is found not there yet some times, and is sound from then on. */
  ghost predicate ComesLate(answer: nat -> Answer, n: nat, self: int, pattern: string, pid: int, late: nat)
    decreases late, n
  {
    if late == 0 then Sound(answer, n, pid)
    else StillDown(answer, n, self, pattern) && ComesLate(answer, RecallAt(n, pattern) + 1, self, pattern, pid, late - 1)
  }

  /** It comes in time. */
  ghost predicate Arrives(answer: nat -> Answer, n: nat, self: int, pattern: string) {
    exists p, late: nat {:trigger ComesLate(answer, n, self, pattern, p, late)} ::
      late < VERIFY_ATTEMPTS && ComesLate(answer, n, self, pattern, p, late)
  }

  /** After i looks, every late service comes that much sooner. */
  ghost predicate Pending(answer: nat -> Answer, from: nat, now: nat, self: int, pattern: string, i: nat) {
    forall p, late: nat {:trigger ComesLate(answer, from, self, pattern, p, late)} ::
      ComesLate(answer, from, self, pattern, p, late) ==> i <= late && ComesLate(answer, now, self, pattern, p, late - i)
  }

  ghost predicate FoundLate(answer: nat -> Answer, n: nat, self: int, pattern: string, attempts: nat, found: Option<int>) {
    forall p, late: nat {:trigger ComesLate(answer, n, self, pattern, p, late)} ::
      ComesLate(answer, n, self, pattern, p, late) && late < attempts ==> found == Some(p)
  }

  /** Looks for the supervised process until one of them verifies. */
  method AwaitDiscovered(os: Os, project: Project) returns (found: Option<int>)
    modifies os
    ensures OnlyAsked(old(os.trace), os.trace)
    ensures found.Some? ==> RunningEvidence(os.trace, |old(os.trace)|, found.value, project)
    ensures FoundLate(os.answer, |old(os.trace)|, os.self, project.pattern, VERIFY_ATTEMPTS, found)
  {
    ghost var from := |os.trace|;
    for i := 0 to 20
      invariant OnlyAsked(old(os.trace), os.trace)
      invariant Pending(os.answer, from, |os.trace|, os.self, project.pattern, i)
    {
      ghost var before := |os.trace|;
      found := Discover(os, project);
      if found.Some? {
        EvidenceEarlier(os.trace, from, before, found.value, project);
        PendingFound(os.answer, from, before, os.self, project.pattern, i, found);
        return;
      }
      PendingOn(os.answer, from, before, |os.trace|, os.self, project.pattern, i);
    }
    return None;
  }

  lemma PendingFound(answer: nat -> Answer, from: nat, now: nat, self: int, pattern: string, i: nat, found: Option<int>)
    requires Pending(answer, from, now, self, pattern, i)
    requires !StillDown(answer, now, self, pattern) && forall p :: Sound(answer, now, p) ==> found == Some(p)
    ensures FoundLate(answer, from, self, pattern, VERIFY_ATTEMPTS, found)
  {
    forall p, late: nat | ComesLate(answer, from, self, pattern, p, late)
      ensures found == Some(p)
    {
      assert ComesLate(answer, now, self, pattern, p, late - i);
    }
  }

  lemma PendingOn(answer: nat -> Answer, from: nat, now: nat, next: nat, self: int, pattern: string, i: nat)
    requires Pending(answer, from, now, self, pattern, i)
    requires forall p :: !Sound(answer, now, p)
    requires StillDown(answer, now, self, pattern) ==> next == RecallAt(now, pattern) + 1
    ensures Pending(answer, from, next, self, pattern, i + 1)
  {
    forall p, late: nat | ComesLate(answer, from, self, pattern, p, late)
      ensures i + 1 <= late && ComesLate(answer, next, self, pattern, p, late - (i + 1))
    {
      assert ComesLate(answer, now, self, pattern, p, late - i);
    }
  }

  /** One attempt. */
  method Discover(os: Os, project: Project) returns (found: Option<int>)
    modifies os
    ensures OnlyAsked(old(os.trace), os.trace)
    ensures found.Some? ==> RunningEvidence(os.trace, |old(os.trace)|, found.value, project)
    ensures forall p :: Sound(os.answer, |old(os.trace)|, p) ==> found == Some(p)
    ensures StillDown(os.answer, |old(os.trace)|, os.self, project.pattern) ==>
              found == None && |os.trace| == RecallAt(|old(os.trace)|, project.pattern) + 1
  {
    ghost var from := |os.trace|;
    found := DiscoverServicePid(os, project);
    if found.Some? {
      assert forall p :: Sound(os.answer, from, p) ==> Sound(os.answer, |os.trace|, p);
      ghost var before := |os.trace|;
      var verdict, raised := VerifyRuntimeRunning(os, project, found.value);
      if !verdict.running {
        return None;
      }
      EvidenceEarlier(os.trace, from, before, found.value, project);
    }
  }

  /** True exactly when a process was found running after the supervisor's start, whether or not it
      could be recorded. */
  method StartViaRunit(os: Os, project: Project, pre: Preflight, ghost from: nat) returns (ok: bool)
    requires ActsSafe(os.trace, from, project.pattern, os.self) && Clear(os.trace, from, pre)
    requires NoStart(os.trace[..from], os.trace) && |os.trace| > from && os.trace[|os.trace| - 1] == ManagedAsked(true)
    modifies os
    ensures old(os.trace) <= os.trace && ActsSafe(os.trace, from, project.pattern, os.self)
    ensures |os.trace| > |old(os.trace)| && os.trace[|old(os.trace)|].SvUp?
    ensures OneClearStart(os.trace, from, pre)
    ensures ok ==> Proven(os.trace, |old(os.trace)|, |os.trace| - 1, project)
    ensures ok ==> os.trace[|os.trace| - 1].written == os.answer(|os.trace| - 1).saved
    ensures FailedSave(os.trace, |old(os.trace)|) <==> ok && !os.trace[|os.trace| - 1].written
    ensures Rises(os.answer, |old(os.trace)|, os.self, project.pattern) ==> ok
    ensures ok ==> old(os.Now()).up
  {
    ghost var ready := |os.trace|;
    var up := BringUp(os, project, pre, from);
    ghost var started := os.trace;
    ok := false;
    if up {
      ok := FindAndRecord(os, project);
      LookingIsSafe(started, os.trace, from, project.pattern, os.self);
      NoMoreStarts(started, os.trace, from, pre);
    }
    FoundAfter(started, os.trace, ready, project, ok);
  }

  method BringUp(os: Os, project: Project, pre: Preflight, ghost from: nat) returns (up: bool)
    requires ActsSafe(os.trace, from, project.pattern, os.self) && Clear(os.trace, from, pre)
    requires NoStart(os.trace[..from], os.trace) && |os.trace| > from && os.trace[|os.trace| - 1] == ManagedAsked(true)
    modifies os
    ensures os.trace == old(os.trace) + [SvUp(up)] && up == old(os.Now()).up
    ensures ActsSafe(os.trace, from, project.pattern, os.self) && OneClearStart(os.trace, from, pre)
  {
    ghost var ready := os.trace;
    up := os.RunSvUp();
    assert os.trace[..|ready|] == ready;
    ActIsSafe(ready, os.trace, from, project.pattern, os.self);
    StartIsClear(ready, os.trace, from, pre);
  }

  /** The process was found, and its id written or not, as the last thing done. */
  ghost predicate EndsFound(started: Trace, t: Trace, project: Project) {
    var n := |t| - 1;
    n >= |started| && t[n].PidSaved? && OnlyAsked(started, t[..n]) && RunningEvidence(t, |started|, t[n].pid, project)
  }

  lemma FoundAfter(started: Trace, t: Trace, s: nat, project: Project, ok: bool)
    requires |started| == s + 1 && started[s].SvUp? && started <= t
    requires if ok then EndsFound(started, t, project) else OnlyAsked(started, t)
    ensures ok ==> Proven(t, s, |t| - 1, project)
    ensures FailedSave(t, s) <==> ok && !t[|t| - 1].written
  {
    assert t[s] == started[s];
    if ok {
      var n := |t| - 1;
      forall k | s < k < n
        ensures !Records(t[k])
      {
        assert t[k] == t[..n][k];
      }
    }
  }

  /** The failure to record is swallowed. */
  method FindAndRecord(os: Os, project: Project) returns (ok: bool)
    modifies os
    ensures OnlyLooked(old(os.trace), os.trace)
    ensures ok ==>
              && EndsFound(old(os.trace), os.trace, project)
              && os.trace[|os.trace| - 1].written == os.answer(|os.trace| - 1).saved
    ensures !ok ==> OnlyAsked(old(os.trace), os.trace)
    ensures Arrives(os.answer, |old(os.trace)|, os.self, project.pattern) ==> ok
  {
    ghost var started := |os.trace|;
    var found := AwaitDiscovered(os, project);
    ghost var looked := os.trace;
    if found.Some? {
      var _ := os.SavePid(found.value);
      EvidenceStays(looked, os.trace, started, found.value, project);
      assert os.trace[..|looked|] == looked;
    }
    return found.Some?;
  }

  lemma EvidenceStays(t: Trace, t': Trace, from: nat, pid: int, project: Project)
    requires RunningEvidence(t, from, pid, project) && t <= t'
    ensures RunningEvidence(t', from, pid, project)
  {
  }

  /** The child is found not to have exited at any look of the settling time. */
  ghost predicate Settles(answer: nat -> Answer, n: nat) {
    forall k: nat {:trigger answer(k)} :: n <= k <= n + STABLE_ATTEMPTS ==> !answer(k).exited
  }

  /** Whether the fresh child exited within the settling time. */
  method WaitForStableStart(os: Os, pid: int) returns (exited: bool)
    modifies os
    ensures OnlyAsked(old(os.trace), os.trace)
    ensures exited <==> !Settles(os.answer, |old(os.trace)|)
    ensures !exited ==> |os.trace| == |old(os.trace)| + STABLE_ATTEMPTS + 1
  {
    ghost var from := |os.trace|;
    for i := 0 to 10
      invariant OnlyAsked(old(os.trace), os.trace) && |os.trace| == from + i
      invariant forall k: nat {:trigger os.answer(k)} :: from <= k < from + i ==> !os.answer(k).exited
    {
      exited := os.PollChild(pid);
      if exited {
        return;
      }
    }
    exited := os.PollChild(pid);
  }

  /** One round of the polling of the own child: whether it has exited, else its verdict, and when the
      next round comes. */
  datatype Look = Look(exited: bool, verdict: Verdict, raised: bool, next: nat)

  function LookAt(answer: nat -> Answer, pid: int, endpoint: string, n: nat): Look {
    Look(answer(n).exited, RunBy(answer, n + 1, pid, endpoint), pid > 0 && answer(n + 1).alive.None?,
         n + 1 + RunQuestions(answer, n + 1, pid, endpoint))
  }

  function Looks(answer: nat -> Answer, pid: int, endpoint: string): nat -> Look { (n: nat) => LookAt(answer, pid, endpoint, n) }

  /** What the polling comes to: an exit keeps the last verdict, or, in the first round, takes one
      still; a running or foreign process and a verdict that raises end it, and so does the last
      attempt. */
  function Outcome(looks: nat -> Look, n: nat, attempts: nat, had: Option<Verdict>): (Verdict, bool)
    requires attempts > 0
    decreases attempts, n
  {
    var l := looks(n);
    if l.exited && had.Some? then (had.value, false)
    else if l.exited || l.verdict.running || l.raised then (l.verdict, l.raised)
    else if l.verdict.identity == Some(false) || attempts == 1 then (l.verdict, false)
    else Outcome(looks, l.next, attempts - 1, Some(l.verdict))
  }

  function AwaitBy(answer: nat -> Answer, n: nat, pid: int, endpoint: string): (Verdict, bool) {
    Outcome(Looks(answer, pid, endpoint), n, VERIFY_ATTEMPTS, None)
  }

  /** Polls the running verdict of the own child until it passes, is hopeless, or time is up. A
      child that has exited before the first verdict gets one all the same. */
  method AwaitHttpVerified(os: Os, project: Project, pid: int) returns (v: Verdict, raised: bool)
    modifies os
    ensures OnlyAsked(old(os.trace), os.trace)
    ensures v.running ==> RunningEvidence(os.trace, |old(os.trace)|, pid, project)
    ensures (v, raised) == AwaitBy(os.answer, |old(os.trace)|, pid, project.healthEndpoint)
  {
    ghost var looks := Looks(os.answer, pid, project.healthEndpoint);
    forall n: nat
      ensures Tells(looks, os.answer, pid, project.healthEndpoint, n)
    {
    }
    v, raised := AwaitOutcome(os, project, pid, looks);
  }

  ghost predicate Tells(looks: nat -> Look, answer: nat -> Answer, pid: int, endpoint: string, n: nat) {
    looks(n) == LookAt(answer, pid, endpoint, n)
  }

  method AwaitOutcome(os: Os, project: Project, pid: int, ghost looks: nat -> Look) returns (v: Verdict, raised: bool)
    requires forall n: nat {:trigger Tells(looks, os.answer, pid, project.healthEndpoint, n)} ::
               Tells(looks, os.answer, pid, project.healthEndpoint, n)
    modifies os
    ensures OnlyAsked(old(os.trace), os.trace)
    ensures v.running ==> RunningEvidence(os.trace, |old(os.trace)|, pid, project)
    ensures (v, raised) == Outcome(looks, |old(os.trace)|, 20, None)
  {
    var verdict: Option<Verdict> := None;
    for i := 0 to 20
      invariant OnlyAsked(old(os.trace), os.trace) && (verdict.Some? ==> !verdict.value.running) && (i > 0 ==> verdict.Some?)
      invariant i < 20 ==> Outcome(looks, |old(os.trace)|, 20, None) == Outcome(looks, |os.trace|, 20 - i, verdict)
      invariant i == 20 ==> Outcome(looks, |old(os.trace)|, 20, None) == (verdict.value, false)
    {
      ghost var round := |os.trace|;
      assert Tells(looks, os.answer, pid, project.healthEndpoint, round);
      var exited;
      exited, v, raised := Round(os, project, pid, verdict.None?, looks);
      if exited && verdict.Some? {
        return verdict.value, false;
      }
      if exited || v.running || raised {
        Within(os.trace, |old(os.trace)|, round, pid, project, v.running);
        return;
      }
      verdict := Some(v);
      if v.identity == Some(false) {
        return v, false;
      }
    }
    return verdict.value, false;
  }

  method Round(os: Os, project: Project, pid: int, first: bool, ghost looks: nat -> Look) returns (exited: bool, v: Verdict, raised: bool)
    requires Tells(looks, os.answer, pid, project.healthEndpoint, |os.trace|)
    modifies os
    ensures OnlyAsked(old(os.trace), os.trace)
    ensures exited == looks(|old(os.trace)|).exited
    ensures !exited || first ==> v == looks(|old(os.trace)|).verdict && raised == looks(|old(os.trace)|).raised
    ensures v.running ==> RunningEvidence(os.trace, |old(os.trace)|, pid, project)
    ensures !exited ==> |os.trace| == looks(|old(os.trace)|).next
  {
    ghost var round := |os.trace|;
    exited := os.PollChild(pid);
    v, raised := Verdict(false, None), false;
    if !exited || first {
      v, raised := VerifyRuntimeRunning(os, project, pid);
      Within(os.trace, round, round + 1, pid, project, v.running);
    }
  }

  lemma Within(t: Trace, from: nat, later: nat, pid: int, project: Project, running: bool)
    requires from <= later && (running ==> RunningEvidence(t, later, pid, project))
    ensures running ==> RunningEvidence(t, from, pid, project)
  {
    if running {
      EvidenceEarlier(t, from, later, pid, project);
    }
  }

  /** A signal to the own child: to its process group first, to it alone if that fails. */
  method SignalChild(os: Os, pid: int, signal: Signal, project: Project, ghost from: nat)
    requires ActsSafe(os.trace, from, project.pattern, os.self) && OwnChild(os.trace, from, pid) && pid != os.self
    modifies os
    ensures NoStart(old(os.trace), os.trace) && ActsSafe(os.trace, from, project.pattern, os.self)
    ensures Sent(os.trace, |old(os.trace)|, pid, signal)
    ensures forall i {:trigger os.trace[i]} :: |old(os.trace)| <= i < |os.trace| ==> os.trace[i].Signalled?
    ensures |os.trace| == |old(os.trace)| + if old(os.Now()).sent.Delivered? then 1 else 2
  {
    ghost var before := os.trace;
    var sent := os.Send(pid, signal);
    assert os.trace[..|before|] == before && os.trace[|before|].Signalled?;
    ActIsSafe(before, os.trace, from, project.pattern, os.self);
    if !sent.Delivered? {
      ghost var failed := os.trace;
      HappenedStays(before, failed, from, Spawned(Some(pid)));
      var _ := os.Send(pid, signal);
      assert os.trace[..|failed|] == failed;
      ActIsSafe(failed, os.trace, from, project.pattern, os.self);
    }
  }

  /** Some look found the process not alive. */
  ghost predicate SeenDead(t: Trace, from: nat, pid: int) {
    exists i {:trigger t[i]} :: from <= i < |t| && Dead(t[i], pid)
  }

  predicate Dead(e: Event, pid: int) { e.AliveProbe? && e.pid == pid && e.alive != Some(true) }

  /** Polls until the process is gone or the clock says that time is up, and asks once more. */
  method StillAlive(os: Os, pid: int) returns (alive: bool)
    modifies os
    ensures OnlyLooked(old(os.trace), os.trace)
    ensures alive <==> !SeenDead(os.trace, |old(os.trace)|, pid)
  {
    ghost var from := |os.trace|;
    for i := 0 to KILL_AFTER
      invariant OnlyLooked(old(os.trace), os.trace) && !SeenDead(os.trace, from, pid)
    {
      var waiting := os.IsTimeLeft();
      if !waiting {
        break;
      }
      ghost var before := os.trace;
      alive := CheckAlive(os, pid);
      if !alive {
        assert Dead(os.trace[|before|], pid);
        return false;
      }
    }
    ghost var before := os.trace;
    alive := CheckAlive(os, pid);
    assert !alive ==> Dead(os.trace[|before|], pid);
  }

  /** The process got the signal, or was not there for it. */
  ghost predicate Sent(t: Trace, from: nat, pid: int, signal: Signal) {
    exists i {:trigger t[i]} :: from <= i < |t| && t[i].Signalled? && t[i].pid == pid && t[i].signal == signal
  }

  /** Stops the own child, by force when it does not go within the timeout: unless it was seen dead, it
      was asked to go, and then forced. */
  method StopPidSafely(os: Os, pid: int, project: Project, ghost from: nat) returns (gone: bool)
    requires ActsSafe(os.trace, from, project.pattern, os.self) && OwnChild(os.trace, from, pid)
    modifies os
    ensures NoStart(old(os.trace), os.trace) && ActsSafe(os.trace, from, project.pattern, os.self)
    ensures pid != os.self ==> Ended(os.trace, |old(os.trace)|, pid, gone)
  {
    if pid == os.self {
      return false;
    }
    ghost var start := os.trace;
    var alive := CheckAlive(os, pid);
    LookingIsSafe(start, os.trace, from, project.pattern, os.self);
    if !alive {
      assert Dead(os.trace[|start|], pid);
      return true;
    }
    ghost var seen := os.trace;
    HappenedStays(start, seen, from, Spawned(Some(pid)));
    alive := SignalAndWait(os, pid, project, from);
    NoStartTransitive(start, seen, os.trace);
    EndedEarlier(start, seen, os.trace, pid, alive);
    if !alive {
      return true;
    }
    ghost var waited := os.trace;
    HappenedStays(start, waited, from, Spawned(Some(pid)));
    gone := Force(os, pid, project, from);
    NoStartTransitive(start, waited, os.trace);
    EndedByForce(os.trace, |start|, |waited|, waited, pid, gone);
  }

  /** The child was seen dead, or it was asked to go and then forced; and the answer is whether it was
      seen dead. */
  ghost predicate Ended(t: Trace, from: nat, pid: int, gone: bool) {
    (gone <==> SeenDead(t, from, pid)) && (!gone ==> Sent(t, from, pid, Term) && Sent(t, from, pid, Kill))
  }

  lemma EndedEarlier(t: Trace, t': Trace, t'': Trace, pid: int, alive: bool)
    requires |t'| == |t| + 1 && t == t'[..|t|] && !Dead(t'[|t|], pid) && t' <= t''
    requires (alive <==> !SeenDead(t'', |t'|, pid)) && Sent(t'', |t'|, pid, Term)
    ensures (alive <==> !SeenDead(t'', |t|, pid)) && Sent(t'', |t|, pid, Term)
  {
    assert t''[|t|] == t'[|t|];
  }

  lemma EndedByForce(t: Trace, from: nat, later: nat, waited: Trace, pid: int, gone: bool)
    requires from <= later == |waited| && waited <= t && !SeenDead(waited, from, pid) && Sent(waited, from, pid, Term)
    requires (gone <==> SeenDead(t, later, pid)) && Sent(t, later, pid, Kill)
    ensures Ended(t, from, pid, gone)
  {
    forall i | from <= i < later
      ensures t[i] == waited[i] && !Dead(t[i], pid)
    {
    }
    var i :| from <= i < |waited| && waited[i].Signalled? && waited[i].pid == pid && waited[i].signal == Term;
    assert t[i] == waited[i];
  }

  /** The last resort, and whether it helped. */
  method Force(os: Os, pid: int, project: Project, ghost from: nat) returns (gone: bool)
    requires ActsSafe(os.trace, from, project.pattern, os.self) && OwnChild(os.trace, from, pid) && pid != os.self
    modifies os
    ensures NoStart(old(os.trace), os.trace) && ActsSafe(os.trace, from, project.pattern, os.self)
    ensures gone <==> SeenDead(os.trace, |old(os.trace)|, pid)
    ensures Sent(os.trace, |old(os.trace)|, pid, Kill)
  {
    ghost var start := os.trace;
    SignalChild(os, pid, Kill, project, from);
    ghost var forced := os.trace;
    var alive := CheckAlive(os, pid);
    LookingIsSafe(forced, os.trace, from, project.pattern, os.self);
    NoStartTransitive(start, forced, os.trace);
    SentStays(forced, os.trace, |start|, pid, Kill);
    assert !alive <==> Dead(os.trace[|forced|], pid);
    return !alive;
  }

  lemma SentStays(t: Trace, t': Trace, from: nat, pid: int, signal: Signal)
    requires Sent(t, from, pid, signal) && t <= t'
    ensures Sent(t', from, pid, signal)
  {
  }

  method SignalAndWait(os: Os, pid: int, project: Project, ghost from: nat) returns (alive: bool)
    requires ActsSafe(os.trace, from, project.pattern, os.self) && OwnChild(os.trace, from, pid) && pid != os.self
    modifies os
    ensures NoStart(old(os.trace), os.trace) && ActsSafe(os.trace, from, project.pattern, os.self)
    ensures alive <==> !SeenDead(os.trace, |old(os.trace)|, pid)
    ensures Sent(os.trace, |old(os.trace)|, pid, Term)
  {
    ghost var start := os.trace;
    SignalChild(os, pid, Term, project, from);
    ghost var asked := os.trace;
    alive := StillAlive(os, pid);
    LookingIsSafe(asked, os.trace, from, project.pattern, os.self);
    NoStartTransitive(start, asked, os.trace);
    SentStays(asked, os.trace, |start|, pid, Term);
    DeadLater(start, asked, os.trace, pid);
  }

  lemma DeadLater(t: Trace, t': Trace, t'': Trace, pid: int)
    requires t <= t' <= t'' && forall i {:trigger t'[i]} :: |t| <= i < |t'| ==> t'[i].Signalled?
    ensures SeenDead(t'', |t|, pid) <==> SeenDead(t'', |t'|, pid)
  {
    assert forall i :: |t| <= i < |t'| ==> t''[i] == t'[i];
  }

  /** A spawn succeeds, by the answers there are: the service has its place, the child comes, is
      recorded, does not exit while it settles, and is found running. */
  ghost predicate SpawnsBy(answer: nat -> Answer, n: nat, endpoint: string) {
    answer(n).placed && ChildRuns(answer, n + 1, endpoint)
  }

  ghost predicate ChildRuns(answer: nat -> Answer, n: nat, endpoint: string) {
    match answer(n).child
    case None => false
    case Some(pid) => StageBy(answer, n + 1, pid, endpoint).Running?
  }

  /** An own spawn of a service that no supervisor manages. */
  method SpawnServiceProcess(os: Os, project: Project, pre: Preflight, ghost from: nat) returns (ok: bool)
    requires ActsSafe(os.trace, from, project.pattern, os.self) && Clear(os.trace, from, pre)
    requires NoStart(os.trace[..from], os.trace) && |os.trace| > from && os.trace[|os.trace| - 1] == ManagedAsked(false)
    modifies os
    ensures old(os.trace) <= os.trace && ActsSafe(os.trace, from, project.pattern, os.self)
    ensures OneClearStart(os.trace, from, pre)
    ensures if old(os.Now()).placed then Spawning(os.trace, os.answer, |old(os.trace)| + 1, project, os.self, ok)
            else !ok && os.trace == old(os.trace) + [PlaceAsked(false)]
  {
    ghost var ready := os.trace;
    var placed := os.IsPlaced();
    LookingIsSafe(ready, os.trace, from, project.pattern, os.self);
    LookingKeepsClear(ready, os.trace, from, pre);
    ghost var asked := os.trace;
    assert asked[..from] == ready[..from];
    NoStartTransitive(ready[..from], ready, asked);
    ok := false;
    if placed {
      ok := SpawnPlaced(os, project, pre, from);
      assert asked <= os.trace;
    }
  }

  /** The child was started at the moment and runs exactly when the answers make it. Then it is proven,
      recorded and left alone; else its record is dropped, and if it stayed it is not left running. */
  ghost predicate Spawning(t: Trace, answer: nat -> Answer, n: nat, project: Project, self: int, ok: bool) {
    && |t| > n + 1 && t[n].Spawned? && (ok <==> ChildRuns(answer, n, project.healthEndpoint))
    && (ok ==> Proven(t, n, n + 1, project) && answer(n + 1).saved)
    && (!ok ==> t[|t| - 1] == PidRemoved && NotLeft(t, answer, n, project, self))
    && (!ok ==> LeftAlone(t, answer, n, project))
  }

  /** Every other child is left to itself. */
  ghost predicate LeftAlone(t: Trace, answer: nat -> Answer, n: nat, project: Project) {
    match answer(n).child
    case None => true
    case Some(pid) =>
      StageBy(answer, n + 1, pid, project.healthEndpoint).Unverified? || forall k {:trigger t[k]} :: n < k < |t| ==> !Acts(t[k])
  }

  /** A child that stayed but did not verify is not left running. */
  ghost predicate NotLeft(t: Trace, answer: nat -> Answer, n: nat, project: Project, self: int) {
    match answer(n).child
    case None => true
    case Some(pid) =>
      pid != self && StageBy(answer, n + 1, pid, project.healthEndpoint).Unverified? ==> PutDown(t, n + 1, pid)
  }

  method SpawnPlaced(os: Os, project: Project, pre: Preflight, ghost from: nat) returns (ok: bool)
    requires ActsSafe(os.trace, from, project.pattern, os.self) && Clear(os.trace, from, pre)
    requires NoStart(os.trace[..from], os.trace) && |os.trace| > from + 1
    requires os.trace[|os.trace| - 2] == ManagedAsked(false) && os.trace[|os.trace| - 1] == PlaceAsked(true)
    modifies os
    ensures old(os.trace) <= os.trace && ActsSafe(os.trace, from, project.pattern, os.self)
    ensures OneClearStart(os.trace, from, pre)
    ensures Spawning(os.trace, os.answer, |old(os.trace)|, project, os.self, ok)
  {
    ghost var ready := os.trace;
    var spawned := Spawn(os, project, pre, from);
    ghost var started := os.trace;
    if spawned.None? {
      os.RemovePid();
      LookingIsSafe(started, os.trace, from, project.pattern, os.self);
      NoMoreStarts(started, os.trace, from, pre);
      return false;
    }
    assert started[|ready|] == Spawned(spawned);
    ok := FollowChild(os, project, spawned.value, from);
    NoMoreStarts(started, os.trace, from, pre);
    FollowedIsSpawning(started, os.trace, os.answer, spawned.value, project, os.self, ok);
  }

  method Spawn(os: Os, project: Project, pre: Preflight, ghost from: nat) returns (spawned: Option<int>)
    requires ActsSafe(os.trace, from, project.pattern, os.self) && Clear(os.trace, from, pre)
    requires NoStart(os.trace[..from], os.trace) && |os.trace| > from + 1
    requires os.trace[|os.trace| - 2] == ManagedAsked(false) && os.trace[|os.trace| - 1] == PlaceAsked(true)
    modifies os
    ensures os.trace == old(os.trace) + [Spawned(spawned)] && spawned == old(os.Now()).child
    ensures ActsSafe(os.trace, from, project.pattern, os.self) && OneClearStart(os.trace, from, pre)
  {
    ghost var ready := os.trace;
    spawned := os.Spawn();
    assert os.trace[..|ready|] == ready;
    ActIsSafe(ready, os.trace, from, project.pattern, os.self);
    StartIsClear(ready, os.trace, from, pre);
  }

  datatype Stage = NotSaved | Exited | Raised | Unverified | Running

  /** What becomes of a child, by the answers there are. */
  ghost function StageBy(answer: nat -> Answer, n: nat, pid: int, endpoint: string): Stage {
    if !answer(n).saved then NotSaved
    else if !Settles(answer, n + 1) then Exited
    else StageOf(AwaitBy(answer, n + 2 + STABLE_ATTEMPTS, pid, endpoint))
  }

  function StageOf(awaited: (Verdict, bool)): Stage {
    if awaited.0.running then Running else if awaited.1 then Raised else Unverified
  }

  /** A child that is still starting is alive and verified, but does not own its port yet. */
  predicate StillStarting(answer: nat -> Answer, n: nat, pid: int) {
    && pid > 0 && !answer(n).exited && answer(n + 1).alive == Some(true) && answer(n + 2).verdict == Some(true)
    && answer(n + 3).owners == Some({})
  }

  /** The child is found still starting some times, and is sound from then on. */
  ghost predicate StartsSlowly(answer: nat -> Answer, n: nat, pid: int, slow: nat)
    decreases slow, n
  {
    if slow == 0 then !answer(n).exited && Sound(answer, n + 1, pid)
    else StillStarting(answer, n, pid) && StartsSlowly(answer, n + 5, pid, slow - 1)
  }

  /** A round that finds the child still starting is followed by another, one that finds it sound ends
      the polling. */
  ghost predicate GoesOnAt(answer: nat -> Answer, looks: nat -> Look, k: nat, pid: int) {
    && (StillStarting(answer, k, pid) ==> GoesOn(looks(k), k + 5))
    && (!answer(k).exited && Sound(answer, k + 1, pid) ==> looks(k).verdict.running && !looks(k).exited)
  }

  predicate GoesOn(l: Look, next: nat) {
    !l.exited && !l.verdict.running && !l.raised && l.verdict.identity != Some(false) && l.next == next
  }

  lemma {:induction false} LaterRounds(answer: nat -> Answer, looks: nat -> Look, n: nat, pid: int, attempts: nat, slow: nat,
                                       had: Option<Verdict>)
    requires slow < attempts && StartsSlowly(answer, n, pid, slow)
    requires forall k: nat {:trigger GoesOnAt(answer, looks, k, pid)} :: GoesOnAt(answer, looks, k, pid)
    ensures Outcome(looks, n, attempts, had).0.running
    decreases slow
  {
    assert GoesOnAt(answer, looks, n, pid);
    if slow > 0 {
      LaterRounds(answer, looks, n + 5, pid, attempts - 1, slow - 1, Some(looks(n).verdict));
    }
  }

  lemma RoundTells(answer: nat -> Answer, k: nat, pid: int, endpoint: string)
    ensures GoesOnAt(answer, Looks(answer, pid, endpoint), k, pid)
  {
    var looks := Looks(answer, pid, endpoint);
    assert looks(k) == LookAt(answer, pid, endpoint, k);
    if StillStarting(answer, k, pid) {
      assert RunBy(answer, k + 1, pid, endpoint) == Verdict(false, Some(true));
    }
    if Sound(answer, k + 1, pid) {
      assert Serving(answer(k + 1), pid) && Serving(answer(k + 2), pid) && Serving(answer(k + 3), pid) && Serving(answer(k + 4), pid);
      assert OwnQuestions(answer, k + 3) == 1;
      assert RunBy(answer, k + 1, pid, endpoint).running;
    }
  }

  /** An own start succeeds when the service has its place, the child comes and is recorded, does not
      exit while it settles, and is sound after it was found still starting less often than there are
      attempts. */
  lemma SoundChildRuns(answer: nat -> Answer, n: nat, pid: int, endpoint: string, slow: nat)
    requires answer(n).placed && answer(n + 1).child == Some(pid) && answer(n + 2).saved && Settles(answer, n + 3)
    requires slow < VERIFY_ATTEMPTS && StartsSlowly(answer, n + 4 + STABLE_ATTEMPTS, pid, slow)
    ensures SpawnsBy(answer, n, endpoint)
  {
    var looks := Looks(answer, pid, endpoint);
    forall k: nat
      ensures GoesOnAt(answer, looks, k, pid)
    {
      RoundTells(answer, k, pid, endpoint);
    }
    LaterRounds(answer, looks, n + 4 + STABLE_ATTEMPTS, pid, VERIFY_ATTEMPTS, slow, None);
  }

  /** Records the child, lets it settle, and verifies it. */
  method Settle(os: Os, project: Project, pid: int) returns (stage: Stage)
    modifies os
    ensures OnlyLooked(old(os.trace), os.trace)
    ensures stage == StageBy(os.answer, |old(os.trace)|, pid, project.healthEndpoint)
    ensures stage.Running? ==>
              && LastRecord(os.trace, |old(os.trace)|) && os.trace[|old(os.trace)|] == PidSaved(pid, true)
              && RunningEvidence(os.trace, |old(os.trace)|, pid, project)
  {
    var saved := os.SavePid(pid);
    if !saved {
      return NotSaved;
    }
    var exited := WaitForStableStart(os, pid);
    if exited {
      return Exited;
    }
    ghost var settled := |os.trace|;
    var verdict, raised := AwaitHttpVerified(os, project, pid);
    if raised && !verdict.running {
      return Raised;
    }
    if verdict.running {
      EvidenceEarlier(os.trace, |old(os.trace)|, settled, pid, project);
      return Running;
    }
    return Unverified;
  }

  /** What following the child promises: it runs exactly when the answers make it, and then it is on
      record. Only one that stayed unverified is touched, and that one is put down. */
  ghost predicate Followed(started: Trace, t: Trace, answer: nat -> Answer, pid: int, project: Project, self: int, ok: bool) {
    var n := |started|;
    var stage := StageBy(answer, n, pid, project.healthEndpoint);
    && (ok <==> stage.Running?) && (stage.Unverified? || OnlyLooked(started, t))
    && (ok ==> LastRecord(t, n) && t[n] == PidSaved(pid, true) && answer(n).saved && RunningEvidence(t, n, pid, project))
    && (!ok ==> t != [] && t[|t| - 1] == PidRemoved)
    && (stage.Unverified? && pid != self ==> PutDown(t, n, pid))
  }

  lemma FollowedIsSpawning(started: Trace, t: Trace, answer: nat -> Answer, pid: int, project: Project, self: int, ok: bool)
    requires started != [] && started[|started| - 1] == Spawned(Some(pid)) && answer(|started| - 1).child == Some(pid)
    requires started < t && Followed(started, t, answer, pid, project, self, ok)
    ensures Spawning(t, answer, |started| - 1, project, self, ok)
  {
    assert t[|started| - 1] == started[|started| - 1];
    if ok {
      ChildProven(started, t, project, pid);
    }
  }

  lemma ChildProven(started: Trace, t: Trace, project: Project, pid: int)
    requires started != [] && started[|started| - 1] == Spawned(Some(pid)) && OnlyLooked(started, t)
    requires LastRecord(t, |started|) && t[|started|] == PidSaved(pid, true) && RunningEvidence(t, |started|, pid, project)
    ensures Proven(t, |started| - 1, |started|, project)
  {
    assert t[|started| - 1] == started[|started| - 1];
  }

  /** Follows the child to its verdict; a child that does not verify is stopped, but one whose
      verdict raises is left to itself. Only a running one keeps its record. */
  method FollowChild(os: Os, project: Project, pid: int, ghost from: nat) returns (ok: bool)
    requires ActsSafe(os.trace, from, project.pattern, os.self) && OwnChild(os.trace, from, pid)
    modifies os
    ensures NoStart(old(os.trace), os.trace) && ActsSafe(os.trace, from, project.pattern, os.self)
    ensures Followed(old(os.trace), os.trace, os.answer, pid, project, os.self, ok)
  {
    ghost var started := os.trace;
    var stage := Settle(os, project, pid);
    LookingIsSafe(started, os.trace, from, project.pattern, os.self);
    if stage.Running? {
      return true;
    }
    ghost var judged := os.trace;
    if stage.Unverified? {
      HappenedStays(started, judged, from, Spawned(Some(pid)));
      Discard(os, project, pid, from);
      PutDownStays(os.trace, os.trace, |started|, |judged|, pid, os.self);
    } else {
      os.RemovePid();
      LookingIsSafe(judged, os.trace, from, project.pattern, os.self);
    }
    NoStartTransitive(started, judged, os.trace);
    return false;
  }

  /** The process was seen dead, or was asked to go and then forced. */
  ghost predicate PutDown(t: Trace, from: nat, pid: int) {
    SeenDead(t, from, pid) || (Sent(t, from, pid, Term) && Sent(t, from, pid, Kill))
  }

  lemma PutDownStays(t: Trace, t': Trace, from: nat, later: nat, pid: int, self: int)
    requires (pid != self ==> PutDown(t, later, pid)) && t <= t' && from <= later
    ensures pid != self ==> PutDown(t', from, pid)
  {
  }

  /** The own child is stopped, and its record dropped. */
  method Discard(os: Os, project: Project, pid: int, ghost from: nat)
    requires ActsSafe(os.trace, from, project.pattern, os.self) && OwnChild(os.trace, from, pid)
    modifies os
    ensures NoStart(old(os.trace), os.trace) && ActsSafe(os.trace, from, project.pattern, os.self)
    ensures pid != os.self ==> PutDown(os.trace, |old(os.trace)|, pid)
    ensures os.trace != [] && os.trace[|os.trace| - 1] == PidRemoved
  {
    ghost var start := os.trace;
    var _ := StopPidSafely(os, pid, project, from);
    ghost var stopped := os.trace;
    os.RemovePid();
    PutDownStays(stopped, os.trace, |start|, |start|, pid, os.self);
    LookingIsSafe(stopped, os.trace, from, project.pattern, os.self);
    NoStartTransitive(start, stopped, os.trace);
  }

  /** When the record of a dead process has been dropped. */
  function StaleAt(answer: nat -> Answer, n: nat): nat {
    match answer(n).onRecord
    case None => n + 1
    case Some(saved) =>
      if saved == 0 then n + 1 else if saved < 0 || answer(n + 1).alive == Some(false) then n + 3 else n + 2
  }

  /** The start itself goes well: the supervisor's for a managed service, the own one for another. */
  ghost predicate ComesUp(answer: nat -> Answer, n: nat, self: int, project: Project) {
    var ready := StaleAt(answer, n);
    if answer(ready).managed then Rises(answer, ready + 1, self, project.pattern)
    else SpawnsBy(answer, ready + 1, project.healthEndpoint)
  }

  ghost predicate Rises(answer: nat -> Answer, n: nat, self: int, pattern: string) {
    answer(n).up && Arrives(answer, n + 1, self, pattern)
  }

  /** An own start succeeds exactly when the answers make it; one through the supervisor when the service
      comes up in time, and only when the supervisor took it. */
  ghost predicate Went(answer: nat -> Answer, n: nat, managed: bool, self: int, project: Project, ok: bool) {
    if managed then (Rises(answer, n, self, project.pattern) ==> ok) && (ok ==> answer(n).up)
    else ok <==> SpawnsBy(answer, n, project.healthEndpoint)
  }

  /** A free port, and a start that goes well. */
  ghost predicate GoesWell(answer: nat -> Answer, n: nat, self: int, project: Project) {
    Idle(answer, n) && ComesUp(answer, n + 4, self, project)
  }

  /** The port's one owner is the service; it is stopped and gone, the port is free after k more looks,
      and the start goes well. */
  ghost predicate GoesWellAgain(answer: nat -> Answer, n: nat, self: int, project: Project, h: int, k: nat) {
    SoleService(answer, n, self, project.pattern, h) && HealsThenComesUp(answer, JudgedAt(answer, n, self, project.pattern, h), self, project, [h], k)
  }

  ghost predicate HealsThenComesUp(answer: nat -> Answer, n: nat, self: int, project: Project, pids: seq<int>, k: nat) {
    Heals(answer, n, self, pids, project.pattern, k) && ComesUp(answer, HealedAt(answer, n, self, pids, project.pattern, k), self, project)
  }

  /** The whole start. Whatever the operating system answers: a foreign or indeterminate port leads
      to no signal, no supervisor command and no spawn; every act is justified at its moment; there
      is at most one start, a clear one; and true means that the process last recorded was found
      running after it. It is not on record exactly when the supervisor started it and writing
      failed. */
  method StartHttpService(os: Os, project: Project) returns (pre: Preflight, ok: bool)
    modifies os
    ensures old(os.trace) <= os.trace && ActsSafe(os.trace, |old(os.trace)|, project.pattern, os.self)
    ensures Trusted(os.trace, |old(os.trace)|, pre, project.pattern, os.self)
    ensures pre.decision.Foreign? || pre.decision.Indeterminate? ==> !ok && OnlyLooked(old(os.trace), os.trace)
    ensures OneClearStart(os.trace, |old(os.trace)|, pre)
    ensures ok ==> FoundRunning(os.trace, |old(os.trace)|, project, os.answer)
    ensures ok && !Recorded(os.trace, |old(os.trace)|, project) <==> UnsavedByRunit(os.trace, |old(os.trace)|)
    ensures GoesWell(os.answer, |old(os.trace)|, os.self, project) ==> ok
    ensures forall h, k: nat :: GoesWellAgain(os.answer, |old(os.trace)|, os.self, project, h, k) ==> ok
  {
    ghost var from := |os.trace|;
    ghost var start := os.trace;
    pre := PreflightService(os, project);
    LookingIsSafe(start, os.trace, from, project.pattern, os.self);
    if !pre.decision.Free? && !pre.decision.Same? {
      return pre, false;
    }
    ghost var looked := os.trace;
    if pre.decision.Free? {
      assert os.trace[..from] == start;
      ok := Begin(os, project, pre, from);
      CameUp(os.answer, |looked|, os.self, project, ok);
    } else {
      ok := Replace(os, project, pre, from);
    }
    TrustStays(looked, os.trace, from, pre, project.pattern, os.self);
    AgainFollows(os.answer, from, os.self, project, pre, |looked|, ok);
  }

  lemma AgainFollows(answer: nat -> Answer, n: nat, self: int, project: Project, pre: Preflight, looked: nat, ok: bool)
    requires SoleFound(answer, n, self, project.pattern, pre, looked)
    requires pre.decision.Same? ==> forall k: nat :: HealsThenComesUp(answer, looked, self, project, pre.same, k) ==> ok
    ensures forall h, k: nat :: GoesWellAgain(answer, n, self, project, h, k) ==> ok
  {
    forall h, k: nat | GoesWellAgain(answer, n, self, project, h, k)
      ensures ok
    {
      assert SoleService(answer, n, self, project.pattern, h);
      assert HealsThenComesUp(answer, looked, self, project, pre.same, k);
    }
  }

  /** The old instance goes, and a new one starts. */
  method Replace(os: Os, project: Project, pre: Preflight, ghost from: nat) returns (ok: bool)
    requires ActsSafe(os.trace, from, project.pattern, os.self) && pre.decision.Same? && NoStart(os.trace[..from], os.trace)
    modifies os
    ensures old(os.trace) <= os.trace && ActsSafe(os.trace, from, project.pattern, os.self)
    ensures OneClearStart(os.trace, from, pre)
    ensures EndsRecorded(os.trace, from, project, os.answer, ok)
    ensures forall k: nat :: HealsThenComesUp(os.answer, |old(os.trace)|, os.self, project, pre.same, k) ==> ok
  {
    ghost var looked := os.trace;
    ok := false;
    var healed, k := HealSameServiceOwner(os, pre, project, from);
    NoStartTransitive(looked[..from], looked, os.trace);
    assert os.trace[..from] == looked[..from];
    if healed {
      ghost var now := |os.trace|;
      ok := Begin(os, project, pre, from);
      CameUp(os.answer, now, os.self, project, ok);
      HealedFollows(os.answer, |looked|, os.self, project, pre.same, k, now, ok);
    }
  }

  lemma HealedFollows(answer: nat -> Answer, n: nat, self: int, project: Project, pids: seq<int>, k: nat, now: nat, ok: bool)
    requires Heals(answer, n, self, pids, project.pattern, k) && now == HealedAt(answer, n, self, pids, project.pattern, k)
    requires ComesUp(answer, now, self, project) ==> ok
    ensures forall k': nat :: HealsThenComesUp(answer, n, self, project, pids, k') ==> ok
  {
    forall k': nat | HealsThenComesUp(answer, n, self, project, pids, k')
      ensures ok
    {
      OneRelease(answer, AllGoneBy(answer, StopsBy(answer, n, self, pids, project.pattern).value, pids).value, k, k');
    }
  }

  lemma OneRelease(answer: nat -> Answer, n: nat, k: nat, k': nat)
    requires FreeAfter(answer, n, k) && FreeAfter(answer, n, k')
    ensures k == k'
  {
    assert k < k' ==> Busy(answer, n, k);
    assert k' < k ==> Busy(answer, n, k');
  }

  /** The start itself, with nothing in its way. */
  method Begin(os: Os, project: Project, pre: Preflight, ghost from: nat) returns (ok: bool)
    requires ActsSafe(os.trace, from, project.pattern, os.self) && Clear(os.trace, from, pre)
    requires NoStart(os.trace[..from], os.trace)
    modifies os
    ensures old(os.trace) <= os.trace && ActsSafe(os.trace, from, project.pattern, os.self)
    ensures OneClearStart(os.trace, from, pre)
    ensures EndsRecorded(os.trace, from, project, os.answer, ok)
    ensures var ready := StaleAt(os.answer, |old(os.trace)|);
            Went(os.answer, ready + 1, os.answer(ready).managed, os.self, project, ok)
  {
    ghost var ready := StaleAt(os.answer, |os.trace|);
    var managed := Prepare(os, project, pre, from);
    ghost var now := |os.trace|;
    ok := StartEither(os, project, pre, managed, from);
    WentFrom(os.answer, now, ready + 1, managed, os.self, project, ok);
  }

  lemma WentFrom(answer: nat -> Answer, n: nat, n': nat, managed: bool, self: int, project: Project, ok: bool)
    requires Went(answer, n, managed, self, project, ok) && n == n'
    ensures Went(answer, n', managed, self, project, ok)
  {
  }

  lemma CameUp(answer: nat -> Answer, n: nat, self: int, project: Project, ok: bool)
    requires var ready := StaleAt(answer, n); Went(answer, ready + 1, answer(ready).managed, self, project, ok)
    ensures ComesUp(answer, n, self, project) ==> ok
  {
  }

  method Prepare(os: Os, project: Project, pre: Preflight, ghost from: nat) returns (managed: bool)
    requires ActsSafe(os.trace, from, project.pattern, os.self) && Clear(os.trace, from, pre)
    requires NoStart(os.trace[..from], os.trace)
    modifies os
    ensures OnlyLooked(old(os.trace), os.trace) && ActsSafe(os.trace, from, project.pattern, os.self) && Clear(os.trace, from, pre)
    ensures NoStart(os.trace[..from], os.trace) && |os.trace| > from && os.trace[|os.trace| - 1] == ManagedAsked(managed)
    ensures |os.trace| == StaleAt(os.answer, |old(os.trace)|) + 1
    ensures managed == os.answer(StaleAt(os.answer, |old(os.trace)|)).managed
  {
    ghost var clear := os.trace;
    DropStalePid(os);
    managed := os.IsManaged();
    LookingIsSafe(clear, os.trace, from, project.pattern, os.self);
    LookingKeepsClear(clear, os.trace, from, pre);
    assert os.trace[..from] == clear[..from];
    NoStartTransitive(clear[..from], clear, os.trace);
  }

  method StartEither(os: Os, project: Project, pre: Preflight, managed: bool, ghost from: nat) returns (ok: bool)
    requires ActsSafe(os.trace, from, project.pattern, os.self) && Clear(os.trace, from, pre)
    requires NoStart(os.trace[..from], os.trace) && |os.trace| > from && os.trace[|os.trace| - 1] == ManagedAsked(managed)
    modifies os
    ensures old(os.trace) <= os.trace && ActsSafe(os.trace, from, project.pattern, os.self)
    ensures OneClearStart(os.trace, from, pre)
    ensures EndsRecorded(os.trace, from, project, os.answer, ok)
    ensures Went(os.answer, |old(os.trace)|, managed, os.self, project, ok)
  {
    ghost var ready := os.trace;
    if managed {
      ok := StartViaRunit(os, project, pre, from);
      RunitOutcome(ready, os.trace, from, pre, project, ok);
    } else {
      ok := SpawnServiceProcess(os, project, pre, from);
      SpawnOutcome(ready, os.trace, from, pre, project, ok);
    }
  }

  lemma OnlyStart(t: Trace, from: nat, s: nat, pre: Preflight)
    requires OneClearStart(t, from, pre) && from <= s < |t| && Starts(t[s])
    ensures forall i {:trigger t[i]} :: from <= i < |t| && Starts(t[i]) ==> i == s
  {
    forall i | from <= i < |t| && Starts(t[i])
      ensures i == s
    {
      assert ClearAt(t, from, i, pre) && ClearAt(t, from, s, pre);
    }
  }

  /** Success is a process found running, and it is not on record exactly when its supervisor started it
      and writing failed. */
  ghost predicate EndsRecorded(t: Trace, from: nat, project: Project, answer: nat -> Answer, ok: bool) {
    (ok ==> FoundRunning(t, from, project, answer)) && (ok && !Recorded(t, from, project) <==> UnsavedByRunit(t, from))
  }

  /** One record of the process is the last one. */
  lemma RecordedIff(t: Trace, from: nat, s: nat, j: nat, project: Project)
    requires Proven(t, s, j, project) && from <= s
    ensures Recorded(t, from, project) <==> t[j].written
  {
    forall s2: nat, j2: nat | Proven(t, s2, j2, project)
      ensures j2 == j
    {
      assert Records(t[j]) && Records(t[j2]);
    }
  }

  lemma RunitOutcome(ready: Trace, t: Trace, from: nat, pre: Preflight, project: Project, ok: bool)
    requires from <= |ready| < |t| && t[|ready|].SvUp? && OneClearStart(t, from, pre)
    requires ok ==> Proven(t, |ready|, |t| - 1, project)
    requires FailedSave(t, |ready|) <==> ok && !t[|t| - 1].written
    ensures ok && !Recorded(t, from, project) <==> UnsavedByRunit(t, from)
  {
    OnlyStart(t, from, |ready|, pre);
    if ok {
      RecordedIff(t, from, |ready|, |t| - 1, project);
    }
  }

  lemma SpawnOutcome(ready: Trace, t: Trace, from: nat, pre: Preflight, project: Project, ok: bool)
    requires from <= |ready| && ready <= t && NoStart(ready[..from], ready) && OneClearStart(t, from, pre)
    requires t == ready + [PlaceAsked(false)] || (|ready| + 1 < |t| && t[|ready| + 1].Spawned?)
    requires ok ==> Proven(t, |ready| + 1, |ready| + 2, project)
    ensures ok ==> Recorded(t, from, project)
    ensures !UnsavedByRunit(t, from)
  {
    if t != ready + [PlaceAsked(false)] {
      OnlyStart(t, from, |ready| + 1, pre);
    }
    if ok {
      RecordedIff(t, from, |ready| + 1, |ready| + 2, project);
    }
  }

  /** A saved id of a dead process is dropped. */
  method DropStalePid(os: Os)
    modifies os
    ensures OnlyLooked(old(os.trace), os.trace)
    ensures |os.trace| == StaleAt(os.answer, |old(os.trace)|)
  {
    var saved := os.ReadPid();
    if saved.Some? && saved.value != 0 {
      var answer := os.IsAlive(saved.value);
      if answer == Some(false) {
        os.RemovePid();
      }
    }
  }

  /** A start that returns true although no id of the running process is on record. */
  method UnrecordedStart(self: int, pid: int, project: Project) returns (os: Os, ok: bool)
    requires pid > 0
    ensures ok && !Recorded(os.trace, 0, project)
  {
    var quiet := Answer(None, None, None, Some({}), false, false, {}, false, true, true, None, false, Delivered, None, true, true, true, false);
    var serving := quiet.(alive := Some(true), verdict := Some(true), owners := Some({pid}), listening := true, healthy := true);
    os := new Os(self, k => if k < 7 then quiet else serving);
    assert ComesLate(os.answer, 7, self, project.pattern, pid, 0);
    assert GoesWell(os.answer, 0, self, project);
    var pre;
    pre, ok := StartHttpService(os, project);
    ghost var s: nat, j: nat :| Proven(os.trace, s, j, project) && os.trace[j].written == os.answer(j).saved;
    RecordedIff(os.trace, 0, s, j, project);
  }
}
