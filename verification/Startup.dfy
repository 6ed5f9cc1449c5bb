/** The launcher of the hub: preflight, stop an old hub, wait for the port, start, verify. Loops
    are bounded by the timeouts (in milliseconds) over the polling intervals. */
module Startup {
  import opened Options
  import opened Processes

  const MARKERS := ["yasinhub.api.server", "yasinhub/api/server"]
  const STOP_POLL := 200
  const RELEASE_POLL := 200
  const VERIFY_POLL := 500

  function Attempts(timeout: int, least: int, interval: int): (n: nat)
    requires interval > 0 && least > 0
    ensures n >= 1
  {
    var deadline := if timeout < least then least else timeout;
    if deadline / interval < 1 then 1 else deadline / interval
  }

  method Tries(timeout: int, least: int, interval: int) returns (n: nat)
    requires interval > 0 && least > 0
    ensures n == Attempts(timeout, least, interval)
  {
    var deadline := least;
    if timeout > least {
      deadline := timeout;
    }
    n := deadline / interval;
    if n == 0 {
      n := 1;
    }
  }

  predicate Marked(cmdline: string) { exists m :: m in MARKERS && Contains(cmdline, m) }

  lemma MarkedMeans(cmdline: string)
    ensures Marked(cmdline) <==> Contains(cmdline, "yasinhub.api.server") || Contains(cmdline, "yasinhub/api/server")
  {
    assert "yasinhub.api.server" == MARKERS[0] && "yasinhub/api/server" == MARKERS[1];
  }

  /** The last thing learnt is that the process lives and is the hub server. */
  predicate EndsVerified(t: Trace, pid: int) {
    || (&& |t| >= 2 && t[|t| - 2] == AliveProbe(pid, Some(true))
        && t[|t| - 1].CmdlineRead? && t[|t| - 1].pid == pid
        && t[|t| - 1].cmdline.Some? && Marked(t[|t| - 1].cmdline.value))
    || (&& |t| >= 3 && t[|t| - 3] == AliveProbe(pid, Some(true))
        && t[|t| - 2] == CmdlineRead(pid, None) && t[|t| - 1] == VerifierAsked(pid, Some(true)))
  }

  /** From some moment on, the process was verified to be the hub server. */
  ghost predicate SeenVerified(t: Trace, from: nat, pid: int) {
    exists i {:trigger t[from..i]} :: from <= i <= |t| && EndsVerified(t[from..i], pid)
  }

  /** Every signal is a SIGTERM to a process that was just verified to be the hub, and never to
      the launcher itself. */
  ghost predicate SignalsSafe(t: Trace, self: int) {
    forall i: nat {:trigger SignalSafe(t, self, i)} :: i < |t| ==> SignalSafe(t, self, i)
  }

  ghost predicate SignalSafe(t: Trace, self: int, i: nat)
    requires i < |t|
  {
    t[i].Signalled? ==> t[i].signal.Term? && t[i].pid != self && t[i].pid > 0 && EndsVerified(t[..i], t[i].pid)
  }

  lemma SafeStays(t: Trace, t': Trace, self: int)
    requires SignalsSafe(t, self) && t <= t'
    ensures forall i: nat :: i < |t| ==> SignalSafe(t', self, i)
  {
    forall i: nat | i < |t|
      ensures SignalSafe(t', self, i)
    {
      assert SignalSafe(t, self, i) && t'[i] == t[i] && t'[..i] == t[..i];
    }
  }

  lemma VerifiedStays(t: Trace, t': Trace, from: nat, pid: int)
    requires SeenVerified(t, from, pid) && t <= t'
    ensures SeenVerified(t', from, pid)
  {
    var i :| from <= i <= |t| && EndsVerified(t[from..i], pid);
    assert t'[from..i] == t[from..i];
  }

  lemma VerifiedTail(t: Trace, pre: Trace, pid: int)
    requires EndsVerified(t, pid)
    ensures EndsVerified(pre + t, pid)
  {
    var u := pre + t;
    assert u[|u| - 1] == t[|t| - 1] && u[|u| - 2] == t[|t| - 2];
    assert |t| >= 3 ==> u[|u| - 3] == t[|t| - 3];
  }

  lemma JustVerified(t: Trace, from: nat, pid: int)
    requires from <= |t| && EndsVerified(t[from..], pid)
    ensures EndsVerified(t, pid) && SeenVerified(t, from, pid)
  {
    VerifiedTail(t[from..], t[..from], pid);
    assert t == t[..from] + t[from..] && t[from..|t|] == t[from..];
  }

  lemma Earlier(t: Trace, from: nat, later: nat, pid: int)
    requires from <= later && SeenVerified(t, later, pid)
    ensures SeenVerified(t, from, pid)
  {
    var i :| later <= i <= |t| && EndsVerified(t[later..i], pid);
    VerifiedTail(t[later..i], t[from..later], pid);
    assert t[from..i] == t[from..later] + t[later..i];
  }

  lemma LookingIsSafe(t: Trace, t': Trace, self: int)
    requires SignalsSafe(t, self) && OnlyLooked(t, t')
    ensures SignalsSafe(t', self)
  {
    SafeStays(t, t', self);
  }

  /** From the moment on the process is alive and marked as the hub, owns the port and is healthy. */
  ghost predicate Sound(answer: nat -> Answer, from: nat, pid: int) {
    pid > 0 && forall k: nat {:trigger Serving(answer(k), pid)} :: from <= k ==> Serving(answer(k), pid)
  }

  predicate Serving(a: Answer, pid: int) {
    && a.alive == Some(true) && a.cmdline.Some? && Marked(a.cmdline.value) && a.owners.Some? && pid in a.owners.value && a.healthy
  }

  /** What a look at a process tells, by the answers there are: nothing unless it is alive; then its
      command line, or else the verifier. */
  function HubVerdict(answer: nat -> Answer, n: nat, pid: int): Option<bool> {
    if pid <= 0 || answer(n).alive != Some(true) then None
    else if answer(n + 1).cmdline.Some? then Some(Marked(answer(n + 1).cmdline.value))
    else answer(n + 2).verdict
  }

  /** How many questions that takes. */
  function HubQuestions(answer: nat -> Answer, n: nat, pid: int): nat {
    if pid <= 0 then 0 else if answer(n).alive != Some(true) then 1 else if answer(n + 1).cmdline.Some? then 2 else 3
  }

  /** The process was looked at and is another one. */
  predicate EndsForeign(t: Trace, pid: int) {
    || (&& |t| >= 2 && t[|t| - 2] == AliveProbe(pid, Some(true))
        && t[|t| - 1].CmdlineRead? && t[|t| - 1].pid == pid
        && t[|t| - 1].cmdline.Some? && !Marked(t[|t| - 1].cmdline.value))
    || (&& |t| >= 3 && t[|t| - 3] == AliveProbe(pid, Some(true))
        && t[|t| - 2] == CmdlineRead(pid, None) && t[|t| - 1] == VerifierAsked(pid, Some(false)))
  }

  ghost predicate SeenForeign(t: Trace, from: nat, pid: int) {
    exists i {:trigger t[from..i]} :: from <= i <= |t| && EndsForeign(t[from..i], pid)
  }

  lemma ForeignStays(t: Trace, t': Trace, from: nat, pid: int)
    requires SeenForeign(t, from, pid) && t <= t'
    ensures SeenForeign(t', from, pid)
  {
    var i :| from <= i <= |t| && EndsForeign(t[from..i], pid);
    assert t'[from..i] == t[from..i];
  }

  lemma ForeignTail(t: Trace, pre: Trace, pid: int)
    requires EndsForeign(t, pid)
    ensures EndsForeign(pre + t, pid)
  {
    var u := pre + t;
    assert u[|u| - 1] == t[|t| - 1] && u[|u| - 2] == t[|t| - 2];
    assert |t| >= 3 ==> u[|u| - 3] == t[|t| - 3];
  }

  lemma JustForeign(t: Trace, from: nat, later: nat, pid: int)
    requires from <= later <= |t| && EndsForeign(t[later..], pid)
    ensures SeenForeign(t, from, pid)
  {
    ForeignTail(t[later..], t[from..later], pid);
    assert t[from..|t|] == t[from..later] + t[later..];
  }

  /** True for the hub, false for a foreign process, `None` when it cannot be told. */
  method IsYasinhubProcess(os: Os, pid: int) returns (verdict: Option<bool>)
    modifies os
    ensures OnlyLooked(old(os.trace), os.trace)
    ensures verdict == Some(true) ==> pid > 0 && EndsVerified(os.trace[|old(os.trace)|..], pid)
    ensures verdict == Some(false) ==> EndsForeign(os.trace[|old(os.trace)|..], pid)
    ensures verdict == HubVerdict(os.answer, |old(os.trace)|, pid)
    ensures |os.trace| == |old(os.trace)| + HubQuestions(os.answer, |old(os.trace)|, pid) && NoHealth(old(os.trace), os.trace)
  {
    if pid <= 0 {
      return None;
    }
    var alive := os.IsAlive(pid);
    if alive != Some(true) {
      return None;
    }
    var cmdline := os.ReadCmdline(pid);
    if cmdline.None? {
      verdict := os.AskVerifier(pid);
      assert os.trace[|old(os.trace)|..] == [AliveProbe(pid, Some(true)), CmdlineRead(pid, None), VerifierAsked(pid, verdict)];
      return;
    }
    assert os.trace[|old(os.trace)|..] == [AliveProbe(pid, Some(true)), CmdlineRead(pid, cmdline)];
    return Some(Marked(cmdline.value));
  }

  datatype Decision = Free | Yasinhub | Foreign | Indeterminate

  datatype Preflight = Preflight(
    occupied: bool, owners: Option<set<int>>, hub: seq<int>, foreign: seq<int>, unknown: seq<int>, decision: Decision)

  /** What the classification of a set of processes found. */
  ghost predicate Classified(t: Trace, from: nat, todo: set<int>, hub: seq<int>, foreign: seq<int>, unknown: seq<int>, self: int) {
    && (forall p :: p in hub ==> p in todo && p != self && SeenVerified(t, from, p))
    && (forall p :: p in todo && p != self ==> p in hub || p in foreign || p in unknown)
    && (forall p :: p in foreign ==> p in todo && SeenForeign(t, from, p))
    && (forall p :: p in unknown ==> p in todo)
  }

  /** A single process is classified by the verdict on it. */
  ghost predicate SingleClassified(verdict: Option<bool>, p: int, hub: seq<int>, foreign: seq<int>, unknown: seq<int>) {
    match verdict
    case Some(yes) => unknown == [] && if yes then hub == [p] && foreign == [] else hub == [] && foreign == [p]
    case None => hub == [] && foreign == [] && unknown == [p]
  }

  ghost predicate SingleLook(answer: nat -> Answer, n: nat, todo: set<int>, self: int, p: int,
                             hub: seq<int>, foreign: seq<int>, unknown: seq<int>, questions: int)
  {
    todo == {p} && p != self ==>
      SingleClassified(HubVerdict(answer, n, p), p, hub, foreign, unknown) && questions == HubQuestions(answer, n, p)
  }

  method Classify(os: Os, todo: set<int>) returns (hub: seq<int>, foreign: seq<int>, unknown: seq<int>)
    modifies os
    ensures OnlyLooked(old(os.trace), os.trace) && NoHealth(old(os.trace), os.trace)
    ensures Classified(os.trace, |old(os.trace)|, todo, hub, foreign, unknown, os.self)
    ensures LoneLook(os.answer, |old(os.trace)|, todo, os.self, hub, foreign, unknown, |os.trace| - |old(os.trace)|)
  {
    hub, foreign, unknown := [], [], [];
    var left := todo;
    ghost var from := |os.trace|;
    while left != {}
      invariant left <= todo && OnlyLooked(old(os.trace), os.trace) && NoHealth(old(os.trace), os.trace)
      invariant Classified(os.trace, from, todo - left, hub, foreign, unknown, os.self)
      invariant LoneSoFar(os.answer, from, todo, left, os.self, hub, foreign, unknown, |os.trace| - from)
      decreases |left|
    {
      NonEmpty(left);
      var pid :| pid in left;
      hub, foreign, unknown := ClassifyNext(os, pid, todo, left, hub, foreign, unknown, from);
      left := left - {pid};
    }
    assert todo - left == todo;
    LoneEnd(os.answer, from, todo, os.self, hub, foreign, unknown, |os.trace| - from);
  }

  method ClassifyNext(os: Os, pid: int, ghost todo: set<int>, ghost left: set<int>, hub: seq<int>, foreign: seq<int>, unknown: seq<int>,
                      ghost from: nat) returns (hub': seq<int>, foreign': seq<int>, unknown': seq<int>)
    requires from <= |os.trace| && pid in left && left <= todo
    requires Classified(os.trace, from, todo - left, hub, foreign, unknown, os.self)
    requires LoneSoFar(os.answer, from, todo, left, os.self, hub, foreign, unknown, |os.trace| - from)
    modifies os
    ensures OnlyLooked(old(os.trace), os.trace) && NoHealth(old(os.trace), os.trace)
    ensures Classified(os.trace, from, todo - (left - {pid}), hub', foreign', unknown', os.self)
    ensures LoneSoFar(os.answer, from, todo, left - {pid}, os.self, hub', foreign', unknown', |os.trace| - from)
  {
    ghost var at := |os.trace|;
    hub', foreign', unknown' := ClassifyOne(os, pid, todo - left, hub, foreign, unknown, from);
    LoneNext(os.answer, from, todo, left, os.self, pid, hub, foreign, unknown, at, hub', foreign', unknown', |os.trace|);
    OneLess(todo, left, pid);
  }

  method ClassifyOne(os: Os, pid: int, ghost done: set<int>, hub: seq<int>, foreign: seq<int>, unknown: seq<int>, ghost from: nat)
      returns (hub': seq<int>, foreign': seq<int>, unknown': seq<int>)
    requires from <= |os.trace| && Classified(os.trace, from, done, hub, foreign, unknown, os.self)
    modifies os
    ensures OnlyLooked(old(os.trace), os.trace) && NoHealth(old(os.trace), os.trace)
    ensures Classified(os.trace, from, done + {pid}, hub', foreign', unknown', os.self)
    ensures Looked(os.answer, |old(os.trace)|, os.self, pid, hub, foreign, unknown, hub', foreign', unknown', |os.trace|)
  {
    hub', foreign', unknown' := hub, foreign, unknown;
    if pid == os.self {
      return;
    }
    ghost var before := os.trace;
    var verdict := IsYasinhubProcess(os, pid);
    forall p | p in hub
      ensures SeenVerified(os.trace, from, p)
    {
      VerifiedStays(before, os.trace, from, p);
    }
    forall p | p in foreign
      ensures SeenForeign(os.trace, from, p)
    {
      ForeignStays(before, os.trace, from, p);
    }
    match verdict {
      case None => unknown' := unknown + [pid];
      case Some(yes) =>
        if yes {
          JustVerified(os.trace, |before|, pid);
          Earlier(os.trace, from, |before|, pid);
          hub' := hub + [pid];
        } else {
          JustForeign(os.trace, from, |before|, pid);
          foreign' := foreign + [pid];
        }
    }
  }

  /** A process goes to the list its verdict names. */
  predicate Sorts(verdict: Option<bool>, pid: int, hub: seq<int>, foreign: seq<int>, unknown: seq<int>,
                  hub': seq<int>, foreign': seq<int>, unknown': seq<int>)
  {
    match verdict
    case None => hub' == hub && foreign' == foreign && unknown' == unknown + [pid]
    case Some(yes) =>
      unknown' == unknown && if yes then hub' == hub + [pid] && foreign' == foreign else hub' == hub && foreign' == foreign + [pid]
  }

  /** If there is but one process, it is classified by the verdict on it. */
  ghost predicate LoneLook(answer: nat -> Answer, n: nat, todo: set<int>, self: int,
                           hub: seq<int>, foreign: seq<int>, unknown: seq<int>, questions: int)
  {
    forall p {:trigger HubVerdict(answer, n, p)} :: SingleLook(answer, n, todo, self, p, hub, foreign, unknown, questions)
  }

  /** A single process has not been looked at yet, or has been classified. */
  ghost predicate LoneSoFar(answer: nat -> Answer, n: nat, todo: set<int>, left: set<int>, self: int,
                            hub: seq<int>, foreign: seq<int>, unknown: seq<int>, questions: int)
  {
    forall p {:trigger HubVerdict(answer, n, p)} :: todo == {p} && p != self ==>
      if left == todo then hub == foreign == unknown == [] && questions == 0
      else left == {} && SingleLook(answer, n, todo, self, p, hub, foreign, unknown, questions)
  }

  /** Another process than the launcher was looked at, and is on the list the verdict puts it on. */
  ghost predicate Looked(answer: nat -> Answer, at: nat, self: int, pid: int, h: seq<int>, f: seq<int>, u: seq<int>,
                         hub: seq<int>, foreign: seq<int>, unknown: seq<int>, now: nat)
  {
    pid != self ==>
      && Sorts(HubVerdict(answer, at, pid), pid, h, f, u, hub, foreign, unknown)
      && now == at + HubQuestions(answer, at, pid)
  }

  lemma LoneNext(answer: nat -> Answer, n: nat, todo: set<int>, left: set<int>, self: int, pid: int, h: seq<int>, f: seq<int>, u: seq<int>,
                 at: nat, hub: seq<int>, foreign: seq<int>, unknown: seq<int>, now: nat)
    requires pid in left && left <= todo && n <= at && LoneSoFar(answer, n, todo, left, self, h, f, u, at - n)
    requires Looked(answer, at, self, pid, h, f, u, hub, foreign, unknown, now)
    ensures LoneSoFar(answer, n, todo, left - {pid}, self, hub, foreign, unknown, now - n)
  {
    forall p | todo == {p} && p != self
      ensures left - {pid} == {} != todo && SingleLook(answer, n, todo, self, p, hub, foreign, unknown, now - n)
    {
      assert pid in todo && p in todo && left == todo;
      assert HubVerdict(answer, n, p) == HubVerdict(answer, n, p);
      assert at == n;
    }
  }

  lemma LoneEnd(answer: nat -> Answer, n: nat, todo: set<int>, self: int, hub: seq<int>, foreign: seq<int>, unknown: seq<int>, questions: int)
    requires LoneSoFar(answer, n, todo, {}, self, hub, foreign, unknown, questions)
    ensures LoneLook(answer, n, todo, self, hub, foreign, unknown, questions)
  {
    forall p
      ensures SingleLook(answer, n, todo, self, p, hub, foreign, unknown, questions)
    {
      if todo == {p} && p != self {
        assert p in todo;
        assert HubVerdict(answer, n, p) == HubVerdict(answer, n, p);
      }
    }
  }

  /** What the verdict on an occupied port rests on. */
  ghost predicate Judged(t: Trace, from: nat, pre: Preflight, self: int) {
    && pre.occupied && !pre.decision.Free?
    && (forall p :: p in pre.hub ==> p != self && SeenVerified(t, from, p))
    && (pre.decision.Yasinhub? ==>
          && pre.hub != [] && pre.foreign == []
          && (forall p :: pre.owners.Some? && p in pre.owners.value && p != self ==> p in pre.hub)
          && (pre.owners.None? ==> Happened(t, from, HealthProbed(true))))
    && (pre.decision.Foreign? <==> pre.foreign != [])
    && (pre.foreign == [] && pre.hub != [] ==>
          (pre.decision.Yasinhub? <==>
             if pre.owners.Some? then pre.unknown == [] && pre.owners.value != {} else Happened(t, from, HealthProbed(true))))
  }

  lemma JudgedEarlier(t: Trace, from: nat, pre: Preflight, self: int)
    requires |t| >= from + 2 && t[from].OwnersListed? && t[from + 1].PortProbed? && Judged(t, from + 2, pre, self)
    ensures Judged(t, from, pre, self)
  {
    assert Happened(t, from, HealthProbed(true)) <==> Happened(t, from + 2, HealthProbed(true));
    forall p | p in pre.hub
      ensures SeenVerified(t, from, p)
    {
      Earlier(t, from, from + 2, p);
    }
  }

  /** The port has one owner, another process than the launcher, and that is the hub. */
  predicate SoleHub(answer: nat -> Answer, n: nat, self: int, h: int) {
    answer(n).owners == Some({h}) && h != self && HubVerdict(answer, n + 2, h) == Some(true)
  }

  ghost predicate SoleHubFound(answer: nat -> Answer, n: nat, self: int, pre: Preflight, now: nat) {
    forall h {:trigger SoleHub(answer, n, self, h)} :: SoleHub(answer, n, self, h) ==>
      pre.decision.Yasinhub? && pre.hub == [h] && now == LookedAt(answer, n, h)
  }

  function LookedAt(answer: nat -> Answer, n: nat, h: int): nat { n + 2 + HubQuestions(answer, n + 2, h) }

  /** Decides what holds the port, by looking only. */
  method PreflightHubPort(os: Os) returns (pre: Preflight)
    modifies os
    ensures OnlyLooked(old(os.trace), os.trace)
    ensures |os.trace| > |old(os.trace)| && os.trace[|old(os.trace)|] == OwnersListed(pre.owners)
    ensures pre.decision.Free? <==> !pre.occupied
    ensures pre.owners in {None, Some({})} && !os.answer(|old(os.trace)| + 1).listening ==>
              !pre.occupied && |os.trace| == |old(os.trace)| + 2
    ensures pre.owners == old(os.Now()).owners
    ensures SoleHubFound(os.answer, |old(os.trace)|, os.self, pre, |os.trace|)
    ensures if pre.occupied then Judged(os.trace, |old(os.trace)|, pre, os.self)
            else
              && pre.hub == [] && pre.foreign == [] && (pre.owners == None || pre.owners == Some({}))
              && Happened(os.trace, |old(os.trace)|, PortProbed(false))
  {
    ghost var from := |os.trace|;
    var owners := os.PortOwners();
    var listening := os.ProbePort();
    var occupied := listening || (owners.Some? && owners.value != {});
    ghost var asked := os.trace;
    assert asked[from + 1] == PortProbed(listening);
    if !occupied {
      return Preflight(false, owners, [], [], [], Free);
    }
    pre := Judge(os, owners);
    assert os.trace[from] == asked[from] && os.trace[from + 1] == asked[from + 1];
    JudgedEarlier(os.trace, from, pre, os.self);
  }

  method Candidates(os: Os, owners: Option<set<int>>) returns (todo: set<int>)
    modifies os
    ensures OnlyLooked(old(os.trace), os.trace) && NoHealth(old(os.trace), os.trace)
    ensures owners.Some? ==> todo == owners.value && os.trace == old(os.trace)
  {
    if owners.Some? {
      return owners.value;
    }
    var candidates := os.Hints();
    var hints := os.Hints();
    return candidates + hints;
  }

  method Judge(os: Os, owners: Option<set<int>>) returns (pre: Preflight)
    modifies os
    ensures OnlyLooked(old(os.trace), os.trace)
    ensures pre.owners == owners && Judged(os.trace, |old(os.trace)|, pre, os.self)
    ensures owners.Some? && owners.value != {} ==>
              && LoneLook(os.answer, |old(os.trace)|, owners.value, os.self, pre.hub, pre.foreign, pre.unknown, |os.trace| - |old(os.trace)|)
              && (pre.decision.Yasinhub? <==> pre.hub != [] && pre.foreign == [] && pre.unknown == [])
  {
    ghost var from := |os.trace|;
    var todo := Candidates(os, owners);
    ghost var looked := os.trace;
    var hub, foreign, unknown := Classify(os, todo);
    ghost var classified := os.trace;
    var healthy := false;
    if owners.None? && hub != [] && foreign == [] {
      healthy := os.ProbeHealth();
      assert os.trace[|classified|] == HealthProbed(healthy);
    }
    forall p | p in hub
      ensures SeenVerified(os.trace, from, p)
    {
      Earlier(classified, from, |looked|, p);
      VerifiedStays(classified, os.trace, from, p);
    }
    var proven := hub != [] && foreign == [] && if owners.Some? then unknown == [] && owners.value != {} else healthy;
    return Preflight(true, owners, hub, foreign, unknown,
                     if foreign != [] then Foreign else if proven then Yasinhub else Indeterminate);
  }

  /** SIGTERM, at most once, to a process just verified to be the hub; true only when it was seen
      gone. Raised probes count as not gone. */
  method StopHubGracefully(os: Os, pid: int, timeout: int) returns (gone: bool)
    requires SignalsSafe(os.trace, os.self)
    modifies os
    ensures old(os.trace) <= os.trace && SignalsSafe(os.trace, os.self)
    ensures gone ==> SeenGone(os.trace, |old(os.trace)|, pid)
    ensures pid > 0 && pid != os.self && old(os.Now()).alive == Some(false) ==> gone && |os.trace| == |old(os.trace)| + 1
    ensures SeenSince(os.trace, |old(os.trace)|, pid) ==> gone
    ensures StopSucceeds(os.answer, |old(os.trace)|, os.self, pid, timeout, gone, |os.trace|)
    ensures OnlySignals(old(os.trace), os.trace, pid)
    ensures |os.trace| <= |old(os.trace)| + 6 + Attempts(timeout, 100, STOP_POLL)
  {
    ghost var from := os.trace;
    NoStop(os.answer, |from|, os.self, pid, timeout, false, |from|);
    if pid == os.self || pid <= 0 {
      return false;
    }
    var alive := os.IsAlive(pid);
    LookingIsSafe(from, os.trace, os.self);
    NoStop(os.answer, |from|, os.self, pid, timeout, alive == Some(false), |os.trace|);
    if alive.None? {
      return false;
    }
    if !alive.value {
      assert Gone(os.trace[|from|], pid);
      return true;
    }
    gone := StopLive(os, pid, timeout, from);
    StopCompletes(os.answer, |from|, os.self, pid, timeout, gone, |os.trace|);
  }

  /** The part after the first look: the verification, the signal and the wait. */
  method StopLive(os: Os, pid: int, timeout: int, ghost from: Trace) returns (gone: bool)
    requires SignalsSafe(os.trace, os.self) && pid > 0 && pid != os.self && os.trace == from + [AliveProbe(pid, Some(true))]
    requires os.answer(|from|).alive == Some(true)
    modifies os
    ensures old(os.trace) <= os.trace && SignalsSafe(os.trace, os.self)
    ensures gone ==> SeenGone(os.trace, |from|, pid)
    ensures SeenSince(os.trace, |from|, pid) ==> gone
    ensures LiveSucceeds(os.answer, |from|, pid, timeout, gone, |os.trace|)
    ensures OnlySignals(from, os.trace, pid)
    ensures |os.trace| <= |from| + 6 + Attempts(timeout, 100, STOP_POLL)
  {
    var verdict := VerifyAgain(os, pid);
    ghost var verified := os.trace;
    if verdict != Some(true) {
      NothingStopped(from, verified, pid);
      return false;
    }
    gone := TermAndWait(os, pid, timeout);
    StopEnds(from, verified, os.trace, pid, gone);
  }

  method VerifyAgain(os: Os, pid: int) returns (verdict: Option<bool>)
    requires SignalsSafe(os.trace, os.self)
    modifies os
    ensures OnlyLooked(old(os.trace), os.trace) && SignalsSafe(os.trace, os.self)
    ensures verdict == HubVerdict(os.answer, |old(os.trace)|, pid)
    ensures |os.trace| == |old(os.trace)| + HubQuestions(os.answer, |old(os.trace)|, pid)
    ensures verdict == Some(true) ==> EndsVerified(os.trace, pid)
  {
    ghost var before := os.trace;
    verdict := IsYasinhubProcess(os, pid);
    LookingIsSafe(before, os.trace, os.self);
    if verdict == Some(true) {
      JustVerified(os.trace, |before|, pid);
    }
  }

  lemma NoStop(answer: nat -> Answer, n: nat, self: int, pid: int, timeout: int, gone: bool, now: nat)
    ensures pid == self || pid <= 0 || answer(n).alive != Some(true) ==>
              StopSucceeds(answer, n, self, pid, timeout, gone, now)
  {
  }

  /** A verified hub that goes after the signal is stopped. */
  ghost predicate LiveSucceeds(answer: nat -> Answer, n: nat, pid: int, timeout: int, gone: bool, now: nat) {
    HubVerdict(answer, n + 1, pid) == Some(true) ==>
      TermSucceeds(answer, n + 1 + HubQuestions(answer, n + 1, pid), pid, timeout, gone, now)
  }

  lemma StopCompletes(answer: nat -> Answer, n: nat, self: int, pid: int, timeout: int, gone: bool, now: nat)
    requires LiveSucceeds(answer, n, pid, timeout, gone, now)
    ensures StopSucceeds(answer, n, self, pid, timeout, gone, now)
  {
  }

  lemma NothingStopped(t: Trace, t': Trace, pid: int)
    requires OnlyLooked(t, t')
    ensures !SeenSince(t', |t|, pid) && OnlySignals(t, t', pid)
  {
  }

  lemma StopEnds(t: Trace, t': Trace, t'': Trace, pid: int, gone: bool)
    requires OnlyLooked(t, t') && OnlySignals(t', t'', pid) && (gone <==> SeenGone(t'', |t'|, pid))
    ensures (gone ==> SeenGone(t'', |t|, pid)) && (SeenSince(t'', |t|, pid) ==> gone) && OnlySignals(t, t'', pid)
  {
    SignalsEarlier(t, t', t'', pid);
    SignalComesLater(t, t', t'', pid);
  }

  lemma SignalsEarlier(t: Trace, t': Trace, t'': Trace, pid: int)
    requires OnlyLooked(t, t') && OnlySignals(t', t'', pid)
    ensures OnlySignals(t, t'', pid)
  {
    assert forall i :: |t| <= i < |t'| ==> !Acts(t''[i]) by {
      assert forall i :: |t| <= i < |t'| ==> t''[i] == t'[i];
    }
  }

  lemma SignalComesLater(t: Trace, t': Trace, t'': Trace, pid: int)
    requires OnlyLooked(t, t') && t' <= t''
    ensures SeenSince(t'', |t|, pid) ==> SeenGone(t'', |t'|, pid)
  {
    assert forall i :: |t| <= i < |t'| ==> !t''[i].Signalled? by {
      assert forall i :: |t| <= i < |t'| ==> t''[i] == t'[i];
    }
  }

  /** The process was seen gone at or after the signal. */
  ghost predicate GoneOnceSignalled(t: Trace, from: nat, s: nat, pid: int) {
    from <= s < |t| && t[s].Signalled? && SeenGone(t, s, pid)
  }

  ghost predicate SeenSince(t: Trace, from: nat, pid: int) {
    exists s: nat {:trigger GoneOnceSignalled(t, from, s, pid)} :: GoneOnceSignalled(t, from, s, pid)
  }

  /** The hub is alive, verified, gets the signal, and is gone after k more looks. */
  ghost predicate StopsHub(answer: nat -> Answer, n: nat, self: int, pid: int, k: nat) {
    && pid > 0 && pid != self && answer(n).alive == Some(true) && HubVerdict(answer, n + 1, pid) == Some(true)
    && GoneByTerm(answer, n + 1 + HubQuestions(answer, n + 1, pid), pid, k)
  }

  ghost predicate StopSucceeds(answer: nat -> Answer, n: nat, self: int, pid: int, timeout: int, gone: bool, now: nat) {
    forall k: nat {:trigger StopsHub(answer, n, self, pid, k)} ::
      StopsHub(answer, n, self, pid, k) && k <= Attempts(timeout, 100, STOP_POLL) ==> gone && now == StoppedAt(answer, n, pid, k)
  }

  function StoppedAt(answer: nat -> Answer, n: nat, pid: int, k: nat): nat {
    n + 3 + HubQuestions(answer, n + 1, pid) + k
  }

  /** The signal itself, right after the verification, and the wait for its effect. */
  method TermAndWait(os: Os, pid: int, timeout: int) returns (gone: bool)
    requires SignalsSafe(os.trace, os.self) && EndsVerified(os.trace, pid) && pid > 0 && pid != os.self
    modifies os
    ensures old(os.trace) <= os.trace && SignalsSafe(os.trace, os.self)
    ensures gone ==> SeenGone(os.trace, |old(os.trace)|, pid)
    ensures OnlySignals(old(os.trace), os.trace, pid)
    ensures |os.trace| > |old(os.trace)| && os.trace[|old(os.trace)|].Signalled?
    ensures gone <==> SeenGone(os.trace, |old(os.trace)|, pid)
    ensures TermSucceeds(os.answer, |old(os.trace)|, pid, timeout, gone, |os.trace|)
    ensures |os.trace| <= |old(os.trace)| + 2 + Attempts(timeout, 100, STOP_POLL)
  {
    ghost var before := os.trace;
    var sent := os.Send(pid, Term);
    assert os.trace[..|before|] == before;
    SignalIsSafe(before, os.trace, os.self);
    if sent == NoProcess {
      assert Gone(os.trace[|before|], pid);
      return true;
    }
    if sent == Refused {
      assert !Gone(os.trace[|before|], pid);
      return false;
    }
    ghost var signalled := os.trace;
    var tries := Tries(timeout, 100, 200);
    gone := AwaitGone(os, pid, tries);
    assert os.trace[|before|] == signalled[|before|];
    GoneSince(os.trace, |before|, pid);
  }

  /** A signal that was delivered says nothing about the process being gone. */
  lemma GoneSince(t: Trace, from: nat, pid: int)
    requires from < |t| && !Gone(t[from], pid)
    ensures SeenGone(t, from, pid) <==> SeenGone(t, from + 1, pid)
  {
  }

  ghost predicate TermSucceeds(answer: nat -> Answer, n: nat, pid: int, timeout: int, gone: bool, now: nat) {
    forall k: nat {:trigger GoneByTerm(answer, n, pid, k)} ::
      GoneByTerm(answer, n, pid, k) && k <= Attempts(timeout, 100, STOP_POLL) ==> gone && now == n + 2 + k
  }

  /** The signal is delivered, and then the process is alive k times, and gone. */
  ghost predicate GoneByTerm(answer: nat -> Answer, n: nat, pid: int, k: nat) {
    answer(n).sent == Delivered && GoneAfter(answer, n + 1, pid, k)
  }

  /** Of all the process-touching things, at most one signal to this process happened. */
  ghost predicate OnlySignals(before: Trace, after: Trace, pid: int) {
    && before <= after
    && forall i {:trigger after[i]} :: |before| <= i < |after| && Acts(after[i]) ==>
         after[i].Signalled? && after[i].pid == pid && forall j :: i < j < |after| ==> !Acts(after[j])
  }

  lemma SignalIsSafe(t: Trace, t': Trace, self: int)
    requires SignalsSafe(t, self) && |t'| == |t| + 1 && t == t'[..|t|] && t'[|t|].Signalled?
    requires t'[|t|].signal.Term? && t'[|t|].pid != self && t'[|t|].pid > 0 && EndsVerified(t, t'[|t|].pid)
    ensures SignalsSafe(t', self)
  {
    SafeStays(t, t', self);
  }

  /** Asked again and again the process is alive k times, and then gone. */
  ghost predicate GoneAfter(answer: nat -> Answer, n: nat, pid: int, k: nat) {
    && pid > 0 && answer(n + k).alive == Some(false)
    && forall j {:trigger answer(j)} :: n <= j < n + k ==> answer(j).alive == Some(true)
  }

  method AwaitGone(os: Os, pid: int, attempts: nat) returns (gone: bool)
    requires SignalsSafe(os.trace, os.self)
    modifies os
    ensures OnlyLooked(old(os.trace), os.trace) && SignalsSafe(os.trace, os.self)
    ensures gone <==> SeenGone(os.trace, |old(os.trace)|, pid)
    ensures forall k: nat :: GoneAfter(os.answer, |old(os.trace)|, pid, k) && k <= attempts ==> gone && |os.trace| == |old(os.trace)| + k + 1
    ensures |os.trace| <= |old(os.trace)| + attempts + 1
  {
    ghost var from := |os.trace|;
    for i := 0 to attempts + 1
      invariant OnlyLooked(old(os.trace), os.trace) && |os.trace| == from + i && !SeenGone(os.trace, from, pid)
      invariant forall j {:trigger os.answer(j)} :: from <= j < from + i ==> pid > 0 && os.answer(j).alive == Some(true)
    {
      ghost var before := os.trace;
      var alive := os.IsAlive(pid);
      LookingIsSafe(old(os.trace), os.trace, os.self);
      if alive.None? {
        return false;
      }
      if !alive.value {
        assert Gone(os.trace[|before|], pid);
        return true;
      }
    }
    LookingIsSafe(old(os.trace), os.trace, os.self);
    return false;
  }

  /** The port is listening at k looks, and then no more; between looks its owners are asked for. */
  ghost predicate FreeAfter(answer: nat -> Answer, n: nat, k: nat) {
    !Busy(answer, n, k) && forall j: nat {:trigger Busy(answer, n, j)} :: j < k ==> Busy(answer, n, j)
  }

  predicate Busy(answer: nat -> Answer, n: nat, j: nat) { answer(n + 2 * j).listening }

  /** True only when the port was seen not to be listening. The code also asks for the owners of an
      occupied port, but no answer to that question changes its own. */
  method WaitPortReleased(os: Os, oldPid: int, timeout: int) returns (released: bool)
    modifies os
    ensures OnlyLooked(old(os.trace), os.trace)
    ensures released <==> Happened(os.trace, |old(os.trace)|, PortProbed(false))
    ensures forall k: nat :: FreeAfter(os.answer, |old(os.trace)|, k) && k <= Attempts(timeout, 100, RELEASE_POLL) ==>
              released && |os.trace| == |old(os.trace)| + 2 * k + 1
    ensures |os.trace| <= |old(os.trace)| + 2 * Attempts(timeout, 100, RELEASE_POLL) + 1
  {
    ghost var from := |os.trace|;
    var tries := Tries(timeout, 100, 200);
    for i := 0 to tries
      invariant OnlyLooked(old(os.trace), os.trace) && |os.trace| == from + 2 * i
      invariant !Happened(os.trace, from, PortProbed(false))
      invariant forall j: nat {:trigger Busy(os.answer, from, j)} :: j < i ==> Busy(os.answer, from, j)
    {
      ghost var before := os.trace;
      var occupied := os.ProbePort();
      assert Busy(os.answer, from, i) == occupied;
      if !occupied {
        assert os.trace[|before|] == PortProbed(false);
        return true;
      }
      var owners := os.PortOwners();
      assert owners == Some({}) ==> oldPid !in owners.value;
    }
    ghost var before := os.trace;
    var occupied := os.ProbePort();
    assert Busy(os.answer, from, tries) == occupied;
    assert os.trace[|before|] == PortProbed(occupied);
    return !occupied;
  }

  datatype HubVerify = HubVerify(running: bool, identity: Option<bool>)

  /** The port belongs to the process, or, where owners cannot be told, something listens on it. */
  ghost predicate PortEvidence(t: Trace, from: nat, pid: int) {
    exists i {:trigger t[i]} :: from <= i < |t| && t[i].OwnersListed? &&
      if t[i].owners.Some? then pid in t[i].owners.value else Happened(t, from, PortProbed(true))
  }

  /** All that a running verdict rests on: life, identity, port and health. */
  ghost predicate RunningEvidence(t: Trace, from: nat, pid: int) {
    SeenVerified(t, from, pid) && PortEvidence(t, from, pid) && Happened(t, from, HealthProbed(true))
  }

  /** By the answers there are, the process may own the port, or something listens where owners cannot
      be told, and the hub is healthy. */
  predicate ServesBy(answer: nat -> Answer, n: nat, pid: int) { MayServe(answer, n, pid) && answer(n + 2).healthy }

  predicate MayServe(answer: nat -> Answer, n: nat, pid: int) {
    match answer(n).owners
    case Some(owners) => pid in owners
    case None => answer(n + 1).listening
  }

  function ServeQuestions(answer: nat -> Answer, n: nat, pid: int): nat { if MayServe(answer, n, pid) then 3 else 2 }

  /** The running verdict, by the answers there are, and how many questions it takes. */
  function RunBy(answer: nat -> Answer, n: nat, pid: int): HubVerify {
    if pid <= 0 || answer(n).alive != Some(true) then HubVerify(false, None)
    else
      var identity := HubVerdict(answer, n + 1, pid);
      HubVerify(identity == Some(true) && ServesBy(answer, n + 1 + HubQuestions(answer, n + 1, pid), pid), identity)
  }

  function RunQuestions(answer: nat -> Answer, n: nat, pid: int): nat {
    if pid <= 0 || answer(n).alive != Some(true) then 1
    else
      var asked := 1 + HubQuestions(answer, n + 1, pid);
      if HubVerdict(answer, n + 1, pid) == Some(true) then asked + ServeQuestions(answer, n + asked, pid) else asked
  }

  /** One round of the polling: its verdict, whether it is the last, and when the next one comes. */
  datatype Look = Look(verdict: HubVerify, last: bool, next: nat)

  /** A round is the last with a running hub, a foreign process or an exit. */
  function LookAt(answer: nat -> Answer, pid: int, n: nat): Look {
    var v, polled := RunBy(answer, n, pid), n + RunQuestions(answer, n, pid);
    Look(v, v.running || v.identity == Some(false) || answer(polled).exited, polled + 1)
  }

  function Looks(answer: nat -> Answer, pid: int): nat -> Look { (n: nat) => LookAt(answer, pid, n) }

  function LastLook(looks: nat -> Look, n: nat, attempts: nat): HubVerify
    requires attempts > 0
    decreases attempts
  {
    if looks(n).last || attempts == 1 then looks(n).verdict else LastLook(looks, looks(n).next, attempts - 1)
  }

  /** The last verdict within the attempts. */
  function AwaitBy(answer: nat -> Answer, n: nat, pid: int, attempts: nat): HubVerify
    requires attempts > 0
  {
    LastLook(Looks(answer, pid), n, attempts)
  }

  /** A hub that is still starting is waited for: it is alive and marked, but does not own its port
      yet, and has not exited. */
  predicate StillStarting(answer: nat -> Answer, n: nat, pid: int) {
    && pid > 0 && answer(n).alive == Some(true) && answer(n + 1).alive == Some(true)
    && answer(n + 2).cmdline.Some? && Marked(answer(n + 2).cmdline.value)
    && answer(n + 3).owners.Some? && pid !in answer(n + 3).owners.value && !answer(n + 5).exited
  }

  lemma StartingGoesOn(answer: nat -> Answer, n: nat, pid: int)
    requires StillStarting(answer, n, pid)
    ensures !LookAt(answer, pid, n).last && LookAt(answer, pid, n).next == n + 6
  {
    assert RunBy(answer, n, pid) == HubVerify(false, Some(true)) && RunQuestions(answer, n, pid) == 5;
  }

  lemma SoundRuns(answer: nat -> Answer, n: nat, pid: int)
    requires Sound(answer, n, pid)
    ensures LookAt(answer, pid, n).verdict.running && LookAt(answer, pid, n).last
  {
    forall k | n <= k
      ensures Serving(answer(k), pid)
    {
    }
    assert Serving(answer(n), pid) && Serving(answer(n + 1), pid) && Serving(answer(n + 2), pid);
    assert Serving(answer(n + 3), pid) && Serving(answer(n + 5), pid);
    assert RunBy(answer, n, pid).running;
  }

  /** The hub is found still starting some times, and is sound from then on. */
  ghost predicate StartsSlowly(answer: nat -> Answer, n: nat, pid: int, slow: nat)
    decreases slow
  {
    if slow == 0 then Sound(answer, n, pid) else StillStarting(answer, n, pid) && StartsSlowly(answer, n + 6, pid, slow - 1)
  }

  /** However many times that is, short of the last attempt, the hub is found running. */
  lemma SlowStartsCount(answer: nat -> Answer, n: nat, pid: int, attempts: nat, slow: nat)
    requires slow < attempts && StartsSlowly(answer, n, pid, slow)
    ensures AwaitBy(answer, n, pid, attempts).running
  {
    var looks := Looks(answer, pid);
    forall k: nat
      ensures GoesOnAt(answer, looks, k, pid)
    {
      assert looks(k) == LookAt(answer, pid, k);
      if StillStarting(answer, k, pid) {
        StartingGoesOn(answer, k, pid);
      }
      if Sound(answer, k, pid) {
        SoundRuns(answer, k, pid);
      }
    }
    LaterLooks(answer, looks, n, pid, attempts, slow);
  }

  /** A round that finds the hub still starting is followed by another, one that finds it sound is the
      last. */
  ghost predicate GoesOnAt(answer: nat -> Answer, looks: nat -> Look, k: nat, pid: int) {
    && (StillStarting(answer, k, pid) ==> !looks(k).last && looks(k).next == k + 6)
    && (Sound(answer, k, pid) ==> looks(k).last && looks(k).verdict.running)
  }

  lemma {:induction false} LaterLooks(answer: nat -> Answer, looks: nat -> Look, n: nat, pid: int, attempts: nat, slow: nat)
    requires slow < attempts && StartsSlowly(answer, n, pid, slow)
    requires forall k: nat {:trigger GoesOnAt(answer, looks, k, pid)} :: GoesOnAt(answer, looks, k, pid)
    ensures LastLook(looks, n, attempts).running
    decreases slow
  {
    assert GoesOnAt(answer, looks, n, pid);
    if slow > 0 {
      LaterLooks(answer, looks, n + 6, pid, attempts - 1, slow - 1);
    }
  }

  /** The port and health part of the verification. */
  method Serves(os: Os, pid: int) returns (serves: bool)
    modifies os
    ensures OnlyLooked(old(os.trace), os.trace) && |os.trace| <= |old(os.trace)| + 3
    ensures serves ==> PortEvidence(os.trace, |old(os.trace)|, pid)
    ensures serves <==> Happened(os.trace, |old(os.trace)|, HealthProbed(true))
    ensures serves == ServesBy(os.answer, |old(os.trace)|, pid)
    ensures |os.trace| == |old(os.trace)| + ServeQuestions(os.answer, |old(os.trace)|, pid)
  {
    ghost var before := |os.trace|;
    var owners := os.PortOwners();
    var listening := os.ProbePort();
    if (owners.Some? && pid !in owners.value) || (owners.None? && !listening) {
      return false;
    }
    serves := os.ProbeHealth();
    assert os.trace[before] == OwnersListed(owners);
    assert os.trace[before + 1] == PortProbed(listening);
    assert os.trace[before + 2] == HealthProbed(serves);
  }

  method Identify(os: Os, pid: int) returns (identity: Option<bool>)
    modifies os
    ensures OnlyLooked(old(os.trace), os.trace) && NoHealth(old(os.trace), os.trace)
    ensures identity == HubVerdict(os.answer, |old(os.trace)|, pid)
    ensures |os.trace| == |old(os.trace)| + HubQuestions(os.answer, |old(os.trace)|, pid)
    ensures identity == Some(true) ==> SeenVerified(os.trace, |old(os.trace)|, pid)
  {
    ghost var before := |os.trace|;
    identity := IsYasinhubProcess(os, pid);
    if identity == Some(true) {
      JustVerified(os.trace, before, pid);
    }
  }

  method VerifyHubRunning(os: Os, pid: int) returns (v: HubVerify)
    modifies os
    ensures OnlyLooked(old(os.trace), os.trace)
    ensures v.running <==> RunningEvidence(os.trace, |old(os.trace)|, pid)
    ensures |os.trace| <= |old(os.trace)| + 7
    ensures v == RunBy(os.answer, |old(os.trace)|, pid)
    ensures |os.trace| == |old(os.trace)| + RunQuestions(os.answer, |old(os.trace)|, pid)
  {
    ghost var start := os.trace;
    var alive := os.IsAlive(pid);
    if alive != Some(true) {
      NotRunning(start, os.trace, pid);
      return HubVerify(false, None);
    }
    v := VerifyLive(os, pid, start);
  }

  /** The part after the first look: identity, port and health. */
  method VerifyLive(os: Os, pid: int, ghost start: Trace) returns (v: HubVerify)
    requires pid > 0 && os.trace == start + [AliveProbe(pid, Some(true))] && os.answer(|start|).alive == Some(true)
    modifies os
    ensures OnlyLooked(start, os.trace) && |os.trace| <= |start| + 7
    ensures v.running <==> RunningEvidence(os.trace, |start|, pid)
    ensures v == RunBy(os.answer, |start|, pid) && |os.trace| == |start| + RunQuestions(os.answer, |start|, pid)
  {
    ghost var before := os.trace;
    var identity := Identify(os, pid);
    if identity != Some(true) {
      NotRunning(start, os.trace, pid);
      return HubVerify(false, identity);
    }
    ghost var seen := os.trace;
    var serves := Serves(os, pid);
    RunsIfServing(start, before, seen, os.trace, pid, serves);
    RunsBy(os.answer, |start|, pid);
    return HubVerify(serves, identity);
  }

  lemma RunsBy(answer: nat -> Answer, n: nat, pid: int)
    requires pid > 0 && answer(n).alive == Some(true) && HubVerdict(answer, n + 1, pid) == Some(true)
    ensures var seen := n + 1 + HubQuestions(answer, n + 1, pid);
            && RunQuestions(answer, n, pid) == seen - n + ServeQuestions(answer, seen, pid)
            && RunBy(answer, n, pid) == HubVerify(ServesBy(answer, seen, pid), Some(true))
  {
  }

  lemma NotRunning(t: Trace, t': Trace, pid: int)
    requires NoHealth(t, t')
    ensures !RunningEvidence(t', |t|, pid)
  {
  }

  lemma RunsIfServing(t: Trace, b: Trace, t': Trace, t'': Trace, pid: int, serves: bool)
    requires t <= b && NoHealth(t, t') && t' <= t'' && SeenVerified(t', |b|, pid)
    requires serves ==> PortEvidence(t'', |t'|, pid)
    requires serves <==> Happened(t'', |t'|, HealthProbed(true))
    ensures serves <==> RunningEvidence(t'', |t|, pid)
  {
    Earlier(t', |t|, |b|, pid);
    VerifiedStays(t', t'', |t|, pid);
    HealthComesLater(t, t', t'');
    if serves {
      PortEvidenceEarlier(t'', |t|, |t'|, pid);
    }
  }

  lemma HealthComesLater(t: Trace, t': Trace, t'': Trace)
    requires NoHealth(t, t') && t' <= t''
    ensures Happened(t'', |t|, HealthProbed(true)) <==> Happened(t'', |t'|, HealthProbed(true))
  {
    assert forall i :: |t| <= i < |t'| ==> t''[i] == t'[i];
  }

  lemma PortEvidenceEarlier(t: Trace, from: nat, later: nat, pid: int)
    requires from <= later && PortEvidence(t, later, pid) && Happened(t, later, HealthProbed(true))
    ensures PortEvidence(t, from, pid) && Happened(t, from, HealthProbed(true))
  {
  }

  /** Every process of the list was stopped, one after the other, or the first refusal ended it. */
  method StopAll(os: Os, pids: seq<int>, timeout: int) returns (stopped: bool)
    requires SignalsSafe(os.trace, os.self)
    modifies os
    ensures old(os.trace) <= os.trace && SignalsSafe(os.trace, os.self)
    ensures NoStart(old(os.trace), os.trace)
    ensures stopped ==> forall p :: p in pids ==> SeenGone(os.trace, |old(os.trace)|, p)
    ensures |pids| == 1 ==> StopSucceeds(os.answer, |old(os.trace)|, os.self, pids[0], timeout, stopped, |os.trace|)
  {
    for i := 0 to |pids|
      invariant i == 0 ==> os.trace == old(os.trace)
      invariant i == 1 && |pids| == 1 ==> StopSucceeds(os.answer, |old(os.trace)|, os.self, pids[0], timeout, true, |os.trace|)
      invariant old(os.trace) <= os.trace && SignalsSafe(os.trace, os.self) && NoStart(old(os.trace), os.trace)
      invariant forall j :: 0 <= j < i ==> SeenGone(os.trace, |old(os.trace)|, pids[j])
    {
      ghost var before := os.trace;
      var gone := StopHubGracefully(os, pids[i], timeout);
      NoStartTransitive(old(os.trace), before, os.trace);
      if !gone {
        return false;
      }
      forall j | 0 <= j < i
        ensures SeenGone(os.trace, |old(os.trace)|, pids[j])
      {
        GoneStays(before, os.trace, |old(os.trace)|, pids[j]);
      }
      GoneEarlier(os.trace, |old(os.trace)|, |before|, pids[i]);
    }
    return true;
  }

  ghost predicate NoStart(before: Trace, after: Trace) {
    before <= after && forall i {:trigger after[i]} :: |before| <= i < |after| ==> !after[i].Spawned?
  }

  lemma NoStartAtAll(a: Trace, b: Trace, c: Trace)
    requires OnlyLooked(a, b) && NoStart(b, c)
    ensures NoStart(a, c)
  {
  }

  lemma NoStartTransitive(a: Trace, b: Trace, c: Trace)
    requires NoStart(a, b) && b <= c && forall i :: |b| <= i < |c| ==> !c[i].Spawned?
    ensures NoStart(a, c)
  {
  }

  lemma GoneEarlier(t: Trace, from: nat, later: nat, pid: int)
    requires SeenGone(t, later, pid) && from <= later
    ensures SeenGone(t, from, pid)
  {
  }

  datatype Action = Started | Restarted | RefusedStart

  datatype Outcome = Outcome(success: bool, action: Action, pid: Option<int>)

  /** A start is clear when the preflight found the port free, or when every old hub was seen
      gone and after that the port was seen released. */
  ghost predicate Clear(t: Trace, from: nat, pre: Preflight) {
    || pre.decision.Free?
    || (pre.decision.Yasinhub? && exists k {:trigger t[..k]} :: from <= k <= |t| && GoneThenReleased(t, from, k, pre.hub))
  }

  ghost predicate GoneThenReleased(t: Trace, from: nat, k: nat, pids: seq<int>)
    requires k <= |t|
  {
    (forall p :: p in pids ==> SeenGone(t[..k], from, p)) && Happened(t, k, PortProbed(false))
  }

  /** There was at most one start, a clear one. */
  ghost predicate StartsClear(t: Trace, from: nat, pre: Preflight) {
    forall i: nat {:trigger StartClear(t, from, pre, i)} :: from <= i < |t| ==> StartClear(t, from, pre, i)
  }

  ghost predicate StartClear(t: Trace, from: nat, pre: Preflight, i: nat)
    requires i < |t|
  {
    t[i].Spawned? ==> Clear(t[..i], from, pre) && forall j {:trigger t[j]} :: i < j < |t| ==> !t[j].Spawned?
  }

  /** The hub is stopped within its time, and the port is free within its own. */
  ghost predicate MakesRoom(answer: nat -> Answer, n: nat, self: int, h: int, k: nat, m: nat, stopTimeout: int, releaseTimeout: int) {
    && StopsHub(answer, n, self, h, k) && k <= Attempts(stopTimeout, 100, STOP_POLL)
    && FreeAfter(answer, StoppedAt(answer, n, h, k), m) && m <= Attempts(releaseTimeout, 100, RELEASE_POLL)
  }

  function RoomAt(answer: nat -> Answer, n: nat, h: int, k: nat, m: nat): nat { StoppedAt(answer, n, h, k) + 2 * m + 1 }

  /** The part of a restart before the start: stop every old hub, then wait for the port. */
  method MakeRoom(os: Os, pre: Preflight, ghost from: nat, stopTimeout: int, releaseTimeout: int) returns (clear: bool)
    requires SignalsSafe(os.trace, os.self) && pre.decision.Yasinhub? && pre.hub != [] && from <= |os.trace|
    modifies os
    ensures old(os.trace) <= os.trace && SignalsSafe(os.trace, os.self) && NoStart(old(os.trace), os.trace)
    ensures clear ==> Clear(os.trace, from, pre)
    ensures |pre.hub| == 1 ==>
              forall k: nat, m: nat :: MakesRoom(os.answer, |old(os.trace)|, os.self, pre.hub[0], k, m, stopTimeout, releaseTimeout) ==>
                clear && |os.trace| == RoomAt(os.answer, |old(os.trace)|, pre.hub[0], k, m)
  {
    ghost var before := os.trace;
    var stopped := StopAll(os, pre.hub, stopTimeout);
    if !stopped {
      return false;
    }
    ghost var after := os.trace;
    forall p | p in pre.hub
      ensures SeenGone(after, from, p)
    {
      GoneEarlier(after, from, |before|, p);
    }
    var released := WaitPortReleased(os, pre.hub[0], releaseTimeout);
    LookingIsSafe(after, os.trace, os.self);
    NoStartTransitive(before, after, os.trace);
    if released {
      assert os.trace[..|after|] == after;
      assert GoneThenReleased(os.trace, from, |after|, pre.hub);
    }
    return released;
  }

  function DroppedAt(answer: nat -> Answer, n: nat): nat { if answer(n).alive == Some(false) then n + 2 else n + 1 }

  /** The PID file of a hub seen dead is dropped. */
  method DropPids(os: Os, pids: seq<int>)
    modifies os
    ensures OnlyLooked(old(os.trace), os.trace)
    ensures |pids| == 1 && pids[0] > 0 ==> |os.trace| == DroppedAt(os.answer, |old(os.trace)|)
  {
    for i := 0 to |pids|
      invariant OnlyLooked(old(os.trace), os.trace)
      invariant i == 0 ==> os.trace == old(os.trace)
      invariant i == 1 && pids[0] > 0 ==> |os.trace| == DroppedAt(os.answer, |old(os.trace)|)
    {
      var alive := os.IsAlive(pids[i]);
      if alive == Some(false) {
        os.RemovePid();
      }
    }
  }

  lemma LookingKeepsClear(t: Trace, t': Trace, from: nat, pre: Preflight)
    requires Clear(t, from, pre) && t <= t'
    ensures Clear(t', from, pre)
  {
    if !pre.decision.Free? {
      var k :| from <= k <= |t| && GoneThenReleased(t, from, k, pre.hub);
      assert t'[..k] == t[..k];
      HappenedStays(t, t', k, PortProbed(false));
    }
  }

  /** One look at the new hub, and whether it is the last: it verifies, is the wrong process, or has
      exited. */
  method Round(os: Os, pid: int) returns (last: HubVerify, ended: bool)
    modifies os
    ensures OnlyLooked(old(os.trace), os.trace) && |os.trace| <= |old(os.trace)| + 8
    ensures last.running ==> RunningEvidence(os.trace, |old(os.trace)|, pid)
    ensures var look := LookAt(os.answer, pid, |old(os.trace)|);
            last == look.verdict && ended == look.last && (!ended ==> |os.trace| == look.next)
    ensures last.running ==> ended
  {
    last := VerifyHubRunning(os, pid);
    if last.running || last.identity == Some(false) {
      return last, true;
    }
    ended := os.PollChild(pid);
  }

  /** Polls the new hub until that, or until time is up. */
  method AwaitVerified(os: Os, pid: int, attempts: nat) returns (last: HubVerify)
    requires attempts > 0
    modifies os
    ensures OnlyLooked(old(os.trace), os.trace)
    ensures last.running ==> RunningEvidence(os.trace, |old(os.trace)|, pid)
    ensures |os.trace| <= |old(os.trace)| + 8 * attempts
    ensures last == AwaitBy(os.answer, |old(os.trace)|, pid, attempts)
  {
    last := HubVerify(false, None);
    for i := 0 to attempts
      invariant !last.running && OnlyLooked(old(os.trace), os.trace) && |os.trace| <= |old(os.trace)| + 8 * i
      invariant i < attempts ==> AwaitBy(os.answer, |old(os.trace)|, pid, attempts) == AwaitBy(os.answer, |os.trace|, pid, attempts - i)
      invariant i == attempts ==> last == AwaitBy(os.answer, |old(os.trace)|, pid, attempts)
    {
      ghost var before := os.trace;
      var ended;
      last, ended := Round(os, pid);
      if ended {
        if last.running {
          EvidenceEarlier(os.trace, |old(os.trace)|, |before|, pid);
        }
        return;
      }
    }
  }

  lemma EvidenceEarlier(t: Trace, from: nat, later: nat, pid: int)
    requires from <= later && RunningEvidence(t, later, pid)
    ensures RunningEvidence(t, from, pid)
  {
    Earlier(t, from, later, pid);
    PortEvidenceEarlier(t, from, later, pid);
  }

  /** A success is a new process, verified running after its start, and left alone from then on. */
  ghost predicate Proven(t: Trace, from: nat, pid: int) {
    exists i: nat {:trigger ProvenAt(t, i, pid)} :: from <= i < |t| && ProvenAt(t, i, pid)
  }

  ghost predicate ProvenAt(t: Trace, i: nat, pid: int)
    requires i < |t|
  {
    && t[i] == Spawned(Some(pid)) && RunningEvidence(t, i, pid)
    && forall j {:trigger t[j]} :: i < j < |t| ==> !Acts(t[j])
  }

  /** Starts a new hub where the way is clear, verifies it, and stops it again, being the
      launcher's own child, when it does not verify. */
  method Launch(os: Os, pre: Preflight, ghost from: nat, stopTimeout: int, verifyTimeout: int) returns (outcome: Outcome)
    requires SignalsSafe(os.trace, os.self) && from <= |os.trace| && Clear(os.trace, from, pre)
    requires NoStart(os.trace[..from], os.trace)
    modifies os
    ensures old(os.trace) <= os.trace && SignalsSafe(os.trace, os.self)
    ensures StartsClear(os.trace, from, pre) && StartTried(os.trace, from)
    ensures outcome.success ==>
              && outcome.action == (if OldPids(pre) != [] then Restarted else Started)
              && outcome.pid.Some? && outcome.pid.value !in OldPids(pre) && Proven(os.trace, from, outcome.pid.value)
    ensures outcome == LaunchBy(os.answer, |old(os.trace)|, OldPids(pre), verifyTimeout)
    ensures Tidied(os.trace, os.answer, os.self, OldPids(pre), stopTimeout, verifyTimeout, outcome)
  {
    ghost var ready := os.trace;
    var spawned := Spawn(os, pre, from);
    ghost var started := os.trace;
    assert started[|ready|].Spawned?;
    if spawned.None? {
      return Outcome(false, RefusedStart, None);
    }
    var _ := os.SavePid(spawned.value);
    ghost var saved := os.trace;
    LookingKeepsAll(started, saved, from, pre, os.self);
    assert saved[|ready|] == started[|ready|] && |saved| == |ready| + 2;
    LaunchedBy(os.answer, |ready|, |saved|, OldPids(pre), spawned.value, verifyTimeout);
    outcome := Follow(os, pre, from, spawned.value, stopTimeout, verifyTimeout);
    ActsKeepStarts(saved, os.trace, from, pre);
    assert os.trace[|ready|] == saved[|ready|];
  }

  /** The part after the start: a process that was there before is refused, any other must prove itself. */
  method Follow(os: Os, pre: Preflight, ghost from: nat, pid: int, stopTimeout: int, verifyTimeout: int) returns (outcome: Outcome)
    requires SignalsSafe(os.trace, os.self) && from + 1 < |os.trace|
    requires os.trace[|os.trace| - 2] == Spawned(Some(pid)) && os.answer(|os.trace| - 2).child == Some(pid)
    requires !Acts(os.trace[|os.trace| - 1])
    modifies os
    ensures NoStart(old(os.trace), os.trace) && SignalsSafe(os.trace, os.self)
    ensures outcome == FollowBy(os.answer, |old(os.trace)|, OldPids(pre), pid, verifyTimeout)
    ensures outcome.success ==> Proven(os.trace, from, pid)
    ensures Tidied(os.trace, os.answer, os.self, OldPids(pre), stopTimeout, verifyTimeout, outcome)
  {
    ghost var saved := os.trace;
    if pid in OldPids(pre) {
      return Outcome(false, RefusedStart, Some(pid));
    }
    var running := Prove(os, pid, stopTimeout, verifyTimeout);
    if running {
      ProvenHere(saved, os.trace, from, pid);
      return Outcome(true, if OldPids(pre) != [] then Restarted else Started, Some(pid));
    }
    return Outcome(false, RefusedStart, Some(pid));
  }

  lemma ProvenHere(saved: Trace, t: Trace, from: nat, pid: int)
    requires from + 1 < |saved| && saved[|saved| - 2] == Spawned(Some(pid)) && !Acts(saved[|saved| - 1])
    requires OnlyLooked(saved, t) && RunningEvidence(t, |saved|, pid)
    ensures Proven(t, from, pid)
  {
    var s := |saved| - 2;
    assert t[s] == saved[s] && t[s + 1] == saved[s + 1];
    EvidenceEarlier(t, s, |saved|, pid);
    assert ProvenAt(t, s, pid);
  }

  method Spawn(os: Os, pre: Preflight, ghost from: nat) returns (spawned: Option<int>)
    requires SignalsSafe(os.trace, os.self) && from <= |os.trace| && Clear(os.trace, from, pre)
    requires NoStart(os.trace[..from], os.trace)
    modifies os
    ensures os.trace == old(os.trace) + [Spawned(spawned)] && spawned == old(os.Now()).child
    ensures SignalsSafe(os.trace, os.self) && StartsClear(os.trace, from, pre)
  {
    ghost var ready := os.trace;
    spawned := os.Spawn();
    StartIsClear(ready, os.trace, from, pre);
    StartIsSafe(ready, os.trace, os.self);
  }

  /** The verdict on the new hub, which is stopped again when it does not verify. */
  method Prove(os: Os, pid: int, stopTimeout: int, verifyTimeout: int) returns (running: bool)
    requires SignalsSafe(os.trace, os.self) && |os.trace| >= 2 && os.answer(|os.trace| - 2).child == Some(pid)
    modifies os
    ensures NoStart(old(os.trace), os.trace) && SignalsSafe(os.trace, os.self)
    ensures running ==> RunningEvidence(os.trace, |old(os.trace)|, pid) && OnlyLooked(old(os.trace), os.trace)
    ensures running == AwaitBy(os.answer, |old(os.trace)|, pid, Attempts(verifyTimeout, 500, VERIFY_POLL)).running
    ensures !running ==> Dismissed(os.trace, os.answer, os.self, pid, stopTimeout, verifyTimeout)
  {
    ghost var before := os.trace;
    var tries := Tries(verifyTimeout, 500, 500);
    var last := AwaitVerified(os, pid, tries);
    LookingIsSafe(before, os.trace, os.self);
    running := last.running;
    if !last.running {
      ghost var looked := os.trace;
      CleanUp(os, pid, last.identity, stopTimeout);
      NoStartAtAll(before, looked, os.trace);
      assert DismissedAt(os.trace, os.answer, |before| - 2, |looked|, os.self, pid, stopTimeout, verifyTimeout);
    }
  }

  /** How a start ends, by the answers there are. */
  function LaunchBy(answer: nat -> Answer, n: nat, olds: seq<int>, verifyTimeout: int): Outcome {
    match answer(n).child
    case None => Outcome(false, RefusedStart, None)
    case Some(p) => FollowBy(answer, n + 2, olds, p, verifyTimeout)
  }

  lemma LaunchedBy(answer: nat -> Answer, n: nat, at: nat, olds: seq<int>, p: int, verifyTimeout: int)
    requires answer(n).child == Some(p) && at == n + 2
    ensures LaunchBy(answer, n, olds, verifyTimeout) == FollowBy(answer, at, olds, p, verifyTimeout)
  {
  }

  /** A new process, found running, is a success. */
  function FollowBy(answer: nat -> Answer, n: nat, olds: seq<int>, p: int, verifyTimeout: int): Outcome {
    if p !in olds && AwaitBy(answer, n, p, Attempts(verifyTimeout, 500, VERIFY_POLL)).running
    then Outcome(true, if olds != [] then Restarted else Started, Some(p))
    else Outcome(false, RefusedStart, Some(p))
  }

  lemma LaunchesRise(answer: nat -> Answer, n: nat, olds: seq<int>, verifyTimeout: int)
    ensures RiseSucceeds(answer, n, olds, verifyTimeout, LaunchBy(answer, n, olds, verifyTimeout))
  {
    forall p | Rises(answer, n, p, verifyTimeout) && p !in olds
      ensures LaunchBy(answer, n, olds, verifyTimeout) == Outcome(true, if olds != [] then Restarted else Started, Some(p))
    {
      var attempts := Attempts(verifyTimeout, 500, VERIFY_POLL);
      var slow: nat :| slow < attempts && StartsSlowly(answer, n + 2, p, slow);
      SlowStartsCount(answer, n + 2, p, attempts, slow);
    }
  }

  ghost predicate RiseSucceeds(answer: nat -> Answer, n: nat, olds: seq<int>, verifyTimeout: int, outcome: Outcome) {
    forall p {:trigger Rises(answer, n, p, verifyTimeout)} :: Rises(answer, n, p, verifyTimeout) && p !in olds ==>
      outcome == Outcome(true, if olds != [] then Restarted else Started, Some(p))
  }

  /** The start brings up the process, and that is sound after a while. */
  ghost predicate Rises(answer: nat -> Answer, from: nat, pid: int, verifyTimeout: int) {
    answer(from).child == Some(pid) && ComesUp(answer, from + 2, pid, Attempts(verifyTimeout, 500, VERIFY_POLL))
  }

  ghost predicate ComesUp(answer: nat -> Answer, n: nat, pid: int, attempts: nat) {
    exists slow: nat {:trigger StartsSlowly(answer, n, pid, slow)} :: slow < attempts && StartsSlowly(answer, n, pid, slow)
  }

  /** Nobody owns the port or listens, and the start brings up a sound process. */
  ghost predicate GoesWell(answer: nat -> Answer, from: nat, pid: int, verifyTimeout: int) {
    answer(from).owners in {None, Some({})} && !answer(from + 1).listening && Rises(answer, from + 2, pid, verifyTimeout)
  }

  /** The port's one owner is the hub; it stops, the port is free, and the start brings up a sound
      process. */
  ghost predicate GoesWellAgain(answer: nat -> Answer, n: nat, self: int, h: int, k: nat, m: nat, p: int,
                                stopTimeout: int, releaseTimeout: int, verifyTimeout: int)
  {
    SoleHub(answer, n, self, h) &&
    RestartsWell(answer, LookedAt(answer, n, h), self, h, k, m, p, stopTimeout, releaseTimeout, verifyTimeout)
  }

  ghost predicate RestartsWell(answer: nat -> Answer, n: nat, self: int, h: int, k: nat, m: nat, p: int,
                               stopTimeout: int, releaseTimeout: int, verifyTimeout: int)
  {
    && MakesRoom(answer, n, self, h, k, m, stopTimeout, releaseTimeout) && p != h
    && Rises(answer, DroppedAt(answer, RoomAt(answer, n, h, k, m)), p, verifyTimeout)
  }

  /** The new hub's record is dropped; and if it is verified now, or was not found foreign, it is seen
      gone whenever it goes within its time. */
  ghost predicate Cleaned(t: Trace, answer: nat -> Answer, n: nat, self: int, pid: int, identity: Option<bool>, stopTimeout: int) {
    && t != [] && t[|t| - 1] == PidRemoved
    && (HubVerdict(answer, n, pid) == Some(true) || identity != Some(false) ==>
          StopsIfItGoes(t, answer, n, n + HubQuestions(answer, n, pid), self, pid, Briefly(stopTimeout)))
  }

  ghost predicate StopsIfItGoes(t: Trace, answer: nat -> Answer, from: nat, n: nat, self: int, pid: int, timeout: int) {
    forall k: nat {:trigger StopsHub(answer, n, self, pid, k)} ::
      StopsHub(answer, n, self, pid, k) && k <= Attempts(timeout, 100, STOP_POLL) ==> SeenGone(t, from, pid)
  }

  function Briefly(timeout: int): int { if timeout < 5000 then timeout else 5000 }

  method CleanUp(os: Os, pid: int, identity: Option<bool>, stopTimeout: int)
    requires SignalsSafe(os.trace, os.self)
    modifies os
    ensures NoStart(old(os.trace), os.trace) && SignalsSafe(os.trace, os.self) && OnlySignals(old(os.trace), os.trace, pid)
    ensures Cleaned(os.trace, os.answer, |old(os.trace)|, os.self, pid, identity, stopTimeout)
  {
    ghost var start := os.trace;
    var verdict := VerifyAgain(os, pid);
    ghost var asked := os.trace;
    if verdict == Some(true) || identity != Some(false) {
      var gone := StopHubGracefully(os, pid, if stopTimeout < 5000 then stopTimeout else 5000);
      GoesIfStopped(os.answer, os.trace, |start|, |asked|, os.self, pid, Briefly(stopTimeout), gone, |os.trace|);
      SignalsEarlier(start, asked, os.trace, pid);
    }
    ghost var before := os.trace;
    os.RemovePid();
    LookingIsSafe(before, os.trace, os.self);
    StopsLater(os.answer, before, os.trace, |start|, |asked|, os.self, pid, Briefly(stopTimeout));
  }

  lemma GoesIfStopped(answer: nat -> Answer, t: Trace, from: nat, n: nat, self: int, pid: int, timeout: int, gone: bool, now: nat)
    requires from <= n && StopSucceeds(answer, n, self, pid, timeout, gone, now) && (gone ==> SeenGone(t, n, pid))
    ensures StopsIfItGoes(t, answer, from, n, self, pid, timeout)
  {
  }

  lemma StopsLater(answer: nat -> Answer, t: Trace, t': Trace, from: nat, n: nat, self: int, pid: int, timeout: int)
    requires t <= t'
    ensures StopsIfItGoes(t, answer, from, n, self, pid, timeout) ==> StopsIfItGoes(t', answer, from, n, self, pid, timeout)
  {
    if SeenGone(t, from, pid) {
      GoneStays(t, t', from, pid);
    }
  }

  ghost predicate Tidied(t: Trace, answer: nat -> Answer, self: int, olds: seq<int>, stopTimeout: int, verifyTimeout: int, outcome: Outcome) {
    !outcome.success && outcome.pid.Some? && outcome.pid.value !in olds ==>
      Dismissed(t, answer, self, outcome.pid.value, stopTimeout, verifyTimeout)
  }

  /** A new hub that was started and did not verify was cleaned up. */
  ghost predicate Dismissed(t: Trace, answer: nat -> Answer, self: int, pid: int, stopTimeout: int, verifyTimeout: int) {
    exists started: nat, n: nat {:trigger DismissedAt(t, answer, started, n, self, pid, stopTimeout, verifyTimeout)} ::
      DismissedAt(t, answer, started, n, self, pid, stopTimeout, verifyTimeout)
  }

  ghost predicate DismissedAt(t: Trace, answer: nat -> Answer, started: nat, n: nat, self: int, pid: int, stopTimeout: int, verifyTimeout: int) {
    && started < n && answer(started).child == Some(pid)
    && Cleaned(t, answer, n, self, pid, AwaitBy(answer, started + 2, pid, Attempts(verifyTimeout, 500, VERIFY_POLL)).identity, stopTimeout)
  }

  ghost predicate StartTried(t: Trace, from: nat) {
    exists i {:trigger t[i]} :: from <= i < |t| && t[i].Spawned?
  }

  function OldPids(pre: Preflight): seq<int> { if pre.decision.Yasinhub? then pre.hub else [] }

  ghost predicate RoomMade(answer: nat -> Answer, n: nat, self: int, h: int, stopTimeout: int, releaseTimeout: int, clear: bool, now: nat) {
    forall k: nat, m: nat {:trigger MakesRoom(answer, n, self, h, k, m, stopTimeout, releaseTimeout)} ::
      MakesRoom(answer, n, self, h, k, m, stopTimeout, releaseTimeout) ==>
        clear && now == DroppedAt(answer, RoomAt(answer, n, h, k, m))
  }

  /** An old hub is stopped, and its record dropped. */
  method ClearWay(os: Os, pre: Preflight, ghost from: nat, stopTimeout: int, releaseTimeout: int) returns (clear: bool)
    requires SignalsSafe(os.trace, os.self) && pre.decision.Yasinhub? && pre.hub != [] && from <= |os.trace|
    modifies os
    ensures old(os.trace) <= os.trace && SignalsSafe(os.trace, os.self) && NoStart(old(os.trace), os.trace)
    ensures clear ==> Clear(os.trace, from, pre)
    ensures |pre.hub| == 1 ==> RoomMade(os.answer, |old(os.trace)|, os.self, pre.hub[0], stopTimeout, releaseTimeout, clear, |os.trace|)
  {
    ghost var looked := os.trace;
    clear := MakeRoom(os, pre, from, stopTimeout, releaseTimeout);
    if clear {
      ghost var before := os.trace;
      DropPids(os, pre.hub);
      LookingIsSafe(before, os.trace, os.self);
      LookingKeepsClear(before, os.trace, from, pre);
      NoStartTransitive(looked, before, os.trace);
    }
  }

  /** The whole launcher. Whatever the operating system answers: a foreign or indeterminate port
      leads to no signal and no start; every signal is a SIGTERM to a process just verified to be
      the hub; a start is clear; and a success is proven. */
  method RunStartup(os: Os, stopTimeout: int, releaseTimeout: int, verifyTimeout: int) returns (pre: Preflight, outcome: Outcome)
    requires SignalsSafe(os.trace, os.self)
    modifies os
    ensures old(os.trace) <= os.trace && SignalsSafe(os.trace, os.self)
    ensures pre.decision.Foreign? || pre.decision.Indeterminate? ==> !outcome.success && OnlyLooked(old(os.trace), os.trace)
    ensures StartsClear(os.trace, |old(os.trace)|, pre)
    ensures pre.decision.Free? ==> StartTried(os.trace, |old(os.trace)|)
    ensures outcome.success ==>
              outcome.pid.Some? && outcome.pid.value !in OldPids(pre) && Proven(os.trace, |old(os.trace)|, outcome.pid.value)
    ensures Tidied(os.trace, os.answer, os.self, OldPids(pre), stopTimeout, verifyTimeout, outcome)
    ensures forall p :: GoesWell(os.answer, |old(os.trace)|, p, verifyTimeout) ==> outcome == Outcome(true, Started, Some(p))
    ensures forall h, k: nat, m: nat, p ::
              GoesWellAgain(os.answer, |old(os.trace)|, os.self, h, k, m, p, stopTimeout, releaseTimeout, verifyTimeout) ==>
                outcome == Outcome(true, Restarted, Some(p))
  {
    ghost var from := |os.trace|;
    pre := PreflightHubPort(os);
    LookingIsSafe(old(os.trace), os.trace, os.self);
    ghost var looked := |os.trace|;
    outcome := Outcome(false, RefusedStart, None);
    if !pre.decision.Foreign? && !pre.decision.Indeterminate? {
      assert os.trace[..from] == old(os.trace);
      outcome := StartWith(os, pre, from, stopTimeout, releaseTimeout, verifyTimeout);
    }
    AgainFollows(os.answer, from, os.self, pre, looked, stopTimeout, releaseTimeout, verifyTimeout, outcome);
  }

  lemma AgainFollows(answer: nat -> Answer, n: nat, self: int, pre: Preflight, looked: nat, stopTimeout: int, releaseTimeout: int,
                     verifyTimeout: int, outcome: Outcome)
    requires SoleHubFound(answer, n, self, pre, looked)
    requires pre.decision.Yasinhub? && |pre.hub| == 1 ==>
               RestartSucceeds(answer, looked, self, pre.hub[0], stopTimeout, releaseTimeout, verifyTimeout, outcome)
    ensures forall h, k: nat, m: nat, p :: GoesWellAgain(answer, n, self, h, k, m, p, stopTimeout, releaseTimeout, verifyTimeout) ==>
              outcome == Outcome(true, Restarted, Some(p))
  {
    forall h, k: nat, m: nat, p | GoesWellAgain(answer, n, self, h, k, m, p, stopTimeout, releaseTimeout, verifyTimeout)
      ensures outcome == Outcome(true, Restarted, Some(p))
    {
      assert SoleHub(answer, n, self, h);
      assert looked == LookedAt(answer, n, h) && pre.hub[0] == h;
      AgainFollowsFor(answer, n, self, h, k, m, p, stopTimeout, releaseTimeout, verifyTimeout, outcome);
    }
  }

  lemma AgainFollowsFor(answer: nat -> Answer, n: nat, self: int, h: int, k: nat, m: nat, p: int, stopTimeout: int, releaseTimeout: int,
                        verifyTimeout: int, outcome: Outcome)
    requires GoesWellAgain(answer, n, self, h, k, m, p, stopTimeout, releaseTimeout, verifyTimeout)
    requires RestartSucceeds(answer, LookedAt(answer, n, h), self, h, stopTimeout, releaseTimeout, verifyTimeout, outcome)
    ensures outcome == Outcome(true, Restarted, Some(p))
  {
  }

  ghost predicate RestartSucceeds(answer: nat -> Answer, n: nat, self: int, h: int, stopTimeout: int, releaseTimeout: int, verifyTimeout: int,
                                  outcome: Outcome)
  {
    forall k: nat, m: nat, p {:trigger RestartsWell(answer, n, self, h, k, m, p, stopTimeout, releaseTimeout, verifyTimeout)} ::
      RestartsWell(answer, n, self, h, k, m, p, stopTimeout, releaseTimeout, verifyTimeout) ==> outcome == Outcome(true, Restarted, Some(p))
  }

  /** What follows the preflight. */
  method StartWith(os: Os, pre: Preflight, ghost from: nat, stopTimeout: int, releaseTimeout: int, verifyTimeout: int)
      returns (outcome: Outcome)
    requires SignalsSafe(os.trace, os.self) && from <= |os.trace| && NoStart(os.trace[..from], os.trace)
    requires pre.decision.Free? || (pre.decision.Yasinhub? && pre.hub != [])
    modifies os
    ensures old(os.trace) <= os.trace && SignalsSafe(os.trace, os.self) && StartsClear(os.trace, from, pre)
    ensures Tidied(os.trace, os.answer, os.self, OldPids(pre), stopTimeout, verifyTimeout, outcome)
    ensures pre.decision.Free? ==> StartTried(os.trace, from) && RiseSucceeds(os.answer, |old(os.trace)|, [], verifyTimeout, outcome)
    ensures outcome.success ==>
              && outcome.action == (if OldPids(pre) != [] then Restarted else Started)
              && outcome.pid.Some? && outcome.pid.value !in OldPids(pre) && Proven(os.trace, from, outcome.pid.value)
    ensures pre.decision.Yasinhub? && |pre.hub| == 1 ==>
              RestartSucceeds(os.answer, |old(os.trace)|, os.self, pre.hub[0], stopTimeout, releaseTimeout, verifyTimeout, outcome)
  {
    ghost var looked := |os.trace|;
    if pre.decision.Yasinhub? {
      ghost var start := os.trace;
      var clear := ClearWay(os, pre, from, stopTimeout, releaseTimeout);
      NoStartTransitive(start[..from], start, os.trace);
      assert os.trace[..from] == start[..from];
      if !clear {
        return Outcome(false, RefusedStart, None);
      }
    }
    ghost var cleared := |os.trace|;
    outcome := Launch(os, pre, from, stopTimeout, verifyTimeout);
    LaunchesRise(os.answer, cleared, OldPids(pre), verifyTimeout);
    if pre.decision.Yasinhub? && |pre.hub| == 1 {
      RestartFollows(os.answer, looked, os.self, pre.hub[0], stopTimeout, releaseTimeout, verifyTimeout, cleared, outcome);
    }
  }

  lemma RestartFollows(answer: nat -> Answer, n: nat, self: int, h: int, stopTimeout: int, releaseTimeout: int, verifyTimeout: int,
                       cleared: nat, outcome: Outcome)
    requires RoomMade(answer, n, self, h, stopTimeout, releaseTimeout, true, cleared)
    requires RiseSucceeds(answer, cleared, [h], verifyTimeout, outcome)
    ensures RestartSucceeds(answer, n, self, h, stopTimeout, releaseTimeout, verifyTimeout, outcome)
  {
    forall k: nat, m: nat, p | RestartsWell(answer, n, self, h, k, m, p, stopTimeout, releaseTimeout, verifyTimeout)
      ensures outcome == Outcome(true, Restarted, Some(p))
    {
      assert MakesRoom(answer, n, self, h, k, m, stopTimeout, releaseTimeout);
      assert Rises(answer, cleared, p, verifyTimeout);
    }
  }

  lemma StartIsClear(ready: Trace, started: Trace, from: nat, pre: Preflight)
    requires from <= |ready| && Clear(ready, from, pre) && NoStart(ready[..from], ready)
    requires |started| == |ready| + 1 && ready == started[..|ready|]
    ensures StartsClear(started, from, pre)
  {
    forall i: nat | from <= i < |started|
      ensures StartClear(started, from, pre, i)
    {
      assert i < |ready| ==> started[i] == ready[i];
    }
  }

  lemma StartIsSafe(ready: Trace, started: Trace, self: int)
    requires SignalsSafe(ready, self) && |started| == |ready| + 1 && ready == started[..|ready|] && started[|ready|].Spawned?
    ensures SignalsSafe(started, self)
  {
    SafeStays(ready, started, self);
  }

  lemma ActsKeepStarts(t: Trace, t': Trace, from: nat, pre: Preflight)
    requires StartsClear(t, from, pre) && NoStart(t, t')
    ensures StartsClear(t', from, pre)
  {
    forall i: nat | from <= i < |t'|
      ensures StartClear(t', from, pre, i)
    {
      assert i < |t| ==> StartClear(t, from, pre, i) && t'[i] == t[i] && t'[..i] == t[..i];
    }
  }

  lemma LookingKeepsAll(t: Trace, t': Trace, from: nat, pre: Preflight, self: int)
    requires SignalsSafe(t, self) && StartsClear(t, from, pre) && OnlyLooked(t, t')
    ensures SignalsSafe(t', self) && StartsClear(t', from, pre)
  {
    LookingIsSafe(t, t', self);
    ActsKeepStarts(t, t', from, pre);
  }
}
