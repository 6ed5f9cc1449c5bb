/** The operating system as the lifecycle code sees it: an answer to every question at every moment,
    and a record of everything asked and done, in order. The answers are inputs: whatever is proved
    holds for all of them. */
module Processes {
  import opened Options

  datatype Signal = Term | Kill

  datatype Sent = Delivered | NoProcess | Refused

  /** `None` answers are questions that raised or could not be answered. */
  datatype Event =
    | AliveProbe(pid: int, alive: Option<bool>)
    | CmdlineRead(pid: int, cmdline: Option<string>)
    | VerifierAsked(pid: int, verdict: Option<bool>)
    | OwnersListed(owners: Option<set<int>>)
    | PortProbed(occupied: bool)
    | HealthProbed(healthy: bool)
    | HintsListed(pids: set<int>)
    | ChildPolled(pid: int, exited: bool)
    | ManagedAsked(managed: bool)
    | SvAsked(usable: bool)
    | PidRead(saved: Option<int>)
    | PidSaved(pid: int, written: bool)
    | PidRemoved
    | Signalled(pid: int, signal: Signal, sent: Sent)
    | Spawned(child: Option<int>)
    | SvDown(ok: bool)
    | SvUp(ok: bool)
    | PlaceAsked(placed: bool)
    | ClockAsked(waiting: bool)

  type Trace = seq<Event>

  /** What the operating system would answer to each question, and how each act would go. */
  datatype Answer = Answer(
    alive: Option<bool>, cmdline: Option<string>, verdict: Option<bool>, owners: Option<set<int>>, listening: bool,
    healthy: bool, hints: set<int>, exited: bool, managed: bool, usable: bool, onRecord: Option<int>, saved: bool,
    sent: Sent, child: Option<int>, down: bool, up: bool, placed: bool, waiting: bool)

  /** Events that touch a process. */
  predicate Acts(e: Event) { e.Signalled? || e.Spawned? || e.SvDown? || e.SvUp? }

  /** Events that start a process. */
  predicate Starts(e: Event) { e.Spawned? || e.SvUp? }

  /** Events that touch the PID file. */
  predicate Records(e: Event) { e.PidSaved? || e.PidRemoved? }

  /** Between the two moments processes were only looked at. */
  ghost predicate OnlyLooked(before: Trace, after: Trace) {
    before <= after && forall i {:trigger after[i]} :: |before| <= i < |after| ==> !Acts(after[i])
  }

  /** Between the two moments questions were asked, and nothing else. */
  ghost predicate OnlyAsked(before: Trace, after: Trace) {
    before <= after && forall i {:trigger after[i]} :: |before| <= i < |after| ==> !Acts(after[i]) && !Records(after[i])
  }

  /** Between the two moments nobody asked for health. */
  ghost predicate NoHealth(before: Trace, after: Trace) {
    before <= after && forall i {:trigger after[i]} :: |before| <= i < |after| ==> !after[i].HealthProbed?
  }

  /** At some moment from `from` on the event happened. */
  ghost predicate Happened(t: Trace, from: nat, e: Event) {
    exists i {:trigger t[i]} :: from <= i < |t| && t[i] == e
  }

  /** The process was seen not to exist. */
  ghost predicate SeenGone(t: Trace, from: nat, pid: int) {
    exists i {:trigger t[i]} :: from <= i < |t| && Gone(t[i], pid)
  }

  predicate Gone(e: Event, pid: int) {
    e == AliveProbe(pid, Some(false)) || (e.Signalled? && e.pid == pid && e.sent == NoProcess)
  }

  lemma HappenedStays(t: Trace, t': Trace, from: nat, e: Event)
    requires Happened(t, from, e) && t <= t'
    ensures Happened(t', from, e)
  {
  }

  lemma GoneStays(t: Trace, t': Trace, from: nat, pid: int)
    requires SeenGone(t, from, pid) && t <= t'
    ensures SeenGone(t', from, pid)
  {
  }

  predicate Contains(text: string, part: string) {
    part <= text || (text != "" && Contains(text[1..], part))
  }

  /** A text contains another exactly when that begins somewhere in it. */
  lemma {:induction false} ContainsMeans(text: string, part: string)
    ensures Contains(text, part) <==> exists i :: 0 <= i <= |text| && part <= text[i..]
    decreases |text|
  {
    assert text[0..] == text;
    if text != "" {
      ContainsMeans(text[1..], part);
      if i :| 0 <= i <= |text[1..]| && part <= text[1..][i..] {
        assert text[1..][i..] == text[i + 1..];
      }
      if i :| 0 <= i <= |text| && part <= text[i..] {
        assert i > 0 ==> text[1..][i - 1..] == text[i..];
      }
    }
  }

  lemma NonEmpty(pids: set<int>)
    ensures pids != {} ==> exists p :: p in pids
  {
    assert (forall p :: p !in pids) ==> pids == {};
  }

  lemma OneLess(todo: set<int>, left: set<int>, pid: int)
    requires pid in left && left <= todo
    ensures todo - (left - {pid}) == todo - left + {pid}
  {
  }

  class Os {
    const self: int
    const answer: nat -> Answer
    var trace: Trace

    constructor (self: int, answer: nat -> Answer)
      ensures this.self == self && this.answer == answer && trace == []
    {
      this.self, this.answer := self, answer;
      trace := [];
    }

    /** The answer to a question asked now. */
    function Now(): Answer
      reads this
    {
      answer(|trace|)
    }

    method IsAlive(pid: int) returns (alive: Option<bool>)
      modifies this
      ensures alive == if pid <= 0 then Some(false) else old(Now()).alive
      ensures trace == old(trace) + [AliveProbe(pid, alive)]
    {
      alive := if pid <= 0 then Some(false) else Now().alive;
      trace := trace + [AliveProbe(pid, alive)];
    }

    method ReadCmdline(pid: int) returns (cmdline: Option<string>)
      modifies this
      ensures cmdline == old(Now()).cmdline
      ensures trace == old(trace) + [CmdlineRead(pid, cmdline)]
    {
      cmdline := Now().cmdline;
      trace := trace + [CmdlineRead(pid, cmdline)];
    }

    method AskVerifier(pid: int) returns (verdict: Option<bool>)
      modifies this
      ensures verdict == old(Now()).verdict
      ensures trace == old(trace) + [VerifierAsked(pid, verdict)]
    {
      verdict := Now().verdict;
      trace := trace + [VerifierAsked(pid, verdict)];
    }

    method PortOwners() returns (owners: Option<set<int>>)
      modifies this
      ensures owners == old(Now()).owners
      ensures trace == old(trace) + [OwnersListed(owners)]
    {
      owners := Now().owners;
      trace := trace + [OwnersListed(owners)];
    }

    method ProbePort() returns (occupied: bool)
      modifies this
      ensures occupied == old(Now()).listening
      ensures trace == old(trace) + [PortProbed(occupied)]
    {
      occupied := Now().listening;
      trace := trace + [PortProbed(occupied)];
    }

    method ProbeHealth() returns (healthy: bool)
      modifies this
      ensures healthy == old(Now()).healthy
      ensures trace == old(trace) + [HealthProbed(healthy)]
    {
      healthy := Now().healthy;
      trace := trace + [HealthProbed(healthy)];
    }

    /** PID files, `pgrep`, `lsof`, `ss` and `fuser`: hints, without the own process. */
    method Hints() returns (pids: set<int>)
      modifies this
      ensures pids == set p | p in old(Now()).hints && p > 0 && p != self
      ensures trace == old(trace) + [HintsListed(pids)]
    {
      pids := set p | p in Now().hints && p > 0 && p != self;
      trace := trace + [HintsListed(pids)];
    }

    method PollChild(pid: int) returns (exited: bool)
      modifies this
      ensures exited == old(Now()).exited
      ensures trace == old(trace) + [ChildPolled(pid, exited)]
    {
      exited := Now().exited;
      trace := trace + [ChildPolled(pid, exited)];
    }

    method IsManaged() returns (managed: bool)
      modifies this
      ensures managed == old(Now()).managed
      ensures trace == old(trace) + [ManagedAsked(managed)]
    {
      managed := Now().managed;
      trace := trace + [ManagedAsked(managed)];
    }

    method IsSvUsable() returns (usable: bool)
      modifies this
      ensures usable == old(Now()).usable
      ensures trace == old(trace) + [SvAsked(usable)]
    {
      usable := Now().usable;
      trace := trace + [SvAsked(usable)];
    }

    method ReadPid() returns (saved: Option<int>)
      modifies this
      ensures saved == old(Now()).onRecord
      ensures trace == old(trace) + [PidRead(saved)]
    {
      saved := Now().onRecord;
      trace := trace + [PidRead(saved)];
    }

    /** Whether writing the PID file succeeded. */
    method SavePid(pid: int) returns (saved: bool)
      modifies this
      ensures saved == old(Now()).saved
      ensures trace == old(trace) + [PidSaved(pid, saved)]
    {
      saved := Now().saved;
      trace := trace + [PidSaved(pid, saved)];
    }

    method RemovePid()
      modifies this
      ensures trace == old(trace) + [PidRemoved]
    {
      trace := trace + [PidRemoved];
    }

    method Send(pid: int, signal: Signal) returns (sent: Sent)
      modifies this
      ensures sent == old(Now()).sent
      ensures trace == old(trace) + [Signalled(pid, signal, sent)]
    {
      sent := Now().sent;
      trace := trace + [Signalled(pid, signal, sent)];
    }

    method Spawn() returns (pid: Option<int>)
      modifies this
      ensures pid == old(Now()).child
      ensures trace == old(trace) + [Spawned(pid)]
    {
      pid := Now().child;
      trace := trace + [Spawned(pid)];
    }

    /** Whether the service's directory exists and its log file opens. */
    method IsPlaced() returns (placed: bool)
      modifies this
      ensures placed == old(Now()).placed
      ensures trace == old(trace) + [PlaceAsked(placed)]
    {
      placed := Now().placed;
      trace := trace + [PlaceAsked(placed)];
    }

    /** Whether the time for a wait is not yet over. */
    method IsTimeLeft() returns (waiting: bool)
      modifies this
      ensures waiting == old(Now()).waiting
      ensures trace == old(trace) + [ClockAsked(waiting)]
    {
      waiting := Now().waiting;
      trace := trace + [ClockAsked(waiting)];
    }

    method RunSvDown() returns (ok: bool)
      modifies this
      ensures ok == old(Now()).down
      ensures trace == old(trace) + [SvDown(ok)]
    {
      ok := Now().down;
      trace := trace + [SvDown(ok)];
    }

    method RunSvUp() returns (ok: bool)
      modifies this
      ensures ok == old(Now()).up
      ensures trace == old(trace) + [SvUp(ok)]
    {
      ok := Now().up;
      trace := trace + [SvUp(ok)];
    }
  }
}
