/**
 * The tracer engine. A sandbox forks a child; the child asks to be traced,
 * stops itself, installs the seccomp policy and executes the command; the
 * parent attaches, sets the trace options and then, one `tick` at a time,
 * classifies a wait status and resumes, routes, releases or fails.
 *
 * The foreign calls (fork, waitpid, ptrace, raise, the filter load, execvp
 * and the event callback) are recorded, in the order they are made, in a
 * ghost effect log; the values they return are parameters of the methods.
 */
module Sandbox {
  import opened Wrappers
  import opened Posix
  import opened Bits
  import Seccomp
  import Policy
  import Ptrace
  import Vfs

  /** The SIGTRAP number on Linux: trace stops report it as their stop signal. */
  const SIGTRAP: int := 5

  /** The SIGSTOP number on Linux: the child raises it to wait for its tracer. */
  const SIGSTOP: int := 19

  /** What the sandbox tells its owner. */
  datatype Event = Released | Exited

  /**
   * The status tests of a wait result (`is_stopped`, `stop_signal`,
   * `is_signaled`, `is_exited`). They are not defined by the sandbox, so the
   * model takes them as given functions of the raw status and assumes no bit
   * layout for them.
   */
  datatype StatusDecoder = StatusDecoder(
    isStopped: U32 -> bool,
    stopSignal: U32 -> int,
    isSignaled: U32 -> bool,
    isExited: U32 -> bool)

  // ---------------------------------------------------------------------------
  // The sub-event number of a trace stop
  // ---------------------------------------------------------------------------

  /** `((status >> 8) & !5) >> 8`, on the 32-bit status. */
  function EventNumber(status: U32): nat
  {
    BitAnd(status / 0x100, BitNot32(5)) / 0x100
  }

  /**
   * The mask `!5` only clears bits that the second shift discards, so the
   * event number is the upper half of the status, whatever the status.
   */
  lemma EventNumberIsHighHalf(status: U32)
    ensures EventNumber(status) == status / 0x1_0000
  {
    var x := status / 0x100;
    assert BitNot32(5) == 0xFFFF_FFFA;
    ClearBitsZeroAndTwo(x);
    var q := x / 8;
    assert x == 8 * q + x % 8;
    assert 2 * ((x / 2) % 2) < 8;
    assert (8 * q + 2 * ((x / 2) % 2)) / 0x100 == q / 32;
    assert x / 0x100 == q / 32;
  }

  /**
   * A trace stop reports sub-event `e` exactly when the upper half of its
   * status holds `e`'s number; a seccomp stop, for one, has 7 there.
   */
  lemma StopSubEvent(status: U32, e: Ptrace.SubEvent)
    ensures Ptrace.SubEventFromNumber(EventNumber(status)) == Some(e)
        <==> status / 0x1_0000 == Ptrace.SubEventNumber(e)
  {
    EventNumberIsHighHalf(status);
  }

  // ---------------------------------------------------------------------------
  // The argument vector handed to execvp
  // ---------------------------------------------------------------------------

  /** An entry of the C `argv` array: a pointer to an argument's bytes, or the terminating null. */
  datatype CPtr = NullPtr | StrPtr(s: string)

  /** The C `argv` array of an argument list: one pointer per argument, then null. */
  function ArgvVector(argv: seq<string>): seq<CPtr>
  {
    if argv == [] then [NullPtr] else [StrPtr(argv[0])] + ArgvVector(argv[1..])
  }

  lemma {:induction false} ArgvVectorShape(argv: seq<string>)
    ensures |ArgvVector(argv)| == |argv| + 1
    ensures ArgvVector(argv)[|argv|] == NullPtr
    ensures forall i :: 0 <= i < |argv| ==> ArgvVector(argv)[i] == StrPtr(argv[i])
  {
    if argv != [] {
      ArgvVectorShape(argv[1..]);
    }
  }

  /** `CString::from_slice` panics on a slice holding a 0 byte; this says whether some argument does. */
  predicate ArgvHasNul(argv: seq<string>)
  {
    exists i :: 0 <= i < |argv| && '\0' in argv[i]
  }

  /**
   * The pointer loop of `exec_child`: one entry per argument, in order, then
   * null; `None` when converting some argument to a C string panics.
   */
  method ArgvPointers(argv: seq<string>) returns (ptrs: Option<seq<CPtr>>)
    ensures ptrs.None? <==> ArgvHasNul(argv)
    ensures ptrs.Some? ==> |ptrs.value| == |argv| + 1 && ptrs.value[|argv|] == NullPtr
    ensures ptrs.Some? ==> forall i :: 0 <= i < |argv| ==> ptrs.value[i] == StrPtr(argv[i])
    ensures ptrs.Some? ==> ptrs.value == ArgvVector(argv)
  {
    var acc := [];
    var i := 0;
    while i < |argv|
      invariant 0 <= i <= |argv|
      invariant |acc| == i
      invariant forall j :: 0 <= j < i ==> acc[j] == StrPtr(argv[j]) && '\0' !in argv[j]
    {
      if '\0' in argv[i] {
        return None;
      }
      acc := acc + [StrPtr(argv[i])];
      i := i + 1;
    }
    ArgvVectorShape(argv);
    return Some(acc + [NullPtr]);
  }

  // ---------------------------------------------------------------------------
  // Effects, failures and what one tick decides
  // ---------------------------------------------------------------------------

  /** One foreign call made by the sandbox, with the arguments it was made with. */
  datatype Effect =
    | Forked                                              // fork()
    | Attached(pid: int)                                  // ptrace::attach
    | Waited(pid: int)                                    // waitpid(pid, &st, 0)
    | OptionsSet(pid: int, options: set<Ptrace.TraceOption>) // ptrace::setoptions
    | Issued(call: Ptrace.RawCall)                        // ptrace::raw, through cont or traceme
    | RegsRead(pid: int)                                  // ptrace::getregs
    | SyscallRead(pid: int)                               // ptrace::Syscall::from_pid
    | Dispatched(handled: Vfs.Handled)                    // vfs.handle_syscall
    | ChildReleased(pid: int, signal: int)                // ptrace::release
    | Notified(event: Event, pid: int, running: bool)     // the event callback, with the sandbox it is shown
    | Raised(signal: int)                                 // raise
    | FilterLoaded(defaultAction: Seccomp.Action, rules: seq<Seccomp.Rule>) // filter.load()
    | Executed(command: string, argv: seq<CPtr>)          // execvp

  /** Why the sandbox panics. */
  datatype Failure =
    | WaitFailed(errno: nat)    // waitpid failed; `expect` panics with the errno's text
    | UnknownEvent(number: int) // "Unknown status"
    | ChildSignaled             // "Child died by a signal"
    | ChildExited               // "Child exited."
    | EmptyArgv                 // `argv[0]` of an empty argument list
    | NulInArgument             // `CString::from_slice` of an argument holding a 0 byte

  /** How a call of the sandbox ends: it returns, it panics, or the process image is replaced. */
  datatype Outcome = Done | Failed(failure: Failure) | Replaced

  /** The options `trace_child` sets on the child. */
  const ChildOptions: set<Ptrace.TraceOption> :=
    {Ptrace.TraceExit, Ptrace.ExitKill, Ptrace.TraceSeccomp, Ptrace.TraceExec, Ptrace.TraceClone}

  /** `wait_on_child`: waitpid's pid and status when the pid is positive, else the errno. */
  function WaitOutcome(ret: int, st: CInt, errno: nat): (r: PosixResult<WaitResult>)
    ensures r.Ok? <==> ret > 0
    ensures r.Ok? ==> r.value.pid == ret && AsCInt(r.value.status) == st
    ensures r.Error? ==> r.errno == errno
  {
    AsU32RoundTrip(st);
    if ret > 0 then Ok(WaitResult(ret, AsU32(st))) else Error(errno)
  }

  /** What a tick does with the wait result it received. */
  datatype Step =
    | Idle                                     // none of stopped, signaled, exited
    | ForwardSignal(signal: int)               // a stop by another signal: resume with it
    | SeccompStop(pid: int)                    // route the trapped call through the VFS
    | ExitStop(pid: int)                       // report the exit and release the child
    | OtherEventStop(pid: int, event: Ptrace.SubEvent) // resume with no signal
    | Fatal(failure: Failure)                  // panic

  /** A stop by SIGTRAP, which the tracer reads as a trace event. */
  predicate Trapped(dec: StatusDecoder, status: U32)
  {
    dec.isStopped(status) && dec.stopSignal(status) == SIGTRAP
  }

  /** The branches of `tick` once waitpid has succeeded. */
  function Classify(dec: StatusDecoder, res: WaitResult): (s: Step)
    ensures s.Idle? <==>
      !dec.isStopped(res.status) && !dec.isSignaled(res.status) && !dec.isExited(res.status)
    ensures s.ForwardSignal? <==> dec.isStopped(res.status) && dec.stopSignal(res.status) != SIGTRAP
    ensures s.ForwardSignal? ==> s.signal == dec.stopSignal(res.status)
    ensures s.SeccompStop? <==>
      Trapped(dec, res.status) && res.status / 0x1_0000 == Ptrace.SubEventNumber(Ptrace.SeccompEvent)
    ensures s.ExitStop? <==>
      Trapped(dec, res.status) && res.status / 0x1_0000 == Ptrace.SubEventNumber(Ptrace.ExitEvent)
    ensures s.OtherEventStop? ==>
      Trapped(dec, res.status) && Ptrace.SubEventFromNumber(res.status / 0x1_0000) == Some(s.event)
      && s.event != Ptrace.SeccompEvent && s.event != Ptrace.ExitEvent
    ensures s.SeccompStop? || s.ExitStop? || s.OtherEventStop? ==> s.pid == res.pid
    ensures s.Fatal? <==>
      (Trapped(dec, res.status) && Ptrace.SubEventFromNumber(res.status / 0x1_0000).None?)
      || (!dec.isStopped(res.status) && (dec.isSignaled(res.status) || dec.isExited(res.status)))
    ensures s.Fatal? && dec.isStopped(res.status) ==> s.failure == UnknownEvent(res.status / 0x1_0000)
    ensures s.Fatal? && !dec.isStopped(res.status) && dec.isSignaled(res.status) ==> s.failure == ChildSignaled
    ensures s.Fatal? && !dec.isStopped(res.status) && !dec.isSignaled(res.status) ==> s.failure == ChildExited
  {
    EventNumberIsHighHalf(res.status);
    if dec.isStopped(res.status) then
      if dec.stopSignal(res.status) == SIGTRAP then
        match Ptrace.SubEventFromNumber(EventNumber(res.status))
        case None => Fatal(UnknownEvent(EventNumber(res.status)))
        case Some(SeccompEvent) => SeccompStop(res.pid)
        case Some(ExitEvent) => ExitStop(res.pid)
        case Some(e) => OtherEventStop(res.pid, e)
      else
        ForwardSignal(dec.stopSignal(res.status))
    else if dec.isSignaled(res.status) then Fatal(ChildSignaled)
    else if dec.isExited(res.status) then Fatal(ChildExited)
    else Idle
  }

  /** The whole decision of `tick`: a failed wait panics through `expect`, a successful one is classified. */
  function TickStep(dec: StatusDecoder, r: PosixResult<WaitResult>): Step
  {
    match Expect(r, "Could not call waitpid")
    case Panicked(errno) => Fatal(WaitFailed(errno))
    case Returned(res) => Classify(dec, res)
  }

  /** The calls `handle_seccomp` makes for a trapped child `p`. */
  function SeccompEffects(p: int, vfs: Vfs.VFS, record: Ptrace.SyscallRecord): seq<Effect>
  {
    [RegsRead(p), SyscallRead(p), Dispatched(Vfs.HandleSyscall(vfs, record)), Issued(Ptrace.Cont(p, 0))]
  }

  /** The calls `handle_exit` makes, shown a sandbox with pid `selfPid` and the given running flag. */
  function ExitEffects(selfPid: int, running: bool): seq<Effect>
  {
    [Notified(Exited, selfPid, running), ChildReleased(selfPid, 0), Notified(Released, selfPid, running)]
  }

  /** The calls a tick makes after its waitpid, for each step. */
  function StepEffects(step: Step, selfPid: int, running: bool, vfs: Vfs.VFS, record: Ptrace.SyscallRecord)
    : seq<Effect>
  {
    match step
    case Idle => []
    case Fatal(_) => []
    case ForwardSignal(signal) => [Issued(Ptrace.Cont(selfPid, signal))]
    case SeccompStop(p) => [RegsRead(p)] + SeccompEffects(p, vfs, record)
    case ExitStop(p) => [RegsRead(p)] + ExitEffects(selfPid, running)
    case OtherEventStop(p, _) => [RegsRead(p), Issued(Ptrace.Cont(p, 0))]
  }

  /** The running flag after a step: only the exit step clears it. */
  function RunningAfterStep(step: Step, running: bool): bool
  {
    if step.ExitStop? then false else running
  }

  function OutcomeOf(step: Step): Outcome
  {
    if step.Fatal? then Failed(step.failure) else Done
  }

  /** The calls `trace_child` makes on child `p`, given what its waitpid returned. */
  function TraceChildEffects(p: int, r: PosixResult<WaitResult>): seq<Effect>
  {
    [Attached(p), Waited(p)]
    + if r.Ok? then [OptionsSet(p, ChildOptions), Issued(Ptrace.Cont(p, 0))] else []
  }

  /**
   * The calls `exec_child` makes in the child. An empty argument list panics
   * at `argv[0]`, and an argument holding a 0 byte panics in its conversion
   * to a C string; both happen after the stop and before the filter is built.
   */
  function ExecChildEffects(argv: seq<string>): seq<Effect>
  {
    [Issued(Ptrace.TraceMeCall()), Raised(SIGSTOP)]
    + if argv == [] || ArgvHasNul(argv) then []
      else [FilterLoaded(Seccomp.Kill, Policy.PolicyRules()), Executed(argv[0], ArgvVector(argv))]
  }

  /** How `exec_child` ends. */
  function ExecChildOutcome(argv: seq<string>): Outcome
  {
    if argv == [] then Failed(EmptyArgv)
    else if ArgvHasNul(argv) then Failed(NulInArgument)
    else Replaced
  }

  /** Builds the child's filter and returns the load call that installs it: default kill, the policy table. */
  method LoadFilter() returns (loaded: Effect)
    ensures loaded == FilterLoaded(Seccomp.Kill, Policy.PolicyRules())
  {
    var filter := Policy.BuildFilter();
    loaded := FilterLoaded(filter.defaultAction, filter.rules);
  }

  // ---------------------------------------------------------------------------
  // Reading the effect log
  // ---------------------------------------------------------------------------

  /** The events delivered to the owner, in order. */
  function EventsOf(log: seq<Effect>): seq<Event>
  {
    if log == [] then []
    else (if log[0].Notified? then [log[0].event] else []) + EventsOf(log[1..])
  }

  lemma {:induction false} EventsOfAppend(a: seq<Effect>, b: seq<Effect>)
    ensures EventsOf(a + b) == EventsOf(a) + EventsOf(b)
  {
    if a == [] {
      assert a + b == b;
    } else {
      assert (a + b)[0] == a[0];
      assert (a + b)[1..] == a[1..] + b;
      EventsOfAppend(a[1..], b);
    }
  }

  lemma EventsOfCons(x: Effect, rest: seq<Effect>)
    ensures EventsOf([x] + rest) == (if x.Notified? then [x.event] else []) + EventsOf(rest)
  {
    assert ([x] + rest)[1..] == rest;
  }

  /** A log with no callback entries delivers no events. */
  lemma {:induction false} EventsOfNone(log: seq<Effect>)
    requires forall i :: 0 <= i < |log| ==> !log[i].Notified?
    ensures EventsOf(log) == []
  {
    if log != [] {
      EventsOfNone(log[1..]);
    }
  }

  /** Effects that neither start nor end the child's tracing. */
  predicate Neutral(e: Effect)
  {
    !e.Forked? && !e.ChildReleased?
  }

  /** Whether the log shows a child forked and not yet released since. */
  function RunningAfter(log: seq<Effect>): bool
  {
    if log == [] then false
    else match log[|log| - 1]
      case Forked => true
      case ChildReleased(_, _) => false
      case _ => RunningAfter(log[..|log| - 1])
  }

  lemma {:induction false} RunningAfterNeutral(log: seq<Effect>, e: seq<Effect>)
    requires forall i :: 0 <= i < |e| ==> Neutral(e[i])
    ensures RunningAfter(log + e) == RunningAfter(log)
  {
    if e == [] {
      assert log + e == log;
    } else {
      var init := e[..|e| - 1];
      RunningAfterNeutral(log, init);
      assert (log + e)[|log + e| - 1] == e[|e| - 1];
      assert Neutral(e[|e| - 1]);
      assert (log + e)[..|log + e| - 1] == log + init;
    }
  }

  // ---------------------------------------------------------------------------
  // Properties of a tick
  // ---------------------------------------------------------------------------

  /** A tick fails exactly on a wait error, an unknown sub-event, or a signaled or exited child. */
  lemma TickFailsExactly(dec: StatusDecoder, ret: int, st: CInt, errno: nat)
    ensures var step := TickStep(dec, WaitOutcome(ret, st, errno));
      var status := AsU32(st);
      step.Fatal? <==>
        ret <= 0
        || (Trapped(dec, status) && Ptrace.SubEventFromNumber(status / 0x1_0000).None?)
        || (!dec.isStopped(status) && (dec.isSignaled(status) || dec.isExited(status)))
    ensures ret <= 0 ==> TickStep(dec, WaitOutcome(ret, st, errno)) == Fatal(WaitFailed(errno))
  {
  }

  /** A successful wait on a status that is none of stopped, signaled or exited makes the tick do nothing. */
  lemma IdleTickDoesNothing(dec: StatusDecoder, ret: int, st: CInt, errno: nat,
                            selfPid: int, running: bool, vfs: Vfs.VFS, record: Ptrace.SyscallRecord)
    requires ret > 0
    requires var status := AsU32(st);
      !dec.isStopped(status) && !dec.isSignaled(status) && !dec.isExited(status)
    ensures var step := TickStep(dec, WaitOutcome(ret, st, errno));
      step == Idle && StepEffects(step, selfPid, running, vfs, record) == []
      && RunningAfterStep(step, running) == running && OutcomeOf(step) == Done
  {
  }

  /** A stop by any signal but SIGTRAP resumes the sandbox's pid with exactly that signal and changes nothing else. */
  lemma ForwardedStopResumes(dec: StatusDecoder, res: WaitResult,
                             selfPid: int, running: bool, vfs: Vfs.VFS, record: Ptrace.SyscallRecord)
    requires dec.isStopped(res.status) && dec.stopSignal(res.status) != SIGTRAP
    ensures var step := Classify(dec, res);
      StepEffects(step, selfPid, running, vfs, record)
        == [Issued(Ptrace.Cont(selfPid, dec.stopSignal(res.status)))]
      && RunningAfterStep(step, running) == running
  {
  }

  /**
   * A seccomp stop hands the record read from the child to the VFS, gets the
   * same record back, and then resumes the stopped pid with no signal; the
   * running flag stays as it was.
   */
  lemma SeccompStopRoutesThroughVfs(selfPid: int, running: bool, vfs: Vfs.VFS,
                                    record: Ptrace.SyscallRecord, p: int)
    ensures var e := StepEffects(SeccompStop(p), selfPid, running, vfs, record);
      |e| == 5 && e[2] == SyscallRead(p) && e[3].Dispatched? && e[3].handled.call == record
      && e[4] == Issued(Ptrace.Cont(p, 0))
      && RunningAfterStep(SeccompStop(p), running) == running
  {
  }

  /** Any other known sub-event resumes the stopped pid with no signal. */
  lemma OtherEventResumes(selfPid: int, running: bool, vfs: Vfs.VFS,
                          record: Ptrace.SyscallRecord, p: int, event: Ptrace.SubEvent)
    ensures var e := StepEffects(OtherEventStop(p, event), selfPid, running, vfs, record);
      e[|e| - 1] == Issued(Ptrace.Cont(p, 0))
      && RunningAfterStep(OtherEventStop(p, event), running) == running
  {
  }

  /**
   * The exit stop emits `Exited`, releases the sandbox's child with signal 0,
   * emits `Released`, and only then clears the running flag: both events are
   * shown the running flag as it was before the stop.
   */
  lemma ExitStopReleases(selfPid: int, running: bool, vfs: Vfs.VFS, record: Ptrace.SyscallRecord, p: int)
    ensures var e := StepEffects(ExitStop(p), selfPid, running, vfs, record);
      e == [RegsRead(p), Notified(Exited, selfPid, running), ChildReleased(selfPid, 0),
            Notified(Released, selfPid, running)]
      && !RunningAfterStep(ExitStop(p), running)
  {
  }

  /** Events come only from the exit stop, and it emits exactly `Exited` then `Released`. */
  lemma {:induction false} StepEvents(step: Step, selfPid: int, running: bool, vfs: Vfs.VFS,
                                      record: Ptrace.SyscallRecord)
    ensures EventsOf(StepEffects(step, selfPid, running, vfs, record))
         == if step.ExitStop? then [Exited, Released] else []
  {
    var e := StepEffects(step, selfPid, running, vfs, record);
    if step.ExitStop? {
      var exited, released := Notified(Exited, selfPid, running), Notified(Released, selfPid, running);
      var detach := ChildReleased(selfPid, 0);
      assert e == [RegsRead(step.pid)] + ([exited] + ([detach] + ([released] + [])));
      EventsOfCons(released, []);
      EventsOfCons(detach, [released]);
      EventsOfCons(exited, [detach, released]);
      EventsOfCons(RegsRead(step.pid), [exited, detach, released]);
    } else {
      EventsOfNone(e);
    }
  }

  /** After a wait and a step, the running flag still says whether the log shows an unreleased child. */
  lemma StepKeepsRunning(log: seq<Effect>, step: Step, selfPid: int, running: bool, vfs: Vfs.VFS,
                         record: Ptrace.SyscallRecord)
    requires running == RunningAfter(log)
    ensures RunningAfterStep(step, running)
         == RunningAfter(log + [Waited(selfPid)] + StepEffects(step, selfPid, running, vfs, record))
  {
    var e := StepEffects(step, selfPid, running, vfs, record);
    if step.ExitStop? {
      var released := log + [Waited(selfPid), RegsRead(step.pid), Notified(Exited, selfPid, running),
                             ChildReleased(selfPid, 0)];
      assert log + [Waited(selfPid)] + e == released + [Notified(Released, selfPid, running)];
      RunningAfterNeutral(released, [Notified(Released, selfPid, running)]);
    } else {
      RunningAfterNeutral(log, [Waited(selfPid)] + e);
      assert log + [Waited(selfPid)] + e == log + ([Waited(selfPid)] + e);
    }
  }

  /** The exit stop is the only step that clears the running flag. */
  lemma OnlyExitClearsRunning(step: Step, running: bool)
    ensures running && !RunningAfterStep(step, running) <==> running && step.ExitStop?
  {
  }

  // ---------------------------------------------------------------------------
  // The sandbox object
  // ---------------------------------------------------------------------------

  class Sandbox {
    var pid: int
    var running: bool
    var vfs: Vfs.VFS
    /** Every foreign call made so far, in order. */
    ghost var log: seq<Effect>

    /** The running flag is set exactly while a forked child has not been released. */
    ghost predicate Valid()
      reads this
    {
      running == RunningAfter(log)
    }

    /** `Sandbox::new`: no child yet, not running, an empty VFS. */
    constructor ()
      ensures pid == -1 && !running && vfs == Vfs.NewVfs() && log == []
      ensures Valid()
    {
      pid := -1;
      running := false;
      vfs := Vfs.NewVfs();
      log := [];
    }

    /** `event`: the callback is shown the event and the sandbox as it stands. */
    method Notify(event: Event)
      modifies this`log
      ensures log == old(log) + [Notified(event, pid, running)]
    {
      log := log + [Notified(event, pid, running)];
    }

    /** One foreign `ptrace` request. */
    method Issue(call: Ptrace.RawCall)
      modifies this`log
      ensures log == old(log) + [Issued(call)]
    {
      log := log + [Issued(call)];
    }

    /** `wait_on_child`, given what `waitpid(pid, &st, 0)` returned and the errno it left. */
    method WaitOnChild(ret: int, st: CInt, errno: nat) returns (r: PosixResult<WaitResult>)
      modifies this`log
      ensures log == old(log) + [Waited(pid)]
      ensures r == WaitOutcome(ret, st, errno)
    {
      log := log + [Waited(pid)];
      if ret > 0 {
        r := Ok(WaitResult(ret, AsU32(st)));
      } else {
        r := Error(errno);
      }
    }

    /** `trace_child`: attach, wait once, set the options, resume with no signal. */
    method TraceChild(ret: int, st: CInt, errno: nat) returns (outcome: Outcome)
      modifies this`log
      ensures log == old(log) + TraceChildEffects(pid, WaitOutcome(ret, st, errno))
      ensures outcome == if ret > 0 then Done else Failed(WaitFailed(errno))
    {
      log := log + [Attached(pid)];
      var r := WaitOnChild(ret, st, errno);
      match Expect(r, "Could not call waitpid")
      case Panicked(e) =>
        outcome := Failed(WaitFailed(e));
      case Returned(_) =>
        log := log + [OptionsSet(pid, ChildOptions)];
        Issue(Ptrace.Cont(pid, 0));
        outcome := Done;
    }

    /**
     * `exec_child`, in the child: ask to be traced, stop until the tracer is
     * attached, build and load the policy, then execute the command.
     */
    method ExecChild(argv: seq<string>) returns (outcome: Outcome)
      modifies this`log
      ensures log == old(log) + ExecChildEffects(argv)
      ensures outcome == ExecChildOutcome(argv)
    {
      Issue(Ptrace.TraceMeCall());
      log := log + [Raised(SIGSTOP)];
      if argv == [] {
        return Failed(EmptyArgv);
      }
      if '\0' in argv[0] {
        return Failed(NulInArgument);
      }
      var command := argv[0];
      var ptrs := ArgvPointers(argv);
      if ptrs.None? {
        return Failed(NulInArgument);
      }
      var loaded := LoadFilter();
      log := log + [loaded, Executed(command, ptrs.value)];
      outcome := Replaced;
    }

    /**
     * `spawn`: set the running flag, fork, and take the child path exactly
     * when fork returned 0. The fork result and the parent's first wait are
     * parameters.
     */
    method Spawn(argv: seq<string>, forkResult: int, ret: int, st: CInt, errno: nat)
      returns (outcome: Outcome)
      modifies this
      ensures running && pid == forkResult && vfs == old(vfs)
      ensures log == old(log) + [Forked]
        + if forkResult == 0 then ExecChildEffects(argv)
          else TraceChildEffects(forkResult, WaitOutcome(ret, st, errno))
      ensures outcome ==
        if forkResult == 0 then ExecChildOutcome(argv)
        else if ret > 0 then Done else Failed(WaitFailed(errno))
      ensures Valid()
    {
      running := true;
      pid := forkResult;
      log := log + [Forked];
      ghost var forked := log;
      if pid == 0 {
        outcome := ExecChild(argv);
      } else {
        outcome := TraceChild(ret, st, errno);
      }
      RunningAfterNeutral(forked, log[|forked|..]);
      assert log == forked + log[|forked|..];
    }

    /** `release_child`: detach with the signal, emit `Released`, then clear the running flag. */
    method ReleaseChild(signal: int)
      modifies this`log, this`running
      ensures log == old(log) + [ChildReleased(pid, signal), Notified(Released, pid, old(running))]
      ensures !running
    {
      log := log + [ChildReleased(pid, signal)];
      Notify(Released);
      running := false;
    }

    /** `handle_exit`: emit `Exited`, then release the sandbox's child with signal 0. */
    method HandleExit(p: int)
      modifies this`log, this`running
      ensures log == old(log) + ExitEffects(pid, old(running))
      ensures !running
    {
      Notify(Exited);
      ReleaseChild(0);
    }

    /** `handle_seccomp`: read the trapped call, hand it to the VFS, resume with no signal. */
    method HandleSeccomp(p: int, record: Ptrace.SyscallRecord)
      modifies this`log
      ensures log == old(log) + SeccompEffects(p, vfs, record)
    {
      log := log + [RegsRead(p), SyscallRead(p)];
      var handled := Vfs.HandleSyscall(vfs, record);
      log := log + [Dispatched(handled)];
      var call := handled.call;
      Issue(Ptrace.Cont(p, 0));
    }

    /**
     * The branches of `tick` after its waitpid has succeeded: resume with the
     * stop signal, route a seccomp stop, release on the exit stop, resume
     * after any other sub-event, or panic.
     */
    method HandleStatus(dec: StatusDecoder, res: WaitResult, record: Ptrace.SyscallRecord)
      returns (outcome: Outcome)
      modifies this`log, this`running
      ensures log == old(log) + StepEffects(Classify(dec, res), pid, old(running), vfs, record)
      ensures running == RunningAfterStep(Classify(dec, res), old(running))
      ensures outcome == OutcomeOf(Classify(dec, res))
    {
      outcome := Done;
      if dec.isStopped(res.status) {
        if dec.stopSignal(res.status) == SIGTRAP {
          var number := EventNumber(res.status);
          var event := Ptrace.SubEventFromNumber(number);
          if event.None? {
            outcome := Failed(UnknownEvent(number));
          } else {
            log := log + [RegsRead(res.pid)];
            match event.value
            case SeccompEvent => HandleSeccomp(res.pid, record);
            case ExitEvent => HandleExit(res.pid);
            case _ => Issue(Ptrace.Cont(res.pid, 0));
          }
        } else {
          Issue(Ptrace.Cont(pid, dec.stopSignal(res.status)));
        }
      } else if dec.isSignaled(res.status) {
        outcome := Failed(ChildSignaled);
      } else if dec.isExited(res.status) {
        outcome := Failed(ChildExited);
      }
    }

    /**
     * `tick`: wait for the child and act on its status. The waitpid result,
     * the status tests and the record a seccomp stop would read are
     * parameters.
     */
    method Tick(dec: StatusDecoder, ret: int, st: CInt, errno: nat, record: Ptrace.SyscallRecord)
      returns (outcome: Outcome)
      requires Valid()
      modifies this`log, this`running
      ensures Valid()
      ensures var step := TickStep(dec, WaitOutcome(ret, st, errno));
        log == old(log) + [Waited(pid)] + StepEffects(step, pid, old(running), vfs, record)
        && running == RunningAfterStep(step, old(running))
        && outcome == OutcomeOf(step)
    {
      var r := WaitOnChild(ret, st, errno);
      match Expect(r, "Could not call waitpid")
      case Panicked(e) =>
        outcome := Failed(WaitFailed(e));
      case Returned(res) =>
        outcome := HandleStatus(dec, res, record);
      StepKeepsRunning(old(log), TickStep(dec, r), pid, old(running), vfs, record);
    }
  }

  // ---------------------------------------------------------------------------
  // The driver loop of the command-line driver (src/bin/test.rs)
  // ---------------------------------------------------------------------------

  /** What one tick's waitpid returns, with the status tests and the record a seccomp stop reads. */
  datatype WaitInput = WaitInput(dec: StatusDecoder, ret: int, st: CInt, errno: nat, record: Ptrace.SyscallRecord)

  /** A tick on a running sandbox adds to the events since `start` exactly those of its step. */
  lemma TickEvents(start: seq<Effect>, before: seq<Effect>, step: Step, selfPid: int, vfs: Vfs.VFS,
                   record: Ptrace.SyscallRecord)
    requires |start| <= |before| && before[..|start|] == start
    ensures var after := before + [Waited(selfPid)] + StepEffects(step, selfPid, true, vfs, record);
      |start| <= |after| && after[..|start|] == start
      && EventsOf(after[|start|..])
         == EventsOf(before[|start|..]) + (if step.ExitStop? then [Exited, Released] else [])
  {
    var effects := StepEffects(step, selfPid, true, vfs, record);
    var after := before + [Waited(selfPid)] + effects;
    assert after[..|start|] == start;
    assert after[|start|..] == before[|start|..] + ([Waited(selfPid)] + effects);
    EventsOfAppend(before[|start|..], [Waited(selfPid)] + effects);
    EventsOfCons(Waited(selfPid), effects);
    StepEvents(step, selfPid, true, vfs, record);
  }

  /**
   * `while sbox.running { sbox.tick(); }`, fed one wait input per tick. It
   * stops when the child is released, when a tick panics, or when the inputs
   * run out. While the child runs, no event has been delivered; a loop that
   * ended by releasing the child delivered exactly `Exited` then `Released`.
   */
  method RunWhileRunning(sb: Sandbox, waits: seq<WaitInput>) returns (outcome: Outcome, ticks: nat)
    requires sb.Valid()
    modifies sb
    ensures sb.Valid() && sb.pid == old(sb.pid) && sb.vfs == old(sb.vfs) && ticks <= |waits|
    ensures |old(sb.log)| <= |sb.log| && sb.log[..|old(sb.log)|] == old(sb.log)
    ensures sb.running ==> EventsOf(sb.log[|old(sb.log)|..]) == []
    ensures sb.running && outcome == Done ==> ticks == |waits|
    ensures !old(sb.running) ==> ticks == 0 && sb.log == old(sb.log)
    ensures old(sb.running) && !sb.running ==>
      outcome == Done && EventsOf(sb.log[|old(sb.log)|..]) == [Exited, Released]
  {
    outcome := Done;
    ticks := 0;
    ghost var start := sb.log;
    ghost var wasRunning := sb.running;
    while sb.running && outcome == Done && ticks < |waits|
      invariant sb.Valid() && sb.pid == old(sb.pid) && sb.vfs == old(sb.vfs) && ticks <= |waits|
      invariant |start| <= |sb.log| && sb.log[..|start|] == start
      invariant sb.running ==> EventsOf(sb.log[|start|..]) == []
      invariant !wasRunning ==> ticks == 0 && sb.log == start && !sb.running
      invariant wasRunning && !sb.running ==> outcome == Done && EventsOf(sb.log[|start|..]) == [Exited, Released]
      decreases |waits| - ticks, if sb.running then 1 else 0
    {
      var w := waits[ticks];
      ghost var before := sb.log;
      outcome := sb.Tick(w.dec, w.ret, w.st, w.errno, w.record);
      ticks := ticks + 1;
      TickEvents(start, before, TickStep(w.dec, WaitOutcome(w.ret, w.st, w.errno)), sb.pid, sb.vfs, w.record);
    }
  }
}
