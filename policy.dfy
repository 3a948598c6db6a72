/**
 * The syscall filter the child installs just before exec: every call is killed
 * by default, process tracing is killed explicitly, exec and clone run freely,
 * path-taking calls stop for the tracer, descriptor calls are split on their
 * first argument, and a fixed list of calls runs freely.
 *
 * The table is written in the order the child adds its rules, section by
 * section; each section appends its rules one at a time to those before it.
 */
module Policy {
  import opened Wrappers
  import opened Seccomp

  /** The descriptor boundary of the descriptor-class rules. */
  const FdThreshold: Word := 4098

  /** `act_trace(0)`: stop the child and report to the tracer with message 0. */
  const TraceToTracer: Action := Trace(0)

  const AtOrAboveThreshold: Compare := Compare(0, Ge, FdThreshold)
  const BelowThreshold: Compare := Compare(0, Lt, FdThreshold)

  /** The two rules of the descriptor-class macro for one call. */
  function TraceAtOrAbove(call: SyscallId): Rule
  {
    Rule(TraceToTracer, call, [AtOrAboveThreshold])
  }

  function AllowBelow(call: SyscallId): Rule
  {
    Rule(Allow, call, [BelowThreshold])
  }

  /** The part of the table that names a call. */
  datatype Section =
    | KilledOutright      // PTRACE
    | LifecycleAllowed    // EXECVE, CLONE
    | PathTraced          // path-taking calls
    | FdSplit             // descriptor calls
    | FdSplitAndAllowed   // IOCTL: descriptor split and also on the allow list
    | Allowed             // the allow list
    | Unlisted            // named by no rule

  function SectionOf(call: SyscallId): Section
  {
    match call
    case Ptrace => KilledOutright
    case Execve | Clone => LifecycleAllowed
    case Chdir | Fchdir | Open | Access | Openat | Stat | Lstat | Getcwd | Readlink => PathTraced
    case Read | Close | Fstat | Lseek | Write | Getdents | Getdents64 | Readv | Writev => FdSplit
    case Ioctl => FdSplitAndAllowed
    case Fsync | Fdatasync | Sync | Poll | Mmap | Mprotect | Munmap | Madvise | Brk |
         RtSigaction | RtSigprocmask | Select | SchedYield | Getpid | Accept | Listen | Exit |
         Gettimeofday | Tkill | EpollCreate | RestartSyscall | ClockGettime | ClockGetres |
         ClockNanosleep | Gettid | Nanosleep | ExitGroup | EpollWait | EpollCtl | Tgkill |
         Pselect6 | Ppoll | ArchPrctl | Prctl | SetRobustList | GetRobustList | EpollPwait |
         Accept4 | Eventfd2 | EpollCreate1 | Pipe2 | Futex | SetTidAddress | SetThreadArea => Allowed
    case Other(_) => Unlisted
  }

  /** The explicit kill of PTRACE, then EXECVE and CLONE allowed. */
  function WithLifecycle(prefix: seq<Rule>): seq<Rule>
  {
    prefix
    + [Rule(Kill, Ptrace, [])]
    + [Rule(Allow, Execve, [])]
    + [Rule(Allow, Clone, [])]
  }

  /** The path-taking calls, traced unconditionally. */
  function WithPathTraps(prefix: seq<Rule>): seq<Rule>
  {
    prefix
    + [Rule(TraceToTracer, Chdir, [])]
    + [Rule(TraceToTracer, Fchdir, [])]
    + [Rule(TraceToTracer, Open, [])]
    + [Rule(TraceToTracer, Access, [])]
    + [Rule(TraceToTracer, Openat, [])]
    + [Rule(TraceToTracer, Stat, [])]
    + [Rule(TraceToTracer, Lstat, [])]
    + [Rule(TraceToTracer, Getcwd, [])]
    + [Rule(TraceToTracer, Readlink, [])]
  }

  /** The descriptor calls, two rules each. */
  function WithFdSplits(prefix: seq<Rule>): seq<Rule>
  {
    var p1 := VfsFilterRules(prefix, Read);
    var p2 := VfsFilterRules(p1, Close);
    var p3 := VfsFilterRules(p2, Ioctl);
    var p4 := VfsFilterRules(p3, Fstat);
    var p5 := VfsFilterRules(p4, Lseek);
    var p6 := VfsFilterRules(p5, Write);
    var p7 := VfsFilterRules(p6, Getdents);
    var p8 := VfsFilterRules(p7, Getdents64);
    var p9 := VfsFilterRules(p8, Readv);
    VfsFilterRules(p9, Writev)
  }

  /** The allow list, first run: sync, memory and signal calls up to SCHED_YIELD. */
  function WithAllowListA(prefix: seq<Rule>): seq<Rule>
  {
    prefix
    + [Rule(Allow, Fsync, [])]
    + [Rule(Allow, Fdatasync, [])]
    + [Rule(Allow, Sync, [])]
    + [Rule(Allow, Poll, [])]
    + [Rule(Allow, Mmap, [])]
    + [Rule(Allow, Mprotect, [])]
    + [Rule(Allow, Munmap, [])]
    + [Rule(Allow, Madvise, [])]
    + [Rule(Allow, Brk, [])]
    + [Rule(Allow, RtSigaction, [])]
    + [Rule(Allow, RtSigprocmask, [])]
    + [Rule(Allow, Select, [])]
    + [Rule(Allow, SchedYield, [])]
  }

  /** The allow list, second run: GETPID up to the call before the unconditional IOCTL rule. */
  function WithAllowListB(prefix: seq<Rule>): seq<Rule>
  {
    prefix
    + [Rule(Allow, Getpid, [])]
    + [Rule(Allow, Accept, [])]
    + [Rule(Allow, Listen, [])]
    + [Rule(Allow, Exit, [])]
    + [Rule(Allow, Gettimeofday, [])]
    + [Rule(Allow, Tkill, [])]
    + [Rule(Allow, EpollCreate, [])]
    + [Rule(Allow, RestartSyscall, [])]
    + [Rule(Allow, ClockGettime, [])]
    + [Rule(Allow, ClockGetres, [])]
    + [Rule(Allow, ClockNanosleep, [])]
    + [Rule(Allow, Gettid, [])]
  }

  /** The allow list, third run: the unconditional IOCTL rule up to PRCTL. */
  function WithAllowListC(prefix: seq<Rule>): seq<Rule>
  {
    prefix
    + [Rule(Allow, Ioctl, [])]
    + [Rule(Allow, Nanosleep, [])]
    + [Rule(Allow, ExitGroup, [])]
    + [Rule(Allow, EpollWait, [])]
    + [Rule(Allow, EpollCtl, [])]
    + [Rule(Allow, Tgkill, [])]
    + [Rule(Allow, Pselect6, [])]
    + [Rule(Allow, Ppoll, [])]
    + [Rule(Allow, ArchPrctl, [])]
    + [Rule(Allow, Prctl, [])]
  }

  /** The allow list, fourth run: SET_ROBUST_LIST to SET_THREAD_AREA. */
  function WithAllowListD(prefix: seq<Rule>): seq<Rule>
  {
    prefix
    + [Rule(Allow, SetRobustList, [])]
    + [Rule(Allow, GetRobustList, [])]
    + [Rule(Allow, EpollPwait, [])]
    + [Rule(Allow, Accept4, [])]
    + [Rule(Allow, Eventfd2, [])]
    + [Rule(Allow, EpollCreate1, [])]
    + [Rule(Allow, Pipe2, [])]
    + [Rule(Allow, Futex, [])]
    + [Rule(Allow, SetTidAddress, [])]
    + [Rule(Allow, SetThreadArea, [])]
  }

  /** The whole allow list, run after run. */
  function WithAllowList(prefix: seq<Rule>): seq<Rule>
  {
    WithAllowListD(WithAllowListC(WithAllowListB(WithAllowListA(prefix))))
  }

  /** The rules in the order the child adds them. */
  function PolicyRules(): seq<Rule>
  {
    WithAllowList(WithFdSplits(WithPathTraps(WithLifecycle([]))))
  }

  /** The rules the macro `vfs_filter!` appends for one call. */
  function VfsFilterRules(prefix: seq<Rule>, call: SyscallId): seq<Rule>
  {
    prefix + [TraceAtOrAbove(call)] + [AllowBelow(call)]
  }

  /** The macro `vfs_filter!`: the two descriptor-class rules for one call. */
  method VfsFilter(f: Filter, call: SyscallId)
    modifies f
    ensures f.rules == VfsFilterRules(old(f.rules), call)
    ensures f.defaultAction == old(f.defaultAction)
  {
    f.RuleAdd(TraceToTracer, call, [AtOrAboveThreshold]);
    f.RuleAdd(Allow, call, [BelowThreshold]);
  }

  /** The explicit PTRACE kill, then EXECVE and CLONE. */
  method AddLifecycle(f: Filter)
    modifies f
    ensures f.rules == WithLifecycle(old(f.rules))
    ensures f.defaultAction == old(f.defaultAction)
  {
    f.RuleAdd(Kill, Ptrace, []);
    f.RuleAdd(Allow, Execve, []);
    f.RuleAdd(Allow, Clone, []);
  }

  /** The path-taking calls, each stopped for the tracer. */
  method AddPathTraps(f: Filter)
    modifies f
    ensures f.rules == WithPathTraps(old(f.rules))
    ensures f.defaultAction == old(f.defaultAction)
  {
    f.RuleAdd(TraceToTracer, Chdir, []);
    f.RuleAdd(TraceToTracer, Fchdir, []);
    f.RuleAdd(TraceToTracer, Open, []);
    f.RuleAdd(TraceToTracer, Access, []);
    f.RuleAdd(TraceToTracer, Openat, []);
    f.RuleAdd(TraceToTracer, Stat, []);
    f.RuleAdd(TraceToTracer, Lstat, []);
    f.RuleAdd(TraceToTracer, Getcwd, []);
    f.RuleAdd(TraceToTracer, Readlink, []);
  }

  /** `vfs_filter!` for each descriptor call. */
  method AddFdSplits(f: Filter)
    modifies f
    ensures f.rules == WithFdSplits(old(f.rules))
    ensures f.defaultAction == old(f.defaultAction)
  {
    VfsFilter(f, Read);
    VfsFilter(f, Close);
    VfsFilter(f, Ioctl);
    VfsFilter(f, Fstat);
    VfsFilter(f, Lseek);
    VfsFilter(f, Write);
    VfsFilter(f, Getdents);
    VfsFilter(f, Getdents64);
    VfsFilter(f, Readv);
    VfsFilter(f, Writev);
  }

  /** The first run of the allow list. */
  method AddAllowListA(f: Filter)
    modifies f
    ensures f.rules == WithAllowListA(old(f.rules))
    ensures f.defaultAction == old(f.defaultAction)
  {
    f.RuleAdd(Allow, Fsync, []);
    f.RuleAdd(Allow, Fdatasync, []);
    f.RuleAdd(Allow, Sync, []);
    f.RuleAdd(Allow, Poll, []);
    f.RuleAdd(Allow, Mmap, []);
    f.RuleAdd(Allow, Mprotect, []);
    f.RuleAdd(Allow, Munmap, []);
    f.RuleAdd(Allow, Madvise, []);
    f.RuleAdd(Allow, Brk, []);
    f.RuleAdd(Allow, RtSigaction, []);
    f.RuleAdd(Allow, RtSigprocmask, []);
    f.RuleAdd(Allow, Select, []);
    f.RuleAdd(Allow, SchedYield, []);
  }

  /** The second run of the allow list. */
  method AddAllowListB(f: Filter)
    modifies f
    ensures f.rules == WithAllowListB(old(f.rules))
    ensures f.defaultAction == old(f.defaultAction)
  {
    f.RuleAdd(Allow, Getpid, []);
    f.RuleAdd(Allow, Accept, []);
    f.RuleAdd(Allow, Listen, []);
    f.RuleAdd(Allow, Exit, []);
    f.RuleAdd(Allow, Gettimeofday, []);
    f.RuleAdd(Allow, Tkill, []);
    f.RuleAdd(Allow, EpollCreate, []);
    f.RuleAdd(Allow, RestartSyscall, []);
    f.RuleAdd(Allow, ClockGettime, []);
    f.RuleAdd(Allow, ClockGetres, []);
    f.RuleAdd(Allow, ClockNanosleep, []);
    f.RuleAdd(Allow, Gettid, []);
  }

  /** The third run of the allow list. */
  method AddAllowListC(f: Filter)
    modifies f
    ensures f.rules == WithAllowListC(old(f.rules))
    ensures f.defaultAction == old(f.defaultAction)
  {
    f.RuleAdd(Allow, Ioctl, []);
    f.RuleAdd(Allow, Nanosleep, []);
    f.RuleAdd(Allow, ExitGroup, []);
    f.RuleAdd(Allow, EpollWait, []);
    f.RuleAdd(Allow, EpollCtl, []);
    f.RuleAdd(Allow, Tgkill, []);
    f.RuleAdd(Allow, Pselect6, []);
    f.RuleAdd(Allow, Ppoll, []);
    f.RuleAdd(Allow, ArchPrctl, []);
    f.RuleAdd(Allow, Prctl, []);
  }

  /** The fourth run of the allow list. */
  method AddAllowListD(f: Filter)
    modifies f
    ensures f.rules == WithAllowListD(old(f.rules))
    ensures f.defaultAction == old(f.defaultAction)
  {
    f.RuleAdd(Allow, SetRobustList, []);
    f.RuleAdd(Allow, GetRobustList, []);
    f.RuleAdd(Allow, EpollPwait, []);
    f.RuleAdd(Allow, Accept4, []);
    f.RuleAdd(Allow, Eventfd2, []);
    f.RuleAdd(Allow, EpollCreate1, []);
    f.RuleAdd(Allow, Pipe2, []);
    f.RuleAdd(Allow, Futex, []);
    f.RuleAdd(Allow, SetTidAddress, []);
    f.RuleAdd(Allow, SetThreadArea, []);
  }

  /** The filter-building part of `exec_child`: a default-kill filter and its rules, section by section. */
  method BuildFilter() returns (f: Filter)
    ensures fresh(f)
    ensures f.defaultAction == Kill && f.rules == PolicyRules()
  {
    f := new Filter(Kill);
    AddLifecycle(f);
    AddPathTraps(f);
    AddFdSplits(f);
    AddAllowListA(f);
    AddAllowListB(f);
    AddAllowListC(f);
    AddAllowListD(f);
  }

  /** The table, described by what it says about each call rather than by position. */
  predicate Listed(r: Rule)
  {
    match SectionOf(r.call)
    case KilledOutright => r == Rule(Kill, r.call, [])
    case LifecycleAllowed => r == Rule(Allow, r.call, [])
    case PathTraced => r == Rule(TraceToTracer, r.call, [])
    case FdSplit => r == TraceAtOrAbove(r.call) || r == AllowBelow(r.call)
    case FdSplitAndAllowed =>
      r == TraceAtOrAbove(r.call) || r == AllowBelow(r.call) || r == Rule(Allow, r.call, [])
    case Allowed => r == Rule(Allow, r.call, [])
    case Unlisted => false
  }

  /** The descriptor calls, in the order of the table. */
  const FdCalls: set<SyscallId> :=
    {Read, Close, Ioctl, Fstat, Lseek, Write, Getdents, Getdents64, Readv, Writev}

  lemma FdCallsSection(call: SyscallId)
    ensures call in FdCalls <==> SectionOf(call) == FdSplit || SectionOf(call) == FdSplitAndAllowed
  {
  }

  /** The calls of the four runs of the allow list. */
  const AllowRunA: set<SyscallId> := {
      Fsync, Fdatasync, Sync, Poll, Mmap, Mprotect, Munmap, Madvise, Brk, RtSigaction, RtSigprocmask, Select, SchedYield
  }

  const AllowRunB: set<SyscallId> := {
      Getpid, Accept, Listen, Exit, Gettimeofday, Tkill, EpollCreate, RestartSyscall, ClockGettime, ClockGetres, ClockNanosleep, Gettid
  }

  const AllowRunC: set<SyscallId> := {
      Ioctl, Nanosleep, ExitGroup, EpollWait, EpollCtl, Tgkill, Pselect6, Ppoll, ArchPrctl, Prctl
  }

  const AllowRunD: set<SyscallId> := {
      SetRobustList, GetRobustList, EpollPwait, Accept4, Eventfd2, EpollCreate1, Pipe2, Futex, SetTidAddress, SetThreadArea
  }

  /** Each section adds exactly the rules of its calls. */
  lemma LifecycleMembers(prefix: seq<Rule>, r: Rule)
    ensures r in WithLifecycle(prefix) <==>
      r in prefix || r == Rule(Kill, Ptrace, []) || r == Rule(Allow, Execve, []) || r == Rule(Allow, Clone, [])
  {
  }

  lemma PathTrapsMembers(prefix: seq<Rule>, r: Rule)
    ensures r in WithPathTraps(prefix) <==>
      r in prefix || (SectionOf(r.call) == PathTraced && r == Rule(TraceToTracer, r.call, []))
  {
  }

  lemma VfsFilterMembers(prefix: seq<Rule>, call: SyscallId, r: Rule)
    ensures r in VfsFilterRules(prefix, call) <==>
      r in prefix || r == TraceAtOrAbove(call) || r == AllowBelow(call)
  {
  }

  lemma FdSplitsMembers(prefix: seq<Rule>, r: Rule)
    ensures r in WithFdSplits(prefix) <==>
      r in prefix || (r.call in FdCalls && (r == TraceAtOrAbove(r.call) || r == AllowBelow(r.call)))
  {
    VfsFilterMembers(prefix, Read, r);
    var q1 := VfsFilterRules(prefix, Read);
    VfsFilterMembers(q1, Close, r);
    var q2 := VfsFilterRules(q1, Close);
    VfsFilterMembers(q2, Ioctl, r);
    var q3 := VfsFilterRules(q2, Ioctl);
    VfsFilterMembers(q3, Fstat, r);
    var q4 := VfsFilterRules(q3, Fstat);
    VfsFilterMembers(q4, Lseek, r);
    var q5 := VfsFilterRules(q4, Lseek);
    VfsFilterMembers(q5, Write, r);
    var q6 := VfsFilterRules(q5, Write);
    VfsFilterMembers(q6, Getdents, r);
    var q7 := VfsFilterRules(q6, Getdents);
    VfsFilterMembers(q7, Getdents64, r);
    var q8 := VfsFilterRules(q7, Getdents64);
    VfsFilterMembers(q8, Readv, r);
    var q9 := VfsFilterRules(q8, Readv);
    VfsFilterMembers(q9, Writev, r);
  }

  lemma AllowListAMembers(prefix: seq<Rule>, r: Rule)
    ensures r in WithAllowListA(prefix) <==>
      r in prefix || (r.call in AllowRunA && r == Rule(Allow, r.call, []))
  {
  }

  lemma AllowListBMembers(prefix: seq<Rule>, r: Rule)
    ensures r in WithAllowListB(prefix) <==>
      r in prefix || (r.call in AllowRunB && r == Rule(Allow, r.call, []))
  {
  }

  lemma AllowListCMembers(prefix: seq<Rule>, r: Rule)
    ensures r in WithAllowListC(prefix) <==>
      r in prefix || (r.call in AllowRunC && r == Rule(Allow, r.call, []))
  {
  }

  lemma AllowListDMembers(prefix: seq<Rule>, r: Rule)
    ensures r in WithAllowListD(prefix) <==>
      r in prefix || (r.call in AllowRunD && r == Rule(Allow, r.call, []))
  {
  }

  /** The four runs together are exactly the calls the section map puts on the allow list. */
  lemma AllowRuns(call: SyscallId)
    ensures call in AllowRunA || call in AllowRunB || call in AllowRunC || call in AllowRunD
        <==> SectionOf(call) == Allowed || SectionOf(call) == FdSplitAndAllowed
  {
  }

  lemma AllowListMembers(prefix: seq<Rule>, r: Rule)
    ensures r in WithAllowList(prefix) <==>
      r in prefix
      || ((SectionOf(r.call) == Allowed || SectionOf(r.call) == FdSplitAndAllowed) && r == Rule(Allow, r.call, []))
  {
    var q1 := WithAllowListA(prefix);
    var q2 := WithAllowListB(q1);
    var q3 := WithAllowListC(q2);
    AllowListAMembers(prefix, r);
    AllowListBMembers(q1, r);
    AllowListCMembers(q2, r);
    AllowListDMembers(q3, r);
    AllowRuns(r.call);
  }

  /** The description, case by case in the order of the table's sections. */
  lemma ListedCases(r: Rule)
    ensures Listed(r) <==>
      r == Rule(Kill, Ptrace, []) || r == Rule(Allow, Execve, []) || r == Rule(Allow, Clone, [])
      || (SectionOf(r.call) == PathTraced && r == Rule(TraceToTracer, r.call, []))
      || (r.call in FdCalls && (r == TraceAtOrAbove(r.call) || r == AllowBelow(r.call)))
      || ((SectionOf(r.call) == Allowed || SectionOf(r.call) == FdSplitAndAllowed) && r == Rule(Allow, r.call, []))
  {
    FdCallsSection(r.call);
  }

  /** A rule is in the table exactly when the description lists it. */
  lemma PolicyMember(r: Rule)
    ensures r in PolicyRules() <==> Listed(r)
  {
    var p1 := WithLifecycle([]);
    var p2 := WithPathTraps(p1);
    var p3 := WithFdSplits(p2);
    LifecycleMembers([], r);
    PathTrapsMembers(p1, r);
    FdSplitsMembers(p2, r);
    AllowListMembers(p3, r);
    ListedCases(r);
  }

  /** A rule list holds exactly the rules the description lists, in whatever order. */
  ghost predicate Tabulates(rules: seq<Rule>)
  {
    forall r :: r in rules <==> Listed(r)
  }

  lemma PolicyTabulates()
    ensures Tabulates(PolicyRules())
  {
    forall r {
      PolicyMember(r);
    }
  }

  /** Exactly one of the macro's two rules applies, whatever the first argument. */
  lemma FdSplitExclusive(call: SyscallId, args: Args)
    ensures Matches(TraceAtOrAbove(call), call, args) <==> args[0] >= FdThreshold
    ensures Matches(AllowBelow(call), call, args) <==> args[0] < FdThreshold
  {
    MatchesSingle(TraceAtOrAbove(call), call, args);
    MatchesSingle(AllowBelow(call), call, args);
  }

  /**
   * A section whose applicable rules all carry one action decides the call.
   * (The sections below instantiate this with the action their rules carry.)
   */
  lemma SectionDecides(rules: seq<Rule>, call: SyscallId, args: Args, w: Rule, a: Action)
    requires Tabulates(rules)
    requires Listed(w) && Matches(w, call, args) && w.action == a
    requires forall r :: Listed(r) && Matches(r, call, args) ==> r.action == a
    ensures Resolve(Kill, rules, call, args) == Some(a)
  {
    assert w in rules;
    ResolveAgreed(Kill, rules, call, args, a);
  }

  /** PTRACE is killed, so the child cannot trace anything itself. */
  lemma PtraceKilled(rules: seq<Rule>, args: Args)
    requires Tabulates(rules)
    ensures Resolve(Kill, rules, Ptrace, args) == Some(Kill)
  {
    SectionDecides(rules, Ptrace, args, Rule(Kill, Ptrace, []), Kill);
  }

  /** EXECVE and CLONE run; the tracer follows them through trace events instead. */
  lemma LifecycleCallsAllowed(rules: seq<Rule>, call: SyscallId, args: Args)
    requires Tabulates(rules)
    requires SectionOf(call) == LifecycleAllowed
    ensures Resolve(Kill, rules, call, args) == Some(Allow)
  {
    SectionDecides(rules, call, args, Rule(Allow, call, []), Allow);
  }

  /** Every path-taking call stops for the tracer, whatever its arguments. */
  lemma PathCallsTraced(rules: seq<Rule>, call: SyscallId, args: Args)
    requires Tabulates(rules)
    requires SectionOf(call) == PathTraced
    ensures Resolve(Kill, rules, call, args) == Some(TraceToTracer)
  {
    SectionDecides(rules, call, args, Rule(TraceToTracer, call, []), TraceToTracer);
  }

  /** A descriptor call other than IOCTL stops for the tracer at or above the threshold and runs below it. */
  lemma FdCallsSplit(rules: seq<Rule>, call: SyscallId, args: Args)
    requires Tabulates(rules)
    requires SectionOf(call) == FdSplit
    ensures Resolve(Kill, rules, call, args)
         == Some(if args[0] >= FdThreshold then TraceToTracer else Allow)
  {
    FdSplitExclusive(call, args);
    if args[0] >= FdThreshold {
      SectionDecides(rules, call, args, TraceAtOrAbove(call), TraceToTracer);
    } else {
      SectionDecides(rules, call, args, AllowBelow(call), Allow);
    }
  }

  /** Below the threshold both IOCTL allow rules apply and agree. */
  lemma IoctlBelowThresholdAllowed(rules: seq<Rule>, args: Args)
    requires Tabulates(rules)
    requires args[0] < FdThreshold
    ensures Resolve(Kill, rules, Ioctl, args) == Some(Allow)
  {
    FdSplitExclusive(Ioctl, args);
    SectionDecides(rules, Ioctl, args, Rule(Allow, Ioctl, []), Allow);
  }

  /** At or above the threshold IOCTL has a trace rule and an allow rule that both apply. */
  lemma IoctlAboveThresholdConflicts(rules: seq<Rule>, args: Args)
    requires Tabulates(rules)
    requires args[0] >= FdThreshold
    ensures Resolve(Kill, rules, Ioctl, args) == None
  {
    var traced := TraceAtOrAbove(Ioctl);
    var allowed := Rule(Allow, Ioctl, []);
    FdSplitExclusive(Ioctl, args);
    assert Listed(traced) && Listed(allowed);
    ResolveConflict(Kill, rules, Ioctl, args, traced, allowed);
  }

  /** Every call on the allow list other than IOCTL runs, whatever its arguments. */
  lemma AllowListAllowed(rules: seq<Rule>, call: SyscallId, args: Args)
    requires Tabulates(rules)
    requires SectionOf(call) == Allowed
    ensures Resolve(Kill, rules, call, args) == Some(Allow)
  {
    SectionDecides(rules, call, args, Rule(Allow, call, []), Allow);
  }

  /** A call no rule names is killed by the default action. */
  lemma UnlistedKilled(rules: seq<Rule>, call: SyscallId, args: Args)
    requires Tabulates(rules)
    requires SectionOf(call) == Unlisted
    ensures Resolve(Kill, rules, call, args) == Some(Kill)
  {
    ResolveUnmatched(Kill, rules, call, args);
  }

  /**
   * The classification the table is written to express, section by section.
   * IOCTL has an unconditional allow rule besides its descriptor split; at or
   * above the threshold the two disagree, and that case is left undecided.
   */
  function Intended(call: SyscallId, arg0: Word): Option<Action>
  {
    match SectionOf(call)
    case KilledOutright => Some(Kill)
    case LifecycleAllowed => Some(Allow)
    case PathTraced => Some(TraceToTracer)
    case FdSplit => Some(if arg0 >= FdThreshold then TraceToTracer else Allow)
    case FdSplitAndAllowed => if arg0 < FdThreshold then Some(Allow) else None
    case Allowed => Some(Allow)
    case Unlisted => Some(Kill)
  }

  /** Any list of exactly the described rules decides every call as intended. */
  lemma TabulatedDecidesAsIntended(rules: seq<Rule>, call: SyscallId, args: Args)
    requires Tabulates(rules)
    ensures Resolve(Kill, rules, call, args) == Intended(call, args[0])
  {
    match SectionOf(call)
    case KilledOutright => PtraceKilled(rules, args);
    case LifecycleAllowed => LifecycleCallsAllowed(rules, call, args);
    case PathTraced => PathCallsTraced(rules, call, args);
    case FdSplit => FdCallsSplit(rules, call, args);
    case FdSplitAndAllowed =>
      if args[0] < FdThreshold {
        IoctlBelowThresholdAllowed(rules, args);
      } else {
        IoctlAboveThresholdConflicts(rules, args);
      }
    case Allowed => AllowListAllowed(rules, call, args);
    case Unlisted => UnlistedKilled(rules, call, args);
  }

  /** The child's table decides every call as intended. */
  lemma PolicyDecidesAsIntended(call: SyscallId, args: Args)
    ensures Resolve(Kill, PolicyRules(), call, args) == Intended(call, args[0])
  {
    PolicyTabulates();
    TabulatedDecidesAsIntended(PolicyRules(), call, args);
  }

  /** The filter that BuildFilter produces decides every call as intended. */
  method BuiltFilterDecides(call: SyscallId, args: Args) returns (d: Option<Action>)
    ensures d == Intended(call, args[0])
  {
    var f := BuildFilter();
    d := f.Decision(call, args);
    PolicyDecidesAsIntended(call, args);
  }
}
