/**
 * The seccomp filter the child installs before exec: a default action plus a
 * list of rules, each naming a system call, optional comparisons on its
 * arguments, and the action to take when it matches.
 */
module Seccomp {
  import opened Wrappers

  /** The system calls the sandbox names in its filter; `Other` is any further one. */
  datatype SyscallId =
    | Ptrace | Execve | Clone
    | Chdir | Fchdir | Open | Access | Openat | Stat | Lstat | Getcwd | Readlink
    | Read | Close | Ioctl | Fstat | Lseek | Write | Getdents | Getdents64 | Readv | Writev
    | Fsync | Fdatasync | Sync | Poll | Mmap | Mprotect | Munmap | Madvise | Brk
    | RtSigaction | RtSigprocmask | Select | SchedYield | Getpid | Accept | Listen | Exit
    | Gettimeofday | Tkill | EpollCreate | RestartSyscall | ClockGettime | ClockGetres
    | ClockNanosleep | Gettid | Nanosleep | ExitGroup | EpollWait | EpollCtl | Tgkill
    | Pselect6 | Ppoll | ArchPrctl | Prctl | SetRobustList | GetRobustList | EpollPwait
    | Accept4 | Eventfd2 | EpollCreate1 | Pipe2 | Futex | SetTidAddress | SetThreadArea
    | Other(nr: nat)

  /** A raw 64-bit argument register, compared unsigned by the filter. */
  type Word = x: int | 0 <= x < 0x1_0000_0000_0000_0000

  /** The six argument registers of a system call. */
  type Args = s: seq<Word> | |s| == 6 witness [0, 0, 0, 0, 0, 0]

  /** Which of the six arguments a comparison inspects. */
  type ArgIndex = i: int | 0 <= i < 6

  /** What the filter does with a call: kill the process, let it run, or stop it for the tracer. */
  datatype Action = Kill | Allow | Trace(data: int)

  datatype Op = Ne | Lt | Le | Eq | Ge | Gt

  /** `Compare::new(arg, op, datum)`: argument `arg` stands in relation `op` to `datum`. */
  datatype Compare = Compare(arg: ArgIndex, op: Op, datum: Word)

  /** One `rule_add(action, call, cmps)`. */
  datatype Rule = Rule(action: Action, call: SyscallId, cmps: seq<Compare>)

  predicate Holds(c: Compare, args: Args)
  {
    var v := args[c.arg];
    match c.op
    case Ne => v != c.datum
    case Lt => v < c.datum
    case Le => v <= c.datum
    case Eq => v == c.datum
    case Ge => v >= c.datum
    case Gt => v > c.datum
  }

  /** A rule applies to a call when it names it and all its comparisons hold. */
  predicate Matches(r: Rule, call: SyscallId, args: Args)
  {
    r.call == call && forall c :: c in r.cmps ==> Holds(c, args)
  }

  /** The actions of the rules that apply to a call, in the order the rules were added. */
  function Matching(rules: seq<Rule>, call: SyscallId, args: Args): (m: seq<Action>)
    ensures |m| <= |rules|
  {
    if rules == [] then []
    else (if Matches(rules[0], call, args) then [rules[0].action] else [])
         + Matching(rules[1..], call, args)
  }

  /**
   * The action a filter takes on a call, where the rules alone decide it: the
   * default when no rule applies, the common action when all applicable rules
   * agree, and `None` when applicable rules disagree (how the seccomp library
   * resolves such a conflict is not part of this model).
   */
  function Resolve(default: Action, rules: seq<Rule>, call: SyscallId, args: Args): Option<Action>
  {
    var m := Matching(rules, call, args);
    if m == [] then Some(default)
    else if forall k :: 0 <= k < |m| ==> m[k] == m[0] then Some(m[0])
    else None
  }

  /** A rule without comparisons applies to every call it names; one with a single comparison, when that holds. */
  lemma MatchesUnconditional(r: Rule, call: SyscallId, args: Args)
    requires r.cmps == []
    ensures Matches(r, call, args) <==> r.call == call
  {
  }

  lemma MatchesSingle(r: Rule, call: SyscallId, args: Args)
    requires |r.cmps| == 1
    ensures Matches(r, call, args) <==> r.call == call && Holds(r.cmps[0], args)
  {
    assert r.cmps[0] in r.cmps;
  }

  /** An action is among the matching ones exactly when some applicable rule carries it. */
  lemma {:induction false} MatchingMembers(rules: seq<Rule>, call: SyscallId, args: Args, a: Action)
    ensures a in Matching(rules, call, args) <==> exists r :: r in rules && Matches(r, call, args) && r.action == a
  {
    if rules != [] {
      MatchingMembers(rules[1..], call, args, a);
      assert forall r :: r in rules <==> r == rules[0] || r in rules[1..];
    }
  }

  /** A call that no rule applies to gets the filter's default action. */
  lemma ResolveUnmatched(default: Action, rules: seq<Rule>, call: SyscallId, args: Args)
    requires forall r :: r in rules ==> !Matches(r, call, args)
    ensures Resolve(default, rules, call, args) == Some(default)
  {
    if Matching(rules, call, args) != [] {
      MatchingMembers(rules, call, args, Matching(rules, call, args)[0]);
    }
  }

  /** When at least one rule applies and all applicable rules agree, their action is taken. */
  lemma ResolveAgreed(default: Action, rules: seq<Rule>, call: SyscallId, args: Args, a: Action)
    requires exists r :: r in rules && Matches(r, call, args)
    requires forall r :: r in rules && Matches(r, call, args) ==> r.action == a
    ensures Resolve(default, rules, call, args) == Some(a)
  {
    var m := Matching(rules, call, args);
    var r :| r in rules && Matches(r, call, args);
    MatchingMembers(rules, call, args, a);
    assert m != [];
    forall k | 0 <= k < |m| ensures m[k] == a {
      MatchingMembers(rules, call, args, m[k]);
    }
  }

  /** Two applicable rules with different actions leave the decision to the library. */
  lemma ResolveConflict(default: Action, rules: seq<Rule>, call: SyscallId, args: Args, r1: Rule, r2: Rule)
    requires r1 in rules && Matches(r1, call, args)
    requires r2 in rules && Matches(r2, call, args)
    requires r1.action != r2.action
    ensures Resolve(default, rules, call, args) == None
  {
    var m := Matching(rules, call, args);
    MatchingMembers(rules, call, args, r1.action);
    MatchingMembers(rules, call, args, r2.action);
    var i :| 0 <= i < |m| && m[i] == r1.action;
    var j :| 0 <= j < |m| && m[j] == r2.action;
    assert m[i] != m[0] || m[j] != m[0];
  }

  /**
   * `seccomp::Filter`: created with a default action, grown by `rule_add`.
   * Loading it into the kernel is a foreign call and is not part of this class.
   */
  class Filter {
    var defaultAction: Action
    var rules: seq<Rule>

    /** `Filter::new(default)`: no rules yet. */
    constructor (defaultAction: Action)
      ensures this.defaultAction == defaultAction && rules == []
    {
      this.defaultAction := defaultAction;
      rules := [];
    }

    /** `rule_add`: appends one rule and changes nothing else. */
    method RuleAdd(action: Action, call: SyscallId, cmps: seq<Compare>)
      modifies this
      ensures rules == old(rules) + [Rule(action, call, cmps)]
      ensures defaultAction == old(defaultAction)
    {
      rules := rules + [Rule(action, call, cmps)];
    }

    /** What the filter, as built so far, decides for a call. */
    function Decision(call: SyscallId, args: Args): Option<Action>
      reads this
    {
      Resolve(defaultAction, rules, call, args)
    }
  }
}
