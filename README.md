# codius-sandbox-core, modelled in Dafny

codius-sandbox-core runs a command in a child process under `ptrace` and
seccomp. The parent (the tracer) forks. The child asks to be traced, stops
itself with SIGSTOP, installs a seccomp filter that kills every system call by
default, and executes the command. The parent attaches, sets its trace options
and resumes the child. From then on the parent calls `tick` in a loop. Each
tick waits for one status change of the child and then takes one of these
actions:

- it forwards a plain stop signal to the child;
- it routes a seccomp trap through the virtual filesystem (VFS) layer;
- on the exit sub-event, it reports `Exited`, releases the child, and reports
  `Released`;
- on any other known sub-event, it resumes the stopped process with no signal;
- on a status that is none of stopped, signaled or exited, it does nothing;
- it panics.

The model has one module per source component:

| module | file | models |
|---|---|---|
| `Posix` | `posix.dfy` | `PosixResult`, `expect`, `WaitResult`, the `st as u32` cast |
| `Ptrace` | `ptrace.dfy` | the `Request` discriminants, `raw`, `cont`, `traceme`, the trace options, the Linux ptrace sub-event numbers, the syscall record |
| `Vfs` | `vfs.dfy` | `VFS::new`, `handle_syscall`, `do_open` |
| `Seccomp` | `seccomp.dfy` | the seccomp filter object the child builds: rules with argument comparisons, `rule_add`, and which action a filter gives a call |
| `Policy` | `policy.dfy` | the filter table of `exec_child`, built by appending rules one at a time, and what it decides for every call |
| `Sandbox` | `sandbox.dfy` | the `Sandbox` object (`new`, `spawn`, `trace_child`, `exec_child`, `tick`, `handle_exit`, `release_child`, `handle_seccomp`, `wait_on_child`, `event`), the sub-event number extraction, the argv pointer loop, the driver loop of `src/bin/test.rs` |
| `Bits` | `bits.dfy` | bitwise AND and NOT over `nat`, for the event-number expression |
| `Wrappers` | `wrappers.dfy` | `Option` |

The calls the sandbox makes are recorded in a ghost effect log
(`Sandbox.Sandbox.log`) in the order they are made. Most are foreign calls:
fork, waitpid, attach, setoptions, every `ptrace` request, getregs,
`Syscall::from_pid`, release, raise, the filter load and execvp. Two are not:
the event callback, and the hand-over of a trapped call to
`vfs.handle_syscall`, which is logged with the record the VFS returns and what
it observed. What the foreign calls return is passed in:

- the fork result;
- waitpid's return value, status word and errno;
- the syscall record read at a seccomp stop.

The event callback is logged with the event and the sandbox's `pid` and
`running` at the moment of delivery, because the callback can read them.

These choices follow the code:

- A trace stop's event number is read as a Linux `PTRACE_EVENT_*` number, from
  FORK = 1 to SECCOMP = 7. Any other number makes `tick` panic, as
  `FromPrimitive::from_i64(..).expect("Unknown status")` does.
- With a known sub-event, the tracer resumes `res.pid`, the process that
  stopped. When it forwards a stop signal it resumes `self.pid`
  (`src/sandbox.rs:65`, `:69`). The model keeps both and does not assume they
  are equal.
- `handle_exit` ignores its pid argument, and `release_child` releases
  `self.pid`.
- A fork result of -1 takes the parent path, exactly as a positive pid does.

- **Descriptor split.** The code (`src/sandbox.rs:134-143`) traces a
  descriptor call when argument 0 >= 4098 and allows it below that, so
  descriptor 3 runs freely and descriptor 5000 stops for the tracer.
- **Tick after release.** `tick` has no guard for a released child: it calls
  waitpid again, and `expect` panics if that fails. `Sandbox.Sandbox.Tick` has
  no `running` precondition and models exactly that.
- **Argument conversion.** `CString::from_slice` panics on a slice holding a
  0 byte (`src/sandbox.rs:104`, `:107`). Such an argument ends `exec_child`
  after the stop and before the filter is built (`NulInArgument`).
- **Wait-status tests.** No modelled file defines them, so the model leaves
  them uninterpreted.

## Model

| member | source | states |
|---|---|---|
| `Posix.Expect` | src/posix.rs:10-16 | `expect` returns exactly when the result is `Ok`, and then returns its value unchanged; on `Error` it panics, and the panic carries the errno |
| `Posix.ExpectIgnoresMessage` | src/posix.rs:11-14 | the message passed to `expect` changes neither the value nor the panic |
| `Posix.AsU32` | src/sandbox.rs:234 | `st as u32` keeps a non-negative status and moves a negative one to the upper half of the 32-bit range |
| `Posix.AsU32RoundTrip` | src/sandbox.rs:234 | the cast loses nothing: the C int is recovered from its 32 bits |
| `Posix.AsU32Onto` | src/sandbox.rs:234 | every 32-bit pattern is the cast of some C int |
| `Bits.BitAnd` | src/sandbox.rs:55 | `a & b` is at most each operand |
| `Bits.BitNot32` | src/sandbox.rs:55 | `!a` on 32 bits is the complement: it shares no bit with `a` (`a & !a == 0`), and `a + !a == 2^32 - 1`, so together they set every bit |
| `Bits.BitAndComplement` | src/sandbox.rs:55 | below 2^k, a value and `2^k - 1` minus it have no bit in common |
| `Bits.BitAndLowOnes` | src/sandbox.rs:55 | a mask of k one bits keeps every value below 2^k |
| `Ptrace.Code` | src/ptrace.rs:10-22 | the discriminants lie in 0..12 and skip 10 and 11 |
| `Ptrace.FromCode` | src/ptrace.rs:10-22 | a number decodes only to a request whose discriminant is that number |
| `Ptrace.CodeRoundTrip` | src/ptrace.rs:10-22 | every request is recovered from its discriminant (TraceMe=0 … SingleStep=9, GetRegs=12) |
| `Ptrace.CodesDistinct` | src/ptrace.rs:10-22 | two requests have the same discriminant exactly when they are the same request |
| `Ptrace.Raw` | src/ptrace.rs:42-47 | `raw` passes the request's integer code, and pid, addr and data, through unchanged |
| `Ptrace.Cont` | src/ptrace.rs:30-34 | `cont(pid, sig)` is one PTRACE_CONT request on `pid` with a null address and `sig` in the data slot |
| `Ptrace.TraceMeCall` | src/ptrace.rs:36-40 | `traceme()` is one PTRACE_TRACEME request with pid 0 and null address and data |
| `Ptrace.SubEventNumber` | src/sandbox.rs:57-58 | every sub-event has a number in 1..7 |
| `Ptrace.SubEventFromNumber` | src/sandbox.rs:57-58 | the conversion succeeds exactly for 1..7, and then gives the sub-event with that number |
| `Ptrace.SubEventRoundTrip` | src/sandbox.rs:57-58 | every sub-event is recovered from its number |
| `Vfs.NewVfs` | src/vfs.rs:30-35 | a new VFS has no mount points |
| `Vfs.HandlerFor` | src/vfs.rs:19-22 | the OPEN arm is taken exactly for the OPEN id; every other id takes the no-op arm |
| `Vfs.DoOpen` | src/vfs.rs:26-28 | `do_open` only observes the attempt, once, with the record it was given |
| `Vfs.HandleSyscall` | src/vfs.rs:18-24 | `handle_syscall` is total and returns the record it was given; it observes something exactly when the id is OPEN, and only that record |
| `Vfs.HandleIgnoresMounts` | src/vfs.rs:18-28 | the handling does not depend on the mount points (it takes `&self` and changes nothing) |
| `Seccomp.Matching` | src/sandbox.rs:111-143 | a filter's matching actions are at most one per rule |
| `Seccomp.MatchesUnconditional` | src/sandbox.rs:115-132 | a rule with no comparisons applies exactly to its own call |
| `Seccomp.MatchesSingle` | src/sandbox.rs:136-141 | a rule with one comparison applies exactly to its call when the comparison holds |
| `Seccomp.MatchingMembers` | src/sandbox.rs:111-143 | an action is matched exactly when some rule for the call applies and carries it |
| `Seccomp.ResolveUnmatched` | src/sandbox.rs:111 | a call no rule applies to gets the filter's default action |
| `Seccomp.ResolveAgreed` | src/sandbox.rs:111-202 | when the rules that apply agree, their common action is the decision |
| `Seccomp.ResolveConflict` | src/sandbox.rs:148-183 | when two applying rules disagree, the model gives no decision |
| `Seccomp.Filter.constructor` | src/sandbox.rs:111 | `Filter::new(&ACT_KILL)` has no rules and the given default action |
| `Seccomp.Filter.RuleAdd` | src/sandbox.rs:115 | `rule_add` appends exactly one rule and keeps the default action |
| `Policy.VfsFilter` | src/sandbox.rs:134-143 | `vfs_filter!(call)` appends the trace rule for argument 0 >= 4098, then the allow rule for argument 0 < 4098 |
| `Policy.AddLifecycle` | src/sandbox.rs:114-119 | appends the PTRACE kill, then EXECVE and CLONE allowed, in order |
| `Policy.AddPathTraps` | src/sandbox.rs:121-132 | appends unconditional trace rules for CHDIR, FCHDIR, OPEN, ACCESS, OPENAT, STAT, LSTAT, GETCWD, READLINK, in order |
| `Policy.AddFdSplits` | src/sandbox.rs:146-156 | applies `vfs_filter!` to READ, CLOSE, IOCTL, FSTAT, LSEEK, WRITE, GETDENTS, GETDENTS64, READV, WRITEV, in order |
| `Policy.AddAllowListA` | src/sandbox.rs:158-170 | appends the unconditional allow rules FSYNC … SCHED_YIELD, in order |
| `Policy.AddAllowListB` | src/sandbox.rs:171-182 | appends the unconditional allow rules GETPID … GETTID, in order |
| `Policy.AddAllowListC` | src/sandbox.rs:183-192 | appends the unconditional allow rules IOCTL … PRCTL, in order |
| `Policy.AddAllowListD` | src/sandbox.rs:193-202 | appends the unconditional allow rules SET_ROBUST_LIST … SET_THREAD_AREA, in order |
| `Policy.BuildFilter` | src/sandbox.rs:111-202 | the child's filter is a new default-kill filter holding exactly the table's rules, in source order |
| `Policy.LifecycleMembers` | src/sandbox.rs:114-119 | the first section adds exactly its three rules |
| `Policy.PathTrapsMembers` | src/sandbox.rs:121-132 | the path section adds exactly an unconditional trace rule for each path-taking call |
| `Policy.VfsFilterMembers` | src/sandbox.rs:134-143 | one macro use adds exactly its two rules |
| `Policy.FdSplitsMembers` | src/sandbox.rs:146-156 | the descriptor section adds exactly the two split rules of each of the ten descriptor calls |
| `Policy.FdCallsSection` | src/sandbox.rs:146-156 | the descriptor calls are exactly the calls the section map places in a descriptor section |
| `Policy.AllowListAMembers` | src/sandbox.rs:158-170 | the first allow run adds exactly one unconditional allow per call of that run |
| `Policy.AllowListBMembers` | src/sandbox.rs:171-182 | the second allow run adds exactly one unconditional allow per call of that run |
| `Policy.AllowListCMembers` | src/sandbox.rs:183-192 | the third allow run adds exactly one unconditional allow per call of that run |
| `Policy.AllowListDMembers` | src/sandbox.rs:193-202 | the fourth allow run adds exactly one unconditional allow per call of that run |
| `Policy.AllowRuns` | src/sandbox.rs:158-202 | the four runs together are exactly the calls the section map puts on the allow list |
| `Policy.AllowListMembers` | src/sandbox.rs:158-202 | the allow list adds exactly an unconditional allow for each call on it |
| `Policy.ListedCases` | src/sandbox.rs:111-202 | the description of the table, section by section |
| `Policy.PolicyMember` | src/sandbox.rs:111-202 | a rule is in the table exactly when the description lists it |
| `Policy.PolicyTabulates` | src/sandbox.rs:111-202 | the table holds exactly the listed rules |
| `Policy.FdSplitExclusive` | src/sandbox.rs:134-143 | for every first argument exactly one of the macro's two rules applies: the trace rule iff arg0 >= 4098, the allow rule iff arg0 < 4098 |
| `Policy.SectionDecides` | src/sandbox.rs:111-202 | a call whose applicable listed rules all carry one action gets that action |
| `Policy.PtraceKilled` | src/sandbox.rs:115 | PTRACE is killed, whatever its arguments |
| `Policy.LifecycleCallsAllowed` | src/sandbox.rs:117-119 | EXECVE and CLONE are allowed, whatever their arguments |
| `Policy.PathCallsTraced` | src/sandbox.rs:121-132 | the nine path-taking calls stop for the tracer, whatever their arguments |
| `Policy.FdCallsSplit` | src/sandbox.rs:134-156 | a descriptor call other than IOCTL traces when arg0 >= 4098 and is allowed when arg0 < 4098 |
| `Policy.IoctlBelowThresholdAllowed` | src/sandbox.rs:148-183 | IOCTL with arg0 < 4098 is allowed: both rules that apply allow |
| `Policy.IoctlAboveThresholdConflicts` | src/sandbox.rs:148-183 | IOCTL with arg0 >= 4098 gets no decision: its trace rule and its unconditional allow rule both apply |
| `Policy.AllowListAllowed` | src/sandbox.rs:158-202 | every allow-listed call other than IOCTL is allowed, whatever its arguments |
| `Policy.UnlistedKilled` | src/sandbox.rs:111 | a call that no rule names is killed by the default action |
| `Policy.TabulatedDecidesAsIntended` | src/sandbox.rs:111-202 | any list holding exactly the listed rules decides every call and argument as the section classification says |
| `Policy.PolicyDecidesAsIntended` | src/sandbox.rs:111-202 | the child's table decides every call and argument as the section classification says |
| `Policy.BuiltFilterDecides` | src/sandbox.rs:111-202 | the filter that the building code produces decides every call as the section classification says |
| `Bits.ClearBitsZeroAndTwo` | src/sandbox.rs:55 | `x & !5` keeps every bit of x except bits 0 and 2 |
| `Sandbox.EventNumberIsHighHalf` | src/sandbox.rs:55 | `((status >> 8) & !5) >> 8 == status >> 16` for every 32-bit status |
| `Sandbox.StopSubEvent` | src/sandbox.rs:55-58 | for every status and sub-event, `from_i64` of the extracted number gives that sub-event exactly when the status's upper half holds its number |
| `Sandbox.ArgvVectorShape` | src/sandbox.rs:105-109 | the argv array has one entry per argument, in order, then a null |
| `Sandbox.ArgvPointers` | src/sandbox.rs:105-109 | the pointer loop panics exactly when some argument holds a 0 byte; otherwise it pushes one entry per argument, in order, then a null |
| `Sandbox.WaitOutcome` | src/sandbox.rs:224-239 | `wait_on_child` returns `Ok` exactly when waitpid's pid > 0, carrying that pid and the status cast to 32 bits; otherwise it returns `Error(errno)` |
| `Sandbox.Classify` | src/sandbox.rs:53-76 | a stop by another signal forwards that signal. A SIGTRAP stop whose upper status half is SECCOMP routes, one whose upper half is EXIT exits, another known sub-event resumes, and an unknown one panics. Signaled or exited panics; anything else is idle |
| `Sandbox.LoadFilter` | src/sandbox.rs:111-204 | the filter loaded in the child is the default-kill filter holding the table's rules |
| `Sandbox.TickFailsExactly` | src/sandbox.rs:51-76 | a tick panics exactly on a wait error, an unknown sub-event, or a signaled or exited child; a wait error panics with its errno |
| `Sandbox.IdleTickDoesNothing` | src/sandbox.rs:53-76 | a status that is none of stopped, signaled or exited makes the tick do nothing after its wait |
| `Sandbox.ForwardedStopResumes` | src/sandbox.rs:53-69 | a stop by any signal but 5 resumes `self.pid` with exactly that signal, and running is unchanged |
| `Sandbox.SeccompStopRoutesThroughVfs` | src/sandbox.rs:91-97 | a seccomp stop reads the call, hands it to the VFS, gets the same record back, then issues `cont(pid, 0)`; running is unchanged |
| `Sandbox.OtherEventResumes` | src/sandbox.rs:65 | any other known sub-event issues `cont(pid, 0)` and leaves running unchanged |
| `Sandbox.ExitStopReleases` | src/sandbox.rs:79-89 | the exit stop emits `Exited`, releases with signal 0, emits `Released`, and only then clears running |
| `Sandbox.StepEvents` | src/sandbox.rs:62-89 | the exit stop emits exactly `Exited` then `Released`, and no other step emits an event |
| `Sandbox.StepKeepsRunning` | src/sandbox.rs:79-89 | after a tick, running still says whether the log shows a forked child not yet released |
| `Sandbox.OnlyExitClearsRunning` | src/sandbox.rs:88 | the exit stop is the only step that takes running from true to false |
| `Sandbox.RunningAfterNeutral` | src/sandbox.rs:32-88 | calls other than fork and release leave "forked and not yet released" as it was |
| `Sandbox.Sandbox.constructor` | src/sandbox.rs:215-222 | a new sandbox has pid -1, is not running, has an empty VFS and has made no calls |
| `Sandbox.Sandbox.Notify` | src/sandbox.rs:26-29 | the callback is shown the event and the sandbox's current pid and running flag |
| `Sandbox.Sandbox.WaitOnChild` | src/sandbox.rs:224-239 | one waitpid on `self.pid`, and the result of `WaitOutcome` |
| `Sandbox.Sandbox.TraceChild` | src/sandbox.rs:40-48 | attach, one wait, then (if the wait succeeded) set the five options and `cont(pid, 0)`, in order; a failed wait panics |
| `Sandbox.Sandbox.ExecChild` | src/sandbox.rs:99-213 | `traceme`, raise SIGSTOP, then load the default-kill policy and exec `argv[0]` with the argv array. After the stop and before any filter, an empty argv panics (`EmptyArgv`), and so does an argument holding a 0 byte (`NulInArgument`) |
| `Sandbox.Sandbox.Spawn` | src/sandbox.rs:31-38 | sets running and pid, forks, takes the child path exactly when fork returned 0 and traces the child otherwise, with `exec_child`'s or `trace_child`'s calls and outcome; running then matches the log |
| `Sandbox.Sandbox.ReleaseChild` | src/sandbox.rs:85-89 | releases `self.pid` with the signal, emits `Released` while still running, then clears running |
| `Sandbox.Sandbox.HandleExit` | src/sandbox.rs:79-83 | emits `Exited`, then releases with signal 0 |
| `Sandbox.Sandbox.HandleSeccomp` | src/sandbox.rs:91-97 | reads the registers and the call, hands the record to the VFS, resumes with no signal; the VFS is unchanged |
| `Sandbox.Sandbox.HandleStatus` | src/sandbox.rs:53-76 | carries out the step `Classify` chooses, with its calls in source order |
| `Sandbox.Sandbox.Tick` | src/sandbox.rs:50-77 | one waitpid on `self.pid`, then the calls, running flag and outcome of the chosen step; pid and VFS unchanged, and running keeps matching the log |
| `Sandbox.TickEvents` | src/sandbox.rs:50-89 | across ticks, the events delivered grow only by an exit stop's `Exited`, `Released` |
| `Sandbox.RunWhileRunning` | src/bin/test.rs:3-9 | looping `tick` while running keeps pid and VFS, delivers no event while the child runs; a loop that ends by releasing the child has delivered exactly `Exited`, `Released` |

## Left out

- `println!` logging, and the unused register snapshots at `src/sandbox.rs:60` and `:92`. The register reads are logged as calls; their contents are not modelled.
- The `CString` temporaries whose pointers outlive them (`src/sandbox.rs:107`). An argv entry is modelled as the argument's string; the panic on a 0 byte is modelled.
- What execvp does, and the panic that follows a failed execvp (`src/sandbox.rs:208-212`). The model stops at the exec call.
- The process-level effects of fork, waitpid, ptrace, raise, the seccomp load and execvp. These are foreign calls; the model logs them and takes their results as parameters.
- The concurrency between tracer and child. One `tick` is one transition, on a given wait result.
- `is_stopped`, `stop_signal`, `is_signaled`, `is_exited` and `term_signal`. The modelled sources do not define them, so `Sandbox.StatusDecoder` leaves them uninterpreted.
- `ptrace::attach`, `setoptions`, the option flags, `getregs`, `release` and `Syscall::from_pid`. The modelled sources do not define them; they appear only as logged calls. The option set is modelled as a set of names, not as a bit mask.
- The sub-events `Event::Seccomp` and `Event::Exit`. The `ptrace::Event` in `src/ptrace.rs:24-28` has only `Foo` and `Bar`, so the model uses the Linux `PTRACE_EVENT_*` numbers instead. `PTRACE_EVENT_STOP` (128) is not among them, so it panics as unknown.
- Seccomp.ResolveConflict: libseccomp's handling of IOCTL's conflicting rules (`src/sandbox.rs:148` and `:183`) is not modelled. At or above the threshold the model gives no decision for IOCTL, so `Policy.Intended` leaves that case undecided.
- The return values of `rule_add` and `load`. The code ignores them, and the model has no failure path for them.
- The `sandbox` field of `VFS` and the argument of `VFS::new` (`src/vfs.rs:14`, `:30`). `src/sandbox.rs:219` calls `VFS::new()` with none, and that call is what the model follows.
- The type of `WaitResult.status`. It is declared `int` (`src/posix.rs:21`) but built as `u32` (`src/sandbox.rs:234`). The model uses a 32-bit unsigned status.
- The event callback's own code: it belongs to the host. The model records each delivery instead.
- `src/lib.rs`, `src/node-module.cpp` and `tests/intercepts.rs`: C-ABI and Node bindings, and a test against an API that the modelled sources do not have. None of these is part of this model.
- Every `PosixResult` is exactly one of `Ok` and `Error`. The datatype ensures this by construction, so no lemma states it.
