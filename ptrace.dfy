/**
 * The tracer control layer: the `PTRACE_*` requests, how `cont` and `traceme`
 * place their arguments, the lifecycle sub-events a trace stop can report, and
 * the syscall record read out of a stopped child.
 */
module Ptrace {
  import opened Wrappers
  import Seccomp

  /** The `PTRACE_*` requests, with their Linux numbers given by `Code`. */
  datatype Request =
    | TraceMe | PeekText | PeekData | PeekUser | PokeText | PokeData | PokeUser
    | Continue | Kill | SingleStep | GetRegs

  /** The discriminant of each request, the integer handed to the kernel. */
  function Code(r: Request): (n: nat)
    ensures n <= 12 && n != 10 && n != 11
  {
    match r
    case TraceMe => 0
    case PeekText => 1
    case PeekData => 2
    case PeekUser => 3
    case PokeText => 4
    case PokeData => 5
    case PokeUser => 6
    case Continue => 7
    case Kill => 8
    case SingleStep => 9
    case GetRegs => 12
  }

  /** The request a number stands for, if any. */
  function FromCode(n: int): (r: Option<Request>)
    ensures r.Some? ==> Code(r.value) == n
  {
    if n == 0 then Some(TraceMe)
    else if n == 1 then Some(PeekText)
    else if n == 2 then Some(PeekData)
    else if n == 3 then Some(PeekUser)
    else if n == 4 then Some(PokeText)
    else if n == 5 then Some(PokeData)
    else if n == 6 then Some(PokeUser)
    else if n == 7 then Some(Continue)
    else if n == 8 then Some(Kill)
    else if n == 9 then Some(SingleStep)
    else if n == 12 then Some(GetRegs)
    else None
  }

  /** Every request is recovered from its discriminant, so the discriminants are pairwise distinct. */
  lemma CodeRoundTrip(r: Request)
    ensures FromCode(Code(r)) == Some(r)
  {
  }

  lemma CodesDistinct(a: Request, b: Request)
    ensures Code(a) == Code(b) <==> a == b
  {
    CodeRoundTrip(a);
    CodeRoundTrip(b);
  }

  /** The null pointer, as an address. */
  const Null: int := 0

  /** One call of the foreign `ptrace(request, pid, addr, data)`. */
  datatype RawCall = RawCall(request: int, pid: int, addr: int, data: int)

  /** `raw`: hands the request's integer code and the other three arguments through unchanged. */
  function Raw(request: Request, pid: int, addr: int, data: int): (c: RawCall)
    ensures FromCode(c.request) == Some(request)
    ensures c.pid == pid && c.addr == addr && c.data == data
  {
    RawCall(Code(request), pid, addr, data)
  }

  /** `cont(pid, signal)`: PTRACE_CONT on `pid`, no address, the signal in the data slot. */
  function Cont(pid: int, signal: int): (c: RawCall)
    ensures FromCode(c.request) == Some(Continue)
    ensures c.pid == pid && c.addr == Null && c.data == signal
  {
    Raw(Continue, pid, Null, signal)
  }

  /** `traceme()`: PTRACE_TRACEME with pid 0 and null address and data. */
  function TraceMeCall(): (c: RawCall)
    ensures FromCode(c.request) == Some(TraceMe)
    ensures c.pid == 0 && c.addr == Null && c.data == Null
  {
    Raw(TraceMe, 0, Null, Null)
  }

  /** The trace options the sandbox sets on its child. */
  datatype TraceOption = TraceExit | ExitKill | TraceSeccomp | TraceExec | TraceClone

  /** The lifecycle sub-events a SIGTRAP stop reports in bits 16 and up of its status. */
  datatype SubEvent = Fork | VFork | CloneEvent | Exec | VForkDone | ExitEvent | SeccompEvent

  /** The `PTRACE_EVENT_*` number of each sub-event, as Linux assigns them. */
  function SubEventNumber(e: SubEvent): (n: int)
    ensures 1 <= n <= 7
  {
    match e
    case Fork => 1
    case VFork => 2
    case CloneEvent => 3
    case Exec => 4
    case VForkDone => 5
    case ExitEvent => 6
    case SeccompEvent => 7
  }

  /** `FromPrimitive::from_i64`: the sub-event a number stands for; unknown numbers fail. */
  function SubEventFromNumber(n: int): (e: Option<SubEvent>)
    ensures e.Some? <==> 1 <= n <= 7
    ensures e.Some? ==> SubEventNumber(e.value) == n
  {
    if n == 1 then Some(Fork)
    else if n == 2 then Some(VFork)
    else if n == 3 then Some(CloneEvent)
    else if n == 4 then Some(Exec)
    else if n == 5 then Some(VForkDone)
    else if n == 6 then Some(ExitEvent)
    else if n == 7 then Some(SeccompEvent)
    else None
  }

  lemma SubEventRoundTrip(e: SubEvent)
    ensures SubEventFromNumber(SubEventNumber(e)) == Some(e)
  {
  }

  /**
   * `ptrace::Syscall`: the call a stopped child is making, read from its
   * registers: which call, its six arguments, the pid, and the return value
   * (zero at a seccomp stop, before the call has run).
   */
  datatype SyscallRecord = SyscallRecord(call: Seccomp.SyscallId, args: Seccomp.Args, pid: int, ret: int)
}
