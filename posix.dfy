/**
 * The POSIX result wrappers of the tracer: a system call either yields a value
 * or an errno, and `expect` unwraps the value or panics with the errno's text.
 */
module Posix {

  /** A C `int`, the type waitpid writes the raw status into. */
  type CInt = x: int | -0x8000_0000 <= x < 0x8000_0000

  /** A Rust `u32`, the type the sandbox stores the raw status as. */
  type U32 = x: int | 0 <= x < 0x1_0000_0000

  /** The result of a POSIX call: its value, or the errno it failed with. */
  datatype PosixResult<T> = Ok(value: T) | Error(errno: nat)

  /** A successful waitpid: which child changed state, and its raw 32-bit status. */
  datatype WaitResult = WaitResult(pid: int, status: U32)

  /**
   * What `expect` does: it returns the wrapped value, or it panics. Rust builds
   * the panic text from the errno alone (`os::error_string(errno)`), so the
   * panic is identified here by that errno.
   */
  datatype Expected<T> = Returned(value: T) | Panicked(errno: nat)

  /** `PosixResult::expect`: unwrap an `Ok`, panic on an `Error`; `msg` is not used. */
  function Expect<T>(r: PosixResult<T>, msg: string): (e: Expected<T>)
    ensures e.Returned? <==> r.Ok?
    ensures r.Ok? ==> e.value == r.value
    ensures r.Error? ==> e.errno == r.errno
  {
    match r
    case Ok(v) => Returned(v)
    case Error(errno) => Panicked(errno)
  }

  /** The message passed to `expect` influences neither the value nor the panic. */
  lemma ExpectIgnoresMessage<T>(r: PosixResult<T>, m1: string, m2: string)
    ensures Expect(r, m1) == Expect(r, m2)
  {
  }

  /** `st as u32`: the two's-complement reinterpretation of a C int as 32 bits. */
  function AsU32(x: CInt): (b: U32)
    ensures x >= 0 ==> b == x
    ensures x < 0 ==> b >= 0x8000_0000
  {
    if x >= 0 then x else x + 0x1_0000_0000
  }

  /** The inverse reinterpretation, from 32 bits back to a C int. */
  function AsCInt(b: U32): CInt
  {
    if b < 0x8000_0000 then b else b - 0x1_0000_0000
  }

  /** The cast loses nothing: every C int status is recovered from its 32 bits ... */
  lemma AsU32RoundTrip(x: CInt)
    ensures AsCInt(AsU32(x)) == x
  {
  }

  /** ... and every 32-bit pattern is the cast of exactly one C int. */
  lemma AsU32Onto(b: U32)
    ensures AsU32(AsCInt(b)) == b
  {
  }
}
