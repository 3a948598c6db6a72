/**
 * The virtual-filesystem interception layer: every trapped system call is
 * handed to `handle_syscall`, which dispatches on the call's id. Only OPEN has
 * a handler, and that handler only observes the attempt.
 */
module Vfs {
  import Seccomp
  import opened Ptrace

  /** A mount entry; it carries no policy yet. */
  datatype Filesystem = Filesystem(foo: int)

  /** The VFS and its mount points. */
  datatype VFS = VFS(mountpoints: seq<Filesystem>)

  /** `VFS::new`: no mount points. */
  function NewVfs(): (v: VFS)
    ensures v.mountpoints == []
  {
    VFS([])
  }

  /** The arm of `handle_syscall`'s match that a call id selects. */
  datatype Handler = OpenHandler | NoHandler

  function HandlerFor(id: Seccomp.SyscallId): (h: Handler)
    ensures h == OpenHandler <==> id == Seccomp.Open
  {
    match id
    case Open => OpenHandler
    case _ => NoHandler
  }

  /** What a handler noticed: `do_open` records that an open was attempted. */
  datatype Observation = OpenAttempted(call: SyscallRecord)

  /** `do_open`: observes the attempt and decides nothing. */
  function DoOpen(v: VFS, call: SyscallRecord): (obs: seq<Observation>)
    ensures |obs| == 1 && obs[0].call == call
  {
    [OpenAttempted(call)]
  }

  /** The record `handle_syscall` hands back, with what its handler observed on the way. */
  datatype Handled = Handled(call: SyscallRecord, observed: seq<Observation>)

  /**
   * `handle_syscall`: total, never fails, returns the record it was given, and
   * reaches `do_open` exactly for OPEN.
   */
  function HandleSyscall(v: VFS, call: SyscallRecord): (h: Handled)
    ensures h.call == call
    ensures h.observed != [] <==> call.call == Seccomp.Open
    ensures forall o :: o in h.observed ==> o.call == call
  {
    match HandlerFor(call.call)
    case OpenHandler => Handled(call, DoOpen(v, call))
    case NoHandler => Handled(call, [])
  }

  /** Handling a call is independent of the mount points, which stay as they are. */
  lemma HandleIgnoresMounts(v1: VFS, v2: VFS, call: SyscallRecord)
    ensures HandleSyscall(v1, call) == HandleSyscall(v2, call)
  {
  }
}
