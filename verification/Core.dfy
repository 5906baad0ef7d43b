/** Vocabulary shared by every component: options, bytes, the enumerations of the
    buffer and execution-context headers, and the io_uring opcodes the reader switches on. */
module Core {

  datatype Option<+T> = None | Some(value: T)

  newtype Byte = b: int | 0 <= b < 256

  datatype BufferMode = Normal | Fixed | Provided | BufRing

  datatype PayloadOrigin = UserBuffers | RuntimeBuffers

  datatype PayloadType = Linear | Iovec | LinearAndIovec

  datatype StreamStrategy = Oneshot | Multishot

  datatype TransferMode = NormalTransfer | ZeroCopy

  datatype Opcode =
    | OpNop | OpRead | OpReadv | OpWrite | OpWritev | OpFsync | OpSplice
    | OpOpenat2 | OpClose | OpTimeout
    | OpSocket | OpBind | OpConnect | OpListen | OpAccept
    | OpSend | OpSendmsg | OpRecv | OpRecvmsg

  /** The two ways the C code can stop instead of returning: a call of abort(), and a
      memory access the language leaves undefined (null, out of bounds, uninitialised). */
  datatype Crash = Abort | BadAccess

  datatype Outcome<+T> = Fine(value: T) | Crashed(why: Crash) {
    predicate IsFailure() { Crashed? }

    function PropagateFailure<U>(): Outcome<U>
      requires Crashed?
    {
      Crashed(why)
    }

    function Extract(): T
      requires Fine?
    {
      value
    }
  }
}
