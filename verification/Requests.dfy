/** The public file, socket and timer calls: how each builds its request, registers it, and
    rolls back when it cannot be submitted. */
module Requests {
  import opened Core
  import opened FreeLists
  import opened Vectored
  import opened Runtime

  /** The optional buffer argument of a receive: a sequence whose item 0 may refuse to be viewed. */
  datatype BufferArg = NoBuffer | Viewable(bytes: seq<Byte>) | Unviewable

  datatype Call =
    | Open | CloseFile(file: nat)
    | Read(file: nat, size: int)
    | Readv(file: nat, buffers: Option<Iovecs>) | ReadvRaw(file: nat, iov: Iovecs)
    | Write(file: nat, data: seq<Byte>)
    | Writev(file: nat, iov: Iovecs) | WritevRaw(file: nat, iov: Iovecs)
    | Fsync(file: nat) | Fdatasync(file: nat) | Splice(file: nat)
    | PrepSocket | CloseSocket(socket: nat)
    | Bind(socket: nat) | Connect(socket: nat) | Listen(socket: nat) | Accept(socket: nat)
    | Send(socket: nat, data: seq<Byte>) | Sendto(socket: nat)
    | Sendmsg(socket: nat, iov: Iovecs)
    | Recv(socket: nat, size: int, buffer: BufferArg)
    | Recvfrom(socket: nat, size: int, buffer: BufferArg)
    | Recvmsg(socket: nat, buffers: Option<Iovecs>)
    | Timer

  /** What a call reads from the execution context. */
  datatype Context = Context(stream: StreamStrategy, transfer: TransferMode, payload: Option<nat>)

  predicate OnSocket(call: Call) {
    call.CloseSocket? || call.Bind? || call.Connect? || call.Listen? || call.Accept? || call.Send? ||
    call.Sendto? || call.Sendmsg? || call.Recv? || call.Recvfrom? || call.Recvmsg?
  }

  /** The file or socket the method was called on. */
  function Receiver(call: Call): Option<nat> {
    if call.Open? || call.PrepSocket? || call.Timer? then None
    else if OnSocket(call) then Some(call.socket)
    else Some(call.file)
  }

  function OpcodeOf(call: Call): Opcode {
    match call
    case Open => OpOpenat2
    case CloseFile(_) | CloseSocket(_) => OpClose
    case Read(_, _) => OpRead
    case Readv(_, _) | ReadvRaw(_, _) => OpReadv
    case Write(_, _) => OpWrite
    case Writev(_, _) | WritevRaw(_, _) => OpWritev
    case Fsync(_) | Fdatasync(_) => OpFsync
    case Splice(_) => OpSplice
    case PrepSocket => OpSocket
    case Bind(_) => OpBind
    case Connect(_) => OpConnect
    case Listen(_) => OpListen
    case Accept(_) => OpAccept
    case Send(_, _) => OpSend
    case Sendto(_) | Sendmsg(_, _) => OpSendmsg
    case Recv(_, _, _) => OpRecv
    case Recvfrom(_, _, _) | Recvmsg(_, _) => OpRecvmsg
    case Timer => OpTimeout
  }

  function Zeros(n: nat): seq<Byte> { seq(n, _ => 0) }

  const NO_INDICES := FreeList([], -1)

  function LinearPayload(bytes: seq<Byte>): Payload {
    Payload(Linear, Normal, Buffer(bytes), None, NO_INDICES, 0)
  }

  function VectorPayload(iov: Iovecs): Payload {
    Payload(Iovec, Normal, NoLinear, Some(iov), NO_INDICES, 0)
  }

  /** Where a request's buffers come from: none, freshly built, or the context's own. */
  datatype Source = NoBuffers | Private(payload: Payload) | Borrowed(id: nat)

  /** A payload whose linear pointer was never set, because its constructor failed unnoticed. */
  const UNSET_PAYLOAD := Payload(Linear, Normal, NoLinear, None, NO_INDICES, 0)

  /** get_or_create_linear_buffer: it ignores a buffer that cannot be viewed, and an allocation of
      a negative size, which always fails. */
  function LinearSource(h: Heap, ctx: Context, buffer: BufferArg, size: int): Source {
    match buffer
    case Viewable(bytes) => Private(LinearPayload(bytes))
    case Unviewable => Private(UNSET_PAYLOAD)
    case NoBuffer =>
      if LendsLinear(h, ctx) then Borrowed(ctx.payload.value)
      else if size < 0 then Private(UNSET_PAYLOAD)
      else Private(LinearPayload(Zeros(size)))
  }

  predicate LendsLinear(h: Heap, ctx: Context) {
    && ctx.payload.Some? && ctx.payload.value < |h.payloads|
    && h.payloads[ctx.payload.value].kind.Linear? && !h.payloads[ctx.payload.value].linear.NoLinear?
  }

  /** get_or_create_vectored_buffer. */
  function VectorSource(h: Heap, ctx: Context, buffers: Option<Iovecs>): Source {
    if buffers.Some? then Private(VectorPayload(buffers.value))
    else if ctx.payload.Some? && ctx.payload.value < |h.payloads|
            && h.payloads[ctx.payload.value].kind.Iovec? && h.payloads[ctx.payload.value].vector.Some?
    then Borrowed(ctx.payload.value)
    else Private(VectorPayload([Zeros(1024)]))
  }

  /** readv takes the context's payload as it is when the kernel selects the buffers. */
  function ReadvSource(h: Heap, ctx: Context, buffers: Option<Iovecs>): Source {
    if ctx.payload.Some? && ctx.payload.value < |h.payloads|
       && (h.payloads[ctx.payload.value].mode.Provided? || h.payloads[ctx.payload.value].mode.BufRing?)
    then Borrowed(ctx.payload.value)
    else VectorSource(h, ctx, buffers)
  }

  function SourceOf(h: Heap, ctx: Context, call: Call): Source {
    match call
    case Read(_, size) => LinearSource(h, ctx, NoBuffer, size)
    case Recv(_, size, buffer) => LinearSource(h, ctx, buffer, size)
    case Recvfrom(_, size, buffer) => LinearSource(h, ctx, buffer, size)
    case Readv(_, buffers) => ReadvSource(h, ctx, buffers)
    case Recvmsg(_, buffers) => VectorSource(h, ctx, buffers)
    case Write(_, data) => Private(LinearPayload(data))
    case Send(_, data) => Private(LinearPayload(data))
    case ReadvRaw(_, iov) => Private(VectorPayload(iov))
    case Writev(_, iov) => Private(VectorPayload(iov))
    case WritevRaw(_, iov) => Private(VectorPayload(iov))
    case Sendmsg(_, iov) => Private(VectorPayload(iov))
    case _ => NoBuffers
  }

  predicate Creates(call: Call) { call.Open? || call.PrepSocket? }

  /** The object an open or socket call creates, with the reference the call holds on it. */
  function Created(call: Call, h: Heap): multiset<Obj> {
    if Creates(call) then multiset{Thing(h.things)} else multiset{}
  }

  /** The references call number f holds while it runs: on what it creates, and on its future. */
  function Own(call: Call, h: Heap, f: nat): multiset<Obj> { Created(call, h) + multiset{Fut(f)} }

  /** Everything a call prepares before it asks the registry for an index: the payload, the
      new file or socket, and the future. */
  function Prepare(h: Heap, ctx: Context, call: Call): (Heap, Request) {
    var src := SourceOf(h, ctx, call);
    var payload := match src
      case NoBuffers => None
      case Private(_) => Some(|h.payloads|)
      case Borrowed(p) => Some(p);
    var stream := if call.Read? || call.Accept? || call.Recv? || call.Recvmsg? then ctx.stream else Oneshot;
    var target := if Creates(call) then Some(h.things) else Receiver(call);
    var socket := call.PrepSocket? || OnSocket(call);
    (h.(payloads := if src.Private? then h.payloads + [src.payload] else h.payloads,
        things := if Creates(call) then h.things + 1 else h.things,
        futures := h.futures + [Pending],
        refs := h.refs + Created(call, h) + multiset{Fut(|h.futures|)}),
     Request(OpcodeOf(call), stream, payload,
             if socket then None else target, if socket then target else None))
  }

  /** read_dispatcher in FIXED mode: take a buffer index and note it in the shared payload. */
  function TakeIndex(h: Heap, req: Request): Heap {
    if req.op.OpRead? && req.payload.Some? && req.payload.value < |h.payloads|
       && h.payloads[req.payload.value].mode.Fixed?
    then
      var b := h.payloads[req.payload.value];
      if 0 <= b.idx.top < |b.idx.cells|
      then h.(payloads := h.payloads[req.payload.value := b.(idx := b.idx.Pop(), bufIdx := b.idx.cells[b.idx.top])])
      else h.(payloads := h.payloads[req.payload.value := b.(bufIdx := -1)])
    else h
  }

  datatype Answer = Full | Refused | Accepted(index: int)

  datatype Submission = Submission(sys: System, future: nat, req: Request, answer: Answer)

  /** Register a prepared request and hand it to the ring. `own` are the references the call
      itself holds on what it created; `taken` says whether the ring has an entry left. */
  function Register(r: Registry, h: Heap, f: nat, req: Request, own: multiset<Obj>, taken: bool): Outcome<Submission>
    requires r.Wf()
  {
    var (s1, index) := Add(System(r, h), f, req);
    if index < 0 then
      var h1 := DecrefAll(s1.heap, own);
      Fine(Submission(System(r, if req.payload.Some? then FreePayload(h1, req.payload.value, false) else h1),
                      f, req, Full))
    else
      var h2 := TakeIndex(s1.heap, req);
      if taken then Fine(Submission(System(s1.reg, h2), f, req, Accepted(index)))
      else
        var s2 :- Remove(System(s1.reg, DecrefAll(h2, own)), index);
        Fine(Submission(s2, f, req, Refused))
  }

  /** sendmsg_dispatcher in ZERO_COPY mode asks the payload's index registry for a buffer index.
      The payload is always one the call has just built, whose registry pointer is null. */
  predicate AsksNoRegistry(ctx: Context, call: Call) { call.Sendmsg? && ctx.transfer.ZeroCopy? }

  /** The call has built a payload with an unset pointer. Whether its dispatcher then follows it, or
      free_buffer_payload does because the registry is full, the access is undefined. */
  predicate UnsetBuffer(h: Heap, ctx: Context, call: Call) { SourceOf(h, ctx, call) == Private(UNSET_PAYLOAD) }

  /** The calls that get as far as the ring. */
  predicate Dispatchable(h: Heap, ctx: Context, call: Call) {
    !AsksNoRegistry(ctx, call) && !UnsetBuffer(h, ctx, call)
  }

  /** Which calls those are not: a receive with a buffer that cannot be viewed, and a read or
      receive of a negative size without a buffer of its own or its context's. */
  lemma UnsetBufferIff(h: Heap, ctx: Context, call: Call)
    ensures UnsetBuffer(h, ctx, call) <==>
              || ((call.Recv? || call.Recvfrom?) && call.buffer.Unviewable?)
              || ((call.Read? || ((call.Recv? || call.Recvfrom?) && call.buffer.NoBuffer?))
                  && call.size < 0 && !LendsLinear(h, ctx))
  {
  }

  /** One public call from start to return. */
  function Submit(s: System, ctx: Context, call: Call, taken: bool): Outcome<Submission>
    requires s.reg.Wf()
  {
    var (h, req) := Prepare(s.heap, ctx, call);
    var f := |s.heap.futures|;
    if UnsetBuffer(s.heap, ctx, call) || (s.reg.free.top >= 0 && AsksNoRegistry(ctx, call)) then Crashed(BadAccess)
    else Register(s.reg, h, f, req, Own(call, s.heap, f), taken)
  }

  // -------------------------------------------------------------------- what is built

  /** A payload that belongs to an execution context: never NORMAL with a single form. */
  predicate ContextOwned(b: Payload) {
    b.mode != Normal || b.kind.LinearAndIovec?
  }

  /** The payloads that buffer_mode and execution_context install: NORMAL keeps the dual form,
      FIXED has lost its vector on entry, the two selected modes are linear from the start. */
  predicate ContextPayload(b: Payload) {
    if b.mode.Normal? then b.kind.LinearAndIovec?
    else b.kind.Linear? && b.linear.Buffer? && b.vector.None?
  }

  /** What the reader may rely on when it finds such a request in a slot. */
  predicate WellFormed(h: Heap, req: Request) {
    && (req.payload.Some? ==> req.payload.value < |h.payloads| && !h.payloads[req.payload.value].kind.LinearAndIovec?)
    && (match req.op
        case OpRead => req.payload.Some? && h.payloads[req.payload.value].linear.Buffer?
        case OpReadv =>
          && req.payload.Some?
          && (var b := h.payloads[req.payload.value];
              b.vector.Some? || b.mode.Provided? || b.mode.BufRing?)
        case OpWrite => req.payload.Some? && !ContextOwned(h.payloads[req.payload.value])
        case OpWritev => req.payload.Some? && !ContextOwned(h.payloads[req.payload.value])
        case OpSend => req.payload.Some? && !ContextOwned(h.payloads[req.payload.value])
        case OpSendmsg => req.payload.Some? ==> !ContextOwned(h.payloads[req.payload.value])
        case OpRecv => req.payload.Some? && h.payloads[req.payload.value].linear.Buffer?
        case OpRecvmsg =>
          && req.payload.Some?
          && (var b := h.payloads[req.payload.value];
              if b.kind.Linear? then b.linear.Buffer? && req.stream.Oneshot?
              else b.kind.Iovec? && b.vector.Some? && b.linear.NoLinear?)
        case _ => req.payload.None?)
    && (match req.op
        case OpOpenat2 => req.file.Some? && req.socket.None?
        case OpSocket | OpBind | OpConnect | OpListen | OpAccept | OpRecv => req.socket.Some? && req.file.None?
        case OpClose => req.file.Some? != req.socket.Some?
        case OpTimeout => req.file.None? && req.socket.None?
        case _ => req.file.None? || req.socket.None?)
    && !req.op.OpNop?
  }

  /** Payloads of the pool are either built by a request or installed by a context. */
  ghost predicate PoolOk(h: Heap) {
    forall p | 0 <= p < |h.payloads| ::
      if ContextOwned(h.payloads[p]) then ContextPayload(h.payloads[p])
      else if h.payloads[p].kind.Linear? then h.payloads[p].linear.Buffer? && h.payloads[p].vector.None?
      else h.payloads[p].linear.NoLinear? && h.payloads[p].vector.Some?
  }

  ghost predicate ContextOk(h: Heap, ctx: Context) {
    ctx.payload.Some? ==> ctx.payload.value < |h.payloads| && ContextOwned(h.payloads[ctx.payload.value])
  }

  ghost function IfPrivate(h: Heap, ctx: Context, call: Call): multiset<nat> {
    if SourceOf(h, ctx, call).Private? then multiset{|h.payloads|} else multiset{}
  }

  /** Every request a public call builds is well formed, unless its buffer was never set, and it
      borrows the context's payload only when that payload's mode is not NORMAL; the call adds at
      most its own payload. */
  lemma CallsBuildWellFormed(h: Heap, ctx: Context, call: Call)
    requires PoolOk(h) && ContextOk(h, ctx)
    ensures var (h', req) := Prepare(h, ctx, call);
            && (PoolOk(h') && WellFormed(h', req) <==> !UnsetBuffer(h, ctx, call))
            && h.payloads <= h'.payloads && |h'.payloads| == |h.payloads| + |IfPrivate(h, ctx, call)|
            && (if SourceOf(h, ctx, call).Private?
                then req.payload == Some(|h.payloads|) && !ContextOwned(h'.payloads[|h.payloads|])
                else req.payload.Some? ==>
                       && req.payload.value < |h.payloads| && ContextOwned(h.payloads[req.payload.value])
                       && h.payloads[req.payload.value].mode != Normal)
  {
    CallsChooseBuffers(h, ctx, call);
    if UnsetBuffer(h, ctx, call) {
      UnsetIsMalformed(h, ctx, call);
    } else {
      SetIsWellFormed(h, ctx, call);
    }
  }

  lemma SetIsWellFormed(h: Heap, ctx: Context, call: Call)
    requires PoolOk(h) && ContextOk(h, ctx) && !UnsetBuffer(h, ctx, call)
    ensures PoolOk(Prepare(h, ctx, call).0) && WellFormed(Prepare(h, ctx, call).0, Prepare(h, ctx, call).1)
  {
    CallsChooseBuffers(h, ctx, call);
    var (h', req) := Prepare(h, ctx, call);
    var src := SourceOf(h, ctx, call);
    assert h'.payloads == if src.Private? then h.payloads + [src.payload] else h.payloads;
  }

  lemma UnsetIsMalformed(h: Heap, ctx: Context, call: Call)
    requires UnsetBuffer(h, ctx, call)
    ensures var (h', req) := Prepare(h, ctx, call);
            !WellFormed(h', req) && !PoolOk(h')
  {
    UnsetBufferIff(h, ctx, call);
    var (h', req) := Prepare(h, ctx, call);
    assert h'.payloads[|h.payloads|] == UNSET_PAYLOAD;
  }

  /** What a call may take for its buffers: a single form of its own, or the linear form of a
      context whose mode is not NORMAL; the opcode says which. */
  lemma CallsChooseBuffers(h: Heap, ctx: Context, call: Call)
    requires PoolOk(h) && ContextOk(h, ctx)
    ensures match SourceOf(h, ctx, call)
            case NoBuffers => !call.Read? && !call.Readv? && !call.Recv? && !call.Recvfrom? && !call.Recvmsg?
            case Private(b) =>
              && b.mode.Normal? && (b.kind.Linear? || b.kind.Iovec?)
              && (b.kind.Linear? ==> (b.linear.Buffer? || b == UNSET_PAYLOAD) && b.vector.None?)
              && (b.kind.Iovec? ==> b.linear.NoLinear? && b.vector.Some?)
              && (call.Read? || call.Recv? || call.Recvfrom? ==> b.kind.Linear?)
              && (call.Readv? || call.Recvmsg? ==> b.kind.Iovec?)
            case Borrowed(p) =>
              && p < |h.payloads| && h.payloads[p].mode != Normal && ContextPayload(h.payloads[p])
              && (call.Read? || call.Recv? || call.Recvfrom? || call.Readv?)
              && (call.Readv? ==> h.payloads[p].mode.Provided? || h.payloads[p].mode.BufRing?)
  {
  }
}
