/** What each public call asks for and what its caller gets, call by call: the opcode and objects it
    registers, the buffers it brings, and what its future shows in the end. */
module Calls {
  import opened Core
  import opened FreeLists
  import opened Vectored
  import opened Runtime
  import opened Reader
  import opened Requests
  import opened Protocol
  import opened Invariant
  import opened Guarantees
  import opened Pool
  import opened Sessions
  import opened History

  // -------------------------------------------------------------------------- registration

  predicate On(req: Request, op: Opcode, stream: StreamStrategy, file: Option<nat>, socket: Option<nat>) {
    req.op == op && req.stream == stream && req.file == file && req.socket == socket
  }

  /** The request of a call; `stream` is the context's strategy, `thing` what the call creates. */
  predicate Registers(call: Call, stream: StreamStrategy, thing: nat, req: Request) {
    match call
    case Open => On(req, OpOpenat2, Oneshot, Some(thing), None)
    case CloseFile(file) => On(req, OpClose, Oneshot, Some(file), None)
    case Read(file, _) => On(req, OpRead, stream, Some(file), None)
    case Readv(file, _) => On(req, OpReadv, Oneshot, Some(file), None)
    case ReadvRaw(file, _) => On(req, OpReadv, Oneshot, Some(file), None)
    case Write(file, _) => On(req, OpWrite, Oneshot, Some(file), None)
    case Writev(file, _) => On(req, OpWritev, Oneshot, Some(file), None)
    case WritevRaw(file, _) => On(req, OpWritev, Oneshot, Some(file), None)
    case Fsync(file) => On(req, OpFsync, Oneshot, Some(file), None)
    case Fdatasync(file) => On(req, OpFsync, Oneshot, Some(file), None)
    case Splice(file) => On(req, OpSplice, Oneshot, Some(file), None)
    case PrepSocket => On(req, OpSocket, Oneshot, None, Some(thing))
    case CloseSocket(socket) => On(req, OpClose, Oneshot, None, Some(socket))
    case Bind(socket) => On(req, OpBind, Oneshot, None, Some(socket))
    case Connect(socket) => On(req, OpConnect, Oneshot, None, Some(socket))
    case Listen(socket) => On(req, OpListen, Oneshot, None, Some(socket))
    case Accept(socket) => On(req, OpAccept, stream, None, Some(socket))
    case Send(socket, _) => On(req, OpSend, Oneshot, None, Some(socket))
    case Sendto(socket) => On(req, OpSendmsg, Oneshot, None, Some(socket))
    case Sendmsg(socket, _) => On(req, OpSendmsg, Oneshot, None, Some(socket))
    case Recv(socket, _, _) => On(req, OpRecv, stream, None, Some(socket))
    case Recvfrom(socket, _, _) => On(req, OpRecvmsg, Oneshot, None, Some(socket))
    case Recvmsg(socket, _) => On(req, OpRecvmsg, stream, None, Some(socket))
    case Timer => On(req, OpTimeout, Oneshot, None, None)
  }

  lemma {:induction false} CallsRegister(h: Heap, ctx: Context, call: Call)
    ensures Registers(call, ctx.stream, h.things, Prepare(h, ctx, call).1)
  {
  }

  // ------------------------------------------------------------------------------- buffers

  /** The call brings one new payload, with just these bytes. */
  ghost predicate OwnBytes(h: Heap, h': Heap, req: Request, bytes: seq<Byte>) {
    && req.payload == Some(|h.payloads|)
    && h'.payloads == h.payloads + [Payload(Linear, Normal, Buffer(bytes), None, FreeList([], -1), 0)]
  }

  ghost predicate OwnVector(h: Heap, h': Heap, req: Request, iov: Iovecs) {
    && req.payload == Some(|h.payloads|)
    && h'.payloads == h.payloads + [Payload(Iovec, Normal, NoLinear, Some(iov), FreeList([], -1), 0)]
  }

  /** The call uses the payload of its context. */
  ghost predicate Lent(h: Heap, h': Heap, req: Request, ctx: Context) {
    req.payload == ctx.payload && h'.payloads == h.payloads
  }

  /** The context offers its payload: any mode but NORMAL. */
  ghost predicate Offers(h: Heap, ctx: Context)
    requires ContextOk(h, ctx)
  {
    ctx.payload.Some? && h.payloads[ctx.payload.value].mode != Normal
  }

  ghost predicate BringsSize(h: Heap, ctx: Context, size: int, h': Heap, req: Request)
    requires ContextOk(h, ctx)
  {
    if Offers(h, ctx) then Lent(h, h', req, ctx)
    else size >= 0 && OwnBytes(h, h', req, seq(size, _ => 0))
  }

  ghost predicate BringsVector(h: Heap, buffers: Option<Iovecs>, h': Heap, req: Request) {
    OwnVector(h, h', req, if buffers.Some? then buffers.value else [seq(1024, _ => 0)])
  }

  /** The buffers of a call that gets as far as the ring. */
  ghost predicate Brings(h: Heap, ctx: Context, call: Call, h': Heap, req: Request)
    requires ContextOk(h, ctx)
  {
    match call
    case Write(_, data) => OwnBytes(h, h', req, data)
    case Send(_, data) => OwnBytes(h, h', req, data)
    case ReadvRaw(_, iov) => OwnVector(h, h', req, iov)
    case Writev(_, iov) => OwnVector(h, h', req, iov)
    case WritevRaw(_, iov) => OwnVector(h, h', req, iov)
    case Sendmsg(_, iov) => OwnVector(h, h', req, iov)
    case Read(_, size) => BringsSize(h, ctx, size, h', req)
    case Recv(_, size, buffer) =>
      if buffer.Viewable? then OwnBytes(h, h', req, buffer.bytes)
      else buffer.NoBuffer? && BringsSize(h, ctx, size, h', req)
    case Recvfrom(_, size, buffer) =>
      if buffer.Viewable? then OwnBytes(h, h', req, buffer.bytes)
      else buffer.NoBuffer? && BringsSize(h, ctx, size, h', req)
    case Readv(_, buffers) =>
      if Offers(h, ctx) && h.payloads[ctx.payload.value].mode != Fixed then Lent(h, h', req, ctx)
      else BringsVector(h, buffers, h', req)
    case Recvmsg(_, buffers) => BringsVector(h, buffers, h', req)
    case _ => req.payload.None? && h'.payloads == h.payloads
  }

  lemma {:induction false} CallsBring(h: Heap, ctx: Context, call: Call)
    requires PoolOk(h) && ContextOk(h, ctx) && !UnsetBuffer(h, ctx, call)
    ensures Brings(h, ctx, call, Prepare(h, ctx, call).0, Prepare(h, ctx, call).1)
  {
    UnsetBufferIff(h, ctx, call);
  }

  /** The calls that crash before the ring sees anything, by call, argument and context. */
  lemma {:induction false} CrashingCalls(s: State, ctx: Context, call: Call, taken: bool)
    requires Inv(s) && CanSubmit(s, ctx, call)
    ensures AfterSubmit(s, ctx, call, taken).Crashed? <==>
              || (call.Sendmsg? && ctx.transfer.ZeroCopy? && s.sys.reg.free.top >= 0)
              || ((call.Recv? || call.Recvfrom?) && call.buffer.Unviewable?)
              || ((call.Read? || ((call.Recv? || call.Recvfrom?) && call.buffer.NoBuffer?))
                  && call.size < 0 && !Offers(s.sys.heap, ctx))
  {
    SubmitKeeps(s, ctx, call, taken);
    UnsetBufferIff(s.sys.heap, ctx, call);
    OffersLends(s.sys.heap, ctx);
  }

  lemma {:induction false} OffersLends(h: Heap, ctx: Context)
    requires PoolOk(h) && ContextOk(h, ctx)
    ensures Offers(h, ctx) <==> LendsLinear(h, ctx)
  {
  }

  // ------------------------------------------------------------------------------ outcomes

  /** What the caller is shown when the kernel has answered: the error, or what this very call
      promises. */
  ghost predicate Shows(call: Call, p: Posted, own: bool, st: Future) {
    if call.Timer? && p.res == -62 then st == Result(PyNone, NoneValue)
    else if p.res < 0 then st == Raised(OsError(-p.res))
    else st.Result? && Promised(call, p, own, st)
  }

  ghost predicate Promised(call: Call, p: Posted, own: bool, st: Future)
    requires st.Result?
  {
    match call
    case Open => st.value == OpenedFile(p.res)
    case PrepSocket => st.value == OpenedSocket(p.res)
    case Accept(_) => st.value == Connection(p.res)
    case Timer => st == Result(PyNone, NoneValue)
    case Read(_, _) => Reads(p, own, st)
    case Readv(_, _) => Reads(p, own, st)
    case ReadvRaw(_, _) => Reads(p, own, st)
    case Recv(_, _, _) => Reads(p, own, st)
    case Recvfrom(_, _, _) => Reads(p, own, st)
    case Recvmsg(_, _) => Reads(p, own, st)
    case _ => st.value == Int(p.res)
  }

  ghost predicate Reads(p: Posted, own: bool, st: Future)
    requires st.Result?
  {
    st.value.Bytes? && |st.value.bytes| == p.res && (own ==> st.value.bytes == p.data)
  }

  /** A log entry is of its call. */
  ghost predicate Tabled(l: Logged) { exists thing: nat, stream :: Registers(l.call, stream, thing, l.req) }

  lemma {:induction false} ExplainedIsShown(l: Logged, p: Posted, st: Future)
    requires Tabled(l) && Explains(l, p, st)
    ensures Shows(l.call, p, l.private, st)
  {
    var thing: nat, stream :| Registers(l.call, stream, thing, l.req);
  }

  // ------------------------------------------------------------------------------ one round

  /** Whenever a call is submitted, answered and reaped in turn, its future shows just that. */
  lemma {:induction false} RoundShows(s: State, ctx: Context, call: Call, res: int, data: seq<Byte>,
                                      memory: seq<Byte>, s': State)
    requires Inv(s) && s.cq == [] && CanSubmit(s, ctx, call)
    requires Leads(s, Round(ctx, call, |s.log|, res, data, memory), s')
    ensures |s.log| < |s'.sys.heap.futures|
    ensures Shows(call, Posted(res, data), SourceOf(s.sys.heap, ctx, call).Private?, s'.sys.heap.futures[|s.log|])
  {
    var s1, s2, i := RoundInTurn(s, ctx, call, res, data, memory, s');
    var l := SubmitOutcome(s, ctx, call, true);
    CallsRegister(s.sys.heap, ctx, call);
    assert Tabled(l);
    CompleteKeeps(s1, |s.log|, res, data, memory);
    HeadShows(s2, |s.log|, i);
    ExplainedIsShown(l, Posted(res, data), s'.sys.heap.futures[|s.log|]);
  }

  lemma {:induction false} HeadShows(s: State, f: nat, i: nat)
    requires Inv(s) && s.cq != [] && s.cq[0].userData == i && i <= MAX_SIZE && s.Occupied(i) && s.Owner(i) == f
    requires f < |s.sys.heap.futures| && s.sys.heap.futures[f].Pending? && AfterReap(s).Fine?
    ensures f < |s.log| && f in s.posted && f < |AfterReap(s).value.sys.heap.futures|
    ensures Explains(s.log[f], s.posted[f], AfterReap(s).value.sys.heap.futures[f])
  {
    DecodeIndex(i);
    ReapKeeps(s);
    ReapSettles(s);
  }

  /** And any call that gets as far as the ring can be served so: with any answer if it reads
      nothing, and with any error if it does. (Sessions.ReadDelivers is a reading one's success.) */
  lemma {:induction false} CallIsServed(s: State, ctx: Context, call: Call, res: int)
    returns (steps: seq<Step>, s': State)
    requires Ready(s) && CanSubmit(s, ctx, call) && Dispatchable(s.sys.heap, ctx, call)
    requires res < 0 || !(call.Read? || call.Readv? || call.ReadvRaw? || call.Recv? || call.Recvfrom? || call.Recvmsg?)
    ensures Leads(s, steps, s') && Ready(s') && |s.log| < |s'.sys.heap.futures|
    ensures Shows(call, Posted(res, []), SourceOf(s.sys.heap, ctx, call).Private?, s'.sys.heap.futures[|s.log|])
  {
    var s1 := CallPends(s, ctx, call);
    CallsRegister(s.sys.heap, ctx, call);
    CallCompletes(s1, ctx, call, s.sys.heap, |s.log|, res);
    s' := RoundIsServed(s, s1, ctx, call, res, [], []);
    steps := Round(ctx, call, |s.log|, res, [], []);
    assert Tabled(s1.log[|s.log|]);
    ExplainedIsShown(s1.log[|s.log|], Posted(res, []), s'.sys.heap.futures[|s.log|]);
  }

  lemma {:induction false} CallCompletes(s: State, ctx: Context, call: Call, h: Heap, f: nat, res: int)
    requires f in s.inFlight && f < |s.log| && s.log[f].index >= 0 && s.log[f].req == Prepare(h, ctx, call).1
    requires res < 0 || !(call.Read? || call.Readv? || call.ReadvRaw? || call.Recv? || call.Recvfrom? || call.Recvmsg?)
    ensures CanComplete(s, f, res, [], [])
    ensures Failed(OpcodeOf(call), res) || !Indigestible(s.sys.heap, Prepare(h, ctx, call).1)
  {
    CallsRegister(h, ctx, call);
  }

  /** The ordinary timer: from any state with room a run sets one, lets it expire, and its caller
      is shown None. */
  lemma {:induction false} TimerExpires(s: State, ctx: Context) returns (steps: seq<Step>, s': State)
    requires Ready(s) && ContextOk(s.sys.heap, ctx)
    ensures Leads(s, steps, s') && |s.log| < |s'.sys.heap.futures|
    ensures s'.sys.heap.futures[|s.log|] == Result(PyNone, NoneValue)
  {
    steps, s' := CallIsServed(s, ctx, Timer, -62);
  }

  // ------------------------------------------------------------------------------ all runs

  /** The bytes a call sends out are in its payload. */
  ghost predicate Holds(h: Heap, l: Logged) {
    match l.call
    case Write(_, data) => HoldsBytes(h, l.req, data)
    case Send(_, data) => HoldsBytes(h, l.req, data)
    case Writev(_, iov) => HoldsVector(h, l.req, iov)
    case WritevRaw(_, iov) => HoldsVector(h, l.req, iov)
    case Sendmsg(_, iov) => HoldsVector(h, l.req, iov)
    case _ => true
  }

  ghost predicate HoldsBytes(h: Heap, req: Request, data: seq<Byte>) {
    req.payload.Some? && req.payload.value < |h.payloads| && h.payloads[req.payload.value].linear == Buffer(data)
  }

  ghost predicate HoldsVector(h: Heap, req: Request, iov: Iovecs) {
    req.payload.Some? && req.payload.value < |h.payloads| && h.payloads[req.payload.value].vector == Some(iov)
  }

  /** Every log entry is of its call, and what an outstanding call sends out is still in place. */
  ghost predicate Tabulated(s: State) {
    && (forall f | 0 <= f < |s.log| :: Tabled(s.log[f]))
    && (forall i | s.Occupied(i) && s.Owner(i) < |s.log| :: Holds(s.sys.heap, s.log[s.Owner(i)]))
  }

  lemma {:induction false} HoldsOn(h: Heap, h': Heap, l: Logged)
    requires Holds(h, l) && (l.req.payload.Some? ==> SameBytes(h, h', l.req.payload.value))
    ensures Holds(h', l)
  {
  }

  /** The same log, no new slot, and the payloads of the slots untouched. */
  lemma {:induction false} TabulatedOn(s: State, s': State)
    requires Shaped(s) && Linked(s) && Tabulated(s) && s'.log == s.log
    requires forall i | s'.Occupied(i) :: s.Occupied(i) && s'.sys.reg.slots[i] == s.sys.reg.slots[i]
    requires forall i | s'.Occupied(i) && s.sys.reg.slots[i].payload.Some? && Sends(s.sys.reg.slots[i].opcode) ::
               SameBytes(s.sys.heap, s'.sys.heap, s.sys.reg.slots[i].payload.value)
    ensures Tabulated(s')
  {
    forall i | s'.Occupied(i) && s'.Owner(i) < |s'.log|
      ensures Holds(s'.sys.heap, s'.log[s'.Owner(i)])
    {
      assert SlotLinked(s, i) && Tabled(s.log[s.Owner(i)]);
      SentIsHeld(s.sys.heap, s'.sys.heap, s.log[s.Owner(i)]);
    }
  }

  predicate Sends(op: Opcode) { op.OpWrite? || op.OpWritev? || op.OpSend? || op.OpSendmsg? }

  lemma {:induction false} SentIsHeld(h: Heap, h': Heap, l: Logged)
    requires Tabled(l) && Holds(h, l)
    requires l.req.payload.Some? && Sends(l.req.op) ==> SameBytes(h, h', l.req.payload.value)
    ensures Holds(h', l)
  {
    var thing: nat, stream :| Registers(l.call, stream, thing, l.req);
    if Sends(l.req.op) {
      HoldsOn(h, h', l);
    }
  }

  lemma {:induction false} StepTabulates(s: State, step: Step)
    requires Inv(s) && Tabulated(s) && Enabled(s, step) && Next(s, step).Fine?
    ensures Tabulated(Next(s, step).value)
  {
    match step
    case Submit(ctx, call, taken) => SubmitTabulates(s, ctx, call, taken);
    case Complete(f, res, data, memory) => CompleteTabulates(s, f, res, data, memory);
    case Reap => ReapTabulates(s);
    case Drain => DrainTabulates(s);
    case _ => UserTabulates(s, step);
  }

  lemma {:induction false} UserTabulates(s: State, step: Step)
    requires Shaped(s) && Linked(s) && Tabulated(s) && Enabled(s, step)
    requires step.Stray? || step.Cancel? || step.Retain? || step.Drop? || step.Install?
    ensures Tabulated(Next(s, step).value)
  {
    assert forall i | s.Occupied(i) :: SlotLinked(s, i);
    TabulatedOn(s, Next(s, step).value);
  }

  lemma {:induction false} CompleteTabulates(s: State, f: nat, res: int, data: seq<Byte>, memory: seq<Byte>)
    requires Inv(s) && Tabulated(s) && CanComplete(s, f, res, data, memory)
    ensures Tabulated(AfterComplete(s, f, res, data, memory))
  {
    forall i | s.Occupied(i) && s.sys.reg.slots[i].payload.Some? && Sends(s.sys.reg.slots[i].opcode)
      ensures var p := s.sys.reg.slots[i].payload.value;
              SameBytes(s.sys.heap, AfterComplete(s, f, res, data, memory).sys.heap, p)
    {
      NobodyReadsIntoSent(s, i, f);
      OtherKeepsBytes(s, f, res, data, memory, s.sys.reg.slots[i].payload.value);
    }
    TabulatedOn(s, AfterComplete(s, f, res, data, memory));
  }

  /** A payload that is being sent is nobody's to read into. */
  lemma {:induction false} NobodyReadsIntoSent(s: State, i: int, f: nat)
    requires Shaped(s) && Linked(s) && Once(s) && s.Occupied(i) && s.sys.reg.slots[i].payload.Some?
    requires Sends(s.sys.reg.slots[i].opcode) && f in s.inFlight
    ensures f < |s.log| && s.sys.reg.slots[i].payload.value < |s.sys.heap.payloads|
    ensures Reading(s.log[f].req.op) ==> s.log[f].req.payload != s.sys.reg.slots[i].payload
  {
    assert SlotLinked(s, i) && SlotLinked(s, s.log[f].index);
    if s.log[f].index != i {
      PrivateIsUnshared(s, i, s.log[f].index);
    }
  }

  lemma {:induction false} ReapTabulates(s: State)
    requires Inv(s) && Tabulated(s) && s.cq != [] && AfterReap(s).Fine?
    ensures Tabulated(AfterReap(s).value)
  {
    ReapShrinks(s);
    forall i | s.Occupied(i) && s.sys.reg.slots[i].payload.Some?
      ensures SameBytes(s.sys.heap, AfterReap(s).value.sys.heap, s.sys.reg.slots[i].payload.value)
    {
      assert SlotLinked(s, i);
      ReapKeepsBytes(s, s.sys.reg.slots[i].payload.value);
    }
    TabulatedOn(s, AfterReap(s).value);
  }

  lemma {:induction false} ReapShrinks(s: State)
    requires Inv(s) && s.cq != [] && AfterReap(s).Fine?
    ensures var s' := AfterReap(s).value;
            forall i | s'.Occupied(i) :: s.Occupied(i) && s'.sys.reg.slots[i] == s.sys.reg.slots[i]
  {
    if s.Ours(s.cq[0]) {
      HeadIsLinked(s);
      ReapKeeps(s);
      ReapFrame(s, s.cq[0].userData);
    } else {
      SkipKeeps(s);
    }
  }

  lemma {:induction false} DrainTabulates(s: State)
    requires Inv(s) && Tabulated(s) && s.cq != [] && AfterDrain(s).Fine?
    ensures Tabulated(AfterDrain(s).value)
  {
    DrainShrinks(s);
    DrainPlays(s.sys, s.cq[0]);
    forall i | s.Occupied(i) && s.sys.reg.slots[i].payload.Some?
      ensures s.sys.reg.slots[i].payload.value < |s.sys.heap.payloads|
    {
      assert SlotLinked(s, i);
    }
    TabulatedOn(s, AfterDrain(s).value);
  }

  lemma {:induction false} DrainShrinks(s: State)
    requires Inv(s) && s.cq != [] && AfterDrain(s).Fine?
    ensures var s' := AfterDrain(s).value;
            forall i | s'.Occupied(i) :: s.Occupied(i) && s'.sys.reg.slots[i] == s.sys.reg.slots[i]
  {
    if s.Ours(s.cq[0]) {
      HeadIsLinked(s);
      DrainFailsHead(s, s.cq[0].userData);
    } else {
      SkipKeeps(s);
    }
  }

  lemma {:induction false} SubmitTabulates(s: State, ctx: Context, call: Call, taken: bool)
    requires Inv(s) && Tabulated(s) && CanSubmit(s, ctx, call) && AfterSubmit(s, ctx, call, taken).Fine?
    ensures Tabulated(AfterSubmit(s, ctx, call, taken).value)
  {
    SubmitKeeps(s, ctx, call, taken);
    var l := SubmitOutcome(s, ctx, call, taken);
    CallsRegister(s.sys.heap, ctx, call);
    assert Tabled(l);
    NewIsHeld(s, ctx, call, taken, l);
    forall i | s.Occupied(i)
      ensures s.Owner(i) < |s.log| && Holds(AfterSubmit(s, ctx, call, taken).value.sys.heap, s.log[s.Owner(i)])
    {
      assert SlotLinked(s, i);
      KeptIsHeld(s, ctx, call, taken, s.log[s.Owner(i)]);
    }
    if s.sys.reg.free.top >= 0 && taken {
      JoinedTabulates(s, AfterSubmit(s, ctx, call, taken).value, call, l);
    } else {
      DeclinedTabulates(s, AfterSubmit(s, ctx, call, taken).value, l);
    }
  }

  lemma {:induction false} JoinedTabulates(s: State, s': State, call: Call, l: Logged)
    requires Tabulated(s) && Joined(s, s', l.index, call, l) && Tabled(l) && Holds(s'.sys.heap, l)
    requires forall i | s.Occupied(i) :: s.Owner(i) < |s.log| && Holds(s'.sys.heap, s.log[s.Owner(i)])
    ensures Tabulated(s')
  {
    forall i | s'.Occupied(i) && s'.Owner(i) < |s'.log|
      ensures Holds(s'.sys.heap, s'.log[s'.Owner(i)])
    {
      assert i != l.index ==> s.Occupied(i) && s'.Owner(i) == s.Owner(i);
    }
  }

  lemma {:induction false} DeclinedTabulates(s: State, s': State, l: Logged)
    requires Tabulated(s) && Declined(s, s', l) && Tabled(l)
    requires forall i | s.Occupied(i) :: s.Owner(i) < |s.log| && Holds(s'.sys.heap, s.log[s.Owner(i)])
    ensures Tabulated(s')
  {
    forall i | s'.Occupied(i) && s'.Owner(i) < |s'.log|
      ensures Holds(s'.sys.heap, s'.log[s'.Owner(i)])
    {
      assert s.Occupied(i) && s'.Owner(i) == s.Owner(i);
    }
  }

  lemma {:induction false} KeptIsHeld(s: State, ctx: Context, call: Call, taken: bool, l: Logged)
    requires Shaped(s) && ContextOk(s.sys.heap, ctx) && !CallCrashes(s, ctx, call) && Holds(s.sys.heap, l)
    requires l.req.payload.Some? ==> l.req.payload.value < |s.sys.heap.payloads|
    ensures AfterSubmit(s, ctx, call, taken).Fine? && Holds(AfterSubmit(s, ctx, call, taken).value.sys.heap, l)
  {
    var _ := SubmitOutcome(s, ctx, call, taken);
    if l.req.payload.Some? {
      SubmitKeepsBytes(s, ctx, call, taken, l.req.payload.value);
    }
    HoldsOn(s.sys.heap, AfterSubmit(s, ctx, call, taken).value.sys.heap, l);
  }

  lemma {:induction false} NewIsHeld(s: State, ctx: Context, call: Call, taken: bool, l: Logged)
    requires Shaped(s) && ContextOk(s.sys.heap, ctx) && !CallCrashes(s, ctx, call)
    requires l.call == call && l.req == Prepare(s.sys.heap, ctx, call).1
    ensures AfterSubmit(s, ctx, call, taken).Fine? && Holds(AfterSubmit(s, ctx, call, taken).value.sys.heap, l)
  {
    var _ := SubmitOutcome(s, ctx, call, taken);
    SubmitPool(s, ctx, call, taken);
    BroughtIsHeld(s.sys.heap, ctx, call, l);
    HoldsOn(Prepare(s.sys.heap, ctx, call).0, AfterSubmit(s, ctx, call, taken).value.sys.heap, l);
  }

  lemma {:induction false} BroughtIsHeld(h: Heap, ctx: Context, call: Call, l: Logged)
    requires PoolOk(h) && ContextOk(h, ctx) && !UnsetBuffer(h, ctx, call)
    requires l.call == call && l.req == Prepare(h, ctx, call).1
    ensures Holds(Prepare(h, ctx, call).0, l)
    ensures l.req.payload.Some? ==>
              var h1, p := Prepare(h, ctx, call).0, l.req.payload.value;
              SameBytes(h1, h1, p) && SameBytes(h1, TakeIndex(h1, l.req), p)
  {
    CallsBring(h, ctx, call);
  }

  /** In every reachable state the log is of the calls, and what is being sent is in place. */
  lemma {:induction false} RunTabulates(s: State, steps: seq<Step>, s': State)
    requires Inv(s) && Tabulated(s) && Leads(s, steps, s')
    ensures Inv(s') && Tabulated(s')
    decreases |steps|
  {
    if steps != [] {
      StepKeeps(s, steps[0]);
      StepTabulates(s, steps[0]);
      RunTabulates(Next(s, steps[0]).value, steps[1..], s');
    }
  }

  lemma {:induction false} ReachableTabulated(n: nat, steps: seq<Step>, s: State)
    requires 1 <= n <= MAX_SIZE && Leads(Init(n), steps, s)
    ensures Inv(s) && Tabulated(s)
  {
    InitInv(n);
    RunTabulates(Init(n), steps, s);
  }

  /** Over every run, whatever the order of completions and however indices are reused, a caller is
      shown what its own call promises and nothing else: the kernel's answer to this very call, or
      the end of the loop if it was drained, and then the run has a drain. */
  lemma {:induction false} CallersGetTheirOwn(n: nat, steps: seq<Step>, s: State, f: nat)
    requires 1 <= n <= MAX_SIZE && Leads(Init(n), steps, s)
    requires f < |s.sys.heap.futures| && !s.sys.heap.futures[f].Unsettled()
    ensures f < |s.log| && f in s.fate && f in s.posted
    ensures match s.fate[f]
            case Reaped => Shows(s.log[f].call, s.posted[f], s.log[f].private, s.sys.heap.futures[f])
            case Drained =>
              s.sys.heap.futures[f] == Raised(LoopClosed) && exists k :: 0 <= k < |steps| && steps[k].Drain?
  {
    OutcomesAreOwn(n, steps, s, f);
    ReachableTabulated(n, steps, s);
    if s.fate[f].Reaped? {
      ExplainedIsShown(s.log[f], s.posted[f], s.sys.heap.futures[f]);
    }
  }

  /** Over every run the slot of an outstanding call is of that call, by opcode and object; the
      registry holds its future and its object; and what it sends out is still in place. */
  lemma {:induction false} SlotsAreOfTheirCalls(n: nat, steps: seq<Step>, s: State, f: nat)
    requires 1 <= n <= MAX_SIZE && Leads(Init(n), steps, s) && f < |s.log| && Outstanding(s, f)
    ensures var slot := s.sys.reg.slots[s.log[f].index];
            && slot.future == Some(f) && Held(s.sys.reg.slots, Fut(f)) >= 1
            && (exists thing: nat, stream :: Registers(s.log[f].call, stream, thing,
                  Request(slot.opcode, slot.stream, slot.payload, slot.file, slot.socket)))
            && (slot.file.Some? ==> Held(s.sys.reg.slots, Thing(slot.file.value)) >= 1)
            && (slot.socket.Some? ==> Held(s.sys.reg.slots, Thing(slot.socket.value)) >= 1)
    ensures Holds(s.sys.heap, s.log[f])
  {
    ReachableTabulated(n, steps, s);
    var i := s.log[f].index;
    assert SlotLinked(s, i) && Tabled(s.log[f]);
    SlotHolds(s.sys.reg.slots, i);
  }

  lemma {:induction false} SlotHolds(slots: seq<Slot>, i: nat)
    requires i < |slots|
    ensures slots[i].future.Some? ==> Held(slots, Fut(slots[i].future.value)) >= 1
    ensures slots[i].file.Some? ==> Held(slots, Thing(slots[i].file.value)) >= 1
    ensures slots[i].socket.Some? ==> Held(slots, Thing(slots[i].socket.value)) >= 1
  {
    forall o
      ensures Held(slots, o) >= Names(slots[i])[o]
    {
      HeldUpdate(slots, i, EMPTY_SLOT, o);
    }
  }
}
