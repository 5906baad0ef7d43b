/** The submit / complete / reap protocol as a state machine, and the invariant every
    interleaving of its steps keeps. */
module Protocol {
  import opened Core
  import opened Vectored
  import opened Runtime
  import opened Reader
  import opened Requests

  /** A call, what it registered, where, and whether it built its payload itself. */
  datatype Logged = Logged(call: Call, req: Request, index: int, private: bool)

  /** What the kernel answered, and the bytes it stored for a reading request. */
  datatype Posted = Posted(res: int, data: seq<Byte>)

  /** How a request left the registry: reaped by the reader, or drained at shutdown. */
  datatype Fate = Reaped | Drained

  /** A request is named by its future: call number f creates future f. `external` counts the
      references the callers hold; `left` counts those that open and socket calls leave with
      their requests, to be taken over by the result. `fate` is history. */
  datatype State = State(
    sys: System,
    cq: seq<Cqe>,
    inFlight: set<nat>,
    log: seq<Logged>,
    posted: map<nat, Posted>,
    external: multiset<Obj>,
    left: multiset<Obj>,
    fate: map<nat, Fate>)
  {
    ghost predicate Occupied(i: int) {
      0 <= i < |sys.reg.slots| && sys.reg.slots[i].future.Some?
    }

    ghost function Owner(i: int): nat
      requires Occupied(i)
    {
      sys.reg.slots[i].future.value
    }

    /** The completion names a slot. */
    ghost predicate Ours(c: Cqe) { 0 <= Decode(c.userData) < |sys.reg.slots| }

    /** The completion names the slot of request f. */
    ghost predicate Owns(c: Cqe, f: nat) {
      Occupied(Decode(c.userData)) && Owner(Decode(c.userData)) == f
    }
  }

  datatype Step =
    | Submit(ctx: Context, call: Call, taken: bool)
    | Complete(f: nat, res: int, data: seq<Byte>, memory: seq<Byte>)
    | Stray(c: Cqe)
    | Cancel(f: nat)
    | Retain(o: Obj)
    | Drop(o: Obj)
    | Install(payload: Payload)
    | Reap
    | Drain

  // ----------------------------------------------------------------------------- kernel

  predicate Reading(op: Opcode) { op.OpRead? || op.OpReadv? || op.OpRecv? || op.OpRecvmsg? }

  /** How many bytes the kernel may store for a reading request. */
  function Room(b: Payload): nat {
    if b.kind.Linear? then (if b.linear.Buffer? then |b.linear.bytes| else 0)
    else (if b.vector.Some? then |Flatten(b.vector.value)| else 0)
  }

  /** PROVIDED and BUF_RING: the kernel picks the buffer itself. */
  predicate Selected(b: Payload) { b.mode.Provided? || b.mode.BufRing? }

  /** The kernel stores the data in order in the buffers it is given. Where it selects the buffer
      itself, what the payload's first one then holds is anyone's guess, its size apart. */
  function Deposit(b: Payload, data: seq<Byte>, memory: seq<Byte>): Payload
    requires |data| <= Room(b)
  {
    if Selected(b) then (if b.linear.Buffer? then b.(linear := Buffer(memory)) else b)
    else if b.kind.Linear? then (if b.linear.Buffer? then b.(linear := Buffer(data + b.linear.bytes[|data|..])) else b)
    else (if b.vector.Some? then b.(vector := Some(Scatter(b.vector.value, data))) else b)
  }

  /** The first n bytes as the reader would rebuild them. */
  function Content(b: Payload, n: nat): seq<Byte>
    requires n <= Room(b)
  {
    if b.kind.Linear? then (if b.linear.Buffer? then b.linear.bytes[..n] else [])
    else (if b.vector.Some? then Flatten(b.vector.value)[..n] else [])
  }

  // ------------------------------------------------------------------------------ steps

  /** One trip round the shutdown drain: no guard against a slot without a future. */
  function DrainOne(s: System, c: Cqe): Outcome<System>
    requires s.reg.Wf()
  {
    var index := Decode(c.userData);
    if c.userData == WAKEUP_TAG || index < 0 || index >= |s.reg.slots| then Fine(s)
    else
      var future := s.reg.slots[index].future;
      var h := if future.Some? then SetException(s.heap, future.value, LoopClosed) else s.heap;
      Remove(System(s.reg, h), index)
  }

  predicate IsCreation(op: Opcode) { op.OpOpenat2? || op.OpSocket? }

  function CreatedBy(slot: Slot): Obj {
    if slot.opcode.OpOpenat2? && slot.file.Some? then Thing(slot.file.value)
    else if slot.opcode.OpSocket? && slot.socket.Some? then Thing(slot.socket.value)
    else PyNone
  }

  /** A caller holds the object. */
  ghost predicate Usable(s: State, o: Obj) { o in s.external }

  /** A caller can get hold of the object: from another caller, or from a future it is the
      result of. Nobody can before its future has delivered it. */
  ghost predicate Obtainable(s: State, o: Obj) { Usable(s, o) || Results(s.sys.heap.futures, o) >= 1 }

  ghost predicate CanSubmit(s: State, ctx: Context, call: Call) {
    && ContextOk(s.sys.heap, ctx)
    && (Receiver(call).Some? ==> Usable(s, Thing(Receiver(call).value)))
  }

  /** The call follows a pointer that is null or was never set, before the ring sees anything. */
  ghost predicate CallCrashes(s: State, ctx: Context, call: Call) {
    UnsetBuffer(s.sys.heap, ctx, call) || (s.sys.reg.free.top >= 0 && AsksNoRegistry(ctx, call))
  }

  ghost function AfterSubmit(s: State, ctx: Context, call: Call, taken: bool): Outcome<State>
    requires s.sys.reg.Wf()
  {
    var sub :- Requests.Submit(s.sys, ctx, call, taken);
    Fine(AfterAnswer(s, sub, call, SourceOf(s.sys.heap, ctx, call).Private?))
  }

  /** An accepted request is the kernel's; the caller keeps the future, and the request keeps
      the reference on a file or socket under creation. */
  ghost function AfterAnswer(s: State, sub: Submission, call: Call, private: bool): State {
    if sub.answer.Accepted? then
      s.(sys := sub.sys,
         inFlight := s.inFlight + {sub.future},
         log := s.log + [Logged(call, sub.req, sub.answer.index, private)],
         external := s.external + multiset{Fut(sub.future)},
         left := s.left + Created(call, s.sys.heap))
    else
      s.(sys := sub.sys, log := s.log + [Logged(call, sub.req, -1, private)])
  }

  /** The kernel answers any request in flight; what it stores fits the request's buffers. */
  ghost predicate CanComplete(s: State, f: nat, res: int, data: seq<Byte>, memory: seq<Byte>) {
    && f in s.inFlight && f < |s.log| && s.log[f].index >= 0
    && (var req := s.log[f].req;
        if Reading(req.op) && res >= 0 then
          && req.payload.Some? && req.payload.value < |s.sys.heap.payloads|
          && (var b := s.sys.heap.payloads[req.payload.value];
              && |data| == res <= Room(b)
              && (b.linear.Buffer? ==> |memory| == |b.linear.bytes|))
        else data == [])
  }

  ghost function AfterComplete(s: State, f: nat, res: int, data: seq<Byte>, memory: seq<Byte>): State
    requires CanComplete(s, f, res, data, memory)
  {
    var req := s.log[f].req;
    var h := s.sys.heap;
    var h' := if Reading(req.op) && res >= 0
              then h.(payloads := h.payloads[req.payload.value := Deposit(h.payloads[req.payload.value], data, memory)])
              else h;
    s.(sys := s.sys.(heap := h'),
       cq := s.cq + [Cqe(s.log[f].index, res)],
       inFlight := s.inFlight - {f},
       posted := s.posted[f := Posted(res, data)])
  }

  /** The reference that an open or socket call leaves with its request goes to the result. */
  ghost function Consumed(s: State, c: Cqe): multiset<Obj> {
    var i := Decode(c.userData);
    if s.Occupied(i) && IsCreation(s.sys.reg.slots[i].opcode) && !Failed(s.sys.reg.slots[i].opcode, c.res)
    then multiset{CreatedBy(s.sys.reg.slots[i])}
    else multiset{}
  }

  ghost function Fated(s: State, c: Cqe, fate: Fate): map<nat, Fate> {
    var i := Decode(c.userData);
    if s.Occupied(i) then s.fate[s.Owner(i) := fate] else s.fate
  }

  ghost function AfterReap(s: State): Outcome<State>
    requires s.sys.reg.Wf() && s.cq != []
  {
    var sys :- ReapOne(s.sys, s.cq[0]);
    Fine(s.(sys := sys, cq := s.cq[1..], left := s.left - Consumed(s, s.cq[0]), fate := Fated(s, s.cq[0], Reaped)))
  }

  ghost function AfterDrain(s: State): Outcome<State>
    requires s.sys.reg.Wf() && s.cq != []
  {
    var sys :- DrainOne(s.sys, s.cq[0]);
    Fine(s.(sys := sys, cq := s.cq[1..], fate := Fated(s, s.cq[0], Drained)))
  }

  ghost function AfterCancel(s: State, f: nat): State
    requires f < |s.sys.heap.futures|
  {
    s.(sys := s.sys.(heap := s.sys.heap.(futures := s.sys.heap.futures[f := Cancelled])))
  }

  ghost function AfterRetain(s: State, o: Obj): State {
    s.(sys := s.sys.(heap := Incref(s.sys.heap, o)), external := s.external + multiset{o})
  }

  ghost function AfterDrop(s: State, o: Obj): State {
    s.(sys := s.sys.(heap := Decref(s.sys.heap, o)), external := s.external - multiset{o})
  }

  ghost function AfterInstall(s: State, b: Payload): State {
    s.(sys := s.sys.(heap := s.sys.heap.(payloads := s.sys.heap.payloads + [b])))
  }

  ghost predicate Enabled(s: State, step: Step) {
    match step
    case Submit(ctx, call, _) => CanSubmit(s, ctx, call)
    case Complete(f, res, data, memory) => CanComplete(s, f, res, data, memory)
    case Stray(c) => !s.Ours(c)
    case Cancel(f) => f < |s.sys.heap.futures| && s.sys.heap.futures[f].Pending?
    case Retain(o) => Obtainable(s, o)
    case Drop(o) => Usable(s, o)
    case Install(b) => ContextOwned(b) && ContextPayload(b)
    case Reap => s.cq != []
    case Drain => s.cq != []
  }

  ghost function Next(s: State, step: Step): Outcome<State>
    requires s.sys.reg.Wf() && Enabled(s, step)
  {
    match step
    case Submit(ctx, call, taken) => AfterSubmit(s, ctx, call, taken)
    case Complete(f, res, data, memory) => Fine(AfterComplete(s, f, res, data, memory))
    case Stray(c) => Fine(s.(cq := s.cq + [c]))
    case Cancel(f) => Fine(AfterCancel(s, f))
    case Retain(o) => Fine(AfterRetain(s, o))
    case Drop(o) => Fine(AfterDrop(s, o))
    case Install(b) => Fine(AfterInstall(s, b))
    case Reap => AfterReap(s)
    case Drain => AfterDrain(s)
  }

  // -------------------------------------------------------------------------- invariant

  const MAX_SIZE := 0x7FFF_FFFF

  ghost predicate Shaped(s: State) {
    && s.sys.reg.Structured() && |s.sys.reg.slots| <= MAX_SIZE
    && |s.log| == |s.sys.heap.futures|
    && PoolOk(s.sys.heap)
  }

  /** Every outstanding index still holds exactly what it was submitted with. */
  ghost predicate Linked(s: State)
    requires Shaped(s)
  {
    && (forall i | s.Occupied(i) :: SlotLinked(s, i))
    && (forall f | f in s.inFlight ::
          f < |s.log| && s.Occupied(s.log[f].index) && s.Owner(s.log[f].index) == f && f !in s.posted)
    && (forall f | f in s.posted :: f < |s.log|)
  }

  ghost predicate SlotLinked(s: State, i: int)
    requires Shaped(s) && s.Occupied(i)
  {
    var f := s.Owner(i);
    && f < |s.log| && s.log[f].index == i
    && s.sys.reg.slots[i] == SlotOf(f, s.log[f].req, i)
    && WellFormed(s.sys.heap, s.log[f].req)
    && (s.log[f].req.payload.Some? ==>
          (s.log[f].private <==> !ContextOwned(s.sys.heap.payloads[s.log[f].req.payload.value])))
    && s.sys.heap.futures[f].Unsettled()
    && (f in s.inFlight || InQueue(s.cq, i))
  }

  ghost predicate InQueue(cq: seq<Cqe>, i: int) {
    exists k :: 0 <= k < |cq| && cq[k].userData == i
  }

  /** Every completion that names a slot is the answer to the request in that slot. */
  ghost predicate Queued(s: State) {
    && (forall k | 0 <= k < |s.cq| && s.Ours(s.cq[k]) :: CqeLinked(s, s.cq[k]))
    && (forall j, k | 0 <= j < k < |s.cq| && s.Ours(s.cq[j]) && s.Ours(s.cq[k]) ::
          s.cq[j].userData != s.cq[k].userData)
  }

  ghost predicate CqeLinked(s: State, c: Cqe)
    requires s.Ours(c)
  {
    var i := Decode(c.userData);
    && c.userData == i && s.Occupied(i)
    && s.Owner(i) !in s.inFlight && s.Owner(i) in s.posted
    && s.posted[s.Owner(i)].res == c.res
    && s.Owner(i) < |s.log| && Stored(s.sys.heap, s.log[s.Owner(i)], s.posted[s.Owner(i)])
  }

  /** The data of a reading request is still in its buffers. */
  ghost predicate Stored(h: Heap, l: Logged, p: Posted) {
    Reading(l.req.op) && p.res >= 0 ==>
      && l.req.payload.Some? && l.req.payload.value < |h.payloads|
      && |p.data| == p.res <= Room(h.payloads[l.req.payload.value])
      && (l.private ==> Content(h.payloads[l.req.payload.value], p.res) == p.data)
  }

  /** What the future of a request must show, given what the kernel answered. */
  ghost predicate Explains(l: Logged, p: Posted, st: Future) {
    if Failed(l.req.op, p.res) then st == Raised(OsError(-p.res))
    else st.Result? && Answers(l, p, st)
  }

  ghost predicate Answers(l: Logged, p: Posted, st: Future)
    requires st.Result?
  {
    match l.req.op
    case OpRead | OpReadv | OpRecv | OpRecvmsg =>
      st.value.Bytes? && |st.value.bytes| == p.res && (l.private ==> st.value.bytes == p.data)
    case OpOpenat2 => l.req.file.Some? && st == Result(Thing(l.req.file.value), OpenedFile(p.res))
    case OpSocket => l.req.socket.Some? && st == Result(Thing(l.req.socket.value), OpenedSocket(p.res))
    case OpAccept => st.value == Connection(p.res)
    case OpTimeout => st == Result(PyNone, NoneValue)
    case _ => st.value == Int(p.res)
  }

  /** A settled future shows the outcome of its own request, or that the loop was closed. */
  ghost predicate Settled(s: State)
    requires Shaped(s)
  {
    forall f | 0 <= f < |s.sys.heap.futures| && !s.sys.heap.futures[f].Unsettled() ::
      s.sys.heap.futures[f] == Raised(LoopClosed) ||
      (f in s.posted && Explains(s.log[f], s.posted[f], s.sys.heap.futures[f]))
  }

  /** Each payload built by a request is either held by one slot or has been freed once;
      a context's payload has not been freed. */
  ghost predicate Once(s: State) {
    && (forall p | 0 <= p < |s.sys.heap.payloads| ::
          if ContextOwned(s.sys.heap.payloads[p]) then s.sys.heap.released[p] == 0
          else s.sys.heap.released[p] + Carried(s.sys.reg.slots, p) == 1)
    && (forall p | p >= |s.sys.heap.payloads| :: p !in s.sys.heap.released)
  }

  ghost function Share(s: State, o: Obj): nat {
    Held(s.sys.reg.slots, o) + Results(s.sys.heap.futures, o) + s.external[o] + s.left[o]
  }

  /** Every reference is accounted for: the slots', the results', the callers', and those left
      with requests. */
  ghost predicate Counted(s: State) {
    && (forall o :: s.sys.heap.refs[o] == Share(s, o))
    && (forall n: nat | n >= s.sys.heap.things :: Thing(n) !in s.sys.heap.refs)
    && (forall n: nat | n >= |s.sys.heap.futures| :: Fut(n) !in s.sys.heap.refs)
  }

  /** A file or socket under creation is known to its request alone: the slot names it, and the
      call's own reference is left with it. */
  ghost predicate Creating(s: State) {
    forall i | s.Occupied(i) && IsCreation(s.sys.reg.slots[i].opcode) ::
      var o := CreatedBy(s.sys.reg.slots[i]);
      NewBorn(s, o)
  }

  ghost predicate NewBorn(s: State, o: Obj) {
    && s.left[o] == 1 && Held(s.sys.reg.slots, o) == 1
    && s.external[o] == 0 && Results(s.sys.heap.futures, o) == 0
  }

  ghost predicate Inv(s: State) {
    Shaped(s) && Linked(s) && Queued(s) && Settled(s) && Once(s) && Counted(s) && Creating(s)
  }

  /** A loop just created: nothing registered, nothing in the ring. */
  ghost function Init(n: nat): State {
    State(System(NewRegistry(n), Heap(multiset{}, [], [], multiset{}, 0)), [], {}, [],
          map[], multiset{}, multiset{}, map[])
  }
}
