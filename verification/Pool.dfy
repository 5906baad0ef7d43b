/** The buffer index of a FIXED payload over runs of the protocol: a machine with two moves,
    taking an index and giving one back, that every step refines. */
module Pool {
  import opened Core
  import opened FreeLists
  import opened Runtime
  import opened Reader
  import opened Requests
  import opened Protocol
  import opened Invariant
  import opened Guarantees

  // ----------------------------------------------------------------------------- machine

  /** The free list of a payload and the index it notes as the last one taken. */
  datatype IndexState = IndexState(list: FreeList, last: int) {
    ghost predicate Valid() { list.Shape() && |list.cells| >= 1 }

    ghost predicate Full() { Valid() && list.top + 1 == |list.cells| }
  }

  datatype IndexEvent = Take | Give | Rest

  function Play(x: IndexState, e: IndexEvent): IndexState {
    match e
    case Take =>
      if 0 <= x.list.top < |x.list.cells| then IndexState(x.list.Pop(), x.list.cells[x.list.top])
      else x.(last := -1)
    case Give =>
      if 0 <= x.list.top + 1 < |x.list.cells| then x.(list := x.list.Push(x.last)) else x
    case Rest => x
  }

  function PlayAll(x: IndexState, es: seq<IndexEvent>): IndexState
    decreases |es|
  {
    if es == [] then x else PlayAll(Play(x, es[0]), es[1..])
  }

  function IndexOf(b: Payload): IndexState { IndexState(b.idx, b.bufIdx) }

  ghost predicate FixedPayload(h: Heap, p: nat) {
    p < |h.payloads| && h.payloads[p].mode.Fixed? && IndexOf(h.payloads[p]).Valid()
  }

  ghost predicate IsFull(h: Heap, p: nat) { FixedPayload(h, p) && IndexOf(h.payloads[p]).Full() }

  // ------------------------------------------------------------------------------ events

  /** The successes whose switch case looks at the mode of the payload. */
  predicate Gives(slot: Slot, res: int) {
    && !Failed(slot.opcode, res)
    && (|| slot.opcode.OpRead? || slot.opcode.OpWrite? || slot.opcode.OpSend? || slot.opcode.OpSendmsg?
        || slot.opcode.OpRecvmsg? || (slot.opcode.OpRecv? && slot.socket.Some?))
  }

  /** What a step does to the index of payload p: a read that borrows it takes, with the slot, and
      whether or not the ring accepts; a success that carries it gives. */
  ghost function IndexMove(s: State, step: Step, p: nat): IndexEvent {
    match step
    case Submit(ctx, call, _) =>
      if s.sys.reg.free.top >= 0 && call.Read? && SourceOf(s.sys.heap, ctx, call) == Borrowed(p) then Take else Rest
    case Reap =>
      if s.cq != [] && s.Occupied(Decode(s.cq[0].userData))
         && s.sys.reg.slots[Decode(s.cq[0].userData)].payload == Some(p)
         && Gives(s.sys.reg.slots[Decode(s.cq[0].userData)], s.cq[0].res)
      then Give else Rest
    case _ => Rest
  }

  ghost function IndexMoves(s: State, steps: seq<Step>, p: nat): seq<IndexEvent>
    decreases |steps|
  {
    if steps == [] then []
    else if s.sys.reg.Wf() && Enabled(s, steps[0]) && Next(s, steps[0]).Fine?
    then [IndexMove(s, steps[0], p)] + IndexMoves(Next(s, steps[0]).value, steps[1..], p)
    else [IndexMove(s, steps[0], p)]
  }

  // ------------------------------------------------------------------------------- calls

  lemma {:induction false} RegisterPool(r: Registry, h: Heap, f: nat, req: Request, own: multiset<Obj>, taken: bool)
    requires r.Wf() && Register(r, h, f, req, own, taken).Fine?
    ensures Register(r, h, f, req, own, taken).value.sys.heap.payloads ==
            if r.free.top >= 0 then TakeIndex(h, req).payloads else h.payloads
  {
    var (s1, index) := Add(System(r, h), f, req);
    assert TakeIndex(s1.heap, req).payloads == TakeIndex(h, req).payloads;
  }

  lemma {:induction false} SubmitPool(s: State, ctx: Context, call: Call, taken: bool)
    requires s.sys.reg.Wf() && |s.log| == |s.sys.heap.futures| && !CallCrashes(s, ctx, call)
    requires AfterSubmit(s, ctx, call, taken).Fine?
    ensures var (h, req) := Prepare(s.sys.heap, ctx, call);
            AfterSubmit(s, ctx, call, taken).value.sys.heap.payloads ==
            if s.sys.reg.free.top >= 0 then TakeIndex(h, req).payloads else h.payloads
  {
    var (h, req) := Prepare(s.sys.heap, ctx, call);
    SubmitRegisters(s, ctx, call, taken);
    RegisterPool(s.sys.reg, h, |s.log|, req, Own(call, s.sys.heap, |s.log|), taken);
  }

  /** Preparing a request leaves the payloads there are; what a call builds has mode NORMAL. */
  lemma {:induction false} PrepareTakes(h: Heap, ctx: Context, call: Call, p: nat)
    requires FixedPayload(h, p)
    ensures var (h1, req) := Prepare(h, ctx, call);
            var h2 := TakeIndex(h1, req);
            && FixedPayload(h1, p) && FixedPayload(h2, p)
            && IndexOf(h1.payloads[p]) == IndexOf(h.payloads[p])
            && IndexOf(h2.payloads[p]) ==
                 Play(IndexOf(h.payloads[p]),
                      if call.Read? && SourceOf(h, ctx, call) == Borrowed(p) then Take else Rest)
  {
  }

  lemma {:induction false} SubmitPlays(s: State, ctx: Context, call: Call, taken: bool, p: nat)
    requires s.sys.reg.Wf() && |s.log| == |s.sys.heap.futures| && FixedPayload(s.sys.heap, p)
    requires AfterSubmit(s, ctx, call, taken).Fine?
    ensures var h' := AfterSubmit(s, ctx, call, taken).value.sys.heap;
            && FixedPayload(h', p)
            && IndexOf(h'.payloads[p]) ==
                 Play(IndexOf(s.sys.heap.payloads[p]), IndexMove(s, Step.Submit(ctx, call, taken), p))
  {
    SubmitPool(s, ctx, call, taken);
    PrepareTakes(s.sys.heap, ctx, call, p);
  }

  // ------------------------------------------------------------------------------- reaps

  /** The switch gives an index back through the payload of the slot, in the cases above, and
      does nothing else to the pool. */
  lemma {:induction false} SwitchReleases(h: Heap, slot: Slot, res: int)
    requires Dispatch(h, slot, res).Fine? && !Failed(slot.opcode, res)
    ensures Dispatch(h, slot, res).value.heap.payloads ==
            if slot.payload.Some? && slot.payload.value < |h.payloads| && Gives(slot, res)
            then ReleaseIndex(h, slot.payload.value).payloads else h.payloads
  {
  }

  /** The successes whose switch case lets go of the payload. */
  predicate LetsGo(slot: Slot) {
    || slot.opcode.OpRead? || slot.opcode.OpReadv? || slot.opcode.OpWrite? || slot.opcode.OpWritev?
    || slot.opcode.OpSend? || slot.opcode.OpSendmsg? || (slot.opcode.OpRecv? && slot.socket.Some?)
    || (slot.opcode.OpRecvmsg? && slot.stream.Oneshot?)
  }

  /** The switch frees the payload of the slot in these cases, unless it is a context's; a write frees
      it even then. */
  lemma {:induction false} SwitchFrees(h: Heap, slot: Slot, res: int)
    requires Dispatch(h, slot, res).Fine? && (slot.payload.Some? ==> slot.payload.value < |h.payloads|)
    ensures var h' := Dispatch(h, slot, res).value.heap;
            if slot.payload.Some? && LetsGo(slot)
               && (slot.opcode.OpWrite? || h.payloads[slot.payload.value].mode.Normal?)
            then h'.released == h.released + multiset{slot.payload.value}
            else h'.released == h.released
  {
    if slot.payload.Some? {
      ReleaseKeeps(h, slot.payload.value);
    }
  }

  lemma {:induction false} RemovePool(s: System, i: nat)
    requires s.reg.Wf() && Remove(s, i).Fine?
    ensures Remove(s, i).value.heap.payloads == s.heap.payloads
  {
  }

  lemma {:induction false} ReapPool(s: System, i: nat, res: int)
    requires s.reg.Wf() && i < |s.reg.slots| && i <= MAX_SIZE && s.reg.slots[i].future.Some?
    requires ReapOne(s, Cqe(i, res)).Fine?
    ensures var slot := s.reg.slots[i];
            ReapOne(s, Cqe(i, res)).value.heap.payloads ==
            if slot.payload.Some? && slot.payload.value < |s.heap.payloads| && Gives(slot, res)
            then ReleaseIndex(s.heap, slot.payload.value).payloads else s.heap.payloads
  {
    ReapUnfolds(s, i, res);
    var slot, f := s.reg.slots[i], s.reg.slots[i].future.value;
    if Failed(slot.opcode, res) {
      RemovePool(System(s.reg, SetException(s.heap, f, OsError(-res))), i);
    } else {
      SwitchReleases(s.heap, slot, res);
      var d := Dispatch(s.heap, slot, res).value;
      SettlePool(d.heap, f, d.delivery);
      RemovePool(System(s.reg.(slots := s.reg.slots[i := d.slot]), Settle(d.heap, f, d.delivery)), i);
    }
  }

  lemma {:induction false} SettlePool(h: Heap, f: nat, d: Option<Delivery>)
    ensures Settle(h, f, d).payloads == h.payloads
  {
  }

  lemma {:induction false} ReleasePlays(h: Heap, q: nat, p: nat)
    requires FixedPayload(h, p) && q < |h.payloads|
    ensures var h' := ReleaseIndex(h, q);
            && FixedPayload(h', p)
            && IndexOf(h'.payloads[p]) == Play(IndexOf(h.payloads[p]), if p == q then Give else Rest)
  {
  }

  lemma {:induction false} ReapPlays(s: State, p: nat)
    requires Shaped(s) && Linked(s) && Queued(s) && s.cq != [] && FixedPayload(s.sys.heap, p) && AfterReap(s).Fine?
    ensures var h' := AfterReap(s).value.sys.heap;
            && FixedPayload(h', p)
            && IndexOf(h'.payloads[p]) == Play(IndexOf(s.sys.heap.payloads[p]), IndexMove(s, Step.Reap, p))
  {
    if s.Ours(s.cq[0]) {
      HeadIsLinked(s);
      ReapSlotPlays(s.sys, s.cq[0].userData, s.cq[0].res, p);
    }
  }

  lemma {:induction false} ReapSlotPlays(s: System, i: nat, res: int, p: nat)
    requires s.reg.Wf() && i < |s.reg.slots| && i <= MAX_SIZE && s.reg.slots[i].future.Some?
    requires s.reg.slots[i].payload.Some? ==> s.reg.slots[i].payload.value < |s.heap.payloads|
    requires FixedPayload(s.heap, p) && ReapOne(s, Cqe(i, res)).Fine?
    ensures var h', slot := ReapOne(s, Cqe(i, res)).value.heap, s.reg.slots[i];
            && FixedPayload(h', p)
            && IndexOf(h'.payloads[p]) ==
                 Play(IndexOf(s.heap.payloads[p]), if slot.payload == Some(p) && Gives(slot, res) then Give else Rest)
  {
    ReapPool(s, i, res);
    if s.reg.slots[i].payload.Some? {
      ReleasePlays(s.heap, s.reg.slots[i].payload.value, p);
    }
  }

  // -------------------------------------------------------------------------------- runs

  lemma {:induction false} CompletePlays(s: State, f: nat, res: int, data: seq<Byte>, memory: seq<Byte>, p: nat)
    requires CanComplete(s, f, res, data, memory) && FixedPayload(s.sys.heap, p)
    ensures var h' := AfterComplete(s, f, res, data, memory).sys.heap;
            FixedPayload(h', p) && IndexOf(h'.payloads[p]) == IndexOf(s.sys.heap.payloads[p])
  {
  }

  lemma {:induction false} DrainPlays(s: System, c: Cqe)
    requires s.reg.Wf() && DrainOne(s, c).Fine?
    ensures DrainOne(s, c).value.heap.payloads == s.heap.payloads
  {
    var i := Decode(c.userData);
    if c.userData != WAKEUP_TAG && 0 <= i < |s.reg.slots| {
      var future := s.reg.slots[i].future;
      var h := if future.Some? then SetException(s.heap, future.value, LoopClosed) else s.heap;
      RemovePool(System(s.reg, h), i);
    }
  }

  /** Every step of the protocol moves the index of every FIXED payload as the machine does. */
  lemma {:induction false} StepPlays(s: State, step: Step, p: nat)
    requires Shaped(s) && Linked(s) && Queued(s) && FixedPayload(s.sys.heap, p)
    requires Enabled(s, step) && Next(s, step).Fine?
    ensures var h' := Next(s, step).value.sys.heap;
            && FixedPayload(h', p)
            && IndexOf(h'.payloads[p]) == Play(IndexOf(s.sys.heap.payloads[p]), IndexMove(s, step, p))
  {
    match step
    case Submit(ctx, call, taken) => SubmitPlays(s, ctx, call, taken, p);
    case Complete(f, res, data, memory) => CompletePlays(s, f, res, data, memory, p);
    case Reap => ReapPlays(s, p);
    case Drain => DrainPlays(s.sys, s.cq[0]);
    case _ =>
  }

  /** Over any run, whatever else goes on, the index of a FIXED payload is where the machine's
      moves take it. */
  lemma {:induction false} RunPlays(s: State, steps: seq<Step>, s': State, p: nat)
    requires Inv(s) && Leads(s, steps, s') && FixedPayload(s.sys.heap, p)
    ensures FixedPayload(s'.sys.heap, p)
    ensures IndexOf(s'.sys.heap.payloads[p]) == PlayAll(IndexOf(s.sys.heap.payloads[p]), IndexMoves(s, steps, p))
    decreases |steps|
  {
    if steps != [] {
      var s1 := Next(s, steps[0]).value;
      StepKeeps(s, steps[0]);
      StepPlays(s, steps[0], p);
      RunPlays(s1, steps[1..], s', p);
      PlayUnfolds(IndexOf(s.sys.heap.payloads[p]), IndexMove(s, steps[0], p), IndexMoves(s1, steps[1..], p));
    }
  }

  lemma {:induction false} PlayUnfolds(x: IndexState, e: IndexEvent, es: seq<IndexEvent>)
    ensures PlayAll(x, [e] + es) == PlayAll(Play(x, e), es)
  {
    assert ([e] + es)[1..] == es;
  }
}
