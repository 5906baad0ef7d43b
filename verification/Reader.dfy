/** One iteration of the completion reader, as a function of the registry and the heap. */
module Reader {
  import opened Core
  import opened FreeLists
  import opened Vectored
  import opened Runtime

  datatype Cqe = Cqe(userData: nat, res: int)

  const WAKEUP_TAG := 0xFFFF_FFFF_FFFF_FFFF
  const ETIME := 62

  /** The 64-bit user data cut down to a C int. */
  function Decode(userData: nat): int {
    var low := userData % 0x1_0000_0000;
    if low < 0x8000_0000 then low else low - 0x1_0000_0000
  }

  /** It is the one C int that agrees with the user data in the low 32 bits. */
  lemma DecodeTruncates(userData: nat, i: int)
    ensures Decode(userData) == i <==> -0x8000_0000 <= i < 0x8000_0000 && (userData - i) % 0x1_0000_0000 == 0
  {
    assert userData == userData / 0x1_0000_0000 * 0x1_0000_0000 + userData % 0x1_0000_0000;
  }

  /** An error completion; an expired timer reports -ETIME and is a success. */
  predicate Failed(op: Opcode, res: int) {
    res < 0 && !(op.OpTimeout? && res == -ETIME)
  }

  datatype Delivery = Delivery(obj: Obj, value: Value)

  /** The switch's effect: the heap, the slot, and the result object if there is one. */
  datatype Dispatched = Dispatched(heap: Heap, slot: Slot, delivery: Option<Delivery>)

  function Deref(h: Heap, p: Option<nat>): Outcome<Payload> {
    if p.None? || p.value >= |h.payloads| then Crashed(BadAccess) else Fine(h.payloads[p.value])
  }

  /** Bytes copied out of a buffer; asking for more than it holds is undefined. */
  function Prefix(b: seq<Byte>, res: int): Outcome<seq<Byte>> {
    if 0 <= res <= |b| then Fine(b[..res]) else Crashed(BadAccess)
  }

  function LinearPrefix(l: LinearBuffer, res: int): Outcome<seq<Byte>> {
    match l
    case NoLinear => Crashed(BadAccess)
    case NullBuffer => Crashed(BadAccess)
    case Buffer(b) => Prefix(b, res)
  }

  function VectorPrefix(v: Option<Iovecs>, res: int): Outcome<seq<Byte>> {
    match v
    case None => Crashed(BadAccess)
    case Some(iov) => Prefix(Flatten(iov), res)
  }

  /** FIXED payloads give their buffer index back; a full list refuses it. */
  function ReleaseIndex(h: Heap, p: nat): Heap
    requires p < |h.payloads|
  {
    var b := h.payloads[p];
    if b.mode.Fixed? && 0 <= b.idx.top + 1 < |b.idx.cells|
    then h.(payloads := h.payloads[p := b.(idx := b.idx.Push(b.bufIdx))])
    else h
  }

  function Deliver(h: Heap, slot: Slot, v: Value): Dispatched {
    Dispatched(Incref(h.(things := h.things + 1), Thing(h.things)), slot,
               Some(Delivery(Thing(h.things), v)))
  }

  /** Deliver a value and let go of the payload. */
  function DeliverAndFree(h: Heap, slot: Slot, v: Value, force: bool): Dispatched
    requires slot.payload.Some? && slot.payload.value < |h.payloads|
  {
    Deliver(FreePayload(ReleaseIndex(h, slot.payload.value), slot.payload.value, force),
            slot.(payload := None), v)
  }

  function Dispatch(h: Heap, slot: Slot, res: int): Outcome<Dispatched> {
    match slot.opcode
    case OpRead =>
      var b :- Deref(h, slot.payload);
      if b.linear.NullBuffer? then
        Fine(Dispatched(FreePayload(ReleaseIndex(h, slot.payload.value), slot.payload.value, false),
                        slot.(payload := None), None))
      else
        var bytes :- LinearPrefix(b.linear, res);
        Fine(DeliverAndFree(h, slot, Bytes(bytes), false))
    case OpReadv =>
      var b :- Deref(h, slot.payload);
      var bytes :- VectorPrefix(b.vector, res);
      Fine(Deliver(FreePayload(h, slot.payload.value, false), slot.(payload := None), Bytes(bytes)))
    case OpWrite =>
      var _ :- Deref(h, slot.payload);
      Fine(DeliverAndFree(h, slot, Int(res), true))
    case OpWritev =>
      if slot.payload.None? then Fine(Deliver(h, slot, Int(res)))
      else Fine(Deliver(FreePayload(h, slot.payload.value, false), slot.(payload := None), Int(res)))
    case OpOpenat2 =>
      Fine(Dispatched(h, slot, if slot.file.None? then None
                               else Some(Delivery(Thing(slot.file.value), OpenedFile(res)))))
    case OpSocket =>
      Fine(Dispatched(h, slot, if slot.socket.None? then None
                               else Some(Delivery(Thing(slot.socket.value), OpenedSocket(res)))))
    case OpBind | OpConnect | OpListen =>
      Fine(if slot.socket.None? then Dispatched(h, slot, None) else Deliver(h, slot, Int(res)))
    case OpAccept =>
      Fine(if slot.socket.None? then Dispatched(h, slot, None)
           else Deliver(h, slot.(payload := None), Connection(res)))
    case OpRecv =>
      if slot.socket.None? then Fine(Dispatched(h, slot, None)) else
        var b :- Deref(h, slot.payload);
        var bytes :- if res == 0 then Fine([]) else LinearPrefix(b.linear, res);
        Fine(DeliverAndFree(h, slot, Bytes(bytes), false))
    case OpRecvmsg =>
      var b :- Deref(h, slot.payload);
      if slot.stream.Multishot? then
        // The message is decoded in place; the payload stays with the slot.
        if b.linear.NoLinear? then Crashed(BadAccess)
        else Fine(Deliver(ReleaseIndex(h, slot.payload.value), slot, MultishotMessage))
      else
        var bytes :- if b.kind.Linear? then LinearPrefix(b.linear, res) else VectorPrefix(b.vector, res);
        Fine(DeliverAndFree(h, slot, Bytes(bytes), false))
    case OpSend | OpSendmsg =>
      if slot.payload.None? then Fine(Deliver(h, slot, Int(res)))
      else
        var _ :- Deref(h, slot.payload);
        Fine(DeliverAndFree(h, slot, Int(res), false))
    case OpClose =>
      Fine(if slot.socket.None? && slot.file.None? then Dispatched(h, slot, None)
           else Deliver(h, slot, Int(res)))
    case OpTimeout =>
      Fine(Dispatched(Incref(h, PyNone), slot, Some(Delivery(PyNone, NoneValue))))
    case _ =>
      Fine(Deliver(h, slot, Int(res)))
  }

  /** Hand the result to the future, then drop the reader's own reference. */
  function Settle(h: Heap, f: nat, d: Option<Delivery>): Heap {
    if d.None? then h
    else Decref(SetResult(h, f, d.value.obj, d.value.value), d.value.obj)
  }

  /** The future is told: an exception for an error, otherwise what the switch delivers. */
  function Inform(h: Heap, slot: Slot, f: nat, res: int): Outcome<(Heap, Slot)> {
    if Failed(slot.opcode, res) then Fine((SetException(h, f, OsError(-res)), slot))
    else
      var d :- Dispatch(h, slot, res);
      Fine((Settle(d.heap, f, d.delivery), d.slot))
  }

  /** The future told, the slot about to be removed. */
  function Tell(s: System, index: nat, f: nat, res: int): Outcome<System>
    requires s.reg.Wf() && index < |s.reg.slots|
  {
    var (h, slot) :- Inform(s.heap, s.reg.slots[index], f, res);
    Fine(System(s.reg.(slots := s.reg.slots[index := slot]), h))
  }

  /** A completion that found a slot with a future in it. */
  function ReapSlot(s: System, index: nat, f: nat, res: int): Outcome<System>
    requires s.reg.Wf() && index < |s.reg.slots|
  {
    var s1 :- Tell(s, index, f, res);
    Remove(s1, index)
  }

  /** One trip round the reader's loop. */
  function ReapOne(s: System, c: Cqe): Outcome<System>
    requires s.reg.Wf()
  {
    var index := Decode(c.userData);
    if index < 0 || index >= |s.reg.slots| || s.reg.slots[index].future.None? then Fine(s)
    else ReapSlot(s, index, s.reg.slots[index].future.value, c.res)
  }

  /** The whole loop over the completions that are visible. */
  function ReapAll(s: System, cq: seq<Cqe>): Outcome<System>
    requires s.reg.Structured()
    decreases |cq|
  {
    if cq == [] then Fine(s) else
      var s1 :- ReapOne(s, cq[0]);
      ReapKeepsStructure(s, cq[0]);
      ReapAll(s1, cq[1..])
  }

  /** Whatever the completion says (freed, duplicated, out of range, the wakeup tag), the reader
      never reaches abort() and keeps the registry's structure. */
  lemma ReapKeepsStructure(s: System, c: Cqe)
    requires s.reg.Structured()
    ensures ReapOne(s, c) != Crashed(Abort)
    ensures ReapOne(s, c).Fine? ==>
              ReapOne(s, c).value.reg.Structured() && |ReapOne(s, c).value.reg.slots| == |s.reg.slots|
  {
    var i := Decode(c.userData);
    if 0 <= i < |s.reg.slots| && s.reg.slots[i].future.Some? {
      var slot := s.reg.slots[i];
      if Failed(slot.opcode, c.res) {
        RemoveKeepsStructure(System(s.reg, SetException(s.heap, slot.future.value, OsError(-c.res))), i);
      } else if Dispatch(s.heap, slot, c.res).Fine? {
        var d := Dispatch(s.heap, slot, c.res).value;
        DispatchKeepsFuture(s.heap, slot, c.res);
        var r := s.reg.(slots := s.reg.slots[i := d.slot]);
        assert r.Structured();
        RemoveKeepsStructure(System(r, Settle(d.heap, slot.future.value, d.delivery)), i);
      }
    }
  }

  /** The switch never aborts and changes nothing of the slot but its payload pointer. */
  lemma DispatchKeepsFuture(h: Heap, slot: Slot, res: int)
    ensures Dispatch(h, slot, res) != Crashed(Abort)
    ensures Dispatch(h, slot, res).Fine? ==>
              var d := Dispatch(h, slot, res).value;
              d.slot == slot || d.slot == slot.(payload := None)
  {
  }

  /** The robustness law: after any stream of completions the structure still stands. */
  lemma {:induction false} AnyStreamIsHarmless(s: System, cq: seq<Cqe>)
    requires s.reg.Structured()
    ensures ReapAll(s, cq) != Crashed(Abort)
    ensures ReapAll(s, cq).Fine? ==>
              var r := ReapAll(s, cq).value.reg;
              r.Structured() && |r.slots| == |s.reg.slots| && |r.free.Live()| + r.free.top + 1 == |s.reg.slots|
    decreases |cq|
  {
    if cq == [] {
      FreePlusLive(s.reg.free);
    } else {
      ReapKeepsStructure(s, cq[0]);
      if ReapOne(s, cq[0]).Fine? {
        AnyStreamIsHarmless(ReapOne(s, cq[0]).value, cq[1..]);
      }
    }
  }

  /** The wakeup tag decodes to -1, so its completion is dropped before the branch that would
      re-arm the read; so is every completion whose low word is no slot. */
  lemma ForeignIsDropped(s: System, c: Cqe)
    requires s.reg.Wf()
    ensures WAKEUP_TAG == 0xFFFF_FFFF_FFFF_FFFF && Decode(WAKEUP_TAG) == -1
    ensures !(0 <= Decode(c.userData) < |s.reg.slots|) ==> ReapOne(s, c) == Fine(s)
    ensures c.userData == WAKEUP_TAG ==> ReapOne(s, c) == Fine(s)
  {
  }
}
