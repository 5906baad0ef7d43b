/** The memory the C code works on, as values: Python objects and their reference counts,
    futures, buffer payloads, and the request registry with its slots. */
module Runtime {
  import opened Core
  import opened FreeLists
  import opened Vectored

  /** Objects whose references are counted: futures, everything else that is created
      (files, sockets, connections, bytes, integers), and the None singleton. */
  datatype Obj = Fut(n: nat) | Thing(n: nat) | PyNone

  datatype Value =
    | Bytes(bytes: seq<Byte>)
    | Int(n: int)
    | NoneValue
    | OpenedFile(fd: int)
    | OpenedSocket(fd: int)
    | Connection(fd: int)
    | MultishotMessage

  datatype Error = OsError(errno: int) | LoopClosed

  datatype Future = Pending | Cancelled | Result(obj: Obj, value: Value) | Raised(error: Error) {
    predicate Unsettled() { Pending? || Cancelled? }
  }

  /** The first LinearBuffer of a payload, the only one the reader looks at. */
  datatype LinearBuffer = NoLinear | NullBuffer | Buffer(bytes: seq<Byte>)

  datatype Payload = Payload(
    kind: PayloadType,
    mode: BufferMode,
    linear: LinearBuffer,
    vector: Option<Iovecs>,
    idx: FreeList,
    bufIdx: int)

  datatype Heap = Heap(
    refs: multiset<Obj>,
    futures: seq<Future>,
    payloads: seq<Payload>,
    released: multiset<nat>,  // how often each payload has been freed
    things: nat)              // objects created so far

  datatype Slot = Slot(
    userData: int,
    future: Option<nat>,
    stream: StreamStrategy,
    payload: Option<nat>,
    opcode: Opcode,
    file: Option<nat>,
    socket: Option<nat>)

  const EMPTY_SLOT := Slot(0, None, Oneshot, None, OpNop, None, None)

  /** What a call registers. */
  datatype Request = Request(
    op: Opcode,
    stream: StreamStrategy,
    payload: Option<nat>,
    file: Option<nat>,
    socket: Option<nat>)

  datatype Registry = Registry(slots: seq<Slot>, free: FreeList) {
    /** Enough for every operation to stay inside its arrays. */
    ghost predicate Wf() {
      && |slots| == |free.cells| && free.Shape()
      && forall k | 0 <= k <= free.top :: 0 <= free.cells[k] < |slots|
    }

    /** The structural invariant: the free prefix has no duplicates, an index is free exactly
        when its slot has no future, and a slot without a future holds nothing at all. */
    ghost predicate Structured() {
      && Wf() && free.Valid()
      && (forall i | 0 <= i < |slots| :: free.IsFree(i) <==> slots[i].future.None?)
      && (forall i | 0 <= i < |slots| && slots[i].future.None? :: Blank(slots[i]))
    }
  }

  datatype System = System(reg: Registry, heap: Heap)

  predicate Blank(s: Slot) {
    s.future.None? && s.payload.None? && s.file.None? && s.socket.None? && s.opcode.OpNop?
  }

  // ------------------------------------------------------------ references and payloads

  function Incref(h: Heap, o: Obj): Heap { h.(refs := h.refs + multiset{o}) }

  function Decref(h: Heap, o: Obj): Heap { h.(refs := h.refs - multiset{o}) }

  function DecrefAll(h: Heap, os: multiset<Obj>): Heap { h.(refs := h.refs - os) }

  /** A future takes a result, and a reference to it, only while it is pending. */
  function SetResult(h: Heap, f: nat, obj: Obj, v: Value): Heap {
    if f < |h.futures| && h.futures[f].Pending?
    then Incref(h.(futures := h.futures[f := Result(obj, v)]), obj)
    else h
  }

  function SetException(h: Heap, f: nat, e: Error): Heap {
    if f < |h.futures| && h.futures[f].Pending?
    then h.(futures := h.futures[f := Raised(e)])
    else h
  }

  /** free_buffer_payload: the blocks go back unless the payload belongs to a context. */
  function FreePayload(h: Heap, p: nat, force: bool): Heap {
    if p < |h.payloads| && h.payloads[p].mode != Normal && !force then h
    else h.(released := h.released + multiset{p})
  }

  /** The references one slot holds. */
  function Names(s: Slot): multiset<Obj> {
    (if s.future.Some? then multiset{Fut(s.future.value)} else multiset{}) +
    (if s.socket.Some? then multiset{Thing(s.socket.value)} else multiset{}) +
    (if s.file.Some? then multiset{Thing(s.file.value)} else multiset{})
  }

  /** How many references the slots hold on an object. */
  ghost function Held(slots: seq<Slot>, o: Obj): nat {
    if slots == [] then 0 else Held(slots[..|slots| - 1], o) + Names(slots[|slots| - 1])[o]
  }

  lemma {:induction false} HeldUpdate(slots: seq<Slot>, i: nat, v: Slot, o: Obj)
    requires i < |slots|
    ensures Held(slots[i := v], o) == Held(slots, o) - Names(slots[i])[o] + Names(v)[o]
    ensures Held(slots, o) >= Names(slots[i])[o]
  {
    var n := |slots| - 1;
    if i == n {
      assert slots[i := v][..n] == slots[..n];
    } else {
      assert slots[i := v][..n] == slots[..n][i := v] && slots[..n][i] == slots[i];
      HeldUpdate(slots[..n], i, v, o);
    }
  }

  /** How many slots carry a payload. */
  ghost function Carried(slots: seq<Slot>, p: nat): nat {
    if slots == [] then 0
    else Carried(slots[..|slots| - 1], p) + (if slots[|slots| - 1].payload == Some(p) then 1 else 0)
  }

  lemma {:induction false} CarriedUpdate(slots: seq<Slot>, i: nat, v: Slot, p: nat)
    requires i < |slots|
    ensures Carried(slots[i := v], p) ==
            Carried(slots, p) - (if slots[i].payload == Some(p) then 1 else 0) + (if v.payload == Some(p) then 1 else 0)
    ensures slots[i].payload == Some(p) ==> Carried(slots, p) >= 1
  {
    var n := |slots| - 1;
    if i == n {
      assert slots[i := v][..n] == slots[..n];
    } else {
      assert slots[i := v][..n] == slots[..n][i := v] && slots[..n][i] == slots[i];
      CarriedUpdate(slots[..n], i, v, p);
    }
  }

  /** Two slots carrying the same payload are counted twice. */
  lemma CarriedTwice(slots: seq<Slot>, i: nat, j: nat, p: nat)
    requires i < |slots| && j < |slots| && i != j
    requires slots[i].payload == Some(p) && slots[j].payload == Some(p)
    ensures Carried(slots, p) >= 2
  {
    var without := slots[i := EMPTY_SLOT];
    CarriedUpdate(slots, i, EMPTY_SLOT, p);
    CarriedUpdate(without, j, EMPTY_SLOT, p);
  }

  /** How many futures have an object as their result. */
  ghost function Results(futures: seq<Future>, o: Obj): nat {
    if futures == [] then 0
    else Results(futures[..|futures| - 1], o) + ResultOf(futures[|futures| - 1], o)
  }

  function ResultOf(f: Future, o: Obj): nat {
    if f.Result? && f.obj == o then 1 else 0
  }

  lemma {:induction false} ResultsUpdate(futures: seq<Future>, f: nat, st: Future, o: Obj)
    requires f < |futures|
    ensures Results(futures[f := st], o) == Results(futures, o) - ResultOf(futures[f], o) + ResultOf(st, o)
    ensures Results(futures, o) >= ResultOf(futures[f], o)
  {
    var n := |futures| - 1;
    if f == n {
      assert futures[f := st][..n] == futures[..n];
    } else {
      assert futures[f := st][..n] == futures[..n][f := st] && futures[..n][f] == futures[f];
      ResultsUpdate(futures[..n], f, st, o);
    }
  }

  lemma ResultsAppend(futures: seq<Future>, st: Future, o: Obj)
    ensures Results(futures + [st], o) == Results(futures, o) + ResultOf(st, o)
  {
    assert (futures + [st])[..|futures|] == futures;
  }

  lemma {:induction false} NothingHeld(slots: seq<Slot>, o: Obj, p: nat)
    requires forall i | 0 <= i < |slots| :: Blank(slots[i])
    ensures Held(slots, o) == 0 && Carried(slots, p) == 0
  {
    if slots != [] {
      NothingHeld(slots[..|slots| - 1], o, p);
    }
  }

  // ------------------------------------------------------------------------ registry

  function NewRegistry(n: nat): Registry {
    Registry(seq(n, _ => EMPTY_SLOT), Fresh(n))
  }

  function SlotOf(f: nat, req: Request, index: int): Slot {
    Slot(index, Some(f), req.stream, req.payload, req.op, req.file, req.socket)
  }

  /** registry_add: -1 when nothing is free. */
  function Add(s: System, f: nat, req: Request): (System, int)
    requires s.reg.Wf()
  {
    if s.reg.free.top < 0 then (s, -1) else
      var index := s.reg.free.cells[s.reg.free.top];
      var slot := SlotOf(f, req, index);
      (System(Registry(s.reg.slots[index := slot], s.reg.free.Pop()),
              s.heap.(refs := s.heap.refs + Names(slot))),
       index)
  }

  function ClearSlot(s: Slot): Slot {
    s.(future := None, payload := None, socket := None, file := None, opcode := OpNop)
  }

  /** registry_remove: drops the slot's references and its payload, pushes the index. */
  function Remove(s: System, index: int): Outcome<System>
    requires s.reg.Wf()
  {
    var r := s.reg;
    if index < 0 || index >= |r.slots| then Fine(s)
    else if r.free.top >= |r.slots| - 1 then Crashed(Abort)
    else
      var slot := r.slots[index];
      var h := DecrefAll(s.heap, Names(slot));
      var h' := if slot.payload.Some? then FreePayload(h, slot.payload.value, false) else h;
      Fine(System(Registry(r.slots[index := ClearSlot(slot)], r.free.Push(index)), h'))
  }

  lemma NewIsStructured(n: nat)
    ensures NewRegistry(n).Structured()
  {
    FreshIsFull(n);
    var r := NewRegistry(n);
    forall i | 0 <= i < n
      ensures r.free.IsFree(i)
    {
      assert r.free.cells[i] == i;
    }
  }

  /** Adding keeps the structure, uses a slot that was empty and touches no other. */
  lemma AddKeepsStructure(s: System, f: nat, req: Request)
    requires s.reg.Structured() && s.reg.free.top >= 0
    ensures var (s', i) := Add(s, f, req);
            && s'.reg.Structured() && 0 <= i < |s.reg.slots| == |s'.reg.slots|
            && Blank(s.reg.slots[i])
            && s'.reg.slots == s.reg.slots[i := SlotOf(f, req, i)]
  {
    PopHandsOutFree(s.reg.free);
    assert s.reg.free.IsFree(s.reg.free.cells[s.reg.free.top]);
  }

  /** Removing an occupied slot never aborts and keeps the structure. */
  lemma RemoveKeepsStructure(s: System, i: int)
    requires s.reg.Structured() && 0 <= i < |s.reg.slots| && s.reg.slots[i].future.Some?
    ensures Remove(s, i).Fine?
    ensures var s' := Remove(s, i).value;
            && s'.reg.Structured()
            && s'.reg.slots == s.reg.slots[i := ClearSlot(s.reg.slots[i])]
  {
    PushFreesLive(s.reg.free, i);
  }

  /** A call that is refused after registering leaves no trace in the free list, the stale
      cells included: the index it took is the next one handed out again. */
  lemma AddThenRemoveRestores(s: System, f: nat, req: Request)
    requires s.reg.Structured() && s.reg.free.top >= 0
    ensures var (s1, i) := Add(s, f, req);
            && s1.reg.Wf() && Remove(s1, i).Fine?
            && Remove(s1, i).value.reg.free == s.reg.free
            && Remove(s1, i).value.heap.refs == s.heap.refs
            && Remove(s1, i).value.reg.slots[..i] == s.reg.slots[..i]
            && Remove(s1, i).value.reg.slots[i + 1..] == s.reg.slots[i + 1..]
            && Blank(Remove(s1, i).value.reg.slots[i])
  {
    AddKeepsStructure(s, f, req);
    RemoveKeepsStructure(Add(s, f, req).0, Add(s, f, req).1);
    PopThenPush(s.reg.free);
  }
}
