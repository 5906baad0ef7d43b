/** Every step of the protocol keeps the invariant. */
module Invariant {
  import opened Core
  import opened FreeLists
  import opened Vectored
  import opened Runtime
  import opened Reader
  import opened Requests
  import opened Protocol

  lemma InitInv(n: nat)
    requires 1 <= n <= MAX_SIZE
    ensures Inv(Init(n))
  {
    NewIsStructured(n);
    forall o: Obj
      ensures Held(Init(n).sys.reg.slots, o) == 0
    {
      NothingHeld(Init(n).sys.reg.slots, o, 0);
    }
  }

  // ------------------------------------------------------------------------------ frames

  /** What the reader's safety depends on: everything but the bytes and the fixed indices. */
  ghost predicate SameForm(b: Payload, b': Payload) {
    && b'.kind == b.kind && b'.mode == b.mode
    && b'.linear.Buffer? == b.linear.Buffer? && b'.linear.NoLinear? == b.linear.NoLinear?
    && b'.vector.Some? == b.vector.Some? && Room(b') == Room(b)
  }

  /** Payloads keep their form; new ones may appear. */
  ghost predicate PoolKeeps(h: Heap, h': Heap) {
    && |h.payloads| <= |h'.payloads|
    && forall p | 0 <= p < |h.payloads| :: SameForm(h.payloads[p], h'.payloads[p])
  }

  /** Payloads keep their bytes too. */
  ghost predicate PoolExtends(h: Heap, h': Heap) {
    && |h.payloads| <= |h'.payloads|
    && forall p | 0 <= p < |h.payloads| ::
         h'.payloads[p] == h.payloads[p].(idx := h'.payloads[p].idx, bufIdx := h'.payloads[p].bufIdx)
  }

  lemma ExtendsKeeps(h: Heap, h': Heap)
    requires PoolExtends(h, h')
    ensures PoolKeeps(h, h')
  {
  }

  lemma WellFormedFrame(h: Heap, h': Heap, req: Request)
    requires PoolKeeps(h, h') && WellFormed(h, req)
    ensures WellFormed(h', req)
    ensures req.payload.Some? ==>
              ContextOwned(h'.payloads[req.payload.value]) == ContextOwned(h.payloads[req.payload.value])
  {
    if req.payload.Some? {
      assert SameForm(h.payloads[req.payload.value], h'.payloads[req.payload.value]);
    }
  }

  /** The bytes of a private reading request are untouched. */
  ghost predicate BytesKept(h: Heap, h': Heap, l: Logged) {
    l.private && l.req.payload.Some? && l.req.payload.value < |h.payloads| <= |h'.payloads| ==>
      var b, b' := h.payloads[l.req.payload.value], h'.payloads[l.req.payload.value];
      b'.linear == b.linear && b'.vector == b.vector
  }

  lemma StoredFrame(h: Heap, h': Heap, l: Logged, p: Posted)
    requires PoolKeeps(h, h') && BytesKept(h, h', l) && Stored(h, l, p)
    ensures Stored(h', l, p)
  {
    if Reading(l.req.op) && p.res >= 0 {
      assert SameForm(h.payloads[l.req.payload.value], h'.payloads[l.req.payload.value]);
    }
  }

  /** The futures of occupied slots stay unsettled. */
  ghost predicate StillUnsettled(s: State, s': State) {
    && |s.sys.heap.futures| <= |s'.sys.heap.futures|
    && forall f | 0 <= f < |s.sys.heap.futures| && s.sys.heap.futures[f].Unsettled() ::
         s'.sys.heap.futures[f].Unsettled()
  }

  lemma SlotFrame(s: State, s': State, i: int)
    requires Shaped(s) && Shaped(s') && s.Occupied(i) && SlotLinked(s, i)
    requires s'.Occupied(i) && s'.sys.reg.slots[i] == s.sys.reg.slots[i]
    requires s.log <= s'.log && PoolKeeps(s.sys.heap, s'.sys.heap)
    requires s'.sys.heap.futures[s.Owner(i)].Unsettled()
    requires s.Owner(i) in s'.inFlight || InQueue(s'.cq, i)
    ensures SlotLinked(s', i)
  {
    WellFormedFrame(s.sys.heap, s'.sys.heap, s.log[s.Owner(i)].req);
  }

  lemma CqeFrame(s: State, s': State, c: Cqe)
    requires s.Ours(c) && CqeLinked(s, c)
    requires s'.Ours(c) && s'.Occupied(Decode(c.userData))
    requires s'.Owner(Decode(c.userData)) == s.Owner(Decode(c.userData))
    requires s.log <= s'.log && PoolKeeps(s.sys.heap, s'.sys.heap)
    requires BytesKept(s.sys.heap, s'.sys.heap, s.log[s.Owner(Decode(c.userData))])
    requires s.Owner(Decode(c.userData)) !in s'.inFlight && s.Owner(Decode(c.userData)) in s'.posted
    requires s'.posted[s.Owner(Decode(c.userData))] == s.posted[s.Owner(Decode(c.userData))]
    ensures CqeLinked(s', c)
  {
    var f := s.Owner(Decode(c.userData));
    StoredFrame(s.sys.heap, s'.sys.heap, s.log[f], s.posted[f]);
  }

  /** Steps that leave the table, the queue and the kernel's view alone. */
  lemma QuietKeeps(s: State, s': State)
    requires Shaped(s) && Linked(s) && Queued(s) && Shaped(s')
    requires s'.sys.reg == s.sys.reg && s'.cq == s.cq && s'.inFlight == s.inFlight
    requires s'.log == s.log && s'.posted == s.posted
    requires PoolExtends(s.sys.heap, s'.sys.heap) && StillUnsettled(s, s')
    ensures Linked(s') && Queued(s')
  {
    ExtendsKeeps(s.sys.heap, s'.sys.heap);
    forall i | s'.Occupied(i)
      ensures SlotLinked(s', i)
    {
      assert SlotLinked(s, i);
      SlotFrame(s, s', i);
    }
    forall k | 0 <= k < |s'.cq| && s'.Ours(s'.cq[k])
      ensures CqeLinked(s', s'.cq[k])
    {
      assert s.Ours(s.cq[k]);
      CqeFrame(s, s', s.cq[k]);
    }
  }

  lemma CountedFrame(s: State, s': State)
    requires Counted(s) && Creating(s)
    requires s'.sys.reg.slots == s.sys.reg.slots && s'.sys.heap == s.sys.heap.(payloads := s'.sys.heap.payloads)
    requires s'.external == s.external && s'.left == s.left
    ensures Counted(s') && Creating(s')
  {
  }

  lemma OnceFrame(s: State, s': State)
    requires Once(s)
    requires s'.sys.reg.slots == s.sys.reg.slots
    requires s'.sys.heap.payloads == s.sys.heap.payloads && s'.sys.heap.released == s.sys.heap.released
    ensures Once(s')
  {
  }

  lemma SettledFrame(s: State, s': State)
    requires Shaped(s) && Shaped(s') && Settled(s)
    requires s'.sys.heap.futures == s.sys.heap.futures && s'.log == s.log && s'.posted == s.posted
    ensures Settled(s')
  {
  }

  // -------------------------------------------------------------------- the simple steps

  lemma StrayKeeps(s: State, c: Cqe)
    requires Inv(s) && !s.Ours(c)
    ensures Inv(s.(cq := s.cq + [c]))
  {
    var s' := s.(cq := s.cq + [c]);
    StrayLinks(s, c);
    CountedFrame(s, s');
    OnceFrame(s, s');
    SettledFrame(s, s');
  }

  lemma StrayLinks(s: State, c: Cqe)
    requires Shaped(s) && Linked(s) && Queued(s) && !s.Ours(c)
    ensures var s' := s.(cq := s.cq + [c]); Shaped(s') && Linked(s') && Queued(s')
  {
    var s' := s.(cq := s.cq + [c]);
    forall i | s'.Occupied(i)
      ensures SlotLinked(s', i)
    {
      assert SlotLinked(s, i);
      if InQueue(s.cq, i) {
        var k :| 0 <= k < |s.cq| && s.cq[k].userData == i;
        assert s'.cq[k].userData == i;
      }
    }
  }

  lemma CancelKeeps(s: State, f: nat)
    requires Inv(s) && f < |s.sys.heap.futures| && s.sys.heap.futures[f].Pending?
    ensures Inv(AfterCancel(s, f))
  {
    var s' := AfterCancel(s, f);
    QuietKeeps(s, s');
    OnceFrame(s, s');
    forall o
      ensures Results(s'.sys.heap.futures, o) == Results(s.sys.heap.futures, o)
    {
      ResultsUpdate(s.sys.heap.futures, f, Cancelled, o);
    }
    assert Counted(s') && Creating(s');
  }

  lemma RetainKeeps(s: State, o: Obj)
    requires Inv(s) && Obtainable(s, o)
    ensures Inv(AfterRetain(s, o))
  {
    var s' := AfterRetain(s, o);
    QuietKeeps(s, s');
    OnceFrame(s, s');
    SettledFrame(s, s');
    RetainCounts(s, o);
  }

  /** The books when only the callers' share of one object changes. */
  lemma UserBooks(s: State, s': State, o: Obj)
    requires Counted(s) && Creating(s) && Obtainable(s, o)
    requires s'.sys.reg == s.sys.reg && s'.sys.heap == s.sys.heap.(refs := s'.sys.heap.refs) && s'.left == s.left
    requires forall x :: s'.sys.heap.refs[x] + s.external[x] == s.sys.heap.refs[x] + s'.external[x]
    requires forall x | x != o :: s'.external[x] == s.external[x]
    ensures Counted(s') && Creating(s')
  {
    assert s.sys.heap.refs[o] == Share(s, o) >= 1;
    UserCounts(s, s', o);
    forall i | s'.Occupied(i) && IsCreation(s'.sys.reg.slots[i].opcode)
      ensures NewBorn(s', CreatedBy(s'.sys.reg.slots[i]))
    {
      assert s.Occupied(i) && NewBorn(s, CreatedBy(s.sys.reg.slots[i])) && CreatedBy(s.sys.reg.slots[i]) != o;
    }
  }

  lemma UserCounts(s: State, s': State, o: Obj)
    requires Counted(s) && s.sys.heap.refs[o] >= 1
    requires s'.sys.reg == s.sys.reg && s'.sys.heap == s.sys.heap.(refs := s'.sys.heap.refs) && s'.left == s.left
    requires forall x :: s'.sys.heap.refs[x] + s.external[x] == s.sys.heap.refs[x] + s'.external[x]
    requires forall x | x != o :: s'.external[x] == s.external[x]
    ensures Counted(s')
  {
    forall x
      ensures s'.sys.heap.refs[x] == Share(s', x)
      ensures x != o ==> s'.sys.heap.refs[x] == s.sys.heap.refs[x]
    {
      assert s.sys.heap.refs[x] == Share(s, x);
    }
  }

  lemma RetainCounts(s: State, o: Obj)
    requires Counted(s) && Creating(s) && Obtainable(s, o)
    ensures Counted(AfterRetain(s, o)) && Creating(AfterRetain(s, o))
  {
    UserBooks(s, AfterRetain(s, o), o);
  }

  lemma DropKeeps(s: State, o: Obj)
    requires Inv(s) && Usable(s, o)
    ensures Inv(AfterDrop(s, o))
  {
    var s' := AfterDrop(s, o);
    QuietKeeps(s, s');
    OnceFrame(s, s');
    SettledFrame(s, s');
    DropCounts(s, o);
  }

  lemma DropShares(refs: multiset<Obj>, external: multiset<Obj>, o: Obj)
    requires o in refs && o in external
    ensures forall x :: (refs - multiset{o})[x] + external[x] == refs[x] + (external - multiset{o})[x]
    ensures forall x | x != o :: (external - multiset{o})[x] == external[x]
  {
  }

  lemma DropCounts(s: State, o: Obj)
    requires Counted(s) && Creating(s) && Usable(s, o)
    ensures Counted(AfterDrop(s, o)) && Creating(AfterDrop(s, o))
  {
    assert s.sys.heap.refs[o] >= s.external[o];
    DropShares(s.sys.heap.refs, s.external, o);
    UserBooks(s, AfterDrop(s, o), o);
  }

  lemma InstallKeeps(s: State, b: Payload)
    requires Inv(s) && ContextOwned(b) && ContextPayload(b)
    ensures Inv(AfterInstall(s, b))
  {
    var s' := AfterInstall(s, b);
    QuietKeeps(s, s');
    CountedFrame(s, s');
    SettledFrame(s, s');
    assert Once(s');
  }

  // ---------------------------------------------------------------- the kernel completes

  lemma DepositKeepsForm(b: Payload, data: seq<Byte>, memory: seq<Byte>)
    requires |data| <= Room(b) && (b.linear.Buffer? ==> |memory| == |b.linear.bytes|)
    ensures SameForm(b, Deposit(b, data, memory))
    ensures !Selected(b) && (if b.kind.Linear? then b.linear.Buffer? else b.vector.Some?) ==>
              Content(Deposit(b, data, memory), |data|) == data
  {
    if !Selected(b) && !b.kind.Linear? && b.vector.Some? {
      GatherUndoesScatter(b.vector.value, data);
    }
  }

  /** A private payload is carried by one slot only, so nobody else's data lands in it. */
  lemma PrivateIsUnshared(s: State, i: int, j: int)
    requires Shaped(s) && Linked(s) && Once(s)
    requires s.Occupied(i) && s.Occupied(j) && i != j
    requires s.log[s.Owner(i)].private && s.sys.reg.slots[i].payload.Some?
    ensures s.sys.reg.slots[j].payload != s.sys.reg.slots[i].payload
  {
    assert SlotLinked(s, i) && SlotLinked(s, j);
    if s.sys.reg.slots[j].payload == s.sys.reg.slots[i].payload {
      CarriedTwice(s.sys.reg.slots, i, j, s.sys.reg.slots[i].payload.value);
    }
  }

  lemma CompleteKeeps(s: State, f: nat, res: int, data: seq<Byte>, memory: seq<Byte>)
    requires Inv(s) && CanComplete(s, f, res, data, memory)
    ensures Inv(AfterComplete(s, f, res, data, memory))
  {
    var s' := AfterComplete(s, f, res, data, memory);
    CompleteShape(s, f, res, data, memory);
    CompleteLinks(s, f, res, data, memory);
    CompleteQueues(s, f, res, data, memory);
    CountedFrame(s, s');
    assert SlotLinked(s, s.log[f].index);
    CompleteSettles(s, f, s');
  }

  lemma CompleteShape(s: State, f: nat, res: int, data: seq<Byte>, memory: seq<Byte>)
    requires Shaped(s) && CanComplete(s, f, res, data, memory)
    ensures var s' := AfterComplete(s, f, res, data, memory);
            Shaped(s') && PoolKeeps(s.sys.heap, s'.sys.heap) && (Once(s) ==> Once(s'))
  {
    var s' := AfterComplete(s, f, res, data, memory);
    var req := s.log[f].req;
    if Reading(req.op) && res >= 0 {
      DepositKeepsForm(s.sys.heap.payloads[req.payload.value], data, memory);
    }
    assert forall p | 0 <= p < |s.sys.heap.payloads| :: SameForm(s.sys.heap.payloads[p], s'.sys.heap.payloads[p]);
  }

  lemma CompleteSettles(s: State, f: nat, s': State)
    requires Shaped(s) && Shaped(s') && Settled(s)
    requires f < |s.sys.heap.futures| && s.sys.heap.futures[f].Unsettled()
    requires s'.sys.heap.futures == s.sys.heap.futures && s'.log == s.log
    requires forall g | g in s.posted && g != f :: g in s'.posted && s'.posted[g] == s.posted[g]
    ensures Settled(s')
  {
  }

  lemma CompleteLinks(s: State, f: nat, res: int, data: seq<Byte>, memory: seq<Byte>)
    requires Shaped(s) && Linked(s) && CanComplete(s, f, res, data, memory)
    ensures var s' := AfterComplete(s, f, res, data, memory); Shaped(s') && Linked(s')
  {
    var s' := AfterComplete(s, f, res, data, memory);
    CompleteShape(s, f, res, data, memory);
    forall i | s'.Occupied(i)
      ensures SlotLinked(s', i)
    {
      assert SlotLinked(s, i);
      if s.Owner(i) == f {
        assert s'.cq[|s.cq|].userData == i;
      } else if InQueue(s.cq, i) {
        var k :| 0 <= k < |s.cq| && s.cq[k].userData == i;
        assert s'.cq[k].userData == i;
      }
      SlotFrame(s, s', i);
    }
  }

  lemma CompleteQueues(s: State, f: nat, res: int, data: seq<Byte>, memory: seq<Byte>)
    requires Shaped(s) && Linked(s) && Queued(s) && Once(s) && CanComplete(s, f, res, data, memory)
    ensures Queued(AfterComplete(s, f, res, data, memory))
  {
    var s' := AfterComplete(s, f, res, data, memory);
    CompleteShape(s, f, res, data, memory);
    var i := s.log[f].index;
    assert SlotLinked(s, i);
    var n := |s.cq|;
    CompletedIsLinked(s, f, res, data, memory);
    forall k | 0 <= k < n && s'.Ours(s'.cq[k])
      ensures CqeLinked(s', s'.cq[k]) && s'.cq[k].userData != i
    {
      assert s'.cq[k] == s.cq[k] && s.Ours(s.cq[k]);
      EarlierStaysQueued(s, f, res, data, memory, s.cq[k]);
    }
  }

  lemma CompletedIsLinked(s: State, f: nat, res: int, data: seq<Byte>, memory: seq<Byte>)
    requires Shaped(s) && Linked(s) && CanComplete(s, f, res, data, memory)
    ensures var s', c := AfterComplete(s, f, res, data, memory), Cqe(s.log[f].index, res);
            s'.Ours(c) && CqeLinked(s', c)
  {
    assert SlotLinked(s, s.log[f].index);
    DecodeIndex(s.log[f].index);
    CompletedIsStored(s, f, res, data, memory);
  }

  lemma EarlierStaysQueued(s: State, f: nat, res: int, data: seq<Byte>, memory: seq<Byte>, c: Cqe)
    requires Shaped(s) && Linked(s) && Once(s) && CanComplete(s, f, res, data, memory)
    requires s.Ours(c) && CqeLinked(s, c)
    ensures CqeLinked(AfterComplete(s, f, res, data, memory), c)
    ensures c.userData != s.log[f].index
  {
    var s' := AfterComplete(s, f, res, data, memory);
    CompleteShape(s, f, res, data, memory);
    var i, j := s.log[f].index, Decode(c.userData);
    assert SlotLinked(s, i) && SlotLinked(s, j);
    if s.log[s.Owner(j)].private && s.sys.reg.slots[j].payload.Some? {
      PrivateIsUnshared(s, j, i);
    }
    CqeFrame(s, s', c);
  }

  lemma CompletedIsStored(s: State, f: nat, res: int, data: seq<Byte>, memory: seq<Byte>)
    requires Shaped(s) && CanComplete(s, f, res, data, memory)
    requires s.Occupied(s.log[f].index) && SlotLinked(s, s.log[f].index) && s.Owner(s.log[f].index) == f
    ensures Stored(AfterComplete(s, f, res, data, memory).sys.heap, s.log[f], Posted(res, data))
  {
    var req := s.log[f].req;
    if Reading(req.op) && res >= 0 {
      DepositKeepsForm(s.sys.heap.payloads[req.payload.value], data, memory);
    }
  }

  // ------------------------------------------------------------------------------- calls

  lemma TakeIndexKeeps(h: Heap, req: Request)
    ensures var h' := TakeIndex(h, req);
            && h' == h.(payloads := h'.payloads)
            && |h'.payloads| == |h.payloads| && PoolExtends(h, h')
            && (PoolOk(h) ==> PoolOk(h')) && (WellFormed(h, req) ==> WellFormed(h', req))
  {
    var h' := TakeIndex(h, req);
    if WellFormed(h, req) {
      ExtendsKeeps(h, h');
      WellFormedFrame(h, h', req);
    }
  }

  /** The registry holds one more request, in a slot that was empty. */
  ghost predicate Filled(r: Registry, r': Registry, i: int, slot: Slot) {
    0 <= i < |r.slots| && Blank(r.slots[i]) && r'.Structured() && r'.slots == r.slots[i := slot]
  }

  /** The registry holds what it held. */
  ghost predicate SameTable(r: Registry, r': Registry) {
    && r'.Structured() && r'.free == r.free && |r'.slots| == |r.slots|
    && forall i | 0 <= i < |r.slots| :: r'.slots[i] == r.slots[i] || (Blank(r.slots[i]) && Blank(r'.slots[i]))
  }

  /** Fixed-index bookkeeping aside, the heap has changed only in counts and releases. */
  ghost predicate HeapDelta(h: Heap, h': Heap, refs: multiset<Obj>, released: multiset<nat>) {
    && h'.refs == refs && h'.released == released
    && h'.futures == h.futures && h'.things == h.things
    && |h'.payloads| == |h.payloads| && PoolExtends(h, h') && PoolOk(h')
  }

  /** A registration that succeeds fills one slot and takes a reference on each thing it names. */
  lemma RegisterAccepts(r: Registry, h: Heap, f: nat, req: Request, own: multiset<Obj>)
    requires r.Structured() && r.free.top >= 0 && PoolOk(h) && WellFormed(h, req)
    ensures var sub := Register(r, h, f, req, own, true);
            && sub.Fine? && sub.value.answer.Accepted? && sub.value.future == f && sub.value.req == req
            && (var i := sub.value.answer.index;
                && Filled(r, sub.value.sys.reg, i, SlotOf(f, req, i))
                && HeapDelta(h, sub.value.sys.heap, h.refs + Names(SlotOf(f, req, i)), h.released)
                && WellFormed(sub.value.sys.heap, req))
  {
    AddKeepsStructure(System(r, h), f, req);
    var h1 := Add(System(r, h), f, req).0.heap;
    assert PoolOk(h1) && WellFormed(h1, req);
    TakeIndexKeeps(h1, req);
  }

  ghost function FreedOnDecline(h: Heap, req: Request): multiset<nat> {
    if req.payload.Some? && req.payload.value < |h.payloads| && h.payloads[req.payload.value].mode.Normal?
    then multiset{req.payload.value} else multiset{}
  }

  /** A registration that cannot go through (registry full, or no entry in the ring) leaves the
      table and the free list as they were, drops the call's own references and frees the
      payload unless a context owns it. */
  lemma RegisterDeclines(r: Registry, h: Heap, f: nat, req: Request, own: multiset<Obj>, taken: bool)
    requires r.Structured() && PoolOk(h) && WellFormed(h, req)
    requires r.free.top < 0 || !taken
    ensures var sub := Register(r, h, f, req, own, taken);
            && sub.Fine? && sub.value.answer == (if r.free.top < 0 then Full else Refused)
            && SameTable(r, sub.value.sys.reg)
            && HeapDelta(h, sub.value.sys.heap, h.refs - own, h.released + FreedOnDecline(h, req))
  {
    if r.free.top >= 0 {
      RegisterRefuses(r, h, f, req, own);
    }
  }

  lemma RegisterRefuses(r: Registry, h: Heap, f: nat, req: Request, own: multiset<Obj>)
    requires r.Structured() && PoolOk(h) && WellFormed(h, req) && r.free.top >= 0
    ensures var sub := Register(r, h, f, req, own, false);
            && sub.Fine? && sub.value.answer == Refused
            && SameTable(r, sub.value.sys.reg)
            && HeapDelta(h, sub.value.sys.heap, h.refs - own, h.released + FreedOnDecline(h, req))
  {
    RefusalResult(r, h, f, req, own);
    var s' := Register(r, h, f, req, own, false).value.sys;
    var (s1, i) := Add(System(r, h), f, req);
    CancelNames(h.refs, Names(SlotOf(f, req, i)), own);
    TakeThenDrop(h, s1.heap, s'.heap, req);
  }

  lemma RefusalResult(r: Registry, h: Heap, f: nat, req: Request, own: multiset<Obj>)
    requires r.Structured() && r.free.top >= 0
    ensures var sub := Register(r, h, f, req, own, false);
            && sub.Fine? && sub.value.answer == Refused
            && SameTable(r, sub.value.sys.reg)
            && (var (s1, i) := Add(System(r, h), f, req);
                && s1.heap == h.(refs := h.refs + Names(SlotOf(f, req, i)))
                && (var h3 := DecrefAll(DecrefAll(TakeIndex(s1.heap, req), own), Names(SlotOf(f, req, i)));
                    sub.value.sys.heap == if req.payload.Some? then FreePayload(h3, req.payload.value, false) else h3))
  {
    AddKeepsStructure(System(r, h), f, req);
    RollBack(r, h, f, req, DecrefAll(TakeIndex(Add(System(r, h), f, req).0.heap, req), own));
  }

  lemma TakeThenDrop(h: Heap, h1: Heap, h4: Heap, req: Request)
    requires PoolOk(h) && WellFormed(h, req) && h1 == h.(refs := h1.refs)
    requires var h3 := TakeIndex(h1, req).(refs := h4.refs);
             h4 == if req.payload.Some? then FreePayload(h3, req.payload.value, false) else h3
    ensures HeapDelta(h, h4, h4.refs, h.released + FreedOnDecline(h, req))
  {
    TakeIndexKeeps(h1, req);
    assert PoolExtends(h, h4) && PoolOk(h4);
  }

  /** Removing a slot just added restores the table, whatever has happened to the heap. */
  lemma RollBack(r: Registry, h: Heap, f: nat, req: Request, h2: Heap)
    requires r.Structured() && r.free.top >= 0
    ensures var (s1, i) := Add(System(r, h), f, req);
            && s1.reg.Wf() && Remove(System(s1.reg, h2), i).Fine?
            && (var s2 := Remove(System(s1.reg, h2), i).value;
                && SameTable(r, s2.reg)
                && s2.heap == (var h3 := DecrefAll(h2, Names(SlotOf(f, req, i)));
                               if req.payload.Some? then FreePayload(h3, req.payload.value, false) else h3))
  {
    AddKeepsStructure(System(r, h), f, req);
    var (s1, i) := Add(System(r, h), f, req);
    RemoveKeepsStructure(System(s1.reg, h2), i);
    PopThenPush(r.free);
  }

  lemma AddThenDrop(refs: multiset<Obj>, own: multiset<Obj>)
    ensures (refs + own) - own == refs
  {
  }

  lemma CancelNames(refs: multiset<Obj>, names: multiset<Obj>, own: multiset<Obj>)
    ensures ((refs + names) - own) - names == refs - own
  {
  }

  lemma {:induction false} SameCounts(a: seq<Slot>, b: seq<Slot>, o: Obj, p: nat)
    requires |a| == |b| && forall i | 0 <= i < |a| :: b[i] == a[i] || (Blank(a[i]) && Blank(b[i]))
    ensures Held(b, o) == Held(a, o) && Carried(b, p) == Carried(a, p)
  {
    if a != [] {
      SameCounts(a[..|a| - 1], b[..|b| - 1], o, p);
    }
  }

  lemma {:induction false} CarriedByNone(slots: seq<Slot>, p: nat)
    requires forall i | 0 <= i < |slots| :: slots[i].payload != Some(p)
    ensures Carried(slots, p) == 0
  {
    if slots != [] {
      CarriedByNone(slots[..|slots| - 1], p);
    }
  }

  /** No slot carries a payload that does not exist yet. */
  lemma NewPayloadIsUncarried(s: State, p: nat)
    requires Shaped(s) && Linked(s) && p >= |s.sys.heap.payloads|
    ensures Carried(s.sys.reg.slots, p) == 0
  {
    forall i | 0 <= i < |s.sys.reg.slots|
      ensures s.sys.reg.slots[i].payload != Some(p)
    {
      if s.Occupied(i) {
        assert SlotLinked(s, i);
      }
    }
    CarriedByNone(s.sys.reg.slots, p);
  }

  /** What a call does to the heap apart from reference counts and releases. */
  ghost predicate Grown(h: Heap, h': Heap, private: bool) {
    && h'.futures == h.futures + [Pending] && h'.things >= h.things
    && |h'.payloads| == |h.payloads| + (if private then 1 else 0)
    && PoolExtends(h, h') && PoolOk(h')
    && (private ==> !ContextOwned(h'.payloads[|h.payloads|]))
  }

  /** The requests already outstanding are not disturbed by a further call. */
  lemma OthersStay(s: State, s': State, private: bool)
    requires Shaped(s) && Linked(s) && Queued(s) && Shaped(s')
    requires Grown(s.sys.heap, s'.sys.heap, private)
    requires |s'.sys.reg.slots| == |s.sys.reg.slots|
    requires forall i | s.Occupied(i) :: s'.sys.reg.slots[i] == s.sys.reg.slots[i]
    requires s.inFlight <= s'.inFlight <= s.inFlight + {|s.log|}
    requires s'.cq == s.cq && s'.posted == s.posted && s.log <= s'.log
    ensures forall i | s.Occupied(i) :: SlotLinked(s', i)
    ensures forall f | f in s.inFlight ::
              f < |s'.log| && s'.Occupied(s'.log[f].index) && s'.Owner(s'.log[f].index) == f && f !in s'.posted
    ensures Queued(s')
  {
    ExtendsKeeps(s.sys.heap, s'.sys.heap);
    forall i | s.Occupied(i)
      ensures SlotLinked(s', i)
    {
      assert SlotLinked(s, i);
      SlotFrame(s, s', i);
    }
    forall k | 0 <= k < |s'.cq| && s'.Ours(s'.cq[k])
      ensures CqeLinked(s', s'.cq[k])
    {
      assert s.Ours(s.cq[k]);
      CqeFrame(s, s', s.cq[k]);
    }
  }

  lemma SettledGrows(s: State, s': State)
    requires Shaped(s) && Shaped(s') && Settled(s)
    requires s'.sys.heap.futures == s.sys.heap.futures + [Pending] && s.log <= s'.log && s'.posted == s.posted
    ensures Settled(s')
  {
  }

  // A call that is declined.

  lemma DeclinedKeeps(s: State, s': State, l: Logged)
    requires Inv(s) && Declined(s, s', l)
    ensures Inv(s')
  {
    assert Shaped(s');
    OthersStay(s, s', l.private);
    assert Linked(s');
    SettledGrows(s, s');
    DeclinedOnce(s, s', l.private);
    DeclinedCounts(s, s');
  }

  lemma DeclinedOnce(s: State, s': State, private: bool)
    requires Shaped(s) && Linked(s) && Once(s)
    requires SameTable(s.sys.reg, s'.sys.reg) && Grown(s.sys.heap, s'.sys.heap, private)
    requires s'.sys.heap.released ==
               s.sys.heap.released + (if private then multiset{|s.sys.heap.payloads|} else multiset{})
    ensures Once(s')
  {
    var n := |s.sys.heap.payloads|;
    forall p | 0 <= p < |s'.sys.heap.payloads|
      ensures Carried(s'.sys.reg.slots, p) == Carried(s.sys.reg.slots, p)
      ensures p < n ==> ContextOwned(s'.sys.heap.payloads[p]) == ContextOwned(s.sys.heap.payloads[p])
    {
      SameCounts(s.sys.reg.slots, s'.sys.reg.slots, PyNone, p);
    }
    NewPayloadIsUncarried(s, n);
  }

  lemma DeclinedCounts(s: State, s': State)
    requires Counted(s) && Creating(s) && SameTable(s.sys.reg, s'.sys.reg)
    requires s'.sys.heap.refs == s.sys.heap.refs && s'.external == s.external && s'.left == s.left
    requires s'.sys.heap.futures == s.sys.heap.futures + [Pending] && s'.sys.heap.things >= s.sys.heap.things
    ensures Counted(s') && Creating(s')
  {
    forall o
      ensures Held(s'.sys.reg.slots, o) == Held(s.sys.reg.slots, o)
      ensures Results(s'.sys.heap.futures, o) == Results(s.sys.heap.futures, o)
    {
      SameCounts(s.sys.reg.slots, s'.sys.reg.slots, o, 0);
      ResultsAppend(s.sys.heap.futures, Pending, o);
    }
  }

  // A call that is accepted.

  /** Everything an accepted call changes: request |s.log| is in slot i and in flight. */
  ghost predicate Joined(s: State, s': State, i: int, call: Call, l: Logged) {
    && Filled(s.sys.reg, s'.sys.reg, i, SlotOf(|s.log|, l.req, i)) && Grown(s.sys.heap, s'.sys.heap, l.private)
    && l.index == i && WellFormed(s'.sys.heap, l.req) && Targets(s.sys.heap, call, l.req)
    && s'.sys.heap.things == s.sys.heap.things + (if Creates(call) then 1 else 0)
    && Carries(s.sys.heap, s'.sys.heap, l) && s'.sys.heap.released == s.sys.heap.released
    && s'.sys.heap.refs == s.sys.heap.refs + Own(call, s.sys.heap, |s.log|) + Names(SlotOf(|s.log|, l.req, i))
    && s' == s.(sys := s'.sys, inFlight := s.inFlight + {|s.log|}, log := s.log + [l],
                external := s.external + multiset{Fut(|s.log|)}, left := s.left + Created(call, s.sys.heap))
  }

  /** The request carries the payload it built, or borrows a context's. */
  ghost predicate Carries(h: Heap, h': Heap, l: Logged) {
    && (l.private ==> l.req.payload.Some?)
    && (l.req.payload.Some? ==>
          if l.private then l.req.payload.value == |h.payloads|
          else l.req.payload.value < |h.payloads| <= |h'.payloads| && ContextOwned(h'.payloads[l.req.payload.value]))
  }

  lemma AcceptedKeeps(s: State, s': State, i: int, call: Call, l: Logged)
    requires Inv(s) && (Receiver(call).Some? ==> Usable(s, Thing(Receiver(call).value)))
    requires Joined(s, s', i, call, l)
    ensures Inv(s')
  {
    assert Shaped(s');
    OthersStay(s, s', l.private);
    AcceptedLinks(s, s', i, l);
    SettledGrows(s, s');
    AcceptedOnce(s, s', i, l);
    AcceptedCounts(s, s', i, call, l);
    AcceptedCreates(s, s', i, call, l);
  }

  /** The slot names the receiver, or the object the call creates. */
  ghost predicate Targets(h: Heap, call: Call, req: Request) {
    && (Creates(call) <==> IsCreation(req.op))
    && (var target := if Creates(call) then Some(h.things) else Receiver(call);
        (req.file == target && req.socket.None?) || (req.socket == target && req.file.None?))
  }

  lemma AcceptedLinks(s: State, s': State, i: int, l: Logged)
    requires Shaped(s) && Linked(s) && Shaped(s')
    requires forall j | s.Occupied(j) :: s'.Occupied(j) && SlotLinked(s', j)
    requires forall f | f in s.inFlight ::
              f < |s'.log| && s'.Occupied(s'.log[f].index) && s'.Owner(s'.log[f].index) == f && f !in s'.posted
    requires Filled(s.sys.reg, s'.sys.reg, i, SlotOf(|s.log|, l.req, i)) && Grown(s.sys.heap, s'.sys.heap, l.private)
    requires l.index == i && WellFormed(s'.sys.heap, l.req) && s'.log == s.log + [l]
    requires Carries(s.sys.heap, s'.sys.heap, l)
    requires s'.posted == s.posted && s'.inFlight == s.inFlight + {|s.log|}
    ensures Linked(s')
  {
    var f := |s.log|;
    assert s'.sys.reg.slots[i] == SlotOf(f, l.req, i) && s'.Owner(i) == f;
    assert s'.sys.heap.futures[f].Unsettled();
    assert SlotLinked(s', i);
    forall j | s'.Occupied(j)
      ensures SlotLinked(s', j)
    {
      if j != i {
        assert s.Occupied(j);
      }
    }
  }

  lemma AcceptedOnce(s: State, s': State, i: int, l: Logged)
    requires Shaped(s) && Linked(s) && Once(s)
    requires Filled(s.sys.reg, s'.sys.reg, i, SlotOf(|s.log|, l.req, i)) && Grown(s.sys.heap, s'.sys.heap, l.private)
    requires Carries(s.sys.heap, s'.sys.heap, l)
    requires s'.sys.heap.released == s.sys.heap.released
    ensures Once(s')
  {
    var n := |s.sys.heap.payloads|;
    forall p | 0 <= p < |s'.sys.heap.payloads|
      ensures Carried(s'.sys.reg.slots, p) == Carried(s.sys.reg.slots, p) + (if l.req.payload == Some(p) then 1 else 0)
      ensures p < n ==> ContextOwned(s'.sys.heap.payloads[p]) == ContextOwned(s.sys.heap.payloads[p])
    {
      CarriedUpdate(s.sys.reg.slots, i, SlotOf(|s.log|, l.req, i), p);
    }
    NewPayloadIsUncarried(s, n);
  }

  /** The books of one object after an accepted call. */
  lemma AcceptedBalance(s: State, s': State, i: int, own: multiset<Obj>, left: multiset<Obj>, slot: Slot, o: Obj)
    requires 0 <= i < |s.sys.reg.slots| && Blank(s.sys.reg.slots[i]) && s'.sys.reg.slots == s.sys.reg.slots[i := slot]
    requires s.sys.heap.refs[o] == Share(s, o)
    requires s'.sys.heap.futures == s.sys.heap.futures + [Pending]
    requires s'.external == s.external + own && s'.left == s.left + left
    requires s'.sys.heap.refs == s.sys.heap.refs + (left + own) + Names(slot)
    ensures s'.sys.heap.refs[o] == Share(s', o)
  {
    HeldUpdate(s.sys.reg.slots, i, slot, o);
    ResultsAppend(s.sys.heap.futures, Pending, o);
    SumAt(s.sys.heap.refs, left, own, Names(slot), o);
  }

  lemma SumAt(a: multiset<Obj>, b: multiset<Obj>, c: multiset<Obj>, d: multiset<Obj>, o: Obj)
    ensures (a + (b + c) + d)[o] == a[o] + b[o] + c[o] + d[o]
  {
  }

  lemma AcceptedCounts(s: State, s': State, i: int, call: Call, l: Logged)
    requires Counted(s) && |s.log| == |s.sys.heap.futures|
    requires Filled(s.sys.reg, s'.sys.reg, i, SlotOf(|s.log|, l.req, i)) && Targets(s.sys.heap, call, l.req)
    requires Receiver(call).Some? ==> Thing(Receiver(call).value) in s.external
    requires s'.sys.heap.futures == s.sys.heap.futures + [Pending]
    requires s'.sys.heap.things == s.sys.heap.things + (if Creates(call) then 1 else 0)
    requires s'.external == s.external + multiset{Fut(|s.log|)} && s'.left == s.left + Created(call, s.sys.heap)
    requires s'.sys.heap.refs ==
               s.sys.heap.refs + Own(call, s.sys.heap, |s.log|) + Names(SlotOf(|s.log|, l.req, i))
    ensures Counted(s')
  {
    var slot := SlotOf(|s.log|, l.req, i);
    forall o
      ensures s'.sys.heap.refs[o] == Share(s', o)
    {
      AcceptedBalance(s, s', i, multiset{Fut(|s.log|)}, Created(call, s.sys.heap), slot, o);
    }
    AcceptedFresh(s, s', i, call, l);
  }

  lemma AcceptedFresh(s: State, s': State, i: int, call: Call, l: Logged)
    requires Counted(s) && |s.log| == |s.sys.heap.futures| && Targets(s.sys.heap, call, l.req)
    requires Receiver(call).Some? ==> Thing(Receiver(call).value) in s.external
    requires s'.sys.heap.things == s.sys.heap.things + (if Creates(call) then 1 else 0)
    requires s'.sys.heap.refs ==
               s.sys.heap.refs + Own(call, s.sys.heap, |s.log|) + Names(SlotOf(|s.log|, l.req, i))
    ensures forall n: nat | n >= s'.sys.heap.things :: Thing(n) !in s'.sys.heap.refs
    ensures forall n: nat | n >= |s.log| + 1 :: Fut(n) !in s'.sys.heap.refs
  {
    var own, names := Own(call, s.sys.heap, |s.log|), Names(SlotOf(|s.log|, l.req, i));
    forall n: nat | n >= s'.sys.heap.things
      ensures Thing(n) !in s'.sys.heap.refs
    {
      assert s.sys.heap.refs[Thing(n)] == 0 && Thing(n) !in s.external;
      StaysUnknown(s.sys.heap.refs, own, names, Thing(n));
    }
    forall n: nat | n >= |s.log| + 1
      ensures Fut(n) !in s'.sys.heap.refs
    {
      StaysUnknown(s.sys.heap.refs, own, names, Fut(n));
    }
  }

  lemma StaysUnknown(refs: multiset<Obj>, own: multiset<Obj>, names: multiset<Obj>, o: Obj)
    requires o !in refs && o !in own && o !in names
    ensures o !in refs + own + names
  {
  }

  lemma AcceptedCreates(s: State, s': State, i: int, call: Call, l: Logged)
    requires Counted(s) && Creating(s) && |s.log| == |s.sys.heap.futures|
    requires Receiver(call).Some? ==> Usable(s, Thing(Receiver(call).value))
    requires Filled(s.sys.reg, s'.sys.reg, i, SlotOf(|s.log|, l.req, i)) && Targets(s.sys.heap, call, l.req)
    requires s'.sys.heap.futures == s.sys.heap.futures + [Pending]
    requires s'.external == s.external + multiset{Fut(|s.log|)} && s'.left == s.left + Created(call, s.sys.heap)
    requires s'.sys.heap.refs ==
               s.sys.heap.refs + Own(call, s.sys.heap, |s.log|) + Names(SlotOf(|s.log|, l.req, i))
    requires WellFormed(s'.sys.heap, l.req)
    ensures Creating(s')
  {
    var slot := SlotOf(|s.log|, l.req, i);
    forall j | s'.Occupied(j) && IsCreation(s'.sys.reg.slots[j].opcode)
      ensures NewBorn(s', CreatedBy(s'.sys.reg.slots[j]))
    {
      if j == i {
        var newest := Thing(s.sys.heap.things);
        assert CreatedBy(slot) == newest && Names(slot)[newest] == 1;
        assert s.sys.heap.refs[newest] == Share(s, newest) == 0;
        NewBornJoins(s, s', i, multiset{newest}, slot, newest);
      } else {
        assert s'.sys.reg.slots[j] == s.sys.reg.slots[j] && s.Occupied(j);
        OtherIsUntouched(s, j, call, l);
        NewBornJoins(s, s', i, Created(call, s.sys.heap), slot, CreatedBy(s.sys.reg.slots[j]));
      }
    }
  }

  /** The new slot does not name an object under creation, and does not create it again. */
  lemma OtherIsUntouched(s: State, j: int, call: Call, l: Logged)
    requires Counted(s) && Creating(s) && s.Occupied(j) && IsCreation(s.sys.reg.slots[j].opcode)
    requires Receiver(call).Some? ==> Usable(s, Thing(Receiver(call).value))
    requires Targets(s.sys.heap, call, l.req) && |s.log| == |s.sys.heap.futures|
    ensures var o := CreatedBy(s.sys.reg.slots[j]);
            && NewBorn(s, o) && o !in Created(call, s.sys.heap) && o != Fut(|s.log|)
            && o !in Names(SlotOf(|s.log|, l.req, 0))
  {
    var o := CreatedBy(s.sys.reg.slots[j]);
    assert NewBorn(s, o) && s.sys.heap.refs[o] == Share(s, o) && !o.Fut?;
  }

  lemma NewBornJoins(s: State, s': State, i: int, left: multiset<Obj>, slot: Slot, o: Obj)
    requires 0 <= i < |s.sys.reg.slots| && Blank(s.sys.reg.slots[i]) && s'.sys.reg.slots == s.sys.reg.slots[i := slot]
    requires o != Fut(|s.log|)
    requires s'.sys.heap.futures == s.sys.heap.futures + [Pending]
    requires s'.external == s.external + multiset{Fut(|s.log|)} && s'.left == s.left + left
    requires if left[o] == 1 then Names(slot)[o] == 1 && Share(s, o) == 0
             else left[o] == 0 && Names(slot)[o] == 0 && NewBorn(s, o)
    ensures NewBorn(s', o)
  {
    HeldUpdate(s.sys.reg.slots, i, slot, o);
    ResultsAppend(s.sys.heap.futures, Pending, o);
  }

  /** Everything the invariant needs to know about a prepared request. */
  ghost predicate Prepared(h: Heap, h1: Heap, req: Request, call: Call, private: bool) {
    && h1.futures == h.futures + [Pending]
    && h1.things == h.things + (if Creates(call) then 1 else 0)
    && h1.refs == h.refs + Own(call, h, |h.futures|) && h1.released == h.released
    && h.payloads <= h1.payloads && |h1.payloads| == |h.payloads| + (if private then 1 else 0)
    && PoolOk(h1) && WellFormed(h1, req) && Targets(h, call, req)
    && (if private then req.payload == Some(|h.payloads|) && !ContextOwned(h1.payloads[|h.payloads|])
        else req.payload.Some? ==>
               req.payload.value < |h.payloads| && ContextOwned(h.payloads[req.payload.value])
               && h.payloads[req.payload.value].mode != Normal)
  }

  lemma PrepareIsPrepared(h: Heap, ctx: Context, call: Call)
    requires PoolOk(h) && ContextOk(h, ctx) && !UnsetBuffer(h, ctx, call)
    ensures var (h1, req) := Prepare(h, ctx, call); Prepared(h, h1, req, call, SourceOf(h, ctx, call).Private?)
  {
    CallsBuildWellFormed(h, ctx, call);
    var (h1, req) := Prepare(h, ctx, call);
    assert h1.refs == h.refs + Own(call, h, |h.futures|);
    PrepareTargets(h, ctx, call);
  }

  lemma PrepareTargets(h: Heap, ctx: Context, call: Call)
    ensures Targets(h, call, Prepare(h, ctx, call).1)
  {
  }

  lemma GrownBy(h: Heap, h1: Heap, h2: Heap, req: Request, call: Call, private: bool,
                refs: multiset<Obj>, released: multiset<nat>)
    requires Prepared(h, h1, req, call, private) && HeapDelta(h1, h2, refs, released)
    ensures Grown(h, h2, private)
    ensures req.payload.Some? && !private ==> ContextOwned(h2.payloads[req.payload.value])
    ensures FreedOnDecline(h1, req) == if private then multiset{|h.payloads|} else multiset{}
  {
    assert forall p | 0 <= p < |h.payloads| :: h1.payloads[p] == h.payloads[p];
    assert PoolExtends(h, h2);
  }

  lemma AcceptShape(s: State, h: Heap, req: Request, call: Call, private: bool)
    requires s.sys.reg.Structured() && |s.log| == |s.sys.heap.futures| && s.sys.reg.free.top >= 0
    requires Prepared(s.sys.heap, h, req, call, private)
    ensures var sub := Register(s.sys.reg, h, |s.log|, req, Own(call, s.sys.heap, |s.log|), true);
            && sub.Fine? && sub.value.answer.Accepted?
            && (var i := sub.value.answer.index;
                Joined(s, AfterAnswer(s, sub.value, call, private),
                       i, call, Logged(call, req, i, private)))
  {
    var own := Own(call, s.sys.heap, |s.log|);
    RegisterAccepts(s.sys.reg, h, |s.log|, req, own);
    var sub := Register(s.sys.reg, h, |s.log|, req, own, true).value;
    GrownBy(s.sys.heap, h, sub.sys.heap, req, call, private, sub.sys.heap.refs, sub.sys.heap.released);
  }

  lemma AcceptKeeps(s: State, h: Heap, req: Request, call: Call, private: bool)
    requires Inv(s) && Prepared(s.sys.heap, h, req, call, private) && s.sys.reg.free.top >= 0
    requires Receiver(call).Some? ==> Usable(s, Thing(Receiver(call).value))
    ensures var sub := Register(s.sys.reg, h, |s.log|, req, Own(call, s.sys.heap, |s.log|), true);
            sub.Fine? && Inv(AfterAnswer(s, sub.value, call, private))
  {
    AcceptShape(s, h, req, call, private);
    var sub := Register(s.sys.reg, h, |s.log|, req, Own(call, s.sys.heap, |s.log|), true).value;
    var i := sub.answer.index;
    AcceptedKeeps(s, AfterAnswer(s, sub, call, private), i, call, Logged(call, req, i, private));
  }

  /** Everything a declined call changes: one log entry, and at most one payload, freed. */
  ghost predicate Declined(s: State, s': State, l: Logged) {
    && SameTable(s.sys.reg, s'.sys.reg) && Grown(s.sys.heap, s'.sys.heap, l.private)
    && s'.sys.heap.refs == s.sys.heap.refs
    && s'.sys.heap.released ==
         s.sys.heap.released + (if l.private then multiset{|s.sys.heap.payloads|} else multiset{})
    && s' == s.(sys := s'.sys, log := s.log + [l]) && l.index == -1
  }

  lemma DeclineShape(s: State, h: Heap, req: Request, call: Call, private: bool, taken: bool)
    requires s.sys.reg.Structured() && |s.log| == |s.sys.heap.futures|
    requires Prepared(s.sys.heap, h, req, call, private) && (s.sys.reg.free.top < 0 || !taken)
    ensures var sub := Register(s.sys.reg, h, |s.log|, req, Own(call, s.sys.heap, |s.log|), taken);
            && sub.Fine? && !sub.value.answer.Accepted?
            && Declined(s, AfterAnswer(s, sub.value, call, private), Logged(call, req, -1, private))
  {
    var own := Own(call, s.sys.heap, |s.log|);
    RegisterDeclines(s.sys.reg, h, |s.log|, req, own, taken);
    var h2 := Register(s.sys.reg, h, |s.log|, req, own, taken).value.sys.heap;
    DeclineHeap(s.sys.heap, h, h2, req, call, private, own);
    SubmissionEchoes(s.sys.reg, h, |s.log|, req, own, taken);
  }

  lemma DeclineHeap(h: Heap, h1: Heap, h2: Heap, req: Request, call: Call, private: bool, own: multiset<Obj>)
    requires Prepared(h, h1, req, call, private) && own == Own(call, h, |h.futures|)
    requires HeapDelta(h1, h2, h1.refs - own, h1.released + FreedOnDecline(h1, req))
    ensures Grown(h, h2, private) && h2.refs == h.refs
    ensures h2.released == h.released + (if private then multiset{|h.payloads|} else multiset{})
  {
    GrownBy(h, h1, h2, req, call, private, h2.refs, h2.released);
    AddThenDrop(h.refs, own);
  }

  lemma SubmissionEchoes(r: Registry, h: Heap, f: nat, req: Request, own: multiset<Obj>, taken: bool)
    requires r.Wf() && Register(r, h, f, req, own, taken).Fine?
    ensures var sub := Register(r, h, f, req, own, taken).value; sub.req == req && sub.future == f
  {
    if Add(System(r, h), f, req).1 >= 0 && !taken {
      var (s1, index) := Add(System(r, h), f, req);
      assert Remove(System(s1.reg, DecrefAll(TakeIndex(s1.heap, req), own)), index).Fine?;
    }
  }

  lemma DeclineKeeps(s: State, h: Heap, req: Request, call: Call, private: bool, taken: bool)
    requires Inv(s) && Prepared(s.sys.heap, h, req, call, private) && (s.sys.reg.free.top < 0 || !taken)
    ensures var sub := Register(s.sys.reg, h, |s.log|, req, Own(call, s.sys.heap, |s.log|), taken);
            sub.Fine? && Inv(AfterAnswer(s, sub.value, call, private))
  {
    DeclineShape(s, h, req, call, private, taken);
    var sub := Register(s.sys.reg, h, |s.log|, req, Own(call, s.sys.heap, |s.log|), taken).value;
    DeclinedKeeps(s, AfterAnswer(s, sub, call, private), Logged(call, req, -1, private));
  }

  lemma SubmitRegisters(s: State, ctx: Context, call: Call, taken: bool)
    requires s.sys.reg.Wf() && |s.log| == |s.sys.heap.futures| && !CallCrashes(s, ctx, call)
    ensures var (h, req) := Prepare(s.sys.heap, ctx, call);
            var sub := Register(s.sys.reg, h, |s.log|, req, Own(call, s.sys.heap, |s.log|), taken);
            && AfterSubmit(s, ctx, call, taken).Fine? == sub.Fine?
            && (sub.Fine? ==>
                  AfterSubmit(s, ctx, call, taken).value ==
                  AfterAnswer(s, sub.value, call, SourceOf(s.sys.heap, ctx, call).Private?))
  {
  }

  /** A call joins the outstanding requests, or leaves a log entry and nothing else. */
  lemma SubmitOutcome(s: State, ctx: Context, call: Call, taken: bool) returns (l: Logged)
    requires Shaped(s) && ContextOk(s.sys.heap, ctx) && !CallCrashes(s, ctx, call)
    ensures AfterSubmit(s, ctx, call, taken).Fine?
    ensures var s' := AfterSubmit(s, ctx, call, taken).value;
            && l.call == call && l.req == Prepare(s.sys.heap, ctx, call).1
            && l.private == SourceOf(s.sys.heap, ctx, call).Private?
            && if s.sys.reg.free.top >= 0 && taken then Joined(s, s', l.index, call, l) else Declined(s, s', l)
  {
    PrepareIsPrepared(s.sys.heap, ctx, call);
    SubmitRegisters(s, ctx, call, taken);
    var (h, req) := Prepare(s.sys.heap, ctx, call);
    var private := SourceOf(s.sys.heap, ctx, call).Private?;
    l := Logged(call, req, -1, private);
    if s.sys.reg.free.top >= 0 && taken {
      AcceptShape(s, h, req, call, private);
      l := l.(index := Register(s.sys.reg, h, |s.log|, req, Own(call, s.sys.heap, |s.log|), true).value.answer.index);
    } else {
      DeclineShape(s, h, req, call, private, taken);
    }
  }

  lemma RegisterKeeps(s: State, h: Heap, req: Request, call: Call, private: bool, taken: bool)
    requires Inv(s) && Prepared(s.sys.heap, h, req, call, private)
    requires Receiver(call).Some? ==> Usable(s, Thing(Receiver(call).value))
    ensures var sub := Register(s.sys.reg, h, |s.log|, req, Own(call, s.sys.heap, |s.log|), taken);
            sub.Fine? && Inv(AfterAnswer(s, sub.value, call, private))
  {
    if s.sys.reg.free.top >= 0 && taken {
      AcceptKeeps(s, h, req, call, private);
    } else {
      DeclineKeeps(s, h, req, call, private, taken);
    }
  }

  /** A call keeps the invariant and never aborts. It crashes exactly if it finds a free slot and
      is a sendmsg in ZERO_COPY mode, or if its buffer was never set. */
  lemma SubmitKeeps(s: State, ctx: Context, call: Call, taken: bool)
    requires Inv(s) && CanSubmit(s, ctx, call)
    ensures AfterSubmit(s, ctx, call, taken) != Crashed(Abort)
    ensures AfterSubmit(s, ctx, call, taken).Crashed? <==> CallCrashes(s, ctx, call)
    ensures AfterSubmit(s, ctx, call, taken).Fine? ==> Inv(AfterSubmit(s, ctx, call, taken).value)
  {
    if !CallCrashes(s, ctx, call) {
      PrepareIsPrepared(s.sys.heap, ctx, call);
      var (h, req) := Prepare(s.sys.heap, ctx, call);
      RegisterKeeps(s, h, req, call, SourceOf(s.sys.heap, ctx, call).Private?, taken);
      SubmitRegisters(s, ctx, call, taken);
    }
  }

  // -------------------------------------------------------------------------------- reap

  /** The two requests whose success the reader cannot digest: a readv that borrowed a selected
      payload (it has no vector), and a multishot recvmsg (its payload has no linear buffer). */
  ghost predicate Indigestible(h: Heap, req: Request) {
    || (&& req.op.OpReadv? && req.payload.Some? && req.payload.value < |h.payloads|
        && h.payloads[req.payload.value].vector.None?)
    || (req.op.OpRecvmsg? && req.stream.Multishot?)
  }

  /** What the switch delivers for a successful completion. */
  ghost predicate Delivers(h: Heap, h': Heap, slot: Slot, obj: Obj) {
    && h'.futures == h.futures
    && (if IsCreation(slot.opcode) then obj == CreatedBy(slot) && h'.refs == h.refs && h'.things == h.things
        else if slot.opcode.OpTimeout?
        then obj == PyNone && h'.refs == h.refs + multiset{PyNone} && h'.things == h.things
        else obj == Thing(h.things) && h'.refs == h.refs + multiset{obj} && h'.things == h.things + 1)
  }

  ghost predicate CanRead(h: Heap, req: Request, res: int) {
    Reading(req.op) ==>
      req.payload.Some? && req.payload.value < |h.payloads| && 0 <= res <= Room(h.payloads[req.payload.value])
  }

  lemma DispatchCrashesIff(h: Heap, req: Request, f: nat, i: int, res: int)
    requires WellFormed(h, req) && PoolOk(h) && CanRead(h, req, res)
    ensures Dispatch(h, SlotOf(f, req, i), res).Crashed? <==> Indigestible(h, req)
  {
  }

  lemma DispatchEffect(h: Heap, req: Request, f: nat, i: int, res: int)
    requires WellFormed(h, req) && PoolOk(h) && CanRead(h, req, res) && !Indigestible(h, req)
    ensures Dispatch(h, SlotOf(f, req, i), res).Fine?
    ensures var d := Dispatch(h, SlotOf(f, req, i), res).value;
            && d.delivery.Some? && d.slot == SlotOf(f, req, i).(payload := None)
            && Delivers(h, d.heap, SlotOf(f, req, i), d.delivery.value.obj)
            && d.heap.released == h.released + FreedOnDecline(h, req)
  {
    if req.payload.Some? {
      ReleaseKeeps(h, req.payload.value);
    }
  }

  lemma DispatchPool(h: Heap, req: Request, f: nat, i: int, res: int)
    requires Dispatch(h, SlotOf(f, req, i), res).Fine?
    ensures var h' := Dispatch(h, SlotOf(f, req, i), res).value.heap;
            |h'.payloads| == |h.payloads| && PoolExtends(h, h')
  {
    if req.payload.Some? && req.payload.value < |h.payloads| {
      ReleaseKeeps(h, req.payload.value);
    }
  }

  lemma ReleaseKeeps(h: Heap, p: nat)
    requires p < |h.payloads|
    ensures var h' := ReleaseIndex(h, p);
            && h' == h.(payloads := h'.payloads) && |h'.payloads| == |h.payloads| && PoolExtends(h, h')
            && h'.payloads[p].mode == h.payloads[p].mode
  {
  }

  lemma DispatchAnswers(h: Heap, l: Logged, f: nat, i: int, p: Posted)
    requires WellFormed(h, l.req) && PoolOk(h) && CanRead(h, l.req, p.res) && !Indigestible(h, l.req)
    requires Stored(h, l, p) && !Failed(l.req.op, p.res)
    requires Dispatch(h, SlotOf(f, l.req, i), p.res).Fine?
    ensures var d := Dispatch(h, SlotOf(f, l.req, i), p.res).value.delivery;
            d.Some? && Answers(l, p, Result(d.value.obj, d.value.value))
  {
  }

  /** Slot i is retired: its completion is consumed, its future shows `st`, its references and
      payload are gone, and `spent` are references the caller had left with the request. */
  ghost predicate Retired(s: State, s': State, i: int, st: Future, spent: multiset<Obj>)
    requires Shaped(s) && s.Occupied(i) && SlotLinked(s, i)
  {
    var f, h, h' := s.Owner(i), s.sys.heap, s'.sys.heap;
    && s.cq != [] && s.Ours(s.cq[0]) && s.cq[0].userData == i && f !in s.inFlight
    && s'.cq == s.cq[1..] && s'.inFlight == s.inFlight && s'.log == s.log && s'.posted == s.posted
    && s'.sys.reg.Structured() && s'.sys.reg.slots == s.sys.reg.slots[i := ClearSlot(s.sys.reg.slots[i])]
    && h'.futures == h.futures[f := st]
    && |h'.payloads| == |h.payloads| && PoolExtends(h, h') && PoolOk(h')
    && h'.released == h.released + FreedOnDecline(h, s.log[f].req)
    && Balanced(s, s', i, st, spent)
  }

  ghost predicate Balanced(s: State, s': State, i: int, st: Future, spent: multiset<Obj>)
    requires s.Occupied(i)
  {
    && (forall o ::
          s'.sys.heap.refs[o] + Names(s.sys.reg.slots[i])[o] + spent[o] == s.sys.heap.refs[o] + ResultOf(st, o))
    && OwnMatter(s.sys.heap.refs, s.sys.reg.slots[i], st, spent)
    && (forall n: nat | n >= s'.sys.heap.things :: Thing(n) !in s'.sys.heap.refs)
    && s'.external == s.external && s'.left == s.left - spent
  }

  /** What is spent is the slot's own creation; what is delivered is that, or new, or None. */
  ghost predicate OwnMatter(refs: multiset<Obj>, slot: Slot, st: Future, spent: multiset<Obj>) {
    && (spent == multiset{} || (IsCreation(slot.opcode) && spent == multiset{CreatedBy(slot)}))
    && (st.Result? ==>
          && !st.obj.Fut?
          && (st.obj.PyNone? || st.obj !in refs || (IsCreation(slot.opcode) && st.obj == CreatedBy(slot))))
  }

  lemma OthersUnaffected(refs: multiset<Obj>, slot: Slot, st: Future, spent: multiset<Obj>, o: Obj)
    requires OwnMatter(refs, slot, st, spent) && o.Thing? && o in refs && o !in Names(slot)
    requires IsCreation(slot.opcode) ==> CreatedBy(slot) in Names(slot)
    ensures spent[o] == 0 && ResultOf(st, o) == 0
  {
  }

  /** The future is as it was, or shows its own request's outcome, or the loop's end. */
  ghost predicate Proper(s: State, f: nat, st: Future)
    requires f < |s.log| == |s.sys.heap.futures|
  {
    || st == s.sys.heap.futures[f]
    || st == Raised(LoopClosed)
    || (f in s.posted && Explains(s.log[f], s.posted[f], st))
  }

  lemma RetiredKeeps(s: State, s': State, i: int, st: Future, spent: multiset<Obj>)
    requires Inv(s) && s.Occupied(i) && SlotLinked(s, i) && Retired(s, s', i, st, spent)
    requires Proper(s, s.Owner(i), st)
    ensures Inv(s')
  {
    RetiredLinks(s, s', i, st, spent);
    RetiredQueues(s, s', i, st, spent);
    RetiredSettles(s, s', s.Owner(i), st);
    RetiredOnce(s, s', i);
    RetiredBooks(s, s', i, st, spent);
  }

  lemma RetiredBooks(s: State, s': State, i: int, st: Future, spent: multiset<Obj>)
    requires Shaped(s) && Linked(s) && Counted(s) && Creating(s)
    requires s.Occupied(i) && SlotLinked(s, i) && Retired(s, s', i, st, spent)
    ensures Counted(s') && Creating(s')
  {
    CreationsAreNamed(s);
    RetiredCounts(s, s', i, st, spent);
    RetiredCreates(s, s', i, st, spent);
  }

  ghost predicate CreationsNamed(s: State) {
    forall j | s.Occupied(j) && IsCreation(s.sys.reg.slots[j].opcode) ::
      CreatedBy(s.sys.reg.slots[j]).Thing? && CreatedBy(s.sys.reg.slots[j]) in Names(s.sys.reg.slots[j])
  }

  lemma CreationsAreNamed(s: State)
    requires Shaped(s) && Linked(s)
    ensures CreationsNamed(s)
  {
    forall j | s.Occupied(j) && IsCreation(s.sys.reg.slots[j].opcode)
      ensures CreatedBy(s.sys.reg.slots[j]).Thing? && CreatedBy(s.sys.reg.slots[j]) in Names(s.sys.reg.slots[j])
    {
      assert SlotLinked(s, j);
    }
  }

  lemma RetiredLinks(s: State, s': State, i: int, st: Future, spent: multiset<Obj>)
    requires Shaped(s) && Linked(s)
    requires s.Occupied(i) && SlotLinked(s, i) && Retired(s, s', i, st, spent)
    ensures Shaped(s') && Linked(s')
  {
    ExtendsKeeps(s.sys.heap, s'.sys.heap);
    forall j | s'.Occupied(j)
      ensures SlotLinked(s', j)
    {
      assert s.Occupied(j) && j != i && SlotLinked(s, j);
      if InQueue(s.cq, j) {
        var k :| 0 <= k < |s.cq| && s.cq[k].userData == j;
        assert s'.cq[k - 1].userData == j;
      }
      SlotFrame(s, s', j);
    }
  }

  lemma RetiredQueues(s: State, s': State, i: int, st: Future, spent: multiset<Obj>)
    requires Shaped(s) && Linked(s) && Queued(s) && Shaped(s')
    requires s.Occupied(i) && SlotLinked(s, i) && Retired(s, s', i, st, spent)
    ensures Queued(s')
  {
    ExtendsKeeps(s.sys.heap, s'.sys.heap);
    forall k | 0 <= k < |s'.cq| && s'.Ours(s'.cq[k])
      ensures CqeLinked(s', s'.cq[k])
    {
      assert s'.cq[k] == s.cq[k + 1] && s.Ours(s.cq[k + 1]);
      assert s.cq[0].userData != s.cq[k + 1].userData;
      CqeFrame(s, s', s.cq[k + 1]);
    }
  }

  lemma RetiredSettles(s: State, s': State, f: nat, st: Future)
    requires Shaped(s) && Shaped(s') && Settled(s) && f < |s.log| && Proper(s, f, st)
    requires s'.sys.heap.futures == s.sys.heap.futures[f := st] && s'.log == s.log && s'.posted == s.posted
    ensures Settled(s')
  {
  }

  lemma RetiredOnce(s: State, s': State, i: int)
    requires Shaped(s) && Once(s) && s.Occupied(i) && SlotLinked(s, i)
    requires s'.sys.reg.slots == s.sys.reg.slots[i := ClearSlot(s.sys.reg.slots[i])]
    requires |s'.sys.heap.payloads| == |s.sys.heap.payloads| && PoolExtends(s.sys.heap, s'.sys.heap)
    requires s'.sys.heap.released == s.sys.heap.released + FreedOnDecline(s.sys.heap, s.log[s.Owner(i)].req)
    ensures Once(s')
  {
    var slot := s.sys.reg.slots[i];
    forall p | 0 <= p < |s'.sys.heap.payloads|
      ensures Carried(s'.sys.reg.slots, p) == Carried(s.sys.reg.slots, p) - (if slot.payload == Some(p) then 1 else 0)
      ensures ContextOwned(s'.sys.heap.payloads[p]) == ContextOwned(s.sys.heap.payloads[p])
    {
      CarriedUpdate(s.sys.reg.slots, i, ClearSlot(slot), p);
    }
  }

  lemma RetiredBalance(s: State, s': State, i: int, st: Future, o: Obj)
    requires s.Occupied(i) && s.Owner(i) < |s.sys.heap.futures| && s.sys.heap.futures[s.Owner(i)].Unsettled()
    requires s'.sys.reg.slots == s.sys.reg.slots[i := ClearSlot(s.sys.reg.slots[i])]
    requires s'.sys.heap.futures == s.sys.heap.futures[s.Owner(i) := st]
    ensures Held(s'.sys.reg.slots, o) + Names(s.sys.reg.slots[i])[o] == Held(s.sys.reg.slots, o)
    ensures Results(s'.sys.heap.futures, o) == Results(s.sys.heap.futures, o) + ResultOf(st, o)
  {
    HeldUpdate(s.sys.reg.slots, i, ClearSlot(s.sys.reg.slots[i]), o);
    ResultsUpdate(s.sys.heap.futures, s.Owner(i), st, o);
  }

  /** The part of a retirement the reference counts depend on. */
  ghost predicate Dropped(s: State, s': State, i: int, st: Future, spent: multiset<Obj>) {
    && s.Occupied(i) && s.Owner(i) < |s.sys.heap.futures| && s.sys.heap.futures[s.Owner(i)].Unsettled()
    && s'.sys.reg.slots == s.sys.reg.slots[i := ClearSlot(s.sys.reg.slots[i])]
    && s'.sys.heap.futures == s.sys.heap.futures[s.Owner(i) := st]
    && Balanced(s, s', i, st, spent)
  }

  lemma RetiredCounts(s: State, s': State, i: int, st: Future, spent: multiset<Obj>)
    requires Counted(s) && Creating(s) && Dropped(s, s', i, st, spent)
    ensures Counted(s')
  {
    forall o
      ensures s'.sys.heap.refs[o] == Share(s', o)
    {
      RetiredBalance(s, s', i, st, o);
      assert spent[o] <= s.left[o];
    }
    forall n: nat | n >= |s'.sys.heap.futures|
      ensures Fut(n) !in s'.sys.heap.refs
    {
      assert Fut(n) !in s.sys.heap.refs && ResultOf(st, Fut(n)) == 0;
    }
  }

  lemma RetiredCreates(s: State, s': State, i: int, st: Future, spent: multiset<Obj>)
    requires Counted(s) && Creating(s) && Dropped(s, s', i, st, spent)
    requires CreationsNamed(s)
    ensures Creating(s')
  {
    forall j | s'.Occupied(j) && IsCreation(s'.sys.reg.slots[j].opcode)
      ensures NewBorn(s', CreatedBy(s'.sys.reg.slots[j]))
    {
      assert s.Occupied(j) && j != i && s'.sys.reg.slots[j] == s.sys.reg.slots[j];
      OtherSurvives(s, s', i, j, st, spent);
    }
  }

  lemma OtherSurvives(s: State, s': State, i: int, j: int, st: Future, spent: multiset<Obj>)
    requires Counted(s) && Creating(s) && CreationsNamed(s) && Dropped(s, s', i, st, spent)
    requires s.Occupied(j) && j != i && IsCreation(s.sys.reg.slots[j].opcode)
    ensures NewBorn(s', CreatedBy(s.sys.reg.slots[j]))
  {
    var o := CreatedBy(s.sys.reg.slots[j]);
    UnnamedElsewhere(s, i, j);
    assert NewBorn(s, o) && s.sys.heap.refs[o] == Share(s, o) == 2;
    OtherBooksStay(s, s', i, st, spent, o);
  }

  lemma OtherBooksStay(s: State, s': State, i: int, st: Future, spent: multiset<Obj>, o: Obj)
    requires s.Occupied(i) && s.Owner(i) < |s.sys.heap.futures| && s.sys.heap.futures[s.Owner(i)].Unsettled()
    requires s'.sys.reg.slots == s.sys.reg.slots[i := ClearSlot(s.sys.reg.slots[i])]
    requires s'.sys.heap.futures == s.sys.heap.futures[s.Owner(i) := st] 
    requires s'.external == s.external && s'.left == s.left - spent
    requires OwnMatter(s.sys.heap.refs, s.sys.reg.slots[i], st, spent)
    requires o.Thing? && o in s.sys.heap.refs && o !in Names(s.sys.reg.slots[i])
    requires IsCreation(s.sys.reg.slots[i].opcode) ==> CreatedBy(s.sys.reg.slots[i]) in Names(s.sys.reg.slots[i])
    ensures s'.external[o] == s.external[o] && s'.left[o] == s.left[o]
    ensures Held(s'.sys.reg.slots, o) == Held(s.sys.reg.slots, o)
    ensures Results(s'.sys.heap.futures, o) == Results(s.sys.heap.futures, o)
  {
    RetiredBalance(s, s', i, st, o);
    OthersUnaffected(s.sys.heap.refs, s.sys.reg.slots[i], st, spent, o);
  }

  /** An object under creation is named by no slot but its own. */
  lemma UnnamedElsewhere(s: State, i: int, j: int)
    requires Creating(s) && s.Occupied(i) && s.Occupied(j) && i != j && IsCreation(s.sys.reg.slots[j].opcode)
    requires CreatedBy(s.sys.reg.slots[j]) in Names(s.sys.reg.slots[j])
    ensures CreatedBy(s.sys.reg.slots[j]) !in Names(s.sys.reg.slots[i])
  {
    var o := CreatedBy(s.sys.reg.slots[j]);
    HeldUpdate(s.sys.reg.slots, i, EMPTY_SLOT, o);
    HeldUpdate(s.sys.reg.slots[i := EMPTY_SLOT], j, EMPTY_SLOT, o);
  }

  // The reader retires the slot its completion names.

  /** What a future shows once `st` has been offered to it. */
  ghost function Shown(h: Heap, f: nat, st: Future): Future
    requires f < |h.futures|
  {
    if h.futures[f].Pending? then st else h.futures[f]
  }

  ghost function Spent(slot: Slot): multiset<Obj> {
    if IsCreation(slot.opcode) then multiset{CreatedBy(slot)} else multiset{}
  }

  lemma SettleRefs(h: Heap, h1: Heap, slot: Slot, f: nat, d: Delivery, names: multiset<Obj>, o: Obj)
    requires Delivers(h, h1, slot, d.obj) && f < |h.futures| && h.futures[f].Unsettled()
    requires h.refs[o] >= names[o] + Spent(slot)[o]
    ensures (Settle(h1, f, Some(d)).refs - names)[o] + names[o] + Spent(slot)[o]
            == h.refs[o] + ResultOf(Shown(h, f, Result(d.obj, d.value)), o)
  {
    SettledRefs(h, h1, slot, f, d, o);
  }

  lemma SettledRefs(h: Heap, h1: Heap, slot: Slot, f: nat, d: Delivery, o: Obj)
    requires Delivers(h, h1, slot, d.obj) && f < |h.futures| && h.futures[f].Unsettled()
    requires h.refs[o] >= Spent(slot)[o]
    ensures Settle(h1, f, Some(d)).refs[o] + Spent(slot)[o]
            == h.refs[o] + ResultOf(Shown(h, f, Result(d.obj, d.value)), o)
  {
    SettleNet(h1, f, d);
    DeliveryShifts(h, h1, slot, d.obj);
    SettledAt(h.refs, h1.refs, Settle(h1, f, Some(d)).refs, Spent(slot), d.obj, o, h.futures[f].Pending?);
  }

  /** A delivery hands over a reference that was left, or a new one. */
  lemma DeliveryShifts(h: Heap, h1: Heap, slot: Slot, obj: Obj)
    requires Delivers(h, h1, slot, obj)
    ensures h1.refs + Spent(slot) == h.refs + multiset{obj}
  {
  }

  lemma SettledAt(refs: multiset<Obj>, refs1: multiset<Obj>, refs2: multiset<Obj>, spent: multiset<Obj>,
                  obj: Obj, o: Obj,
                  pending: bool)
    requires refs1 + spent == refs + multiset{obj} && refs[o] >= spent[o]
    requires refs2 == if pending then refs1 else refs1 - multiset{obj}
    ensures refs2[o] + spent[o] == refs[o] + (if pending && obj == o then 1 else 0)
  {
    assert (refs1 + spent)[o] == (refs + multiset{obj})[o];
  }

  /** A pending future keeps the reference the reader gives up; any other lets it go. */
  lemma SettleNet(h: Heap, f: nat, d: Delivery)
    requires f < |h.futures|
    ensures Settle(h, f, Some(d)).refs == if h.futures[f].Pending? then h.refs else h.refs - multiset{d.obj}
  {
    AddThenDrop(h.refs, multiset{d.obj});
  }

  lemma DecodeIndex(i: nat)
    requires i <= MAX_SIZE
    ensures Decode(i) == i
  {
  }

  /** The reader's step on an occupied slot, spelled out. */
  lemma ReapUnfolds(s: System, i: nat, res: int)
    requires s.reg.Wf() && i < |s.reg.slots| && i <= MAX_SIZE && s.reg.slots[i].future.Some?
    ensures var slot, f := s.reg.slots[i], s.reg.slots[i].future.value;
            if Failed(slot.opcode, res)
            then ReapOne(s, Cqe(i, res)) == Remove(System(s.reg, SetException(s.heap, f, OsError(-res))), i)
            else match Dispatch(s.heap, slot, res)
                 case Crashed(why) => ReapOne(s, Cqe(i, res)) == Crashed(why)
                 case Fine(d) =>
                   var s1 := System(s.reg.(slots := s.reg.slots[i := d.slot]), Settle(d.heap, f, d.delivery));
                   ReapOne(s, Cqe(i, res)) == Remove(s1, i)
  {
    DecodeIndex(i);
    assert s.reg.slots[i := s.reg.slots[i]] == s.reg.slots;
  }

  /** Removing a slot whose payload pointer has been cleared touches no payload. */
  lemma RemoveSpent(r: Registry, h: Heap, i: nat, slot: Slot)
    requires r.Structured() && i < |r.slots| && r.slots[i].future.Some? && slot == r.slots[i].(payload := None)
    ensures var r1 := r.(slots := r.slots[i := slot]);
            && r1.Wf() && Remove(System(r1, h), i).Fine?
            && (var s' := Remove(System(r1, h), i).value;
                && s'.reg.Structured() && s'.reg.slots == r.slots[i := ClearSlot(r.slots[i])]
                && s'.heap == DecrefAll(h, Names(r.slots[i])))
  {
    var r1 := r.(slots := r.slots[i := slot]);
    assert r1.Structured();
    RemoveKeepsStructure(System(r1, h), i);
    assert r1.slots[i := ClearSlot(slot)] == r.slots[i := ClearSlot(r.slots[i])];
    assert Names(slot) == Names(r.slots[i]);
  }

  /** The heap after a success: the switch, the future, the removal. */
  lemma ReapSuccess(s: System, req: Request, f: nat, i: nat, res: int)
    requires s.reg.Structured() && i < |s.reg.slots| && s.reg.slots[i] == SlotOf(f, req, i) && i <= MAX_SIZE
    requires WellFormed(s.heap, req) && PoolOk(s.heap) && CanRead(s.heap, req, res) && !Indigestible(s.heap, req)
    requires !Failed(req.op, res)
    ensures ReapOne(s, Cqe(i, res)).Fine? && Dispatch(s.heap, SlotOf(f, req, i), res).Fine?
    ensures var s', d := ReapOne(s, Cqe(i, res)).value, Dispatch(s.heap, SlotOf(f, req, i), res).value;
            && s'.reg.Structured() && s'.reg.slots == s.reg.slots[i := ClearSlot(s.reg.slots[i])]
            && s'.heap == DecrefAll(Settle(d.heap, f, d.delivery), Names(SlotOf(f, req, i)))
  {
    DispatchEffect(s.heap, req, f, i, res);
    ReapUnfolds(s, i, res);
    var d := Dispatch(s.heap, SlotOf(f, req, i), res).value;
    RemoveSpent(s.reg, Settle(d.heap, f, d.delivery), i, d.slot);
  }

  /** Closing a request with an exception: what an error completion and the drain do. */
  lemma FailAndRemove(s: System, req: Request, f: nat, i: nat, e: Error)
    requires s.reg.Structured() && i < |s.reg.slots| && s.reg.slots[i] == SlotOf(f, req, i)
    requires req.payload.Some? ==> req.payload.value < |s.heap.payloads|
    ensures var r := Remove(System(s.reg, SetException(s.heap, f, e)), i);
            && r.Fine? && r.value.reg.Structured() && r.value.reg.slots == s.reg.slots[i := ClearSlot(s.reg.slots[i])]
            && r.value.heap == SetException(s.heap, f, e).(refs := s.heap.refs - Names(SlotOf(f, req, i)),
                                                           released := s.heap.released + FreedOnDecline(s.heap, req))
  {
    RemoveKeepsStructure(System(s.reg, SetException(s.heap, f, e)), i);
  }

  /** The slot behind the head of the queue, with everything known about it. */
  ghost predicate AtHead(s: State, i: nat) {
    && Shaped(s) && s.cq != [] && s.Ours(s.cq[0]) && s.cq[0].userData == i && i <= MAX_SIZE && s.Occupied(i)
    && SlotLinked(s, i) && CqeLinked(s, s.cq[0]) && Decode(i) == i
  }

  lemma HeadIsLinked(s: State)
    requires Shaped(s) && Linked(s) && Queued(s) && s.cq != [] && s.Ours(s.cq[0])
    ensures AtHead(s, s.cq[0].userData)
  {
    assert CqeLinked(s, s.cq[0]);
    assert SlotLinked(s, s.cq[0].userData);
  }

  /** A slot's references are among those counted. */
  lemma SlotIsCounted(s: State, i: nat, o: Obj)
    requires Counted(s) && Creating(s) && s.Occupied(i) && CreationsNamed(s)
    ensures s.sys.heap.refs[o] >= Names(s.sys.reg.slots[i])[o] + Spent(s.sys.reg.slots[i])[o]
  {
    HeldUpdate(s.sys.reg.slots, i, EMPTY_SLOT, o);
  }

  lemma FailureBalances(s: State, s': State, i: nat, st: Future)
    requires s.Occupied(i) && Counted(s) && Creating(s) && CreationsNamed(s) && !st.Result?
    requires s'.sys.heap.refs == s.sys.heap.refs - Names(s.sys.reg.slots[i])
    requires s'.sys.heap.things == s.sys.heap.things && s'.external == s.external && s'.left == s.left
    ensures Balanced(s, s', i, st, multiset{})
  {
    forall o
      ensures s'.sys.heap.refs[o] + Names(s.sys.reg.slots[i])[o] == s.sys.heap.refs[o]
    {
      SlotIsCounted(s, i, o);
    }
    assert s.left - multiset{} == s.left;
  }

  lemma FailureRetires(s: State, i: nat, e: Error, s': State)
    requires AtHead(s, i) && Counted(s) && Creating(s) && CreationsNamed(s)
    requires FailedWith(s, s', i, e)
    ensures Retired(s, s', i, Shown(s.sys.heap, s.Owner(i), Raised(e)), multiset{})
  {
    FailureBalances(s, s', i, Shown(s.sys.heap, s.Owner(i), Raised(e)));
    PoolStays(s.sys.heap, s'.sys.heap);
  }

  /** What the reader's success path leaves behind, in terms of what the switch delivered. */
  ghost predicate Delivered(s: State, s': State, i: nat, d: Dispatched)
    requires s.Occupied(i) && s.Owner(i) < |s.log| && s.cq != []
  {
    var slot, f := s.sys.reg.slots[i], s.Owner(i);
    && d.delivery.Some? && Delivers(s.sys.heap, d.heap, slot, d.delivery.value.obj)
    && |d.heap.payloads| == |s.sys.heap.payloads| && PoolExtends(s.sys.heap, d.heap)
    && d.heap.released == s.sys.heap.released + FreedOnDecline(s.sys.heap, s.log[f].req)
    && s'.sys.reg.Structured() && s'.sys.reg.slots == s.sys.reg.slots[i := ClearSlot(slot)]
    && s'.sys.heap == DecrefAll(Settle(d.heap, f, d.delivery), Names(slot))
    && s'.cq == s.cq[1..] && s'.inFlight == s.inFlight && s'.log == s.log && s'.posted == s.posted
    && s'.external == s.external && s'.left == s.left - Spent(slot)
  }

  /** The state a delivery puts a future in. */
  ghost function Offer(d: Dispatched): Future
    requires d.delivery.Some?
  {
    Result(d.delivery.value.obj, d.delivery.value.value)
  }

  lemma SettleKeeps(h: Heap, f: nat, d: Delivery)
    requires f < |h.futures|
    ensures var h' := Settle(h, f, Some(d));
            h' == h.(refs := h'.refs, futures := h.futures[f := Shown(h, f, Result(d.obj, d.value))])
  {
    if !h.futures[f].Pending? {
      assert h.futures[f := h.futures[f]] == h.futures;
    }
  }

  lemma SuccessBalances(s: State, s': State, i: nat, d: Dispatched)
    requires s.Occupied(i) && s.Owner(i) < |s.sys.heap.futures| && s.sys.heap.futures[s.Owner(i)].Unsettled()
    requires Counted(s) && Creating(s) && CreationsNamed(s)
    requires d.delivery.Some? && Delivers(s.sys.heap, d.heap, s.sys.reg.slots[i], d.delivery.value.obj)
    requires s'.sys.heap.refs == Settle(d.heap, s.Owner(i), d.delivery).refs - Names(s.sys.reg.slots[i])
    requires s'.sys.heap.things == d.heap.things && s'.external == s.external
    requires s'.left == s.left - Spent(s.sys.reg.slots[i])
    ensures Balanced(s, s', i, Shown(s.sys.heap, s.Owner(i), Offer(d)), Spent(s.sys.reg.slots[i]))
  {
    var slot, st := s.sys.reg.slots[i], Shown(s.sys.heap, s.Owner(i), Offer(d));
    forall o
      ensures s'.sys.heap.refs[o] + Names(slot)[o] + Spent(slot)[o] == s.sys.heap.refs[o] + ResultOf(st, o)
    {
      SlotIsCounted(s, i, o);
      SettleRefs(s.sys.heap, d.heap, slot, s.Owner(i), d.delivery.value, Names(slot), o);
    }
    NothingElseAppears(s, s', st, d, slot);
  }

  lemma NothingElseAppears(s: State, s': State, st: Future, d: Dispatched, slot: Slot)
    requires Counted(s) && d.delivery.Some? && Delivers(s.sys.heap, d.heap, slot, d.delivery.value.obj)
    requires s'.sys.heap.things == d.heap.things && (st.Result? ==> st.obj == d.delivery.value.obj)
    requires forall o :: s'.sys.heap.refs[o] <= s.sys.heap.refs[o] + ResultOf(st, o)
    requires IsCreation(slot.opcode) && CreatedBy(slot).Thing? ==> CreatedBy(slot).n < s.sys.heap.things
    ensures forall n: nat | n >= s'.sys.heap.things :: Thing(n) !in s'.sys.heap.refs
  {
    forall n: nat | n >= s'.sys.heap.things
      ensures Thing(n) !in s'.sys.heap.refs
    {
      assert s.sys.heap.refs[Thing(n)] == 0;
    }
  }

  lemma SuccessRetires(s: State, s': State, i: nat, d: Dispatched)
    requires AtHead(s, i) && Counted(s) && Creating(s) && CreationsNamed(s) && Delivered(s, s', i, d)
    ensures Retired(s, s', i, Shown(s.sys.heap, s.Owner(i), Offer(d)), Spent(s.sys.reg.slots[i]))
  {
    SettleKeeps(d.heap, s.Owner(i), d.delivery.value);
    SuccessBalances(s, s', i, d);
    PoolStays(s.sys.heap, s'.sys.heap);
  }

  lemma PoolStays(h: Heap, h': Heap)
    requires PoolOk(h) && PoolExtends(h, h') && |h'.payloads| == |h.payloads|
    ensures PoolOk(h')
  {
  }

  /** From the switch to the relation: one successful trip round the reader's loop. */
  lemma SuccessDelivers(s: State, i: nat) returns (d: Dispatched)
    requires AtHead(s, i)
    requires !Failed(s.sys.reg.slots[i].opcode, s.cq[0].res) && !Indigestible(s.sys.heap, s.log[s.Owner(i)].req)
    ensures AfterReap(s).Fine? && Delivered(s, AfterReap(s).value, i, d)
    ensures Proper(s, s.Owner(i), Offer(d))
  {
    var f, res := s.Owner(i), s.cq[0].res;
    var l := s.log[f];
    ReapSuccess(s.sys, l.req, f, i, res);
    DispatchEffect(s.sys.heap, l.req, f, i, res);
    DispatchPool(s.sys.heap, l.req, f, i, res);
    DispatchAnswers(s.sys.heap, l, f, i, s.posted[f]);
    d := Dispatch(s.sys.heap, SlotOf(f, l.req, i), res).value;
  }

  /** What an error completion and the drain leave behind. */
  ghost predicate FailedWith(s: State, s': State, i: nat, e: Error)
    requires s.Occupied(i) && s.Owner(i) < |s.log| && s.cq != []
  {
    && s'.sys.reg.Structured() && s'.sys.reg.slots == s.sys.reg.slots[i := ClearSlot(s.sys.reg.slots[i])]
    && s'.sys.heap == SetException(s.sys.heap, s.Owner(i), e).(
                        refs := s.sys.heap.refs - Names(s.sys.reg.slots[i]),
                        released := s.sys.heap.released + FreedOnDecline(s.sys.heap, s.log[s.Owner(i)].req))
    && s' == s.(sys := s'.sys, cq := s.cq[1..], fate := s'.fate)
  }

  lemma FailedKeeps(s: State, s': State, i: nat, e: Error)
    requires Inv(s) && AtHead(s, i) && CreationsNamed(s) && FailedWith(s, s', i, e) && Proper(s, s.Owner(i), Raised(e))
    ensures Inv(s')
  {
    FailureRetires(s, i, e, s');
    RetiredKeeps(s, s', i, Shown(s.sys.heap, s.Owner(i), Raised(e)), multiset{});
  }

  lemma ReapFails(s: State, i: nat)
    requires AtHead(s, i) && Failed(s.sys.reg.slots[i].opcode, s.cq[0].res)
    ensures AfterReap(s).Fine? && FailedWith(s, AfterReap(s).value, i, OsError(-s.cq[0].res))
    ensures Proper(s, s.Owner(i), Raised(OsError(-s.cq[0].res)))
  {
    var res, f := s.cq[0].res, s.Owner(i);
    ReapUnfolds(s.sys, i, res);
    FailAndRemove(s.sys, s.log[f].req, f, i, OsError(-res));
    assert s.left - multiset{} == s.left;
  }

  lemma ReapFailureKeeps(s: State, i: nat)
    requires Inv(s) && AtHead(s, i) && CreationsNamed(s) && Failed(s.sys.reg.slots[i].opcode, s.cq[0].res)
    ensures AfterReap(s).Fine? && Inv(AfterReap(s).value)
  {
    ReapFails(s, i);
    FailedKeeps(s, AfterReap(s).value, i, OsError(-s.cq[0].res));
  }

  lemma ReapSuccessKeeps(s: State, i: nat)
    requires Inv(s) && AtHead(s, i) && CreationsNamed(s)
    requires !Failed(s.sys.reg.slots[i].opcode, s.cq[0].res) && !Indigestible(s.sys.heap, s.log[s.Owner(i)].req)
    ensures AfterReap(s).Fine? && Inv(AfterReap(s).value)
  {
    var d := SuccessDelivers(s, i);
    var s' := AfterReap(s).value;
    DeliveredKeeps(s, s', i, d);
  }

  lemma DeliveredKeeps(s: State, s': State, i: nat, d: Dispatched)
    requires Inv(s) && AtHead(s, i) && CreationsNamed(s) && Delivered(s, s', i, d) && Proper(s, s.Owner(i), Offer(d))
    ensures Inv(s')
  {
    SuccessRetires(s, s', i, d);
    RetiredKeeps(s, s', i, Shown(s.sys.heap, s.Owner(i), Offer(d)), Spent(s.sys.reg.slots[i]));
  }

  /** Reaping the head of the queue keeps the invariant, never aborts, and crashes on exactly
      one kind of completion: the success of an indigestible request. */
  lemma ReapKeeps(s: State)
    requires Inv(s) && s.cq != []
    ensures AfterReap(s) != Crashed(Abort)
    ensures AfterReap(s).Crashed? <==> HeadIsIndigestible(s)
    ensures AfterReap(s).Fine? ==> Inv(AfterReap(s).value)
  {
    if !s.Ours(s.cq[0]) {
      SkipKeeps(s);
    } else {
      HeadIsLinked(s);
      CreationsAreNamed(s);
      var i: nat := s.cq[0].userData;
      if HeadIsIndigestible(s) {
        HeadCrashes(s, i);
      } else if Failed(s.sys.reg.slots[i].opcode, s.cq[0].res) {
        ReapFailureKeeps(s, i);
      } else {
        ReapSuccessKeeps(s, i);
      }
    }
  }

  lemma HeadCrashes(s: State, i: nat)
    requires AtHead(s, i) && HeadIsIndigestible(s)
    ensures AfterReap(s) == Crashed(BadAccess)
  {
    var f, res := s.Owner(i), s.cq[0].res;
    ReapUnfolds(s.sys, i, res);
    DispatchCrashesIff(s.sys.heap, s.log[f].req, f, i, res);
    DispatchKeepsFuture(s.sys.heap, s.sys.reg.slots[i], res);
  }

  ghost predicate HeadIsIndigestible(s: State)
    requires s.cq != []
  {
    && s.Ours(s.cq[0]) && s.Occupied(Decode(s.cq[0].userData))
    && (var f := s.Owner(Decode(s.cq[0].userData));
        f < |s.log| && !Failed(s.log[f].req.op, s.cq[0].res) && Indigestible(s.sys.heap, s.log[f].req))
  }

  lemma SkipKeeps(s: State)
    requires Inv(s) && s.cq != [] && !s.Ours(s.cq[0])
    ensures Inv(s.(cq := s.cq[1..]))
    ensures AfterReap(s) == Fine(s.(cq := s.cq[1..])) == AfterDrain(s)
  {
    var s' := s.(cq := s.cq[1..]);
    assert s.left - Consumed(s, s.cq[0]) == s.left;
    SkipLinks(s);
    CountedFrame(s, s');
    OnceFrame(s, s');
    SettledFrame(s, s');
  }

  lemma SkipLinks(s: State)
    requires Shaped(s) && Linked(s) && Queued(s) && s.cq != [] && !s.Ours(s.cq[0])
    ensures var s' := s.(cq := s.cq[1..]); Shaped(s') && Linked(s') && Queued(s')
  {
    var s' := s.(cq := s.cq[1..]);
    forall i | s'.Occupied(i)
      ensures SlotLinked(s', i)
    {
      assert SlotLinked(s, i);
      if InQueue(s.cq, i) {
        var k :| 0 <= k < |s.cq| && s.cq[k].userData == i;
        DecodeIndex(i);
        assert s'.cq[k - 1].userData == i;
      }
    }
    forall k | 0 <= k < |s'.cq| && s'.Ours(s'.cq[k])
      ensures CqeLinked(s', s'.cq[k])
    {
      assert s'.cq[k] == s.cq[k + 1] && s.Ours(s.cq[k + 1]);
    }
  }

  /** The shutdown drain relies on the invariant: every completion it takes for a slot finds a
      future there, so it never aborts and it fails each future that is still pending. */
  lemma DrainKeeps(s: State)
    requires Inv(s) && s.cq != []
    ensures AfterDrain(s).Fine? && Inv(AfterDrain(s).value)
    ensures s.Ours(s.cq[0]) ==>
              && s.Occupied(Decode(s.cq[0].userData))
              && (var f := s.Owner(Decode(s.cq[0].userData));
                  && f < |s.sys.heap.futures| && f < |AfterDrain(s).value.sys.heap.futures|
                  && AfterDrain(s).value.sys.heap.futures[f] ==
                       if s.sys.heap.futures[f].Pending? then Raised(LoopClosed) else s.sys.heap.futures[f])
  {
    if !s.Ours(s.cq[0]) {
      SkipKeeps(s);
    } else {
      HeadIsLinked(s);
      CreationsAreNamed(s);
      DrainFailsHead(s, s.cq[0].userData);
      FailedKeeps(s, AfterDrain(s).value, s.cq[0].userData, LoopClosed);
    }
  }

  lemma DrainFailsHead(s: State, i: nat)
    requires AtHead(s, i)
    ensures AfterDrain(s).Fine? && FailedWith(s, AfterDrain(s).value, i, LoopClosed)
  {
    FailAndRemove(s.sys, s.log[s.Owner(i)].req, s.Owner(i), i, LoopClosed);
  }
}
