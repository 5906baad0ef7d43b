/** What the protocol promises over whole runs: every interleaving of calls, refusals, kernel
    answers, cancellations, reaps and drains. */
module Guarantees {
  import opened Core
  import opened FreeLists
  import opened Runtime
  import opened Reader
  import opened Requests
  import opened Protocol
  import opened Invariant

  // ------------------------------------------------------------------------------- runs

  /** A step crashes: the reader meets the success of an indigestible request, or a call follows
      a null pointer. */
  ghost predicate StepCrashes(s: State, step: Step)
    requires Enabled(s, step)
  {
    || (step.Reap? && HeadIsIndigestible(s))
    || (step.Submit? && CallCrashes(s, step.ctx, step.call))
  }

  /** One step keeps the invariant and never aborts; which steps crash is known beforehand. */
  lemma StepKeeps(s: State, step: Step)
    requires Inv(s) && Enabled(s, step)
    ensures Next(s, step) != Crashed(Abort)
    ensures Next(s, step).Crashed? <==> StepCrashes(s, step)
    ensures Next(s, step).Fine? ==> Inv(Next(s, step).value)
  {
    match step
    case Submit(ctx, call, taken) => SubmitKeeps(s, ctx, call, taken);
    case Complete(f, res, data, memory) => CompleteKeeps(s, f, res, data, memory);
    case Stray(c) => StrayKeeps(s, c);
    case Cancel(f) => CancelKeeps(s, f);
    case Retain(o) => RetainKeeps(s, o);
    case Drop(o) => DropKeeps(s, o);
    case Install(b) => InstallKeeps(s, b);
    case Reap => ReapKeeps(s);
    case Drain => DrainKeeps(s);
  }

  /** `steps` can be taken one after the other from s and end in s'. */
  ghost predicate Leads(s: State, steps: seq<Step>, s': State)
    decreases |steps|
  {
    if steps == [] then s' == s
    else
      && s.sys.reg.Wf() && Enabled(s, steps[0]) && Next(s, steps[0]).Fine?
      && Leads(Next(s, steps[0]).value, steps[1..], s')
  }

  lemma {:induction false} RunKeeps(s: State, steps: seq<Step>, s': State)
    requires Inv(s) && Leads(s, steps, s')
    ensures Inv(s')
    decreases |steps|
  {
    if steps != [] {
      StepKeeps(s, steps[0]);
      RunKeeps(Next(s, steps[0]).value, steps[1..], s');
    }
  }

  /** Every state a loop of n slots can reach satisfies the invariant. */
  lemma ReachableInv(n: nat, steps: seq<Step>, s: State)
    requires 1 <= n <= MAX_SIZE && Leads(Init(n), steps, s)
    ensures Inv(s)
  {
    InitInv(n);
    RunKeeps(Init(n), steps, s);
  }

  // -------------------------------------------------------------------------- partition

  /** Where index i is: on the free stack, in flight, or in the completion queue. */
  ghost function FreePlaces(s: State, i: int): set<int>
    requires Shaped(s)
  {
    set k | 0 <= k <= s.sys.reg.free.top && s.sys.reg.free.cells[k] == i
  }

  ghost function FlightPlaces(s: State, i: int): set<nat> {
    set f | f in s.inFlight && f < |s.log| && s.log[f].index == i
  }

  ghost function QueuePlaces(s: State, i: int): set<int> {
    set k | 0 <= k < |s.cq| && s.cq[k].userData == i
  }

  lemma Singleton<T>(a: set<T>, x: T)
    requires x in a && forall y | y in a :: y == x
    ensures |a| == 1
  {
    assert a == {x};
  }

  /** The free stack, the requests in flight and the completion queue partition the indices:
      every index is in exactly one place, once. */
  lemma Partition(s: State, i: int)
    requires Inv(s) && 0 <= i < |s.sys.reg.slots|
    ensures |FreePlaces(s, i)| + |FlightPlaces(s, i)| + |QueuePlaces(s, i)| == 1
  {
    if s.Occupied(i) {
      OccupiedPlaces(s, i);
    } else {
      FreeIndexPlaces(s, i);
    }
  }

  lemma FreeIndexPlaces(s: State, i: int)
    requires Shaped(s) && Linked(s) && Queued(s) && 0 <= i < |s.sys.reg.slots| && !s.Occupied(i)
    ensures |FreePlaces(s, i)| == 1 && FlightPlaces(s, i) == {} && QueuePlaces(s, i) == {}
  {
    var l := s.sys.reg.free;
    var k :| 0 <= k <= l.top && l.cells[k] == i;
    Singleton(FreePlaces(s, i), k);
    DecodeIndex(i);
    forall k | 0 <= k < |s.cq|
      ensures s.cq[k].userData != i
    {
      assert s.Ours(s.cq[k]) ==> CqeLinked(s, s.cq[k]);
    }
  }

  lemma OccupiedPlaces(s: State, i: int)
    requires Shaped(s) && Linked(s) && Queued(s) && s.Occupied(i)
    ensures FreePlaces(s, i) == {} && |FlightPlaces(s, i)| + |QueuePlaces(s, i)| == 1
  {
    assert !s.sys.reg.free.IsFree(i) && SlotLinked(s, i);
    DecodeIndex(i);
    var f := s.Owner(i);
    forall k | k in QueuePlaces(s, i)
      ensures f !in s.inFlight
    {
      assert s.Ours(s.cq[k]) && CqeLinked(s, s.cq[k]);
    }
    if f in s.inFlight {
      Singleton(FlightPlaces(s, i), f);
      assert QueuePlaces(s, i) == {};
    } else {
      var k :| 0 <= k < |s.cq| && s.cq[k].userData == i;
      assert s.Ours(s.cq[k]);
      Singleton(QueuePlaces(s, i), k);
      assert FlightPlaces(s, i) == {};
    }
  }

  /** Every outstanding request still finds in its slot the future, opcode, payload and objects
      it was submitted with, however often the index has been reused before. */
  lemma OutstandingSlotsAreIntact(s: State, f: nat)
    requires Inv(s) && f < |s.log|
    requires f in s.inFlight || (exists k :: 0 <= k < |s.cq| && s.Ours(s.cq[k]) && s.Owns(s.cq[k], f))
    ensures 0 <= s.log[f].index < |s.sys.reg.slots|
    ensures s.sys.reg.slots[s.log[f].index] == SlotOf(f, s.log[f].req, s.log[f].index)
  {
    if f in s.inFlight {
      assert SlotLinked(s, s.log[f].index);
    } else {
      var k :| 0 <= k < |s.cq| && s.Ours(s.cq[k]) && s.Owns(s.cq[k], f);
      assert SlotLinked(s, Decode(s.cq[k].userData));
    }
  }

  // --------------------------------------------------------------------------- delivery

  /** Only a pending future changes. */
  ghost predicate Final(h: Heap, h': Heap) {
    && |h.futures| <= |h'.futures|
    && forall f | 0 <= f < |h.futures| && !h.futures[f].Pending? :: h'.futures[f] == h.futures[f]
  }

  lemma DispatchKeepsFutures(h: Heap, slot: Slot, res: int)
    requires Dispatch(h, slot, res).Fine?
    ensures Dispatch(h, slot, res).value.heap.futures == h.futures
  {
    if slot.payload.Some? && slot.payload.value < |h.payloads| {
      ReleaseKeeps(h, slot.payload.value);
    }
  }

  lemma RemoveKeepsFutures(s: System, i: int)
    requires s.reg.Wf() && Remove(s, i).Fine?
    ensures Remove(s, i).value.heap.futures == s.heap.futures
  {
  }

  lemma InformIsFinal(h: Heap, slot: Slot, f: nat, res: int)
    requires Inform(h, slot, f, res).Fine?
    ensures Final(h, Inform(h, slot, f, res).value.0)
  {
    if !Failed(slot.opcode, res) {
      DispatchKeepsFutures(h, slot, res);
    }
  }

  lemma ReapIsFinal(s: System, i: nat, f: nat, res: int)
    requires s.reg.Wf() && i < |s.reg.slots| && ReapSlot(s, i, f, res).Fine?
    ensures Final(s.heap, ReapSlot(s, i, f, res).value.heap)
  {
    InformIsFinal(s.heap, s.reg.slots[i], f, res);
    RemoveKeepsFutures(Tell(s, i, f, res).value, i);
  }

  lemma RegisterKeepsFutures(r: Registry, h: Heap, f: nat, req: Request, own: multiset<Obj>, taken: bool)
    requires r.Wf() && Register(r, h, f, req, own, taken).Fine?
    ensures Register(r, h, f, req, own, taken).value.sys.heap.futures == h.futures
  {
    var (s1, index) := Add(System(r, h), f, req);
    if index >= 0 {
      TakeIndexKeeps(s1.heap, req);
      if !taken {
        RemoveKeepsFutures(System(s1.reg, DecrefAll(TakeIndex(s1.heap, req), own)), index);
      }
    }
  }

  lemma SubmitIsFinal(s: State, ctx: Context, call: Call, taken: bool)
    requires s.sys.reg.Wf() && AfterSubmit(s, ctx, call, taken).Fine?
    ensures Final(s.sys.heap, AfterSubmit(s, ctx, call, taken).value.sys.heap)
  {
    var (h, req) := Prepare(s.sys.heap, ctx, call);
    var f := |s.sys.heap.futures|;
    RegisterKeepsFutures(s.sys.reg, h, f, req, Own(call, s.sys.heap, f), taken);
    assert h.futures == s.sys.heap.futures + [Pending];
  }

  lemma StepIsFinal(s: State, step: Step)
    requires s.sys.reg.Wf() && Enabled(s, step) && Next(s, step).Fine?
    ensures Final(s.sys.heap, Next(s, step).value.sys.heap)
  {
    match step
    case Submit(ctx, call, taken) => SubmitIsFinal(s, ctx, call, taken);
    case Reap =>
      var i := Decode(s.cq[0].userData);
      if s.Occupied(i) {
        ReapIsFinal(s.sys, i, s.Owner(i), s.cq[0].res);
      }
    case Drain => DrainIsFinal(s.sys, s.cq[0]);
    case _ =>
  }

  lemma DrainIsFinal(s: System, c: Cqe)
    requires s.reg.Wf() && DrainOne(s, c).Fine?
    ensures Final(s.heap, DrainOne(s, c).value.heap)
  {
    var i := Decode(c.userData);
    if c.userData != WAKEUP_TAG && 0 <= i < |s.reg.slots| {
      var future := s.reg.slots[i].future;
      var h := if future.Some? then SetException(s.heap, future.value, LoopClosed) else s.heap;
      ExceptionIsFinal(s.heap, future, LoopClosed);
      RemoveKeepsFutures(System(s.reg, h), i);
      assert DrainOne(s, c) == Remove(System(s.reg, h), i);
    }
  }

  lemma ExceptionIsFinal(h: Heap, f: Option<nat>, e: Error)
    ensures Final(h, if f.Some? then SetException(h, f.value, e) else h)
  {
  }

  /** Over any run whatever, a future is settled at most once: once it shows a result, an
      exception or a cancellation it shows that for good. */
  lemma {:induction false} SettledAtMostOnce(s: State, steps: seq<Step>, s': State)
    requires Leads(s, steps, s')
    ensures Final(s.sys.heap, s'.sys.heap)
    decreases |steps|
  {
    if steps != [] {
      StepIsFinal(s, steps[0]);
      SettledAtMostOnce(Next(s, steps[0]).value, steps[1..], s');
    }
  }

  /** Reaping a completion settles the future it belongs to, with that outcome, unless the
      user has cancelled it first; no opcode leaves it empty-handed. */
  lemma ReapSettles(s: State)
    requires Inv(s) && s.cq != [] && s.Ours(s.cq[0]) && !HeadIsIndigestible(s)
    ensures s.Occupied(Decode(s.cq[0].userData)) && AfterReap(s).Fine?
    ensures var f, s' := s.Owner(Decode(s.cq[0].userData)), AfterReap(s).value;
            && f < |s.log| && f in s.posted && f < |s.sys.heap.futures| && f < |s'.sys.heap.futures|
            && s.posted[f].res == s.cq[0].res
            && (if s.sys.heap.futures[f].Pending? then Explains(s.log[f], s.posted[f], s'.sys.heap.futures[f])
                else s'.sys.heap.futures[f] == Cancelled)
            && !s'.Occupied(Decode(s.cq[0].userData))
  {
    HeadIsLinked(s);
    var i: nat := s.cq[0].userData;
    if Failed(s.sys.reg.slots[i].opcode, s.cq[0].res) {
      ReapFails(s, i);
    } else {
      var d := SuccessDelivers(s, i);
      SettleKeeps(d.heap, s.Owner(i), d.delivery.value);
    }
  }

  /** The reader's loop is a run of reaps: from a protocol state it either reaches a protocol
      state with an empty queue, or meets an indigestible success on the way. */
  lemma {:induction false} ReapAllKeeps(s: State) returns (s': State)
    requires Inv(s)
    ensures Inv(s') && s'.sys.reg.Structured()
    ensures match ReapAll(s.sys, s.cq)
            case Fine(sys) => s'.sys == sys && s'.cq == [] && s'.inFlight == s.inFlight && s'.log == s.log
            case Crashed(why) => why == BadAccess && s'.cq != [] && HeadIsIndigestible(s')
    decreases |s.cq|
  {
    s' := s;
    if s.cq != [] {
      ReapKeeps(s);
      if AfterReap(s).Fine? {
        s' := ReapAllKeeps(AfterReap(s).value);
      }
    }
  }

  /** Which public calls build a request the reader cannot digest: exactly readv under PROVIDED
      or BUF_RING buffers, and recvmsg under the MULTISHOT strategy. */
  lemma IndigestibleCalls(h: Heap, ctx: Context, call: Call)
    requires PoolOk(h) && ContextOk(h, ctx)
    ensures Indigestible(Prepare(h, ctx, call).0, Prepare(h, ctx, call).1) <==>
              || (call.Readv? && ctx.payload.Some? &&
                  (h.payloads[ctx.payload.value].mode.Provided? || h.payloads[ctx.payload.value].mode.BufRing?))
              || (call.Recvmsg? && ctx.stream.Multishot?)
  {
    CallsChooseBuffers(h, ctx, call);
    if call.Readv? || call.ReadvRaw? {
      VectorsAreIndigestible(h, ctx, call);
    } else {
      OthersAreDigestible(h, ctx, call);
    }
  }

  lemma VectorsAreIndigestible(h: Heap, ctx: Context, call: Call)
    requires PoolOk(h) && ContextOk(h, ctx) && (call.Readv? || call.ReadvRaw?)
    ensures Indigestible(Prepare(h, ctx, call).0, Prepare(h, ctx, call).1) <==>
              && call.Readv? && ctx.payload.Some?
              && (h.payloads[ctx.payload.value].mode.Provided? || h.payloads[ctx.payload.value].mode.BufRing?)
  {
    var (h', req) := Prepare(h, ctx, call);
    assert req.payload.value < |h.payloads| ==> h'.payloads[req.payload.value] == h.payloads[req.payload.value];
  }

  lemma OthersAreDigestible(h: Heap, ctx: Context, call: Call)
    requires !call.Readv? && !call.ReadvRaw?
    ensures Indigestible(Prepare(h, ctx, call).0, Prepare(h, ctx, call).1) <==> call.Recvmsg? && ctx.stream.Multishot?
  {
  }

  // -------------------------------------------------------------- payloads and references

  ghost predicate IsCarried(slots: seq<Slot>, p: nat) { exists i :: 0 <= i < |slots| && slots[i].payload == Some(p) }

  /** In every reachable state a payload built for a request is carried by exactly one slot and
      not yet freed, or carried by none and freed exactly once (success, error, refusal, full
      registry and drain alike); a context's payload is never freed. */
  lemma PayloadsFreedOnce(n: nat, steps: seq<Step>, s: State, p: nat)
    requires 1 <= n <= MAX_SIZE && Leads(Init(n), steps, s) && p < |s.sys.heap.payloads|
    ensures if ContextOwned(s.sys.heap.payloads[p]) then s.sys.heap.released[p] == 0
            else s.sys.heap.released[p] == if IsCarried(s.sys.reg.slots, p) then 0 else 1
  {
    ReachableInv(n, steps, s);
    if IsCarried(s.sys.reg.slots, p) {
      var i :| 0 <= i < |s.sys.reg.slots| && s.sys.reg.slots[i].payload == Some(p);
      CarriedUpdate(s.sys.reg.slots, i, EMPTY_SLOT, p);
    } else {
      CarriedByNone(s.sys.reg.slots, p);
    }
  }

  /** When nothing is outstanding the registry holds no reference at all, every index is free
      and every private payload has been freed. */
  lemma QuiescentHoldsNothing(s: State, o: Obj, p: nat)
    requires Inv(s) && s.inFlight == {} && s.cq == []
    ensures s.sys.reg.free.top + 1 == |s.sys.reg.slots|
    ensures s.sys.heap.refs[o] == Results(s.sys.heap.futures, o) + s.external[o] + s.left[o]
    ensures p < |s.sys.heap.payloads| && !ContextOwned(s.sys.heap.payloads[p]) ==> s.sys.heap.released[p] == 1
  {
    QuiescentIsBlank(s);
    NothingHeld(s.sys.reg.slots, o, p);
  }

  lemma QuiescentIsBlank(s: State)
    requires Shaped(s) && Linked(s) && s.inFlight == {} && s.cq == []
    ensures s.sys.reg.free.top + 1 == |s.sys.reg.slots|
    ensures forall i | 0 <= i < |s.sys.reg.slots| :: Blank(s.sys.reg.slots[i])
  {
    forall i | 0 <= i < |s.sys.reg.slots|
      ensures Blank(s.sys.reg.slots[i]) && i !in s.sys.reg.free.Live()
    {
      assert s.Occupied(i) ==> SlotLinked(s, i);
    }
    assert s.sys.reg.free.Live() == {};
    FreePlusLive(s.sys.reg.free);
  }

  /** A delivered object ends with exactly one reference, the future's: a file or socket that
      the request had borrowed, a new connection, bytes or an integer alike. */
  lemma DeliveredHasOneReference(s: State)
    requires Inv(s) && s.cq != [] && s.Ours(s.cq[0]) && !HeadIsIndigestible(s)
    requires s.Occupied(Decode(s.cq[0].userData)) && AfterReap(s).Fine?
    requires var f := s.Owner(Decode(s.cq[0].userData));
             && f < |s.sys.heap.futures| && s.sys.heap.futures[f].Pending?
             && f < |AfterReap(s).value.sys.heap.futures| && AfterReap(s).value.sys.heap.futures[f].Result?
    ensures var st := AfterReap(s).value.sys.heap.futures[s.Owner(Decode(s.cq[0].userData))];
            !st.obj.PyNone? ==> AfterReap(s).value.sys.heap.refs[st.obj] == 1
  {
    HeadIsLinked(s);
    CreationsAreNamed(s);
    var i: nat := s.cq[0].userData;
    if Failed(s.sys.reg.slots[i].opcode, s.cq[0].res) {
      ReapFails(s, i);
    } else {
      var d := SuccessDelivers(s, i);
      SettleKeeps(d.heap, s.Owner(i), d.delivery.value);
      DeliveryIsCounted(s, AfterReap(s).value, i, d);
    }
  }

  lemma DeliveryIsCounted(s: State, s': State, i: nat, d: Dispatched)
    requires s.Occupied(i) && s.Owner(i) < |s.sys.heap.futures| && s.sys.heap.futures[s.Owner(i)].Pending?
    requires Counted(s) && Creating(s) && CreationsNamed(s)
    requires d.delivery.Some? && Delivers(s.sys.heap, d.heap, s.sys.reg.slots[i], d.delivery.value.obj)
    requires s'.sys.heap.refs == Settle(d.heap, s.Owner(i), d.delivery).refs - Names(s.sys.reg.slots[i])
    ensures !d.delivery.value.obj.PyNone? ==> s'.sys.heap.refs[d.delivery.value.obj] == 1
  {
    SettleNet(d.heap, s.Owner(i), d.delivery.value);
    BeforeDelivery(s, i, d.delivery.value.obj);
  }

  /** Before the delivery an object under creation has two references, one of them the slot's;
      a new object has none. */
  lemma BeforeDelivery(s: State, i: nat, obj: Obj)
    requires s.Occupied(i) && Counted(s) && Creating(s) && CreationsNamed(s)
    ensures IsCreation(s.sys.reg.slots[i].opcode) && obj == CreatedBy(s.sys.reg.slots[i]) ==>
              s.sys.heap.refs[obj] == 2 && Names(s.sys.reg.slots[i])[obj] == 1
    ensures obj == Thing(s.sys.heap.things) ==> s.sys.heap.refs[obj] == 0 && Names(s.sys.reg.slots[i])[obj] == 0
  {
    HeldUpdate(s.sys.reg.slots, i, EMPTY_SLOT, obj);
  }

  /** The request at the head of the queue is an open or socket call's. */
  ghost predicate HeadCreates(s: State) {
    && s.cq != [] && s.Ours(s.cq[0]) && s.Occupied(Decode(s.cq[0].userData))
    && IsCreation(s.sys.reg.slots[Decode(s.cq[0].userData)].opcode)
  }

  /** The object it creates. */
  ghost function HeadCreation(s: State): Obj
    requires HeadCreates(s)
  {
    CreatedBy(s.sys.reg.slots[Decode(s.cq[0].userData)])
  }

  /** The law does not extend to failures. Once a creation has been reaped the results account
      for every reference to its object (one, or none if the future was cancelled) if and only
      if the kernel reported success: the reference a failed call left with its request is
      dropped by nobody and keeps the object alive. */
  lemma CreationLeaksIffFailed(s: State)
    requires Inv(s) && HeadCreates(s)
    ensures AfterReap(s).Fine?
    ensures var o, s' := HeadCreation(s), AfterReap(s).value;
            && Held(s'.sys.reg.slots, o) == 0 && s'.external[o] == 0
            && (s'.sys.heap.refs[o] == Results(s'.sys.heap.futures, o) <==> s.cq[0].res >= 0)
            && s'.sys.heap.refs[o] == Results(s'.sys.heap.futures, o) + (if s.cq[0].res >= 0 then 0 else 1)
  {
    HeadIsLinked(s);
    CreationsAreNamed(s);
    ReapKeeps(s);
    var i: nat := s.cq[0].userData;
    if Failed(s.sys.reg.slots[i].opcode, s.cq[0].res) {
      ReapFails(s, i);
    } else {
      var _ := SuccessDelivers(s, i);
    }
    CreationIsRetired(s, AfterReap(s).value, i);
  }

  /** Drained, a creation always leaks, whatever the kernel reported. */
  lemma DrainedCreationLeaks(s: State)
    requires Inv(s) && HeadCreates(s)
    ensures AfterDrain(s).Fine?
    ensures var o, s' := HeadCreation(s), AfterDrain(s).value;
            && Held(s'.sys.reg.slots, o) == 0 && s'.external[o] == 0 && Results(s'.sys.heap.futures, o) == 0
            && s'.sys.heap.refs[o] == 1
  {
    HeadIsLinked(s);
    CreationsAreNamed(s);
    DrainKeeps(s);
    var i: nat := s.cq[0].userData;
    DrainFailsHead(s, i);
    CreationIsRetired(s, AfterDrain(s).value, i);
    ResultsUpdate(s.sys.heap.futures, s.Owner(i), AfterDrain(s).value.sys.heap.futures[s.Owner(i)], HeadCreation(s));
  }

  lemma CreationIsRetired(s: State, s': State, i: nat)
    requires s.Occupied(i) && IsCreation(s.sys.reg.slots[i].opcode) && Creating(s) && CreationsNamed(s) && Counted(s')
    requires s'.sys.reg.slots == s.sys.reg.slots[i := ClearSlot(s.sys.reg.slots[i])] && s'.external == s.external
    ensures var o := CreatedBy(s.sys.reg.slots[i]);
            && Held(s'.sys.reg.slots, o) == 0 && s'.external[o] == 0 && s.left[o] == 1
            && s'.sys.heap.refs[o] == Results(s'.sys.heap.futures, o) + s'.left[o]
  {
    var o := CreatedBy(s.sys.reg.slots[i]);
    assert NewBorn(s, o);
    HeldUpdate(s.sys.reg.slots, i, ClearSlot(s.sys.reg.slots[i]), o);
  }

  /** A call that is declined, by a full registry or by the ring, leaves every reference count
      and the free list exactly as before the call and frees what it had built. */
  lemma DeclinedLeavesNoTrace(s: State, ctx: Context, call: Call, taken: bool)
    requires Inv(s) && CanSubmit(s, ctx, call) && (s.sys.reg.free.top < 0 || !taken)
    ensures AfterSubmit(s, ctx, call, taken).Crashed? <==> CallCrashes(s, ctx, call)
    ensures AfterSubmit(s, ctx, call, taken).Fine? ==>
            var s' := AfterSubmit(s, ctx, call, taken).value;
            && s'.sys.heap.refs == s.sys.heap.refs && s'.sys.reg.free == s.sys.reg.free
            && SameTable(s.sys.reg, s'.sys.reg) && s'.inFlight == s.inFlight && s'.cq == s.cq
            && s'.sys.heap.released == s.sys.heap.released + IfPrivate(s.sys.heap, ctx, call)
  {
    if !CallCrashes(s, ctx, call) {
      PrepareIsPrepared(s.sys.heap, ctx, call);
      SubmitRegisters(s, ctx, call, taken);
      var (h, req) := Prepare(s.sys.heap, ctx, call);
      DeclineShape(s, h, req, call, SourceOf(s.sys.heap, ctx, call).Private?, taken);
    }
  }

  // --------------------------------------------- why one completion per request is needed

  lemma ReapPushes(s: System, i: nat, f: nat, res: int)
    requires s.reg.Wf() && i < |s.reg.slots| && ReapSlot(s, i, f, res).Fine?
    ensures s.reg.free.top + 1 < |s.reg.free.cells| && ReapSlot(s, i, f, res).value.reg.free == s.reg.free.Push(i)
  {
  }

  /** The index just freed is the next one handed out. */
  lemma RegisterReusesTop(r: Registry, h: Heap, f: nat, req: Request, own: multiset<Obj>)
    requires r.Wf() && r.free.top >= 0
    ensures var sub := Register(r, h, f, req, own, true);
            sub.Fine? && sub.value.answer == Accepted(r.free.cells[r.free.top])
  {
  }

  lemma ReapFreesIndexOnTop(s: State)
    requires Inv(s) && s.cq != [] && s.Ours(s.cq[0]) && AfterReap(s).Fine?
    ensures var l := AfterReap(s).value.sys.reg.free; 0 <= l.top < |l.cells| && l.cells[l.top] == s.cq[0].userData
  {
    HeadIsLinked(s);
    var i: nat := s.cq[0].userData;
    ReapPushes(s.sys, i, s.Owner(i), s.cq[0].res);
  }

  /** Request f has just been accepted under index i. */
  ghost predicate Newcomer(s: State, f: nat, i: int) {
    && Inv(s) && f < |s.log| && f in s.inFlight && s.log[f].index == i
    && s.sys.heap.futures[f].Pending?
  }

  lemma NextCallTakesTop(s: State, ctx: Context, call: Call)
    requires Inv(s) && CanSubmit(s, ctx, call) && s.sys.reg.free.top >= 0 && AfterSubmit(s, ctx, call, true).Fine?
    ensures Newcomer(AfterSubmit(s, ctx, call, true).value, |s.log|, s.sys.reg.free.cells[s.sys.reg.free.top])
  {
    SubmitKeeps(s, ctx, call, true);
    SubmitRegisters(s, ctx, call, true);
    var (h, req) := Prepare(s.sys.heap, ctx, call);
    var own := Own(call, s.sys.heap, |s.log|);
    RegisterReusesTop(s.sys.reg, h, |s.log|, req, own);
    RegisterKeepsFutures(s.sys.reg, h, |s.log|, req, own, true);
    var sub := Register(s.sys.reg, h, |s.log|, req, own, true).value;
    SubmissionEchoes(s.sys.reg, h, |s.log|, req, own, true);
    AnswerIsNewcomer(s, sub, call, SourceOf(s.sys.heap, ctx, call).Private?);
  }

  lemma AnswerIsNewcomer(s: State, sub: Submission, call: Call, private: bool)
    requires sub.answer.Accepted? && sub.future == |s.log| == |s.sys.heap.futures|
    requires sub.sys.heap.futures == s.sys.heap.futures + [Pending] && Inv(AfterAnswer(s, sub, call, private))
    ensures Newcomer(AfterAnswer(s, sub, call, private), |s.log|, sub.answer.index)
  {
  }

  /** A completion for index i, whoever it was meant for, settles future f or crashes the
      reader. */
  ghost predicate Strikes(s: System, i: nat, res: int, f: nat) {
    s.reg.Wf() &&
    match ReapOne(s, Cqe(i, res))
    case Fine(s') => f < |s'.heap.futures| && !s'.heap.futures[f].Unsettled()
    case Crashed(_) => true
  }

  /** A request that posts a second completion (a zero-copy send does) breaks delivery: the
      reader frees the slot on the first, the very next call, whichever it is, reuses the index,
      and the second completion then strikes that call's future although the kernel still has
      its request. */
  lemma SecondCompletionStrikesStranger(s: State, s1: State, ctx: Context, call: Call, s2: State, again: int)
    requires Inv(s) && s.cq != [] && s.Ours(s.cq[0]) && AfterReap(s) == Fine(s1) && s1.sys.reg.Wf()
    requires CanSubmit(s1, ctx, call) && AfterSubmit(s1, ctx, call, true) == Fine(s2)
    ensures |s1.log| in s2.inFlight && Strikes(s2.sys, s.cq[0].userData, again, |s1.log|)
  {
    assert Inv(s1) && 0 <= s1.sys.reg.free.top && s1.sys.reg.free.cells[s1.sys.reg.free.top] == s.cq[0].userData by {
      ReapKeeps(s);
      ReapFreesIndexOnTop(s);
    }
    NextCallTakesTop(s1, ctx, call);
    CompletionStrikes(s2, s.cq[0].userData, again);
  }

  /** The same happens when a refused entry stays in the ring (io_uring_submit failed after the
      entry was prepared): the slot was given back, so the entry's late completion strikes the
      next call's future. Refusal has to come before there is an entry. */
  lemma QueuedEntryStrikesStranger(s: State, s1: State, ctx: Context, refused: Call, call: Call, s2: State, late: int)
    requires Inv(s) && CanSubmit(s, ctx, refused) && s.sys.reg.free.top >= 0
    requires AfterSubmit(s, ctx, refused, false) == Fine(s1) && s1.sys.reg.Wf()
    requires CanSubmit(s1, ctx, call) && AfterSubmit(s1, ctx, call, true) == Fine(s2)
    ensures |s1.log| in s2.inFlight
    ensures Strikes(s2.sys, s.sys.reg.free.cells[s.sys.reg.free.top], late, |s1.log|)
  {
    assert Inv(s1) && s1.sys.reg.free == s.sys.reg.free by {
      SubmitKeeps(s, ctx, refused, false);
      DeclinedLeavesNoTrace(s, ctx, refused, false);
    }
    NextCallTakesTop(s1, ctx, call);
    CompletionStrikes(s2, s.sys.reg.free.cells[s.sys.reg.free.top], late);
  }

  /** Whatever sends it (an entry prepared without user data carries 0, or an index of old), a
      completion that names an occupied slot strikes the request in it: a pending future is
      settled, or the reader crashes. */
  lemma CompletionStrikes(s: State, i: nat, res: int)
    requires Inv(s) && s.Occupied(i)
    ensures s.Owner(i) < |s.sys.heap.futures|
    ensures s.sys.heap.futures[s.Owner(i)].Pending? ==> Strikes(s.sys, i, res, s.Owner(i))
  {
    assert SlotLinked(s, i);
    DecodeIndex(i);
    if s.sys.heap.futures[s.Owner(i)].Pending? && ReapOne(s.sys, Cqe(i, res)).Fine? {
      ReapTells(s.sys, s.log[s.Owner(i)].req, i, s.Owner(i), res);
    }
  }

  /** A reap that does not crash settles the pending future it finds, whatever it reports. */
  lemma ReapTells(s: System, req: Request, i: nat, f: nat, res: int)
    requires s.reg.Wf() && i < |s.reg.slots| && s.reg.slots[i] == SlotOf(f, req, i) && WellFormed(s.heap, req)
    requires f < |s.heap.futures| && s.heap.futures[f].Pending? && ReapSlot(s, i, f, res).Fine?
    ensures var h := ReapSlot(s, i, f, res).value.heap; f < |h.futures| && !h.futures[f].Unsettled()
  {
    if !Failed(req.op, res) {
      DispatchDelivers(s.heap, req, i, f, res);
      DispatchKeepsFutures(s.heap, s.reg.slots[i], res);
    }
    RemoveKeepsFutures(Tell(s, i, f, res).value, i);
  }

  lemma DispatchDelivers(h: Heap, req: Request, i: nat, f: nat, res: int)
    requires WellFormed(h, req) && Dispatch(h, SlotOf(f, req, i), res).Fine?
    ensures Dispatch(h, SlotOf(f, req, i), res).value.delivery.Some?
  {
  }

  // ------------------------------------------------ the requests the reader cannot digest

  lemma AcceptedIsIndigestible(s: State, h: Heap, req: Request, call: Call, private: bool)
    requires Inv(s) && Prepared(s.sys.heap, h, req, call, private) && s.sys.reg.free.top >= 0 && Indigestible(h, req)
    ensures var sub := Register(s.sys.reg, h, |s.log|, req, Own(call, s.sys.heap, |s.log|), true);
            && sub.Fine? && sub.value.answer.Accepted? && sub.value.future == |s.log| && sub.value.req == req
            && Indigestible(sub.value.sys.heap, req)
  {
    RegisterAccepts(s.sys.reg, h, |s.log|, req, Own(call, s.sys.heap, |s.log|));
  }

  /** A state in which request f is in flight, nothing is queued, and f is indigestible. */
  ghost predicate Doomed(s: State, f: nat) {
    && Inv(s) && s.cq == [] && f < |s.log| && f in s.inFlight
    && Reading(s.log[f].req.op) && Indigestible(s.sys.heap, s.log[f].req)
  }

  lemma DoomedCrashes(s: State, f: nat) returns (memory: seq<Byte>)
    requires Doomed(s, f)
    ensures CanComplete(s, f, 0, [], memory) && AfterComplete(s, f, 0, [], memory).sys.reg.Wf()
    ensures AfterReap(AfterComplete(s, f, 0, [], memory)) == Crashed(BadAccess)
  {
    memory := DoomedCompletes(s, f);
    ReapKeeps(AfterComplete(s, f, 0, [], memory));
  }

  /** An empty success is possible, and it puts an indigestible request at the head. */
  lemma DoomedCompletes(s: State, f: nat) returns (memory: seq<Byte>)
    requires Doomed(s, f)
    ensures CanComplete(s, f, 0, [], memory)
    ensures var s' := AfterComplete(s, f, 0, [], memory); Inv(s') && s'.cq != [] && HeadIsIndigestible(s')
  {
    assert SlotLinked(s, s.log[f].index);
    var p := s.log[f].req.payload.value;
    var b := s.sys.heap.payloads[p];
    memory := if b.linear.Buffer? then b.linear.bytes else [];
    CompleteKeeps(s, f, 0, [], memory);
    DepositKeepsForm(b, [], memory);
    DecodeIndex(s.log[f].index);
  }

  /** From any quiet-queue state with a free slot: let a public call build such a request and
      the kernel complete it successfully, and the reader crashes. */
  lemma IndigestibleCallCrashes(s: State, ctx: Context, call: Call) returns (memory: seq<Byte>)
    requires Inv(s) && s.cq == [] && CanSubmit(s, ctx, call) && s.sys.reg.free.top >= 0
    requires Indigestible(Prepare(s.sys.heap, ctx, call).0, Prepare(s.sys.heap, ctx, call).1)
    ensures AfterSubmit(s, ctx, call, true).Fine?
    ensures var s1 := AfterSubmit(s, ctx, call, true).value;
            && CanComplete(s1, |s.log|, 0, [], memory) && AfterComplete(s1, |s.log|, 0, [], memory).sys.reg.Wf()
            && AfterReap(AfterComplete(s1, |s.log|, 0, [], memory)) == Crashed(BadAccess)
  {
    CallIsDoomed(s, ctx, call);
    memory := DoomedCrashes(AfterSubmit(s, ctx, call, true).value, |s.log|);
  }

  lemma CallIsDoomed(s: State, ctx: Context, call: Call)
    requires Inv(s) && s.cq == [] && CanSubmit(s, ctx, call) && s.sys.reg.free.top >= 0
    requires Indigestible(Prepare(s.sys.heap, ctx, call).0, Prepare(s.sys.heap, ctx, call).1)
    ensures AfterSubmit(s, ctx, call, true).Fine? && Doomed(AfterSubmit(s, ctx, call, true).value, |s.log|)
  {
    IndigestibleIsNoSend(s.sys.heap, ctx, call);
    PrepareIsPrepared(s.sys.heap, ctx, call);
    SubmitKeeps(s, ctx, call, true);
    SubmitRegisters(s, ctx, call, true);
    var (h, req) := Prepare(s.sys.heap, ctx, call);
    var private := SourceOf(s.sys.heap, ctx, call).Private?;
    AcceptedIsIndigestible(s, h, req, call, private);
    var sub := Register(s.sys.reg, h, |s.log|, req, Own(call, s.sys.heap, |s.log|), true).value;
    AnswerIsDoomed(s, sub, call, private);
  }

  lemma AnswerIsDoomed(s: State, sub: Submission, call: Call, private: bool)
    requires s.cq == [] && sub.answer.Accepted? && sub.future == |s.log| && Indigestible(sub.sys.heap, sub.req)
    requires Inv(AfterAnswer(s, sub, call, private))
    ensures Doomed(AfterAnswer(s, sub, call, private), |s.log|)
  {
  }

  lemma IndigestibleIsNoSend(h: Heap, ctx: Context, call: Call)
    requires Indigestible(Prepare(h, ctx, call).0, Prepare(h, ctx, call).1)
    ensures Dispatchable(h, ctx, call)
  {
  }

  // ------------------------------------------------------------------------- robustness

  /** Anything that can reach the registry: a public call, or a completion of any kind. */
  datatype Event = Called(ctx: Context, call: Call, taken: bool) | Completed(c: Cqe)

  lemma RegisterKeepsStructure(r: Registry, h: Heap, f: nat, req: Request, own: multiset<Obj>, taken: bool)
    requires r.Structured()
    ensures var sub := Register(r, h, f, req, own, taken);
            sub.Fine? && sub.value.sys.reg.Structured() && |sub.value.sys.reg.slots| == |r.slots|
  {
    if r.free.top >= 0 {
      AddKeepsStructure(System(r, h), f, req);
      RollBack(r, h, f, req, DecrefAll(TakeIndex(Add(System(r, h), f, req).0.heap, req), own));
    }
  }

  function Handle(s: System, e: Event): Outcome<System>
    requires s.reg.Structured()
  {
    match e
    case Called(ctx, call, taken) =>
      var sub :- Requests.Submit(s, ctx, call, taken);
      Fine(sub.sys)
    case Completed(c) => ReapOne(s, c)
  }

  lemma HandleKeepsStructure(s: System, e: Event)
    requires s.reg.Structured()
    ensures Handle(s, e) != Crashed(Abort)
    ensures Handle(s, e).Fine? ==>
              Handle(s, e).value.reg.Structured() && |Handle(s, e).value.reg.slots| == |s.reg.slots|
  {
    match e
    case Called(ctx, call, taken) =>
      var (h, req) := Prepare(s.heap, ctx, call);
      var f := |s.heap.futures|;
      RegisterKeepsStructure(s.reg, h, f, req, Own(call, s.heap, f), taken);
    case Completed(c) =>
      ReapKeepsStructure(s, c);
  }

  function HandleAll(s: System, events: seq<Event>): Outcome<System>
    requires s.reg.Structured()
    decreases |events|
  {
    if events == [] then Fine(s) else
      var s1 :- Handle(s, events[0]);
      HandleKeepsStructure(s, events[0]);
      HandleAll(s1, events[1..])
  }

  /** Calls interleaved with any completions whatever, duplicated, stale, out of range, tagged:
      abort() is never reached, the free prefix stays duplicate-free, an index is free exactly
      when its slot has no future, and free plus live is the size. */
  lemma {:induction false} AnyTrafficIsHarmless(s: System, events: seq<Event>)
    requires s.reg.Structured()
    ensures HandleAll(s, events) != Crashed(Abort)
    ensures HandleAll(s, events).Fine? ==>
              var r := HandleAll(s, events).value.reg;
              r.Structured() && |r.slots| == |s.reg.slots| && |r.free.Live()| + r.free.top + 1 == |s.reg.slots|
    decreases |events|
  {
    if events == [] {
      FreePlusLive(s.reg.free);
    } else {
      HandleKeepsStructure(s, events[0]);
      if Handle(s, events[0]).Fine? {
        AnyTrafficIsHarmless(Handle(s, events[0]).value, events[1..]);
      }
    }
  }
}
