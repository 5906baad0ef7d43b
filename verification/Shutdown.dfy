/** Closing the loop: the drain, which runs while the kernel still answers, and the
    destruction of the registry. */
module Shutdown {
  import opened Core
  import opened FreeLists
  import opened Runtime
  import opened Reader
  import opened Requests
  import opened Protocol
  import opened Invariant
  import opened Guarantees
  import opened History

  // ------------------------------------------------------------------------------ drain

  /** The drain loop over the completions that arrive before it times out. */
  function DrainAll(s: System, cq: seq<Cqe>): Outcome<System>
    requires s.reg.Wf()
    decreases |cq|
  {
    if cq == [] then Fine(s) else
      var s1 :- DrainOne(s, cq[0]);
      DrainKeepsWf(s, cq[0]);
      DrainAll(s1, cq[1..])
  }

  /** Draining in two goes is draining in one. */
  lemma {:induction false} DrainAllOn(s: System, a: seq<Cqe>, b: seq<Cqe>)
    requires s.reg.Wf()
    ensures DrainAll(s, a).Fine? ==> DrainAll(s, a).value.reg.Wf()
    ensures DrainAll(s, a + b) ==
            if DrainAll(s, a).Fine? then DrainAll(DrainAll(s, a).value, b) else DrainAll(s, a)
    decreases |a|
  {
    if a == [] {
      assert a + b == b;
    } else {
      assert (a + b)[0] == a[0] && (a + b)[1..] == a[1..] + b;
      if DrainOne(s, a[0]).Fine? {
        DrainKeepsWf(s, a[0]);
        DrainAllOn(DrainOne(s, a[0]).value, a[1..], b);
      }
    }
  }

  /** One trip further: the head of the queue joins what the drain has met, or stops it. */
  lemma {:induction false} DrainAllNext(start: System, met: seq<Cqe>, s: System, cq: seq<Cqe>)
    requires start.reg.Wf() && s.reg.Wf() && DrainAll(start, met) == Fine(s) && cq != []
    ensures match DrainOne(s, cq[0])
            case Fine(s') => DrainAll(start, met + [cq[0]]) == Fine(s') && met + [cq[0]] + cq[1..] == met + cq
            case Crashed(_) => DrainAll(start, met + cq).Crashed?
  {
    if DrainOne(s, cq[0]).Fine? {
      DrainGoesOn(start, met, s, cq[0]);
      HeadMoves(met, cq);
    } else {
      DrainStops(start, met, s, cq);
    }
  }

  lemma {:induction false} HeadMoves(met: seq<Cqe>, cq: seq<Cqe>)
    requires cq != []
    ensures met + [cq[0]] + cq[1..] == met + cq
  {
  }

  lemma {:induction false} DrainGoesOn(start: System, met: seq<Cqe>, s: System, c: Cqe)
    requires start.reg.Wf() && s.reg.Wf() && DrainAll(start, met) == Fine(s) && DrainOne(s, c).Fine?
    ensures DrainAll(start, met + [c]) == DrainOne(s, c)
  {
    DrainAllOn(start, met, [c]);
    DrainSingle(s, c);
  }

  lemma {:induction false} DrainStops(start: System, met: seq<Cqe>, s: System, cq: seq<Cqe>)
    requires start.reg.Wf() && s.reg.Wf() && DrainAll(start, met) == Fine(s) && cq != []
    requires DrainOne(s, cq[0]).Crashed?
    ensures DrainAll(start, met + cq).Crashed?
  {
    DrainAllOn(start, met, cq);
    assert DrainAll(s, cq).Crashed?;
  }

  lemma {:induction false} DrainSingle(s: System, c: Cqe)
    requires s.reg.Wf()
    ensures DrainAll(s, [c]) == DrainOne(s, c)
  {
    if DrainOne(s, c).Fine? {
      DrainKeepsWf(s, c);
      assert DrainAll(DrainOne(s, c).value, [c][1..]) == DrainOne(s, c);
    }
  }

  lemma {:induction false} DrainKeepsWf(s: System, c: Cqe)
    requires s.reg.Wf() && DrainOne(s, c).Fine?
    ensures DrainOne(s, c).value.reg.Wf()
  {
  }

  /** What the missing guard costs outside the protocol: for a completion that names a free slot
      the drain aborts if and only if every slot is free, and otherwise wrecks the free list. */
  lemma {:induction false} DrainWithoutFuture(s: System, c: Cqe)
    requires s.reg.Structured() && c.userData != WAKEUP_TAG && 0 <= Decode(c.userData) < |s.reg.slots|
    requires s.reg.slots[Decode(c.userData)].future.None?
    ensures DrainOne(s, c) == Crashed(Abort) <==> s.reg.free.top + 1 == |s.reg.slots|
    ensures s.reg.free.top + 1 < |s.reg.slots| ==> DrainOne(s, c).Fine? && !DrainOne(s, c).value.reg.Structured()
  {
    if s.reg.free.top + 1 < |s.reg.slots| {
      PushValidIffLive(s.reg.free, Decode(c.userData));
    }
  }

  /** The drain phase: the kernel answers, stray completions arrive, the drain consumes. */
  predicate DrainPhase(step: Step) { step.Drain? || step.Complete? || step.Stray? }

  ghost predicate Draining(steps: seq<Step>) { forall k | 0 <= k < |steps| :: DrainPhase(steps[k]) }

  function Strays(steps: seq<Step>): nat {
    if steps == [] then 0 else (if steps[0].Stray? then 1 else 0) + Strays(steps[1..])
  }

  ghost function Measure(s: State): nat { 2 * |s.inFlight| + |s.cq| }

  lemma {:induction false} CompleteMeasure(s: State, f: nat, res: int, data: seq<Byte>, memory: seq<Byte>)
    requires CanComplete(s, f, res, data, memory)
    ensures Measure(AfterComplete(s, f, res, data, memory)) == Measure(s) - 1
  {
    assert |s.inFlight - {f}| == |s.inFlight| - 1;
  }

  lemma {:induction false} DrainMeasure(s: State)
    requires s.sys.reg.Wf() && s.cq != [] && AfterDrain(s).Fine?
    ensures Measure(AfterDrain(s).value) == Measure(s) - 1
  {
  }

  lemma {:induction false} StepMeasure(s: State, step: Step)
    requires Inv(s) && Enabled(s, step) && DrainPhase(step)
    ensures Next(s, step).Fine? && Inv(Next(s, step).value)
    ensures Measure(Next(s, step).value) == Measure(s) + (if step.Stray? then 1 else -1)
  {
    match step
    case Complete(f, res, data, memory) =>
      CompleteKeeps(s, f, res, data, memory);
      CompleteMeasure(s, f, res, data, memory);
    case Drain =>
      DrainKeeps(s);
      DrainMeasure(s);
    case Stray(c) =>
      StrayKeeps(s, c);
  }

  /** The drain terminates: each answer and each trip round the loop lowers the measure by one,
      so a phase with k stray completions has at most Measure(s) + 2 * k steps. */
  lemma {:induction false} DrainTerminates(s: State, steps: seq<Step>, s': State)
    requires Inv(s) && Leads(s, steps, s') && Draining(steps)
    ensures Inv(s') && |steps| + Measure(s') == Measure(s) + 2 * Strays(steps)
    decreases |steps|
  {
    if steps != [] {
      StepMeasure(s, steps[0]);
      DrainTerminates(Next(s, steps[0]).value, steps[1..], s');
    }
  }

  /** The request in slot i is still there, or its future has been failed (a cancelled one
      stays cancelled). */
  ghost predicate StillThereOrFailed(s: State, s': State, i: int) {
    s.Occupied(i) && s.Owner(i) < |s.sys.heap.futures| && s.Owner(i) < |s'.sys.heap.futures| ==>
      || (&& s'.Occupied(i) && s'.Owner(i) == s.Owner(i)
          && s'.sys.heap.futures[s.Owner(i)] == s.sys.heap.futures[s.Owner(i)])
      || (!s'.Occupied(i) && s'.sys.heap.futures[s.Owner(i)] ==
            if s.sys.heap.futures[s.Owner(i)].Pending? then Raised(LoopClosed) else s.sys.heap.futures[s.Owner(i)])
  }

  lemma {:induction false} FailedWithSpares(s: State, s': State, j: nat, i: int)
    requires Shaped(s) && Linked(s) && s.Occupied(j) && s.Owner(j) < |s.log| && s.cq != []
    requires FailedWith(s, s', j, LoopClosed)
    ensures |s'.sys.heap.futures| == |s.sys.heap.futures|
    ensures StillThereOrFailed(s, s', i) && (!s.Occupied(i) ==> !s'.Occupied(i))
  {
    assert SlotLinked(s, j);
    assert s.Occupied(i) ==> SlotLinked(s, i);
  }

  lemma {:induction false} DrainStepFails(s: State, step: Step, i: int)
    requires Inv(s) && Enabled(s, step) && DrainPhase(step) && Next(s, step).Fine?
    ensures var s' := Next(s, step).value;
            && |s'.sys.heap.futures| == |s.sys.heap.futures|
            && StillThereOrFailed(s, s', i) && (!s.Occupied(i) ==> !s'.Occupied(i))
  {
    if step.Drain? {
      if s.Ours(s.cq[0]) {
        HeadIsLinked(s);
        DrainFailsHead(s, s.cq[0].userData);
        FailedWithSpares(s, AfterDrain(s).value, s.cq[0].userData, i);
      } else {
        SkipKeeps(s);
      }
    }
  }

  /** Over a whole drain phase every request outstanding at its start is either still
      outstanding at its end, untouched, or its pending future has been failed. */
  lemma {:induction false} DrainFails(s: State, steps: seq<Step>, s': State, i: int)
    requires Inv(s) && Leads(s, steps, s') && Draining(steps)
    ensures |s'.sys.heap.futures| == |s.sys.heap.futures|
    ensures StillThereOrFailed(s, s', i) && (!s.Occupied(i) ==> !s'.Occupied(i))
    decreases |steps|
  {
    if steps != [] {
      StepMeasure(s, steps[0]);
      DrainStepFails(s, steps[0], i);
      var s1 := Next(s, steps[0]).value;
      DrainFails(s1, steps[1..], s', i);
      SettledAtMostOnce(s1, steps[1..], s');
      assert s.Occupied(i) ==> SlotLinked(s, i);
      FailedStays(s, s1, s', i);
    }
  }

  lemma {:induction false} FailedStays(s: State, s1: State, s': State, i: int)
    requires |s1.sys.heap.futures| == |s.sys.heap.futures| && Final(s1.sys.heap, s'.sys.heap)
    requires StillThereOrFailed(s, s1, i) && (!s1.Occupied(i) ==> !s'.Occupied(i))
    requires StillThereOrFailed(s1, s', i)
    ensures StillThereOrFailed(s, s', i)
  {
  }

  /** A drain that runs until nothing is outstanding has failed every pending future of a
      request that was outstanding when it began, and every index is free again. */
  lemma {:induction false} FullDrainFailsEverything(s: State, steps: seq<Step>, s': State, i: int)
    requires Inv(s) && Leads(s, steps, s') && Draining(steps)
    requires s'.inFlight == {} && s'.cq == [] && s.Occupied(i)
    ensures s.Owner(i) < |s.sys.heap.futures| == |s'.sys.heap.futures|
    ensures s'.sys.heap.futures[s.Owner(i)] ==
            if s.sys.heap.futures[s.Owner(i)].Pending? then Raised(LoopClosed) else Cancelled
    ensures s'.sys.reg.free.top + 1 == |s'.sys.reg.slots|
  {
    assert SlotLinked(s, i);
    DrainTerminates(s, steps, s');
    DrainFails(s, steps, s', i);
    QuiescentHoldsNothing(s', PyNone, 0);
    assert s'.Occupied(i) ==> SlotLinked(s', i);
  }

  /** Such a drain is possible from every protocol state: Measure(s) steps are enough. */
  lemma {:induction false} DrainCanFinish(s: State) returns (steps: seq<Step>, s': State)
    requires Inv(s)
    ensures Leads(s, steps, s') && Draining(steps)
    ensures |steps| == Measure(s) && s'.inFlight == {} && s'.cq == []
    decreases Measure(s)
  {
    if s.inFlight == {} && s.cq == [] {
      steps, s' := [], s;
    } else {
      var step, s1 := FinishingStep(s);
      var rest;
      rest, s' := DrainCanFinish(s1);
      LeadsFrom(s, step, s1, rest, s');
      steps := [step] + rest;
    }
  }

  lemma {:induction false} LeadsFrom(s: State, step: Step, s1: State, rest: seq<Step>, s': State)
    requires s.sys.reg.Wf() && Enabled(s, step) && Next(s, step) == Fine(s1) && Leads(s1, rest, s')
    requires DrainPhase(step) && Draining(rest)
    ensures Leads(s, [step] + rest, s') && Draining([step] + rest)
  {
    assert ([step] + rest)[1..] == rest;
  }

  lemma {:induction false} FinishingStep(s: State) returns (step: Step, s1: State)
    requires Inv(s) && (s.inFlight != {} || s.cq != [])
    ensures s.sys.reg.Wf() && Enabled(s, step) && DrainPhase(step) && Next(s, step) == Fine(s1)
    ensures Inv(s1) && Measure(s1) == Measure(s) - 1
  {
    if s.cq != [] {
      step := Step.Drain;
    } else {
      var f :| f in s.inFlight;
      step := Complete(f, -1, [], []);
    }
    StepMeasure(s, step);
    s1 := Next(s, step).value;
  }

  // ---------------------------------------------------------------------------- destroy

  /** registry_destroy on one slot: the payload goes whatever its mode. */
  function DestroySlot(h: Heap, slot: Slot): Heap {
    var h1 := if slot.payload.Some? then FreePayload(h, slot.payload.value, true) else h;
    DecrefAll(h1, Names(slot))
  }

  /** The destroy loop after n slots. */
  function DestroyPrefix(h: Heap, slots: seq<Slot>, n: nat): Heap
    requires n <= |slots|
  {
    if n == 0 then h else DestroySlot(DestroyPrefix(h, slots, n - 1), slots[n - 1])
  }

  function Destroy(s: System): Heap { DestroyPrefix(s.heap, s.reg.slots, |s.reg.slots|) }

  lemma {:induction false} DestroySlotDrops(h: Heap, slot: Slot, o: Obj, p: nat)
    requires h.refs[o] >= Names(slot)[o]
    ensures var h' := DestroySlot(h, slot);
            && h'.refs[o] == h.refs[o] - Names(slot)[o]
            && h'.released[p] == h.released[p] + (if slot.payload == Some(p) then 1 else 0)
            && h'.futures == h.futures && h'.payloads == h.payloads
  {
  }

  lemma {:induction false} LastShare(slots: seq<Slot>, n: nat, o: Obj, p: nat)
    requires 0 < n <= |slots|
    ensures Held(slots[..n], o) == Held(slots[..n - 1], o) + Names(slots[n - 1])[o]
    ensures Carried(slots[..n], p) ==
            Carried(slots[..n - 1], p) + (if slots[n - 1].payload == Some(p) then 1 else 0)
  {
    assert slots[..n][..n - 1] == slots[..n - 1];
  }

  lemma {:induction false} DestroyDropsShare(h: Heap, slots: seq<Slot>, n: nat, o: Obj, p: nat)
    requires n <= |slots| && h.refs[o] >= Held(slots[..n], o)
    ensures var h' := DestroyPrefix(h, slots, n);
            && h'.refs[o] == h.refs[o] - Held(slots[..n], o)
            && h'.released[p] == h.released[p] + Carried(slots[..n], p)
            && h'.futures == h.futures && h'.payloads == h.payloads
  {
    if n > 0 {
      LastShare(slots, n, o, p);
      DestroyDropsShare(h, slots, n - 1, o, p);
      DestroySlotDrops(DestroyPrefix(h, slots, n - 1), slots[n - 1], o, p);
    } else {
      assert slots[..n] == [];
    }
  }

  /** After a drain of any length and the destruction that follows, the registry holds no
      reference any more, every private payload has been freed exactly once on whichever path,
      and a context's payload has been freed once per slot that still carried it. */
  lemma {:induction false} ShutdownReleasesEverything(s: State, steps: seq<Step>, s': State, o: Obj, p: nat)
    requires Inv(s) && Leads(s, steps, s') && Draining(steps)
    ensures var h := Destroy(s'.sys);
            && h.refs[o] == Results(s'.sys.heap.futures, o) + s'.external[o] + s'.left[o]
            && h.futures == s'.sys.heap.futures
            && (p < |s'.sys.heap.payloads| ==>
                  h.released[p] == if ContextOwned(s'.sys.heap.payloads[p]) then Carried(s'.sys.reg.slots, p) else 1)
  {
    DrainTerminates(s, steps, s');
    var slots := s'.sys.reg.slots;
    assert slots[..|slots|] == slots;
    DestroyDropsShare(s'.sys.heap, slots, |slots|, o, p);
  }

  lemma {:induction false} CarrierExists(slots: seq<Slot>, p: nat) returns (i: nat)
    requires Carried(slots, p) >= 1
    ensures i < |slots| && slots[i].payload == Some(p)
  {
    var n := |slots| - 1;
    if slots[n].payload == Some(p) {
      i := n;
    } else {
      i := CarrierExists(slots[..n], p);
    }
  }

  ghost predicate Shared(slots: seq<Slot>, p: nat) {
    exists i, j :: 0 <= i < j < |slots| && slots[i].payload == Some(p) && slots[j].payload == Some(p)
  }

  /** "Freed at most once" fails for a context's payload exactly when two requests that share
      it are still outstanding at the destruction: there the forced release runs twice. */
  lemma {:induction false} DestroyFreesTwiceIffShared(s: State, p: nat)
    requires Inv(s) && p < |s.sys.heap.payloads|
    ensures Destroy(s.sys).released[p] >= 2 <==> ContextOwned(s.sys.heap.payloads[p]) && Shared(s.sys.reg.slots, p)
  {
    var slots := s.sys.reg.slots;
    ShutdownReleasesEverything(s, [], s, PyNone, p);
    if Shared(slots, p) {
      var i, j :| 0 <= i < j < |slots| && slots[i].payload == Some(p) && slots[j].payload == Some(p);
      CarriedTwice(slots, i, j, p);
    }
    if Carried(slots, p) >= 2 {
      var i := CarrierExists(slots, p);
      CarriedUpdate(slots, i, EMPTY_SLOT, p);
      var j := CarrierExists(slots[i := EMPTY_SLOT], p);
      assert slots[j].payload == Some(p) && i != j;
    }
  }

  /** From a protocol state the drain loop never aborts, whatever has completed: it ends in a
      protocol state with an empty queue. */
  lemma {:induction false} DrainAllKeeps(s: State) returns (s': State)
    requires Inv(s)
    ensures Inv(s') && s'.cq == [] && DrainAll(s.sys, s.cq) == Fine(s'.sys)
    ensures s'.inFlight == s.inFlight && s'.external == s.external && s'.left == s.left
    decreases |s.cq|
  {
    if s.cq == [] {
      s' := s;
    } else {
      DrainKeeps(s);
      s' := DrainAllKeeps(AfterDrain(s).value);
    }
  }

  /** graceful_shutdown as it runs, the drain loop and then the destruction: from a protocol
      state it never aborts, and afterwards the only references left are those of the results
      and of the callers, and each private payload has been freed exactly once. */
  lemma {:induction false} GracefulShutdownReleases(s: State, o: Obj, p: nat) returns (drained: State)
    requires Inv(s)
    ensures DrainAll(s.sys, s.cq) == Fine(drained.sys) && drained.external == s.external && drained.left == s.left
    ensures var h := Destroy(drained.sys);
            && h.refs[o] == Results(h.futures, o) + s.external[o] + s.left[o]
            && (p < |drained.sys.heap.payloads| && !ContextOwned(drained.sys.heap.payloads[p]) ==> h.released[p] == 1)
  {
    drained := DrainAllKeeps(s);
    ShutdownReleasesEverything(drained, [], drained, o, p);
  }

  /** Over every run, drain included: after the destruction every reference is a result's or a
      caller's, except one on each open or socket call's object whose success the reader never
      met, because the call failed, was drained, or was still outstanding. */
  lemma {:induction false} OnlyCreationsAreLost(n: nat, steps: seq<Step>, s: State, o: Obj)
    requires 1 <= n <= MAX_SIZE && Leads(Init(n), steps, s)
    ensures Destroy(s.sys).refs[o] ==
            Results(s.sys.heap.futures, o) + s.external[o] + (if Lost(s, o) then 1 else 0)
  {
    ReachableRemembered(n, steps, s);
    LeftIsLost(s, o);
    ShutdownReleasesEverything(s, [], s, o, 0);
  }

  // --------------------------------------------------- completions that arrive meanwhile

  /** Completions the kernel may still post: answers to requests in flight, each once, and strays. */
  ghost predicate Arrivable(s: State, more: seq<Cqe>) {
    && (forall k | 0 <= k < |more| && s.Ours(more[k]) :: InFlightAt(s, more[k].userData))
    && (forall j, k | 0 <= j < k < |more| && s.Ours(more[j]) && s.Ours(more[k]) :: more[j].userData != more[k].userData)
  }

  ghost predicate InFlightAt(s: State, i: nat) { exists f :: f in s.inFlight && f < |s.log| && s.log[f].index == i }

  ghost predicate SameNames(a: seq<Cqe>, b: seq<Cqe>) {
    |a| == |b| && forall k | 0 <= k < |a| :: a[k].userData == b[k].userData
  }

  /** The drain does not look at results. */
  lemma {:induction false} DrainIgnoresResults(s: System, a: seq<Cqe>, b: seq<Cqe>)
    requires s.reg.Wf() && SameNames(a, b)
    ensures DrainAll(s, a) == DrainAll(s, b)
    decreases |a|
  {
    if a != [] && DrainOne(s, a[0]).Fine? {
      DrainKeepsWf(s, a[0]);
      assert DrainOne(s, a[0]) == DrainOne(s, b[0]);
      DrainIgnoresResults(DrainOne(s, a[0]).value, a[1..], b[1..]);
    }
  }

  /** For the drain it is as if everything that arrives had been queued from the start. */
  lemma {:induction false} ArrivalsQueue(s: State, more: seq<Cqe>) returns (s': State)
    requires Inv(s) && Arrivable(s, more)
    ensures Inv(s') && s'.sys == s.sys && s'.external == s.external && s'.left == s.left
    ensures SameNames(s'.cq, s.cq + more)
    decreases |more|
  {
    if more == [] {
      s' := s;
    } else {
      var s1 := OneArrives(s, more);
      s' := ArrivalsQueue(s1, more[1..]);
      NamesOn(s.cq, more, s1.cq, s'.cq);
    }
  }

  lemma {:induction false} NamesOn(cq: seq<Cqe>, more: seq<Cqe>, one: seq<Cqe>, all: seq<Cqe>)
    requires more != [] && SameNames(one, cq + [more[0]]) && SameNames(all, one + more[1..])
    ensures SameNames(all, cq + more)
  {
    assert cq + more == (cq + [more[0]]) + more[1..];
    forall k | 0 <= k < |all|
      ensures all[k].userData == (cq + more)[k].userData
    {
      assert all[k].userData == (one + more[1..])[k].userData;
    }
  }

  lemma {:induction false} OneArrives(s: State, more: seq<Cqe>) returns (s': State)
    requires Inv(s) && Arrivable(s, more) && more != []
    ensures Inv(s') && s'.sys == s.sys && s'.external == s.external && s'.left == s.left
    ensures SameNames(s'.cq, s.cq + [more[0]]) && Arrivable(s', more[1..])
  {
    if !s.Ours(more[0]) {
      s' := s.(cq := s.cq + [more[0]]);
      StrayKeeps(s, more[0]);
      OthersArrive(s, more, s');
    } else {
      assert InFlightAt(s, more[0].userData);
      var f :| f in s.inFlight && f < |s.log| && s.log[f].index == more[0].userData;
      s' := AfterComplete(s, f, -1, [], []);
      CompleteKeeps(s, f, -1, [], []);
      OthersArrive(s, more, s');
    }
  }

  lemma {:induction false} OthersArrive(s: State, more: seq<Cqe>, s': State)
    requires Arrivable(s, more) && more != [] && s'.sys.reg == s.sys.reg && s'.log == s.log
    requires forall f | f in s.inFlight && f !in s'.inFlight ::
               f < |s.log| && s.Ours(more[0]) && s.log[f].index == more[0].userData
    ensures Arrivable(s', more[1..])
  {
    forall k | 0 <= k < |more[1..]| && s'.Ours(more[1..][k])
      ensures InFlightAt(s', more[1..][k].userData)
    {
      assert more[1..][k] == more[k + 1] && s.Ours(more[k + 1]) && InFlightAt(s, more[k + 1].userData);
      var f :| f in s.inFlight && f < |s.log| && s.log[f].index == more[k + 1].userData;
      assert f in s'.inFlight;
    }
  }

  /** Whatever the kernel answers while the drain waits, each request in flight at most once and
      strays at will: the drain never aborts, and it releases what GracefulShutdownReleases says. */
  lemma {:induction false} ShutdownWithArrivals(s: State, more: seq<Cqe>, o: Obj, p: nat) returns (drained: State)
    requires Inv(s) && Arrivable(s, more)
    ensures DrainAll(s.sys, s.cq + more) == Fine(drained.sys)
    ensures drained.external == s.external && drained.left == s.left
    ensures var h := Destroy(drained.sys);
            && h.refs[o] == Results(h.futures, o) + s.external[o] + s.left[o]
            && (p < |drained.sys.heap.payloads| && !ContextOwned(drained.sys.heap.payloads[p]) ==> h.released[p] == 1)
  {
    var queued := ArrivalsQueue(s, more);
    DrainIgnoresResults(s.sys, queued.cq, s.cq + more);
    drained := GracefulShutdownReleases(queued, o, p);
  }

  lemma {:induction false} DrainAllIsFinal(s: System, cq: seq<Cqe>)
    requires s.reg.Wf() && DrainAll(s, cq).Fine?
    ensures Final(s.heap, DrainAll(s, cq).value.heap)
    decreases |cq|
  {
    if cq != [] {
      DrainKeepsWf(s, cq[0]);
      DrainIsFinal(s, cq[0]);
      DrainAllIsFinal(DrainOne(s, cq[0]).value, cq[1..]);
    }
  }

  /** What a drained future shows: the loop's end, if it was pending. */
  function Closed(st: Future): Future { if st.Pending? then Raised(LoopClosed) else st }

  /** Every request whose answer is queued has its pending future failed by the drain. */
  lemma {:induction false} QueuedIsFailed(s: State, i: nat)
    requires Inv(s) && s.Occupied(i) && InQueue(s.cq, i)
    ensures DrainAll(s.sys, s.cq).Fine? && s.Owner(i) < |s.sys.heap.futures|
    ensures var h := DrainAll(s.sys, s.cq).value.heap;
            s.Owner(i) < |h.futures| && h.futures[s.Owner(i)] == Closed(s.sys.heap.futures[s.Owner(i)])
    decreases |s.cq|
  {
    assert SlotLinked(s, i);
    DecodeIndex(i);
    DrainKeeps(s);
    var s1 := AfterDrain(s).value;
    var rest := DrainAllKeeps(s1);
    if s.cq[0].userData == i {
      DrainAllIsFinal(s1.sys, s1.cq);
    } else {
      OthersAreSpared(s, i);
      QueuedIsFailed(s1, i);
    }
  }

  lemma {:induction false} OthersAreSpared(s: State, i: nat)
    requires Inv(s) && s.cq != [] && s.Occupied(i) && s.cq[0].userData != i && InQueue(s.cq, i)
    ensures AfterDrain(s).Fine? && s.Owner(i) < |s.sys.heap.futures|
    ensures var s1 := AfterDrain(s).value;
            && s1.Occupied(i) && s1.Owner(i) == s.Owner(i) && InQueue(s1.cq, i)
            && s.Owner(i) < |s1.sys.heap.futures|
            && s1.sys.heap.futures[s.Owner(i)] == s.sys.heap.futures[s.Owner(i)]
  {
    var k :| 0 <= k < |s.cq| && s.cq[k].userData == i;
    assert s.cq[1..][k - 1].userData == i;
    assert SlotLinked(s, i);
    if s.Ours(s.cq[0]) {
      HeadIsLinked(s);
      DrainFailsHead(s, s.cq[0].userData);
    } else {
      SkipKeeps(s);
    }
  }

  /** So has every request whose answer arrives while the drain still waits. */
  lemma {:induction false} SeenIsFailed(s: State, more: seq<Cqe>, i: nat)
    requires Inv(s) && Arrivable(s, more) && s.Occupied(i) && InQueue(s.cq + more, i)
    ensures DrainAll(s.sys, s.cq + more).Fine? && s.Owner(i) < |s.sys.heap.futures|
    ensures var h := DrainAll(s.sys, s.cq + more).value.heap;
            s.Owner(i) < |h.futures| && h.futures[s.Owner(i)] == Closed(s.sys.heap.futures[s.Owner(i)])
  {
    var queued := ArrivalsQueue(s, more);
    DrainIgnoresResults(s.sys, queued.cq, s.cq + more);
    var k :| 0 <= k < |s.cq + more| && (s.cq + more)[k].userData == i;
    assert queued.cq[k].userData == i;
    QueuedIsFailed(queued, i);
  }

  lemma {:induction false} DestroyKeepsFutures(s: System)
    ensures Destroy(s).futures == s.heap.futures
  {
    PrefixKeepsFutures(s.heap, s.reg.slots, |s.reg.slots|);
  }

  lemma {:induction false} PrefixKeepsFutures(h: Heap, slots: seq<Slot>, n: nat)
    requires n <= |slots|
    ensures DestroyPrefix(h, slots, n).futures == h.futures
  {
    if n > 0 {
      PrefixKeepsFutures(h, slots, n - 1);
    }
  }
}
