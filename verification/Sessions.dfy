/** Whole sessions as runs of the protocol: a file or socket is created, its future delivers it,
    the caller takes it and uses it. They show that the runs the guarantees speak of are there. */
module Sessions {
  import opened Core
  import opened Runtime
  import opened Reader
  import opened Requests
  import opened Protocol
  import opened Invariant
  import opened Guarantees
  import opened Pool

  // ------------------------------------------------------------------------ joining runs

  lemma {:induction false} LeadsOn(s: State, before: seq<Step>, s1: State, after: seq<Step>, s': State)
    requires Leads(s, before, s1) && Leads(s1, after, s')
    ensures Leads(s, before + after, s')
    decreases |before|
  {
    Uncons(before, after);
    if before != [] {
      LeadsOn(Next(s, before[0]).value, before[1..], s1, after, s');
    }
  }

  lemma {:induction false} Uncons<T>(a: seq<T>, b: seq<T>)
    ensures if a == [] then a + b == b else (a + b)[0] == a[0] && (a + b)[1..] == a[1..] + b
  {
  }

  lemma {:induction false} LeadsOnce(s: State, step: Step, s': State)
    requires s.sys.reg.Wf() && Enabled(s, step) && Next(s, step) == Fine(s')
    ensures Leads(s, [step], s')
  {
    var none: seq<Step> := [];
    Uncons([step], none);
  }

  lemma {:induction false} LeadsTwice(s: State, a: Step, s1: State, b: Step, s': State)
    requires s.sys.reg.Wf() && Enabled(s, a) && Next(s, a) == Fine(s1)
    requires s1.sys.reg.Wf() && Enabled(s1, b) && Next(s1, b) == Fine(s')
    ensures Leads(s, [a] + [b], s')
  {
    LeadsOnce(s, a, s1);
    LeadsOnce(s1, b, s');
    LeadsOn(s, [a], s1, [b], s');
  }

  lemma {:induction false} LeadsThrice(s: State, a: Step, s1: State, b: Step, s2: State, c: Step, s': State)
    requires s.sys.reg.Wf() && Enabled(s, a) && Next(s, a) == Fine(s1)
    requires s1.sys.reg.Wf() && Enabled(s1, b) && Next(s1, b) == Fine(s2)
    requires s2.sys.reg.Wf() && Enabled(s2, c) && Next(s2, c) == Fine(s')
    ensures Leads(s, [a] + ([b] + [c]), s')
  {
    LeadsOnce(s, a, s1);
    LeadsTwice(s1, b, s2, c, s');
    LeadsOn(s, [a], s1, [b] + [c], s');
  }

  lemma {:induction false} PoolKeepsOn(h: Heap, h1: Heap, h': Heap)
    requires PoolKeeps(h, h1) && PoolKeeps(h1, h')
    ensures PoolKeeps(h, h')
  {
    forall p | 0 <= p < |h.payloads|
      ensures SameForm(h.payloads[p], h'.payloads[p])
    {
      assert SameForm(h.payloads[p], h1.payloads[p]) && SameForm(h1.payloads[p], h'.payloads[p]);
    }
  }

  // ----------------------------------------------------------------------- one round trip

  /** Nothing waits to be reaped, and there is room for a call. */
  ghost predicate Ready(s: State) { Inv(s) && s.cq == [] && s.sys.reg.free.top >= 0 }

  /** Request f has just been accepted; if it built its payload, that has the form it chose. */
  ghost predicate Pends(s: State, s': State, f: nat, call: Call, req: Request, src: Source) {
    && Inv(s') && s'.cq == [] && f in s'.inFlight && f < |s'.log| == |s'.sys.heap.futures|
    && s'.log[f].req == req && s'.log[f].call == call && s'.log[f].private == src.Private? && s'.log[f].index >= 0
    && s'.sys.heap.futures[f].Pending? && PoolKeeps(s.sys.heap, s'.sys.heap)
    && s'.external == s.external + multiset{Fut(f)} && s'.inFlight == s.inFlight + {f} && s.log <= s'.log
    && |s'.sys.reg.slots| == |s.sys.reg.slots| && s'.sys.reg.free.top == s.sys.reg.free.top - 1
    && (src.Private? ==>
          && req.payload == Some(|s.sys.heap.payloads|) && |s.sys.heap.payloads| < |s'.sys.heap.payloads|
          && SameForm(src.payload, s'.sys.heap.payloads[|s.sys.heap.payloads|]))
  }

  lemma {:induction false} CallPends(s: State, ctx: Context, call: Call) returns (s': State)
    requires Ready(s) && CanSubmit(s, ctx, call) && Dispatchable(s.sys.heap, ctx, call)
    ensures Leads(s, [Step.Submit(ctx, call, true)], s')
    ensures Pends(s, s', |s.log|, call, Prepare(s.sys.heap, ctx, call).1, SourceOf(s.sys.heap, ctx, call))
    ensures AfterSubmit(s, ctx, call, true) == Fine(s')
  {
    SubmitKeeps(s, ctx, call, true);
    var _ := SubmitOutcome(s, ctx, call, true);
    s' := AfterSubmit(s, ctx, call, true).value;
    ExtendsKeeps(s.sys.heap, s'.sys.heap);
    PrivateForm(s, ctx, call);
    SubmitPops(s, ctx, call);
    LeadsOnce(s, Step.Submit(ctx, call, true), s');
  }

  lemma {:induction false} SubmitPops(s: State, ctx: Context, call: Call)
    requires s.sys.reg.Wf() && s.sys.reg.free.top >= 0 && |s.log| == |s.sys.heap.futures|
    requires !CallCrashes(s, ctx, call) && AfterSubmit(s, ctx, call, true).Fine?
    ensures AfterSubmit(s, ctx, call, true).value.sys.reg.free.top == s.sys.reg.free.top - 1
  {
    SubmitRegisters(s, ctx, call, true);
    var (h, req) := Prepare(s.sys.heap, ctx, call);
    assert Register(s.sys.reg, h, |s.log|, req, Own(call, s.sys.heap, |s.log|), true).value.sys.reg.free
        == s.sys.reg.free.Pop();
  }

  lemma {:induction false} PrivateForm(s: State, ctx: Context, call: Call)
    requires Shaped(s) && s.sys.reg.free.top >= 0 && ContextOk(s.sys.heap, ctx)
    requires Dispatchable(s.sys.heap, ctx, call)
    ensures AfterSubmit(s, ctx, call, true).Fine?
    ensures var src, p := SourceOf(s.sys.heap, ctx, call), |s.sys.heap.payloads|;
            src.Private? ==>
              && Prepare(s.sys.heap, ctx, call).1.payload == Some(p)
              && p < |AfterSubmit(s, ctx, call, true).value.sys.heap.payloads|
              && SameForm(src.payload, AfterSubmit(s, ctx, call, true).value.sys.heap.payloads[p])
  {
    var _ := SubmitOutcome(s, ctx, call, true);
    SubmitPool(s, ctx, call, true);
    TakenForm(s.sys.heap, ctx, call);
  }

  lemma {:induction false} TakenForm(h: Heap, ctx: Context, call: Call)
    ensures var src, p, (h1, req) := SourceOf(h, ctx, call), |h.payloads|, Prepare(h, ctx, call);
            src.Private? ==>
              && req.payload == Some(p) && p < |TakeIndex(h1, req).payloads|
              && SameForm(src.payload, TakeIndex(h1, req).payloads[p])
  {
  }

  /** The kernel answers and the reader tells the future: the error, or the answer. */
  lemma {:induction false} AnswerIsReaped(s: State, f: nat, res: int, data: seq<Byte>, memory: seq<Byte>)
    returns (s': State)
    requires Inv(s) && s.cq == [] && CanComplete(s, f, res, data, memory)
    requires f < |s.sys.heap.futures| && s.sys.heap.futures[f].Pending?
    requires Failed(s.log[f].req.op, res) || !Indigestible(s.sys.heap, s.log[f].req)
    ensures Leads(s, [Complete(f, res, data, memory)] + [Step.Reap], s')
    ensures Ready(s') && PoolKeeps(s.sys.heap, s'.sys.heap) && s'.external == s.external && s'.log == s.log
    ensures s'.inFlight == s.inFlight - {f} && |s'.sys.reg.slots| == |s.sys.reg.slots|
    ensures f < |s'.sys.heap.futures| && Explains(s.log[f], Posted(res, data), s'.sys.heap.futures[f])
  {
    var s1 := AfterComplete(s, f, res, data, memory);
    CompleteShape(s, f, res, data, memory);
    LeadsOnce(s, Complete(f, res, data, memory), s1);
    AnswerIsHead(s, f, res, data, memory);
    s' := HeadIsReaped(s1);
    LeadsOnce(s1, Step.Reap, s');
    LeadsOn(s, [Complete(f, res, data, memory)], s1, [Step.Reap], s');
    PoolKeepsOn(s.sys.heap, s1.sys.heap, s'.sys.heap);
  }

  lemma {:induction false} AnswerIsHead(s: State, f: nat, res: int, data: seq<Byte>, memory: seq<Byte>)
    requires Inv(s) && s.cq == [] && CanComplete(s, f, res, data, memory)
    ensures var s1 := AfterComplete(s, f, res, data, memory);
            && Inv(s1) && |s1.cq| == 1 && s1.Ours(s1.cq[0]) && s1.Occupied(Decode(s1.cq[0].userData))
            && s1.Owner(Decode(s1.cq[0].userData)) == f
            && (HeadIsIndigestible(s1) <==>
                  !Failed(s.log[f].req.op, res) && Indigestible(s.sys.heap, s.log[f].req))
  {
    assert SlotLinked(s, s.log[f].index);
    DecodeIndex(s.log[f].index);
    CompleteKeeps(s, f, res, data, memory);
    CompleteShape(s, f, res, data, memory);
    var req, s1 := s.log[f].req, AfterComplete(s, f, res, data, memory);
    if req.payload.Some? {
      assert SameForm(s.sys.heap.payloads[req.payload.value], s1.sys.heap.payloads[req.payload.value]);
    }
  }

  lemma {:induction false} HeadIsReaped(s: State) returns (s': State)
    requires Inv(s) && |s.cq| == 1 && s.Ours(s.cq[0]) && !HeadIsIndigestible(s)
    requires s.Occupied(Decode(s.cq[0].userData))
    requires var f := s.Owner(Decode(s.cq[0].userData));
             f < |s.log| == |s.sys.heap.futures| && s.sys.heap.futures[f].Pending?
    ensures AfterReap(s) == Fine(s') && Ready(s') && PoolKeeps(s.sys.heap, s'.sys.heap)
    ensures s'.external == s.external && s'.log == s.log && s'.inFlight == s.inFlight
    ensures |s'.sys.reg.slots| == |s.sys.reg.slots|
    ensures var f := s.Owner(Decode(s.cq[0].userData));
            && f in s.posted && f < |s'.sys.heap.futures|
            && Explains(s.log[f], s.posted[f], s'.sys.heap.futures[f])
  {
    ReapKeeps(s);
    ReapSettles(s);
    ReapFreesIndexOnTop(s);
    s' := AfterReap(s).value;
    HeadIsLinked(s);
    ReapFrame(s, s.cq[0].userData);
  }

  lemma {:induction false} ReapFrame(s: State, i: nat)
    requires AtHead(s, i) && !HeadIsIndigestible(s)
    ensures AfterReap(s).Fine?
    ensures var s' := AfterReap(s).value;
            && PoolKeeps(s.sys.heap, s'.sys.heap)
            && s'.sys.reg.slots == s.sys.reg.slots[i := ClearSlot(s.sys.reg.slots[i])]
  {
    if Failed(s.sys.reg.slots[i].opcode, s.cq[0].res) {
      ReapFails(s, i);
    } else {
      var d := SuccessDelivers(s, i);
      SettleKeeps(d.heap, s.Owner(i), d.delivery.value);
      ExtendsKeeps(s.sys.heap, AfterReap(s).value.sys.heap);
    }
  }

  /** A call, the kernel's answer and the reader, one after the other. */
  function Round(ctx: Context, call: Call, f: nat, res: int, data: seq<Byte>, memory: seq<Byte>): seq<Step> {
    [Step.Submit(ctx, call, true)] + ([Complete(f, res, data, memory)] + [Step.Reap])
  }

  /** The steps of a round, taken apart. */
  lemma {:induction false} RoundUnfolds(s: State, ctx: Context, call: Call, res: int, data: seq<Byte>,
                                        memory: seq<Byte>, s': State)
    returns (s1: State, s2: State)
    requires Leads(s, Round(ctx, call, |s.log|, res, data, memory), s')
    ensures s.sys.reg.Wf() && AfterSubmit(s, ctx, call, true) == Fine(s1)
    ensures CanComplete(s1, |s.log|, res, data, memory) && s2 == AfterComplete(s1, |s.log|, res, data, memory)
    ensures s2.sys.reg.Wf() && s2.cq != [] && AfterReap(s2) == Fine(s')
  {
    s1 := AfterSubmit(s, ctx, call, true).value;
    LeadsApart(s, Step.Submit(ctx, call, true), [Complete(|s.log|, res, data, memory)] + [Step.Reap], s');
    LeadsApart(s1, Complete(|s.log|, res, data, memory), [Step.Reap], s');
    s2 := AfterComplete(s1, |s.log|, res, data, memory);
    LeadsApart(s2, Step.Reap, [], s');
  }

  lemma {:induction false} LeadsApart(s: State, step: Step, rest: seq<Step>, s': State)
    requires Leads(s, [step] + rest, s') || (rest == [] && Leads(s, [step], s'))
    ensures s.sys.reg.Wf() && Enabled(s, step) && Next(s, step).Fine? && Leads(Next(s, step).value, rest, s')
  {
    Uncons([step], rest);
    assert rest == [] ==> [step] + rest == [step];
  }

  /** A round can be completed in any way the kernel may choose, indigestible successes apart. */
  lemma {:induction false} RoundIsServed(s: State, s1: State, ctx: Context, call: Call, res: int,
                                         data: seq<Byte>, memory: seq<Byte>)
    returns (s': State)
    requires Leads(s, [Step.Submit(ctx, call, true)], s1)
    requires Pends(s, s1, |s.log|, call, Prepare(s.sys.heap, ctx, call).1, SourceOf(s.sys.heap, ctx, call))
    requires CanComplete(s1, |s.log|, res, data, memory)
    requires Failed(OpcodeOf(call), res) || !Indigestible(s1.sys.heap, Prepare(s.sys.heap, ctx, call).1)
    ensures Leads(s, Round(ctx, call, |s.log|, res, data, memory), s')
    ensures Ready(s') && PoolKeeps(s.sys.heap, s'.sys.heap) && |s.log| < |s'.sys.heap.futures|
    ensures s'.inFlight == s.inFlight + {|s.log|} - {|s.log|} && |s'.sys.reg.slots| == |s.sys.reg.slots|
    ensures s.external <= s'.external
    ensures Explains(s1.log[|s.log|], Posted(res, data), s'.sys.heap.futures[|s.log|])
  {
    s' := AnswerIsReaped(s1, |s.log|, res, data, memory);
    LeadsOn(s, [Step.Submit(ctx, call, true)], s1, [Complete(|s.log|, res, data, memory)] + [Step.Reap], s');
    PoolKeepsOn(s.sys.heap, s1.sys.heap, s'.sys.heap);
  }

  /** What the three steps of a round do: the request is accepted, answered, and alone in the
      queue, with its slot intact, when it is reaped. */
  ghost predicate InTurn(s: State, ctx: Context, call: Call, res: int, s1: State, s2: State, s': State, i: nat) {
    && s.sys.reg.Wf() && AfterSubmit(s, ctx, call, true) == Fine(s1) && s.sys.reg.free.top >= 0
    && !CallCrashes(s, ctx, call)
    && s2.sys.reg.Wf() && s2.cq == [Cqe(i, res)] && AfterReap(s2) == Fine(s')
    && i < |s2.sys.reg.slots| && i <= MAX_SIZE
    && s2.sys.reg.slots[i] == SlotOf(|s.log|, Prepare(s.sys.heap, ctx, call).1, i)
  }

  lemma {:induction false} RoundInTurn(s: State, ctx: Context, call: Call, res: int, data: seq<Byte>,
                                       memory: seq<Byte>, s': State)
    returns (s1: State, s2: State, i: nat)
    requires Inv(s) && s.cq == [] && CanSubmit(s, ctx, call)
    requires Leads(s, Round(ctx, call, |s.log|, res, data, memory), s')
    ensures InTurn(s, ctx, call, res, s1, s2, s', i) && Inv(s1)
    ensures CanComplete(s1, |s.log|, res, data, memory) && s2 == AfterComplete(s1, |s.log|, res, data, memory)
  {
    s1, s2 := RoundUnfolds(s, ctx, call, res, data, memory, s');
    SubmitKeeps(s, ctx, call, true);
    var l := SubmitOutcome(s, ctx, call, true);
    i := s1.log[|s.log|].index;
  }

  /** A round of a call without buffers leaves the pool of payloads exactly as it was. */
  lemma {:induction false} RoundWithoutBuffers(s: State, ctx: Context, call: Call, res: int, s': State)
    requires Inv(s) && s.cq == [] && CanSubmit(s, ctx, call) && SourceOf(s.sys.heap, ctx, call).NoBuffers?
    requires Leads(s, Round(ctx, call, |s.log|, res, [], []), s')
    ensures s'.sys.heap.payloads == s.sys.heap.payloads
  {
    var s1, s2, i := RoundInTurn(s, ctx, call, res, [], [], s');
    SubmitPool(s, ctx, call, true);
    ReapPool(s2.sys, i, res);
  }

  // ----------------------------------------------------------------------------- creating

  /** From any state with room, a file or socket can be created, delivered and taken: then it is
      usable, and nothing else has changed for the calls to come. */
  lemma {:induction false} CreationMakesUsable(s: State, ctx: Context, call: Call, fd: nat)
    returns (steps: seq<Step>, s': State)
    requires Ready(s) && ContextOk(s.sys.heap, ctx) && Creates(call)
    ensures Leads(s, steps, s') && Ready(s') && s'.sys.heap.payloads == s.sys.heap.payloads
    ensures s.inFlight == {} ==> s'.inFlight == {}
    ensures |s'.sys.reg.slots| == |s.sys.reg.slots| && s.external <= s'.external
    ensures Usable(s', Thing(s.sys.heap.things)) && s'.sys.heap.things == s.sys.heap.things + 1
    ensures |s.log| < |s'.sys.heap.futures|
    ensures s'.sys.heap.futures[|s.log|] == DeliveredAs(call, s.sys.heap.things, fd)
  {
    var create, s1 := CreationDelivers(s, ctx, call, fd);
    var o := Thing(s.sys.heap.things);
    s' := ResultIsTaken(s1, |s.log|);
    LeadsOn(s, create, s1, [Retain(o)], s');
    steps := create + [Retain(o)];
  }

  /** The future of a creation that succeeded. */
  function DeliveredAs(call: Call, thing: nat, fd: nat): Future {
    Result(Thing(thing), if call.Open? then OpenedFile(fd) else OpenedSocket(fd))
  }

  lemma {:induction false} CreationDelivers(s: State, ctx: Context, call: Call, fd: nat)
    returns (steps: seq<Step>, s': State)
    requires Ready(s) && ContextOk(s.sys.heap, ctx) && Creates(call)
    ensures Leads(s, steps, s') && Ready(s') && s'.sys.heap.payloads == s.sys.heap.payloads
    ensures s'.inFlight == s.inFlight + {|s.log|} - {|s.log|}
    ensures |s'.sys.reg.slots| == |s.sys.reg.slots| && s.external <= s'.external
    ensures |s.log| < |s'.sys.heap.futures| && s'.sys.heap.things == s.sys.heap.things + 1
    ensures s'.sys.heap.futures[|s.log|] == DeliveredAs(call, s.sys.heap.things, fd)
  {
    var s1 := CallPends(s, ctx, call);
    CreationRequest(s.sys.heap, ctx, call);
    CreationCompletes(s, s1, ctx, call, fd);
    s' := RoundIsServed(s, s1, ctx, call, fd, [], []);
    CreationExplained(s.sys.heap, ctx, call, s1.log[|s.log|], fd, s'.sys.heap.futures[|s.log|]);
    RoundWithoutBuffers(s, ctx, call, fd, s');
    CreationThings(s, ctx, call, fd, s');
    steps := Round(ctx, call, |s.log|, fd, [], []);
  }

  /** A creation makes one object, and its success delivers that. */
  lemma {:induction false} CreationThings(s: State, ctx: Context, call: Call, fd: nat, s': State)
    requires Inv(s) && s.cq == [] && CanSubmit(s, ctx, call) && Creates(call)
    requires Leads(s, Round(ctx, call, |s.log|, fd, [], []), s')
    ensures s'.sys.heap.things == s.sys.heap.things + 1
  {
    var s1, s2, i := RoundInTurn(s, ctx, call, fd, [], [], s');
    var _ := SubmitOutcome(s, ctx, call, true);
    ReapThings(s2.sys, i, fd);
  }

  lemma {:induction false} ReapThings(s: System, i: nat, res: int)
    requires s.reg.Wf() && i < |s.reg.slots| && i <= MAX_SIZE && s.reg.slots[i].future.Some?
    requires IsCreation(s.reg.slots[i].opcode) && ReapOne(s, Cqe(i, res)).Fine?
    ensures ReapOne(s, Cqe(i, res)).value.heap.things == s.heap.things
  {
    ReapUnfolds(s, i, res);
    var slot, f := s.reg.slots[i], s.reg.slots[i].future.value;
    if Failed(slot.opcode, res) {
      RemoveThings(System(s.reg, SetException(s.heap, f, OsError(-res))), i);
    } else {
      var d := Dispatch(s.heap, slot, res).value;
      SwitchCreates(s.heap, slot, res);
      SettleThings(d.heap, f, d.delivery);
      RemoveThings(System(s.reg.(slots := s.reg.slots[i := d.slot]), Settle(d.heap, f, d.delivery)), i);
    }
  }

  lemma {:induction false} SwitchCreates(h: Heap, slot: Slot, res: int)
    requires IsCreation(slot.opcode) && Dispatch(h, slot, res).Fine?
    ensures Dispatch(h, slot, res).value.heap == h
  {
  }

  lemma {:induction false} SettleThings(h: Heap, f: nat, d: Option<Delivery>)
    ensures Settle(h, f, d).things == h.things
  {
  }

  lemma {:induction false} RemoveThings(s: System, i: nat)
    requires s.reg.Wf() && Remove(s, i).Fine?
    ensures Remove(s, i).value.heap.things == s.heap.things
  {
  }

  lemma {:induction false} CreationRequest(h: Heap, ctx: Context, call: Call)
    requires Creates(call)
    ensures SourceOf(h, ctx, call) == NoBuffers && Dispatchable(h, ctx, call)
    ensures Prepare(h, ctx, call).1 ==
            Request(OpcodeOf(call), Oneshot, None,
                    if call.Open? then Some(h.things) else None, if call.Open? then None else Some(h.things))
    ensures IsCreation(OpcodeOf(call))
  {
  }

  lemma {:induction false} CreationExplained(h: Heap, ctx: Context, call: Call, l: Logged, fd: nat, st: Future)
    requires Creates(call) && l.req == Prepare(h, ctx, call).1 && Explains(l, Posted(fd, []), st)
    ensures st == DeliveredAs(call, h.things, fd)
  {
    CreationRequest(h, ctx, call);
  }

  /** A creation in flight may be answered in any way. */
  lemma {:induction false} CreationCompletes(s: State, s1: State, ctx: Context, call: Call, res: int)
    requires Creates(call)
    requires Pends(s, s1, |s.log|, call, Prepare(s.sys.heap, ctx, call).1, SourceOf(s.sys.heap, ctx, call))
    ensures CanComplete(s1, |s.log|, res, [], []) && !Indigestible(s1.sys.heap, s1.log[|s.log|].req)
  {
    CreationRequest(s.sys.heap, ctx, call);
  }

  /** Whoever awaits a future gets hold of its result. */
  lemma {:induction false} ResultIsTaken(s: State, f: nat) returns (s': State)
    requires Ready(s) && f < |s.sys.heap.futures| && s.sys.heap.futures[f].Result?
    ensures Leads(s, [Retain(s.sys.heap.futures[f].obj)], s') && Ready(s')
    ensures s'.sys.heap == s.sys.heap.(refs := s'.sys.heap.refs) && Usable(s', s.sys.heap.futures[f].obj)
    ensures s' == s.(sys := s'.sys, external := s'.external) && s.external <= s'.external
    ensures s'.sys.reg == s.sys.reg
  {
    var o := s.sys.heap.futures[f].obj;
    ResultsUpdate(s.sys.heap.futures, f, Pending, o);
    s' := AfterRetain(s, o);
    RetainKeeps(s, o);
    LeadsOnce(s, Retain(o), s');
  }

  // ------------------------------------------------------------------------------ reading

  /** Any data the buffer can hold can be read from a usable file, and is delivered as it is. */
  lemma {:induction false} ReadDelivers(s: State, stream: StreamStrategy, file: nat, size: nat, data: seq<Byte>)
    returns (steps: seq<Step>, s': State)
    requires Ready(s) && Usable(s, Thing(file)) && |data| <= size
    ensures Leads(s, steps, s') && Ready(s') && |s.log| < |s'.sys.heap.futures|
    ensures s'.sys.heap.futures[|s.log|].Result? && s'.sys.heap.futures[|s.log|].value == Bytes(data)
  {
    var ctx, call := Context(stream, NormalTransfer, None), Read(file, size);
    var s1 := CallPends(s, ctx, call);
    var memory := ReadCompletes(s, s1, ctx, file, size, data);
    s' := RoundIsServed(s, s1, ctx, call, |data|, data, memory);
    steps := Round(ctx, call, |s.log|, |data|, data, memory);
  }

  lemma {:induction false} ReadCompletes(s: State, s1: State, ctx: Context, file: nat, size: nat, data: seq<Byte>)
    returns (memory: seq<Byte>)
    requires ctx.payload.None? && |data| <= size
    requires Pends(s, s1, |s.log|, Read(file, size), Prepare(s.sys.heap, ctx, Read(file, size)).1,
                   Private(LinearPayload(Zeros(size))))
    ensures CanComplete(s1, |s.log|, |data|, data, memory) && !Indigestible(s1.sys.heap, s1.log[|s.log|].req)
    ensures s1.log[|s.log|].private && s1.log[|s.log|].req.op.OpRead?
  {
    memory := s1.sys.heap.payloads[|s.sys.heap.payloads|].linear.bytes;
  }

  /** A new loop can open a file and read any data from it. */
  lemma {:induction false} ReadIsReachable(n: nat, data: seq<Byte>) returns (steps: seq<Step>, s: State, f: nat)
    requires 1 <= n <= MAX_SIZE
    ensures Leads(Init(n), steps, s)
    ensures f < |s.sys.heap.futures| && s.sys.heap.futures[f].Result? && s.sys.heap.futures[f].value == Bytes(data)
  {
    InitInv(n);
    var open, s1 := CreationMakesUsable(Init(n), Context(Oneshot, NormalTransfer, None), Open, 3);
    var read;
    read, s := ReadDelivers(s1, Oneshot, 0, |data|, data);
    LeadsOn(Init(n), open, s1, read, s);
    steps, f := open + read, |s1.log|;
  }
}
