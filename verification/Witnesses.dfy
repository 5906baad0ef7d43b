/** Runs from a new loop into each of the failures that the guarantees state exactly, so that
    none of their conditions is an empty one. */
module Witnesses {
  import opened Core
  import opened FreeLists
  import opened Runtime
  import opened Reader
  import opened Requests
  import opened Protocol
  import opened Invariant
  import opened Guarantees
  import opened Pool
  import opened Sessions
  import opened Shutdown
  import opened FixedIndex

  const PLAIN := Context(Oneshot, NormalTransfer, None)

  // ----------------------------------------------------------------------------- starting

  /** A loop of n slots with nothing outstanding, object 0 in a caller's hands, and the payload of
      a context, if one has been installed, as payload 0. */
  ghost predicate Started(n: nat, b: Option<Payload>, s: State) {
    && Ready(s) && s.inFlight == {} && |s.sys.reg.slots| == n && Usable(s, Thing(0))
    && s.sys.heap.payloads == (if b.Some? then [b.value] else [])
  }

  ghost predicate Installable(b: Option<Payload>) { b.Some? ==> ContextOwned(b.value) && ContextPayload(b.value) }

  lemma {:induction false} Starts(n: nat, b: Option<Payload>, call: Call) returns (steps: seq<Step>, s: State)
    requires 1 <= n <= MAX_SIZE && Creates(call) && Installable(b)
    ensures Leads(Init(n), steps, s) && Started(n, b, s) && s.sys.heap.things == 1
  {
    InitInv(n);
    if b.Some? {
      var s0 := AfterInstall(Init(n), b.value);
      InstallKeeps(Init(n), b.value);
      LeadsOnce(Init(n), Install(b.value), s0);
      steps, s := CreationMakesUsable(s0, PLAIN, call, 3);
      LeadsOn(Init(n), [Install(b.value)], s0, steps, s);
      steps := [Install(b.value)] + steps;
    } else {
      steps, s := CreationMakesUsable(Init(n), PLAIN, call, 3);
    }
  }

  // ------------------------------------------------------------------------------ crashes

  /** The reader's next trip follows a null pointer. */
  ghost predicate ReapCrashes(s: State) {
    s.sys.reg.Wf() && Enabled(s, Step.Reap) && Next(s, Step.Reap) == Crashed(BadAccess)
  }

  /** A call whose success the reader cannot digest, answered with an empty success. */
  lemma {:induction false} SuccessCrashes(s: State, ctx: Context, call: Call) returns (steps: seq<Step>, s': State)
    requires Ready(s) && CanSubmit(s, ctx, call) && Dispatchable(s.sys.heap, ctx, call)
    requires Indigestible(Prepare(s.sys.heap, ctx, call).0, Prepare(s.sys.heap, ctx, call).1)
    ensures Leads(s, steps, s') && ReapCrashes(s')
  {
    var memory := IndigestibleCallCrashes(s, ctx, call);
    var s1 := CallPends(s, ctx, call);
    s' := AfterComplete(s1, |s.log|, 0, [], memory);
    LeadsOnce(s1, Complete(|s.log|, 0, [], memory), s');
    steps := [Step.Submit(ctx, call, true)] + [Complete(|s.log|, 0, [], memory)];
    LeadsOn(s, [Step.Submit(ctx, call, true)], s1, [Complete(|s.log|, 0, [], memory)], s');
    NextReapCrashes(s');
  }

  lemma {:induction false} NextReapCrashes(s: State)
    requires s.sys.reg.Wf() && s.cq != [] && AfterReap(s) == Crashed(BadAccess)
    ensures ReapCrashes(s)
  {
  }

  /** Under PROVIDED or BUF_RING buffers a readv crashes the reader. */
  lemma {:induction false} ReadvCrashIsReachable(n: nat, b: Payload) returns (steps: seq<Step>, s: State)
    requires 1 <= n <= MAX_SIZE && ContextPayload(b) && (b.mode.Provided? || b.mode.BufRing?)
    ensures Leads(Init(n), steps, s) && ReapCrashes(s)
  {
    var start, s1 := Starts(n, Some(b), Open);
    var ctx, call := PLAIN.(payload := Some(0)), Readv(0, None);
    ReadvIsIndigestible(s1.sys.heap, ctx, call);
    var rest;
    rest, s := SuccessCrashes(s1, ctx, call);
    LeadsOn(Init(n), start, s1, rest, s);
    steps := start + rest;
  }

  lemma {:induction false} ReadvIsIndigestible(h: Heap, ctx: Context, call: Call)
    requires PoolOk(h) && ContextOk(h, ctx) && call.Readv? && ctx.payload.Some?
    requires h.payloads[ctx.payload.value].mode.Provided? || h.payloads[ctx.payload.value].mode.BufRing?
    ensures Indigestible(Prepare(h, ctx, call).0, Prepare(h, ctx, call).1) && Dispatchable(h, ctx, call)
  {
    IndigestibleCalls(h, ctx, call);
    IndigestibleIsNoSend(h, ctx, call);
  }

  /** Under the MULTISHOT strategy a recvmsg crashes the reader. */
  lemma {:induction false} RecvmsgCrashIsReachable(n: nat) returns (steps: seq<Step>, s: State)
    requires 1 <= n <= MAX_SIZE
    ensures Leads(Init(n), steps, s) && ReapCrashes(s)
  {
    var start, s1 := Starts(n, None, PrepSocket);
    var ctx, call := PLAIN.(stream := Multishot), Recvmsg(0, None);
    RecvmsgIsIndigestible(s1.sys.heap, ctx, call);
    var rest;
    rest, s := SuccessCrashes(s1, ctx, call);
    LeadsOn(Init(n), start, s1, rest, s);
    steps := start + rest;
  }

  lemma {:induction false} RecvmsgIsIndigestible(h: Heap, ctx: Context, call: Call)
    requires PoolOk(h) && ContextOk(h, ctx) && call.Recvmsg? && ctx.stream.Multishot?
    ensures Indigestible(Prepare(h, ctx, call).0, Prepare(h, ctx, call).1) && Dispatchable(h, ctx, call)
  {
    IndigestibleCalls(h, ctx, call);
    IndigestibleIsNoSend(h, ctx, call);
  }

  /** In ZERO_COPY mode a sendmsg of any buffers crashes on its way to the ring. */
  lemma {:induction false} SendmsgCrashIsReachable(n: nat, call: Call, taken: bool) returns (steps: seq<Step>, s: State)
    requires 1 <= n <= MAX_SIZE && call.Sendmsg? && call.socket == 0
    ensures Leads(Init(n), steps, s) && s.sys.reg.Wf()
    ensures var step := Step.Submit(PLAIN.(transfer := ZeroCopy), call, taken);
            Enabled(s, step) && Next(s, step) == Crashed(BadAccess)
  {
    steps, s := Starts(n, None, PrepSocket);
  }

  /** A read or receive whose buffer was never set crashes the same way. */
  lemma {:induction false} UnsetBufferIsReachable(n: nat, call: Call, taken: bool) returns (steps: seq<Step>, s: State)
    requires 1 <= n <= MAX_SIZE && UnsetBuffer(Init(n).sys.heap, PLAIN, call) && Receiver(call) == Some(0)
    ensures Leads(Init(n), steps, s) && s.sys.reg.Wf()
    ensures var step := Step.Submit(PLAIN, call, taken); Enabled(s, step) && Next(s, step) == Crashed(BadAccess)
  {
    steps, s := Starts(n, None, if OnSocket(call) then PrepSocket else Open);
    UnsetBufferIff(Init(n).sys.heap, PLAIN, call);
    UnsetBufferIff(s.sys.heap, PLAIN, call);
  }

  // -------------------------------------------------------------------------------- leaks

  /** An open or socket call whose request fails, or is drained whatever the kernel reported,
      leaves its object with a reference that nobody holds. */
  lemma {:induction false} CreationIsLost(n: nat, call: Call, res: int, drained: bool)
    returns (steps: seq<Step>, s: State)
    requires 1 <= n <= MAX_SIZE && Creates(call) && (drained || res < 0)
    ensures Leads(Init(n), steps, s)
    ensures s.sys.heap.refs[Thing(0)] == 1 && Held(s.sys.reg.slots, Thing(0)) == 0
    ensures Results(s.sys.heap.futures, Thing(0)) == 0 && s.external[Thing(0)] == 0
  {
    var s1, s2 := CreationAnswered(n, call, res);
    var last;
    last, s := CreationLost(s2, res, drained);
    LeadsThrice(Init(n), Step.Submit(PLAIN, call, true), s1, Complete(0, res, [], []), s2, last, s);
    steps := [Step.Submit(PLAIN, call, true)] + ([Complete(0, res, [], [])] + [last]);
  }

  lemma {:induction false} CreationAnswered(n: nat, call: Call, res: int) returns (s1: State, s2: State)
    requires 1 <= n <= MAX_SIZE && Creates(call)
    ensures var s := Init(n);
            s.sys.reg.Wf() && CanSubmit(s, PLAIN, call) && AfterSubmit(s, PLAIN, call, true) == Fine(s1)
    ensures s1.sys.reg.Wf() && CanComplete(s1, 0, res, [], []) && s2 == AfterComplete(s1, 0, res, [], [])
    ensures Inv(s2) && HeadCreates(s2) && s2.cq[0].res == res && HeadCreation(s2) == Thing(0)
  {
    InitInv(n);
    s1 := CallPends(Init(n), PLAIN, call);
    CreationRequest(Init(n).sys.heap, PLAIN, call);
    CreationCompletes(Init(n), s1, PLAIN, call, res);
    s2 := CreationAtHead(s1, 0, res);
  }

  lemma {:induction false} CreationLost(s: State, res: int, drained: bool) returns (last: Step, s': State)
    requires Inv(s) && HeadCreates(s) && s.cq[0].res == res && (drained || res < 0)
    ensures s.sys.reg.Wf() && Enabled(s, last) && Next(s, last) == Fine(s')
    ensures var o := HeadCreation(s);
            && s'.sys.heap.refs[o] == 1 && Held(s'.sys.reg.slots, o) == 0
            && Results(s'.sys.heap.futures, o) == 0 && s'.external[o] == 0
  {
    if drained {
      DrainedCreationLeaks(s);
      last, s' := Step.Drain, AfterDrain(s).value;
    } else {
      CreationLeaksIffFailed(s);
      FailedIsNoResult(s);
      last, s' := Step.Reap, AfterReap(s).value;
    }
  }

  lemma {:induction false} FailedIsNoResult(s: State)
    requires Inv(s) && HeadCreates(s) && s.cq[0].res < 0
    ensures AfterReap(s).Fine? && Results(AfterReap(s).value.sys.heap.futures, HeadCreation(s)) == 0
  {
    HeadIsLinked(s);
    var i: nat := s.cq[0].userData;
    ReapFails(s, i);
    assert NewBorn(s, HeadCreation(s));
    ResultsUpdate(s.sys.heap.futures, s.Owner(i), AfterReap(s).value.sys.heap.futures[s.Owner(i)], HeadCreation(s));
  }

  lemma {:induction false} CreationAtHead(s: State, f: nat, res: int) returns (s': State)
    requires Inv(s) && s.cq == [] && CanComplete(s, f, res, [], []) && IsCreation(s.log[f].req.op)
    ensures s' == AfterComplete(s, f, res, [], []) && Inv(s') && HeadCreates(s') && s'.cq[0].res == res
    ensures HeadCreation(s') == CreatedBy(SlotOf(f, s.log[f].req, 0))
  {
    AnswerIsHead(s, f, res, [], []);
    s' := AfterComplete(s, f, res, [], []);
    HeadIsLinked(s');
  }

  // ----------------------------------------------------------------------- double release

  /** Two reads of one context outstanding at the destruction: its payload is freed twice. */
  lemma {:induction false} DoubleReleaseIsReachable(n: nat, b: Payload) returns (steps: seq<Step>, s: State)
    requires 2 <= n <= MAX_SIZE && Lends(b)
    ensures Leads(Init(n), steps, s) && Inv(s) && Destroy(s.sys).released[0] >= 2
  {
    var start, s1 := Starts(n, Some(b), Open);
    var rest;
    rest, s := TwoReadsPend(s1, n, 0, 0);
    LeadsOn(Init(n), start, s1, rest, s);
    steps := start + rest;
    DestroyFreesTwiceIffShared(s, 0);
  }

  /** Two reads that borrow payload p, both accepted, neither answered. */
  lemma {:induction false} TwoReadsPend(s: State, n: nat, p: nat, file: nat) returns (steps: seq<Step>, s': State)
    requires Ready(s) && s.inFlight == {} && n >= 2 && |s.sys.reg.slots| == n && Usable(s, Thing(file))
    requires p < |s.sys.heap.payloads| && Lends(s.sys.heap.payloads[p])
    ensures Leads(s, steps, s') && Inv(s') && p < |s'.sys.heap.payloads| && Lends(s'.sys.heap.payloads[p])
    ensures Shared(s'.sys.reg.slots, p)
  {
    QuiescentIsBlank(s);
    var s1 := BorrowerPends(s, p, Read(file, 10));
    s' := BorrowerPends(s1, p, Read(file, 10));
    var step := Step.Submit(PLAIN.(payload := Some(p)), Read(file, 10), true);
    LeadsOn(s, [step], s1, [step], s');
    steps := [step] + [step];
    TwoSlots(s', |s.log|, |s1.log|, p);
  }

  /** A context's payload that a read borrows. */
  predicate Lends(b: Payload) { ContextOwned(b) && ContextPayload(b) && !b.mode.Normal? }

  /** A call that borrows the linear payload of its context. */
  predicate Borrower(call: Call) { call.Read? || (call.Recv? && call.buffer.NoBuffer?) }

  function BorrowerOp(call: Call): Opcode { if call.Read? then OpRead else OpRecv }

  lemma {:induction false} BorrowerPends(s: State, p: nat, call: Call) returns (s': State)
    requires Ready(s) && Borrower(call) && Usable(s, Thing(Receiver(call).value))
    requires p < |s.sys.heap.payloads| && Lends(s.sys.heap.payloads[p])
    ensures Leads(s, [Step.Submit(PLAIN.(payload := Some(p)), call, true)], s')
    ensures Inv(s') && s'.cq == [] && s'.sys.reg.free.top == s.sys.reg.free.top - 1 && s.external <= s'.external
    ensures p < |s'.sys.heap.payloads| && Lends(s'.sys.heap.payloads[p])
    ensures s'.inFlight == s.inFlight + {|s.log|} && s.log <= s'.log && |s.log| < |s'.log|
    ensures s'.log[|s.log|].req.payload == Some(p) && s'.log[|s.log|].req.op == BorrowerOp(call)
    ensures AfterSubmit(s, PLAIN.(payload := Some(p)), call, true) == Fine(s')
  {
    BorrowerBorrows(s.sys.heap, p, call);
    s' := CallPends(s, PLAIN.(payload := Some(p)), call);
    assert SameForm(s.sys.heap.payloads[p], s'.sys.heap.payloads[p]);
  }

  lemma {:induction false} BorrowerBorrows(h: Heap, p: nat, call: Call)
    requires p < |h.payloads| && Lends(h.payloads[p]) && Borrower(call)
    ensures var ctx := PLAIN.(payload := Some(p));
            && SourceOf(h, ctx, call) == Borrowed(p) && Prepare(h, ctx, call).1.payload == Some(p)
            && Prepare(h, ctx, call).1.op == BorrowerOp(call) && Dispatchable(h, ctx, call)
  {
  }

  lemma {:induction false} TwoSlots(s: State, f: nat, g: nat, p: nat)
    requires Shaped(s) && Linked(s) && f < g < |s.log| && f in s.inFlight && g in s.inFlight
    requires s.log[f].req.payload == Some(p) == s.log[g].req.payload
    ensures Shared(s.sys.reg.slots, p)
  {
    PendingSlot(s, f, p);
    PendingSlot(s, g, p);
    var i, j := s.log[f].index, s.log[g].index;
    assert i != j;
    assert Shared(s.sys.reg.slots, p) by {
      if i < j {
        assert s.sys.reg.slots[i].payload == Some(p) && s.sys.reg.slots[j].payload == Some(p);
      } else {
        assert s.sys.reg.slots[j].payload == Some(p) && s.sys.reg.slots[i].payload == Some(p);
      }
    }
  }

  lemma {:induction false} PendingSlot(s: State, f: nat, p: nat)
    requires Shaped(s) && Linked(s) && f in s.inFlight && f < |s.log| && s.log[f].req.payload == Some(p)
    ensures s.Occupied(s.log[f].index) && s.Owner(s.log[f].index) == f
    ensures s.sys.reg.slots[s.log[f].index].payload == Some(p)
  {
    assert SlotLinked(s, s.log[f].index);
  }

  // ------------------------------------------------------------------------ fixed indices

  /** A FIXED context whose list is full: a read that fails loses an index. */
  lemma {:induction false} FailedReadIsReachable(n: nat, b: Payload, res: int) returns (steps: seq<Step>, s: State)
    requires 1 <= n <= MAX_SIZE && ContextPayload(b) && b.mode.Fixed? && IndexOf(b).Full() && res < 0
    ensures Leads(Init(n), steps, s) && FixedPayload(s.sys.heap, 0) && s.sys.heap.payloads[0].idx == b.idx.Pop()
  {
    var start, s1 := Starts(n, Some(b), Open);
    var rest;
    rest, s := ReadFails(s1, 0, 0, res);
    LeadsOn(Init(n), start, s1, rest, s);
    steps := start + rest;
  }

  lemma {:induction false} ReadFails(s: State, p: nat, file: nat, res: int) returns (steps: seq<Step>, s': State)
    requires Ready(s) && Usable(s, Thing(file)) && IsFull(s.sys.heap, p) && Lends(s.sys.heap.payloads[p]) && res < 0
    ensures Leads(s, steps, s') && FixedPayload(s'.sys.heap, p)
    ensures s'.sys.heap.payloads[p].idx == s.sys.heap.payloads[p].idx.Pop()
  {
    var u := Use(PLAIN.(payload := Some(p)), Read(file, 10), res, [], []);
    s' := FailureIsServed(s, p, u);
    steps := Round(u.ctx, u.call, |s.log|, res, [], []);
    RoundRestoresIff(s, u, s', p);
  }

  lemma {:induction false} FailureIsServed(s: State, p: nat, u: Use) returns (s': State)
    requires Ready(s) && u.call.Read? && Usable(s, Thing(u.call.file)) && u.ctx == PLAIN.(payload := Some(p))
    requires FixedPayload(s.sys.heap, p) && Lends(s.sys.heap.payloads[p]) && u.res < 0 && u.data == [] && u.memory == []
    ensures Borrows(s, u.ctx, u.call, p) && Serves(s, u, s')
  {
    BorrowerBorrows(s.sys.heap, p, u.call);
    var s1 := CallPends(s, u.ctx, u.call);
    s' := RoundIsServed(s, s1, u.ctx, u.call, u.res, [], []);
  }

  /** And so does a read that the ring refuses. */
  lemma {:induction false} RefusedReadIsReachable(n: nat, b: Payload) returns (steps: seq<Step>, s: State)
    requires 1 <= n <= MAX_SIZE && ContextPayload(b) && b.mode.Fixed? && IndexOf(b).Full()
    ensures Leads(Init(n), steps, s) && FixedPayload(s.sys.heap, 0) && s.sys.heap.payloads[0].idx == b.idx.Pop()
  {
    var start, s1 := Starts(n, Some(b), Open);
    var step := Step.Submit(PLAIN.(payload := Some(0)), Read(0, 10), false);
    s := ReadIsRefused(s1, 0, 0);
    LeadsOn(Init(n), start, s1, [step], s);
    steps := start + [step];
  }

  lemma {:induction false} ReadIsRefused(s: State, p: nat, file: nat) returns (s': State)
    requires Ready(s) && Usable(s, Thing(file)) && IsFull(s.sys.heap, p) && Lends(s.sys.heap.payloads[p])
    ensures Leads(s, [Step.Submit(PLAIN.(payload := Some(p)), Read(file, 10), false)], s')
    ensures FixedPayload(s'.sys.heap, p) && s'.sys.heap.payloads[p].idx == s.sys.heap.payloads[p].idx.Pop()
  {
    var ctx, call := PLAIN.(payload := Some(p)), Read(file, 10);
    BorrowerBorrows(s.sys.heap, p, Read(file, 10));
    RefusedReadLosesIndex(s, ctx, call, p);
    s' := AfterSubmit(s, ctx, call, false).value;
    LeadsOnce(s, Step.Submit(ctx, call, false), s');
  }

  // ------------------------------------------------------------------ overlapping requests

  /** Request f is in flight, borrows the FIXED payload p, and its success will give an index. */
  ghost predicate Lent(s: State, f: nat, p: nat) {
    && f in s.inFlight && f < |s.log| && s.log[f].req.payload == Some(p) && FixedPayload(s.sys.heap, p)
    && (s.log[f].req.op.OpRead? || s.log[f].req.op.OpRecv?)
  }

  /** Request f, in slot i, has been answered with an empty success, completion c. */
  ghost predicate Answered(s: State, f: nat, i: nat, c: Cqe, p: nat) {
    && c == Cqe(i, 0) && i <= MAX_SIZE && s.Occupied(i) && s.Owner(i) == f
    && f < |s.log| && s.log[f].req.payload == Some(p) && FixedPayload(s.sys.heap, p)
    && (s.log[f].req.op.OpRead? || s.log[f].req.op.OpRecv?)
  }

  lemma {:induction false} LentIsAnswered(s: State, f: nat, p: nat) returns (step: Step, s': State, i: nat)
    requires Inv(s) && Lent(s, f, p)
    ensures s.sys.reg.Wf() && Enabled(s, step) && Next(s, step) == Fine(s') && Inv(s')
    ensures Answered(s', f, i, Cqe(i, 0), p) && s'.cq == s.cq + [Cqe(i, 0)]
    ensures IndexOf(s'.sys.heap.payloads[p]) == IndexOf(s.sys.heap.payloads[p])
    ensures s'.sys.reg == s.sys.reg && s'.log == s.log && s'.inFlight == s.inFlight - {f}
    ensures s'.external == s.external && PoolKeeps(s.sys.heap, s'.sys.heap)
  {
    i := s.log[f].index;
    assert SlotLinked(s, i);
    var memory := s.sys.heap.payloads[p].linear.bytes;
    step := Complete(f, 0, [], memory);
    s' := AfterComplete(s, f, 0, [], memory);
    CompleteKeeps(s, f, 0, [], memory);
    CompleteShape(s, f, 0, [], memory);
    CompletePlays(s, f, 0, [], memory, p);
  }

  lemma {:induction false} HeadGives(s: State, f: nat, i: nat, p: nat) returns (s': State)
    requires Inv(s) && s.cq != [] && Answered(s, f, i, s.cq[0], p)
    ensures s.sys.reg.Wf() && Enabled(s, Step.Reap) && Next(s, Step.Reap) == Fine(s') && Inv(s')
    ensures FixedPayload(s'.sys.heap, p)
    ensures IndexOf(s'.sys.heap.payloads[p]) == Play(IndexOf(s.sys.heap.payloads[p]), Give)
    ensures s'.cq == s.cq[1..] && s'.log == s.log && s'.inFlight == s.inFlight && s'.external == s.external
    ensures s'.sys.reg.slots == s.sys.reg.slots[i := ClearSlot(s.sys.reg.slots[i])]
    ensures s'.sys.reg.free.top >= 0 && PoolKeeps(s.sys.heap, s'.sys.heap)
  {
    DecodeIndex(i);
    HeadIsLinked(s);
    ReapKeeps(s);
    ReapPlays(s, p);
    ReapFreesIndexOnTop(s);
    ReapFrame(s, i);
    s' := AfterReap(s).value;
  }

  function Borrowing(p: nat, call: Call): Step { Step.Submit(PLAIN.(payload := Some(p)), call, true) }

  /** A borrowing call as a step, with its move. */
  lemma {:induction false} BorrowerPlays(s: State, p: nat, call: Call) returns (s': State)
    requires Ready(s) && Borrower(call) && Usable(s, Thing(Receiver(call).value))
    requires FixedPayload(s.sys.heap, p) && Lends(s.sys.heap.payloads[p])
    ensures Leads(s, [Borrowing(p, call)], s') && Inv(s') && Lent(s', |s.log|, p) && s'.cq == []
    ensures Lends(s'.sys.heap.payloads[p]) && s'.sys.reg.free.top == s.sys.reg.free.top - 1
    ensures s.external <= s'.external && s'.inFlight == s.inFlight + {|s.log|} && s.log <= s'.log
    ensures s'.log[|s.log|].req.op == BorrowerOp(call)
    ensures IndexOf(s'.sys.heap.payloads[p]) == Play(IndexOf(s.sys.heap.payloads[p]), if call.Read? then Take else Rest)
  {
    s' := BorrowerPends(s, p, call);
    BorrowerMoves(s, p, call, s');
  }

  lemma {:induction false} BorrowerMoves(s: State, p: nat, call: Call, s': State)
    requires s.sys.reg.Wf() && |s.log| == |s.sys.heap.futures| && s.sys.reg.free.top >= 0 && Borrower(call)
    requires FixedPayload(s.sys.heap, p) && Lends(s.sys.heap.payloads[p])
    requires AfterSubmit(s, PLAIN.(payload := Some(p)), call, true) == Fine(s')
    ensures FixedPayload(s'.sys.heap, p)
    ensures IndexOf(s'.sys.heap.payloads[p]) == Play(IndexOf(s.sys.heap.payloads[p]), if call.Read? then Take else Rest)
  {
    BorrowerBorrows(s.sys.heap, p, call);
    SubmitPlays(s, PLAIN.(payload := Some(p)), call, true, p);
  }

  /** Two requests in flight are both answered. */
  lemma {:induction false} TwoAnswers(s: State, f: nat, g: nat, p: nat)
    returns (steps: seq<Step>, s': State, i: nat, j: nat)
    requires Inv(s) && Lent(s, f, p) && Lent(s, g, p) && f != g && s.cq == []
    ensures Leads(s, steps, s') && Inv(s') && s'.cq == [Cqe(i, 0)] + [Cqe(j, 0)]
    ensures Answered(s', f, i, Cqe(i, 0), p) && Answered(s', g, j, Cqe(j, 0), p)
    ensures IndexOf(s'.sys.heap.payloads[p]) == IndexOf(s.sys.heap.payloads[p])
  {
    var a, b, s1;
    a, s1, i := LentIsAnswered(s, f, p);
    b, s', j := LentIsAnswered(s1, g, p);
    LeadsTwice(s, a, s1, b, s');
    steps := [a] + [b];
    TwoInOrder(Cqe(i, 0), Cqe(j, 0));
  }

  lemma {:induction false} TwoInOrder(c: Cqe, d: Cqe)
    ensures [] + [c] + [d] == [c] + [d]
  {
  }

  /** And both reaped: two gives. */
  lemma {:induction false} TwoGives(s: State, f: nat, g: nat, i: nat, j: nat, p: nat) returns (s': State)
    requires Inv(s) && f != g && s.cq == [Cqe(i, 0)] + [Cqe(j, 0)]
    requires Answered(s, f, i, Cqe(i, 0), p) && Answered(s, g, j, Cqe(j, 0), p)
    ensures Leads(s, [Step.Reap] + [Step.Reap], s') && FixedPayload(s'.sys.heap, p)
    ensures IndexOf(s'.sys.heap.payloads[p]) == Play(Play(IndexOf(s.sys.heap.payloads[p]), Give), Give)
  {
    var s1 := HeadGives(s, f, i, p);
    assert i != j && Answered(s1, g, j, s1.cq[0], p);
    s' := HeadGives(s1, g, j, p);
    LeadsTwice(s, Step.Reap, s1, Step.Reap, s');
  }

  lemma {:induction false} TwoReadsServed(s: State, p: nat, file: nat) returns (steps: seq<Step>, s': State)
    requires Ready(s) && s.sys.reg.free.top >= 1 && Usable(s, Thing(file))
    requires FixedPayload(s.sys.heap, p) && Lends(s.sys.heap.payloads[p])
    ensures Leads(s, steps, s') && FixedPayload(s'.sys.heap, p)
    ensures var x := IndexOf(s.sys.heap.payloads[p]);
            IndexOf(s'.sys.heap.payloads[p]) == Play(Play(Play(Play(x, Take), Take), Give), Give)
  {
    var s1 := BorrowerPlays(s, p, Read(file, 10));
    var s2 := BorrowerPlays(s1, p, Read(file, 10));
    var answers, s3, i, j := TwoAnswers(s2, |s.log|, |s1.log|, p);
    s' := TwoGives(s3, |s.log|, |s1.log|, i, j, p);
    var read := Borrowing(p, Read(file, 10));
    LeadsOn(s2, answers, s3, [Step.Reap] + [Step.Reap], s');
    LeadsOn(s1, [read], s2, answers + ([Step.Reap] + [Step.Reap]), s');
    LeadsOn(s, [read], s1, [read] + (answers + ([Step.Reap] + [Step.Reap])), s');
    steps := [read] + ([read] + (answers + ([Step.Reap] + [Step.Reap])));
  }

  /** Two reads in flight at once, both successful: the list ends full, with the second read's
      index in it twice and the first's gone. */
  lemma {:induction false} DuplicateIsReachable(n: nat, b: Payload) returns (steps: seq<Step>, s: State)
    requires 2 <= n <= MAX_SIZE && ContextPayload(b) && b.mode.Fixed? && IndexOf(b).Full()
    requires b.idx.Valid() && |b.idx.cells| >= 2
    ensures Leads(Init(n), steps, s) && IsFull(s.sys.heap, 0) && !s.sys.heap.payloads[0].idx.Valid()
  {
    var start, s1 := Starts(n, Some(b), Open);
    QuiescentIsBlank(s1);
    var rest;
    rest, s := TwoReadsServed(s1, 0, 0);
    LeadsOn(Init(n), start, s1, rest, s);
    steps := start + rest;
    OverlapPlays(IndexOf(b), true, true, true, true);
    OverlappingReads(IndexOf(b), true, true);
  }

  /** A file and a socket in a caller's hands, under the context. */
  lemma {:induction false} StartsWithBoth(n: nat, b: Payload) returns (steps: seq<Step>, s: State)
    requires 1 <= n <= MAX_SIZE && Installable(Some(b))
    ensures Leads(Init(n), steps, s) && Started(n, Some(b), s) && Usable(s, Thing(1))
  {
    var start, s1 := Starts(n, Some(b), Open);
    var rest;
    rest, s := CreationMakesUsable(s1, PLAIN, PrepSocket, 4);
    LeadsOn(Init(n), start, s1, rest, s);
    steps := start + rest;
  }

  /** With a read in flight: a receive is answered and reaped. */
  lemma {:induction false} ReceiveServed(s: State, f: nat, p: nat) returns (steps: seq<Step>, s': State)
    requires Ready(s) && Lent(s, f, p) && Lends(s.sys.heap.payloads[p]) && Usable(s, Thing(1))
    ensures Leads(s, steps, s') && Ready(s') && Lent(s', f, p) && Lends(s'.sys.heap.payloads[p])
    ensures s.external <= s'.external && s.log <= s'.log
    ensures IndexOf(s'.sys.heap.payloads[p]) == Play(IndexOf(s.sys.heap.payloads[p]), Give)
  {
    var call := Recv(1, 10, NoBuffer);
    var s1 := BorrowerPlays(s, p, call);
    assert f != |s.log| && Lent(s1, f, p);
    steps, s' := ServedBeside(s1, f, |s.log|, p);
    LeadsOn(s, [Borrowing(p, call)], s1, steps, s');
    steps := [Borrowing(p, call)] + steps;
  }

  /** Of two requests in flight the second is answered and reaped; the first stays in flight. */
  lemma {:induction false} ServedBeside(s: State, f: nat, g: nat, p: nat) returns (steps: seq<Step>, s': State)
    requires Inv(s) && s.cq == [] && Lent(s, f, p) && Lent(s, g, p) && f != g && Lends(s.sys.heap.payloads[p])
    ensures Leads(s, steps, s') && Ready(s') && Lent(s', f, p) && Lends(s'.sys.heap.payloads[p])
    ensures s'.external == s.external && s'.log == s.log
    ensures IndexOf(s'.sys.heap.payloads[p]) == Play(IndexOf(s.sys.heap.payloads[p]), Give)
  {
    var answer, s1, i := LentIsAnswered(s, g, p);
    s' := HeadGives(s1, g, i, p);
    LeadsTwice(s, answer, s1, Step.Reap, s');
    steps := [answer] + [Step.Reap];
    FormStays(s.sys.heap, s1.sys.heap, s'.sys.heap, p);
  }

  lemma {:induction false} FormStays(h: Heap, h1: Heap, h2: Heap, p: nat)
    requires p < |h.payloads| && Lends(h.payloads[p]) && PoolKeeps(h, h1) && PoolKeeps(h1, h2)
    ensures p < |h2.payloads| && Lends(h2.payloads[p])
  {
    assert SameForm(h.payloads[p], h1.payloads[p]) && SameForm(h1.payloads[p], h2.payloads[p]);
  }

  /** A receive that is reaped while a read is in flight gives the read's index back, and the
      next read is given it too: from s to s' the first read stays in flight, and the index noted
      for the second is the one noted for the first. */
  lemma {:induction false} IndexInUseTwiceIsReachable(n: nat, b: Payload)
    returns (before: seq<Step>, s: State, after: seq<Step>, s': State, f: nat, g: nat)
    requires 2 <= n <= MAX_SIZE && ContextPayload(b) && b.mode.Fixed? && IndexOf(b).Full()
    ensures Leads(Init(n), before, s) && Leads(s, after, s') && Lent(s, f, 0) && Lent(s', f, 0) && Lent(s', g, 0)
    ensures f != g && s'.log[f].req.op.OpRead? && s'.log[g].req.op.OpRead?
    ensures s'.sys.heap.payloads[0].bufIdx == s.sys.heap.payloads[0].bufIdx
  {
    var s1;
    before, s1 := StartsWithBoth(n, b);
    QuiescentIsBlank(s1);
    s := BorrowerPlays(s1, 0, Read(0, 10));
    LeadsOn(Init(n), before, s1, [Borrowing(0, Read(0, 10))], s);
    before, f := before + [Borrowing(0, Read(0, 10))], |s1.log|;
    after, s', g := ReceiveThenRead(s, f, 0, IndexOf(b));
  }

  lemma {:induction false} ReceiveThenRead(s: State, f: nat, p: nat, x: IndexState)
    returns (steps: seq<Step>, s': State, g: nat)
    requires Ready(s) && Lent(s, f, p) && Lends(s.sys.heap.payloads[p]) && Usable(s, Thing(0)) && Usable(s, Thing(1))
    requires x.Full() && IndexOf(s.sys.heap.payloads[p]) == Play(x, Take) && s.log[f].req.op.OpRead?
    ensures Leads(s, steps, s') && Lent(s', f, p) && Lent(s', g, p) && f != g
    ensures s'.log[f].req.op.OpRead? && s'.log[g].req.op.OpRead?
    ensures s'.sys.heap.payloads[p].bufIdx == s.sys.heap.payloads[p].bufIdx
  {
    var s1;
    steps, s1 := ReceiveServed(s, f, p);
    s' := BorrowerPlays(s1, p, Read(0, 10));
    LeadsOn(s, steps, s1, [Borrowing(p, Read(0, 10))], s');
    steps, g := steps + [Borrowing(p, Read(0, 10))], |s1.log|;
    PopThenPush(x.list);
  }
}
