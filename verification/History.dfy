/** What became of every request: each accepted one is outstanding, reaped or drained; each
    settled future is explained by it; and the references that open and socket calls leave with
    their requests are accounted for one by one. */
module History {
  import opened Core
  import opened Runtime
  import opened Reader
  import opened Requests
  import opened Protocol
  import opened Invariant
  import opened Guarantees
  import opened Pool

  // --------------------------------------------------------------------------- predicates

  /** Request f was accepted and has not left the registry. */
  ghost predicate Outstanding(s: State, f: nat) {
    f < |s.log| && s.Occupied(s.log[f].index) && s.Owner(s.log[f].index) == f
  }

  /** A request has a fate exactly when it was accepted and is no longer in its slot. */
  ghost predicate Tracked(s: State) {
    && (forall i | s.Occupied(i) :: s.Owner(i) !in s.fate && s.Owner(i) < |s.log| && s.log[s.Owner(i)].index == i)
    && (forall f | f in s.fate :: f < |s.log| && s.log[f].index >= 0 && f in s.posted)
    && (forall f | 0 <= f < |s.log| && s.log[f].index >= 0 && f !in s.fate :: Outstanding(s, f))
  }

  /** A request that has met its fate has told its future: the end of the loop if drained, and
      anything but that if reaped. Nobody else settles futures. */
  ghost predicate Told(s: State) {
    && (forall f | f in s.fate :: f < |s.sys.heap.futures| && !s.sys.heap.futures[f].Pending?)
    && (forall f | 0 <= f < |s.sys.heap.futures| && !s.sys.heap.futures[f].Unsettled() ::
          f in s.fate && (s.fate[f].Drained? <==> s.sys.heap.futures[f] == Raised(LoopClosed)))
  }

  /** Request f is an accepted open or socket call. */
  ghost predicate Creation(s: State, f: nat) {
    f < |s.log| && s.log[f].index >= 0 && IsCreation(s.log[f].req.op)
  }

  function Made(req: Request): Obj { CreatedBy(SlotOf(0, req, 0)) }

  /** The reader met the creation's success. */
  ghost predicate TakenOver(s: State, f: nat) {
    f in s.fate && s.fate[f].Reaped? && f in s.posted && s.posted[f].res >= 0
  }

  /** Each creation has an object of its own, and its reference is left exactly until the
      reader meets the creation's success; nothing else is ever left. */
  ghost predicate Books(s: State) {
    && (forall f: nat | Creation(s, f) :: Entered(s, f))
    && (forall f: nat, g: nat | Creation(s, f) && Creation(s, g) && f != g :: Made(s.log[f].req) != Made(s.log[g].req))
    && (forall o | s.left[o] > 0 :: IsMade(s, o))
  }

  /** Some creation made the object. */
  ghost predicate IsMade(s: State, o: Obj) {
    exists f: nat :: Creation(s, f) && Made(s.log[f].req) == o
  }

  ghost predicate Entered(s: State, f: nat)
    requires Creation(s, f)
  {
    var o := Made(s.log[f].req);
    o.Thing? && o.n < s.sys.heap.things && s.left[o] == if TakenOver(s, f) then 0 else 1
  }

  ghost predicate Remembered(s: State) { Tracked(s) && Told(s) && Books(s) }

  // ----------------------------------------------------------------------------- steps

  /** Steps that neither register nor retire a request. */
  lemma {:induction false} QuietRemembers(s: State, s': State)
    requires Remembered(s)
    requires s'.sys.reg.slots == s.sys.reg.slots && s'.log == s.log && s'.fate == s.fate && s'.left == s.left
    requires s'.sys.heap.things == s.sys.heap.things && |s'.sys.heap.futures| == |s.sys.heap.futures|
    requires forall f | f in s.fate :: f in s'.posted && f in s.posted && s'.posted[f] == s.posted[f]
    requires forall f | 0 <= f < |s.sys.heap.futures| ::
               || s'.sys.heap.futures[f] == s.sys.heap.futures[f]
               || s'.sys.heap.futures[f].Cancelled?
    ensures Remembered(s')
  {
    QuietTracked(s, s');
    QuietTold(s, s');
    BooksFrame(s, s');
  }

  lemma {:induction false} QuietTold(s: State, s': State)
    requires Told(s) && s'.fate == s.fate && |s'.sys.heap.futures| == |s.sys.heap.futures|
    requires forall f | 0 <= f < |s.sys.heap.futures| ::
               || s'.sys.heap.futures[f] == s.sys.heap.futures[f]
               || s'.sys.heap.futures[f].Cancelled?
    ensures Told(s')
  {
  }

  lemma {:induction false} QuietTracked(s: State, s': State)
    requires Tracked(s)
    requires s'.sys.reg.slots == s.sys.reg.slots && s'.log == s.log && s'.fate == s.fate
    requires forall f | f in s.fate :: f in s'.posted
    ensures Tracked(s')
  {
    assert forall i :: s'.Occupied(i) ==> s.Occupied(i) && s'.Owner(i) == s.Owner(i);
    forall f | 0 <= f < |s'.log| && s'.log[f].index >= 0 && f !in s'.fate
      ensures Outstanding(s', f)
    {
      assert Outstanding(s, f);
    }
  }

  /** The books do not change when the creations, their success and what they left do not. */
  lemma {:induction false} BooksFrame(s: State, s': State)
    requires Books(s) && s'.left == s.left && s'.sys.heap.things >= s.sys.heap.things
    requires |s'.log| >= |s.log| && forall f | 0 <= f < |s.log| :: s'.log[f] == s.log[f]
    requires forall f: nat | |s.log| <= f < |s'.log| :: !Creation(s', f)
    requires forall f: nat | Creation(s, f) :: TakenOver(s, f) <==> TakenOver(s', f)
    ensures Books(s')
  {
    forall f: nat | Creation(s', f)
      ensures Creation(s, f) && Entered(s', f)
    {
      assert Creation(s, f) && Entered(s, f);
    }
    forall o | s'.left[o] > 0
      ensures IsMade(s', o)
    {
      assert IsMade(s, o);
      var f: nat :| Creation(s, f) && Made(s.log[f].req) == o;
      assert Creation(s', f);
    }
  }

  lemma {:induction false} CompleteRemembers(s: State, f: nat, res: int, data: seq<Byte>, memory: seq<Byte>)
    requires Shaped(s) && Linked(s) && Remembered(s) && CanComplete(s, f, res, data, memory)
    ensures Remembered(AfterComplete(s, f, res, data, memory))
  {
    assert s.Owner(s.log[f].index) == f && f !in s.fate;
    QuietRemembers(s, AfterComplete(s, f, res, data, memory));
  }

  /** Request f leaves slot i and meets its fate. */
  ghost predicate Retires(s: State, s': State, i: int, f: nat, fate: Fate) {
    && s.Occupied(i) && s.Owner(i) == f && f < |s.log| && s.log[f].index == i && f in s.posted
    && s'.sys.reg.slots == s.sys.reg.slots[i := ClearSlot(s.sys.reg.slots[i])]
    && s'.log == s.log && s'.posted == s.posted && s'.fate == s.fate[f := fate]
  }

  lemma {:induction false} RetiresTracked(s: State, s': State, i: int, f: nat, fate: Fate)
    requires Tracked(s) && Retires(s, s', i, f, fate)
    ensures Tracked(s')
  {
    forall g | 0 <= g < |s'.log| && s'.log[g].index >= 0 && g !in s'.fate
      ensures Outstanding(s', g)
    {
      assert Outstanding(s, g) && s.log[g].index != i;
    }
    forall j | s'.Occupied(j)
      ensures s'.Owner(j) !in s'.fate && s'.Owner(j) < |s'.log| && s'.log[s'.Owner(j)].index == j
    {
      assert s.Occupied(j) && j != i;
    }
  }

  lemma {:induction false} RetiresTold(s: State, s': State, f: nat, fate: Fate, st: Future)
    requires Told(s) && f !in s.fate && s'.fate == s.fate[f := fate]
    requires f < |s.sys.heap.futures| && s'.sys.heap.futures == s.sys.heap.futures[f := st] && !st.Pending?
    requires st.Cancelled? || (fate.Drained? <==> st == Raised(LoopClosed))
    ensures Told(s')
  {
  }

  lemma {:induction false} RetiresBooks(s: State, s': State, i: int, f: nat, fate: Fate, spent: multiset<Obj>)
    requires Books(s) && Tracked(s) && Retires(s, s', i, f, fate) && s'.sys.heap.things >= s.sys.heap.things
    requires s'.left == s.left - spent
    requires spent == if Creation(s, f) && fate.Reaped? && s.posted[f].res >= 0
                      then multiset{Made(s.log[f].req)} else multiset{}
    ensures Books(s')
  {
    if spent == multiset{} {
      assert s'.left == s.left;
      BooksFrame(s, s');
    } else {
      TakeOver(s, s', f);
    }
  }

  /** A creation's success takes its reference over; the other creations have other objects. */
  lemma {:induction false} TakeOver(s: State, s': State, f: nat)
    requires Books(s) && Creation(s, f) && f !in s.fate && s'.fate == s.fate[f := Reaped]
    requires s'.log == s.log && s'.posted == s.posted && f in s.posted && s.posted[f].res >= 0
    requires s'.left == s.left - multiset{Made(s.log[f].req)} && s'.sys.heap.things >= s.sys.heap.things
    ensures Books(s')
  {
    forall g: nat | Creation(s', g)
      ensures Entered(s', g)
    {
      assert Creation(s, g) && Entered(s, g);
      assert g != f ==> (TakenOver(s', g) <==> TakenOver(s, g)) && Made(s.log[g].req) != Made(s.log[f].req);
    }
    forall o | s'.left[o] > 0
      ensures IsMade(s', o)
    {
      assert s.left[o] > 0 && IsMade(s, o);
      var g: nat :| Creation(s, g) && Made(s.log[g].req) == o;
      assert Creation(s', g);
    }
  }

  lemma {:induction false} ReapRemembers(s: State)
    requires Inv(s) && Remembered(s) && s.cq != [] && AfterReap(s).Fine?
    ensures Remembered(AfterReap(s).value)
  {
    var s' := AfterReap(s).value;
    if !s.Ours(s.cq[0]) {
      SkipKeeps(s);
      QuietRemembers(s, s');
    } else {
      HeadIsLinked(s);
      var i: nat := s.cq[0].userData;
      var f := s.Owner(i);
      if Failed(s.sys.reg.slots[i].opcode, s.cq[0].res) {
        ReapFails(s, i);
        FailedRemembers(s, s', i, OsError(-s.cq[0].res), Reaped);
      } else {
        ReapKeeps(s);
        var d := SuccessDelivers(s, i);
        DeliveredRemembers(s, s', i, d);
      }
    }
  }

  lemma {:induction false} FailedRemembers(s: State, s': State, i: nat, e: Error, fate: Fate)
    requires AtHead(s, i) && Remembered(s) && FailedWith(s, s', i, e) && s'.fate == s.fate[s.Owner(i) := fate]
    requires if fate.Drained? then e.LoopClosed? else e.OsError? && s.cq[0].res < 0
    ensures Remembered(s')
  {
    var f := s.Owner(i);
    RetiresTracked(s, s', i, f, fate);
    RetiresTold(s, s', f, fate, s'.sys.heap.futures[f]);
    RetiresBooks(s, s', i, f, fate, multiset{});
  }

  lemma {:induction false} DeliveredRemembers(s: State, s': State, i: nat, d: Dispatched)
    requires AtHead(s, i) && Remembered(s) && Delivered(s, s', i, d) && s'.fate == s.fate[s.Owner(i) := Reaped]
    requires !Failed(s.sys.reg.slots[i].opcode, s.cq[0].res)
    ensures Remembered(s')
  {
    var f := s.Owner(i);
    SettleKeeps(d.heap, f, d.delivery.value);
    RetiresTracked(s, s', i, f, Reaped);
    RetiresTold(s, s', f, Reaped, s'.sys.heap.futures[f]);
    RetiresBooks(s, s', i, f, Reaped, Spent(s.sys.reg.slots[i]));
  }

  lemma {:induction false} DrainRemembers(s: State)
    requires Inv(s) && Remembered(s) && s.cq != [] && AfterDrain(s).Fine?
    ensures Remembered(AfterDrain(s).value)
  {
    var s' := AfterDrain(s).value;
    if !s.Ours(s.cq[0]) {
      SkipKeeps(s);
      QuietRemembers(s, s');
    } else {
      HeadIsLinked(s);
      DrainFailsHead(s, s.cq[0].userData);
      FailedRemembers(s, s', s.cq[0].userData, LoopClosed, Drained);
    }
  }

  lemma {:induction false} SubmitRemembers(s: State, ctx: Context, call: Call, taken: bool)
    requires Shaped(s) && Remembered(s) && ContextOk(s.sys.heap, ctx) && AfterSubmit(s, ctx, call, taken).Fine?
    ensures Remembered(AfterSubmit(s, ctx, call, taken).value)
  {
    var l := SubmitOutcome(s, ctx, call, taken);
    if s.sys.reg.free.top >= 0 && taken {
      JoinedRemembers(s, AfterSubmit(s, ctx, call, taken).value, l.index, call, l);
    } else {
      DeclinedRemembers(s, AfterSubmit(s, ctx, call, taken).value, l);
    }
  }

  lemma {:induction false} JoinedRemembers(s: State, s': State, i: int, call: Call, l: Logged)
    requires Remembered(s) && Joined(s, s', i, call, l)
    ensures Remembered(s')
  {
    NewcomerIsUntold(s, s');
    JoinedTracked(s, s', i, call, l);
    JoinedBooks(s, s', i, call, l);
  }

  lemma {:induction false} DeclinedRemembers(s: State, s': State, l: Logged)
    requires Remembered(s) && Declined(s, s', l)
    ensures Remembered(s')
  {
    NewcomerIsUntold(s, s');
    DeclinedTracked(s, s', l);
    BooksFrame(s, s');
  }

  lemma {:induction false} NewcomerIsUntold(s: State, s': State)
    requires Told(s) && s'.fate == s.fate && s'.sys.heap.futures == s.sys.heap.futures + [Pending]
    ensures Told(s')
  {
  }

  lemma {:induction false} DeclinedTracked(s: State, s': State, l: Logged)
    requires Tracked(s) && SameTable(s.sys.reg, s'.sys.reg)
    requires s' == s.(sys := s'.sys, log := s.log + [l]) && l.index == -1
    ensures Tracked(s')
  {
    forall f | 0 <= f < |s'.log| && s'.log[f].index >= 0 && f !in s'.fate
      ensures Outstanding(s', f)
    {
      assert Outstanding(s, f);
    }
    assert forall i :: s'.Occupied(i) ==> s.Occupied(i) && s'.Owner(i) == s.Owner(i);
  }

  lemma {:induction false} JoinedTracked(s: State, s': State, i: int, call: Call, l: Logged)
    requires Tracked(s) && Joined(s, s', i, call, l)
    ensures Tracked(s')
  {
    forall f | 0 <= f < |s'.log| && s'.log[f].index >= 0 && f !in s'.fate
      ensures Outstanding(s', f)
    {
      assert f < |s.log| ==> Outstanding(s, f);
    }
    assert forall j :: s'.Occupied(j) && j != i ==> s.Occupied(j) && s'.Owner(j) == s.Owner(j);
  }

  lemma {:induction false} JoinedBooks(s: State, s': State, i: int, call: Call, l: Logged)
    requires Tracked(s) && Books(s) && Joined(s, s', i, call, l)
    ensures Books(s')
  {
    if Creates(call) {
      var newest := Thing(s.sys.heap.things);
      assert Made(l.req) == newest;
      NewestIsNew(s, newest);
      CreationJoins(s, s', l, newest);
    } else {
      assert s'.left == s.left;
      BooksFrame(s, s');
    }
  }

  lemma {:induction false} NewestIsNew(s: State, newest: Obj)
    requires Books(s) && newest == Thing(s.sys.heap.things)
    ensures s.left[newest] == 0 && forall f: nat | Creation(s, f) :: Made(s.log[f].req) != newest
  {
    forall f: nat | Creation(s, f)
      ensures Made(s.log[f].req) != newest
    {
      assert Entered(s, f);
    }
    assert !IsMade(s, newest);
  }

  lemma {:induction false} CreationJoins(s: State, s': State, l: Logged, newest: Obj)
    requires Books(s) && Tracked(s) && s'.log == s.log + [l] && s'.left == s.left + multiset{newest}
    requires s'.fate == s.fate && s'.posted == s.posted && Made(l.req) == newest == Thing(s.sys.heap.things)
    requires s'.sys.heap.things == s.sys.heap.things + 1 && l.index >= 0 && IsCreation(l.req.op)
    requires s.left[newest] == 0 && forall f: nat | Creation(s, f) :: Made(s.log[f].req) != newest
    ensures Books(s')
  {
    forall f: nat | Creation(s', f)
      ensures Entered(s', f) && (f < |s.log| ==> Creation(s, f))
    {
      if f < |s.log| {
        assert Creation(s, f) && Entered(s, f) && (TakenOver(s, f) <==> TakenOver(s', f));
      } else {
        assert s'.log[f] == l && !TakenOver(s', f);
      }
    }
    forall o | s'.left[o] > 0
      ensures IsMade(s', o)
    {
      if o == newest {
        assert Creation(s', |s.log|);
      } else {
        assert IsMade(s, o);
        var f: nat :| Creation(s, f) && Made(s.log[f].req) == o;
        assert Creation(s', f);
      }
    }
  }

  // ------------------------------------------------------------------------------- runs

  lemma {:induction false} StepRemembers(s: State, step: Step)
    requires Inv(s) && Remembered(s) && Enabled(s, step) && Next(s, step).Fine?
    ensures Remembered(Next(s, step).value)
  {
    match step
    case Submit(ctx, call, taken) => SubmitRemembers(s, ctx, call, taken);
    case Complete(f, res, data, memory) => CompleteRemembers(s, f, res, data, memory);
    case Reap => ReapRemembers(s);
    case Drain => DrainRemembers(s);
    case _ => UserRemembers(s, step);
  }

  lemma {:induction false} UserRemembers(s: State, step: Step)
    requires s.sys.reg.Wf() && Remembered(s) && Enabled(s, step)
    requires step.Stray? || step.Cancel? || step.Retain? || step.Drop? || step.Install?
    ensures Remembered(Next(s, step).value)
  {
    QuietRemembers(s, Next(s, step).value);
  }

  lemma {:induction false} RunRemembers(s: State, steps: seq<Step>, s': State)
    requires Inv(s) && Remembered(s) && Leads(s, steps, s')
    ensures Inv(s') && Remembered(s')
    decreases |steps|
  {
    if steps != [] {
      StepKeeps(s, steps[0]);
      StepRemembers(s, steps[0]);
      RunRemembers(Next(s, steps[0]).value, steps[1..], s');
    }
  }

  lemma {:induction false} ReachableRemembered(n: nat, steps: seq<Step>, s: State)
    requires 1 <= n <= MAX_SIZE && Leads(Init(n), steps, s)
    ensures Inv(s) && Remembered(s)
  {
    InitInv(n);
    assert Remembered(Init(n));
    RunRemembers(Init(n), steps, s);
  }

  ghost predicate IsDrained(s: State, f: nat) { f in s.fate && s.fate[f].Drained? }

  lemma {:induction false} OnlyDrainDrains(s: State, step: Step, f: nat)
    requires s.sys.reg.Wf() && Enabled(s, step) && Next(s, step).Fine? && !step.Drain? && !IsDrained(s, f)
    ensures !IsDrained(Next(s, step).value, f)
  {
  }

  /** Only the drain drains. */
  lemma {:induction false} DrainedByDrain(s: State, steps: seq<Step>, s': State, f: nat) returns (k: nat)
    requires Leads(s, steps, s') && IsDrained(s', f) && !IsDrained(s, f)
    ensures k < |steps| && steps[k].Drain?
    decreases |steps|
  {
    if steps[0].Drain? {
      k := 0;
    } else {
      OnlyDrainDrains(s, steps[0], f);
      k := DrainedByDrain(Next(s, steps[0]).value, steps[1..], s', f);
      k := k + 1;
    }
  }

  // ---------------------------------------------------------------------------- outcomes

  /** The outcome of request f, as its future shows it once it is settled. */
  ghost predicate OwnOutcome(s: State, f: nat)
    requires f < |s.sys.heap.futures| && f < |s.log|
  {
    var st := s.sys.heap.futures[f];
    && f in s.fate && f in s.posted
    && (if s.fate[f].Drained? then st == Raised(LoopClosed) else Explains(s.log[f], s.posted[f], st))
    && (st.Result? && s.log[f].private && Reading(s.log[f].req.op) ==> st.value == Bytes(s.posted[f].data))
  }

  /** Over every run, whatever the order of completions and however indices are reused: a
      settled future shows the outcome of its own request. If that was reaped, it is the error
      or the answer the kernel gave to this very request (for buffers of its own, byte for
      byte what the kernel stored); otherwise it was drained, and the run has a drain. */
  lemma {:induction false} OutcomesAreOwn(n: nat, steps: seq<Step>, s: State, f: nat)
    requires 1 <= n <= MAX_SIZE && Leads(Init(n), steps, s)
    requires f < |s.sys.heap.futures| && !s.sys.heap.futures[f].Unsettled()
    ensures f < |s.log| && OwnOutcome(s, f)
    ensures s.fate[f].Drained? ==> exists k :: 0 <= k < |steps| && steps[k].Drain?
  {
    ReachableRemembered(n, steps, s);
    SettledIsOwn(s, f);
    if s.fate[f].Drained? {
      var k := DrainedByDrain(Init(n), steps, s, f);
    }
  }

  lemma {:induction false} SettledIsOwn(s: State, f: nat)
    requires Shaped(s) && Settled(s) && Tracked(s) && Told(s)
    requires f < |s.sys.heap.futures| && !s.sys.heap.futures[f].Unsettled()
    ensures OwnOutcome(s, f)
  {
  }

  // -------------------------------------------------------------- bytes of shared buffers

  /** The step is the kernel storing data in payload p. */
  ghost predicate Deposits(s: State, step: Step, p: nat) {
    && step.Complete? && step.f < |s.log| && s.log[step.f].req.payload == Some(p)
    && Reading(s.log[step.f].req.op) && step.res >= 0
  }

  ghost predicate Untouched(s: State, steps: seq<Step>, p: nat)
    decreases |steps|
  {
    steps != [] ==>
      && !Deposits(s, steps[0], p)
      && (s.sys.reg.Wf() && Enabled(s, steps[0]) && Next(s, steps[0]).Fine? ==>
            Untouched(Next(s, steps[0]).value, steps[1..], p))
  }

  ghost predicate SameBytes(h: Heap, h': Heap, p: nat) {
    && p < |h.payloads| <= |h'.payloads|
    && h'.payloads[p].kind == h.payloads[p].kind
    && h'.payloads[p].linear == h.payloads[p].linear && h'.payloads[p].vector == h.payloads[p].vector
  }

  lemma {:induction false} StepKeepsBytes(s: State, step: Step, p: nat)
    requires Shaped(s) && Linked(s) && Queued(s) && Enabled(s, step) && Next(s, step).Fine?
    requires p < |s.sys.heap.payloads| && !Deposits(s, step, p)
    ensures SameBytes(s.sys.heap, Next(s, step).value.sys.heap, p)
  {
    match step
    case Submit(ctx, call, taken) => SubmitKeepsBytes(s, ctx, call, taken, p);
    case Complete(f, res, data, memory) => OtherKeepsBytes(s, f, res, data, memory, p);
    case Reap => ReapKeepsBytes(s, p);
    case Drain => DrainPlays(s.sys, s.cq[0]);
    case _ =>
  }

  lemma {:induction false} SubmitKeepsBytes(s: State, ctx: Context, call: Call, taken: bool, p: nat)
    requires Shaped(s) && ContextOk(s.sys.heap, ctx) && !CallCrashes(s, ctx, call) && p < |s.sys.heap.payloads|
    ensures AfterSubmit(s, ctx, call, taken).Fine?
    ensures SameBytes(s.sys.heap, AfterSubmit(s, ctx, call, taken).value.sys.heap, p)
  {
    var _ := SubmitOutcome(s, ctx, call, taken);
  }

  lemma {:induction false} OtherKeepsBytes(s: State, f: nat, res: int, data: seq<Byte>, memory: seq<Byte>, p: nat)
    requires CanComplete(s, f, res, data, memory) && p < |s.sys.heap.payloads|
    requires !Deposits(s, Complete(f, res, data, memory), p)
    ensures SameBytes(s.sys.heap, AfterComplete(s, f, res, data, memory).sys.heap, p)
  {
  }

  lemma {:induction false} ReapKeepsBytes(s: State, p: nat)
    requires Shaped(s) && Linked(s) && Queued(s) && s.cq != [] && AfterReap(s).Fine? && p < |s.sys.heap.payloads|
    ensures SameBytes(s.sys.heap, AfterReap(s).value.sys.heap, p)
  {
    if s.Ours(s.cq[0]) {
      HeadIsLinked(s);
      var i: nat := s.cq[0].userData;
      ReapPool(s.sys, i, s.cq[0].res);
      if s.sys.reg.slots[i].payload.Some? {
        ReleaseKeeps(s.sys.heap, s.sys.reg.slots[i].payload.value);
      }
    }
  }

  /** What has been answered stays in the history as it was. */
  ghost predicate SameAnswer(s: State, s': State, f: nat) {
    && f < |s.log| <= |s'.log| && s'.log[f] == s.log[f] && f !in s'.inFlight
    && f in s.posted && f in s'.posted && s'.posted[f] == s.posted[f]
  }

  lemma {:induction false} StepKeepsAnswer(s: State, step: Step, f: nat)
    requires Inv(s) && Enabled(s, step) && Next(s, step).Fine? && SameAnswer(s, s, f)
    ensures SameAnswer(s, Next(s, step).value, f)
  {
    match step
    case Submit(ctx, call, taken) =>
      SubmitKeeps(s, ctx, call, taken);
      var _ := SubmitOutcome(s, ctx, call, taken);
    case _ =>
  }

  lemma {:induction false} RunKeepsBytes(s: State, steps: seq<Step>, s': State, f: nat, p: nat)
    requires Inv(s) && Leads(s, steps, s') && Untouched(s, steps, p) && SameAnswer(s, s, f) && p < |s.sys.heap.payloads|
    ensures SameBytes(s.sys.heap, s'.sys.heap, p) && SameAnswer(s, s', f)
    decreases |steps|
  {
    if steps != [] {
      StepKeeps(s, steps[0]);
      StepKeepsBytes(s, steps[0], p);
      StepKeepsAnswer(s, steps[0], f);
      RunKeepsBytes(Next(s, steps[0]).value, steps[1..], s', f, p);
    }
  }

  /** The bytes delivered are those the kernel stored, in a payload of any owner, as long as it did
      not select the buffer itself and stores nothing else in the payload between the answer and
      the reap: whatever else happens there, and however long it takes. */
  lemma {:induction false} UntouchedBytesAreOwn(s: State, f: nat, res: int, data: seq<Byte>, memory: seq<Byte>,
                             steps: seq<Step>, s1: State, s': State)
    requires Inv(s) && CanComplete(s, f, res, data, memory) && Reading(s.log[f].req.op) && res >= 0
    requires !Selected(s.sys.heap.payloads[s.log[f].req.payload.value])
    requires var s0 := AfterComplete(s, f, res, data, memory);
             Leads(s0, steps, s1) && Untouched(s0, steps, s.log[f].req.payload.value)
    requires s1.sys.reg.Wf() && s1.cq != [] && s1.Ours(s1.cq[0]) && s1.Owns(s1.cq[0], f) && AfterReap(s1) == Fine(s')
    requires f < |s1.sys.heap.futures| && s1.sys.heap.futures[f].Pending?
    ensures f < |s'.sys.heap.futures| && s'.sys.heap.futures[f].Result?
    ensures s'.sys.heap.futures[f].value == Bytes(data)
  {
    var p, s0 := s.log[f].req.payload.value, AfterComplete(s, f, res, data, memory);
    AnswerIsStored(s, f, res, data, memory);
    RunKeeps(s0, steps, s1);
    RunKeepsBytes(s0, steps, s1, f, p);
    HeadIsLinked(s1);
    ReapKeeps(s1);
    HeadReads(s1, s1.cq[0].userData, data);
  }

  lemma {:induction false} AnswerIsStored(s: State, f: nat, res: int, data: seq<Byte>, memory: seq<Byte>)
    requires Inv(s) && CanComplete(s, f, res, data, memory) && Reading(s.log[f].req.op) && res >= 0
    requires !Selected(s.sys.heap.payloads[s.log[f].req.payload.value])
    ensures var s0, p := AfterComplete(s, f, res, data, memory), s.log[f].req.payload.value;
            && Inv(s0) && SameAnswer(s0, s0, f) && s0.posted[f] == Posted(res, data) && s0.log == s.log
            && p < |s0.sys.heap.payloads| && res <= Room(s0.sys.heap.payloads[p])
            && (Indigestible(s.sys.heap, s.log[f].req) || Content(s0.sys.heap.payloads[p], res) == data)
  {
    CompleteKeeps(s, f, res, data, memory);
    assert SlotLinked(s, s.log[f].index);
    var b := s.sys.heap.payloads[s.log[f].req.payload.value];
    DepositKeepsForm(b, data, memory);
  }

  /** At the head of the queue, with its bytes still in place. */
  lemma {:induction false} HeadReads(s: State, i: nat, data: seq<Byte>)
    requires AtHead(s, i) && AfterReap(s).Fine? && !HeadIsIndigestible(s)
    requires var f := s.Owner(i);
             && s.sys.heap.futures[f].Pending? && s.posted[f] == Posted(|data|, data)
             && Reading(s.log[f].req.op) && Stored(s.sys.heap, s.log[f].(private := true), s.posted[f])
    ensures var f, h' := s.Owner(i), AfterReap(s).value.sys.heap;
            f < |h'.futures| && h'.futures[f].Result? && h'.futures[f].value == Bytes(data)
  {
    var f := s.Owner(i);
    var l, res := s.log[f], s.cq[0].res;
    ReapUnfolds(s.sys, i, res);
    DispatchAnswers(s.sys.heap, l.(private := true), f, i, s.posted[f]);
    var d := Dispatch(s.sys.heap, SlotOf(f, l.req, i), res).value;
    DispatchKeepsFutures(s.sys.heap, SlotOf(f, l.req, i), res);
    SettleKeeps(d.heap, f, d.delivery.value);
    RemoveKeepsFutures(System(s.sys.reg.(slots := s.sys.reg.slots[i := d.slot]), Settle(d.heap, f, d.delivery)), i);
  }

  /** No request is forgotten and none is handled twice: one that was accepted is outstanding,
      in flight or queued, if and only if it has met no fate; and then its future is no longer
      pending. */
  lemma {:induction false} NoRequestIsForgotten(n: nat, steps: seq<Step>, s: State, f: nat)
    requires 1 <= n <= MAX_SIZE && Leads(Init(n), steps, s)
    requires f < |s.log| && s.log[f].index >= 0
    ensures f in s.fate <==> !Outstanding(s, f)
    ensures Outstanding(s, f) ==> f in s.inFlight || InQueue(s.cq, s.log[f].index)
    ensures f in s.fate ==> f < |s.sys.heap.futures| && !s.sys.heap.futures[f].Pending?
  {
    ReachableRemembered(n, steps, s);
    assert Outstanding(s, f) ==> SlotLinked(s, s.log[f].index);
  }

  // ------------------------------------------------------------------------ what is left

  /** The object of a creation that failed, was drained, or is still outstanding. */
  ghost predicate Lost(s: State, o: Obj) {
    exists f: nat :: Creation(s, f) && Made(s.log[f].req) == o && !TakenOver(s, f)
  }

  lemma {:induction false} LeftIsLost(s: State, o: Obj)
    requires Books(s)
    ensures s.left[o] == if Lost(s, o) then 1 else 0
  {
    if IsMade(s, o) {
      var f: nat :| Creation(s, f) && Made(s.log[f].req) == o;
      assert Entered(s, f);
      if Lost(s, o) {
        var g: nat :| Creation(s, g) && Made(s.log[g].req) == o && !TakenOver(s, g);
        assert Entered(s, g);
      }
    }
  }

  /** Over every run, every reference is a slot's, a result's or a caller's, except one on the
      object of each creation the reader has not met the success of. */
  lemma {:induction false} EveryReferenceIsAccounted(n: nat, steps: seq<Step>, s: State, o: Obj)
    requires 1 <= n <= MAX_SIZE && Leads(Init(n), steps, s)
    ensures s.sys.heap.refs[o] ==
            Held(s.sys.reg.slots, o) + Results(s.sys.heap.futures, o) + s.external[o] + (if Lost(s, o) then 1 else 0)
  {
    ReachableRemembered(n, steps, s);
    LeftIsLost(s, o);
    assert s.sys.heap.refs[o] == Share(s, o);
  }
}
