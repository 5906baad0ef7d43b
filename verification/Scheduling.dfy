/** One iteration of the loop's scheduling: how long to wait, which timers become ready, and the
    bounded drain of the ready queue; and what holds over any number of iterations. */
module Scheduling {
  import opened TimerHeap

  /** A handle that has left the ready queue at time `at`: run, or skipped as cancelled. */
  datatype Disposal = Disposal(handle: Handle, at: real, ran: bool)

  datatype Queues = Queues(
    scheduled: seq<Handle>,
    ready: seq<Handle>,
    done: seq<Disposal>,
    cancelled: set<nat>,
    created: seq<Handle>)

  /** What a callback may do: schedule handles for soon, set timers, cancel handles. */
  datatype Effect = Effect(soon: nat, later: seq<real>, cancels: set<nat>)

  function AddSoon(q: Queues, n: nat): Queues
    decreases n
  {
    if n == 0 then q else
      var h := Handle(|q.created|, false, 0.0);
      AddSoon(q.(ready := q.ready + [h], created := q.created + [h]), n - 1)
  }

  function AddLater(q: Queues, whens: seq<real>): Queues
    decreases |whens|
  {
    if whens == [] then q else
      var h := Handle(|q.created|, true, whens[0]);
      AddLater(q.(scheduled := Push(q.scheduled, h), created := q.created + [h]), whens[1..])
  }

  function Perform(q: Queues, e: Effect): Queues {
    var q1 := AddLater(AddSoon(q, e.soon), e.later);
    q1.(cancelled := q1.cancelled + e.cancels)
  }

  /** promote_scheduled: pop the root while its deadline lies before `end`. */
  function Promote(q: Queues, end: real): Queues
    decreases |q.scheduled|
  {
    if q.scheduled == [] || q.scheduled[0].when >= end then q
    else Promote(q.(scheduled := Pop(q.scheduled), ready := q.ready + [q.scheduled[0]]), end)
  }

  /** Take the handle at the front: run its callback unless it has been cancelled. */
  function DrainFirst(q: Queues, now: real, fx: nat -> Effect): Queues
    requires q.ready != []
  {
    var h := q.ready[0];
    var ran := h.id !in q.cancelled;
    var q1 := q.(ready := q.ready[1..], done := q.done + [Disposal(h, now, ran)]);
    if ran then Perform(q1, fx(h.id)) else q1
  }

  /** drain_ready: n handles from the front; a callback's effects depend on its handle. */
  function Drain(q: Queues, n: nat, now: real, fx: nat -> Effect): Queues
    decreases n
  {
    if n == 0 || q.ready == [] then q else Drain(DrainFirst(q, now, fx), n - 1, now, fx)
  }

  /** _run_once after the wait: the reader's callbacks, then promotion, then one drain; `now` is
      the clock's reading at the promotion. */
  function RunOnce(q: Queues, io: Effect, now: real, resolution: real, fx: nat -> Effect): Queues {
    var q1 := Promote(Perform(q, io), now + resolution);
    Drain(q1, |q1.ready|, now, fx)
  }

  // -------------------------------------------------------------------------- invariant

  function Handles(done: seq<Disposal>): seq<Handle> {
    if done == [] then [] else Handles(done[..|done| - 1]) + [done[|done| - 1].handle]
  }

  lemma HandlesAppend(done: seq<Disposal>, d: Disposal)
    ensures Handles(done + [d]) == Handles(done) + [d.handle]
  {
    assert (done + [d])[..|done|] == done;
  }

  /** Every handle ever created is in exactly one of scheduled, ready and done, once. */
  ghost predicate Conserved(q: Queues) {
    && multiset(q.scheduled) + multiset(q.ready) + multiset(Handles(q.done)) == multiset(q.created)
    && (forall k | 0 <= k < |q.created| :: q.created[k].id == k)
  }

  ghost predicate AllTimers(s: seq<Handle>) { forall k | 0 <= k < |s| :: s[k].timer }

  ghost predicate NoTimers(s: seq<Handle>) { forall k | 0 <= k < |s| :: !s[k].timer }

  /** No timer ran or was skipped before its deadline minus the clock's resolution. */
  ghost predicate Punctual(done: seq<Disposal>, resolution: real) {
    forall k | 0 <= k < |done| && done[k].handle.timer :: done[k].handle.when < done[k].at + resolution
  }

  /** What holds between iterations. */
  ghost predicate Sound(q: Queues, resolution: real) {
    && Conserved(q) && IsHeap(q.scheduled) && AllTimers(q.scheduled) && NoTimers(q.ready)
    && Punctual(q.done, resolution)
  }

  lemma {:induction false} AddSoonAppends(q: Queues, n: nat)
    ensures var q' := AddSoon(q, n);
            && q' == q.(ready := q'.ready, created := q'.created)
            && q.ready <= q'.ready && NoTimers(q'.ready[|q.ready|..])
    decreases n
  {
    if n > 0 {
      var h := Handle(|q.created|, false, 0.0);
      var q1 := q.(ready := q.ready + [h], created := q.created + [h]);
      AddSoonAppends(q1, n - 1);
      var q' := AddSoon(q, n);
      assert q'.ready[|q.ready|..] == [h] + q'.ready[|q1.ready|..];
    }
  }

  lemma {:induction false} AddSoonConserves(q: Queues, n: nat)
    requires Conserved(q)
    ensures Conserved(AddSoon(q, n))
    decreases n
  {
    if n > 0 {
      var h := Handle(|q.created|, false, 0.0);
      OneMoreConserves(q, h);
      AddSoonConserves(q.(ready := q.ready + [h], created := q.created + [h]), n - 1);
    }
  }

  lemma OneMoreConserves(q: Queues, h: Handle)
    requires Conserved(q) && h.id == |q.created|
    ensures Conserved(q.(ready := q.ready + [h], created := q.created + [h]))
  {
    assert multiset(q.ready + [h]) == multiset(q.ready) + multiset{h};
    assert multiset(q.created + [h]) == multiset(q.created) + multiset{h};
  }

  lemma {:induction false} AddLaterKeeps(q: Queues, whens: seq<real>)
    requires Conserved(q)
    ensures var q' := AddLater(q, whens);
            && Conserved(q') && q' == q.(scheduled := q'.scheduled, created := q'.created)
            && (IsHeap(q.scheduled) ==> IsHeap(q'.scheduled))
            && (AllTimers(q.scheduled) ==> AllTimers(q'.scheduled))
    decreases |whens|
  {
    if whens != [] {
      var h := Handle(|q.created|, true, whens[0]);
      var q1 := q.(scheduled := Push(q.scheduled, h), created := q.created + [h]);
      assert multiset(q1.created) == multiset(q.created) + multiset{h};
      if IsHeap(q.scheduled) {
        PushKeepsHeap(q.scheduled, h);
      }
      if AllTimers(q.scheduled) {
        PushedAreTimers(q.scheduled, h);
      }
      AddLaterKeeps(q1, whens[1..]);
    }
  }

  lemma PushedAreTimers(s: seq<Handle>, h: Handle)
    requires AllTimers(s) && h.timer
    ensures AllTimers(Push(s, h))
  {
    var r := Push(s, h);
    forall k | 0 <= k < |r|
      ensures r[k].timer
    {
      assert r[k] in multiset(r);
      assert r[k] in multiset(s) || r[k] == h;
    }
  }

  /** A callback only adds: it appends to the ready queue, and keeps heap and conservation. */
  lemma PerformKeeps(q: Queues, e: Effect)
    requires Conserved(q)
    ensures var q' := Perform(q, e);
            && Conserved(q') && q'.done == q.done && q.cancelled <= q'.cancelled
            && q.ready <= q'.ready && NoTimers(q'.ready[|q.ready|..])
            && (IsHeap(q.scheduled) ==> IsHeap(q'.scheduled))
            && (AllTimers(q.scheduled) ==> AllTimers(q'.scheduled))
  {
    AddSoonAppends(q, e.soon);
    AddSoonConserves(q, e.soon);
    AddLaterKeeps(AddSoon(q, e.soon), e.later);
  }

  // -------------------------------------------------------------------------- promotion

  ghost predicate Before(s: seq<Handle>, end: real) { forall k | 0 <= k < |s| :: s[k].when < end }

  ghost predicate NotBefore(s: seq<Handle>, end: real) { forall k | 0 <= k < |s| :: s[k].when >= end }

  ghost predicate Nondecreasing(s: seq<Handle>) { forall j, k | 0 <= j < k < |s| :: s[j].when <= s[k].when }

  /** The roots popped, in order, and the heap left behind. */
  function Due(s: seq<Handle>, end: real): seq<Handle>
    decreases |s|
  {
    if s == [] || s[0].when >= end then [] else [s[0]] + Due(Pop(s), end)
  }

  function Left(s: seq<Handle>, end: real): seq<Handle>
    decreases |s|
  {
    if s == [] || s[0].when >= end then s else Left(Pop(s), end)
  }

  lemma PromoteUnfolds(q: Queues, end: real)
    requires q.scheduled != []
    ensures Promote(q, end) ==
            if q.scheduled[0].when >= end then q
            else Promote(q.(scheduled := Pop(q.scheduled), ready := q.ready + [q.scheduled[0]]), end)
  {
  }

  lemma {:induction false} PromoteSplits(q: Queues, end: real)
    ensures Promote(q, end) == q.(scheduled := Left(q.scheduled, end), ready := q.ready + Due(q.scheduled, end))
    decreases |q.scheduled|
  {
    if q.scheduled == [] || q.scheduled[0].when >= end {
      assert q.ready + [] == q.ready;
    } else {
      var root := q.scheduled[0];
      PromoteSplits(q.(scheduled := Pop(q.scheduled), ready := q.ready + [root]), end);
      Regroup(q.ready, root, Due(Pop(q.scheduled), end));
    }
  }

  lemma Regroup(a: seq<Handle>, h: Handle, b: seq<Handle>)
    ensures (a + [h]) + b == a + ([h] + b)
  {
  }

  lemma ConsOrdered(h: Handle, rest: seq<Handle>, end: real)
    requires Before(rest, end) && Nondecreasing(rest) && h.when < end && NotBefore(rest, h.when)
    ensures Before([h] + rest, end) && Nondecreasing([h] + rest)
  {
  }

  lemma DueAboveRoot(s: seq<Handle>, end: real)
    requires s != [] && IsHeap(s)
    ensures NotBefore(Due(Pop(s), end), s[0].when)
  {
    PopTakesRoot(s);
    DueConserves(Pop(s), end);
    var rest, left := Due(Pop(s), end), Left(Pop(s), end);
    assert multiset(rest) + multiset(left) + multiset{s[0]} == multiset(s);
    forall k | 0 <= k < |rest|
      ensures s[0].when <= rest[k].when
    {
      RootBelowRest(s, rest[k], rest, left);
    }
  }

  lemma {:induction false} DueConserves(s: seq<Handle>, end: real)
    requires IsHeap(s)
    ensures multiset(Due(s, end)) + multiset(Left(s, end)) == multiset(s) && IsHeap(Left(s, end))
    decreases |s|
  {
    if s != [] && s[0].when < end {
      PopTakesRoot(s);
      DueConserves(Pop(s), end);
      assert multiset([s[0]] + Due(Pop(s), end)) == multiset{s[0]} + multiset(Due(Pop(s), end));
    }
  }

  lemma {:induction false} DueIsOrdered(s: seq<Handle>, end: real)
    requires IsHeap(s)
    ensures Before(Due(s, end), end) && Nondecreasing(Due(s, end)) && NotBefore(Left(s, end), end)
    decreases |s|
  {
    if s == [] || s[0].when >= end {
      forall k | 0 <= k < |s|
        ensures s[k].when >= end
      {
        RootIsEarliest(s, k);
      }
    } else {
      PopTakesRoot(s);
      DueIsOrdered(Pop(s), end);
      DueAboveRoot(s, end);
      ConsOrdered(s[0], Due(Pop(s), end), end);
    }
  }

  /** Promotion moves exactly the handles due before `end`, in nondecreasing order of deadline,
      to the back of the ready queue, although it only ever looks at the root; what is left is
      a heap of later handles. */
  lemma PromotesExactlyTheDue(q: Queues, end: real)
    requires IsHeap(q.scheduled)
    ensures var q' := Promote(q, end);
            && q' == q.(scheduled := q'.scheduled, ready := q'.ready) && q.ready <= q'.ready
            && (var moved := q'.ready[|q.ready|..];
                && multiset(moved) + multiset(q'.scheduled) == multiset(q.scheduled)
                && Before(moved, end) && Nondecreasing(moved))
            && NotBefore(q'.scheduled, end) && IsHeap(q'.scheduled)
  {
    PromoteSplits(q, end);
    DueConserves(q.scheduled, end);
    DueIsOrdered(q.scheduled, end);
    assert Promote(q, end).ready[|q.ready|..] == Due(q.scheduled, end);
  }

  /** Whatever stays or follows comes from the heap, so not before its root. */
  lemma RootBelowRest(s: seq<Handle>, h: Handle, rest: seq<Handle>, left: seq<Handle>)
    requires s != [] && IsHeap(s) && h in rest
    requires multiset(rest) + multiset(left) + multiset{s[0]} == multiset(s)
    ensures s[0].when <= h.when
  {
    assert h in multiset(rest);
    assert h in multiset(s);
    var k :| 0 <= k < |s| && s[k] == h;
    RootIsEarliest(s, k);
  }

  // ------------------------------------------------------------------------------ drain

  lemma FirstKeeps(q: Queues, now: real, fx: nat -> Effect)
    requires q.ready != [] && Conserved(q)
    ensures var q2 := DrainFirst(q, now, fx);
            && Conserved(q2) && q.ready[1..] <= q2.ready && NoTimers(q2.ready[|q.ready| - 1..])
            && q2.done == q.done + [Disposal(q.ready[0], now, q.ready[0].id !in q.cancelled)]
            && (IsHeap(q.scheduled) ==> IsHeap(q2.scheduled)) && (AllTimers(q.scheduled) ==> AllTimers(q2.scheduled))
  {
    var h := q.ready[0];
    var q1 := q.(ready := q.ready[1..], done := q.done + [Disposal(h, now, h.id !in q.cancelled)]);
    HandlesAppend(q.done, Disposal(h, now, h.id !in q.cancelled));
    assert q.ready == [h] + q.ready[1..];
    assert Conserved(q1);
    PerformKeeps(q1, fx(h.id));
  }

  lemma FirstDisposes(q: Queues, now: real, fx: nat -> Effect)
    requires q.ready != []
    ensures var q2 := DrainFirst(q, now, fx);
            && q2.done == q.done + [Disposal(q.ready[0], now, q.ready[0].id !in q.cancelled)]
            && q.ready[1..] <= q2.ready && q.cancelled <= q2.cancelled
  {
    var h := q.ready[0];
    var q1 := q.(ready := q.ready[1..], done := q.done + [Disposal(h, now, h.id !in q.cancelled)]);
    PerformAdds(q1, fx(h.id));
  }

  /** One drain disposes of exactly the handles it found, in FIFO order, however many new ones
      the callbacks append. */
  lemma {:induction false} DrainDisposesSnapshot(q: Queues, n: nat, now: real, fx: nat -> Effect)
    requires n <= |q.ready|
    ensures Handles(Drain(q, n, now, fx).done) == Handles(q.done) + q.ready[..n]
    decreases n
  {
    if n == 0 {
      assert q.ready[..0] == [];
    } else {
      FirstDisposes(q, now, fx);
      var q2 := DrainFirst(q, now, fx);
      HandlesAppend(q.done, q2.done[|q.done|]);
      DrainDisposesSnapshot(q2, n - 1, now, fx);
      SameFront(q.ready, q2.ready, n);
      Regroup(Handles(q.done), q.ready[0], q.ready[1..n]);
    }
  }

  lemma {:induction false} DrainStamps(q: Queues, n: nat, now: real, fx: nat -> Effect)
    ensures q.done <= Drain(q, n, now, fx).done
    ensures forall k | |q.done| <= k < |Drain(q, n, now, fx).done| :: Drain(q, n, now, fx).done[k].at == now
    decreases n
  {
    if n > 0 && q.ready != [] {
      FirstDisposes(q, now, fx);
      DrainStamps(DrainFirst(q, now, fx), n - 1, now, fx);
    }
  }

  lemma SameFront(ready: seq<Handle>, after: seq<Handle>, n: nat)
    requires 1 <= n <= |ready| && ready[1..] <= after
    ensures after[..n - 1] == ready[1..n] && ready[..n] == [ready[0]] + ready[1..n]
  {
  }

  /** The handles it did not find at its start wait behind, in order; heap and conservation
      survive every callback. */
  lemma {:induction false} DrainKeeps(q: Queues, n: nat, now: real, fx: nat -> Effect)
    requires n <= |q.ready| && Conserved(q)
    ensures var q' := Drain(q, n, now, fx);
            && q.ready[n..] <= q'.ready && NoTimers(q'.ready[|q.ready| - n..]) && Conserved(q')
            && (IsHeap(q.scheduled) ==> IsHeap(q'.scheduled)) && (AllTimers(q.scheduled) ==> AllTimers(q'.scheduled))
    decreases n
  {
    if n == 0 {
      assert q.ready[0..] == q.ready && q.ready[|q.ready|..] == [];
    } else {
      FirstKeeps(q, now, fx);
      var q2 := DrainFirst(q, now, fx);
      DrainKeeps(q2, n - 1, now, fx);
      DrainTail(q, q2, Drain(q, n, now, fx), n);
    }
  }

  lemma DrainTail(q: Queues, q2: Queues, q': Queues, n: nat)
    requires 1 <= n <= |q.ready| && q.ready[1..] <= q2.ready && NoTimers(q2.ready[|q.ready| - 1..])
    requires q2.ready[n - 1..] <= q'.ready && NoTimers(q'.ready[|q2.ready| - (n - 1)..])
    ensures q.ready[n..] <= q'.ready && NoTimers(q'.ready[|q.ready| - n..])
  {
    var m, m2 := |q.ready| - n, |q2.ready| - (n - 1);
    forall k | 0 <= k < |q'.ready| - m
      ensures !q'.ready[m..][k].timer
    {
      if m + k < m2 {
        assert q'.ready[m + k] == q2.ready[n - 1..][m + k] == q2.ready[|q.ready| - 1..][k];
      } else {
        assert q'.ready[m + k] == q'.ready[m2..][m + k - m2];
      }
    }
  }

  /** Whatever the callbacks of one drain append is disposed of, in order, by the next. */
  lemma NextDrainDisposesTheNew(q: Queues, now: real, later: real, fx: nat -> Effect, gx: nat -> Effect)
    ensures var q1 := Drain(q, |q.ready|, now, fx);
            Handles(Drain(q1, |q1.ready|, later, gx).done) == Handles(q.done) + q.ready + q1.ready
  {
    var q1 := Drain(q, |q.ready|, now, fx);
    DrainDisposesSnapshot(q, |q.ready|, now, fx);
    DrainDisposesSnapshot(q1, |q1.ready|, later, gx);
    assert q.ready[..|q.ready|] == q.ready && q1.ready[..|q1.ready|] == q1.ready;
  }

  /** A handle is run exactly when it is not cancelled at the moment it reaches the front. */
  lemma {:induction false} CancelledNeverRuns(q: Queues, n: nat, now: real, fx: nat -> Effect, id: nat)
    requires id in q.cancelled
    ensures var q' := Drain(q, n, now, fx);
            && id in q'.cancelled && q.done <= q'.done
            && forall k | |q.done| <= k < |q'.done| && q'.done[k].handle.id == id :: !q'.done[k].ran
    decreases n
  {
    if n > 0 && q.ready != [] {
      FirstDisposes(q, now, fx);
      CancelledNeverRuns(DrainFirst(q, now, fx), n - 1, now, fx, id);
    }
  }

  lemma {:induction false} AddLaterAdds(q: Queues, whens: seq<real>)
    ensures var q' := AddLater(q, whens); q'.done == q.done && q'.cancelled == q.cancelled && q'.ready == q.ready
    decreases |whens|
  {
    if whens != [] {
      var h := Handle(|q.created|, true, whens[0]);
      AddLaterAdds(q.(scheduled := Push(q.scheduled, h), created := q.created + [h]), whens[1..]);
    }
  }

  lemma PerformAdds(q: Queues, e: Effect)
    ensures Perform(q, e).done == q.done && q.ready <= Perform(q, e).ready && q.cancelled <= Perform(q, e).cancelled
  {
    AddSoonAppends(q, e.soon);
    AddLaterAdds(AddSoon(q, e.soon), e.later);
  }

  // ----------------------------------------------------------------------------- replay

  /** The effects of the handles recorded as run, in order. */
  function EffectsOf(done: seq<Disposal>, fx: nat -> Effect): seq<Effect>
    decreases |done|
  {
    if done == [] then []
    else (if done[0].ran then [fx(done[0].handle.id)] else []) + EffectsOf(done[1..], fx)
  }

  function PerformAll(q: Queues, es: seq<Effect>): Queues
    decreases |es|
  {
    if es == [] then q else PerformAll(Perform(q, es[0]), es[1..])
  }

  function Shifted(q: Queues, front: seq<Handle>, done: seq<Disposal>): Queues {
    q.(ready := front + q.ready, done := done)
  }

  lemma {:induction false} AddSoonShifted(q: Queues, front: seq<Handle>, done: seq<Disposal>, n: nat)
    ensures AddSoon(Shifted(q, front, done), n) == Shifted(AddSoon(q, n), front, done)
    decreases n
  {
    if n > 0 {
      var h := Handle(|q.created|, false, 0.0);
      assert (front + q.ready) + [h] == front + (q.ready + [h]);
      AddSoonShifted(q.(ready := q.ready + [h], created := q.created + [h]), front, done, n - 1);
    }
  }

  lemma {:induction false} AddLaterShifted(q: Queues, front: seq<Handle>, done: seq<Disposal>, whens: seq<real>)
    ensures AddLater(Shifted(q, front, done), whens) == Shifted(AddLater(q, whens), front, done)
    decreases |whens|
  {
    if whens != [] {
      var h := Handle(|q.created|, true, whens[0]);
      AddLaterShifted(q.(scheduled := Push(q.scheduled, h), created := q.created + [h]), front, done, whens[1..]);
    }
  }

  /** What a callback does does not depend on who waits before it or has gone before it. */
  lemma {:induction false} PerformShifted(q: Queues, front: seq<Handle>, done: seq<Disposal>, e: Effect)
    ensures Perform(Shifted(q, front, done), e) == Shifted(Perform(q, e), front, done)
  {
    AddSoonShifted(q, front, done, e.soon);
    AddLaterShifted(AddSoon(q, e.soon), front, done, e.later);
  }

  lemma {:induction false} PerformAllShifted(q: Queues, done: seq<Disposal>, es: seq<Effect>)
    ensures PerformAll(q.(done := done), es) == PerformAll(q, es).(done := done)
    decreases |es|
  {
    if es != [] {
      assert Shifted(q, [], done) == q.(done := done);
      PerformShifted(q, [], done, es[0]);
      assert Shifted(Perform(q, es[0]), [], done) == Perform(q, es[0]).(done := done);
      PerformAllShifted(Perform(q, es[0]), done, es[1..]);
    }
  }

  /** Entry k says that `h` has run if and only if the effects of those run before have not
      cancelled it. */
  ghost predicate Recorded(rest: Queues, h: Handle, now: real, fx: nat -> Effect, record: seq<Disposal>, k: nat)
    requires k < |record|
  {
    record[k] == Disposal(h, now, h.id !in PerformAll(rest, EffectsOf(record[..k], fx)).cancelled)
  }

  /** The record of a drain that found n handles, and the queues after it, from the queues without
      those handles: handle k is recorded as run if and only if the effects of those run before it
      have not cancelled it, and the queues are what the effects of those recorded as run make. */
  ghost predicate Replays(q: Queues, n: nat, now: real, fx: nat -> Effect, record: seq<Disposal>, q': Queues)
    requires n <= |q.ready|
  {
    var rest := q.(ready := q.ready[n..]);
    && |record| == n && q'.done == q.done + record
    && (forall k | 0 <= k < n :: Recorded(rest, q.ready[k], now, fx, record, k))
    && q' == PerformAll(rest, EffectsOf(record, fx)).(done := q'.done)
  }

  /** One drain is a replay: exactly the effects of the handles recorded as run, in order, and
      nothing of those that were not. */
  lemma {:induction false} DrainReplays(q: Queues, n: nat, now: real, fx: nat -> Effect)
    returns (record: seq<Disposal>)
    requires n <= |q.ready|
    ensures Replays(q, n, now, fx, record, Drain(q, n, now, fx))
    decreases n
  {
    if n == 0 {
      record := [];
      assert q.done + record == q.done && q.ready[0..] == q.ready;
    } else {
      FirstDisposes(q, now, fx);
      var q2 := DrainFirst(q, now, fx);
      var first := Disposal(q.ready[0], now, q.ready[0].id !in q.cancelled);
      var later := DrainReplays(q2, n - 1, now, fx);
      record := [first] + later;
      FirstReplays(q, n, now, fx, q2);
      ReplaysOn(q, n, now, fx, first, q2, later, Drain(q, n, now, fx));
    }
  }

  /** The first handle: what it leaves behind the n found is what its effect makes of the rest. */
  lemma {:induction false} FirstReplays(q: Queues, n: nat, now: real, fx: nat -> Effect, q2: Queues)
    requires 1 <= n <= |q.ready| && q2 == DrainFirst(q, now, fx)
    ensures var ran := q.ready[0].id !in q.cancelled;
            var rest := q.(ready := q.ready[n..]);
            && |q2.ready| >= n - 1 && q2.ready[..n - 1] == q.ready[1..n]
            && q2.(ready := q2.ready[n - 1..]) ==
                 (if ran then Perform(rest, fx(q.ready[0].id)) else rest).(done := q2.done)
  {
    var done := q.done + [Disposal(q.ready[0], now, q.ready[0].id !in q.cancelled)];
    var rest, front := q.(ready := q.ready[n..]), q.ready[1..n];
    assert q.ready[1..] == front + q.ready[n..];
    assert q.(ready := q.ready[1..], done := done) == Shifted(rest, front, done);
    PerformShifted(rest, front, done, fx(q.ready[0].id));
  }

  lemma {:induction false} ReplaysOn(q: Queues, n: nat, now: real, fx: nat -> Effect, first: Disposal,
                                     q2: Queues, later: seq<Disposal>, q': Queues)
    requires 1 <= n <= |q.ready| && n - 1 <= |q2.ready| && Replays(q2, n - 1, now, fx, later, q')
    requires first == Disposal(q.ready[0], now, q.ready[0].id !in q.cancelled) && q2.done == q.done + [first]
    requires q2.ready[..n - 1] == q.ready[1..n]
    requires var rest := q.(ready := q.ready[n..]);
             q2.(ready := q2.ready[n - 1..]) ==
             (if first.ran then Perform(rest, fx(q.ready[0].id)) else rest).(done := q2.done)
    ensures Replays(q, n, now, fx, [first] + later, q')
  {
    var rest, rest2, record := q.(ready := q.ready[n..]), q2.(ready := q2.ready[n - 1..]), [first] + later;
    assert q.done + record == (q.done + [first]) + later;
    forall k | 0 <= k < n - 1
      ensures q2.ready[k] == q.ready[k + 1]
    {
      assert q2.ready[..n - 1][k] == q.ready[1..n][k];
    }
    AllRecordedOn(rest, rest2, first, q2.done, later, now, fx, q.ready, q2.ready);
    EndReplays(rest, rest2, first, q2.done, later, fx, q');
  }

  lemma {:induction false} EndReplays(rest: Queues, rest2: Queues, first: Disposal, done: seq<Disposal>,
                                      later: seq<Disposal>, fx: nat -> Effect, q': Queues)
    requires rest2 == (if first.ran then Perform(rest, fx(first.handle.id)) else rest).(done := done)
    requires q' == PerformAll(rest2, EffectsOf(later, fx)).(done := q'.done)
    ensures q' == PerformAll(rest, EffectsOf([first] + later, fx)).(done := q'.done)
  {
    PrefixReplays(rest, rest2, first, done, later, fx, |later|);
    assert ([first] + later)[..|later| + 1] == [first] + later && later[..|later|] == later;
  }

  lemma {:induction false} AllRecordedOn(rest: Queues, rest2: Queues, first: Disposal, done: seq<Disposal>,
                                         later: seq<Disposal>, now: real, fx: nat -> Effect,
                                         ready: seq<Handle>, ready2: seq<Handle>)
    requires |later| < |ready| && |later| <= |ready2| && forall k | 0 <= k < |later| :: ready2[k] == ready[k + 1]
    requires forall k | 0 <= k < |later| :: Recorded(rest2, ready2[k], now, fx, later, k)
    requires first == Disposal(ready[0], now, ready[0].id !in rest.cancelled)
    requires rest2 == (if first.ran then Perform(rest, fx(first.handle.id)) else rest).(done := done)
    ensures forall k | 0 <= k < |later| + 1 :: Recorded(rest, ready[k], now, fx, [first] + later, k)
  {
    forall k | 0 <= k < |later| + 1
      ensures Recorded(rest, ready[k], now, fx, [first] + later, k)
    {
      if k == 0 {
        assert ([first] + later)[..0] == [];
      } else {
        RecordedOn(rest, rest2, first, done, later, now, fx, ready2[k - 1], k - 1);
      }
    }
  }

  lemma {:induction false} RecordedOn(rest: Queues, rest2: Queues, first: Disposal, done: seq<Disposal>,
                                      later: seq<Disposal>, now: real, fx: nat -> Effect, h: Handle, k: nat)
    requires k < |later| && Recorded(rest2, h, now, fx, later, k)
    requires rest2 == (if first.ran then Perform(rest, fx(first.handle.id)) else rest).(done := done)
    ensures Recorded(rest, h, now, fx, [first] + later, k + 1)
  {
    PrefixReplays(rest, rest2, first, done, later, fx, k);
  }

  lemma {:induction false} PrefixReplays(rest: Queues, rest2: Queues, first: Disposal, done: seq<Disposal>,
                                         later: seq<Disposal>, fx: nat -> Effect, k: nat)
    requires k <= |later|
    requires rest2 == (if first.ran then Perform(rest, fx(first.handle.id)) else rest).(done := done)
    ensures PerformAll(rest2, EffectsOf(later[..k], fx)) ==
            PerformAll(rest, EffectsOf(([first] + later)[..k + 1], fx)).(done := done)
  {
    assert ([first] + later)[..k + 1] == [first] + later[..k];
    EffectsOfCons(first, later[..k], fx);
    PerformOne(rest, rest2, first.ran, fx(first.handle.id), done, EffectsOf(later[..k], fx));
  }

  lemma {:induction false} EffectsOfCons(first: Disposal, later: seq<Disposal>, fx: nat -> Effect)
    ensures EffectsOf([first] + later, fx) == (if first.ran then [fx(first.handle.id)] else []) + EffectsOf(later, fx)
  {
    assert ([first] + later)[1..] == later;
  }

  lemma {:induction false} PerformOne(rest: Queues, rest2: Queues, ran: bool, e: Effect,
                                      done: seq<Disposal>, es: seq<Effect>)
    requires rest2 == (if ran then Perform(rest, e) else rest).(done := done)
    ensures PerformAll(rest2, es) == PerformAll(rest, (if ran then [e] else []) + es).(done := done)
  {
    PerformAllShifted(if ran then Perform(rest, e) else rest, done, es);
    if ran {
      assert ([e] + es)[1..] == es;
    } else {
      assert [] + es == es;
    }
  }

  function NewHandles(from: nat, n: nat): seq<Handle>
    decreases n
  {
    if n == 0 then [] else [Handle(from, false, 0.0)] + NewHandles(from + 1, n - 1)
  }

  function NewTimers(from: nat, whens: seq<real>): seq<Handle>
    decreases |whens|
  {
    if whens == [] then [] else [Handle(from, true, whens[0])] + NewTimers(from + 1, whens[1..])
  }

  /** What one effect makes: `soon` new handles at the back of the ready queue, a new timer for each
      deadline, all numbered on, and the cancellations. */
  lemma {:induction false} PerformMakes(q: Queues, e: Effect)
    ensures var q' := Perform(q, e);
            var soon := NewHandles(|q.created|, e.soon);
            var timers := NewTimers(|q.created| + e.soon, e.later);
            && q'.created == q.created + soon + timers && q'.ready == q.ready + soon
            && multiset(q'.scheduled) == multiset(q.scheduled) + multiset(timers)
            && q'.cancelled == q.cancelled + e.cancels && q'.done == q.done
  {
    var q1 := AddSoon(q, e.soon);
    AddSoonMakes(q, e.soon);
    assert |q1.created| == |q.created| + e.soon && q1.scheduled == q.scheduled;
    AddLaterMakes(q1, e.later);
    assert Perform(q, e) == AddLater(q1, e.later).(cancelled := AddLater(q1, e.later).cancelled + e.cancels);
  }

  lemma {:induction false} AddSoonMakes(q: Queues, n: nat)
    ensures var soon := NewHandles(|q.created|, n);
            |soon| == n && AddSoon(q, n) == q.(ready := q.ready + soon, created := q.created + soon)
    decreases n
  {
    if n > 0 {
      var h := Handle(|q.created|, false, 0.0);
      AddSoonMakes(q.(ready := q.ready + [h], created := q.created + [h]), n - 1);
      Regroup(q.ready, h, NewHandles(|q.created| + 1, n - 1));
      Regroup(q.created, h, NewHandles(|q.created| + 1, n - 1));
    } else {
      assert q.ready + [] == q.ready && q.created + [] == q.created;
    }
  }

  lemma {:induction false} AddLaterMakes(q: Queues, whens: seq<real>)
    ensures var timers := NewTimers(|q.created|, whens);
            var q' := AddLater(q, whens);
            && q' == q.(scheduled := q'.scheduled, created := q.created + timers)
            && multiset(q'.scheduled) == multiset(q.scheduled) + multiset(timers)
    decreases |whens|
  {
    if whens != [] {
      var h := Handle(|q.created|, true, whens[0]);
      var rest := NewTimers(|q.created| + 1, whens[1..]);
      AddLaterMakes(q.(scheduled := Push(q.scheduled, h), created := q.created + [h]), whens[1..]);
      Regroup(q.created, h, rest);
      assert multiset([h] + rest) == multiset{h} + multiset(rest);
    } else {
      assert q.created + [] == q.created;
    }
  }

  // ------------------------------------------------------------------------- iterations

  /** The queue that the drain of an iteration finds. */
  function AtDrain(q: Queues, io: Effect, end: real): Queues { Promote(Perform(q, io), end) }

  lemma RunOnceDrains(q: Queues, io: Effect, now: real, resolution: real, fx: nat -> Effect)
    ensures var q1 := AtDrain(q, io, now + resolution);
            RunOnce(q, io, now, resolution, fx) == Drain(q1, |q1.ready|, now, fx)
  {
  }

  /** Every timer due at the promotion is in the queue that the drain finds. */
  lemma DueIsReady(q: Queues, io: Effect, end: real, h: Handle)
    requires Conserved(q) && IsHeap(q.scheduled) && h in Perform(q, io).scheduled && h.when < end
    ensures h in AtDrain(q, io, end).ready
  {
    PerformKeeps(q, io);
    PromotesExactlyTheDue(Perform(q, io), end);
    DueIsMoved(Perform(q, io), AtDrain(q, io, end), h, end);
  }

  lemma ReadyStaysInFront(q: Queues, io: Effect, end: real)
    ensures q.ready <= AtDrain(q, io, end).ready && AtDrain(q, io, end).done == q.done
  {
    PerformAdds(q, io);
    PromoteSplits(Perform(q, io), end);
  }

  /** An iteration disposes, in order, of everything that was ready, everything the completions
      made ready, and every timer due at its promotion. */
  lemma IterationDisposes(q: Queues, io: Effect, now: real, resolution: real, fx: nat -> Effect)
    requires Conserved(q) && IsHeap(q.scheduled)
    ensures var q1 := AtDrain(q, io, now + resolution);
            && Handles(RunOnce(q, io, now, resolution, fx).done) == Handles(q.done) + q1.ready
            && q.ready <= q1.ready
            && (forall h | h in Perform(q, io).scheduled && h.when < now + resolution :: h in q1.ready)
  {
    IterationHandles(q, io, now, resolution, fx);
    AllDueAreReady(q, io, now + resolution);
  }

  lemma IterationHandles(q: Queues, io: Effect, now: real, resolution: real, fx: nat -> Effect)
    ensures var q1 := AtDrain(q, io, now + resolution);
            Handles(RunOnce(q, io, now, resolution, fx).done) == Handles(q.done) + q1.ready && q.ready <= q1.ready
  {
    RunOnceDrains(q, io, now, resolution, fx);
    ReadyStaysInFront(q, io, now + resolution);
    DrainDisposesAll(AtDrain(q, io, now + resolution), now, fx);
  }

  lemma DrainDisposesAll(q: Queues, now: real, fx: nat -> Effect)
    ensures Handles(Drain(q, |q.ready|, now, fx).done) == Handles(q.done) + q.ready
  {
    DrainDisposesSnapshot(q, |q.ready|, now, fx);
    assert q.ready[..|q.ready|] == q.ready;
  }

  lemma AllDueAreReady(q: Queues, io: Effect, end: real)
    requires Conserved(q) && IsHeap(q.scheduled)
    ensures forall h | h in Perform(q, io).scheduled && h.when < end :: h in AtDrain(q, io, end).ready
  {
    forall h | h in Perform(q, io).scheduled && h.when < end
      ensures h in AtDrain(q, io, end).ready
    {
      DueIsReady(q, io, end, h);
    }
  }

  lemma DueIsMoved(q: Queues, q1: Queues, h: Handle, end: real)
    requires h in q.scheduled && h.when < end && q.ready <= q1.ready && NotBefore(q1.scheduled, end)
    requires multiset(q1.ready[|q.ready|..]) + multiset(q1.scheduled) == multiset(q.scheduled)
    ensures h in q1.ready
  {
    assert h in multiset(q.scheduled);
    assert h !in q1.scheduled;
    assert h in q1.ready[|q.ready|..];
  }

  /** Between promotion and drain: the ready queue is the old one, then the completions'
      callbacks, then the due timers. */
  ghost predicate Promoted(q: Queues, qp: Queues, q1: Queues, end: real) {
    && Conserved(q1) && IsHeap(q1.scheduled) && AllTimers(q1.scheduled) && qp.done == q.done == q1.done
    && q.ready <= qp.ready && NoTimers(qp.ready[|q.ready|..])
    && qp.ready <= q1.ready && Before(q1.ready[|qp.ready|..], end)
  }

  lemma IterationPromotes(q: Queues, io: Effect, end: real, resolution: real)
    requires Sound(q, resolution)
    ensures Promoted(q, Perform(q, io), AtDrain(q, io, end), end)
  {
    PerformKeeps(q, io);
    PromotesExactlyTheDue(Perform(q, io), end);
    PromotionConserves(Perform(q, io), AtDrain(q, io, end));
  }

  lemma IterationDrains(q: Queues, qp: Queues, q1: Queues, now: real, resolution: real, fx: nat -> Effect)
    requires Promoted(q, qp, q1, now + resolution) && Punctual(q.done, resolution) && NoTimers(q.ready)
    ensures var q' := Drain(q1, |q1.ready|, now, fx); Sound(q', resolution) && q.done <= q'.done
  {
    var n := |q1.ready|;
    DrainKeeps(q1, n, now, fx);
    DrainStamps(q1, n, now, fx);
    DrainDisposesSnapshot(q1, n, now, fx);
    var q' := Drain(q1, n, now, fx);
    assert q1.ready[..n] == q1.ready && q'.ready[0..] == q'.ready;
    IterationPunctual(q, qp, q1, q', now, resolution);
  }

  lemma IterationKeeps(q: Queues, io: Effect, now: real, resolution: real, fx: nat -> Effect)
    requires Sound(q, resolution)
    ensures Sound(RunOnce(q, io, now, resolution, fx), resolution)
    ensures q.done <= RunOnce(q, io, now, resolution, fx).done
  {
    IterationPromotes(q, io, now + resolution, resolution);
    IterationDrains(q, Perform(q, io), AtDrain(q, io, now + resolution), now, resolution, fx);
  }

  lemma PromotionConserves(q: Queues, q1: Queues)
    requires Conserved(q) && AllTimers(q.scheduled)
    requires q1 == q.(scheduled := q1.scheduled, ready := q1.ready) && q.ready <= q1.ready
    requires multiset(q1.ready[|q.ready|..]) + multiset(q1.scheduled) == multiset(q.scheduled)
    ensures Conserved(q1) && AllTimers(q1.scheduled)
  {
    assert q1.ready == q.ready + q1.ready[|q.ready|..];
    forall k | 0 <= k < |q1.scheduled|
      ensures q1.scheduled[k].timer
    {
      assert q1.scheduled[k] in multiset(q.scheduled);
    }
  }

  /** Timers reach the ready queue only by promotion, so the drain never meets an early one. */
  lemma IterationPunctual(q: Queues, qp: Queues, q1: Queues, q': Queues, now: real, resolution: real)
    requires Promoted(q, qp, q1, now + resolution) && Punctual(q.done, resolution) && NoTimers(q.ready)
    requires q.done <= q'.done && (forall k | |q.done| <= k < |q'.done| :: q'.done[k].at == now)
    requires Handles(q'.done) == Handles(q.done) + q1.ready
    ensures Punctual(q'.done, resolution)
  {
    assert qp.ready == q.ready + qp.ready[|q.ready|..];
    assert NoTimers(qp.ready);
    forall k | 0 <= k < |q'.done| && q'.done[k].handle.timer
      ensures q'.done[k].handle.when < q'.done[k].at + resolution
    {
      HandlesAt(q'.done, k);
      HandlesAt(q.done, 0);
      if k >= |q.done| {
        var j := k - |q.done|;
        assert q'.done[k].handle == q1.ready[j];
        assert j >= |qp.ready|;
        assert q1.ready[j] == q1.ready[|qp.ready|..][j - |qp.ready|];
      }
    }
  }

  lemma {:induction false} HandlesAt(done: seq<Disposal>, k: nat)
    ensures |Handles(done)| == |done| && (k < |done| ==> Handles(done)[k] == done[k].handle)
  {
    if done != [] {
      HandlesAt(done[..|done| - 1], k);
    }
  }

  /** `asleep` and `now` are the clock's readings before the wait and at the promotion. */
  datatype Iteration = Iteration(stopping: bool, asleep: real, io: Effect, now: real, fx: nat -> Effect)

  function Runs(q: Queues, its: seq<Iteration>, resolution: real): Queues
    decreases |its|
  {
    if its == [] then q
    else Runs(RunOnce(q, its[0].io, its[0].now, resolution, its[0].fx), its[1..], resolution)
  }

  const EMPTY := Queues([], [], [], {}, [])

  /** Over any run of iterations: conservation, heap order, and no timer before its deadline
      minus the clock's resolution. */
  lemma {:induction false} RunsKeep(q: Queues, its: seq<Iteration>, resolution: real)
    requires Sound(q, resolution)
    ensures Sound(Runs(q, its, resolution), resolution) && q.done <= Runs(q, its, resolution).done
    decreases |its|
  {
    if its != [] {
      IterationKeeps(q, its[0].io, its[0].now, resolution, its[0].fx);
      RunsKeep(RunOnce(q, its[0].io, its[0].now, resolution, its[0].fx), its[1..], resolution);
    }
  }

  lemma {:induction false} DistinctIds(created: seq<Handle>, h: Handle)
    requires forall k | 0 <= k < |created| :: created[k].id == k
    ensures multiset(created)[h] == if h.id < |created| && created[h.id] == h then 1 else 0
  {
    if created != [] {
      var n := |created| - 1;
      DistinctIds(created[..n], h);
      assert created == created[..n] + [created[n]];
    }
  }

  /** Every handle created along a run is in exactly one place, exactly once. */
  lemma EachHandleIsInOnePlace(its: seq<Iteration>, resolution: real, id: nat)
    requires id < |Runs(EMPTY, its, resolution).created|
    ensures var q := Runs(EMPTY, its, resolution); var h := q.created[id];
            multiset(q.scheduled)[h] + multiset(q.ready)[h] + multiset(Handles(q.done))[h] == 1
  {
    RunsKeep(EMPTY, its, resolution);
    var q := Runs(EMPTY, its, resolution);
    DistinctIds(q.created, q.created[id]);
  }

  /** So no handle is disposed of twice. */
  lemma DisposedAtMostOnce(q: Queues, j: nat, k: nat)
    requires Conserved(q) && j < k < |q.done|
    ensures q.done[j].handle != q.done[k].handle
  {
    var h, hs := q.done[j].handle, Handles(q.done);
    HandlesAt(q.done, j);
    HandlesAt(q.done, k);
    DistinctIds(q.created, h);
    assert hs == hs[..k] + [hs[k]] + hs[k + 1..];
    assert hs[..k][j] in multiset(hs[..k]);
    assert multiset(hs) == multiset(hs[..k]) + multiset{hs[k]} + multiset(hs[k + 1..]);
  }

  /** A handle cancelled before it reaches the front never runs, in this or any later
      iteration. */
  lemma {:induction false} CancelledNeverRunsLater(q: Queues, its: seq<Iteration>, resolution: real, id: nat)
    requires id in q.cancelled
    ensures var q' := Runs(q, its, resolution);
            q.done <= q'.done && forall k | |q.done| <= k < |q'.done| && q'.done[k].handle.id == id :: !q'.done[k].ran
    decreases |its|
  {
    if its != [] {
      var it := its[0];
      CancelledThroughIteration(q, it, resolution, id);
      CancelledNeverRunsLater(RunOnce(q, it.io, it.now, resolution, it.fx), its[1..], resolution, id);
    }
  }

  lemma CancelledThroughIteration(q: Queues, it: Iteration, resolution: real, id: nat)
    requires id in q.cancelled
    ensures var q' := RunOnce(q, it.io, it.now, resolution, it.fx);
            && id in q'.cancelled && q.done <= q'.done
            && forall k | |q.done| <= k < |q'.done| && q'.done[k].handle.id == id :: !q'.done[k].ran
  {
    RunOnceDrains(q, it.io, it.now, resolution, it.fx);
    CancelledAtDrain(q, it.io, it.now + resolution, id);
    CancelledInDrain(q, AtDrain(q, it.io, it.now + resolution), RunOnce(q, it.io, it.now, resolution, it.fx),
                     it.now, it.fx, id);
  }

  lemma CancelledAtDrain(q: Queues, io: Effect, end: real, id: nat)
    requires id in q.cancelled
    ensures id in AtDrain(q, io, end).cancelled && AtDrain(q, io, end).done == q.done
  {
    PerformAdds(q, io);
    PromoteSplits(Perform(q, io), end);
  }

  lemma CancelledInDrain(q: Queues, q1: Queues, q': Queues, now: real, fx: nat -> Effect, id: nat)
    requires id in q1.cancelled && q1.done == q.done && q' == Drain(q1, |q1.ready|, now, fx)
    ensures id in q'.cancelled && q.done <= q'.done
    ensures forall k | |q.done| <= k < |q'.done| && q'.done[k].handle.id == id :: !q'.done[k].ran
  {
    CancelledNeverRuns(q1, |q1.ready|, now, fx, id);
  }

  // ------------------------------------------------------------------------------- wait

  const DAY := 86400

  datatype Timespec = Timespec(sec: int, nsec: int)

  function Clamp(delay: real): real {
    if delay < 0.0 then 0.0 else if delay > DAY as real then DAY as real else delay
  }

  /** compute_timeout; the fractional part is subtracted from itself, so nsec is always 0. */
  function ComputeTimeout(q: Queues, stopping: bool, now: real): Timespec {
    if q.ready != [] || stopping then Timespec(0, 0)
    else if q.scheduled != [] then
      var delay := Clamp(q.scheduled[0].when - now);
      Timespec(delay.Floor, ((delay - delay) * 1000000000.0).Floor)
    else Timespec(DAY, 0)
  }

  /** The wait is at most a day, is zero when there is work or the loop is stopping, never
      outlasts the remaining delay of any scheduled handle, and falls short of the earliest
      one's by less than a second. */
  lemma NeverOversleeps(q: Queues, stopping: bool, now: real, k: nat)
    requires IsHeap(q.scheduled)
    ensures var t := ComputeTimeout(q, stopping, now);
            && 0 <= t.sec <= 86400 && DAY == 86400 && t.nsec == 0
            && (q.ready != [] || stopping ==> t.sec == 0)
            && (k < |q.scheduled| ==> t.sec as real <= Clamp(q.scheduled[k].when - now))
            && (k < |q.scheduled| ==> t.sec == 0 || t.sec as real <= q.scheduled[k].when - now)
            && (q.ready == [] && !stopping && q.scheduled != [] ==>
                  t.sec == DAY || q.scheduled[0].when - now < t.sec as real + 1.0)
            && (q.ready == [] && !stopping && q.scheduled == [] ==> t.sec == DAY)
  {
    if k < |q.scheduled| {
      RootIsEarliest(q.scheduled, k);
    }
  }

  /** A loop that the kernel wakes when the wait is over has not slept past any deadline that
      was still to come. */
  lemma WakesInTime(q: Queues, stopping: bool, asleep: real, now: real, k: nat)
    requires IsHeap(q.scheduled) && k < |q.scheduled|
    requires asleep < now <= asleep + ComputeTimeout(q, stopping, asleep).sec as real
    ensures now <= q.scheduled[k].when
  {
    NeverOversleeps(q, stopping, asleep, k);
  }

  // ---------------------------------------------------------------------------- lateness

  ghost predicate Timely(whens: seq<real>, bound: real) { forall k | 0 <= k < |whens| :: whens[k] >= bound }

  /** The clock over a run. Waking up and serving the completions takes at most `wake` beyond the
      computed wait; draining, and getting back to the wait, at most `work`. No callback sets a
      timer for the past. */
  ghost predicate Clocked(q: Queues, its: seq<Iteration>, previous: real, wake: real, work: real, resolution: real)
    decreases |its|
  {
    its != [] ==>
      && OnClock(q, its[0], previous, wake, work)
      && Clocked(RunOnce(q, its[0].io, its[0].now, resolution, its[0].fx), its[1..], its[0].now, wake, work, resolution)
  }

  ghost predicate OnClock(q: Queues, it: Iteration, previous: real, wake: real, work: real) {
    && previous <= it.asleep <= previous + work
    && it.asleep <= it.now <= it.asleep + ComputeTimeout(q, it.stopping, it.asleep).sec as real + wake
    && Timely(it.io.later, it.now - wake) && (forall id :: Timely(it.fx(id).later, it.now))
  }

  lemma PushedTimely(s: seq<Handle>, h: Handle, bound: real)
    requires NotBefore(s, bound) && h.when >= bound
    ensures NotBefore(Push(s, h), bound)
  {
    var r := Push(s, h);
    forall k | 0 <= k < |r|
      ensures r[k].when >= bound
    {
      assert r[k] in multiset(r);
      assert r[k] in multiset(s) || r[k] == h;
    }
  }

  lemma {:induction false} AddLaterTimely(q: Queues, whens: seq<real>, bound: real)
    requires NotBefore(q.scheduled, bound) && Timely(whens, bound)
    ensures NotBefore(AddLater(q, whens).scheduled, bound)
    decreases |whens|
  {
    if whens != [] {
      var h := Handle(|q.created|, true, whens[0]);
      PushedTimely(q.scheduled, h, bound);
      AddLaterTimely(q.(scheduled := Push(q.scheduled, h), created := q.created + [h]), whens[1..], bound);
    }
  }

  lemma PerformTimely(q: Queues, e: Effect, bound: real)
    requires NotBefore(q.scheduled, bound) && Timely(e.later, bound)
    ensures NotBefore(Perform(q, e).scheduled, bound)
  {
    AddSoonAppends(q, e.soon);
    AddLaterTimely(AddSoon(q, e.soon), e.later, bound);
  }

  lemma {:induction false} DrainTimely(q: Queues, n: nat, now: real, fx: nat -> Effect, bound: real)
    requires NotBefore(q.scheduled, bound) && forall id :: Timely(fx(id).later, bound)
    ensures NotBefore(Drain(q, n, now, fx).scheduled, bound)
    decreases n
  {
    if n > 0 && q.ready != [] {
      var h := q.ready[0];
      var q1 := q.(ready := q.ready[1..], done := q.done + [Disposal(h, now, h.id !in q.cancelled)]);
      PerformTimely(q1, fx(h.id), bound);
      DrainTimely(DrainFirst(q, now, fx), n - 1, now, fx, bound);
    }
  }

  /** What the wait guarantees: at the promotion no timer that was scheduled before the wait, or is
      set by a completion, is overdue by more than the two allowances. */
  lemma WaitIsNotLate(q: Queues, it: Iteration, previous: real, wake: real, work: real)
    requires IsHeap(q.scheduled) && NotBefore(q.scheduled, previous) && wake >= 0.0 && work >= 0.0
    requires OnClock(q, it, previous, wake, work)
    ensures NotBefore(Perform(q, it.io).scheduled, it.now - wake - work)
  {
    forall k | 0 <= k < |q.scheduled|
      ensures q.scheduled[k].when >= it.now - wake - work
    {
      NeverOversleeps(q, it.stopping, it.asleep, k);
    }
    PerformTimely(q, it.io, it.now - wake - work);
  }

  ghost predicate NotLate(done: seq<Disposal>, from: nat, bound: real) {
    forall k | from <= k < |done| && done[k].handle.timer :: done[k].at <= done[k].handle.when + bound
  }

  /** One iteration: what it disposes of is not late. */
  lemma IterationNotLate(q: Queues, it: Iteration, previous: real, wake: real, work: real, resolution: real)
    requires Sound(q, resolution) && NotBefore(q.scheduled, previous) && wake >= 0.0 && work >= 0.0
    requires OnClock(q, it, previous, wake, work)
    ensures NotLate(RunOnce(q, it.io, it.now, resolution, it.fx).done, |q.done|, wake + work)
  {
    var end := it.now + resolution;
    var q1 := AtDrain(q, it.io, end);
    WaitIsNotLate(q, it, previous, wake, work);
    IterationReady(q, it.io, end, it.now - (wake + work));
    DisposedNotLate(q1, it.now, it.fx, wake + work);
    IterationDone(q, it.io, it.now, resolution, it.fx);
  }

  lemma IterationDone(q: Queues, io: Effect, now: real, resolution: real, fx: nat -> Effect)
    ensures var q1 := AtDrain(q, io, now + resolution);
            && RunOnce(q, io, now, resolution, fx).done == Drain(q1, |q1.ready|, now, fx).done
            && |q1.done| == |q.done|
  {
    ReadyStaysInFront(q, io, now + resolution);
    RunOnceDrains(q, io, now, resolution, fx);
  }

  lemma IterationReady(q: Queues, io: Effect, end: real, bound: real)
    requires Conserved(q) && IsHeap(q.scheduled) && NoTimers(q.ready) && NotBefore(Perform(q, io).scheduled, bound)
    ensures ReadyNotBefore(AtDrain(q, io, end).ready, bound)
  {
    PerformKeeps(q, io);
    PromotesExactlyTheDue(Perform(q, io), end);
    PromotedNotLate(q, Perform(q, io), AtDrain(q, io, end), bound);
  }

  lemma PromotionLeaves(q: Queues, io: Effect, now: real, end: real)
    requires Conserved(q) && IsHeap(q.scheduled) && now <= end
    ensures NotBefore(AtDrain(q, io, end).scheduled, now)
  {
    PerformKeeps(q, io);
    PromotesExactlyTheDue(Perform(q, io), end);
  }

  /** And what it leaves is not yet due. */
  lemma IterationLeaves(q: Queues, it: Iteration, resolution: real)
    requires Conserved(q) && IsHeap(q.scheduled) && resolution >= 0.0 && forall id :: Timely(it.fx(id).later, it.now)
    ensures NotBefore(RunOnce(q, it.io, it.now, resolution, it.fx).scheduled, it.now)
  {
    var end := it.now + resolution;
    var q1 := AtDrain(q, it.io, end);
    PromotionLeaves(q, it.io, it.now, end);
    DrainTimely(q1, |q1.ready|, it.now, it.fx, it.now);
    RunOnceDrains(q, it.io, it.now, resolution, it.fx);
  }

  ghost predicate ReadyNotBefore(ready: seq<Handle>, bound: real) {
    forall k | 0 <= k < |ready| && ready[k].timer :: ready[k].when >= bound
  }

  lemma PromotedNotLate(q: Queues, qp: Queues, q1: Queues, bound: real)
    requires NoTimers(q.ready) && q.ready <= qp.ready && NoTimers(qp.ready[|q.ready|..]) && qp.ready <= q1.ready
    requires multiset(q1.ready[|qp.ready|..]) + multiset(q1.scheduled) == multiset(qp.scheduled)
    requires NotBefore(qp.scheduled, bound)
    ensures ReadyNotBefore(q1.ready, bound)
  {
    assert qp.ready == q.ready + qp.ready[|q.ready|..];
    var moved := q1.ready[|qp.ready|..];
    forall k | 0 <= k < |q1.ready| && q1.ready[k].timer
      ensures q1.ready[k].when >= bound
    {
      assert k >= |qp.ready| && q1.ready[k] == moved[k - |qp.ready|];
      assert moved[k - |qp.ready|] in multiset(moved);
      assert q1.ready[k] in multiset(qp.scheduled);
    }
  }

  lemma DisposedNotLate(q: Queues, now: real, fx: nat -> Effect, bound: real)
    requires ReadyNotBefore(q.ready, now - bound)
    ensures NotLate(Drain(q, |q.ready|, now, fx).done, |q.done|, bound)
  {
    var q' := Drain(q, |q.ready|, now, fx);
    DrainStamps(q, |q.ready|, now, fx);
    DrainDisposesAll(q, now, fx);
    forall k | |q.done| <= k < |q'.done| && q'.done[k].handle.timer
      ensures q'.done[k].at <= q'.done[k].handle.when + bound
    {
      HandlesAt(q'.done, k);
      HandlesAt(q.done, 0);
      assert q'.done[k].handle == q.ready[k - |q.done|];
    }
  }

  /** Over any run that keeps to the clock, no timer is disposed of later than its deadline plus the
      two allowances; and each one due at a promotion is disposed of there (IterationDisposes). */
  lemma {:induction false} RunsAreNotLate(q: Queues, its: seq<Iteration>, previous: real,
                                          wake: real, work: real, resolution: real)
    requires Sound(q, resolution) && NotBefore(q.scheduled, previous)
    requires wake >= 0.0 && work >= 0.0 && resolution >= 0.0
    requires Clocked(q, its, previous, wake, work, resolution)
    ensures NotLate(Runs(q, its, resolution).done, |q.done|, wake + work)
    decreases |its|
  {
    if its != [] {
      var it := its[0];
      var q1 := RunOnce(q, it.io, it.now, resolution, it.fx);
      IterationNotLate(q, it, previous, wake, work, resolution);
      IterationLeaves(q, it, resolution);
      IterationKeeps(q, it.io, it.now, resolution, it.fx);
      RunsAreNotLate(q1, its[1..], it.now, wake, work, resolution);
      RunsKeep(q1, its[1..], resolution);
    }
  }

  // ------------------------------------------------------------------- the loop's methods

  class Scheduler {
    var scheduled: seq<Handle>   // _scheduled
    var ready: seq<Handle>       // _ready
    var stopping: bool           // _stopping
    var cancelled: set<nat>
    var done: seq<Disposal>
    var created: seq<Handle>

    ghost function View(): Queues
      reads this
    {
      Queues(scheduled, ready, done, cancelled, created)
    }

    constructor ()
      ensures View() == EMPTY && !stopping
    {
      scheduled, ready, stopping, cancelled, done, created := [], [], false, {}, [], [];
    }

    /** compute_timeout. */
    method Wait(now: real) returns (ts: Timespec)
      requires IsHeap(scheduled)
      ensures ts == ComputeTimeout(View(), stopping, now)
      ensures forall k | 0 <= k < |scheduled| :: ts.sec as real <= Clamp(scheduled[k].when - now)
    {
      ts := Timespec(0, 0);
      if !(ready != [] || stopping) {
        if |scheduled| > 0 {
          var delay := scheduled[0].when - now;
          if delay < 0.0 {
            delay := 0.0;
          }
          if delay > DAY as real {
            delay := DAY as real;
          }
          ts := Timespec(delay.Floor, ((delay - delay) * 1000000000.0).Floor);
        } else {
          ts := Timespec(DAY, 0);
        }
      }
      forall k | 0 <= k < |scheduled|
        ensures ts.sec as real <= Clamp(scheduled[k].when - now)
      {
        NeverOversleeps(View(), stopping, now, k);
      }
    }

    /** What a callback does to the loop. */
    method Callback(e: Effect)
      modifies this
      ensures View() == Perform(old(View()), e) && stopping == old(stopping)
    {
      var q := Perform(Queues(scheduled, ready, done, cancelled, created), e);
      scheduled, ready, done, cancelled, created := q.scheduled, q.ready, q.done, q.cancelled, q.created;
    }

    /** promote_scheduled. */
    method PromoteScheduled(now: real, resolution: real)
      modifies this`scheduled, this`ready
      ensures View() == Promote(old(View()), now + resolution)
    {
      var endTime := now + resolution;
      ghost var target := Promote(View(), endTime);
      while |scheduled| > 0
        invariant Promote(View(), endTime) == target
        decreases |scheduled|
      {
        var handle := scheduled[0];
        ghost var q := View();
        PromoteUnfolds(q, endTime);
        if handle.when >= endTime {
          return;
        }
        scheduled := Pop(scheduled);
        ready := ready + [handle];
        assert View() == q.(scheduled := Pop(q.scheduled), ready := q.ready + [q.scheduled[0]]);
      }
    }

    /** drain_ready: the bound is the queue's length at the start. */
    method DrainReady(now: real, fx: nat -> Effect)
      modifies this
      ensures View() == Drain(old(View()), |old(ready)|, now, fx) && stopping == old(stopping)
      ensures Handles(done) == Handles(old(done)) + old(ready)
      ensures exists record :: Replays(old(View()), |old(ready)|, now, fx, record, View())
    {
      var ntodo := |ready|;
      for i := 0 to ntodo
        invariant Drain(View(), ntodo - i, now, fx) == Drain(old(View()), ntodo, now, fx)
        invariant ntodo - i <= |ready| && stopping == old(stopping)
      {
        FirstDisposes(View(), now, fx);
        var handle := ready[0];
        ready := ready[1..];
        var ran := handle.id !in cancelled;
        done := done + [Disposal(handle, now, ran)];
        if ran {
          Callback(fx(handle.id));
        }
      }
      DrainDisposesSnapshot(old(View()), ntodo, now, fx);
      assert old(ready)[..ntodo] == old(ready);
      var record := DrainReplays(old(View()), ntodo, now, fx);
    }

    /** _run_once: wait, read completions, promote, drain. The clock is read twice: `asleep`
        before the wait, `now` at the promotion. */
    method RunOnceStep(io: Effect, asleep: real, now: real, resolution: real, fx: nat -> Effect) returns (ts: Timespec)
      requires Sound(View(), resolution)
      modifies this
      ensures View() == RunOnce(old(View()), io, now, resolution, fx) && Sound(View(), resolution)
      ensures ts == ComputeTimeout(old(View()), old(stopping), asleep)
      ensures forall k | 0 <= k < |old(scheduled)| && asleep < now <= asleep + ts.sec as real ::
                now <= old(scheduled)[k].when
    {
      ts := Wait(asleep);
      forall k | 0 <= k < |scheduled| && asleep < now <= asleep + ts.sec as real
        ensures now <= scheduled[k].when
      {
        WakesInTime(View(), stopping, asleep, now, k);
      }
      Callback(io);
      PromoteScheduled(now, resolution);
      DrainReady(now, fx);
      IterationKeeps(old(View()), io, now, resolution, fx);
    }
  }
}
