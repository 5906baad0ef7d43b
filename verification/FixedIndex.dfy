/** Indices of registered buffers: the array-and-`top` registry of FIXED contexts, and what
    happens to it as reads and receives come and go. */
module FixedIndex {
  import opened Core
  import opened FreeLists
  import opened Runtime
  import opened Reader
  import opened Requests
  import opened Protocol
  import opened Invariant
  import opened Guarantees
  import opened Pool
  import opened Sessions

  const DEFAULT_BUFFER_IDX_REGISTRY_SIZE := 128

  class FixedBufferIdxRegistry {
    var available: array<int>
    var top: int
    var size: nat

    ghost function View(): FreeList
      reads this, available
    {
      FreeList(available[..], top)
    }

    ghost predicate Valid()
      reads this, available
    {
      size == available.Length && View().Valid()
    }

    constructor (n: nat)
      ensures Valid() && fresh(available)
      ensures View() == Fresh(if n == 0 then 128 else n)
    {
      var m := if n == 0 then DEFAULT_BUFFER_IDX_REGISTRY_SIZE else n;
      available := new int[m];
      top, size := m - 1, m;
      new;
      for i := 0 to m
        invariant available.Length == m && top == m - 1 && size == m && fresh(available)
        invariant forall k | 0 <= k < i :: available[k] == k
      {
        available[i] := i;
      }
      assert available[..] == Identity(m);
      FreshIsFull(m);
    }

    /** get_buffer_idx: -1 when every index is live. */
    method GetBufferIdx() returns (index: int)
      requires Valid()
      modifies this`top
      ensures Valid() && (View(), index) == Apply(old(View()), Alloc)
      ensures index == -1 <==> old(View()).Live() == Below(size)
      ensures index >= 0 ==> index !in old(View()).Live() && View().Live() == old(View()).Live() + {index}
    {
      ghost var before := View();
      FreePlusLive(before);
      if top < 0 {
        return -1;
      }
      PopHandsOutFree(before);
      index := available[top];
      top := top - 1;
      assert View() == before.Pop();
    }

    /** release_buffer_idx: refused when the list is full, and only then. */
    method ReleaseBufferIdx(index: int) returns (rc: int)
      requires Valid()
      modifies this`top, available
      ensures (View(), rc) == Apply(old(View()), Release(index)) && size == old(size)
      ensures rc == -1 <==> old(View()).Live() == {}
      ensures rc == 0 ==> (Valid() <==> index in old(View()).Live())
    {
      FreePlusLive(View());
      if top + 1 >= size {
        return -1;
      }
      PushValidIffLive(View(), index);
      ghost var before := available[..];
      top := top + 1;
      available[top] := index;
      assert available[..] == before[top := index];
      rc := 0;
    }
  }

  // ------------------------------------------------------------- one request at a time

  /** A call in a FIXED context that borrows the context's payload p. */
  ghost predicate Borrows(s: State, ctx: Context, call: Call, p: nat) {
    CanSubmit(s, ctx, call) && FixedPayload(s.sys.heap, p) && SourceOf(s.sys.heap, ctx, call) == Borrowed(p)
  }

  /** Only reads and the two receives without buffers of their own borrow a FIXED payload. */
  lemma {:induction false} BorrowersOfFixed(s: State, ctx: Context, call: Call, p: nat, f: nat, i: int, res: int)
    requires PoolOk(s.sys.heap) && Borrows(s, ctx, call, p)
    ensures (call.Read? || call.Recv? || call.Recvfrom?) && Dispatchable(s.sys.heap, ctx, call)
    ensures var slot := SlotOf(f, Prepare(s.sys.heap, ctx, call).1, i);
            slot.payload == Some(p) && (Gives(slot, res) <==> res >= 0)
  {
  }

  /** One request from call to reap. */
  datatype Use = Use(ctx: Context, call: Call, res: int, data: seq<Byte>, memory: seq<Byte>)

  /** The three steps of a request lead from s to s'. */
  ghost predicate Serves(s: State, u: Use, s': State) {
    Leads(s, Round(u.ctx, u.call, |s.log|, u.res, u.data, u.memory), s')
  }

  /** The moves of one request served alone. */
  function Moves(read: bool, ok: bool): seq<IndexEvent> {
    [if read then Take else Rest] + [if ok then Give else Rest]
  }

  lemma {:induction false} RoundPlays(s: State, u: Use, s1: State, s2: State, s': State, i: nat, p: nat)
    requires Shaped(s) && Shaped(s2) && Linked(s2) && Queued(s2) && Borrows(s, u.ctx, u.call, p)
    requires InTurn(s, u.ctx, u.call, u.res, s1, s2, s', i)
    requires CanComplete(s1, |s.log|, u.res, u.data, u.memory)
    requires s2 == AfterComplete(s1, |s.log|, u.res, u.data, u.memory)
    ensures FixedPayload(s'.sys.heap, p)
    ensures IndexOf(s'.sys.heap.payloads[p]) ==
            PlayAll(IndexOf(s.sys.heap.payloads[p]), Moves(u.call.Read?, u.res >= 0))
  {
    RoundMoves(s, u, s2, i, p);
    SubmitPlays(s, u.ctx, u.call, true, p);
    CompletePlays(s1, |s.log|, u.res, u.data, u.memory, p);
    ReapPlays(s2, p);
    MovesPlay(IndexOf(s.sys.heap.payloads[p]), u.call.Read?, u.res >= 0);
  }

  lemma {:induction false} RoundMoves(s: State, u: Use, s2: State, i: nat, p: nat)
    requires PoolOk(s.sys.heap) && Borrows(s, u.ctx, u.call, p) && s.sys.reg.free.top >= 0
    requires s2.cq == [Cqe(i, u.res)] && i < |s2.sys.reg.slots| && i <= MAX_SIZE
    requires s2.sys.reg.slots[i] == SlotOf(|s.log|, Prepare(s.sys.heap, u.ctx, u.call).1, i)
    ensures IndexMove(s, Step.Submit(u.ctx, u.call, true), p) == if u.call.Read? then Take else Rest
    ensures IndexMove(s2, Step.Reap, p) == if u.res >= 0 then Give else Rest
  {
    BorrowersOfFixed(s, u.ctx, u.call, p, |s.log|, i, u.res);
    DecodeIndex(i);
  }

  lemma {:induction false} MovesPlay(x: IndexState, read: bool, ok: bool)
    ensures PlayAll(x, Moves(read, ok)) == Play(Play(x, if read then Take else Rest), if ok then Give else Rest)
  {
    PlayUnfolds(x, if read then Take else Rest, [if ok then Give else Rest]);
    assert [if ok then Give else Rest][1..] == [];
  }

  /** From a full list, the moves of one request restore it to the last cell, unless it is a read
      that fails. */
  lemma {:induction false} MovesRestoreIff(x: IndexState, read: bool, ok: bool)
    requires x.Full()
    ensures PlayAll(x, Moves(read, ok)).list == (if ok || !read then x.list else x.list.Pop())
  {
    MovesPlay(x, read, ok);
    PopThenPush(x.list);
  }

  /** From a full list, one request served from call to reap restores the list to the last
      cell, unless it is a read that fails: then, and only then, an index is lost. */
  lemma {:induction false} RoundRestoresIff(s: State, u: Use, s': State, p: nat)
    requires Inv(s) && s.cq == [] && Borrows(s, u.ctx, u.call, p) && IsFull(s.sys.heap, p) && Serves(s, u, s')
    ensures Inv(s') && s'.cq == [] && FixedPayload(s'.sys.heap, p)
    ensures s'.sys.heap.payloads[p].idx == s.sys.heap.payloads[p].idx <==> u.res >= 0 || !u.call.Read?
    ensures u.res < 0 && u.call.Read? ==> s'.sys.heap.payloads[p].idx == s.sys.heap.payloads[p].idx.Pop()
  {
    var s1, s2, i := RoundInTurn(s, u.ctx, u.call, u.res, u.data, u.memory, s');
    CompleteKeeps(s1, |s.log|, u.res, u.data, u.memory);
    ReapKeeps(s2);
    RoundPlays(s, u, s1, s2, s', i, p);
    MovesRestoreIff(IndexOf(s.sys.heap.payloads[p]), u.call.Read?, u.res >= 0);
  }

  /** Requests served one after the other, each borrowing the FIXED payload p. */
  ghost predicate ServesAll(s: State, uses: seq<Use>, s': State, p: nat)
    decreases |uses|
  {
    if uses == [] then s' == s
    else exists s1 ::
      && Borrows(s, uses[0].ctx, uses[0].call, p) && Serves(s, uses[0], s1)
      && ServesAll(s1, uses[1..], s', p)
  }

  predicate NoReadFails(uses: seq<Use>) { forall k | 0 <= k < |uses| :: uses[k].res >= 0 || !uses[k].call.Read? }

  /** One request at a time, and no failing read among them: after any mix of reads and receives
      the index registry is full again, cell for cell. */
  lemma {:induction false} FixedIndicesConserved(s: State, uses: seq<Use>, s': State, p: nat)
    requires Inv(s) && s.cq == [] && IsFull(s.sys.heap, p) && ServesAll(s, uses, s', p)
    requires NoReadFails(uses)
    ensures FixedPayload(s'.sys.heap, p) && s'.sys.heap.payloads[p].idx == s.sys.heap.payloads[p].idx
    decreases |uses|
  {
    if uses != [] {
      var s1 :| Borrows(s, uses[0].ctx, uses[0].call, p) && Serves(s, uses[0], s1) && ServesAll(s1, uses[1..], s', p);
      RoundRestoresIff(s, uses[0], s1, p);
      FixedIndicesConserved(s1, uses[1..], s', p);
    }
  }

  /** A read that the ring refuses has already taken its index, and nobody gives it back. */
  lemma {:induction false} RefusedReadLosesIndex(s: State, ctx: Context, call: Call, p: nat)
    requires Shaped(s) && Borrows(s, ctx, call, p) && IsFull(s.sys.heap, p) && s.sys.reg.free.top >= 0
    ensures AfterSubmit(s, ctx, call, false).Fine?
    ensures var h' := AfterSubmit(s, ctx, call, false).value.sys.heap;
            && FixedPayload(h', p)
            && (IsFull(h', p) <==> !call.Read?)
            && (call.Read? ==> h'.payloads[p].idx == s.sys.heap.payloads[p].idx.Pop())
  {
    BorrowersOfFixed(s, ctx, call, p, 0, 0, 0);
    var _ := SubmitOutcome(s, ctx, call, false);
    SubmitPlays(s, ctx, call, false, p);
  }

  // -------------------------------------------------------------- any sequence of moves

  /** What matters of the machine's state: how many indices are free, and whether the one noted
      last is still out. */
  datatype Tally = Tally(free: nat, out: bool)

  /** One move, from a registry of n indices. A give into a list with room is in order only when
      the index noted last is out. */
  function Count(n: nat, t: Tally, e: IndexEvent): Option<Tally> {
    match e
    case Take => Some(if t.free > 0 then Tally(t.free - 1, true) else Tally(0, false))
    case Give => if t.free >= n then Some(t) else if t.out then Some(Tally(t.free + 1, false)) else None
    case Rest => Some(t)
  }

  /** The moves are in order, and this is where they lead; None at the first that is not. */
  function CountAll(n: nat, t: Tally, es: seq<IndexEvent>): Option<Tally>
    decreases |es|
  {
    if es == [] then Some(t)
    else if Count(n, t, es[0]).None? then None
    else CountAll(n, Count(n, t, es[0]).value, es[1..])
  }

  /** As long as the moves are in order no cell has changed; below the top of a list with room lies
      the index noted last, if it is not out. */
  ghost predicate InOrder(cells: seq<int>, x: IndexState, t: Tally) {
    && x.list.cells == cells && x.list.top == t.free - 1 && t.free <= |cells|
    && (t.out ==> t.free < |cells| && x.last == cells[t.free])
    && (!t.out && t.free < |cells| ==> x.last == -1 || (t.free >= 1 && x.last == cells[t.free - 1]))
  }

  /** Cells without duplicates, all of them indices. */
  ghost predicate Genuine(cells: seq<int>) {
    && (forall k | 0 <= k < |cells| :: 0 <= cells[k] < |cells|)
    && (forall j, k | 0 <= j < k < |cells| :: cells[j] != cells[k])
  }

  lemma {:induction false} MoveInOrder(cells: seq<int>, x: IndexState, t: Tally, e: IndexEvent)
    requires InOrder(cells, x, t) && Count(|cells|, t, e).Some?
    ensures InOrder(cells, Play(x, e), Count(|cells|, t, e).value)
  {
    if e.Give? && t.free < |cells| {
      assert cells[t.free := x.last] == cells;
    }
  }

  /** An index that is in no cell and is not noted never comes back. */
  ghost predicate Gone(x: IndexState, index: int) { index >= 0 && index !in x.list.cells && x.last != index }

  lemma {:induction false} GoneForGood(x: IndexState, es: seq<IndexEvent>, index: int)
    requires Gone(x, index)
    ensures Gone(PlayAll(x, es), index)
    decreases |es|
  {
    if es != [] {
      GoneForGood(Play(x, es[0]), es[1..], index);
    }
  }

  /** A move out of order puts an index into the list twice, or -1, and overwrites another for good. */
  lemma {:induction false} OutOfOrderLoses(cells: seq<int>, x: IndexState, t: Tally, e: IndexEvent)
    requires InOrder(cells, x, t) && Genuine(cells) && Count(|cells|, t, e).None?
    ensures Gone(Play(x, e), cells[t.free]) && !Play(x, e).list.Valid()
  {
    var y := Play(x, e);
    assert y.list.cells == cells[t.free := x.last];
    assert y.list.cells[t.free] == x.last;
    if x.last != -1 {
      assert y.list.cells[t.free - 1] == y.list.cells[t.free];
    }
  }

  lemma {:induction false} InOrderIsValid(cells: seq<int>, x: IndexState, t: Tally)
    requires InOrder(cells, x, t) && Genuine(cells)
    ensures x.list.Valid() && (x.list == FreeList(cells, |cells| - 1) <==> t.free == |cells|)
  {
  }

  /** Duplicate-free after every move. */
  ghost predicate StaysValid(x: IndexState, es: seq<IndexEvent>)
    decreases |es|
  {
    x.list.Valid() && (es != [] ==> StaysValid(Play(x, es[0]), es[1..]))
  }

  lemma {:induction false} CountDecides(cells: seq<int>, x: IndexState, t: Tally, es: seq<IndexEvent>)
    requires InOrder(cells, x, t) && Genuine(cells)
    ensures StaysValid(x, es) <==> CountAll(|cells|, t, es).Some?
    ensures PlayAll(x, es).list == FreeList(cells, |cells| - 1) <==>
              CountAll(|cells|, t, es).Some? && CountAll(|cells|, t, es).value.free == |cells|
    decreases |es|
  {
    InOrderIsValid(cells, x, t);
    if es != [] {
      if Count(|cells|, t, es[0]).Some? {
        MoveInOrder(cells, x, t, es[0]);
        CountDecides(cells, Play(x, es[0]), Count(|cells|, t, es[0]).value, es[1..]);
      } else {
        OutOfOrderLoses(cells, x, t, es[0]);
        GoneForGood(Play(x, es[0]), es[1..], cells[t.free]);
        assert cells[t.free] in cells;
      }
    }
  }

  /** From a full list, whatever the moves: the list stays free of duplicates if and only if no give
      finds the last index already back, and it is restored if and only if moreover all indices are
      back at the end. */
  lemma {:induction false} MovesDecide(x: IndexState, es: seq<IndexEvent>)
    requires x.Full() && x.list.Valid()
    ensures var n := |x.list.cells|;
            var end := CountAll(n, Tally(n, false), es);
            && (StaysValid(x, es) <==> end.Some?)
            && (PlayAll(x, es).list == x.list <==> end.Some? && end.value.free == n)
  {
    CountDecides(x.list.cells, x, Tally(|x.list.cells|, false), es);
  }

  /** The same of every run of the protocol. */
  lemma {:induction false} RunDecides(s: State, steps: seq<Step>, s': State, p: nat)
    requires Inv(s) && Leads(s, steps, s') && IsFull(s.sys.heap, p) && s.sys.heap.payloads[p].idx.Valid()
    ensures FixedPayload(s'.sys.heap, p)
    ensures var n := |s.sys.heap.payloads[p].idx.cells|;
            var end := CountAll(n, Tally(n, false), IndexMoves(s, steps, p));
            s'.sys.heap.payloads[p].idx == s.sys.heap.payloads[p].idx <==> end.Some? && end.value.free == n
  {
    RunPlays(s, steps, s', p);
    MovesDecide(IndexOf(s.sys.heap.payloads[p]), IndexMoves(s, steps, p));
  }

  // ------------------------------------------------------------- two overlapping requests

  function If(c: bool, e: IndexEvent): seq<IndexEvent> { if c then [e] else [] }

  /** Two requests, the second submitted before the first is reaped: both takes, then, in the
      order in which they are reaped, the gives of those that succeed. */
  function Overlap(readA: bool, readB: bool, okFirst: bool, okSecond: bool): seq<IndexEvent> {
    If(readA, Take) + If(readB, Take) + If(okFirst, Give) + If(okSecond, Give)
  }

  function Moving(es: seq<IndexEvent>): seq<IndexEvent>
    decreases |es|
  {
    if es == [] then [] else (if es[0].Rest? then [] else [es[0]]) + Moving(es[1..])
  }

  lemma {:induction false} RestsDoNotCount(x: IndexState, es: seq<IndexEvent>)
    ensures PlayAll(x, Moving(es)) == PlayAll(x, es)
    decreases |es|
  {
    if es != [] {
      RestsDoNotCount(Play(x, es[0]), es[1..]);
      if es[0].Rest? {
        assert [] + Moving(es[1..]) == Moving(es[1..]);
      } else {
        PlayUnfolds(x, es[0], Moving(es[1..]));
      }
    }
  }

  lemma {:induction false} PlayOn(x: IndexState, a: seq<IndexEvent>, b: seq<IndexEvent>)
    ensures PlayAll(x, a + b) == PlayAll(PlayAll(x, a), b)
    decreases |a|
  {
    if a == [] {
      assert a + b == b;
    } else {
      assert (a + b)[0] == a[0] && (a + b)[1..] == a[1..] + b;
      PlayOn(Play(x, a[0]), a[1..], b);
    }
  }

  function PlayIf(x: IndexState, c: bool, e: IndexEvent): IndexState { if c then Play(x, e) else x }

  lemma {:induction false} OverlapPlays(x: IndexState, readA: bool, readB: bool, okFirst: bool, okSecond: bool)
    ensures PlayAll(x, Overlap(readA, readB, okFirst, okSecond)) ==
            PlayIf(PlayIf(PlayIf(PlayIf(x, readA, Take), readB, Take), okFirst, Give), okSecond, Give)
  {
    var a, b, c, d := If(readA, Take), If(readB, Take), If(okFirst, Give), If(okSecond, Give);
    PlayOn(x, a + b + c, d);
    PlayOn(x, a + b, c);
    PlayOn(x, a, b);
    forall y: IndexState, c: bool, e: IndexEvent
      ensures PlayAll(y, If(c, e)) == PlayIf(y, c, e)
    {
      assert c ==> If(c, e)[1..] == [];
    }
  }

  /** Two overlapping requests restore a full list exactly when neither is a read, or when one is
      and at least one of the two succeeds, whichever; two reads never do. */
  lemma {:induction false} OverlapRestoresIff(x: IndexState, readA: bool, readB: bool, okFirst: bool, okSecond: bool)
    requires x.Full() && x.list.Valid()
    ensures PlayAll(x, Overlap(readA, readB, okFirst, okSecond)).list == x.list <==>
              (!readA && !readB) || (readA != readB && (okFirst || okSecond))
  {
    OverlapPlays(x, readA, readB, okFirst, okSecond);
    PopThenPush(x.list);
    var n := |x.list.cells|;
    if readA && readB {
      assert n >= 2 ==> x.list.cells[n - 2] != x.list.cells[n - 1];
      OverlappingReads(x, okFirst, okSecond);
    }
  }

  /** What two overlapping reads leave: with two indices or more, the second read's index as
      often as reads succeed; with one index, whatever succeeds gives back -1. */
  lemma {:induction false} OverlappingReads(x: IndexState, okFirst: bool, okSecond: bool)
    requires x.Full() && x.list.Valid()
    ensures var n := |x.list.cells|;
            var l := PlayAll(x, Overlap(true, true, okFirst, okSecond)).list;
            if n == 1 then (okFirst || okSecond ==> l.cells == [-1])
            else && |l.cells| == n && l.top == n - 3 + (if okFirst then 1 else 0) + (if okSecond then 1 else 0)
                 && (okFirst || okSecond ==> l.cells[n - 2] == x.list.cells[n - 2])
                 && (okFirst && okSecond ==> l.cells[n - 1] == x.list.cells[n - 2] && !l.Valid())
  {
    OverlapPlays(x, true, true, okFirst, okSecond);
  }

  /** The index that request A (the first submitted) or B holds while in flight; -1 if none. */
  function IndexHeld(x: IndexState, readA: bool, readB: bool, isA: bool): int {
    if isA then (if readA then Play(x, Take).last else -1)
    else if readB then Play(PlayIf(x, readA, Take), Take).last
    else -1
  }

  /** When one of the two is reaped with success, the index of the other, still in flight, is on
      the free list, and the very next read is given it too, exactly when the other was the last
      to take one: it is B and reads, or it is A and B does not read. */
  lemma {:induction false} OverlapHoldsTwiceIff(x: IndexState, readA: bool, readB: bool, otherIsA: bool)
    requires x.Full() && x.list.Valid()
    ensures var y := PlayAll(x, Overlap(readA, readB, true, false));
            var index := IndexHeld(x, readA, readB, otherIsA);
            && (index >= 0 && Play(y, Take).last == index <==>
                  if otherIsA then readA && !readB else readB && !(readA && |x.list.cells| == 1))
            && (y.list.Valid() && index >= 0 ==> (y.list.IsFree(index) <==> Play(y, Take).last == index))
  {
    OverlapPlays(x, readA, readB, true, false);
    PopThenPush(x.list);
    var y := PlayAll(x, Overlap(readA, readB, true, false));
    var n := |x.list.cells|;
    assert forall k | 0 <= k < n - 1 :: x.list.cells[k] != x.list.cells[n - 1];
    assert n >= 2 ==> forall k | 0 <= k < n - 2 :: x.list.cells[k] != x.list.cells[n - 2];
    assert y.list.top >= 0 ==> y.list.IsFree(y.list.cells[y.list.top]);
  }

  /** The classification holds of every run in which payload p makes just these moves, whatever
      else happens in between. */
  lemma {:induction false} OverlappingRun(s: State, steps: seq<Step>, s': State, p: nat,
                       readA: bool, readB: bool, okFirst: bool, okSecond: bool)
    requires Inv(s) && Leads(s, steps, s') && IsFull(s.sys.heap, p) && s.sys.heap.payloads[p].idx.Valid()
    requires Moving(IndexMoves(s, steps, p)) == Overlap(readA, readB, okFirst, okSecond)
    ensures FixedPayload(s'.sys.heap, p)
    ensures s'.sys.heap.payloads[p].idx == s.sys.heap.payloads[p].idx <==>
              (!readA && !readB) || (readA != readB && (okFirst || okSecond))
  {
    var x := IndexOf(s.sys.heap.payloads[p]);
    RunPlays(s, steps, s', p);
    RestsDoNotCount(x, IndexMoves(s, steps, p));
    OverlapRestoresIff(x, readA, readB, okFirst, okSecond);
  }
}
