/** The array-and-`top` free list behind both the request registry and the fixed-buffer
    index registry, and the allocator it refines. */
module FreeLists {

  /** `cells[..top + 1]` is the stack of free indices; the cells above `top` are stale. */
  datatype FreeList = FreeList(cells: seq<int>, top: int) {

    ghost predicate Shape() { -1 <= top < |cells| }

    ghost predicate Valid() {
      && Shape()
      && (forall k | 0 <= k <= top :: 0 <= cells[k] < |cells|)
      && (forall j, k | 0 <= j < k <= top :: cells[j] != cells[k])
    }

    ghost predicate IsFree(i: int)
      requires Shape()
    {
      exists k :: 0 <= k <= top && cells[k] == i
    }

    /** The indices currently handed out. */
    ghost function Live(): set<int>
      requires Shape()
    {
      set i | 0 <= i < |cells| && !IsFree(i)
    }

    function Pop(): FreeList {
      this.(top := top - 1)
    }

    function Push(i: int): FreeList
      requires 0 <= top + 1 < |cells|
    {
      FreeList(cells[top + 1 := i], top + 1)
    }
  }

  function Identity(n: nat): seq<int> {
    seq(n, i => i)
  }

  function Fresh(n: nat): FreeList {
    FreeList(Identity(n), n - 1)
  }

  lemma FreshIsFull(n: nat)
    ensures Fresh(n).Valid() && Fresh(n).Live() == {}
  {
    var l := Fresh(n);
    forall i | 0 <= i < n
      ensures l.IsFree(i)
    {
      assert l.cells[i] == i;
    }
  }

  /** The indices 0..n-1. */
  ghost function Below(n: nat): (s: set<int>)
    ensures |s| == n
    ensures forall i :: i in s <==> 0 <= i < n
  {
    if n == 0 then {} else Below(n - 1) + {n - 1}
  }

  ghost function Entries(l: FreeList): set<int>
    requires l.Shape()
  {
    set k | 0 <= k <= l.top :: l.cells[k]
  }

  lemma {:induction false} EntriesSize(l: FreeList)
    requires l.Valid()
    ensures |Entries(l)| == l.top + 1
    decreases l.top
  {
    if l.top < 0 {
      assert Entries(l) == {};
    } else {
      EntriesSize(l.Pop());
      assert Entries(l) == Entries(l.Pop()) + {l.cells[l.top]};
    }
  }

  /** Free plus live is the whole capacity. */
  lemma FreePlusLive(l: FreeList)
    requires l.Valid()
    ensures |l.Live()| + l.top + 1 == |l.cells|
    ensures l.top < 0 <==> l.Live() == Below(|l.cells|)
    ensures l.top + 1 == |l.cells| <==> l.Live() == {}
  {
    EntriesSize(l);
    assert l.Live() == Below(|l.cells|) - Entries(l);
    assert Entries(l) <= Below(|l.cells|);
    assert |Below(|l.cells|) - Entries(l)| == |Below(|l.cells|)| - |Entries(l)|;
  }

  /** Popping hands out an index that nobody holds. */
  lemma PopHandsOutFree(l: FreeList)
    requires l.Valid() && l.top >= 0
    ensures l.Pop().Valid()
    ensures 0 <= l.cells[l.top] < |l.cells| && l.cells[l.top] !in l.Live()
    ensures l.Pop().Live() == l.Live() + {l.cells[l.top]}
    ensures forall i :: l.Pop().IsFree(i) <==> l.IsFree(i) && i != l.cells[l.top]
  {
    var x := l.cells[l.top];
    forall i
      ensures l.Pop().IsFree(i) <==> l.IsFree(i) && i != x
    {
      if l.IsFree(i) && i != x {
        var k :| 0 <= k <= l.top && l.cells[k] == i;
        assert l.Pop().cells[k] == i;
      }
    }
    assert l.IsFree(x);
  }

  /** Pushing a live index never overflows the array and makes exactly that index free. */
  lemma PushFreesLive(l: FreeList, i: int)
    requires l.Valid() && i in l.Live()
    ensures l.top + 1 < |l.cells|
    ensures l.Push(i).Valid()
    ensures l.Push(i).Live() == l.Live() - {i}
    ensures forall j :: l.Push(i).IsFree(j) <==> l.IsFree(j) || j == i
  {
    FreePlusLive(l);
    var p := l.Push(i);
    forall j
      ensures p.IsFree(j) <==> l.IsFree(j) || j == i
    {
      if l.IsFree(j) {
        var k :| 0 <= k <= l.top && l.cells[k] == j;
        assert p.cells[k] == j;
      }
      if j == i {
        assert p.cells[p.top] == i;
      }
    }
  }

  /** Releasing into a list that has room keeps it valid exactly when the index was live. */
  lemma PushValidIffLive(l: FreeList, i: int)
    requires l.Valid() && l.top + 1 < |l.cells|
    ensures l.Push(i).Valid() <==> i in l.Live()
  {
    var p := l.Push(i);
    if i in l.Live() {
      PushFreesLive(l, i);
    } else if 0 <= i < |l.cells| {
      var k :| 0 <= k <= l.top && l.cells[k] == i;
      assert p.cells[k] == p.cells[p.top];
    } else {
      assert p.cells[p.top] == i;
    }
  }

  /** Allocating and releasing the same index restores the array, stale cells included. */
  lemma PopThenPush(l: FreeList)
    requires l.Shape() && l.top >= 0
    ensures l.Pop().Push(l.cells[l.top]) == l
  {
    assert l.cells[l.top := l.cells[l.top]] == l.cells;
  }

  // ---------------------------------------------------------------- whole runs

  datatype Op = Alloc | Release(index: int)

  /** One call on the array form, with the value it returns. */
  function Apply(l: FreeList, op: Op): (FreeList, int)
    requires -1 <= l.top < |l.cells|
  {
    match op
    case Alloc => if l.top < 0 then (l, -1) else (l.Pop(), l.cells[l.top])
    case Release(i) => if l.top + 1 >= |l.cells| then (l, -1) else (l.Push(i), 0)
  }

  /** The free indices as a stack, top last; the stale cells are gone. */
  ghost function Stack(l: FreeList): seq<int>
    requires l.Shape()
  {
    l.cells[..l.top + 1]
  }

  /** The LIFO allocator: what was released last is handed out first. */
  ghost predicate AllowsLifo(stack: seq<int>, op: Op, stack': seq<int>, answer: int) {
    match op
    case Alloc =>
      if stack == [] then stack' == [] && answer == -1
      else answer == stack[|stack| - 1] && stack' == stack[..|stack| - 1]
    case Release(i) => stack' == stack + [i] && answer == 0
  }

  /** The allocator a client sees: a set of live indices out of 0..n-1. An allocation returns
      an index that is not live and fails only when all are. */
  ghost predicate Allows(n: nat, live: set<int>, op: Op, live': set<int>, answer: int) {
    match op
    case Alloc =>
      if live == Below(n) then live' == live && answer == -1
      else answer in Below(n) - live && live' == live + {answer}
    case Release(i) => live' == live - {i} && answer == 0
  }

  /** The client gives back only indices it holds. */
  ghost predicate Disciplined(l: FreeList, ops: seq<Op>)
    requires l.Shape()
    decreases |ops|
  {
    ops != [] ==>
      && (ops[0].Release? ==> ops[0].index in l.Live())
      && Disciplined(Apply(l, ops[0]).0, ops[1..])
  }

  function Run(l: FreeList, ops: seq<Op>): (FreeList, seq<int>)
    requires -1 <= l.top < |l.cells|
    ensures var r := Run(l, ops); |r.0.cells| == |l.cells| && -1 <= r.0.top < |l.cells| && |r.1| == |ops|
    decreases |ops|
  {
    if ops == [] then (l, []) else
      var (l1, a) := Apply(l, ops[0]);
      var (l2, rest) := Run(l1, ops[1..]);
      (l2, [a] + rest)
  }

  /** A run of both abstract allocators, in step: what is live is what is not on the stack. */
  ghost predicate Matches(n: nat, stacks: seq<seq<int>>, lives: seq<set<int>>, ops: seq<Op>, answers: seq<int>) {
    && |stacks| == |lives| == |ops| + 1 && |answers| == |ops|
    && (forall k | 0 <= k < |ops| :: AllowsLifo(stacks[k], ops[k], stacks[k + 1], answers[k]))
    && (forall k | 0 <= k < |ops| :: Allows(n, lives[k], ops[k], lives[k + 1], answers[k]))
    && (forall k | 0 <= k < |stacks| :: Complementary(n, stacks[k], lives[k]))
  }

  ghost predicate Complementary(n: nat, stack: seq<int>, live: set<int>) {
    forall i :: i in live <==> 0 <= i < n && i !in stack
  }

  lemma StepIsFresh(l: FreeList, op: Op)
    requires l.Valid() && (op.Release? ==> op.index in l.Live())
    ensures Apply(l, op).0.Valid() && |Apply(l, op).0.cells| == |l.cells|
    ensures Allows(|l.cells|, l.Live(), op, Apply(l, op).0.Live(), Apply(l, op).1)
  {
    FreePlusLive(l);
    match op
    case Alloc =>
      if l.top >= 0 {
        PopHandsOutFree(l);
      }
    case Release(i) =>
      PushFreesLive(l, i);
  }

  lemma StepIsLifo(l: FreeList, op: Op)
    requires l.Shape() && (op.Release? ==> l.top + 1 < |l.cells|)
    ensures Apply(l, op).0.Shape() && AllowsLifo(Stack(l), op, Stack(Apply(l, op).0), Apply(l, op).1)
  {
    match op
    case Alloc =>
      assert l.top >= 0 ==> Stack(l.Pop()) == Stack(l)[..l.top];
    case Release(i) =>
      assert Stack(l.Push(i)) == Stack(l) + [i];
  }

  lemma StackIsComplement(l: FreeList)
    requires l.Valid()
    ensures Complementary(|l.cells|, Stack(l), l.Live())
  {
    forall i
      ensures i in Stack(l) <==> l.IsFree(i)
    {
      if l.IsFree(i) {
        var k :| 0 <= k <= l.top && l.cells[k] == i;
        assert Stack(l)[k] == i;
      }
    }
  }

  /** The run of the array form from l, and the two abstract runs beside it. */
  ghost predicate Refines(l: FreeList, ops: seq<Op>, stacks: seq<seq<int>>, lives: seq<set<int>>)
    requires l.Shape()
  {
    var (l', answers) := Run(l, ops);
    && Matches(|l.cells|, stacks, lives, ops, answers) && l'.Valid()
    && stacks[0] == Stack(l) && lives[0] == l.Live()
    && stacks[|ops|] == Stack(l') && lives[|ops|] == l'.Live()
  }

  /** Every disciplined run of the array form is, answer by answer, a run of the LIFO allocator
      and of the set allocator. */
  lemma {:induction false} RunRefines(l: FreeList, ops: seq<Op>)
    returns (stacks: seq<seq<int>>, lives: seq<set<int>>)
    requires l.Valid() && Disciplined(l, ops)
    ensures Refines(l, ops, stacks, lives)
    decreases |ops|
  {
    if ops == [] {
      StackIsComplement(l);
      stacks, lives := [Stack(l)], [l.Live()];
    } else {
      StepIsFresh(l, ops[0]);
      stacks, lives := RunRefines(Apply(l, ops[0]).0, ops[1..]);
      RefinesOn(l, ops, stacks, lives);
      stacks, lives := [Stack(l)] + stacks, [l.Live()] + lives;
    }
  }

  lemma RefinesOn(l: FreeList, ops: seq<Op>, stacks: seq<seq<int>>, lives: seq<set<int>>)
    requires l.Valid() && ops != [] && (ops[0].Release? ==> ops[0].index in l.Live())
    requires Refines(Apply(l, ops[0]).0, ops[1..], stacks, lives)
    ensures Refines(l, ops, [Stack(l)] + stacks, [l.Live()] + lives)
  {
    FreePlusLive(l);
    StepIsLifo(l, ops[0]);
    StepIsFresh(l, ops[0]);
    StackIsComplement(l);
    var (l1, answer) := Apply(l, ops[0]);
    MatchesOn(|l.cells|, Stack(l), l.Live(), ops, answer, Run(l1, ops[1..]).1, stacks, lives);
  }

  lemma MatchesOn(n: nat, stack: seq<int>, live: set<int>, ops: seq<Op>, answer: int, answers: seq<int>,
                  stacks: seq<seq<int>>, lives: seq<set<int>>)
    requires ops != [] && Complementary(n, stack, live) && Matches(n, stacks, lives, ops[1..], answers)
    requires AllowsLifo(stack, ops[0], stacks[0], answer) && Allows(n, live, ops[0], lives[0], answer)
    ensures Matches(n, [stack] + stacks, [live] + lives, ops, [answer] + answers)
  {
    forall k | 0 <= k < |ops|
      ensures AllowsLifo(([stack] + stacks)[k], ops[k], ([stack] + stacks)[k + 1], ([answer] + answers)[k])
      ensures Allows(n, ([live] + lives)[k], ops[k], ([live] + lives)[k + 1], ([answer] + answers)[k])
    {
      if k > 0 {
        assert ops[k] == ops[1..][k - 1];
      }
    }
  }
}
