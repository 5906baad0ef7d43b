/** The heap of scheduled timer handles, ordered by deadline, as heapq keeps it in a list. */
module TimerHeap {

  /** A callback handle; only timers have a deadline. */
  datatype Handle = Handle(id: nat, timer: bool, when: real)

  predicate Child(i: int, c: int) { c == 2 * i + 1 || c == 2 * i + 2 }

  ghost predicate IsHeap(s: seq<Handle>) {
    forall i, c | 0 <= i < c < |s| && Child(i, c) :: s[i].when <= s[c].when
  }

  /** The root carries the earliest deadline. */
  lemma {:induction false} RootIsEarliest(s: seq<Handle>, k: nat)
    requires IsHeap(s) && k < |s|
    ensures s[0].when <= s[k].when
  {
    if k > 0 {
      var p := (k - 1) / 2;
      assert Child(p, k);
      RootIsEarliest(s, p);
    }
  }

  /** Ordered everywhere except between j and its children. */
  ghost predicate HeapBelow(s: seq<Handle>, j: int) {
    && (forall i, c | 0 <= i < c < |s| && Child(i, c) && i != j :: s[i].when <= s[c].when)
    && (forall i, c | 0 <= i < j < c < |s| && Child(i, j) && Child(j, c) :: s[i].when <= s[c].when)
  }

  /** Ordered everywhere except between j and its parent. */
  ghost predicate HeapAbove(s: seq<Handle>, j: int) {
    && (forall i, c | 0 <= i < c < |s| && Child(i, c) && c != j :: s[i].when <= s[c].when)
    && (forall i, c | 0 <= i < j < c < |s| && Child(i, j) && Child(j, c) :: s[i].when <= s[c].when)
  }

  function Swap(s: seq<Handle>, i: nat, j: nat): (r: seq<Handle>)
    requires i < |s| && j < |s|
    ensures |r| == |s| && multiset(r) == multiset(s)
  {
    s[i := s[j]][j := s[i]]
  }

  function SmallerChild(s: seq<Handle>, j: nat): (c: nat)
    requires 2 * j + 1 < |s|
    ensures c < |s| && Child(j, c)
  {
    if 2 * j + 2 < |s| && s[2 * j + 2].when < s[2 * j + 1].when then 2 * j + 2 else 2 * j + 1
  }

  function SiftDown(s: seq<Handle>, j: nat): (r: seq<Handle>)
    requires j < |s|
    ensures |r| == |s| && multiset(r) == multiset(s)
    decreases |s| - j
  {
    if 2 * j + 1 >= |s| then s
    else
      var c := SmallerChild(s, j);
      if s[c].when < s[j].when then SiftDown(Swap(s, j, c), c) else s
  }

  lemma {:induction false} SiftDownRestores(s: seq<Handle>, j: nat)
    requires j < |s| && HeapBelow(s, j)
    ensures IsHeap(SiftDown(s, j))
    decreases |s| - j
  {
    if 2 * j + 1 < |s| {
      var c := SmallerChild(s, j);
      if s[c].when < s[j].when {
        SwapDownKeeps(s, j, c);
        SiftDownRestores(Swap(s, j, c), c);
      }
    }
  }

  lemma SwapDownKeeps(s: seq<Handle>, j: nat, c: nat)
    requires 2 * j + 1 < |s| && HeapBelow(s, j) && c == SmallerChild(s, j) && s[c].when < s[j].when
    ensures HeapBelow(Swap(s, j, c), c)
  {
    var t := Swap(s, j, c);
    forall i, d | 0 <= i < d < |t| && Child(i, d) && i != c
      ensures t[i].when <= t[d].when
    {
      if i == j {
        assert s[c].when <= s[d].when;
      } else if d == j {
        assert s[i].when <= s[c].when;
      }
    }
    forall i, d | 0 <= i < c < d < |t| && Child(i, c) && Child(c, d)
      ensures t[i].when <= t[d].when
    {
      assert i == j;
    }
  }

  function SiftUp(s: seq<Handle>, j: nat): (r: seq<Handle>)
    requires j < |s|
    ensures |r| == |s| && multiset(r) == multiset(s)
    decreases j
  {
    if j == 0 || s[(j - 1) / 2].when <= s[j].when then s
    else SiftUp(Swap(s, (j - 1) / 2, j), (j - 1) / 2)
  }

  lemma {:induction false} SiftUpRestores(s: seq<Handle>, j: nat)
    requires j < |s| && HeapAbove(s, j)
    ensures IsHeap(SiftUp(s, j))
    decreases j
  {
    if j > 0 {
      var p := (j - 1) / 2;
      assert Child(p, j) && forall i | Child(i, j) :: i == p;
      if s[p].when > s[j].when {
        SwapUpKeeps(s, p, j);
        SiftUpRestores(Swap(s, p, j), p);
      }
    }
  }

  lemma SwapUpKeeps(s: seq<Handle>, p: nat, j: nat)
    requires p < j < |s| && Child(p, j) && HeapAbove(s, j) && s[p].when > s[j].when
    ensures HeapAbove(Swap(s, p, j), p)
  {
    var t := Swap(s, p, j);
    forall i, d | 0 <= i < d < |t| && Child(i, d) && d != p
      ensures t[i].when <= t[d].when
    {
      if i == p && d != j {
        assert s[p].when <= s[d].when;
      } else if i == j {
        assert s[p].when <= s[d].when;
      }
    }
    forall i, d | 0 <= i < p < d < |t| && Child(i, p) && Child(p, d)
      ensures t[i].when <= t[d].when
    {
      assert s[i].when <= s[p].when;
      if d != j {
        assert s[p].when <= s[d].when;
      }
    }
  }

  function Push(s: seq<Handle>, h: Handle): (r: seq<Handle>)
    ensures multiset(r) == multiset(s) + multiset{h}
  {
    SiftUp(s + [h], |s|)
  }

  lemma PushKeepsHeap(s: seq<Handle>, h: Handle)
    requires IsHeap(s)
    ensures IsHeap(Push(s, h))
  {
    SiftUpRestores(s + [h], |s|);
  }

  /** The list after heappop has taken the root. */
  function Pop(s: seq<Handle>): (r: seq<Handle>)
    requires s != []
    ensures |r| == |s| - 1
  {
    var n := |s| - 1;
    if n == 0 then [] else SiftDown(s[..n][0 := s[n]], 0)
  }

  lemma PopTakesRoot(s: seq<Handle>)
    requires s != []
    ensures multiset(Pop(s)) + multiset{s[0]} == multiset(s)
    ensures IsHeap(s) ==> IsHeap(Pop(s))
  {
    var n := |s| - 1;
    assert s == s[..n] + [s[n]];
    if n > 0 {
      var t := s[..n][0 := s[n]];
      assert s[..n] == [s[0]] + s[1..n] && t == [s[n]] + s[1..n];
      if IsHeap(s) {
        assert HeapBelow(t, 0);
        SiftDownRestores(t, 0);
      }
    }
  }
}
