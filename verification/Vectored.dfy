/** Scatter and gather over iovec arrays: the kernel fills the buffers in order, the reader
    rebuilds one byte string. */
module Vectored {
  import opened Core

  type Iovecs = seq<seq<Byte>>

  function Flatten(iov: Iovecs): seq<Byte> {
    if iov == [] then [] else iov[0] + Flatten(iov[1..])
  }

  function Min(a: int, b: int): int {
    if a <= b then a else b
  }

  /** What readv() of POSIX.1-2017 does with `data`: each area is filled completely before the
      next one is touched; bytes past the data keep their old value. */
  function Scatter(iov: Iovecs, data: seq<Byte>): Iovecs {
    if iov == [] then [] else
      var n := Min(|data|, |iov[0]|);
      [data[..n] + iov[0][n..]] + Scatter(iov[1..], data[n..])
  }

  ghost predicate SameShape(a: Iovecs, b: Iovecs) {
    |a| == |b| && forall i | 0 <= i < |a| :: |a[i]| == |b[i]|
  }

  lemma {:induction false} ScatterFlattens(iov: Iovecs, data: seq<Byte>)
    requires |data| <= |Flatten(iov)|
    ensures SameShape(Scatter(iov, data), iov)
    ensures Flatten(Scatter(iov, data)) == data + Flatten(iov)[|data|..]
  {
    if iov != [] {
      var n := Min(|data|, |iov[0]|);
      var head, tail := data[..n] + iov[0][n..], Scatter(iov[1..], data[n..]);
      ScatterFlattens(iov[1..], data[n..]);
      assert ([head] + tail)[1..] == tail;
      JoinHalves(iov[0], Flatten(iov[1..]), data);
    }
  }

  lemma JoinHalves(first: seq<Byte>, rest: seq<Byte>, data: seq<Byte>)
    requires |data| <= |first| + |rest|
    ensures var n := Min(|data|, |first|);
            |data[n..]| <= |rest| &&
            (data[..n] + first[n..]) + (data[n..] + rest[|data[n..]|..]) == data + (first + rest)[|data|..]
  {
    var n := Min(|data|, |first|);
    if |data| <= |first| {
      assert data[..n] == data && data[n..] == [] && (first + rest)[n..] == first[n..] + rest;
    } else {
      assert data[..n] + data[n..] == data && first[n..] == [];
      assert (first + rest)[|data|..] == rest[|data| - n..];
    }
  }

  /** The filling order itself: an area that the data does not reach the end of is the last
      one touched. */
  lemma {:induction false} ScatterFillsInOrder(iov: Iovecs, data: seq<Byte>, k: nat)
    requires k < |iov|
    requires |data| <= |Flatten(iov[..k])|
    ensures |Scatter(iov, data)| == |iov| && Scatter(iov, data)[k] == iov[k]
    decreases iov
  {
    var n := Min(|data|, |iov[0]|);
    var tail := Scatter(iov[1..], data[n..]);
    if k == 0 {
      ScatterNothing(iov);
      assert data == [];
    } else {
      assert iov[..k][1..] == iov[1..][..k - 1];
      ScatterFillsInOrder(iov[1..], data[n..], k - 1);
    }
  }

  lemma {:induction false} ScatterNothing(iov: Iovecs)
    ensures Scatter(iov, []) == iov
  {
    if iov != [] {
      ScatterNothing(iov[1..]);
      var none: seq<Byte> := [];
      assert none[..0] + iov[0][0..] == iov[0] && none[0..] == none;
    }
  }

  /** Gathering undoes scattering, whatever the buffers held and however they are cut. */
  lemma GatherUndoesScatter(iov: Iovecs, data: seq<Byte>)
    requires |data| <= |Flatten(iov)|
    ensures |Flatten(Scatter(iov, data))| == |Flatten(iov)|
    ensures Flatten(Scatter(iov, data))[..|data|] == data
  {
    ScatterFlattens(iov, data);
  }

  lemma {:induction false} FlattenSplit(iov: Iovecs, i: nat)
    requires i < |iov|
    ensures Flatten(iov[..i + 1]) == Flatten(iov[..i]) + iov[i]
  {
    if i == 0 {
      assert iov[..1] == [iov[0]] && iov[..0] == [] && [iov[0]][1..] == [];
    } else {
      FlattenSplit(iov[1..], i - 1);
      assert iov[..i + 1][1..] == iov[1..][..i] && iov[..i][1..] == iov[1..][..i - 1];
    }
  }

  lemma {:induction false} FlattenPrefix(iov: Iovecs, i: nat)
    requires i <= |iov|
    ensures Flatten(iov[..i]) <= Flatten(iov)
  {
    if i == 0 {
      assert iov[..0] == [];
    } else {
      FlattenPrefix(iov[1..], i - 1);
      assert iov[..i][1..] == iov[1..][..i - 1];
    }
  }

  /** memcpy into the result at an offset; the write must stay inside the array. */
  method CopyInto(dst: array<Byte>, at: nat, src: seq<Byte>, n: nat)
    requires n <= |src| && at + n <= dst.Length
    modifies dst
    ensures dst[at..at + n] == src[..n]
    ensures dst[..at] == old(dst[..at]) && dst[at + n..] == old(dst[at + n..])
  {
    for k := 0 to n
      invariant dst[at..at + k] == src[..k]
      invariant dst[..at] == old(dst[..at]) && dst[at + k..] == old(dst[at + k..])
    {
      dst[at + k] := src[k];
      assert dst[at..at + k + 1] == dst[at..at + k] + [src[k]];
      assert dst[at + k + 1..] == old(dst[at + k..])[1..];
    }
  }

  /** The gather loop of the READV and RECVMSG cases. Whatever `res` is, the result has exactly
      `res` bytes, no copy leaves it, and it starts with the buffers' concatenation as far as
      that reaches. */
  method Gather(iov: Iovecs, res: nat) returns (bytes: array<Byte>)
    ensures fresh(bytes) && bytes.Length == res
    ensures bytes[..Min(res, |Flatten(iov)|)] == Flatten(iov)[..Min(res, |Flatten(iov)|)]
  {
    bytes := new Byte[res];
    var remaining, dst, i := res, 0, 0;
    while i < |iov| && remaining > 0
      invariant 0 <= i <= |iov| && dst + remaining == res
      invariant remaining > 0 ==> dst == |Flatten(iov[..i])|
      invariant remaining == 0 ==> res <= |Flatten(iov[..i])|
      invariant 0 <= dst <= |Flatten(iov[..i])| && remaining >= 0
      invariant bytes[..dst] == Flatten(iov[..i])[..dst]
    {
      var chunk := |iov[i]|;
      if chunk > remaining {
        chunk := remaining;
      }
      FlattenSplit(iov, i);
      ghost var before := bytes[..dst];
      CopyInto(bytes, dst, iov[i], chunk);
      assert bytes[..dst + chunk] == before + iov[i][..chunk];
      dst := dst + chunk;
      remaining := remaining - chunk;
      i := i + 1;
    }
    FlattenPrefix(iov, i);
    assert i == |iov| ==> iov[..i] == iov;
  }
}
