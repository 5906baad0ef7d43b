/** The buffer ring: how init_buf_ring_mode cuts a pool into slices, and how the reader finds a
    slice again from the buffer id of a completion. */
module BufferRing {

  datatype Entry = Entry(addr: int, len: nat, bid: nat)

  const BID_RANGE := 0x1_0000

  function SliceStart(addr: int, len: nat, i: nat): int { addr + i * len }

  ghost predicate InSlice(addr: int, len: nat, i: nat, a: int) {
    SliceStart(addr, len, i) <= a < SliceStart(addr, len, i) + len
  }

  /** The loop of init_buf_ring_mode: entry i goes to ring position i modulo the ring size. */
  method Publish(addr: int, len: nat, nentries: nat) returns (ring: array<Entry>)
    requires nentries > 0
    ensures fresh(ring) && ring.Length == nentries
    ensures forall i | 0 <= i < nentries :: ring[i] == Entry(SliceStart(addr, len, i), len, i % BID_RANGE)
    ensures nentries <= BID_RANGE ==> forall i | 0 <= i < nentries :: addr + ring[i].bid * len == ring[i].addr
  {
    ring := new Entry[nentries](_ => Entry(0, 0, 0));
    for i := 0 to nentries
      invariant forall k | 0 <= k < i :: ring[k] == Entry(SliceStart(addr, len, k), len, k % BID_RANGE)
    {
      assert i % nentries == i;
      ring[i % nentries] := Entry(SliceStart(addr, len, i), len, i % BID_RANGE);
    }
  }

  lemma {:induction false} StartsGrow(addr: int, len: nat, i: nat, j: nat)
    requires i < j
    ensures SliceStart(addr, len, i) + len <= SliceStart(addr, len, j)
    decreases j
  {
    assert j * len == (j - 1) * len + len;
    if i < j - 1 {
      StartsGrow(addr, len, i, j - 1);
    }
  }

  /** Slices do not overlap. */
  lemma SlicesAreDisjoint(addr: int, len: nat, i: nat, j: nat, a: int)
    requires InSlice(addr, len, i, a) && InSlice(addr, len, j, a)
    ensures i == j
  {
    if i < j {
      StartsGrow(addr, len, i, j);
    } else if j < i {
      StartsGrow(addr, len, j, i);
    }
  }

  /** Together the slices are the pool: an address is in the pool exactly when it is in a slice. */
  lemma SlicesTilePool(addr: int, len: nat, nentries: nat, a: int)
    ensures addr <= a < addr + nentries * len <==> exists i: nat :: i < nentries && InSlice(addr, len, i, a)
  {
    if addr <= a < addr + nentries * len {
      var i := SliceOf(len, nentries, a - addr);
      assert InSlice(addr, len, i, a);
    }
    if i: nat :| i < nentries && InSlice(addr, len, i, a) {
      StartsGrow(addr, len, i, nentries);
    }
  }

  lemma {:induction false} SliceOf(len: nat, nentries: nat, offset: int) returns (i: nat)
    requires 0 <= offset < nentries * len
    ensures i < nentries && i * len <= offset < i * len + len
    decreases nentries
  {
    var last: nat := nentries - 1;
    assert nentries * len == last * len + len;
    if offset >= last * len {
      i := last;
    } else {
      i := SliceOf(len, last, offset);
    }
  }

  /** The address the reader computes from a completion's buffer id is the slice published under
      that id, for every ring the 16-bit id can number, and for no larger one. */
  lemma ReaderFindsPublished(addr: int, len: nat, i: nat)
    ensures i < BID_RANGE ==> addr + (i % BID_RANGE) * len == SliceStart(addr, len, i)
    ensures i >= BID_RANGE && len > 0 ==> addr + (i % BID_RANGE) * len != SliceStart(addr, len, i)
  {
    if i >= BID_RANGE && len > 0 {
      StartsGrow(addr, len, i % BID_RANGE, i);
    }
  }

  /** The pool has to be contiguous: measured against a first buffer of `len` bytes, as the
      runtime allocates them, only slice 0 stays inside it. */
  lemma OnlyFirstSliceInOneBuffer(addr: int, len: nat, i: nat)
    requires len > 0
    ensures (forall a | InSlice(addr, len, i, a) :: addr <= a < addr + len) <==> i == 0
  {
    if i > 0 {
      StartsGrow(addr, len, 0, i);
      assert InSlice(addr, len, i, SliceStart(addr, len, i));
    }
  }
}
