/** Building and freeing buffer payloads: every block and every buffer view is accounted for,
    on success and at any point of failure. */
module Buffers {
  import opened Core

  ghost function Elems(s: seq<nat>): set<nat> { set x | x in s }

  predicate Distinct(s: seq<nat>) { forall i, j | 0 <= i < j < |s| :: s[i] != s[j] }

  /** The allocator and the buffer protocol: the k-th acquisition is granted or not, and what
      has been granted is live until it is released. Releasing anything else is a fault. */
  class Ledger {
    const grants: nat -> bool
    var next: nat
    var live: set<nat>
    var faults: nat

    ghost predicate Valid()
      reads this
    {
      forall x | x in live :: x < next
    }

    /** The `count` acquisitions from number `from` on are all granted. */
    ghost predicate Granted(from: nat, count: nat) { forall k | from <= k < from + count :: grants(k) }

    lemma GrantedFirst(from: nat, count: nat)
      ensures Granted(from, count + 1) <==> grants(from) && Granted(from + 1, count)
    {
    }

    constructor (grants: nat -> bool)
      ensures Valid() && live == {} && faults == 0 && this.grants == grants
    {
      this.grants := grants;
      next, live, faults := 0, {}, 0;
    }

    method Acquire() returns (id: Option<nat>)
      requires Valid()
      modifies this
      ensures Valid() && next == old(next) + 1 && faults == old(faults)
      ensures id == (if grants(old(next)) then Some(old(next)) else None)
      ensures live == old(live) + (if id.Some? then {id.value} else {})
    {
      id := if grants(next) then Some(next) else None;
      if id.Some? {
        live := live + {next};
      }
      next := next + 1;
    }

    method Release(id: nat)
      requires Valid()
      modifies this`live, this`faults
      ensures Valid() && live == old(live) - {id}
      ensures faults == old(faults) + (if id in old(live) then 0 else 1)
    {
      if id in live {
        live := live - {id};
      } else {
        faults := faults + 1;
      }
    }

    /** free(NULL) is allowed. */
    method ReleaseIfAny(id: Option<nat>)
      requires Valid() && (id.Some? ==> id.value in live)
      modifies this`live, this`faults
      ensures Valid() && live == old(live) - (if id.Some? then {id.value} else {}) && faults == old(faults)
    {
      if id.Some? {
        Release(id.value);
      }
    }

    /** The release loops: each element once. */
    method ReleaseAll(ids: seq<nat>)
      requires Valid() && Distinct(ids) && Elems(ids) <= live
      modifies this`live, this`faults
      ensures Valid() && live == old(live) - Elems(ids) && faults == old(faults)
    {
      for i := 0 to |ids|
        invariant Valid() && live == old(live) - Elems(ids[..i]) && faults == old(faults)
      {
        assert ids[i] !in ids[..i];
        Release(ids[i]);
        assert ids[..i + 1] == ids[..i] + [ids[i]];
      }
      assert ids[..|ids|] == ids;
    }

    /** The allocation loop of the create_* functions: all n blocks, or none. */
    method AcquireAll(n: nat) returns (ids: Option<seq<nat>>)
      requires Valid()
      modifies this
      ensures Valid() && faults == old(faults) && next >= old(next)
      ensures ids.None? ==> live == old(live)
      ensures ids.Some? ==> |ids.value| == n && Distinct(ids.value) && live == old(live) + Elems(ids.value)
      ensures ids.Some? ==> forall x | x in ids.value :: old(next) <= x < next
      ensures ids.Some? <==> Granted(old(next), n)
      ensures ids.Some? ==> next == old(next) + n
    {
      var got: seq<nat> := [];
      for i := 0 to n
        invariant next == old(next) + i && Granted(old(next), i)
        invariant Valid() && faults == old(faults) && next >= old(next) && |got| == i && Distinct(got)
        invariant live == old(live) + Elems(got) && forall x | x in got :: old(next) <= x < next
      {
        var id := Acquire();
        if id.None? {
          ReleaseAll(got);
          assert live == old(live);
          return None;
        }
        got := got + [id.value];
      }
      ids := Some(got);
    }

    /** The loop of serialize_linear_buffers: fetch the item, take its view, drop the item. */
    method TakeItemViews(n: nat) returns (views: Option<seq<nat>>)
      requires Valid()
      modifies this
      ensures Valid() && faults == old(faults) && next >= old(next)
      ensures views.None? ==> live == old(live)
      ensures views.Some? ==> |views.value| == n && Distinct(views.value) && live == old(live) + Elems(views.value)
      ensures views.Some? ==> forall x | x in views.value :: old(next) <= x < next
      ensures views.Some? <==> Granted(old(next), 2 * n)
      ensures views.Some? ==> next == old(next) + 2 * n
    {
      var got: seq<nat> := [];
      for i := 0 to n
        invariant next == old(next) + 2 * i && Granted(old(next), 2 * i)
        invariant Valid() && faults == old(faults) && next >= old(next) && |got| == i && Distinct(got)
        invariant live == old(live) + Elems(got) && forall x | x in got :: old(next) <= x < next
      {
        var item := Acquire();
        if item.None? {
          ReleaseAll(got);
          assert live == old(live);
          return None;
        }
        var view := Acquire();
        Release(item.value);
        if view.None? {
          ReleaseAll(got);
          assert live == old(live);
          return None;
        }
        got := got + [view.value];
      }
      views := Some(got);
    }
  }

  // ---------------------------------------------------------------------------- payloads

  /** An array of views together with the block that holds it. */
  datatype Views = Views(block: nat, views: seq<nat>)

  /** One form of a payload: its own block, for a vector also the iovec array, and either
      allocated buffers or borrowed views. */
  datatype Form = Form(block: nat, iovecs: Option<nat>, buffers: seq<nat>, views: Option<Views>)

  datatype Layout = Layout(
    header: nat, origin: PayloadOrigin, mode: BufferMode, amount: nat, linear: Option<Form>, vector: Option<Form>)

  function ViewIds(v: Option<Views>): seq<nat> { if v.None? then [] else v.value.views + [v.value.block] }

  /** Everything a form owns, in the order it is released. */
  function FormIds(f: Form): seq<nat> {
    f.buffers + ViewIds(f.views) + (if f.iovecs.Some? then [f.iovecs.value] else []) + [f.block]
  }

  function OptFormIds(f: Option<Form>): seq<nat> { if f.None? then [] else FormIds(f.value) }

  function Ids(p: Layout): seq<nat> { OptFormIds(p.linear) + OptFormIds(p.vector) + [p.header] }

  /** The counts the release loops go by agree with what the form holds. */
  ghost predicate Matches(f: Form, origin: PayloadOrigin, amount: nat) {
    if origin.RuntimeBuffers? then |f.buffers| == amount && f.views.None?
    else f.buffers == [] && f.views.Some? && |f.views.value.views| == amount
  }

  ghost predicate WellBuilt(p: Layout) {
    && Distinct(Ids(p))
    && (p.linear.Some? ==> Matches(p.linear.value, p.origin, p.amount))
    && (p.vector.Some? ==> Matches(p.vector.value, p.origin, p.amount))
  }

  /** The payload has one form only: linear, or a vector with its iovec array; of the user's views or
      of runtime buffers, n of them. */
  ghost predicate Single(p: Layout, linear: bool, given: bool, n: nat) {
    && p.amount == n && p.origin == (if given then UserBuffers else RuntimeBuffers)
    && (if linear then p.linear.Some? && p.vector.None? else p.vector.Some? && p.linear.None?)
    && (var f := if linear then p.linear.value else p.vector.value;
        && f.iovecs.Some? == !linear
        && (if given then f.buffers == [] && f.views.Some? && |f.views.value.views| == n
            else |f.buffers| == n && f.views.None?))
  }

  /** What a constructor promises about a form it returns. */
  ghost predicate NewForm(f: Form, origin: PayloadOrigin, amount: nat, from: nat, to: nat) {
    Matches(f, origin, amount) && Distinct(FormIds(f)) && forall x | x in FormIds(f) :: from <= x < to
  }

  lemma {:induction false} ElemsConcat(a: seq<nat>, b: seq<nat>)
    ensures Elems(a + b) == Elems(a) + Elems(b)
  {
  }

  lemma DistinctParts(a: seq<nat>, b: seq<nat>)
    requires Distinct(a + b)
    ensures Distinct(a) && Distinct(b) && Elems(a) !! Elems(b)
  {
    assert forall i | 0 <= i < |a| :: a[i] == (a + b)[i];
    assert forall j | 0 <= j < |b| :: b[j] == (a + b)[|a| + j];
    forall i, j | 0 <= i < |a| && 0 <= j < |b|
      ensures a[i] != b[j]
    {
      assert (a + b)[i] != (a + b)[|a| + j];
    }
  }

  /** Two batches of acquisitions released one after the other. */
  method ReleaseBoth(l: Ledger, a: seq<nat>, b: seq<nat>)
    requires l.Valid() && Distinct(a + b) && Elems(a + b) <= l.live
    modifies l`live, l`faults
    ensures l.Valid() && l.live == old(l.live) - Elems(a + b) && l.faults == old(l.faults)
  {
    DistinctParts(a, b);
    ElemsConcat(a, b);
    l.ReleaseAll(a);
    l.ReleaseAll(b);
  }

  /** free_buffer_payload: nothing for a context's payload unless forced; otherwise everything,
      each piece once. */
  method FreeBufferPayload(l: Ledger, p: Layout, force: bool)
    requires l.Valid() && WellBuilt(p) && Elems(Ids(p)) <= l.live
    modifies l`live, l`faults
    ensures l.Valid() && l.faults == old(l.faults)
    ensures l.live == if p.mode != Normal && !force then old(l.live) else old(l.live) - Elems(Ids(p))
  {
    if p.mode != Normal && !force {
      return;
    }
    var forms := OptFormIds(p.linear) + OptFormIds(p.vector);
    DistinctParts(forms, [p.header]);
    ElemsConcat(forms, [p.header]);
    DistinctParts(OptFormIds(p.linear), OptFormIds(p.vector));
    ElemsConcat(OptFormIds(p.linear), OptFormIds(p.vector));
    if p.linear.Some? {
      FreeForm(l, p.linear.value, p.origin, p.amount);
    }
    if p.vector.Some? {
      FreeForm(l, p.vector.value, p.origin, p.amount);
    }
    l.Release(p.header);
  }

  /** One form: runtime buffers, then the views and their array, then the blocks. */
  method FreeForm(l: Ledger, f: Form, origin: PayloadOrigin, amount: nat)
    requires l.Valid() && Distinct(FormIds(f)) && Matches(f, origin, amount) && Elems(FormIds(f)) <= l.live
    modifies l`live, l`faults
    ensures l.Valid() && l.faults == old(l.faults) && l.live == old(l.live) - Elems(FormIds(f))
  {
    var blocks := (if f.iovecs.Some? then [f.iovecs.value] else []) + [f.block];
    var contents := f.buffers + ViewIds(f.views);
    assert FormIds(f) == contents + blocks;
    DistinctParts(contents, blocks);
    ElemsConcat(contents, blocks);
    if origin.RuntimeBuffers? {
      assert f.buffers[..amount] == f.buffers && contents == f.buffers;
      l.ReleaseAll(f.buffers[..amount]);
    }
    if f.views.Some? {
      assert contents == f.views.value.views[..amount] + [f.views.value.block];
      ReleaseBoth(l, f.views.value.views[..amount], [f.views.value.block]);
    }
    l.ReleaseAll(blocks);
  }

  // ------------------------------------------------------------------------ constructors

  /** create_linear_buffers and create_vectored_buffers: blocks, then n buffers. A failure at
      any step has given back exactly what it had taken. */
  method CreateForm(l: Ledger, vector: bool, n: nat) returns (form: Option<Form>)
    requires l.Valid()
    modifies l
    ensures l.Valid() && l.faults == old(l.faults) && l.next >= old(l.next)
    ensures form.None? ==> l.live == old(l.live)
    ensures form.Some? <==> l.Granted(old(l.next), n + (if vector then 2 else 1))
    ensures form.Some? ==> NewForm(form.value, RuntimeBuffers, n, old(l.next), l.next)
    ensures form.Some? ==> form.value.iovecs.Some? == vector
    ensures form.Some? ==> l.live == old(l.live) + Elems(FormIds(form.value))
  {
    var block := l.Acquire();
    if block.None? {
      return None;
    }
    var iovecs: Option<nat> := None;
    if vector {
      iovecs := l.Acquire();
      if iovecs.None? {
        l.Release(block.value);
        assert l.live == old(l.live);
        return None;
      }
    }
    var buffers := l.AcquireAll(n);
    if buffers.None? {
      l.ReleaseIfAny(iovecs);
      l.Release(block.value);
      assert l.live == old(l.live);
      return None;
    }
    var f := Form(block.value, iovecs, buffers.value, None);
    RuntimeFormIds(f, n);
    form := Some(f);
  }

  lemma RuntimeFormIds(f: Form, n: nat)
    requires f.views.None? && |f.buffers| == n && Distinct(f.buffers)
    requires f.block !in f.buffers && (f.iovecs.Some? ==> f.iovecs.value !in f.buffers && f.iovecs.value != f.block)
    ensures Distinct(FormIds(f))
    ensures Elems(FormIds(f)) == Elems(f.buffers) + (if f.iovecs.Some? then {f.iovecs.value} else {}) + {f.block}
  {
    assert ViewIds(f.views) == [];
    assert f.buffers + [] == f.buffers;
  }

  /** serialize_linear_buffers: the views array and the buffer array are asked for together;
      then one view per item. */
  method SerializeLinear(l: Ledger, n: nat) returns (form: Option<Form>)
    requires l.Valid()
    modifies l
    ensures l.Valid() && l.faults == old(l.faults) && l.next >= old(l.next)
    ensures form.None? ==> l.live == old(l.live)
    ensures form.Some? <==> l.Granted(old(l.next), 2 + 2 * n)
    ensures form.Some? ==> NewForm(form.value, UserBuffers, n, old(l.next), l.next) && form.value.iovecs.None?
    ensures form.Some? ==> l.live == old(l.live) + Elems(FormIds(form.value))
  {
    var viewArray := l.Acquire();
    var block := l.Acquire();
    if viewArray.None? || block.None? {
      l.ReleaseIfAny(viewArray);
      l.ReleaseIfAny(block);
      assert l.live == old(l.live);
      return None;
    }
    var views := l.TakeItemViews(n);
    if views.None? {
      l.Release(viewArray.value);
      l.Release(block.value);
      assert l.live == old(l.live);
      return None;
    }
    var f := Form(block.value, None, [], Some(Views(viewArray.value, views.value)));
    UserFormIds(f, n);
    form := Some(f);
  }

  /** serialize_vectored_buffers: the same with an iovec array, around a sequence object that is
      given back on every path. */
  method SerializeVector(l: Ledger, n: nat) returns (form: Option<Form>)
    requires l.Valid()
    modifies l
    ensures l.Valid() && l.faults == old(l.faults) && l.next >= old(l.next)
    ensures form.None? ==> l.live == old(l.live)
    ensures form.Some? <==> l.Granted(old(l.next), 4 + n)
    ensures form.Some? ==> NewForm(form.value, UserBuffers, n, old(l.next), l.next) && form.value.iovecs.Some?
    ensures form.Some? ==> l.live == old(l.live) + Elems(FormIds(form.value))
  {
    var fast := l.Acquire();
    if fast.None? {
      return None;
    }
    form := SerializeItems(l, n);
    l.Release(fast.value);
  }

  /** The part of serialize_vectored_buffers between taking the sequence and giving it back. */
  method SerializeItems(l: Ledger, n: nat) returns (form: Option<Form>)
    requires l.Valid()
    modifies l
    ensures l.Valid() && l.faults == old(l.faults) && l.next >= old(l.next)
    ensures form.None? ==> l.live == old(l.live)
    ensures form.Some? <==> l.Granted(old(l.next), 3 + n)
    ensures form.Some? ==> NewForm(form.value, UserBuffers, n, old(l.next), l.next) && form.value.iovecs.Some?
    ensures form.Some? ==> l.live == old(l.live) + Elems(FormIds(form.value))
  {
    var viewArray := l.Acquire();
    var block := l.Acquire();
    if viewArray.None? || block.None? {
      l.ReleaseIfAny(viewArray);
      l.ReleaseIfAny(block);
      assert l.live == old(l.live);
      return None;
    }
    var iovecs := l.Acquire();
    if iovecs.None? {
      l.Release(viewArray.value);
      l.Release(block.value);
      assert l.live == old(l.live);
      return None;
    }
    var views := l.AcquireAll(n);
    if views.None? {
      l.Release(viewArray.value);
      l.Release(iovecs.value);
      l.Release(block.value);
      assert l.live == old(l.live);
      return None;
    }
    var f := Form(block.value, iovecs, [], Some(Views(viewArray.value, views.value)));
    UserFormIds(f, n);
    form := Some(f);
  }

  lemma UserFormIds(f: Form, n: nat)
    requires f.buffers == [] && f.views.Some? && |f.views.value.views| == n && Distinct(f.views.value.views)
    requires f.views.value.block != f.block && f.views.value.block !in f.views.value.views
    requires f.block !in f.views.value.views
    requires f.iovecs.Some? ==>
               && f.iovecs.value !in f.views.value.views
               && f.iovecs.value != f.block && f.iovecs.value != f.views.value.block
    ensures Distinct(FormIds(f))
    ensures Elems(FormIds(f)) == Elems(f.views.value.views) + {f.views.value.block}
                                 + (if f.iovecs.Some? then {f.iovecs.value} else {}) + {f.block}
  {
    assert f.buffers + ViewIds(f.views) == f.views.value.views + [f.views.value.block];
  }

  /** A payload around a single form: what get_or_create_vectored_buffer builds. A constructor
      that fails costs nothing. */
  method GetOrCreateVector(l: Ledger, given: bool, n: nat) returns (p: Option<Layout>)
    requires l.Valid()
    modifies l
    ensures l.Valid() && l.faults == old(l.faults)
    ensures p.Some? <==> l.Granted(old(l.next), if given then 5 + n else 4)
    ensures p.Some? ==> Single(p.value, false, given, if given then n else 1)
    ensures p.None? ==> l.live == old(l.live)
    ensures p.Some? ==> WellBuilt(p.value) && p.value.mode.Normal? && l.live == old(l.live) + Elems(Ids(p.value))
    ensures p.Some? ==> Elems(Ids(p.value)) !! old(l.live)
  {
    var header := l.Acquire();
    if header.None? {
      return None;
    }
    var form;
    if given {
      form := SerializeVector(l, n);
    } else {
      form := CreateForm(l, true, 1);
    }
    if form.None? {
      l.Release(header.value);
      assert l.live == old(l.live);
      return None;
    }
    var amount := if given then n else 1;
    var q := Layout(header.value, if given then UserBuffers else RuntimeBuffers, Normal, amount, None, form);
    SingleFormIds(q, form.value);
    p := Some(q);
  }

  lemma SingleFormIds(p: Layout, f: Form)
    requires (p.linear == Some(f) && p.vector.None?) || (p.linear.None? && p.vector == Some(f))
    requires Distinct(FormIds(f)) && p.header !in FormIds(f)
    ensures Distinct(Ids(p)) && Elems(Ids(p)) == Elems(FormIds(f)) + {p.header}
  {
    assert Ids(p) == FormIds(f) + [p.header];
  }

  /** get_or_create_linear_buffer ignores a constructor that fails: the payload is handed out
      with its linear pointer never set exactly then, and only its header is live. */
  method GetOrCreateLinear(l: Ledger, given: bool) returns (p: Option<Layout>)
    requires l.Valid()
    modifies l
    ensures l.Valid() && l.faults == old(l.faults)
    ensures p.Some? <==> l.grants(old(l.next))
    ensures p.Some? && p.value.linear.Some? ==> Single(p.value, true, given, 1)
    ensures p.Some? ==> p.value.vector.None?
    ensures p.Some? ==> (p.value.linear.Some? <==> l.Granted(old(l.next) + 1, if given then 4 else 2))
    ensures p.None? ==> l.live == old(l.live)
    ensures p.Some? ==> WellBuilt(p.value) && p.value.mode.Normal? && l.live == old(l.live) + Elems(Ids(p.value))
    ensures p.Some? && p.value.linear.None? ==> l.live == old(l.live) + {p.value.header}
    ensures p.Some? ==> Elems(Ids(p.value)) !! old(l.live)
  {
    var header := l.Acquire();
    if header.None? {
      return None;
    }
    var form;
    if given {
      form := SerializeLinear(l, 1);
    } else {
      form := CreateForm(l, false, 1);
    }
    var q := Layout(header.value, if given then UserBuffers else RuntimeBuffers, Normal, 1, form, None);
    if form.Some? {
      SingleFormIds(q, form.value);
    } else {
      assert Ids(q) == [header.value];
    }
    p := Some(q);
  }

  /** create_buffer_payload in PROVIDED and BUF_RING mode: when the form cannot be built the
      header, and nothing else, stays behind. */
  method CreateSelectedPayload(l: Ledger, mode: BufferMode, given: bool, n: nat) returns (p: Option<Layout>)
    requires l.Valid() && (mode.Provided? || mode.BufRing?)
    modifies l
    ensures l.Valid() && l.faults == old(l.faults)
    ensures p.Some? <==> l.Granted(old(l.next), if given then 3 + 2 * n else 2 + n)
    ensures p.Some? ==> Single(p.value, true, given, n)
    ensures p.None? ==> l.live == old(l.live) + (if l.grants(old(l.next)) then {old(l.next)} else {})
    ensures p.Some? ==> WellBuilt(p.value) && p.value.mode == mode && l.live == old(l.live) + Elems(Ids(p.value))
    ensures p.Some? ==> Elems(Ids(p.value)) !! old(l.live)
  {
    var header := l.Acquire();
    if header.None? {
      return None;
    }
    var form;
    if given {
      form := SerializeLinear(l, n);
    } else {
      form := CreateForm(l, false, n);
    }
    if form.None? {
      return None;
    }
    var q := Layout(header.value, if given then UserBuffers else RuntimeBuffers, mode, n, form, None);
    SingleFormIds(q, form.value);
    p := Some(q);
  }

  /** What create_buffer_payload_from_data owns, and that it is all new. */
  lemma DataIds(before: set<nat>, after: set<nat>, p: Layout, first: nat)
    requires forall x | x in before :: x < first
    requires after == before + {first} + {first + 1, first + 2, first + 3}
    requires p == Layout(first, UserBuffers, Normal, 1,
                         Some(Form(first + 1, None, [], Some(Views(first + 2, [first + 3])))), None)
    ensures WellBuilt(p)
    ensures after == before + Elems(Ids(p)) && Elems(Ids(p)) !! before
  {
    var ids := [first + 3, first + 2, first + 1, first];
    assert Ids(p) == ids;
    assert Elems(ids) == {first + 3, first + 2, first + 1, first} by {
      assert ids[0] in ids && ids[1] in ids && ids[2] in ids && ids[3] in ids;
    }
  }

  /** create_buffer_payload_from_data: header, linear block, views array, the data's view. */
  method FromData(l: Ledger) returns (p: Option<Layout>)
    requires l.Valid()
    modifies l
    ensures l.Valid() && l.faults == old(l.faults)
    ensures p.Some? <==> l.Granted(old(l.next), 4)
    ensures p.Some? ==> Single(p.value, true, true, 1)
    ensures p.None? ==> l.live == old(l.live)
    ensures p.Some? ==> WellBuilt(p.value) && p.value.mode.Normal? && l.live == old(l.live) + Elems(Ids(p.value))
    ensures p.Some? ==> Elems(Ids(p.value)) !! old(l.live)
  {
    l.GrantedFirst(l.next, 3);
    var header := l.Acquire();
    if header.None? {
      return None;
    }
    var form := DataForm(l);
    if form.None? {
      l.Release(header.value);
      assert l.live == old(l.live);
      return None;
    }
    var q := Layout(header.value, UserBuffers, Normal, 1, form, None);
    DataIds(old(l.live), l.live, q, old(l.next));
    p := Some(q);
  }

  /** Its linear block, views array and view, or nothing. */
  method DataForm(l: Ledger) returns (form: Option<Form>)
    requires l.Valid()
    modifies l
    ensures l.Valid() && l.faults == old(l.faults)
    ensures form.Some? <==> l.Granted(old(l.next), 3)
    ensures form.None? ==> l.live == old(l.live)
    ensures form.Some? ==> form.value == Form(old(l.next), None, [], Some(Views(old(l.next) + 1, [old(l.next) + 2])))
    ensures form.Some? ==> l.live == old(l.live) + {old(l.next), old(l.next) + 1, old(l.next) + 2}
  {
    var block := l.Acquire();
    if block.None? {
      return None;
    }
    var viewArray := l.Acquire();
    if viewArray.None? {
      l.Release(block.value);
      assert l.live == old(l.live);
      return None;
    }
    var view := l.Acquire();
    if view.None? {
      l.Release(viewArray.value);
      l.Release(block.value);
      assert l.live == old(l.live);
      return None;
    }
    form := Some(Form(block.value, None, [], Some(Views(viewArray.value, [view.value]))));
  }

  /** create_buffer_payload_from_pybuffer: the caller's view moves into the payload; if the
      payload cannot be built the view is still the caller's. */
  method FromPyBuffer(l: Ledger, view: nat) returns (p: Option<Layout>)
    requires l.Valid() && view in l.live
    modifies l
    ensures l.Valid() && l.faults == old(l.faults)
    ensures p.Some? <==> l.Granted(old(l.next), 4)
    ensures p.Some? ==> Single(p.value, false, true, 1)
    ensures p.None? ==> l.live == old(l.live)
    ensures p.Some? ==> WellBuilt(p.value) && p.value.mode.Normal? && view in Ids(p.value)
    ensures p.Some? ==> l.live == old(l.live) + Elems(Ids(p.value))
    ensures p.Some? ==> Elems(Ids(p.value)) - {view} !! old(l.live)
  {
    l.GrantedFirst(l.next, 3);
    var header := l.Acquire();
    if header.None? {
      return None;
    }
    var form := PyBufferForm(l, view);
    if form.None? {
      l.Release(header.value);
      assert l.live == old(l.live);
      return None;
    }
    var q := Layout(header.value, UserBuffers, Normal, 1, None, form);
    ViewMoves(old(l.live), l.live, q, old(l.next), view);
    p := Some(q);
  }

  /** What create_buffer_payload_from_pybuffer owns: the caller's view and otherwise new. */
  lemma ViewMoves(before: set<nat>, after: set<nat>, p: Layout, first: nat, view: nat)
    requires view in before && forall x | x in before :: x < first
    requires after == before + {first} + {first + 1, first + 2, first + 3}
    requires p == Layout(first, UserBuffers, Normal, 1, None,
                         Some(Form(first + 1, Some(first + 2), [], Some(Views(first + 3, [view])))))
    ensures WellBuilt(p) && view in Ids(p)
    ensures after == before + Elems(Ids(p)) && Elems(Ids(p)) - {view} !! before
  {
    var ids := [view, first + 3, first + 2, first + 1, first];
    assert Ids(p) == ids;
    FiveElems(view, first);
  }

  lemma FiveElems(view: nat, first: nat)
    requires view < first
    ensures var ids := [view, first + 3, first + 2, first + 1, first];
            Distinct(ids) && view in ids && Elems(ids) == {view} + {first} + {first + 1, first + 2, first + 3}
  {
    var ids := [view, first + 3, first + 2, first + 1, first];
    assert ids[0] in ids && ids[1] in ids && ids[2] in ids && ids[3] in ids && ids[4] in ids;
  }

  /** Its vector block, iovec array and views array around the caller's view, or nothing. */
  method PyBufferForm(l: Ledger, view: nat) returns (form: Option<Form>)
    requires l.Valid()
    modifies l
    ensures l.Valid() && l.faults == old(l.faults)
    ensures form.Some? <==> l.Granted(old(l.next), 3)
    ensures form.None? ==> l.live == old(l.live)
    ensures form.Some? ==>
              form.value == Form(old(l.next), Some(old(l.next) + 1), [], Some(Views(old(l.next) + 2, [view])))
    ensures form.Some? ==> l.live == old(l.live) + {old(l.next), old(l.next) + 1, old(l.next) + 2}
  {
    var block := l.Acquire();
    if block.None? {
      return None;
    }
    var iovecs := l.Acquire();
    if iovecs.None? {
      l.Release(block.value);
      assert l.live == old(l.live);
      return None;
    }
    var viewArray := l.Acquire();
    if viewArray.None? {
      l.Release(iovecs.value);
      l.Release(block.value);
      assert l.live == old(l.live);
      return None;
    }
    form := Some(Form(block.value, iovecs, [], Some(Views(viewArray.value, [view]))));
  }

  // ------------------------------------------------------------------- build, then free

  /** The constructors of single-form payloads: those a request owns, and the selected modes' that
      a context owns. */
  datatype Build =
    | OfData | OfPyBuffer(view: nat) | OfVector(given: bool, n: nat) | OfLinear(given: bool)
    | OfSelected(mode: BufferMode, given: bool, n: nat)

  /** How many acquisitions a constructor asks for after the header. */
  function Needs(build: Build): nat {
    match build
    case OfData | OfPyBuffer(_) => 3
    case OfVector(given, n) => if given then 4 + n else 3
    case OfLinear(given) => if given then 4 else 2
    case OfSelected(_, given, n) => if given then 2 + 2 * n else 1 + n
  }

  /** From construction to release nothing is lost and nothing released twice: whatever the
      allocator grants, the ledger is as before, except that a view handed over to a payload
      that was built has gone with it. A context's payload takes the forced release. Two
      constructors leave their header behind when the header is granted and the rest is not: the
      linear one, whose payload cannot be freed with its pointer unset, and the selected one. */
  method BuildThenFree(l: Ledger, build: Build) returns (built: bool, left: Option<nat>)
    requires l.Valid() && (build.OfPyBuffer? ==> build.view in l.live)
    requires build.OfSelected? ==> build.mode.Provided? || build.mode.BufRing?
    modifies l
    ensures l.Valid() && l.faults == old(l.faults)
    ensures built <==> l.Granted(old(l.next), 1 + Needs(build))
    ensures left.Some? <==> (build.OfLinear? || build.OfSelected?) && l.grants(old(l.next)) && !built
    ensures l.live == if left.Some? then old(l.live) + {left.value}
                      else if built && build.OfPyBuffer? then old(l.live) - {build.view}
                      else old(l.live)
  {
    l.GrantedFirst(l.next, Needs(build));
    var p;
    match build {
      case OfData => p := FromData(l);
      case OfPyBuffer(view) => p := FromPyBuffer(l, view);
      case OfVector(given, n) => p := GetOrCreateVector(l, given, n);
      case OfLinear(given) => p := GetOrCreateLinear(l, given);
      case OfSelected(mode, given, n) =>
        var header := l.next;
        p := CreateSelectedPayload(l, mode, given, n);
        if p.None? {
          return false, if l.grants(header) then Some(header) else None;
        }
    }
    built, left := p.Some?, None;
    if built && build.OfLinear? && p.value.linear.None? {
      return false, Some(p.value.header);
    }
    if built {
      FreeBufferPayload(l, p.value, build.OfSelected?);
    }
  }
}
