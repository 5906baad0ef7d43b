/** The loop's own code in the form it has: a registry over two arrays, a reader that walks the
    completion queue, a drain, and the close and dealloc paths. Each method is proved against
    the function of Runtime, Reader, Protocol or Shutdown that the protocol theorems are about. */
module EventLoop {
  import opened Core
  import opened FreeLists
  import opened Vectored
  import opened Runtime
  import opened Reader
  import opened Requests
  import opened Protocol
  import opened Shutdown

  const DEFAULT_REGISTRY_SIZE := 25000

  class RequestRegistry {
    var slots: array<Slot>
    var available: array<int>
    var top: int

    ghost function View(): Registry
      reads this, slots, available
    {
      Registry(slots[..], FreeList(available[..], top))
    }

    constructor (size: nat)
      ensures fresh(slots) && fresh(available)
      ensures View() == NewRegistry(if size == 0 then 25000 else size)
      ensures View().Structured()
    {
      var n := if size == 0 then DEFAULT_REGISTRY_SIZE else size;
      slots := new Slot[n](_ => EMPTY_SLOT);
      available := new int[n];
      top := n - 1;
      new;
      for i := 0 to n
        invariant slots.Length == available.Length == n && top == n - 1 && fresh(slots) && fresh(available)
        invariant forall k | 0 <= k < n :: slots[k] == EMPTY_SLOT
        invariant forall k | 0 <= k < i :: available[k] == k
      {
        available[i] := i;
      }
      assert available[..] == Identity(n) && slots[..] == NewRegistry(n).slots;
      NewIsStructured(n);
    }

    method Add(h: Heap, f: nat, req: Request) returns (index: int, h': Heap)
      requires View().Wf()
      modifies this`top, slots
      ensures View().Wf() && (System(View(), h'), index) == Runtime.Add(old(System(View(), h)), f, req)
    {
      h' := h;
      if top < 0 {
        return -1, h';
      }
      index := available[top];
      top := top - 1;
      slots[index] := SlotOf(f, req, index);
      h' := Incref(h', Fut(f));
      h' := TakeThing(h', req.socket);
      h' := TakeThing(h', req.file);
      TakenInTurn(h.refs, SlotOf(f, req, index));
      assert slots[..] == old(slots[..])[index := SlotOf(f, req, index)];
    }

    method Get(index: int) returns (slot: Option<Slot>)
      requires View().Wf()
      ensures slot == if 0 <= index < |View().slots| then Some(View().slots[index]) else None
    {
      slot := if index < 0 || index >= slots.Length then None else Some(slots[index]);
    }

    /** `ok` is false when the code would call abort(). */
    method Remove(h: Heap, index: int) returns (ok: bool, h': Heap)
      requires View().Wf() && slots.Length == available.Length
      modifies this`top, slots, available
      ensures slots == old(slots) && available == old(available)
      ensures ok <==> Runtime.Remove(old(System(View(), h)), index).Fine?
      ensures ok ==> View().Wf() && System(View(), h') == Runtime.Remove(old(System(View(), h)), index).value
      ensures !ok ==> View() == old(View())
    {
      h' := h;
      if index < 0 || index >= slots.Length {
        return true, h';
      }
      if top >= slots.Length - 1 {
        return false, h';
      }
      h' := LetGo(h, slots[index], false);
      slots[index] := ClearSlot(slots[index]);
      top := top + 1;
      available[top] := index;
      ok := true;
    }

    method Destroy(h: Heap) returns (h': Heap)
      modifies this
      ensures h' == DestroyPrefix(h, old(View()).slots, |old(View()).slots|)
      ensures View() == Registry([], FreeList([], -1))
    {
      h' := h;
      ghost var all := slots[..];
      for i := 0 to slots.Length
        invariant slots == old(slots) && slots[..] == all
        invariant h' == DestroyPrefix(h, all, i)
      {
        h' := LetGo(h', slots[i], true);
      }
      slots, available, top := new Slot[0], new int[0], -1;
    }
  }

  /** What registry_remove and registry_destroy both do with a slot: drop the future, the
      payload, the socket and the file, in that order. */
  method LetGo(h: Heap, slot: Slot, force: bool) returns (h': Heap)
    ensures h' == DecrefAll(if slot.payload.Some? then FreePayload(h, slot.payload.value, force) else h, Names(slot))
  {
    h' := DropFuture(h, slot.future);
    if slot.payload.Some? {
      h' := FreePayload(h', slot.payload.value, force);
    }
    h' := DropThing(h', slot.socket);
    h' := DropThing(h', slot.file);
    DroppedInTurn(h.refs, slot);
  }

  method DropFuture(h: Heap, f: Option<nat>) returns (h': Heap)
    ensures h' == h.(refs := h.refs - OneFuture(f))
  {
    h' := h;
    if f.Some? {
      h' := Decref(h', Fut(f.value));
    }
  }

  method DropThing(h: Heap, t: Option<nat>) returns (h': Heap)
    ensures h' == h.(refs := h.refs - OneThing(t))
  {
    h' := h;
    if t.Some? {
      h' := Decref(h', Thing(t.value));
    }
  }

  method TakeThing(h: Heap, t: Option<nat>) returns (h': Heap)
    ensures h' == h.(refs := h.refs + OneThing(t))
  {
    h' := h;
    if t.Some? {
      h' := Incref(h', Thing(t.value));
    }
  }

  function OneFuture(f: Option<nat>): multiset<Obj> { if f.Some? then multiset{Fut(f.value)} else multiset{} }

  function OneThing(t: Option<nat>): multiset<Obj> { if t.Some? then multiset{Thing(t.value)} else multiset{} }

  lemma TakenInTurn(refs: multiset<Obj>, slot: Slot)
    ensures refs + OneFuture(slot.future) + OneThing(slot.socket) + OneThing(slot.file) == refs + Names(slot)
  {
  }

  lemma DroppedInTurn(refs: multiset<Obj>, slot: Slot)
    ensures refs - OneFuture(slot.future) - OneThing(slot.socket) - OneThing(slot.file) == refs - Names(slot)
  {
  }

  // ----------------------------------------------------------------------------- reader

  /** A new result object, with the reference its creator holds. */
  method NewObject(h: Heap, v: Value) returns (h': Heap, result: Option<Delivery>)
    ensures h' == Incref(h.(things := h.things + 1), Thing(h.things)) && result == Some(Delivery(Thing(h.things), v))
  {
    h' := Incref(h.(things := h.things + 1), Thing(h.things));
    result := Some(Delivery(Thing(h.things), v));
  }

  /** The bytes of an iovec payload, gathered; undefined when the buffers are shorter. */
  method GatherBytes(vector: Option<Iovecs>, res: int) returns (bytes: Outcome<seq<Byte>>)
    ensures bytes == VectorPrefix(vector, res)
  {
    if vector.None? || res < 0 || res > |Flatten(vector.value)| {
      return Crashed(BadAccess);
    }
    var gathered := Gather(vector.value, res);
    bytes := Fine(gathered[..]);
    assert gathered[..] == gathered[..res];
  }

  /** The cases that look into a payload; the pointer has been found good. */
  method SwitchPayload(h: Heap, slot: Slot, res: int)
    returns (fine: bool, h': Heap, slot': Slot, result: Option<Delivery>)
    requires slot.payload.Some? && slot.payload.value < |h.payloads|
    requires || slot.opcode.OpRead? || slot.opcode.OpReadv? || slot.opcode.OpRecvmsg?
             || (slot.opcode.OpRecv? && slot.socket.Some?)
    ensures fine <==> Dispatch(h, slot, res).Fine?
    ensures fine ==> Dispatch(h, slot, res) == Fine(Dispatched(h', slot', result))
  {
    fine, h', slot', result := true, h, slot, None;
    var b := h.payloads[slot.payload.value];
    var bytes: Outcome<seq<Byte>>;
    if slot.opcode.OpRecvmsg? && slot.stream.Multishot? {
      h' := ReleaseIndex(h', slot.payload.value);
      if b.linear.NoLinear? {
        fine := false;
        return;
      }
      h', result := NewObject(h', MultishotMessage);
      return;
    }
    if slot.opcode.OpReadv? || (slot.opcode.OpRecvmsg? && !b.kind.Linear?) {
      bytes := GatherBytes(b.vector, res);
    } else if slot.opcode.OpRecv? && res == 0 {
      bytes := Fine([]);
    } else {
      bytes := LinearPrefix(b.linear, res);
    }
    var nothing := slot.opcode.OpRead? && b.linear.NullBuffer?;
    if bytes.Crashed? && !nothing {
      fine := false;
      return;
    }
    if !slot.opcode.OpReadv? {
      h' := ReleaseIndex(h', slot.payload.value);
    }
    h' := FreePayload(h', slot.payload.value, false);
    slot' := slot'.(payload := None);
    if !nothing {
      h', result := NewObject(h', Bytes(bytes.value));
    }
  }

  /** The cases whose result is a count, and whose payload, if any, has been consumed. */
  method SwitchCount(h: Heap, slot: Slot, res: int)
    returns (fine: bool, h': Heap, slot': Slot, result: Option<Delivery>)
    requires slot.opcode.OpWrite? || slot.opcode.OpWritev? || slot.opcode.OpSend? || slot.opcode.OpSendmsg?
    ensures fine <==> Dispatch(h, slot, res).Fine?
    ensures fine ==> Dispatch(h, slot, res) == Fine(Dispatched(h', slot', result))
  {
    fine, h', slot', result := true, h, slot, None;
    if slot.payload.None? {
      fine := !slot.opcode.OpWrite?;
    } else if slot.opcode.OpWritev? {
      h' := FreePayload(h', slot.payload.value, false);
      slot' := slot'.(payload := None);
    } else if slot.payload.value >= |h.payloads| {
      fine := false;
    } else {
      h' := FreePayload(ReleaseIndex(h', slot.payload.value), slot.payload.value, slot.opcode.OpWrite?);
      slot' := slot'.(payload := None);
    }
    h', result := NewObject(h', Int(res));
  }

  /** The switch over the opcode of a successful completion. */
  method Switch(h: Heap, slot: Slot, res: int)
    returns (fine: bool, h': Heap, slot': Slot, result: Option<Delivery>)
    ensures fine <==> Dispatch(h, slot, res).Fine?
    ensures fine ==> Dispatch(h, slot, res) == Fine(Dispatched(h', slot', result))
  {
    fine, h', slot', result := true, h, slot, None;
    match slot.opcode {
      case OpRead | OpReadv | OpRecvmsg =>
        if slot.payload.None? || slot.payload.value >= |h.payloads| {
          fine := false;
        } else {
          fine, h', slot', result := SwitchPayload(h, slot, res);
        }
      case OpRecv =>
        if slot.socket.Some? {
          if slot.payload.None? || slot.payload.value >= |h.payloads| {
            fine := false;
          } else {
            fine, h', slot', result := SwitchPayload(h, slot, res);
          }
        }
      case OpWrite | OpWritev | OpSend | OpSendmsg =>
        fine, h', slot', result := SwitchCount(h, slot, res);
      case OpOpenat2 =>
        if slot.file.Some? {
          result := Some(Delivery(Thing(slot.file.value), OpenedFile(res)));
        }
      case OpSocket =>
        if slot.socket.Some? {
          result := Some(Delivery(Thing(slot.socket.value), OpenedSocket(res)));
        }
      case OpBind | OpConnect | OpListen =>
        if slot.socket.Some? {
          h', result := NewObject(h', Int(res));
        }
      case OpAccept =>
        if slot.socket.Some? {
          slot' := slot'.(payload := None);
          h', result := NewObject(h', Connection(res));
        }
      case OpClose =>
        if slot.socket.Some? || slot.file.Some? {
          h', result := NewObject(h', Int(res));
        }
      case OpTimeout =>
        h' := Incref(h', PyNone);
        result := Some(Delivery(PyNone, NoneValue));
      case _ =>
        h', result := NewObject(h', Int(res));
    }
  }

  /** set_exception for an error; otherwise the switch, then set_result and the reader's own
      reference dropped. */
  method TellFuture(h: Heap, slot: Slot, f: nat, res: int) returns (fine: bool, h': Heap, slot': Slot)
    ensures fine ==> Inform(h, slot, f, res) == Fine((h', slot'))
    ensures !fine ==> Inform(h, slot, f, res) == Crashed(BadAccess)
  {
    if Failed(slot.opcode, res) {
      return true, SetException(h, f, OsError(-res)), slot;
    }
    DispatchKeepsFuture(h, slot, res);
    var result;
    fine, h', slot', result := Switch(h, slot, res);
    if fine && result.Some? {
      h' := SetResult(h', f, result.value.obj, result.value.value);
      h' := Decref(h', result.value.obj);
    }
  }

  lemma RemoveOnlyAborts(s: System, index: nat, f: nat, res: int)
    requires s.reg.Wf() && index < |s.reg.slots| && Tell(s, index, f, res).Fine?
    ensures var r := Runtime.Remove(Tell(s, index, f, res).value, index);
            ReapSlot(s, index, f, res) == r && (r.Crashed? ==> r == Crashed(Abort))
  {
  }

  // ------------------------------------------------------------------------------- loop

  function Concat(parts: seq<seq<Cqe>>): seq<Cqe> {
    if parts == [] then [] else Concat(parts[..|parts| - 1]) + parts[|parts| - 1]
  }

  /** What the ring has shown after some waits: what was queued, and what arrived during each. */
  function Shown(cq: seq<Cqe>, arrivals: seq<seq<Cqe>>, waits: nat): seq<Cqe> {
    cq + Concat(if waits <= |arrivals| then arrivals[..waits] else arrivals)
  }

  /** How the drain ends. Each trip is one wait, and takes one completion. It goes on as long as a
      wait shows one, and ends well at the first that shows none: one wait more than completions. It
      ends badly at the first completion whose removal aborts. */
  ghost predicate Ends(s: System, cq: seq<Cqe>, arrivals: seq<seq<Cqe>>, ok: bool, seen: seq<Cqe>, waits: nat)
    requires s.reg.Wf()
  {
    && 1 <= waits <= |seen| + 1 && seen == Shown(cq, arrivals, waits)
    && (forall k | 1 <= k < waits :: |Shown(cq, arrivals, k)| >= k)
    && (if ok then waits == |seen| + 1 && DrainAll(s, seen).Fine?
        else && waits <= |seen| && DrainAll(s, seen[..waits - 1]).Fine?
             && DrainAll(s, seen[..waits]).Crashed? && DrainAll(s, seen).Crashed?)
  }

  lemma ShownOn(cq: seq<Cqe>, arrivals: seq<seq<Cqe>>, k: nat)
    ensures Shown(cq, arrivals, k + 1) == Shown(cq, arrivals, k) + (if k < |arrivals| then arrivals[k] else [])
  {
    if k < |arrivals| {
      ConcatOn(arrivals, k);
      assert cq + (Concat(arrivals[..k]) + arrivals[k]) == (cq + Concat(arrivals[..k])) + arrivals[k];
    } else {
      assert arrivals[..|arrivals|] == arrivals;
      assert Shown(cq, arrivals, k) + [] == Shown(cq, arrivals, k);
    }
  }

  lemma ConcatOn(parts: seq<seq<Cqe>>, k: nat)
    requires k < |parts|
    ensures Concat(parts[..k + 1]) == Concat(parts[..k]) + parts[k]
  {
    assert parts[..k + 1][..k] == parts[..k];
  }

  lemma {:induction false} ConcatPrefix(parts: seq<seq<Cqe>>, k: nat)
    requires k <= |parts|
    ensures Concat(parts[..k]) <= Concat(parts)
    decreases |parts|
  {
    if k < |parts| {
      assert parts[..|parts| - 1][..k] == parts[..k];
      ConcatPrefix(parts[..|parts| - 1], k);
    } else {
      assert parts[..k] == parts;
    }
  }

  lemma ShownIsArrivable(s: State, arrivals: seq<seq<Cqe>>, waits: nat) returns (more: seq<Cqe>)
    requires Arrivable(s, Concat(arrivals))
    ensures Arrivable(s, more) && Shown(s.cq, arrivals, waits) == s.cq + more
  {
    var k := if waits <= |arrivals| then waits else |arrivals|;
    assert arrivals[..|arrivals|] == arrivals;
    ConcatPrefix(arrivals, k);
    more := Concat(arrivals[..k]);
    assert forall j | 0 <= j < |more| :: more[j] == Concat(arrivals)[j];
  }

  /** In every protocol state, whatever answers and strays arrive during the waits, the drain ends
      well. */
  lemma ShutdownNeverAborts(s: State, arrivals: seq<seq<Cqe>>, ok: bool, seen: seq<Cqe>, waits: nat)
    requires Inv(s) && Arrivable(s, Concat(arrivals)) && Ends(s.sys, s.cq, arrivals, ok, seen, waits)
    ensures ok
  {
    var more := ShownIsArrivable(s, arrivals, waits);
    var _ := ShutdownWithArrivals(s, more, PyNone, 0);
  }

  /** And every request whose answer was queued, or arrived before a wait showed nothing, has its
      pending future failed: after the teardown it shows that the loop is closed. */
  lemma ShutdownFailsAnswered(s: State, arrivals: seq<seq<Cqe>>, ok: bool, seen: seq<Cqe>, waits: nat, f: nat)
    requires Inv(s) && Arrivable(s, Concat(arrivals)) && Ends(s.sys, s.cq, arrivals, ok, seen, waits)
    requires f < |s.log| && s.Occupied(s.log[f].index) && s.Owner(s.log[f].index) == f
    requires InQueue(seen, s.log[f].index)
    ensures DrainAll(s.sys, seen).Fine? && f < |s.sys.heap.futures|
    ensures var h := Destroy(DrainAll(s.sys, seen).value);
            f < |h.futures| && h.futures[f] == Closed(s.sys.heap.futures[f])
  {
    var more := ShownIsArrivable(s, arrivals, waits);
    SeenIsFailed(s, more, s.log[f].index);
    DestroyKeepsFutures(DrainAll(s.sys, seen).value);
  }

  /** The drain has met `met`, one wait each, and still has `left` before it. */
  ghost predicate Underway(cq: seq<Cqe>, arrivals: seq<seq<Cqe>>, met: seq<Cqe>, left: seq<Cqe>) {
    met + left == Shown(cq, arrivals, |met|) && forall k | 1 <= k <= |met| :: |Shown(cq, arrivals, k)| >= k
  }

  /** And has just waited once more. */
  ghost predicate Waited(cq: seq<Cqe>, arrivals: seq<seq<Cqe>>, met: seq<Cqe>, left: seq<Cqe>) {
    met + left == Shown(cq, arrivals, |met| + 1) && forall k | 1 <= k <= |met| :: |Shown(cq, arrivals, k)| >= k
  }

  lemma NothingShown(cq: seq<Cqe>, arrivals: seq<seq<Cqe>>)
    ensures Underway(cq, arrivals, [], cq)
  {
    assert arrivals[..0] == [];
    assert [] + cq == cq + [] == cq;
  }

  lemma WaitShows(met: seq<Cqe>, before: seq<Cqe>, after: seq<Cqe>, cq: seq<Cqe>, arrivals: seq<seq<Cqe>>)
    requires Underway(cq, arrivals, met, before)
    requires after == if |met| < |arrivals| then before + arrivals[|met|] else before
    ensures Waited(cq, arrivals, met, after)
  {
    ShownOn(cq, arrivals, |met|);
    Regrouped(met, before, if |met| < |arrivals| then arrivals[|met|] else []);
  }

  lemma Regrouped(met: seq<Cqe>, before: seq<Cqe>, more: seq<Cqe>)
    ensures met + (before + more) == (met + before) + more
    ensures before + [] == before
  {
  }

  lemma GoesOn(cq: seq<Cqe>, arrivals: seq<seq<Cqe>>, met: seq<Cqe>, left: seq<Cqe>)
    requires Waited(cq, arrivals, met, left) && left != []
    ensures Underway(cq, arrivals, met + [left[0]], left[1..])
  {
    assert met + [left[0]] + left[1..] == met + left;
  }

  lemma EndsWell(start: System, cq: seq<Cqe>, arrivals: seq<seq<Cqe>>, met: seq<Cqe>)
    requires start.reg.Wf() && Waited(cq, arrivals, met, []) && DrainAll(start, met).Fine?
    ensures Ends(start, cq, arrivals, true, met, |met| + 1)
  {
    assert met + [] == met;
  }

  lemma EndsBadly(start: System, cq: seq<Cqe>, arrivals: seq<seq<Cqe>>, met: seq<Cqe>, left: seq<Cqe>)
    requires start.reg.Wf() && Waited(cq, arrivals, met, left) && left != []
    requires DrainAll(start, met).Fine? && DrainAll(start, met).value.reg.Wf()
    requires DrainOne(DrainAll(start, met).value, left[0]).Crashed?
    ensures Ends(start, cq, arrivals, false, met + left, |met| + 1)
  {
    var s := DrainAll(start, met).value;
    DrainAllNext(start, met, s, left);
    DrainAllNext(start, met, s, [left[0]]);
    assert (met + left)[..|met|] == met && (met + left)[..|met| + 1] == met + [left[0]];
  }

  class UringioLoop {
    var registry: RequestRegistry
    var heap: Heap
    var cq: seq<Cqe>           // completions the ring shows
    var ring: bool             // false once the pointers are NULL
    ghost var teardowns: nat   // how often graceful_shutdown has run

    ghost predicate Valid()
      reads this, registry, registry.slots, registry.available
    {
      && (ring ==> registry.View().Structured())
      && teardowns == (if ring then 0 else 1)
    }

    ghost function Sys(): System
      reads this, registry, registry.slots, registry.available
    {
      System(registry.View(), heap)
    }

    constructor (registrySize: nat, h: Heap)
      ensures Valid() && ring && cq == [] && fresh(registry)
      ensures Sys() == System(NewRegistry(if registrySize == 0 then 25000 else registrySize), h)
    {
      registry := new RequestRegistry(registrySize);
      heap, cq, ring, teardowns := h, [], true, 0;
    }

    /** The part every public call shares: register, hand over, roll back when that fails. */
    method SubmitRequest(f: nat, req: Request, own: multiset<Obj>, taken: bool) returns (answer: Option<Answer>)
      requires registry.View().Wf()
      modifies this`heap, registry`top, registry.slots, registry.available
      ensures match Register(old(registry.View()), old(heap), f, req, own, taken)
              case Fine(sub) => answer == Some(sub.answer) && Sys() == sub.sys
              case Crashed(_) => answer == None
    {
      var index, h := registry.Add(heap, f, req);
      heap := h;
      if index < 0 {
        heap := DecrefAll(heap, own);
        if req.payload.Some? {
          heap := FreePayload(heap, req.payload.value, false);
        }
        return Some(Full);
      }
      heap := TakeIndex(heap, req);
      if taken {
        return Some(Accepted(index));
      }
      heap := DecrefAll(heap, own);
      var ok;
      ok, h := registry.Remove(heap, index);
      if !ok {
        return None;
      }
      heap := h;
      answer := Some(Refused);
    }

    /** A whole public call: prepare, register, dispatch, check. */
    method SubmitCall(ctx: Context, call: Call, taken: bool) returns (outcome: Outcome<Answer>)
      requires registry.View().Wf()
      modifies this`heap, registry`top, registry.slots, registry.available
      ensures match Requests.Submit(old(Sys()), ctx, call, taken)
              case Fine(sub) => outcome == Fine(sub.answer) && Sys() == sub.sys
              case Crashed(_) => outcome.Crashed?
    {
      var (h, req) := Prepare(heap, ctx, call);
      var f := |heap.futures|;
      var own := Own(call, heap, f);
      if UnsetBuffer(heap, ctx, call) || (registry.top >= 0 && AsksNoRegistry(ctx, call)) {
        return Crashed(BadAccess);
      }
      heap := h;
      var answer := SubmitRequest(f, req, own, taken);
      outcome := if answer.Some? then Fine(answer.value) else Crashed(Abort);
    }

    /** Settle the future with the completion's outcome; the switch may clear the payload. */
    method Notify(index: int, slot: Slot, res: int) returns (fine: bool)
      requires registry.View().Wf() && 0 <= index < registry.slots.Length
      requires slot == registry.slots[index] && slot.future.Some?
      modifies this`heap, registry.slots
      ensures fine ==> Tell(old(Sys()), index, slot.future.value, res) == Fine(Sys())
      ensures !fine ==> Tell(old(Sys()), index, slot.future.value, res) == Crashed(BadAccess)
    {
      var h', slot';
      fine, h', slot' := TellFuture(heap, slot, slot.future.value, res);
      if fine {
        heap := h';
        registry.slots[index] := slot';
        assert registry.slots[..] == old(registry.slots[..])[index := slot'];
      }
    }

    /** A completion that found an occupied slot: settle its future, then remove the slot. */
    method Handle(index: int, slot: Slot, res: int) returns (crash: Option<Crash>)
      requires registry.View().Wf() && 0 <= index < registry.slots.Length
      requires slot == registry.slots[index] && slot.future.Some?
      modifies this`heap, registry`top, registry.slots, registry.available
      ensures registry.slots == old(registry.slots) && registry.available == old(registry.available)
      ensures match crash
              case None => ReapSlot(old(Sys()), index, slot.future.value, res) == Fine(Sys())
              case Some(why) => ReapSlot(old(Sys()), index, slot.future.value, res) == Crashed(why)
    {
      var fine := Notify(index, slot, res);
      if !fine {
        return Some(BadAccess);
      }
      var ok, h := registry.Remove(heap, index);
      heap := h;
      crash := if ok then None else Some(Abort);
      RemoveOnlyAborts(old(Sys()), index, slot.future.value, res);
    }

    /** on_uring_ready. `crash` is what stops it, if anything does. */
    method OnUringReady() returns (crash: Option<Crash>)
      requires Valid() && ring
      modifies this`heap, this`cq, registry`top, registry.slots, registry.available
      ensures match crash
              case None => Valid() && cq == [] && ReapAll(old(Sys()), old(cq)) == Fine(Sys())
              case Some(why) => ReapAll(old(Sys()), old(cq)) == Crashed(why)
    {
      while |cq| > 0
        invariant Valid() && ring && registry == old(registry)
        invariant registry.slots == old(registry.slots) && registry.available == old(registry.available)
        invariant ReapAll(old(Sys()), old(cq)) == ReapAll(Sys(), cq)
        decreases |cq|
      {
        var cqe := cq[0];
        ReapKeepsStructure(Sys(), cqe);
        var index := Decode(cqe.userData);
        var slot := registry.Get(index);
        if slot.None? || slot.value.future.None? {
          cq := cq[1..];
          continue;
        }
        if cqe.userData == WAKEUP_TAG {
          // The branch that would re-arm the wakeup read: the tag decodes to no slot.
          assert false;
        }
        crash := Handle(index, slot.value, cqe.res);
        if crash.Some? {
          return;
        }
        cq := cq[1..];
      }
      crash := None;
    }

    /** graceful_shutdown: the drain, then the registry goes. */
    method GracefulShutdown(arrivals: seq<seq<Cqe>>) returns (ok: bool, ghost seen: seq<Cqe>, ghost waits: nat)
      requires Valid() && ring
      modifies this, registry, registry.slots, registry.available
      ensures Ends(old(Sys()), old(cq), arrivals, ok, seen, waits)
      ensures ok ==> heap == Destroy(DrainAll(old(Sys()), seen).value) && registry.View().slots == [] && cq == []
      ensures ring && teardowns == old(teardowns) + 1 && registry == old(registry)
    {
      teardowns := teardowns + 1;
      ok, seen, waits := DrainQueue(arrivals);
      if ok {
        ghost var drained := Sys();
        heap := registry.Destroy(heap);
        assert heap == Destroy(drained);
      }
    }

    /** The drain loop: each trip waits, and `arrivals[k]` is what completes during the k-th wait;
        a wait that shows nothing times out and ends the drain. `seen` is everything the drain
        has been shown, `waits` how often it has waited. */
    method DrainQueue(arrivals: seq<seq<Cqe>>) returns (ok: bool, ghost seen: seq<Cqe>, ghost waits: nat)
      requires registry.View().Wf()
      modifies this`heap, this`cq, registry`top, registry.slots, registry.available
      ensures Ends(old(Sys()), old(cq), arrivals, ok, seen, waits)
      ensures ok ==> DrainAll(old(Sys()), seen) == Fine(Sys()) && cq == []
    {
      ghost var start := Sys();
      ghost var met: seq<Cqe> := [];
      var k := 0;
      NothingShown(cq, arrivals);
      while true
        invariant registry.slots == old(registry.slots) && registry.available == old(registry.available)
        invariant 0 <= k <= |arrivals| && k == (if |met| <= |arrivals| then |met| else |arrivals|)
        invariant Underway(old(cq), arrivals, met, cq)
        invariant registry.View().Wf() && DrainAll(start, met) == Fine(Sys())
        decreases |arrivals| - k, |cq|
      {
        ghost var shown := cq;
        k := WaitForCqe(arrivals, k);
        WaitShows(met, shown, cq, old(cq), arrivals);
        if cq == [] {
          EndsWell(start, old(cq), arrivals, met);
          break;
        }
        DrainAllNext(start, met, Sys(), cq);
        var removed := DrainHead();
        if !removed {
          EndsBadly(start, old(cq), arrivals, met, cq);
          return false, met + cq, |met| + 1;
        }
        GoesOn(old(cq), arrivals, met, cq);
        met := met + [cq[0]];
        cq := cq[1..];
      }
      ok, seen, waits := true, met, |met| + 1;
    }

    /** One wait of the drain: what arrives during it is visible afterwards. */
    method WaitForCqe(arrivals: seq<seq<Cqe>>, k: nat) returns (next: nat)
      requires k <= |arrivals|
      modifies this`cq
      ensures cq == (if k < |arrivals| then old(cq) + arrivals[k] else old(cq))
      ensures next == (if k < |arrivals| then k + 1 else k)
    {
      next := k;
      if k < |arrivals| {
        cq := cq + arrivals[k];
        next := k + 1;
      }
    }

    /** One trip of the drain over the completion at the head; false when it would abort. */
    method DrainHead() returns (ok: bool)
      requires registry.View().Wf() && cq != []
      modifies this`heap, registry`top, registry.slots, registry.available
      ensures registry.slots == old(registry.slots) && registry.available == old(registry.available)
      ensures if ok then DrainOne(old(Sys()), cq[0]) == Fine(Sys()) && registry.View().Wf()
              else DrainOne(old(Sys()), cq[0]).Crashed?
    {
      var cqe := cq[0];
      if cqe.userData == WAKEUP_TAG {
        return true;
      }
      var index := Decode(cqe.userData);
      var got := registry.Get(index);
      if got.None? {
        return true;
      }
      if got.value.future.Some? {
        heap := SetException(heap, got.value.future.value, LoopClosed);
      }
      var h;
      ok, h := registry.Remove(heap, index);
      if ok {
        heap := h;
      }
    }

    /** close(): a second call returns at once; a loop that is still running refuses. */
    method Close(running: bool, arrivals: seq<seq<Cqe>>) returns (ok: bool, ghost seen: seq<Cqe>, ghost waits: nat)
      requires Valid()
      modifies this, registry, registry.slots, registry.available
      ensures ok ==> Valid()
      ensures !old(ring) || running ==> ok && heap == old(heap) && ring == old(ring)
      ensures old(ring) && !running ==>
                && old(registry.View()).Wf() && Ends(old(Sys()), old(cq), arrivals, ok, seen, waits)
                && (ok ==> !ring && heap == Destroy(DrainAll(old(Sys()), seen).value))
    {
      if !ring || running {
        return true, [], 0;
      }
      ok, seen, waits := GracefulShutdown(arrivals);
      ring := false;
    }

    /** dealloc: tears the loop down only if close has not done so. */
    method Dealloc(arrivals: seq<seq<Cqe>>) returns (ok: bool, ghost seen: seq<Cqe>, ghost waits: nat)
      requires Valid()
      modifies this, registry, registry.slots, registry.available
      ensures ok ==> Valid() && !ring && teardowns == 1
      ensures !old(ring) ==> ok && heap == old(heap)
      ensures old(ring) ==> old(registry.View()).Wf() && Ends(old(Sys()), old(cq), arrivals, ok, seen, waits)
      ensures old(ring) && ok ==> heap == Destroy(DrainAll(old(Sys()), seen).value)
    {
      ok, seen, waits := true, [], 0;
      if ring {
        ok, seen, waits := GracefulShutdown(arrivals);
        ring := false;
      }
    }
  }
}
