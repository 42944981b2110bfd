/** The intrusive doubly linked lists of runtime/pasrt.c, in place: a handle's or a deferred block's
    record lies in its activation's frame and carries its own links. */
module LiveList {
  import opened Unwinding

  /** `struct pas_handle`; a deferred block's record has a runner where a handle has its value. */
  class Record {
    const id: Id
    var held: Option<nat>
    var prev: Record?
    var next: Record?

    constructor (id: Id)
      ensures this.id == id && held == None && prev == null && next == null
    {
      this.id := id;
      held, prev, next := None, null, null;
    }
  }

  /** `pas_live_handles`, or one of its two siblings. `log` is what the closers have seen. */
  class Live {
    var head: Record?
    var log: seq<Event>
    ghost var nodes: seq<Record>

    ghost predicate Valid()
      reads this`head, this`nodes, nodes
    {
      && (forall i, j | 0 <= i < j < |nodes| :: nodes[i].id != nodes[j].id)
      && (forall i, j | 0 <= i < j == i + 1 < |nodes| :: nodes[i].next == nodes[j] && nodes[j].prev == nodes[i])
      && (if nodes == [] then head == null
          else head == nodes[0] && nodes[0].prev == null && nodes[|nodes| - 1].next == null)
    }

    ghost function Slots(): seq<Slot>
      reads this`nodes, nodes
    {
      var ns := nodes;
      seq(|ns|, i requires 0 <= i < |ns| reads ns => Slot(ns[i].id, ns[i].held))
    }

    ghost predicate Unlinked(r: Record)
      reads this, r
    {
      r !in nodes && r.prev == null && r.next == null
    }

    twostate lemma SlotsPrepended(was: seq<Record>, new r: Record)
      requires was == old(nodes) && nodes == [r] + was && forall n | n in was :: n.held == old(n.held)
      ensures Slots() == [Slot(r.id, r.held)] + old(Slots())
    {
      assert nodes[1..] == was;
    }

    constructor ()
      ensures Valid() && nodes == [] && log == []
    {
      head, log, nodes := null, [], [];
    }

    /** pas_handle_init, pas_defer_init, pas_link_open. */
    method Link(r: Record)
      requires Valid() && r !in nodes && forall n | n in nodes :: n.id != r.id
      modifies this`head, this`nodes, r, nodes
      ensures Valid() && nodes == [r] + old(nodes)
      ensures Slots() == [Slot(r.id, None)] + old(Slots())
    {
      hide Slots;
      ghost var was := nodes;
      r.held := None;
      r.prev := null;
      r.next := head;
      if head != null { head.prev := r; }
      head := r;
      nodes := [r] + nodes;
      forall i, j | 0 <= i < j == i + 1 < |nodes|
        ensures nodes[i].next == nodes[j] && nodes[j].prev == nodes[i]
      {
        assert nodes[j] == was[i] && (i > 0 ==> nodes[i] == was[i - 1]);
      }
      SlotsPrepended(was, r);
    }

    /** The unlinking that the three `_done` routines share. A record that is on no list stays so. */
    method Unlink(r: Record, ghost i: nat)
      requires Valid() && (Unlinked(r) || (i < |nodes| && nodes[i] == r))
      modifies this`head, this`nodes, r`prev, r`next, nodes`prev, nodes`next
      ensures Valid() && Unlinked(r)
      ensures nodes == if old(r in nodes) then old(nodes[..i] + nodes[i + 1..]) else old(nodes)
    {
      hide Slots;
      ghost var was := nodes;
      assert r in was ==> r.prev == (if i == 0 then null else was[i - 1]);
      assert r in was ==> r.next == (if i + 1 == |was| then null else was[i + 1]);
      if r.prev != null {
        r.prev.next := r.next;
      } else if head == r {
        head := r.next;
      }
      if r.next != null { r.next.prev := r.prev; }
      r.prev := null;
      r.next := null;
      if r in was {
        Removed(was, i);
        nodes := was[..i] + was[i + 1..];
        assert i > 0 ==> was[i - 1].next == (if i + 1 == |was| then null else was[i + 1]);
        assert i + 1 < |was| ==> was[i + 1].prev == (if i == 0 then null else was[i - 1]);
      }
    }

    /** pas_handle_release. */
    method Release(r: Record, ghost i: nat)
      requires Valid() && i < |nodes| && nodes[i] == r
      modifies this`log, r`held
      ensures Valid() && nodes == old(nodes) && r.held == None
      ensures Slots() == Put(old(Slots()), r.id, None)
      ensures log == old(log) + Closing(HeldBy(old(Slots()), r.id))
    {
      ghost var was := Slots();
      ById(was, i, None);
      if r.held.Some? {
        log := log + [Event(Closed, r.held.value)];
        r.held := None;
      }
      assert Slots() == was[i := Slot(r.id, None)];
    }

    /** pas_handle_take: the value leaves and its closer is not called. */
    method Take(r: Record, ghost i: nat) returns (v: Option<nat>)
      requires Valid() && i < |nodes| && nodes[i] == r
      modifies r`held
      ensures Valid() && nodes == old(nodes) && log == old(log)
      ensures v == HeldBy(old(Slots()), r.id) && Slots() == Put(old(Slots()), r.id, None)
    {
      ghost var was := Slots();
      ById(was, i, None);
      v := r.held;
      r.held := None;
      assert Slots() == was[i := Slot(r.id, None)];
    }

    /** pas_handle_set: what the variable held is closed, then it takes the value. */
    method Set(r: Record, v: Option<nat>, ghost i: nat)
      requires Valid() && i < |nodes| && nodes[i] == r
      modifies this`log, r`held
      ensures Valid() && nodes == old(nodes)
      ensures Slots() == Put(old(Slots()), r.id, v)
      ensures log == old(log) + Closing(HeldBy(old(Slots()), r.id))
    {
      hide Put, HeldBy, Closing;
      ghost var was := Slots();
      ById(was, i, v);
      ById(was, i, None);
      Release(r, i);
      r.held := v;
      assert Slots() == was[i := Slot(r.id, v)];
    }

    /** `dst := take(src)`, two calls in this order, which is what makes `h := take(h)` harmless. */
    method Move(src: Record, dst: Record, ghost i: nat, ghost j: nat)
      requires Valid() && i < |nodes| && nodes[i] == src && j < |nodes| && nodes[j] == dst
      modifies this`log, src`held, dst`held
      ensures Valid() && nodes == old(nodes)
      ensures var taken := Put(old(Slots()), src.id, None);
              && Slots() == Put(taken, dst.id, HeldBy(old(Slots()), src.id))
              && log == old(log) + Closing(HeldBy(taken, dst.id))
    {
      var v := Take(src, i);
      Set(dst, v, j);
    }

    lemma HeldAre()
      ensures |Slots()| == |nodes|
      ensures forall k | 0 <= k < |nodes| :: Slots()[k] == Slot(nodes[k].id, nodes[k].held)
    {
    }

    lemma NumbersDiffer()
      requires Valid()
      ensures Distinct(Slots()) && |Slots()| == |nodes|
      ensures nodes != [] ==> Slots()[0] == Slot(nodes[0].id, nodes[0].held)
    {
    }

    /** pas_handle_done on a slot that is on the list. */
    method Done(r: Record, ghost i: nat)
      requires Valid() && i < |nodes| && nodes[i] == r
      modifies this, r, nodes
      ensures Valid() && Unlinked(r) && r.held == None
      ensures nodes == old(nodes[..i] + nodes[i + 1..])
      ensures Slots() == old(Slots())[..i] + old(Slots())[i + 1..] == SlotsWithout(old(Slots()), r.id)
      ensures log == old(log) + (Closing(HeldBy(old(Slots()), r.id)) + [Event(SlotDone, r.id)])
    {
      hide Put, SlotsWithout, HeldBy, Closing, Valid, Slots;
      ghost var was, nodes0 := Slots(), nodes;
      NumbersDiffer();
      HeldAre();
      ById(was, i, None);
      Release(r, i);
      log := log + [Event(SlotDone, r.id)];
      assert r in nodes;
      HeldAre();
      Unlink(r, i);
      HeldAre();
      Removed(nodes0, i);
      Removed(was, i);
      SameSlots(Slots(), was[..i] + was[i + 1..]);
    }

    /** One step of a walk: the successor is read before the record is released. */
    method DoneThenNext(h: Record) returns (next: Record?)
      requires Valid() && nodes != [] && h == nodes[0]
      modifies this, nodes
      ensures Valid() && nodes == old(nodes)[1..] && next == (if nodes == [] then null else nodes[0])
      ensures Slots() == old(Slots())[1..] && old(Slots()) != [] && |Slots()| == |nodes|
      ensures log == old(log) + (Closing(old(Slots())[0].held) + [Event(SlotDone, h.id)])
      ensures Distinct(old(Slots())) && old(Slots())[0].id == h.id
    {
      hide Put, SlotsWithout, HeldBy, Closing, SlotsDone, Valid, Slots;
      ghost var was, nodes0 := Slots(), nodes;
      NumbersDiffer();
      HeadIs();
      ById(was, 0, None);
      Tail(was, 0);
      Tail(nodes0, 0);
      next := h.next;
      Done(h, 0);
      NumbersDiffer();
    }

    lemma HeadIs()
      requires Valid()
      ensures head == if nodes == [] then null else nodes[0]
      ensures nodes != [] ==> nodes[0].next == if |nodes| == 1 then null else nodes[1]
    {
    }

    /** The walk of pas_jump_go, and with a null mark that of pas_halt: from the head to the record
        that lies where the mark says, m's own or a later one in its place; when none does, nothing
        stops it. */
    method CutTo(mark: Record?, ghost m: Option<Id>, ghost at: Id -> Address)
      requires Valid() && forall n | n in nodes :: n == mark <==> m.Some? && at(n.id) == at(m.value)
      modifies this, nodes
      ensures var was := old(Slots());
              var k := Above(at, SlotIds(was), m);
              && k <= |was| && |was| == old(|nodes|) && Valid() && nodes == old(nodes)[k..] && Slots() == was[k..]
              && log == old(log) + SlotsDone(was[..k])
    {
      hide Put, SlotsWithout, HeldBy, Closing, SlotsDone, Valid, Slots, Above, SlotIds, Passed, Distinct;
      ghost var was, nodes0, log0 := Slots(), nodes, log;
      ghost var k: nat := 0;
      NumbersDiffer();
      CutStarts(at, was, m);
      HeadIs();
      var h := head;
      while h != null && h != mark
        invariant k <= |nodes0| == |was| && Valid() && nodes == nodes0[k..]
        invariant Slots() == was[k..]
        invariant log == log0 + SlotsDone(was[..k])
        invariant Passed(at, was, m, k)
        invariant h == if k == |nodes0| then null else nodes0[k]
        invariant k < |was| ==> was[k].id == nodes0[k].id
        decreases |nodes0| - k
      {
        assert nodes0[k] in nodes0;
        CutStep(at, was, m, k, log0);
        h := DoneThenNext(h);
        k := k + 1;
        NumbersDiffer();
        assert k < |was| ==> was[k] == was[k..][0] && nodes0[k] == nodes0[k..][0];
      }
      WalkStops(at, was, m, k);
    }

    /** pas_defer_done: unlinked and emptied first, so that whatever the runner does it is not found
        again; a record done twice has nothing to run. */
    method DeferDone(r: Record, ghost i: nat) returns (run: Option<nat>)
      requires Valid() && (Unlinked(r) || (i < |nodes| && nodes[i] == r))
      modifies this`head, this`nodes, r, nodes
      ensures Valid() && Unlinked(r) && r.held == None && run == old(r.held)
      ensures nodes == if old(r in nodes) then old(nodes[..i] + nodes[i + 1..]) else old(nodes)
    {
      run := r.held;
      Unlink(r, i);
      r.held := None;
    }
  }

  predicate Distinct(slots: seq<Slot>) { forall i, j | 0 <= i < j < |slots| :: slots[i].id != slots[j].id }

  /** Under distinct numbers, finding a slot by number is finding it by place. */
  lemma {:induction false} ById(slots: seq<Slot>, i: nat, v: Option<nat>)
    requires i < |slots| && Distinct(slots)
    ensures HeldBy(slots, slots[i].id) == slots[i].held
    ensures Put(slots, slots[i].id, v) == slots[i := Slot(slots[i].id, v)]
    ensures SlotsWithout(slots, slots[i].id) == slots[..i] + slots[i + 1..]
  {
    if i > 0 {
      assert slots[0].id != slots[i].id;
      ById(slots[1..], i - 1, v);
    }
  }

  /** The walk has passed the first k slots and none of them was the mark's. */
  predicate Passed(at: Id -> Address, slots: seq<Slot>, m: Option<Id>, k: nat) {
    k <= |slots| && forall i | 0 <= i < k :: !(m.Some? && at(slots[i].id) == at(m.value))
  }

  lemma {:induction false} WalkStops(at: Id -> Address, slots: seq<Slot>, m: Option<Id>, k: nat)
    requires Passed(at, slots, m, k) && (k == |slots| || (m.Some? && at(slots[k].id) == at(m.value)))
    ensures Above(at, SlotIds(slots), m) == k
  {
    if k > 0 {
      assert Passed(at, slots[1..], m, k - 1) by { assert forall i | 0 <= i < k - 1 :: slots[1..][i] == slots[i + 1]; }
      WalkStops(at, slots[1..], m, k - 1);
      assert SlotIds(slots)[1..] == SlotIds(slots[1..]);
    }
  }

  lemma {:induction false} SlotsDoneAppend(a: seq<Slot>, b: seq<Slot>)
    ensures SlotsDone(a + b) == SlotsDone(a) + SlotsDone(b)
  {
    if a == [] {
      assert a + b == b;
    } else {
      assert (a + b)[0] == a[0] && (a + b)[1..] == a[1..] + b;
      SlotsDoneAppend(a[1..], b);
    }
  }

  lemma Removed<T>(s: seq<T>, i: nat)
    requires i < |s|
    ensures var t := s[..i] + s[i + 1..];
            |t| == |s| - 1 && (forall k | 0 <= k < i :: t[k] == s[k]) && (forall k | i <= k < |t| :: t[k] == s[k + 1])
  {
  }

  lemma SameSlots(a: seq<Slot>, b: seq<Slot>)
    requires |a| == |b| && forall k | 0 <= k < |a| :: a[k] == b[k]
    ensures a == b
  {
  }

  lemma CutStarts(at: Id -> Address, slots: seq<Slot>, m: Option<Id>)
    ensures SlotsDone(slots[..0]) == [] && slots[0..] == slots && Passed(at, slots, m, 0)
  {
  }

  lemma Tail<T>(s: seq<T>, k: nat)
    requires k < |s|
    ensures s[k..][..0] + s[k..][1..] == s[k + 1..]
  {
  }

  lemma CutStep(at: Id -> Address, slots: seq<Slot>, m: Option<Id>, k: nat, log: seq<Event>)
    requires k < |slots| && Passed(at, slots, m, k)
    ensures var gone := Closing(slots[k].held) + [Event(SlotDone, slots[k].id)];
            log + SlotsDone(slots[..k]) + gone == log + SlotsDone(slots[..k + 1])
    ensures slots[k..][1..] == slots[k + 1..]
    ensures !(m.Some? && at(slots[k].id) == at(m.value)) ==> Passed(at, slots, m, k + 1)
  {
    DoneMore(slots, k);
  }

  lemma DoneMore(slots: seq<Slot>, k: nat)
    requires k < |slots|
    ensures SlotsDone(slots[..k + 1]) ==
            SlotsDone(slots[..k]) + (Closing(slots[k].held) + [Event(SlotDone, slots[k].id)])
  {
    assert slots[..k + 1] == slots[..k] + [slots[k]];
    SlotsDoneAppend(slots[..k], [slots[k]]);
    assert SlotsDone([slots[k]]) == Closing(slots[k].held) + [Event(SlotDone, slots[k].id)] + SlotsDone([]);
  }
}
