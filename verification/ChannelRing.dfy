/** The storage of `struct pas_chan` (runtime/pasrt_task.c): a ring over one allocation, changed
    in place under the channel's mutex, and the bounded queue of ChannelProtocol it stands for. */
module ChannelRing {
  import opened ChannelProtocol

  const LLONG_MAX := 0x7FFF_FFFF_FFFF_FFFF

  /** `pas_chan_new`'s three refusals, its product test made without forming the product. */
  predicate NewTraps(esize: int, cap: int) {
    esize <= 0 || cap <= 0 || esize > LLONG_MAX / cap
  }

  /** The test refuses exactly the sizes whose product does not fit. */
  lemma NewTrapsExactly(esize: int, cap: int)
    ensures NewTraps(esize, cap) <==> !(esize > 0 && cap > 0 && esize * cap <= LLONG_MAX)
  {
    if esize > 0 && cap > 0 {
      var q, r := LLONG_MAX / cap, LLONG_MAX % cap;
      assert LLONG_MAX == q * cap + r;
      if esize > q {
        Product(q + 1, esize, cap);
        assert (q + 1) * cap == q * cap + cap;
      } else {
        Product(esize, q, cap);
      }
    }
  }

  lemma Product(a: int, b: int, cap: int)
    requires a <= b && cap > 0
    ensures a * cap <= b * cap
  {
  }

  /** k places past `head` in a ring of `cap` slots. */
  function Around(head: nat, k: nat, cap: nat): (i: nat)
    requires head < cap && k <= cap
    ensures i < cap
  {
    if head + k < cap then head + k else head + k - cap
  }

  lemma Wraps(i: nat, cap: nat)
    requires i < cap
    ensures (i + 1) % cap == Around(i, 1, cap)
  {
  }

  /** The n values from `head` on, going around. */
  function Window(slots: seq<Value>, head: nat, n: nat): (w: seq<Value>)
    requires head < |slots| && n <= |slots|
    ensures |w| == n
  {
    if n == 0 then [] else Window(slots, head, n - 1) + [slots[Around(head, n - 1, |slots|)]]
  }

  lemma {:induction false} WindowAt(slots: seq<Value>, head: nat, n: nat, k: nat)
    requires head < |slots| && k < n <= |slots|
    ensures Window(slots, head, n)[k] == slots[Around(head, k, |slots|)]
  {
    if k < n - 1 { WindowAt(slots, head, n - 1, k); }
  }

  lemma {:induction false} WindowElsewhere(slots: seq<Value>, head: nat, n: nat, i: nat, v: Value)
    requires head < |slots| && n <= |slots| && i < |slots|
    requires forall k | 0 <= k < n :: Around(head, k, |slots|) != i
    ensures Window(slots[i := v], head, n) == Window(slots, head, n)
  {
    if n > 0 {
      assert Around(head, n - 1, |slots|) != i;
      WindowElsewhere(slots, head, n - 1, i, v);
    }
  }

  lemma WindowPut(slots: seq<Value>, head: nat, n: nat, v: Value)
    requires head < |slots| && n < |slots|
    ensures Window(slots[Around(head, n, |slots|) := v], head, n + 1) == Window(slots, head, n) + [v]
  {
    WindowElsewhere(slots, head, n, Around(head, n, |slots|), v);
  }

  lemma {:induction false} WindowTake(slots: seq<Value>, head: nat, n: nat)
    requires head < |slots| && 0 < n <= |slots|
    ensures [slots[head]] + Window(slots, Around(head, 1, |slots|), n - 1) == Window(slots, head, n)
  {
    if n == 1 {
      assert Window(slots, head, 0) == [];
    } else {
      WindowTake(slots, head, n - 1);
      assert Around(Around(head, 1, |slots|), n - 2, |slots|) == Around(head, n - 1, |slots|);
    }
  }

  class Ring {
    const cap: nat
    const buf: array<Value>
    var head: nat
    var tail: nat
    var n: nat
    var closed: bool

    ghost predicate Valid()
      reads this
    {
      && cap > 0 && buf.Length == cap && head < cap && n <= cap
      && tail == Around(head, n, cap)
    }

    ghost function Contents(): (s: seq<Value>)
      requires Valid()
      reads this, buf
      ensures |s| == n
    {
      Window(buf[..], head, n)
    }

    /** This ring is the storage of the protocol's channel x. */
    ghost predicate Stores(x: Chan)
      requires Valid()
      reads this, buf
    {
      x.cap == cap && x.closed == closed && x.queue == Contents()
    }

    constructor (cap: nat)
      requires cap > 0
      ensures Valid() && Contents() == [] && this.cap == cap && !closed && fresh(buf)
    {
      this.cap := cap;
      buf := new Value[cap](_ => 0);
      head, tail, n, closed := 0, 0, 0, false;
    }

    /** memcpy to the tail and `tail = (tail + 1) % cap; n++`. */
    method Enqueue(v: Value)
      requires Valid() && n < cap
      modifies this`tail, this`n, buf
      ensures Valid() && Contents() == old(Contents()) + [v]
    {
      hide Window;
      WindowPut(buf[..], head, n, v);
      ghost var was := buf[..];
      buf[tail] := v;
      assert buf[..] == was[tail := v];
      Wraps(tail, cap);
      tail := (tail + 1) % cap;
      n := n + 1;
    }

    /** memcpy from the head and `head = (head + 1) % cap; n--`. */
    method Dequeue() returns (v: Value)
      requires Valid() && n > 0
      modifies this`head, this`n
      ensures Valid() && [v] + Contents() == old(Contents())
    {
      hide Window;
      WindowTake(buf[..], head, n);
      v := buf[head];
      Wraps(head, cap);
      head := (head + 1) % cap;
      n := n - 1;
    }

    /** The body of `pas_select_try` for a receiving arm. */
    method TryReceive(ghost x: Chan, ghost sel: Sel, ghost pick: Tid) returns (done: bool, got: bool, v: Value)
      requires Valid() && Stores(x) && sel.arms != [] && sel.arms[NextArm(sel)].ReceiveArm?
      modifies this`head, this`n
      ensures Valid() && Stores(TryBody(x, sel, pick).x)
      ensures done == TryBody(x, sel, pick).pc.fired
      ensures got <==> x.queue != []
      ensures got ==> TryBody(x, sel, pick).x.received == x.received + [v]
    {
      hide ArmAt;
      done, got, v := false, false, 0;
      if n > 0 {
        v := Dequeue();
        got := true;
        done := true;
      } else if closed {
        done := true;
      }
    }

    /** And for a sending arm. */
    method TrySend(v: Value, ghost x: Chan, ghost sel: Sel, ghost pick: Tid) returns (done: bool, trap: bool)
      requires Valid() && Stores(x) && sel.arms != []
      requires sel.arms[NextArm(sel)].SendArm? && sel.arms[NextArm(sel)].v == v
      modifies this`tail, this`n, buf
      ensures Valid() && Stores(TryBody(x, sel, pick).x)
      ensures trap == TryBody(x, sel, pick).trap
      ensures !trap ==> done == TryBody(x, sel, pick).pc.fired
    {
      hide ArmAt;
      done, trap := false, false;
      if closed { return false, true; }
      if n < cap {
        Enqueue(v);
        done := true;
      }
    }

    /** What `pas_chan_send` does each time it finds the mutex its own: trap, wait, or send. */
    method SendOnce(v: Value, ghost x: Chan, ghost t: Tid, ghost c: Cid, ghost pick: Tid) returns (trap: bool, sent: bool)
      requires Valid() && Stores(x)
      modifies this`tail, this`n, buf
      ensures Valid() && Stores(JobBody(x, t, c, Send(v), pick).x)
      ensures trap == JobBody(x, t, c, Send(v), pick).trap
      ensures sent <==> JobBody(x, t, c, Send(v), pick).pc == Leaving(c, Send(v), true)
    {
      trap, sent := false, false;
      if n == cap && !closed { return; }
      if closed { return true, false; }
      Enqueue(v);
      sent := true;
    }

    /** And `pas_chan_receive`: wait, answer 0, or take a value and answer 1. */
    method ReceiveOnce(ghost x: Chan, ghost t: Tid, ghost c: Cid, ghost pick: Tid)
      returns (wait: bool, got: bool, v: Value)
      requires Valid() && Stores(x)
      modifies this`head, this`n
      ensures Valid() && Stores(JobBody(x, t, c, Receive, pick).x)
      ensures wait <==> JobBody(x, t, c, Receive, pick).pc.Parked?
      ensures !wait ==> JobBody(x, t, c, Receive, pick).pc == Leaving(c, Receive, got)
      ensures got ==> [v] + JobBody(x, t, c, Receive, pick).x.queue == x.queue
    {
      wait, got, v := false, false, 0;
      if n == 0 && !closed { return true, false, 0; }
      if n == 0 { return; }
      v := Dequeue();
      got := true;
    }
  }
}
