/** Facts about the lists of `Unwinding` and the walks along them. */
module UnwindingLists {
  import opened Unwinding

  lemma {:induction false} WithoutFacts(s: seq<Id>, id: Id)
    requires Sorted(s)
    ensures Sorted(Without(s, id))
    ensures forall x :: x in Without(s, id) <==> x in s && x != id
  {
    if s != [] {
      var rest := s[1..];
      assert s == [s[0]] + rest;
      assert forall x | x in rest :: x < s[0];
      WithoutFacts(rest, id);
      if s[0] != id { SortedPush(s[0], Without(rest, id)); }
    }
  }

  lemma SortedPush(x: Id, s: seq<Id>)
    requires Sorted(s) && forall y | y in s :: y < x
    ensures Sorted([x] + s)
  {
    var t := [x] + s;
    forall i, j | 0 <= i < j < |t|
      ensures t[i] > t[j]
    {
      assert t[j] == s[j - 1] && s[j - 1] in s;
    }
  }

  lemma SortedAppend(a: seq<Id>, b: seq<Id>, n: nat)
    requires Sorted(a) && Sorted(b) && (forall x | x in a :: n <= x) && Bounded(b, n)
    ensures Sorted(a + b)
  {
    var t := a + b;
    forall i, j | 0 <= i < j < |t|
      ensures t[i] > t[j]
    {
      if i < |a| <= j {
        assert t[i] in a && t[j] in b;
      } else if j < |a| {
        assert t[i] == a[i] && t[j] == a[j];
      } else {
        assert t[i] == b[i - |a|] && t[j] == b[j - |a|];
      }
    }
  }

  lemma {:induction false} BelowFacts(s: seq<Id>, n: nat)
    requires Sorted(s)
    ensures forall x :: x in Below(s, n) <==> x in s && x < n
    ensures Sorted(Below(s, n)) && |Below(s, n)| <= |s| && Below(s, n) == s[|s| - |Below(s, n)|..]
  {
    if s != [] && s[0] >= n {
      assert s == [s[0]] + s[1..];
      BelowFacts(s[1..], n);
    } else {
      assert forall x | x in s :: s[0] >= x;
    }
  }

  lemma {:induction false} BelowAppend(a: seq<Id>, b: seq<Id>, n: nat)
    requires forall x | x in a :: n <= x
    ensures Below(a + b, n) == Below(b, n)
  {
    if a == [] {
      assert a + b == b;
    } else {
      assert (a + b)[0] == a[0] && (a + b)[1..] == a[1..] + b;
      assert a[0] in a && forall x | x in a[1..] :: x in a;
      BelowAppend(a[1..], b, n);
    }
  }

  lemma {:induction false} BelowTwice(s: seq<Id>, n: nat, m: nat)
    requires m <= n
    ensures Below(Below(s, n), m) == Below(s, m)
  {
    if s != [] && s[0] >= n { BelowTwice(s[1..], n, m); }
  }

  lemma BelowAll(s: seq<Id>, n: nat)
    requires Bounded(s, n)
    ensures Below(s, n) == s
  {
    if s != [] { assert s[0] in s; }
  }

  lemma NoMembers(s: seq<Id>)
    requires forall x :: x !in s
    ensures s == []
  {
    FirstIn(s);
  }

  lemma FirstIn(s: seq<Id>)
    ensures s != [] ==> s[0] in s
  {
  }

  /** Two sorted lists with the same members are the same. */
  lemma {:induction false} SameMembers(a: seq<Id>, b: seq<Id>)
    requires Sorted(a) && Sorted(b) && forall x :: x in a <==> x in b
    ensures a == b
  {
    if a == [] {
      NoMembers(b);
    } else {
      assert a[0] in a && b != [];
      assert b[0] in b;
      assert a[0] == b[0];
      assert a == [a[0]] + a[1..] && b == [b[0]] + b[1..];
      forall x
        ensures x in a[1..] <==> x in b[1..]
      {
        assert x in a[1..] ==> x < a[0] && x in a;
        assert x in b[1..] ==> x < b[0] && x in b;
      }
      SameMembers(a[1..], b[1..]);
    }
  }

  /** The walk stops at the first record that lies at the mark's address, and takes the whole list
      when there is none. */
  lemma {:induction false} WalkEndsAtMark(at: Id -> Address, s: seq<Id>, mark: Option<Id>)
    ensures var k := Above(at, s, mark);
            && (k < |s| <==> mark.Some? && exists x | x in s :: at(x) == at(mark.value))
            && (k < |s| ==> at(s[k]) == at(mark.value))
            && (mark.Some? ==> forall i | 0 <= i < k :: at(s[i]) != at(mark.value))
  {
    if s != [] {
      WalkEndsAtMark(at, s[1..], mark);
      assert s == [s[0]] + s[1..];
    }
  }

  /** Past a walk that stops, or whose mark is null, is everything registered before the mark was
      taken. It is all that is left if and only if the walk stops at the mark's own record, or at none
      where none could be left; a later record at the mark's address stops it early. */
  lemma WalkCuts(at: Id -> Address, s: seq<Id>, mark: Option<Id>, armed: nat)
    requires Sorted(s) && Fits(s, mark, armed) && Sited(at, s, mark, armed)
    ensures var k := Above(at, s, mark);
            var first := FirstAt(at, s, mark);
            && Head(s[k..]) == first
            && (first == mark || first == None || armed <= first.value)
            && (!Missed(at, s, mark) ==> forall x | x in s && x < armed :: x in s[k..])
            && (s[k..] == Below(s, armed) <==> first == mark || (first == None && Below(s, armed) == []))
  {
    var k := Above(at, s, mark);
    WalkEndsAtMark(at, s, mark);
    BelowFacts(s, armed);
    assert k < |s| ==> s[k] in s;
    CutAt(s, k);
    if FirstAt(at, s, mark) == mark {
      if mark.Some? { MarkCuts(s, k, mark, armed); }
      SameMembers(s[k..], Below(s, armed));
    } else if k < |s| {
      assert s[k] in s[k..];
    }
  }

  lemma CutAt(s: seq<Id>, k: nat)
    requires Sorted(s) && k <= |s|
    ensures Sorted(s[k..]) && (k < |s| ==> s[k..][0] == s[k])
    ensures forall x | x in s[k..] :: x in s
    ensures k < |s| ==> forall x | x in s :: x in s[k..] <==> x <= s[k]
    ensures k == |s| ==> s[k..] == []
  {
    if k < |s| {
      forall x | x in s
        ensures x in s[k..] <==> x <= s[k]
      {
        var i :| 0 <= i < |s| && s[i] == x;
        if i >= k { assert s[k..][i - k] == x; }
      }
    }
  }

  lemma MarkCuts(s: seq<Id>, k: nat, mark: Option<Id>, armed: nat)
    requires Sorted(s) && Fits(s, mark, armed) && k < |s| && Some(s[k]) == mark
    ensures forall x | x in s :: x <= s[k] <==> x < armed
  {
    assert s[k] in s;
  }

  lemma {:induction false} NextIsHead(s: seq<Id>)
    ensures s != [] ==> NextOf(s, s[0]) == Head(s[1..]) && Without(s, s[0]) == s[1..]
  {
  }

  lemma {:induction false} NextOfAbsent(s: seq<Id>, d: Id)
    requires d !in s
    ensures NextOf(s, d) == None
  {
    if s != [] { NextOfAbsent(s[1..], d); }
  }

  // ------------------------------------------------------------------- slots

  lemma {:induction false} SlotIdsAppend(a: seq<Slot>, b: seq<Slot>)
    ensures SlotIds(a + b) == SlotIds(a) + SlotIds(b)
  {
    if a == [] {
      assert a + b == b;
    } else {
      assert (a + b)[0] == a[0] && (a + b)[1..] == a[1..] + b;
      SlotIdsAppend(a[1..], b);
    }
  }

  lemma SlotIdsCut(slots: seq<Slot>, j: nat)
    requires j <= |slots|
    ensures |SlotIds(slots)| == |slots|
    ensures SlotIds(slots[j..]) == SlotIds(slots)[j..] && SlotIds(slots[..j]) == SlotIds(slots)[..j]
  {
    assert slots == slots[..j] + slots[j..];
    SlotIdsAppend(slots[..j], slots[j..]);
    SlotIdsLength(slots[..j]);
    SlotIdsLength(slots[j..]);
  }

  lemma {:induction false} SlotIdsChanged(slots: seq<Slot>, id: Id, v: Option<nat>)
    ensures SlotIds(Put(slots, id, v)) == SlotIds(slots)
    ensures SlotIds(SlotsWithout(slots, id)) == Without(SlotIds(slots), id)
  {
    if slots != [] && slots[0].id != id {
      SlotIdsChanged(slots[1..], id, v);
    }
  }

  lemma {:induction false} SlotIdsEmpty(ids: seq<Id>)
    ensures SlotIds(Empty(ids)) == ids
  {
    if ids != [] { SlotIdsEmpty(ids[1..]); }
  }

  lemma {:induction false} DownFacts(lo: nat, n: nat)
    ensures |Down(lo, n)| == n && Sorted(Down(lo, n)) && forall x :: x in Down(lo, n) <==> lo <= x < lo + n
  {
    if n > 0 {
      DownFacts(lo, n - 1);
      SortedPush(lo + n - 1, Down(lo, n - 1));
    }
  }

  // --------------------------------------------------------------------- logs

  lemma {:induction false} RanOfAppend(log: seq<Event>, more: seq<Event>, ids: seq<Id>)
    ensures RanOf(log + more, ids) == RanOf(log, ids) + RanOf(more, ids)
  {
    if more == [] {
      assert log + more == log;
    } else {
      var m := more[..|more| - 1];
      assert (log + more)[..|log + more| - 1] == log + m;
      RanOfAppend(log, m, ids);
    }
  }

  lemma {:induction false} RanOfNone(log: seq<Event>, ids: seq<Id>)
    requires forall e | e in log :: e.tag == Ran ==> e.n !in ids
    ensures RanOf(log, ids) == []
  {
    if log != [] { RanOfNone(log[..|log| - 1], ids); }
  }

  lemma RanOfOne(d: Id, ids: seq<Id>)
    requires d in ids
    ensures RanOf([Event(Ran, d)], ids) == [d]
  {
    assert [Event(Ran, d)][..0] == [];
  }

  lemma Shift(r: seq<Id>, d: Id, t: seq<Id>, all: seq<Id>)
    requires r + ([d] + t) == all
    ensures (r + [d]) + t == all && d in all
  {
    assert all[|r|] == d;
  }

  lemma SinceGrows(log: seq<Event>, more: seq<Event>, since: nat, tag: Tag)
    requires since <= |log|
    ensures Since(log + more, since, tag) <==> Since(log, since, tag) || Has(more, tag)
  {
    assert (log + more)[since..] == log[since..] + more;
  }

  lemma {:induction false} TaggedTags(tag: Tag, ids: seq<Id>)
    ensures forall e | e in Tagged(tag, ids) :: e.tag == tag
  {
    if ids != [] { TaggedTags(tag, ids[1..]); }
  }

  lemma {:induction false} SlotsDoneTags(slots: seq<Slot>)
    ensures forall e | e in SlotsDone(slots) :: e.tag == SlotDone || e.tag == Closed
  {
    if slots != [] { SlotsDoneTags(slots[1..]); }
  }
}
