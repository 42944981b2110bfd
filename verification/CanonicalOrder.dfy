/** Canonical ordering (`canonical_order` of runtime/pasrt_unicode.c): the in-place insertion
    sort, the function it computes, and what that function is. */
module CanonicalOrder {
  import opened UnicodeTables

  function Class(t: Tables, cp: nat): nat {
    ClassIn(t.ccc, cp)
  }

  /** Moves `x` left from the end of `s` past everything of a greater class. A starter stays. */
  function Insert(t: Tables, s: seq<nat>, x: nat): (r: seq<nat>)
    ensures |r| == |s| + 1
  {
    if s == [] || Class(t, x) == 0 || Class(t, s[|s| - 1]) <= Class(t, x) then s + [x]
    else Insert(t, s[..|s| - 1], x) + [s[|s| - 1]]
  }

  function InsertAll(t: Tables, base: seq<nat>, s: seq<nat>): (r: seq<nat>)
    ensures |r| == |base| + |s|
  {
    if s == [] then base else Insert(t, InsertAll(t, base, s[..|s| - 1]), s[|s| - 1])
  }

  function Order(t: Tables, s: seq<nat>): seq<nat> {
    InsertAll(t, [], s)
  }

  /** The inner loop of `canonical_order`: buf[i] goes left past every greater class. */
  method CarryLeft(t: Tables, buf: array<nat>, i: nat)
    requires i < buf.Length
    requires Class(t, buf[i]) != 0
    modifies buf
    ensures buf[..i + 1] == Insert(t, old(buf[..i]), old(buf[i]))
    ensures buf[i + 1..] == old(buf[i + 1..])
  {
    hide Insert;
    var x := buf[i];
    ghost var was := buf[..];
    ghost var front := was[..i];
    assert front[i..] == [] && front[..i] == front;
    var j := i;
    while j > 0 && Class(t, buf[j - 1]) > Class(t, buf[j])
      invariant 0 <= j <= i && buf[j] == x
      invariant forall k | 0 <= k < j || i < k < buf.Length :: buf[k] == was[k]
      invariant forall k | j < k <= i :: buf[k] == was[k - 1]
      invariant Insert(t, front, x) == Insert(t, front[..j], x) + front[j..]
    {
      InsertPasses(t, front, j, x);
      buf[j - 1], buf[j] := buf[j], buf[j - 1];
      j := j - 1;
    }
    InsertStops(t, front[..j], x);
    Carried(was, buf[..], j, i, x);
    assert buf[..][..i + 1] == buf[..i + 1] && buf[..][i + 1..] == buf[i + 1..];
  }

  lemma Carried(was: seq<nat>, now: seq<nat>, j: nat, i: nat, x: nat)
    requires j <= i < |was| == |now| && now[j] == x
    requires forall k | 0 <= k < j || i < k < |was| :: now[k] == was[k]
    requires forall k | j < k <= i :: now[k] == was[k - 1]
    ensures now[..i + 1] == was[..i][..j] + [x] + was[..i][j..] && now[i + 1..] == was[i + 1..]
  {
  }

  lemma InsertPasses(t: Tables, s: seq<nat>, j: nat, x: nat)
    requires 0 < j <= |s| && 0 != Class(t, x) < Class(t, s[j - 1])
    ensures Insert(t, s[..j], x) + s[j..] == Insert(t, s[..j - 1], x) + s[j - 1..]
  {
    assert s[..j][..j - 1] == s[..j - 1];
    assert s[j - 1..] == [s[j - 1]] + s[j..];
  }

  lemma InsertStops(t: Tables, s: seq<nat>, x: nat)
    requires s == [] || Class(t, x) == 0 || Class(t, s[|s| - 1]) <= Class(t, x)
    ensures Insert(t, s, x) == s + [x]
  {
  }

  /** `canonical_order`, on buf[0..len). */
  method CanonicalOrderInPlace(t: Tables, buf: array<nat>, len: nat)
    requires len <= buf.Length
    modifies buf
    ensures buf[..len] == Order(t, old(buf[..len]))
    ensures buf[len..] == old(buf[len..])
  {
    hide Insert;
    ghost var was := buf[..];
    OrderShort(t, was[..if len < 1 then len else 1]);
    if len < 2 { return; }
    for i := 1 to len
      invariant buf[..i] == Order(t, was[..i])
      invariant forall k | i <= k < buf.Length :: buf[k] == was[k]
    {
      OrderNext(t, was, i);
      if Class(t, buf[i]) == 0 {
        assert buf[..i + 1] == buf[..i] + [was[i]];
      } else {
        ghost var after := buf[i + 1..];
        CarryLeft(t, buf, i);
        assert buf[i + 1..] == after;
        forall k | i + 1 <= k < buf.Length
          ensures buf[k] == was[k]
        {
          assert buf[i + 1..][k - i - 1] == after[k - i - 1];
        }
      }
    }
    assert buf[len..] == was[len..];
    assert old(buf[..len]) == was[..len];
  }

  lemma OrderShort(t: Tables, s: seq<nat>)
    requires |s| <= 1
    ensures Order(t, s) == s
  {
  }

  lemma OrderNext(t: Tables, s: seq<nat>, i: nat)
    requires i < |s|
    ensures Order(t, s[..i + 1]) == Insert(t, Order(t, s[..i]), s[i])
    ensures Class(t, s[i]) == 0 ==> Order(t, s[..i + 1]) == Order(t, s[..i]) + [s[i]]
  {
    assert s[..i + 1][..i] == s[..i];
  }

  // ------------------------------------------------- what the order is

  /** Inside a run of non-starters the classes do not decrease. */
  predicate Ordered(t: Tables, s: seq<nat>) {
    forall i | 0 < i < |s| :: Class(t, s[i]) != 0 ==> Class(t, s[i - 1]) <= Class(t, s[i])
  }

  /** The starters of `s` and its marks of class `k`, in the order written. */
  function Keep(t: Tables, s: seq<nat>, k: nat): seq<nat> {
    if s == [] then []
    else
      var x := s[|s| - 1];
      Keep(t, s[..|s| - 1], k) + if Class(t, x) == 0 || Class(t, x) == k then [x] else []
  }

  lemma {:induction false} InsertKeepsOrdered(t: Tables, s: seq<nat>, x: nat)
    requires Ordered(t, s)
    ensures Ordered(t, Insert(t, s, x))
    ensures s != [] ==> var r := Insert(t, s, x); r[|r| - 1] == x || r[|r| - 1] == s[|s| - 1]
  {
    if s != [] && Class(t, x) != 0 && Class(t, s[|s| - 1]) > Class(t, x) {
      InsertKeepsOrdered(t, s[..|s| - 1], x);
    }
  }

  lemma {:induction false} InsertKeeps(t: Tables, s: seq<nat>, x: nat, k: nat)
    ensures Keep(t, Insert(t, s, x), k) == Keep(t, s + [x], k)
  {
    assert (s + [x])[..|s|] == s;
    if s != [] && Class(t, x) != 0 && Class(t, s[|s| - 1]) > Class(t, x) {
      var front, z := s[..|s| - 1], s[|s| - 1];
      InsertKeeps(t, front, x, k);
      assert (front + [x])[..|front|] == front;
      assert (Insert(t, front, x) + [z])[..|s|] == Insert(t, front, x);
    }
  }

  lemma {:induction false} OrderIsOrdered(t: Tables, s: seq<nat>)
    ensures Ordered(t, Order(t, s))
  {
    hide Insert;
    if s != [] {
      var front, x := s[..|s| - 1], s[|s| - 1];
      OrderIsOrdered(t, front);
      InsertKeepsOrdered(t, Order(t, front), x);
    }
  }

  lemma KeepAppended(t: Tables, s: seq<nat>, x: nat, k: nat)
    ensures Keep(t, s + [x], k) == Keep(t, s, k) + if Class(t, x) == 0 || Class(t, x) == k then [x] else []
  {
    assert (s + [x])[..|s|] == s;
  }

  lemma {:induction false} OrderKeeps(t: Tables, s: seq<nat>, k: nat)
    ensures Keep(t, Order(t, s), k) == Keep(t, s, k)
  {
    hide Insert;
    if s != [] {
      var front, x := s[..|s| - 1], s[|s| - 1];
      OrderKeeps(t, front, k);
      InsertKeeps(t, Order(t, front), x, k);
      KeepAppended(t, Order(t, front), x, k);
    }
  }

  /** A stable sort by class inside each run of non-starters: nothing decreases, no starter
      moves, nothing crosses a starter, and marks of one class keep their order. */
  lemma OrderIsStableSort(t: Tables, s: seq<nat>)
    ensures Ordered(t, Order(t, s))
    ensures forall k: nat :: Keep(t, Order(t, s), k) == Keep(t, s, k)
  {
    OrderIsOrdered(t, s);
    forall k: nat
      ensures Keep(t, Order(t, s), k) == Keep(t, s, k)
    {
      OrderKeeps(t, s, k);
    }
  }

  lemma {:induction false} KeepEndsInStarter(t: Tables, s: seq<nat>, k: nat)
    requires Ordered(t, s) && s != [] && Class(t, s[|s| - 1]) < k
    ensures var r := Keep(t, s, k); r == [] || Class(t, r[|r| - 1]) == 0
  {
    var front, x := s[..|s| - 1], s[|s| - 1];
    if Class(t, x) != 0 && front != [] {
      KeepEndsInStarter(t, front, k);
    }
  }

  lemma KeepLast(t: Tables, s: seq<nat>)
    requires s != []
    ensures var r := Keep(t, s, Class(t, s[|s| - 1])); r != [] && r[|r| - 1] == s[|s| - 1]
  {
  }

  ghost predicate SameKept(t: Tables, s: seq<nat>, u: seq<nat>) {
    forall k: nat :: Keep(t, s, k) == Keep(t, u, k)
  }

  lemma SameLast(t: Tables, s: seq<nat>, u: seq<nat>)
    requires Ordered(t, s) && Ordered(t, u) && SameKept(t, s, u)
    requires s != [] && u != []
    ensures s[|s| - 1] == u[|u| - 1]
  {
    var a, b := Class(t, s[|s| - 1]), Class(t, u[|u| - 1]);
    assert Keep(t, s, a) == Keep(t, u, a) && Keep(t, s, b) == Keep(t, u, b);
    KeepLast(t, s);
    KeepLast(t, u);
    if a < b {
      KeepEndsInStarter(t, s, b);
    } else if b < a {
      KeepEndsInStarter(t, u, a);
    }
  }

  lemma SameLastDropped(t: Tables, s: seq<nat>, u: seq<nat>)
    requires s != [] && u != [] && s[|s| - 1] == u[|u| - 1] && SameKept(t, s, u)
    ensures SameKept(t, s[..|s| - 1], u[..|u| - 1])
  {
    var front, back, x := s[..|s| - 1], u[..|u| - 1], s[|s| - 1];
    assert s == front + [x] && u == back + [x];
    forall k: nat
      ensures Keep(t, front, k) == Keep(t, back, k)
    {
      assert Keep(t, s, k) == Keep(t, u, k);
      KeepAppended(t, front, x, k);
      KeepAppended(t, back, x, k);
      EqualTails(Keep(t, front, k), Keep(t, back, k), if Class(t, x) == 0 || Class(t, x) == k then [x] else []);
    }
  }

  lemma EqualTails(a: seq<nat>, b: seq<nat>, tail: seq<nat>)
    requires a + tail == b + tail
    ensures a == b
  {
    assert (a + tail)[..|a|] == a && (b + tail)[..|b|] == b;
  }

  lemma NothingKept(t: Tables, s: seq<nat>)
    requires SameKept(t, s, [])
    ensures s == []
  {
    if s != [] {
      KeepLast(t, s);
    }
  }

  /** And it is the only such arrangement: the two conditions above determine the answer. */
  lemma {:induction false} StableSortIsUnique(t: Tables, s: seq<nat>, u: seq<nat>)
    requires Ordered(t, s) && Ordered(t, u) && SameKept(t, s, u)
    ensures s == u
    decreases |s|
  {
    if s == [] {
      NothingKept(t, u);
    } else if u == [] {
      NothingKept(t, s);
    } else {
      SameLast(t, s, u);
      SameLastDropped(t, s, u);
      StableSortIsUnique(t, s[..|s| - 1], u[..|u| - 1]);
      assert s == s[..|s| - 1] + [s[|s| - 1]] && u == u[..|u| - 1] + [u[|u| - 1]];
    }
  }

  /** The two directions together: t is the canonical order of s exactly when it is such an arrangement. */
  lemma OrderCharacterised(t: Tables, s: seq<nat>, u: seq<nat>)
    ensures u == Order(t, s) <==> Ordered(t, u) && SameKept(t, u, s)
  {
    OrderIsStableSort(t, s);
    if Ordered(t, u) && SameKept(t, u, s) {
      forall k: nat
        ensures Keep(t, u, k) == Keep(t, Order(t, s), k)
      {
        assert Keep(t, u, k) == Keep(t, s, k);
      }
      StableSortIsUnique(t, u, Order(t, s));
    }
  }

  lemma {:induction false} OrderedIsFixed(t: Tables, s: seq<nat>)
    requires Ordered(t, s)
    ensures Order(t, s) == s
  {
    if s != [] {
      OrderedIsFixed(t, s[..|s| - 1]);
      assert s == s[..|s| - 1] + [s[|s| - 1]];
    }
  }

  // ------------------------------------------------- how it composes

  lemma {:induction false} InsertAllConcat(t: Tables, base: seq<nat>, s: seq<nat>, u: seq<nat>)
    ensures InsertAll(t, base, s + u) == InsertAll(t, InsertAll(t, base, s), u)
    decreases |u|
  {
    if u == [] {
      assert s + u == s;
    } else {
      assert (s + u)[..|s + u| - 1] == s + u[..|u| - 1];
      InsertAllConcat(t, base, s, u[..|u| - 1]);
    }
  }

  /** Ordering a prefix first changes nothing. */
  lemma OrderPrefixFirst(t: Tables, x: seq<nat>, y: seq<nat>)
    ensures Order(t, Order(t, x) + y) == Order(t, x + y)
  {
    OrderIsOrdered(t, x);
    OrderedIsFixed(t, Order(t, x));
    InsertAllConcat(t, [], x, y);
    InsertAllConcat(t, [], Order(t, x), y);
  }

  lemma {:induction false} InsertCommutes(t: Tables, s: seq<nat>, a: nat, b: nat)
    requires 0 != Class(t, a) < Class(t, b)
    ensures Insert(t, Insert(t, s, a), b) == Insert(t, Insert(t, s, b), a)
  {
    var sb := Insert(t, s, b);
    if s == [] || Class(t, s[|s| - 1]) <= Class(t, b) {
      assert sb == s + [b];
      assert sb[..|s|] == s;
      assert Insert(t, sb, a) == Insert(t, s, a) + [b];
      var sa := Insert(t, s, a);
      InsertLast(t, s, a);
      assert Insert(t, sa, b) == sa + [b];
    } else {
      var front, z := s[..|s| - 1], s[|s| - 1];
      var fa, fb := Insert(t, front, a), Insert(t, front, b);
      assert (fa + [z])[..|s|] == fa && (fb + [z])[..|s|] == fb;
      InsertCommutes(t, front, a, b);
    }
  }

  lemma InsertLast(t: Tables, s: seq<nat>, x: nat)
    ensures var r := Insert(t, s, x); r[|r| - 1] == x || (s != [] && r[|r| - 1] == s[|s| - 1])
  {
  }

  /** Two texts that differ by a swap of neighbouring marks of different non-zero class order alike. */
  lemma OrderIgnoresSwaps(t: Tables, x: seq<nat>, a: nat, b: nat, y: seq<nat>)
    requires Class(t, a) != 0 && Class(t, b) != 0 && Class(t, a) != Class(t, b)
    ensures Order(t, x + [a, b] + y) == Order(t, x + [b, a] + y)
  {
    InsertAllConcat(t, [], x + [a, b], y);
    InsertAllConcat(t, [], x + [b, a], y);
    OrderTwo(t, x, a, b);
    OrderTwo(t, x, b, a);
    if Class(t, a) < Class(t, b) {
      InsertCommutes(t, Order(t, x), a, b);
    } else {
      InsertCommutes(t, Order(t, x), b, a);
    }
  }

  lemma OrderTwo(t: Tables, x: seq<nat>, a: nat, b: nat)
    ensures Order(t, x + [a, b]) == Insert(t, Insert(t, Order(t, x), a), b)
  {
    OrderNext(t, x + [a, b], |x|);
    OrderNext(t, x + [a, b], |x| + 1);
    assert (x + [a, b])[..|x|] == x;
    assert (x + [a, b])[..|x| + 2] == x + [a, b];
  }

  /** A mark of a class found in none of `marks` may be carried across all of them. */
  lemma {:induction false} OrderCarries(t: Tables, x: seq<nat>, c: nat, marks: seq<nat>, y: seq<nat>)
    requires Class(t, c) != 0
    requires forall i | 0 <= i < |marks| :: Class(t, marks[i]) != 0 && Class(t, marks[i]) != Class(t, c)
    ensures Order(t, x + [c] + marks + y) == Order(t, x + marks + [c] + y)
    decreases |marks|
  {
    if marks == [] {
      assert x + [c] + marks + y == x + marks + [c] + y;
    } else {
      var m, rest := marks[0], marks[1..];
      assert x + [c] + marks + y == x + [c, m] + (rest + y);
      OrderIgnoresSwaps(t, x, c, m, rest + y);
      assert x + [m, c] + (rest + y) == (x + [m]) + [c] + rest + y;
      OrderCarries(t, x + [m], c, rest, y);
      assert (x + [m]) + rest + [c] + y == x + marks + [c] + y;
    }
  }

  lemma {:induction false} InsertStaysBehind(t: Tables, p: seq<nat>, s: seq<nat>, x: nat)
    requires s != [] && Class(t, s[0]) == 0
    ensures Insert(t, p + s, x) == p + Insert(t, s, x)
    ensures Insert(t, s, x)[0] == s[0]
  {
    if Class(t, x) != 0 && Class(t, s[|s| - 1]) > Class(t, x) {
      assert (p + s)[..|p + s| - 1] == p + s[..|s| - 1];
      InsertStaysBehind(t, p, s[..|s| - 1], x);
    }
  }

  lemma {:induction false} InsertAllStaysBehind(t: Tables, p: seq<nat>, s: seq<nat>, u: seq<nat>)
    requires s != [] && Class(t, s[0]) == 0
    ensures InsertAll(t, p + s, u) == p + InsertAll(t, s, u)
    ensures InsertAll(t, s, u)[0] == s[0]
    decreases |u|
  {
    if u != [] {
      var front := u[..|u| - 1];
      InsertAllStaysBehind(t, p, s, front);
      InsertStaysBehind(t, p, InsertAll(t, s, front), u[|u| - 1]);
    }
  }

  /** Nothing is reordered across a starter, so a text may be cut at one. */
  lemma OrderCut(t: Tables, x: seq<nat>, y: seq<nat>)
    requires y != [] && Class(t, y[0]) == 0
    ensures Order(t, x + y) == Order(t, x) + Order(t, y)
    ensures Order(t, y)[0] == y[0]
  {
    var c, rest := [y[0]], y[1..];
    assert y == c + rest;
    assert x + y == x + c + rest;
    InsertAllConcat(t, [], x + c, rest);
    InsertAllConcat(t, [], c, rest);
    assert (x + c)[..|x|] == x;
    assert Order(t, x + c) == Order(t, x) + c;
    assert Order(t, c) == c;
    InsertAllStaysBehind(t, Order(t, x), c, rest);
  }
}
