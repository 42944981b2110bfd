/** Canonical equivalence as section 3.7 of The Unicode Standard defines it, by single
    replacements and swaps, and the proof that Normalization Form C decides it. */
module CanonicalEquivalence {
  import opened UnicodeTables
  import opened CanonicalOrder
  import opened Normalization

  /** One canonical mapping applied to one code point. */
  ghost predicate Replaces(t: Tables, s: seq<nat>, u: seq<nat>, at: nat) {
    at < |s| &&
    if IsSyllable(s[at]) then u == s[..at] + SyllableParts(s[at]) + s[at + 1..]
    else s[at] in t.decomp && u == s[..at] + t.decomp[s[at]] + s[at + 1..]
  }

  /** Two neighbouring marks of different non-zero class, neither of which decomposes, change places. */
  ghost predicate Swaps(t: Tables, s: seq<nat>, u: seq<nat>, at: nat) {
    at + 1 < |s|
    && Settled(t, s[at]) && Settled(t, s[at + 1])
    && Class(t, s[at]) != 0 && Class(t, s[at + 1]) != 0 && Class(t, s[at]) != Class(t, s[at + 1])
    && u == s[..at] + [s[at + 1], s[at]] + s[at + 2..]
  }

  ghost predicate Step(t: Tables, s: seq<nat>, u: seq<nat>) {
    exists at: nat :: Replaces(t, s, u, at) || Swaps(t, s, u, at)
  }

  ghost predicate Linked(t: Tables, s: seq<nat>, u: seq<nat>) {
    Step(t, s, u) || Step(t, u, s)
  }

  ghost predicate Chain(t: Tables, chain: seq<seq<nat>>, s: seq<nat>, u: seq<nat>) {
    chain != [] && chain[0] == s && chain[|chain| - 1] == u
    && forall i | 0 < i < |chain| :: Linked(t, chain[i - 1], chain[i])
  }

  /** Some number of single steps, taken either way, leads from one text to the other. */
  ghost predicate Equivalent(t: Tables, s: seq<nat>, u: seq<nat>) {
    exists chain: seq<seq<nat>> :: Chain(t, chain, s, u)
  }

  // ------------------------------------------------------ it is an equivalence

  lemma Reflexive(t: Tables, s: seq<nat>)
    ensures Equivalent(t, s, s)
  {
    assert Chain(t, [s], s, s);
  }

  lemma OneStep(t: Tables, s: seq<nat>, u: seq<nat>)
    requires Linked(t, s, u)
    ensures Equivalent(t, s, u)
  {
    assert Chain(t, [s, u], s, u);
  }

  lemma Transitive(t: Tables, s: seq<nat>, u: seq<nat>, v: seq<nat>)
    requires Equivalent(t, s, u) && Equivalent(t, u, v)
    ensures Equivalent(t, s, v)
  {
    var a :| Chain(t, a, s, u);
    var b :| Chain(t, b, u, v);
    var c := a + b[1..];
    forall i | 0 < i < |c|
      ensures Linked(t, c[i - 1], c[i])
    {
      if i >= |a| {
        assert c[i] == b[i - |a| + 1] && c[i - 1] == b[i - |a|];
      }
    }
    assert Chain(t, c, s, v);
  }

  lemma Symmetric(t: Tables, s: seq<nat>, u: seq<nat>)
    requires Equivalent(t, s, u)
    ensures Equivalent(t, u, s)
  {
    var a :| Chain(t, a, s, u);
    var b := seq(|a|, i requires 0 <= i < |a| => a[|a| - 1 - i]);
    forall i | 0 < i < |b|
      ensures Linked(t, b[i - 1], b[i])
    {
      assert Linked(t, a[|a| - 1 - i], a[|a| - i]);
    }
    assert Chain(t, b, u, s);
  }

  lemma ReplaceInContext(t: Tables, x: seq<nat>, s: seq<nat>, u: seq<nat>, y: seq<nat>, at: nat)
    requires Replaces(t, s, u, at)
    ensures Replaces(t, x + s + y, x + u + y, |x| + at)
  {
    hide SyllableParts;
    var w, k := x + s + y, |x| + at;
    assert w[k] == s[at] && w[..k] == x + s[..at] && w[k + 1..] == s[at + 1..] + y;
    var to := if IsSyllable(s[at]) then SyllableParts(s[at]) else t.decomp[s[at]];
    assert x + (s[..at] + to + s[at + 1..]) + y == (x + s[..at]) + to + (s[at + 1..] + y);
  }

  lemma SwapInContext(t: Tables, x: seq<nat>, s: seq<nat>, u: seq<nat>, y: seq<nat>, at: nat)
    requires Swaps(t, s, u, at)
    ensures Swaps(t, x + s + y, x + u + y, |x| + at)
  {
    var w, k := x + s + y, |x| + at;
    assert w[k] == s[at] && w[k + 1] == s[at + 1];
    assert w[..k] == x + s[..at] && w[k + 2..] == s[at + 2..] + y;
  }

  lemma StepInContext(t: Tables, x: seq<nat>, s: seq<nat>, u: seq<nat>, y: seq<nat>)
    requires Step(t, s, u)
    ensures Step(t, x + s + y, x + u + y)
  {
    hide Replaces, Swaps;
    var at: nat :| Replaces(t, s, u, at) || Swaps(t, s, u, at);
    if Replaces(t, s, u, at) {
      ReplaceInContext(t, x, s, u, y, at);
    } else {
      SwapInContext(t, x, s, u, y, at);
    }
  }

  lemma InContext(t: Tables, x: seq<nat>, s: seq<nat>, u: seq<nat>, y: seq<nat>)
    requires Equivalent(t, s, u)
    ensures Equivalent(t, x + s + y, x + u + y)
  {
    var a :| Chain(t, a, s, u);
    var b := seq(|a|, i requires 0 <= i < |a| => x + a[i] + y);
    forall i | 0 < i < |b|
      ensures Linked(t, b[i - 1], b[i])
    {
      assert Linked(t, a[i - 1], a[i]);
      if Step(t, a[i - 1], a[i]) {
        StepInContext(t, x, a[i - 1], a[i], y);
      } else {
        StepInContext(t, x, a[i], a[i - 1], y);
      }
    }
    assert Chain(t, b, x + s + y, x + u + y);
  }

  // ------------------------------------------------ every text reaches its NFD

  lemma {:induction false} ReachesDecomposed(t: Tables, cp: nat, depth: nat)
    requires Valid(t) && Shallow(t.decomp, cp, depth)
    ensures Equivalent(t, [cp], DecomposeWithin(t, cp, depth))
    decreases depth
  {
    if IsSyllable(cp) {
      assert [cp][..0] + SyllableParts(cp) + [cp][1..] == SyllableParts(cp);
      assert Replaces(t, [cp], SyllableParts(cp), 0);
      OneStep(t, [cp], SyllableParts(cp));
    } else if cp !in t.decomp {
      Reflexive(t, [cp]);
    } else {
      var to := t.decomp[cp];
      assert [cp][..0] + to + [cp][1..] == to;
      assert Replaces(t, [cp], to, 0);
      OneStep(t, [cp], to);
      var first := DecomposeWithin(t, to[0], depth - 1);
      ReachesDecomposed(t, to[0], depth - 1);
      if |to| == 2 {
        var second := DecomposeWithin(t, to[1], depth - 1);
        ReachesDecomposed(t, to[1], depth - 1);
        InContext(t, [], [to[0]], first, [to[1]]);
        assert [] + [to[0]] + [to[1]] == to && [] + first + [to[1]] == first + [to[1]];
        InContext(t, first, [to[1]], second, []);
        assert first + [to[1]] + [] == first + [to[1]] && first + second + [] == first + second;
        Transitive(t, to, first + [to[1]], first + second);
        assert DecomposeWithin(t, cp, depth) == first + second;
      } else {
        assert to == [to[0]];
        assert DecomposeWithin(t, cp, depth) == first + [] == first;
      }
      Transitive(t, [cp], to, DecomposeWithin(t, cp, depth));
    }
  }

  lemma {:induction false} ReachesFullAll(t: Tables, s: seq<nat>)
    requires Valid(t)
    ensures Equivalent(t, s, FullAll(t, s))
  {
    hide DecomposeWithin;
    if s == [] {
      Reflexive(t, s);
    } else {
      var front, cp := s[..|s| - 1], s[|s| - 1];
      ReachesFullAll(t, front);
      ReachesDecomposed(t, cp, MAX_DEPTH);
      InContext(t, [], front, FullAll(t, front), [cp]);
      assert [] + front + [cp] == s && [] + FullAll(t, front) + [cp] == FullAll(t, front) + [cp];
      InContext(t, FullAll(t, front), [cp], Full(t, cp), []);
      assert FullAll(t, front) + [cp] + [] == FullAll(t, front) + [cp];
      assert FullAll(t, front) + Full(t, cp) + [] == FullAll(t, s);
      Transitive(t, s, FullAll(t, front) + [cp], FullAll(t, s));
    }
  }

  lemma {:induction false} ReachesInserted(t: Tables, s: seq<nat>, x: nat)
    requires AllSettled(t, s) && Settled(t, x)
    ensures Equivalent(t, s + [x], Insert(t, s, x))
  {
    if s == [] || Class(t, x) == 0 || Class(t, s[|s| - 1]) <= Class(t, x) {
      Reflexive(t, s + [x]);
    } else {
      var front, z := s[..|s| - 1], s[|s| - 1];
      var w, v := s + [x], front + [x] + [z];
      assert w[..|s| - 1] + [w[|s|], w[|s| - 1]] + w[|s| + 1..] == v;
      assert Swaps(t, w, v, |s| - 1);
      OneStep(t, w, v);
      ReachesInserted(t, front, x);
      InContext(t, [], front + [x], Insert(t, front, x), [z]);
      assert [] + (front + [x]) + [z] == v;
      assert [] + Insert(t, front, x) + [z] == Insert(t, s, x);
      Transitive(t, w, v, Insert(t, s, x));
    }
  }

  lemma {:induction false} ReachesOrdered(t: Tables, s: seq<nat>)
    requires AllSettled(t, s)
    ensures Equivalent(t, s, Order(t, s))
  {
    hide Insert;
    if s == [] {
      Reflexive(t, s);
    } else {
      var front, x := s[..|s| - 1], s[|s| - 1];
      ReachesOrdered(t, front);
      InContext(t, [], front, Order(t, front), [x]);
      assert [] + front + [x] == s && [] + Order(t, front) + [x] == Order(t, front) + [x];
      OrderSettled(t, front);
      ReachesInserted(t, Order(t, front), x);
      Transitive(t, s, Order(t, front) + [x], Order(t, s));
    }
  }

  lemma ReachesNfd(t: Tables, s: seq<nat>)
    requires Valid(t)
    ensures Equivalent(t, s, Nfd(t, s))
  {
    ReachesFullAll(t, s);
    FullAllSettled(t, s);
    ReachesOrdered(t, FullAll(t, s));
    Transitive(t, s, FullAll(t, s), Nfd(t, s));
  }

  // -------------------------------------------- and no step changes the NFD

  lemma ReplaceKeepsFull(t: Tables, s: seq<nat>, u: seq<nat>, at: nat)
    requires Valid(t) && Replaces(t, s, u, at)
    ensures FullAll(t, s) == FullAll(t, u)
  {
    hide DecomposeWithin, SyllableParts;
    var cp := s[at];
    var to := if IsSyllable(cp) then SyllableParts(cp) else t.decomp[cp];
    assert s == s[..at] + [cp] + s[at + 1..];
    FullAllConcat(t, s[..at] + [cp], s[at + 1..]);
    FullAllConcat(t, s[..at], [cp]);
    FullAllConcat(t, s[..at] + to, s[at + 1..]);
    FullAllConcat(t, s[..at], to);
    FullAllOne(t, cp);
    if IsSyllable(cp) {
      SyllablePartsSettled(t, cp);
      SettledStays(t, to);
      FullOfSyllable(t, cp);
    } else {
      FullStep(t, cp);
    }
  }

  lemma FullOfSyllable(t: Tables, cp: nat)
    requires Valid(t) && IsSyllable(cp)
    ensures Full(t, cp) == SyllableParts(cp)
  {
    hide SyllableParts;
  }

  lemma SwapKeepsNfd(t: Tables, s: seq<nat>, u: seq<nat>, at: nat)
    requires Valid(t) && Swaps(t, s, u, at)
    ensures Nfd(t, s) == Nfd(t, u)
  {
    hide DecomposeWithin, InsertAll;
    var x, a, b, y := s[..at], s[at], s[at + 1], s[at + 2..];
    assert s == x + [a, b] + y;
    SettledInside(t, x, [a, b], y);
    SettledInside(t, x, [b, a], y);
    OrderIgnoresSwaps(t, FullAll(t, x), a, b, FullAll(t, y));
  }

  lemma SettledInside(t: Tables, x: seq<nat>, m: seq<nat>, y: seq<nat>)
    requires Valid(t) && AllSettled(t, m)
    ensures FullAll(t, x + m + y) == FullAll(t, x) + m + FullAll(t, y)
  {
    FullAllConcat(t, x + m, y);
    FullAllConcat(t, x, m);
    SettledStays(t, m);
  }

  lemma StepKeepsNfd(t: Tables, s: seq<nat>, u: seq<nat>)
    requires Valid(t) && Linked(t, s, u)
    ensures Nfd(t, s) == Nfd(t, u)
  {
    var a, b := if Step(t, s, u) then s else u, if Step(t, s, u) then u else s;
    var at: nat :| Replaces(t, a, b, at) || Swaps(t, a, b, at);
    if Replaces(t, a, b, at) {
      ReplaceKeepsFull(t, a, b, at);
    } else {
      SwapKeepsNfd(t, a, b, at);
    }
  }

  lemma {:induction false} ChainKeepsNfd(t: Tables, chain: seq<seq<nat>>, s: seq<nat>, u: seq<nat>)
    requires Valid(t) && Chain(t, chain, s, u)
    ensures Nfd(t, s) == Nfd(t, u)
    decreases |chain|
  {
    hide InsertAll, FullAll, Linked;
    if |chain| > 1 {
      var front := chain[..|chain| - 1];
      assert Chain(t, front, s, front[|front| - 1]);
      ChainKeepsNfd(t, front, s, front[|front| - 1]);
      assert Linked(t, chain[|chain| - 2], chain[|chain| - 1]);
      StepKeepsNfd(t, chain[|chain| - 2], chain[|chain| - 1]);
    }
  }

  /** Normalization Form C decides canonical equivalence: two texts have the same normal form
      exactly when single mappings and swaps lead from one to the other. */
  lemma NfcDecidesEquivalence(t: Tables, s: seq<nat>, u: seq<nat>)
    requires Valid(t)
    ensures Equivalent(t, s, u) <==> Nfc(t, s) == Nfc(t, u)
  {
    hide Nfd, Nfc;
    NfcAgreesWithNfd(t, s, u);
    if Equivalent(t, s, u) {
      var chain :| Chain(t, chain, s, u);
      ChainKeepsNfd(t, chain, s, u);
    }
    if Nfd(t, s) == Nfd(t, u) {
      ReachesNfd(t, s);
      ReachesNfd(t, u);
      Symmetric(t, u, Nfd(t, u));
      Transitive(t, s, Nfd(t, s), u);
    }
  }

  /** And a text is equivalent to its own normal form. */
  lemma NfcIsEquivalent(t: Tables, s: seq<nat>)
    requires Valid(t)
    ensures Equivalent(t, s, Nfc(t, s))
  {
    hide Nfd, Nfc;
    NfcIdempotent(t, s);
    NfcDecidesEquivalence(t, s, Nfc(t, s));
  }
}
