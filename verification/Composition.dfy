/** What composition is, told without the composer: which code points make a pair (sections 3.7 and
    3.12 of The Unicode Standard), which of a text are taken in by the starter before them (rule D117
    of section 3.11), and which composites are their own normal form. */
module Composition {
  import opened Utf8
  import opened UnicodeTables
  import opened CanonicalOrder
  import opened Normalization

  // ------------------------------------------------------------------- pairs

  /** A lead and a vowel, or a syllable without a tail and a tail. */
  predicate HangulPair(a: nat, b: nat) {
    (IsLead(a) && IsVowel(b)) || (IsSyllable(a) && |SyllableParts(a)| == 2 && IsTail(b))
  }

  /** c is what a and b make: the syllable with those parts, or the composite the tables record. */
  predicate Makes(t: Tables, a: nat, b: nat, c: nat) {
    if HangulPair(a, b) then
      IsSyllable(c) && SyllableParts(c) == (if IsSyllable(a) then SyllableParts(a) else [a]) + [b]
    else
      (a, b) in t.compose && t.compose[(a, b)] == c
  }

  /** The syllable's number is (lead, vowel, tail) in the mixed radix of section 3.12. */
  lemma PartsOfSyllable(l: nat, v: nat, tail: nat)
    requires l < L_COUNT && v < V_COUNT && tail < T_COUNT
    ensures var cp := S_BASE + (l * V_COUNT + v) * T_COUNT + tail;
            && IsSyllable(cp)
            && SyllableParts(cp) == [L_BASE + l, V_BASE + v] + if tail == 0 then [] else [T_BASE + tail]
  {
    var si := (l * V_COUNT + v) * T_COUNT;
    SyllableOfLeadVowel(l, v);
    if tail > 0 { SyllableWithTail(si, tail); }
  }

  /** And there is no other syllable with these parts. */
  lemma SyllableIsItsParts(cp: nat)
    requires IsSyllable(cp)
    ensures var p := SyllableParts(cp);
            && 2 <= |p| <= 3 && IsLead(p[0]) && IsVowel(p[1]) && (|p| == 3 ==> IsTail(p[2]))
            && cp == S_BASE + ((p[0] - L_BASE) * V_COUNT + (p[1] - V_BASE)) * T_COUNT + (if |p| == 3 then p[2] - T_BASE else 0)
            && (|p| == 2 <==> (cp - S_BASE) % T_COUNT == 0)
  {
    var si := cp - S_BASE;
    var l, r := si / N_COUNT, si % N_COUNT;
    assert si == l * N_COUNT + r;
    var v, tail := r / T_COUNT, r % T_COUNT;
    assert r == v * T_COUNT + tail;
    assert l * N_COUNT == l * V_COUNT * T_COUNT;
    assert si == (l * V_COUNT + v) * T_COUNT + tail;
    SplitOff(l * V_COUNT + v, tail);
  }

  lemma SplitOff(q: nat, r: nat)
    requires r < T_COUNT
    ensures (q * T_COUNT + r) % T_COUNT == r
  {
  }

  lemma MadeOnce(t: Tables, a: nat, b: nat, c: nat, d: nat)
    requires Makes(t, a, b, c) && Makes(t, a, b, d)
    ensures c == d
  {
    hide SyllableParts;
    if HangulPair(a, b) {
      SyllableIsItsParts(c);
      SyllableIsItsParts(d);
    }
  }

  /** `compose_pair` answers what a pair makes, and zero exactly for a pair that makes nothing. */
  lemma PairComposes(t: Tables, a: nat, b: nat)
    requires Valid(t)
    ensures forall c: nat :: Makes(t, a, b, c) <==> c != 0 && ComposePair(t, a, b) == c
  {
    var made := ComposePair(t, a, b);
    if IsLead(a) && IsVowel(b) {
      LeadVowelMakes(t, a, b);
    } else if IsSyllable(a) && (a - S_BASE) % T_COUNT == 0 && IsTail(b) {
      SyllableTailMakes(t, a, b);
    } else {
      assert !HangulPair(a, b) by { if IsSyllable(a) { SyllableIsItsParts(a); } }
      assert (a, b) in t.compose ==> ComposesTo(t.decomp, (a, b), t.compose[(a, b)]);
    }
    forall c: nat
      ensures Makes(t, a, b, c) <==> c != 0 && made == c
    {
      if made != 0 && Makes(t, a, b, c) { MadeOnce(t, a, b, c, made); }
    }
  }

  lemma LeadVowelMakes(t: Tables, a: nat, b: nat)
    requires IsLead(a) && IsVowel(b)
    ensures Makes(t, a, b, ComposePair(t, a, b)) && ComposePair(t, a, b) != 0
  {
    PartsOfSyllable(a - L_BASE, b - V_BASE, 0);
  }

  lemma SyllableTailMakes(t: Tables, a: nat, b: nat)
    requires IsSyllable(a) && (a - S_BASE) % T_COUNT == 0 && IsTail(b)
    ensures Makes(t, a, b, ComposePair(t, a, b)) && ComposePair(t, a, b) != 0
  {
    SyllableIsItsParts(a);
    var p := SyllableParts(a);
    PartsOfSyllable(p[0] - L_BASE, p[1] - V_BASE, b - T_BASE);
    assert p == [p[0], p[1]];
    assert [p[0], p[1]] + [b] == SyllableParts(ComposePair(t, a, b));
  }

  /** Every recorded pair composes to its recorded composite, unless it is also a Hangul pair. */
  lemma RecordedComposes(t: Tables, p: (nat, nat))
    requires Valid(t) && p in t.compose
    ensures ComposePair(t, p.0, p.1) == t.compose[p] <==> !HangulPair(p.0, p.1)
  {
    hide SyllableParts;
    PairComposes(t, p.0, p.1);
    var c := t.compose[p];
    assert ComposesTo(t.decomp, p, c);
    if HangulPair(p.0, p.1) { assert !Makes(t, p.0, p.1, c); } else { assert Makes(t, p.0, p.1, c); }
  }

  // ------------------------------------------------ which code points remain

  /** The place of the starter that s[i] could be taken in by: the last kept one before it, or the
      beginning of a text that begins with marks. */
  function StarterBefore(t: Tables, s: seq<nat>, kept: seq<bool>, i: nat): (p: nat)
    requires 0 < i <= |s| == |kept|
    ensures p < i
  {
    if i == 1 || (kept[i - 1] && Class(t, s[i - 1]) == 0) then i - 1 else StarterBefore(t, s, kept, i - 1)
  }

  /** There is no starter before s[i], or some code point kept between the two has no lower class. */
  predicate Blocked(t: Tables, s: seq<nat>, kept: seq<bool>, i: nat)
    requires 0 < i < |s| == |kept|
  {
    var p := StarterBefore(t, s, kept, i);
    Class(t, s[p]) != 0 || exists m | p < m < i :: kept[m] && Class(t, s[m]) >= Class(t, s[i])
  }

  ghost predicate Pairs(t: Tables, a: nat, b: nat) { exists c: nat :: Makes(t, a, b, c) }

  /** kept[i] is whether s[i] stays, stood[i] how the last starter stands after s[i] has been read. */
  ghost predicate ReadsAt(t: Tables, s: seq<nat>, kept: seq<bool>, stood: seq<nat>, i: nat)
    requires i < |s| == |kept| == |stood|
  {
    if i == 0 then kept[0] && stood[0] == s[0]
    else
      && (kept[i] <==> Blocked(t, s, kept, i) || !Pairs(t, stood[i - 1], s[i]))
      && (!kept[i] ==> Makes(t, stood[i - 1], s[i], stood[i]))
      && (kept[i] ==> stood[i] == if Class(t, s[i]) == 0 then s[i] else stood[i - 1])
  }

  ghost predicate Reading(t: Tables, s: seq<nat>, kept: seq<bool>, stood: seq<nat>) {
    |kept| == |stood| == |s| && forall i | 0 <= i < |s| :: ReadsAt(t, s, kept, stood, i)
  }

  function CountKept(kept: seq<bool>, n: nat): (k: nat)
    requires n <= |kept|
    ensures k <= n
  {
    if n == 0 then 0 else CountKept(kept, n - 1) + if kept[n - 1] then 1 else 0
  }

  /** The code points kept of the first n, a starter standing as what it has been made into. */
  function Written(t: Tables, s: seq<nat>, kept: seq<bool>, stood: seq<nat>, n: nat): (w: seq<nat>)
    requires n <= |s| == |kept| == |stood|
    ensures |w| == CountKept(kept, n)
  {
    if n == 0 then []
    else
      var w := Written(t, s, kept, stood, n - 1);
      if kept[n - 1] then w + [s[n - 1]]
      else
        var at := if n == 1 then 0 else CountKept(kept, StarterBefore(t, s, kept, n - 1));
        if at < |w| then w[at := stood[n - 1]] else w
  }

  /** The marks kept since the starter, as the composer's `last` remembers them. */
  ghost predicate Remembers(t: Tables, s: seq<nat>, kept: seq<bool>, n: nat, last: nat)
    requires 0 < n <= |s| == |kept|
  {
    var p := StarterBefore(t, s, kept, n);
    Class(t, s[p]) == 0 ==>
      && (forall m | p < m < n && kept[m] :: 0 != Class(t, s[m]) <= last)
      && (last != 0 ==> last <= Class(t, s[n - 1]) && exists m | p < m < n :: kept[m] && Class(t, s[m]) == last)
  }

  ghost predicate Follows(t: Tables, s: seq<nat>, kept: seq<bool>, stood: seq<nat>, n: nat, c: Composer)
    requires 0 < n <= |s| == |kept| == |stood|
  {
    var p := StarterBefore(t, s, kept, n);
    && c.Out() == Written(t, s, kept, stood, n) && c.head == stood[n - 1] && |c.done| == CountKept(kept, p)
    && (Class(t, s[p]) != 0 ==> p == 0 && c.head == s[0])
    && Remembers(t, s, kept, n, c.last)
  }

  /** Reading only looks back. */
  lemma {:induction false} SameBefore(t: Tables, s: seq<nat>, k: seq<bool>, k': seq<bool>, i: nat)
    requires 0 < i <= |s| == |k| == |k'| && forall m | 0 <= m < i :: k[m] == k'[m]
    ensures StarterBefore(t, s, k, i) == StarterBefore(t, s, k', i)
  {
    if i > 1 { SameBefore(t, s, k, k', i - 1); }
  }

  predicate BeginsWell(t: Tables, s: seq<nat>)
    requires s != []
  {
    Class(t, s[0]) != 0 ==> !IsLead(s[0]) && !IsSyllable(s[0])
  }

  /** What the composer's next step does, against the rule. */
  lemma StepReads(t: Tables, s: seq<nat>, kept: seq<bool>, stood: seq<nat>, n: nat, c: Composer)
    requires Valid(t) && 0 < n < |s| == |kept| == |stood| && BeginsWell(t, s) && Follows(t, s, kept, stood, n, c)
    requires var cls, made := Class(t, s[n]), ComposePair(t, c.head, s[n]);
             && (kept[n] <==> !(made != 0 && (c.last < cls || c.last == 0)))
             && stood[n] == ComposeStep(t, c, s[n]).head
    ensures ReadsAt(t, s, kept, stood, n)
  {
    hide ComposePair, Written, CountKept, StarterBefore, HangulPair;
    var made := ComposePair(t, c.head, s[n]);
    PairComposes(t, c.head, s[n]);
    assert Makes(t, c.head, s[n], made) <==> made != 0;
    var p := StarterBefore(t, s, kept, n);
    if Class(t, s[p]) != 0 {
      MarkMakesNothing(t, s[0], s[n]);
    } else if c.last != 0 {
      var m :| p < m < n && kept[m] && Class(t, s[m]) == c.last;
      assert Class(t, s[m]) >= Class(t, s[n]) ==> Blocked(t, s, kept, n);
    }
    assert kept[n] <==> Blocked(t, s, kept, n) || !Pairs(t, stood[n - 1], s[n]);
  }

  /** A mark is no first element. */
  lemma MarkMakesNothing(t: Tables, a: nat, b: nat)
    requires Valid(t) && Class(t, a) != 0 && !IsLead(a) && !IsSyllable(a)
    ensures !Pairs(t, a, b)
  {
  }

  lemma StepFollows(t: Tables, s: seq<nat>, kept: seq<bool>, stood: seq<nat>, n: nat, c: Composer)
    requires Ordered(t, s) && 0 < n < |s| == |kept| == |stood| && Follows(t, s, kept, stood, n, c)
    requires var cls, made := Class(t, s[n]), ComposePair(t, c.head, s[n]);
             && (kept[n] <==> !(made != 0 && (c.last < cls || c.last == 0)))
             && stood[n] == ComposeStep(t, c, s[n]).head
    requires Class(t, s[StarterBefore(t, s, kept, n)]) != 0 ==> kept[n]
    ensures Follows(t, s, kept, stood, n + 1, ComposeStep(t, c, s[n]))
  {
    hide ComposePair;
    StepOut(t, c, s[n]);
    var d := ComposeStep(t, c, s[n]);
    var p, q := StarterBefore(t, s, kept, n), StarterBefore(t, s, kept, n + 1);
    assert q == if kept[n] && Class(t, s[n]) == 0 then n else p;
    assert Remembers(t, s, kept, n + 1, d.last) by { StepRemembers(t, s, kept, n, c, d.last); }
  }

  lemma StepRemembers(t: Tables, s: seq<nat>, kept: seq<bool>, n: nat, c: Composer, last: nat)
    requires Ordered(t, s) && 0 < n < |s| == |kept| && Remembers(t, s, kept, n, c.last)
    requires var cls := Class(t, s[n]);
             if kept[n] then last == cls else last == c.last && (last < cls || last == 0)
    ensures Remembers(t, s, kept, n + 1, last)
  {
    var p := StarterBefore(t, s, kept, n);
    if kept[n] && Class(t, s[n]) != 0 && Class(t, s[p]) == 0 {
      assert kept[n] && Class(t, s[n]) == last;
    } else if !kept[n] && Class(t, s[p]) == 0 && last != 0 {
      var m :| p < m < n && kept[m] && Class(t, s[m]) == last;
    }
  }

  // --------------------------------------------------- the whole of a text

  /** The composer when it has read n code points. */
  function After(t: Tables, s: seq<nat>, n: nat): Composer
    requires 0 < n <= |s|
  {
    ComposeFold(t, Begin(t, s[0]), s[1..n])
  }

  function Joins(t: Tables, c: Composer, cp: nat): bool {
    ComposePair(t, c.head, cp) != 0 && (c.last < Class(t, cp) || c.last == 0)
  }

  ghost predicate FromComposer(t: Tables, s: seq<nat>, kept: seq<bool>, stood: seq<nat>) {
    && |kept| == |stood| == |s|
    && (forall i | 0 <= i < |s| :: kept[i] <==> i == 0 || !Joins(t, After(t, s, i), s[i]))
    && (forall i | 0 <= i < |s| :: stood[i] == After(t, s, i + 1).head)
  }

  lemma BeginFollows(t: Tables, s: seq<nat>, kept: seq<bool>, stood: seq<nat>)
    requires s != [] && FromComposer(t, s, kept, stood)
    ensures Follows(t, s, kept, stood, 1, After(t, s, 1)) && ReadsAt(t, s, kept, stood, 0)
  {
    assert s[1..1] == [];
    assert After(t, s, 1) == Begin(t, s[0]);
    assert Written(t, s, kept, stood, 1) == Written(t, s, kept, stood, 0) + [s[0]] == [s[0]];
    assert StarterBefore(t, s, kept, 1) == 0;
  }

  lemma {:induction false} FoldFollows(t: Tables, s: seq<nat>, kept: seq<bool>, stood: seq<nat>, n: nat)
    requires Valid(t) && Ordered(t, s) && s != [] && BeginsWell(t, s) && FromComposer(t, s, kept, stood)
    requires 0 < n <= |s|
    ensures Follows(t, s, kept, stood, n, After(t, s, n)) && forall i | 0 <= i < n :: ReadsAt(t, s, kept, stood, i)
  {
    hide ComposePair, ComposeStep, ComposeFold, Follows, ReadsAt, Valid, Ordered, BeginsWell, Begin;
    if n == 1 {
      BeginFollows(t, s, kept, stood);
    } else {
      FoldFollows(t, s, kept, stood, n - 1);
      var c := After(t, s, n - 1);
      FoldNext(t, c, s, n - 1);
      assert stood[n - 1] == ComposeStep(t, c, s[n - 1]).head;
      assert kept[n - 1] <==> !Joins(t, c, s[n - 1]);
      StepReads(t, s, kept, stood, n - 1, c);
      MarkKept(t, s, kept, stood, n - 1);
      StepFollows(t, s, kept, stood, n - 1, c);
    }
  }

  lemma MarkKept(t: Tables, s: seq<nat>, kept: seq<bool>, stood: seq<nat>, i: nat)
    requires 0 < i < |s| == |kept| == |stood| && ReadsAt(t, s, kept, stood, i)
    ensures Class(t, s[StarterBefore(t, s, kept, i)]) != 0 ==> kept[i]
  {
  }

  /** A text is read in one way only. */
  lemma {:induction false} ReadOnce(t: Tables, s: seq<nat>, kept: seq<bool>, stood: seq<nat>, kept': seq<bool>, stood': seq<nat>, n: nat)
    requires Reading(t, s, kept, stood) && Reading(t, s, kept', stood') && n <= |s|
    ensures kept[..n] == kept'[..n] && stood[..n] == stood'[..n]
  {
    hide Makes;
    if n > 0 {
      var i := n - 1;
      ReadOnce(t, s, kept, stood, kept', stood', i);
      assert forall m | 0 <= m < i :: kept[m] == kept[..i][m] && kept'[m] == kept'[..i][m];
      assert forall m | 0 <= m < i :: stood[m] == stood[..i][m] && stood'[m] == stood'[..i][m];
      assert ReadsAt(t, s, kept, stood, i) && ReadsAt(t, s, kept', stood', i);
      if i > 0 {
        SameBefore(t, s, kept, kept', i);
        assert Blocked(t, s, kept, i) <==> Blocked(t, s, kept', i);
        if !kept[i] { MadeOnce(t, stood[i - 1], s[i], stood[i], stood'[i]); }
      }
    }
  }

  /** What composition leaves of an ordered text is what the reading leaves. */
  ghost predicate Composed(t: Tables, s: seq<nat>, r: seq<nat>) {
    exists kept: seq<bool>, stood: seq<nat> :: Reading(t, s, kept, stood) && r == Written(t, s, kept, stood, |s|)
  }

  /** In an ordered text each code point is blocked from the starter before it, or makes nothing with
      that starter as it then stands, and stays; or it goes, and the starter stands as what the two
      make. That is exactly what composition leaves. A text that begins with a mark is taken not to
      begin with a Hangul letter; those are no marks. */
  lemma ComposeCharacterised(t: Tables, s: seq<nat>, r: seq<nat>)
    requires Valid(t) && Ordered(t, s) && (s != [] ==> BeginsWell(t, s))
    ensures r == Compose(t, s) <==> Composed(t, s, r)
  {
    hide ComposeFold, Follows, ReadsAt, Ordered, Written, Joins, Begin;
    if s == [] {
      EmptyRead(t);
      if kept: seq<bool>, stood: seq<nat> :| Reading(t, s, kept, stood) && r == Written(t, s, kept, stood, |s|) {
        NothingWritten(t, kept, stood);
      }
    } else {
      var kept := seq(|s|, i requires 0 <= i < |s| => i == 0 || !Joins(t, After(t, s, i), s[i]));
      var stood := seq(|s|, i requires 0 <= i < |s| => After(t, s, i + 1).head);
      assert FromComposer(t, s, kept, stood);
      FoldFollows(t, s, kept, stood, |s|);
      assert s[1..|s|] == s[1..];
      assert Reading(t, s, kept, stood);
      assert Compose(t, s) == Written(t, s, kept, stood, |s|) by { FollowsOut(t, s, kept, stood); }
      if kept': seq<bool>, stood': seq<nat> :| Reading(t, s, kept', stood') && r == Written(t, s, kept', stood', |s|) {
        ReadOnce(t, s, kept, stood, kept', stood', |s|);
        assert kept == kept[..|s|] && kept' == kept'[..|s|] && stood == stood[..|s|] && stood' == stood'[..|s|];
      }
    }
  }

  lemma FollowsOut(t: Tables, s: seq<nat>, kept: seq<bool>, stood: seq<nat>)
    requires s != [] && |kept| == |stood| == |s| && Follows(t, s, kept, stood, |s|, After(t, s, |s|))
    ensures Compose(t, s) == Written(t, s, kept, stood, |s|)
  {
    assert s[1..|s|] == s[1..];
  }

  lemma EmptyRead(t: Tables)
    ensures Composed(t, [], []) && Compose(t, []) == []
  {
    assert Reading(t, [], [], []) && Written(t, [], [], [], 0) == [];
  }

  lemma NothingWritten(t: Tables, kept: seq<bool>, stood: seq<nat>)
    requires kept == [] && stood == []
    ensures Written(t, [], kept, stood, 0) == []
  {
  }

  /** And so the normal form is the reading of the ordered decomposition. */
  lemma NfcCharacterised(t: Tables, s: seq<nat>, r: seq<nat>)
    requires Valid(t) && (Nfd(t, s) != [] ==> BeginsWell(t, Nfd(t, s)))
    ensures r == Nfc(t, s) <==> Composed(t, Nfd(t, s), r)
  {
    hide Compose, InsertAll, Composed;
    OrderIsOrdered(t, FullAll(t, s));
    ComposeCharacterised(t, Nfd(t, s), r);
  }

  // ------------------------------------------------- composites that stay

  /** The second element of a recorded pair comes last in the ordered decomposition. */
  predicate StaysLast(t: Tables, a: nat, b: nat)
    requires Valid(t)
  {
    var d := Nfd(t, [a]);
    Class(t, b) == 0 || d == [] || Class(t, d[|d| - 1]) <= Class(t, b)
  }

  lemma LastStep(t: Tables, s: seq<nat>, b: nat)
    requires s != []
    ensures Compose(t, s + [b]) == ComposeStep(t, ComposeFold(t, Begin(t, s[0]), s[1..]), b).Out()
  {
    hide ComposeStep;
    assert (s + [b])[1..] == s[1..] + [b];
    assert (s[1..] + [b])[..|s| - 1] == s[1..];
  }

  /** A text that composes to one starter leaves the composer with that and nothing to remember. */
  lemma ComposedToOne(t: Tables, s: seq<nat>, a: nat)
    requires Valid(t) && s != [] && Compose(t, s) == [a] && Class(t, a) == 0 && AllSettled(t, s) && Ordered(t, s)
    ensures ComposeFold(t, Begin(t, s[0]), s[1..]) == Composer([], a, [], 0)
  {
    hide DecomposeWithin, InsertAll;
    assert s == [s[0]] + s[1..];
    ComposeFoldRecoverable(t, s[0], s[1..]);
    var c := ComposeFold(t, Begin(t, s[0]), s[1..]);
    assert |c.Out()| == |c.done| + 1 + |c.marks|;
    assert c.Out()[|c.done|] == c.head;
    if |s| > 1 { BlockedOnce(t, Begin(t, s[0]), s[1..]); }
  }

  /** A mark that begins a text is remembered as such only until the next code point. */
  lemma {:induction false} BlockedOnce(t: Tables, c: Composer, s: seq<nat>)
    requires Valid(t) && s != []
    ensures ComposeFold(t, c, s).last != BLOCKED
  {
    hide ComposePair;
    ClassSmall(t, s[|s| - 1]);
    if |s| > 1 { BlockedOnce(t, c, s[..|s| - 1]); }
  }

  lemma ClassSmall(t: Tables, cp: nat)
    requires Valid(t)
    ensures Class(t, cp) < BLOCKED
  {
  }

  lemma FullOfComposite(t: Tables, p: (nat, nat))
    requires Valid(t) && p in t.compose
    ensures var c := t.compose[p];
            Full(t, c) == Full(t, p.0) + Full(t, p.1) && !Settled(t, c) && !IsSyllable(c) && Class(t, p.0) == 0 && c != 0
  {
    hide DecomposeWithin;
    var c := t.compose[p];
    assert ComposesTo(t.decomp, p, c);
    FullStep(t, c);
    assert t.decomp[c] == [p.0] + [p.1];
    FullAllConcat(t, [p.0], [p.1]);
    FullAllOne(t, p.0);
    FullAllOne(t, p.1);
  }

  /** A recorded composite is its own normal form when its first element is, its second has no
      decomposition and comes last, and the pair is no Hangul pair. */
  lemma CompositeStays(t: Tables, p: (nat, nat))
    requires Valid(t) && p in t.compose && Nfc(t, [p.0]) == [p.0]
    requires Settled(t, p.1) && StaysLast(t, p.0, p.1) && !HangulPair(p.0, p.1)
    ensures Nfc(t, [t.compose[p]]) == [t.compose[p]]
  {
    hide DecomposeWithin, Valid, Compose, Settled, HangulPair, AllSettled, Order;
    var (a, b) := p;
    var c := t.compose[p];
    FullOfComposite(t, p);
    FullAllOne(t, a);
    FullAllOne(t, b);
    FullAllOne(t, c);
    SettledOne(t, b);
    var d := Nfd(t, [a]);
    FullAllSettled(t, [a]);
    OrderSettled(t, Full(t, a));
    OrderIsOrdered(t, Full(t, a));
    NfdNotEmpty(t, a);
    InsertedLast(t, Full(t, a), b);
    assert Nfd(t, [c]) == d + [b];
    ComposedToOne(t, d, a);
    LastStep(t, d, b);
    RecordedComposes(t, p);
    StepJoins(t, a, b, c);
  }

  lemma SettledOne(t: Tables, b: nat)
    requires Valid(t) && Settled(t, b)
    ensures Full(t, b) == [b]
  {
  }

  lemma NfdNotEmpty(t: Tables, a: nat)
    requires Valid(t)
    ensures Nfd(t, [a]) != []
  {
    hide DecomposeWithin;
    FullAllSettled(t, [a]);
  }

  lemma InsertedLast(t: Tables, s: seq<nat>, b: nat)
    requires s != []
    ensures var d := Order(t, s);
            && |d| == |s|
            && (Class(t, b) == 0 || Class(t, d[|d| - 1]) <= Class(t, b) <==> Order(t, s + [b]) == d + [b])
            && (Order(t, s + [b])[|s|] == b <==> Order(t, s + [b]) == d + [b])
  {
    hide Insert;
    assert (s + [b])[..|s|] == s;
    var d := Order(t, s);
    InsertEnds(t, d, b);
  }

  lemma InsertEnds(t: Tables, d: seq<nat>, b: nat)
    requires d != []
    ensures var r := Insert(t, d, b);
            && (Class(t, b) == 0 || Class(t, d[|d| - 1]) <= Class(t, b) <==> r == d + [b])
            && (r[|d|] == b <==> r == d + [b])
  {
  }

  lemma StepJoins(t: Tables, a: nat, b: nat, c: nat)
    requires ComposePair(t, a, b) == c != 0
    ensures ComposeStep(t, Composer([], a, [], 0), b).Out() == [c]
  {
    hide ComposePair;
  }

  /** And only then. */
  lemma StaysOnlyThen(t: Tables, p: (nat, nat))
    requires Valid(t) && p in t.compose && Nfc(t, [t.compose[p]]) == [t.compose[p]]
    ensures Settled(t, p.1) && StaysLast(t, p.0, p.1) && !HangulPair(p.0, p.1)
  {
    hide DecomposeWithin, Valid, Compose, HangulPair, Settled, Order;
    var (a, b) := p;
    var c := t.compose[p];
    FullOfComposite(t, p);
    FullAllOne(t, a);
    FullAllOne(t, c);
    var s := Nfd(t, [c]);
    TwoAtLeast(t, a, b);
    OrderLength(t, Full(t, c));
    FullAllSettled(t, [c]);
    OrderSettled(t, Full(t, c));
    var front, y := s[..|s| - 1], s[|s| - 1];
    assert s == front + [y];
    LastStep(t, front, y);
    var d := ComposeFold(t, Begin(t, front[0]), front[1..]);
    OnlyJoinsAreShort(t, d, y, c);
    LastMakes(t, d.head, y, p);
    SettledOne(t, b);
    LastIs(s, y);
    NfdNotEmpty(t, a);
    InsertedLast(t, Full(t, a), b);
  }

  lemma LastIs(s: seq<nat>, y: nat)
    requires s != [] && s[|s| - 1] == y
    ensures y in s
  {
  }

  lemma TwoAtLeast(t: Tables, a: nat, b: nat)
    requires Valid(t)
    ensures |Full(t, a) + Full(t, b)| >= 2
  {
    hide DecomposeWithin;
    DecomposedIsSettled(t, a, MAX_DEPTH);
    DecomposedIsSettled(t, b, MAX_DEPTH);
  }

  lemma OrderLength(t: Tables, s: seq<nat>)
    ensures |Order(t, s)| == |s|
  {
  }

  /** A step that leaves one code point has made it. */
  lemma OnlyJoinsAreShort(t: Tables, d: Composer, y: nat, c: nat)
    requires ComposeStep(t, d, y).Out() == [c]
    ensures ComposePair(t, d.head, y) == c != 0
  {
    hide ComposePair;
    StepOut(t, d, y);
    var e := ComposeStep(t, d, y);
    assert |e.Out()| == |e.done| + 1 + |e.marks|;
    assert |d.Out()| >= 1;
    assert e.Out()[|e.done|] == e.head;
  }

  lemma LastMakes(t: Tables, x: nat, y: nat, p: (nat, nat))
    requires Valid(t) && p in t.compose && ComposePair(t, x, y) == t.compose[p] && t.compose[p] != 0 && Settled(t, y)
    ensures p == (x, y) && !HangulPair(x, y) && Settled(t, p.1)
  {
    hide SyllableParts;
    PairComposes(t, x, y);
    var c := t.compose[p];
    assert ComposesTo(t.decomp, p, c) && Makes(t, x, y, c);
    if !HangulPair(x, y) { assert ComposesTo(t.decomp, (x, y), c); }
  }

  /** A recorded composite whose first element is its own normal form is its own normal form if and
      only if its second element has no decomposition and comes last in canonical order, and the pair
      is no Hangul pair. */
  lemma CompositeIsNormal(t: Tables, p: (nat, nat))
    requires Valid(t) && p in t.compose && Nfc(t, [p.0]) == [p.0]
    ensures Nfc(t, [t.compose[p]]) == [t.compose[p]] <==>
            Settled(t, p.1) && StaysLast(t, p.0, p.1) && !HangulPair(p.0, p.1)
  {
    hide Valid, Nfc, Settled, StaysLast, HangulPair;
    if Nfc(t, [t.compose[p]]) == [t.compose[p]] { StaysOnlyThen(t, p); }
    if Settled(t, p.1) && StaysLast(t, p.0, p.1) && !HangulPair(p.0, p.1) { CompositeStays(t, p); }
  }
}
