/** Decomposition and composition (`decompose`, `compose_pair`, `compose_segment` of
    runtime/pasrt_unicode.c) and the theorem the rest stands on: composing an ordered
    decomposition loses nothing that decomposing and ordering again would not give back. */
module Normalization {
  import opened Utf8
  import opened UnicodeTables
  import opened CanonicalOrder

  // ------------------------------------------------------------ decomposition

  function SyllableParts(cp: nat): seq<nat>
    requires IsSyllable(cp)
  {
    var si := cp - S_BASE;
    var lv := [L_BASE + si / N_COUNT, V_BASE + si % N_COUNT / T_COUNT];
    if si % T_COUNT == 0 then lv else lv + [T_BASE + si % T_COUNT]
  }

  /** `decompose`'s recursion; `depth` only bounds it. */
  function DecomposeWithin(t: Tables, cp: nat, depth: nat): seq<nat>
    requires Valid(t) && Shallow(t.decomp, cp, depth)
    decreases depth
  {
    if IsSyllable(cp) then SyllableParts(cp)
    else if cp !in t.decomp then [cp]
    else
      var to := t.decomp[cp];
      DecomposeWithin(t, to[0], depth - 1) + if |to| == 2 then DecomposeWithin(t, to[1], depth - 1) else []
  }

  /** `cp` fully decomposed. */
  function Full(t: Tables, cp: nat): seq<nat>
    requires Valid(t)
  {
    DecomposeWithin(t, cp, MAX_DEPTH)
  }

  function FullAll(t: Tables, s: seq<nat>): seq<nat>
    requires Valid(t)
  {
    if s == [] then [] else FullAll(t, s[..|s| - 1]) + Full(t, s[|s| - 1])
  }

  /** The arithmetic branch of `decompose`. */
  method SyllableInto(cp: nat, out: array<nat>, at: nat) returns (n: nat)
    requires IsSyllable(cp) && at + |SyllableParts(cp)| <= out.Length
    modifies out
    ensures n == |SyllableParts(cp)|
    ensures out[..at + n] == old(out[..at]) + SyllableParts(cp)
    ensures out[at + n..] == old(out[at + n..])
  {
    var si := cp - S_BASE;
    var ti := si % T_COUNT;
    out[at] := L_BASE + si / N_COUNT;
    out[at + 1] := V_BASE + si % N_COUNT / T_COUNT;
    if ti == 0 { return 2; }
    out[at + 2] := T_BASE + ti;
    n := 3;
  }

  /** `decompose`, writing into `out` from `at` on. */
  method DecomposeInto(t: Tables, cp: nat, out: array<nat>, at: nat, ghost depth: nat) returns (n: nat)
    requires Valid(t) && Shallow(t.decomp, cp, depth)
    requires at + |DecomposeWithin(t, cp, depth)| <= out.Length
    modifies out
    ensures n == |DecomposeWithin(t, cp, depth)|
    ensures out[..at + n] == old(out[..at]) + DecomposeWithin(t, cp, depth)
    ensures out[at + n..] == old(out[at + n..])
    decreases depth
  {
    hide SyllableParts;
    if IsSyllable(cp) {
      n := SyllableInto(cp, out, at);
      return;
    }
    if cp !in t.decomp {
      out[at] := cp;
      return 1;
    }
    var to := t.decomp[cp];
    ghost var was := out[..];
    n := DecomposeInto(t, to[0], out, at, depth - 1);
    if |to| == 2 {
      assert out[at + n..] == was[at + n..];
      var m := DecomposeInto(t, to[1], out, at + n, depth - 1);
      assert out[at + n + m..] == was[at + n..][m..];
      n := n + m;
    }
  }

  lemma {:induction false} DepthIrrelevant(t: Tables, cp: nat, d: nat, e: nat)
    requires Valid(t) && Shallow(t.decomp, cp, d) && Shallow(t.decomp, cp, e)
    ensures DecomposeWithin(t, cp, d) == DecomposeWithin(t, cp, e)
    decreases d
  {
    if cp in t.decomp {
      var to := t.decomp[cp];
      DepthIrrelevant(t, to[0], d - 1, e - 1);
      if |to| == 2 { DepthIrrelevant(t, to[1], d - 1, e - 1); }
    }
  }

  /** One step of the database's mapping, then all of it. */
  lemma FullStep(t: Tables, cp: nat)
    requires Valid(t) && cp in t.decomp
    ensures Full(t, cp) == FullAll(t, t.decomp[cp])
  {
    var to := t.decomp[cp];
    assert Shallow(t.decomp, cp, MAX_DEPTH);
    DepthIrrelevant(t, to[0], MAX_DEPTH - 1, MAX_DEPTH);
    FullAllOne(t, to[0]);
    if |to| == 2 {
      DepthIrrelevant(t, to[1], MAX_DEPTH - 1, MAX_DEPTH);
      FullAllOne(t, to[1]);
      FullAllConcat(t, [to[0]], [to[1]]);
      assert to == [to[0]] + [to[1]];
    } else {
      assert to == [to[0]];
    }
  }

  /** Decomposes to itself. */
  predicate Settled(t: Tables, cp: nat) {
    cp !in t.decomp && !IsSyllable(cp)
  }

  predicate AllSettled(t: Tables, s: seq<nat>) {
    forall i | 0 <= i < |s| :: Settled(t, s[i])
  }

  lemma SyllablePartsSettled(t: Tables, cp: nat)
    requires Valid(t) && IsSyllable(cp)
    ensures AllSettled(t, SyllableParts(cp)) && AllScalars(SyllableParts(cp))
  {
    var s := SyllableParts(cp);
    assert IsLead(s[0]) && IsVowel(s[1]);
    assert |s| == 3 ==> IsTail(s[2]);
  }

  lemma {:induction false} DecomposedIsSettled(t: Tables, cp: nat, depth: nat)
    requires Valid(t) && Shallow(t.decomp, cp, depth)
    ensures DecomposeWithin(t, cp, depth) != [] && AllSettled(t, DecomposeWithin(t, cp, depth))
    ensures IsScalar(cp) ==> AllScalars(DecomposeWithin(t, cp, depth))
    decreases depth
  {
    if IsSyllable(cp) {
      SyllablePartsSettled(t, cp);
    } else if cp in t.decomp {
      var to := t.decomp[cp];
      DecomposedIsSettled(t, to[0], depth - 1);
      if |to| == 2 { DecomposedIsSettled(t, to[1], depth - 1); }
    }
  }

  lemma {:induction false} FullAllSettled(t: Tables, s: seq<nat>)
    requires Valid(t)
    ensures AllSettled(t, FullAll(t, s))
    ensures AllScalars(s) ==> AllScalars(FullAll(t, s))
    ensures s != [] ==> FullAll(t, s) != []
  {
    hide DecomposeWithin;
    if s != [] {
      FullAllSettled(t, s[..|s| - 1]);
      DecomposedIsSettled(t, s[|s| - 1], MAX_DEPTH);
    }
  }

  lemma {:induction false} SettledStays(t: Tables, s: seq<nat>)
    requires Valid(t) && AllSettled(t, s)
    ensures FullAll(t, s) == s
  {
    if s != [] {
      SettledStays(t, s[..|s| - 1]);
      assert s == s[..|s| - 1] + [s[|s| - 1]];
    }
  }

  lemma {:induction false} FullAllConcat(t: Tables, a: seq<nat>, b: seq<nat>)
    requires Valid(t)
    ensures FullAll(t, a + b) == FullAll(t, a) + FullAll(t, b)
    decreases |b|
  {
    hide DecomposeWithin;
    if b == [] {
      assert a + b == a;
    } else {
      assert (a + b)[..|a + b| - 1] == a + b[..|b| - 1];
      FullAllConcat(t, a, b[..|b| - 1]);
    }
  }

  lemma FullAllOne(t: Tables, cp: nat)
    requires Valid(t)
    ensures FullAll(t, [cp]) == Full(t, cp)
  {
    hide DecomposeWithin;
    assert FullAll(t, [cp][..0]) == [];
  }

  // -------------------------------------------------------------- composition

  /** `compose_pair`: the primary composite of a pair, or zero. */
  function ComposePair(t: Tables, a: nat, b: nat): nat {
    if IsLead(a) && IsVowel(b) then S_BASE + ((a - L_BASE) * V_COUNT + (b - V_BASE)) * T_COUNT
    else if IsSyllable(a) && (a - S_BASE) % T_COUNT == 0 && IsTail(b) then a + (b - T_BASE)
    else if (a, b) in t.compose then t.compose[(a, b)]
    else 0
  }

  /** `combines_back`. */
  predicate CombinesBack(t: Tables, cp: nat) {
    IsVowel(cp) || IsTail(cp) || cp in t.back
  }

  /** Some earlier code point could take cp in: it is the second element of a recorded pair, or a
      vowel or a tail. */
  predicate IsSecond(t: Tables, cp: nat) {
    IsVowel(cp) || IsTail(cp) || exists p | p in t.compose :: p.1 == cp
  }

  /** The set of starters that combine backwards is no more and no less than those. */
  lemma CombinesBackIs(t: Tables, cp: nat)
    requires Valid(t) && Class(t, cp) == 0
    ensures CombinesBack(t, cp) <==> IsSecond(t, cp)
  {
  }

  lemma SyllableOfLeadVowel(l: nat, v: nat)
    requires l < L_COUNT && v < V_COUNT
    ensures var si := (l * V_COUNT + v) * T_COUNT;
            si < S_COUNT && si % T_COUNT == 0 && si / N_COUNT == l && si % N_COUNT / T_COUNT == v
  {
    var si := (l * V_COUNT + v) * T_COUNT;
    assert si == l * N_COUNT + v * T_COUNT;
    assert v * T_COUNT < N_COUNT;
  }

  lemma SyllableWithTail(si: nat, tail: nat)
    requires si < S_COUNT && si % T_COUNT == 0 && 0 < tail < T_COUNT
    ensures si + tail < S_COUNT && (si + tail) % T_COUNT == tail
    ensures (si + tail) / N_COUNT == si / N_COUNT
    ensures (si + tail) % N_COUNT / T_COUNT == si % N_COUNT / T_COUNT
  {
    var q := si / T_COUNT;
    assert si == q * T_COUNT;
    assert q < 399;
  }

  /** A composite decomposes to its first element's decomposition followed by its second. */
  lemma ComposedDecomposes(t: Tables, a: nat, b: nat)
    requires Valid(t) && Settled(t, b) && ComposePair(t, a, b) != 0
    ensures Full(t, ComposePair(t, a, b)) == Full(t, a) + [b]
    ensures IsScalar(ComposePair(t, a, b))
  {
    var made := ComposePair(t, a, b);
    if IsLead(a) && IsVowel(b) {
      SyllableOfLeadVowel(a - L_BASE, b - V_BASE);
    } else if IsSyllable(a) && (a - S_BASE) % T_COUNT == 0 && IsTail(b) {
      SyllableWithTail(a - S_BASE, b - T_BASE);
    } else {
      assert ComposesTo(t.decomp, (a, b), made);
      FullStep(t, made);
      assert [a, b] == [a] + [b];
      FullAllConcat(t, [a], [b]);
      FullAllOne(t, a);
      FullAllOne(t, b);
    }
  }

  /** What `compose_segment` has in hand: the code points before the last starter it wrote, that
      starter, the marks after it, and the class of the last code point it did not compose. */
  datatype Composer = Composer(done: seq<nat>, head: nat, marks: seq<nat>, last: nat) {
    function Out(): seq<nat> {
      done + [head] + marks
    }
  }

  /** Above every combining class: nothing composes onto a segment that begins with a mark. */
  const BLOCKED := 256

  function Begin(t: Tables, x: nat): Composer {
    Composer([], x, [], if Class(t, x) == 0 then 0 else BLOCKED)
  }

  function ComposeStep(t: Tables, c: Composer, cp: nat): Composer {
    var cls := Class(t, cp);
    var made := ComposePair(t, c.head, cp);
    if made != 0 && (c.last < cls || c.last == 0) then c.(head := made)
    else if cls == 0 then Composer(c.Out(), cp, [], cls)
    else c.(marks := c.marks + [cp], last := cls)
  }

  function ComposeFold(t: Tables, c: Composer, s: seq<nat>): Composer {
    if s == [] then c else ComposeStep(t, ComposeFold(t, c, s[..|s| - 1]), s[|s| - 1])
  }

  function Compose(t: Tables, s: seq<nat>): seq<nat> {
    if s == [] then [] else ComposeFold(t, Begin(t, s[0]), s[1..]).Out()
  }

  /** `compose_segment`, in place: buf[0..put) is the composition of what buf[0..len) held. */
  method ComposeSegment(t: Tables, buf: array<nat>, len: nat) returns (put: nat)
    requires len <= buf.Length
    modifies buf
    ensures put <= len
    ensures buf[..put] == Compose(t, old(buf[..len]))
    ensures buf[len..] == old(buf[len..])
  {
    hide ComposePair, ComposeFold, ComposeStep;
    ghost var was := buf[..];
    if len < 2 {
      ComposeShort(t, was[..len]);
      return len;
    }
    var start := 0;
    put := 1;
    var head := buf[0];
    var last := Class(t, head);
    if last != 0 { last := BLOCKED; }
    ghost var c := Begin(t, was[0]);
    FoldNone(t, c);
    assert was[1..1] == [];
    for i := 1 to len
      invariant 1 <= put <= i && start < put
      invariant c == ComposeFold(t, Begin(t, was[0]), was[1..i])
      invariant c.head == head && c.last == last && |c.done| == start
      invariant buf[..put] == c.Out()
      invariant buf[i..] == was[i..]
    {
      var cp := buf[i];
      assert cp == buf[i..][0] == was[i];
      FoldNext(t, c, was, i);
      ghost var out := c.Out();
      StepOut(t, c, cp);
      var cls := Class(t, cp);
      var made := ComposePair(t, head, cp);
      c := ComposeStep(t, c, cp);
      assert buf[i + 1..] == was[i..][1..];
      if made != 0 && (last < cls || last == 0) {
        buf[start] := made;
        head := made;
        assert buf[..put] == out[start := made];
      } else {
        if cls == 0 {
          start := put;
          head := cp;
        }
        last := cls;
        buf[put] := cp;
        put := put + 1;
        assert buf[..put] == out + [cp];
      }
    }
    assert was[..len][1..] == was[1..len];
    assert buf[len..] == was[len..];
  }

  lemma FoldNone(t: Tables, c: Composer)
    ensures ComposeFold(t, c, []) == c
  {
  }

  /** One step writes over the head or appends, and keeps track of where the head is. */
  lemma StepOut(t: Tables, c: Composer, cp: nat)
    ensures var cls, made, d := Class(t, cp), ComposePair(t, c.head, cp), ComposeStep(t, c, cp);
            if made != 0 && (c.last < cls || c.last == 0) then
              d.Out() == c.Out()[|c.done| := made] && d.head == made && d.last == c.last && d.done == c.done
            else
              d.Out() == c.Out() + [cp] && d.last == cls
              && d.head == (if cls == 0 then cp else c.head)
              && |d.done| == if cls == 0 then |c.Out()| else |c.done|
  {
    hide ComposePair;
  }

  lemma ComposeShort(t: Tables, s: seq<nat>)
    requires |s| < 2
    ensures Compose(t, s) == s
  {
  }

  lemma FoldNext(t: Tables, c: Composer, s: seq<nat>, i: nat)
    requires 1 <= i < |s|
    requires c == ComposeFold(t, Begin(t, s[0]), s[1..i])
    ensures ComposeFold(t, Begin(t, s[0]), s[1..i + 1]) == ComposeStep(t, c, s[i])
  {
    hide ComposeStep;
    assert s[1..i + 1][..i - 1] == s[1..i];
  }

  // ------------------------------------------ composition loses nothing

  /** The marks the composer holds, against the text it has been given. */
  predicate MarksFit(t: Tables, c: Composer, given: seq<nat>)
    requires given != []
  {
    && (forall i | 0 <= i < |c.marks| :: Settled(t, c.marks[i]) && 0 != Class(t, c.marks[i]) <= c.last)
    && (c.marks == [] ==> c.last == 0 || c.last == BLOCKED)
    && (c.marks != [] ==> c.last <= Class(t, given[|given| - 1]))
  }

  predicate Recoverable(t: Tables, c: Composer, given: seq<nat>)
    requires Valid(t)
  {
    given != [] && MarksFit(t, c, given) && Order(t, FullAll(t, c.Out())) == given
  }

  lemma FullAllOut(t: Tables, c: Composer)
    requires Valid(t) && AllSettled(t, c.marks)
    ensures FullAll(t, c.Out()) == FullAll(t, c.done) + Full(t, c.head) + c.marks
  {
    hide DecomposeWithin;
    FullAllConcat(t, c.done + [c.head], c.marks);
    FullAllConcat(t, c.done, [c.head]);
    FullAllOne(t, c.head);
    SettledStays(t, c.marks);
  }

  /** Appending the code point unchanged: the decomposition grows by it at the end. */
  lemma AppendedOrders(t: Tables, out: seq<nat>, given: seq<nat>, cp: nat)
    requires Valid(t) && Settled(t, cp) && Order(t, FullAll(t, out)) == given
    requires Ordered(t, given + [cp])
    ensures Order(t, FullAll(t, out) + [cp]) == given + [cp]
  {
    OrderPrefixFirst(t, FullAll(t, out), [cp]);
    OrderedIsFixed(t, given + [cp]);
  }

  lemma StepKeepsMarks(t: Tables, c: Composer, given: seq<nat>, cp: nat)
    requires given != [] && MarksFit(t, c, given)
    requires Settled(t, cp) && Ordered(t, given + [cp])
    ensures MarksFit(t, ComposeStep(t, c, cp), given + [cp])
  {
    hide ComposePair;
    assert (given + [cp])[|given| - 1] == given[|given| - 1];
  }

  /** Composing `cp` past marks of lower class is carrying it back to its starter. */
  lemma ComposedOrders(t: Tables, c: Composer, given: seq<nat>, cp: nat)
    requires Valid(t) && given != [] && MarksFit(t, c, given) && Settled(t, cp)
    requires ComposePair(t, c.head, cp) != 0 && (c.last < Class(t, cp) || c.last == 0)
    ensures Order(t, FullAll(t, c.(head := ComposePair(t, c.head, cp)).Out())) == Order(t, FullAll(t, c.Out()) + [cp])
  {
    hide DecomposeWithin, ComposePair, InsertAll;
    var d := c.(head := ComposePair(t, c.head, cp));
    FullAllOut(t, c);
    FullAllOut(t, d);
    ComposedDecomposes(t, c.head, cp);
    var before := FullAll(t, c.done) + Full(t, c.head);
    assert FullAll(t, d.Out()) == before + [cp] + c.marks + [];
    assert FullAll(t, c.Out()) + [cp] == before + c.marks + [cp] + [];
    if c.marks == [] {
      assert before + [cp] + c.marks + [] == before + c.marks + [cp] + [];
    } else {
      OrderCarries(t, before, cp, c.marks, []);
    }
  }

  lemma ComposeStepRecoverable(t: Tables, c: Composer, given: seq<nat>, cp: nat)
    requires Valid(t) && Recoverable(t, c, given)
    requires Settled(t, cp) && Ordered(t, given + [cp])
    ensures Recoverable(t, ComposeStep(t, c, cp), given + [cp])
  {
    hide ComposePair, InsertAll, MarksFit, FullAll;
    StepKeepsMarks(t, c, given, cp);
    AppendedOrders(t, c.Out(), given, cp);
    if ComposePair(t, c.head, cp) != 0 && (c.last < Class(t, cp) || c.last == 0) {
      ComposedOrders(t, c, given, cp);
    } else {
      assert ComposeStep(t, c, cp).Out() == c.Out() + [cp];
      FullAllConcat(t, c.Out(), [cp]);
      SettledStays(t, [cp]);
    }
  }

  lemma {:induction false} ComposeFoldRecoverable(t: Tables, x: nat, s: seq<nat>)
    requires Valid(t) && AllSettled(t, [x] + s) && Ordered(t, [x] + s)
    ensures Recoverable(t, ComposeFold(t, Begin(t, x), s), [x] + s)
  {
    hide DecomposeWithin, ComposePair, ComposeStep;
    if s == [] {
      assert [x] + s == [x];
      SettledStays(t, [x]);
      OrderedIsFixed(t, [x]);
      assert Begin(t, x).Out() == [x];
    } else {
      var front, cp := s[..|s| - 1], s[|s| - 1];
      assert [x] + s == ([x] + front) + [cp];
      assert Ordered(t, [x] + front) && AllSettled(t, [x] + front) by { PrefixFit(t, [x] + front, cp); }
      ComposeFoldRecoverable(t, x, front);
      assert Settled(t, ([x] + s)[|s|]);
      ComposeStepRecoverable(t, ComposeFold(t, Begin(t, x), front), [x] + front, cp);
    }
  }

  lemma PrefixFit(t: Tables, s: seq<nat>, cp: nat)
    requires Ordered(t, s + [cp]) && AllSettled(t, s + [cp])
    ensures Ordered(t, s) && AllSettled(t, s)
  {
    assert forall i | 0 <= i < |s| :: (s + [cp])[i] == s[i];
  }

  /** Decomposing and ordering what composition made gives back what it was made from. */
  lemma ComposeLosesNothing(t: Tables, s: seq<nat>)
    requires Valid(t) && AllSettled(t, s) && Ordered(t, s)
    ensures Order(t, FullAll(t, Compose(t, s))) == s
  {
    if s != [] {
      assert s == [s[0]] + s[1..];
      ComposeFoldRecoverable(t, s[0], s[1..]);
    }
  }

  // ------------------------------------------------ Normalization Form C

  /** The ordered decomposition: Normalization Form D. */
  function Nfd(t: Tables, s: seq<nat>): seq<nat>
    requires Valid(t)
  {
    Order(t, FullAll(t, s))
  }

  /** Normalization Form C of a whole text, with no segments in it. */
  function Nfc(t: Tables, s: seq<nat>): seq<nat>
    requires Valid(t)
  {
    Compose(t, Nfd(t, s))
  }

  lemma {:induction false} InsertSettled(t: Tables, s: seq<nat>, x: nat)
    requires AllSettled(t, s) && Settled(t, x)
    ensures AllSettled(t, Insert(t, s, x))
    ensures AllScalars(s + [x]) ==> AllScalars(Insert(t, s, x))
  {
    if s != [] && Class(t, x) != 0 && Class(t, s[|s| - 1]) > Class(t, x) {
      InsertSettled(t, s[..|s| - 1], x);
      assert AllScalars(s + [x]) ==> AllScalars(s[..|s| - 1] + [x]) && IsScalar(s[|s| - 1]) by {
        if AllScalars(s + [x]) {
          assert forall i | 0 <= i < |s| :: (s + [x])[i] == s[i];
          assert (s + [x])[|s|] == x;
        }
      }
    }
  }

  lemma {:induction false} OrderSettled(t: Tables, s: seq<nat>)
    requires AllSettled(t, s)
    ensures AllSettled(t, Order(t, s))
    ensures AllScalars(s) ==> AllScalars(Order(t, s))
  {
    hide Insert;
    if s != [] {
      OrderSettled(t, s[..|s| - 1]);
      InsertSettled(t, Order(t, s[..|s| - 1]), s[|s| - 1]);
    }
  }

  /** Normalising does not change what a text decomposes to. */
  lemma NfcKeepsNfd(t: Tables, s: seq<nat>)
    requires Valid(t)
    ensures Nfd(t, Nfc(t, s)) == Nfd(t, s)
  {
    hide InsertAll, Compose;
    FullAllSettled(t, s);
    OrderSettled(t, FullAll(t, s));
    OrderIsOrdered(t, FullAll(t, s));
    ComposeLosesNothing(t, Nfd(t, s));
  }

  /** Normalising twice changes nothing. */
  lemma NfcIdempotent(t: Tables, s: seq<nat>)
    requires Valid(t)
    ensures Nfc(t, Nfc(t, s)) == Nfc(t, s)
  {
    NfcKeepsNfd(t, s);
  }

  /** Two texts normalise alike exactly when their ordered decompositions agree. */
  lemma NfcAgreesWithNfd(t: Tables, s: seq<nat>, u: seq<nat>)
    requires Valid(t)
    ensures Nfc(t, s) == Nfc(t, u) <==> Nfd(t, s) == Nfd(t, u)
  {
    NfcKeepsNfd(t, s);
    NfcKeepsNfd(t, u);
  }

  // ------------------------------------------------------ cutting a text up

  /** Where `pas_text_nfc` may begin a segment. */
  predicate IsCut(t: Tables, cp: nat) {
    Class(t, cp) == 0 && !CombinesBack(t, cp)
  }

  lemma CutNeverSecond(t: Tables, a: nat, b: nat)
    requires Valid(t) && IsCut(t, b)
    ensures ComposePair(t, a, b) == 0
  {
  }

  lemma {:induction false} FoldKeepsDone(t: Tables, c: Composer, p: seq<nat>, s: seq<nat>)
    ensures ComposeFold(t, c.(done := p + c.done), s) == var d := ComposeFold(t, c, s); d.(done := p + d.done)
  {
    hide ComposePair;
    if s != [] {
      FoldKeepsDone(t, c, p, s[..|s| - 1]);
      var d := ComposeFold(t, c, s[..|s| - 1]);
      assert d.(done := p + d.done).Out() == p + d.Out();
    }
  }

  lemma {:induction false} FoldConcat(t: Tables, c: Composer, s: seq<nat>, u: seq<nat>)
    ensures ComposeFold(t, c, s + u) == ComposeFold(t, ComposeFold(t, c, s), u)
    decreases |u|
  {
    hide ComposeStep;
    if u == [] {
      assert s + u == s;
    } else {
      assert (s + u)[..|s + u| - 1] == s + u[..|u| - 1];
      FoldConcat(t, c, s, u[..|u| - 1]);
    }
  }

  /** At such a starter the composer forgets everything but what it has written. */
  lemma CutBegins(t: Tables, c: Composer, y: nat)
    requires Valid(t) && IsCut(t, y)
    ensures ComposeStep(t, c, y) == Begin(t, y).(done := c.Out() + Begin(t, y).done)
  {
    CutNeverSecond(t, c.head, y);
    assert c.Out() + [] == c.Out();
  }

  lemma FoldOne(t: Tables, c: Composer, y: nat)
    ensures ComposeFold(t, c, [y]) == ComposeStep(t, c, y)
  {
    assert [y][..0] == [];
  }

  /** No composition reaches back over a starter that cannot be a second element. */
  lemma ComposeCut(t: Tables, x: seq<nat>, y: seq<nat>)
    requires Valid(t) && y != [] && IsCut(t, y[0])
    ensures Compose(t, x + y) == Compose(t, x) + Compose(t, y)
  {
    hide ComposeStep, ComposeFold, Begin, Valid, IsCut;
    if x == [] {
      assert x + y == y;
    } else {
      var b := Begin(t, x[0]);
      var c := ComposeFold(t, b, x[1..]);
      var e := Begin(t, y[0]);
      assert (x + y)[1..] == x[1..] + ([y[0]] + y[1..]);
      FoldConcat(t, b, x[1..], [y[0]] + y[1..]);
      FoldConcat(t, c, [y[0]], y[1..]);
      FoldOne(t, c, y[0]);
      CutBegins(t, c, y[0]);
      FoldKeepsDone(t, e, c.Out(), y[1..]);
      var d := ComposeFold(t, e, y[1..]);
      assert d.(done := c.Out() + d.done).Out() == c.Out() + d.Out();
    }
  }

  /** Ordering and composing a decomposition, which is what each segment is put through. */
  function Recompose(t: Tables, d: seq<nat>): seq<nat> {
    Compose(t, Order(t, d))
  }

  /** A decomposition cut at such a starter may be recomposed in two pieces. */
  lemma RecomposeCut(t: Tables, x: seq<nat>, y: seq<nat>)
    requires Valid(t) && y != [] && IsCut(t, y[0])
    ensures Recompose(t, x + y) == Recompose(t, x) + Recompose(t, y)
  {
    hide Compose, InsertAll;
    OrderCut(t, x, y);
    ComposeCut(t, Order(t, x), Order(t, y));
  }

  /** What composition writes is scalar values. */
  lemma {:induction false} ComposeFoldScalars(t: Tables, c: Composer, s: seq<nat>)
    requires Valid(t) && AllSettled(t, s) && AllScalars(s) && AllScalars(c.Out())
    ensures AllScalars(ComposeFold(t, c, s).Out())
  {
    hide ComposePair;
    if s != [] {
      var front, cp := s[..|s| - 1], s[|s| - 1];
      ComposeFoldScalars(t, c, front);
      var d := ComposeFold(t, c, front);
      var e := ComposeStep(t, d, cp);
      if e.head == ComposePair(t, d.head, cp) != 0 && e.marks == d.marks && e.done == d.done {
        ComposedDecomposes(t, d.head, cp);
        assert forall i | 0 <= i < |e.Out()| :: e.Out()[i] == if i == |d.done| then e.head else d.Out()[i];
      } else {
        assert e.Out() == d.Out() + [cp];
      }
    }
  }

  lemma RecomposeScalars(t: Tables, d: seq<nat>)
    requires Valid(t) && AllSettled(t, d) && AllScalars(d)
    ensures AllScalars(Recompose(t, d))
  {
    hide InsertAll, ComposeFold;
    OrderSettled(t, d);
    var o := Order(t, d);
    if o != [] {
      ComposeFoldScalars(t, Begin(t, o[0]), o[1..]);
    }
  }

  /** Reading the normal form is reading the recomposition of the whole decomposition. */
  lemma NfcIsRecompose(t: Tables, s: seq<nat>)
    requires Valid(t)
    ensures Nfc(t, s) == Recompose(t, FullAll(t, s))
    ensures AllScalars(s) ==> AllScalars(Nfc(t, s))
  {
    hide InsertAll, Compose, DecomposeWithin;
    FullAllSettled(t, s);
    if AllScalars(s) {
      RecomposeScalars(t, FullAll(t, s));
    }
  }
}
