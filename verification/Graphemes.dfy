/** Extended grapheme clusters (`scan_step`, `breaks_before`, `pas_text_next`, `pas_text_count` of
    runtime/pasrt_unicode.c) against the boundary rules of section 3.1.1 of UAX #29 read with
    the whole text in view. */
module Graphemes {
  import opened Utf8

  datatype Gcb =
    | Other | CR | LF | Control | Extend | ZWJ | RegionalIndicator | Prepend | SpacingMark
    | HangulL | HangulV | HangulT | HangulLV | HangulLVT

  datatype InCB = NoInCB | Consonant | ConjunctExtend | Linker

  /** The three break properties, as tables whose default is Other, None and false. */
  datatype Breaks = Breaks(gcb: map<nat, Gcb>, incb: map<nat, InCB>, pictographic: set<nat>)

  function GcbOf(b: Breaks, cp: nat): Gcb { if cp in b.gcb then b.gcb[cp] else Other }

  function InCBOf(b: Breaks, cp: nat): InCB { if cp in b.incb then b.incb[cp] else NoInCB }

  predicate IsPict(b: Breaks, cp: nat) { cp in b.pictographic }

  predicate IsControl(g: Gcb) { g == Control || g == CR || g == LF }

  /** What the database keeps true of the three properties together. */
  predicate Consistent(b: Breaks) {
    && (forall cp | cp in b.pictographic :: !IsControl(GcbOf(b, cp)) && GcbOf(b, cp) != ZWJ)
    && (forall cp | cp in b.incb && b.incb[cp] == Consonant :: !IsControl(GcbOf(b, cp)))
    && (forall cp | cp in b.incb && (b.incb[cp] == ConjunctExtend || b.incb[cp] == Linker) ::
          GcbOf(b, cp) == Extend || GcbOf(b, cp) == ZWJ)
  }

  // --------------------------------------------------------- the standard

  predicate JoinsConjunct(b: Breaks, cp: nat) {
    InCBOf(b, cp) == ConjunctExtend || InCBOf(b, cp) == Linker
  }

  /** A consonant at j, then only extenders and linkers up to i, with a linker among them if asked. */
  predicate ConjunctFrom(b: Breaks, s: seq<nat>, j: nat, i: nat)
    requires i <= |s|
  {
    j < i && InCBOf(b, s[j]) == Consonant && forall k | j < k < i :: JoinsConjunct(b, s[k])
  }

  predicate LinkerIn(b: Breaks, s: seq<nat>, j: nat, i: nat)
    requires i <= |s|
  {
    exists k | j < k < i :: InCBOf(b, s[k]) == Linker
  }

  /** What GB9c wants before position i. */
  predicate LinkedConjunct(b: Breaks, s: seq<nat>, i: nat)
    requires i <= |s|
  {
    exists j | 0 <= j < i :: ConjunctFrom(b, s, j, i) && LinkerIn(b, s, j, i)
  }

  /** A pictograph at j, then only Extend up to i. */
  predicate PictFrom(b: Breaks, s: seq<nat>, j: nat, i: nat)
    requires i <= |s|
  {
    j < i && IsPict(b, s[j]) && forall k | j < k < i :: GcbOf(b, s[k]) == Extend
  }

  predicate Pictured(b: Breaks, s: seq<nat>, i: nat)
    requires i <= |s|
  {
    exists j | 0 <= j < i :: PictFrom(b, s, j, i)
  }

  /** What GB11 wants before position i: a pictograph, any Extend, and a ZWJ. */
  predicate JoinedPicture(b: Breaks, s: seq<nat>, i: nat)
    requires i <= |s|
  {
    i > 0 && GcbOf(b, s[i - 1]) == ZWJ && Pictured(b, s, i - 1)
  }

  /** How many Regional_Indicators stand directly before position i. */
  function RegionalRun(b: Breaks, s: seq<nat>, i: nat): nat
    requires i <= |s|
  {
    if i == 0 || GcbOf(b, s[i - 1]) != RegionalIndicator then 0 else 1 + RegionalRun(b, s, i - 1)
  }

  /** GB3 to GB999 between s[i-1] and s[i], in the standard's order. */
  predicate RulesBreak(b: Breaks, s: seq<nat>, i: nat)
    requires 0 < i < |s|
  {
    var p, g := GcbOf(b, s[i - 1]), GcbOf(b, s[i]);
    if p == CR && g == LF then false                                                    // GB3
    else if IsControl(p) || IsControl(g) then true                                      // GB4, GB5
    else if p == HangulL && (g == HangulL || g == HangulV || g == HangulLV || g == HangulLVT) then false // GB6
    else if (p == HangulLV || p == HangulV) && (g == HangulV || g == HangulT) then false // GB7
    else if (p == HangulLVT || p == HangulT) && g == HangulT then false                 // GB8
    else if g == Extend || g == ZWJ then false                                          // GB9
    else if g == SpacingMark then false                                                 // GB9a
    else if p == Prepend then false                                                     // GB9b
    else if LinkedConjunct(b, s, i) && InCBOf(b, s[i]) == Consonant then false          // GB9c
    else if JoinedPicture(b, s, i) && IsPict(b, s[i]) then false                        // GB11
    else if p == RegionalIndicator && g == RegionalIndicator && RegionalRun(b, s, i) % 2 == 1 then false // GB12, GB13
    else true                                                                           // GB999
  }

  /** GB1 and GB2 at the two ends, the rules between. */
  predicate IsBoundary(b: Breaks, s: seq<nat>, i: nat)
    requires i <= |s|
  {
    i == 0 || i == |s| || RulesBreak(b, s, i)
  }

  // ------------------------------------------------------------- the scan

  /** `struct scan`. */
  datatype Scan = Scan(ri: nat, pict: nat, incb: nat, gcb: Gcb)

  const FRESH := Scan(0, 0, 0, Other)

  function ScanStep(b: Breaks, st: Scan, cp: nat): Scan {
    var g, ic := GcbOf(b, cp), InCBOf(b, cp);
    Scan(
      if g == RegionalIndicator then st.ri + 1 else 0,
      if IsPict(b, cp) then 1
      else if g == Extend && st.pict == 1 then 1
      else if g == ZWJ && st.pict == 1 then 2
      else 0,
      if ic == Consonant then 1
      else if st.incb != 0 && ic == Linker then 2
      else if st.incb != 0 && ic == ConjunctExtend then st.incb
      else 0,
      g)
  }

  predicate BreaksBefore(b: Breaks, st: Scan, cp: nat) {
    var g := GcbOf(b, cp);
    if st.gcb == CR && g == LF then false
    else if st.gcb == Control || st.gcb == CR || st.gcb == LF then true
    else if g == Control || g == CR || g == LF then true
    else if st.gcb == HangulL && (g == HangulL || g == HangulV || g == HangulLV || g == HangulLVT) then false
    else if (st.gcb == HangulLV || st.gcb == HangulV) && (g == HangulV || g == HangulT) then false
    else if (st.gcb == HangulLVT || st.gcb == HangulT) && g == HangulT then false
    else if g == Extend || g == ZWJ then false
    else if g == SpacingMark then false
    else if st.gcb == Prepend then false
    else if st.incb == 2 && InCBOf(b, cp) == Consonant then false
    else if st.pict == 2 && IsPict(b, cp) then false
    else if st.gcb == RegionalIndicator && g == RegionalIndicator && st.ri % 2 == 1 then false
    else true
  }

  /** The scan over s[at..i), begun afresh at `at`. */
  function ScanFrom(b: Breaks, s: seq<nat>, at: nat, i: nat): Scan
    requires at <= i <= |s|
  {
    if at == i then FRESH else ScanStep(b, ScanFrom(b, s, at, i - 1), s[i - 1])
  }

  // ------------------------------- the scan holds what the rules look back for

  // The look-behinds of GB9c, GB11, GB12 and GB13, looking no further back than `at`.

  predicate ConjunctSince(b: Breaks, s: seq<nat>, at: nat, i: nat)
    requires i <= |s|
  {
    exists j | at <= j < i :: ConjunctFrom(b, s, j, i)
  }

  predicate LinkedSince(b: Breaks, s: seq<nat>, at: nat, i: nat)
    requires i <= |s|
  {
    exists j | at <= j < i :: ConjunctFrom(b, s, j, i) && LinkerIn(b, s, j, i)
  }

  predicate PicturedSince(b: Breaks, s: seq<nat>, at: nat, i: nat)
    requires i <= |s|
  {
    exists j | at <= j < i :: PictFrom(b, s, j, i)
  }

  function RunSince(b: Breaks, s: seq<nat>, at: nat, i: nat): nat
    requires i <= |s|
  {
    if i <= at || GcbOf(b, s[i - 1]) != RegionalIndicator then 0 else 1 + RunSince(b, s, at, i - 1)
  }

  lemma ConjunctStep(b: Breaks, s: seq<nat>, at: nat, i: nat)
    requires at <= i < |s|
    ensures ConjunctSince(b, s, at, i + 1) <==>
              InCBOf(b, s[i]) == Consonant || (ConjunctSince(b, s, at, i) && JoinsConjunct(b, s[i]))
  {
    if InCBOf(b, s[i]) == Consonant {
      assert ConjunctFrom(b, s, i, i + 1);
    }
    if ConjunctSince(b, s, at, i) && JoinsConjunct(b, s[i]) {
      var j :| at <= j < i && ConjunctFrom(b, s, j, i);
      assert ConjunctFrom(b, s, j, i + 1);
    }
    if ConjunctSince(b, s, at, i + 1) {
      var j :| at <= j < i + 1 && ConjunctFrom(b, s, j, i + 1);
      if j < i { assert ConjunctFrom(b, s, j, i); }
    }
  }

  lemma LinkedStep(b: Breaks, s: seq<nat>, at: nat, i: nat)
    requires at <= i < |s|
    ensures LinkedSince(b, s, at, i + 1) <==>
              JoinsConjunct(b, s[i])
              && (LinkedSince(b, s, at, i) || (ConjunctSince(b, s, at, i) && InCBOf(b, s[i]) == Linker))
  {
    if LinkedSince(b, s, at, i + 1) {
      var j :| at <= j < i + 1 && ConjunctFrom(b, s, j, i + 1) && LinkerIn(b, s, j, i + 1);
      var k :| j < k < i + 1 && InCBOf(b, s[k]) == Linker;
      assert j < i && ConjunctFrom(b, s, j, i);
      if k < i { assert LinkerIn(b, s, j, i); }
    }
    if JoinsConjunct(b, s[i]) && LinkedSince(b, s, at, i) {
      var j :| at <= j < i && ConjunctFrom(b, s, j, i) && LinkerIn(b, s, j, i);
      assert ConjunctFrom(b, s, j, i + 1) && LinkerIn(b, s, j, i + 1);
    }
    if ConjunctSince(b, s, at, i) && InCBOf(b, s[i]) == Linker {
      var j :| at <= j < i && ConjunctFrom(b, s, j, i);
      assert ConjunctFrom(b, s, j, i + 1) && LinkerIn(b, s, j, i + 1);
    }
  }

  lemma PicturedStep(b: Breaks, s: seq<nat>, at: nat, i: nat)
    requires at <= i < |s|
    ensures PicturedSince(b, s, at, i + 1) <==>
              IsPict(b, s[i]) || (PicturedSince(b, s, at, i) && GcbOf(b, s[i]) == Extend)
  {
    if IsPict(b, s[i]) {
      assert PictFrom(b, s, i, i + 1);
    }
    if PicturedSince(b, s, at, i) && GcbOf(b, s[i]) == Extend {
      var j :| at <= j < i && PictFrom(b, s, j, i);
      assert PictFrom(b, s, j, i + 1);
    }
    if PicturedSince(b, s, at, i + 1) {
      var j :| at <= j < i + 1 && PictFrom(b, s, j, i + 1);
      if j < i { assert PictFrom(b, s, j, i); }
    }
  }

  /** The four fields are exactly those look-behinds. */
  lemma {:induction false} ScanMeans(b: Breaks, s: seq<nat>, at: nat, i: nat)
    requires Consistent(b) && at <= i <= |s|
    ensures var st := ScanFrom(b, s, at, i);
            && st.ri == RunSince(b, s, at, i)
            && st.incb == (if LinkedSince(b, s, at, i) then 2 else if ConjunctSince(b, s, at, i) then 1 else 0)
            && (st.pict == 1 <==> PicturedSince(b, s, at, i))
            && (st.pict == 2 <==> at < i && GcbOf(b, s[i - 1]) == ZWJ && PicturedSince(b, s, at, i - 1))
            && (at < i ==> st.gcb == GcbOf(b, s[i - 1]))
  {
    hide ConjunctSince, LinkedSince, PicturedSince;
    if at == i {
      NothingSince(b, s, at);
    } else {
      ScanMeans(b, s, at, i - 1);
      ConjunctStep(b, s, at, i - 1);
      LinkedStep(b, s, at, i - 1);
      PicturedStep(b, s, at, i - 1);
    }
  }

  lemma NothingSince(b: Breaks, s: seq<nat>, at: nat)
    requires at <= |s|
    ensures !ConjunctSince(b, s, at, at) && !LinkedSince(b, s, at, at) && !PicturedSince(b, s, at, at)
  {
  }

  // ---------------------------------- forgetting it at a boundary loses nothing

  /** No boundary stands before an Extend or a ZWJ unless a control stands before it. */
  lemma NoBoundaryBeforeExtender(b: Breaks, s: seq<nat>, at: nat)
    requires 0 < at < |s| && (GcbOf(b, s[at]) == Extend || GcbOf(b, s[at]) == ZWJ)
    requires !IsControl(GcbOf(b, s[at - 1]))
    ensures !IsBoundary(b, s, at)
  {
    hide LinkedConjunct, JoinedPicture, RegionalRun;
  }

  lemma ConjunctForgotten(b: Breaks, s: seq<nat>, at: nat, i: nat)
    requires Consistent(b) && at < i < |s| && IsBoundary(b, s, at)
    ensures LinkedConjunct(b, s, i) <==> LinkedSince(b, s, at, i)
  {
    hide IsBoundary, LinkerIn;
    if LinkedConjunct(b, s, i) {
      var j :| 0 <= j < i && ConjunctFrom(b, s, j, i) && LinkerIn(b, s, j, i);
      if j < at {
        assert JoinsConjunct(b, s[at]);
        assert InCBOf(b, s[at - 1]) == Consonant || JoinsConjunct(b, s[at - 1]);
        NoBoundaryBeforeExtender(b, s, at);
      }
    }
  }

  lemma PictureForgotten(b: Breaks, s: seq<nat>, at: nat, i: nat)
    requires Consistent(b) && at < i < |s| && IsBoundary(b, s, at)
    requires GcbOf(b, s[i - 1]) == ZWJ
    ensures Pictured(b, s, i - 1) <==> PicturedSince(b, s, at, i - 1)
  {
    hide IsBoundary;
    if Pictured(b, s, i - 1) {
      var j :| 0 <= j < i - 1 && PictFrom(b, s, j, i - 1);
      if j < at {
        assert GcbOf(b, s[at]) == Extend || GcbOf(b, s[at]) == ZWJ;
        assert IsPict(b, s[at - 1]) || GcbOf(b, s[at - 1]) == Extend;
        NoBoundaryBeforeExtender(b, s, at);
      }
    }
  }

  lemma {:induction false} RunSplits(b: Breaks, s: seq<nat>, at: nat, i: nat)
    requires at <= i <= |s|
    ensures RegionalRun(b, s, i) == RunSince(b, s, at, i) + if RunSince(b, s, at, i) == i - at then RegionalRun(b, s, at) else 0
    ensures RunSince(b, s, at, i) <= i - at
  {
    if at < i {
      RunSplits(b, s, at, i - 1);
    }
  }

  lemma BoundaryBetweenIndicators(b: Breaks, s: seq<nat>, at: nat)
    requires at < |s| && IsBoundary(b, s, at) && GcbOf(b, s[at]) == RegionalIndicator
    ensures RegionalRun(b, s, at) % 2 == 0
  {
    hide LinkedConjunct, JoinedPicture;
  }

  lemma {:induction false} WholeRun(b: Breaks, s: seq<nat>, at: nat, i: nat)
    requires at < i <= |s| && RunSince(b, s, at, i) == i - at
    ensures GcbOf(b, s[at]) == RegionalIndicator
  {
    RunSplits(b, s, at, i - 1);
    if at < i - 1 {
      WholeRun(b, s, at, i - 1);
    }
  }

  lemma RunForgotten(b: Breaks, s: seq<nat>, at: nat, i: nat)
    requires at < i <= |s| && IsBoundary(b, s, at)
    ensures RegionalRun(b, s, i) % 2 == RunSince(b, s, at, i) % 2
  {
    hide IsBoundary, RegionalRun, RunSince;
    RunSplits(b, s, at, i);
    if RunSince(b, s, at, i) == i - at {
      WholeRun(b, s, at, i);
      BoundaryBetweenIndicators(b, s, at);
    }
  }

  /** A scan begun at any boundary decides every later boundary as the standard does from the
      beginning of the text. */
  lemma ScanDecides(b: Breaks, s: seq<nat>, at: nat, i: nat)
    requires Consistent(b) && at < i < |s| && IsBoundary(b, s, at)
    ensures BreaksBefore(b, ScanFrom(b, s, at, i), s[i]) <==> IsBoundary(b, s, i)
  {
    hide LinkedConjunct, LinkedSince, ConjunctSince, PicturedSince, Pictured, RegionalRun, RunSince, ScanFrom;
    ScanMeans(b, s, at, i);
    ConjunctForgotten(b, s, at, i);
    RunForgotten(b, s, at, i);
    if GcbOf(b, s[i - 1]) == ZWJ {
      PictureForgotten(b, s, at, i);
    }
  }

  // --------------------------------------------------------- on the bytes

  /** The least boundary beyond `at`. */
  function NextBoundary(b: Breaks, s: seq<nat>, at: nat, i: nat): (n: nat)
    requires at < i <= |s|
    ensures i <= n <= |s| && IsBoundary(b, s, n)
    ensures forall k | i <= k < n :: !IsBoundary(b, s, k)
    decreases |s| - i
  {
    if IsBoundary(b, s, i) then i else NextBoundary(b, s, at, i + 1)
  }

  /** The byte offset of the i-th scalar of a text. */
  function Offset(s: seq<nat>, i: nat): nat
    requires AllScalars(s) && i <= |s|
  {
    |EncodeAll(s[..i])|
  }

  lemma OffsetStep(s: seq<nat>, i: nat)
    requires AllScalars(s) && i < |s|
    ensures Offset(s, i) < Offset(s, i + 1) == Offset(s, i) + EncodedLength(s[i]) <= |EncodeAll(s)|
    ensures Decode(EncodeAll(s)[Offset(s, i)..]) == Scalar(EncodedLength(s[i]), s[i])
  {
    hide Encode, Decode, IsScalar;
    assert s[..i + 1] == s[..i] + [s[i]];
    assert s == s[..i] + s[i..];
    assert s == s[..i + 1] + s[i + 1..];
    EncodeAllConcat(s[..i], s[i..]);
    EncodeAllConcat(s[..i], [s[i]]);
    EncodeAllConcat(s[..i + 1], s[i + 1..]);
    assert EncodeAll([s[i]]) == Encode(s[i]) + EncodeAll([s[i]][1..]);
    assert EncodeAll(s[i..]) == Encode(s[i]) + EncodeAll(s[i..][1..]);
    DecodeComplete(s[i], EncodeAll(s[i..][1..]));
    assert EncodeAll(s)[Offset(s, i)..] == EncodeAll(s[i..]);
    assert s[..|s|] == s;
  }

  lemma OffsetEnds(s: seq<nat>)
    requires AllScalars(s)
    ensures Offset(s, 0) == 0 && Offset(s, |s|) == |EncodeAll(s)|
  {
    assert s[..|s|] == s;
  }

  /** The element that begins at byte `at` ends here: after one byte where what follows is ill-formed,
      and otherwise at the first boundary of the text that begins there and goes on to the next
      ill-formed byte, or to the end. */
  ghost function ElementEnd(b: Breaks, u: seq<Byte>, at: nat): nat
    requires at < |u|
  {
    var text := ValidPrefix(u[at..]);
    if text == [] then at + 1 else at + Offset(text, NextBoundary(b, text, 0, 1))
  }

  /** `pas_text_next` on any bytes at all. On a well-formed text, from the offset of a boundary, it
      answers the offset of the next one. */
  method TextNext(b: Breaks, u: seq<Byte>, at: nat, ghost s: seq<nat>, ghost from: nat) returns (r: nat)
    requires Consistent(b)
    requires AllScalars(s) && from <= |s|
    ensures at >= |u| ==> r == |u|
    ensures at < |u| ==> at < r <= |u| && r == ElementEnd(b, u, at)
    ensures at < |u| && Decode(u[at..]) == IllFormed ==> r == at + 1
    ensures u == EncodeAll(s) && from < |s| && at == Offset(s, from) && IsBoundary(b, s, from) ==>
              r == Offset(s, NextBoundary(b, s, from, from + 1))
  {
    hide Encode, EncodeAll, Decode, IsBoundary, BreaksBefore, IsScalar, Offset, ElementEnd, NextBoundary, ScanFrom, ScanStep,
      DecodePrefix, ValidPrefix, GcbOf;
    if u == EncodeAll(s) && from < |s| && at == Offset(s, from) && IsBoundary(b, s, from) { EndOfElement(b, s, from); }
    if at >= |u| { return |u|; }
    ghost var text := ValidPrefix(u[at..]);
    TextAt(u, at);
    EndIs(b, u, at);
    var k, cp := U8Dec(u, at);
    if k == 0 { return at + 1; }
    var st := ScanStep(b, FRESH, cp);
    var i := at + k;
    ghost var n := 1;
    DecodeAt(u, at, 0);
    OffsetStep(text, 0);
    OffsetEnds(text);
    ScanFirst(b, text, 0);
    StartIsBoundary(b, text);
    while i < |u|
      invariant at < i <= |u| && 0 < n <= |text| && i == at + Offset(text, n) && st == ScanFrom(b, text, 0, n)
      invariant NextBoundary(b, text, 0, 1) == NextBoundary(b, text, 0, n)
      decreases |u| - i
    {
      k, cp := U8Dec(u, i);
      DecodeAt(u, at, n);
      if k == 0 {
        NextHere(b, text, n);
        return i;
      }
      ScanDecides(b, text, 0, n);
      NextHere(b, text, n);
      if BreaksBefore(b, st, cp) { return i; }
      OffsetStep(text, n);
      NextOnward(b, text, n);
      st := ScanStep(b, st, cp);
      i := i + k;
      n := n + 1;
    }
    EndReached(text, n);
    NextHere(b, text, n);
    r := |u|;
  }

  lemma NextHere(b: Breaks, s: seq<nat>, n: nat)
    requires 0 < n <= |s|
    ensures n == |s| || IsBoundary(b, s, n) ==> NextBoundary(b, s, 0, n) == n
  {
  }

  lemma NextOnward(b: Breaks, s: seq<nat>, n: nat)
    requires 0 < n < |s|
    ensures ScanFrom(b, s, 0, n + 1) == ScanStep(b, ScanFrom(b, s, 0, n), s[n])
    ensures !IsBoundary(b, s, n) ==> NextBoundary(b, s, 0, n) == NextBoundary(b, s, 0, n + 1)
  {
  }

  lemma TextAt(u: seq<Byte>, at: nat)
    requires at < |u|
    ensures var text := ValidPrefix(u[at..]);
            && AllScalars(text) && EncodeAll(text) <= u[at..]
            && (text == [] <==> Decode(u[at..]) == IllFormed)
  {
    DecodePrefixSound(u[at..]);
  }

  lemma EndIs(b: Breaks, u: seq<Byte>, at: nat)
    requires at < |u|
    ensures var text := ValidPrefix(u[at..]);
            ElementEnd(b, u, at) == if text == [] then at + 1 else at + Offset(text, NextBoundary(b, text, 0, 1))
  {
  }

  /** Inside the text that begins at `at` its scalars are decoded one after another, and at its end is
      the end of the bytes or an ill-formed one. */
  lemma DecodeAt(u: seq<Byte>, at: nat, n: nat)
    requires at < |u| && n <= |ValidPrefix(u[at..])|
    ensures var text := ValidPrefix(u[at..]);
            var i := at + Offset(text, n);
            && i <= |u|
            && (n < |text| ==> i < |u| && Decode(u[i..]) == Scalar(EncodedLength(text[n]), text[n]))
            && (n == |text| && i < |u| ==> Decode(u[i..]) == IllFormed)
  {
    hide Encode, Decode, IsScalar, EncodeAll, Offset;
    var v := u[at..];
    var text := ValidPrefix(v);
    DecodePrefixSound(v);
    OffsetEnds(text);
    OffsetWithin(text, n);
    var i := Offset(text, n);
    assert u[at + i..] == v[i..];
    if n < |text| {
      assert v == EncodeAll(text) + v[|EncodeAll(text)|..];
      DecodeInside(text, n, v[|EncodeAll(text)|..]);
    }
  }

  lemma DecodeInside(text: seq<nat>, n: nat, junk: seq<Byte>)
    requires AllScalars(text) && n < |text|
    ensures var v, i := EncodeAll(text) + junk, Offset(text, n);
            i < |v| && Decode(v[i..]) == Scalar(EncodedLength(text[n]), text[n])
  {
    hide Encode, Decode, IsScalar, EncodeAll;
    var v, i := EncodeAll(text) + junk, Offset(text, n);
    var more := EncodeAll(text[n + 1..]) + junk;
    assert text == text[..n] + text[n..] && text[n..] == [text[n]] + text[n + 1..];
    EncodeAllConcat(text[..n], text[n..]);
    EncodeAllConcat([text[n]], text[n + 1..]);
    EncodeOneScalar(text[n]);
    assert v[i..] == Encode(text[n]) + more;
    DecodeComplete(text[n], more);
  }

  lemma EncodeOneScalar(cp: nat)
    requires IsScalar(cp)
    ensures AllScalars([cp]) && EncodeAll([cp]) == Encode(cp)
  {
    hide Encode;
    assert EncodeAll([cp]) == Encode(cp) + EncodeAll([cp][1..]);
  }

  lemma OffsetWithin(s: seq<nat>, n: nat)
    requires AllScalars(s) && n <= |s|
    ensures Offset(s, n) <= |EncodeAll(s)| && Offset(s, n) + |EncodeAll(s[n..])| == |EncodeAll(s)|
  {
    hide Encode;
    assert s == s[..n] + s[n..];
    EncodeAllConcat(s[..n], s[n..]);
  }

  // ------------------------------------------- an element of a longer text

  lemma {:induction false} ScanShifts(b: Breaks, s: seq<nat>, from: nat, k: nat)
    requires from + k <= |s|
    ensures ScanFrom(b, s[from..], 0, k) == ScanFrom(b, s, from, from + k)
  {
    if k > 0 { ScanShifts(b, s, from, k - 1); }
  }

  /** Behind a boundary nothing depends on what stands before it. */
  lemma BoundaryShifts(b: Breaks, s: seq<nat>, from: nat, k: nat)
    requires Consistent(b) && from + k <= |s| && 0 < k && IsBoundary(b, s, from)
    ensures IsBoundary(b, s[from..], k) <==> IsBoundary(b, s, from + k)
  {
    hide BreaksBefore, ScanFrom, RulesBreak;
    if from + k < |s| {
      StartIsBoundary(b, s[from..]);
      ScanDecides(b, s[from..], 0, k);
      ScanDecides(b, s, from, from + k);
      ScanShifts(b, s, from, k);
    }
  }

  /** On a well-formed text the element that begins at a boundary ends at the next one. */
  lemma EndOfElement(b: Breaks, s: seq<nat>, from: nat)
    requires Consistent(b) && AllScalars(s) && from < |s| && IsBoundary(b, s, from)
    ensures Offset(s, from) < |EncodeAll(s)|
    ensures ElementEnd(b, EncodeAll(s), Offset(s, from)) == Offset(s, NextBoundary(b, s, from, from + 1))
  {
    hide Encode, EncodeAll, Decode, IsBoundary, IsScalar, Offset;
    OffsetStep(s, from);
    var text := s[from..];
    OffsetWithin(s, from);
    RestOf(s, from);
    EndIs(b, EncodeAll(s), Offset(s, from));
    var n, m := NextBoundary(b, text, 0, 1), NextBoundary(b, s, from, from + 1);
    BoundaryShifts(b, s, from, n);
    BoundaryShifts(b, s, from, m - from);
    assert n == m - from;
    OffsetShifts(s, from, n);
  }

  lemma RestOf(s: seq<nat>, from: nat)
    requires AllScalars(s) && from <= |s|
    ensures Offset(s, from) <= |EncodeAll(s)| && ValidPrefix(EncodeAll(s)[Offset(s, from)..]) == s[from..]
  {
    hide Encode, Decode;
    assert s == s[..from] + s[from..];
    EncodeAllConcat(s[..from], s[from..]);
    assert EncodeAll(s)[Offset(s, from)..] == EncodeAll(s[from..]);
    DecodeEncode(s[from..]);
  }

  lemma OffsetShifts(s: seq<nat>, from: nat, n: nat)
    requires AllScalars(s) && from + n <= |s|
    ensures Offset(s, from) + Offset(s[from..], n) == Offset(s, from + n)
  {
    hide Encode;
    assert s[..from + n] == s[..from] + s[from..][..n];
    EncodeAllConcat(s[..from], s[from..][..n]);
  }

  lemma ScanFirst(b: Breaks, s: seq<nat>, at: nat)
    requires at < |s|
    ensures ScanFrom(b, s, at, at + 1) == ScanStep(b, FRESH, s[at])
  {
    assert ScanFrom(b, s, at, at) == FRESH;
  }

  lemma EndIsBoundary(b: Breaks, s: seq<nat>)
    ensures IsBoundary(b, s, |s|)
  {
  }

  lemma EndReached(s: seq<nat>, n: nat)
    requires AllScalars(s) && n <= |s| && Offset(s, n) >= |EncodeAll(s)|
    ensures n == |s|
  {
    if n < |s| {
      OffsetStep(s, n);
      OffsetEnds(s);
    }
  }

  /** How many boundaries there are beyond `from` and up to `to`. */
  function BoundariesIn(b: Breaks, s: seq<nat>, from: nat, to: nat): nat
    requires from <= to <= |s|
  {
    if from == to then 0 else BoundariesIn(b, s, from, to - 1) + if IsBoundary(b, s, to) then 1 else 0
  }

  lemma {:induction false} OneStretch(b: Breaks, s: seq<nat>, from: nat, at: nat, next: nat, to: nat)
    requires from <= at < to <= next <= |s|
    requires forall k | at < k < next :: !IsBoundary(b, s, k)
    ensures BoundariesIn(b, s, from, to) ==
            BoundariesIn(b, s, from, at) + if to == next && IsBoundary(b, s, next) then 1 else 0
  {
    hide IsBoundary;
    if to > at + 1 { OneStretch(b, s, from, at, next, to - 1); }
  }

  /** How many elements there are from byte `at` on. */
  ghost function Elements(b: Breaks, u: seq<Byte>, at: nat): nat
    decreases |u| - at
  {
    if at >= |u| then 0
    else
      ElementEndsBeyond(b, u, at);
      1 + Elements(b, u, ElementEnd(b, u, at))
  }

  lemma ElementEndsBeyond(b: Breaks, u: seq<Byte>, at: nat)
    requires at < |u|
    ensures at < ElementEnd(b, u, at) <= |u|
  {
    hide Encode, EncodeAll, Decode, IsBoundary, IsScalar, Offset;
    var text := ValidPrefix(u[at..]);
    if text != [] {
      TextAt(u, at);
      var n := NextBoundary(b, text, 0, 1);
      DecodeAt(u, at, n);
      OffsetGrows(text, n);
    }
  }

  lemma {:induction false} OffsetGrows(s: seq<nat>, n: nat)
    requires AllScalars(s) && n <= |s|
    ensures Offset(s, n) >= n
  {
    hide IsScalar, Encode, EncodeAll, Offset;
    if n > 0 {
      OffsetGrows(s, n - 1);
      OffsetStep(s, n - 1);
    }
  }

  /** `pas_text_count`, on any bytes at all: the elements, one ending where the next begins. Of a
      well-formed text there are as many as boundaries beyond the start, and the places visited are
      those of the boundaries, all of them and in order. */
  method TextCount(b: Breaks, u: seq<Byte>, ghost s: seq<nat>) returns (count: nat, ghost visited: seq<nat>)
    requires Consistent(b) && AllScalars(s)
    ensures count == Elements(b, u, 0)
    ensures u == EncodeAll(s) ==>
              && count == BoundariesIn(b, s, 0, |s|) && |visited| == count + 1
              && (forall k | 0 < k < |visited| :: visited[k - 1] < visited[k])
              && (forall i: nat | i <= |s| :: i in visited <==> IsBoundary(b, s, i))
              && forall i | i in visited :: i <= |s|
  {
    hide Encode, EncodeAll, Decode, IsBoundary, IsScalar, Offset, NextBoundary, ElementEnd, Elements;
    ghost var text := u == EncodeAll(s);
    OffsetEnds(s);
    EndIsBoundary(b, s);
    StartIsBoundary(b, s);
    var i := 0;
    count := 0;
    visited := [0];
    ghost var at: nat := 0;
    while i < |u|
      invariant 0 <= i && count + Elements(b, u, i) == Elements(b, u, 0)
      invariant text ==> at <= |s| && i == Offset(s, at) && IsBoundary(b, s, at)
      invariant text ==> count == BoundariesIn(b, s, 0, at) && |visited| == count + 1 && visited[count] == at
      invariant text ==> forall k | 0 < k < |visited| :: visited[k - 1] < visited[k]
      invariant text ==> forall k | k in visited :: k <= at
      invariant text ==> forall k: nat | k <= at :: k in visited <==> IsBoundary(b, s, k)
      decreases |u| - i
    {
      OneMore(b, u, i);
      if text && at == |s| { OffsetEnds(s); }
      i := TextNext(b, u, i, s, if text then at else 0);
      if text {
        ghost var next := NextBoundary(b, s, at, at + 1);
        NextBoundaryFacts(b, s, at);
        OneStretch(b, s, 0, at, next, next);
        visited := visited + [next];
        at := next;
      }
      count := count + 1;
    }
    NoMore(b, u, i);
    if text { EndReached(s, at); }
  }

  lemma OneMore(b: Breaks, u: seq<Byte>, at: nat)
    requires at < |u|
    ensures Elements(b, u, at) == 1 + Elements(b, u, ElementEnd(b, u, at))
  {
    hide ElementEnd;
  }

  lemma NoMore(b: Breaks, u: seq<Byte>, at: nat)
    requires at >= |u|
    ensures Elements(b, u, at) == 0
  {
  }

  lemma StartIsBoundary(b: Breaks, s: seq<nat>)
    ensures IsBoundary(b, s, 0)
  {
  }

  lemma NextBoundaryFacts(b: Breaks, s: seq<nat>, at: nat)
    requires at < |s|
    ensures var n := NextBoundary(b, s, at, at + 1);
            at < n <= |s| && IsBoundary(b, s, n) && forall k | at < k < n :: !IsBoundary(b, s, k)
  {
  }
}
