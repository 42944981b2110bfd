/** `pas_text_nfc` of runtime/pasrt_unicode.c: Normalization Form C one bounded segment at a
    time, proved to be the normalisation of the whole text. */
module NfcText {
  import opened Utf8
  import opened UnicodeTables
  import opened CanonicalOrder
  import opened Normalization
  import opened CanonicalEquivalence

  const SEGMENT_MAX := 256

  const ILLFORMED := -1
  const OVERFLOW := -2
  const SEGMENT := -3

  /** No code point decomposes to more than the array `decompose` is given. */
  ghost predicate AtMostWide(t: Tables, widest: nat)
    requires Valid(t)
  {
    forall cp: nat :: |Full(t, cp)| <= widest
  }

  /** A segment may begin at this code point: its decomposition begins with a starter that no
      earlier code point can take in. */
  predicate StartsSegment(t: Tables, cp: nat)
    requires Valid(t)
  {
    DecomposedIsSettled(t, cp, MAX_DEPTH);
    var first := Full(t, cp)[0];
    Class(t, first) == 0 && !IsSecond(t, first)
  }

  /** And that is where the code begins one. */
  lemma StartsAtCut(t: Tables, cp: nat)
    requires Valid(t)
    ensures Full(t, cp) != [] && (StartsSegment(t, cp) <==> IsCut(t, Full(t, cp)[0]))
  {
    hide Valid, DecomposeWithin, CombinesBack, IsSecond;
    FullNonEmpty(t, cp);
    var first := Full(t, cp)[0];
    if Class(t, first) == 0 { CombinesBackIs(t, first); }
  }

  lemma FullNonEmpty(t: Tables, cp: nat)
    requires Valid(t)
    ensures Full(t, cp) != []
  {
    DecomposedIsSettled(t, cp, MAX_DEPTH);
  }

  /** No segment begins strictly inside s[i..j). */
  predicate OneSegment(t: Tables, s: seq<nat>, i: nat, j: nat)
    requires Valid(t) && j <= |s|
  {
    forall k | i < k < j :: !StartsSegment(t, s[k])
  }

  /** Every stretch of a text that no segment begins inside decomposes within the buffer. */
  predicate SegmentsFit(t: Tables, s: seq<nat>)
    requires Valid(t)
  {
    forall i, j | 0 <= i < j <= |s| && OneSegment(t, s, i, j) :: |FullAll(t, s[i..j])| <= SEGMENT_MAX
  }

  /** The bytes of the normal form. */
  function NfcBytes(t: Tables, s: seq<nat>): seq<Byte>
    requires Valid(t) && AllScalars(s)
  {
    NfcIsRecompose(t, s);
    EncodeAll(Nfc(t, s))
  }

  lemma NfcBytesIsRecompose(t: Tables, s: seq<nat>)
    requires Valid(t) && AllScalars(s)
    ensures AllScalars(Recompose(t, FullAll(t, s))) && NfcBytes(t, s) == EncodeAll(Recompose(t, FullAll(t, s)))
  {
    hide Nfc, Recompose, FullAll;
    NfcIsRecompose(t, s);
  }

  // ----------------------------------------------------- flushing a segment

  /** The encoding loop of `flush_segment`. */
  method WriteScalars(buf: array<nat>, n: nat, dst: array<Byte>, out: nat) returns (r: int)
    requires n <= buf.Length && out <= dst.Length && AllScalars(buf[..n])
    modifies dst
    ensures var bytes := EncodeAll(old(buf[..n]));
            if out + |bytes| <= dst.Length then
              r == out + |bytes| && dst[..r] == old(dst[..out]) + bytes && dst[r..] == old(dst[r..])
            else r == OVERFLOW
  {
    hide Encode, EncodeAll;
    ghost var made, was := buf[..n], dst[..];
    NothingEncoded();
    assert made[..0] == [];
    r := out;
    for i := 0 to n
      invariant buf[..n] == made
      invariant out <= r <= dst.Length && AllScalars(made[..i])
      invariant r == out + |EncodeAll(made[..i])|
      invariant dst[..r] == was[..out] + EncodeAll(made[..i])
      invariant dst[r..] == was[r..]
    {
      assert buf[i] == made[i];
      EncodedSoFar(made, i);
      var k := EncodedLength(buf[i]);
      if r + k > dst.Length {
        EncodedPrefix(made, i + 1);
        return OVERFLOW;
      }
      ghost var before := dst[..r];
      var w := U8Enc(buf[i], dst, r);
      assert dst[r + k..] == was[r..][k..];
      r := r + k;
    }
    assert made[..n] == made;
  }

  lemma NothingEncoded()
    ensures EncodeAll([]) == []
  {
  }

  /** `flush_segment`: order, compose and encode buf[0..len). */
  method FlushSegment(t: Tables, buf: array<nat>, len: nat, dst: array<Byte>, out: nat) returns (r: int)
    requires Valid(t) && len <= buf.Length && out <= dst.Length
    requires AllSettled(t, buf[..len]) && AllScalars(buf[..len])
    modifies buf, dst
    ensures AllScalars(Recompose(t, old(buf[..len])))
    ensures var bytes := EncodeAll(Recompose(t, old(buf[..len])));
            if out + |bytes| <= dst.Length then
              r == out + |bytes| && dst[..r] == old(dst[..out]) + bytes && dst[r..] == old(dst[r..])
            else r == OVERFLOW
  {
    hide AllSettled, EncodeAll, Compose, Order;
    RecomposeScalars(t, buf[..len]);
    ghost var was := dst[..];
    CanonicalOrderInPlace(t, buf, len);
    assert dst[..] == was;
    var n := ComposeSegment(t, buf, len);
    assert dst[..] == was;
    assert was[..out] == old(dst[..out]);
    r := WriteScalars(buf, n, dst, out);
    if r >= 0 { assert dst[r..] == was[r..]; }
  }

  lemma EncodedSoFar(s: seq<nat>, i: nat)
    requires AllScalars(s) && i < |s|
    ensures AllScalars(s[..i]) && AllScalars(s[..i + 1]) && IsScalar(s[i])
    ensures EncodeAll(s[..i + 1]) == EncodeAll(s[..i]) + Encode(s[i])
  {
    hide Encode;
    assert s[..i + 1] == s[..i] + [s[i]];
    EncodeAllConcat(s[..i], [s[i]]);
    assert EncodeAll([s[i]]) == Encode(s[i]) + EncodeAll([s[i]][1..]);
  }

  lemma EncodedPrefix(s: seq<nat>, i: nat)
    requires AllScalars(s) && i <= |s|
    ensures AllScalars(s[..i]) && |EncodeAll(s[..i])| <= |EncodeAll(s)|
  {
    assert s == s[..i] + s[i..];
    EncodeAllConcat(s[..i], s[i..]);
  }

  // -------------------------------------------- the state between code points

  /** What the loop has: `cps` decoded from u[..i), the last segment of them, from `from` on, in
      the buffer as `held`, and the normal form of those before it written. */
  ghost predicate Progress(t: Tables, u: seq<Byte>, i: nat, cps: seq<nat>, from: nat, held: seq<nat>, written: seq<Byte>)
    requires Valid(t)
  {
    && i <= |u| && AllScalars(cps) && u[..i] == EncodeAll(cps)
    && (if cps == [] then from == 0 else from < |cps|)
    && (from > 0 ==> StartsSegment(t, cps[from]))
    && OneSegment(t, cps, from, |cps|)
    && SegmentsFit(t, cps)
    && held == FullAll(t, cps[from..])
    && written == NfcBytes(t, cps[..from])
  }

  lemma Started(t: Tables, u: seq<Byte>)
    requires Valid(t)
    ensures Progress(t, u, 0, [], 0, [], [])
  {
    NfcBytesIsRecompose(t, []);
    assert FullAll(t, []) == [];
  }

  lemma FullAllStarts(t: Tables, s: seq<nat>)
    requires Valid(t) && s != []
    ensures FullAll(t, s) != [] && FullAll(t, s)[0] == Full(t, s[0])[0] && Full(t, s[0]) != []
  {
    hide DecomposeWithin;
    assert s == [s[0]] + s[1..];
    FullAllConcat(t, [s[0]], s[1..]);
    FullAllOne(t, s[0]);
    DecomposedIsSettled(t, s[0], MAX_DEPTH);
  }

  /** Cutting a text where a segment starts cuts its normal form there. */
  lemma NfcBytesCut(t: Tables, a: seq<nat>, b: seq<nat>)
    requires Valid(t) && AllScalars(a) && AllScalars(b)
    requires b != [] && (a != [] ==> StartsSegment(t, b[0]))
    ensures AllScalars(a + b) && NfcBytes(t, a + b) == NfcBytes(t, a) + NfcBytes(t, b)
  {
    hide NfcBytes, FullAll, Recompose, DecomposeWithin, StartsSegment, IsCut, Valid;
    assert AllScalars(a + b);
    StartsAtCut(t, b[0]);
    NfcBytesIsRecompose(t, a);
    NfcBytesIsRecompose(t, b);
    NfcBytesIsRecompose(t, a + b);
    FullAllConcat(t, a, b);
    FullAllStarts(t, b);
    if a == [] {
      assert a + b == b;
      NoBytes(t);
    } else {
      RecomposeCut(t, FullAll(t, a), FullAll(t, b));
      EncodeAllConcat(Recompose(t, FullAll(t, a)), Recompose(t, FullAll(t, b)));
    }
  }

  lemma NoBytes(t: Tables)
    requires Valid(t)
    ensures NfcBytes(t, []) == []
  {
    assert FullAll(t, []) == [];
  }

  /** Flushing what is held completes the normal form of everything decoded. */
  lemma Flushed(t: Tables, u: seq<Byte>, i: nat, cps: seq<nat>, from: nat, held: seq<nat>, written: seq<Byte>)
    requires Valid(t) && Progress(t, u, i, cps, from, held, written) && cps != []
    ensures AllScalars(Recompose(t, held))
    ensures NfcBytes(t, cps) == written + EncodeAll(Recompose(t, held))
  {
    hide NfcBytes, FullAll, Recompose, StartsSegment;
    assert cps == cps[..from] + cps[from..];
    assert AllScalars(cps[..from]) && AllScalars(cps[from..]);
    NfcBytesCut(t, cps[..from], cps[from..]);
    NfcBytesIsRecompose(t, cps[from..]);
  }

  lemma OneSegmentGrows(t: Tables, cps: seq<nat>, cp: nat, from: nat)
    requires Valid(t) && from < |cps| && OneSegment(t, cps, from, |cps|) && !StartsSegment(t, cp)
    ensures OneSegment(t, cps + [cp], from, |cps| + 1)
  {
    hide StartsSegment;
  }

  /** A stretch ending in the new code point lies inside the last segment. */
  lemma SegmentsStillFit(t: Tables, cps: seq<nat>, cp: nat, from: nat)
    requires Valid(t) && SegmentsFit(t, cps) && from <= |cps|
    requires from > 0 ==> StartsSegment(t, (cps + [cp])[from])
    requires |FullAll(t, (cps + [cp])[from..])| <= SEGMENT_MAX
    ensures SegmentsFit(t, cps + [cp])
  {
    hide FullAll, StartsSegment;
    var s := cps + [cp];
    forall i, j | 0 <= i < j <= |s| && OneSegment(t, s, i, j)
      ensures |FullAll(t, s[i..j])| <= SEGMENT_MAX
    {
      if j <= |cps| {
        assert s[i..j] == cps[i..j];
        assert forall k | i < k < j :: s[k] == cps[k];
        assert OneSegment(t, cps, i, j);
      } else {
        assert from <= i;
        assert s[i..j] == s[i..];
        assert s[from..] == s[from..i] + s[i..];
        FullAllConcat(t, s[from..i], s[i..]);
      }
    }
  }

  lemma FullAllAppended(t: Tables, s: seq<nat>, cp: nat)
    requires Valid(t)
    ensures FullAll(t, s + [cp]) == FullAll(t, s) + Full(t, cp)
  {
    hide DecomposeWithin;
    FullAllConcat(t, s, [cp]);
    FullAllOne(t, cp);
  }

  /** The new code point joins the segment held. */
  lemma Joined(t: Tables, u: seq<Byte>, i: nat, i': nat, cps: seq<nat>, cp: nat, from: nat, held: seq<nat>, written: seq<Byte>)
    requires Valid(t) && Progress(t, u, i, cps, from, held, written)
    requires cps == [] || !StartsSegment(t, cp)
    requires i' <= |u| && AllScalars(cps + [cp]) && u[..i'] == EncodeAll(cps + [cp])
    requires |held| + |Full(t, cp)| <= SEGMENT_MAX
    ensures Progress(t, u, i', cps + [cp], from, held + Full(t, cp), written)
  {
    hide FullAll, StartsSegment, NfcBytes, SegmentsFit, DecomposeWithin;
    FullAllAppended(t, cps[from..], cp);
    assert (cps + [cp])[from..] == cps[from..] + [cp];
    assert (cps + [cp])[..from] == cps[..from];
    SegmentsStillFit(t, cps, cp, from);
    if cps != [] { OneSegmentGrows(t, cps, cp, from); }
  }

  /** The new code point begins a segment, the one held having been flushed. */
  lemma Began(t: Tables, u: seq<Byte>, i: nat, i': nat, cps: seq<nat>, cp: nat, from: nat, held: seq<nat>, written: seq<Byte>)
    requires Valid(t) && Progress(t, u, i, cps, from, held, written)
    requires cps != [] && StartsSegment(t, cp)
    requires i' <= |u| && AllScalars(cps + [cp]) && u[..i'] == EncodeAll(cps + [cp])
    requires |Full(t, cp)| <= SEGMENT_MAX
    ensures Progress(t, u, i', cps + [cp], |cps|, Full(t, cp), NfcBytes(t, cps))
  {
    hide FullAll, StartsSegment, NfcBytes, SegmentsFit, DecomposeWithin;
    FullAllOne(t, cp);
    assert (cps + [cp])[|cps|..] == [cp];
    assert (cps + [cp])[..|cps|] == cps;
    SegmentsStillFit(t, cps, cp, |cps|);
  }

  /** A segment too long for the buffer makes every text it begins not fit. */
  lemma TooLong(t: Tables, cps: seq<nat>, cp: nat, from: nat, more: seq<nat>)
    requires Valid(t) && from <= |cps| && OneSegment(t, cps + [cp], from, |cps| + 1)
    requires |FullAll(t, (cps + [cp])[from..])| > SEGMENT_MAX
    ensures !SegmentsFit(t, cps + [cp] + more)
  {
    hide FullAll, StartsSegment;
    var s := cps + [cp] + more;
    assert s[from..|cps| + 1] == (cps + [cp])[from..];
    assert forall k | from < k < |cps| + 1 :: s[k] == (cps + [cp])[k];
    assert OneSegment(t, s, from, |cps| + 1);
  }

  // ------------------------------------------------------ the first failure

  /** Where the segment begins that the first n code points end in. */
  function SegmentStart(t: Tables, s: seq<nat>, n: nat): (i: nat)
    requires Valid(t) && 0 < n <= |s|
    ensures i < n
  {
    if n == 1 || StartsSegment(t, s[n - 1]) then n - 1 else SegmentStart(t, s, n - 1)
  }

  /** What the n-th code point, or an earlier one, is refused for: the segments before its own do not
      fit the output, or its own segment does not fit the buffer; zero if nothing is. */
  ghost function Refusal(t: Tables, s: seq<nat>, n: nat, cap: nat): int
    requires Valid(t) && AllScalars(s) && n <= |s|
  {
    if n == 0 then 0
    else
      var before := Refusal(t, s, n - 1, cap);
      if before != 0 then before
      else if n > 1 && StartsSegment(t, s[n - 1]) && |NfcBytes(t, s[..n - 1])| > cap then OVERFLOW
      else if |FullAll(t, s[SegmentStart(t, s, n)..n])| > SEGMENT_MAX then SEGMENT
      else 0
  }

  /** The status a text gets: the first failure met. */
  ghost function Status(t: Tables, u: seq<Byte>, cap: nat): int
    requires Valid(t)
  {
    var s := ValidPrefix(u);
    var first := Refusal(t, s, |s|, cap);
    if first != 0 then first else if !WellFormed(u) then ILLFORMED else if |NfcBytes(t, s)| > cap then OVERFLOW else 0
  }

  /** It depends on nothing that comes later. */
  lemma {:induction false} RefusalOfPrefix(t: Tables, s: seq<nat>, more: seq<nat>, n: nat, cap: nat)
    requires Valid(t) && AllScalars(s) && AllScalars(s + more) && n <= |s|
    ensures Refusal(t, s + more, n, cap) == Refusal(t, s, n, cap)
    ensures n > 0 ==> SegmentStart(t, s + more, n) == SegmentStart(t, s, n)
  {
    hide NfcBytes, FullAll, StartsSegment;
    if n > 0 {
      RefusalOfPrefix(t, s, more, n - 1, cap);
      assert (s + more)[..n - 1] == s[..n - 1];
      assert (s + more)[SegmentStart(t, s, n)..n] == s[SegmentStart(t, s, n)..n];
    }
  }

  lemma {:induction false} RefusalStays(t: Tables, s: seq<nat>, n: nat, m: nat, cap: nat)
    requires Valid(t) && AllScalars(s) && n <= m <= |s| && Refusal(t, s, n, cap) != 0
    ensures Refusal(t, s, m, cap) == Refusal(t, s, n, cap)
  {
    hide NfcBytes, FullAll, StartsSegment;
    if n < m { RefusalStays(t, s, n, m - 1, cap); }
  }

  lemma ToTheEnd(s: seq<nat>, i: nat)
    requires i <= |s|
    ensures s[i..|s|] == s[i..]
  {
  }

  /** What one more code point comes to. */
  lemma RefusalNext(t: Tables, cps: seq<nat>, cp: nat, more: seq<nat>, from: nat, cap: nat)
    requires Valid(t) && AllScalars(cps) && AllScalars(cps + [cp]) && AllScalars(cps + [cp] + more)
    requires Refusal(t, cps, |cps|, cap) == 0 && (if cps == [] then from == 0 else from == SegmentStart(t, cps, |cps|))
    ensures var flush := cps != [] && StartsSegment(t, cp);
            var start := if flush then |cps| else from;
            var r := if flush && |NfcBytes(t, cps)| > cap then OVERFLOW
                     else if |FullAll(t, (cps + [cp])[start..])| > SEGMENT_MAX then SEGMENT else 0;
            && Refusal(t, cps + [cp], |cps| + 1, cap) == r && SegmentStart(t, cps + [cp], |cps| + 1) == start
            && (r != 0 ==> Refusal(t, cps + [cp] + more, |cps + [cp] + more|, cap) == r)
  {
    hide NfcBytes, FullAll, StartsSegment;
    var s := cps + [cp];
    RefusalOfPrefix(t, cps, [cp], |cps|, cap);
    assert s[..|cps|] == cps;
    var start := SegmentStart(t, s, |s|);
    ToTheEnd(s, start);
    if Refusal(t, s, |s|, cap) != 0 {
      RefusalOfPrefix(t, s, more, |s|, cap);
      RefusalStays(t, s + more, |s|, |s + more|, cap);
    }
  }

  // --------------------------------------------------------- the whole loop

  lemma StoppedAt(u: seq<Byte>, i: nat, cps: seq<nat>)
    requires i < |u| && AllScalars(cps) && u[..i] == EncodeAll(cps) && Decode(u[i..]) == IllFormed
    ensures !WellFormed(u) && ValidPrefix(u) == cps
  {
    hide Encode, Decode;
    DecodePrefixSplit(cps, u[i..]);
    assert u == u[..i] + u[i..];
    assert DecodePrefix(u[i..]) == [];
    assert ValidPrefix(u) == cps + [] == cps;
    assert |u[..i]| == i;
  }

  lemma NextDecoded(u: seq<Byte>, i: nat, cps: seq<nat>, k: nat, cp: nat) returns (more: seq<nat>)
    requires i < |u| && AllScalars(cps) && u[..i] == EncodeAll(cps) && k > 0 && Decode(u[i..]) == Scalar(k, cp)
    ensures IsScalar(cp) && AllScalars(more) && AllScalars(cps + [cp])
    ensures i + k <= |u| && u[..i + k] == EncodeAll(cps + [cp])
    ensures ValidPrefix(u) == cps + [cp] + more
  {
    hide Encode, Decode;
    DecodeSound(u[i..]);
    DecodePrefixStep(u, i, cps);
    more := ValidPrefix(u[i + k..]);
    DecodePrefixSplit(cps + [cp], u[i + k..]);
    assert u == u[..i + k] + u[i + k..];
  }

  lemma AllDecoded(u: seq<Byte>, cps: seq<nat>)
    requires AllScalars(cps) && u == EncodeAll(cps)
    ensures WellFormed(u) && ValidPrefix(u) == cps
  {
    hide Encode, Decode;
    WellFormedMeansEncoding(u, cps);
  }

  /** The facts of one iteration about the segment held. */
  lemma Held(t: Tables, u: seq<Byte>, i: nat, cps: seq<nat>, cp: nat, from: nat, held: seq<nat>, written: seq<Byte>)
    requires Valid(t) && Progress(t, u, i, cps, from, held, written)
    ensures held == [] <==> cps == []
    ensures AllSettled(t, held) && AllScalars(held)
    ensures FullAll(t, (cps + [cp])[from..]) == held + Full(t, cp)
    ensures cps == [] || !StartsSegment(t, cp) ==> OneSegment(t, cps + [cp], from, |cps| + 1)
  {
    hide FullAll, StartsSegment, NfcBytes, SegmentsFit, DecomposeWithin;
    FullAllSettled(t, cps[from..]);
    assert (cps + [cp])[from..] == cps[from..] + [cp];
    FullAllAppended(t, cps[from..], cp);
    if cps == [] {
      EmptyDecomposes(t);
    } else if !StartsSegment(t, cp) {
      OneSegmentGrows(t, cps, cp, from);
    }
  }

  lemma EmptyDecomposes(t: Tables)
    requires Valid(t)
    ensures FullAll(t, []) == []
  {
  }

  lemma FullWithin(t: Tables, cp: nat)
    requires Valid(t)
    ensures Shallow(t.decomp, cp, MAX_DEPTH) && DecomposeWithin(t, cp, MAX_DEPTH) == Full(t, cp)
  {
  }

  lemma LongerBytes(t: Tables, a: seq<nat>, cp: nat, more: seq<nat>)
    requires Valid(t) && AllScalars(a) && AllScalars(a + [cp]) && AllScalars(more) && StartsSegment(t, cp)
    ensures AllScalars(a + [cp] + more) && |NfcBytes(t, a + [cp] + more)| >= |NfcBytes(t, a)|
  {
    hide NfcBytes, StartsSegment;
    assert (a + [cp])[|a|] == cp;
    assert a + [cp] + more == a + ([cp] + more);
    NfcBytesCut(t, a, [cp] + more);
  }

  /** One turn of `pas_text_nfc`'s loop after the decoding: flush if a segment starts, then hold
      the decomposition. Answers the new length of the output, or a negative status. */
  method Take(t: Tables, cp: nat, buf: array<nat>, len: nat, d: array<nat>, dst: array<Byte>, out: nat)
    returns (o: int, len': nat)
    requires Valid(t) && |Full(t, cp)| <= d.Length && buf.Length == SEGMENT_MAX && buf != d
    requires len <= SEGMENT_MAX && out <= dst.Length && AllSettled(t, buf[..len]) && AllScalars(buf[..len])
    modifies buf, d, dst
    ensures AllScalars(Recompose(t, old(buf[..len])))
    ensures var held, bytes := old(buf[..len]), EncodeAll(Recompose(t, old(buf[..len])));
            var flush := len > 0 && StartsSegment(t, cp);
            var kept := if flush then [] else held;
            if flush && out + |bytes| > dst.Length then o == OVERFLOW
            else if |kept| + |Full(t, cp)| > SEGMENT_MAX then o == SEGMENT
            else
              && o == out + (if flush then |bytes| else 0)
              && dst[..o] == old(dst[..out]) + (if flush then bytes else [])
              && dst[o..] == old(dst[o..])
              && len' <= SEGMENT_MAX && buf[..len'] == kept + Full(t, cp)
  {
    hide DecomposeWithin, Recompose, AllSettled, StartsSegment, Valid, EncodeAll, CombinesBack, AllScalars, Full;
    ghost var held := buf[..len];
    StartsAtCut(t, cp);
    RecomposeScalars(t, held);
    FullWithin(t, cp);
    var dn := DecomposeInto(t, cp, d, 0, MAX_DEPTH);
    assert d[..dn] == Full(t, cp);
    assert buf[..len] == held;
    len' := len;
    o := out;
    assert d[0] == Full(t, cp)[0];
    if len > 0 && Class(t, d[0]) == 0 && !CombinesBack(t, d[0]) {
      o := FlushSegment(t, buf, len, dst, out);
      if o < 0 { return; }
      len' := 0;
    }
    assert d[..dn] == Full(t, cp);
    if len' + dn > SEGMENT_MAX { return SEGMENT, len'; }
    ghost var written := dst[..];
    len' := Hold(buf, len', d, dn);
    assert dst[..] == written;
  }

  /** The copying loop: d[0..dn) goes to the end of the segment. */
  method Hold(buf: array<nat>, len: nat, d: array<nat>, dn: nat) returns (len': nat)
    requires buf != d && dn <= d.Length && len + dn <= buf.Length
    modifies buf
    ensures len' == len + dn && buf[..len'] == old(buf[..len]) + d[..dn]
  {
    ghost var kept := buf[..len];
    len' := len;
    for j := 0 to dn
      invariant len' == len + j
      invariant buf[..len'] == kept + d[..j]
    {
      buf[len'] := d[j];
      len' := len' + 1;
    }
  }

  /** `pas_text_nfc`. `widest` is PAS_U_DECOMP_MAX; `dst.Length` is the capacity. */
  method TextNfc(t: Tables, u: seq<Byte>, dst: array<Byte>, widest: nat) returns (r: int)
    requires Valid(t) && AtMostWide(t, widest)
    modifies dst
    ensures r >= 0 ==> WellFormed(u) && r <= dst.Length && dst[..r] == NfcBytes(t, ValidPrefix(u))
    ensures r >= 0 ==> dst[r..] == old(dst[r..])
    ensures r >= 0 <==> WellFormed(u) && SegmentsFit(t, ValidPrefix(u)) && |NfcBytes(t, ValidPrefix(u))| <= dst.Length
    ensures r < 0 ==> r == ILLFORMED || r == OVERFLOW || r == SEGMENT
    ensures r < 0 ==> r == Status(t, u, dst.Length)
    ensures r == ILLFORMED ==> !WellFormed(u)
    ensures r == OVERFLOW ==> |NfcBytes(t, ValidPrefix(u))| > dst.Length
    ensures r == SEGMENT ==> !SegmentsFit(t, ValidPrefix(u))
  {
    hide NfcBytes, SegmentsFit, StartsSegment, FullAll, DecomposeWithin, DecodePrefix, Valid, Recompose, Decode, WellFormed, OneSegment,
      Refusal, SegmentStart;
    var buf := new nat[SEGMENT_MAX];
    var d := new nat[widest];
    var len: nat := 0;
    var i: nat := 0;
    var out: nat := 0;
    ghost var cps: seq<nat> := [];
    ghost var from: nat := 0;
    ghost var was := dst[..];
    Started(t, u);
    NothingRefused(t, dst.Length);
    while i < |u|
      invariant fresh(buf) && fresh(d) && buf != d && buf.Length == SEGMENT_MAX && d.Length == widest
      invariant len <= SEGMENT_MAX && 0 <= out <= dst.Length
      invariant Progress(t, u, i, cps, from, buf[..len], dst[..out])
      invariant dst[out..] == was[out..]
      invariant Refusal(t, cps, |cps|, dst.Length) == 0 && (cps != [] ==> from == SegmentStart(t, cps, |cps|))
      decreases |u| - i
    {
      var k, cp := U8Dec(u, i);
      if k == 0 {
        StoppedAt(u, i, cps);
        return ILLFORMED;
      }
      ghost var more := NextDecoded(u, i, cps, k, cp);
      ghost var held, written := buf[..len], dst[..out];
      Held(t, u, i, cps, cp, from, held, written);
      RefusalNext(t, cps, cp, more, from, dst.Length);
      assert |Full(t, cp)| <= widest;
      var o, len' := Take(t, cp, buf, len, d, dst, out);
      ghost var flush := len > 0 && StartsSegment(t, cp);
      if flush {
        Flushed(t, u, i, cps, from, held, written);
        if o == OVERFLOW {
          LongerBytes(t, cps, cp, more);
        } else if o < 0 {
          assert (cps + [cp])[|cps|..] == [cp];
          FullAllOne(t, cp);
          AloneIsOneSegment(t, cps, cp);
          TooLong(t, cps, cp, |cps|, more);
        } else {
          Began(t, u, i, i + k, cps, cp, from, held, written);
          from := |cps|;
        }
      } else if o < 0 {
        TooLong(t, cps, cp, from, more);
      } else {
        Joined(t, u, i, i + k, cps, cp, from, held, written);
      }
      if o < 0 { return o; }
      assert dst[o..] == was[o..];
      out, len, i, cps := o, len', i + k, cps + [cp];
    }
    assert u[..i] == u;
    AllDecoded(u, cps);
    Held(t, u, i, cps, 0, from, buf[..len], dst[..out]);
    if len > 0 {
      Flushed(t, u, i, cps, from, buf[..len], dst[..out]);
      r := FlushSegment(t, buf, len, dst, out);
    } else {
      r := out;
    }
  }

  lemma NothingRefused(t: Tables, cap: nat)
    requires Valid(t)
    ensures Refusal(t, [], 0, cap) == 0
  {
  }

  lemma AloneIsOneSegment(t: Tables, cps: seq<nat>, cp: nat)
    requires Valid(t)
    ensures OneSegment(t, cps + [cp], |cps|, |cps| + 1)
  {
  }

  // ----------------------------------------------- what is never refused

  /** A text that begins a segment at every code point is refused for no segment, however long. */
  lemma StartersFit(t: Tables, s: seq<nat>)
    requires Valid(t) && forall i | 0 <= i < |s| :: StartsSegment(t, s[i]) && |Full(t, s[i])| <= SEGMENT_MAX
    ensures SegmentsFit(t, s)
  {
    hide StartsSegment, Full;
    forall i, j | 0 <= i < j <= |s| && OneSegment(t, s, i, j)
      ensures |FullAll(t, s[i..j])| <= SEGMENT_MAX
    {
      assert !(i < i + 1 < j) by { assert StartsSegment(t, s[if i + 1 < |s| then i + 1 else i]); }
      assert s[i..j] == [s[i]];
      FullAllOne(t, s[i]);
    }
  }

  /** In particular one of starters that decompose to themselves and that no code point takes in. */
  lemma PlainLettersFit(t: Tables, s: seq<nat>)
    requires Valid(t)
    requires forall i | 0 <= i < |s| :: Settled(t, s[i]) && Class(t, s[i]) == 0 && !IsSecond(t, s[i])
    ensures SegmentsFit(t, s)
  {
    hide IsSecond, Class;
    StartersFit(t, s);
  }

  // ------------------------------------------------------ what it is for

  /** Two texts get the same bytes exactly when they are canonically equivalent. */
  lemma SameBytesExactlyWhenEquivalent(t: Tables, a: seq<nat>, b: seq<nat>)
    requires Valid(t) && AllScalars(a) && AllScalars(b)
    ensures NfcBytes(t, a) == NfcBytes(t, b) <==> Equivalent(t, a, b)
  {
    hide Nfc, Equivalent;
    NfcIsRecompose(t, a);
    NfcIsRecompose(t, b);
    EncodeAllInjective(Nfc(t, a), Nfc(t, b));
    NfcDecidesEquivalence(t, a, b);
  }

  /** What was written is well-formed, and normalising it writes it again. */
  lemma WrittenIsNormal(t: Tables, a: seq<nat>)
    requires Valid(t) && AllScalars(a)
    ensures WellFormed(NfcBytes(t, a)) && NfcBytes(t, ValidPrefix(NfcBytes(t, a))) == NfcBytes(t, a)
  {
    hide Nfc, Encode, Decode;
    NfcIsRecompose(t, a);
    WellFormedMeansEncoding(NfcBytes(t, a), Nfc(t, a));
    NfcIdempotent(t, a);
  }
}
