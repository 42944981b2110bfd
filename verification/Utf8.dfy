/** UTF-8 as runtime/pasrt_unicode.c decodes and encodes it: `u8dec`, `u8len`, `u8enc` and
    `pas_text_validate`. Shifts and masks are written as the arithmetic they perform. */
module Utf8 {

  type Byte = b: int | 0 <= b < 0x100

  /** A Unicode scalar value: a code point outside the surrogate range. */
  predicate IsScalar(cp: int) {
    0 <= cp < 0xD800 || 0xE000 <= cp < 0x11_0000
  }

  predicate AllScalars(cps: seq<nat>) {
    forall i | 0 <= i < |cps| :: IsScalar(cps[i])
  }

  // ---------------------------------------------------------------- encoding

  function EncodedLength(cp: nat): nat {
    if cp < 0x80 then 1 else if cp < 0x800 then 2 else if cp < 0x1_0000 then 3 else 4
  }

  function Encode(cp: nat): (b: seq<Byte>)
    requires IsScalar(cp)
    ensures |b| == EncodedLength(cp)
  {
    if cp < 0x80 then [cp]
    else if cp < 0x800 then [0xC0 + cp / 64, 0x80 + cp % 64]
    else if cp < 0x1_0000 then [0xE0 + cp / 4096, 0x80 + cp / 64 % 64, 0x80 + cp % 64]
    else [0xF0 + cp / 26_2144, 0x80 + cp / 4096 % 64, 0x80 + cp / 64 % 64, 0x80 + cp % 64]
  }

  function EncodeAll(cps: seq<nat>): seq<Byte>
    requires AllScalars(cps)
  {
    if cps == [] then [] else Encode(cps[0]) + EncodeAll(cps[1..])
  }

  lemma {:induction false} EncodeAllConcat(a: seq<nat>, b: seq<nat>)
    requires AllScalars(a) && AllScalars(b)
    ensures AllScalars(a + b) && EncodeAll(a + b) == EncodeAll(a) + EncodeAll(b)
  {
    hide Encode;
    if a == [] {
      assert a + b == b;
    } else {
      EncodeAllConcat(a[1..], b);
      assert (a + b)[1..] == a[1..] + b;
    }
  }

  // ---------------------------------------------------------------- decoding

  /** What the lead byte announces: how many bytes, and which second bytes are admissible. */
  datatype Lead = BadLead | Lead(k: nat, lo: nat, hi: nat)

  function LeadOf(c: Byte): Lead {
    if c < 0x80 then Lead(1, 0, 0)
    else if 0xC2 <= c <= 0xDF then Lead(2, 0x80, 0xBF)
    else if c == 0xE0 then Lead(3, 0xA0, 0xBF)
    else if c == 0xED then Lead(3, 0x80, 0x9F)
    else if 0xE1 <= c <= 0xEF then Lead(3, 0x80, 0xBF)
    else if c == 0xF0 then Lead(4, 0x90, 0xBF)
    else if c == 0xF4 then Lead(4, 0x80, 0x8F)
    else if 0xF1 <= c <= 0xF3 then Lead(4, 0x80, 0xBF)
    else BadLead
  }

  /** The payload bits of the lead byte of a k-byte sequence: `c & (0x7F >> k)`. */
  function LeadBits(c: Byte, k: nat): nat {
    if k == 2 then c % 32 else if k == 3 then c % 16 else c % 8
  }

  /** `b & 0x3F`. */
  function Six(b: Byte): nat {
    b % 64
  }

  /** `acc` with the six low bits of s[j..k) shifted in, most significant first. */
  function ShiftIn(acc: nat, s: seq<Byte>, j: nat, k: nat): nat
    requires j <= k <= |s|
    decreases k - j
  {
    if j == k then acc else ShiftIn(acc * 64 + Six(s[j]), s, j + 1, k)
  }

  datatype Decoded = IllFormed | Scalar(len: nat, cp: nat)

  /** The scalar a non-empty byte sequence begins with, if it begins with one. */
  function Decode(s: seq<Byte>): (d: Decoded)
    requires s != []
    ensures d.Scalar? ==> 1 <= d.len <= 4 && d.len <= |s|
  {
    match LeadOf(s[0])
    case BadLead => IllFormed
    case Lead(k, lo, hi) =>
      if k == 1 then Scalar(1, s[0])
      else if |s| < k || s[1] < lo || s[1] > hi then IllFormed
      else if exists j | 2 <= j < k :: s[j] < 0x80 || s[j] > 0xBF then IllFormed
      else Scalar(k, ShiftIn(LeadBits(s[0], k), s, 1, k))
  }

  /** `u8dec`: zero for an ill-formed sequence, else the bytes consumed and the scalar. */
  method U8Dec(u: seq<Byte>, i: nat) returns (k: nat, cp: nat)
    requires i < |u|
    ensures k == 0 <==> Decode(u[i..]) == IllFormed
    ensures k != 0 ==> Decode(u[i..]) == Scalar(k, cp)
  {
    ghost var s := u[i..];
    var c := u[i];
    var lead := LeadOf(c);
    if lead.BadLead? { return 0, 0; }
    if lead.k == 1 { return 1, c; }
    if i + lead.k > |u| { return 0, 0; }
    if u[i + 1] < lead.lo || u[i + 1] > lead.hi { return 0, 0; }
    for j := 2 to lead.k
      invariant forall m | 2 <= m < j :: 0x80 <= s[m] <= 0xBF
    {
      if u[i + j] < 0x80 || u[i + j] > 0xBF {
        assert s[j] < 0x80 || s[j] > 0xBF;
        return 0, 0;
      }
    }
    k := lead.k;
    cp := LeadBits(c, k);
    for j := 1 to k
      invariant ShiftIn(cp, s, j, k) == ShiftIn(LeadBits(c, k), s, 1, k)
    {
      cp := cp * 64 + Six(u[i + j]);
    }
  }

  // ------------------------------------------- decoder against encoder

  lemma ShiftIn2(s: seq<Byte>, a: nat)
    requires |s| >= 2
    ensures ShiftIn(a, s, 1, 2) == a * 64 + Six(s[1])
  {
    assert ShiftIn(a * 64 + Six(s[1]), s, 2, 2) == a * 64 + Six(s[1]);
  }

  lemma ShiftIn3(s: seq<Byte>, a: nat)
    requires |s| >= 3
    ensures ShiftIn(a, s, 1, 3) == (a * 64 + Six(s[1])) * 64 + Six(s[2])
  {
    var b := a * 64 + Six(s[1]);
    assert ShiftIn(b, s, 2, 3) == ShiftIn(b * 64 + Six(s[2]), s, 3, 3);
  }

  lemma ShiftIn4(s: seq<Byte>, a: nat)
    requires |s| >= 4
    ensures ShiftIn(a, s, 1, 4) == ((a * 64 + Six(s[1])) * 64 + Six(s[2])) * 64 + Six(s[3])
  {
    var b := a * 64 + Six(s[1]);
    var c := b * 64 + Six(s[2]);
    assert ShiftIn(b, s, 2, 4) == ShiftIn(c, s, 3, 4);
    assert ShiftIn(c, s, 3, 4) == ShiftIn(c * 64 + Six(s[3]), s, 4, 4);
  }

  lemma Split64(q: nat, r: nat)
    requires r < 64
    ensures (q * 64 + r) / 64 == q && (q * 64 + r) % 64 == r
  {
  }

  lemma Shifts(cp: nat)
    ensures cp / 4096 == cp / 64 / 64 && cp / 26_2144 == cp / 64 / 64 / 64
  {
  }

  /** The payload bits put back together by shifting are the ones the encoder takes apart. */
  lemma EncodeShifted2(a: nat, b: nat)
    requires 2 <= a < 32 && b < 64
    ensures var cp := a * 64 + b;
            IsScalar(cp) && EncodedLength(cp) == 2 && Encode(cp) == [0xC0 + a, 0x80 + b]
  {
    Split64(a, b);
  }

  lemma EncodeShifted3(a: nat, b: nat, c: nat)
    requires a < 16 && b < 64 && c < 64
    requires a == 0 ==> 32 <= b
    requires a == 13 ==> b < 32
    ensures var cp := (a * 64 + b) * 64 + c;
            IsScalar(cp) && EncodedLength(cp) == 3 && Encode(cp) == [0xE0 + a, 0x80 + b, 0x80 + c]
  {
    var cp := (a * 64 + b) * 64 + c;
    Split64(a * 64 + b, c);
    Split64(a, b);
    Shifts(cp);
  }

  lemma EncodeShifted4(a: nat, b: nat, c: nat, d: nat)
    requires a < 5 && b < 64 && c < 64 && d < 64
    requires a == 0 ==> 16 <= b
    requires a == 4 ==> b < 16
    ensures var cp := ((a * 64 + b) * 64 + c) * 64 + d;
            IsScalar(cp) && EncodedLength(cp) == 4 && Encode(cp) == [0xF0 + a, 0x80 + b, 0x80 + c, 0x80 + d]
  {
    var cp := ((a * 64 + b) * 64 + c) * 64 + d;
    Split64((a * 64 + b) * 64 + c, d);
    Split64(a * 64 + b, c);
    Split64(a, b);
    Shifts(cp);
  }

  /** The lead byte's row admits the bytes of s that belong to it. */
  predicate RowAdmits(s: seq<Byte>)
    requires s != []
  {
    var row := LeadOf(s[0]);
    row.Lead? && row.k <= |s| && (row.k > 1 ==> row.lo <= s[1] <= row.hi)
    && forall j | 2 <= j < row.k :: 0x80 <= s[j] <= 0xBF
  }

  lemma DecodeByRow(s: seq<Byte>)
    requires s != []
    ensures Decode(s).Scalar? <==> RowAdmits(s)
    ensures RowAdmits(s) ==>
              var k := LeadOf(s[0]).k;
              1 <= k <= 4 &&
              Decode(s) == Scalar(k, if k == 1 then s[0] else ShiftIn(LeadBits(s[0], k), s, 1, k))
  {
  }

  /** What a row says of its lead byte, and of the bits the byte carries. */
  lemma LeadIs(c: Byte)
    requires LeadOf(c).Lead?
    ensures var k, lo, hi, a := LeadOf(c).k, LeadOf(c).lo, LeadOf(c).hi, LeadBits(c, LeadOf(c).k);
            && 1 <= k <= 4 && (k > 1 ==> 0x80 <= lo && hi <= 0xBF)
            && (k == 1 ==> c < 0x80)
            && (k == 2 ==> c == 0xC0 + a && 2 <= a < 32)
            && (k == 3 ==> c == 0xE0 + a && a < 16 && (a == 0 ==> lo == 0xA0) && (a == 13 ==> hi == 0x9F))
            && (k == 4 ==> c == 0xF0 + a && a < 5 && (a == 0 ==> lo == 0x90) && (a == 4 ==> hi == 0x8F))
  {
  }

  lemma SixIs(b: Byte)
    requires 0x80 <= b <= 0xBF
    ensures b == 0x80 + Six(b) && Six(b) < 64
  {
  }

  /** Whatever the decoder accepts is the encoding of the scalar it answers. */
  lemma DecodeSound(s: seq<Byte>)
    requires s != [] && Decode(s).Scalar?
    ensures IsScalar(Decode(s).cp)
    ensures Decode(s).len == EncodedLength(Decode(s).cp)
    ensures s[..Decode(s).len] == Encode(Decode(s).cp)
  {
    hide Encode, Decode, ShiftIn, LeadOf, LeadBits, Six;
    DecodeByRow(s);
    LeadIs(s[0]);
    var k := LeadOf(s[0]).k;
    var a := LeadBits(s[0], k);
    forall j | 1 <= j < k
      ensures s[j] == 0x80 + Six(s[j]) && Six(s[j]) < 64
    {
      SixIs(s[j]);
    }
    if k == 1 {
      EncodeOne(s[0]);
    } else if k == 2 {
      ShiftIn2(s, a);
      EncodeShifted2(a, Six(s[1]));
    } else if k == 3 {
      ShiftIn3(s, a);
      EncodeShifted3(a, Six(s[1]), Six(s[2]));
    } else {
      ShiftIn4(s, a);
      EncodeShifted4(a, Six(s[1]), Six(s[2]), Six(s[3]));
    }
  }

  lemma EncodeOne(cp: nat)
    requires cp < 0x80
    ensures Encode(cp) == [cp]
  {
  }

  lemma TakenApart2(cp: nat) returns (a: nat, b: nat)
    requires 0x80 <= cp < 0x800
    ensures 2 <= a < 32 && b < 64 && cp == a * 64 + b
  {
    a, b := cp / 64, cp % 64;
  }

  lemma TakenApart3(cp: nat) returns (a: nat, b: nat, c: nat)
    requires IsScalar(cp) && 0x800 <= cp < 0x1_0000
    ensures a < 16 && b < 64 && c < 64 && cp == (a * 64 + b) * 64 + c
    ensures a == 0 ==> 32 <= b
    ensures a == 13 ==> b < 32
  {
    var q := cp / 64;
    a, b, c := q / 64, q % 64, cp % 64;
  }

  lemma TakenApart4(cp: nat) returns (a: nat, b: nat, c: nat, d: nat)
    requires IsScalar(cp) && 0x1_0000 <= cp
    ensures a < 5 && b < 64 && c < 64 && d < 64 && cp == ((a * 64 + b) * 64 + c) * 64 + d
    ensures a == 0 ==> 16 <= b
    ensures a == 4 ==> b < 16
  {
    var q := cp / 64;
    var p := q / 64;
    a, b, c, d := p / 64, p % 64, q % 64, cp % 64;
  }

  lemma Decode2(s: seq<Byte>, a: nat, b: nat)
    requires 2 <= a < 32 && b < 64 && |s| >= 2 && s[0] == 0xC0 + a && s[1] == 0x80 + b
    ensures Decode(s) == Scalar(2, a * 64 + b)
  {
    hide Decode, ShiftIn;
    DecodeByRow(s);
    ShiftIn2(s, a);
  }

  lemma Decode3(s: seq<Byte>, a: nat, b: nat, c: nat)
    requires a < 16 && b < 64 && c < 64 && |s| >= 3 && s[0] == 0xE0 + a && s[1] == 0x80 + b && s[2] == 0x80 + c
    requires a == 0 ==> 32 <= b
    requires a == 13 ==> b < 32
    ensures Decode(s) == Scalar(3, (a * 64 + b) * 64 + c)
  {
    hide Decode, ShiftIn;
    DecodeByRow(s);
    ShiftIn3(s, a);
  }

  lemma Decode4(s: seq<Byte>, a: nat, b: nat, c: nat, d: nat)
    requires a < 5 && b < 64 && c < 64 && d < 64 && |s| >= 4
    requires s[0] == 0xF0 + a && s[1] == 0x80 + b && s[2] == 0x80 + c && s[3] == 0x80 + d
    requires a == 0 ==> 16 <= b
    requires a == 4 ==> b < 16
    ensures Decode(s) == Scalar(4, ((a * 64 + b) * 64 + c) * 64 + d)
  {
    hide Decode, ShiftIn;
    DecodeByRow(s);
    ShiftIn4(s, a);
  }

  /** And the encoding of every scalar is accepted, whatever follows it. */
  lemma DecodeComplete(cp: nat, rest: seq<Byte>)
    requires IsScalar(cp)
    ensures Decode(Encode(cp) + rest) == Scalar(EncodedLength(cp), cp)
  {
    hide Encode, Decode, RowAdmits, ShiftIn;
    var s := Encode(cp) + rest;
    if cp < 0x80 {
      EncodeOne(cp);
      Decode1(s);
    } else if cp < 0x800 {
      var a, b := TakenApart2(cp);
      EncodeShifted2(a, b);
      Decode2(s, a, b);
    } else if cp < 0x1_0000 {
      var a, b, c := TakenApart3(cp);
      EncodeShifted3(a, b, c);
      Decode3(s, a, b, c);
    } else {
      var a, b, c, d := TakenApart4(cp);
      EncodeShifted4(a, b, c, d);
      Decode4(s, a, b, c, d);
    }
  }

  lemma Decode1(s: seq<Byte>)
    requires |s| >= 1 && s[0] < 0x80
    ensures Decode(s) == Scalar(1, s[0])
  {
  }

  /** Table 3-7 of section 3.9 of The Unicode Standard, row by row. */
  predicate InTable37(b: seq<Byte>) {
    || (|b| == 1 && b[0] <= 0x7F)
    || (|b| == 2 && 0xC2 <= b[0] <= 0xDF && 0x80 <= b[1] <= 0xBF)
    || (|b| == 3 && b[0] == 0xE0 && 0xA0 <= b[1] <= 0xBF && 0x80 <= b[2] <= 0xBF)
    || (|b| == 3 && 0xE1 <= b[0] <= 0xEC && 0x80 <= b[1] <= 0xBF && 0x80 <= b[2] <= 0xBF)
    || (|b| == 3 && b[0] == 0xED && 0x80 <= b[1] <= 0x9F && 0x80 <= b[2] <= 0xBF)
    || (|b| == 3 && 0xEE <= b[0] <= 0xEF && 0x80 <= b[1] <= 0xBF && 0x80 <= b[2] <= 0xBF)
    || (|b| == 4 && b[0] == 0xF0 && 0x90 <= b[1] <= 0xBF && 0x80 <= b[2] <= 0xBF && 0x80 <= b[3] <= 0xBF)
    || (|b| == 4 && 0xF1 <= b[0] <= 0xF3 && 0x80 <= b[1] <= 0xBF && 0x80 <= b[2] <= 0xBF && 0x80 <= b[3] <= 0xBF)
    || (|b| == 4 && b[0] == 0xF4 && 0x80 <= b[1] <= 0x8F && 0x80 <= b[2] <= 0xBF && 0x80 <= b[3] <= 0xBF)
  }

  /** A row of the table, the bytes of a scalar, and a sequence the decoder takes whole
      are the same thing. */
  lemma Table37IsTheEncodings(b: seq<Byte>)
    requires b != []
    ensures InTable37(b) <==> Decode(b).Scalar? && Decode(b).len == |b|
    ensures InTable37(b) <==> exists cp: nat | IsScalar(cp) :: b == Encode(cp)
  {
    if InTable37(b) {
      DecodeSound(b);
      assert b[..Decode(b).len] == b;
    }
    forall cp: nat | IsScalar(cp) && b == Encode(cp)
      ensures InTable37(b)
    {
      DecodeComplete(cp, []);
      assert Encode(cp) + [] == b;
    }
  }

  // ------------------------------------------------------------ whole texts

  /** The scalars of the longest well-formed prefix. */
  function DecodePrefix(s: seq<Byte>): seq<nat> {
    if s == [] then []
    else match Decode(s)
         case IllFormed => []
         case Scalar(k, cp) => [cp] + DecodePrefix(s[k..])
  }

  lemma {:induction false} DecodePrefixSound(s: seq<Byte>)
    ensures AllScalars(DecodePrefix(s))
    ensures EncodeAll(DecodePrefix(s)) <= s
    ensures var n := |EncodeAll(DecodePrefix(s))|;
            n < |s| ==> Decode(s[n..]) == IllFormed
  {
    hide Decode, Encode;
    if s != [] && Decode(s).Scalar? {
      var d := Decode(s);
      DecodeSound(s);
      DecodePrefixSound(s[d.len..]);
      var rest := EncodeAll(DecodePrefix(s[d.len..]));
      assert DecodePrefix(s)[1..] == DecodePrefix(s[d.len..]);
      assert s == s[..d.len] + s[d.len..];
      assert s[d.len..][|rest|..] == s[d.len + |rest|..];
    }
  }

  /** Encoding then decoding gives the scalars back and consumes everything. */
  lemma {:induction false} DecodeEncode(cps: seq<nat>)
    requires AllScalars(cps)
    ensures DecodePrefix(EncodeAll(cps)) == cps
  {
    if cps != [] {
      var s := EncodeAll(cps);
      DecodeComplete(cps[0], EncodeAll(cps[1..]));
      assert s[EncodedLength(cps[0])..] == EncodeAll(cps[1..]);
      DecodeEncode(cps[1..]);
    }
  }

  lemma EncodeAllInjective(a: seq<nat>, b: seq<nat>)
    requires AllScalars(a) && AllScalars(b)
    ensures EncodeAll(a) == EncodeAll(b) ==> a == b
  {
    DecodeEncode(a);
    DecodeEncode(b);
  }

  predicate WellFormed(s: seq<Byte>) {
    DecodePrefixSound(s);
    EncodeAll(DecodePrefix(s)) == s
  }

  /** A text is well-formed exactly when it encodes some sequence of scalars, which is then unique. */
  lemma WellFormedMeansEncoding(s: seq<Byte>, cps: seq<nat>)
    requires AllScalars(cps)
    ensures s == EncodeAll(cps) <==> WellFormed(s) && cps == DecodePrefix(s)
  {
    DecodeEncode(cps);
    DecodePrefixSound(s);
  }

  /** One decoding step from the middle of a text. */
  lemma DecodePrefixStep(u: seq<Byte>, i: nat, before: seq<nat>)
    requires i < |u| && AllScalars(before) && u[..i] == EncodeAll(before)
    ensures Decode(u[i..]).Scalar? ==>
              var d := Decode(u[i..]);
              AllScalars(before + [d.cp]) && i + d.len <= |u| && u[..i + d.len] == EncodeAll(before + [d.cp])
  {
    if Decode(u[i..]).Scalar? {
      var d := Decode(u[i..]);
      DecodeSound(u[i..]);
      assert EncodeAll([d.cp]) == Encode(d.cp);
      EncodeAllConcat(before, [d.cp]);
      assert u[..i + d.len] == u[..i] + u[i..][..d.len];
    }
  }

  /** What has been decoded so far is what `DecodePrefix` begins with. */
  lemma {:induction false} DecodePrefixSplit(before: seq<nat>, after: seq<Byte>)
    requires AllScalars(before)
    ensures DecodePrefix(EncodeAll(before) + after) == before + DecodePrefix(after)
  {
    hide Encode, Decode, IsScalar;
    if before == [] {
      assert EncodeAll(before) + after == after;
    } else {
      var head, tail := Encode(before[0]), EncodeAll(before[1..]);
      var u := head + (tail + after);
      assert EncodeAll(before) + after == u;
      DecodeComplete(before[0], tail + after);
      assert u[|head|..] == tail + after;
      DecodePrefixSplit(before[1..], after);
    }
  }

  lemma NothingDecoded(s: seq<Byte>)
    requires s != [] && Decode(s) == IllFormed
    ensures DecodePrefix(s) == []
  {
  }

  /** `pas_text_validate`: -1 for a well-formed text, else where the first ill-formed sequence starts. */
  method Validate(u: seq<Byte>) returns (r: int)
    ensures r == -1 <==> WellFormed(u)
    ensures r != -1 ==> 0 <= r < |u| && r == |EncodeAll(ValidPrefix(u))|
    ensures r != -1 ==> WellFormed(u[..r]) && Decode(u[r..]) == IllFormed
  {
    hide Decode, Encode, IsScalar, DecodePrefix;
    var i := 0;
    ghost var before: seq<nat> := [];
    DecodePrefixSound(u);
    while i < |u|
      invariant i <= |u| && AllScalars(before) && u[..i] == EncodeAll(before)
      decreases |u| - i
    {
      DecodePrefixSplit(before, u[i..]);
      assert u == u[..i] + u[i..];
      var k, cp := U8Dec(u, i);
      if k == 0 {
        NothingDecoded(u[i..]);
        assert DecodePrefix(u) == before + [] == before;
        WellFormedMeansEncoding(u[..i], before);
        return i;
      }
      DecodePrefixStep(u, i, before);
      before := before + [cp];
      i := i + k;
    }
    assert u[..i] == u;
    WellFormedMeansEncoding(u, before);
    r := -1;
  }

  /** The decoded prefix, known to be scalars. */
  function ValidPrefix(s: seq<Byte>): (cps: seq<nat>)
    ensures AllScalars(cps)
  {
    DecodePrefixSound(s);
    DecodePrefix(s)
  }

  // ------------------------------------------------- encoding into a buffer

  /** `u8enc`: the bytes of `cp` into `dst` at `at`, and nothing else changed. */
  method U8Enc(cp: nat, dst: array<Byte>, at: nat) returns (k: nat)
    requires IsScalar(cp) && at + EncodedLength(cp) <= dst.Length
    modifies dst
    ensures k == EncodedLength(cp)
    ensures dst[..at + k] == old(dst[..at]) + Encode(cp)
    ensures dst[at + k..] == old(dst[at + k..])
  {
    k := EncodedLength(cp);
    if k == 1 {
      dst[at] := cp;
    } else if k == 2 {
      dst[at] := 0xC0 + cp / 64;
      dst[at + 1] := 0x80 + cp % 64;
    } else if k == 3 {
      dst[at] := 0xE0 + cp / 4096;
      dst[at + 1] := 0x80 + cp / 64 % 64;
      dst[at + 2] := 0x80 + cp % 64;
    } else {
      dst[at] := 0xF0 + cp / 26_2144;
      dst[at + 1] := 0x80 + cp / 4096 % 64;
      dst[at + 2] := 0x80 + cp / 64 % 64;
      dst[at + 3] := 0x80 + cp % 64;
    }
  }
}
