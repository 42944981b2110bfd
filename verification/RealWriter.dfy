/** Writing a real (pas_round_half_up and pas_write_real of runtime/pasrt.c), from the exact decimal
    expansion of its absolute value. */
module RealWriter {
  import opened NumberSyntax

  const PAS_EXACT_FRAC := 1074
  const PAS_REALBUF := 1450
  const PAS_EXACT_SIG := 767

  function Pow10(n: nat): (p: nat)
    ensures p > 0
  {
    if n == 0 then 1 else 10 * Pow10(n - 1)
  }

  predicate AreDigits(s: Text) { forall i | 0 <= i < |s| :: IsDigit(s[i]) }

  /** r is n / 10^m to the nearest whole number, a half going away from zero: what adding half a
      unit and truncating gives (sections 6.10.3.4.1 and 6.10.3.4.2 of ISO/IEC 10206). */
  predicate Nearest(n: nat, m: nat, r: nat) {
    var unit := Pow10(m);
    2 * (r * unit) <= 2 * n + unit < 2 * (r * unit) + 2 * unit
  }

  lemma NearestIsTruncatedHalfUp(n: nat, m: nat, r: nat)
    ensures Nearest(n, m, r) <==> r == (2 * n + Pow10(m)) / (2 * Pow10(m))
  {
    var unit := Pow10(m);
    assert 2 * (r * unit) == r * (2 * unit);
    DivIs(2 * n + unit, 2 * unit, r);
  }

  lemma DivIs(a: nat, b: nat, q: nat)
    requires b > 0
    ensures q == a / b <==> q * b <= a < q * b + b
  {
    var d := a / b;
    assert a == d * b + a % b;
    if q < d { assert (q + 1) * b <= d * b; }
    if q > d { assert (d + 1) * b <= q * b; }
  }

  // ------------------------------------------------------------ digit strings

  lemma Scale(a: nat, b: nat, p: nat)
    ensures (10 * a + b) * p == 10 * (a * p) + b * p && a * (10 * p) == 10 * (a * p)
  {
  }

  lemma ValuePush(s: Text, c: char)
    ensures Value(s + [c]) == 10 * Value(s) + DigitValue(c)
  {
    assert (s + [c])[..|s|] == s;
  }

  lemma Pow10Next(n: nat)
    ensures Pow10(0) == 1 && Pow10(n + 1) == 10 * Pow10(n)
  {
  }

  lemma {:induction false} ValueAppend(a: Text, b: Text)
    ensures Value(a + b) == Value(a) * Pow10(|b|) + Value(b)
  {
    hide Value, Pow10;
    Pow10Next(0);
    if b == [] {
      assert a + b == a;
      ValueEmpty();
    } else {
      var c, x := b[..|b| - 1], b[|b| - 1];
      assert b == c + [x] && a + b == (a + c) + [x];
      ValueAppend(a, c);
      ValuePush(c, x);
      ValuePush(a + c, x);
      Pow10Next(|c|);
      Scale(Value(a), 0, Pow10(|c|));
    }
  }

  lemma ValueEmpty()
    ensures Value([]) == 0
  {
  }

  lemma {:induction false} ValueBound(s: Text)
    ensures Value(s) < Pow10(|s|)
  {
    if s != [] { ValueBound(s[..|s| - 1]); }
  }

  lemma ValueOne(c: char)
    ensures Value([c]) == DigitValue(c)
  {
    assert [c][..0] == [];
  }

  lemma HalfOf(d: nat, rest: nat, p: nat)
    requires rest < p
    ensures d >= 5 <==> 2 * (d * p + rest) >= 10 * p
  {
    if d >= 5 { assert d * p >= 5 * p; } else { assert d * p <= 4 * p; }
  }

  /** All that decides is the first digit discarded. */
  lemma FirstDigitDecides(t: Text)
    requires t != []
    ensures DigitValue(t[0]) >= 5 <==> 2 * Value(t) >= Pow10(|t|)
  {
    hide Value, Pow10;
    var rest := t[1..];
    assert t == [t[0]] + rest;
    ValueAppend([t[0]], rest);
    ValueOne(t[0]);
    ValueBound(rest);
    Pow10Next(|rest|);
    HalfOf(DigitValue(t[0]), Value(rest), Pow10(|rest|));
  }

  lemma NearestByHalf(a: nat, b: nat, m: nat)
    requires b < Pow10(m)
    ensures Nearest(a * Pow10(m) + b, m, a + if 2 * b >= Pow10(m) then 1 else 0)
  {
    var unit := Pow10(m);
    assert (a + 1) * unit == a * unit + unit;
  }

  /** Deciding on one digit is adding half a unit to the whole expansion and truncating. */
  lemma OneDigitRounds(d: Text, keep: nat)
    requires keep < |d|
    ensures Nearest(Value(d), |d| - keep, Value(d[..keep]) + if DigitValue(d[keep]) >= 5 then 1 else 0)
  {
    hide Value, Pow10, Nearest;
    var a, b := d[..keep], d[keep..];
    assert d == a + b;
    ValueAppend(a, b);
    ValueBound(b);
    FirstDigitDecides(b);
    NearestByHalf(Value(a), Value(b), |b|);
  }

  lemma {:induction false} ValueZeros(s: Text)
    requires forall i | 0 <= i < |s| :: s[i] == '0'
    ensures Value(s) == 0
  {
    if s != [] { ValueZeros(s[..|s| - 1]); }
  }

  lemma {:induction false} ValueNines(s: Text)
    requires forall i | 0 <= i < |s| :: s[i] == '9'
    ensures Value(s) + 1 == Pow10(|s|)
  {
    if s != [] { ValueNines(s[..|s| - 1]); }
  }

  lemma {:induction false} ValueZeroIsZeros(s: Text)
    requires AreDigits(s)
    ensures Value(s) == 0 <==> forall i | 0 <= i < |s| :: s[i] == '0'
  {
    if s != [] { ValueZeroIsZeros(s[..|s| - 1]); }
  }

  /** The digit before a run of nines goes up by one and the run becomes noughts. */
  lemma Incremented(a: Text, c: char, nines: Text, up: char, zeros: Text)
    requires |nines| == |zeros|
    requires forall i | 0 <= i < |nines| :: nines[i] == '9' && zeros[i] == '0'
    requires IsDigit(c) && c != '9' && up as int == c as int + 1
    ensures Value(a + [up] + zeros) == Value(a + [c] + nines) + 1
  {
    hide Value, Pow10;
    ValueAppend(a + [up], zeros);
    ValueAppend(a + [c], nines);
    ValuePush(a, up);
    ValuePush(a, c);
    ValueZeros(zeros);
    ValueNines(nines);
    Distribute(Value(a + [c]), Pow10(|nines|));
  }

  lemma Distribute(x: nat, p: nat)
    ensures (x + 1) * p == x * p + p
  {
  }

  // ----------------------------------------------------------------- rounding

  /** pas_round_half_up: the n digits at `off` of buf, rounded in place to the first `keep`. */
  method RoundHalfUp(buf: array<char>, off: nat, n: nat, keep: nat) returns (carried: bool)
    requires off + n <= buf.Length && AreDigits(buf[off..off + n])
    modifies buf
    ensures keep >= n ==> !carried && buf[..] == old(buf[..])
    ensures keep < n ==>
              && AreDigits(buf[off..off + keep])
              && Nearest(Value(old(buf[off..off + n])), n - keep,
                         Value(buf[off..off + keep]) + if carried then Pow10(keep) else 0)
              && (carried ==> forall k | off <= k < off + keep :: buf[k] == '0' && old(buf[k]) == '9')
    ensures forall k | 0 <= k < buf.Length && !(off <= k <= off + keep) :: buf[k] == old(buf[k])
  {
    if keep >= n { return false; }
    hide Value, Pow10, Nearest;
    ghost var d := buf[off..off + n];
    OneDigitRounds(d, keep);
    Prefix(d, keep);
    assert d[keep] == buf[off + keep] && buf[off..off + keep] == d[..keep];
    if buf[off + keep] < '5' {
      buf[off + keep] := '\0';
      assert buf[off..off + keep] == d[..keep];
      return false;
    }
    carried := AddUnit(buf, off, keep);
    ghost var e := buf[off..off + keep];
    buf[off + keep] := '\0';
    assert buf[off..off + keep] == e;
  }

  /** The loop of pas_round_half_up: one is added to the first `keep` digits. */
  method AddUnit(buf: array<char>, off: nat, keep: nat) returns (carried: bool)
    requires off + keep <= buf.Length && AreDigits(buf[off..off + keep])
    modifies buf
    ensures AreDigits(buf[off..off + keep])
    ensures Value(buf[off..off + keep]) + (if carried then Pow10(keep) else 0) == Value(old(buf[off..off + keep])) + 1
    ensures carried ==> forall k | off <= k < off + keep :: buf[k] == '0' && old(buf[k]) == '9'
    ensures forall k | 0 <= k < buf.Length && !(off <= k < off + keep) :: buf[k] == old(buf[k])
  {
    hide Value, Pow10;
    ghost var d := buf[off..off + keep];
    var i: int := off + keep - 1;
    while i >= off
      invariant off - 1 <= i < off + keep
      invariant forall k | 0 <= k < buf.Length && !(i < k < off + keep) :: buf[k] == old(buf[k])
      invariant forall k | i < k < off + keep :: buf[k] == '0'
      invariant forall k | i < k < off + keep :: old(buf[k]) == '9'
    {
      if buf[i] != '9' {
        assert buf[i] == d[i - off] && IsDigit(d[i - off]);
        buf[i] := (buf[i] as int + 1) as char;
        CarryStops(d, buf[off..off + keep], i - off);
        return false;
      }
      buf[i] := '0';
      i := i - 1;
    }
    ValueNines(d);
    ValueZeros(buf[off..off + keep]);
    return true;
  }

  lemma Prefix(d: Text, k: nat)
    requires k <= |d| && AreDigits(d)
    ensures AreDigits(d[..k])
  {
  }

  /** d and e agree before i; there the digit goes up, and after it nines became noughts. */
  lemma CarryStops(d: Text, e: Text, i: nat)
    requires i < |d| == |e| && AreDigits(d) && d[i] != '9' && e[i] as int == d[i] as int + 1
    requires forall k | 0 <= k < i :: d[k] == e[k]
    requires forall k | i < k < |d| :: d[k] == '9' && e[k] == '0'
    ensures AreDigits(e) && Value(e) == Value(d) + 1
  {
    hide Value;
    assert d == d[..i] + [d[i]] + d[i + 1..];
    assert e == d[..i] + [e[i]] + e[i + 1..];
    Incremented(d[..i], d[i], d[i + 1..], e[i], e[i + 1..]);
  }

  // -------------------------------------------------------- the written forms

  function Max(a: int, b: int): int { if a < b then b else a }

  predicate AreSpaces(s: Text) { forall i | 0 <= i < |s| :: s[i] == ' ' }

  /** The characters of s from `at` on, as snprintf leaves them. */
  method CopyIn(buf: array<char>, at: nat, s: Text)
    requires at + |s| <= buf.Length
    modifies buf
    ensures buf[at..at + |s|] == s
    ensures forall k | 0 <= k < buf.Length && !(at <= k < at + |s|) :: buf[k] == old(buf[k])
  {
    for i := 0 to |s|
      invariant buf[at..at + i] == s[..i]
      invariant forall k | 0 <= k < buf.Length && !(at <= k < at + i) :: buf[k] == old(buf[k])
    {
      buf[at + i] := s[i];
      assert buf[at..at + i + 1] == buf[at..at + i] + [s[i]];
    }
  }

  /** pas_digits_all_zero. */
  method AllZero(s: Text) returns (zero: bool)
    requires AreDigits(s)
    ensures zero <==> Value(s) == 0
  {
    ValueZeroIsZeros(s);
    for i := 0 to |s|
      invariant forall k | 0 <= k < i :: s[k] == '0'
    {
      if s[i] != '0' { return false; }
    }
    return true;
  }

  /** The value in section 6.10.3.4.2's form: IntDigits digits without a leading nought unless it is
      the only one, the point, FracDigits digits. */
  predicate FixedForm(sign: Text, ip: Text, fp: Text, negative: bool, n: nat, places: nat, prec: nat) {
    && AreDigits(ip + fp) && |fp| == prec <= places
    && ip != [] && (|ip| > 1 ==> ip[0] != '0')
    && Nearest(n, places - prec, Value(ip + fp))
    && sign == if negative && Value(ip + fp) > 0 then ['-'] else []
  }

  lemma {:induction false} LeadingZeros(s: Text, k: nat)
    requires k <= |s| && forall i | 0 <= i < k :: s[i] == '0'
    ensures Value(s[k..]) == Value(s)
  {
    hide Value;
    assert s == s[..k] + s[k..];
    ValueAppend(s[..k], s[k..]);
    ValueZeros(s[..k]);
  }

  /** The digits of the fixed-point form. The spare nought in front takes a carry out of the top, so
      that rounding never reports one. */
  method RoundFixed(integer: Text, fraction: Text, prec: nat) returns (ip: Text, fp: Text)
    requires integer != [] && AreDigits(integer) && AreDigits(fraction)
    requires |fraction| == Max(prec + 1, PAS_EXACT_FRAC) && 1 + |integer| + 1 + |fraction| + 1 <= PAS_REALBUF
    ensures AreDigits(ip + fp) && |fp| == prec && ip != [] && (|ip| > 1 ==> ip[0] != '0')
    ensures Nearest(Value(integer + fraction), |fraction| - prec, Value(ip + fp))
  {
    hide Value, Nearest, Pow10;
    var all := ['0'] + integer + fraction;
    var buf := new char[PAS_REALBUF];
    var ilen := 1 + |integer|;
    CopyIn(buf, 0, all);
    assert buf[0..|all|] == all;
    LeadingZeros(all, 1);
    assert all[1..] == integer + fraction;
    assert buf[0] == all[0];
    var carried := RoundHalfUp(buf, 0, |all|, ilen + prec);
    assert !carried;
    var d := buf[0..ilen + prec];
    var k := 0;
    while ilen - k > 1 && d[k] == '0'
      invariant 0 <= k < ilen
      invariant forall i | 0 <= i < k :: d[i] == '0'
    {
      k := k + 1;
    }
    ip, fp := d[k..ilen], d[ilen..];
    assert ip + fp == d[k..];
    LeadingZeros(d, k);
  }

  /** `chars` at the end of max(width, |chars|) characters, spaces in front. */
  predicate Padded(out: Text, chars: Text, width: int) {
    && |out| == Max(width, |chars|) && out[|out| - |chars|..] == chars && AreSpaces(out[..|out| - |chars|])
  }

  /** What section 6.10.3.4.2 asks to be written of n / 10^places. */
  ghost predicate WrittenFixed(out: Text, negative: bool, n: nat, places: nat, width: int, prec: nat) {
    exists sign, ip, fp ::
      FixedForm(sign, ip, fp, negative, n, places, prec) && Padded(out, sign + ip + ['.'] + fp, width)
  }

  /** pas_write_real with FracDigits: TotalWidth characters, or as many as the value takes. */
  method WriteFixed(negative: bool, integer: Text, fraction: Text, width: int, prec: nat) returns (out: Text)
    requires integer != [] && AreDigits(integer) && AreDigits(fraction)
    requires |fraction| == Max(prec + 1, PAS_EXACT_FRAC) && 1 + |integer| + 1 + |fraction| + 1 <= PAS_REALBUF
    ensures WrittenFixed(out, negative, Value(integer + fraction), |fraction|, width, prec)
  {
    hide Value, Nearest;
    var i, f := RoundFixed(integer, fraction, prec);
    var zero := AllZero(i + f);
    var minus := negative && !zero;
    var minChars := |i| + prec + 1 + if minus then 1 else 0;
    out := [];
    var pad := width - minChars;
    while pad > 0
      invariant |out| == Max(width - minChars, 0) - Max(pad, 0)
      invariant AreSpaces(out)
    {
      out := out + [' '];
      pad := pad - 1;
    }
    ghost var sign := if minus then ['-'] else [];
    ghost var chars := sign + i + ['.'] + f;
    ghost var spaces := out;
    if minus { out := out + ['-']; }
    out := out + i + ['.'] + f;
    assert out == spaces + chars;
    assert out[..|spaces|] == spaces;
    assert FixedForm(sign, i, f, negative, Value(integer + fraction), |fraction|, prec);
    assert Padded(out, chars, width);
  }

  // ------------------------------- the clause leaves one thing to be written

  lemma {:induction false} SameDigits(a: Text, b: Text)
    requires |a| == |b| && AreDigits(a) && AreDigits(b) && Value(a) == Value(b)
    ensures a == b
  {
    hide Value;
    if a != [] {
      var n := |a| - 1;
      var x, y := a[..n], b[..n];
      assert a == x + [a[n]] && b == y + [b[n]];
      ValuePush(x, a[n]);
      ValuePush(y, b[n]);
      SameDigits(x, y);
    }
  }

  lemma NearestUnique(n: nat, m: nat, r: nat, q: nat)
    requires Nearest(n, m, r) && Nearest(n, m, q)
    ensures r == q
  {
    NearestIsTruncatedHalfUp(n, m, r);
    NearestIsTruncatedHalfUp(n, m, q);
  }

  /** Digits without a leading nought are as many as the value needs. */
  lemma NoShorter(a: Text, b: Text)
    requires AreDigits(a) && AreDigits(b) && Value(a) == Value(b) && |a| < |b|
    ensures b[0] == '0'
  {
    hide Value, Pow10;
    FirstDigitSize(b);
    ValueBound(a);
    PowGrows(|a|, |b| - 1);
  }

  lemma {:induction false} PowGrows(a: nat, b: nat)
    requires a <= b
    ensures Pow10(a) <= Pow10(b)
  {
    if a < b { PowGrows(a, b - 1); }
  }

  lemma FirstDigitSize(s: Text)
    requires s != [] && AreDigits(s)
    ensures s[0] == '0' <==> Value(s) < Pow10(|s| - 1)
  {
    hide Value, Pow10;
    assert s == [s[0]] + s[1..];
    ValueAppend([s[0]], s[1..]);
    ValueOne(s[0]);
    ValueBound(s[1..]);
    AtLeast(DigitValue(s[0]), Pow10(|s| - 1));
  }

  lemma AtLeast(d: nat, p: nat)
    ensures d > 0 ==> d * p >= p
    ensures d == 0 ==> d * p == 0
  {
  }

  /** Two outputs that both are what the clause asks for are the same. */
  lemma FixedIsDetermined(out: Text, out': Text, negative: bool, n: nat, places: nat, width: int, prec: nat)
    requires WrittenFixed(out, negative, n, places, width, prec) && WrittenFixed(out', negative, n, places, width, prec)
    ensures out == out'
  {
    hide Value, Nearest, AreDigits;
    var sign, ip, fp :| FixedForm(sign, ip, fp, negative, n, places, prec) && Padded(out, sign + ip + ['.'] + fp, width);
    var sign', ip', fp' :|
      FixedForm(sign', ip', fp', negative, n, places, prec) && Padded(out', sign' + ip' + ['.'] + fp', width);
    FormIsDetermined(sign, ip, fp, sign', ip', fp', negative, n, places, prec);
    var chars := sign + ip + ['.'] + fp;
    var k := |out| - |chars|;
    assert out == out[..k] + out[k..] && out' == out'[..k] + out'[k..];
    assert out[..k] == out'[..k];
  }

  lemma FormIsDetermined(sign: Text, ip: Text, fp: Text, sign': Text, ip': Text, fp': Text,
                         negative: bool, n: nat, places: nat, prec: nat)
    requires FixedForm(sign, ip, fp, negative, n, places, prec) && FixedForm(sign', ip', fp', negative, n, places, prec)
    ensures sign == sign' && ip == ip' && fp == fp'
  {
    hide Value, Nearest, AreDigits;
    var a, b := ip + fp, ip' + fp';
    NearestUnique(n, places - prec, Value(a), Value(b));
    assert a[0] == ip[0] && b[0] == ip'[0];
    if |a| < |b| { NoShorter(a, b); }
    if |b| < |a| { NoShorter(b, a); }
    SameDigits(a, b);
    assert ip == a[..|ip|] && fp == a[|ip|..];
    assert ip' == b[..|ip'|] && fp' == b[|ip'|..];
  }

  function Abs(x: int): nat { if x < 0 then -x else x }

  /** The digits an exponent takes: two, or three from a hundred on. */
  function ExpDigits(e: int): (k: nat)
    ensures 2 <= k <= 3
  {
    if e >= 100 || e <= -100 then 3 else 2
  }

  /** With no width the representation has twelve decimal places; it has one at least. */
  function ActWidth(width: int, expDigits: nat): int {
    Max(if width < 0 then expDigits + 17 else width, expDigits + 6)
  }

  function DecPlaces(width: int, e: int): (k: nat)
    ensures k >= 1
  {
    ActWidth(width, ExpDigits(e)) - ExpDigits(e) - 5
  }

  /** `%0*d` of a number that w digits can hold. */
  function Decimal(n: nat, w: nat): (s: Text)
    ensures |s| == w && AreDigits(s)
  {
    if w == 0 then [] else Decimal(n / 10, w - 1) + [('0' as int + n % 10) as char]
  }

  lemma {:induction false} DecimalValue(n: nat, w: nat)
    requires n < Pow10(w)
    ensures Value(Decimal(n, w)) == n
  {
    hide Value, Pow10;
    if w == 0 {
      Pow10Next(0);
      ValueEmpty();
    } else {
      Pow10Next(w - 1);
      TenthBelow(n, Pow10(w - 1));
      DecimalValue(n / 10, w - 1);
      ValuePush(Decimal(n / 10, w - 1), ('0' as int + n % 10) as char);
    }
  }

  lemma TenthBelow(n: nat, p: nat)
    requires n < 10 * p
    ensures n / 10 < p && n == 10 * (n / 10) + n % 10
  {
  }

  /** Section 6.10.3.4.1's form: one digit, the point, DecPlaces digits, which times 10^shift are
      the value's `places` + 1 digits rounded; `shift` is 1 when rounding went up a decade. */
  predicate FloatForm(m: Text, n: nat, places: nat, dec: nat, shift: nat) {
    && AreDigits(m) && |m| == 1 + dec && dec <= places && shift <= 1
    && (n > 0 ==> m[0] != '0')
    && Nearest(n, places - dec, Value(m) * if shift == 1 then 10 else 1)
    && (shift == 1 ==> m[0] == '1' && forall i | 0 < i < |m| :: m[i] == '0')
  }

  lemma {:induction false} ValueOfUnit(m: Text)
    requires m != [] && m[0] == '1' && forall i | 0 < i < |m| :: m[i] == '0'
    ensures Value(m) == Pow10(|m| - 1)
  {
    assert m == [m[0]] + m[1..];
    ValueAppend([m[0]], m[1..]);
    ValueOne(m[0]);
    ValueZeros(m[1..]);
  }

  /** Rounding up keeps a leading digit that is not a nought. */
  lemma LeadingStays(n: nat, sig: Text, m: Text, keep: nat)
    requires 0 < keep < |sig| && |m| == keep && AreDigits(m) && AreDigits(sig)
    requires n == Value(sig) && sig[0] != '0' && Nearest(n, |sig| - keep, Value(m))
    ensures m[0] != '0'
  {
    hide Value, Pow10;
    var top := Pow10(keep - 1);
    FirstDigitSize(sig);
    FirstDigitSize(m);
    PowSplit(keep - 1, |sig| - keep);
    NotBelow(n, |sig| - keep, Value(m), top);
  }

  lemma NotBelow(n: nat, m: nat, r: nat, top: nat)
    ensures n >= top * Pow10(m) && Nearest(n, m, r) ==> r >= top
  {
    var unit := Pow10(m);
    if r < top {
      assert (r + 1) * unit <= top * unit;
      assert (r + 1) * unit == r * unit + unit;
    }
  }

  lemma {:induction false} PowSplit(a: nat, b: nat)
    ensures Pow10(a + b) == Pow10(a) * Pow10(b)
  {
    if b > 0 {
      PowSplit(a, b - 1);
      Scale(Pow10(a), 0, Pow10(b - 1));
    }
  }

  /** The significant digits of the floating-point form. Here the spare place is outside what is
      rounded: a carry is reported, and moves the exponent. */
  method RoundFloat(sig: Text, dec: nat) returns (m: Text, carried: bool)
    requires |sig| == 1 + PAS_EXACT_SIG && AreDigits(sig) && (Value(sig) > 0 ==> sig[0] != '0')
    requires dec <= PAS_EXACT_SIG
    ensures FloatForm(m, Value(sig), PAS_EXACT_SIG, dec, if carried then 1 else 0)
  {
    hide Value, Nearest, Pow10;
    var buf := new char[PAS_EXACT_SIG + 16];
    buf[0] := '0';
    CopyIn(buf, 1, sig);
    var keep := 1 + dec;
    ghost var before := buf[1..1 + |sig|];
    carried := RoundHalfUp(buf, 1, |sig|, keep);
    ghost var d := buf[1..1 + keep];
    if carried {
      buf[0] := '1';
      m := buf[0..1 + dec];
      assert forall i | 0 < i < |m| :: m[i] == buf[i];
      ValueZeros(d);
      ValueOfUnit(m);
      Pow10Next(dec);
    } else {
      m := buf[1..2 + dec];
      assert m == d;
      NotCarried(sig, m, keep);
    }
  }

  lemma NotCarried(sig: Text, m: Text, keep: nat)
    requires |sig| == 1 + PAS_EXACT_SIG && AreDigits(sig) && (Value(sig) > 0 ==> sig[0] != '0')
    requires 0 < keep <= |sig| == 1 + PAS_EXACT_SIG && |m| == keep && AreDigits(m)
    requires if keep == |sig| then m == sig else Nearest(Value(sig), |sig| - keep, Value(m))
    ensures FloatForm(m, Value(sig), PAS_EXACT_SIG, keep - 1, 0)
  {
    hide Value;
    if keep < |sig| && Value(sig) > 0 { LeadingStays(Value(sig), sig, m, keep); }
  }

  /** What section 6.10.3.4.1 asks to be written of n / 10^places times 10^e, `written` being the
      exponent after rounding: the sign or a space, a digit, the point, DecPlaces digits, and the
      exponent's sign and digits. */
  predicate FloatText(out: Text, m: Text, written: int, negative: bool, e: int) {
    var k := if e == 99 && written == 100 then 3 else ExpDigits(e);
    && m != [] && k <= |out|
    && out == [if negative && Value(m) > 0 then '-' else ' '] + [m[0]] + ['.'] + m[1..]
              + ['E'] + [if written < 0 then '-' else '+'] + out[|out| - k..]
    && AreDigits(out[|out| - k..]) && Value(out[|out| - k..]) == Abs(written)
  }

  ghost predicate WrittenFloat(out: Text, negative: bool, n: nat, e: int, width: int) {
    exists m, up: bool :: FloatRounded(m, n, e, width, up) && FloatText(out, m, if up then e + 1 else e, negative, e)
  }

  predicate FloatRounded(m: Text, n: nat, e: int, width: int, up: bool) {
    FloatForm(m, n, PAS_EXACT_SIG, DecPlaces(width, e), if up then 1 else 0)
  }

  /** pas_write_real without FracDigits: ActWidth characters, one more only when rounding turns the
      exponent 99 into 100. */
  method WriteFloat(negative: bool, sig: Text, e: int, width: int) returns (out: Text)
    requires |sig| == 1 + PAS_EXACT_SIG && AreDigits(sig) && (Value(sig) > 0 ==> sig[0] != '0')
    requires -999 < e < 999 && (Value(sig) == 0 ==> e == 0)
    requires DecPlaces(width, e) <= PAS_EXACT_SIG
    ensures WrittenFloat(out, negative, Value(sig), e, width)
    ensures |out| == ActWidth(width, ExpDigits(e)) || (e == 99 && |out| == ActWidth(width, ExpDigits(e)) + 1)
  {
    hide Value, Nearest, AreDigits, Decimal, Pow10;
    var expDigits, expValue := ExpDigits(e), e;
    var decPlaces := DecPlaces(width, e);
    var dig, carried := RoundFloat(sig, decPlaces);
    if carried {
      expValue := expValue + 1;
      if expValue >= 100 || expValue <= -100 { expDigits := 3; }
    }
    var zero := AllZero(dig);
    out := [if negative && !zero then '-' else ' '] + [dig[0]] + ['.'] + dig[1..]
           + ['E'] + [if expValue < 0 then '-' else '+'];
    var exponent := Decimal(Abs(expValue), expDigits);
    out := out + exponent;
    ExponentFits(expValue, expDigits);
    DecimalValue(Abs(expValue), expDigits);
    assert out[|out| - expDigits..] == exponent;
    assert FloatRounded(dig, Value(sig), e, width, carried) && FloatText(out, dig, expValue, negative, e);
  }

  /** The extra character appears exactly when the digits carry at exponent 99. */
  lemma FloatWidth(out: Text, negative: bool, n: nat, e: int, width: int, m: Text, up: bool)
    requires FloatRounded(m, n, e, width, up) && FloatText(out, m, if up then e + 1 else e, negative, e)
    ensures |out| == ActWidth(width, ExpDigits(e)) + if e == 99 && up then 1 else 0
  {
    hide Value, Nearest, AreDigits;
  }

  /** TotalWidth, told in characters: a width that the least representation fits is kept, a smaller one
      gives the least, which has one decimal place, and none gives twelve; the point and the mark of
      the exponent are where that puts them. There is one character more exactly when the digits carry
      at exponent 99. */
  lemma TotalWidthKept(out: Text, negative: bool, n: nat, e: int, width: int)
    requires WrittenFloat(out, negative, n, e, width)
    ensures var expDigits := if -100 < e < 100 then 2 else 3;
            var total := if width < 0 then expDigits + 17 else if width < expDigits + 6 then expDigits + 6 else width;
            var carries := e == 99 && exists m :: FloatRounded(m, n, e, width, true);
            && |out| == total + (if carries then 1 else 0)
            && out[2] == '.' && out[total - expDigits - 2] == 'E'
            && (width < 0 ==> total - expDigits - 2 == 3 + 12)
            && (0 <= width <= expDigits + 6 ==> total - expDigits - 2 == 3 + 1)
  {
    hide Value, Nearest, AreDigits;
    var m, up: bool :| FloatRounded(m, n, e, width, up) && FloatText(out, m, if up then e + 1 else e, negative, e);
    FloatWidth(out, negative, n, e, width, m, up);
    if m' :| FloatRounded(m', n, e, width, true) {
      DigitsAreDetermined(m, m', n, PAS_EXACT_SIG, DecPlaces(width, e), if up then 1 else 0, 1);
    }
    assert |m| == 1 + DecPlaces(width, e);
  }

  /** Whether rounding went up a decade is settled by the value, and with it the digits. */
  lemma DigitsAreDetermined(m: Text, m': Text, n: nat, places: nat, dec: nat, shift: nat, shift': nat)
    requires FloatForm(m, n, places, dec, shift) && FloatForm(m', n, places, dec, shift')
    ensures m == m' && shift == shift'
  {
    hide Value, Nearest, AreDigits, Pow10;
    NearestUnique(n, places - dec, Value(m) * if shift == 1 then 10 else 1, Value(m') * if shift' == 1 then 10 else 1);
    ValueBound(m);
    ValueBound(m');
    if shift != shift' {
      ValueOfUnit(if shift == 1 then m else m');
      Pow10Next(dec);
    } else {
      SameDigits(m, m');
    }
  }

  /** Two outputs that both are what the clause asks for of one value, exponent and width are the same. */
  lemma FloatIsDetermined(out: Text, out': Text, negative: bool, n: nat, e: int, width: int)
    requires WrittenFloat(out, negative, n, e, width) && WrittenFloat(out', negative, n, e, width)
    ensures out == out'
  {
    hide Value, Nearest, AreDigits, FloatForm, FloatText, DecPlaces;
    var m, up: bool :| FloatRounded(m, n, e, width, up) && FloatText(out, m, if up then e + 1 else e, negative, e);
    var m', up': bool :|
      FloatRounded(m', n, e, width, up') && FloatText(out', m', if up' then e + 1 else e, negative, e);
    DigitsAreDetermined(m, m', n, PAS_EXACT_SIG, DecPlaces(width, e), if up then 1 else 0, if up' then 1 else 0);
    TextIsDetermined(out, out', m, if up then e + 1 else e, negative, e);
  }

  lemma TextIsDetermined(out: Text, out': Text, m: Text, written: int, negative: bool, e: int)
    requires FloatText(out, m, written, negative, e) && FloatText(out', m, written, negative, e)
    ensures out == out'
  {
    hide Value, AreDigits;
    var k := if e == 99 && written == 100 then 3 else ExpDigits(e);
    SameDigits(out[|out| - k..], out'[|out'| - k..]);
  }

  lemma ExponentFits(e: int, k: nat)
    requires -999 <= e <= 999 && 2 <= k <= 3 && (k == 2 ==> -100 < e < 100)
    ensures Abs(e) < Pow10(k)
  {
    Pow10Next(0);
    Pow10Next(1);
    Pow10Next(2);
  }
}
