/** The numbers of section 6.1.5 of ISO 7185 as the runtime's readers see them: the declarative
    syntax, and the left-to-right measure of the longest prefix that is one. */
module NumberSyntax {
  type Text = seq<char>

  predicate IsBlank(c: char) { c == ' ' || c == '\n' || c == '\t' }

  predicate IsDigit(c: char) { '0' <= c <= '9' }

  predicate IsSign(c: char) { c == '+' || c == '-' }

  predicate IsExponentMark(c: char) { c == 'e' || c == 'E' }

  predicate IsDigits(s: Text) { s != [] && forall i | 0 <= i < |s| :: IsDigit(s[i]) }

  /** signed-integer = [ sign ] digit-sequence */
  predicate IsInteger(s: Text) { IsDigits(if s != [] && IsSign(s[0]) then s[1..] else s) }

  /** "." digit-sequence, or nothing */
  predicate IsFraction(s: Text) { s == [] || (s[0] == '.' && IsDigits(s[1..])) }

  /** "e" [ sign ] digit-sequence, or nothing */
  predicate IsScale(s: Text) { s == [] || (IsExponentMark(s[0]) && IsInteger(s[1..])) }

  /** signed-number: a signed-integer, a fractional part or none, a scale factor or none. */
  predicate NumberParts(s: Text, i: nat, j: nat) {
    i <= j <= |s| && IsInteger(s[..i]) && IsFraction(s[i..j]) && IsScale(s[j..])
  }

  ghost predicate IsNumber(s: Text) { exists i: nat, j: nat :: NumberParts(s, i, j) }

  /** s[..n] is of the kind, and no longer prefix is. */
  ghost predicate LongestInteger(s: Text, n: nat) {
    n <= |s| && IsInteger(s[..n]) && forall k: nat | n < k <= |s| :: !IsInteger(s[..k])
  }

  ghost predicate LongestNumber(s: Text, n: nat) {
    n <= |s| && IsNumber(s[..n]) && forall k: nat | n < k <= |s| :: !IsNumber(s[..k])
  }

  // ------------------------------------------------------- measured lengths

  function Blanks(s: Text): (n: nat)
    ensures n <= |s| && (forall i | 0 <= i < n :: IsBlank(s[i])) && (n < |s| ==> !IsBlank(s[n]))
  {
    if s != [] && IsBlank(s[0]) then 1 + Blanks(s[1..]) else 0
  }

  function Digits(s: Text): (n: nat)
    ensures n <= |s| && (forall i | 0 <= i < n :: IsDigit(s[i])) && (n < |s| ==> !IsDigit(s[n]))
  {
    if s != [] && IsDigit(s[0]) then 1 + Digits(s[1..]) else 0
  }

  function Sign(s: Text): nat { if s != [] && IsSign(s[0]) then 1 else 0 }

  function IntegerLength(s: Text): (n: nat)
    ensures n <= |s|
  {
    var d := Digits(s[Sign(s)..]);
    if d == 0 then 0 else Sign(s) + d
  }

  function FractionLength(s: Text): (n: nat)
    ensures n <= |s|
  {
    if s != [] && s[0] == '.' && Digits(s[1..]) > 0 then 1 + Digits(s[1..]) else 0
  }

  function ScaleLength(s: Text): (n: nat)
    ensures n <= |s|
  {
    if s != [] && IsExponentMark(s[0]) && IntegerLength(s[1..]) > 0 then 1 + IntegerLength(s[1..]) else 0
  }

  function MantissaLength(s: Text): (n: nat)
    ensures n <= |s|
  {
    IntegerLength(s) + FractionLength(s[IntegerLength(s)..])
  }

  function NumberLength(s: Text): (n: nat)
    ensures n <= |s|
  {
    if IntegerLength(s) == 0 then 0 else MantissaLength(s) + ScaleLength(s[MantissaLength(s)..])
  }

  /** Zero for what is no digit. */
  function DigitValue(c: char): (d: nat)
    ensures d <= 9
  {
    if IsDigit(c) then c as int - '0' as int else 0
  }

  function Value(digits: Text): nat {
    if digits == [] then 0 else 10 * Value(digits[..|digits| - 1]) + DigitValue(digits[|digits| - 1])
  }

  // ---------------------------------------- the measured prefix is the longest

  lemma DigitsOfPrefix(s: Text, k: nat)
    requires k <= |s| && IsDigits(s[..k])
    ensures 0 < k <= Digits(s)
  {
    forall i | 0 <= i < k
      ensures IsDigit(s[i])
    {
      assert s[..k][i] == s[i];
    }
  }

  lemma SliceTwice(s: Text, i: nat, k: nat)
    requires i <= k <= |s|
    ensures s[..k][i..] == s[i..][..k - i] == s[i..k]
  {
  }

  lemma IntegerOfPrefix(s: Text, k: nat)
    requires k <= |s| && IsInteger(s[..k])
    ensures 0 < k <= IntegerLength(s) && Sign(s) < k
    ensures forall i | Sign(s) <= i < IntegerLength(s) :: IsDigit(s[i])
  {
    assert k > 0 && s[..k][0] == s[0];
    var g := Sign(s);
    var t := s[g..];
    SliceTwice(s, g, k);
    assert s[..k][0..] == s[..k];
    DigitsOfPrefix(t, k - g);
    forall i | g <= i < IntegerLength(s)
      ensures IsDigit(s[i])
    {
      assert s[i] == t[i - g];
    }
  }

  lemma IntegerItself(s: Text)
    requires IntegerLength(s) > 0
    ensures IsInteger(s[..IntegerLength(s)])
  {
    var n := IntegerLength(s);
    var t := s[Sign(s)..];
    assert s[..n][0] == s[0];
    assert s[..n][Sign(s)..] == t[..Digits(t)];
    assert s[..n][0..] == s[..n];
  }

  /** The integer reader's measure. */
  lemma IntegerLengthIsLongest(s: Text)
    ensures IntegerLength(s) > 0 ==> LongestInteger(s, IntegerLength(s))
    ensures IntegerLength(s) == 0 ==> forall k: nat | k <= |s| :: !IsInteger(s[..k])
  {
    if IntegerLength(s) > 0 { IntegerItself(s); }
    forall k: nat | IntegerLength(s) < k <= |s| || (k <= |s| && IntegerLength(s) == 0)
      ensures !IsInteger(s[..k])
    {
      if IsInteger(s[..k]) { IntegerOfPrefix(s, k); }
    }
  }

  lemma FractionItself(s: Text)
    ensures IsFraction(s[..FractionLength(s)])
  {
    var n := FractionLength(s);
    if n > 0 { assert s[..n][1..] == s[1..][..n - 1]; }
  }

  lemma ScaleItself(s: Text)
    ensures IsScale(s[..ScaleLength(s)])
  {
    var n := ScaleLength(s);
    if n > 0 {
      IntegerItself(s[1..]);
      assert s[..n][1..] == s[1..][..n - 1];
    }
  }

  lemma NumberItself(s: Text)
    requires IntegerLength(s) > 0
    ensures IsNumber(s[..NumberLength(s)])
  {
    hide IntegerLength, FractionLength, ScaleLength, IsInteger, IsFraction, IsScale, Digits;
    var i: nat, j: nat, n: nat := IntegerLength(s), MantissaLength(s), NumberLength(s);
    var t := s[..n];
    IntegerItself(s);
    FractionItself(s[i..]);
    ScaleItself(s[j..]);
    SliceTwice(s, i, j);
    SliceTwice(s, j, n);
    assert t[..i] == s[..i] && t[i..j] == s[i..j];
    assert NumberParts(t, i, j);
  }

  lemma FractionOfPrefix(s: Text, k: nat)
    requires k <= |s| && IsFraction(s[..k])
    ensures k <= FractionLength(s)
    ensures forall i | 0 < i < FractionLength(s) :: IsDigit(s[i])
  {
    if k > 0 {
      assert s[..k][0] == s[0] && s[..k][1..] == s[1..][..k - 1];
      DigitsOfPrefix(s[1..], k - 1);
    }
    assert forall i | 0 < i < FractionLength(s) :: s[i] == s[1..][i - 1];
  }

  lemma ScaleOfPrefix(s: Text, k: nat)
    requires k <= |s| && IsScale(s[..k])
    ensures k <= ScaleLength(s)
  {
    if k > 0 {
      assert s[..k][0] == s[0] && s[..k][1..] == s[1..][..k - 1];
      IntegerOfPrefix(s[1..], k - 1);
    }
  }

  /** Parts end where the next character cannot begin one. */
  lemma NoFurther(t: Text, i: nat, j: nat)
    requires NumberParts(t, i, j)
    ensures i < |t| && IsDigit(t[i]) ==> i == j == |t|
    ensures j < |t| ==> IsExponentMark(t[j])
    ensures i < j ==> t[i] == '.'
  {
    assert i < j ==> t[i..j][0] == t[i];
    assert j < |t| ==> t[j..][0] == t[j];
  }

  /** However a prefix is cut into the parts of a number, it is no longer than what is measured. */
  lemma PartsWithin(s: Text, k: nat, i: nat, j: nat)
    requires k <= |s| && NumberParts(s[..k], i, j)
    ensures 0 < IntegerLength(s) && k <= NumberLength(s)
  {
    hide Digits, IsDigits, IsInteger, IntegerLength, FractionLength, ScaleLength, IsFraction, IsScale;
    var t := s[..k];
    var a, b := IntegerLength(s), MantissaLength(s);
    assert t[..i] == s[..i];
    IntegerOfPrefix(s, i);
    NoFurther(t, i, j);
    if i == a || i == k {
      assert t[i..j] == s[i..][..j - i] && t[j..] == s[j..][..k - j];
      if i == a {
        FractionOfPrefix(s[a..], j - a);
        if j == b { ScaleOfPrefix(s[b..], k - b); } else { FractionStops(s, a, j, k); }
      }
    }
  }

  lemma FractionStops(s: Text, a: nat, j: nat, k: nat)
    requires a <= j <= k <= |s| && j < a + FractionLength(s[a..])
    requires j < k ==> IsExponentMark(s[j])
    ensures j == k
  {
    FractionOfPrefix(s[a..], 0);
    assert s[a..][j - a] == s[j];
  }

  /** The real reader's measure. */
  lemma NumberLengthIsLongest(s: Text)
    ensures NumberLength(s) > 0 ==> LongestNumber(s, NumberLength(s))
    ensures NumberLength(s) == 0 ==> forall k: nat | k <= |s| :: !IsNumber(s[..k])
  {
    if IntegerLength(s) > 0 { NumberItself(s); }
    forall k: nat | k <= |s| && IsNumber(s[..k])
      ensures 0 < NumberLength(s) && k <= NumberLength(s)
    {
      var i: nat, j: nat :| NumberParts(s[..k], i, j);
      PartsWithin(s, k, i, j);
    }
  }
}
