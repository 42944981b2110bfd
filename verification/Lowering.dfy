/** The instruction sequences of verify/lowering.py at an arbitrary word width against the clauses of
    verify/iso.py: remainder, division, stepped `succ`, the unchecked subscript subtraction, and the
    set constructors and store check at an arbitrary set width. */
module Lowering {
  function Two(n: nat): (p: int)
    ensures p > 0
  {
    if n == 0 then 1 else 2 * Two(n - 1)
  }

  function MaxInt(w: nat): int
    requires w > 0
  {
    Two(w - 1) - 1
  }

  /** A value of a w-bit signed word. */
  predicate Word(w: nat, x: int)
    requires w > 0
  {
    -Two(w - 1) <= x < Two(w - 1)
  }

  /** A value of the integer type: the word's least value is not one. */
  predicate Integer(w: nat, x: int)
    requires w > 0
  {
    -MaxInt(w) <= x <= MaxInt(w)
  }

  /** What w bits keep of x, read as a signed word. */
  function Wrap(w: nat, x: int): (r: int)
    requires w > 0
    ensures Word(w, r)
  {
    var half: int := Two(w - 1);
    assert Two(w) == 2 * half;
    (x + half) % Two(w) - half
  }

  lemma WrapExact(w: nat, x: int)
    requires w > 0
    ensures Wrap(w, x) == x <==> Word(w, x)
  {
    var half: int := Two(w - 1);
    assert Two(w) == 2 * half;
    if Word(w, x) { SmallRemainder(x + half, Two(w)); }
  }

  lemma SmallRemainder(a: int, b: int)
    requires 0 <= a < b
    ensures a % b == a
  {
  }

  // -------------------------------------------------- section 6.7.2.2: div and mod

  function Abs(x: int): int { if x < 0 then -x else x }

  /** Signed division and remainder truncate toward zero. */
  function SDiv(i: int, j: int): int
    requires j != 0
  {
    var q := Abs(i) / Abs(j);
    if (i < 0) == (j < 0) then q else -q
  }

  function SRem(i: int, j: int): int
    requires j != 0
  {
    var r := Abs(i) % Abs(j);
    if i < 0 then -r else r
  }

  lemma Mono(a: int, b: int, c: int)
    requires a <= b && 0 <= c
    ensures a * c <= b * c
  {
  }

  lemma Signs(q: int, b: int)
    ensures -q * b == -(q * b) && q * -b == -(q * b) && -q * -b == q * b
  {
  }

  lemma Truncates(i: int, j: int)
    requires j != 0
    ensures i == SDiv(i, j) * j + SRem(i, j)
    ensures Abs(SRem(i, j)) < Abs(j) && (SRem(i, j) > 0 ==> i > 0) && (SRem(i, j) < 0 ==> i < 0)
    ensures Abs(SDiv(i, j)) <= Abs(i) && (Abs(j) >= 2 && i != 0 ==> Abs(SDiv(i, j)) < Abs(i))
  {
    Quotient(Abs(i), Abs(j));
    Signs(Abs(i) / Abs(j), Abs(j));
  }

  lemma Quotient(a: int, b: int)
    requires a >= 0 && b > 0
    ensures a == a / b * b + a % b && 0 <= a % b < b && 0 <= a / b <= a
    ensures b >= 2 && a > 0 ==> a / b < a
  {
    var q := a / b;
    assert a == q * b + a % b;
    if b >= 2 { Mono(2, b, q); } else { assert q * b == q; }
  }

  /** The emitted `mod`: the remainder, and the divisor added back when it is negative. */
  function Mod(w: nat, i: int, j: int): int
    requires w > 0 && j > 0
  {
    var rem := SRem(i, j);
    if rem < 0 then Wrap(w, rem + j) else rem
  }

  /** 0 <= r < j and j divides i - r. */
  ghost predicate IsoMod(i: int, j: int, r: int) { 0 <= r < j && exists k: int :: Multiple(i, r, j, k) }

  predicate Multiple(i: int, r: int, j: int, k: int) { i - r == k * j }

  /** The emitted value is the one and only i mod j, at every width. */
  lemma ModIsIso(w: nat, i: int, j: int, r: int)
    requires w > 0 && Word(w, i) && Word(w, j) && j > 0
    ensures IsoMod(i, j, r) <==> r == Mod(w, i, j)
  {
    Truncates(i, j);
    var rem, q := SRem(i, j), SDiv(i, j);
    WrapExact(w, rem + j);
    var m := Mod(w, i, j);
    var k := if rem < 0 then q - 1 else q;
    assert Multiple(i, m, j, k) by { Less(q, j); }
    if IsoMod(i, j, r) {
      var l: int :| Multiple(i, r, j, l);
      OneResidue(m, r, j, k, l);
    }
  }

  lemma Less(q: int, j: int)
    ensures (q - 1) * j == q * j - j
  {
  }

  lemma OneResidue(a: int, b: int, j: int, k: int, l: int)
    requires 0 <= a < j && 0 <= b < j && a + k * j == b + l * j
    ensures a == b
  {
    if k < l { Mono(k + 1, l, j); Less(k + 1, j); }
    if l < k { Mono(l + 1, k, j); Less(l + 1, j); }
  }

  /** The emitted `div`. */
  function Div(w: nat, i: int, j: int): int
    requires w > 0 && j != 0
  {
    Wrap(w, SDiv(i, j))
  }

  predicate IsoDiv(i: int, j: int, q: int) {
    var rem := i - q * j;
    -Abs(j) < rem < Abs(j) && (rem == 0 || (rem > 0 && i > 0) || (rem < 0 && i < 0))
  }

  /** The emitted value is the one and only i div j, but for the least word over -1; and the integer
      type has no such dividend. */
  lemma DivIsIso(w: nat, i: int, j: int)
    requires w > 0 && Word(w, i) && Word(w, j) && j != 0
    ensures (forall q :: IsoDiv(i, j, q) <==> q == Div(w, i, j)) <==> !(i == -Two(w - 1) && j == -1)
    ensures Integer(w, i) ==> !(i == -Two(w - 1) && j == -1)
  {
    Truncates(i, j);
    forall q
      ensures IsoDiv(i, j, q) <==> q == SDiv(i, j)
    {
      OneQuotient(i, j, q);
    }
    assert IsoDiv(i, j, SDiv(i, j));
    WrapExact(w, SDiv(i, j));
    QuotientFits(w, i, j);
  }

  lemma OneQuotient(i: int, j: int, q: int)
    requires j != 0
    ensures IsoDiv(i, j, q) <==> q == SDiv(i, j)
  {
    Truncates(i, j);
    var p := SDiv(i, j);
    var a, b := i - p * j, i - q * j;
    Difference(p, q, j);
    if p != q { AbsProduct(p - q, j); }
  }

  lemma Difference(p: int, q: int, j: int)
    ensures (p - q) * j == p * j - q * j
  {
  }

  lemma AbsProduct(a: int, b: int)
    requires a != 0
    ensures Abs(a * b) >= Abs(b)
  {
    var c := Abs(b);
    Signs(a, c);
    if a > 0 { Mono(1, a, c); } else { Mono(1, -a, c); }
  }

  lemma QuotientFits(w: nat, i: int, j: int)
    requires w > 0 && Word(w, i) && Word(w, j) && j != 0
    ensures Word(w, SDiv(i, j)) <==> !(i == -Two(w - 1) && j == -1)
  {
    Truncates(i, j);
  }

  // ------------------------------------- section 6.7.6.4 of ISO/IEC 10206: succ(x, k)

  /** Both operands sign-extended by one bit, added there, compared there, truncated back. */
  function StepSum(w: nat, i: int, k: int): int
    requires w > 0
  {
    Wrap(w + 1, i + k)
  }

  predicate StepTraps(w: nat, i: int, k: int, lo: int, hi: int)
    requires w > 0
  {
    StepSum(w, i, k) < lo || StepSum(w, i, k) > hi
  }

  /** It traps exactly when no value of the type has that ordinal number, and else gives it. */
  lemma StepTrapsExactly(w: nat, i: int, k: int, lo: int, hi: int)
    requires w > 0 && Word(w, i) && Word(w, k) && Word(w, lo) && Word(w, hi)
    ensures StepTraps(w, i, k, lo, hi) <==> !(lo <= i + k <= hi)
    ensures !StepTraps(w, i, k, lo, hi) ==> Wrap(w, StepSum(w, i, k)) == i + k
  {
    assert Two(w) == 2 * Two(w - 1);
    WrapExact(w + 1, i + k);
    WrapExact(w, i + k);
  }

  /** Added at the program's own width, the sum would pass the check and be wrong. */
  lemma NarrowSumIsWrong(w: nat)
    requires w > 2
    ensures var sum := Wrap(w, MaxInt(w) + 2); Integer(w, sum) && sum != MaxInt(w) + 2
  {
    var half: int := Two(w - 1);
    assert half == 2 * Two(w - 2) && Two(w - 2) == 2 * Two(w - 3) && Two(w) == 2 * half;
    assert (MaxInt(w) + 2 + half) % Two(w) == 1 by { Over(1, Two(w)); }
  }

  lemma Over(a: int, b: int)
    requires 0 <= a < b
    ensures (a + b) % b == a
  {
  }

  // -------------------------------------------------- section 6.5.3.2: subscripts

  function IndexOffset(w: nat, i: int, lo: int): int
    requires w > 0
  {
    Wrap(w, i - lo)
  }

  ghost predicate EveryOffsetExact(w: nat, lo: int, hi: int)
    requires w > 0
  {
    forall i | lo <= i <= hi :: 0 <= IndexOffset(w, i, lo) == i - lo <= hi - lo
  }

  /** The compiler's own test, rearranged so as not to leave the type. */
  predicate Refused(w: nat, lo: int, hi: int)
    requires w > 0
  {
    lo < 0 && hi > MaxInt(w) + lo
  }

  /** The subtraction without a check is exact for every subscript the bounds test lets through if
      and only if the index type's span is a value of the integer type, which is what the compiler
      refuses by. */
  lemma OffsetExactIffSpanFits(w: nat, lo: int, hi: int)
    requires w > 0 && Integer(w, lo) && Integer(w, hi) && lo <= hi
    ensures EveryOffsetExact(w, lo, hi) <==> hi - lo <= MaxInt(w)
    ensures Refused(w, lo, hi) <==> hi - lo > MaxInt(w)
  {
    WrapExact(w, hi - lo);
    if hi - lo <= MaxInt(w) {
      forall i | lo <= i <= hi
        ensures IndexOffset(w, i, lo) == i - lo
      {
        WrapExact(w, i - lo);
      }
    } else {
      assert IndexOffset(w, hi, lo) != hi - lo;
    }
  }

  // ------------------------------------------------------------- sets as words

  /** A set of width n is its n bits, least significant first. */
  type Bits = seq<bool>

  function Ones(n: nat): Bits { seq(n, _ => true) }

  function Zero(n: nat): Bits { seq(n, _ => false) }

  function Shl(s: Bits, k: nat): Bits { seq(|s|, i requires 0 <= i < |s| => i >= k && s[i - k]) }

  function LShr(s: Bits, k: nat): Bits { seq(|s|, i requires 0 <= i < |s| => i + k < |s| && s[i + k]) }

  function And(s: Bits, t: Bits): Bits
    requires |s| == |t|
  {
    seq(|s|, i requires 0 <= i < |s| => s[i] && t[i])
  }

  function Not(s: Bits): Bits { seq(|s|, i requires 0 <= i < |s| => !s[i]) }

  /** `v in s`: the word shifted right by v, its lowest bit. */
  predicate Contains(s: Bits, v: nat)
    requires v < |s|
  {
    LShr(s, v)[0]
  }

  /** `[lo..hi]`: all ones shifted right, and all ones shifted left, anded. */
  function Universe(n: nat, lo: nat, hi: nat): Bits
    requires lo < n && hi < n
  {
    And(LShr(Ones(n), n - 1 - hi), Shl(Ones(n), lo))
  }

  function SetRange(n: nat, lo: nat, hi: nat): Bits
    requires lo < n && hi < n
  {
    if lo > hi then Zero(n) else Universe(n, lo, hi)
  }

  /** checkedForSetBase: something is set outside the base type. */
  predicate StoreTraps(s: Bits, lo: nat, hi: nat)
    requires lo < |s| && hi < |s|
  {
    And(s, Not(Universe(|s|, lo, hi))) != Zero(|s|)
  }

  function Members(s: Bits): set<nat> { set v | 0 <= v < |s| && Contains(s, v) }

  lemma ContainsBit(s: Bits, v: nat)
    requires v < |s|
    ensures Contains(s, v) <==> s[v]
  {
  }

  lemma UniverseBits(n: nat, lo: nat, hi: nat, v: nat)
    requires lo < n && hi < n && v < n
    ensures Universe(n, lo, hi)[v] <==> lo <= v <= hi
  {
  }

  /** Two shifts build exactly the members of [lo..hi], none when hi precedes lo. */
  lemma SetRangeMembers(n: nat, lo: nat, hi: nat)
    requires lo < n && hi < n
    ensures forall v: nat | v < n :: v in Members(SetRange(n, lo, hi)) <==> lo <= v <= hi
  {
    var s := SetRange(n, lo, hi);
    forall v: nat | v < n
      ensures Contains(s, v) <==> lo <= v <= hi
    {
      ContainsBit(s, v);
      UniverseBits(n, lo, hi, v);
    }
  }

  /** The store traps exactly when some member is no value of the base type. */
  lemma StoreTrapsExactly(s: Bits, lo: nat, hi: nat)
    requires lo <= hi < |s|
    ensures StoreTraps(s, lo, hi) <==> exists v :: v in Members(s) && !(lo <= v <= hi)
  {
    var t := And(s, Not(Universe(|s|, lo, hi)));
    forall v: nat | v < |s|
      ensures t[v] <==> Contains(s, v) && !(lo <= v <= hi)
    {
      ContainsBit(s, v);
      UniverseBits(|s|, lo, hi, v);
    }
    if StoreTraps(s, lo, hi) {
      var v :| 0 <= v < |s| && t[v] != Zero(|s|)[v];
      assert v in Members(s);
    } else {
      forall v | v in Members(s) ensures lo <= v <= hi { assert !Zero(|s|)[v]; }
    }
  }
}
