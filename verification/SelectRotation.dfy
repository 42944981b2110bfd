/** Which arms one round of `pas_select` looks at, in 32-bit unsigned arithmetic. */
module SelectRotation {
  import opened ChannelProtocol

  /** Every arm is looked at in a round that starts at `turn`. */
  ghost predicate Covers(turn: nat, n: nat)
    requires n > 0
  {
    forall arm: nat | arm < n :: LooksAt(turn, n, arm)
  }

  ghost predicate LooksAt(turn: nat, n: nat, arm: nat)
    requires n > 0
  {
    exists k: nat | k < n :: ArmAt(turn, k, n) == arm
  }

  /** The arm the k-th round from `turn` looks at first. */
  function FirstOf(turn: nat, k: nat, n: nat): nat
    requires n > 0
  {
    ArmAt(turn + k, 0, n)
  }

  /** The counter does not wrap inside the round, or wraps where a multiple of n is. */
  predicate NoSkip(turn: nat, n: nat)
    requires n > 0
  {
    turn + n <= WORD || WORD % n == 0
  }

  lemma MulMonotone(p: nat, q: nat, n: nat)
    requires p <= q
    ensures p * n <= q * n
  {
  }

  lemma MulNext(p: nat, q: nat, n: nat)
    requires p < q
    ensures p * n + n <= q * n
  {
    MulMonotone(p + 1, q, n);
  }

  lemma DivisionUnique(x: nat, n: nat, q: nat, r: nat)
    requires r < n && x == q * n + r
    ensures x / n == q && x % n == r
  {
    var p, m := x / n, x % n;
    assert x == p * n + m;
    if p < q {
      MulNext(p, q, n);
    } else if q < p {
      MulNext(q, p, n);
    }
  }

  /** Reducing modulo a multiple first changes nothing. */
  lemma WrapHarmless(x: nat, n: nat)
    requires n > 0 && WORD % n == 0 && x < 2 * WORD
    ensures x % WORD % n == x % n
  {
    if x >= WORD {
      var y, m := x - WORD, WORD / n;
      assert WORD == m * n;
      var q, r := y / n, y % n;
      assert x == (m + q) * n + r;
      DivisionUnique(x, n, m + q, r);
    }
  }

  /** How far from `turn` the next number with remainder `arm` is. */
  function Distance(turn: nat, n: nat, arm: nat): nat
    requires arm < n
  {
    if arm >= turn % n then arm - turn % n else arm + n - turn % n
  }

  lemma DistanceReaches(turn: nat, n: nat, arm: nat)
    requires arm < n
    ensures Distance(turn, n, arm) < n && (turn + Distance(turn, n, arm)) % n == arm
  {
    var q, r := turn / n, turn % n;
    assert turn == q * n + r;
    if arm >= r {
      DivisionUnique(turn + arm - r, n, q, arm);
    } else {
      assert (q + 1) * n == q * n + n;
      DivisionUnique(turn + arm + n - r, n, q + 1, arm);
    }
  }

  lemma NoSkipLooksAt(turn: nat, n: nat, arm: nat) returns (k: nat)
    requires arm < n < WORD && turn < WORD && NoSkip(turn, n)
    ensures k < n && (turn + k) % n == arm && ArmAt(turn, k, n) == arm
  {
    hide ArmAt, NoSkip, Distance;
    k := Distance(turn, n, arm);
    DistanceReaches(turn, n, arm);
    ArmPlain(turn, k, n);
  }

  lemma ArmPlain(turn: nat, k: nat, n: nat)
    requires k < n < WORD && turn < WORD && NoSkip(turn, n)
    ensures ArmAt(turn, k, n) == (turn + k) % n
  {
    if turn + n > WORD { WrapHarmless(turn + k, n); }
  }

  lemma NoSkipCovers(turn: nat, n: nat)
    requires 0 < n < WORD && turn < WORD && NoSkip(turn, n)
    ensures Covers(turn, n)
  {
    forall arm: nat | arm < n
      ensures LooksAt(turn, n, arm)
    {
      var k := NoSkipLooksAt(turn, n, arm);
    }
  }

  /** The arm a wrapping round leaves out. */
  function Skipped(turn: nat, n: nat): nat
    requires 0 < n && turn < WORD
  {
    var w, r := WORD - turn, WORD % n;
    if n - w >= r then n - w else r
  }

  /** The remainder a little below a number whose own quotient and remainder are known. */
  lemma RemainderBelow(x: nat, n: nat, q: nat, r: nat, back: nat)
    requires x == q * n + r && r < n && 0 < back < n && back <= x
    ensures (x - back) % n == if back <= r then r - back else n + r - back
  {
    if back <= r {
      DivisionUnique(x - back, n, q, r - back);
    } else {
      MulPrevious(q, n);
      DivisionUnique(x - back, n, q - 1, n + r - back);
    }
  }

  lemma MulPrevious(q: nat, n: nat)
    requires q > 0
    ensures (q - 1) * n == q * n - n
  {
  }

  lemma SkippedIsSkipped(turn: nat, n: nat, k: nat)
    requires k < n < WORD && turn < WORD && !NoSkip(turn, n)
    ensures Skipped(turn, n) < n && ArmAt(turn, k, n) != Skipped(turn, n)
  {
    var w, r := WORD - turn, WORD % n;
    if k < w {
      var q := WORD / n;
      assert WORD == q * n + r;
      RemainderBelow(WORD, n, q, r, w - k);
      assert (turn + k) % WORD == turn + k;
    } else {
      assert (turn + k) % WORD == k - w;
      DivisionUnique(k - w, n, 0, k - w);
    }
  }

  /** A round looks at every arm exactly when the counter's wrap does not fall inside it, or the
      number of arms divides the counter's range. */
  lemma CoversExactlyWithoutSkip(turn: nat, n: nat)
    requires 0 < n < WORD && turn < WORD
    ensures Covers(turn, n) <==> NoSkip(turn, n)
  {
    hide ArmAt, NoSkip, Skipped;
    if NoSkip(turn, n) {
      NoSkipCovers(turn, n);
    } else {
      SkippedIsSkipped(turn, n, 0);
      if Covers(turn, n) {
        assert LooksAt(turn, n, Skipped(turn, n));
        var k: nat :| k < n && ArmAt(turn, k, n) == Skipped(turn, n);
        SkippedIsSkipped(turn, n, k);
      }
    }
  }

  /** Three arms and the last value of the counter: arms 0, 0 and 1 are looked at, arm 2 is not. */
  lemma LastTurnSkips()
    ensures ArmAt(WORD - 1, 0, 3) == 0 && ArmAt(WORD - 1, 1, 3) == 0 && ArmAt(WORD - 1, 2, 3) == 1
    ensures !Covers(WORD - 1, 3)
  {
    CoversExactlyWithoutSkip(WORD - 1, 3);
  }

  /** Over n consecutive rounds of one thread none of which wraps, every arm is looked at first
      in one of them, and in no other. */
  lemma EveryArmFirstOnce(turn: nat, n: nat, arm: nat)
    requires arm < n < WORD && turn + n <= WORD
    ensures exists k: nat | k < n :: FirstOf(turn, k, n) == arm
    ensures forall j: nat, k: nat | j < n && k < n && FirstOf(turn, j, n) == FirstOf(turn, k, n) :: j == k
  {
    hide ArmAt, FirstOf;
    var k := NoSkipLooksAt(turn, n, arm);
    FirstIs(turn, k, n);
    forall j: nat, k: nat | j < n && k < n && FirstOf(turn, j, n) == FirstOf(turn, k, n)
      ensures j == k
    {
      FirstIs(turn, j, n);
      FirstIs(turn, k, n);
      if j < k { SameRemainder(turn + j, turn + k, n); }
      if k < j { SameRemainder(turn + k, turn + j, n); }
    }
  }

  lemma FirstIs(turn: nat, k: nat, n: nat)
    requires k < n && turn + n <= WORD
    ensures FirstOf(turn, k, n) == (turn + k) % n
  {
  }

  lemma SameRemainder(a: nat, b: nat, n: nat)
    requires n > 0 && a < b && a % n == b % n
    ensures b - a >= n
  {
    var p, q := a / n, b / n;
    assert a == p * n + a % n && b == q * n + b % n;
    if q <= p {
      MulMonotone(q, p, n);
    } else {
      MulNext(p, q, n);
    }
  }
}
