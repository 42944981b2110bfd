/** The branch-coverage set (pas_cov_branch, pas_br_grow, pas_br_dump of runtime/pasrt.c): decisions
    packed into one word each and kept in an open-addressed table that doubles at one half full. */
module BranchCoverage {
  const TWO31 := 0x8000_0000
  const TWO32 := 0x1_0000_0000
  const TWO64 := 0x1_0000_0000_0000_0000
  const PAS_BR_MIX := 1099511628211

  type Int32 = x: int | -TWO31 <= x < TWO31

  datatype Decision = Decision(line: Int32, col: Int32, dir: int)

  // ----------------------------------------------------------------- packing

  function Unsigned(x: Int32): (u: nat)
    ensures u < TWO32
  {
    if x < 0 then x + TWO32 else x
  }

  /** line << 32 | col << 1 | dir & 1. The column's own top bit, when set, falls on the line's
      lowest bit. */
  function Pack(line: Int32, col: Int32, dir: int): (k: nat)
    requires line > 0
    ensures k > 0
  {
    var shifted := 2 * Unsigned(col);
    var high: nat := if shifted >= TWO32 && line % 2 == 0 then line + 1 else line;
    high * TWO32 + shifted % TWO32 + dir % 2
  }

  /** What pas_br_dump writes for a key. */
  function Unpack(k: nat): (int, int, int) { (k / TWO32, k / 2 % TWO31, k % 2) }

  lemma PackDigits(high: nat, low: nat, bit: nat)
    requires low < TWO31 && bit < 2
    ensures Unpack(high * TWO32 + 2 * low + bit) == (high, low, bit)
  {
    var k := high * TWO32 + 2 * low + bit;
    assert k / 2 == high * TWO31 + low;
  }

  lemma UnpackInjective(k: nat, l: nat)
    requires Unpack(k) == Unpack(l)
    ensures k == l
  {
    assert k == k / TWO32 * TWO32 + 2 * (k / 2 % TWO31) + k % 2;
    assert l == l / TWO32 * TWO32 + 2 * (l / 2 % TWO31) + l % 2;
  }

  /** The decision whose key this one gets: a negative column loses its top bit, and the line becomes odd. */
  function Folded(d: Decision): (f: Decision)
    requires d.line > 0
    ensures f.line > 0 && f.col >= 0
  {
    if d.col >= 0 then Decision(d.line, d.col, d.dir % 2)
    else Decision(if d.line % 2 == 0 then d.line + 1 else d.line, d.col + TWO31, d.dir % 2)
  }

  function Printed(d: Decision): (int, int, int) { (d.line as int, d.col as int, d.dir % 2) }

  lemma DumpedAsFolded(d: Decision)
    requires d.line > 0
    ensures Unpack(Pack(d.line, d.col, d.dir)) == Printed(Folded(d))
  {
    var shifted := 2 * Unsigned(d.col);
    var high: nat := if shifted >= TWO32 && d.line % 2 == 0 then d.line + 1 else d.line;
    PackDigits(high, (if d.col < 0 then shifted - TWO32 else shifted) / 2, d.dir % 2);
  }

  /** The dump gives back the decision exactly when the column is not negative. */
  lemma DumpedIsReported(d: Decision)
    requires d.line > 0
    ensures Unpack(Pack(d.line, d.col, d.dir)) == Printed(d) <==> d.col >= 0
  {
    DumpedAsFolded(d);
  }

  /** Two decisions share a key exactly when they fold alike. */
  lemma KeysShared(a: Decision, b: Decision)
    requires a.line > 0 && b.line > 0
    ensures Pack(a.line, a.col, a.dir) == Pack(b.line, b.col, b.dir) <==> Folded(a) == Folded(b)
  {
    hide Pack, Unpack;
    DumpedAsFolded(a);
    DumpedAsFolded(b);
    if Folded(a) == Folded(b) { UnpackInjective(Pack(a.line, a.col, a.dir), Pack(b.line, b.col, b.dir)); }
  }

  lemma PackInjective(a: Decision, b: Decision)
    requires a.line > 0 && b.line > 0 && a.col >= 0 && b.col >= 0
    requires Pack(a.line, a.col, a.dir) == Pack(b.line, b.col, b.dir)
    ensures a.line == b.line && a.col == b.col && a.dir % 2 == b.dir % 2
  {
    KeysShared(a, b);
  }

  /** Every decision with a negative column shares its key with one whose column is not negative. */
  lemma NegativeColumnsCollide(d: Decision)
    requires d.line > 0 && d.col < 0
    ensures exists e: Decision :: e.line > 0 && e.col >= 0 && e != d && Pack(e.line, e.col, e.dir) == Pack(d.line, d.col, d.dir)
  {
    KeysShared(Folded(d), d);
  }

  /** The keys of a set of reports. */
  function KeysOf(reports: set<Decision>): set<nat> {
    set r | r in reports && r.line > 0 :: Pack(r.line, r.col, r.dir)
  }

  predicate Dumped(keys: set<nat>, t: (int, int, int)) { exists k :: k in keys && Unpack(k) == t }

  predicate Reported(reports: set<Decision>, t: (int, int, int)) { exists r :: r in reports && Printed(r) == t }

  /** A dump names what was reported and nothing else, exactly when no column was negative. */
  lemma DumpIsReports(reports: set<Decision>)
    requires forall r | r in reports :: r.line > 0
    ensures (forall t :: Dumped(KeysOf(reports), t) <==> Reported(reports, t)) <==> forall r | r in reports :: r.col >= 0
  {
    hide Unpack, Pack, Folded;
    forall r | r in reports
      ensures Dumped(KeysOf(reports), Printed(Folded(r)))
    {
      DumpedAsFolded(r);
      assert Pack(r.line, r.col, r.dir) in KeysOf(reports);
    }
    forall t | Dumped(KeysOf(reports), t)
      ensures exists r :: r in reports && t == Printed(Folded(r))
    {
      var k :| k in KeysOf(reports) && Unpack(k) == t;
      var r :| r in reports && Pack(r.line, r.col, r.dir) == k;
      DumpedAsFolded(r);
    }
    if r :| r in reports && r.col < 0 {
      assert Reported(reports, Printed(r));
    } else {
      forall r | r in reports
        ensures Printed(Folded(r)) == Printed(r)
      {
        FoldedPlain(r);
      }
    }
  }

  lemma FoldedPlain(d: Decision)
    requires d.line > 0 && d.col >= 0
    ensures Printed(Folded(d)) == Printed(d)
  {
  }

  // ----------------------------------------------------------------- probing

  /** x & (cap - 1) for a capacity that is a power of two: the low bits of x. */
  function Masked(x: nat, cap: nat): (h: nat)
    requires cap > 0
    ensures h < cap
    decreases cap
  {
    if cap == 1 then 0 else x % 2 + 2 * Masked(x / 2, cap / 2)
  }

  /** Where the search for k begins. */
  function Home(k: nat, cap: nat): (h: nat)
    requires cap > 0
    ensures h < cap
  {
    Masked(k * PAS_BR_MIX % TWO64 / TWO32, cap)
  }

  /** u slots on from h, round the end. */
  function Slot(h: nat, u: nat, cap: nat): (i: nat)
    requires h < cap && u < cap
    ensures i < cap
  {
    if h + u < cap then h + u else h + u - cap
  }

  function Distance(h: nat, i: nat, cap: nat): (u: nat)
    requires h < cap && i < cap
    ensures u < cap && Slot(h, u, cap) == i
  {
    if i >= h then i - h else i - h + cap
  }

  lemma SlotDistance(h: nat, u: nat, cap: nat)
    requires h < cap && u < cap
    ensures Distance(h, Slot(h, u, cap), cap) == u
  {
  }

  /** The first u slots from h on are all taken. */
  predicate Taken(s: seq<nat>, h: nat, u: nat)
    requires h < |s|
  {
    u <= |s| && forall v | 0 <= v < u :: s[Slot(h, v, |s|)] != 0
  }

  /** Every key can be reached from its home, and is there once. */
  predicate Searchable(s: seq<nat>) {
    && (forall i | 0 <= i < |s| && s[i] != 0 :: Taken(s, Home(s[i], |s|), Distance(Home(s[i], |s|), i, |s|)))
    && (forall i, j | 0 <= i < j < |s| && s[i] != 0 :: s[i] != s[j])
  }

  function Keys(s: seq<nat>): set<nat> { set i | 0 <= i < |s| && s[i] != 0 :: s[i] }

  function Used(s: seq<nat>): (n: nat)
    ensures n <= |s|
  {
    if s == [] then 0 else Used(s[..|s| - 1]) + if s[|s| - 1] != 0 then 1 else 0
  }

  lemma {:induction false} SomeFree(s: seq<nat>) returns (e: nat)
    requires Used(s) < |s|
    ensures e < |s| && s[e] == 0
  {
    e := |s| - 1;
    if s[e] != 0 { e := SomeFree(s[..|s| - 1]); }
  }

  lemma {:induction false} UsedMore(s: seq<nat>, i: nat, k: nat)
    requires i < |s| && s[i] == 0 && k != 0
    ensures Used(s[i := k]) == Used(s) + 1
  {
    var n := |s| - 1;
    if i == n {
      assert s[i := k][..n] == s[..n];
    } else {
      assert s[i := k][..n] == s[..n][i := k];
      UsedMore(s[..n], i, k);
    }
  }

  /** While the search meets taken slots it has not yet come to the free one at e. */
  lemma Onward(s: seq<nat>, h: nat, u: nat, e: nat)
    requires e < |s| && s[e] == 0 && h < |s| && Taken(s, h, u) && u <= Distance(h, e, |s|)
    ensures s[Slot(h, u, |s|)] != 0 ==>
              && u < Distance(h, e, |s|) && Taken(s, h, u + 1)
              && Slot(h, u + 1, |s|) == if Slot(h, u, |s|) + 1 == |s| then 0 else Slot(h, u, |s|) + 1
  {
  }

  lemma Begin(s: seq<nat>, h: nat)
    requires h < |s|
    ensures Taken(s, h, 0) && Slot(h, 0, |s|) == h
  {
  }

  /** A search that meets an empty slot has shown that the key is not in the table. */
  lemma NotFound(s: seq<nat>, k: nat, u: nat)
    requires s != [] && Searchable(s) && k != 0 && u < |s| && Taken(s, Home(k, |s|), u)
    requires forall v | 0 <= v < u :: s[Slot(Home(k, |s|), v, |s|)] != k
    requires s[Slot(Home(k, |s|), u, |s|)] == 0
    ensures k !in Keys(s)
  {
    var h := Home(k, |s|);
    forall i | 0 <= i < |s|
      ensures s[i] != k
    {
      var d := Distance(h, i, |s|);
      assert Slot(h, d, |s|) == i;
      assert s[i] == k ==> Taken(s, h, d);
    }
  }

  lemma Placed(s: seq<nat>, k: nat, u: nat)
    requires s != [] && Searchable(s) && k != 0 && k !in Keys(s) && u < |s| && Taken(s, Home(k, |s|), u)
    requires s[Slot(Home(k, |s|), u, |s|)] == 0
    ensures var t := s[Slot(Home(k, |s|), u, |s|) := k];
            Searchable(t) && Keys(t) == Keys(s) + {k} && Used(t) == Used(s) + 1
  {
    hide Home;
    var p := Slot(Home(k, |s|), u, |s|);
    var t := s[p := k];
    UsedMore(s, p, k);
    SlotDistance(Home(k, |s|), u, |s|);
    PlacedKeys(s, p, k);
    forall i | 0 <= i < |t| && t[i] != 0
      ensures Taken(t, Home(t[i], |t|), Distance(Home(t[i], |t|), i, |t|))
    {
      var h := Home(t[i], |t|);
      StillTaken(s, p, k, h, if i == p then u else Distance(h, i, |s|));
    }
    forall i, j | 0 <= i < j < |t| && t[i] != 0
      ensures t[i] != t[j]
    {
      assert s[i] != 0 ==> s[i] in Keys(s);
      assert s[j] != 0 ==> s[j] in Keys(s);
    }
  }

  lemma StillTaken(s: seq<nat>, p: nat, k: nat, h: nat, u: nat)
    requires p < |s| && k != 0 && h < |s| && Taken(s, h, u)
    ensures Taken(s[p := k], h, u)
  {
  }

  lemma PlacedKeys(s: seq<nat>, p: nat, k: nat)
    requires p < |s| && s[p] == 0 && k != 0
    ensures Keys(s[p := k]) == Keys(s) + {k}
  {
    var t := s[p := k];
    assert t[p] == k;
    forall x | x in Keys(s) ensures x in Keys(t) {
      var i :| 0 <= i < |s| && s[i] != 0 && s[i] == x;
      assert t[i] == x;
    }
  }

  // --------------------------------------------------------------- the table

  predicate PowerOfTwo(n: nat) { n == 1 || (n > 0 && n % 2 == 0 && PowerOfTwo(n / 2)) }

  class BranchTable {
    var key: array<nat>
    var used: nat
    ghost var reports: set<Decision>  // every report that has been taken in

    ghost predicate Shaped()
      reads this, key
    {
      Searchable(key[..]) && used == Used(key[..]) && used * 2 <= key.Length
      && (key.Length == 0 || (PowerOfTwo(key.Length) && key.Length % 2 == 0))
    }

    ghost predicate Valid()
      reads this, key
    {
      Shaped() && (forall r | r in reports :: r.line > 0) && Keys(key[..]) == KeysOf(reports)
    }

    constructor ()
      ensures Valid() && fresh(key) && reports == {}
    {
      key := new nat[0];
      used := 0;
      reports := {};
    }

    /** pas_br_grow: every key moves to its slot in a table twice as large. `memory` is whether the
        allocation succeeds. */
    method Grow(memory: bool) returns (ok: bool)
      requires Shaped()
      modifies this`key
      ensures ok == memory && Shaped() && used == old(used) && Keys(key[..]) == old(Keys(key[..]))
      ensures ok ==> fresh(key) && used * 2 < key.Length
      ensures !ok ==> key == old(key)
    {
      hide Searchable, Keys, Used, Taken, PowerOfTwo;
      if !memory { return false; }
      ok := true;
      var want := if key.Length > 0 then key.Length * 2 else 1024;
      ghost var s := key[..];
      var tab := new nat[want](_ => 0);
      Zeros(tab[..]);
      assert s[..0] == [];
      Zeros([]);
      for i := 0 to key.Length
        invariant key[..] == s && |tab[..]| == want
        invariant Searchable(tab[..]) && Keys(tab[..]) == Keys(s[..i]) && Used(tab[..]) == Used(s[..i])
      {
        var k := key[i];
        Moved(s, i);
        if k == 0 { continue; }
        Place(tab, k);
      }
      assert s[..key.Length] == s;
      key := tab;
      Doubled(want);
    }

    /** pas_cov_branch: a decision taken is in the set from then on, unless the memory for it is
        refused, and with the reports the keys. */
    method Branch(line: Int32, col: Int32, dir: int, memory: bool)
      requires Valid()
      modifies this, key
      ensures Valid()
      ensures reports ==
              if line <= 0 || (old(used) * 2 >= old(key.Length) && !memory) then old(reports)
              else old(reports) + {Decision(line, col, dir)}
      ensures Keys(key[..]) == KeysOf(reports)
    {
      hide KeysOf, Searchable, Keys, Used, Taken, Pack, Home, PowerOfTwo, Slot, Distance;
      if line <= 0 { return; }
      if used * 2 >= key.Length {
        var grown := Grow(memory);
        if !grown { return; }
      }
      OneMore(reports, Decision(line, col, dir));
      Add(Pack(line, col, dir));
      reports := reports + {Decision(line, col, dir)};
    }

    /** pas_br_dump: every key of the set once, and it names what was reported and nothing else
        exactly when no column was negative. */
    method Dump() returns (out: seq<(int, int, int)>)
      requires Valid()
      ensures |out| == used == |Keys(key[..])|
      ensures forall i, j | 0 <= i < j < |out| :: out[i] != out[j]
      ensures forall t :: t in out <==> Dumped(Keys(key[..]), t)
      ensures (forall t :: t in out <==> Reported(reports, t)) <==> forall r | r in reports :: r.col >= 0
    {
      hide Unpack, Keys, Used, Searchable, PowerOfTwo, Reported, KeysOf, Dumped;
      out := [];
      Zeros([]);
      NothingDumped();
      assert key[..0] == [];
      for i := 0 to key.Length
        invariant |out| == Used(key[..i]) == |Keys(key[..i])|
        invariant forall i, j | 0 <= i < j < |out| :: out[i] != out[j]
        invariant forall t :: t in out <==> Dumped(Keys(key[..i]), t)
      {
        Moved(key[..], i);
        assert key[..][..i] == key[..i] && key[..][..i + 1] == key[..i + 1];
        if key[i] != 0 {
          DumpedMore(Keys(key[..i]), key[i]);
          out := out + [Unpack(key[i])];
        }
      }
      assert key[..key.Length] == key[..];
      DumpIsReports(reports);
    }

    method Add(k: nat)
      requires Shaped() && k != 0 && used * 2 < key.Length
      modifies this`used, key
      ensures Shaped() && Keys(key[..]) == old(Keys(key[..])) + {k}
    {
      hide Searchable, Keys, Used, Taken, Home, PowerOfTwo, Slot, Distance;
      ghost var s := key[..];
      ghost var e := SomeFree(s);
      var h := Home(k, key.Length);
      ghost var home: nat, u: nat := h, 0;
      Begin(s, h);
      while key[h] != 0
        invariant used == old(used) && key[..] == s && u <= Distance(home, e, |s|) && h == Slot(home, u, |s|)
        invariant Taken(s, home, u)
        invariant forall v | 0 <= v < u :: s[Slot(home, v, |s|)] != k
        decreases |s| - u
      {
        if key[h] == k {
          KeyIn(s, h);
          assert Keys(s) == Keys(s) + {k};
          return;
        }
        Onward(s, home, u, e);
        h := if h + 1 == key.Length then 0 else h + 1;
        u := u + 1;
      }
      NotFound(s, k, u);
      Placed(s, k, u);
      key[h] := k;
      used := used + 1;
      assert key[..] == s[h := k];
    }
  }

  lemma OneMore(reports: set<Decision>, d: Decision)
    requires d.line > 0
    ensures KeysOf(reports + {d}) == KeysOf(reports) + {Pack(d.line, d.col, d.dir)}
  {
    hide Pack;
  }

  lemma NothingDumped()
    ensures forall t :: !Dumped({}, t)
  {
  }

  lemma DumpedMore(keys: set<nat>, k: nat)
    requires k !in keys
    ensures !Dumped(keys, Unpack(k))
    ensures forall t :: Dumped(keys + {k}, t) <==> Dumped(keys, t) || t == Unpack(k)
  {
    hide Unpack;
    if Dumped(keys, Unpack(k)) {
      var l :| l in keys && Unpack(l) == Unpack(k);
      UnpackInjective(k, l);
    }
    forall t
      ensures Dumped(keys + {k}, t) <==> Dumped(keys, t) || t == Unpack(k)
    {
      if t == Unpack(k) { assert k in keys + {k}; }
      if Dumped(keys, t) {
        var l :| l in keys && Unpack(l) == t;
        assert l in keys + {k};
      }
    }
  }

  lemma KeyIn(s: seq<nat>, i: nat)
    requires i < |s| && s[i] != 0
    ensures s[i] in Keys(s)
  {
  }

  lemma Zeros(s: seq<nat>)
    requires forall i | 0 <= i < |s| :: s[i] == 0
    ensures Searchable(s) && Keys(s) == {} && Used(s) == 0
  {
    if s != [] { Zeros(s[..|s| - 1]); }
  }

  lemma Moved(s: seq<nat>, i: nat)
    requires i < |s| && Searchable(s)
    ensures s[i] == 0 ==> Keys(s[..i + 1]) == Keys(s[..i]) && Used(s[..i + 1]) == Used(s[..i])
    ensures s[i] != 0 ==>
              s[i] !in Keys(s[..i]) && Keys(s[..i + 1]) == Keys(s[..i]) + {s[i]} && Used(s[..i + 1]) == Used(s[..i]) + 1
    ensures Used(s[..i]) <= Used(s)
  {
    hide Taken, Keys, Used;
    assert s[..i + 1] == s[..i] + [s[i]];
    UsedPrefix(s, i);
    UsedPush(s[..i], s[i]);
    KeysPush(s[..i], s[i]);
    if s[i] != 0 { NotAmong(s[..i], s[i]); }
  }

  lemma UsedPush(s: seq<nat>, k: nat)
    ensures Used(s + [k]) == Used(s) + if k != 0 then 1 else 0
  {
    assert (s + [k])[..|s|] == s;
  }

  lemma NotAmong(s: seq<nat>, k: nat)
    requires k != 0 && forall j | 0 <= j < |s| :: s[j] != k
    ensures k !in Keys(s)
  {
  }

  lemma KeysPush(s: seq<nat>, k: nat)
    ensures Keys(s + [k]) == Keys(s) + if k == 0 then {} else {k}
  {
    var t := s + [k];
    assert t[|s|] == k;
    forall x | x in Keys(s) ensures x in Keys(t) {
      var i :| 0 <= i < |s| && s[i] != 0 && s[i] == x;
      assert t[i] == x;
    }
  }

  lemma {:induction false} UsedPrefix(s: seq<nat>, i: nat)
    requires i <= |s|
    ensures Used(s[..i]) <= Used(s)
  {
    if i < |s| {
      UsedPrefix(s[..|s| - 1], i);
      assert s[..|s| - 1][..i] == s[..i];
    } else {
      assert s[..i] == s;
    }
  }

  lemma Doubled(want: nat)
    requires want == 1024 || (want > 0 && want % 2 == 0 && PowerOfTwo(want / 2))
    ensures PowerOfTwo(want)
  {
    hide PowerOfTwo;
    OneIsPower();
    Twice(1); Twice(2); Twice(4); Twice(8); Twice(16); Twice(32); Twice(64); Twice(128); Twice(256); Twice(512);
    if want != 1024 { Twice(want / 2); }
  }

  lemma OneIsPower()
    ensures PowerOfTwo(1)
  {
  }

  lemma Twice(n: nat)
    ensures PowerOfTwo(n) ==> PowerOfTwo(2 * n)
  {
  }

  /** A key that is not there goes to the first empty slot of its search. */
  method Place(tab: array<nat>, k: nat)
    requires Searchable(tab[..]) && k != 0 && k !in Keys(tab[..]) && Used(tab[..]) < tab.Length
    modifies tab
    ensures Searchable(tab[..]) && Keys(tab[..]) == old(Keys(tab[..])) + {k}
    ensures Used(tab[..]) == old(Used(tab[..])) + 1
  {
    hide Searchable, Keys, Used, Taken, Home, Slot, Distance;
    ghost var s := tab[..];
    ghost var e := SomeFree(s);
    var h := Home(k, tab.Length);
    ghost var home: nat, u: nat := h, 0;
    Begin(s, h);
    while tab[h] != 0
      invariant tab[..] == s && u <= Distance(home, e, |s|) && h == Slot(home, u, |s|)
      invariant Taken(s, home, u)
      decreases |s| - u
    {
      Onward(s, home, u, e);
      h := if h + 1 == tab.Length then 0 else h + 1;
      u := u + 1;
    }
    Placed(s, k, u);
    tab[h] := k;
    assert tab[..] == s[h := k];
  }
}
