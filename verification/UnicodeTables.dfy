/** The character tables of runtime/pasrt_unicode_data.h, left abstract: what
    runtime/unicode/generate.py derives and checks is proved of the derivation here, and what it
    takes over from the Unicode Character Database is the precondition `IsDatabase`. */
module UnicodeTables {
  import opened Utf8

  // Hangul is composed and decomposed by arithmetic (section 3.12 of The Unicode Standard).
  const S_BASE := 0xAC00
  const L_BASE := 0x1100
  const V_BASE := 0x1161
  const T_BASE := 0x11A7
  const L_COUNT := 19
  const V_COUNT := 21
  const T_COUNT := 28
  const N_COUNT := 588
  const S_COUNT := 11172

  predicate IsSyllable(cp: nat) { S_BASE <= cp < S_BASE + S_COUNT }
  predicate IsLead(cp: nat) { L_BASE <= cp < L_BASE + L_COUNT }
  predicate IsVowel(cp: nat) { V_BASE <= cp < V_BASE + V_COUNT }
  predicate IsTail(cp: nat) { T_BASE < cp < T_BASE + T_COUNT }

  /** What the generator reads: combining classes, one-step canonical decompositions and the
      composition exclusions. */
  datatype Database = Database(ccc: map<nat, nat>, decomp: map<nat, seq<nat>>, excluded: set<nat>)

  /** What it writes. */
  datatype Tables = Tables(
    ccc: map<nat, nat>,
    decomp: map<nat, seq<nat>>,
    compose: map<(nat, nat), nat>,
    back: set<nat>)

  /** `cp` bottoms out within `depth` decomposition steps, which is what `full` insists on. */
  predicate Shallow(decomp: map<nat, seq<nat>>, cp: nat, depth: nat)
    decreases depth
  {
    cp in decomp ==>
      depth > 0 && forall i | 0 <= i < |decomp[cp]| :: Shallow(decomp, decomp[cp][i], depth - 1)
  }

  /** The deepest `full` goes before it reports a cycle. */
  const MAX_DEPTH := 8

  function ClassIn(ccc: map<nat, nat>, cp: nat): nat {
    if cp in ccc then ccc[cp] else 0
  }

  /** Facts of the Unicode Character Database that the generator relies on without a check of
      its own: classes are below 256, everything is a scalar value other than zero, a mapping is
      not empty, and the Hangul jamo have no mapping. */
  predicate IsDatabase(d: Database) {
    && (forall cp | cp in d.ccc :: d.ccc[cp] < 256)
    && (forall cp | cp in d.decomp :: cp != 0 && IsScalar(cp) && d.decomp[cp] != [])
    && (forall cp, i | cp in d.decomp && 0 <= i < |d.decomp[cp]| ::
          d.decomp[cp][i] != 0 && IsScalar(d.decomp[cp][i]))
    && (forall cp | cp in d.decomp :: !IsLead(cp) && !IsVowel(cp) && !IsTail(cp))
  }

  predicate ComposesTo(decomp: map<nat, seq<nat>>, pair: (nat, nat), cp: nat) {
    cp in decomp && decomp[cp] == [pair.0, pair.1]
  }

  /** Everything the runtime's normalisation needs of its tables. */
  predicate Valid(t: Tables) {
    && IsDatabase(Database(t.ccc, t.decomp, {}))
    && (forall cp | cp in t.decomp :: |t.decomp[cp]| <= 2)
    && (forall cp | cp in t.decomp :: !IsSyllable(cp))
    && (forall cp | cp in t.decomp :: Shallow(t.decomp, cp, MAX_DEPTH))
    && (forall p | p in t.compose :: ComposesTo(t.decomp, p, t.compose[p]))
    && (forall p | p in t.compose :: ClassIn(t.ccc, p.0) == 0)
    && (forall p | p in t.compose && ClassIn(t.ccc, p.1) == 0 :: p.1 in t.back)
    && (forall b | b in t.back :: ClassIn(t.ccc, b) == 0 && exists p | p in t.compose :: p.1 == b)
  }

  /** `full`'s recursion with its cycle check: does every path end within the depth left? */
  method FullEnds(decomp: map<nat, seq<nat>>, cp: nat, depth: nat) returns (ok: bool)
    ensures ok <==> Shallow(decomp, cp, depth)
    decreases depth
  {
    if cp !in decomp { return true; }
    if depth == 0 { return false; }
    for i := 0 to |decomp[cp]|
      invariant forall j | 0 <= j < i :: Shallow(decomp, decomp[cp][j], depth - 1)
    {
      var sub := FullEnds(decomp, decomp[cp][i], depth - 1);
      if !sub { return false; }
    }
    return true;
  }

  datatype Generated = Died | Written(tables: Tables)

  /** A dictionary's own order, in which the generator goes through it. */
  predicate OrderOf(order: seq<nat>, decomp: map<nat, seq<nat>>) {
    && (forall cp | cp in decomp :: cp in order)
    && (forall i | 0 <= i < |order| :: order[i] in decomp)
    && (forall i, j | 0 <= i < j < |order| :: order[i] != order[j])
  }

  method WidthsAreTwo(decomp: map<nat, seq<nat>>, order: seq<nat>) returns (ok: bool)
    requires OrderOf(order, decomp)
    ensures ok <==> forall cp | cp in decomp :: |decomp[cp]| <= 2
  {
    for n := 0 to |order|
      invariant forall i | 0 <= i < n :: |decomp[order[i]]| <= 2
    {
      if |decomp[order[n]]| > 2 { return false; }
    }
    ok := true;
  }

  /** A pair the derivation has to record: the whole mapping of a code point not excluded. */
  predicate Wanted(d: Database, cp: nat) {
    cp in d.decomp && |d.decomp[cp]| == 2 && cp !in d.excluded
  }

  predicate Derived(d: Database, p: (nat, nat), cp: nat) {
    Wanted(d, cp) && ComposesTo(d.decomp, p, cp) && ClassIn(d.ccc, p.0) == 0
  }

  /** Of the first n code points, cp is the last with this mapping: it is the one recorded. */
  predicate LastOf(d: Database, order: seq<nat>, n: nat, p: (nat, nat), cp: nat)
    requires n <= |order|
  {
    exists i | 0 <= i < n ::
      order[i] == cp && Derived(d, p, cp) && forall j | i < j < n :: !Derived(d, p, order[j])
  }

  ghost predicate Records(d: Database, order: seq<nat>, n: nat, compose: map<(nat, nat), nat>)
    requires n <= |order|
  {
    && (forall p | p in compose :: LastOf(d, order, n, p, compose[p]))
    && (forall i, p | 0 <= i < n && Derived(d, p, order[i]) :: p in compose)
  }

  lemma NotDerived(d: Database, order: seq<nat>, n: nat, compose: map<(nat, nat), nat>)
    requires n < |order| && Records(d, order, n, compose)
    requires !Wanted(d, order[n])
    ensures Records(d, order, n + 1, compose)
  {
  }

  /** A later composite with the same mapping takes the place of an earlier one. */
  lemma Recorded(d: Database, order: seq<nat>, n: nat, compose: map<(nat, nat), nat>, p: (nat, nat))
    requires n < |order| && Records(d, order, n, compose) && Derived(d, p, order[n])
    ensures Records(d, order, n + 1, compose[p := order[n]])
  {
    assert LastOf(d, order, n + 1, p, order[n]);
    forall q | q in compose && q != p
      ensures LastOf(d, order, n + 1, q, compose[q])
    {
      var i :| 0 <= i < n && order[i] == compose[q] && Derived(d, q, compose[q])
               && forall j | i < j < n :: !Derived(d, q, order[j]);
    }
  }

  method DeriveCompose(d: Database, order: seq<nat>) returns (ok: bool, compose: map<(nat, nat), nat>)
    requires OrderOf(order, d.decomp)
    ensures ok ==> Records(d, order, |order|, compose)
    ensures ok <==> forall cp | Wanted(d, cp) :: ClassIn(d.ccc, d.decomp[cp][0]) == 0
  {
    hide Records;
    compose := map[];
    assert Records(d, order, 0, compose) by { NothingRecorded(d, order); }
    for n := 0 to |order|
      invariant Records(d, order, n, compose)
      invariant forall i | 0 <= i < n && Wanted(d, order[i]) :: ClassIn(d.ccc, d.decomp[order[i]][0]) == 0
    {
      var cp := order[n];
      var to := d.decomp[cp];
      if |to| == 2 && cp !in d.excluded {
        if ClassIn(d.ccc, to[0]) != 0 {
          assert Wanted(d, cp);
          return false, compose;
        }
        Recorded(d, order, n, compose, (to[0], to[1]));
        compose := compose[(to[0], to[1]) := cp];
      } else {
        NotDerived(d, order, n, compose);
      }
    }
    ok := true;
  }

  lemma NothingRecorded(d: Database, order: seq<nat>)
    ensures Records(d, order, 0, map[])
  {
  }

  method NoSyllableMapped(decomp: map<nat, seq<nat>>) returns (ok: bool)
    ensures ok <==> forall cp | cp in decomp :: !IsSyllable(cp)
  {
    for cp := S_BASE to S_BASE + S_COUNT
      invariant forall c | S_BASE <= c < cp :: c !in decomp
    {
      if cp in decomp { return false; }
    }
    ok := true;
  }

  method AllEnd(decomp: map<nat, seq<nat>>, order: seq<nat>) returns (ok: bool)
    requires OrderOf(order, decomp)
    ensures ok <==> forall cp | cp in decomp :: Shallow(decomp, cp, MAX_DEPTH)
  {
    hide Shallow;
    for n := 0 to |order|
      invariant forall i | 0 <= i < n :: Shallow(decomp, order[i], MAX_DEPTH)
    {
      var ends := FullEnds(decomp, order[n], MAX_DEPTH);
      if !ends { return false; }
    }
    ok := true;
  }

  /** Every check on this data that ends the generator. */
  ghost predicate Refused(d: Database) {
    || (exists cp | cp in d.decomp :: |d.decomp[cp]| > 2)
    || (exists cp | Wanted(d, cp) :: ClassIn(d.ccc, d.decomp[cp][0]) != 0)
    || (exists cp | cp in d.decomp :: IsSyllable(cp))
    || (exists cp | cp in d.decomp :: !Shallow(d.decomp, cp, MAX_DEPTH))
  }

  /** generate.py's derivation, in its order. `Died` stands for each of its `die` calls on this
      data; what it writes is exactly what the runtime relies on. Two composites with one mapping
      are no reason to die: the later of them is the one recorded. */
  method Generate(d: Database, order: seq<nat>) returns (g: Generated)
    requires IsDatabase(d) && OrderOf(order, d.decomp)
    ensures g.Died? <==> Refused(d)
    ensures g.Written? ==> Valid(g.tables) && g.tables.ccc == d.ccc && g.tables.decomp == d.decomp
    ensures g.Written? ==> forall cp | Wanted(d, cp) :: (d.decomp[cp][0], d.decomp[cp][1]) in g.tables.compose
    ensures g.Written? ==> forall p | p in g.tables.compose :: LastOf(d, order, |order|, p, g.tables.compose[p])
  {
    hide Shallow, LastOf, IsDatabase;
    var narrow := WidthsAreTwo(d.decomp, order);
    if !narrow { return Died; }
    var starters, compose := DeriveCompose(d, order);
    if !starters { return Died; }
    var arithmetic := NoSyllableMapped(d.decomp);
    if !arithmetic { return Died; }
    var ends := AllEnd(d.decomp, order);
    if !ends { return Died; }
    var back := set p | p in compose && ClassIn(d.ccc, p.1) == 0 :: p.1;
    g := Written(Tables(d.ccc, d.decomp, compose, back));
    RecordsWanted(d, order, compose);
    BaseOnly(d);
  }

  lemma RecordsWanted(d: Database, order: seq<nat>, compose: map<(nat, nat), nat>)
    requires OrderOf(order, d.decomp) && Records(d, order, |order|, compose)
    requires forall cp | Wanted(d, cp) :: ClassIn(d.ccc, d.decomp[cp][0]) == 0
    ensures forall cp | Wanted(d, cp) :: (d.decomp[cp][0], d.decomp[cp][1]) in compose
    ensures forall p | p in compose :: Derived(d, p, compose[p])
  {
    forall cp | Wanted(d, cp)
      ensures (d.decomp[cp][0], d.decomp[cp][1]) in compose
    {
      assert Derived(d, (d.decomp[cp][0], d.decomp[cp][1]), cp);
    }
  }

  lemma BaseOnly(d: Database)
    requires IsDatabase(d)
    ensures IsDatabase(Database(d.ccc, d.decomp, {}))
  {
  }

  // ------------------------------------------------------------- range tables

  datatype Range = Range(lo: nat, hi: nat, v: nat)

  /** Sorted and disjoint, which is what makes bisection right. */
  predicate Sorted(rs: seq<Range>) {
    && (forall i | 0 <= i < |rs| :: rs[i].lo <= rs[i].hi)
    && (forall i, j | 0 <= i < j < |rs| :: rs[i].hi < rs[j].lo)
  }

  /** The value a table gives `cp`, said without searching. */
  ghost predicate Assigns(rs: seq<Range>, cp: nat, dflt: nat, v: nat) {
    || (exists i | 0 <= i < |rs| :: rs[i].lo <= cp <= rs[i].hi && v == rs[i].v)
    || ((forall i | 0 <= i < |rs| :: !(rs[i].lo <= cp <= rs[i].hi)) && v == dflt)
  }

  /** `range_lookup_or`: the one value the table gives. */
  method RangeLookupOr(tbl: seq<Range>, cp: nat, dflt: nat) returns (v: nat)
    requires Sorted(tbl)
    ensures forall w: nat :: Assigns(tbl, cp, dflt, w) <==> w == v
  {
    var lo, hi := 0, |tbl|;
    while lo < hi
      invariant lo <= hi <= |tbl|
      invariant forall i | 0 <= i < lo :: tbl[i].hi < cp
      invariant forall i | hi <= i < |tbl| :: cp < tbl[i].lo
    {
      var mid := lo + (hi - lo) / 2;
      if cp < tbl[mid].lo {
        hi := mid;
      } else if cp > tbl[mid].hi {
        lo := mid + 1;
      } else {
        return tbl[mid].v;
      }
    }
    v := dflt;
  }

  /** `coalesce`: neighbouring ranges that touch and agree become one, and no code point
      changes its value. */
  method Coalesce(rs: seq<Range>) returns (merged: seq<Range>)
    requires Sorted(rs)
    ensures Sorted(merged) && |merged| <= |rs|
    ensures forall cp: nat, dflt: nat, v: nat :: Assigns(merged, cp, dflt, v) <==> Assigns(rs, cp, dflt, v)
    ensures forall i | 0 < i < |merged| :: merged[i - 1].hi + 1 < merged[i].lo || merged[i - 1].v != merged[i].v
  {
    hide InRange, Assigns;
    merged := [];
    NothingInRange();
    for n := 0 to |rs|
      invariant Sorted(merged) && |merged| <= n
      invariant merged != [] ==> n > 0 && merged[|merged| - 1].hi == rs[n - 1].hi
      invariant n > 0 ==> merged != []
      invariant SameValues(merged, rs[..n])
      invariant forall i | 0 < i < |merged| :: merged[i - 1].hi + 1 < merged[i].lo || merged[i - 1].v != merged[i].v
    {
      var r := rs[n];
      assert rs[..n + 1] == rs[..n] + [r];
      if merged != [] && merged[|merged| - 1].v == r.v && merged[|merged| - 1].hi + 1 == r.lo {
        var last := merged[|merged| - 1];
        CoalesceExtends(merged, rs[..n], r);
        merged := merged[|merged| - 1 := Range(last.lo, r.hi, r.v)];
      } else {
        CoalesceAppends(merged, rs[..n], r);
        merged := merged + [r];
      }
    }
    assert rs[..|rs|] == rs;
    SameValuesAssign(merged, rs);
  }

  /** Every code point is in a range of value v of one table exactly when it is in one of the other. */
  ghost predicate SameValues(a: seq<Range>, b: seq<Range>) {
    forall cp: nat, v: nat :: InRange(a, cp, v) <==> InRange(b, cp, v)
  }

  predicate InRange(rs: seq<Range>, cp: nat, v: nat) {
    exists i | 0 <= i < |rs| :: rs[i].lo <= cp <= rs[i].hi && rs[i].v == v
  }

  lemma NothingInRange()
    ensures SameValues([], [])
  {
  }

  lemma CoalesceAppends(merged: seq<Range>, rs: seq<Range>, r: Range)
    requires SameValues(merged, rs)
    ensures SameValues(merged + [r], rs + [r])
  {
    forall cp: nat, v: nat
      ensures InRange(merged + [r], cp, v) <==> InRange(rs + [r], cp, v)
    {
      InRangeAppended(merged, r, cp, v);
      InRangeAppended(rs, r, cp, v);
    }
  }

  lemma CoalesceExtends(merged: seq<Range>, rs: seq<Range>, r: Range)
    requires SameValues(merged, rs) && merged != []
    requires var last := merged[|merged| - 1]; last.v == r.v && last.lo <= last.hi && last.hi + 1 == r.lo && r.lo <= r.hi
    ensures SameValues(merged[|merged| - 1 := Range(merged[|merged| - 1].lo, r.hi, r.v)], rs + [r])
  {
    var front, last := merged[..|merged| - 1], merged[|merged| - 1];
    var wide := Range(last.lo, r.hi, r.v);
    assert merged[|merged| - 1 := wide] == front + [wide];
    assert merged == front + [last];
    forall cp: nat, v: nat
      ensures InRange(front + [wide], cp, v) <==> InRange(rs + [r], cp, v)
    {
      InRangeAppended(front, wide, cp, v);
      InRangeAppended(front, last, cp, v);
      InRangeAppended(rs, r, cp, v);
    }
  }

  lemma InRangeAppended(rs: seq<Range>, r: Range, cp: nat, v: nat)
    ensures InRange(rs + [r], cp, v) <==> InRange(rs, cp, v) || (r.lo <= cp <= r.hi && r.v == v)
  {
    if InRange(rs, cp, v) {
      var i :| 0 <= i < |rs| && rs[i].lo <= cp <= rs[i].hi && rs[i].v == v;
      assert (rs + [r])[i] == rs[i];
    }
    if r.lo <= cp <= r.hi && r.v == v {
      assert (rs + [r])[|rs|] == r;
    }
  }

  lemma SameValuesAssign(a: seq<Range>, b: seq<Range>)
    requires SameValues(a, b)
    ensures forall cp: nat, dflt: nat, v: nat :: Assigns(a, cp, dflt, v) <==> Assigns(b, cp, dflt, v)
  {
    forall cp: nat, dflt: nat, v: nat
      ensures Assigns(a, cp, dflt, v) <==> Assigns(b, cp, dflt, v)
    {
      AssignsInRange(a, cp, dflt, v);
      AssignsInRange(b, cp, dflt, v);
      if !(exists w: nat :: InRange(a, cp, w)) {
        assert !(exists w: nat :: InRange(b, cp, w));
      }
    }
  }

  lemma AssignsInRange(rs: seq<Range>, cp: nat, dflt: nat, v: nat)
    ensures Assigns(rs, cp, dflt, v) <==> InRange(rs, cp, v) || (!(exists w: nat :: InRange(rs, cp, w)) && v == dflt)
  {
    if exists i | 0 <= i < |rs| :: rs[i].lo <= cp <= rs[i].hi {
      var i :| 0 <= i < |rs| && rs[i].lo <= cp <= rs[i].hi;
      assert InRange(rs, cp, rs[i].v);
    }
  }
}
