/** What every run of the unwinding machine conserves, and what a completed goto or halt has done. */
module UnwindingTheorems {
  import opened Unwinding
  import opened UnwindingLists
  import opened UnwindingSteps
  import opened UnwindingPlaces

  // -------------------------------------------------------------- conservation

  lemma {:induction false} TimesAppend(log: seq<Event>, more: seq<Event>, tag: Tag, x: nat)
    ensures Times(log + more, tag, x) == Times(log, tag, x) + Times(more, tag, x)
  {
    if log == [] {
      assert log + more == more;
    } else {
      assert (log + more)[0] == log[0] && (log + more)[1..] == log[1..] + more;
      TimesAppend(log[1..], more, tag, x);
    }
  }

  lemma {:induction false} CountAppend(a: seq<Id>, b: seq<Id>, x: Id)
    ensures Count(a + b, x) == Count(a, x) + Count(b, x)
  {
    if a == [] {
      assert a + b == b;
    } else {
      assert (a + b)[0] == a[0] && (a + b)[1..] == a[1..] + b;
      CountAppend(a[1..], b, x);
    }
  }

  lemma {:induction false} NotCounted(s: seq<Id>, x: Id)
    requires x !in s
    ensures Count(s, x) == 0
  {
    if s != [] { NotCounted(s[1..], x); }
  }

  lemma {:induction false} HoldingAppend(a: seq<Slot>, b: seq<Slot>, v: nat)
    ensures Holding(a + b, v) == Holding(a, v) + Holding(b, v)
  {
    if a == [] {
      assert a + b == b;
    } else {
      assert (a + b)[0] == a[0] && (a + b)[1..] == a[1..] + b;
      HoldingAppend(a[1..], b, v);
    }
  }

  lemma {:induction false} WithoutCount(s: seq<Id>, id: Id, x: Id)
    ensures Count(Without(s, id), x) + (if x == id && id in s then 1 else 0) == Count(s, x)
  {
    if s != [] && s[0] != id {
      WithoutCount(s[1..], id, x);
      assert s == [s[0]] + s[1..];
    }
  }

  lemma {:induction false} TaggedTimes(tag: Tag, ids: seq<Id>, u: Tag, x: nat)
    ensures Times(Tagged(tag, ids), u, x) == if u == tag then Count(ids, x) else 0
  {
    if ids != [] {
      TaggedTimes(tag, ids[1..], u, x);
      assert Tagged(tag, ids)[1..] == Tagged(tag, ids[1..]);
    }
  }

  lemma {:induction false} DownCount(lo: nat, n: nat, x: nat)
    ensures Count(Down(lo, n), x) == if lo <= x < lo + n then 1 else 0
  {
    if n > 0 {
      DownCount(lo, n - 1, x);
      assert Down(lo, n)[1..] == Down(lo, n - 1);
    }
  }

  lemma {:induction false} EmptyHolds(ids: seq<Id>, v: nat)
    ensures Holding(Empty(ids), v) == 0
  {
    if ids != [] {
      EmptyHolds(ids[1..], v);
      assert Empty(ids)[1..] == Empty(ids[1..]);
    }
  }

  lemma ClosingTimes(v: Option<nat>, u: Tag, x: nat)
    ensures Times(Closing(v), u, x) == if u == Closed then Is(v, x) else 0
    ensures Times(Getting(v), u, x) == if u == Got then Is(v, x) else 0
  {
  }

  lemma OneTimes(e: Event, u: Tag, x: nat)
    ensures Times([e], u, x) == (if e == Event(u, x) then 1 else 0) && Times([], u, x) == 0
  {
  }

  lemma {:induction false} SlotsDoneTimes(slots: seq<Slot>, u: Tag, x: nat)
    ensures Times(SlotsDone(slots), u, x) ==
            if u == SlotDone then Count(SlotIds(slots), x) else if u == Closed then Holding(slots, x) else 0
  {
    if slots != [] {
      var a, b, c := Closing(slots[0].held), [Event(SlotDone, slots[0].id)], SlotsDone(slots[1..]);
      SlotsDoneTimes(slots[1..], u, x);
      TimesAppend(a + b, c, u, x);
      TimesAppend(a, b, u, x);
      ClosingTimes(slots[0].held, u, x);
      OneTimes(b[0], u, x);
      assert SlotIds(slots)[1..] == SlotIds(slots[1..]);
    }
  }

  lemma {:induction false} HoldingChanged(slots: seq<Slot>, id: Id, v: Option<nat>, x: nat)
    ensures id in SlotIds(slots) ==>
              && Holding(Put(slots, id, v), x) + Is(HeldBy(slots, id), x) == Holding(slots, x) + Is(v, x)
              && HeldBy(Put(slots, id, v), id) == v
    ensures Holding(SlotsWithout(slots, id), x) + Is(HeldBy(slots, id), x) == Holding(slots, x)
  {
    if slots != [] {
      var rest := slots[1..];
      if slots[0].id == id {
        assert Put(slots, id, v)[1..] == rest;
      } else {
        HoldingChanged(rest, id, v, x);
        assert Put(slots, id, v)[1..] == Put(rest, id, v);
        assert SlotsWithout(slots, id)[1..] == SlotsWithout(rest, id);
      }
    }
  }

  predicate CountsAt(s: State, x: nat) { ConservedAt(s, x) && NumberedAt(s, x) }

  /** The new tallies of a step that appends `more` to the log. */
  lemma Tallies(log: seq<Event>, more: seq<Event>, x: nat)
    ensures forall tag: Tag :: Times(log + more, tag, x) == Times(log, tag, x) + Times(more, tag, x)
  {
    forall tag: Tag
      ensures Times(log + more, tag, x) == Times(log, tag, x) + Times(more, tag, x)
    {
      TimesAppend(log, more, tag, x);
    }
  }

  lemma EnterTimes(s: State, nd: bool, nf: nat, nh: nat, tag: Tag, x: nat)
    ensures Times(EnterLog(s, nd, nf, nh), tag, x) ==
            match tag
            case DeferInit => if nd && x == s.serial + nf + nh then 1 else 0
            case FileInit => if s.serial <= x < s.serial + nf then 1 else 0
            case SlotInit => if s.serial + nf <= x < s.serial + nf + nh then 1 else 0
            case _ => 0
  {
    hide Tagged, Times, Count, Down;
    var ds := if nd then [s.serial + nf + nh] else [];
    var fs, hs := Down(s.serial, nf), Down(s.serial + nf, nh);
    TaggedTimes(DeferInit, ds, tag, x);
    TaggedTimes(FileInit, fs, tag, x);
    TaggedTimes(SlotInit, hs, tag, x);
    DownCount(s.serial, nf, x);
    DownCount(s.serial + nf, nh, x);
    OptionalCount(s.serial + nf + nh, nd, x);
    TimesAppend(Tagged(DeferInit, ds), Tagged(FileInit, fs), tag, x);
    TimesAppend(Tagged(DeferInit, ds) + Tagged(FileInit, fs), Tagged(SlotInit, hs), tag, x);
  }

  lemma OptionalCount(n: nat, nd: bool, x: nat)
    ensures Count(if nd then [n] else [], x) == if nd && x == n then 1 else 0
  {
  }

  lemma EnterCounts(s: State, nd: bool, nf: nat, nh: nat, x: nat)
    requires CountsAt(s, x)
    ensures CountsAt(EnterBlock(s, nd, nf, nh), x)
  {
    hide Times, Down, SlotIds, Holding, Tagged, Empty, Count, EnterLog;
    var ds := if nd then [s.serial + nf + nh] else [];
    var fs, hs := Down(s.serial, nf), Down(s.serial + nf, nh);
    assert EnterBlock(s, nd, nf, nh).log == s.log + EnterLog(s, nd, nf, nh) by { EnterLogIs(s, nd, nf, nh); }
    Tallies(s.log, EnterLog(s, nd, nf, nh), x);
    forall tag: Tag { EnterTimes(s, nd, nf, nh, tag, x); }
    DownCount(s.serial, nf, x);
    DownCount(s.serial + nf, nh, x);
    OptionalCount(s.serial + nf + nh, nd, x);
    CountAppend(ds, s.defers, x);
    CountAppend(fs, s.files, x);
    SlotIdsAppend(Empty(hs), s.slots);
    SlotIdsEmpty(hs);
    CountAppend(hs, SlotIds(s.slots), x);
    HoldingAppend(Empty(hs), s.slots, x);
    EmptyHolds(hs, x);
  }

  lemma EnterLogIs(s: State, nd: bool, nf: nat, nh: nat)
    ensures EnterBlock(s, nd, nf, nh).log == s.log + EnterLog(s, nd, nf, nh)
  {
  }

  /** The step changes the stack and what is noted for the proofs, and nothing that is counted. */
  lemma SameCounts(s: State, s': State, more: seq<Event>, x: nat)
    requires CountsAt(s, x) && s' == s.(stack := s'.stack, heap := s'.heap, log := s'.log) && s'.log == s.log + more
    requires forall e | e in more :: e.tag in {Disposed, Lost, Astray, AstrayVars, Exited}
    ensures CountsAt(s', x)
  {
    hide Times, Count, Holding, SlotIds;
    Tallies(s.log, more, x);
    forall u: Tag | u !in {Disposed, Lost, Astray, AstrayVars, Exited}
      ensures Times(more, u, x) == 0
    {
      NoTimes(more, u, x);
    }
  }

  lemma {:induction false} NoTimes(log: seq<Event>, u: Tag, x: nat)
    requires forall e | e in log :: e.tag != u
    ensures Times(log, u, x) == 0
  {
    if log != [] {
      assert log[0] in log;
      NoTimes(log[1..], u, x);
    }
  }

  lemma RunCounts(s: State, d: Id, x: nat)
    requires d in s.defers && CountsAt(s, x)
    ensures CountsAt(RunDeferred(s, d), x)
  {
    hide Times, Count, SlotIds, Holding;
    Tallies(s.log, [Event(Ran, d)], x);
    forall u: Tag { OneTimes(Event(Ran, d), u, x); }
    WithoutCount(s.defers, d, x);
  }

  lemma FileGoesCounts(s: State, id: Id, why: seq<Event>, x: nat)
    requires CountsAt(s, x) && (why == [] || why == [Event(Disposed, id)])
    ensures CountsAt(FileGoes(s, id, why), x)
  {
    hide Times, Count, SlotIds, Holding, Without;
    var e := [Event(FileDone, id)];
    forall u: Tag { OneTimes(Event(FileDone, id), u, x); }
    forall u: Tag { OneTimes(Event(Disposed, id), u, x); }
    Tallies(s.log, why, x);
    Tallies(s.log, why + e, x);
    Tallies(why, e, x);
    WithoutCount(s.files, id, x);
  }

  lemma SlotGoesCounts(s: State, id: Id, why: seq<Event>, x: nat)
    requires CountsAt(s, x) && (why == [] || why == [Event(Disposed, id)])
    ensures CountsAt(SlotGoes(s, id, why), x)
  {
    hide Times, Count, SlotIds, Holding, Without, HeldBy, SlotsWithout, Closing;
    var v := if id in SlotIds(s.slots) then HeldBy(s.slots, id) else HeldBy(s.loose, id);
    var e := if id in SlotIds(s.slots) then [Event(SlotDone, id)] else [];
    assert Closing(v) + [] == Closing(v);
    Tallies(s.log, why + (Closing(v) + e), x);
    forall u: Tag { GoesTimes(why, v, e, id, u, x); }
    if id in SlotIds(s.slots) {
      WithoutCount(SlotIds(s.slots), id, x);
      SlotIdsChanged(s.slots, id, None);
      HoldingChanged(s.slots, id, None, x);
    } else {
      HoldingChanged(s.loose, id, None, x);
    }
  }

  lemma GoesTimes(why: seq<Event>, v: Option<nat>, e: seq<Event>, id: Id, u: Tag, x: nat)
    requires (why == [] || why == [Event(Disposed, id)]) && (e == [] || e == [Event(SlotDone, id)])
    ensures Times(why + (Closing(v) + e), u, x) ==
            match u
            case Closed => Is(v, x)
            case SlotDone => if e != [] && x == id then 1 else 0
            case Disposed => if why != [] && x == id then 1 else 0
            case _ => 0
  {
    hide Times, Closing;
    TimesAppend(why, Closing(v) + e, u, x);
    TimesAppend(Closing(v), e, u, x);
    ClosingTimes(v, u, x);
    OneTimes(Event(Disposed, id), u, x);
    OneTimes(Event(SlotDone, id), u, x);
  }

  /** Everything held, wherever the variable's record is. */
  function AllHolding(s: State, x: nat): nat { Holding(s.slots, x) + Holding(s.loose, x) }

  lemma WithValueHolds(s: State, id: Id, v: Option<nat>, x: nat)
    requires Live(s, id)
    ensures AllHolding(WithValue(s, id, v), x) + Is(ValueOf(s, id), x) == AllHolding(s, x) + Is(v, x)
    ensures SlotIds(WithValue(s, id, v).slots) == SlotIds(s.slots) && SlotIds(WithValue(s, id, v).loose) == SlotIds(s.loose)
    ensures ValueOf(WithValue(s, id, v), id) == v
    ensures WithValue(s, id, v) == s.(slots := WithValue(s, id, v).slots, loose := WithValue(s, id, v).loose)
  {
    SlotIdsChanged(s.slots, id, v);
    SlotIdsChanged(s.loose, id, v);
    HoldingChanged(s.slots, id, v, x);
    HoldingChanged(s.loose, id, v, x);
  }

  /** An assignment closes what the variable held and has it hold the new value. */
  lemma AssignedCounts(s: State, id: Id, v: Option<nat>, x: nat)
    requires Live(s, id)
    ensures var s' := Assigned(s, id, v);
            && AllHolding(s', x) + Is(ValueOf(s, id), x) == AllHolding(s, x) + Is(v, x)
            && SlotIds(s'.slots) == SlotIds(s.slots) && s' == s.(log := s'.log, slots := s'.slots, loose := s'.loose)
            && forall u: Tag :: Times(s'.log, u, x) == Times(s.log, u, x) + if u == Closed then Is(ValueOf(s, id), x) else 0
  {
    hide Times, SlotIds, Holding, WithValue, ValueOf, Closing, AllHolding;
    var c := Closing(ValueOf(s, id));
    WithValueHolds(Logged(s, c), id, v, x);
    ValueSame(s, Logged(s, c), id);
    forall u: Tag { ClosingTimes(ValueOf(s, id), u, x); }
    Tallies(s.log, c, x);
    assert AllHolding(Logged(s, c), x) == AllHolding(s, x) by { SameHolding(s, c, x); }
    assert Assigned(s, id, v) == WithValue(Logged(s, c), id, v);
    assert Assigned(s, id, v).log == s.log + c;
  }

  lemma SameHolding(s: State, more: seq<Event>, x: nat)
    ensures AllHolding(Logged(s, more), x) == AllHolding(s, x)
  {
  }

  lemma AssignCounts(s: State, a: Act, x: nat)
    requires CountsAt(s, x) && Enabled(s, a) && (a.Set? || a.Move? || a.Release?)
    ensures CountsAt(Do(s, a), x)
  {
    hide Times, Count, SlotIds, Holding, WithValue, ValueOf, Getting, Assigned, Fresh;
    match a
    case Set(id, v) =>
      var s1 := Logged(s, Getting(v));
      AssignedCounts(s1, id, v, x);
      forall u: Tag { ClosingTimes(v, u, x); }
      Tallies(s.log, Getting(v), x);
    case Move(src, dst) =>
      WithValueHolds(s, src, None, x);
      AssignedCounts(WithValue(s, src, None), dst, ValueOf(s, src), x);
    case Release(id) => AssignedCounts(s, id, None, x);
  }

  lemma ValueSame(s: State, s': State, id: Id)
    requires s'.slots == s.slots && s'.loose == s.loose
    ensures ValueOf(s', id) == ValueOf(s, id) && (Live(s', id) <==> Live(s, id))
  {
  }

  /** Closing the top of both lists, which is what landing and the end of `halt` do. */
  lemma CloseCounts(s: State, s': State, i: nat, j: nat, last: seq<Event>, x: nat)
    requires CountsAt(s, x)
    requires i <= |s.files| && j <= |s.slots|
    requires s'.defers == s.defers && s'.files == s.files[i..] && s'.slots == s.slots[j..] && s'.serial == s.serial
    requires Holding(s'.loose, x) == Holding(s.loose, x)
    requires forall e | e in last :: e.tag in {Disposed, Lost, Astray, AstrayVars, Exited}
    requires s'.log == s.log + (Tagged(FileDone, s.files[..i]) + SlotsDone(s.slots[..j]) + last)
    ensures CountsAt(s', x)
  {
    hide Tagged, SlotsDone, Holding, SlotIds, Times, Count;
    var fs: seq<Id>, hs := s.files[..i], s.slots[..j];
    assert s.files == fs + s.files[i..] && s.slots == hs + s.slots[j..];
    CountAppend(fs, s.files[i..], x);
    SlotIdsAppend(hs, s.slots[j..]);
    CountAppend(SlotIds(hs), SlotIds(s.slots[j..]), x);
    HoldingAppend(hs, s.slots[j..], x);
    Tallies(s.log, Tagged(FileDone, fs) + SlotsDone(hs) + last, x);
    Tallies(Tagged(FileDone, fs) + SlotsDone(hs), last, x);
    Tallies(Tagged(FileDone, fs), SlotsDone(hs), x);
    forall u: Tag | u !in {Disposed, Lost, Astray, AstrayVars, Exited}
      ensures Times(last, u, x) == 0
    {
      NoTimes(last, u, x);
    }
    forall u: Tag
      ensures Times(Tagged(FileDone, fs), u, x) == if u == FileDone then Count(fs, x) else 0
      ensures Times(SlotsDone(hs), u, x) ==
              if u == SlotDone then Count(SlotIds(hs), x) else if u == Closed then Holding(hs, x) else 0
    {
      TaggedTimes(FileDone, fs, u, x);
      SlotsDoneTimes(hs, u, x);
    }
  }

  lemma LandCounts(s: State, t: nat, mark: Mark, limit: nat, x: nat)
    requires CountsAt(s, x) && 0 < t <= |s.stack|
    ensures CountsAt(Land(s, t, mark, limit), x)
  {
    hide Times, Count, Holding, Tagged, SlotsDone, Strayed, Above, SlotIds;
    var i, j := Above(s.at, s.files, mark.f), LandSlots(s, mark);
    EmptyHolds(SlotIds(s.slots[..j]), x);
    HoldingAppend(Empty(SlotIds(s.slots[..j])), s.loose, x);
    StrayedTags(s, mark, limit);
    CloseCounts(s, Land(s, t, mark, limit), i, j, Strayed(s, mark, limit), x);
  }

  lemma FinishCounts(s: State, status: nat, x: nat)
    requires CountsAt(s, x)
    ensures CountsAt(Finish(s, status), x)
  {
    assert s.files[..|s.files|] == s.files && s.slots[..|s.slots|] == s.slots;
    CloseCounts(s, Finish(s, status), |s.files|, |s.slots|, [Event(Exited, status)], x);
  }

  lemma StackCounts(s: State, s': State, x: nat)
    requires CountsAt(s, x) && s' == s.(stack := s'.stack, heap := s'.heap)
    ensures CountsAt(s', x)
  {
    assert s'.log == s.log + [];
    SameCounts(s, s', [], x);
  }

  lemma NewCounts(s: State, nf: nat, nh: nat, x: nat)
    requires CountsAt(s, x)
    ensures CountsAt(NewVariable(s, nf, nh), x)
  {
    EnterCounts(s, false, nf, nh, x);
    StackCounts(EnterBlock(s, false, nf, nh), NewVariable(s, nf, nh), x);
  }

  lemma StepCounts(s: State, a: Act, x: nat)
    requires Sound(s) && Enabled(s, a) && CountsAt(s, x)
    ensures CountsAt(Do(s, a), x)
  {
    hide Sound, RunDeferred, Land, EnterBlock, NewVariable, Finish, CountsAt, FileGoes, SlotGoes, WalkOn, EpilogueStep;
    var top := s.stack[0];
    match a
    case Enter(nd, nf, nh) => EnterCounts(s, nd, nf, nh, x);
    case New(nf, nh) => NewCounts(s, nf, nh, x);
    case DropFile(id) =>
      StackCounts(s, s.(heap := s.heap - {id}), x);
      FileGoesCounts(s.(heap := s.heap - {id}), id, [Event(Disposed, id)], x);
    case DropSlot(id) =>
      StackCounts(s, s.(heap := s.heap - {id}), x);
      SlotGoesCounts(s.(heap := s.heap - {id}), id, [Event(Disposed, id)], x);
    case Leave => StackCounts(s, Do(s, a), x);
    case EndFile(id) =>
      var s1 := WithTop(s, top.(own := top.own.(files := Without(top.own.files, id))));
      StackCounts(s, s1, x);
      FileGoesCounts(s1, id, [], x);
    case EndSlot(id) =>
      var s1 := WithTop(s, top.(own := top.own.(slots := Without(top.own.slots, id))));
      StackCounts(s, s1, x);
      SlotGoesCounts(s1, id, [], x);
    case Goto(t) => GotoCounts(s, t, x);
    case Halt(_) => StackCounts(s, Do(s, a), x);
    case Set(_, _) => AssignCounts(s, a, x);
    case Move(_, _) => AssignCounts(s, a, x);
    case Release(_) => AssignCounts(s, a, x);
    case Go => GoCounts(s, x);
  }

  lemma GotoCounts(s: State, t: nat, x: nat)
    requires CanReach(s.stack, t) && CountsAt(s, x)
    ensures CountsAt(BeginJump(s, t), x)
  {
    hide CountsAt;
    var to := Target(s.stack, t);
    SameCounts(s, BeginJump(s, t), if Gone(to.mark.d, s.defers) then [Event(Lost, to.armed)] else [], x);
  }

  lemma GoCounts(s: State, x: nat)
    requires Sound(s) && Enabled(s, Go) && CountsAt(s, x)
    ensures CountsAt(Do(s, Go), x)
  {
    hide RunDeferred, Land, Finish, CountsAt, Sound;
    var top := s.stack[0];
    match top.job
    case Epilogue(_) =>
      if top.own.defer.Some? {
        var s1 := WithTop(s, top.(own := top.own.(defer := None)));
        StackCounts(s, s1, x);
        if top.own.defer.value in s.defers { RunCounts(s1, top.own.defer.value, x); }
      } else {
        StackCounts(s, Do(s, Go), x);
      }
    case Jumping(t, cursor, _, _, mark, limit) =>
      if cursor == None || cursor == mark.d {
        LandCounts(s, t, mark, limit, x);
      } else {
        var s1 := WithTop(s, top.(job := top.job.(cursor := NextOf(s.defers, cursor.value))));
        StackCounts(s, s1, x);
        if cursor.value in s.defers { RunCounts(s1, cursor.value, x); }
      }
    case Halting(status, _, _) => if s.defers != [] { RunCounts(s, s.defers[0], x); } else { FinishCounts(s, status, x); }
  }

  // ------------------------------------------------------------------ every run

  lemma StepKeeps(s: State, a: Act)
    requires Inv(s) && Enabled(s, a)
    ensures Inv(Do(s, a))
  {
    hide Do, Enabled, Sound, Placed, Drained, ConservedAt, NumberedAt;
    StepSound(s, a) by { assert Placed(s); PlacedMarks(s); }
    StepPlaced(s, a);
    forall x: nat
      ensures ConservedAt(Do(s, a), x) && NumberedAt(Do(s, a), x)
    {
      assert ConservedAt(s, x) && NumberedAt(s, x);
      StepCounts(s, a, x);
    }
    StepOver(s, a);
  }

  lemma PlacedMarks(s: State)
    requires Placed(s)
    ensures MarksSited(s) && Apart(s) && Held(s.stack)
  {
  }

  lemma StepOver(s: State, a: Act)
    requires Enabled(s, a)
    ensures Do(s, a).over ==> Do(s, a).stack == [] && Do(s, a).files == [] && Do(s, a).slots == []
  {
  }

  lemma {:induction false} RunKeeps(run: seq<State>, i: nat)
    requires Run(run) && i < |run|
    ensures Inv(run[i])
  {
    hide Do, Enabled, Inv;
    if i == 0 {
      InitInv(run[0]);
    } else {
      RunKeeps(run, i - 1);
      assert Next(run[i - 1], run[i]);
      var a: Act :| Enabled(run[i - 1], a) && run[i] == Do(run[i - 1], a);
      StepKeeps(run[i - 1], a);
    }
  }

  lemma InitInv(s: State)
    requires Init(s)
    ensures Inv(s)
  {
  }

  // ------------------------------------------------------------------- theorems

  /** The walk of the deferred blocks has come to the mark or to the end of the list. */
  ghost predicate AboutToLand(s: State) {
    && s.stack != [] && s.stack[0].job.Jumping? && Enabled(s, Go)
    && var j := s.stack[0].job; (j.cursor == None || j.cursor == j.mark.d)
  }

  /** The deferred mark was on the list when the goto began, and no landing inside a runner that the
      goto ran has gone astray. */
  predicate MarkMet(s: State)
    requires s.stack != [] && s.stack[0].job.Jumping?
  {
    var j := s.stack[0].job;
    j.mark.d.Some? && j.mark.d.value in j.before.defers && !Since(s.log, j.since, Astray)
  }

  /** What the walk along one list leaves: everything from the first record at the mark's address on.
      That record is the mark's own, or a later one in the same place, or there is none. What was
      registered before the target armed is left, and nothing else, if and only if it is the mark's
      own or there was none and nothing older; a later one leaves younger records on the list. */
  predicate WalkLeaves(at: Id -> Address, s: seq<Id>, s': seq<Id>, mark: Option<Id>, limit: nat) {
    var first := FirstAt(at, s, mark);
    && Head(s') == first && |s'| <= |s| && s' == s[|s| - |s'|..]
    && (first == mark || first == None || limit <= first.value)
    && (s' == Below(s, limit) <==> first == mark || (first == None && Below(s, limit) == []))
    && (Bounded(s', limit) <==> first == mark || first == None)
    && (!Missed(at, s, mark) ==> forall x | x in s && x < limit :: x in s')
  }

  /** What a goto that lands has done, for every run. The runners found and not left were run once
      each, from the head on, and what is left of them is exactly the surviving blocks' if and only
      if the mark was met or there was nothing older; only then were files closed, and then handles,
      each list from the most recent record back to where its walk stopped. */
  lemma GotoCutsToMarks(run: seq<State>, i: nat)
    requires Run(run) && i < |run| && AboutToLand(run[i])
    ensures var s := run[i];
            var s' := Do(s, Go);
            var j := s.stack[0].job;
            && |s'.stack| == j.target <= |s.stack| && s'.stack[1..] == s.stack[|s.stack| - j.target + 1..]
            && j.since <= |s.log| && Bounded(s'.defers, j.limit)
            && RanOf(s.log[j.since..], j.before.defers) + s'.defers == j.before.defers
            && (s'.defers == Below(j.before.defers, j.limit) <==> MarkMet(s) || Below(j.before.defers, j.limit) == [])
            && (Head(s'.defers) == j.mark.d <==> MarkMet(s) || j.mark.d == None)
            && WalkLeaves(s.at, s.files, s'.files, j.mark.f, j.limit)
            && WalkLeaves(s.at, SlotIds(s.slots), SlotIds(s'.slots), j.mark.h, j.limit)
            && ClosedFromTheTop(s, s')
  {
    hide Land, Sound, Placed, Drained, Below, FrameAccounted, ClosedFromTheTop, WalkLeaves, MarkMet, Bounded;
    var s := run[i];
    RunKeeps(run, i);
    PlacedMarks(s);
    LandStacks(s);
    LandDefers(s);
    LandLists(s);
    LandCloses(s);
  }

  /** Between s and s' exactly the first records of the two lists were closed: files, then handles,
      each from the most recent back. */
  ghost predicate ClosedFromTheTop(s: State, s': State) {
    && |s'.files| <= |s.files| && |s'.slots| <= |s.slots|
    && var nf, nh := |s.files| - |s'.files|, |s.slots| - |s'.slots|;
    && s'.files == s.files[nf..] && s'.slots == s.slots[nh..]
    && exists more :: NoClosing(more) && s'.log == s.log + (Tagged(FileDone, s.files[..nf]) + SlotsDone(s.slots[..nh]) + more)
  }

  predicate NoClosing(more: seq<Event>) { forall e | e in more :: e.tag == Astray || e.tag == AstrayVars }

  function Landing(s: State): State
    requires s.stack != [] && s.stack[0].job.Jumping? && 0 < s.stack[0].job.target <= |s.stack|
  {
    Land(s, s.stack[0].job.target, s.stack[0].job.mark, s.stack[0].job.limit)
  }

  lemma LandStacks(s: State)
    requires Sound(s) && MarksSited(s) && AboutToLand(s)
    ensures var j := s.stack[0].job;
            && 0 < j.target < |s.stack| && Do(s, Go) == Landing(s)
            && |Landing(s).stack| == j.target && Landing(s).stack[1..] == s.stack[|s.stack| - j.target + 1..]
  {
    hide Sound;
    TargetAt(s);
    var k: nat := |s.stack| - s.stack[0].job.target;
    assert s.stack[k..][1..] == s.stack[k + 1..];
  }

  lemma LandDefers(s: State)
    requires Sound(s) && Drained(s) && AboutToLand(s) && 0 < s.stack[0].job.target <= |s.stack|
    ensures var j := s.stack[0].job;
            && Landing(s).defers == s.defers && j.since <= |s.log| && Bounded(s.defers, j.limit)
            && RanOf(s.log[j.since..], j.before.defers) + s.defers == j.before.defers
            && (s.defers == Below(j.before.defers, j.limit) <==> MarkMet(s) || Below(j.before.defers, j.limit) == [])
            && (Head(s.defers) == j.mark.d <==> MarkMet(s) || j.mark.d == None)
  {
    hide Sound, Since, Has, RanOf, Sorted, Bounded;
    JumpTop(s);
    var f := s.stack[0];
    var j := f.job;
    assert f in s.stack;
    SuffixBelow(j.before.defers, RanOf(s.log[j.since..], j.before.defers), s.defers, j.mark.d, j.limit);
  }

  /** The rest of a list when the walk has ended: at the mark, or with nothing left. */
  lemma SuffixBelow(before: seq<Id>, gone: seq<Id>, left: seq<Id>, mark: Option<Id>, limit: nat)
    requires Sorted(before) && gone + left == before && Bounded(left, limit) && Fits(before, mark, limit)
    requires left != [] ==> mark == Head(left)
    ensures left != [] ==> left == Below(before, limit) && mark.value in before && mark.value in left
  {
    if left != [] {
      FirstIn(left);
      assert before[|gone|] == left[0];
      forall x | x in gone
        ensures limit <= x
      {
        var i :| 0 <= i < |gone| && gone[i] == x;
        assert before[i] == x && before[|gone|] == left[0] && x in before;
      }
      BelowAppend(gone, left, limit);
      BelowAll(left, limit);
    }
  }

  lemma OneWalk(at: Id -> Address, s: seq<Id>, mark: Option<Id>, limit: nat)
    requires Sorted(s) && Fits(s, mark, limit) && Sited(at, s, mark, limit)
    ensures WalkLeaves(at, s, s[Above(at, s, mark)..], mark, limit)
  {
    hide Missed, Sited, Fits, Below;
    var s' := s[Above(at, s, mark)..];
    WalkCuts(at, s, mark, limit);
    BelowFacts(s, limit);
    FirstIn(s');
    MarkYounger(s, mark, limit);
    CutAt(s, Above(at, s, mark));
  }

  lemma MarkYounger(s: seq<Id>, mark: Option<Id>, limit: nat)
    requires Fits(s, mark, limit)
    ensures mark.Some? ==> mark.value < limit
  {
  }

  lemma LandLists(s: State)
    requires Sound(s) && MarksSited(s) && AboutToLand(s) && 0 < s.stack[0].job.target <= |s.stack|
    ensures var j := s.stack[0].job;
            var s' := Landing(s);
            && WalkLeaves(s.at, s.files, s'.files, j.mark.f, j.limit)
            && WalkLeaves(s.at, SlotIds(s.slots), SlotIds(s'.slots), j.mark.h, j.limit)
  {
    hide Sound, Sorted, Fits, Sited, MarksSited, Below, Bounded, VarsKept, NoNews, CursorGood, FrameAccounted, WalkLeaves, Above;
    JumpTop(s);
    TargetAt(s);
    var j := s.stack[0].job;
    LandVars(s, j.target, j.mark, j.limit);
    OneWalk(s.at, s.files, j.mark.f, j.limit);
    OneWalk(s.at, SlotIds(s.slots), j.mark.h, j.limit);
  }

  lemma LandCloses(s: State)
    requires Sound(s) && AboutToLand(s) && 0 < s.stack[0].job.target <= |s.stack|
    ensures ClosedFromTheTop(s, Landing(s))
  {
    hide Sound, Above, SlotsDone, Tagged, Strayed;
    var j := s.stack[0].job;
    StrayedTags(s, j.mark, j.limit);
    assert NoClosing(Strayed(s, j.mark, j.limit));
  }

  /** The walk along files or handles, told from where the goto begins: a mark that was gone already
      is never found; one that was there is, unless a landing inside one of the runners misses its
      mark or the program disposes of this one's variable meanwhile. */
  lemma MarksFromTheStart(run: seq<State>, i: nat)
    requires Run(run) && i < |run| && AboutToLand(run[i])
    ensures var s := run[i];
            var j := s.stack[0].job;
            var f, h := FirstAt(s.at, s.files, j.mark.f), FirstAt(s.at, SlotIds(s.slots), j.mark.h);
            && j.since <= |s.log|
            && (f == j.mark.f <==> !Gone(j.mark.f, s.files)) && (h == j.mark.h <==> !Gone(j.mark.h, SlotIds(s.slots)))
            && (Gone(j.mark.f, j.before.files) ==> f != j.mark.f) && (Gone(j.mark.h, j.before.slots) ==> h != j.mark.h)
            && (!Since(s.log, j.since, AstrayVars) && (j.mark.f.Some? ==> Event(Disposed, j.mark.f.value) !in s.log[j.since..]) ==>
                  (f == j.mark.f <==> !Gone(j.mark.f, j.before.files)))
            && (!Since(s.log, j.since, AstrayVars) && (j.mark.h.Some? ==> Event(Disposed, j.mark.h.value) !in s.log[j.since..]) ==>
                  (h == j.mark.h <==> !Gone(j.mark.h, j.before.slots)))
  {
    hide Sound, Since, Has, Sorted, SlotIds, RanOf, FirstAt, Held, MarksSited, Drained;
    var s := run[i];
    RunKeeps(run, i);
    JumpTop(s);
    TargetAt(s);
    var j := s.stack[0].job;
    assert j.limit <= s.stack[0].born;
    FirstIsMark(s, s.files, j.mark.f);
    FirstIsMark(s, SlotIds(s.slots), j.mark.h);
  }

  /** A mark on the list is the first record at its address, and one that is not is none. */
  lemma FirstIsMark(s: State, list: seq<Id>, mark: Option<Id>)
    requires Apart(s) && forall x | x in list :: InUse(s, x)
    ensures FirstAt(s.at, list, mark) == mark <==> !Gone(mark, list)
  {
    hide InUse;
    WalkEndsAtMark(s.at, list, mark);
    var k := Above(s.at, list, mark);
    if k < |list| { assert list[k] in list; }
  }

  /** The list of deferred blocks may be walked by number: of the saved successor and the mark, both in
      frames that are still there, the addresses are equal exactly when the records are. */
  lemma DeferMarksByAddress(run: seq<State>, i: nat)
    requires Run(run) && i < |run| && run[i].stack != [] && run[i].stack[0].job.Jumping?
    ensures var s := run[i];
            var j := s.stack[0].job;
            j.cursor.Some? && j.mark.d.Some? ==> (s.at(j.cursor.value) == s.at(j.mark.d.value) <==> j.cursor == j.mark.d)
  {
    hide Sound, Drained, MarksSited, FrameAccounted, CursorGood;
    var s := run[i];
    RunKeeps(run, i);
    JumpTop(s);
    TargetAt(s);
    var j := s.stack[0].job;
    var to := s.stack[|s.stack| - j.target];
    assert s.stack[0] in s.stack && to in s.stack && to.mark == j.mark;
  }

  lemma SuffixMembers(a: seq<Id>, b: seq<Id>)
    ensures forall x | x in b :: x in a + b
  {
  }

  /** Every landing gone astray comes of a goto that began with its mark gone: as long as no goto of
      the run has, every landing has found its deferred mark, and a goto that has can only land
      astray. */
  lemma AstrayComesOfLost(run: seq<State>, i: nat)
    requires Run(run) && i < |run|
    ensures Has(run[i].log, Astray) ==> Has(run[i].log, Lost)
    ensures AboutToLand(run[i]) && Gone(run[i].stack[0].job.mark.d, run[i].stack[0].job.before.defers) ==>
              Has(Do(run[i], Go).log, Astray)
  {
    hide Sound, Has, Gone, LandLog, Land, Since, CursorGood;
    var s := run[i];
    RunKeeps(run, i);
    SoundIs(s);
    if AboutToLand(s) {
      var j := s.stack[0].job;
      if Gone(j.mark.d, j.before.defers) { LostGone(s); }
      PlacedMarks(s);
      LandStacks(s);
      LandLogTags(s, j.mark, j.limit);
      assert Do(s, Go).log == s.log + LandLog(s, j.mark, j.limit) by { LandLogIs(s); }
      HasAppend(s.log, LandLog(s, j.mark, j.limit), Astray);
    }
  }

  lemma LostGone(s: State)
    requires Sound(s) && AboutToLand(s) && Gone(s.stack[0].job.mark.d, s.stack[0].job.before.defers)
    ensures Gone(s.stack[0].job.mark.d, s.defers)
  {
    hide Sound, RanOf;
    JumpTop(s);
    var j := s.stack[0].job;
    SuffixMembers(RanOf(s.log[j.since..], j.before.defers), s.defers);
  }

  lemma LandLogIs(s: State)
    requires s.stack != [] && s.stack[0].job.Jumping? && 0 < s.stack[0].job.target <= |s.stack|
    ensures Landing(s).log == s.log + LandLog(s, s.stack[0].job.mark, s.stack[0].job.limit)
  {
  }

  /** Whatever the runners do, an unwinding in progress has run the ones it found from the first on
      and owes exactly the rest; and unless a landing goes astray, no file or handle it found has
      left its list but what the program has disposed of itself. */
  lemma UnwindingInOrder(run: seq<State>, i: nat, k: nat)
    requires Run(run) && i < |run| && k < |run[i].stack|
    requires run[i].stack[k].job.Jumping? || run[i].stack[k].job.Halting?
    ensures var s := run[i];
            var f := s.stack[k];
            var j := f.job;
            && j.since <= |s.log|
            && RanOf(s.log[j.since..], j.before.defers) + Below(s.defers, f.born) == j.before.defers
            && (!Since(s.log, j.since, AstrayVars) ==>
                  && (forall x | x in j.before.files :: x in s.files || Event(Disposed, x) in s.log[j.since..])
                  && (forall x | x in j.before.slots :: x in SlotIds(s.slots) || Event(Disposed, x) in s.log[j.since..]))
  {
    hide Sorted, Below, RanOf, Since, MarksFit, Resumable, Aimed, Fits;
    var s := run[i];
    RunKeeps(run, i);
    CutBelow(s.stack, s, k);
    HistoryTop(s.stack[k..], s);
  }

  /** No runner is run twice, no record released twice, and no value closed oftener than it was
      obtained; and what is no longer on its list has been dealt with. */
  lemma NothingTwice(run: seq<State>, i: nat, x: nat)
    requires Run(run) && i < |run|
    ensures var s := run[i];
            && Times(s.log, Ran, x) <= 1 && Times(s.log, FileDone, x) <= 1 && Times(s.log, SlotDone, x) <= 1
            && (Times(s.log, DeferInit, x) == 1 && Count(s.defers, x) == 0 ==> Times(s.log, Ran, x) == 1)
            && (Times(s.log, FileInit, x) == 1 && Count(s.files, x) == 0 ==> Times(s.log, FileDone, x) == 1)
            && (Times(s.log, SlotInit, x) == 1 && Count(SlotIds(s.slots), x) == 0 ==> Times(s.log, SlotDone, x) == 1)
            && Times(s.log, Closed, x) + Holding(s.slots, x) + Holding(s.loose, x) == Times(s.log, Got, x)
  {
    hide Sound;
    RunKeeps(run, i);
    assert ConservedAt(run[i], x) && NumberedAt(run[i], x);
  }

  /** An unwinding always has its next step: its target stays there, and its saved successor is the
      head that the runners leave, or there is nothing left. */
  lemma UnwindingNeverSticks(run: seq<State>, i: nat)
    requires Run(run) && i < |run| && run[i].stack != []
    requires run[i].stack[0].job.Jumping? || run[i].stack[0].job.Halting?
    ensures Enabled(run[i], Go)
    ensures run[i].stack[0].job.Jumping? ==>
              run[i].stack[0].job.cursor == Head(run[i].defers) || run[i].defers == []
  {
    hide Sound;
    RunKeeps(run, i);
    if run[i].stack[0].job.Jumping? { JumpTop(run[i]); }
    NotOver(run, i);
  }

  lemma NotOver(run: seq<State>, i: nat)
    requires Run(run) && i < |run| && run[i].stack != []
    ensures !run[i].over
  {
    RunKeeps(run, i);
  }

  /** A handle moved to itself keeps its value and nothing is closed. */
  lemma MoveToItself(s: State, id: Id)
    requires Enabled(s, Move(id, id))
    ensures Do(s, Move(id, id)) == s
  {
    PutBack(s.slots, id);
    PutBack(s.loose, id);
    SlotIdsChanged(s.slots, id, None);
    WithValueHolds(s, id, None, 0);
    var taken := WithValue(s, id, None);
    assert taken.log + [] == taken.log;
    assert Logged(taken, Closing(ValueOf(taken, id))) == taken;
    assert WithValue(taken, id, ValueOf(s, id)) == s;
  }

  lemma {:induction false} PutBack(slots: seq<Slot>, id: Id)
    ensures Put(Put(slots, id, None), id, HeldBy(slots, id)) == slots
  {
    if slots != [] && slots[0].id != id {
      PutBack(slots[1..], id);
      assert Put(slots, id, None)[1..] == Put(slots[1..], id, None);
    }
  }
}
