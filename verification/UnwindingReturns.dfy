/** What a block that returns in the ordinary way leaves behind: nothing. Its deferred statement has
    been executed and its files and handles have been released, each once, whoever did it. */
module UnwindingReturns {
  import opened Unwinding
  import opened UnwindingLists
  import opened UnwindingSteps
  import opened UnwindingPlaces
  import opened UnwindingTheorems

  /** A record of the frame's that is still on a list is still the epilogue's to deal with. */
  predicate Answerable(f: Frame, s: State) {
    && (forall x | x in s.defers && f.born <= x < f.armed :: f.own.defer == Some(x))
    && (forall x | x in s.files && f.born <= x < f.armed :: x in f.own.files)
    && (forall x | x in SlotIds(s.slots) && f.born <= x < f.armed :: x in f.own.slots)
  }

  predicate AllAnswerable(s: State) { forall f | f in s.stack :: Answerable(f, s) }

  // ---------------------------------------------------------- a step's own

  /** Everything that stays has what it had, but perhaps the innermost activation. */
  predicate OwnStays(s: State, s': State, kept: nat, top: bool) {
    && kept <= |s.stack| && kept <= |s'.stack|
    && forall h | 0 < h <= kept && (top || h < |s.stack|) :: Target(s'.stack, h).own == Target(s.stack, h).own
  }

  lemma TopOwn(s: State, s': State, f: Frame, more: seq<Frame>)
    requires s.stack != [] && s'.stack == more + [f] + s.stack[1..]
    ensures OwnStays(s, s', |s.stack|, f.own == s.stack[0].own)
  {
    forall h | 0 < h < |s.stack|
      ensures Target(s'.stack, h).own == Target(s.stack, h).own
    {
      assert Target(s'.stack, h) == s.stack[1..][|s.stack| - 1 - h];
    }
  }

  lemma SameOwn(s: State, s': State)
    requires s.stack != [] && s'.stack == s.stack
    ensures OwnStays(s, s', |s.stack|, true)
  {
  }

  lemma PushOwn(s: State, s': State)
    requires s.stack != [] && |s'.stack| > 0 && s'.stack[1..] == s.stack
    ensures OwnStays(s, s', |s.stack|, true)
  {
    assert s'.stack == [s'.stack[0]] + [s.stack[0]] + s.stack[1..];
    TopOwn(s, s', s.stack[0], [s'.stack[0]]);
  }

  lemma LandOwn(s: State, t: nat, mark: Mark, limit: nat)
    requires CanReach(s.stack, t)
    ensures OwnStays(s, Land(s, t, mark, limit), t, true)
  {
    hide Tagged, SlotsDone, Strayed, Above, LandSlots;
    var s' := Land(s, t, mark, limit);
    var rest := s.stack[|s.stack| - t..];
    assert s'.stack == [rest[0].(job := Code(false))] + rest[1..];
    forall h | 0 < h <= t
      ensures Target(s'.stack, h).own == Target(s.stack, h).own
    {
      assert Target(s.stack, h) == rest[t - h];
    }
  }

  /** The innermost activation's own changes only at its epilogue's hands. */
  predicate Finishes(s: State, a: Act) {
    a.EndFile? || a.EndSlot? || (a.Go? && s.stack != [] && s.stack[0].job.Epilogue?)
  }

  lemma GoOwn(s: State)
    requires Enabled(s, Go)
    ensures OwnStays(s, Do(s, Go), Kept(s, Go), !Finishes(s, Go))
  {
    hide OwnStays, Tagged, SlotsDone, Strayed, Above, Fresh, HeadsOf, SlotIds, Without, NextOf;
    var s' := Do(s, Go);
    var top := s.stack[0];
    match top.job
    case Epilogue(_) =>
      if top.own.defer.Some? {
        var f := top.(own := top.own.(defer := None));
        var more := if top.own.defer.value in s.defers then [s'.stack[0]] else [];
        assert s'.stack == more + [f] + s.stack[1..];
        TopOwn(s, s', f, more);
        OwnLess(s, s', |s.stack|);
      } else {
        PopOwn(s, s');
      }
    case Jumping(t, cursor, _, _, mark, limit) =>
      if cursor == None || cursor == mark.d {
        Reaches(s, t);
        LandOwn(s, t, mark, limit);
      } else {
        var f := top.(job := top.job.(cursor := NextOf(s.defers, cursor.value)));
        var more := if cursor.value in s.defers then [s'.stack[0]] else [];
        assert s'.stack == more + [f] + s.stack[1..];
        TopOwn(s, s', f, more);
      }
    case Halting(_, _, _) =>
      if s.defers != [] {
        assert s'.stack[1..] == s.stack;
        PushOwn(s, s');
      } else {
        NoneOwn(s, s');
      }
  }

  lemma Reaches(s: State, t: nat)
    requires s.stack != [] && CanReach(s.stack[1..], t)
    ensures CanReach(s.stack, t)
  {
  }

  lemma OwnLess(s: State, s': State, kept: nat)
    requires OwnStays(s, s', kept, false) || OwnStays(s, s', kept, true)
    ensures OwnStays(s, s', kept, false)
  {
  }

  lemma PopOwn(s: State, s': State)
    requires s.stack != [] && s'.stack == s.stack[1..]
    ensures OwnStays(s, s', |s.stack| - 1, false)
  {
  }

  lemma NoneOwn(s: State, s': State)
    requires s'.stack == []
    ensures OwnStays(s, s', 0, true)
  {
  }

  lemma StepOwn(s: State, a: Act)
    requires Enabled(s, a)
    ensures OwnStays(s, Do(s, a), Kept(s, a), !Finishes(s, a))
  {
    hide OwnStays, Fresh, FileGoes, SlotGoes, HeadsOf, Assigned, WithValue, ValueOf, Down, Tagged;
    var s' := Do(s, a);
    var top := s.stack[0];
    match a
    case Enter(_, _, _) => assert s'.stack[1..] == s.stack; PushOwn(s, s');
    case New(_, _) => SameOwn(s, s');
    case DropFile(id) => GoesStack(s.(heap := s.heap - {id}), id, [Event(Disposed, id)]); SameOwn(s, s');
    case DropSlot(id) => GoesStack(s.(heap := s.heap - {id}), id, [Event(Disposed, id)]); SameOwn(s, s');
    case Leave => assert s'.stack == [] + [s'.stack[0]] + s.stack[1..]; TopOwn(s, s', s'.stack[0], []);
    case EndFile(id) =>
      var f := top.(own := top.own.(files := Without(top.own.files, id)));
      GoesStack(WithTop(s, f), id, []);
      assert s'.stack == [] + [f] + s.stack[1..];
      TopOwn(s, s', f, []);
      OwnLess(s, s', |s.stack|);
    case EndSlot(id) =>
      var f := top.(own := top.own.(slots := Without(top.own.slots, id)));
      GoesStack(WithTop(s, f), id, []);
      assert s'.stack == [] + [f] + s.stack[1..];
      TopOwn(s, s', f, []);
      OwnLess(s, s', |s.stack|);
    case Goto(_) => assert s'.stack[1..] == s.stack; PushOwn(s, s');
    case Halt(_) => assert s'.stack[1..] == s.stack; PushOwn(s, s');
    case Set(_, _) => AssignStack(s, a); SameOwn(s, s');
    case Move(_, _) => AssignStack(s, a); SameOwn(s, s');
    case Release(_) => AssignStack(s, a); SameOwn(s, s');
    case Go => GoOwn(s);
  }

  // --------------------------------------------------------- the invariant

  lemma {:induction false} OthersRemain(s: seq<Id>, id: Id)
    ensures forall x | x in s && x != id :: x in Without(s, id)
  {
    if s != [] {
      OthersRemain(s[1..], id);
      assert s == [s[0]] + s[1..];
    }
  }

  /** An activation that keeps what it had. */
  lemma KeptAnswers(s: State, s': State, f: Frame, g: Frame)
    requires Answerable(f, s) && Less(s, s') && f.armed <= s.serial
    requires g.born == f.born && g.armed == f.armed && g.own == f.own
    ensures Answerable(g, s')
  {
  }

  /** The innermost activation, its epilogue at work. */
  lemma FinishAnswers(s: State, a: Act)
    requires Sound(s) && MarksSited(s) && Enabled(s, a) && Finishes(s, a) && Kept(s, a) == |s.stack| && Answerable(s.stack[0], s)
    ensures |Do(s, a).stack| >= |s.stack| && Answerable(Target(Do(s, a).stack, |s.stack|), Do(s, a))
  {
    hide Sound, MarksSited, Fresh, HeadsOf, Without, SlotsWithout, HeldBy, Closing;
    SoundFrames(s);
    SoundLists(s);
    var top := s.stack[0];
    match a
    case EndFile(id) =>
      OthersRemain(top.own.files, id);
      WithoutFacts(s.files, id);
      GoesStack(WithTop(s, top.(own := top.own.(files := Without(top.own.files, id)))), id, []);
    case EndSlot(id) =>
      OthersRemain(top.own.slots, id);
      WithoutFacts(SlotIds(s.slots), id);
      SlotIdsChanged(s.slots, id, None);
      GoesStack(WithTop(s, top.(own := top.own.(slots := Without(top.own.slots, id)))), id, []);
    case Go =>
      if top.own.defer.Some? {
        WithoutFacts(s.defers, top.own.defer.value);
        assert Do(s, Go).stack[|Do(s, Go).stack| - |s.stack|] == top.(own := top.own.(defer := None));
      }
  }

  lemma SoundLists(s: State)
    requires Sound(s)
    ensures Sorted(s.defers) && Sorted(s.files) && Sorted(SlotIds(s.slots))
    ensures Bounded(s.defers, s.serial) && Bounded(s.files, s.serial) && Bounded(SlotIds(s.slots), s.serial)
  {
  }

  /** A new activation has all that was registered with it. */
  lemma NewAnswers(s: State, a: Act)
    requires Sound(s) && Enabled(s, a) && !a.New? && |Do(s, a).stack| == Kept(s, a) + 1
    requires Pushed(s, Do(s, a).stack[0], Do(s, a))
    ensures Answerable(Do(s, a).stack[0], Do(s, a))
  {
    hide Sound, Fresh, FileGoes, SlotGoes, EnterBlock, Assigned, HeadsOf, Land, RunDeferred;
    if a.Enter? {
      EnterAnswers(s, a.defers, a.files, a.slots);
    } else {
      SameSerial(s, a);
    }
  }

  lemma EnterAnswers(s: State, nd: bool, nf: nat, nh: nat)
    requires Sound(s)
    ensures Answerable(EnterBlock(s, nd, nf, nh).stack[0], EnterBlock(s, nd, nf, nh))
  {
    hide Sound, Down, Tagged, SlotIds, Empty;
    SoundLists(s);
    DownFacts(s.serial, nf);
    DownFacts(s.serial + nf, nh);
    SlotIdsEmpty(Down(s.serial + nf, nh));
    SlotIdsAppend(Empty(Down(s.serial + nf, nh)), s.slots);
  }

  lemma StepAnswers(s: State, a: Act)
    requires Sound(s) && MarksSited(s) && Enabled(s, a) && AllAnswerable(s)
    ensures AllAnswerable(Do(s, a))
  {
    hide Sound, MarksSited, Do, Enabled, Answerable, Less, Kin, Pushed, Finishes, Advances;
    var s' := Do(s, a);
    var kept := Kept(s, a);
    StepShape(s, a);
    StepGrows(s, a);
    StepOwn(s, a);
    SoundFrames(s);
    forall g | g in s'.stack
      ensures Answerable(g, s')
    {
      var i :| 0 <= i < |s'.stack| && s'.stack[i] == g;
      var h: nat := |s'.stack| - i;
      if h <= kept {
        var f := Target(s.stack, h);
        assert f in s.stack && g == Target(s'.stack, h);
        if h == |s.stack| && Finishes(s, a) {
          FinishAnswers(s, a);
        } else {
          KinNumbers(f, g);
          KeptAnswers(s, s', f, g);
        }
      } else {
        assert i == 0;
        if a.New? { NewStays(s, a); }
        NewAnswers(s, a);
      }
    }
  }

  lemma NewStays(s: State, a: Act)
    requires Enabled(s, a) && a.New?
    ensures Do(s, a).stack == s.stack && Kept(s, a) == |s.stack|
  {
  }

  lemma KinNumbers(f: Frame, g: Frame)
    requires Kin(f, g)
    ensures g.born == f.born && g.armed == f.armed
  {
  }

  lemma {:induction false} RunAnswers(run: seq<State>, i: nat)
    requires Run(run) && i < |run|
    ensures AllAnswerable(run[i])
  {
    hide Do, Enabled, Sound, Placed, Drained;
    if i > 0 {
      RunAnswers(run, i - 1);
      RunKeeps(run, i - 1);
      PlacedMarks(run[i - 1]);
      assert Next(run[i - 1], run[i]);
      var a: Act :| Enabled(run[i - 1], a) && run[i] == Do(run[i - 1], a);
      StepAnswers(run[i - 1], a);
    }
  }

  // ------------------------------------------------------------ the theorem

  lemma {:induction false} LogGrows(run: seq<State>, b: nat, i: nat)
    requires Run(run) && b <= i < |run|
    ensures run[b].log <= run[i].log
  {
    hide Do, Enabled, Sound, Placed, Drained;
    if i > b {
      LogGrows(run, b, i - 1);
      RunKeeps(run, i - 1);
      PlacedMarks(run[i - 1]);
      assert Next(run[i - 1], run[i]);
      var a: Act :| Enabled(run[i - 1], a) && run[i] == Do(run[i - 1], a);
      StepGrows(run[i - 1], a);
    }
  }

  lemma TimesGrow(log: seq<Event>, log': seq<Event>, tag: Tag, x: nat)
    requires log <= log'
    ensures Times(log, tag, x) <= Times(log', tag, x)
  {
    hide Times;
    assert log' == log + log'[|log|..];
    TimesAppend(log, log'[|log|..], tag, x);
  }

  /** Which record of a block that is entered with these the number x is. */
  predicate IsDefer(s: State, nd: bool, nf: nat, nh: nat, x: nat) { nd && x == s.serial + nf + nh }
  predicate IsFile(s: State, nf: nat, x: nat) { s.serial <= x < s.serial + nf }
  predicate IsSlot(s: State, nf: nat, nh: nat, x: nat) { s.serial + nf <= x < s.serial + nf + nh }

  /** A block entered in the state b comes to its return in i, its own records finished. Each of them
      was registered once when it was entered; the deferred statement, if there was one, has been
      executed exactly once since, each file and each handle has been released exactly once, and none
      is on a list any more. */
  lemma BlockReturns(run: seq<State>, b: nat, i: nat, nd: bool, nf: nat, nh: nat, x: nat)
    requires Run(run) && b + 1 <= i < |run| && Enabled(run[b], Enter(nd, nf, nh)) && run[b + 1] == Do(run[b], Enter(nd, nf, nh))
    requires run[i].stack != [] && run[i].stack[0].job.Epilogue? && run[i].stack[0].own == NOTHING
    requires run[i].stack[0].born == run[b].serial && run[i].stack[0].armed == run[b + 1].serial
    ensures var log := run[i].log;
            && (IsDefer(run[b], nd, nf, nh, x) ==>
                  Times(log, DeferInit, x) == 1 && Times(log, Ran, x) == 1 && x !in run[i].defers)
            && (IsFile(run[b], nf, x) ==> Times(log, FileInit, x) == 1 && Times(log, FileDone, x) == 1 && x !in run[i].files)
            && (IsSlot(run[b], nf, nh, x) ==>
                  Times(log, SlotInit, x) == 1 && Times(log, SlotDone, x) == 1 && x !in SlotIds(run[i].slots))
  {
    hide Sound, Placed, Drained, Enabled, EnterBlock, Times, Count, SlotIds;
    var s, s', e := run[b], run[b + 1], run[i];
    RunKeeps(run, i);
    RunAnswers(run, i);
    assert Answerable(e.stack[0], e);
    assert ConservedAt(e, x) && NumberedAt(e, x);
    EnterLogIs(s, nd, nf, nh);
    EnterLess(s, nd, nf, nh);
    LogGrows(run, b + 1, i);
    forall tag: Tag
      ensures Times(EnterLog(s, nd, nf, nh), tag, x) <= Times(e.log, tag, x)
    {
      Tallies(s.log, EnterLog(s, nd, nf, nh), x);
      TimesGrow(s'.log, e.log, tag, x);
    }
    EnterTimes(s, nd, nf, nh, DeferInit, x);
    EnterTimes(s, nd, nf, nh, FileInit, x);
    EnterTimes(s, nd, nf, nh, SlotInit, x);
    if s.serial <= x < s'.serial {
      NotCounted(e.defers, x);
      NotCounted(e.files, x);
      NotCounted(SlotIds(e.slots), x);
    }
  }
}
