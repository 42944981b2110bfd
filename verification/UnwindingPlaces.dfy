/** What a step of the unwinding machine makes of the stack, the memory in use and the log, and so
    where the marks and the saved successors of unwindings point. */
module UnwindingPlaces {
  import opened Unwinding
  import opened UnwindingLists
  import opened UnwindingSteps

  // ---------------------------------------------------------- a step's shape

  /** g is what a step makes of f. */
  predicate Kin(f: Frame, g: Frame) {
    && g.born == f.born && g.armed == f.armed && g.mark == f.mark
    && (f.job.Halting? || g.job.Halting? ==> g.job == f.job)
    && (f.job.Jumping? || g.job.Jumping? ==> f.job.Jumping? && g.job.Jumping? && g.job == f.job.(cursor := g.job.cursor))
  }

  /** A cursor moves only to a record on the list, older than its unwinding. */
  predicate Advances(f: Frame, g: Frame, defers: seq<Id>) {
    f.job.Jumping? && g.job.Jumping? && g.job.cursor.Some? && g.job.cursor != f.job.cursor ==>
      g.job.cursor.value in defers && g.job.cursor.value < g.born
  }

  /** The activations up to a height stay, one may come on top, the rest goes. */
  predicate Shape(s: State, s': State, kept: nat) {
    && kept <= |s.stack| && kept <= |s'.stack| <= kept + 1
    && (forall h | 0 < h <= kept ::
          Kin(Target(s.stack, h), Target(s'.stack, h)) && Advances(Target(s.stack, h), Target(s'.stack, h), s.defers))
    && (|s'.stack| == kept + 1 ==> Pushed(s, s'.stack[0], s'))
  }

  predicate Pushed(s: State, f: Frame, s': State) {
    && f.born == s.serial && f.armed == s'.serial && f.mark == HeadsOf(s')
    && (f.job.Jumping? ==> f.job.since == |s'.log| && f.job.cursor == Head(s'.defers) && s'.serial == s.serial)
    && (f.job.Halting? ==> f.job.since == |s'.log|)
  }

  /** Whatever is on a list or allocated was so before, or is new. */
  ghost predicate Less(s: State, s': State) {
    && s'.at == s.at && s.serial <= s'.serial
    && (forall x | x in s'.heap :: x in s.heap || s.serial <= x < s'.serial)
    && (forall x | x in s'.defers :: x in s.defers || s.serial <= x < s'.serial)
    && (forall x | x in s'.files :: x in s.files || s.serial <= x < s'.serial)
    && (forall x | x in SlotIds(s'.slots) :: x in SlotIds(s.slots) || s.serial <= x < s'.serial)
  }

  /** The log grows, and a landing gone astray leaves no deferred block. */
  predicate Grown(s: State, s': State) {
    s.log <= s'.log && (Has(s'.log[|s.log|..], Astray) ==> s'.defers == [])
  }

  /** How many of the activations a step keeps. */
  function Kept(s: State, a: Act): nat
    requires Enabled(s, a)
  {
    if !a.Go? then |s.stack|
    else
      var j := s.stack[0].job;
      match j
      case Epilogue(_) => if s.stack[0].own.defer.Some? then |s.stack| else |s.stack| - 1
      case Jumping(t, cursor, _, _, mark, _) => if cursor == None || cursor == mark.d then t else |s.stack|
      case Halting(_, _, _) => if s.defers != [] then |s.stack| else 0
  }

  // ------------------------------------------------------------- its stack

  /** The innermost activation alone changes, and one may come on top. */
  lemma TopShape(s: State, s': State, f: Frame, more: seq<Frame>)
    requires s.stack != [] && |more| <= 1 && s'.stack == more + [f] + s.stack[1..]
    requires Kin(s.stack[0], f) && Advances(s.stack[0], f, s.defers)
    requires more != [] ==> Pushed(s, more[0], s')
    ensures Shape(s, s', |s.stack|)
  {
    var n := |s.stack|;
    forall h | 0 < h <= n
      ensures Kin(Target(s.stack, h), Target(s'.stack, h)) && Advances(Target(s.stack, h), Target(s'.stack, h), s.defers)
    {
      if h < n { assert Target(s'.stack, h) == s.stack[1..][n - 1 - h]; }
    }
  }

  lemma PushShape(s: State, s': State)
    requires s.stack != [] && |s'.stack| > 0 && s'.stack[1..] == s.stack && Pushed(s, s'.stack[0], s')
    ensures Shape(s, s', |s.stack|)
  {
    assert s'.stack == [s'.stack[0]] + [s.stack[0]] + s.stack[1..];
    TopShape(s, s', s.stack[0], [s'.stack[0]]);
  }

  lemma SameShape(s: State, s': State)
    requires s.stack != [] && s'.stack == s.stack
    ensures Shape(s, s', |s.stack|)
  {
    assert s'.stack == [] + [s.stack[0]] + s.stack[1..];
    TopShape(s, s', s.stack[0], []);
  }

  lemma GoShape(s: State)
    requires Sound(s) && Enabled(s, Go)
    ensures Shape(s, Do(s, Go), Kept(s, Go))
  {
    hide Sound, Shape, Tagged, SlotsDone, Strayed, Above, Fresh, HeadsOf, SlotIds, FrameAccounted, CursorGood, Without, NextOf;
    var s' := Do(s, Go);
    var top := s.stack[0];
    match top.job
    case Epilogue(_) =>
      if top.own.defer.Some? {
        var f := top.(own := top.own.(defer := None));
        RunShape(s, WithTop(s, f), f, top.own.defer.value);
      } else {
        PopShape(s, s');
      }
    case Jumping(t, cursor, _, _, mark, limit) =>
      if cursor == None || cursor == mark.d {
        LandShape(s, t, mark, limit);
      } else {
        JumpTop(s);
        var f := top.(job := top.job.(cursor := NextOf(s.defers, cursor.value)));
        NextIn(s.defers, cursor.value);
        RunShape(s, WithTop(s, f), f, cursor.value);
      }
    case Halting(_, _, _) =>
      if s.defers != [] {
        assert WithTop(s, top).stack == s.stack;
        assert s.defers[0] in s.defers;
        assert WithTop(s, top) == s;
        RunShape(s, s, top, s.defers[0]);
      } else {
        FinishShape(s, s');
      }
  }

  lemma {:induction false} NextIn(s: seq<Id>, d: Id)
    ensures NextOf(s, d).Some? ==> NextOf(s, d).value in s
  {
    if s != [] && s[0] != d { NextIn(s[1..], d); }
  }

  /** One loop's turn: the innermost activation goes on, under a runner if its record is still there. */
  lemma RunShape(s: State, s1: State, f: Frame, d: Id)
    requires s.stack != [] && s1 == WithTop(s, f) && Kin(s.stack[0], f) && Advances(s.stack[0], f, s.defers)
    ensures Shape(s, if d in s.defers then RunDeferred(s1, d) else s1, |s.stack|)
  {
    hide Kin, Advances;
    var s' := if d in s.defers then RunDeferred(s1, d) else s1;
    var more := if d in s.defers then [s'.stack[0]] else [];
    assert s'.stack == more + [f] + s.stack[1..];
    TopShape(s, s', f, more);
  }

  lemma PopShape(s: State, s': State)
    requires s.stack != [] && s'.stack == s.stack[1..]
    ensures Shape(s, s', |s.stack| - 1)
  {
    forall h | 0 < h <= |s.stack| - 1
      ensures Target(s'.stack, h) == Target(s.stack, h)
    {
    }
  }

  lemma FinishShape(s: State, s': State)
    requires s'.stack == []
    ensures Shape(s, s', 0)
  {
  }

  lemma LandShape(s: State, t: nat, mark: Mark, limit: nat)
    requires CanReach(s.stack, t)
    ensures Shape(s, Land(s, t, mark, limit), t)
  {
    hide Tagged, SlotsDone, Strayed, Above, LandSlots;
    var s' := Land(s, t, mark, limit);
    var n := |s.stack|;
    var rest := s.stack[n - t..];
    assert s'.stack == [rest[0].(job := Code(false))] + rest[1..];
    forall h | 0 < h <= t
      ensures Kin(Target(s.stack, h), Target(s'.stack, h)) && Advances(Target(s.stack, h), Target(s'.stack, h), s.defers)
    {
      assert Target(s.stack, h) == rest[t - h];
    }
  }

  lemma StepShape(s: State, a: Act)
    requires Sound(s) && Enabled(s, a)
    ensures Shape(s, Do(s, a), Kept(s, a))
  {
    hide Sound, Shape, Fresh, FileGoes, SlotGoes, HeadsOf, Assigned, WithValue, ValueOf, Down, Tagged;
    var s' := Do(s, a);
    var top := s.stack[0];
    match a
    case Enter(nd, nf, nh) => assert s'.stack[1..] == s.stack; EnterPushed(s, nd, nf, nh); PushShape(s, s');
    case New(nf, nh) => SameShape(s, s');
    case DropFile(id) => GoesStack(s.(heap := s.heap - {id}), id, [Event(Disposed, id)]); SameShape(s, s');
    case DropSlot(id) => GoesStack(s.(heap := s.heap - {id}), id, [Event(Disposed, id)]); SameShape(s, s');
    case Leave => assert s'.stack == [] + [s'.stack[0]] + s.stack[1..]; TopShape(s, s', s'.stack[0], []);
    case EndFile(id) =>
      var f := top.(own := top.own.(files := Without(top.own.files, id)));
      GoesStack(WithTop(s, f), id, []);
      assert s'.stack == [] + [f] + s.stack[1..];
      TopShape(s, s', f, []);
    case EndSlot(id) =>
      var f := top.(own := top.own.(slots := Without(top.own.slots, id)));
      GoesStack(WithTop(s, f), id, []);
      assert s'.stack == [] + [f] + s.stack[1..];
      TopShape(s, s', f, []);
    case Goto(t) => assert s'.stack[1..] == s.stack; JumpPushed(s, t); PushShape(s, s');
    case Halt(status) => assert s'.stack[1..] == s.stack; HaltPushed(s, status); PushShape(s, s');
    case Set(id, v) => AssignStack(s, a); SameShape(s, s');
    case Move(_, _) => AssignStack(s, a); SameShape(s, s');
    case Release(_) => AssignStack(s, a); SameShape(s, s');
    case Go => GoShape(s);
  }

  lemma EnterPushed(s: State, nd: bool, nf: nat, nh: nat)
    ensures var s' := EnterBlock(s, nd, nf, nh); Pushed(s, s'.stack[0], s')
  {
  }

  lemma JumpPushed(s: State, t: nat)
    requires CanReach(s.stack, t)
    ensures var s' := BeginJump(s, t); Pushed(s, s'.stack[0], s')
  {
  }

  lemma HaltPushed(s: State, status: nat)
    ensures var s' := BeginHalt(s, status); Pushed(s, s'.stack[0], s')
  {
  }

  lemma GoesStack(s: State, id: Id, why: seq<Event>)
    ensures FileGoes(s, id, why).stack == s.stack && SlotGoes(s, id, why).stack == s.stack
  {
  }

  lemma AssignStack(s: State, a: Act)
    requires Enabled(s, a) && (a.Set? || a.Move? || a.Release?)
    ensures Do(s, a).stack == s.stack
  {
  }

  // ------------------------------------------------- its lists and its log

  lemma EnterLess(s: State, nd: bool, nf: nat, nh: nat)
    ensures Less(s, EnterBlock(s, nd, nf, nh)) && Less(s, NewVariable(s, nf, nh))
    ensures EnterBlock(s, nd, nf, nh).serial == s.serial + nf + nh + if nd then 1 else 0
    ensures NewVariable(s, nf, nh).serial == s.serial + nf + nh
  {
    hide Down, Tagged, SlotIds, Empty;
    DownFacts(s.serial, nf);
    DownFacts(s.serial + nf, nh);
    DownFacts(s.serial, nf + nh);
    SlotIdsEmpty(Down(s.serial + nf, nh));
    SlotIdsAppend(Empty(Down(s.serial + nf, nh)), s.slots);
  }

  /** Unlinking and closing add nothing. */
  ghost predicate Fewer(s: State, s': State) {
    && s'.at == s.at && s'.serial == s.serial && s'.heap <= s.heap
    && (forall x | x in s'.defers :: x in s.defers) && (forall x | x in s'.files :: x in s.files)
    && (forall x | x in SlotIds(s'.slots) :: x in SlotIds(s.slots))
  }

  lemma FewerIsLess(s: State, s': State)
    requires Fewer(s, s')
    ensures Less(s, s')
  {
  }

  lemma GoesFewer(s: State, id: Id, why: seq<Event>)
    ensures Fewer(s, FileGoes(s, id, why)) && Fewer(s, SlotGoes(s, id, why))
    ensures FileGoes(s, id, why).defers == s.defers && SlotGoes(s, id, why).defers == s.defers
    ensures s.log + why <= FileGoes(s, id, why).log && s.log + why <= SlotGoes(s, id, why).log
    ensures forall e | e in FileGoes(s, id, why).log[|s.log|..] :: e in why || e.tag == FileDone
    ensures forall e | e in SlotGoes(s, id, why).log[|s.log|..] :: e in why || e.tag == SlotDone || e.tag == Closed
  {
    hide SlotsWithout, Without, HeldBy;
    WithoutLess(s.files, id);
    WithoutLess(SlotIds(s.slots), id);
    SlotIdsChanged(s.slots, id, None);
  }

  lemma RunFewer(s: State, d: Id)
    ensures Fewer(s, RunDeferred(s, d)) && RunDeferred(s, d).log == s.log + [Event(Ran, d)]
  {
    hide HeadsOf;
    WithoutLess(s.defers, d);
  }

  lemma LandFewer(s: State, t: nat, mark: Mark, limit: nat)
    requires 0 < t <= |s.stack|
    ensures var s' := Land(s, t, mark, limit);
            Fewer(s, s') && s'.defers == s.defers && s'.log == s.log + LandLog(s, mark, limit)
  {
    hide Tagged, SlotsDone, Strayed, Above;
    SlotIdsCut(s.slots, LandSlots(s, mark));
  }

  lemma GoGrows(s: State)
    requires Sound(s) && MarksSited(s) && Enabled(s, Go)
    ensures Less(s, Do(s, Go)) && Grown(s, Do(s, Go))
  {
    hide Sound, MarksSited, RunDeferred, Land, LandLog, Tagged, SlotsDone, Fresh, FrameAccounted, CursorGood, Has;
    var s' := Do(s, Go);
    var top := s.stack[0];
    match top.job
    case Epilogue(_) =>
      if top.own.defer.Some? {
        RunFewer(WithTop(s, top.(own := top.own.(defer := None))), top.own.defer.value);
      }
      NotAstray(s, s');
    case Jumping(t, cursor, _, _, mark, limit) =>
      if cursor == None || cursor == mark.d {
        TargetAt(s);
        JumpTop(s);
        LandFewer(s, t, mark, limit);
        LandLogTags(s, mark, limit);
        assert s'.log[|s.log|..] == LandLog(s, mark, limit);
      } else {
        RunFewer(WithTop(s, top.(job := top.job.(cursor := NextOf(s.defers, cursor.value)))), cursor.value);
        NotAstray(s, s');
      }
    case Halting(status, _, _) =>
      if s.defers != [] {
        RunFewer(s, s.defers[0]);
        NotAstray(s, s');
      }
  }

  lemma NotAstray(s: State, s': State)
    requires s'.log == s.log || exists d :: s'.log == s.log + [Event(Ran, d)]
    ensures Grown(s, s')
  {
  }

  lemma PlainGrown(s: State, s': State)
    requires s.log <= s'.log && forall e | e in s'.log[|s.log|..] :: e.tag != Astray
    ensures Grown(s, s')
  {
  }

  lemma AssignGrows(s: State, a: Act)
    requires Enabled(s, a) && (a.Set? || a.Move? || a.Release?)
    ensures Fewer(s, Do(s, a)) && Grown(s, Do(s, a))
  {
    hide Do, Fresh, SlotIds;
    var s' := Do(s, a);
    var more := AssignFacts(s, a);
    assert s'.log[|s.log|..] == more;
    PlainGrown(s, s');
  }

  lemma StepGrows(s: State, a: Act)
    requires Sound(s) && MarksSited(s) && Enabled(s, a)
    ensures Less(s, Do(s, a)) && Grown(s, Do(s, a))
  {
    hide Sound, MarksSited, Fresh, FileGoes, SlotGoes, EnterBlock, NewVariable, EnterLog, Has, Less, Fewer, Grown;
    var s' := Do(s, a);
    var top := s.stack[0];
    match a
    case Enter(nd, nf, nh) => EnterLess(s, nd, nf, nh); EnterGrown(s, nd, nf, nh);
    case New(nf, nh) => EnterLess(s, false, nf, nh); EnterGrown(s, false, nf, nh);
    case DropFile(id) =>
      var s0 := s.(heap := s.heap - {id});
      GoesFewer(s0, id, [Event(Disposed, id)]);
      DropFewer(s, s0, s');
      PlainGrown(s, s');
    case DropSlot(id) =>
      var s0 := s.(heap := s.heap - {id});
      GoesFewer(s0, id, [Event(Disposed, id)]);
      DropFewer(s, s0, s');
      PlainGrown(s, s');
    case Leave => SameLists(s, s', s); FewerIsLess(s, s'); PlainGrown(s, s');
    case EndFile(id) =>
      var s0 := WithTop(s, top.(own := top.own.(files := Without(top.own.files, id))));
      GoesFewer(s0, id, []);
      DropFewer(s, s0, s');
      PlainGrown(s, s');
    case EndSlot(id) =>
      var s0 := WithTop(s, top.(own := top.own.(slots := Without(top.own.slots, id))));
      GoesFewer(s0, id, []);
      DropFewer(s, s0, s');
      PlainGrown(s, s');
    case Goto(t) => SameLists(s, s', s); FewerIsLess(s, s'); PlainGrown(s, s');
    case Halt(status) => SameLists(s, s', s); FewerIsLess(s, s'); PlainGrown(s, s');
    case Set(_, _) => AssignGrows(s, a); FewerIsLess(s, s');
    case Move(_, _) => AssignGrows(s, a); FewerIsLess(s, s');
    case Release(_) => AssignGrows(s, a); FewerIsLess(s, s');
    case Go => GoGrows(s);
  }

  lemma SameLists(s: State, s': State, s0: State)
    requires s'.at == s.at && s'.serial == s.serial && s'.heap <= s.heap
    requires s'.defers == s.defers && s'.files == s.files && s'.slots == s.slots
    ensures Fewer(s, s')
  {
  }

  lemma DropFewer(s: State, s0: State, s': State)
    requires Fewer(s0, s') && s0.at == s.at && s0.serial == s.serial && s0.heap <= s.heap
    requires s0.defers == s.defers && s0.files == s.files && s0.slots == s.slots
    ensures Less(s, s')
  {
  }

  lemma EnterGrown(s: State, nd: bool, nf: nat, nh: nat)
    ensures Grown(s, EnterBlock(s, nd, nf, nh)) && Grown(s, NewVariable(s, nf, nh))
  {
    hide Tagged, Down;
    EnterOnly(s, nd, nf, nh);
    EnterOnly(s, false, nf, nh);
    PlainGrown(s, EnterBlock(s, nd, nf, nh));
    PlainGrown(s, NewVariable(s, nf, nh));
  }

  lemma EnterOnly(s: State, nd: bool, nf: nat, nh: nat)
    ensures EnterBlock(s, nd, nf, nh).log == s.log + EnterLog(s, nd, nf, nh)
    ensures EnterBlock(s, nd, nf, nh).log[|s.log|..] == EnterLog(s, nd, nf, nh)
    ensures forall e | e in EnterLog(s, nd, nf, nh) :: e.tag != Astray
  {
    hide Down, Tagged, EnterLog, EnterBlock, Calm;
    EnterLogAppends(s, nd, nf, nh);
    var ds := if nd then [s.serial + nf + nh] else [];
    EnterCalm(ds, Down(s.serial, nf), Down(s.serial + nf, nh));
    EnterLogCalm(s, nd, nf, nh);
  }

  lemma EnterLogAppends(s: State, nd: bool, nf: nat, nh: nat)
    ensures EnterBlock(s, nd, nf, nh).log == s.log + EnterLog(s, nd, nf, nh)
  {
  }

  lemma EnterLogCalm(s: State, nd: bool, nf: nat, nh: nat)
    requires var ds := if nd then [s.serial + nf + nh] else [];
             Calm(Tagged(DeferInit, ds) + Tagged(FileInit, Down(s.serial, nf)) + Tagged(SlotInit, Down(s.serial + nf, nh)))
    ensures forall e | e in EnterLog(s, nd, nf, nh) :: e.tag != Astray
  {
  }

  // ---------------------------------------------------------- the invariants

  /** The frame that holds a record older than the activation at a height is at that height or lower. */
  lemma InFrameBelow(stack: seq<Frame>, n: nat, h: nat, x: Id)
    requires Stacked(stack, n) && 0 < h <= |stack| && InFrame(stack, x) && x < Target(stack, h).armed
    ensures exists g :: 0 < g <= h && Target(stack, g).born <= x < Target(stack, g).armed
  {
    hide Stacked;
    var f :| f in stack && f.born <= x < f.armed;
    var i :| 0 <= i < |stack| && stack[i] == f;
    if |stack| - i > h {
      StackedCut(stack, n, i);
      var k: nat := |stack| - h - i;
      assert stack[i..][k] == Target(stack, h);
      BornAfter(stack[i..], n, k);
    }
    assert Target(stack, |stack| - i) == f;
  }

  lemma HeldThere(s: State, s': State, kept: nat, h: nat, x: Id)
    requires Shape(s, s', kept) && Stacked(s.stack, s.serial) && 0 < h <= kept
    requires InFrame(s.stack, x) && x < Target(s.stack, h).armed
    ensures InFrame(s'.stack, x)
  {
    InFrameBelow(s.stack, s.serial, h, x);
    var g :| 0 < g <= h && Target(s.stack, g).born <= x < Target(s.stack, g).armed;
    assert Kin(Target(s.stack, g), Target(s'.stack, g));
    assert Target(s'.stack, g) in s'.stack;
  }

  lemma {:induction false} OwnersInFrame(stack: seq<Frame>, n: nat)
    requires Stacked(stack, n)
    ensures forall d | d in Owners(stack) :: InFrame(stack, d)
  {
    if stack != [] {
      OwnersInFrame(stack[1..], stack[0].born);
      forall d | d in Owners(stack)
        ensures InFrame(stack, d)
      {
        if stack[0].own.defer == Some(d) {
          assert stack[0] in stack;
        } else {
          assert InFrame(stack[1..], d);
          var f :| f in stack[1..] && f.born <= d < f.armed;
          assert f in stack;
        }
      }
    }
  }

  lemma SoundFrames(s: State)
    requires Sound(s)
    ensures Stacked(s.stack, s.serial) && Sorted(s.defers) && Bounded(s.defers, s.serial)
    ensures forall d | d in s.defers :: InFrame(s.stack, d)
    ensures forall h | 0 < h <= |s.stack| ::
              Target(s.stack, h).armed <= s.serial && Target(s.stack, h).born <= Target(s.stack, h).armed
  {
    hide MarksFit, Aimed, Resumable, History, Has, InFrame;
    OwnersInFrame(s.stack, s.serial);
    forall h | 0 < h <= |s.stack|
      ensures Target(s.stack, h).armed <= s.serial && Target(s.stack, h).born <= Target(s.stack, h).armed
    {
      var k: nat := |s.stack| - h;
      StackedCut(s.stack, s.serial, k);
      assert s.stack[k..][0] == s.stack[k];
      ArmedWithin(s.stack, s.serial, k);
    }
  }

  /** An activation kept holds its mark and its saved successor in frames that are kept. */
  lemma HeldKept(s: State, s': State, kept: nat, h: nat)
    requires Sound(s) && Shape(s, s', kept) && Held(s.stack) && 0 < h <= kept
    ensures var g := Target(s'.stack, h);
            && (g.mark.d.Some? ==> g.mark.d.value < g.armed && InFrame(s'.stack, g.mark.d.value))
            && (g.job.Jumping? && g.job.cursor.Some? ==> g.job.cursor.value < g.born && InFrame(s'.stack, g.job.cursor.value))
  {
    hide Sound, InFrame;
    SoundFrames(s);
    var f, g := Target(s.stack, h), Target(s'.stack, h);
    assert f in s.stack && Kin(f, g);
    if g.mark.d.Some? { HeldThere(s, s', kept, h, g.mark.d.value); }
    if g.job.Jumping? && g.job.cursor.Some? {
      assert Advances(f, g, s.defers);
      HeldThere(s, s', kept, h, g.job.cursor.value);
    }
  }

  lemma HeldKeeps(s: State, s': State, kept: nat)
    requires Sound(s) && Sound(s') && Shape(s, s', kept) && Held(s.stack)
    ensures Held(s'.stack)
  {
    hide Sound, InFrame;
    SoundFrames(s');
    forall g | g in s'.stack
      ensures g.mark.d.Some? ==> g.mark.d.value < g.armed && InFrame(s'.stack, g.mark.d.value)
      ensures g.job.Jumping? && g.job.cursor.Some? ==> g.job.cursor.value < g.born && InFrame(s'.stack, g.job.cursor.value)
    {
      var i :| 0 <= i < |s'.stack| && s'.stack[i] == g;
      var h: nat := |s'.stack| - i;
      if h <= kept {
        HeldKept(s, s', kept, h);
        assert Target(s'.stack, h) == g;
      } else {
        assert i == 0 && Pushed(s, g, s');
        FirstIn(s'.defers);
      }
    }
  }

  /** Memory in use after a step was so before, or is new. */
  lemma UseLess(s: State, s': State, kept: nat, x: Id)
    requires Shape(s, s', kept) && Less(s, s') && InUse(s', x)
    ensures InUse(s, x) || s.serial <= x < s'.serial
  {
    if InFrame(s'.stack, x) {
      var g :| g in s'.stack && g.born <= x < g.armed;
      var i :| 0 <= i < |s'.stack| && s'.stack[i] == g;
      var h: nat := |s'.stack| - i;
      if h <= kept {
        assert Kin(Target(s.stack, h), Target(s'.stack, h));
        assert Target(s.stack, h) in s.stack;
      } else {
        assert i == 0;
      }
    }
  }

  lemma ApartKeeps(s: State, s': State, kept: nat)
    requires Shape(s, s', kept) && Less(s, s') && Apart(s) && Fresh(s, s'.serial - s.serial)
    ensures Apart(s')
  {
    hide Shape, Less, InUse;
    assert s'.at == s.at by { LessAt(s, s'); }
    forall x: Id, y: Id | InUse(s', x) && InUse(s', y) && x != y
      ensures s'.at(x) != s'.at(y)
    {
      UseLess(s, s', kept, x);
      UseLess(s, s', kept, y);
    }
  }

  lemma LessAt(s: State, s': State)
    requires Less(s, s')
    ensures s'.at == s.at && s.serial <= s'.serial
  {
  }

  lemma MarksSitedKeeps(s: State, s': State, kept: nat)
    requires Sound(s) && Shape(s, s', kept) && Less(s, s') && MarksSited(s) && Apart(s')
    ensures MarksSited(s')
  {
    hide Sound, Held, InFrame, SlotIds;
    SoundFrames(s);
    forall g | g in s'.stack
      ensures Sited(s'.at, s'.files, g.mark.f, g.armed) && Sited(s'.at, SlotIds(s'.slots), g.mark.h, g.armed)
    {
      var i :| 0 <= i < |s'.stack| && s'.stack[i] == g;
      var h: nat := |s'.stack| - i;
      if h <= kept {
        var f := Target(s.stack, h);
        assert Kin(f, Target(s'.stack, h)) && f in s.stack && f.armed <= s.serial;
      } else {
        assert i == 0 && g.mark == HeadsOf(s');
        FirstIn(s'.files);
        FirstIn(SlotIds(s'.slots));
        HeadSited(s', s'.files, g.armed);
        HeadSited(s', SlotIds(s'.slots), g.armed);
      }
    }
  }

  lemma HeadSited(s: State, list: seq<Id>, n: nat)
    requires Apart(s) && forall x | x in list :: InUse(s, x)
    ensures Sited(s.at, list, Head(list), n)
  {
    hide InUse;
    FirstIn(list);
  }

  lemma DrainedKeeps(s: State, s': State, kept: nat)
    requires Sound(s) && Sound(s') && Shape(s, s', kept) && Less(s, s') && Grown(s, s') && Drained(s)
    ensures Drained(s')
  {
    hide Sound, Has, SlotIds, InFrame, Below;
    SoundFrames(s);
    SoundFrames(s');
    var more := s'.log[|s.log|..];
    assert s'.log == s.log + more;
    forall g | g in s'.stack && g.job.Jumping? && Since(s'.log, g.job.since, Astray)
      ensures Below(s'.defers, g.born) == []
    {
      var i :| 0 <= i < |s'.stack| && s'.stack[i] == g;
      var h: nat := |s'.stack| - i;
      if h <= kept {
        var f := Target(s.stack, h);
        assert Target(s'.stack, h) == g && Kin(f, g) && f in s.stack;
        SinceInLog(s, h);
        SinceGrows(s.log, more, g.job.since, Astray);
        BelowFacts(s.defers, g.born);
        BelowFacts(s'.defers, g.born);
        NoMembers(Below(s'.defers, g.born));
      } else {
        assert i == 0;
        NothingSince(s'.log);
      }
    }
  }

  lemma NothingSince(log: seq<Event>)
    ensures !Since(log, |log|, Astray)
  {
  }

  lemma SinceInLog(s: State, h: nat)
    requires Sound(s) && 0 < h <= |s.stack| && Target(s.stack, h).job.Jumping?
    ensures Target(s.stack, h).job.since <= |s.log|
  {
    hide MarksFit, Aimed, Resumable, History, Has, Ordered, Stacked;
    var k: nat := |s.stack| - h;
    CutBelow(s.stack, s, k);
    HistoryTop(s.stack[k..], s);
    SinceWithin(s.stack[k], s);
  }

  lemma StepPlaced(s: State, a: Act)
    requires Sound(s) && Placed(s) && Drained(s) && Enabled(s, a) && Sound(Do(s, a))
    ensures Placed(Do(s, a)) && Drained(Do(s, a))
  {
    hide Sound, MarksSited, Apart, Held, Drained, Do, Shape, Less, Grown, Enabled, Kept;
    var s' := Do(s, a);
    var kept := Kept(s, a);
    StepShape(s, a);
    StepGrows(s, a);
    HeldKeeps(s, s', kept);
    StepFresh(s, a);
    ApartKeeps(s, s', kept);
    MarksSitedKeeps(s, s', kept);
    DrainedKeeps(s, s', kept);
  }

  /** A step makes no more records than it has found room for. */
  lemma StepFresh(s: State, a: Act)
    requires Sound(s) && MarksSited(s) && Enabled(s, a)
    ensures s.serial <= Do(s, a).serial && Fresh(s, Do(s, a).serial - s.serial)
  {
    hide Sound, MarksSited, InUse, FileGoes, SlotGoes, EnterBlock, NewVariable, Has, Fewer, Land, RunDeferred, Assigned, HeadsOf;
    var s' := Do(s, a);
    match a
    case Enter(nd, nf, nh) => EnterLess(s, nd, nf, nh);
    case New(nf, nh) => EnterLess(s, false, nf, nh);
    case _ => SameSerial(s, a);
  }

  lemma SameSerial(s: State, a: Act)
    requires Enabled(s, a) && !a.Enter? && !a.New?
    ensures Do(s, a).serial == s.serial
  {
    hide Fresh, Above, Tagged, SlotsDone, Strayed, Without, HeadsOf, Put, HeldBy, SlotsWithout, SlotIds;
  }
}
