/** How an unwinding ends: a goto or a halt goes on until it has landed or stopped the program, or
    until a goto made inside one of its runners lands beneath it and so leaves it undone. */
module UnwindingEnds {
  import opened Unwinding
  import opened UnwindingLists
  import opened UnwindingSteps
  import opened UnwindingPlaces
  import opened UnwindingTheorems

  predicate Unwinds(f: Frame) { f.job.Jumping? || f.job.Halting? }

  /** The unwinding at a height is the one that began as f. */
  predicate Goes(s: State, h: nat, f: Frame) { 0 < h <= |s.stack| && Kin(f, Target(s.stack, h)) }

  /** It has been there in all the states from b up to i. */
  ghost predicate GoesOn(run: seq<State>, b: nat, i: nat, h: nat, f: Frame) {
    i < |run| && forall m | b <= m <= i :: Goes(run[m], h, f)
  }

  /** Some goto has landed beneath the height in between; for a goto that may be its own landing. */
  ghost predicate LandedBeneath(run: seq<State>, b: nat, i: nat, h: nat) {
    i < |run| && exists m | b <= m < i :: Lands(run[m], run[m + 1], h)
  }

  ghost predicate Lands(s: State, s': State, h: nat) {
    AboutToLand(s) && s' == Do(s, Go) && s.stack[0].job.target < h
  }

  /** The program has stopped while it was there. */
  ghost predicate StoppedWithin(run: seq<State>, b: nat, i: nat, h: nat, f: Frame) {
    b < i < |run| && run[i].over && GoesOn(run, b, i - 1, h, f)
  }

  // ------------------------------------------------------------ one step

  lemma KinTwice(f: Frame, g: Frame, k: Frame)
    requires Kin(f, g) && Kin(g, k)
    ensures Kin(f, k)
  {
  }

  lemma StepAtHeight(s: State, a: Act, h: nat, f: Frame)
    requires Sound(s) && Enabled(s, a) && Unwinds(f) && Goes(s, h, f)
    ensures var s' := Do(s, a);
            Goes(s', h, f) || s'.over || (a.Go? && Lands(s, s', h))
  {
    hide Sound, Do, Fresh, InUse, FrameAccounted, CursorGood;
    StepShape(s, a);
    var s' := Do(s, a);
    var kept := Kept(s, a);
    if h <= kept {
      assert Kin(Target(s.stack, h), Target(s'.stack, h));
      KinTwice(f, Target(s.stack, h), Target(s'.stack, h));
    } else {
      assert a.Go?;
      if s.stack[0].job.Halting? { HaltStops(s); }
    }
  }

  lemma HaltStops(s: State)
    requires Enabled(s, Go) && s.stack[0].job.Halting? && s.defers == []
    ensures Do(s, Go).over && Do(s, Go) == Finish(s, s.stack[0].job.status)
  {
  }

  lemma LandingLeaves(s: State, h: nat)
    requires Sound(s) && MarksSited(s) && AboutToLand(s) && s.stack[0].job.target < h
    ensures |Do(s, Go).stack| < h && !Do(s, Go).over
  {
    hide Sound, MarksSited, Tagged, SlotsDone, Strayed, Above;
    LandStacks(s);
  }

  lemma SoundAt(run: seq<State>, i: nat)
    requires Run(run) && i < |run|
    ensures Sound(run[i]) && MarksSited(run[i]) && Apart(run[i]) && Inv(run[i])
  {
    hide Sound, Drained;
    RunKeeps(run, i);
  }

  // ------------------------------------------------------- what may happen

  /** An unwinding is still there, or has stopped the program with all that is on top of it, if and
      only if no goto has landed beneath it. */
  lemma {:induction false} UnwindingEndsOrIsLeft(run: seq<State>, b: nat, i: nat)
    requires Run(run) && b <= i < |run| && run[b].stack != [] && Unwinds(run[b].stack[0])
    ensures var h, f := |run[b].stack|, run[b].stack[0];
            GoesOn(run, b, i, h, f) || StoppedWithin(run, b, i, h, f) <==> !LandedBeneath(run, b, i, h)
  {
    hide Sound, Do, Enabled, Kin, Lands, Inv, MarksSited, Apart;
    var h, f := |run[b].stack|, run[b].stack[0];
    assert Goes(run[b], h, f) by { KinSelf(f); }
    if i > b {
      UnwindingEndsOrIsLeft(run, b, i - 1);
      SoundAt(run, i - 1);
      assert Next(run[i - 1], run[i]);
      var a: Act :| Enabled(run[i - 1], a) && run[i] == Do(run[i - 1], a);
      NotOverBefore(run[i - 1], a);
      if Lands(run[i - 1], run[i], h) {
        LandsLeaves(run[i - 1], run[i], h);
        assert !Goes(run[i], h, f);
      } else if GoesOn(run, b, i - 1, h, f) {
        assert Goes(run[i - 1], h, f);
        StepAtHeight(run[i - 1], a, h, f);
      }
    }
  }

  lemma KinSelf(f: Frame)
    ensures Kin(f, f)
  {
  }

  lemma NotOverBefore(s: State, a: Act)
    requires Enabled(s, a)
    ensures !s.over
  {
  }

  lemma LandsLeaves(s: State, s': State, h: nat)
    requires Sound(s) && MarksSited(s) && Lands(s, s', h)
    ensures |s'.stack| < h && !s'.over
  {
    hide Sound, MarksSited;
    LandingLeaves(s, h);
  }

  // ------------------------------------------------------------------- halt

  /** The program calls `halt` in the state b. */
  ghost predicate HaltBegins(run: seq<State>, b: nat, status: nat) {
    b + 1 < |run| && Enabled(run[b], Halt(status)) && run[b + 1] == Do(run[b], Halt(status))
  }

  lemma HaltFrame(run: seq<State>, b: nat, status: nat)
    requires HaltBegins(run, b, status)
    ensures var s, s' := run[b], run[b + 1];
            && |s'.stack| == |s.stack| + 1 && s'.stack[0].job == Halting(status, |s.log|, ListsOf(s)) && s'.stack[0].born == s.serial
            && s'.log == s.log && s'.defers == s.defers
  {
  }

  /** As long as it goes on, a halt has run the runners it found from the head on and owes the rest. */
  lemma HaltInOrder(run: seq<State>, b: nat, i: nat, status: nat)
    requires Run(run) && HaltBegins(run, b, status) && b < i < |run|
    requires GoesOn(run, b + 1, i, |run[b].stack| + 1, run[b + 1].stack[0])
    ensures var s, from := run[i], |run[b].log|;
            && from <= |s.log|
            && RanOf(s.log[from..], run[b].defers) + Below(s.defers, run[b].serial) == run[b].defers
            && (!Since(s.log, from, AstrayVars) ==>
                  && (forall x | x in run[b].files :: x in s.files || Event(Disposed, x) in s.log[from..])
                  && (forall x | x in SlotIds(run[b].slots) :: x in SlotIds(s.slots) || Event(Disposed, x) in s.log[from..]))
  {
    hide Sound, Do, Enabled, RanOf, Below, Since;
    HaltFrame(run, b, status);
    var h := |run[b].stack| + 1;
    assert Goes(run[i], h, run[b + 1].stack[0]);
    UnwindingInOrder(run, i, |run[i].stack| - h);
  }

  /** What a `halt` does, told from where the program calls it. Its frame goes on until the program
      has stopped, unless a goto made inside a runner lands in a block beneath: then and only then
      the program goes on after the halt. If the program has stopped with it, every runner that was
      on the list when it was called has been run since, in order, and also when one of them halted
      again; and the last thing that happened is the exit, with the status of
      the halt on top, which is its own unless a runner halted again. */
  lemma HaltRunsAll(run: seq<State>, b: nat, i: nat, status: nat)
    requires Run(run) && HaltBegins(run, b, status) && b < i < |run|
    ensures var h, f := |run[b].stack| + 1, run[b + 1].stack[0];
            var s, from := run[i], |run[b].log|;
            && (LandedBeneath(run, b + 1, i, h) <==> !GoesOn(run, b + 1, i, h, f) && !StoppedWithin(run, b + 1, i, h, f))
            && (StoppedWithin(run, b + 1, i, h, f) ==>
                  && from < |s.log| && run[i - 1].stack != [] && run[i - 1].stack[0].job.Halting?
                  && s.log[|s.log| - 1] == Event(Exited, run[i - 1].stack[0].job.status)
                  && (|run[i - 1].stack| == h ==> s.log[|s.log| - 1] == Event(Exited, status))
                  && RanOf(s.log[from..], run[b].defers) == run[b].defers)
            && (GoesOn(run, b + 1, i, h, f) && s.stack[0].job.Halting? && s.defers == [] ==>
                  && from <= |s.log| && RanOf(s.log[from..], run[b].defers) == run[b].defers
                  && (!Since(s.log, from, AstrayVars) ==>
                        && (forall x | x in run[b].files :: x in s.files || Event(Disposed, x) in s.log[from..])
                        && (forall x | x in SlotIds(run[b].slots) :: x in SlotIds(s.slots) || Event(Disposed, x) in s.log[from..])))
  {
    hide Sound, Do, Enabled, RanOf, Since, GoesOn, LandedBeneath, HaltBegins, Inv;
    HaltFrame(run, b, status);
    var h, f := |run[b].stack| + 1, run[b + 1].stack[0];
    UnwindingEndsOrIsLeft(run, b + 1, i);
    if GoesOn(run, b + 1, i, h, f) {
      HaltInOrder(run, b, i, status);
      assert Below([], run[b].serial) == [];
    }
    if StoppedWithin(run, b + 1, i, h, f) {
      HaltInOrder(run, b, i - 1, status);
      StopIs(run, i);
      assert Goes(run[i - 1], h, f) by { assert GoesOn(run, b + 1, i - 1, h, f); GoesThere(run, b + 1, i - 1, h, f); }
      var s := run[i - 1];
      var from := |run[b].log|;
      assert Below([], run[b].serial) == [];
      assert run[i].log[from..] == s.log[from..] + run[i].log[|s.log|..];
      RanOfAppend(s.log[from..], run[i].log[|s.log|..], run[b].defers);
      RanOfNone(run[i].log[|s.log|..], run[b].defers);
    }
  }

  lemma GoesThere(run: seq<State>, b: nat, i: nat, h: nat, f: Frame)
    requires GoesOn(run, b, i, h, f) && b <= i
    ensures Goes(run[i], h, f)
  {
  }

  /** The step that stops the program: nothing is left to run, files and handles are closed. */
  lemma StopIs(run: seq<State>, i: nat)
    requires Run(run) && 0 < i < |run| && run[i].over
    ensures run[i - 1].defers == [] && run[i - 1].log < run[i].log && run[i - 1].stack != []
    ensures run[i - 1].stack[0].job.Halting?
    ensures run[i].log[|run[i].log| - 1] == Event(Exited, run[i - 1].stack[0].job.status)
    ensures forall e | e in run[i].log[|run[i - 1].log|..] :: e.tag != Ran
  {
    hide Sound, Do, Enabled, Tagged, SlotsDone, Inv;
    assert Next(run[i - 1], run[i]);
    var a: Act :| Enabled(run[i - 1], a) && run[i] == Do(run[i - 1], a);
    OnlyHaltStops(run[i - 1], a);
    var s := run[i - 1];
    var more := Tagged(FileDone, s.files) + SlotsDone(s.slots) + [Event(Exited, s.stack[0].job.status)];
    TaggedTags(FileDone, s.files);
    SlotsDoneTags(s.slots);
    assert run[i].log == s.log + more;
    assert run[i].log[|s.log|..] == more;
  }

  lemma OnlyHaltStops(s: State, a: Act)
    requires Enabled(s, a) && Do(s, a).over
    ensures a.Go? && s.stack != [] && s.stack[0].job.Halting? && s.defers == [] && Do(s, a) == Finish(s, s.stack[0].job.status)
  {
    hide Fresh, Above, Tagged, SlotsDone, Strayed, Without, HeadsOf, Put, HeldBy, SlotsWithout, SlotIds;
  }

  /** Once the program has stopped the lists are empty: every runner that was ever armed has been run
      exactly once and every file and handle variable released exactly once. A foreign value has been
      closed as often as it was obtained if and only if no variable holds it whose record had left
      the list: one put there after a goto released the variable under the program's hands. */
  lemma StoppedLeavesNothing(run: seq<State>, i: nat, x: nat)
    requires Run(run) && i < |run| && run[i].over
    ensures Emptied(run[i], x)
  {
    hide Ordered, History, Resumable, MarksFit, Drained, MarksSited, Apart;
    RunKeeps(run, i);
    FirstIn(run[i].defers);
    assert ConservedAt(run[i], x) && NumberedAt(run[i], x);
  }

  predicate Emptied(s: State, x: nat) {
    && s.defers == [] && s.files == [] && s.slots == []
    && Times(s.log, Ran, x) == Times(s.log, DeferInit, x) <= 1
    && Times(s.log, FileDone, x) == Times(s.log, FileInit, x) <= 1
    && Times(s.log, SlotDone, x) == Times(s.log, SlotInit, x) <= 1
    && (Times(s.log, Closed, x) == Times(s.log, Got, x) <==> Holding(s.loose, x) == 0)
  }

  /** From where the program calls `halt`, exactly one of three things: a goto has landed beneath it
      and it is left undone; it is at work, and the program has not stopped; or the program has
      stopped within it, and nothing is left. */
  lemma HaltLeavesNothing(run: seq<State>, b: nat, i: nat, status: nat, x: nat)
    requires Run(run) && HaltBegins(run, b, status) && b < i < |run|
    ensures var h, f := |run[b].stack| + 1, run[b + 1].stack[0];
            var left, at_work, stopped :=
              LandedBeneath(run, b + 1, i, h), GoesOn(run, b + 1, i, h, f), StoppedWithin(run, b + 1, i, h, f);
            && (left || at_work || stopped)
            && !(left && at_work) && !(left && stopped) && !(at_work && stopped)
            && (at_work ==> !run[i].over) && (stopped ==> Emptied(run[i], x))
  {
    hide Sound, Do, Enabled, Inv, LandedBeneath, HaltBegins, Emptied;
    HaltFrame(run, b, status);
    UnwindingEndsOrIsLeft(run, b + 1, i);
    if run[i].over {
      StoppedLeavesNothing(run, i, x);
      StackGone(run, i);
    }
  }

  lemma StackGone(run: seq<State>, i: nat)
    requires Run(run) && i < |run| && run[i].over
    ensures run[i].stack == []
  {
    hide Sound, Placed, Drained;
    RunKeeps(run, i);
  }
}
