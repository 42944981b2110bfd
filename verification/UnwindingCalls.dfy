/** What the program's own operations on handles, on heap variables and of going somewhere come to,
    told from the operation. */
module UnwindingCalls {
  import opened Unwinding
  import opened UnwindingLists
  import opened UnwindingSteps
  import opened UnwindingPlaces
  import opened UnwindingTheorems
  import opened UnwindingEnds

  // ------------------------------------------------------------------- goto

  /** An unwinding that is still there was kept by the step. */
  lemma KeptThere(s: State, a: Act, h: nat, f: Frame)
    requires Sound(s) && MarksSited(s) && Enabled(s, a) && Unwinds(f) && Goes(s, h, f) && Goes(Do(s, a), h, f)
    ensures h <= Kept(s, a)
  {
    hide Sound, MarksSited, Do, Fresh, InUse, FrameAccounted, CursorGood;
    StepShape(s, a);
    if h > Kept(s, a) {
      assert a.Go?;
      if s.stack[0].job.Halting? {
        HaltStops(s);
        FinishEmpties(s, s.stack[0].job.status);
      } else if s.stack[0].job.Jumping? {
        assert AboutToLand(s);
        LandingLeaves(s, h);
      }
    }
  }

  lemma FinishEmpties(s: State, status: nat)
    ensures Finish(s, status).stack == []
  {
  }

  /** What lies beneath an unwinding stays as it is. */
  lemma {:induction false} BeneathStays(run: seq<State>, b: nat, i: nat, h: nat, f: Frame, g: nat)
    requires Run(run) && b <= i && GoesOn(run, b, i, h, f) && Unwinds(f) && 0 < g < h
    ensures g <= |run[b].stack| && g <= |run[i].stack| && Kin(Target(run[b].stack, g), Target(run[i].stack, g))
  {
    hide Sound, Do, Enabled, Kin, Inv, MarksSited, Apart, Kept;
    assert Goes(run[b], h, f) && Goes(run[i], h, f);
    if i == b {
      KinSelf(Target(run[b].stack, g));
    } else {
      BeneathStays(run, b, i - 1, h, f, g);
      SoundAt(run, i - 1);
      assert Next(run[i - 1], run[i]);
      var a: Act :| Enabled(run[i - 1], a) && run[i] == Do(run[i - 1], a);
      assert Goes(run[i - 1], h, f);
      KeptThere(run[i - 1], a, h, f);
      StepShape(run[i - 1], a);
      KinTwice(Target(run[b].stack, g), Target(run[i - 1].stack, g), Target(run[i].stack, g));
    }
  }

  /** A goto made in the state b to the block at height t, when its own walk has come to its end, goes by
      that block's marks and by the lists it found, and lands in that very block, whose text goes on. */
  lemma GotoLands(run: seq<State>, b: nat, i: nat, t: nat)
    requires Run(run) && b + 1 <= i < |run| && Enabled(run[b], Goto(t)) && run[b + 1] == Do(run[b], Goto(t))
    requires GoesOn(run, b + 1, i, |run[b].stack| + 1, run[b + 1].stack[0])
    requires |run[i].stack| == |run[b].stack| + 1 && AboutToLand(run[i])
    ensures var to := Target(run[b].stack, t);
            var j := run[i].stack[0].job;
            && j.target == t && j.mark == to.mark && j.limit == to.armed && j.before == ListsOf(run[b]) && j.since == |run[b + 1].log|
    ensures var to, s' := Target(run[b].stack, t), Do(run[i], Go);
            && |s'.stack| == t && s'.stack[0].job == Code(false)
            && s'.stack[0].born == to.born && s'.stack[0].armed == to.armed && s'.stack[0].mark == to.mark
  {
    hide Sound, MarksSited, Apart, Inv, Kin;
    var h := |run[b].stack| + 1;
    JumpBegins(run[b], t);
    var f := run[b + 1].stack[0];
    assert Goes(run[i], h, f) && Target(run[i].stack, h) == run[i].stack[0];
    KinJob(f, run[i].stack[0]);
    SoundAt(run, i);
    BeneathStays(run, b + 1, i, h, f, t);
    KinNumbers(Target(run[b + 1].stack, t), Target(run[i].stack, t));
    LandTop(run[i]);
  }

  lemma JumpBegins(s: State, t: nat)
    requires Enabled(s, Goto(t))
    ensures var s', to := Do(s, Goto(t)), Target(s.stack, t);
            && |s'.stack| == |s.stack| + 1 && 0 < t <= |s.stack| && Target(s'.stack, t) == to
            && s'.stack[0].job == Jumping(t, Head(s.defers), |s'.log|, ListsOf(s), to.mark, to.armed)
  {
  }

  lemma KinJob(f: Frame, g: Frame)
    requires Kin(f, g) && f.job.Jumping?
    ensures g.job.Jumping? && g.job == f.job.(cursor := g.job.cursor)
  {
  }

  lemma KinNumbers(f: Frame, g: Frame)
    requires Kin(f, g)
    ensures g.born == f.born && g.armed == f.armed && g.mark == f.mark
  {
  }

  lemma LandTop(s: State)
    requires Sound(s) && MarksSited(s) && AboutToLand(s)
    ensures var t, s' := s.stack[0].job.target, Do(s, Go);
            0 < t < |s.stack| && |s'.stack| == t && s'.stack[0] == Target(s.stack, t).(job := Code(false))
  {
    hide Sound, MarksSited, Tagged, SlotsDone, Strayed, Above;
    LandStacks(s);
  }

  // --------------------------------------------------- variables and values

  /** An assignment closes what the variable held, and it holds the new value; a move leaves the
      source empty, and what the source held is the target's; no other variable is touched. */
  lemma AssignmentsMove(s: State, a: Act, x: Id)
    requires Enabled(s, a) && (a.Set? || a.Move? || a.Release?) && Live(s, x)
    ensures var s' := Do(s, a);
            && Live(s', x)
            && ValueOf(s', x) ==
               (match a
                case Set(id, v) => if x == id then v else ValueOf(s, x)
                case Move(src, dst) => if x == dst then ValueOf(s, src) else if x == src then None else ValueOf(s, x)
                case Release(id) => if x == id then None else ValueOf(s, x))
            && s'.log == s.log +
               (match a
                case Set(id, v) => Getting(v) + Closing(ValueOf(s, id))
                case Move(src, dst) => if src == dst then [] else Closing(ValueOf(s, dst))
                case Release(id) => Closing(ValueOf(s, id)))
  {
    hide Fresh, Assigned, WithValue, ValueOf, Closing, Getting, Live;
    match a
    case Set(id, v) =>
      LogOnly(s, Getting(v), x);
      LogOnly(s, Getting(v), id);
      AssignOne(Logged(s, Getting(v)), id, v, x);
      assert s.log + Getting(v) + Closing(ValueOf(s, id)) == s.log + (Getting(v) + Closing(ValueOf(s, id)));
    case Move(src, dst) =>
      ValueOne(s, src, None, x);
      ValueOne(s, src, None, dst);
      AssignOne(WithValue(s, src, None), dst, ValueOf(s, src), x);
      NothingClosed();
    case Release(id) => AssignOne(s, id, None, x);
  }

  lemma NothingClosed()
    ensures Closing(None) == []
  {
  }

  lemma LogOnly(s: State, more: seq<Event>, x: Id)
    ensures ValueOf(Logged(s, more), x) == ValueOf(s, x) && (Live(Logged(s, more), x) <==> Live(s, x))
  {
  }

  lemma ValueOne(s: State, id: Id, v: Option<nat>, x: Id)
    requires Live(s, id) && Live(s, x)
    ensures var s' := WithValue(s, id, v);
            Live(s', x) && s'.log == s.log && ValueOf(s', x) == if x == id then v else ValueOf(s, x)
  {
    hide Put, HeldBy, SlotIds;
    SlotIdsChanged(s.slots, id, v);
    SlotIdsChanged(s.loose, id, v);
    PutOne(s.slots, id, v, x);
    PutOne(s.loose, id, v, x);
  }

  lemma {:induction false} PutOne(slots: seq<Slot>, id: Id, v: Option<nat>, x: Id)
    ensures x in SlotIds(slots) ==> HeldBy(Put(slots, id, v), x) == if x == id then v else HeldBy(slots, x)
  {
    if slots != [] {
      PutOne(slots[1..], id, v, x);
      assert Put(slots, id, v)[1..] == if slots[0].id == id then slots[1..] else Put(slots[1..], id, v);
    }
  }

  lemma AssignOne(s: State, id: Id, v: Option<nat>, x: Id)
    requires Live(s, id) && Live(s, x)
    ensures var s' := Assigned(s, id, v);
            && Live(s', x) && ValueOf(s', x) == (if x == id then v else ValueOf(s, x))
            && s'.log == s.log + Closing(ValueOf(s, id))
  {
    hide WithValue, ValueOf, Closing, Live;
    LogOnly(s, Closing(ValueOf(s, id)), x);
    LogOnly(s, Closing(ValueOf(s, id)), id);
    ValueOne(Logged(s, Closing(ValueOf(s, id))), id, v, x);
  }

  /** Disposing of a variable that contains a file takes the file's record off its list, if a goto has
      not done so before; and by then it has been released, once. */
  lemma DisposeFile(run: seq<State>, i: nat, id: Id)
    requires Run(run) && i + 1 < |run| && Enabled(run[i], DropFile(id)) && run[i + 1] == Do(run[i], DropFile(id))
    ensures var s := run[i + 1];
            id !in s.files && id !in s.heap && (Times(s.log, FileInit, id) == 1 ==> Times(s.log, FileDone, id) == 1)
  {
    hide Sound, Placed, Drained, Times, Count, SlotIds, Fresh, Without;
    RunKeeps(run, i);
    RunKeeps(run, i + 1);
    SoundSorted(run[i]);
    WithoutFacts(run[i].files, id);
    assert ConservedAt(run[i + 1], id);
    assert NumberedAt(run[i + 1], id);
    NotCounted(run[i + 1].files, id);
  }

  lemma SoundSorted(s: State)
    requires Sound(s)
    ensures Sorted(s.files) && Sorted(SlotIds(s.slots))
  {
  }

  /** One that contains a handle likewise; and what the handle held is closed, once. */
  lemma DisposeSlot(run: seq<State>, i: nat, id: Id, v: nat)
    requires Run(run) && i + 1 < |run| && Enabled(run[i], DropSlot(id)) && run[i + 1] == Do(run[i], DropSlot(id))
    ensures var s := run[i + 1];
            && id !in SlotIds(s.slots) && id !in s.heap && (Times(s.log, SlotInit, id) == 1 ==> Times(s.log, SlotDone, id) == 1)
            && Times(s.log, Closed, v) == Times(run[i].log, Closed, v) + Is(ValueOf(run[i], id), v)
  {
    hide Sound, Placed, Drained, Times, Count, SlotIds, Fresh, Without, SlotsWithout, HeldBy, Closing;
    var s, s' := run[i], run[i + 1];
    RunKeeps(run, i);
    RunKeeps(run, i + 1);
    SoundSorted(s);
    WithoutFacts(SlotIds(s.slots), id);
    SlotIdsChanged(s.slots, id, None);
    assert ConservedAt(s', id);
    assert NumberedAt(s', id);
    NotCounted(SlotIds(s'.slots), id);
    var why, held := [Event(Disposed, id)], ValueOf(s, id);
    var e := if id in SlotIds(s.slots) then [Event(SlotDone, id)] else [];
    assert Closing(held) + [] == Closing(held);
    assert s'.log == s.log + (why + (Closing(held) + e));
    TimesAppend(s.log, why + (Closing(held) + e), Closed, v);
    GoesTimes(why, held, e, id, Closed, v);
  }
}
