/** What a select has seen by the time it gives up (runtime/pasrt_task.c), told over the states of
    a run: not by the list of refused arms the selector keeps, but by where the channels stood. */
module SelectRounds {
  import opened ChannelProtocol
  import opened ChannelInvariant
  import opened SelectRotation
  import opened ChannelTheorems

  // ------------------------------------------------------------------ a round

  /** The thread is in the round of `sel`, activity in its hands all the while. */
  predicate InRoundOf(s: State, t: Tid, sel: Sel) {
    var pc := PcOf(s, t);
    && s.activity == Some(t) && InRound(pc)
    && pc.sel.arms == sel.arms && pc.sel.turn == sel.turn && pc.sel.bounded == sel.bounded
    && pc.sel.refused <= sel.refused
  }

  /** The thread has the arm's channel locked and is about to try that arm. */
  predicate Tries(s: State, t: Tid, arm: nat) {
    var pc := PcOf(s, t);
    && pc.Trying? && arm < |pc.sel.arms| && NextArm(pc.sel) == arm
    && pc.sel.arms[arm].c in s.chans && s.chans[pc.sel.arms[arm].c].holder == Some(t)
  }

  /** And the arm can neither receive nor send, its channel not closed either. */
  predicate InVain(s: State, t: Tid, arm: nat) {
    Tries(s, t, arm) && !ArmReady(s.chans[PcOf(s, t).sel.arms[arm].c], PcOf(s, t).sel.arms[arm])
  }

  /** Some state of the round tries the arm in vain. */
  ghost predicate VainIn(run: seq<State>, begun: nat, end: nat, t: Tid, arm: nat)
    requires end <= |run|
  {
    exists j | begun <= j < end :: InVain(run[j], t, arm)
  }

  /** The states from `begun` up to `end` are one round: activity is never let go, and every arm
      passed over was tried in vain in one of them. */
  ghost predicate Round(run: seq<State>, begun: nat, end: nat, t: Tid, sel: Sel) {
    && begun < end <= |run|
    && (forall m | begun <= m < end :: InRoundOf(run[m], t, sel))
    && forall k | 0 <= k < |sel.refused| :: VainIn(run, begun, end, t, sel.refused[k])
  }

  ghost predicate RoundUpTo(run: seq<State>, end: nat, t: Tid, sel: Sel) {
    exists begun: nat :: Round(run, begun, end, t, sel)
  }

  /** Since then the thread has only waited and, its time being out, given up. */
  ghost predicate Waited(run: seq<State>, parked: nat, i: nat, t: Tid, sel: Sel) {
    forall m | parked <= m <= i < |run| :: PcOf(run[m], t) == Asleep(sel) || PcOf(run[m], t) == GaveUp(sel)
  }

  ghost predicate RoundThenWait(run: seq<State>, begun: nat, parked: nat, i: nat, t: Tid, sel: Sel) {
    && parked <= i < |run| && PcOf(run[parked], t) == Asleep(sel)
    && Round(run, begun, parked, t, sel) && Waited(run, parked, i, t, sel)
  }

  /** What a selector's place says of the states before. */
  ghost predicate Seen(run: seq<State>, i: nat, t: Tid)
    requires i < |run|
  {
    match PcOf(run[i], t)
    case Poll(sel) => RoundUpTo(run, i + 1, t, sel)
    case Trying(sel) => RoundUpTo(run, i + 1, t, sel)
    case Tried(sel, _, fired) => fired || RoundUpTo(run, i + 1, t, sel)
    case Asleep(sel) =>
      && (t in run[i].selectorsTimedOut ==> sel.bounded)
      && exists begun: nat, parked: nat :: RoundThenWait(run, begun, parked, i, t, sel)
    case GaveUp(sel) =>
      sel.bounded && exists begun: nat, parked: nat :: RoundThenWait(run, begun, parked, i, t, sel)
    case _ => true
  }

  // -------------------------------------------------------------- its growing

  /** One more state, the arms passed over the same. */
  lemma RoundExtends(run: seq<State>, begun: nat, i: nat, t: Tid, sel: Sel)
    requires i < |run| && Round(run, begun, i, t, sel) && InRoundOf(run[i], t, sel)
    ensures Round(run, begun, i + 1, t, sel)
  {
    hide InRoundOf, InVain;
    forall k | 0 <= k < |sel.refused|
      ensures VainIn(run, begun, i + 1, t, sel.refused[k])
    {
      var j :| begun <= j < i && InVain(run[j], t, sel.refused[k]);
    }
  }

  /** One more state, and the arm tried in the last one passed over. */
  lemma RoundGrows(run: seq<State>, begun: nat, i: nat, t: Tid, sel: Sel, arm: nat)
    requires i < |run| && Round(run, begun, i, t, sel) && InVain(run[i - 1], t, arm)
    requires InRoundOf(run[i], t, sel.(refused := sel.refused + [arm]))
    ensures Round(run, begun, i + 1, t, sel.(refused := sel.refused + [arm]))
  {
    hide InVain;
    var sel' := sel.(refused := sel.refused + [arm]);
    forall m | begun <= m < i + 1
      ensures InRoundOf(run[m], t, sel')
    {
      if m < i { assert InRoundOf(run[m], t, sel); }
    }
    forall k | 0 <= k < |sel'.refused|
      ensures VainIn(run, begun, i + 1, t, sel'.refused[k])
    {
      if k < |sel.refused| {
        var j :| begun <= j < i && InVain(run[j], t, sel.refused[k]);
        assert sel'.refused[k] == sel.refused[k];
      }
    }
  }

  /** The wait goes on, or ends in giving up. */
  lemma WaitGoesOn(run: seq<State>, begun: nat, parked: nat, i: nat, t: Tid, sel: Sel)
    requires 0 < i < |run| && RoundThenWait(run, begun, parked, i - 1, t, sel)
    requires PcOf(run[i], t) == Asleep(sel) || PcOf(run[i], t) == GaveUp(sel)
    ensures RoundThenWait(run, begun, parked, i, t, sel)
  {
    hide Round, PcOf;
    assert forall m | parked <= m <= i - 1 :: PcOf(run[m], t) == Asleep(sel) || PcOf(run[m], t) == GaveUp(sel);
  }

  // ------------------------------------------------------------------ a step

  /** A step moves no other thread. */
  lemma OthersStay(s: State, u: Tid, a: Act, t: Tid)
    requires Enabled(s, u, a) && u != t
    ensures PcOf(Do(s, u, a), t) == PcOf(s, t)
    ensures t in Do(s, u, a).selectorsTimedOut ==> t in s.selectorsTimedOut
  {
    hide JobBody, TryBody, ArmAt, PicksInJob, PicksInTry;
  }

  /** Where a selector's own step can take it. */
  ghost predicate SelectStep(s: State, s': State, t: Tid) {
    var pc, pc' := PcOf(s, t), PcOf(s', t);
    match pc'
    case Poll(sel) => sel.refused == [] || pc == Tried(sel, if pc.Tried? then pc.arm else 0, false)
    case Trying(sel) => pc == Poll(sel) || pc == Trying(sel)
    case Tried(sel, arm, fired) =>
      fired || (pc.Trying? && InVain(s, t, arm) && sel == pc.sel.(refused := pc.sel.refused + [arm]))
    case Asleep(sel) => pc == Poll(sel) && t !in s'.selectorsTimedOut
    case GaveUp(sel) => pc == Asleep(sel) && t in s.selectorsTimedOut
    case _ => true
  }

  lemma TrySelects(s: State, t: Tid, pick: Tid)
    requires Inv(s) && Enabled(s, t, Go(pick)) && PcOf(s, t).Trying?
    ensures SelectStep(s, GoOn(s, t, pick), t)
  {
    hide ChanInv, Covered, Mentions, JobBody, TryBody, ArmAt, ArmReady, ActivityLink;
    var pc := PcOf(s, t);
    var c := NextChan(pc.sel);
    assert PcOk(pc);
    NextArmIsAnArm(pc.sel);
    assert Link(pc, s.chans[c], c, t);
    TryAnswers(pc.sel, s.chans[c], pick);
  }

  lemma GoSelects(s: State, t: Tid, pick: Tid)
    requires Inv(s) && Enabled(s, t, Go(pick))
    ensures SelectStep(s, GoOn(s, t, pick), t)
  {
    hide ChanInv, Covered, Mentions, Link, JobBody, TryBody, ArmAt, ArmReady;
    var pc := PcOf(s, t);
    assert PcOk(pc) && ActivityLink(s, t);
    if pc.Trying? {
      TrySelects(s, t, pick);
    } else if pc.In? {
      JobStaysOut(s.chans[pc.c], t, pc.c, pc.job, pick);
    }
  }

  lemma JobStaysOut(x: Chan, t: Tid, c: Cid, job: Job, pick: Tid)
    ensures JobBody(x, t, c, job, pick).pc.Leaving? || JobBody(x, t, c, job, pick).pc.Parked?
  {
    hide Put, Take, CloseIt;
  }

  /** A wait interrupted or timed out leaves the thread where it is. */
  lemma OwnStep(s: State, t: Tid, a: Act)
    requires Inv(s) && Enabled(s, t, a)
    ensures var s' := Do(s, t, a);
            || SelectStep(s, s', t)
            || (PcOf(s', t) == PcOf(s, t)
                && (t in s'.selectorsTimedOut ==> t in s.selectorsTimedOut || (a.Timeout? && PcOf(s, t).sel.bounded)))
  {
    hide Inv, GoOn;
    if a.Go? { GoSelects(s, t, a.pick); }
  }

  lemma SelectorStays(run: seq<State>, i: nat, t: Tid)
    requires Run(run) && 0 < i < |run| && Seen(run, i - 1, t)
    requires PcOf(run[i], t) == PcOf(run[i - 1], t)
    requires PcOf(run[i], t).Asleep? && t in run[i].selectorsTimedOut ==>
               t in run[i - 1].selectorsTimedOut || PcOf(run[i], t).sel.bounded
    ensures Seen(run, i, t)
  {
    hide Inv, Round, RoundThenWait, Next;
    InTheRound(run, i, t);
    match PcOf(run[i], t)
    case Asleep(sel) =>
      var begun: nat, parked: nat :| RoundThenWait(run, begun, parked, i - 1, t, sel);
      WaitGoesOn(run, begun, parked, i, t, sel);
    case GaveUp(sel) =>
      var begun: nat, parked: nat :| RoundThenWait(run, begun, parked, i - 1, t, sel);
      WaitGoesOn(run, begun, parked, i, t, sel);
    case Poll(sel) =>
      var begun: nat :| Round(run, begun, i, t, sel);
      RoundExtends(run, begun, i, t, sel);
    case Trying(sel) =>
      var begun: nat :| Round(run, begun, i, t, sel);
      RoundExtends(run, begun, i, t, sel);
    case Tried(sel, _, fired) =>
      if !fired {
        var begun: nat :| Round(run, begun, i, t, sel);
        RoundExtends(run, begun, i, t, sel);
      }
    case _ =>
  }

  lemma InTheRound(run: seq<State>, i: nat, t: Tid)
    requires Run(run) && i < |run|
    ensures InRound(PcOf(run[i], t)) ==> InRoundOf(run[i], t, PcOf(run[i], t).sel)
  {
    hide ChanInv, Link, Mentions, Covered, PcOk;
    RunKeeps(run, i);
    assert ActivityLink(run[i], t);
  }

  lemma SelectorMoves(run: seq<State>, i: nat, t: Tid)
    requires Run(run) && 0 < i < |run| && Seen(run, i - 1, t) && SelectStep(run[i - 1], run[i], t)
    ensures Seen(run, i, t)
  {
    hide Inv, InVain, Next;
    InTheRound(run, i, t);
    match PcOf(run[i], t)
    case Poll(sel) =>
      if sel.refused == [] {
        assert Round(run, i, i + 1, t, sel);
      } else {
        var begun: nat :| Round(run, begun, i, t, sel);
        RoundExtends(run, begun, i, t, sel);
      }
    case Trying(sel) =>
      var begun: nat :| Round(run, begun, i, t, sel);
      RoundExtends(run, begun, i, t, sel);
    case Tried(sel, arm, fired) =>
      if !fired {
        var before := PcOf(run[i - 1], t).sel;
        var begun: nat :| Round(run, begun, i, t, before);
        RoundGrows(run, begun, i, t, before, arm);
      }
    case Asleep(sel) =>
      var begun: nat :| Round(run, begun, i, t, sel);
      assert Waited(run, i, i, t, sel);
      assert RoundThenWait(run, begun, i, i, t, sel);
    case GaveUp(sel) =>
      var begun: nat, parked: nat :| RoundThenWait(run, begun, parked, i - 1, t, sel);
      WaitGoesOn(run, begun, parked, i, t, sel);
    case _ =>
  }

  lemma {:induction false} SeenAlways(run: seq<State>, i: nat, t: Tid)
    requires Run(run) && i < |run|
    ensures Seen(run, i, t)
  {
    hide Inv, SelectStep, Enabled, Do, Round, RoundThenWait;
    if i > 0 {
      SeenAlways(run, i - 1, t);
      assert Next(run[i - 1], run[i]);
      RunKeeps(run, i - 1);
      var u: Tid, a: Act :| Enabled(run[i - 1], u, a) && run[i] == Do(run[i - 1], u, a);
      if u == t {
        OwnStep(run[i - 1], t, a);
        if SelectStep(run[i - 1], run[i], t) { SelectorMoves(run, i, t); } else { SelectorStays(run, i, t); }
      } else {
        OthersStay(run[i - 1], u, a, t);
        SelectorStays(run, i, t);
      }
    }
  }

  // -------------------------------------------------------------- the theorem

  /** Some state of the round tries the arm. */
  ghost predicate TriedIn(run: seq<State>, begun: nat, end: nat, t: Tid, arm: nat)
    requires end <= |run|
  {
    exists j | begun <= j < end :: Tries(run[j], t, arm)
  }

  /** One hold of activity, in which the k-th look of the round is in vain for every k, and no
      other look is made. */
  ghost predicate VainRound(run: seq<State>, begun: nat, end: nat, t: Tid, sel: Sel)
    requires end <= |run| && sel.arms != []
  {
    && (forall m | begun <= m < end :: InRoundOf(run[m], t, sel))
    && (forall k: nat | k < |sel.arms| :: VainIn(run, begun, end, t, ArmAt(sel.turn, k, |sel.arms|)))
    && (forall j, arm: nat | begun <= j < end && Tries(run[j], t, arm) :: LooksAt(sel.turn, |sel.arms|, arm))
    && (NoSkip(sel.turn, |sel.arms|) <==> forall arm: nat | arm < |sel.arms| :: TriedIn(run, begun, end, t, arm))
  }

  lemma FullRoundIsVain(run: seq<State>, begun: nat, end: nat, t: Tid, sel: Sel)
    requires Run(run) && Round(run, begun, end, t, sel) && SelOk(sel) && |sel.refused| == |sel.arms|
    ensures VainRound(run, begun, end, t, sel)
  {
    hide Inv, NoSkip, ArmAt;
    var n := |sel.arms|;
    forall k: nat | k < n
      ensures VainIn(run, begun, end, t, ArmAt(sel.turn, k, n))
    {
      var j :| begun <= j < end && InVain(run[j], t, sel.refused[k]);
    }
    forall j, arm: nat | begun <= j < end && Tries(run[j], t, arm)
      ensures LooksAt(sel.turn, n, arm)
    {
      RunKeeps(run, j);
      TryLooks(run[j], t, sel, arm);
    }
    CoversExactlyWithoutSkip(sel.turn, n);
    forall arm: nat | arm < n
      ensures LooksAt(sel.turn, n, arm) <==> TriedIn(run, begun, end, t, arm)
    {
      if LooksAt(sel.turn, n, arm) {
        var k: nat :| k < n && ArmAt(sel.turn, k, n) == arm;
        var j :| begun <= j < end && InVain(run[j], t, ArmAt(sel.turn, k, n));
        assert Tries(run[j], t, arm);
      }
    }
    assert forall arm: nat | arm < n :: LooksAt(sel.turn, n, arm) <==> TriedIn(run, begun, end, t, arm);
    assert NoSkip(sel.turn, n) <==> forall arm: nat | arm < n :: TriedIn(run, begun, end, t, arm);
  }

  lemma TryLooks(s: State, t: Tid, sel: Sel, arm: nat)
    requires Inv(s) && InRoundOf(s, t, sel) && Tries(s, t, arm)
    ensures LooksAt(sel.turn, |sel.arms|, arm)
  {
    hide ChanInv, Link, Mentions, Covered, ActivityLink, ArmAt;
    assert PcOk(PcOf(s, t));
    assert ArmAt(sel.turn, |PcOf(s, t).sel.refused|, |sel.arms|) == arm;
  }

  /** "Gave up" is answered only when a bound was set, and after one whole round in a single hold
      of activity: each look of the round found its arm, its channel locked, unable to proceed, and
      since the round the thread has only waited. The round looks at every arm exactly when its
      counter does not wrap harmfully inside it. */
  lemma GaveUpAfterARound(run: seq<State>, i: nat, t: Tid)
    requires Run(run) && i < |run| && PcOf(run[i], t).GaveUp?
    ensures var sel := PcOf(run[i], t).sel;
            && sel.arms != [] && sel.bounded
            && exists begun: nat, parked: nat | begun < parked < i ::
                 && VainRound(run, begun, parked, t, sel)
                 && PcOf(run[parked], t) == Asleep(sel) && Waited(run, parked, i, t, sel)
  {
    hide Inv, VainRound, Round;
    RunKeeps(run, i);
    SeenAlways(run, i, t);
    var sel := PcOf(run[i], t).sel;
    assert PcOk(PcOf(run[i], t)) by { Places(run[i], t); }
    var begun: nat, parked: nat :| RoundThenWait(run, begun, parked, i, t, sel);
    assert begun < parked by { assert Round(run, begun, parked, t, sel); RoundSpans(run, begun, parked, t, sel); }
    FullRoundIsVain(run, begun, parked, t, sel);
  }

  lemma Places(s: State, t: Tid)
    requires Inv(s)
    ensures PcOk(PcOf(s, t))
  {
  }

  lemma RoundSpans(run: seq<State>, begun: nat, end: nat, t: Tid, sel: Sel)
    requires Round(run, begun, end, t, sel)
    ensures begun < end
  {
  }
}
