/** What the arm that a select answers says of the run (runtime/pasrt_task.c): told from the call to
    the return, by what happened to the channels in between. */
module SelectAnswers {
  import opened ChannelProtocol
  import opened ChannelInvariant
  import opened ChannelTheorems
  import opened SelectRounds

  /** The thread is inside a select over these arms. */
  predicate Selecting(pc: Pc, arms: seq<Arm>, bounded: bool) {
    match pc
    case SelWant(a, b) => a == arms && b == bounded
    case Poll(sel) => sel.arms == arms && sel.bounded == bounded
    case Trying(sel) => sel.arms == arms && sel.bounded == bounded
    case Tried(sel, _, _) => sel.arms == arms && sel.bounded == bounded
    case Asleep(sel) => sel.arms == arms && sel.bounded == bounded
    case GaveUp(sel) => sel.arms == arms && sel.bounded == bounded
    case Fired(_) => true
    case FiredOut(_) => true
    case _ => false
  }

  /** Nothing has been sent, received or closed. */
  predicate NoTraffic(s: State, s': State) {
    forall c | c in s.chans ::
      && c in s'.chans
      && s'.chans[c].sent == s.chans[c].sent && s'.chans[c].received == s.chans[c].received
      && s'.chans[c].queue == s.chans[c].queue && s'.chans[c].closed == s.chans[c].closed
  }

  /** What an arm does when it proceeds: one value received, or a closed and drained channel found, or
      its value sent. */
  predicate Proceeds(x: Chan, y: Chan, arm: Arm) {
    match arm
    case ReceiveArm(_) =>
      if x.queue != [] then
        y.queue == x.queue[1..] && y.received == x.received + [x.queue[0]] && y.sent == x.sent && y.closed == x.closed
      else x.closed && y == x
    case SendArm(_, v) =>
      && !x.closed && |x.queue| < x.cap
      && y.queue == x.queue + [v] && y.sent == x.sent + [v] && y.received == x.received && !y.closed
  }

  /** One step of the thread does just that for the arm, on its channel, which it holds locked. */
  predicate Acts(s: State, s': State, t: Tid, arms: seq<Arm>, arm: nat) {
    && Tries(s, t, arm) && PcOf(s, t).sel.arms == arms
    && var c := arms[arm].c;
    && ArmReady(s.chans[c], arms[arm]) && c in s'.chans && Proceeds(s.chans[c], s'.chans[c], arms[arm])
    && forall d | d in s.chans && d != c :: d in s'.chans && s'.chans[d] == s.chans[d]
  }

  // -------------------------------------------------------------- one step

  predicate SameRound(pc: Pc, pc': Pc) {
    && InRound(pc) && InRound(pc')
    && pc'.sel.arms == pc.sel.arms && pc'.sel.turn == pc.sel.turn && pc'.sel.bounded == pc.sel.bounded
    && pc.sel.refused <= pc'.sel.refused
  }

  predicate Answering(pc: Pc) { pc.Fired? || pc.FiredOut? || (pc.Tried? && pc.fired) }

  function AnswerOf(pc: Pc): nat
    requires Answering(pc)
  {
    pc.arm
  }

  /** What a select's own step may be. */
  predicate Moves(s: State, s': State, t: Tid, arms: seq<Arm>, bounded: bool) {
    var pc, pc' := PcOf(s, t), PcOf(s', t);
    && (Selecting(pc', arms, bounded) || (pc' == Idle && (pc.FiredOut? || pc.GaveUp?)))
    && (if Answering(pc') && !Answering(pc) then s'.halted || Acts(s, s', t, arms, AnswerOf(pc')) else NoTraffic(s, s'))
    && (Answering(pc) ==> if Answering(pc') then AnswerOf(pc') == AnswerOf(pc) else pc.FiredOut? && pc' == Idle)
    && (InRound(pc') && !Answering(pc') ==> !Answering(pc) && (SameRound(pc, pc') || (pc'.Poll? && pc'.sel.refused == [])))
  }

  lemma TryMoves(s: State, t: Tid, arms: seq<Arm>, bounded: bool, pick: Tid)
    requires Inv(s) && Enabled(s, t, Go(pick)) && PcOf(s, t).Trying? && Selecting(PcOf(s, t), arms, bounded)
    ensures Moves(s, GoOn(s, t, pick), t, arms, bounded)
  {
    hide ChanInv, Covered, Mentions, TryBody, ArmAt, ActivityLink, Acts, ArmReady, Proceeds;
    var sel := PcOf(s, t).sel;
    var c := NextChan(sel);
    assert PcOk(PcOf(s, t));
    NextArmIsAnArm(sel);
    assert Link(PcOf(s, t), s.chans[c], c, t);
    var b := TryBody(s.chans[c], sel, pick);
    TryDoes(s.chans[c], sel, pick);
    var s' := GoOn(s, t, pick);
    if b.pc == Tried(sel, NextArm(sel), true) {
      assert s'.halted || Acts(s, s', t, arms, NextArm(sel)) by { ActsIs(s, s', t, arms, NextArm(sel)); }
    }
  }

  lemma ActsIs(s: State, s': State, t: Tid, arms: seq<Arm>, arm: nat)
    requires Tries(s, t, arm) && PcOf(s, t).sel.arms == arms
    requires var c := arms[arm].c;
             && c in s'.chans && s'.chans == s.chans[c := s'.chans[c]]
             && (s'.halted || (ArmReady(s.chans[c], arms[arm]) && Proceeds(s.chans[c], s'.chans[c], arms[arm])))
    ensures s'.halted || Acts(s, s', t, arms, arm)
  {
  }

  lemma TryDoes(x: Chan, sel: Sel, pick: Tid)
    requires sel.arms != [] && NextArm(sel) < |sel.arms|
    ensures var b, i := TryBody(x, sel, pick), NextArm(sel);
            || (b.pc == Tried(sel, i, true) && (b.trap || (ArmReady(x, sel.arms[i]) && Proceeds(x, b.x, sel.arms[i]))))
            || (b.pc == Tried(sel.(refused := sel.refused + [i]), i, false) && b.x == x)
  {
    hide ArmAt;
  }

  /** Locking and unlocking is no traffic. */
  lemma HolderOnly(s: State, s': State, c: Cid, h: Option<Tid>)
    requires c in s.chans && s'.chans == s.chans[c := s.chans[c].(holder := h)]
    ensures NoTraffic(s, s')
  {
  }

  lemma PollMoves(s: State, t: Tid, arms: seq<Arm>, bounded: bool, pick: Tid)
    requires Enabled(s, t, Go(pick)) && PcOf(s, t).Poll? && Selecting(PcOf(s, t), arms, bounded)
    ensures Moves(s, GoOn(s, t, pick), t, arms, bounded)
  {
    hide ArmAt, NoTraffic;
    var sel := PcOf(s, t).sel;
    if |sel.refused| < |sel.arms| {
      HolderOnly(s, GoOn(s, t, pick), NextChan(sel), Some(t));
    } else {
      Untouched(s, GoOn(s, t, pick));
    }
  }

  lemma Untouched(s: State, s': State)
    requires s'.chans == s.chans
    ensures NoTraffic(s, s')
  {
  }

  lemma TriedMoves(s: State, t: Tid, arms: seq<Arm>, bounded: bool, pick: Tid)
    requires Enabled(s, t, Go(pick)) && PcOf(s, t).Tried? && Selecting(PcOf(s, t), arms, bounded)
    ensures Moves(s, GoOn(s, t, pick), t, arms, bounded)
  {
    hide ArmAt, NoTraffic;
    var pc := PcOf(s, t);
    HolderOnly(s, GoOn(s, t, pick), pc.sel.arms[pc.arm].c, None);
  }

  lemma RestMoves(s: State, t: Tid, arms: seq<Arm>, bounded: bool, pick: Tid)
    requires Enabled(s, t, Go(pick)) && Selecting(PcOf(s, t), arms, bounded)
    requires var pc := PcOf(s, t); !pc.Poll? && !pc.Trying? && !pc.Tried?
    ensures Moves(s, GoOn(s, t, pick), t, arms, bounded)
  {
    hide NoTraffic;
    Untouched(s, GoOn(s, t, pick));
  }

  lemma GoMoves(s: State, t: Tid, arms: seq<Arm>, bounded: bool, pick: Tid)
    requires Inv(s) && Enabled(s, t, Go(pick)) && Selecting(PcOf(s, t), arms, bounded)
    ensures Moves(s, GoOn(s, t, pick), t, arms, bounded)
  {
    hide Inv, GoOn, CanGo, Moves, Selecting;
    if PcOf(s, t).Trying? {
      TryMoves(s, t, arms, bounded, pick);
    } else if PcOf(s, t).Poll? {
      PollMoves(s, t, arms, bounded, pick);
    } else if PcOf(s, t).Tried? {
      TriedMoves(s, t, arms, bounded, pick);
    } else {
      RestMoves(s, t, arms, bounded, pick);
    }
  }

  /** A select moves only by its next step. */
  lemma OnlyGoMoves(s: State, t: Tid, arms: seq<Arm>, bounded: bool, a: Act)
    requires Inv(s) && Enabled(s, t, a) && Selecting(PcOf(s, t), arms, bounded)
    ensures PcOf(Do(s, t, a), t) == PcOf(s, t) || Moves(s, Do(s, t, a), t, arms, bounded)
  {
    hide Inv, GoOn, CanGo, Moves;
    if a.Go? { GoMoves(s, t, arms, bounded, a.pick); }
  }

  // ------------------------------------------------------------ from the call

  ghost predicate CallsSelect(run: seq<State>, b: nat, t: Tid, arms: seq<Arm>, bounded: bool) {
    b + 1 < |run| && Enabled(run[b], t, Select(arms, bounded)) && run[b + 1] == Do(run[b], t, Select(arms, bounded))
  }

  /** The thread moves from m to m + 1. */
  predicate Moved(run: seq<State>, m: nat, t: Tid)
    requires m + 1 < |run|
  {
    PcOf(run[m + 1], t) != PcOf(run[m], t)
  }

  /** The thread's step at m, if it makes one, does nothing to a channel. */
  predicate Silent(run: seq<State>, m: nat, t: Tid)
    requires m + 1 < |run|
  {
    Moved(run, m, t) ==> NoTraffic(run[m], run[m + 1])
  }

  /** Of the thread's own steps between b and i only the one at j, if any, has sent, received or
      closed anything. */
  ghost predicate OnlyAt(run: seq<State>, b: nat, i: nat, t: Tid, j: int) {
    i < |run| && forall m: nat | b < m < i && m != j :: Silent(run, m, t)
  }

  /** From `begun` up to j one round. */
  ghost predicate InOneRound(run: seq<State>, begun: nat, j: nat, t: Tid) {
    j < |run| && InRound(PcOf(run[j], t)) && forall m | begun <= m <= j :: InRoundOf(run[m], t, PcOf(run[j], t).sel)
  }

  /** In the state j, in a round that began after the call, the thread held the arm's channel and the
      arm could proceed; its step from there did just that; and no other step of the call did
      anything to a channel. */
  ghost predicate Answered(run: seq<State>, b: nat, begun: nat, j: nat, i: nat, t: Tid, arms: seq<Arm>, arm: nat) {
    && b < begun <= j < i < |run|
    && InOneRound(run, begun, j, t) && Acts(run[j], run[j + 1], t, arms, arm) && OnlyAt(run, b, i, t, j)
  }

  ghost predicate AnsweredBy(run: seq<State>, b: nat, i: nat, t: Tid, arms: seq<Arm>, arm: nat) {
    exists begun: nat, j: nat :: Answered(run, b, begun, j, i, t, arms, arm)
  }

  ghost predicate RoundSince(run: seq<State>, b: nat, i: nat, t: Tid) {
    exists begun: nat :: b < begun <= i && InOneRound(run, begun, i, t)
  }

  ghost predicate Trail(run: seq<State>, b: nat, i: nat, t: Tid, arms: seq<Arm>, bounded: bool)
    requires b < i < |run|
  {
    var pc := PcOf(run[i], t);
    && Selecting(pc, arms, bounded)
    && (if Answering(pc) then run[i].halted || AnsweredBy(run, b, i, t, arms, AnswerOf(pc)) else OnlyAt(run, b, i, t, -1))
    && (InRound(pc) && !Answering(pc) ==> RoundSince(run, b, i, t))
  }

  lemma OnlyAtGrows(run: seq<State>, b: nat, i: nat, t: Tid, j: int)
    requires 0 < i < |run| && OnlyAt(run, b, i - 1, t, j)
    requires b < i - 1 && i - 1 != j ==> Silent(run, i - 1, t)
    ensures OnlyAt(run, b, i, t, j)
  {
    hide Silent;
  }

  lemma RoundGoesOn(run: seq<State>, b: nat, i: nat, t: Tid)
    requires Run(run) && 0 < i < |run| && RoundSince(run, b, i - 1, t) && InRound(PcOf(run[i], t))
    requires SameRound(PcOf(run[i - 1], t), PcOf(run[i], t))
    ensures RoundSince(run, b, i, t)
  {
    hide Run;
    InTheRound(run, i, t);
    var begun: nat :| b < begun <= i - 1 && InOneRound(run, begun, i - 1, t);
    forall m | begun <= m <= i
      ensures InRoundOf(run[m], t, PcOf(run[i], t).sel)
    {
      if m < i { assert InRoundOf(run[m], t, PcOf(run[i - 1], t).sel); }
    }
    assert InOneRound(run, begun, i, t);
  }

  lemma AnsweredStays(run: seq<State>, b: nat, i: nat, t: Tid, arms: seq<Arm>, arm: nat)
    requires 0 < i < |run| && AnsweredBy(run, b, i - 1, t, arms, arm)
    requires Silent(run, i - 1, t)
    ensures AnsweredBy(run, b, i, t, arms, arm)
  {
    hide Silent, InOneRound, Acts, OnlyAt;
    var begun: nat, j: nat :| Answered(run, b, begun, j, i - 1, t, arms, arm);
    OnlyAtGrows(run, b, i, t, j);
    assert Answered(run, b, begun, j, i, t, arms, arm);
  }

  /** Another thread's step, or one of its own that leaves it where it is. */
  lemma TrailStays(run: seq<State>, b: nat, i: nat, t: Tid, arms: seq<Arm>, bounded: bool)
    requires Run(run) && b < i - 1 < i < |run| && Trail(run, b, i - 1, t, arms, bounded)
    requires PcOf(run[i], t) == PcOf(run[i - 1], t) && !run[i - 1].halted
    ensures Trail(run, b, i, t, arms, bounded)
  {
    hide NoTraffic, Run, AnsweredBy, OnlyAt, RoundSince;
    var pc := PcOf(run[i], t);
    if Answering(pc) {
      AnsweredStays(run, b, i, t, arms, AnswerOf(pc));
    } else {
      OnlyAtGrows(run, b, i, t, -1);
    }
    if InRound(pc) && !Answering(pc) { RoundGoesOn(run, b, i, t); }
  }

  lemma TrailMoves(run: seq<State>, b: nat, i: nat, t: Tid, arms: seq<Arm>, bounded: bool)
    requires Run(run) && b < i - 1 < i < |run| && Trail(run, b, i - 1, t, arms, bounded)
    requires Moves(run[i - 1], run[i], t, arms, bounded) && PcOf(run[i], t) != Idle && !run[i - 1].halted
    ensures Trail(run, b, i, t, arms, bounded)
  {
    hide NoTraffic, Run, OnlyAt, Acts, AnsweredBy;
    var pc, pc' := PcOf(run[i - 1], t), PcOf(run[i], t);
    if Answering(pc') {
      if Answering(pc) {
        AnsweredStays(run, b, i, t, arms, AnswerOf(pc));
      } else if !run[i].halted {
        ActsInRound(run, b, i, t, arms, bounded);
      }
    } else {
      OnlyAtGrows(run, b, i, t, -1);
      if InRound(pc') {
        if SameRound(pc, pc') {
          RoundGoesOn(run, b, i, t);
        } else {
          InTheRound(run, i, t);
          assert InOneRound(run, i, i, t);
        }
      }
    }
  }

  lemma ActsInRound(run: seq<State>, b: nat, i: nat, t: Tid, arms: seq<Arm>, bounded: bool)
    requires b < i - 1 < i < |run| && Trail(run, b, i - 1, t, arms, bounded) && !Answering(PcOf(run[i - 1], t))
    requires Answering(PcOf(run[i], t)) && Acts(run[i - 1], run[i], t, arms, AnswerOf(PcOf(run[i], t)))
    ensures AnsweredBy(run, b, i, t, arms, AnswerOf(PcOf(run[i], t)))
  {
    hide NoTraffic, Moved, InOneRound, ArmReady, Proceeds;
    var begun: nat :| b < begun <= i - 1 && InOneRound(run, begun, i - 1, t);
    assert OnlyAt(run, b, i, t, i - 1);
    assert Answered(run, b, begun, i - 1, i, t, arms, AnswerOf(PcOf(run[i], t)));
  }

  /** As long as the select has not returned. */
  lemma {:induction false} TrailAlways(run: seq<State>, b: nat, i: nat, t: Tid, arms: seq<Arm>, bounded: bool)
    requires Run(run) && CallsSelect(run, b, t, arms, bounded) && b < i < |run|
    requires forall m | b < m <= i :: PcOf(run[m], t) != Idle
    ensures Trail(run, b, i, t, arms, bounded)
  {
    hide Inv, Moves, Enabled, Do, Trail;
    if i == b + 1 {
      CallTrail(run, b, t, arms, bounded);
    } else {
      TrailAlways(run, b, i - 1, t, arms, bounded);
      assert Next(run[i - 1], run[i]);
      RunKeeps(run, i - 1);
      var u: Tid, a: Act :| Enabled(run[i - 1], u, a) && run[i] == Do(run[i - 1], u, a);
      GoesOn(run[i - 1], u, a);
      assert Selecting(PcOf(run[i - 1], t), arms, bounded) by { TrailSelects(run, b, i - 1, t, arms, bounded); }
      if u != t {
        OthersStay(run[i - 1], u, a, t);
        TrailStays(run, b, i, t, arms, bounded);
      } else {
        OnlyGoMoves(run[i - 1], t, arms, bounded, a);
        if Moves(run[i - 1], run[i], t, arms, bounded) {
          TrailMoves(run, b, i, t, arms, bounded);
        } else {
          TrailStays(run, b, i, t, arms, bounded);
        }
      }
    }
  }

  lemma GoesOn(s: State, u: Tid, a: Act)
    requires Enabled(s, u, a)
    ensures !s.halted
  {
  }

  lemma TrailSelects(run: seq<State>, b: nat, i: nat, t: Tid, arms: seq<Arm>, bounded: bool)
    requires b < i < |run| && Trail(run, b, i, t, arms, bounded)
    ensures Selecting(PcOf(run[i], t), arms, bounded)
  {
  }

  lemma CallTrail(run: seq<State>, b: nat, t: Tid, arms: seq<Arm>, bounded: bool)
    requires CallsSelect(run, b, t, arms, bounded)
    ensures Trail(run, b, b + 1, t, arms, bounded)
  {
  }

  /** A select that returns has answered an arm of the call's, or that it gave up. It gives up only
      with a bound, having done nothing to any channel. If it answers an arm, then in some state of one
      of its rounds it held that arm's channel locked and the arm could proceed, and its step from
      there received one value from that channel, or found it closed and drained, or sent the arm's
      value to it; and no other step of the call has sent, received or closed anything. */
  lemma SelectAnswers(run: seq<State>, b: nat, i: nat, t: Tid, arms: seq<Arm>, bounded: bool)
    requires Run(run) && CallsSelect(run, b, t, arms, bounded) && b < i < |run|
    requires PcOf(run[i], t) == Idle && forall m | b < m < i :: PcOf(run[m], t) != Idle
    ensures var pc := PcOf(run[i - 1], t);
            || (pc.GaveUp? && bounded && OnlyAt(run, b, i, t, -1))
            || (pc.FiredOut? && AnsweredBy(run, b, i, t, arms, pc.arm))
  {
    hide Inv, Moves, Enabled, Do, Trail, OnlyAt, AnsweredBy, Round, Waited;
    CallTrail(run, b, t, arms, bounded);
    TrailSelects(run, b, b + 1, t, arms, bounded);
    TrailAlways(run, b, i - 1, t, arms, bounded);
    assert Next(run[i - 1], run[i]);
    RunKeeps(run, i - 1);
    var u: Tid, a: Act :| Enabled(run[i - 1], u, a) && run[i] == Do(run[i - 1], u, a);
    if u != t { OthersStay(run[i - 1], u, a, t); }
    TrailSelects(run, b, i - 1, t, arms, bounded);
    GoesOn(run[i - 1], u, a);
    OnlyGoMoves(run[i - 1], t, arms, bounded, a);
    SeenAlways(run, i - 1, t);
    Returns(run, b, i, t, arms, bounded);
  }

  lemma Returns(run: seq<State>, b: nat, i: nat, t: Tid, arms: seq<Arm>, bounded: bool)
    requires b < i - 1 < i < |run| && Trail(run, b, i - 1, t, arms, bounded) && !run[i - 1].halted
    requires Moves(run[i - 1], run[i], t, arms, bounded) && PcOf(run[i], t) == Idle
    ensures var pc := PcOf(run[i - 1], t);
            || (pc.GaveUp? && pc.sel.bounded == bounded && OnlyAt(run, b, i, t, -1))
            || (pc.FiredOut? && AnsweredBy(run, b, i, t, arms, pc.arm))
  {
    hide NoTraffic, OnlyAt, AnsweredBy, RoundSince;
    var pc := PcOf(run[i - 1], t);
    if pc.FiredOut? { AnsweredStays(run, b, i, t, arms, pc.arm); } else { OnlyAtGrows(run, b, i, t, -1); }
  }

  /** A bounded wait that runs out of time ends the select: the thread's next move is to give up, and
      the one after that to return. One that is woken in time begins another round over all its arms. */
  lemma WaitEnds(run: seq<State>, i: nat, t: Tid)
    requires Run(run) && i + 1 < |run| && PcOf(run[i + 1], t) != PcOf(run[i], t)
    ensures var pc, pc' := PcOf(run[i], t), PcOf(run[i + 1], t);
            && (pc.Asleep? && t in run[i].selectorsTimedOut ==> pc' == GaveUp(pc.sel))
            && (pc.Asleep? && t !in run[i].selectorsTimedOut ==>
                  t in run[i].selectorsWoken && pc'.Poll? && pc'.sel.arms == pc.sel.arms && pc'.sel.bounded == pc.sel.bounded
                  && pc'.sel.refused == [] && pc'.sel.turn == TurnOf(run[i], t)
                  && TurnOf(run[i + 1], t) == (TurnOf(run[i], t) + 1) % WORD)
            && (pc.GaveUp? ==> pc' == Idle)
  {
    hide Inv;
    RunKeeps(run, i);
    assert Next(run[i], run[i + 1]);
    var u: Tid, a: Act :| Enabled(run[i], u, a) && run[i + 1] == Do(run[i], u, a);
    if u == t { WaitStep(run[i], t, a); } else { OthersStay(run[i], u, a, t); }
  }

  lemma WaitStep(s: State, t: Tid, a: Act)
    requires Enabled(s, t, a) && PcOf(Do(s, t, a), t) != PcOf(s, t)
    ensures var s' := Do(s, t, a);
            var pc, pc' := PcOf(s, t), PcOf(s', t);
            && (pc.Asleep? && t in s.selectorsTimedOut ==> pc' == GaveUp(pc.sel))
            && (pc.Asleep? && t !in s.selectorsTimedOut ==>
                  t in s.selectorsWoken && pc'.Poll? && pc'.sel.arms == pc.sel.arms && pc'.sel.bounded == pc.sel.bounded
                  && pc'.sel.refused == [] && pc'.sel.turn == TurnOf(s, t) && TurnOf(s', t) == (TurnOf(s, t) + 1) % WORD)
            && (pc.GaveUp? ==> pc' == Idle)
  {
    hide JobBody, TryBody, ArmAt;
  }
}
