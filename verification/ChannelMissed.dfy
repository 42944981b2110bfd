/** The wakeup that is missed when the turn counter wraps inside a round: a run of one thread, 2^32
    rounds long, in which a selector ends up asleep beside an arm that could proceed. */
module ChannelMissed {
  import opened ChannelProtocol
  import opened ChannelInvariant
  import opened SelectRotation
  import opened ChannelProgress

  // ------------------------------------------------------------------ paths

  ghost predicate Path(path: seq<State>, s: State, s': State) {
    && path != [] && path[0] == s && path[|path| - 1] == s'
    && forall i | 0 < i < |path| :: Next(path[i - 1], path[i])
  }

  ghost predicate Leads(s: State, s': State) { exists path: seq<State> :: Path(path, s, s') }

  lemma Here(s: State)
    ensures Leads(s, s)
  {
    assert Path([s], s, s);
  }

  lemma Onward(s: State, s1: State, t: Tid, a: Act)
    requires Leads(s, s1) && Enabled(s1, t, a)
    ensures Leads(s, Do(s1, t, a))
  {
    hide Enabled, Do;
    var path: seq<State> :| Path(path, s, s1);
    assert Next(s1, Do(s1, t, a));
    assert Path(path + [Do(s1, t, a)], s, Do(s1, t, a));
  }

  lemma Joined(s: State, s1: State, s2: State)
    requires Leads(s, s1) && Leads(s1, s2)
    ensures Leads(s, s2)
  {
    hide Next;
    var path: seq<State> :| Path(path, s, s1);
    var more: seq<State> :| Path(more, s1, s2);
    var all := path + more[1..];
    forall i | 0 < i < |all|
      ensures Next(all[i - 1], all[i])
    {
      if i >= |path| {
        assert all[i] == more[i - |path| + 1];
        assert all[i - 1] == more[i - |path|];
      }
    }
    assert Path(all, s, s2);
  }

  // ---------------------------------------------------------- the one thread

  const ARMS := [ReceiveArm(0), ReceiveArm(0), ReceiveArm(1)]
  const EMPTY := NewChan(1, 0)
  const FILLED := EMPTY.(queue := [5], sent := [5])
  const NOTHING_THERE := map[0 := EMPTY, 1 := EMPTY]
  const ONE_THERE := map[0 := EMPTY, 1 := FILLED]

  /** Thread 0 at a place, its counter, and the activity mutex in its hands or free. */
  function At0(chans: map<Cid, Chan>, pc: Pc, turn: nat, held: bool): State {
    State(chans, map[0 := pc], map[0 := turn], if held then Some(0) else None, {}, {}, {}, false)
  }

  /** Asleep after its round, the time up or not. */
  function Sleeping(chans: map<Cid, Chan>, sel: Sel, turn: nat, late: bool): State {
    State(chans, map[0 := Asleep(sel)], map[0 := turn], None, if late then {} else {0}, {}, if late then {0} else {}, false)
  }

  predicate TwoChannels(chans: map<Cid, Chan>) { chans == NOTHING_THERE || chans == ONE_THERE }

  lemma Differ()
    ensures NOTHING_THERE != ONE_THERE
  {
    assert NOTHING_THERE[1].queue == [] && ONE_THERE[1].queue == [5];
  }

  lemma ArmBelow(turn: nat, k: nat)
    ensures ArmAt(turn, k, 3) < 3
  {
  }

  lemma Locks(chans: map<Cid, Chan>, sel: Sel, turn: nat, c: Cid)
    requires sel.arms != [] && |sel.refused| < |sel.arms| && c == NextChan(sel) && c in chans && chans[c].holder == None
    ensures var s := At0(chans, Poll(sel), turn, true);
            && Enabled(s, 0, Go(0))
            && Do(s, 0, Go(0)) == At0(chans[c := chans[c].(holder := Some(0))], Trying(sel), turn, true)
  {
    hide ArmAt;
  }

  lemma Refuses(chans: map<Cid, Chan>, sel: Sel, turn: nat, c: Cid)
    requires sel.arms != [] && NextArm(sel) < |sel.arms| && sel.arms[NextArm(sel)] == ReceiveArm(c)
    requires c in chans && chans[c] == EMPTY.(holder := Some(0))
    ensures var s := At0(chans, Trying(sel), turn, true);
            var sel' := sel.(refused := sel.refused + [NextArm(sel)]);
            && Enabled(s, 0, Go(0)) && Do(s, 0, Go(0)) == At0(chans, Tried(sel', NextArm(sel), false), turn, true)
  {
    hide ArmAt;
    assert chans[c := chans[c]] == chans;
  }

  lemma Unlocks(chans: map<Cid, Chan>, sel: Sel, arm: nat, turn: nat, c: Cid)
    requires arm < |sel.arms| && sel.arms[arm].c == c && c in chans
    ensures var s := At0(chans, Tried(sel, arm, false), turn, true);
            Enabled(s, 0, Go(0)) && Do(s, 0, Go(0)) == At0(chans[c := chans[c].(holder := None)], Poll(sel), turn, true)
  {
  }

  /** One look of a round at an arm whose channel is empty. */
  lemma Looks(chans: map<Cid, Chan>, sel: Sel, turn: nat)
    requires TwoChannels(chans) && sel.arms == ARMS && |sel.refused| < 3 && (chans == ONE_THERE ==> NextArm(sel) != 2)
    ensures Leads(At0(chans, Poll(sel), turn, true),
                  At0(chans, Poll(sel.(refused := sel.refused + [NextArm(sel)])), turn, true))
  {
    hide ArmAt, Leads, At0, Enabled, Do, CanGo;
    ArmBelow(sel.turn, |sel.refused|);
    var arm := NextArm(sel);
    var c := NextChan(sel);
    assert ARMS[arm] == ReceiveArm(c) && c in chans && chans[c] == EMPTY;
    var locked := chans[c := EMPTY.(holder := Some(0))];
    var sel' := sel.(refused := sel.refused + [arm]);
    var s := At0(chans, Poll(sel), turn, true);
    Here(s);
    Locks(chans, sel, turn, c);
    Onward(s, s, 0, Go(0));
    Refuses(locked, sel, turn, c);
    Onward(s, At0(locked, Trying(sel), turn, true), 0, Go(0));
    Unlocks(locked, sel', arm, turn, c);
    assert locked[c := EMPTY] == chans;
    Onward(s, At0(locked, Tried(sel', arm, false), turn, true), 0, Go(0));
  }

  /** The three looks of a round, from the beginning. */
  function Round(turn: nat, bounded: bool): Sel {
    Sel(ARMS, bounded, turn, [ArmAt(turn, 0, 3), ArmAt(turn, 1, 3), ArmAt(turn, 2, 3)])
  }

  lemma LooksThrice(chans: map<Cid, Chan>, bounded: bool, turn: nat, next: nat)
    requires TwoChannels(chans)
    requires chans == ONE_THERE ==> ArmAt(turn, 0, 3) != 2 && ArmAt(turn, 1, 3) != 2 && ArmAt(turn, 2, 3) != 2
    ensures Leads(At0(chans, Poll(Sel(ARMS, bounded, turn, [])), next, true), At0(chans, Poll(Round(turn, bounded)), next, true))
  {
    hide ArmAt, Leads, At0, TwoChannels;
    var a, b, c := ArmAt(turn, 0, 3), ArmAt(turn, 1, 3), ArmAt(turn, 2, 3);
    var r0, r1, r2 := Sel(ARMS, bounded, turn, []), Sel(ARMS, bounded, turn, [a]), Sel(ARMS, bounded, turn, [a, b]);
    Looks(chans, r0, next);
    Looks(chans, r1, next);
    Looks(chans, r2, next);
    assert [] + [a] == [a] && [a] + [b] == [a, b] && [a, b] + [c] == [a, b, c];
    var s0 := At0(chans, Poll(r0), next, true);
    Joined(s0, At0(chans, Poll(r1), next, true), At0(chans, Poll(r2), next, true));
    Joined(s0, At0(chans, Poll(r2), next, true), At0(chans, Poll(Round(turn, bounded)), next, true));
  }

  /** In no operation, its counter at `turn`. */
  predicate AtRest(s: State, chans: map<Cid, Chan>, turn: nat) {
    && s.chans == chans && s.pcs.Keys <= {0} && PcOf(s, 0) == Idle && s.turns.Keys <= {0} && TurnOf(s, 0) == turn
    && s.activity == None && s.selectorsAsleep == {} && s.selectorsWoken == {} && s.selectorsTimedOut == {} && !s.halted
  }

  /** A select whose looks all find nothing ends in sleep. */
  lemma FallsAsleep(s: State, chans: map<Cid, Chan>, bounded: bool, turn: nat)
    requires TwoChannels(chans) && AtRest(s, chans, turn)
    requires chans == ONE_THERE ==> ArmAt(turn, 0, 3) != 2 && ArmAt(turn, 1, 3) != 2 && ArmAt(turn, 2, 3) != 2
    ensures Leads(s, Sleeping(chans, Round(turn, bounded), (turn + 1) % WORD, false))
  {
    hide ArmAt, Leads, AtRest, At0, Sleeping, Do, Enabled, TwoChannels;
    var next := (turn + 1) % WORD;
    var s1 := Asking3(s, bounded);
    var s2 := At0(chans, Poll(Sel(ARMS, bounded, turn, [])), next, true);
    var s3 := At0(chans, Poll(Round(turn, bounded)), next, true);
    Here(s);
    SelectBegins(s, chans, bounded, turn);
    Onward(s, s, 0, Select(ARMS, bounded));
    RoundBegins(s, chans, bounded, turn);
    Onward(s, s1, 0, Go(0));
    LooksThrice(chans, bounded, turn, next);
    Joined(s, s2, s3);
    Parks(chans, bounded, turn, next);
    Onward(s, s3, 0, Go(0));
  }

  function Asking3(s: State, bounded: bool): State { s.(pcs := map[0 := SelWant(ARMS, bounded)]) }

  lemma SelectBegins(s: State, chans: map<Cid, Chan>, bounded: bool, turn: nat)
    requires TwoChannels(chans) && AtRest(s, chans, turn)
    ensures Enabled(s, 0, Select(ARMS, bounded)) && Do(s, 0, Select(ARMS, bounded)) == Asking3(s, bounded)
  {
    Owned0(s, chans);
    assert s.pcs[0 := SelWant(ARMS, bounded)] == map[0 := SelWant(ARMS, bounded)];
  }

  lemma RoundBegins(s: State, chans: map<Cid, Chan>, bounded: bool, turn: nat)
    requires AtRest(s, chans, turn)
    ensures var s1, next := Asking3(s, bounded), (turn + 1) % WORD;
            Enabled(s1, 0, Go(0)) && Do(s1, 0, Go(0)) == At0(chans, Poll(Sel(ARMS, bounded, turn, [])), next, true)
  {
    var next := (turn + 1) % WORD;
    assert s.turns[0 := next] == map[0 := next];
  }

  lemma Owned0(s: State, chans: map<Cid, Chan>)
    requires TwoChannels(chans) && s.chans == chans
    ensures forall i | 0 <= i < |ARMS| :: HasOwner(s, ARMS[i].c, 0)
  {
  }

  lemma Parks(chans: map<Cid, Chan>, bounded: bool, turn: nat, next: nat)
    ensures var s := At0(chans, Poll(Round(turn, bounded)), next, true);
            Enabled(s, 0, Go(0)) && Do(s, 0, Go(0)) == Sleeping(chans, Round(turn, bounded), next, false)
  {
    hide ArmAt;
  }

  /** A round of a bounded select that finds nothing: nothing is changed but the counter. */
  lemma GivesUp(s: State, turn: nat)
    requires AtRest(s, NOTHING_THERE, turn) && turn < WORD
    ensures Leads(s, At0(NOTHING_THERE, Idle, (turn + 1) % WORD, false))
  {
    hide ArmAt, Leads, AtRest, Do, Enabled, Sleeping, At0;
    var next := (turn + 1) % WORD;
    var sel := Round(turn, true);
    Differ();
    FallsAsleep(s, NOTHING_THERE, true, turn);
    RunsOut(NOTHING_THERE, sel, next);
    Onward(s, Sleeping(NOTHING_THERE, sel, next, false), 0, Timeout);
    Onward(s, Sleeping(NOTHING_THERE, sel, next, true), 0, Go(0));
    Onward(s, At0(NOTHING_THERE, GaveUp(sel), next, true), 0, Go(0));
  }

  /** The time is up, the selector wakes, and answers that it gave up. */
  lemma RunsOut(chans: map<Cid, Chan>, sel: Sel, next: nat)
    requires sel.bounded
    ensures var s1, s2, s3 := Sleeping(chans, sel, next, false), Sleeping(chans, sel, next, true), At0(chans, GaveUp(sel), next, true);
            && Enabled(s1, 0, Timeout) && Do(s1, 0, Timeout) == s2
            && Enabled(s2, 0, Go(0)) && Do(s2, 0, Go(0)) == s3
            && Enabled(s3, 0, Go(0)) && Do(s3, 0, Go(0)) == At0(chans, Idle, next, false)
  {
    assert map[0 := Asleep(sel)][0 := GaveUp(sel)] == map[0 := GaveUp(sel)];
    assert map[0 := GaveUp(sel)][0 := Idle] == map[0 := Idle];
  }

  /** As many rounds as one likes. */
  lemma {:induction false} GivesUpOften(s: State, n: nat) returns (s': State)
    requires AtRest(s, NOTHING_THERE, 0) && n < WORD
    ensures Leads(s, s') && AtRest(s', NOTHING_THERE, n)
  {
    hide Leads;
    if n == 0 {
      s' := s;
      Here(s);
    } else {
      var s1 := GivesUpOften(s, n - 1);
      s' := At0(NOTHING_THERE, Idle, n, false);
      GivesUp(s1, n - 1);
      Joined(s, s1, s');
    }
  }

  // ---------------------------------------------------------- the whole run

  const NO_STATE := State(map[], map[], map[], None, {}, {}, {}, false)

  lemma TwoMade() returns (s: State)
    ensures Leads(NO_STATE, s) && AtRest(s, NOTHING_THERE, 0)
  {
    hide Leads;
    Here(NO_STATE);
    Onward(NO_STATE, NO_STATE, 0, Create(0, 1));
    var s1 := Do(NO_STATE, 0, Create(0, 1));
    Onward(NO_STATE, s1, 0, Create(1, 1));
    s := Do(s1, 0, Create(1, 1));
  }

  /** Thread 0 sends 5 into the second channel and announces it; nobody is asleep to hear. */
  lemma SendsOne(s: State, turn: nat) returns (s': State)
    requires AtRest(s, NOTHING_THERE, turn)
    ensures Leads(s, s') && AtRest(s', ONE_THERE, turn)
  {
    hide Leads, AtRest, Enabled, Do;
    var s1 := Asking(s);
    SendBegins(s, turn);
    Here(s);
    Onward(s, s, 0, Begin(1, Send(5)));
    SendLocks(s1);
    Onward(s, s1, 0, Go(0));
    SendPuts(s1);
    Onward(s, Sending(s1, LOCKED, In(1, Send(5), false)), 0, Go(0));
    SendLeaves(s1);
    Onward(s, Sending(s1, PUT, Leaving(1, Send(5), true)), 0, Go(0));
    var s4 := Sending(s1, ONE_THERE, SigWant(Done));
    s' := s4.(pcs := map[0 := Idle]);
    Announces(s4);
    Joined(s, s4, s');
    Sent(s, turn);
  }

  const LOCKED := map[0 := EMPTY, 1 := EMPTY.(holder := Some(0))]
  const PUT := map[0 := EMPTY, 1 := FILLED.(holder := Some(0))]

  function Sending(s: State, chans: map<Cid, Chan>, pc: Pc): State { s.(chans := chans, pcs := map[0 := pc]) }

  function Asking(s: State): State { s.(pcs := map[0 := Want(1, Send(5))]) }

  lemma SendBegins(s: State, turn: nat)
    requires AtRest(s, NOTHING_THERE, turn)
    ensures Enabled(s, 0, Begin(1, Send(5))) && Do(s, 0, Begin(1, Send(5))) == Asking(s)
    ensures Asking(s).chans == NOTHING_THERE && Asking(s).activity == None && Asking(s).selectorsAsleep == {} && !Asking(s).halted
  {
    assert s.pcs[0 := Want(1, Send(5))] == map[0 := Want(1, Send(5))];
  }

  lemma SendLocks(s: State)
    requires s == Sending(s, NOTHING_THERE, Want(1, Send(5))) && !s.halted
    ensures Enabled(s, 0, Go(0)) && Do(s, 0, Go(0)) == Sending(s, LOCKED, In(1, Send(5), false))
  {
    assert NOTHING_THERE[1 := LOCKED[1]] == LOCKED;
  }

  lemma SendPuts(s: State)
    requires !s.halted
    ensures var s2 := Sending(s, LOCKED, In(1, Send(5), false));
            Enabled(s2, 0, Go(0)) && Do(s2, 0, Go(0)) == Sending(s, PUT, Leaving(1, Send(5), true))
  {
    hide JobBody;
    PutOne();
    assert LOCKED[1 := PUT[1]] == PUT;
  }

  lemma SendLeaves(s: State)
    requires !s.halted
    ensures var s3 := Sending(s, PUT, Leaving(1, Send(5), true));
            Enabled(s3, 0, Go(0)) && Do(s3, 0, Go(0)) == Sending(s, ONE_THERE, SigWant(Done))
  {
    assert PUT[1 := FILLED] == ONE_THERE;
  }

  lemma Sent(s: State, turn: nat)
    requires AtRest(s, NOTHING_THERE, turn)
    ensures AtRest(Sending(Asking(s), ONE_THERE, Idle), ONE_THERE, turn)
  {
  }

  lemma PutOne()
    ensures var x := EMPTY.(holder := Some(0));
            JobBody(x, 0, 1, Send(5), 0) == Body(FILLED.(holder := Some(0)), Leaving(1, Send(5), true), false)
  {
    assert [] + [5] == [5];
  }

  lemma Announces(s: State)
    requires s.pcs == map[0 := SigWant(Done)] && s.activity == None && s.selectorsAsleep == {} && !s.halted
    ensures Leads(s, s.(pcs := map[0 := Idle]))
  {
    hide Leads;
    var s1 := s.(pcs := map[0 := SigIn(Done)], activity := Some(0));
    var s2 := s1.(pcs := map[0 := SigOut(Done)]);
    Here(s);
    assert Do(s, 0, Go(0)) == s1;
    Onward(s, s, 0, Go(0));
    assert Do(s1, 0, Go(0)) == s2;
    Onward(s, s1, 0, Go(0));
    assert Do(s2, 0, Go(0)) == s.(pcs := map[0 := Idle]);
    Onward(s, s2, 0, Go(0));
  }

  /** After 2^32 - 1 rounds that gave up, a value is sent, and then a select without a bound looks at
      arms 0, 0 and 1 and goes to sleep: arm 2 has the value, nobody owes a broadcast, and no thread
      of the program can ever go on by itself. */
  lemma WakeupMissed() returns (run: seq<State>)
    ensures Run(run)
    ensures var s := run[|run| - 1];
            && PcOf(s, 0).Asleep? && 0 in s.selectorsAsleep && !PcOf(s, 0).sel.bounded
            && |PcOf(s, 0).sel.arms| == 3 && Ready(s, PcOf(s, 0).sel.arms[2])
            && !SomeoneOwes(s) && !s.halted
            && forall u: Tid, pick: Tid :: !Enabled(s, u, Go(pick))
  {
    hide AtRest, Next;
    var s0 := TwoMade();
    var s1 := GivesUpOften(s0, WORD - 1);
    Joined(NO_STATE, s0, s1);
    var s2 := SendsOne(s1, WORD - 1);
    Joined(NO_STATE, s1, s2);
    LastTurnSkips();
    FallsAsleep(s2, ONE_THERE, false, WORD - 1);
    var s3 := Sleeping(ONE_THERE, Round(WORD - 1, false), WORD % WORD, false);
    Joined(NO_STATE, s2, s3);
    run :| Path(run, NO_STATE, s3);
    Stranded(s3);
  }

  lemma Stranded(s: State)
    requires s == Sleeping(ONE_THERE, Round(WORD - 1, false), 0, false)
    ensures Ready(s, ARMS[2]) && !SomeoneOwes(s) && forall u: Tid, pick: Tid :: !Enabled(s, u, Go(pick))
  {
    hide ArmAt;
    forall u: Tid
      ensures PcOf(s, u) == if u == 0 then Asleep(Round(WORD - 1, false)) else Idle
    {
    }
    forall u: Tid
      ensures Rests(s, u)
    {
    }
    forall u: Tid, pick: Tid
      ensures !Enabled(s, u, Go(pick))
    {
      RestingStays(s, u, pick);
    }
  }
}
