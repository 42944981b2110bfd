/** Who can go on in the channel protocol: nobody only when everybody rests. And the one way left in
    which a selector rests although it need not. */
module ChannelProgress {
  import opened ChannelProtocol
  import opened ChannelInvariant
  import opened SelectRotation
  import opened ChannelTheorems

  // ------------------------------------------------------------- no deadlock

  /** The thread is in no operation, or waits on a condition and has not been woken. */
  predicate Rests(s: State, t: Tid) {
    match PcOf(s, t)
    case Idle => true
    case Parked(c, job) => c in s.chans && t !in (if job.Receive? then s.chans[c].readersWoken else s.chans[c].writersWoken)
    case Asleep(_) => t !in s.selectorsWoken + s.selectorsTimedOut
    case _ => false
  }

  ghost predicate SomeoneGoes(s: State) {
    exists u: Tid, pick: Tid :: CanGo(s, u, pick)
  }

  /** A signal always finds its sleeper. */
  lemma Picked(x: Chan) returns (reader: Tid, writer: Tid)
    ensures PicksReader(x, reader) && PicksWriter(x, writer)
  {
    reader, writer := 0, 0;
    if x.readersAsleep != {} { reader :| reader in x.readersAsleep; }
    if x.writersAsleep != {} { writer :| writer in x.writersAsleep; }
  }

  /** Whoever holds a channel's mutex goes on. */
  lemma HolderGoes(s: State, c: Cid, w: Tid)
    requires Inv(s) && c in s.chans && s.chans[c].holder == Some(w)
    ensures SomeoneGoes(s)
  {
    hide ChanInv, Covered, ActivityLink, ArmAt, PicksReader, PicksWriter;
    var pc := PcOf(s, w);
    assert Link(pc, s.chans[c], c, w) && PcOk(pc);
    var reader, writer := Picked(s.chans[c]);
    match pc
    case In(_, job, _) => assert CanGo(s, w, if job.Send? then reader else writer);
    case Leaving(_, _, _) => assert CanGo(s, w, 0);
    case Trying(sel) =>
      NextArmIsAnArm(sel);
      assert CanGo(s, w, if sel.arms[NextArm(sel)].SendArm? then reader else writer);
    case Tried(_, _, _) => assert CanGo(s, w, 0);
  }

  /** Whoever is about to lock a channel goes on, or its holder does. */
  lemma LockerGoes(s: State, c: Cid, t: Tid)
    requires Inv(s) && c in s.chans && (s.chans[c].holder == None ==> CanGo(s, t, 0))
    ensures SomeoneGoes(s)
  {
    hide Inv, CanGo;
    if s.chans[c].holder.Some? { HolderGoes(s, c, s.chans[c].holder.value); }
  }

  /** Whoever holds activity goes on, or the holder of the channel it is about to lock does. */
  lemma ActivityHolderGoes(s: State, v: Tid)
    requires Inv(s) && s.activity == Some(v)
    ensures SomeoneGoes(s)
  {
    hide ChanInv, Covered, Link, ArmAt, SomeoneGoes;
    var pc := PcOf(s, v);
    assert ActivityLink(s, v) && PcOk(pc);
    if pc.Poll? && |pc.sel.refused| < |pc.sel.arms| {
      NextArmIsAnArm(pc.sel);
      assert Mentions(pc, NextChan(pc.sel));
      LockerGoes(s, NextChan(pc.sel), v);
    } else if pc.Trying? {
      NextArmIsAnArm(pc.sel);
      assert Mentions(pc, NextChan(pc.sel));
      HoldsIt(s, NextChan(pc.sel), v);
      HolderGoes(s, NextChan(pc.sel), v);
    } else if pc.Tried? {
      assert Mentions(pc, pc.sel.arms[pc.arm].c);
      HoldsIt(s, pc.sel.arms[pc.arm].c, v);
      HolderGoes(s, pc.sel.arms[pc.arm].c, v);
    } else {
      Goes(s, v, 0);
    }
  }

  lemma Goes(s: State, t: Tid, pick: Tid)
    requires CanGo(s, t, pick)
    ensures SomeoneGoes(s)
  {
  }

  lemma HoldsIt(s: State, c: Cid, t: Tid)
    requires Inv(s) && c in s.chans && HoldsChan(PcOf(s, t)) == Some(c)
    ensures s.chans[c].holder == Some(t)
  {
    hide ChanInv, Covered, ActivityLink, Mentions, PcOk;
    assert Link(PcOf(s, t), s.chans[c], c, t);
  }

  lemma ActivityWantedGoes(s: State, t: Tid)
    requires Inv(s) && (s.activity == None ==> CanGo(s, t, 0))
    ensures SomeoneGoes(s)
  {
    hide Inv, CanGo;
    if s.activity.Some? { ActivityHolderGoes(s, s.activity.value); }
  }

  lemma NotResting(s: State, t: Tid)
    requires Inv(s) && !Rests(s, t)
    ensures SomeoneGoes(s)
  {
    hide ChanInv, Covered, Link, ActivityLink, ArmAt, SomeoneGoes;
    var pc := PcOf(s, t);
    assert PcOk(pc);
    match pc
    case Want(c, _) => assert Mentions(pc, c); LockerGoes(s, c, t);
    case In(c, _, _) => assert Mentions(pc, c); HoldsIt(s, c, t); HolderGoes(s, c, t);
    case Parked(c, _) => assert Mentions(pc, c); LockerGoes(s, c, t);
    case Leaving(c, _, _) => assert Mentions(pc, c); HoldsIt(s, c, t); HolderGoes(s, c, t);
    case Freeing(c) => assert Mentions(pc, c); Goes(s, t, 0);
    case SigWant(_) => ActivityWantedGoes(s, t);
    case SelWant(_, _) => ActivityWantedGoes(s, t);
    case Asleep(_) => ActivityWantedGoes(s, t);
    case _ => HasActivity(s, t); ActivityHolderGoes(s, t);
  }

  lemma HasActivity(s: State, t: Tid)
    requires Inv(s) && HoldsActivity(PcOf(s, t))
    ensures s.activity == Some(t)
  {
    hide ChanInv, Covered, Link, Mentions, PcOk;
    assert ActivityLink(s, t);
  }

  lemma RestingStays(s: State, t: Tid, pick: Tid)
    requires Rests(s, t)
    ensures !CanGo(s, t, pick)
  {
  }

  /** Some thread can take its next step, without a wait's returning for no reason or by its time,
      if and only if the program has not been stopped and some thread does not rest. No state in
      which threads wait only for one another's mutexes is ever reached. */
  lemma NoDeadlock(run: seq<State>, i: nat)
    requires Run(run) && i < |run|
    ensures (exists u: Tid, pick: Tid :: Enabled(run[i], u, Go(pick))) <==>
            !run[i].halted && exists t: Tid :: !Rests(run[i], t)
  {
    hide CanGo, Rests, Inv;
    RunKeeps(run, i);
    var s := run[i];
    if t: Tid :| !s.halted && !Rests(s, t) {
      NotResting(s, t);
      var u: Tid, pick: Tid :| CanGo(s, u, pick);
      assert Enabled(s, u, Go(pick));
    }
    if u: Tid, pick: Tid :| Enabled(s, u, Go(pick)) {
      if Rests(s, u) { RestingStays(s, u, pick); }
    }
  }

  /** A broadcast that is owed is on its way: in every state in which one is, some thread can go on. */
  lemma BroadcastIsOnItsWay(run: seq<State>, i: nat)
    requires Run(run) && i < |run| && SomeoneOwes(run[i]) && !run[i].halted
    ensures exists u: Tid, pick: Tid :: Enabled(run[i], u, Go(pick))
  {
    hide CanGo, Rests, Owes, Inv;
    var t: Tid :| Owes(PcOf(run[i], t));
    OwingIsAwake(run[i], t);
    NoDeadlock(run, i);
  }

  lemma OwingIsAwake(s: State, t: Tid)
    requires Owes(PcOf(s, t))
    ensures !Rests(s, t)
  {
    DebtorIsAwake(s, t);
  }

  /** So a selector asleep beside an arm that could proceed, after a round that looked at it, is
      never in a program in which nobody can go on. */
  lemma SleeperIsNotAlone(run: seq<State>, i: nat, t: Tid, arm: nat)
    requires Run(run) && i < |run| && PcOf(run[i], t).Asleep? && t in run[i].selectorsAsleep && !run[i].halted
    requires arm < |PcOf(run[i], t).sel.arms| && Ready(run[i], PcOf(run[i], t).sel.arms[arm])
    requires NoSkip(PcOf(run[i], t).sel.turn, |PcOf(run[i], t).sel.arms|) || arm in PcOf(run[i], t).sel.refused
    ensures exists u: Tid, pick: Tid :: Enabled(run[i], u, Go(pick))
  {
    hide CanGo, Owes, Ready, NoSkip, Inv;
    NoMissedWakeup(run, i, t, arm);
    BroadcastIsOnItsWay(run, i);
  }
}
