/** What holds of every run of the channel protocol. */
module ChannelTheorems {
  import opened ChannelProtocol
  import opened ChannelInvariant
  import opened SelectRotation

  // -------------------------------------------------- the remaining steps

  lemma CreateBase(s: State, s': State, c: Cid, y: Chan)
    requires Base(s) && c !in s.chans && s' == With(s, c, y)
    requires ChanInv(y) && forall u: Tid :: Link(PcOf(s', u), y, c, u)
    ensures Base(s')
  {
    hide Link, ChanInv, PcOk, ActivityLink, Mentions;
    assert forall u: Tid :: PcOf(s', u) == PcOf(s, u);
    ActivityAlike(s, s');
    forall d, u: Tid | d in s'.chans
      ensures Link(PcOf(s', u), s'.chans[d], d, u)
    {
      if d != c { assert Link(PcOf(s, u), s.chans[d], d, u); }
    }
  }

  lemma CreateKeeps(s: State, t: Tid, c: Cid, cap: nat)
    requires Inv(s) && Enabled(s, t, Create(c, cap))
    ensures Inv(Do(s, t, Create(c, cap)))
  {
    var s' := Do(s, t, Create(c, cap));
    var y := NewChan(cap, t);
    NewChanInv(cap, t);
    forall u: Tid
      ensures Link(PcOf(s', u), y, c, u)
    {
      assert !Mentions(PcOf(s, u), c) && PcOk(PcOf(s, u));
      FreshLink(PcOf(s, u), cap, c, t, u);
    }
    CreateBase(s, s', c, y);
    CreateCovered(s, s', c);
  }

  lemma NewChanInv(cap: nat, t: Tid)
    requires cap > 0
    ensures ChanInv(NewChan(cap, t))
  {
  }

  lemma FreshLink(pc: Pc, cap: nat, c: Cid, t: Tid, u: Tid)
    requires !Mentions(pc, c) && PcOk(pc)
    ensures Link(pc, NewChan(cap, t), c, u)
  {
    hide ArmAt;
    if pc.Trying? { NextArmIsAnArm(pc.sel); }
  }

  lemma ActivityAlike(s: State, s': State)
    requires (forall u: Tid :: ActivityLink(s, u)) && s'.pcs == s.pcs && SameActivity(s, s')
    ensures forall u: Tid :: ActivityLink(s', u)
  {
    forall u: Tid
      ensures ActivityLink(s', u)
    {
      assert ActivityLink(s, u);
    }
  }

  lemma CreateCovered(s: State, s': State, c: Cid)
    requires Inv(s) && c !in s.chans && s'.pcs == s.pcs && SameActivity(s, s')
    requires forall d | d != c :: (d in s'.chans <==> d in s.chans) && (d in s.chans ==> s'.chans[d] == s.chans[d])
    ensures Covered(s')
  {
    hide ChanInv, Link, PcOk, ActivityLink, Owes, ArmReady;
    forall t: Tid, i: nat | Watching(s', t) && i in PcOf(s', t).sel.refused && i < |PcOf(s', t).sel.arms|
      ensures Ready(s', PcOf(s', t).sel.arms[i]) ==> SomeoneOwes(s')
    {
      var arm := PcOf(s, t).sel.arms[i];
      assert Uses(PcOf(s, t), arm.c);
      assert Mentions(PcOf(s, t), arm.c);
      assert Watching(s, t);
      if Ready(s', arm) {
        assert SomeoneOwes(s);
        var w: Tid :| Owes(PcOf(s, w));
        assert Owes(PcOf(s', w));
      }
    }
  }

  /** A call begins: the thread leaves Idle for the first place of an operation it may perform. */
  lemma CallKeeps(s: State, t: Tid, pc': Pc)
    requires Inv(s) && PcOf(s, t) == Idle && (pc'.Want? || pc'.SelWant?) && PcOk(pc')
    requires forall d: Cid | Mentions(pc', d) :: HasOwner(s, d, t)
    ensures Inv(At(s, t, pc'))
  {
    hide Covered, ChanInv, Link, PcOk, ArmReady;
    var s' := At(s, t, pc');
    ActivityUntouched(s, s', t, pc');
    assert forall d: Cid | Uses(pc', d) :: Mentions(pc', d);
    PlainStepBase(s, s', t, pc');
    QuietStepCovered(s, s', t);
  }

  lemma SpuriousConforms(pc: Pc, x: Chan, c: Cid, t: Tid)
    requires ChanInv(x) && Link(pc, x, c, t) && PcOk(pc) && pc.Parked? && pc.c == c
    ensures Conforms(pc, pc, x, SignalWriter(SignalReader(x, t), t), c, t)
  {
    hide ChanInv, Link, Unmoved;
    var y := SignalWriter(SignalReader(x, t), t);
    SpuriousKeeps(x, t);
    forall u: Tid
      ensures Unmoved(x, y, u)
    {
      SpuriousUnmoved(x, t, u);
    }
    UnmovedLinks(pc, x, y, c, t);
  }

  lemma SpuriousUnmoved(x: Chan, t: Tid, u: Tid)
    ensures Unmoved(x, SignalWriter(SignalReader(x, t), t), u)
  {
  }

  lemma SpuriousParkedKeeps(s: State, t: Tid)
    requires Inv(s) && Enabled(s, t, Spurious) && PcOf(s, t).Parked?
    ensures Inv(Do(s, t, Spurious))
  {
    hide Conforms, Covered, ChanInv;
    var pc := PcOf(s, t);
    var c := pc.c;
    assert Mentions(pc, c) && PcOk(pc);
    assert Link(pc, s.chans[c], c, t);
    SpuriousConforms(pc, s.chans[c], c, t);
    var s' := Do(s, t, Spurious);
    assert s.pcs[t := pc] == s.pcs;
    ConformingStep(s, s', t, pc, c, SignalWriter(SignalReader(s.chans[c], t), t));
  }

  /** A selector woken for no reason or by its deadline only stops being asleep. */
  lemma SelectorWokenKeeps(s: State, s': State, t: Tid)
    requires Inv(s) && PcOf(s, t).Asleep? && s'.chans == s.chans && s'.pcs == s.pcs
    requires s'.activity == s.activity && s'.turns == s.turns && t in s.selectorsAsleep
    requires s'.selectorsAsleep == s.selectorsAsleep - {t}
    requires s'.selectorsWoken + s'.selectorsTimedOut == s.selectorsWoken + s.selectorsTimedOut + {t}
    ensures Inv(s')
  {
    hide Covered, ChanInv, Link, PcOk, ArmReady, Owes, Mentions;
    forall u: Tid
      ensures ActivityLink(s', u)
    {
      assert ActivityLink(s, u);
      assert u in s'.selectorsWoken + s'.selectorsTimedOut <==> u in s.selectorsWoken + s.selectorsTimedOut + {t};
    }
    QuietStepCovered(s, s', t);
  }

  lemma StepKeeps(s: State, t: Tid, a: Act)
    requires Inv(s) && Enabled(s, t, a)
    ensures Inv(Do(s, t, a))
  {
    hide Inv, GoOn, CanGo;
    match a
    case Create(c, cap) => CreateKeeps(s, t, c, cap);
    case Begin(c, job) => CallKeeps(s, t, Want(c, job));
    case Select(arms, bounded) => CallKeeps(s, t, SelWant(arms, bounded));
    case Go(pick) =>
      GoKeeps(s, t, pick);
    case Spurious =>
      if PcOf(s, t).Parked? {
        SpuriousParkedKeeps(s, t);
      } else if t in s.selectorsAsleep {
        SelectorWokenKeeps(s, Do(s, t, a), t);
      }
    case Timeout => SelectorWokenKeeps(s, Do(s, t, a), t);
  }

  lemma {:induction false} RunKeeps(run: seq<State>, i: nat)
    requires Run(run) && i < |run|
    ensures Inv(run[i])
  {
    hide Inv, Do, Enabled;
    if i == 0 {
      InitInv(run[0]);
    } else {
      RunKeeps(run, i - 1);
      assert Next(run[i - 1], run[i]);
      var t: Tid, a: Act :| Enabled(run[i - 1], t, a) && run[i] == Do(run[i - 1], t, a);
      StepKeeps(run[i - 1], t, a);
    }
  }

  // ----------------------------------------------------- first in, first out

  /** What may become of a channel: its history only grows, a close is for ever, and a channel
      closed and drained stays as it is. */
  predicate Evolves(x: Chan, y: Chan) {
    && y.cap == x.cap
    && x.sent <= y.sent && x.received <= y.received
    && (x.closed ==> y.closed && y.sent == x.sent)
    && (x.closed && x.queue == [] ==> y.queue == [] && y.received == x.received)
  }

  lemma BodyEvolves(x: Chan, t: Tid, c: Cid, job: Job, pick: Tid)
    ensures Evolves(x, JobBody(x, t, c, job, pick).x)
  {
  }

  lemma TryEvolves(x: Chan, sel: Sel, pick: Tid)
    requires sel.arms != []
    ensures Evolves(x, TryBody(x, sel, pick).x)
  {
  }

  lemma StepEvolves(s: State, t: Tid, a: Act, c: Cid)
    requires Inv(s) && Enabled(s, t, a) && c in s.chans
    ensures c in Do(s, t, a).chans && Evolves(s.chans[c], Do(s, t, a).chans[c])
  {
    hide JobBody, TryBody, Inv;
    if a.Go? {
      var pc := PcOf(s, t);
      if pc.In? {
        BodyEvolves(s.chans[pc.c], t, pc.c, pc.job, a.pick);
      } else if pc.Trying? {
        TryEvolves(s.chans[NextChan(pc.sel)], pc.sel, a.pick);
      }
    }
  }

  lemma EvolvesTransitive(x: Chan, y: Chan, z: Chan)
    requires Evolves(x, y) && Evolves(y, z)
    ensures Evolves(x, z)
  {
  }

  lemma {:induction false} RunEvolves(run: seq<State>, i: nat, j: nat, c: Cid)
    requires Run(run) && i <= j < |run| && c in run[i].chans
    ensures c in run[j].chans && Evolves(run[i].chans[c], run[j].chans[c])
    decreases j
  {
    hide Inv, Do, Enabled, Evolves;
    if i == j {
      EvolvesReflexive(run[i].chans[c]);
    } else {
      RunEvolves(run, i, j - 1, c);
      RunKeeps(run, j - 1);
      assert Next(run[j - 1], run[j]);
      var t: Tid, a: Act :| Enabled(run[j - 1], t, a) && run[j] == Do(run[j - 1], t, a);
      StepEvolves(run[j - 1], t, a, c);
      EvolvesTransitive(run[i].chans[c], run[j - 1].chans[c], run[j].chans[c]);
    }
  }

  lemma EvolvesReflexive(x: Chan)
    ensures Evolves(x, x)
  {
  }

  /** Every channel is first-in first-out over a whole run: what has been received, and then what
      is queued, is exactly what has been sent, and the queue never exceeds its capacity. */
  lemma FirstInFirstOut(run: seq<State>, i: nat, c: Cid)
    requires Run(run) && i < |run| && c in run[i].chans
    ensures var x := run[i].chans[c];
            x.received + x.queue == x.sent && |x.queue| <= x.cap
    ensures forall j | i <= j < |run| ::
              c in run[j].chans && run[i].chans[c].received <= run[j].chans[c].received
              && run[i].chans[c].sent <= run[j].chans[c].sent
  {
    hide Link, ActivityLink, Covered, PcOk, Mentions;
    RunKeeps(run, i);
    assert ChanInv(run[i].chans[c]);
    forall j | i <= j < |run|
      ensures c in run[j].chans && Evolves(run[i].chans[c], run[j].chans[c])
    {
      RunEvolves(run, i, j, c);
    }
  }

  /** A receive answers "no more" only of a channel that is closed with everything delivered, and
      so it stays for ever afterwards. */
  lemma NoMoreIsForEver(run: seq<State>, i: nat, j: nat, t: Tid, c: Cid)
    requires Run(run) && i <= j < |run| && PcOf(run[i], t) == Leaving(c, Receive, false)
    ensures c in run[i].chans && c in run[j].chans
    ensures var x, y := run[i].chans[c], run[j].chans[c];
            && x.closed && x.received == x.sent
            && y.closed && y.queue == [] && y.received == y.sent == x.sent
  {
    hide ActivityLink, Covered, PcOk;
    RunKeeps(run, i);
    assert Mentions(PcOf(run[i], t), c);
    assert Link(PcOf(run[i], t), run[i].chans[c], c, t) && ChanInv(run[i].chans[c]);
    RunEvolves(run, i, j, c);
    RunKeeps(run, j);
    assert ChanInv(run[j].chans[c]);
  }

  // ---------------------------------------------------------- nobody stranded

  /** Waking one waiter at a time strands nobody: while a reader sleeps unwoken there are no more
      values than readers already woken, dually for writers and free slots, and once the channel
      is closed whoever is parked on it has been woken. */
  lemma NobodyStranded(run: seq<State>, i: nat, c: Cid)
    requires Run(run) && i < |run| && c in run[i].chans
    ensures var x := run[i].chans[c];
            && (x.readersAsleep != {} ==> |x.queue| <= |x.readersWoken|)
            && (x.writersAsleep != {} ==> x.cap - |x.queue| <= |x.writersWoken|)
    ensures forall t: Tid | PcOf(run[i], t).Parked? && PcOf(run[i], t).c == c && run[i].chans[c].closed ::
              t in run[i].chans[c].readersWoken + run[i].chans[c].writersWoken
  {
    hide ActivityLink, Covered, Mentions;
    RunKeeps(run, i);
    assert ChanInv(run[i].chans[c]);
    forall t: Tid | PcOf(run[i], t).Parked? && PcOf(run[i], t).c == c && run[i].chans[c].closed
      ensures t in run[i].chans[c].readersWoken + run[i].chans[c].writersWoken
    {
      assert PcOk(PcOf(run[i], t));
      assert Link(PcOf(run[i], t), run[i].chans[c], c, t);
    }
  }

  /** A parked reader's value, or a parked writer's slot, is on its way to somebody: a thread that
      has been woken and needs only the mutex. */
  lemma ValueFindsAReader(run: seq<State>, i: nat, c: Cid)
    requires Run(run) && i < |run| && c in run[i].chans
    ensures run[i].chans[c].readersAsleep != {} && run[i].chans[c].queue != [] ==>
              exists u: Tid :: u in run[i].chans[c].readersWoken && (ReaderParked(PcOf(run[i], u), c) || ReaderBack(PcOf(run[i], u), c))
    ensures run[i].chans[c].writersAsleep != {} && |run[i].chans[c].queue| < run[i].chans[c].cap ==>
              exists u: Tid :: u in run[i].chans[c].writersWoken && (WriterParked(PcOf(run[i], u), c) || WriterBack(PcOf(run[i], u), c))
  {
    hide ActivityLink, Covered, Mentions, PcOk;
    RunKeeps(run, i);
    var x := run[i].chans[c];
    NobodyStranded(run, i, c);
    if x.readersAsleep != {} && x.queue != [] {
      assert x.readersWoken != {};
      var u :| u in x.readersWoken;
      assert Link(PcOf(run[i], u), x, c, u);
    }
    if x.writersAsleep != {} && |x.queue| < x.cap {
      assert x.writersWoken != {};
      var u :| u in x.writersWoken;
      assert Link(PcOf(run[i], u), x, c, u);
    }
  }

  // ------------------------------------------------------------------- select

  lemma RefusedAll(sel: Sel)
    requires SelOk(sel) && |sel.refused| == |sel.arms|
    ensures NoSkip(sel.turn, |sel.arms|) <==> forall arm: nat | arm < |sel.arms| :: arm in sel.refused
  {
    hide ArmAt, NoSkip;
    var n := |sel.arms|;
    CoversExactlyWithoutSkip(sel.turn, n);
    if NoSkip(sel.turn, n) {
      forall arm: nat | arm < n
        ensures arm in sel.refused
      {
        assert LooksAt(sel.turn, n, arm);
        var k: nat :| k < n && ArmAt(sel.turn, k, n) == arm;
        assert sel.refused[k] == arm;
      }
    } else if forall arm: nat | arm < n :: arm in sel.refused {
      forall arm: nat | arm < n
        ensures LooksAt(sel.turn, n, arm)
      {
        assert arm in sel.refused;
        var k :| 0 <= k < n && sel.refused[k] == arm;
        assert ArmAt(sel.turn, k, n) == arm;
      }
    }
  }

  /** No select misses a wakeup: if a selector is asleep and not woken after a round that looked
      at every arm, and one of its arms could proceed, some thread still owes a broadcast. A round
      looks at every arm exactly when its counter did not wrap harmfully. */
  lemma NoMissedWakeup(run: seq<State>, i: nat, t: Tid, arm: nat)
    requires Run(run) && i < |run| && PcOf(run[i], t).Asleep? && t in run[i].selectorsAsleep
    requires arm < |PcOf(run[i], t).sel.arms|
    requires NoSkip(PcOf(run[i], t).sel.turn, |PcOf(run[i], t).sel.arms|) || arm in PcOf(run[i], t).sel.refused
    ensures Ready(run[i], PcOf(run[i], t).sel.arms[arm]) ==> SomeoneOwes(run[i])
  {
    hide ChanInv, Link, Mentions, ActivityLink, NoSkip, Ready, SomeoneOwes, ArmAt;
    RunKeeps(run, i);
    var s, sel := run[i], PcOf(run[i], t).sel;
    assert PcOk(PcOf(s, t)) && Watching(s, t);
    RefusedAll(sel);
    assert arm in sel.refused;
  }

  /** And whoever owes a broadcast is not waiting on any condition to make it. */
  lemma DebtorIsAwake(s: State, t: Tid)
    requires Owes(PcOf(s, t))
    ensures !PcOf(s, t).Parked? && !PcOf(s, t).Asleep?
    ensures forall l: Lock | Wants(s, t) == Some(l) :: l == Activity && PcOf(s, t).SigWant?
  {
  }

  // -------------------------------------------------------------------- locks

  datatype Lock = Activity | ChanLock(c: Cid)

  /** The mutex a thread's next step acquires. */
  function Wants(s: State, t: Tid): Option<Lock> {
    match PcOf(s, t)
    case Want(c, _) => Some(ChanLock(c))
    case Parked(c, job) =>
      if c in s.chans && t in s.chans[c].readersWoken + s.chans[c].writersWoken then Some(ChanLock(c)) else None
    case SigWant(_) => Some(Activity)
    case SelWant(_, _) => Some(Activity)
    case Poll(sel) => if |sel.refused| < |sel.arms| then Some(ChanLock(NextChan(sel))) else None
    case Asleep(_) => if t in s.selectorsWoken + s.selectorsTimedOut then Some(Activity) else None
    case _ => None
  }

  predicate Holds(s: State, t: Tid, l: Lock) {
    match l
    case Activity => s.activity == Some(t)
    case ChanLock(c) => c in s.chans && s.chans[c].holder == Some(t)
  }

  /** Each thread of the chain waits for a mutex the next one holds. */
  ghost predicate WaitChain(s: State, chain: seq<Tid>) {
    forall i | 0 < i < |chain| :: Blocks(s, chain[i - 1], chain[i])
  }

  ghost predicate Blocks(s: State, t: Tid, u: Tid) {
    exists l: Lock :: Wants(s, t) == Some(l) && Holds(s, u, l)
  }

  /** Under a channel's mutex a thread waits for no mutex at all, and it holds one channel's mutex
      at a time; under activity it may wait for a channel's but not for activity. */
  lemma LockDiscipline(run: seq<State>, i: nat, t: Tid)
    requires Run(run) && i < |run|
    ensures forall c, d: Cid | Holds(run[i], t, ChanLock(c)) && Holds(run[i], t, ChanLock(d)) :: c == d
    ensures forall l: Lock | Holds(run[i], t, l) ::
              Wants(run[i], t) == None || (l == Activity && Wants(run[i], t) != Some(Activity))
  {
    hide ChanInv, Mentions, Covered;
    RunKeeps(run, i);
    var s := run[i];
    assert ActivityLink(s, t) && PcOk(PcOf(s, t));
    forall c: Cid | Holds(s, t, ChanLock(c))
      ensures HoldsChan(PcOf(s, t)) == Some(c)
    {
      assert Link(PcOf(s, t), s.chans[c], c, t);
    }
  }

  /** So no cycle of threads waiting for one another's mutexes can form: no chain of waiting is
      longer than two links. */
  lemma NoLockCycle(run: seq<State>, i: nat, chain: seq<Tid>)
    requires Run(run) && i < |run| && WaitChain(run[i], chain)
    ensures |chain| <= 3
  {
    hide Wants, Holds, Run;
    if |chain| > 3 {
      var s := run[i];
      assert Blocks(s, chain[0], chain[1]) && Blocks(s, chain[1], chain[2]) && Blocks(s, chain[2], chain[3]);
      var k: Lock :| Wants(s, chain[0]) == Some(k) && Holds(s, chain[1], k);
      var l: Lock :| Wants(s, chain[1]) == Some(l) && Holds(s, chain[2], l);
      var m: Lock :| Wants(s, chain[2]) == Some(m) && Holds(s, chain[3], m);
      LockDiscipline(run, i, chain[1]);
      LockDiscipline(run, i, chain[2]);
    }
  }

  // --------------------------------------------------------------- references

  /** A thread inside any operation on a channel finds it not yet freed, its reference counted. */
  lemma InUseIsLive(run: seq<State>, i: nat, t: Tid, c: Cid)
    requires Run(run) && i < |run| && Mentions(PcOf(run[i], t), c)
    ensures c in run[i].chans && run[i].chans[c].frees == 0
    ensures Uses(PcOf(run[i], t), c) ==> run[i].chans[c].refs > 0
  {
    hide ActivityLink, Covered, PcOk;
    RunKeeps(run, i);
    assert Link(PcOf(run[i], t), run[i].chans[c], c, t) && ChanInv(run[i].chans[c]);
  }

  /** A channel is freed at most once, and only when nobody refers to it; and the one thread that
      dropped the last reference is the one that frees it. */
  lemma FreedOnce(run: seq<State>, i: nat, c: Cid)
    requires Run(run) && i < |run| && c in run[i].chans
    ensures var x := run[i].chans[c];
            && x.frees <= 1 && x.refs == |x.owners|
            && (x.frees == 1 ==> x.refs == 0)
            && (x.refs == 0 && x.frees == 0 ==> x.freer.Some? && LastHolder(PcOf(run[i], x.freer.value), c))
  {
    hide ActivityLink, Covered, PcOk, Mentions;
    RunKeeps(run, i);
    var x := run[i].chans[c];
    assert ChanInv(x);
    if x.freer.Some? {
      assert Link(PcOf(run[i], x.freer.value), x, c, x.freer.value);
    }
  }
}
