/** What every step of the channel protocol keeps. */
module ChannelInvariant {
  import opened ChannelProtocol

  // ----------------------------------------------------------- reading a Pc

  function HoldsChan(pc: Pc): Option<Cid> {
    match pc
    case In(c, _, _) => Some(c)
    case Leaving(c, _, _) => Some(c)
    case Trying(sel) => if sel.arms != [] then Some(NextChan(sel)) else None
    case Tried(sel, arm, _) => if arm < |sel.arms| then Some(sel.arms[arm].c) else None
    case _ => None
  }

  predicate HoldsActivity(pc: Pc) {
    pc.SigIn? || pc.SigOut? || pc.Poll? || pc.Trying? || pc.Tried? || pc.Fired? || pc.FiredOut? || pc.GaveUp?
  }

  predicate AmongArms(arms: seq<Arm>, c: Cid) {
    exists i | 0 <= i < |arms| :: arms[i].c == c
  }

  /** The thread is somewhere in an operation on c for which it needs a reference. */
  predicate Uses(pc: Pc, c: Cid) {
    match pc
    case Want(d, _) => d == c
    case In(d, _, _) => d == c
    case Parked(d, _) => d == c
    case Leaving(d, job, _) => d == c && !job.Drop?
    case SigWant(rest) => rest == ThenDrop(c)
    case SigIn(rest) => rest == ThenDrop(c)
    case SigOut(rest) => rest == ThenDrop(c)
    case SelWant(arms, _) => AmongArms(arms, c)
    case Poll(sel) => AmongArms(sel.arms, c)
    case Trying(sel) => AmongArms(sel.arms, c)
    case Tried(sel, _, _) => AmongArms(sel.arms, c)
    case Asleep(sel) => AmongArms(sel.arms, c)
    case GaveUp(sel) => AmongArms(sel.arms, c)
    case _ => false
  }

  predicate Mentions(pc: Pc, c: Cid) {
    Uses(pc, c) || (pc.Leaving? && pc.c == c) || (pc.Freeing? && pc.c == c)
  }

  /** Nothing of the thread is at c but perhaps its reference. */
  predicate Quiet(pc: Pc, c: Cid) {
    HoldsChan(pc) != Some(c) && !(pc.Parked? && pc.c == c) && !(pc.Freeing? && pc.c == c)
  }

  // -------------------------------------------------------------- the parts

  /** One channel by itself. */
  predicate ChanInv(x: Chan) {
    && x.cap > 0 && |x.queue| <= x.cap
    && x.sent == x.received + x.queue
    && x.refs == |x.owners| && x.frees <= 1
    && (x.owners == multiset{} <==> x.freer.Some?)
    && (x.frees > 0 ==> x.freer.Some?)
    && x.readersAsleep !! x.readersWoken && x.writersAsleep !! x.writersWoken
    && (x.readersAsleep != {} ==> |x.queue| <= |x.readersWoken|)
    && (x.writersAsleep != {} ==> x.cap - |x.queue| <= |x.writersWoken|)
    && (x.closed ==> x.readersAsleep == {} && x.writersAsleep == {})
  }

  predicate ReaderParked(pc: Pc, c: Cid) { pc == Parked(c, Receive) }

  predicate WriterParked(pc: Pc, c: Cid) { pc.Parked? && pc.c == c && pc.job.Send? }

  predicate ReaderBack(pc: Pc, c: Cid) { pc == In(c, Receive, true) }

  predicate WriterBack(pc: Pc, c: Cid) { pc.In? && pc.c == c && pc.job.Send? && pc.woke }

  predicate LastHolder(pc: Pc, c: Cid) { pc == Leaving(c, Drop, true) || pc == Freeing(c) }

  /** One thread against one channel. */
  predicate Link(pc: Pc, x: Chan, c: Cid, t: Tid) {
    && (x.holder == Some(t) <==> HoldsChan(pc) == Some(c))
    && (t in x.readersAsleep ==> ReaderParked(pc, c))
    && (t in x.readersWoken ==> ReaderParked(pc, c) || ReaderBack(pc, c))
    && (ReaderParked(pc, c) ==> t in x.readersAsleep || t in x.readersWoken)
    && (ReaderBack(pc, c) ==> t in x.readersWoken)
    && (t in x.writersAsleep ==> WriterParked(pc, c))
    && (t in x.writersWoken ==> WriterParked(pc, c) || WriterBack(pc, c))
    && (WriterParked(pc, c) ==> t in x.writersAsleep || t in x.writersWoken)
    && (WriterBack(pc, c) ==> t in x.writersWoken)
    && (Uses(pc, c) ==> t in x.owners)
    && (x.freer == Some(t) && x.frees == 0 <==> LastHolder(pc, c))
    && (pc == Leaving(c, Drop, false) ==> x.owners != multiset{})
    && (pc == Leaving(c, Receive, false) ==> x.closed && x.queue == [])
  }

  predicate SelOk(sel: Sel) {
    && 0 < |sel.arms| < WORD / 2 && sel.turn < WORD
    && |sel.refused| <= |sel.arms|
    && forall j | 0 <= j < |sel.refused| :: sel.refused[j] == ArmAt(sel.turn, j, |sel.arms|)
  }

  /** One thread by itself. */
  predicate PcOk(pc: Pc) {
    match pc
    case Parked(_, job) => job.Send? || job.Receive?
    case In(_, job, woke) => woke ==> job.Send? || job.Receive?
    case SelWant(arms, _) => 0 < |arms| < WORD / 2
    case Poll(sel) => SelOk(sel)
    case Trying(sel) => SelOk(sel) && |sel.refused| < |sel.arms|
    case Tried(sel, arm, fired) => SelOk(sel) && arm < |sel.arms|
    case Asleep(sel) => SelOk(sel) && |sel.refused| == |sel.arms|
    case GaveUp(sel) => SelOk(sel) && |sel.refused| == |sel.arms|
    case _ => true
  }

  /** One thread against the activity mutex and condition. */
  predicate ActivityLink(s: State, t: Tid) {
    && (s.activity == Some(t) <==> HoldsActivity(PcOf(s, t)))
    && (t in s.selectorsAsleep + s.selectorsWoken + s.selectorsTimedOut <==> PcOf(s, t).Asleep?)
    && !(t in s.selectorsAsleep && t in s.selectorsWoken + s.selectorsTimedOut)
    && TurnOf(s, t) < WORD
  }

  predicate Ready(s: State, arm: Arm) {
    arm.c in s.chans && ArmReady(s.chans[arm.c], arm)
  }

  /** A selector in a round, or asleep after one and not yet woken. */
  predicate Watching(s: State, t: Tid) {
    var pc := PcOf(s, t);
    pc.Poll? || pc.Trying? || pc.Tried? || (pc.Asleep? && t in s.selectorsAsleep)
  }

  /** The thread has changed a channel, or is about to announce that it has. */
  predicate Owes(pc: Pc) {
    match pc
    case Leaving(_, job, result) => job.Send? || job.Shut? || (job.Receive? && result)
    case SigWant(_) => true
    case SigIn(_) => true
    case Tried(_, _, fired) => fired
    case Fired(_) => true
    case _ => false
  }

  ghost predicate SomeoneOwes(s: State) {
    exists u: Tid :: Owes(PcOf(s, u))
  }

  /** Every arm a watching selector has passed over is still unable to proceed, or a broadcast is owed. */
  ghost predicate Covered(s: State) {
    forall t: Tid, i: nat | Watching(s, t) && i in PcOf(s, t).sel.refused && i < |PcOf(s, t).sel.arms| ::
      Ready(s, PcOf(s, t).sel.arms[i]) ==> SomeoneOwes(s)
  }

  ghost predicate Inv(s: State) {
    && (forall c | c in s.chans :: ChanInv(s.chans[c]))
    && (forall c, t: Tid | c in s.chans :: Link(PcOf(s, t), s.chans[c], c, t))
    && (forall c: Cid, t: Tid :: Mentions(PcOf(s, t), c) ==> c in s.chans)
    && (forall t: Tid :: PcOk(PcOf(s, t)))
    && (forall t: Tid :: ActivityLink(s, t))
    && Covered(s)
  }

  lemma InitInv(s: State)
    requires Init(s)
    ensures Inv(s)
  {
  }

  // ------------------------------------------------- critical sections keep ChanInv

  lemma SignalReaderKeeps(x: Chan, pick: Tid)
    requires x.readersAsleep !! x.readersWoken
    ensures var y := SignalReader(x, pick);
            && y.readersAsleep !! y.readersWoken
            && (pick in x.readersAsleep ==> |y.readersWoken| == |x.readersWoken| + 1)
            && (y.readersAsleep != {} ==> x.readersAsleep != {})
  {
  }

  lemma SignalWriterKeeps(x: Chan, pick: Tid)
    requires x.writersAsleep !! x.writersWoken
    ensures var y := SignalWriter(x, pick);
            && y.writersAsleep !! y.writersWoken
            && (pick in x.writersAsleep ==> |y.writersWoken| == |x.writersWoken| + 1)
            && (y.writersAsleep != {} ==> x.writersAsleep != {})
  {
  }

  /** ChanInv but for the thread that is looking at the channel, which may just have been woken. */
  predicate LookedAt(x: Chan, readersSlack: nat, writersSlack: nat) {
    && x.cap > 0 && |x.queue| <= x.cap
    && x.sent == x.received + x.queue
    && x.refs == |x.owners| && x.frees <= 1
    && (x.owners == multiset{} <==> x.freer.Some?)
    && (x.frees > 0 ==> x.freer.Some?)
    && x.readersAsleep !! x.readersWoken && x.writersAsleep !! x.writersWoken
    && (x.readersAsleep != {} ==> |x.queue| <= |x.readersWoken| + readersSlack)
    && (x.writersAsleep != {} ==> x.cap - |x.queue| <= |x.writersWoken| + writersSlack)
    && (x.closed ==> x.readersAsleep == {} && x.writersAsleep == {})
  }

  lemma LookedKeeps(x: Chan, t: Tid, job: Job)
    requires ChanInv(x)
    ensures LookedAt(Looked(x, t, job), if job.Receive? then 1 else 0, if job.Send? then 1 else 0)
  {
    if job.Receive? && t in x.readersWoken {
      assert |x.readersWoken - {t}| == |x.readersWoken| - 1;
    }
    if job.Send? && t in x.writersWoken {
      assert |x.writersWoken - {t}| == |x.writersWoken| - 1;
    }
  }

  lemma PutKeeps(x: Chan, v: Value, pick: Tid, slack: nat)
    requires LookedAt(x, 0, slack) && slack <= 1 && |x.queue| < x.cap && !x.closed && PicksReader(x, pick)
    ensures ChanInv(Put(x, v, pick))
  {
    SignalReaderKeeps(x.(queue := x.queue + [v], sent := x.sent + [v]), pick);
    assert x.sent + [v] == x.received + (x.queue + [v]);
  }

  lemma TakeKeeps(x: Chan, pick: Tid, slack: nat)
    requires LookedAt(x, slack, 0) && slack <= 1 && x.queue != [] && PicksWriter(x, pick)
    ensures ChanInv(Take(x, pick))
  {
    SignalWriterKeeps(x.(queue := x.queue[1..], received := x.received + [x.queue[0]]), pick);
    assert x.received + [x.queue[0]] + x.queue[1..] == x.received + x.queue;
  }

  lemma SendKeeps(x: Chan, t: Tid, c: Cid, v: Value, pick: Tid)
    requires ChanInv(x) && PicksReader(x, pick) && t !in x.writersAsleep
    ensures ChanInv(JobBody(x, t, c, Send(v), pick).x)
  {
    hide Put;
    LookedKeeps(x, t, Send(v));
    if !x.closed && |x.queue| < x.cap { PutKeeps(Looked(x, t, Send(v)), v, pick, 1); }
  }

  lemma ReceiveKeeps(x: Chan, t: Tid, c: Cid, pick: Tid)
    requires ChanInv(x) && PicksWriter(x, pick) && t !in x.readersAsleep
    ensures ChanInv(JobBody(x, t, c, Receive, pick).x)
  {
    hide Take;
    LookedKeeps(x, t, Receive);
    if x.queue != [] { TakeKeeps(Looked(x, t, Receive), pick, 1); }
  }

  lemma TryBodyKeeps(x: Chan, sel: Sel, pick: Tid)
    requires ChanInv(x) && sel.arms != [] && PicksInTry(x, sel.arms[NextArm(sel)], pick)
    ensures ChanInv(TryBody(x, sel, pick).x)
  {
    hide Put, Take;
    var arm := sel.arms[NextArm(sel)];
    if arm.ReceiveArm? && x.queue != [] {
      TakeKeeps(x, pick, 0);
    } else if arm.SendArm? && !x.closed && |x.queue| < x.cap {
      PutKeeps(x, arm.v, pick, 0);
    }
  }

  lemma SpuriousKeeps(x: Chan, t: Tid)
    requires ChanInv(x)
    ensures ChanInv(SignalWriter(SignalReader(x, t), t))
  {
    SignalReaderKeeps(x, t);
    SignalWriterKeeps(SignalReader(x, t), t);
  }

  // ----------------------------------------------- what others see of a change

  /** A change of a channel by some other thread leaves u's place at it alone, but may wake it. */
  predicate Unmoved(x: Chan, y: Chan, u: Tid) {
    && (y.holder == Some(u) <==> x.holder == Some(u))
    && (u in y.readersAsleep ==> u in x.readersAsleep)
    && (u in y.readersWoken ==> u in x.readersAsleep || u in x.readersWoken)
    && (u in x.readersAsleep ==> u in y.readersAsleep || u in y.readersWoken)
    && (u in x.readersWoken ==> u in y.readersWoken)
    && (u in y.writersAsleep ==> u in x.writersAsleep)
    && (u in y.writersWoken ==> u in x.writersAsleep || u in x.writersWoken)
    && (u in x.writersAsleep ==> u in y.writersAsleep || u in y.writersWoken)
    && (u in x.writersWoken ==> u in y.writersWoken)
    && (u in x.owners ==> u in y.owners)
    && (y.freer == Some(u) && y.frees == 0 <==> x.freer == Some(u) && x.frees == 0)
    && (x.holder == Some(u) && x.owners != multiset{} ==> y.owners != multiset{})
    && (x.closed && x.queue == [] ==> y.closed && y.queue == [])
  }

  lemma UnmovedLinks(pc: Pc, x: Chan, y: Chan, c: Cid, u: Tid)
    requires Link(pc, x, c, u) && Unmoved(x, y, u)
    ensures Link(pc, y, c, u)
  {
  }

  lemma SendUnmoved(x: Chan, t: Tid, c: Cid, job: Job, pick: Tid, u: Tid)
    requires u != t && x.holder == Some(t) && x.freer == None && job.Send?
    requires x.closed ==> x.readersAsleep == {} && x.writersAsleep == {}
    ensures Unmoved(x, JobBody(x, t, c, job, pick).x, u)
  {
  }

  lemma ReceiveUnmoved(x: Chan, t: Tid, c: Cid, job: Job, pick: Tid, u: Tid)
    requires u != t && x.holder == Some(t) && x.freer == None && job.Receive?
    requires x.closed ==> x.readersAsleep == {} && x.writersAsleep == {}
    ensures Unmoved(x, JobBody(x, t, c, job, pick).x, u)
  {
  }

  lemma ShutUnmoved(x: Chan, t: Tid, c: Cid, job: Job, pick: Tid, u: Tid)
    requires u != t && x.holder == Some(t) && x.freer == None && job.Shut?
    requires x.closed ==> x.readersAsleep == {} && x.writersAsleep == {}
    ensures Unmoved(x, JobBody(x, t, c, job, pick).x, u)
  {
  }

  lemma CountUnmoved(x: Chan, t: Tid, c: Cid, job: Job, pick: Tid, u: Tid)
    requires u != t && x.holder == Some(t) && x.freer == None && (job.Ref? || job.Drop?)
    requires x.closed ==> x.readersAsleep == {} && x.writersAsleep == {}
    ensures Unmoved(x, JobBody(x, t, c, job, pick).x, u)
  {
  }

  lemma JobBodyUnmoved(x: Chan, t: Tid, c: Cid, job: Job, pick: Tid, u: Tid)
    requires u != t && x.holder == Some(t) && x.freer == None
    requires x.closed ==> x.readersAsleep == {} && x.writersAsleep == {}
    ensures Unmoved(x, JobBody(x, t, c, job, pick).x, u)
  {
    hide JobBody, Unmoved;
    match job
    case Send(_) => SendUnmoved(x, t, c, job, pick, u);
    case Receive => ReceiveUnmoved(x, t, c, job, pick, u);
    case Shut(_) => ShutUnmoved(x, t, c, job, pick, u);
    case _ => CountUnmoved(x, t, c, job, pick, u);
  }

  lemma TryBodyUnmoved(x: Chan, sel: Sel, pick: Tid, u: Tid)
    requires sel.arms != []
    ensures Unmoved(x, TryBody(x, sel, pick).x, u)
  {
  }

  lemma QuietLinks(pc: Pc, pc': Pc, x: Chan, c: Cid, t: Tid)
    requires Link(pc, x, c, t) && Quiet(pc, c) && Quiet(pc', c)
    requires Uses(pc', c) ==> t in x.owners
    ensures Link(pc', x, c, t)
  {
  }

  // ------------------------------------------------------- one step's shape

  /** The state but for Covered. */
  ghost predicate Base(s: State) {
    && (forall c | c in s.chans :: ChanInv(s.chans[c]))
    && (forall c, t: Tid | c in s.chans :: Link(PcOf(s, t), s.chans[c], c, t))
    && (forall c: Cid, t: Tid :: Mentions(PcOf(s, t), c) ==> c in s.chans)
    && (forall t: Tid :: PcOk(PcOf(s, t)))
    && (forall t: Tid :: ActivityLink(s, t))
  }

  /** Thread t goes from its place to pc', and channel c from what it was to y. */
  predicate MovesAt(s: State, s': State, t: Tid, pc': Pc, c: Cid, y: Chan) {
    c in s.chans && s'.chans == s.chans[c := y] && s'.pcs == s.pcs[t := pc']
  }

  lemma ChannelStepBase(s: State, s': State, t: Tid, pc': Pc, c: Cid, y: Chan)
    requires Base(s) && MovesAt(s, s', t, pc', c, y)
    requires ChanInv(y) && Link(pc', y, c, t) && PcOk(pc')
    requires forall u: Tid | u != t :: Unmoved(s.chans[c], y, u)
    requires forall d: Cid | d != c :: Quiet(PcOf(s, t), d) && Quiet(pc', d)
    requires forall d: Cid | d != c && Uses(pc', d) :: HasOwner(s, d, t)
    requires forall d: Cid | Mentions(pc', d) :: d in s.chans
    requires forall u: Tid :: ActivityLink(s', u)
    ensures Base(s')
  {
    hide Link, Unmoved, ChanInv, Quiet, ActivityLink, PcOk, Uses, Mentions;
    forall d, u: Tid | d in s'.chans
      ensures Link(PcOf(s', u), s'.chans[d], d, u)
    {
      assert Link(PcOf(s, u), s.chans[d], d, u);
      if d == c {
        if u != t { UnmovedLinks(PcOf(s, u), s.chans[c], y, c, u); }
      } else if u == t {
        QuietLinks(PcOf(s, t), pc', s.chans[d], d, t);
      }
    }
    forall u: Tid
      ensures PcOk(PcOf(s', u))
    {
      assert u != t ==> PcOf(s', u) == PcOf(s, u);
    }
    forall d: Cid, u: Tid
      ensures Mentions(PcOf(s', u), d) ==> d in s'.chans
    {
      assert u != t ==> PcOf(s', u) == PcOf(s, u);
    }
  }

  lemma PlainStepBase(s: State, s': State, t: Tid, pc': Pc)
    requires Base(s) && s'.chans == s.chans && s'.pcs == s.pcs[t := pc'] && PcOk(pc')
    requires forall d: Cid :: Quiet(PcOf(s, t), d) && Quiet(pc', d)
    requires forall d: Cid | Uses(pc', d) :: HasOwner(s, d, t)
    requires forall d: Cid | Mentions(pc', d) :: d in s.chans
    requires forall u: Tid :: ActivityLink(s', u)
    ensures Base(s')
  {
    hide Link, Unmoved, ChanInv, Quiet, ActivityLink, PcOk, Uses, Mentions;
    forall d, u: Tid | d in s'.chans
      ensures Link(PcOf(s', u), s'.chans[d], d, u)
    {
      assert Link(PcOf(s, u), s.chans[d], d, u);
      if u == t {
        QuietLinks(PcOf(s, t), pc', s.chans[d], d, t);
      }
    }
    forall u: Tid
      ensures PcOk(PcOf(s', u))
    {
      assert u != t ==> PcOf(s', u) == PcOf(s, u);
    }
    forall d: Cid, u: Tid
      ensures Mentions(PcOf(s', u), d) ==> d in s'.chans
    {
      assert u != t ==> PcOf(s', u) == PcOf(s, u);
    }
  }

  lemma ActivityUntouched(s: State, s': State, t: Tid, pc': Pc)
    requires forall u: Tid :: ActivityLink(s, u)
    requires s'.pcs == s.pcs[t := pc'] && s'.activity == s.activity && s'.turns == s.turns
    requires s'.selectorsAsleep == s.selectorsAsleep && s'.selectorsWoken == s.selectorsWoken
    requires s'.selectorsTimedOut == s.selectorsTimedOut
    requires HoldsActivity(pc') == HoldsActivity(PcOf(s, t)) && pc'.Asleep? == PcOf(s, t).Asleep?
    ensures forall u: Tid :: ActivityLink(s', u)
  {
    forall u: Tid
      ensures ActivityLink(s', u)
    {
      assert ActivityLink(s, u);
    }
  }

  // -------------------------------------------------------------- Covered

  /** A step that announces nothing: what t owed it still owes, what it made ready it owes for,
      and it passes over no arm that could proceed. */
  lemma QuietStepCovered(s: State, s': State, t: Tid)
    requires Covered(s) && (forall u: Tid :: u != t ==> PcOf(s', u) == PcOf(s, u))
    requires forall u: Tid | u != t && Watching(s', u) :: Watching(s, u)
    requires Owes(PcOf(s, t)) ==> Owes(PcOf(s', t))
    requires Owes(PcOf(s', t)) || forall u: Tid, i: nat | Watching(s', u) && i < |PcOf(s', u).sel.arms| ::
               Ready(s', PcOf(s', u).sel.arms[i]) ==> Ready(s, PcOf(s', u).sel.arms[i])
    requires Watching(s', t) ==>
               forall i: nat | i in PcOf(s', t).sel.refused && i < |PcOf(s', t).sel.arms| ::
                 !Ready(s', PcOf(s', t).sel.arms[i])
                 || (Watching(s, t) && PcOf(s, t).sel.arms == PcOf(s', t).sel.arms && i in PcOf(s, t).sel.refused)
    ensures Covered(s')
  {
    hide Ready, Owes;
    if Owes(PcOf(s', t)) {
      assert SomeoneOwes(s');
    } else {
      forall u: Tid, i: nat | Watching(s', u) && i in PcOf(s', u).sel.refused && i < |PcOf(s', u).sel.arms|
        ensures Ready(s', PcOf(s', u).sel.arms[i]) ==> SomeoneOwes(s')
      {
        var arm := PcOf(s', u).sel.arms[i];
        if Ready(s', arm) {
          assert Ready(s, arm);
          assert SomeoneOwes(s);
          var w: Tid :| Owes(PcOf(s, w));
          assert Owes(PcOf(s', w));
        }
      }
    }
  }

  /** A broadcast by the holder of activity leaves no one watching: the sleepers are woken, and
      whoever is in a round would hold activity too. */
  lemma BroadcastCovered(s: State, s': State, t: Tid)
    requires (forall u: Tid :: ActivityLink(s, u)) && s.activity == Some(t)
    requires forall u: Tid :: u != t ==> PcOf(s', u) == PcOf(s, u)
    requires s'.selectorsAsleep == {} && !Watching(s', t)
    ensures Covered(s')
  {
    forall u: Tid
      ensures !Watching(s', u)
    {
      assert ActivityLink(s, u);
    }
  }

  /** Only one channel changed, and it let nobody through it would not have let through before. */
  lemma NothingReadier(s: State, s': State, c: Cid)
    requires c in s.chans && c in s'.chans && s'.chans == s.chans[c := s'.chans[c]]
    requires forall arm: Arm :: ArmReady(s'.chans[c], arm) ==> ArmReady(s.chans[c], arm)
    ensures forall arm: Arm :: Ready(s', arm) ==> Ready(s, arm)
  {
  }

  // ------------------------------------------- a step seen from its thread

  /** Moving from pc to pc' takes the thread to no other channel, and to nothing it had no reference to. */
  ghost predicate Stays(pc: Pc, pc': Pc, c: Cid) {
    && (forall d: Cid | d != c :: Quiet(pc, d) && Quiet(pc', d))
    && (forall d: Cid | Uses(pc', d) :: Uses(pc, d))
    && (forall d: Cid | Mentions(pc', d) :: Mentions(pc, d))
  }

  predicate InRound(pc: Pc) { pc.Poll? || pc.Trying? || pc.Tried? }

  /** The only arm newly passed over is one of c, and it cannot proceed. */
  predicate PassesOver(pc: Pc, pc': Pc, c: Cid, y: Chan) {
    InRound(pc') ==>
      InRound(pc) && pc'.sel.arms == pc.sel.arms &&
      forall i | i in pc'.sel.refused && i < |pc.sel.arms| ::
        i in pc.sel.refused || (pc.sel.arms[i].c == c && !ArmReady(y, pc.sel.arms[i]))
  }

  /** Everything asked of a step that changes one channel, from the thread and the channel alone. */
  ghost predicate Conforms(pc: Pc, pc': Pc, x: Chan, y: Chan, c: Cid, t: Tid) {
    && ChanInv(y) && Link(pc', y, c, t) && PcOk(pc') && Stays(pc, pc', c)
    && (forall u: Tid | u != t :: Unmoved(x, y, u))
    && HoldsActivity(pc') == HoldsActivity(pc) && !pc'.Asleep? && !pc.Asleep?
    && (Owes(pc) ==> Owes(pc'))
    && (Owes(pc') || forall arm: Arm :: ArmReady(y, arm) ==> ArmReady(x, arm))
    && PassesOver(pc, pc', c, y)
  }

  predicate SameActivity(s: State, s': State) {
    && s'.activity == s.activity && s'.turns == s.turns
    && s'.selectorsAsleep == s.selectorsAsleep && s'.selectorsWoken == s.selectorsWoken
    && s'.selectorsTimedOut == s.selectorsTimedOut
  }

  lemma StaysOwned(s: State, t: Tid, pc': Pc, c: Cid)
    requires Base(s) && Stays(PcOf(s, t), pc', c)
    ensures forall d: Cid | Uses(pc', d) :: HasOwner(s, d, t)
    ensures forall d: Cid | Mentions(pc', d) :: d in s.chans
  {
    hide PcOk, ChanInv, ActivityLink;
    var pc := PcOf(s, t);
    forall d: Cid | Uses(pc', d)
      ensures HasOwner(s, d, t)
    {
      assert Uses(pc, d);
      assert Mentions(pc, d) && Link(pc, s.chans[d], d, t);
    }
    forall d: Cid | Mentions(pc', d)
      ensures d in s.chans
    {
      assert Mentions(pc, d);
    }
  }

  lemma ConformingStepCovered(s: State, s': State, t: Tid, pc': Pc, c: Cid, y: Chan)
    requires Inv(s) && MovesAt(s, s', t, pc', c, y) && SameActivity(s, s')
    requires Conforms(PcOf(s, t), pc', s.chans[c], y, c, t)
    ensures Covered(s')
  {
    hide Covered, ChanInv, Link, Unmoved, Stays, PcOk, ActivityLink, Owes, ArmReady;
    if !Owes(pc') { NothingReadier(s, s', c); }
    QuietStepCovered(s, s', t);
  }

  /** A conforming step keeps the invariant. */
  lemma ConformingStep(s: State, s': State, t: Tid, pc': Pc, c: Cid, y: Chan)
    requires Inv(s) && MovesAt(s, s', t, pc', c, y) && SameActivity(s, s')
    requires Conforms(PcOf(s, t), pc', s.chans[c], y, c, t)
    ensures Inv(s')
  {
    hide Covered, ChanInv, Link, Unmoved, Quiet, PcOk, Owes, ArmReady, Uses, Mentions, HoldsActivity, PassesOver;
    StaysOwned(s, t, pc', c);
    ActivityUntouched(s, s', t, pc');
    ChannelStepBase(s, s', t, pc', c, y);
    ConformingStepCovered(s, s', t, pc', c, y);
  }

  /** A step that touches no channel, from the thread alone. */
  ghost predicate Plain(pc: Pc, pc': Pc) {
    && PcOk(pc')
    && (forall d: Cid :: Quiet(pc, d) && Quiet(pc', d))
    && (forall d: Cid | Uses(pc', d) :: Uses(pc, d))
    && (forall d: Cid | Mentions(pc', d) :: Mentions(pc, d))
  }

  lemma PlainStep(s: State, s': State, t: Tid, pc': Pc)
    requires Inv(s) && s'.chans == s.chans && s'.pcs == s.pcs[t := pc'] && Plain(PcOf(s, t), pc')
    requires forall u: Tid :: ActivityLink(s', u)
    requires Covered(s')
    ensures Inv(s')
  {
    hide Covered, ChanInv, Link, Unmoved, Quiet, PcOk, Owes, ArmReady, Uses, Mentions, HoldsActivity, ActivityLink;
    StaysOwned(s, t, pc', 0);
    PlainStepBase(s, s', t, pc');
  }

  // ------------------------------------------------------------ every step

  lemma LockJobConforms(pc: Pc, x: Chan, c: Cid, t: Tid)
    requires ChanInv(x) && Link(pc, x, c, t) && PcOk(pc) && x.holder == None
    requires pc.Want? || (pc.Parked? && t in (if pc.job.Receive? then x.readersWoken else x.writersWoken))
    requires pc.c == c
    ensures Conforms(pc, In(c, pc.job, pc.Parked?), x, x.(holder := Some(t)), c, t)
  {
  }

  lemma LeaveConforms(pc: Pc, x: Chan, c: Cid, t: Tid)
    requires ChanInv(x) && Link(pc, x, c, t) && PcOk(pc) && pc.Leaving? && pc.c == c
    ensures Conforms(pc, AfterJob(c, pc.job, pc.result), x, x.(holder := None), c, t)
  {
  }

  lemma FreeConforms(pc: Pc, x: Chan, c: Cid, t: Tid)
    requires ChanInv(x) && Link(pc, x, c, t) && pc == Freeing(c)
    ensures Conforms(pc, Idle, x, x.(frees := x.frees + 1), c, t)
  {
  }

  lemma LockArmConforms(pc: Pc, x: Chan, c: Cid, t: Tid)
    requires ChanInv(x) && Link(pc, x, c, t) && PcOk(pc) && x.holder == None
    requires pc.Poll? && |pc.sel.refused| < |pc.sel.arms| && c == NextChan(pc.sel)
    ensures Conforms(pc, Trying(pc.sel), x, x.(holder := Some(t)), c, t)
  {
    hide ArmAt;
    NextArmIsAnArm(pc.sel);
  }

  lemma TriedConforms(pc: Pc, x: Chan, c: Cid, t: Tid)
    requires ChanInv(x) && Link(pc, x, c, t) && PcOk(pc) && pc.Tried? && c == pc.sel.arms[pc.arm].c
    ensures Conforms(pc, if pc.fired then Fired(pc.arm) else Poll(pc.sel), x, x.(holder := None), c, t)
  {
    hide ArmAt;
    NextArmIsAnArm(pc.sel);
  }

  lemma NextArmIsAnArm(sel: Sel)
    requires sel.arms != []
    ensures NextArm(sel) < |sel.arms|
  {
  }

  lemma SendConforms(pc: Pc, x: Chan, c: Cid, t: Tid, v: Value, pick: Tid)
    requires ChanInv(x) && pc.In? && pc.c == c && pc.job == Send(v) && Link(pc, x, c, t) && PicksReader(x, pick)
    ensures var b := JobBody(x, t, c, pc.job, pick); Conforms(pc, b.pc, x, b.x, c, t)
  {
    hide ChanInv;
    SendKeeps(x, t, c, v, pick);
    SendLinks(pc, x, t, c, v, pick);
    BodyUnmoved(pc, x, t, c, pick);
    SendStays(pc, x, c, t, v, pick);
  }

  lemma SendStays(pc: Pc, x: Chan, c: Cid, t: Tid, v: Value, pick: Tid)
    requires pc.In? && pc.c == c && pc.job == Send(v)
    ensures var b := JobBody(x, t, c, pc.job, pick);
            b.pc.c == c && Stays(pc, b.pc, c) && PcOk(b.pc) && (b.pc.Leaving? || b.pc.Parked?)
  {
  }

  lemma ReceiveConforms(pc: Pc, x: Chan, c: Cid, t: Tid, pick: Tid)
    requires ChanInv(x) && pc.In? && pc.c == c && pc.job == Receive && Link(pc, x, c, t) && PicksWriter(x, pick)
    ensures var b := JobBody(x, t, c, pc.job, pick); Conforms(pc, b.pc, x, b.x, c, t)
  {
    hide ChanInv;
    ReceiveKeeps(x, t, c, pick);
    ReceiveLinks(pc, x, t, c, pick);
    BodyUnmoved(pc, x, t, c, pick);
    ReceiveStays(pc, x, c, t, pick);
  }

  lemma ReceiveStays(pc: Pc, x: Chan, c: Cid, t: Tid, pick: Tid)
    requires pc.In? && pc.c == c && pc.job == Receive
    ensures var b := JobBody(x, t, c, pc.job, pick);
            (b.pc.Leaving? || b.pc.Parked?) && b.pc.c == c && Stays(pc, b.pc, c) && PcOk(b.pc)
  {
  }

  lemma ShutLinks(pc: Pc, x: Chan, c: Cid, t: Tid, pick: Tid)
    requires ChanInv(x) && pc.In? && pc.c == c && Link(pc, x, c, t) && PcOk(pc) && pc.job.Shut?
    ensures var b := JobBody(x, t, c, pc.job, pick);
            b.pc == Leaving(c, pc.job, true) && ChanInv(b.x) && Link(b.pc, b.x, c, t)
  {
  }

  lemma ShutConforms(pc: Pc, x: Chan, c: Cid, t: Tid, pick: Tid)
    requires ChanInv(x) && pc.In? && pc.c == c && Link(pc, x, c, t) && PcOk(pc) && pc.job.Shut?
    ensures var b := JobBody(x, t, c, pc.job, pick); Conforms(pc, b.pc, x, b.x, c, t)
  {
    hide Unmoved, JobBody, ChanInv, Link;
    BodyUnmoved(pc, x, t, c, pick);
    ShutLinks(pc, x, c, t, pick);
  }

  lemma RefConforms(pc: Pc, x: Chan, c: Cid, t: Tid, pick: Tid)
    requires ChanInv(x) && pc.In? && pc.c == c && Link(pc, x, c, t) && PcOk(pc) && pc.job.Ref?
    ensures var b := JobBody(x, t, c, pc.job, pick); Conforms(pc, b.pc, x, b.x, c, t)
  {
    hide Unmoved;
    assert t in x.owners;
    BodyUnmoved(pc, x, t, c, pick);
  }

  lemma DropConforms(pc: Pc, x: Chan, c: Cid, t: Tid, pick: Tid)
    requires ChanInv(x) && pc.In? && pc.c == c && Link(pc, x, c, t) && PcOk(pc) && pc.job.Drop?
    ensures var b := JobBody(x, t, c, pc.job, pick); Conforms(pc, b.pc, x, b.x, c, t)
  {
    hide Unmoved;
    assert t in x.owners && |x.owners - multiset{t}| == |x.owners| - 1;
    BodyUnmoved(pc, x, t, c, pick);
  }

  lemma BodyUnmoved(pc: Pc, x: Chan, t: Tid, c: Cid, pick: Tid)
    requires ChanInv(x) && pc.In? && pc.c == c && Link(pc, x, c, t)
    ensures forall u: Tid | u != t :: Unmoved(x, JobBody(x, t, c, pc.job, pick).x, u)
  {
    hide JobBody, Unmoved;
    assert t in x.owners;
    forall u: Tid | u != t
      ensures Unmoved(x, JobBody(x, t, c, pc.job, pick).x, u)
    {
      JobBodyUnmoved(x, t, c, pc.job, pick, u);
    }
  }

  lemma BodyConforms(pc: Pc, x: Chan, c: Cid, t: Tid, pick: Tid)
    requires ChanInv(x) && pc.In? && pc.c == c && Link(pc, x, c, t) && PcOk(pc)
    requires PicksInJob(x, pc.job, pick)
    ensures var b := JobBody(x, t, c, pc.job, pick); Conforms(pc, b.pc, x, b.x, c, t)
  {
    hide JobBody, Conforms, ChanInv, Link;
    if pc.job.Send? {
      SendConforms(pc, x, c, t, pc.job.v, pick);
    } else if pc.job.Receive? {
      ReceiveConforms(pc, x, c, t, pick);
    } else if pc.job.Shut? {
      ShutConforms(pc, x, c, t, pick);
    } else if pc.job.Ref? {
      RefConforms(pc, x, c, t, pick);
    } else {
      DropConforms(pc, x, c, t, pick);
    }
  }

  lemma SendLinks(pc: Pc, x: Chan, t: Tid, c: Cid, v: Value, pick: Tid)
    requires ChanInv(x) && pc.In? && pc.c == c && pc.job == Send(v) && Link(pc, x, c, t)
    requires PicksReader(x, pick)
    ensures var b := JobBody(x, t, c, pc.job, pick);
            && Link(b.pc, b.x, c, t)
            && (Owes(b.pc) || forall arm: Arm :: ArmReady(b.x, arm) ==> ArmReady(x, arm))
  {
  }

  lemma ReceiveLinks(pc: Pc, x: Chan, t: Tid, c: Cid, pick: Tid)
    requires ChanInv(x) && pc.In? && pc.c == c && pc.job == Receive && Link(pc, x, c, t)
    requires PicksWriter(x, pick)
    ensures var b := JobBody(x, t, c, pc.job, pick);
            && Link(b.pc, b.x, c, t)
            && (Owes(b.pc) || forall arm: Arm :: ArmReady(b.x, arm) ==> ArmReady(x, arm))
  {
  }

  lemma TryConforms(pc: Pc, x: Chan, c: Cid, t: Tid, pick: Tid)
    requires ChanInv(x) && pc.Trying? && PcOk(pc) && c == NextChan(pc.sel) && Link(pc, x, c, t)
    requires PicksInTry(x, pc.sel.arms[NextArm(pc.sel)], pick)
    ensures var b := TryBody(x, pc.sel, pick); Conforms(pc, b.pc, x, b.x, c, t)
  {
    hide ChanInv, Link, Unmoved, TryBody;
    TryBodyKeeps(x, pc.sel, pick);
    var b := TryBody(x, pc.sel, pick);
    TryAnswers(pc.sel, x, pick);
    forall u: Tid | u != t
      ensures Unmoved(x, b.x, u)
    {
      TryBodyUnmoved(x, pc.sel, pick, u);
    }
    TryBodyUnmoved(x, pc.sel, pick, t);
    UnmovedLinks(pc, x, b.x, c, t);
    TriedLinks(pc, b.pc, b.x, c, t);
    RefusedGrows(pc.sel);
  }

  /** What a try can answer. */
  lemma TryAnswers(sel: Sel, x: Chan, pick: Tid)
    requires sel.arms != []
    ensures var b, i := TryBody(x, sel, pick), NextArm(sel);
            || b.pc == Tried(sel, i, true)
            || (b.pc == Tried(sel.(refused := sel.refused + [i]), i, false) && b.x == x && !ArmReady(x, sel.arms[i]))
  {
  }

  lemma TriedLinks(pc: Pc, pc': Pc, y: Chan, c: Cid, t: Tid)
    requires pc.Trying? && pc'.Tried? && PcOk(pc) && c == NextChan(pc.sel) && Link(pc, y, c, t)
    requires pc'.sel.arms == pc.sel.arms && pc'.arm == NextArm(pc.sel)
    ensures Link(pc', y, c, t)
  {
    hide ArmAt;
    NextArmIsAnArm(pc.sel);
  }

  lemma RefusedGrows(sel: Sel)
    requires SelOk(sel) && |sel.refused| < |sel.arms|
    ensures SelOk(sel.(refused := sel.refused + [NextArm(sel)]))
  {
  }

  lemma LockJobKeeps(s: State, t: Tid, pick: Tid)
    requires Inv(s) && (PcOf(s, t).Want? || PcOf(s, t).Parked?) && CanGo(s, t, pick)
    ensures Inv(GoOn(s, t, pick))
  {
    hide Conforms, Covered, ChanInv;
    var pc := PcOf(s, t);
    var c := pc.c;
    assert Link(pc, s.chans[c], c, t) && PcOk(pc);
    LockJobConforms(pc, s.chans[c], c, t);
    ConformingStep(s, GoOn(s, t, pick), t, In(c, pc.job, pc.Parked?), c, s.chans[c].(holder := Some(t)));
  }

  lemma BodyKeeps(s: State, t: Tid, pick: Tid)
    requires Inv(s) && PcOf(s, t).In? && CanGo(s, t, pick)
    ensures Inv(GoOn(s, t, pick))
  {
    hide Conforms, Covered, ChanInv, JobBody;
    var pc := PcOf(s, t);
    var c := pc.c;
    assert Link(pc, s.chans[c], c, t) && PcOk(pc);
    BodyConforms(pc, s.chans[c], c, t, pick);
    var b := JobBody(s.chans[c], t, c, pc.job, pick);
    ConformingStep(s, GoOn(s, t, pick), t, b.pc, c, b.x);
  }

  lemma LeaveKeeps(s: State, t: Tid, pick: Tid)
    requires Inv(s) && PcOf(s, t).Leaving? && CanGo(s, t, pick)
    ensures Inv(GoOn(s, t, pick))
  {
    hide Conforms, Covered, ChanInv;
    var pc := PcOf(s, t);
    var c := pc.c;
    assert Link(pc, s.chans[c], c, t) && PcOk(pc);
    LeaveConforms(pc, s.chans[c], c, t);
    ConformingStep(s, GoOn(s, t, pick), t, AfterJob(c, pc.job, pc.result), c, s.chans[c].(holder := None));
  }

  lemma FreeKeeps(s: State, t: Tid, pick: Tid)
    requires Inv(s) && PcOf(s, t).Freeing? && CanGo(s, t, pick)
    ensures Inv(GoOn(s, t, pick))
  {
    hide Conforms, Covered, ChanInv;
    var c := PcOf(s, t).c;
    assert Link(PcOf(s, t), s.chans[c], c, t);
    FreeConforms(PcOf(s, t), s.chans[c], c, t);
    ConformingStep(s, GoOn(s, t, pick), t, Idle, c, s.chans[c].(frees := s.chans[c].frees + 1));
  }

  lemma LockArmKeeps(s: State, t: Tid, pick: Tid)
    requires Inv(s) && PcOf(s, t).Poll? && |PcOf(s, t).sel.refused| < |PcOf(s, t).sel.arms| && CanGo(s, t, pick)
    ensures Inv(GoOn(s, t, pick))
  {
    hide Conforms, Covered, ChanInv, ArmAt;
    var pc := PcOf(s, t);
    var c := NextChan(pc.sel);
    assert PcOk(pc) && Link(pc, s.chans[c], c, t);
    LockArmConforms(pc, s.chans[c], c, t);
    ConformingStep(s, GoOn(s, t, pick), t, Trying(pc.sel), c, s.chans[c].(holder := Some(t)));
  }

  lemma TryKeeps(s: State, t: Tid, pick: Tid)
    requires Inv(s) && PcOf(s, t).Trying? && CanGo(s, t, pick)
    ensures Inv(GoOn(s, t, pick))
  {
    hide Conforms, Covered, ChanInv, TryBody, ArmAt;
    var pc := PcOf(s, t);
    var c := NextChan(pc.sel);
    assert PcOk(pc) && Link(pc, s.chans[c], c, t);
    TryConforms(pc, s.chans[c], c, t, pick);
    var b := TryBody(s.chans[c], pc.sel, pick);
    ConformingStep(s, GoOn(s, t, pick), t, b.pc, c, b.x);
  }

  lemma TriedKeeps(s: State, t: Tid, pick: Tid)
    requires Inv(s) && PcOf(s, t).Tried? && CanGo(s, t, pick)
    ensures Inv(GoOn(s, t, pick))
  {
    hide Conforms, Covered, ChanInv, ArmAt;
    var pc := PcOf(s, t);
    var c := pc.sel.arms[pc.arm].c;
    assert PcOk(pc) && Link(pc, s.chans[c], c, t);
    TriedConforms(pc, s.chans[c], c, t);
    ConformingStep(s, GoOn(s, t, pick), t, if pc.fired then Fired(pc.arm) else Poll(pc.sel), c, s.chans[c].(holder := None));
  }

  // The steps of pas_activity_signal and of a select that touch no channel.

  lemma SignalPlain(pc: Pc)
    ensures pc.SigWant? ==> Plain(pc, SigIn(pc.rest))
    ensures pc.SigIn? ==> Plain(pc, SigOut(pc.rest))
    ensures pc.SigOut? ==> Plain(pc, AfterSignal(pc.rest))
    ensures pc.Fired? ==> Plain(pc, FiredOut(pc.arm))
    ensures pc.FiredOut? || pc.GaveUp? ==> Plain(pc, Idle)
  {
  }

  lemma SelectPlain(pc: Pc, turn: nat)
    requires PcOk(pc) && turn < WORD
    ensures pc.SelWant? ==> Plain(pc, Poll(Sel(pc.arms, pc.bounded, turn, [])))
    ensures pc.Asleep? ==> Plain(pc, Poll(Sel(pc.sel.arms, pc.sel.bounded, turn, []))) && Plain(pc, GaveUp(pc.sel))
    ensures pc.Poll? && |pc.sel.refused| >= |pc.sel.arms| ==> Plain(pc, Asleep(pc.sel))
  {
    hide ArmAt;
  }

  lemma ActivityLinksAfter(s: State, s': State, t: Tid, pc': Pc)
    requires (forall u: Tid :: ActivityLink(s, u)) && s'.pcs == s.pcs[t := pc']
    requires (s'.activity == s.activity && HoldsActivity(pc') == HoldsActivity(PcOf(s, t)))
          || (s.activity == None && s'.activity == Some(t) && HoldsActivity(pc'))
          || (s.activity == Some(t) && s'.activity == None && !HoldsActivity(pc'))
    requires forall u: Tid | u != t :: TurnOf(s', u) == TurnOf(s, u)
    requires TurnOf(s', t) < WORD
    requires forall u: Tid | u != t ::
               u in s'.selectorsAsleep + s'.selectorsWoken + s'.selectorsTimedOut
               <==> u in s.selectorsAsleep + s.selectorsWoken + s.selectorsTimedOut
    requires t in s'.selectorsAsleep + s'.selectorsWoken + s'.selectorsTimedOut <==> pc'.Asleep?
    requires forall u: Tid :: !(u in s'.selectorsAsleep && u in s'.selectorsWoken + s'.selectorsTimedOut)
    ensures forall u: Tid :: ActivityLink(s', u)
  {
    hide HoldsActivity;
    forall u: Tid
      ensures ActivityLink(s', u)
    {
      assert ActivityLink(s, u);
      assert u != t ==> PcOf(s', u) == PcOf(s, u);
    }
  }

  /** A plain step that announces nothing, seen from Covered. */
  lemma PlainStepCovered(s: State, s': State, t: Tid, pc': Pc)
    requires Inv(s) && s'.chans == s.chans && s'.pcs == s.pcs[t := pc']
    requires forall u: Tid | u != t && u in s'.selectorsAsleep :: u in s.selectorsAsleep
    requires Owes(PcOf(s, t)) ==> Owes(pc')
    requires InRound(pc') ==> pc'.sel.refused == []
    requires pc'.Asleep? && t in s'.selectorsAsleep ==> PcOf(s, t).Poll? && PcOf(s, t).sel == pc'.sel
    ensures Covered(s')
  {
    hide Covered, ChanInv, Link, Owes, PcOk, ActivityLink, ArmReady;
    QuietStepCovered(s, s', t);
  }

  lemma SignalKeeps(s: State, t: Tid, pick: Tid)
    requires Inv(s) && CanGo(s, t, pick)
    requires var pc := PcOf(s, t); pc.SigWant? || pc.SigIn? || pc.SigOut? || pc.Fired? || pc.FiredOut? || pc.GaveUp?
    ensures Inv(GoOn(s, t, pick))
  {
    hide Covered, ChanInv, Link, Plain, Mentions, PcOk, Ready;
    var pc := PcOf(s, t);
    var s' := GoOn(s, t, pick);
    var pc' := PcOf(s', t);
    assert ActivityLink(s, t);
    forall u: Tid
      ensures !(u in s'.selectorsAsleep && u in s'.selectorsWoken + s'.selectorsTimedOut)
    {
      assert ActivityLink(s, u);
    }
    SignalPlain(pc);
    ActivityLinksAfter(s, s', t, pc');
    if pc.SigIn? || pc.Fired? {
      BroadcastCovered(s, s', t);
    } else {
      PlainStepCovered(s, s', t, pc');
    }
    PlainStep(s, s', t, pc');
  }

  lemma SelectorsApart(s: State, s': State, t: Tid)
    requires forall u: Tid :: ActivityLink(s, u)
    requires s'.selectorsAsleep <= s.selectorsAsleep || (s'.selectorsAsleep == s.selectorsAsleep + {t} && !PcOf(s, t).Asleep?)
    requires s'.selectorsWoken <= s.selectorsWoken && s'.selectorsTimedOut <= s.selectorsTimedOut
    ensures forall u: Tid :: !(u in s'.selectorsAsleep && u in s'.selectorsWoken + s'.selectorsTimedOut)
  {
    forall u: Tid
      ensures !(u in s'.selectorsAsleep && u in s'.selectorsWoken + s'.selectorsTimedOut)
    {
      assert ActivityLink(s, u);
    }
  }

  /** Acquiring activity for the first round. */
  lemma StartKeeps(s: State, t: Tid, pick: Tid)
    requires Inv(s) && CanGo(s, t, pick) && PcOf(s, t).SelWant?
    ensures Inv(GoOn(s, t, pick))
  {
    hide Covered, ChanInv, Link, Plain, Mentions, Ready, SelOk;
    var pc := PcOf(s, t);
    var s' := GoOn(s, t, pick);
    var pc' := PcOf(s', t);
    assert ActivityLink(s, t) && PcOk(pc);
    SelectorsApart(s, s', t);
    SelectPlain(pc, TurnOf(s, t));
    ActivityLinksAfter(s, s', t, pc');
    PlainStepCovered(s, s', t, pc');
    PlainStep(s, s', t, pc');
  }

  lemma ResumePlain(s: State, s': State, t: Tid, pc': Pc)
    requires Inv(s) && PcOf(s, t).Asleep? && s'.chans == s.chans && s'.pcs == s.pcs[t := pc']
    requires s.activity == None && s'.activity == Some(t) && HoldsActivity(pc') && !pc'.Asleep?
    requires t in s.selectorsWoken + s.selectorsTimedOut
    requires s'.selectorsAsleep == s.selectorsAsleep
    requires s'.selectorsWoken == s.selectorsWoken - {t} && s'.selectorsTimedOut == s.selectorsTimedOut - {t}
    requires TurnOf(s', t) < WORD && forall u: Tid | u != t :: TurnOf(s', u) == TurnOf(s, u)
    requires Plain(PcOf(s, t), pc') && (InRound(pc') ==> pc'.sel.refused == [])
    ensures Inv(s')
  {
    hide Covered, ChanInv, Link, Plain, Mentions, Ready, SelOk, PcOk, HoldsActivity;
    assert ActivityLink(s, t);
    SelectorsApart(s, s', t);
    ActivityLinksAfter(s, s', t, pc');
    PlainStepCovered(s, s', t, pc');
    PlainStep(s, s', t, pc');
  }

  /** Acquiring activity again after a wait, for another round or to give up. */
  lemma ResumeKeeps(s: State, t: Tid, pick: Tid)
    requires Inv(s) && CanGo(s, t, pick) && PcOf(s, t).Asleep?
    ensures Inv(GoOn(s, t, pick))
  {
    hide Covered, ChanInv, Link, Plain, Mentions, SelOk;
    var pc := PcOf(s, t);
    var s' := GoOn(s, t, pick);
    assert ActivityLink(s, t) && PcOk(pc);
    SelectPlain(pc, TurnOf(s, t));
    ResumePlain(s, s', t, PcOf(s', t));
  }

  /** Waiting after a round in which no arm proceeded. */
  lemma ParkKeeps(s: State, t: Tid, pick: Tid)
    requires Inv(s) && CanGo(s, t, pick) && PcOf(s, t).Poll? && |PcOf(s, t).sel.refused| >= |PcOf(s, t).sel.arms|
    ensures Inv(GoOn(s, t, pick))
  {
    hide Covered, ChanInv, Link, Plain, Mentions, Ready, SelOk;
    var pc := PcOf(s, t);
    var s' := GoOn(s, t, pick);
    var pc' := PcOf(s', t);
    assert ActivityLink(s, t) && PcOk(pc);
    SelectorsApart(s, s', t);
    SelectPlain(pc, TurnOf(s, t));
    ActivityLinksAfter(s, s', t, pc');
    PlainStepCovered(s, s', t, pc');
    PlainStep(s, s', t, pc');
  }

  lemma GoKeeps(s: State, t: Tid, pick: Tid)
    requires Inv(s) && CanGo(s, t, pick)
    ensures Inv(GoOn(s, t, pick))
  {
    hide Inv, GoOn;
    match PcOf(s, t)
    case Idle =>
    case Want(_, _) => LockJobKeeps(s, t, pick);
    case Parked(_, _) => LockJobKeeps(s, t, pick);
    case In(_, _, _) => BodyKeeps(s, t, pick);
    case Leaving(_, _, _) => LeaveKeeps(s, t, pick);
    case Freeing(_) => FreeKeeps(s, t, pick);
    case SigWant(_) => SignalKeeps(s, t, pick);
    case SigIn(_) => SignalKeeps(s, t, pick);
    case SigOut(_) => SignalKeeps(s, t, pick);
    case SelWant(_, _) => StartKeeps(s, t, pick);
    case Poll(sel) =>
      if |sel.refused| < |sel.arms| { LockArmKeeps(s, t, pick); } else { ParkKeeps(s, t, pick); }
    case Trying(_) => TryKeeps(s, t, pick);
    case Tried(_, _, _) => TriedKeeps(s, t, pick);
    case Fired(_) => SignalKeeps(s, t, pick);
    case FiredOut(_) => SignalKeeps(s, t, pick);
    case Asleep(_) => ResumeKeeps(s, t, pick);
    case GaveUp(_) => SignalKeeps(s, t, pick);
  }
}
