/** What the calls on one channel promise their callers (runtime/pasrt_task.c): creating, sending,
    receiving, closing, lending and dropping, told from the call to the return over every run. */
module ChannelCalls {
  import opened ChannelProtocol
  import opened ChannelInvariant
  import opened ChannelTheorems
  import SR = SelectRounds

  // ----------------------------------------------------------------- effects

  /** Nothing has been sent, received, closed, lent or dropped. */
  predicate Same(x: Chan, y: Chan) {
    && y.cap == x.cap && y.queue == x.queue && y.sent == x.sent && y.received == x.received && y.closed == x.closed
    && y.refs == x.refs && y.owners == x.owners
  }

  predicate NothingDone(s: State, s': State) {
    forall c | c in s.chans :: c in s'.chans && Same(s.chans[c], s'.chans[c])
  }

  /** What a job does to its channel, and nothing else. */
  predicate Does(x: Chan, y: Chan, t: Tid, job: Job) {
    match job
    case Send(v) =>
      && !x.closed && |x.queue| < x.cap
      && Same(x, y.(queue := x.queue, sent := x.sent)) && y.queue == x.queue + [v] && y.sent == x.sent + [v]
    case Receive =>
      if x.queue != [] then
        && Same(x, y.(queue := x.queue, received := x.received))
        && y.queue == x.queue[1..] && y.received == x.received + [x.queue[0]]
      else x.closed && Same(x, y)
    case Shut(_) =>
      && Same(x, y.(closed := x.closed)) && y.closed && y.readersAsleep == {} && y.writersAsleep == {}
    case Ref(heir) =>
      Same(x, y.(refs := x.refs, owners := x.owners)) && y.refs == x.refs + 1 && y.owners == x.owners + multiset{heir}
    case Drop =>
      && t in x.owners
      && Same(x, y.(refs := x.refs, owners := x.owners)) && y.refs == x.refs - 1 && y.owners == x.owners - multiset{t}
  }

  /** One step does the job on c, and nothing on any other channel. */
  predicate DoesAt(s: State, s': State, t: Tid, c: Cid, job: Job) {
    && c in s.chans && c in s'.chans && Does(s.chans[c], s'.chans[c], t, job)
    && forall d | d in s.chans && d != c :: d in s'.chans && s'.chans[d] == s.chans[d]
  }

  // ------------------------------------------------------ places of one call

  /** Before the job is done; `Drop` after a close stands for a job of its own. */
  predicate Before(pc: Pc, c: Cid, job: Job) {
    match pc
    case Want(d, j) => d == c && j == job
    case In(d, j, _) => d == c && j == job
    case Parked(d, j) => d == c && j == job
    case _ => false
  }

  function RestOf(c: Cid, job: Job): Then { if job == Shut(true) then ThenDrop(c) else Done }

  /** After it. */
  predicate Past(pc: Pc, c: Cid, job: Job) {
    match pc
    case Leaving(d, j, result) => d == c && j == job
    case SigWant(rest) => rest == RestOf(c, job) && (job.Send? || job.Shut? || job.Receive?)
    case SigIn(rest) => rest == RestOf(c, job) && (job.Send? || job.Shut? || job.Receive?)
    case SigOut(rest) => rest == RestOf(c, job) && (job.Send? || job.Shut? || job.Receive?)
    case Freeing(d) => d == c && job.Drop?
    case _ => false
  }

  /** A step of the thread from a place of the job's. */
  predicate Moves(s: State, s': State, t: Tid, c: Cid, job: Job) {
    var pc, pc' := PcOf(s, t), PcOf(s', t);
    if Before(pc, c, job) then
      || (s'.halted && Past(pc', c, job))
      || (Before(pc', c, job) && NothingDone(s, s'))
      || (pc'.Leaving? && Past(pc', c, job) && DoesAt(s, s', t, c, job)
          && (job.Drop? ==> (pc'.result <==> s'.chans[c].refs == 0))
          && (job.Receive? ==> (pc'.result <==> s.chans[c].queue != [])))
    else
      && NothingDone(s, s') && !s'.halted && !pc'.Leaving?
      && (Past(pc', c, job) || (job == Shut(true) && pc' == Want(c, Drop)) || (pc' == Idle && job != Shut(true)))
      && (job.Drop? ==>
            && (pc'.Freeing? ==> pc == Leaving(c, Drop, true))
            && (pc' == Idle ==>
                  || pc == Leaving(c, Drop, false)
                  || (pc.Freeing? && c in s.chans && c in s'.chans && s'.chans[c].frees == s.chans[c].frees + 1)))
      && (job.Receive? ==>
            && (pc' == Idle ==> pc == Leaving(c, Receive, false) || pc.SigOut?)
            && (pc'.SigWant? ==> pc == Leaving(c, Receive, true)) && (pc.Leaving? && pc.result ==> pc'.SigWant?)
            && (pc.Leaving? && !pc.result ==> pc' == Idle))
  }

  lemma LockSame(s: State, s': State, c: Cid, y: Chan)
    requires c in s.chans && s'.chans == s.chans[c := y] && Same(s.chans[c], y)
    ensures NothingDone(s, s')
  {
  }

  lemma AllSame(s: State, s': State)
    requires s'.chans == s.chans
    ensures NothingDone(s, s')
  {
  }

  predicate Answers(x: Chan, t: Tid, c: Cid, job: Job, b: Body) {
    if b.trap then
      b.pc == Leaving(c, job, false) && job.Send? && x.closed
    else
      || (b.pc == Parked(c, job) && Same(x, b.x))
      || (b.pc.Leaving? && b.pc.c == c && b.pc.job == job && Does(x, b.x, t, job)
          && (job.Drop? ==> (b.pc.result <==> b.x.refs == 0))
          && (job.Receive? ==> (b.pc.result <==> x.queue != [])))
  }

  lemma SendDoes(x: Chan, t: Tid, c: Cid, v: Value, pick: Tid)
    requires |x.queue| <= x.cap
    ensures Answers(x, t, c, Send(v), JobBody(x, t, c, Send(v), pick))
  {
  }

  lemma ReceiveDoes(x: Chan, t: Tid, c: Cid, pick: Tid)
    ensures Answers(x, t, c, Receive, JobBody(x, t, c, Receive, pick))
  {
  }

  lemma OtherDoes(x: Chan, t: Tid, c: Cid, job: Job, pick: Tid)
    requires !job.Send? && !job.Receive? && (job.Drop? ==> t in x.owners)
    ensures Answers(x, t, c, job, JobBody(x, t, c, job, pick))
  {
  }

  lemma BodyDoes(x: Chan, t: Tid, c: Cid, job: Job, pick: Tid)
    requires ChanInv(x) && (job.Drop? ==> t in x.owners)
    ensures Answers(x, t, c, job, JobBody(x, t, c, job, pick))
  {
    hide JobBody, Answers;
    match job
    case Send(v) => SendDoes(x, t, c, v, pick);
    case Receive => ReceiveDoes(x, t, c, pick);
    case _ => OtherDoes(x, t, c, job, pick);
  }

  lemma InMoves(s: State, t: Tid, c: Cid, job: Job, pick: Tid)
    requires Inv(s) && Enabled(s, t, Go(pick)) && PcOf(s, t).In? && Before(PcOf(s, t), c, job)
    ensures Moves(s, GoOn(s, t, pick), t, c, job)
  {
    hide ChanInv, Covered, Mentions, JobBody, ActivityLink, Does, Same;
    var pc := PcOf(s, t);
    assert Link(pc, s.chans[c], c, t);
    BodyDoes(s.chans[c], t, c, job, pick);
    var b := JobBody(s.chans[c], t, c, job, pick);
    var s' := GoOn(s, t, pick);
    assert PcOf(s', t) == b.pc && s'.halted == b.trap && s'.chans == s.chans[c := b.x];
    if b.pc == Parked(c, job) && !b.trap {
      LockSame(s, s', c, b.x);
    } else if !b.trap {
      assert DoesAt(s, s', t, c, job);
    }
  }

  lemma RestMoves(s: State, t: Tid, c: Cid, job: Job, pick: Tid)
    requires Enabled(s, t, Go(pick)) && !PcOf(s, t).In? && (Before(PcOf(s, t), c, job) || Past(PcOf(s, t), c, job))
    requires PcOf(s, t).Parked? ==> job.Send? || job.Receive?
    ensures Moves(s, GoOn(s, t, pick), t, c, job)
  {
    hide NothingDone, PicksInJob;
    var pc := PcOf(s, t);
    var s' := GoOn(s, t, pick);
    if pc.Want? || pc.Parked? || pc.Leaving? || pc.Freeing? {
      LockSame(s, s', c, s'.chans[c]);
    } else {
      AllSame(s, s');
    }
  }

  lemma OnlyGoMoves(s: State, t: Tid, c: Cid, job: Job, a: Act)
    requires Inv(s) && Enabled(s, t, a) && (Before(PcOf(s, t), c, job) || Past(PcOf(s, t), c, job))
    ensures PcOf(Do(s, t, a), t) == PcOf(s, t) || Moves(s, Do(s, t, a), t, c, job)
  {
    hide Inv, GoOn, CanGo, Moves;
    if a.Go? {
      if PcOf(s, t).In? {
        InMoves(s, t, c, job, a.pick);
      } else {
        ParkedOk(s, t);
        RestMoves(s, t, c, job, a.pick);
      }
    }
  }

  lemma ParkedOk(s: State, t: Tid)
    requires Inv(s)
    ensures PcOf(s, t).Parked? ==> PcOf(s, t).job.Send? || PcOf(s, t).job.Receive?
  {
    hide ChanInv, Link, Mentions, ActivityLink, Covered;
    assert PcOk(PcOf(s, t));
  }

  // ------------------------------------------------------------ from the call

  predicate Moved(run: seq<State>, m: nat, t: Tid)
    requires m + 1 < |run|
  {
    PcOf(run[m + 1], t) != PcOf(run[m], t)
  }

  predicate Silent(run: seq<State>, m: nat, t: Tid)
    requires m + 1 < |run|
  {
    Moved(run, m, t) ==> NothingDone(run[m], run[m + 1])
  }

  /** Of the thread's own steps between b and i only the one at j, if any, does anything. */
  ghost predicate OnlyAt(run: seq<State>, b: nat, i: nat, t: Tid, j: int) {
    i < |run| && forall m: nat | b <= m < i && m != j :: Silent(run, m, t)
  }

  /** Between b and i the thread has done the job at j, and nothing else at all. */
  ghost predicate DoneAt(run: seq<State>, b: nat, i: nat, t: Tid, c: Cid, job: Job, j: nat) {
    b <= j < i < |run| && DoesAt(run[j], run[j + 1], t, c, job) && OnlyAt(run, b, i, t, j)
  }

  ghost predicate DoneIn(run: seq<State>, b: nat, i: nat, t: Tid, c: Cid, job: Job) {
    exists j: nat :: DoneAt(run, b, i, t, c, job, j)
  }

  ghost predicate DoneOnce(run: seq<State>, b: nat, i: nat, t: Tid, c: Cid, job: Job, pc: Pc) {
    exists j: nat :: DoneAt(run, b, i, t, c, job, j) && Told(run, j, c, job, pc)
  }

  /** What the place after the job says of it. */
  predicate Told(run: seq<State>, j: nat, c: Cid, job: Job, pc: Pc)
    requires j + 1 < |run|
  {
    && c in run[j].chans && c in run[j + 1].chans
    && (job.Drop? && pc.Leaving? ==> (pc.result <==> run[j + 1].chans[c].refs == 0))
    && (job.Drop? && pc.Freeing? ==> run[j + 1].chans[c].refs == 0)
    && (job.Receive? && pc.Leaving? ==> (pc.result <==> run[j].chans[c].queue != []))
    && (job.Receive? && (pc.SigWant? || pc.SigIn? || pc.SigOut?) ==> run[j].chans[c].queue != [])
  }

  /** From b on, where the thread was about to do the job. */
  ghost predicate Trail(run: seq<State>, b: nat, i: nat, t: Tid, c: Cid, job: Job)
    requires b <= i < |run|
  {
    var pc := PcOf(run[i], t);
    || run[i].halted
    || (Before(pc, c, job) && OnlyAt(run, b, i, t, -1))
    || (Past(pc, c, job) && DoneOnce(run, b, i, t, c, job, pc))
  }

  /** The thread begins the job in b and is at it up to i. */
  ghost predicate AtWork(run: seq<State>, b: nat, i: nat, t: Tid, c: Cid, job: Job) {
    && b <= i < |run| && PcOf(run[b], t) == Want(c, job)
    && forall m | b <= m <= i :: Before(PcOf(run[m], t), c, job) || Past(PcOf(run[m], t), c, job)
  }

  lemma OnlyAtGrows(run: seq<State>, b: nat, i: nat, t: Tid, j: int)
    requires 0 < i < |run| && OnlyAt(run, b, i - 1, t, j)
    requires b <= i - 1 && i - 1 != j ==> Silent(run, i - 1, t)
    ensures OnlyAt(run, b, i, t, j)
  {
    hide Silent;
  }

  lemma DoneStays(run: seq<State>, b: nat, i: nat, t: Tid, c: Cid, job: Job, pc: Pc, pc': Pc)
    requires 0 < i < |run| && DoneOnce(run, b, i - 1, t, c, job, pc) && Silent(run, i - 1, t)
    requires forall j: nat | j + 1 < |run| && Told(run, j, c, job, pc) :: Told(run, j, c, job, pc')
    ensures DoneOnce(run, b, i, t, c, job, pc')
  {
    hide Silent, OnlyAt, DoesAt, Told;
    var j: nat :| DoneAt(run, b, i - 1, t, c, job, j) && Told(run, j, c, job, pc);
    OnlyAtGrows(run, b, i, t, j);
    assert DoneAt(run, b, i, t, c, job, j);
  }

  // ------------------------------------------------------------- the trail

  lemma TrailStays(run: seq<State>, b: nat, i: nat, t: Tid, c: Cid, job: Job)
    requires b <= i - 1 < i < |run| && Trail(run, b, i - 1, t, c, job) && !run[i - 1].halted
    requires PcOf(run[i], t) == PcOf(run[i - 1], t)
    ensures Trail(run, b, i, t, c, job)
  {
    hide NothingDone, OnlyAt, DoneOnce, Told;
    var pc := PcOf(run[i], t);
    if Before(pc, c, job) {
      OnlyAtGrows(run, b, i, t, -1);
    } else {
      DoneStays(run, b, i, t, c, job, pc, pc);
    }
  }

  lemma TrailMoves(run: seq<State>, b: nat, i: nat, t: Tid, c: Cid, job: Job)
    requires b <= i - 1 < i < |run| && Trail(run, b, i - 1, t, c, job) && !run[i - 1].halted
    requires Moves(run[i - 1], run[i], t, c, job)
    requires Before(PcOf(run[i], t), c, job) || Past(PcOf(run[i], t), c, job)
    ensures Trail(run, b, i, t, c, job)
  {
    hide NothingDone, OnlyAt, DoesAt, DoneOnce;
    var pc, pc' := PcOf(run[i - 1], t), PcOf(run[i], t);
    if Before(pc, c, job) {
      if !run[i].halted {
        if Before(pc', c, job) {
          OnlyAtGrows(run, b, i, t, -1);
        } else {
          DoesNow(run, b, i, t, c, job);
        }
      }
    } else {
      DoneStays(run, b, i, t, c, job, pc, pc');
    }
  }

  lemma DoesNow(run: seq<State>, b: nat, i: nat, t: Tid, c: Cid, job: Job)
    requires b <= i - 1 < i < |run| && OnlyAt(run, b, i - 1, t, -1) && !run[i].halted
    requires Moves(run[i - 1], run[i], t, c, job)
    requires Before(PcOf(run[i - 1], t), c, job) && Past(PcOf(run[i], t), c, job)
    ensures DoneOnce(run, b, i, t, c, job, PcOf(run[i], t))
  {
    hide NothingDone, Does, Silent;
    OnlyAtSkips(run, b, i, t);
    assert DoneAt(run, b, i, t, c, job, i - 1);
  }

  lemma OnlyAtSkips(run: seq<State>, b: nat, i: nat, t: Tid)
    requires 0 < i < |run| && OnlyAt(run, b, i - 1, t, -1)
    ensures OnlyAt(run, b, i, t, i - 1)
  {
    hide Silent;
  }

  lemma StepOf(run: seq<State>, i: nat) returns (u: Tid, a: Act)
    requires Run(run) && 0 < i < |run|
    ensures Inv(run[i - 1]) && Enabled(run[i - 1], u, a) && run[i] == Do(run[i - 1], u, a) && !run[i - 1].halted
  {
    hide Inv;
    RunKeeps(run, i - 1);
    assert Next(run[i - 1], run[i]);
    u, a :| Enabled(run[i - 1], u, a) && run[i] == Do(run[i - 1], u, a);
  }

  /** The step from i - 1 leaves the thread where it is, or is one of its own. */
  lemma StayOrMove(run: seq<State>, i: nat, t: Tid, c: Cid, job: Job)
    requires Run(run) && 0 < i < |run| && (Before(PcOf(run[i - 1], t), c, job) || Past(PcOf(run[i - 1], t), c, job))
    ensures !run[i - 1].halted
    ensures PcOf(run[i], t) == PcOf(run[i - 1], t) || Moves(run[i - 1], run[i], t, c, job)
  {
    hide Inv, Enabled, Do, Moves;
    var u, a := StepOf(run, i);
    if u == t { OnlyGoMoves(run[i - 1], t, c, job, a); } else { SR.OthersStay(run[i - 1], u, a, t); }
  }

  lemma {:induction false} TrailAlways(run: seq<State>, b: nat, i: nat, t: Tid, c: Cid, job: Job)
    requires Run(run) && AtWork(run, b, i, t, c, job)
    ensures Trail(run, b, i, t, c, job)
  {
    hide Moves, Trail, Run;
    if i == b {
      TrailBegins(run, b, t, c, job);
    } else {
      TrailAlways(run, b, i - 1, t, c, job);
      StayOrMove(run, i, t, c, job);
      if PcOf(run[i], t) == PcOf(run[i - 1], t) {
        TrailStays(run, b, i, t, c, job);
      } else {
        TrailMoves(run, b, i, t, c, job);
      }
    }
  }

  lemma TrailBegins(run: seq<State>, b: nat, t: Tid, c: Cid, job: Job)
    requires b < |run| && PcOf(run[b], t) == Want(c, job)
    ensures Trail(run, b, b, t, c, job)
  {
  }

  /** The job is over at i: the thread has been at it up to i - 1 and moves on. */
  ghost predicate Over(run: seq<State>, b: nat, i: nat, t: Tid, c: Cid, job: Job) {
    0 < i < |run| && AtWork(run, b, i - 1, t, c, job) && !Before(PcOf(run[i], t), c, job) && !Past(PcOf(run[i], t), c, job)
  }

  /** Whoever has come to the end of a job has done it, in one step, and has done nothing else. */
  lemma JobDone(run: seq<State>, b: nat, i: nat, t: Tid, c: Cid, job: Job) returns (j: nat)
    requires Run(run) && Over(run, b, i, t, c, job)
    ensures DoneAt(run, b, i, t, c, job, j)
    ensures PcOf(run[i], t) == if job == Shut(true) then Want(c, Drop) else Idle
    ensures Told(run, j, c, job, PcOf(run[i - 1], t))
    ensures Moves(run[i - 1], run[i], t, c, job) && Past(PcOf(run[i - 1], t), c, job)
  {
    hide Run, AtWork, Trail, Moves, DoesAt, OnlyAt, Told, Before, Past;
    OverWithin(run, b, i, t, c, job);
    TrailAlways(run, b, i - 1, t, c, job);
    AtWorkThen(run, b, i - 1, t, c, job);
    StayOrMove(run, i, t, c, job);
    LastPlace(run, b, i, t, c, job);
    var pc := PcOf(run[i - 1], t);
    TrailPast(run, b, i - 1, t, c, job);
    DoneStays(run, b, i, t, c, job, pc, pc);
    j :| DoneAt(run, b, i, t, c, job, j) && Told(run, j, c, job, pc);
  }

  lemma OverWithin(run: seq<State>, b: nat, i: nat, t: Tid, c: Cid, job: Job)
    requires Over(run, b, i, t, c, job)
    ensures b <= i - 1 < i < |run| && AtWork(run, b, i - 1, t, c, job)
  {
  }

  lemma AtWorkThen(run: seq<State>, b: nat, i: nat, t: Tid, c: Cid, job: Job)
    requires AtWork(run, b, i, t, c, job)
    ensures Before(PcOf(run[i], t), c, job) || Past(PcOf(run[i], t), c, job)
  {
  }

  /** Only a job that has been done comes to its end. */
  lemma LastPlace(run: seq<State>, b: nat, i: nat, t: Tid, c: Cid, job: Job)
    requires Over(run, b, i, t, c, job)
    requires PcOf(run[i], t) == PcOf(run[i - 1], t) || Moves(run[i - 1], run[i], t, c, job)
    ensures Moves(run[i - 1], run[i], t, c, job) && Past(PcOf(run[i - 1], t), c, job) && Silent(run, i - 1, t)
    ensures PcOf(run[i], t) == if job == Shut(true) then Want(c, Drop) else Idle
  {
    hide NothingDone, DoesAt;
    assert Before(PcOf(run[i - 1], t), c, job) || Past(PcOf(run[i - 1], t), c, job);
  }

  lemma TrailPast(run: seq<State>, b: nat, i: nat, t: Tid, c: Cid, job: Job)
    requires b <= i < |run| && Trail(run, b, i, t, c, job) && !run[i].halted && Past(PcOf(run[i], t), c, job)
    ensures DoneOnce(run, b, i, t, c, job, PcOf(run[i], t))
  {
    hide DoneOnce, OnlyAt;
  }

  // ---------------------------------------------------------------- theorems

  /** The thread calls with this job in b and is idle again, for the first time, in i. */
  ghost predicate Returns(run: seq<State>, b: nat, i: nat, t: Tid, c: Cid, job: Job) {
    && b < i < |run| && Enabled(run[b], t, Begin(c, job)) && run[b + 1] == Do(run[b], t, Begin(c, job))
    && PcOf(run[i], t) == Idle && forall m | b < m < i :: PcOf(run[m], t) != Idle
  }

  /** As long as it has not come to the end of the job it is at it. */
  lemma {:induction false} AtWorkUntil(run: seq<State>, b: nat, i: nat, t: Tid, c: Cid, job: Job)
    requires Run(run) && b <= i < |run| && PcOf(run[b], t) == Want(c, job)
    requires forall m | b <= m <= i :: PcOf(run[m], t) != Idle && (job == Shut(true) ==> PcOf(run[m], t) != Want(c, Drop))
    ensures AtWork(run, b, i, t, c, job)
  {
    hide Moves, Run, NothingDone, DoesAt;
    if i > b {
      AtWorkUntil(run, b, i - 1, t, c, job);
      StayOrMove(run, i, t, c, job);
      if PcOf(run[i], t) != PcOf(run[i - 1], t) { MovesWhere(run, i, t, c, job); }
    }
  }

  lemma MovesWhere(run: seq<State>, i: nat, t: Tid, c: Cid, job: Job)
    requires 0 < i < |run| && Moves(run[i - 1], run[i], t, c, job)
    requires Before(PcOf(run[i - 1], t), c, job) || Past(PcOf(run[i - 1], t), c, job)
    ensures var pc' := PcOf(run[i], t);
            || Before(pc', c, job) || Past(pc', c, job)
            || (if job == Shut(true) then pc' == Want(c, Drop) else pc' == Idle)
  {
  }

  /** The call takes the thread to the job, so it has not returned at once. */
  lemma CallBegins(run: seq<State>, b: nat, i: nat, t: Tid, c: Cid, job: Job)
    requires Returns(run, b, i, t, c, job)
    ensures b + 1 < i && PcOf(run[b + 1], t) == Want(c, job)
  {
  }

  /** A call with a job that is not a close with its drop: by the return the job has been done, in one
      step, and the thread has done nothing else to any channel. */
  lemma CallDone(run: seq<State>, b: nat, i: nat, t: Tid, c: Cid, job: Job) returns (j: nat)
    requires Run(run) && Returns(run, b, i, t, c, job) && job != Shut(true)
    ensures DoneAt(run, b + 1, i, t, c, job, j) && Told(run, j, c, job, PcOf(run[i - 1], t))
    ensures Moves(run[i - 1], run[i], t, c, job) && Past(PcOf(run[i - 1], t), c, job)
  {
    hide Moves, DoneAt, Told, Run;
    CallBegins(run, b, i, t, c, job);
    AtWorkUntil(run, b + 1, i - 1, t, c, job);
    j := JobDone(run, b + 1, i, t, c, job);
  }

  /** `send` returns when its value, and nothing else, has gone to the end of the queue of a channel
      that was open and had room. */
  lemma SendReturns(run: seq<State>, b: nat, i: nat, t: Tid, c: Cid, v: Value)
    requires Run(run) && Returns(run, b, i, t, c, Send(v))
    ensures DoneIn(run, b + 1, i, t, c, Send(v))
  {
    hide DoneAt;
    var j := CallDone(run, b, i, t, c, Send(v));
  }

  /** `receive` returns a value when it has taken the first of the queue, and "no more" when it has
      found the channel closed and drained; which of the two is told by the place it returns from. */
  lemma ReceiveReturns(run: seq<State>, b: nat, i: nat, t: Tid, c: Cid)
    requires Run(run) && Returns(run, b, i, t, c, Receive)
    ensures exists j: nat ::
              && DoneAt(run, b + 1, i, t, c, Receive, j)
              && if run[j].chans[c].queue != [] then PcOf(run[i - 1], t).SigOut? else PcOf(run[i - 1], t) == Leaving(c, Receive, false)
  {
    hide DoesAt, OnlyAt, NothingDone;
    var j := CallDone(run, b, i, t, c, Receive);
    assert DoneAt(run, b + 1, i, t, c, Receive, j);
  }

  /** `Ref` counts one reference more, its heir's. */
  lemma RefReturns(run: seq<State>, b: nat, i: nat, t: Tid, c: Cid, heir: Tid)
    requires Run(run) && Returns(run, b, i, t, c, Ref(heir))
    ensures DoneIn(run, b + 1, i, t, c, Ref(heir))
  {
    hide DoneAt;
    var j := CallDone(run, b, i, t, c, Ref(heir));
  }

  /** A dropped reference is gone, and the channel is freed by the time the call returns if it was
      the last. */
  ghost predicate Dropped(run: seq<State>, b: nat, i: nat, t: Tid, c: Cid) {
    exists j: nat :: DoneAt(run, b, i, t, c, Drop, j) && c in run[j + 1].chans && c in run[i].chans
                     && (run[j + 1].chans[c].refs == 0 ==> run[i].chans[c].frees == 1)
  }

  lemma DropReturns(run: seq<State>, b: nat, i: nat, t: Tid, c: Cid)
    requires Run(run) && Over(run, b, i, t, c, Drop)
    ensures Dropped(run, b, i, t, c)
  {
    hide DoesAt, OnlyAt, NothingDone, Inv;
    var j := JobDone(run, b, i, t, c, Drop);
    var pc := PcOf(run[i - 1], t);
    assert c in run[j + 1].chans by { assert Told(run, j, c, Drop, pc); }
    RunEvolves(run, j + 1, i, c);
    if run[j + 1].chans[c].refs == 0 { FreedOnce(run, i, c); }
  }

  lemma UnrefReturns(run: seq<State>, b: nat, i: nat, t: Tid, c: Cid)
    requires Run(run) && Returns(run, b, i, t, c, Drop)
    ensures Dropped(run, b + 1, i, t, c)
  {
    hide Moves, Run, Dropped;
    CallBegins(run, b, i, t, c, Drop);
    AtWorkUntil(run, b + 1, i - 1, t, c, Drop);
    DropReturns(run, b + 1, i, t, c);
  }

  /** After a close the channel is closed, and so it stays; nobody sleeps on it when it is. */
  lemma ShutReturns(run: seq<State>, b: nat, i: nat, t: Tid, c: Cid)
    requires Run(run) && Returns(run, b, i, t, c, Shut(false))
    ensures DoneIn(run, b + 1, i, t, c, Shut(false))
    ensures forall m | i <= m < |run| :: c in run[m].chans && run[m].chans[c].closed
  {
    hide OnlyAt, NothingDone, Run;
    var j := CallDone(run, b, i, t, c, Shut(false));
    assert DoneAt(run, b + 1, i, t, c, Shut(false), j);
    forall m | i <= m < |run|
      ensures c in run[m].chans && run[m].chans[c].closed
    {
      RunEvolves(run, j + 1, m, c);
    }
  }

  /** The first state after b in which the thread wants to drop its reference, if there is one. */
  lemma {:induction false} FirstDrop(run: seq<State>, b: nat, i: nat, t: Tid, c: Cid) returns (d: nat)
    requires b <= i <= |run|
    ensures b <= d <= i && (d < i ==> PcOf(run[d], t) == Want(c, Drop))
    ensures forall m | b <= m < d :: PcOf(run[m], t) != Want(c, Drop)
    decreases i - b
  {
    if b == i || PcOf(run[b], t) == Want(c, Drop) { d := b; } else { d := FirstDrop(run, b + 1, i, t, c); }
  }

  /** A close with its drop closes the channel, for ever, announces it, and only then drops the one
      reference, freeing the channel if it was the last. */
  ghost predicate ClosedThenDropped(run: seq<State>, b: nat, i: nat, t: Tid, c: Cid) {
    exists d: nat :: b < d < i && DoneIn(run, b, d, t, c, Shut(true)) && Dropped(run, d, i, t, c)
  }

  lemma CloseReturns(run: seq<State>, b: nat, i: nat, t: Tid, c: Cid)
    requires Run(run) && Returns(run, b, i, t, c, Shut(true))
    ensures ClosedThenDropped(run, b + 1, i, t, c)
    ensures forall m | i <= m < |run| :: c in run[m].chans && run[m].chans[c].closed
  {
    hide Moves, Run, DoneAt, Dropped, Does, AtWork;
    CallBegins(run, b, i, t, c, Shut(true));
    var d := FirstDrop(run, b + 1, i, t, c);
    AtWorkUntil(run, b + 1, d - 1, t, c, Shut(true));
    NoShortReturn(run, b + 1, d, t, c);
    ShutOver(run, b + 1, d, t, c);
    var j := JobDone(run, b + 1, d, t, c, Shut(true));
    assert DoneIn(run, b + 1, d, t, c, Shut(true));
    AtWorkUntil(run, d, i - 1, t, c, Drop);
    assert Over(run, d, i, t, c, Drop);
    DropReturns(run, d, i, t, c);
    forall m | i <= m < |run|
      ensures c in run[m].chans && run[m].chans[c].closed
    {
      ClosedFrom(run, b + 1, d, t, c, Shut(true), j, m);
    }
  }

  lemma ShutOver(run: seq<State>, b: nat, d: nat, t: Tid, c: Cid)
    requires b < d < |run| && AtWork(run, b, d - 1, t, c, Shut(true)) && PcOf(run[d], t) == Want(c, Drop)
    ensures Over(run, b, d, t, c, Shut(true))
  {
  }

  lemma ClosedFrom(run: seq<State>, b: nat, i: nat, t: Tid, c: Cid, job: Job, j: nat, m: nat)
    requires Run(run) && DoneAt(run, b, i, t, c, job, j) && job.Shut? && i <= m < |run|
    ensures c in run[m].chans && run[m].chans[c].closed
  {
    hide OnlyAt, Run;
    RunEvolves(run, j + 1, m, c);
  }

  /** A close does not return without its drop. */
  lemma NoShortReturn(run: seq<State>, b: nat, i: nat, t: Tid, c: Cid)
    requires Run(run) && 0 < i < |run| && AtWork(run, b, i - 1, t, c, Shut(true))
    ensures PcOf(run[i], t) != Idle
  {
    hide Moves, Run;
    AtWorkThen(run, b, i - 1, t, c, Shut(true));
    StayOrMove(run, i, t, c, Shut(true));
    if PcOf(run[i], t) != PcOf(run[i - 1], t) { MovesWhere(run, i, t, c, Shut(true)); }
  }

  // ------------------------------------------------- creating and stopping

  /** A new channel is open and empty, has the capacity asked for, then and ever after, and its one
      reference is its maker's. */
  lemma CreateMakes(run: seq<State>, b: nat, i: nat, t: Tid, c: Cid, cap: nat)
    requires Run(run) && b + 1 < |run| && Enabled(run[b], t, Create(c, cap)) && run[b + 1] == Do(run[b], t, Create(c, cap))
    requires b < i < |run|
    ensures c in run[i].chans && run[i].chans[c].cap == cap
    ensures var x := run[b + 1].chans[c];
            !x.closed && x.queue == [] && x.sent == x.received == [] && x.refs == 1 && x.owners == multiset{t}
  {
    hide Inv;
    RunEvolves(run, b + 1, i, c);
  }

  /** The thread is about to put a value into a closed channel. */
  predicate SendsToClosed(s: State, t: Tid) {
    match PcOf(s, t)
    case In(c, job, _) => job.Send? && c in s.chans && s.chans[c].closed
    case Trying(sel) =>
      sel.arms != [] && NextArm(sel) < |sel.arms| && sel.arms[NextArm(sel)].SendArm?
      && NextChan(sel) in s.chans && s.chans[NextChan(sel)].closed
    case _ => false
  }

  /** The program is stopped by sending to a closed channel, in a statement of its own or in a select,
      and by nothing else a channel does. */
  lemma StopsExactly(run: seq<State>, i: nat)
    requires Run(run) && 0 < i < |run|
    ensures run[i].halted <==> exists t: Tid :: SendsToClosed(run[i - 1], t) && PcOf(run[i], t) != PcOf(run[i - 1], t)
  {
    hide Inv, Enabled, Do, SendsToClosed;
    var u, a := StepOf(run, i);
    StopsIf(run[i - 1], u, a);
    forall t: Tid | t != u
      ensures PcOf(run[i], t) == PcOf(run[i - 1], t)
    {
      SR.OthersStay(run[i - 1], u, a, t);
    }
  }

  lemma StopsIf(s: State, u: Tid, a: Act)
    requires Inv(s) && Enabled(s, u, a)
    ensures Do(s, u, a).halted <==> SendsToClosed(s, u) && PcOf(Do(s, u, a), u) != PcOf(s, u)
  {
    hide ChanInv, Link, Covered, ActivityLink, ArmAt, Mentions, PicksReader, PicksWriter;
    var pc := PcOf(s, u);
    assert PcOk(pc);
    if a.Go? && pc.In? {
      BodyStops(s.chans[pc.c], u, pc.c, pc.job, a.pick);
    } else if a.Go? && pc.Trying? {
      NextArmIsAnArm(pc.sel);
      TryStops(s.chans[NextChan(pc.sel)], pc.sel, a.pick);
    }
  }

  lemma BodyStops(x: Chan, t: Tid, c: Cid, job: Job, pick: Tid)
    ensures var b := JobBody(x, t, c, job, pick); !b.pc.In? && (b.trap <==> job.Send? && x.closed)
  {
  }

  lemma TryStops(x: Chan, sel: Sel, pick: Tid)
    requires sel.arms != [] && NextArm(sel) < |sel.arms|
    ensures var b := TryBody(x, sel, pick); !b.pc.Trying? && (b.trap <==> sel.arms[NextArm(sel)].SendArm? && x.closed)
  {
    hide ArmAt;
  }
}
