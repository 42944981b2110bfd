/** Channels and select (runtime/pasrt_task.c) as a protocol of many threads. Every mutex
    acquisition, critical section, condition wait, wakeup and release is one step of one thread,
    and the steps of different threads interleave in any way at all. */
module ChannelProtocol {

  datatype Option<T> = None | Some(value: T)

  type Tid = nat
  type Cid = nat
  type Value = int

  // ---------------------------------------------------------------- a channel

  /** `struct pas_chan` with its mutex and its two condition variables. A thread parked on a
      condition is among the sleepers until it is woken, and among the woken until it has looked
      at the channel again. `sent`, `received`, `owners` and `freer` record what has happened. */
  datatype Chan = Chan(
    cap: nat,
    queue: seq<Value>,
    closed: bool,
    refs: int,
    frees: nat,
    holder: Option<Tid>,
    readersAsleep: set<Tid>,
    readersWoken: set<Tid>,
    writersAsleep: set<Tid>,
    writersWoken: set<Tid>,
    sent: seq<Value>,
    received: seq<Value>,
    owners: multiset<Tid>,
    freer: Option<Tid>)

  /** `pas_chan_new`. */
  function NewChan(cap: nat, owner: Tid): Chan {
    Chan(cap, [], false, 1, 0, None, {}, {}, {}, {}, [], [], multiset{owner}, None)
  }

  /** `pthread_cond_signal(&c->notempty)`: one sleeper, if there is one, is woken. */
  function SignalReader(x: Chan, pick: Tid): Chan {
    if pick in x.readersAsleep then
      x.(readersAsleep := x.readersAsleep - {pick}, readersWoken := x.readersWoken + {pick})
    else x
  }

  function SignalWriter(x: Chan, pick: Tid): Chan {
    if pick in x.writersAsleep then
      x.(writersAsleep := x.writersAsleep - {pick}, writersWoken := x.writersWoken + {pick})
    else x
  }

  /** The value into the ring and the signal after it. */
  function Put(x: Chan, v: Value, pick: Tid): Chan {
    SignalReader(x.(queue := x.queue + [v], sent := x.sent + [v]), pick)
  }

  /** The value out of the ring and the signal after it. */
  function Take(x: Chan, pick: Tid): Chan
    requires x.queue != []
  {
    SignalWriter(x.(queue := x.queue[1..], received := x.received + [x.queue[0]]), pick)
  }

  /** A signal picks a sleeper whenever there is one. */
  predicate PicksReader(x: Chan, pick: Tid) { x.readersAsleep != {} ==> pick in x.readersAsleep }

  predicate PicksWriter(x: Chan, pick: Tid) { x.writersAsleep != {} ==> pick in x.writersAsleep }

  /** `closed = 1` and the two broadcasts. */
  function CloseIt(x: Chan): Chan {
    x.(closed := true,
       readersWoken := x.readersWoken + x.readersAsleep, readersAsleep := {},
       writersWoken := x.writersWoken + x.writersAsleep, writersAsleep := {})
  }

  // ----------------------------------------------------------------- a thread

  datatype Arm = ReceiveArm(c: Cid) | SendArm(c: Cid, v: Value)

  /** What a thread does under one channel's mutex. `Shut(true)` is `pas_chan_close`,
      `Shut(false)` is `pas_chan_shut`, `Drop` is `pas_chan_drop`. */
  datatype Job = Send(v: Value) | Receive | Shut(drop: bool) | Ref(heir: Tid) | Drop

  datatype Then = Done | ThenDrop(c: Cid)

  /** One `pas_select`: `turn` is its start in this round, `refused` the arms this round has
      tried and found unable to proceed. */
  datatype Sel = Sel(arms: seq<Arm>, bounded: bool, turn: nat, refused: seq<nat>)

  datatype Pc =
    | Idle
    | Want(c: Cid, job: Job)                    // about to lock c->m
    | In(c: Cid, job: Job, woke: bool)          // c->m held, the channel not looked at yet
    | Parked(c: Cid, job: Job)                  // in pthread_cond_wait on a condition of c
    | Leaving(c: Cid, job: Job, result: bool)   // c->m held, about to unlock it
    | Freeing(c: Cid)                           // the last reference gone, free next
    | SigWant(rest: Then)                       // pas_activity_signal: about to lock
    | SigIn(rest: Then)                         // activity held, about to broadcast
    | SigOut(rest: Then)                        // activity held, about to unlock
    | SelWant(arms: seq<Arm>, bounded: bool)    // about to lock activity
    | Poll(sel: Sel)                            // activity held, about to try the next arm or to wait
    | Trying(sel: Sel)                          // and the arm's c->m held, the arm not tried yet
    | Tried(sel: Sel, arm: nat, fired: bool)    // and that arm tried, about to unlock c->m
    | Fired(arm: nat)                           // activity held, about to broadcast
    | FiredOut(arm: nat)                        // activity held, about to unlock and answer the arm
    | Asleep(sel: Sel)                          // in pthread_cond_wait on the activity condition
    | GaveUp(sel: Sel)                          // activity held, about to unlock and answer n

  datatype State = State(
    chans: map<Cid, Chan>,
    pcs: map<Tid, Pc>,
    turns: map<Tid, nat>,          // pas_select_turn, one for each thread
    activity: Option<Tid>,         // who holds pas_activity
    selectorsAsleep: set<Tid>,
    selectorsWoken: set<Tid>,
    selectorsTimedOut: set<Tid>,
    halted: bool)                  // pas_runtime_error has stopped the program

  function PcOf(s: State, t: Tid): Pc { if t in s.pcs then s.pcs[t] else Idle }

  function TurnOf(s: State, t: Tid): nat { if t in s.turns then s.turns[t] else 0 }

  const WORD := 0x1_0000_0000

  /** The k-th arm a round looks at: `(turn + (unsigned)k) % (unsigned)n`, in 32 bits. */
  function ArmAt(turn: nat, k: nat, n: nat): nat
    requires n > 0
  {
    (turn + k) % WORD % n
  }

  /** The arm a selector looks at next. */
  function NextArm(sel: Sel): nat
    requires sel.arms != []
  {
    ArmAt(sel.turn, |sel.refused|, |sel.arms|)
  }

  function NextChan(sel: Sel): Cid
    requires sel.arms != []
  {
    sel.arms[NextArm(sel)].c
  }

  predicate HasOwner(s: State, c: Cid, t: Tid) { c in s.chans && t in s.chans[c].owners }

  // ------------------------------------------------------------------- a step

  datatype Act =
    | Create(c: Cid, cap: nat)
    | Begin(c: Cid, job: Job)
    | Select(arms: seq<Arm>, bounded: bool)
    | Go(pick: Tid)       // the thread's next step; a signal in it wakes `pick`
    | Spurious            // a wait returns for no reason
    | Timeout             // a timed wait reaches its deadline

  /** Sending signals a reader, receiving a writer. */
  predicate PicksInJob(x: Chan, job: Job, pick: Tid) {
    (job.Send? ==> PicksReader(x, pick)) && (job.Receive? ==> PicksWriter(x, pick))
  }

  predicate PicksInTry(x: Chan, arm: Arm, pick: Tid) {
    if arm.ReceiveArm? then PicksWriter(x, pick) else PicksReader(x, pick)
  }

  /** The thread's mutex is free, or it needs none for its next step. */
  predicate CanGo(s: State, t: Tid, pick: Tid) {
    match PcOf(s, t)
    case Idle => false
    case Want(c, _) => c in s.chans && s.chans[c].holder == None
    case In(c, job, _) => c in s.chans && PicksInJob(s.chans[c], job, pick)
    case Parked(c, job) =>
      c in s.chans && s.chans[c].holder == None
      && t in (if job.Receive? then s.chans[c].readersWoken else s.chans[c].writersWoken)
    case Leaving(c, _, _) => c in s.chans
    case Freeing(c) => c in s.chans
    case SigWant(_) => s.activity == None
    case SigIn(_) => true
    case SigOut(_) => true
    case SelWant(_, _) => s.activity == None
    case Poll(sel) =>
      sel.arms != [] && (|sel.refused| < |sel.arms| ==> NextChan(sel) in s.chans && s.chans[NextChan(sel)].holder == None)
    case Trying(sel) =>
      sel.arms != [] && NextChan(sel) in s.chans
      && PicksInTry(s.chans[NextChan(sel)], sel.arms[NextArm(sel)], pick)
    case Tried(sel, arm, _) => arm < |sel.arms| && sel.arms[arm].c in s.chans
    case Fired(_) => true
    case FiredOut(_) => true
    case Asleep(_) => s.activity == None && t in s.selectorsWoken + s.selectorsTimedOut
    case GaveUp(_) => true
  }

  predicate Enabled(s: State, t: Tid, a: Act) {
    !s.halted &&
    match a
    case Create(c, cap) => PcOf(s, t) == Idle && c !in s.chans && cap > 0
    case Begin(c, _) => PcOf(s, t) == Idle && HasOwner(s, c, t)
    case Select(arms, _) =>
      PcOf(s, t) == Idle && 0 < |arms| < WORD / 2 && forall i | 0 <= i < |arms| :: HasOwner(s, arms[i].c, t)
    case Go(pick) => CanGo(s, t, pick)
    case Spurious => PcOf(s, t).Parked? || PcOf(s, t).Asleep?
    case Timeout => PcOf(s, t).Asleep? && PcOf(s, t).sel.bounded && t in s.selectorsAsleep
  }

  function At(s: State, t: Tid, pc: Pc): State { s.(pcs := s.pcs[t := pc]) }

  function With(s: State, c: Cid, x: Chan): State { s.(chans := s.chans[c := x]) }

  /** The critical section of one job: what becomes of the channel, and of the thread. */
  datatype Body = Body(x: Chan, pc: Pc, trap: bool)

  function JobBody(x: Chan, t: Tid, c: Cid, job: Job, pick: Tid): Body {
    var y := Looked(x, t, job);
    match job
    case Send(v) =>
      if x.closed then Body(y, Leaving(c, job, false), true)
      else if |x.queue| == x.cap then
        Body(y.(holder := None, writersAsleep := y.writersAsleep + {t}), Parked(c, job), false)
      else Body(Put(y, v, pick), Leaving(c, job, true), false)
    case Receive =>
      if x.queue != [] then Body(Take(y, pick), Leaving(c, job, true), false)
      else if x.closed then Body(y, Leaving(c, job, false), false)
      else Body(y.(holder := None, readersAsleep := y.readersAsleep + {t}), Parked(c, job), false)
    case Shut(_) => Body(CloseIt(y), Leaving(c, job, true), false)
    case Ref(heir) => Body(y.(refs := y.refs + 1, owners := y.owners + multiset{heir}), Leaving(c, job, true), false)
    case Drop =>
      var z := y.(refs := y.refs - 1, owners := y.owners - multiset{t});
      Body(if z.refs == 0 then z.(freer := Some(t)) else z, Leaving(c, job, z.refs == 0), false)
  }

  /** The thread has looked at the channel since it was woken. */
  function Looked(x: Chan, t: Tid, job: Job): Chan {
    if job.Receive? then x.(readersWoken := x.readersWoken - {t})
    else if job.Send? then x.(writersWoken := x.writersWoken - {t})
    else x
  }

  predicate ArmReady(x: Chan, arm: Arm) {
    x.closed || if arm.ReceiveArm? then x.queue != [] else |x.queue| < x.cap
  }

  /** `pas_select_try`, inside the channel's mutex. */
  function TryBody(x: Chan, sel: Sel, pick: Tid): Body
    requires sel.arms != []
  {
    var arm := sel.arms[NextArm(sel)];
    var fired := Tried(sel, NextArm(sel), true);
    var refused := Tried(sel.(refused := sel.refused + [NextArm(sel)]), NextArm(sel), false);
    if arm.ReceiveArm? then
      if x.queue != [] then Body(Take(x, pick), fired, false)
      else if x.closed then Body(x, fired, false)
      else Body(x, refused, false)
    else if x.closed then Body(x, fired, true)
    else if |x.queue| < x.cap then Body(Put(x, arm.v, pick), fired, false)
    else Body(x, refused, false)
  }

  /** Where a thread goes when it has released the mutex of its job. */
  function AfterJob(c: Cid, job: Job, result: bool): Pc {
    match job
    case Send(_) => SigWant(Done)
    case Receive => if result then SigWant(Done) else Idle
    case Shut(drop) => SigWant(if drop then ThenDrop(c) else Done)
    case Ref(_) => Idle
    case Drop => if result then Freeing(c) else Idle
  }

  function AfterSignal(rest: Then): Pc {
    match rest
    case Done => Idle
    case ThenDrop(c) => Want(c, Drop)
  }

  /** A round begins with activity just acquired. */
  function BeginRound(s: State, t: Tid, arms: seq<Arm>, bounded: bool): State {
    var turn := TurnOf(s, t);
    At(s.(activity := Some(t), turns := s.turns[t := (turn + 1) % WORD]), t, Poll(Sel(arms, bounded, turn, [])))
  }

  function BroadcastActivity(s: State): State {
    s.(selectorsWoken := s.selectorsWoken + s.selectorsAsleep, selectorsAsleep := {})
  }

  function GoOn(s: State, t: Tid, pick: Tid): State
    requires CanGo(s, t, pick)
  {
    match PcOf(s, t)
    case Want(c, job) => With(At(s, t, In(c, job, false)), c, s.chans[c].(holder := Some(t)))
    case Parked(c, job) => With(At(s, t, In(c, job, true)), c, s.chans[c].(holder := Some(t)))
    case In(c, job, _) =>
      var b := JobBody(s.chans[c], t, c, job, pick);
      With(At(s, t, b.pc), c, b.x).(halted := b.trap)
    case Leaving(c, job, result) => With(At(s, t, AfterJob(c, job, result)), c, s.chans[c].(holder := None))
    case Freeing(c) => With(At(s, t, Idle), c, s.chans[c].(frees := s.chans[c].frees + 1))
    case SigWant(rest) => At(s.(activity := Some(t)), t, SigIn(rest))
    case SigIn(rest) => At(BroadcastActivity(s), t, SigOut(rest))
    case SigOut(rest) => At(s.(activity := None), t, AfterSignal(rest))
    case SelWant(arms, bounded) => BeginRound(s, t, arms, bounded)
    case Poll(sel) =>
      if |sel.refused| < |sel.arms| then
        var c := NextChan(sel);
        With(At(s, t, Trying(sel)), c, s.chans[c].(holder := Some(t)))
      else At(s.(activity := None, selectorsAsleep := s.selectorsAsleep + {t}), t, Asleep(sel))
    case Trying(sel) =>
      var c := NextChan(sel);
      var b := TryBody(s.chans[c], sel, pick);
      With(At(s, t, b.pc), c, b.x).(halted := b.trap)
    case Tried(sel, arm, fired) =>
      var c := sel.arms[arm].c;
      With(At(s, t, if fired then Fired(arm) else Poll(sel)), c, s.chans[c].(holder := None))
    case Fired(arm) => At(BroadcastActivity(s), t, FiredOut(arm))
    case FiredOut(_) => At(s.(activity := None), t, Idle)
    case Asleep(sel) =>
      var r := s.(selectorsWoken := s.selectorsWoken - {t}, selectorsTimedOut := s.selectorsTimedOut - {t});
      if t in s.selectorsTimedOut then At(r.(activity := Some(t)), t, GaveUp(sel))
      else BeginRound(r, t, sel.arms, sel.bounded)
    case GaveUp(_) => At(s.(activity := None), t, Idle)
  }

  function Do(s: State, t: Tid, a: Act): State
    requires Enabled(s, t, a)
  {
    match a
    case Create(c, cap) => With(s, c, NewChan(cap, t))
    case Begin(c, job) => At(s, t, Want(c, job))
    case Select(arms, bounded) => At(s, t, SelWant(arms, bounded))
    case Go(pick) => GoOn(s, t, pick)
    case Spurious =>
      var pc := PcOf(s, t);
      if pc.Asleep? then
        if t in s.selectorsAsleep then
          s.(selectorsAsleep := s.selectorsAsleep - {t}, selectorsWoken := s.selectorsWoken + {t})
        else s
      else if pc.c in s.chans then With(s, pc.c, SignalWriter(SignalReader(s.chans[pc.c], t), t))
      else s
    case Timeout =>
      s.(selectorsAsleep := s.selectorsAsleep - {t}, selectorsTimedOut := s.selectorsTimedOut + {t})
  }

  predicate Init(s: State) {
    s == State(map[], map[], map[], None, {}, {}, {}, false)
  }

  ghost predicate Next(s: State, s': State) {
    exists t: Tid, a: Act :: Enabled(s, t, a) && s' == Do(s, t, a)
  }

  /** A run of the protocol from the beginning of the program. */
  ghost predicate Run(run: seq<State>) {
    run != [] && Init(run[0]) && forall i | 0 < i < |run| :: Next(run[i - 1], run[i])
  }
}
