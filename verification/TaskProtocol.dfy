/** Tasks (`struct pas_task` of runtime/pasrt_task.c): spawning, `wait`, the block's own join and
    the counted references, as steps of many threads that interleave in any way. */
module TaskProtocol {
  import CP = ChannelProtocol

  type Tid = CP.Tid
  type Option<T> = CP.Option<T>

  /** The activation and its record. `joins` and `frees` count what has been done, `claimer` says
      who took the join, `others` are task-variables' references by the thread holding them. */
  datatype Task = Task(
    home: Tid,            // the thread whose block spawned it
    finished: bool,       // the thread has run its body to the end
    claimed: bool,
    done: bool,
    refs: int,
    holder: Option<Tid>,
    asleep: set<Tid>,     // in pthread_cond_wait on donec
    woken: set<Tid>,
    joins: nat,
    frees: nat,
    claimer: Option<Tid>,
    setRef: bool,         // the block's set still counts it
    others: multiset<Tid>,
    freer: Option<Tid>)

  type Kid = nat

  datatype Pc =
    | Free
    | JoinWant(k: Kid, own: bool)       // pas_task_join: about to lock; `own` for the block's join
    | JoinIn(k: Kid, own: bool)         // t->m held, `claimed` not looked at
    | Joining(k: Kid, own: bool)        // claimed, t->m released, in pthread_join
    | JoinedWant(k: Kid, own: bool)     // joined, about to lock again
    | JoinedIn(k: Kid, own: bool)       // t->m held, about to set `done` and broadcast
    | Waiting(k: Kid, own: bool)        // in pthread_cond_wait on donec
    | Looking(k: Kid, own: bool)        // t->m held, `done` to be looked at (again)
    | JoinOut(k: Kid, own: bool)        // t->m held, about to unlock and return
    | DropWant(k: Kid, own: bool)       // pas_task_drop_ref: about to lock
    | DropIn(k: Kid, own: bool)
    | DropOut(k: Kid, last: bool)
    | Freeing(k: Kid)

  datatype State = State(tasks: map<Kid, Task>, pcs: map<Tid, Pc>)

  function PcAt(s: State, t: Tid): Pc { if t in s.pcs then s.pcs[t] else Free }

  datatype Act =
    | Spawn(k: Kid, named: bool)
    | Finish(k: Kid)                 // the activation ends
    | Wait(k: Kid)                   // `wait(v)`
    | Release(k: Kid)                // a task-variable's closer
    | Give(k: Kid, heir: Tid)        // a task-variable moves into another spawned activation
    | BlockJoin(k: Kid)              // pas_tasks_join reaches this task
    | Go
    | Spurious

  predicate CanGo(s: State, t: Tid) {
    var pc := PcAt(s, t);
    !pc.Free? && pc.k in s.tasks &&
    var x := s.tasks[pc.k];
    match pc
    case Free => false
    case JoinWant(_, _) => x.holder == CP.None
    case Joining(_, _) => x.finished
    case JoinedWant(_, _) => x.holder == CP.None
    case Waiting(_, _) => x.holder == CP.None && t in x.woken
    case DropWant(_, _) => x.holder == CP.None
    case _ => true
  }

  predicate Enabled(s: State, t: Tid, a: Act) {
    match a
    case Spawn(k, _) => PcAt(s, t).Free? && k !in s.tasks
    case Finish(k) => k in s.tasks
    case Wait(k) => PcAt(s, t).Free? && k in s.tasks && t in s.tasks[k].others
    case Release(k) => PcAt(s, t).Free? && k in s.tasks && t in s.tasks[k].others
    case Give(k, _) => PcAt(s, t).Free? && k in s.tasks && t in s.tasks[k].others
    case BlockJoin(k) => PcAt(s, t).Free? && k in s.tasks && s.tasks[k].home == t && s.tasks[k].setRef
    case Go => CanGo(s, t)
    case Spurious => PcAt(s, t).Waiting? && PcAt(s, t).k in s.tasks
  }

  /** One step of a thread inside an operation. */
  datatype Moved = Moved(pc: Pc, x: Task)

  function StepAt(pc: Pc, x: Task, t: Tid): Moved
    requires !pc.Free?
  {
    match pc
    case JoinWant(k, own) => Moved(JoinIn(k, own), x.(holder := CP.Some(t)))
    case JoinIn(k, own) =>
      if !x.claimed then Moved(Joining(k, own), x.(claimed := true, holder := CP.None, claimer := CP.Some(t)))
      else Moved(Looking(k, own), x)
    case Joining(k, own) => Moved(JoinedWant(k, own), x.(joins := x.joins + 1))
    case JoinedWant(k, own) => Moved(JoinedIn(k, own), x.(holder := CP.Some(t)))
    case JoinedIn(k, own) => Moved(JoinOut(k, own), x.(done := true, woken := x.woken + x.asleep, asleep := {}))
    case Waiting(k, own) => Moved(Looking(k, own), x.(holder := CP.Some(t), woken := x.woken - {t}))
    case Looking(k, own) =>
      if x.done then Moved(JoinOut(k, own), x)
      else Moved(Waiting(k, own), x.(holder := CP.None, asleep := x.asleep + {t}))
    case JoinOut(k, own) => Moved(if own then DropWant(k, true) else Free, x.(holder := CP.None))
    case DropWant(k, own) => Moved(DropIn(k, own), x.(holder := CP.Some(t)))
    case DropIn(k, own) =>
      var y := x.(refs := x.refs - 1);
      var z := if own then y.(setRef := false) else y.(others := y.others - multiset{t});
      Moved(DropOut(k, z.refs == 0), if z.refs == 0 then z.(freer := CP.Some(t)) else z)
    case DropOut(k, last) => Moved(if last then Freeing(k) else Free, x.(holder := CP.None))
    case Freeing(_) => Moved(Free, x.(frees := x.frees + 1))
  }

  function Do(s: State, t: Tid, a: Act): State
    requires Enabled(s, t, a)
  {
    match a
    case Spawn(k, named) =>
      s.(tasks := s.tasks[k := Task(t, false, false, false, if named then 2 else 1, CP.None, {}, {}, 0, 0, CP.None, true,
                                    if named then multiset{t} else multiset{}, CP.None)])
    case Finish(k) => s.(tasks := s.tasks[k := s.tasks[k].(finished := true)])
    case Wait(k) => s.(pcs := s.pcs[t := JoinWant(k, false)])
    case Release(k) => s.(pcs := s.pcs[t := DropWant(k, false)])
    case Give(k, heir) =>
      s.(tasks := s.tasks[k := s.tasks[k].(others := s.tasks[k].others - multiset{t} + multiset{heir})])
    case BlockJoin(k) => s.(pcs := s.pcs[t := JoinWant(k, true)])
    case Go =>
      var k := PcAt(s, t).k;
      var m := StepAt(PcAt(s, t), s.tasks[k], t);
      State(s.tasks[k := m.x], s.pcs[t := m.pc])
    case Spurious =>
      var k := PcAt(s, t).k;
      s.(tasks := s.tasks[k := WakeOne(s.tasks[k], t)])
  }

  function WakeOne(x: Task, t: Tid): Task {
    if t in x.asleep then x.(asleep := x.asleep - {t}, woken := x.woken + {t}) else x
  }

  predicate Init(s: State) { s == State(map[], map[]) }

  ghost predicate Next(s: State, s': State) {
    exists t: Tid, a: Act :: Enabled(s, t, a) && s' == Do(s, t, a)
  }

  ghost predicate Run(run: seq<State>) {
    run != [] && Init(run[0]) && forall i | 0 < i < |run| :: Next(run[i - 1], run[i])
  }

  // --------------------------------------------------------------- invariant

  predicate HoldsLock(pc: Pc, k: Kid) {
    (pc.JoinIn? || pc.JoinedIn? || pc.Looking? || pc.JoinOut? || pc.DropIn? || pc.DropOut?) && pc.k == k
  }

  /** The claim is this thread's and has not been made good. */
  predicate Claims(pc: Pc, k: Kid) {
    (pc.Joining? || pc.JoinedWant? || pc.JoinedIn?) && pc.k == k
  }

  /** The thread needs one of its references to k: its own block's, or a task-variable's. */
  predicate NeedsSet(pc: Pc, k: Kid) {
    !pc.Free? && !pc.DropOut? && !pc.Freeing? && pc.k == k && pc.own
  }

  predicate NeedsOther(pc: Pc, k: Kid) {
    !pc.Free? && !pc.DropOut? && !pc.Freeing? && pc.k == k && !pc.own
  }

  predicate TaskInv(x: Task) {
    && x.joins <= 1 && x.frees <= 1
    && x.refs == |x.others| + (if x.setRef then 1 else 0)
    && (x.refs == 0 <==> x.freer.Some?) && (x.frees > 0 ==> x.freer.Some?)
    && (x.claimed <==> x.claimer.Some?)
    && (x.joins > 0 ==> x.claimed && x.finished)
    && (x.done ==> x.joins == 1 && x.asleep == {})
    && (!x.setRef ==> x.done)
    && (x.asleep + x.woken != {} ==> x.claimed)
    && x.asleep !! x.woken
  }

  predicate Link(pc: Pc, x: Task, k: Kid, t: Tid) {
    && (x.holder == CP.Some(t) <==> HoldsLock(pc, k))
    && (t in x.asleep + x.woken <==> pc.Waiting? && pc.k == k)
    && (Claims(pc, k) <==> x.claimer == CP.Some(t) && !x.done)
    && (Claims(pc, k) ==> (x.joins == 0 <==> pc.Joining?))
    && (pc.Looking? && pc.k == k ==> x.claimed)
    && (pc.JoinOut? && pc.k == k ==> x.done)
    && ((pc.DropWant? || pc.DropIn?) && pc.k == k && pc.own ==> x.done)
    && (NeedsSet(pc, k) ==> x.home == t && x.setRef)
    && (NeedsOther(pc, k) ==> t in x.others)
    && ((pc == DropOut(k, true) || pc == Freeing(k)) <==> x.freer == CP.Some(t) && x.frees == 0)
    && (pc == DropOut(k, false) ==> x.refs > 0)
  }

  ghost predicate Inv(s: State) {
    && (forall k | k in s.tasks :: TaskInv(s.tasks[k]))
    && (forall k, t: Tid | k in s.tasks :: Link(PcAt(s, t), s.tasks[k], k, t))
    && (forall t: Tid | !PcAt(s, t).Free? :: PcAt(s, t).k in s.tasks)
  }

  /** Another thread's step leaves u's place at the record alone, but may wake it. */
  predicate Unmoved(x: Task, y: Task, u: Tid) {
    && y.home == x.home
    && (y.holder == CP.Some(u) <==> x.holder == CP.Some(u))
    && (u in y.asleep + y.woken <==> u in x.asleep + x.woken)
    && (x.claimed ==> y.claimed) && (x.done ==> y.done)
    && (y.claimer == CP.Some(u) && !y.done <==> x.claimer == CP.Some(u) && !x.done)
    && (x.claimer == CP.Some(u) && !x.done ==> y.joins == x.joins)
    && (x.setRef && x.home == u ==> y.setRef)
    && (u in x.others ==> u in y.others)
    && (y.freer == CP.Some(u) && y.frees == 0 <==> x.freer == CP.Some(u) && x.frees == 0)
    && (x.holder == CP.Some(u) && x.refs > 0 ==> y.refs > 0)
  }

  lemma UnmovedLinks(pc: Pc, x: Task, y: Task, k: Kid, u: Tid)
    requires Link(pc, x, k, u) && Unmoved(x, y, u)
    ensures Link(pc, y, k, u)
  {
  }

  lemma StepKeepsTask(pc: Pc, x: Task, t: Tid)
    requires !pc.Free? && TaskInv(x) && Link(pc, x, pc.k, t)
    requires pc.Joining? ==> x.finished
    ensures TaskInv(StepAt(pc, x, t).x)
  {
    if pc.DropIn? && !pc.own {
      assert |x.others - multiset{t}| == |x.others| - 1;
    }
  }

  lemma StepLinks(pc: Pc, x: Task, t: Tid)
    requires !pc.Free? && TaskInv(x) && Link(pc, x, pc.k, t)
    requires pc.JoinWant? || pc.JoinedWant? || pc.Waiting? || pc.DropWant? ==> x.holder == CP.None
    requires pc.Waiting? ==> t in x.woken
    ensures Link(StepAt(pc, x, t).pc, StepAt(pc, x, t).x, pc.k, t)
    ensures StepAt(pc, x, t).pc.Free? || StepAt(pc, x, t).pc.k == pc.k
  {
    if pc.DropIn? && !pc.own {
      assert |x.others - multiset{t}| == |x.others| - 1;
    }
  }

  lemma StepUnmoved(pc: Pc, x: Task, t: Tid, u: Tid)
    requires !pc.Free? && TaskInv(x) && Link(pc, x, pc.k, t) && u != t
    requires pc.JoinWant? || pc.JoinedWant? || pc.Waiting? || pc.DropWant? ==> x.holder == CP.None
    ensures Unmoved(x, StepAt(pc, x, t).x, u)
  {
  }

  /** A thread that is not at k has nothing there but its references. */
  lemma ElsewhereLinks(pc: Pc, pc': Pc, x: Task, k: Kid, t: Tid)
    requires Link(pc, x, k, t)
    requires (pc.Free? || pc.k != k) && (pc'.Free? || pc'.k != k)
    ensures Link(pc', x, k, t)
  {
  }

  lemma GoKeeps(s: State, t: Tid)
    requires Inv(s) && CanGo(s, t)
    ensures Inv(Do(s, t, Go))
  {
    hide Link, TaskInv, StepAt, Unmoved;
    var pc := PcAt(s, t);
    var k := pc.k;
    var x := s.tasks[k];
    var m := StepAt(pc, x, t);
    var s' := Do(s, t, Go);
    assert Link(pc, x, k, t) && TaskInv(x);
    StepKeepsTask(pc, x, t);
    StepLinks(pc, x, t);
    forall d, u: Tid | d in s'.tasks
      ensures Link(PcAt(s', u), s'.tasks[d], d, u)
    {
      assert Link(PcAt(s, u), s.tasks[d], d, u);
      if d == k {
        if u != t {
          StepUnmoved(pc, x, t, u);
          UnmovedLinks(PcAt(s, u), x, m.x, k, u);
        }
      } else if u == t {
        ElsewhereLinks(pc, m.pc, s.tasks[d], d, t);
      }
    }
    forall u: Tid | !PcAt(s', u).Free?
      ensures PcAt(s', u).k in s'.tasks
    {
      assert u != t ==> PcAt(s', u) == PcAt(s, u);
    }
  }

  /** Changing one record while every thread stays where it is. */
  lemma RecordKeeps(s: State, k: Kid, y: Task)
    requires Inv(s) && k in s.tasks && TaskInv(y)
    requires forall u: Tid :: Link(PcAt(s, u), y, k, u)
    ensures Inv(s.(tasks := s.tasks[k := y]))
  {
    hide Link, TaskInv;
    var s' := s.(tasks := s.tasks[k := y]);
    forall d, u: Tid | d in s'.tasks
      ensures Link(PcAt(s', u), s'.tasks[d], d, u)
    {
      assert PcAt(s', u) == PcAt(s, u);
      if d != k { assert Link(PcAt(s, u), s.tasks[d], d, u); }
    }
    forall u: Tid | !PcAt(s', u).Free?
      ensures PcAt(s', u).k in s'.tasks
    {
      assert PcAt(s', u) == PcAt(s, u);
    }
  }

  /** A thread that was free begins an operation on k. */
  lemma CallKeeps(s: State, t: Tid, k: Kid, pc': Pc)
    requires Inv(s) && PcAt(s, t).Free? && k in s.tasks
    requires (pc'.JoinWant? || pc'.DropWant?) && pc'.k == k
    requires if pc'.own then s.tasks[k].home == t && s.tasks[k].setRef && pc'.JoinWant? else t in s.tasks[k].others
    ensures Inv(s.(pcs := s.pcs[t := pc']))
  {
    hide TaskInv;
    var s' := s.(pcs := s.pcs[t := pc']);
    forall d, u: Tid | d in s'.tasks
      ensures Link(PcAt(s', u), s'.tasks[d], d, u)
    {
      assert Link(PcAt(s, u), s.tasks[d], d, u);
      assert u != t ==> PcAt(s', u) == PcAt(s, u);
    }
    forall u: Tid | !PcAt(s', u).Free?
      ensures PcAt(s', u).k in s'.tasks
    {
      assert u != t ==> PcAt(s', u) == PcAt(s, u);
    }
  }

  lemma SpawnKeeps(s: State, t: Tid, k: Kid, named: bool)
    requires Inv(s) && Enabled(s, t, Spawn(k, named))
    ensures Inv(Do(s, t, Spawn(k, named)))
  {
    hide TaskInv;
    var s' := Do(s, t, Spawn(k, named));
    forall d, u: Tid | d in s'.tasks
      ensures Link(PcAt(s', u), s'.tasks[d], d, u)
    {
      assert PcAt(s', u) == PcAt(s, u);
      if d != k { assert Link(PcAt(s, u), s.tasks[d], d, u); }
    }
    SpawnedTask(t, named);
    forall u: Tid | !PcAt(s', u).Free?
      ensures PcAt(s', u).k in s'.tasks
    {
      assert PcAt(s', u) == PcAt(s, u);
    }
  }

  lemma SpawnedTask(t: Tid, named: bool)
    ensures TaskInv(Task(t, false, false, false, if named then 2 else 1, CP.None, {}, {}, 0, 0, CP.None, true,
                         if named then multiset{t} else multiset{}, CP.None))
  {
  }

  lemma StepKeeps(s: State, t: Tid, a: Act)
    requires Inv(s) && Enabled(s, t, a)
    ensures Inv(Do(s, t, a))
  {
    match a
    case Spawn(k, named) => SpawnKeeps(s, t, k, named);
    case Wait(k) => CallKeeps(s, t, k, JoinWant(k, false));
    case Release(k) => CallKeeps(s, t, k, DropWant(k, false));
    case BlockJoin(k) => CallKeeps(s, t, k, JoinWant(k, true));
    case Go => GoKeeps(s, t);
    case Finish(k) => FinishKeeps(s, k);
    case Give(k, heir) => GiveKeeps(s, t, k, heir);
    case Spurious => SpuriousKeeps(s, t);
  }

  lemma FinishKeeps(s: State, k: Kid)
    requires Inv(s) && k in s.tasks
    ensures Inv(s.(tasks := s.tasks[k := s.tasks[k].(finished := true)]))
  {
    var y := s.tasks[k].(finished := true);
    forall u: Tid
      ensures Link(PcAt(s, u), y, k, u)
    {
      assert Link(PcAt(s, u), s.tasks[k], k, u);
    }
    RecordKeeps(s, k, y);
  }

  lemma GiveKeeps(s: State, t: Tid, k: Kid, heir: Tid)
    requires Inv(s) && PcAt(s, t).Free? && k in s.tasks && t in s.tasks[k].others
    ensures Inv(Do(s, t, Give(k, heir)))
  {
    var x := s.tasks[k];
    var y := x.(others := x.others - multiset{t} + multiset{heir});
    assert |x.others - multiset{t}| == |x.others| - 1;
    forall u: Tid
      ensures Link(PcAt(s, u), y, k, u)
    {
      assert Link(PcAt(s, u), x, k, u);
    }
    RecordKeeps(s, k, y);
  }

  lemma SpuriousKeeps(s: State, t: Tid)
    requires Inv(s) && Enabled(s, t, Spurious)
    ensures Inv(Do(s, t, Spurious))
  {
    var k := PcAt(s, t).k;
    var y := WakeOne(s.tasks[k], t);
    forall u: Tid
      ensures Link(PcAt(s, u), y, k, u)
    {
      assert Link(PcAt(s, u), s.tasks[k], k, u);
    }
    RecordKeeps(s, k, y);
  }

  lemma {:induction false} RunKeeps(run: seq<State>, i: nat)
    requires Run(run) && i < |run|
    ensures Inv(run[i])
  {
    hide Do, Enabled, Inv;
    if i == 0 {
      InitInv(run[0]);
    } else {
      RunKeeps(run, i - 1);
      assert Next(run[i - 1], run[i]);
      var t: Tid, a: Act :| Enabled(run[i - 1], t, a) && run[i] == Do(run[i - 1], t, a);
      StepKeeps(run[i - 1], t, a);
    }
  }

  lemma InitInv(s: State)
    requires Init(s)
    ensures Inv(s)
  {
  }

  // ---------------------------------------------------------------- theorems

  /** A thread is joined at most once, never before it has finished, and by the one thread that
      claimed it, however many wait. */
  lemma JoinedOnce(run: seq<State>, i: nat, k: Kid)
    requires Run(run) && i < |run| && k in run[i].tasks
    ensures var x := run[i].tasks[k];
            x.joins <= 1 && (x.joins == 1 ==> x.finished && x.claimer.Some?)
    ensures forall t: Tid, u: Tid | Claims(PcAt(run[i], t), k) && Claims(PcAt(run[i], u), k) :: t == u
  {
    RunKeeps(run, i);
    assert TaskInv(run[i].tasks[k]);
    forall t: Tid, u: Tid | Claims(PcAt(run[i], t), k) && Claims(PcAt(run[i], u), k)
      ensures t == u
    {
      assert Link(PcAt(run[i], t), run[i].tasks[k], k, t) && Link(PcAt(run[i], u), run[i].tasks[k], k, u);
    }
  }

  /** Whoever is about to return from `wait` or from the block's join, the activation is complete
      and its thread has been joined. */
  lemma NoEarlyReturn(run: seq<State>, i: nat, t: Tid)
    requires Run(run) && i < |run| && PcAt(run[i], t).JoinOut?
    ensures PcAt(run[i], t).k in run[i].tasks
    ensures var x := run[i].tasks[PcAt(run[i], t).k]; x.finished && x.joins == 1
  {
    RunKeeps(run, i);
    var k := PcAt(run[i], t).k;
    assert TaskInv(run[i].tasks[k]) && Link(PcAt(run[i], t), run[i].tasks[k], k, t);
  }

  /** No waiter sleeps for ever: while one does, another thread has the claim and will announce it. */
  lemma WaiterIsAnnounced(run: seq<State>, i: nat, k: Kid)
    requires Run(run) && i < |run| && k in run[i].tasks && run[i].tasks[k].asleep != {}
    ensures exists u: Tid :: Claims(PcAt(run[i], u), k)
  {
    RunKeeps(run, i);
    var x := run[i].tasks[k];
    assert TaskInv(x);
    assert Link(PcAt(run[i], x.claimer.value), x, k, x.claimer.value);
  }

  /** A record is freed at most once, only when nothing refers to it, by the thread that let the
      last reference go, and never before its thread has been joined. */
  lemma FreedOnceAfterJoin(run: seq<State>, i: nat, k: Kid)
    requires Run(run) && i < |run| && k in run[i].tasks
    ensures var x := run[i].tasks[k];
            && x.frees <= 1
            && (x.frees == 1 ==> x.refs == 0 && x.joins == 1 && x.finished)
            && (x.refs == 0 && x.frees == 0 ==>
                  exists u: Tid :: PcAt(run[i], u) == DropOut(k, true) || PcAt(run[i], u) == Freeing(k))
    ensures forall t: Tid | !PcAt(run[i], t).Free? && PcAt(run[i], t).k == k :: run[i].tasks[k].frees == 0
  {
    RunKeeps(run, i);
    var x := run[i].tasks[k];
    assert TaskInv(x);
    if x.refs == 0 && x.frees == 0 {
      assert Link(PcAt(run[i], x.freer.value), x, k, x.freer.value);
    }
    forall t: Tid | !PcAt(run[i], t).Free? && PcAt(run[i], t).k == k
      ensures x.frees == 0
    {
      assert Link(PcAt(run[i], t), x, k, t);
    }
  }

  /** When the block has let its reference go, the activation is over and joined: exactly once. */
  lemma BlockLeavesNothingRunning(run: seq<State>, i: nat, k: Kid)
    requires Run(run) && i < |run| && k in run[i].tasks && !run[i].tasks[k].setRef
    ensures run[i].tasks[k].finished && run[i].tasks[k].joins == 1
  {
    RunKeeps(run, i);
    assert TaskInv(run[i].tasks[k]);
  }
}
