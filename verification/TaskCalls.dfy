/** What the calls of runtime/pasrt_task.c's tasks promise their callers: told from the call to the
    return, over every run of the protocol. */
module TaskCalls {
  import CP = ChannelProtocol
  import opened TaskProtocol

  /** The thread is inside this call. The block's join drops its reference before it returns. */
  predicate Inside(pc: Pc, a: Act) {
    match a
    case Wait(k) => InJoin(pc, k, false)
    case BlockJoin(k) => InJoin(pc, k, true) || InDrop(pc, k, true)
    case Release(k) => InDrop(pc, k, false)
    case _ => false
  }

  predicate InJoin(pc: Pc, k: Kid, own: bool) {
    && (pc.JoinWant? || pc.JoinIn? || pc.Joining? || pc.JoinedWant? || pc.JoinedIn? || pc.Waiting? || pc.Looking? || pc.JoinOut?)
    && pc.k == k && pc.own == own
  }

  predicate InDrop(pc: Pc, k: Kid, own: bool) {
    || ((pc.DropWant? || pc.DropIn?) && pc.k == k && pc.own == own)
    || ((pc.DropOut? || pc.Freeing?) && pc.k == k)
  }

  predicate IsCall(a: Act) { a.Wait? || a.BlockJoin? || a.Release? }

  function KidOf(a: Act): Kid
    requires IsCall(a)
  {
    a.k
  }

  // --------------------------------------------------------------- one step

  /** What no step takes back. */
  predicate Lasts(x: Task, y: Task) {
    && (x.finished ==> y.finished) && x.joins <= y.joins && (!x.setRef ==> !y.setRef) && x.frees <= y.frees
  }

  lemma StepLasts(s: State, u: Tid, a: Act, k: Kid)
    requires Enabled(s, u, a) && k in s.tasks
    ensures k in Do(s, u, a).tasks && Lasts(s.tasks[k], Do(s, u, a).tasks[k])
  {
    hide StepAt;
    if a.Go? { StepAtLasts(PcAt(s, u), s.tasks[PcAt(s, u).k], u); }
  }

  lemma StepAtLasts(pc: Pc, x: Task, t: Tid)
    requires !pc.Free?
    ensures Lasts(x, StepAt(pc, x, t).x)
  {
  }

  lemma OthersStay(s: State, u: Tid, a: Act, t: Tid)
    requires Enabled(s, u, a) && u != t
    ensures PcAt(Do(s, u, a), t) == PcAt(s, t)
  {
  }

  /** The step that lets a reference go: the block's, or one of the thread's own. */
  predicate LetsGo(x: Task, y: Task, t: Tid, own: bool) {
    && y.refs == x.refs - 1
    && if own then x.setRef && !y.setRef && y.others == x.others
       else t in x.others && y.others == x.others - multiset{t} && y.setRef == x.setRef
  }

  predicate KeepsReferences(x: Task, y: Task) { y.refs == x.refs && y.others == x.others && y.setRef == x.setRef }

  /** What a thread's step inside a call may be. */
  predicate Moves(s: State, s': State, t: Tid, a: Act)
    requires IsCall(a)
  {
    var k, pc, pc' := KidOf(a), PcAt(s, t), PcAt(s', t);
    k in s.tasks && k in s'.tasks && PlaceMoves(pc, s.tasks[k], pc', s'.tasks[k], t, a)
  }

  /** The same of the record and the place alone. */
  predicate PlaceMoves(pc: Pc, x: Task, pc': Pc, y: Task, t: Tid, a: Act)
    requires IsCall(a)
  {
    var k := KidOf(a);
    && (Inside(pc', a) || pc'.Free?)
    && (if pc.DropIn? then LetsGo(x, y, t, pc.own) && pc' == DropOut(k, y.refs == 0) else KeepsReferences(x, y))
    && (pc.DropOut? || pc.Freeing? ==> pc'.Free? || pc'.Freeing?) && (pc'.DropOut? ==> pc.DropIn?)
    && (pc'.Freeing? ==> pc == DropOut(k, true))
    && (pc'.Free? ==> pc == JoinOut(k, false) || pc == DropOut(k, false) || (pc == Freeing(k) && y.frees == x.frees + 1))
  }

  lemma StepAtMoves(pc: Pc, x: Task, t: Tid, a: Act)
    requires IsCall(a) && !pc.Free? && Inside(pc, a) && (pc.DropIn? ==> if pc.own then x.setRef else t in x.others)
    ensures PlaceMoves(pc, x, StepAt(pc, x, t).pc, StepAt(pc, x, t).x, t, a)
  {
  }

  lemma GoMoves(s: State, t: Tid, a: Act)
    requires Inv(s) && IsCall(a) && CanGo(s, t) && Inside(PcAt(s, t), a)
    ensures Moves(s, Do(s, t, Go), t, a)
  {
    hide TaskInv, StepAt, PlaceMoves;
    var k := KidOf(a);
    assert Link(PcAt(s, t), s.tasks[k], k, t);
    StepAtMoves(PcAt(s, t), s.tasks[k], t, a);
  }

  lemma OnlyGoMoves(s: State, t: Tid, a: Act, b: Act)
    requires Inv(s) && IsCall(a) && Enabled(s, t, b) && Inside(PcAt(s, t), a)
    ensures PcAt(Do(s, t, b), t) == PcAt(s, t) || Moves(s, Do(s, t, b), t, a)
  {
    hide Inv, StepAt, Moves;
    if b.Go? { GoMoves(s, t, a); }
  }

  // ------------------------------------------------------------ from the call

  ghost predicate Calls(run: seq<State>, b: nat, t: Tid, a: Act) {
    b + 1 < |run| && IsCall(a) && Enabled(run[b], t, a) && run[b + 1] == Do(run[b], t, a)
  }

  predicate Moved(run: seq<State>, m: nat, t: Tid)
    requires m + 1 < |run|
  {
    PcAt(run[m + 1], t) != PcAt(run[m], t)
  }

  /** The thread's step at m, if it makes one, touches none of k's references. */
  predicate Untouched(run: seq<State>, m: nat, t: Tid, k: Kid)
    requires m + 1 < |run|
  {
    Moved(run, m, t) ==>
      k in run[m].tasks && k in run[m + 1].tasks && KeepsReferences(run[m].tasks[k], run[m + 1].tasks[k])
  }

  /** Of the thread's own steps between b and i only the one at j, if any, touches k's references. */
  ghost predicate OnlyAt(run: seq<State>, b: nat, i: nat, t: Tid, k: Kid, j: int) {
    i < |run| && forall m: nat | b < m < i && m != j :: Untouched(run, m, t, k)
  }

  /** The step at j let the reference go. */
  ghost predicate LetGoAt(run: seq<State>, b: nat, i: nat, t: Tid, k: Kid, own: bool, j: nat) {
    && b < j < i && OnlyAt(run, b, i, t, k, j)
    && k in run[j].tasks && k in run[j + 1].tasks && LetsGo(run[j].tasks[k], run[j + 1].tasks[k], t, own)
    && run[i].tasks.Keys >= {k} && Lasts(run[j + 1].tasks[k], run[i].tasks[k])
  }

  ghost predicate LetGo(run: seq<State>, b: nat, i: nat, t: Tid, k: Kid, own: bool, last: bool) {
    exists j: nat :: LetGoAt(run, b, i, t, k, own, j) && (last <==> run[j + 1].tasks[k].refs == 0)
  }

  ghost predicate Trail(run: seq<State>, b: nat, i: nat, t: Tid, a: Act)
    requires b < i < |run| && IsCall(a)
  {
    var k, pc := KidOf(a), PcAt(run[i], t);
    && Inside(pc, a)
    && (pc.DropOut? ==> LetGo(run, b, i, t, k, a.BlockJoin?, pc.last))
    && (pc.Freeing? ==> LetGo(run, b, i, t, k, a.BlockJoin?, true))
    && (!pc.DropOut? && !pc.Freeing? ==> OnlyAt(run, b, i, t, k, -1))
  }

  lemma OnlyAtGrows(run: seq<State>, b: nat, i: nat, t: Tid, k: Kid, j: int)
    requires 0 < i < |run| && OnlyAt(run, b, i - 1, t, k, j)
    requires b < i - 1 && i - 1 != j ==> Untouched(run, i - 1, t, k)
    ensures OnlyAt(run, b, i, t, k, j)
  {
    hide Untouched;
  }

  lemma LetGoStays(run: seq<State>, b: nat, i: nat, t: Tid, k: Kid, own: bool, last: bool)
    requires 0 < i < |run| && LetGo(run, b, i - 1, t, k, own, last)
    requires k in run[i - 1].tasks ==> k in run[i].tasks && Lasts(run[i - 1].tasks[k], run[i].tasks[k])
    requires Untouched(run, i - 1, t, k)
    ensures LetGo(run, b, i, t, k, own, last)
  {
    hide Untouched, OnlyAt, LetsGo;
    var j: nat :| LetGoAt(run, b, i - 1, t, k, own, j) && (last <==> run[j + 1].tasks[k].refs == 0);
    OnlyAtGrows(run, b, i, t, k, j);
    assert LetGoAt(run, b, i, t, k, own, j);
  }

  lemma TrailStays(run: seq<State>, b: nat, i: nat, t: Tid, a: Act)
    requires b < i - 1 < i < |run| && IsCall(a) && Trail(run, b, i - 1, t, a) && PcAt(run[i], t) == PcAt(run[i - 1], t)
    requires forall k | k in run[i - 1].tasks :: k in run[i].tasks && Lasts(run[i - 1].tasks[k], run[i].tasks[k])
    ensures Trail(run, b, i, t, a)
  {
    hide Lasts, KeepsReferences, OnlyAt, LetGo;
    var k, pc := KidOf(a), PcAt(run[i], t);
    if pc.DropOut? {
      LetGoStays(run, b, i, t, k, a.BlockJoin?, pc.last);
    } else if pc.Freeing? {
      LetGoStays(run, b, i, t, k, a.BlockJoin?, true);
    } else {
      OnlyAtGrows(run, b, i, t, k, -1);
    }
  }

  lemma TrailMoves(run: seq<State>, b: nat, i: nat, t: Tid, a: Act)
    requires b < i - 1 < i < |run| && IsCall(a) && Trail(run, b, i - 1, t, a) && Moves(run[i - 1], run[i], t, a)
    requires forall k | k in run[i - 1].tasks :: k in run[i].tasks && Lasts(run[i - 1].tasks[k], run[i].tasks[k])
    requires !PcAt(run[i], t).Free?
    ensures Trail(run, b, i, t, a)
  {
    hide OnlyAt, LetGo, Lasts;
    var k, pc, pc' := KidOf(a), PcAt(run[i - 1], t), PcAt(run[i], t);
    if pc.DropIn? {
      LetsGoNow(run, b, i, t, a);
    } else if pc'.Freeing? {
      LetGoStays(run, b, i, t, k, a.BlockJoin?, true);
    } else {
      OnlyAtGrows(run, b, i, t, k, -1);
    }
  }

  lemma LetsGoNow(run: seq<State>, b: nat, i: nat, t: Tid, a: Act)
    requires b < i - 1 < i < |run| && IsCall(a) && Trail(run, b, i - 1, t, a) && Moves(run[i - 1], run[i], t, a)
    requires PcAt(run[i - 1], t).DropIn?
    ensures var k := KidOf(a); LetGo(run, b, i, t, k, a.BlockJoin?, PcAt(run[i], t).last)
  {
    var k := KidOf(a);
    OnlyAtSkips(run, b, i, t, k);
    assert LetGoAt(run, b, i, t, k, a.BlockJoin?, i - 1);
  }

  lemma OnlyAtSkips(run: seq<State>, b: nat, i: nat, t: Tid, k: Kid)
    requires 0 < i < |run| && OnlyAt(run, b, i - 1, t, k, -1)
    ensures OnlyAt(run, b, i, t, k, i - 1)
  {
  }

  lemma {:induction false} TrailAlways(run: seq<State>, b: nat, i: nat, t: Tid, a: Act)
    requires Run(run) && Calls(run, b, t, a) && b < i < |run| && forall m | b < m <= i :: !PcAt(run[m], t).Free?
    ensures Trail(run, b, i, t, a)
  {
    hide Inv, Moves, Enabled, Do, Trail, Lasts;
    if i == b + 1 {
      CallTrail(run, b, t, a);
    } else {
      TrailAlways(run, b, i - 1, t, a);
      TrailInside(run, b, i - 1, t, a);
      var u, c := StepOf(run, i);
      if u != t {
        OthersStay(run[i - 1], u, c, t);
        TrailStays(run, b, i, t, a);
      } else {
        OnlyGoMoves(run[i - 1], t, a, c);
        if Moves(run[i - 1], run[i], t, a) { TrailMoves(run, b, i, t, a); } else { TrailStays(run, b, i, t, a); }
      }
    }
  }

  lemma StepOf(run: seq<State>, i: nat) returns (u: Tid, c: Act)
    requires Run(run) && 0 < i < |run|
    ensures Inv(run[i - 1]) && Enabled(run[i - 1], u, c) && run[i] == Do(run[i - 1], u, c)
    ensures forall k | k in run[i - 1].tasks :: k in run[i].tasks && Lasts(run[i - 1].tasks[k], run[i].tasks[k])
  {
    hide Inv, Enabled, Do, Lasts;
    RunKeeps(run, i - 1);
    assert Next(run[i - 1], run[i]);
    u, c :| Enabled(run[i - 1], u, c) && run[i] == Do(run[i - 1], u, c);
    forall k | k in run[i - 1].tasks
      ensures k in run[i].tasks && Lasts(run[i - 1].tasks[k], run[i].tasks[k])
    {
      StepLasts(run[i - 1], u, c, k);
    }
  }

  lemma TrailInside(run: seq<State>, b: nat, i: nat, t: Tid, a: Act)
    requires b < i < |run| && IsCall(a) && Trail(run, b, i, t, a)
    ensures Inside(PcAt(run[i], t), a)
  {
  }

  lemma CallTrail(run: seq<State>, b: nat, t: Tid, a: Act)
    requires Calls(run, b, t, a)
    ensures Trail(run, b, b + 1, t, a)
  {
  }

  /** The thread called in the state b and is free again, for the first time, in the state i. */
  ghost predicate Returns(run: seq<State>, b: nat, i: nat, t: Tid, a: Act) {
    && Calls(run, b, t, a) && b < i < |run|
    && PcAt(run[i], t).Free? && forall m | b < m < i :: !PcAt(run[m], t).Free?
  }

  /** The last state before the return. */
  lemma BeforeReturn(run: seq<State>, b: nat, i: nat, t: Tid, a: Act)
    requires Run(run) && Returns(run, b, i, t, a)
    ensures b < i - 1 && Trail(run, b, i - 1, t, a) && Moves(run[i - 1], run[i], t, a)
    ensures forall k | k in run[i - 1].tasks :: k in run[i].tasks && Lasts(run[i - 1].tasks[k], run[i].tasks[k])
  {
    hide Inv, Moves, Enabled, Do, Trail, Lasts;
    CallTrail(run, b, t, a);
    TrailInside(run, b, b + 1, t, a);
    TrailAlways(run, b, i - 1, t, a);
    TrailInside(run, b, i - 1, t, a);
    var u, c := StepOf(run, i);
    if u != t { OthersStay(run[i - 1], u, c, t); }
    OnlyGoMoves(run[i - 1], t, a, c);
  }

  // ---------------------------------------------------------------- theorems

  /** A thread that has called `wait` gets on only when the activation has finished and its thread
      has been joined, once; and no reference is gained or lost by it. */
  lemma WaitReturns(run: seq<State>, b: nat, i: nat, t: Tid, k: Kid)
    requires Run(run) && Returns(run, b, i, t, Wait(k))
    ensures k in run[i].tasks && run[i].tasks[k].finished && run[i].tasks[k].joins == 1
    ensures OnlyAt(run, b, i, t, k, -1)
  {
    hide Lasts, OnlyAt, KeepsReferences;
    BeforeReturn(run, b, i, t, Wait(k));
    NoEarlyReturn(run, i - 1, t);
    OnlyAtGrows(run, b, i, t, k, -1);
    assert Lasts(run[i - 1].tasks[k], run[i].tasks[k]);
    LastsFinished(run[i - 1].tasks[k], run[i].tasks[k]);
    JoinedOnce(run, i, k);
  }

  lemma LastsFinished(x: Task, y: Task)
    requires Lasts(x, y)
    ensures (x.finished ==> y.finished) && x.joins <= y.joins && (!x.setRef ==> !y.setRef) && x.frees <= y.frees
  {
  }

  /** What letting a reference go comes to by the time the call returns: in one step, and by no other
      of its own, the thread has dropped exactly that reference; and if it was the last of all, the
      record is freed. */
  ghost predicate Dropped(run: seq<State>, b: nat, i: nat, t: Tid, k: Kid, own: bool) {
    exists j: nat :: LetGoAt(run, b, i, t, k, own, j) && (run[j + 1].tasks[k].refs == 0 ==> run[i].tasks[k].frees == 1)
  }

  lemma DropReturns(run: seq<State>, b: nat, i: nat, t: Tid, a: Act)
    requires Run(run) && Returns(run, b, i, t, a) && !a.Wait?
    ensures KidOf(a) in run[i].tasks && Dropped(run, b, i, t, KidOf(a), a.BlockJoin?)
  {
    hide Lasts, LetGoAt, KeepsReferences;
    BeforeReturn(run, b, i, t, a);
    var k, pc := KidOf(a), PcAt(run[i - 1], t);
    LetGoStays(run, b, i, t, k, a.BlockJoin?, pc.Freeing?);
    FreedOnceAfterJoin(run, i, k);
  }

  /** The block's join returns from one of its activations only when that has finished and has been
      joined, once, and the block's reference is gone. */
  lemma BlockJoinReturns(run: seq<State>, b: nat, i: nat, t: Tid, k: Kid)
    requires Run(run) && Returns(run, b, i, t, BlockJoin(k))
    ensures k in run[i].tasks && run[i].tasks[k].finished && run[i].tasks[k].joins == 1 && !run[i].tasks[k].setRef
    ensures Dropped(run, b, i, t, k, true)
  {
    DropReturns(run, b, i, t, BlockJoin(k));
    BlockLeavesNothingRunning(run, i, k);
  }

  /** Releasing a task-variable drops its one reference, waits for nothing, and frees the record if
      that was the last. */
  lemma ReleaseReturns(run: seq<State>, b: nat, i: nat, t: Tid, k: Kid)
    requires Run(run) && Returns(run, b, i, t, Release(k))
    ensures k in run[i].tasks && Dropped(run, b, i, t, k, false)
    ensures forall m | b < m < i :: InDrop(PcAt(run[m], t), k, false)
  {
    DropReturns(run, b, i, t, Release(k));
    forall m | b < m < i
      ensures InDrop(PcAt(run[m], t), k, false)
    {
      TrailAlways(run, b, m, t, Release(k));
    }
  }

  /** A spawned activation has not finished and is nobody's to join but its block's, which still has to,
      and, if it was given a name, its spawner's; nobody has waited for it or freed it. */
  lemma SpawnedIsOwned(s: State, t: Tid, k: Kid, named: bool, u: Tid)
    requires Enabled(s, t, Spawn(k, named))
    ensures var s' := Do(s, t, Spawn(k, named));
            && k in s'.tasks && !s'.tasks[k].finished && s'.tasks[k].joins == 0 && s'.tasks[k].frees == 0
            && (Enabled(s', u, BlockJoin(k)) <==> u == t && PcAt(s, u).Free?)
            && (Enabled(s', u, Wait(k)) <==> named && u == t && PcAt(s, u).Free?)
            && s'.tasks[k].refs == |s'.tasks[k].others| + 1
            && forall d | d in s.tasks :: s'.tasks[d] == s.tasks[d]
  {
  }
}
