/** Reachable runs in which a goto does not stop where it should: it runs the deferred statement of a
    block that it does not leave, closes the file of such a block, leaves a dead block's file on the
    list, or takes the program out of a `halt`. */
module UnwindingAstray {
  import opened Unwinding

  /** Every record has a place of its own. */
  function Alone(id: Id): Address { id }

  // ---------------------------------------------------- a goto from a runner
  //
  // Blocks A and B, B inside A, each have a statement armed. On B's way out B's runner calls a
  // routine of B's that goes to a label of B; B's record is off its list, so the walk does not
  // stop there.

  const NO_MARK := Mark(None, None, None)
  const PROGRAM := Frame(0, 0, NOTHING, NO_MARK, Code(false))
  const BLOCK_A := Frame(0, 1, Own(Some(0), [], []), Mark(Some(0), None, None), Code(false))
  const BLOCK_B := Frame(1, 2, Own(Some(1), [], []), Mark(Some(1), None, None), Code(false))

  /** B once its record has been unlinked. */
  const B_DONE := BLOCK_B.(own := NOTHING)
  const RUNNER_B := Frame(2, 2, NOTHING, Mark(Some(0), None, None), Code(true))
  const RUNNER_A := Frame(2, 2, NOTHING, NO_MARK, Code(true))

  /** pas_jump_go to B, before its first turn and after it. */
  function JumpTo(cursor: Option<Id>): Frame {
    Frame(2, 2, NOTHING, Mark(Some(0), None, None), Jumping(3, cursor, 4, Lists([0], [], []), Mark(Some(1), None, None), 2))
  }

  function With(defers: seq<Id>, serial: nat, log: seq<Event>, stack: seq<Frame>): State {
    State(defers, [], [], [], {}, serial, log, stack, false, Alone)
  }

  const LOG1 := [Event(DeferInit, 0)]
  const LOG2 := LOG1 + [Event(DeferInit, 1)]
  const LOG4 := LOG2 + [Event(Ran, 1)]
  const LOG5 := LOG4 + [Event(Lost, 2)]
  const LOG6 := LOG5 + [Event(Ran, 0)]

  const START := With([], 0, [], [PROGRAM])
  const IN_A := With([0], 1, LOG1, [BLOCK_A, PROGRAM])
  const IN_B := With([1, 0], 2, LOG2, [BLOCK_B, BLOCK_A, PROGRAM])
  const LEAVING_B := With([1, 0], 2, LOG2, [BLOCK_B.(job := Epilogue(false)), BLOCK_A, PROGRAM])
  const RUNNING_B := With([0], 2, LOG4, [RUNNER_B, B_DONE.(job := Epilogue(false)), BLOCK_A, PROGRAM])
  const JUMPING := With([0], 2, LOG5, [JumpTo(Some(0)), RUNNER_B, B_DONE.(job := Epilogue(false)), BLOCK_A, PROGRAM])
  const RUNNING_A :=
    With([], 2, LOG6, [RUNNER_A, JumpTo(None), RUNNER_B, B_DONE.(job := Epilogue(false)), BLOCK_A, PROGRAM])
  const LEAVING_A :=
    With([], 2, LOG6,
         [RUNNER_A.(job := Epilogue(true)), JumpTo(None), RUNNER_B, B_DONE.(job := Epilogue(false)), BLOCK_A, PROGRAM])
  const LANDING := With([], 2, LOG6, [JumpTo(None), RUNNER_B, B_DONE.(job := Epilogue(false)), BLOCK_A, PROGRAM])

  lemma EnterA()
    ensures Enabled(START, Enter(true, 0, 0)) && Do(START, Enter(true, 0, 0)) == IN_A
  {
    assert Do(START, Enter(true, 0, 0)).stack == IN_A.stack;
  }

  lemma EnterB()
    ensures Enabled(IN_A, Enter(true, 0, 0)) && Do(IN_A, Enter(true, 0, 0)) == IN_B
  {
    var s := Do(IN_A, Enter(true, 0, 0));
    assert Tagged(DeferInit, [1]) == [Event(DeferInit, 1)] && Tagged(FileInit, []) == [] && Tagged(SlotInit, []) == [];
    assert s.log == LOG2 && s.defers == [1, 0] && s.slots == [] && s.files == [];
    assert s.stack == IN_B.stack;
  }

  lemma LeaveB()
    ensures Enabled(IN_B, Leave) && Do(IN_B, Leave) == LEAVING_B
  {
  }

  lemma RunB()
    ensures Enabled(LEAVING_B, Go) && Do(LEAVING_B, Go) == RUNNING_B
  {
    assert Without([1, 0], 1) == [0];
    assert Do(LEAVING_B, Go).stack == RUNNING_B.stack;
  }

  lemma GoToB()
    ensures Enabled(RUNNING_B, Goto(3)) && Do(RUNNING_B, Goto(3)) == JUMPING
  {
    assert Do(RUNNING_B, Goto(3)).stack == JUMPING.stack;
  }

  lemma RunA()
    ensures Enabled(JUMPING, Go) && Do(JUMPING, Go) == RUNNING_A
  {
    assert Without([0], 0) == [] && NextOf([0], 0) == None;
    assert Do(JUMPING, Go).stack == RUNNING_A.stack;
  }

  lemma LeaveA()
    ensures Enabled(RUNNING_A, Leave) && Do(RUNNING_A, Leave) == LEAVING_A
  {
  }

  lemma BackToJump()
    ensures Enabled(LEAVING_A, Go) && Do(LEAVING_A, Go) == LANDING
  {
  }

  lemma LandInB()
    ensures Enabled(LANDING, Go)
    ensures Do(LANDING, Go).defers == [] && Do(LANDING, Go).stack == [B_DONE, BLOCK_A, PROGRAM]
  {
    assert LANDING.stack[2..] == [B_DONE.(job := Epilogue(false)), BLOCK_A, PROGRAM];
  }

  /** The goto lands in B with A still active and A's deferred statement already executed: its mark
      was gone when it began, and A's record, registered before B armed, was there to be run. */
  lemma SurvivorIsRun() returns (run: seq<State>)
    ensures Run(run) && run[|run| - 1] == LANDING && Enabled(LANDING, Go)
    ensures Do(LANDING, Go).stack == [B_DONE, BLOCK_A, PROGRAM] && Do(LANDING, Go).defers == []
    ensures Event(Ran, 0) in LANDING.log && BLOCK_A.own.defer == Some(0)
    ensures var j := LANDING.stack[0].job;
            Gone(j.mark.d, j.before.defers) && Below(j.before.defers, j.limit) == [0]
  {
    hide Do, Enabled;
    run := [START, IN_A, IN_B, LEAVING_B, RUNNING_B, JUMPING, RUNNING_A, LEAVING_A, LANDING];
    EnterA();
    EnterB();
    LeaveB();
    RunB();
    GoToB();
    RunA();
    LeaveA();
    BackToJump();
    LandInB();
    forall i | 0 < i < |run|
      ensures Next(run[i - 1], run[i])
    {
      assert i == 1 || i == 2 || i == 3 || i == 4 || i == 5 || i == 6 || i == 7 || i == 8;
    }
    assert LOG6[4] == Event(Ran, 0);
  }

  // ------------------------------------------------ a mark disposed of
  //
  // A has a file open and makes a variable that contains one; B, inside A, arms its jump record, so
  // that the mark is the variable's file; the variable is disposed of, and then a goto lands in B.

  function Files(files: seq<Id>, heap: set<Id>, serial: nat, log: seq<Event>, stack: seq<Frame>): State {
    State([], files, [], [], heap, serial, log, stack, false, Alone)
  }

  const A_FILE := Frame(0, 1, Own(None, [0], []), Mark(None, Some(0), None), Code(false))
  const B_MARK := Frame(2, 2, NOTHING, Mark(None, Some(1), None), Code(false))
  const JUMP_FILES :=
    Frame(2, 2, NOTHING, Mark(None, Some(0), None), Jumping(3, None, 4, Lists([], [0], []), Mark(None, Some(1), None), 2))

  const FLOG1 := [Event(FileInit, 0)]
  const FLOG2 := FLOG1 + [Event(FileInit, 1)]
  const FLOG4 := FLOG2 + [Event(Disposed, 1), Event(FileDone, 1)]

  const FILE_A := Files([0], {}, 1, FLOG1, [A_FILE, PROGRAM])
  const FILE_NEW := Files([1, 0], {1}, 2, FLOG2, [A_FILE, PROGRAM])
  const FILE_B := Files([1, 0], {1}, 2, FLOG2, [B_MARK, A_FILE, PROGRAM])
  const FILE_GONE := Files([0], {}, 2, FLOG4, [B_MARK, A_FILE, PROGRAM])
  const FILE_JUMP := Files([0], {}, 2, FLOG4, [JUMP_FILES, B_MARK, A_FILE, PROGRAM])

  lemma DownOne(n: nat)
    ensures Down(n, 1) == [n] && Down(n, 0) == []
  {
    assert Down(n, 1) == [n] + Down(n, 0);
  }

  lemma OpenA()
    ensures Enabled(START, Enter(false, 1, 0)) && Do(START, Enter(false, 1, 0)) == FILE_A
  {
    var s := Do(START, Enter(false, 1, 0));
    DownOne(0);
    DownOne(1);
    assert Tagged(FileInit, [0]) == [Event(FileInit, 0)] && Tagged(DeferInit, []) == [] && Tagged(SlotInit, []) == [];
    assert s.log == FLOG1 && s.files == [0] && s.stack == FILE_A.stack;
  }

  lemma MakeVariable()
    ensures Enabled(FILE_A, New(1, 0)) && Do(FILE_A, New(1, 0)) == FILE_NEW
  {
    var s := Do(FILE_A, New(1, 0));
    DownOne(1);
    DownOne(2);
    assert Tagged(FileInit, [1]) == [Event(FileInit, 1)] && Tagged(DeferInit, []) == [] && Tagged(SlotInit, []) == [];
    assert s.log == FLOG2 && s.files == [1, 0] && s.heap == {1};
  }

  lemma ArmB()
    ensures Enabled(FILE_NEW, Enter(false, 0, 0)) && Do(FILE_NEW, Enter(false, 0, 0)) == FILE_B
  {
    var s := Do(FILE_NEW, Enter(false, 0, 0));
    DownOne(2);
    assert s.log == FLOG2 && s.files == [1, 0] && s.stack == FILE_B.stack;
  }

  lemma Dispose()
    ensures Enabled(FILE_B, DropFile(1)) && Do(FILE_B, DropFile(1)) == FILE_GONE
  {
    assert FILE_B.heap - {1} == {};
    assert Without([1, 0], 1) == [0];
  }

  lemma JumpToB()
    ensures Enabled(FILE_GONE, Goto(3)) && Do(FILE_GONE, Goto(3)) == FILE_JUMP
  {
    assert FLOG4 + [] == FLOG4;
    assert Do(FILE_GONE, Goto(3)).stack == FILE_JUMP.stack;
  }

  /** The goto lands in B, inside A, and A's file is closed. */
  lemma LiveFileIsClosed() returns (run: seq<State>)
    ensures Run(run) && run[|run| - 1] == FILE_JUMP && Enabled(FILE_JUMP, Go)
    ensures Do(FILE_JUMP, Go).stack == [B_MARK, A_FILE, PROGRAM] && Do(FILE_JUMP, Go).files == []
    ensures 0 in A_FILE.own.files && 0 in FILE_JUMP.files && 0 < JUMP_FILES.job.limit
  {
    run := [START, FILE_A, FILE_NEW, FILE_B, FILE_GONE, FILE_JUMP];
    ClosesA();
    FilesRun(run);
  }

  lemma ClosesA()
    ensures Enabled(FILE_JUMP, Go)
    ensures Do(FILE_JUMP, Go).stack == [B_MARK, A_FILE, PROGRAM] && Do(FILE_JUMP, Go).files == []
  {
    assert Above(Alone, [0], Some(1)) == 1;
    assert FILE_JUMP.stack[1..] == [B_MARK, A_FILE, PROGRAM];
  }

  lemma FilesRun(run: seq<State>)
    requires run == [START, FILE_A, FILE_NEW, FILE_B, FILE_GONE, FILE_JUMP]
    ensures Run(run)
  {
    hide Do, Enabled;
    OpenA();
    MakeVariable();
    ArmB();
    Dispose();
    JumpToB();
    forall i | 0 < i < |run|
      ensures Next(run[i - 1], run[i])
    {
      assert i == 1 || i == 2 || i == 3 || i == 4 || i == 5;
    }
  }

  // ------------------------------------------ a later record in the same place
  //
  // The program makes a variable that contains a file; B arms, the file being its mark; C, inside B,
  // opens a file of its own, disposes of the variable and makes another, which lies where the first
  // one lay; then C goes to B.

  function Reused(id: Id): Address { if id == 2 then 0 else id }

  function Placed(files: seq<Id>, heap: set<Id>, serial: nat, log: seq<Event>, stack: seq<Frame>): State {
    State([], files, [], [], heap, serial, log, stack, false, Reused)
  }

  const B_PLAIN := Frame(1, 1, NOTHING, Mark(None, Some(0), None), Code(false))
  const C_FILE := Frame(1, 2, Own(None, [1], []), Mark(None, Some(1), None), Code(false))
  const JUMP_EARLY :=
    Frame(3, 3, NOTHING, Mark(None, Some(2), None), Jumping(2, None, 5, Lists([], [2, 1], []), Mark(None, Some(0), None), 1))

  const PLOG4 := FLOG2 + [Event(Disposed, 0), Event(FileDone, 0)]
  const PLOG5 := PLOG4 + [Event(FileInit, 2)]

  const P_START := Placed([], {}, 0, [], [PROGRAM])
  const P_NEW := Placed([0], {0}, 1, FLOG1, [PROGRAM])
  const P_B := Placed([0], {0}, 1, FLOG1, [B_PLAIN, PROGRAM])
  const P_C := Placed([1, 0], {0}, 2, FLOG2, [C_FILE, B_PLAIN, PROGRAM])
  const P_GONE := Placed([1], {}, 2, PLOG4, [C_FILE, B_PLAIN, PROGRAM])
  const P_AGAIN := Placed([2, 1], {2}, 3, PLOG5, [C_FILE, B_PLAIN, PROGRAM])
  const P_JUMP := Placed([2, 1], {2}, 3, PLOG5, [JUMP_EARLY, C_FILE, B_PLAIN, PROGRAM])

  lemma MakeFirst()
    ensures Enabled(P_START, New(1, 0)) && Do(P_START, New(1, 0)) == P_NEW
  {
    var s := Do(P_START, New(1, 0));
    DownOne(0);
    DownOne(1);
    assert Tagged(FileInit, [0]) == [Event(FileInit, 0)] && Tagged(DeferInit, []) == [] && Tagged(SlotInit, []) == [];
    assert s.log == FLOG1 && s.files == [0] && s.heap == {0};
  }

  lemma ArmPlain()
    ensures Enabled(P_NEW, Enter(false, 0, 0)) && Do(P_NEW, Enter(false, 0, 0)) == P_B
  {
    var s := Do(P_NEW, Enter(false, 0, 0));
    DownOne(1);
    assert s.log == FLOG1 && s.files == [0] && s.stack == P_B.stack;
  }

  lemma OpenC()
    ensures Enabled(P_B, Enter(false, 1, 0)) && Do(P_B, Enter(false, 1, 0)) == P_C
  {
    var s := Do(P_B, Enter(false, 1, 0));
    DownOne(1);
    DownOne(2);
    assert Tagged(FileInit, [1]) == [Event(FileInit, 1)] && Tagged(DeferInit, []) == [] && Tagged(SlotInit, []) == [];
    assert s.log == FLOG2 && s.files == [1, 0] && s.stack == P_C.stack;
  }

  lemma DisposeFirst()
    ensures Enabled(P_C, DropFile(0)) && Do(P_C, DropFile(0)) == P_GONE
  {
    assert P_C.heap - {0} == {};
    assert Without([1, 0], 0) == [1];
  }

  lemma MakeSecond()
    ensures Enabled(P_GONE, New(1, 0)) && Do(P_GONE, New(1, 0)) == P_AGAIN
  {
    var s := Do(P_GONE, New(1, 0));
    DownOne(2);
    DownOne(3);
    assert Tagged(FileInit, [2]) == [Event(FileInit, 2)] && Tagged(DeferInit, []) == [] && Tagged(SlotInit, []) == [];
    assert s.log == PLOG5 && s.files == [2, 1] && s.heap == {2};
    SecondIsFresh();
  }

  lemma SecondIsFresh()
    ensures Fresh(P_GONE, 1)
  {
    forall y: Id | InUse(P_GONE, y)
      ensures y == 1
    {
    }
  }

  lemma JumpEarly()
    ensures Enabled(P_AGAIN, Goto(2)) && Do(P_AGAIN, Goto(2)) == P_JUMP
  {
    assert PLOG5 + [] == PLOG5;
    assert Do(P_AGAIN, Goto(2)).stack == P_JUMP.stack;
  }

  lemma StopsEarly()
    ensures Enabled(P_JUMP, Go)
    ensures Do(P_JUMP, Go).stack == [B_PLAIN, PROGRAM] && Do(P_JUMP, Go).files == [2, 1]
    ensures FirstAt(P_JUMP.at, P_JUMP.files, JUMP_EARLY.job.mark.f) == Some(2)
    ensures Below(P_JUMP.files, JUMP_EARLY.job.limit) == []
    ensures !InFrame([B_PLAIN, PROGRAM], 1) && Do(P_JUMP, Go).heap == {2} && 1 in C_FILE.own.files
  {
    assert Below([2, 1], 1) == Below([1], 1) == [];
    assert Above(Reused, [2, 1], Some(0)) == 0;
    assert P_JUMP.stack[2..] == [B_PLAIN, PROGRAM];
  }

  /** The goto lands in B, and the file of C, which is no more, stays on the list: the walk has
      stopped at the later record, although nothing older than B was there to be kept. */
  lemma DeadFileStays() returns (run: seq<State>)
    ensures Run(run) && run[|run| - 1] == P_JUMP && Enabled(P_JUMP, Go)
    ensures var s' := Do(P_JUMP, Go);
            && s'.stack == [B_PLAIN, PROGRAM] && 1 in C_FILE.own.files && 1 in s'.files
            && !InFrame(s'.stack, 1) && 1 !in s'.heap
    ensures var j := JUMP_EARLY.job;
            FirstAt(P_JUMP.at, P_JUMP.files, j.mark.f) == Some(2) && Below(P_JUMP.files, j.limit) == []
  {
    hide Do, Enabled, InFrame, FirstAt, Below;
    run := [P_START, P_NEW, P_B, P_C, P_GONE, P_AGAIN, P_JUMP];
    StopsEarly();
    assert [2, 1][1] == 1;
    EarlyRun(run);
  }

  lemma EarlyRun(run: seq<State>)
    requires run == [P_START, P_NEW, P_B, P_C, P_GONE, P_AGAIN, P_JUMP]
    ensures Run(run)
  {
    hide Do, Enabled;
    MakeFirst();
    ArmPlain();
    OpenC();
    DisposeFirst();
    MakeSecond();
    JumpEarly();
    forall i | 0 < i < |run|
      ensures Next(run[i - 1], run[i])
    {
      assert i == 1 || i == 2 || i == 3 || i == 4 || i == 5 || i == 6;
    }
  }

  // ------------------------------------------------------------ a halt left
  //
  // A has a statement armed and halts; the statement's runner calls a routine of A's that goes to a
  // label of A.

  const HALT_A := Frame(1, 1, NOTHING, Mark(Some(0), None, None), Halting(7, 1, Lists([0], [], [])))
  const HALT_RUNNER := Frame(1, 1, NOTHING, NO_MARK, Code(true))
  const HALT_JUMP := Frame(1, 1, NOTHING, NO_MARK, Jumping(2, None, 3, Lists([], [], []), Mark(Some(0), None, None), 1))

  const HLOG2 := LOG1 + [Event(Ran, 0)]
  const HLOG3 := HLOG2 + [Event(Lost, 1)]
  const HLOG4 := HLOG3 + [Event(Astray, 1)]

  const HALTING := With([0], 1, LOG1, [HALT_A, BLOCK_A, PROGRAM])
  const HALT_RUNS := With([], 1, HLOG2, [HALT_RUNNER, HALT_A, BLOCK_A, PROGRAM])
  const HALT_JUMPS := With([], 1, HLOG3, [HALT_JUMP, HALT_RUNNER, HALT_A, BLOCK_A, PROGRAM])
  const LEFT := With([], 1, HLOG4, [BLOCK_A, PROGRAM])

  lemma HaltA()
    ensures Enabled(IN_A, Halt(7)) && Do(IN_A, Halt(7)) == HALTING
  {
    assert Do(IN_A, Halt(7)).stack == HALTING.stack;
  }

  lemma HaltRunsA()
    ensures Enabled(HALTING, Go) && Do(HALTING, Go) == HALT_RUNS
  {
    assert Without([0], 0) == [];
    assert Do(HALTING, Go).stack == HALT_RUNS.stack;
  }

  lemma GoToA()
    ensures Enabled(HALT_RUNS, Goto(2)) && Do(HALT_RUNS, Goto(2)) == HALT_JUMPS
  {
    assert Do(HALT_RUNS, Goto(2)).stack == HALT_JUMPS.stack;
  }

  lemma LandInA()
    ensures Enabled(HALT_JUMPS, Go) && Do(HALT_JUMPS, Go) == LEFT
  {
    assert HALT_JUMPS.stack[3..] == [BLOCK_A, PROGRAM];
    assert Tagged(FileDone, []) == [] && SlotsDone([]) == [];
    assert Do(HALT_JUMPS, Go).log == HLOG4;
  }

  /** The program is out of its `halt`: A goes on, nothing has been delivered to the system, and
      what the halt had to do is left undone. */
  lemma HaltIsLeft() returns (run: seq<State>)
    ensures Run(run) && |run| == 6
    ensures Enabled(run[1], Halt(7)) && run[2] == Do(run[1], Halt(7)) && run[2].stack[0].job.Halting?
    ensures run[5] == LEFT && run[5].stack == run[1].stack == [BLOCK_A, PROGRAM] && !run[5].over
    ensures !Has(run[5].log, Exited) && Enabled(run[5], Leave)
  {
    hide Do, Enabled;
    run := [START, IN_A, HALTING, HALT_RUNS, HALT_JUMPS, LEFT];
    HaltA();
    LeftGoesOn();
    LeftRun(run);
  }

  lemma LeftGoesOn()
    ensures !Has(LEFT.log, Exited) && Enabled(LEFT, Leave)
  {
  }

  lemma LeftRun(run: seq<State>)
    requires run == [START, IN_A, HALTING, HALT_RUNS, HALT_JUMPS, LEFT]
    ensures Run(run)
  {
    hide Do, Enabled;
    EnterA();
    HaltA();
    HaltRunsA();
    GoToA();
    LandInA();
    forall i | 0 < i < |run|
      ensures Next(run[i - 1], run[i])
    {
      assert i == 1 || i == 2 || i == 3 || i == 4 || i == 5;
    }
  }
}
