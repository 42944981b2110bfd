/** Unwinding (runtime/pasrt.c): the three lists of live deferred blocks, files and handles, cut
    back by a non-local goto or by `halt` while the abandoned blocks' runners execute program
    text that may itself enter blocks, create and dispose of heap variables, jump to any block
    that is still active, or halt again. One thread's calls into the runtime are the steps of a
    machine; what the program does between them is left open. */
module Unwinding {
  type Id = nat
  type Address = nat

  datatype Option<T> = None | Some(value: T)

  /** A handle variable and the foreign value it holds (`NULL` is None). */
  datatype Slot = Slot(id: Id, held: Option<nat>)

  /** `Lost` and `Astray` record nothing the runtime does: a goto that begins with its deferred mark
      off the list, and a landing one of whose walks met nothing where its mark points. */
  datatype Tag =
    DeferInit | Ran | FileInit | FileDone | SlotInit | SlotDone | Disposed | Got | Closed | Lost | Astray | AstrayVars | Exited

  datatype Event = Event(tag: Tag, n: nat)

  /** `struct pas_jump`: the three heads as they stood when the block armed it. The code keeps their
      addresses; here each is the number of its record, and State.at says where the record lies. */
  datatype Mark = Mark(d: Option<Id>, f: Option<Id>, h: Option<Id>)

  /** The records that lie in an activation's frame and its epilogue has still to finish. */
  datatype Own = Own(defer: Option<Id>, files: seq<Id>, slots: seq<Id>)

  /** The three lists as an unwinding found them. */
  datatype Lists = Lists(defers: seq<Id>, files: seq<Id>, slots: seq<Id>)

  datatype Job =
    | Code(runner: bool)        // program text: a block's, or a runner's
    | Epilogue(runner: bool)    // on the way out; the jump record is still active
    | Jumping(target: nat, cursor: Option<Id>, since: nat, before: Lists, mark: Mark, limit: nat)   // pas_jump_go
    | Halting(status: nat, since: nat, before: Lists)                                               // pas_halt

  /** An activation. Its records have the serial numbers from `born` up to `armed`, where its jump
      record was armed. */
  datatype Frame = Frame(born: nat, armed: nat, own: Own, mark: Mark, job: Job)

  datatype State = State(
    defers: seq<Id>,
    files: seq<Id>,
    slots: seq<Slot>,
    loose: seq<Slot>,       // handle variables whose record is on the list no more
    heap: set<Id>,          // the files and handles of variables made by `new`
    serial: nat,
    log: seq<Event>,
    stack: seq<Frame>,      // innermost first
    over: bool,
    at: Id -> Address)      // where each record lies, or will lie when it is made

  const NOTHING := Own(None, [], [])

  // ------------------------------------------------------------ small tools

  function Head(s: seq<Id>): Option<Id> { if s == [] then None else Some(s[0]) }

  /** `lo + n - 1` down to `lo`: the serial numbers of n records as their list then shows them. */
  function Down(lo: nat, n: nat): seq<Id> { if n == 0 then [] else [lo + n - 1] + Down(lo, n - 1) }

  function Members(ids: seq<Id>): set<Id> { set x | x in ids }

  function Tagged(tag: Tag, ids: seq<Id>): seq<Event> {
    if ids == [] then [] else [Event(tag, ids[0])] + Tagged(tag, ids[1..])
  }

  /** Unlinking the record id. */
  function Without(s: seq<Id>, id: Id): seq<Id> {
    if s == [] then [] else if s[0] == id then s[1..] else [s[0]] + Without(s[1..], id)
  }

  /** `d->next`, which is null for a record that is on no list. */
  function NextOf(s: seq<Id>, id: Id): Option<Id> {
    if s == [] then None else if s[0] == id then Head(s[1..]) else NextOf(s[1..], id)
  }

  /** How many records the walk from the head passes before it meets one at the mark's address. */
  function Above(at: Id -> Address, s: seq<Id>, mark: Option<Id>): (k: nat)
    ensures k <= |s|
  {
    if s == [] || (mark.Some? && at(s[0]) == at(mark.value)) then 0 else 1 + Above(at, s[1..], mark)
  }

  /** The record at which the walk stops: the mark's own, a later one at the same address, or none. */
  function FirstAt(at: Id -> Address, s: seq<Id>, mark: Option<Id>): Option<Id> {
    var k := Above(at, s, mark);
    if k < |s| then Some(s[k]) else None
  }

  /** The walk of a mark that is a record meets none at its address. */
  predicate Missed(at: Id -> Address, s: seq<Id>, mark: Option<Id>) { mark.Some? && FirstAt(at, s, mark) == None }

  /** The part of a list that was registered before number n. */
  function Below(s: seq<Id>, n: nat): seq<Id> {
    if s == [] || s[0] < n then s else Below(s[1..], n)
  }

  /** A mark that is a record, and the record has left the list. */
  predicate Gone(mark: Option<Id>, s: seq<Id>) { mark.Some? && mark.value !in s }

  function SlotIds(slots: seq<Slot>): seq<Id> {
    if slots == [] then [] else [slots[0].id] + SlotIds(slots[1..])
  }

  function HeldBy(slots: seq<Slot>, id: Id): Option<nat> {
    if slots == [] then None else if slots[0].id == id then slots[0].held else HeldBy(slots[1..], id)
  }

  function Put(slots: seq<Slot>, id: Id, v: Option<nat>): seq<Slot> {
    if slots == [] then []
    else if slots[0].id == id then [Slot(id, v)] + slots[1..]
    else [slots[0]] + Put(slots[1..], id, v)
  }

  function SlotsWithout(slots: seq<Slot>, id: Id): seq<Slot> {
    if slots == [] then []
    else if slots[0].id == id then slots[1..]
    else [slots[0]] + SlotsWithout(slots[1..], id)
  }

  function Empty(ids: seq<Id>): seq<Slot> {
    if ids == [] then [] else [Slot(ids[0], None)] + Empty(ids[1..])
  }

  /** The closer is called for a value and for nothing else. */
  function Closing(v: Option<nat>): seq<Event> { if v.Some? then [Event(Closed, v.value)] else [] }

  function Getting(v: Option<nat>): seq<Event> { if v.Some? then [Event(Got, v.value)] else [] }

  /** pas_handle_done over a run of slots, most recent first. */
  function SlotsDone(slots: seq<Slot>): seq<Event> {
    if slots == [] then []
    else Closing(slots[0].held) + [Event(SlotDone, slots[0].id)] + SlotsDone(slots[1..])
  }

  // ---------------------------------------------------------------- the steps

  datatype Act =
    | Enter(defers: bool, files: nat, slots: nat)
    | New(files: nat, slots: nat)
    | DropFile(id: Id)
    | DropSlot(id: Id)
    | Leave
    | EndFile(id: Id)
    | EndSlot(id: Id)
    | Goto(target: nat)
    | Halt(status: nat)
    | Set(id: Id, v: Option<nat>)
    | Move(src: Id, dst: Id)
    | Release(id: Id)
    | Go

  function Target(stack: seq<Frame>, height: nat): Frame
    requires 0 < height <= |stack|
  {
    stack[|stack| - height]
  }

  /** A block's activation keeps its jump record active until its epilogue is through. */
  predicate IsBlock(f: Frame) { (f.job.Code? || f.job.Epilogue?) && !f.job.runner }

  /** A goto may be made to any block that is still active. A deferred statement contains none, but
      what it calls may: also to the block whose runner is running, or to one that an unwinding in
      progress has passed already. */
  predicate CanReach(stack: seq<Frame>, height: nat) { 0 < height <= |stack| && IsBlock(Target(stack, height)) }

  predicate Live(s: State, id: Id) { id in SlotIds(s.slots) || id in SlotIds(s.loose) }

  /** The number is that of a record in an active activation's frame. */
  predicate InFrame(stack: seq<Frame>, id: Id) { exists f | f in stack :: f.born <= id < f.armed }

  /** The record's memory is in use. */
  predicate InUse(s: State, id: Id) {
    id in s.heap || InFrame(s.stack, id) || id in s.defers || id in s.files || id in SlotIds(s.slots)
  }

  /** The next n records lie apart from each other and from all that is in use: where a record lay
      that is no more, another may lie. */
  ghost predicate Fresh(s: State, n: nat) {
    forall x: Id, y: Id | s.serial <= x < s.serial + n && (InUse(s, y) || s.serial <= y < s.serial + n) && x != y ::
      s.at(x) != s.at(y)
  }

  ghost predicate Enabled(s: State, a: Act) {
    && !s.over && s.stack != []
    && var top := s.stack[0];
    match a
    case Enter(nd, nf, nh) => top.job.Code? && Fresh(s, nf + nh + if nd then 1 else 0)
    case New(nf, nh) => top.job.Code? && Fresh(s, nf + nh)
    case DropFile(id) => top.job.Code? && id in s.heap && !Live(s, id)
    case DropSlot(id) => top.job.Code? && id in s.heap && Live(s, id)
    case Leave => top.job.Code? && |s.stack| > 1
    case EndFile(id) => top.job.Epilogue? && top.own.defer == None && id in top.own.files
    case EndSlot(id) => top.job.Epilogue? && top.own.defer == None && id in top.own.slots && Live(s, id)
    case Goto(t) => top.job.Code? && CanReach(s.stack, t)
    case Halt(_) => top.job.Code?
    case Set(id, _) => top.job.Code? && Live(s, id)
    case Move(src, dst) => top.job.Code? && Live(s, src) && Live(s, dst)
    case Release(id) => top.job.Code? && Live(s, id)
    case Go =>
      match top.job
      case Code(_) => false
      case Epilogue(_) => top.own.defer.Some? || (top.own == NOTHING && |s.stack| > 1)
      case Jumping(t, _, _, _, _, _) => CanReach(s.stack[1..], t)
      case Halting(_, _, _) => true
  }

  function HeadsOf(s: State): Mark { Mark(Head(s.defers), Head(s.files), Head(SlotIds(s.slots))) }

  function ListsOf(s: State): Lists { Lists(s.defers, s.files, SlotIds(s.slots)) }

  function WithTop(s: State, f: Frame): State
    requires s.stack != []
  {
    s.(stack := [f] + s.stack[1..])
  }

  function Logged(s: State, more: seq<Event>): State { s.(log := s.log + more) }

  /** pas_defer_done on a linked record: unlink, then run. */
  function RunDeferred(s: State, d: Id): State {
    var s1 := Logged(s.(defers := Without(s.defers, d)), [Event(Ran, d)]);
    s1.(stack := [Frame(s.serial, s.serial, NOTHING, HeadsOf(s1), Code(true))] + s1.stack)
  }

  function EnterBlock(s: State, nd: bool, nf: nat, nh: nat): State {
    var fs := Down(s.serial, nf);
    var hs := Down(s.serial + nf, nh);
    var ds := if nd then [s.serial + nf + nh] else [];
    var s1 := Logged(s.(defers := ds + s.defers, files := fs + s.files, slots := Empty(hs) + s.slots,
                        serial := s.serial + nf + nh + |ds|),
                     Tagged(DeferInit, ds) + Tagged(FileInit, fs) + Tagged(SlotInit, hs));
    s1.(stack := [Frame(s.serial, s1.serial, Own(Head(ds), fs, hs), HeadsOf(s1), Code(false))] + s.stack)
  }

  /** `new` of a variable that contains files and handles: their records outlive every block. */
  function NewVariable(s: State, nf: nat, nh: nat): State {
    var s1 := EnterBlock(s, false, nf, nh);
    s1.(stack := s.stack, heap := s.heap + Members(Down(s.serial, nf + nh)))
  }

  /** pas_file_done on a file of a variable that goes away; a file already off the list stays off. */
  function FileGoes(s: State, id: Id, why: seq<Event>): State {
    if id in s.files then Logged(s.(files := Without(s.files, id)), why + [Event(FileDone, id)]) else Logged(s, why)
  }

  /** pas_handle_done likewise: what the variable holds is closed, on the list or off it. */
  function SlotGoes(s: State, id: Id, why: seq<Event>): State {
    if id in SlotIds(s.slots) then
      Logged(s.(slots := SlotsWithout(s.slots, id)), why + (Closing(HeldBy(s.slots, id)) + [Event(SlotDone, id)]))
    else
      Logged(s.(loose := SlotsWithout(s.loose, id)), why + Closing(HeldBy(s.loose, id)))
  }

  function ValueOf(s: State, id: Id): Option<nat> {
    if id in SlotIds(s.slots) then HeldBy(s.slots, id) else HeldBy(s.loose, id)
  }

  function WithValue(s: State, id: Id, v: Option<nat>): State {
    if id in SlotIds(s.slots) then s.(slots := Put(s.slots, id, v)) else s.(loose := Put(s.loose, id, v))
  }

  /** pas_handle_set. */
  function Assigned(s: State, id: Id, v: Option<nat>): State {
    WithValue(Logged(s, Closing(ValueOf(s, id))), id, v)
  }

  function LandSlots(s: State, mark: Mark): (j: nat)
    ensures j <= |s.slots|
  {
    SlotIdsLength(s.slots);
    Above(s.at, SlotIds(s.slots), mark.h)
  }

  /** Everything above the marks is closed, files before handles, and the stack is cut. */
  function Land(s: State, t: nat, mark: Mark, limit: nat): State
    requires 0 < t <= |s.stack|
  {
    var i := Above(s.at, s.files, mark.f);
    var j := LandSlots(s, mark);
    var rest := s.stack[|s.stack| - t..];
    Logged(s.(files := s.files[i..], slots := s.slots[j..], loose := Empty(SlotIds(s.slots[..j])) + s.loose,
              stack := [rest[0].(job := Code(false))] + rest[1..]),
           Tagged(FileDone, s.files[..i]) + SlotsDone(s.slots[..j]) + Strayed(s, mark, limit))
  }

  function Strayed(s: State, mark: Mark, limit: nat): seq<Event> {
    (if Gone(mark.d, s.defers) then [Event(Astray, limit)] else [])
    + if Missed(s.at, s.files, mark.f) || Missed(s.at, SlotIds(s.slots), mark.h) then [Event(AstrayVars, limit)] else []
  }

  function Finish(s: State, status: nat): State {
    Logged(s.(files := [], slots := [], stack := [], over := true),
           Tagged(FileDone, s.files) + SlotsDone(s.slots) + [Event(Exited, status)])
  }

  /** One turn of pas_jump_go's first loop: the next record is read before this one is finished,
      and a record that is finished already has no next and nothing to run. */
  function WalkOn(s: State, d: Id): State
    requires s.stack != [] && s.stack[0].job.Jumping?
  {
    var s1 := WithTop(s, s.stack[0].(job := s.stack[0].job.(cursor := NextOf(s.defers, d))));
    if d in s.defers then RunDeferred(s1, d) else s1
  }

  function BeginJump(s: State, t: nat): State
    requires CanReach(s.stack, t)
  {
    var to := Target(s.stack, t);
    var s1 := Logged(s, if Gone(to.mark.d, s.defers) then [Event(Lost, to.armed)] else []);
    var job := Jumping(t, Head(s.defers), |s1.log|, ListsOf(s), to.mark, to.armed);
    s1.(stack := [Frame(s.serial, s.serial, NOTHING, HeadsOf(s), job)] + s.stack)
  }

  function BeginHalt(s: State, status: nat): State {
    s.(stack := [Frame(s.serial, s.serial, NOTHING, HeadsOf(s), Halting(status, |s.log|, ListsOf(s)))] + s.stack)
  }

  /** The block's epilogue: its runner first. */
  function EpilogueStep(s: State): State
    requires s.stack != []
  {
    var top := s.stack[0];
    if top.own.defer.Some? then
      var s1 := WithTop(s, top.(own := top.own.(defer := None)));
      if top.own.defer.value in s.defers then RunDeferred(s1, top.own.defer.value) else s1
    else s.(stack := s.stack[1..])
  }

  function Do(s: State, a: Act): State
    requires Enabled(s, a)
  {
    var top := s.stack[0];
    match a
    case Enter(nd, nf, nh) => EnterBlock(s, nd, nf, nh)
    case New(nf, nh) => NewVariable(s, nf, nh)
    case DropFile(id) => FileGoes(s.(heap := s.heap - {id}), id, [Event(Disposed, id)])
    case DropSlot(id) => SlotGoes(s.(heap := s.heap - {id}), id, [Event(Disposed, id)])
    case Leave => WithTop(s, top.(job := Epilogue(top.job.runner)))
    case EndFile(id) => FileGoes(WithTop(s, top.(own := top.own.(files := Without(top.own.files, id)))), id, [])
    case EndSlot(id) => SlotGoes(WithTop(s, top.(own := top.own.(slots := Without(top.own.slots, id)))), id, [])
    case Goto(t) => BeginJump(s, t)
    case Halt(status) => BeginHalt(s, status)
    case Set(id, v) => Assigned(Logged(s, Getting(v)), id, v)
    case Move(src, dst) => Assigned(WithValue(s, src, None), dst, ValueOf(s, src))
    case Release(id) => Assigned(s, id, None)
    case Go =>
      match top.job
      case Epilogue(_) => EpilogueStep(s)
      case Jumping(t, cursor, _, _, mark, limit) =>
        if cursor == None || cursor == mark.d then Land(s, t, mark, limit) else WalkOn(s, cursor.value)
      case Halting(status, _, _) => if s.defers != [] then RunDeferred(s, s.defers[0]) else Finish(s, status)
  }

  /** Where records will lie is left open: every choice of the allocator has its runs. */
  ghost predicate Init(s: State) {
    s == State([], [], [], [], {}, 0, [], [Frame(0, 0, NOTHING, Mark(None, None, None), Code(false))], false, s.at)
  }

  ghost predicate Next(s: State, s': State) { exists a: Act :: Enabled(s, a) && s' == Do(s, a) }

  ghost predicate Run(run: seq<State>) {
    run != [] && Init(run[0]) && forall i | 0 < i < |run| :: Next(run[i - 1], run[i])
  }

  lemma SlotIdsLength(slots: seq<Slot>)
    ensures |SlotIds(slots)| == |slots|
  {
  }

  // --------------------------------------------------------------- invariants

  predicate Sorted(s: seq<Id>) { forall i, j | 0 <= i < j < |s| :: s[i] > s[j] }

  predicate Bounded(s: seq<Id>, n: nat) { forall x | x in s :: x < n }

  /** Of what is on the list, the mark is the youngest that was registered before `armed`. */
  predicate Fits(s: seq<Id>, mark: Option<Id>, armed: nat) {
    && (mark.Some? ==> mark.value < armed)
    && forall x | x in s && x < armed :: mark.Some? && x <= mark.value
  }

  /** Of what is on the list and was registered before `armed`, only the mark lies where the mark does. */
  predicate Sited(at: Id -> Address, s: seq<Id>, mark: Option<Id>, armed: nat) {
    mark.Some? ==> forall x | x in s && x < armed :: at(x) == at(mark.value) ==> x == mark.value
  }

  predicate MarksSited(s: State) {
    forall f | f in s.stack :: Sited(s.at, s.files, f.mark.f, f.armed) && Sited(s.at, SlotIds(s.slots), f.mark.h, f.armed)
  }

  /** What is in use at one time lies apart. */
  ghost predicate Apart(s: State) { forall x: Id, y: Id :: InUse(s, x) && InUse(s, y) && x != y ==> s.at(x) != s.at(y) }

  /** The deferred records that the marks and the saved successors of unwindings name are in frames
      beneath, and so their memory is in use. */
  predicate Held(stack: seq<Frame>) {
    forall f | f in stack ::
      && (f.mark.d.Some? ==> f.mark.d.value < f.armed && InFrame(stack, f.mark.d.value))
      && (f.job.Jumping? && f.job.cursor.Some? ==> f.job.cursor.value < f.born && InFrame(stack, f.job.cursor.value))
  }

  ghost predicate Placed(s: State) { MarksSited(s) && Apart(s) && Held(s.stack) }

  /** After a landing gone astray nothing that an unwinding has still to run is left. */
  predicate Drained(s: State) {
    forall f | f in s.stack && f.job.Jumping? :: Since(s.log, f.job.since, Astray) ==> Below(s.defers, f.born) == []
  }

  /** The most recent record first, at all times. */
  predicate Ordered(s: State) {
    && Sorted(s.defers) && Sorted(s.files) && Sorted(SlotIds(s.slots))
    && Bounded(s.defers, s.serial) && Bounded(s.files, s.serial) && Bounded(SlotIds(s.slots), s.serial)
  }

  /** An inner activation's records are younger than an outer one's. */
  predicate Stacked(stack: seq<Frame>, bound: nat) {
    stack == [] ||
    var f := stack[0];
    && f.born <= f.armed <= bound && (f.job.Jumping? || f.job.Halting? ==> f.own == NOTHING)
    && (f.own.defer.Some? ==> f.born <= f.own.defer.value < f.armed)
    && (forall x | x in f.own.files :: f.born <= x) && (forall x | x in f.own.slots :: f.born <= x)
    && Stacked(stack[1..], f.born)
  }

  predicate MarksFit(stack: seq<Frame>, s: Lists) {
    stack == [] ||
    var f := stack[0];
    && Fits(s.defers, f.mark.d, f.armed) && Fits(s.files, f.mark.f, f.armed) && Fits(s.slots, f.mark.h, f.armed)
    && MarksFit(stack[1..], s)
  }

  function Owners(stack: seq<Frame>): set<Id> {
    if stack == [] then {}
    else (if stack[0].own.defer.Some? then {stack[0].own.defer.value} else {}) + Owners(stack[1..])
  }

  /** A deferred record on the list lies in the frame of an activation on the stack. */
  predicate Owned(s: State) { forall d | d in s.defers :: d in Owners(s.stack) }

  /** A jump's target stays where it is, with the marks the jump goes by. */
  predicate Aimed(stack: seq<Frame>) {
    stack == [] ||
    (Aimed(stack[1..]) &&
     (stack[0].job.Jumping? ==>
        var j := stack[0].job;
        CanReach(stack[1..], j.target)
        && Target(stack[1..], j.target).mark == j.mark && Target(stack[1..], j.target).armed == j.limit))
  }

  predicate Has(log: seq<Event>, tag: Tag) { exists e :: e in log && e.tag == tag }

  predicate Since(log: seq<Event>, since: nat, tag: Tag) { since <= |log| && Has(log[since..], tag) }

  /** A jump that control can come back to: the saved successor is the first of what was there when
      it began and is left, and its mark is; or a landing inside one of its runners has gone astray
      and left nothing. */
  predicate CursorGood(f: Frame, defers: seq<Id>, log: seq<Event>)
    requires f.job.Jumping?
  {
    var j := f.job;
    var left := Below(defers, f.born);
    || (j.cursor == Head(left) && (j.mark.d.Some? && j.mark.d.value in j.before.defers ==> j.mark.d.value in left))
    || (left == [] && Since(log, j.since, Astray))
  }

  /** What control can return to is sound; beneath an unwinding that is what it can land on. */
  predicate Resumable(stack: seq<Frame>, defers: seq<Id>, log: seq<Event>)
    decreases |stack|, 0
  {
    stack == [] ||
    match stack[0].job
    case Jumping(_, _, _, _, _, _) => CursorGood(stack[0], defers, log) && Beneath(stack[1..], defers, log)
    case Halting(_, _, _) => Beneath(stack[1..], defers, log)
    case _ => Resumable(stack[1..], defers, log)
  }

  predicate Beneath(stack: seq<Frame>, defers: seq<Id>, log: seq<Event>)
    decreases |stack|, 1
  {
    stack == [] ||
    ((IsBlock(stack[0]) && !Gone(stack[0].mark.d, defers) ==> Resumable(stack, defers, log))
     && Beneath(stack[1..], defers, log))
  }

  /** The runners of `ids` in the order in which they were run. */
  function RanOf(log: seq<Event>, ids: seq<Id>): seq<Id> {
    if log == [] then []
    else
      var e := log[|log| - 1];
      var r := RanOf(log[..|log| - 1], ids);
      if e.tag == Ran && e.n in ids then r + [e.n] else r
  }

  /** Since an unwinding began: the runners it found have been run from the head on, the rest are
      still to come; and unless a landing has gone astray, every file and handle it found is on its
      list or has been disposed of by the program. */
  predicate Accounted(s: State, since: nat, before: Lists, born: nat) {
    && since <= |s.log|
    && Sorted(before.defers) && Bounded(before.defers, born) && Bounded(before.files, born) && Bounded(before.slots, born)
    && RanOf(s.log[since..], before.defers) + Below(s.defers, born) == before.defers
    && (forall x | x in s.files && x < born :: x in before.files)
    && (forall x | x in SlotIds(s.slots) && x < born :: x in before.slots)
    && (!Since(s.log, since, AstrayVars) ==>
          && (forall x | x in before.files :: x in s.files || Event(Disposed, x) in s.log[since..])
          && (forall x | x in before.slots :: x in SlotIds(s.slots) || Event(Disposed, x) in s.log[since..]))
  }

  predicate FrameAccounted(f: Frame, s: State) {
    match f.job
    case Jumping(_, _, since, before, mark, limit) =>
      && Accounted(s, since, before, f.born)
      && Fits(before.defers, mark.d, limit) && limit <= f.born
      && (Gone(mark.d, before.defers) ==> Since(s.log, 0, Lost))
    case Halting(_, since, before) => Accounted(s, since, before, f.born)
    case _ => true
  }

  predicate History(stack: seq<Frame>, s: State) {
    stack == [] || (FrameAccounted(stack[0], s) && History(stack[1..], s))
  }

  function Times(log: seq<Event>, tag: Tag, n: nat): nat {
    if log == [] then 0 else (if log[0] == Event(tag, n) then 1 else 0) + Times(log[1..], tag, n)
  }

  function Count(ids: seq<Id>, x: Id): nat {
    if ids == [] then 0 else (if ids[0] == x then 1 else 0) + Count(ids[1..], x)
  }

  function Is(v: Option<nat>, x: nat): nat { if v == Some(x) then 1 else 0 }

  /** In how many slots the value is. */
  function Holding(slots: seq<Slot>, v: nat): nat {
    if slots == [] then 0 else Is(slots[0].held, v) + Holding(slots[1..], v)
  }

  /** What has been registered is on a list or has been dealt with once; what has been obtained is
      held or has been closed. */
  predicate ConservedAt(s: State, x: nat) {
    && Times(s.log, DeferInit, x) == Times(s.log, Ran, x) + Count(s.defers, x)
    && Times(s.log, FileInit, x) == Times(s.log, FileDone, x) + Count(s.files, x)
    && Times(s.log, SlotInit, x) == Times(s.log, SlotDone, x) + Count(SlotIds(s.slots), x)
    && Times(s.log, Got, x) == Times(s.log, Closed, x) + Holding(s.slots, x) + Holding(s.loose, x)
  }

  /** A record is registered under its number once. */
  predicate NumberedAt(s: State, x: nat) {
    var most := if x < s.serial then 1 else 0;
    Times(s.log, DeferInit, x) <= most && Times(s.log, FileInit, x) <= most && Times(s.log, SlotInit, x) <= most
  }

  ghost predicate Sound(s: State) {
    && Ordered(s) && Stacked(s.stack, s.serial) && MarksFit(s.stack, ListsOf(s)) && Owned(s) && Aimed(s.stack)
    && Resumable(s.stack, s.defers, s.log) && History(s.stack, s)
    && (Since(s.log, 0, Astray) ==> Since(s.log, 0, Lost))
  }

  ghost predicate Inv(s: State) {
    Sound(s) && Placed(s) && Drained(s) && (forall x: nat :: ConservedAt(s, x)) && (forall x: nat :: NumberedAt(s, x))
    && (s.over ==> s.stack == [] && s.files == [] && s.slots == [])
  }
}
