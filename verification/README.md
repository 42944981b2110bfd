# Verified model of the Pascal runtime

This project models, in Dafny, the parts of the runtime and of the lowering catalogue in which the
most can go wrong, and proves what they are for. `dafny verify dfyconfig.toml` checks all of it.
There is one module a file; a routine that works by changing things in place is a method proved
against a function, and the properties are proved of the function or of every run.

| file | what it models |
|---|---|
| `Utf8` | decoding, encoding and validating UTF-8 |
| `UnicodeTables` | what the generated character tables are known to satisfy, and the generator's derivation of it |
| `CanonicalOrder`, `Normalization`, `Composition`, `CanonicalEquivalence`, `NfcText` | Normalization Form C, one bounded segment at a time; what composition takes in and what it leaves |
| `Graphemes` | extended grapheme clusters by a scan that starts afresh at every boundary |
| `ChannelProtocol`, `ChannelInvariant`, `SelectRotation`, `ChannelTheorems`, `ChannelProgress`, `ChannelMissed`, `SelectRounds`, `SelectAnswers`, `ChannelCalls`, `ChannelRing` | channels and `select` as steps of many threads, who can go on, the one wakeup that is missed, what each call has done when it returns; the ring buffer |
| `TaskProtocol`, `TaskCalls` | spawned activations, `wait`, the block's join, counted records; what each call has done when it returns |
| `Unwinding`, `UnwindingLists`, `UnwindingSteps`, `UnwindingPlaces`, `UnwindingTheorems`, `UnwindingEnds`, `UnwindingCalls`, `UnwindingReturns`, `UnwindingAstray`, `LiveList` | deferred statements, files and handles under non-local goto, `dispose` and `halt`; how an unwinding ends; runs in which one goes astray or is left; the linked lists |
| `NumberSyntax`, `FileReader` | the lazy text reader, its two give-backs, reading numbers |
| `RealWriter` | exact decimal rounding and the two written forms of a real |
| `BranchCoverage` | the open-addressed set of branch decisions |
| `SocketReader` | lines from a socket however its bytes arrive |
| `Power`, `Lowering` | integer `pow`, and the emitted `mod`, `div`, `succ`, subscript and set sequences at every width |

## How to read it

**The character tables are abstract.** `UnicodeTables.Valid` collects what the C code relies on and
`UnicodeTables.Generate` shows that the generator's own checks and derivation establish it from a
database that satisfies `IsDatabase`. `Graphemes.Consistent` is the same for the break properties:
controls are neither pictographic nor conjunct-valued, ZWJ is not pictographic, and conjunct Extend or Linker implies cluster
Extend or ZWJ.

**Threads are steps.** In `ChannelProtocol` and `TaskProtocol` a state holds every channel or record
and the place of every thread; `Next` lets any thread take any enabled step, a parked thread may be
woken for no reason, and a bounded wait may end at any time. A `Run` is any sequence of such steps, and
the theorems hold at each of its states.

**A thread that unwinds is a stack of activations.** In `Unwinding` program text may at any moment
enter a block, leave one, make or dispose of heap variables that contain files and handles, jump to
any block still active, halt or assign handles, also inside a runner that a goto or a halt started.
Section 6.9.3.11.3 of the dialect's specification forbids a goto in a deferred statement itself, but
not in what that statement calls, so a goto may leave a runner, enter the very block whose runner it
is, or enter a block that an unwinding in progress has already passed. Foreign closers are taken not
to call back into the runtime. Marks are addresses: `State.at` says where each record lies, any
choice that keeps apart what is in use at one time is allowed, and so what `new` makes may lie where
something disposed of lay. The walks along files and handles compare addresses; the one along
deferred statements compares records, and `DeferMarksByAddress` shows that to be the same.

**Calls are followed to their return.** Besides what holds at every state, `ChannelCalls`,
`SelectAnswers`, `TaskCalls`, `UnwindingCalls` and `UnwindingReturns` take two states of a run, the one
in which a thread calls and the first in which it has returned, and say what that thread has done in
between: in one step exactly what the call is for, and in no other step anything.

**Where the code and the comments about it differ, the code is modelled.** `pas_select` does take
channel mutexes under the activity mutex, although `runtime/pasrt_task.c:258-265` says no thread holds
both; `LockDiscipline` states what is true. `verify/lowering.py:399-421` checks a digit after the
multiply-add; `pas_read_int_at` checks before it, and so does the model.

**Properties that turned out false have their exact condition.**

- One round of `select` does not look at every arm when the 32-bit turn counter wraps inside it
  (`LastTurnSkips`, `CoversExactlyWithoutSkip`).
- Two decisions share a branch key when a column is negative, and a dump names what was reported if
  and only if no column is (`NegativeColumnsCollide`, `KeysShared`, `DumpIsReports`).
- A line end that a number read gave back does not show as a space: after reading 1 from `1e` and a
  line end, the line end is read as itself (`GivenBackLineEnd`). One is given back exactly when the
  number is followed by a point, or a scale mark and an optional sign, and then the line end
  (`LineEndGivenBack`).
- A selector can sleep for ever beside an arm that could proceed: `WakeupMissed` is a run of one
  thread and 2^32 rounds whose last round passes over the arm that has a value, and in which nobody
  owes a broadcast and no thread can go on. That takes a counter that wraps inside the round
  (`NoMissedWakeup`, `SleeperIsNotAlone`).
- A goto does not always stop at the surviving blocks. Of the deferred statements exactly those of
  the surviving blocks are left if and only if the mark was on the list when the goto began and no
  landing inside one of its runners has gone astray, or nothing older was there (`GotoCutsToMarks`);
  a deferred mark is missed only once some goto of the run has begun with its own mark gone
  (`AstrayComesOfLost`). Of files and of handles exactly the surviving blocks' are left if and only
  if the first record at the mark's address is the mark's own, or there is none and nothing older;
  a later record in the mark's place stops the walk early. `SurvivorIsRun` is a run in which a goto
  made from a block's own runner into that block runs the deferred statement of an outer block that
  stays active; `LiveFileIsClosed` one in which a goto closes a live block's file, its mark having
  been disposed of; `DeadFileStays` one in which an abandoned block's file stays on the list, a later
  variable lying where the mark lay.
- A `halt` does not always stop the program, although section 6.7.5.7 of ISO/IEC 10206 has nothing
  follow it: in `HaltIsLeft` a goto made inside a runner that the halt started lands in a block that
  is still active, and the program goes on. A halt is at work or has stopped the program if and only
  if no goto has landed beneath it (`HaltRunsAll`, `HaltLeavesNothing`).
- After a program has stopped a foreign value may be left open: exactly one that was put into a
  variable whose record a goto had already taken off the list (`StoppedLeavesNothing`).

## Model

| member | source | states |
|---|---|---|
| Utf8.U8Dec | runtime/pasrt_unicode.c:185-240 | the bit-twiddling decoder answers zero exactly on an ill-formed sequence and otherwise the length and the scalar |
| Utf8.DecodeSound | runtime/pasrt_unicode.c:185-240 | whatever is accepted is the one encoding of a scalar value: no overlong form, no surrogate, nothing above U+10FFFF |
| Utf8.DecodeComplete | runtime/pasrt_unicode.c:185-278 | the encoding of every scalar is accepted, whatever bytes follow it |
| Utf8.Table37IsTheEncodings | runtime/pasrt_unicode.c:185-240 | a row of Table 3-7, a sequence the decoder takes whole, and the bytes of a scalar are the same thing |
| Utf8.DecodeEncode | runtime/pasrt_unicode.c:185-278 | decoding an encoded sequence of scalars gives it back |
| Utf8.EncodeAllInjective | runtime/pasrt_unicode.c:255-278 | two scalar sequences with the same bytes are the same |
| Utf8.WellFormedMeansEncoding | runtime/pasrt_unicode.c:282-293 | a text is well-formed exactly when it encodes some, then unique, scalar sequence |
| Utf8.Validate | runtime/pasrt_unicode.c:282-293 | -1 exactly for well-formed text, otherwise the offset of the first ill-formed sequence, everything before it being well-formed |
| Utf8.U8Enc | runtime/pasrt_unicode.c:255-278 | writes exactly the bytes of the scalar and touches nothing else |
| UnicodeTables.Generate | runtime/unicode/generate.py:249-293 | it dies exactly on one of its four complaints; what it writes satisfies everything the runtime relies on, every wanted composite's pair is there and none other, and of two composites with one mapping the later is the one recorded |
| UnicodeTables.FullEnds | runtime/unicode/generate.py:269-277 | the cycle check answers yes exactly when every decomposition path ends within the depth |
| UnicodeTables.Coalesce | runtime/unicode/generate.py:111-120 | merging changes no code point's value, keeps the ranges sorted, and leaves no two that could be merged |
| UnicodeTables.RangeLookupOr | runtime/pasrt_unicode.c:81-94 | binary search over sorted ranges answers the one value the ranges assign, or the default |
| CanonicalOrder.CarryLeft | runtime/pasrt_unicode.c:339-350 | the inner loop moves one mark left past every greater class and nothing else |
| CanonicalOrder.CanonicalOrderInPlace | runtime/pasrt_unicode.c:338-351 | in place, the buffer becomes its canonical order and the rest of it is untouched |
| CanonicalOrder.OrderIsStableSort | runtime/pasrt_unicode.c:334-351 | classes never decrease inside a run of marks, no starter moves, nothing crosses one, marks of one class keep their order |
| CanonicalOrder.StableSortIsUnique | runtime/pasrt_unicode.c:334-351 | those conditions determine the arrangement |
| CanonicalOrder.OrderCharacterised | runtime/pasrt_unicode.c:334-351 | a sequence is the canonical order of another exactly when it is such an arrangement of it |
| CanonicalOrder.OrderIgnoresSwaps | runtime/pasrt_unicode.c:334-351 | texts that differ by a swap of neighbouring marks of different non-zero class order alike |
| CanonicalOrder.OrderPrefixFirst | runtime/pasrt_unicode.c:338-351 | ordering a prefix beforehand changes nothing |
| CanonicalOrder.OrderCut | runtime/pasrt_unicode.c:394-443 | at a starter a text may be ordered in two pieces |
| Normalization.DecomposeInto | runtime/pasrt_unicode.c:308-332 | the recursive writer puts exactly the full decomposition where told and nothing anywhere else |
| Normalization.ComposedDecomposes | runtime/pasrt_unicode.c:150-173 | whatever is composed, Hangul syllables included, decomposes to its first element's decomposition and then its second |
| Composition.PairComposes | runtime/pasrt_unicode.c:150-173 | the pair function answers c exactly when a lead and a vowel, or a syllable and a tail, are the parts of the syllable c, or the pair is no such pair and c is recorded for it; zero exactly when nothing is made |
| Composition.RecordedComposes | runtime/pasrt_unicode.c:160-171 | a recorded pair composes to its recorded composite if and only if it is not also a Hangul pair |
| Composition.PartsOfSyllable | runtime/pasrt_unicode.c:312-320 | a syllable's parts are its digits in the mixed radix of section 3.12 of The Unicode Standard |
| Normalization.ComposeSegment | runtime/pasrt_unicode.c:360-390 | the in-place composer leaves the composition of what the buffer held, which `ComposeCharacterised` says without it, and nothing beyond it is touched |
| Composition.ComposeCharacterised | runtime/pasrt_unicode.c:360-390 | composition leaves r of an ordered text if and only if r is what remains when each code point that is not blocked from the starter before it and makes something with that starter as it then stands is taken in by it, and every other stays |
| Composition.NfcCharacterised | runtime/pasrt_unicode.c:360-443 | the normal form is that reading of the ordered decomposition, and nothing else is |
| Composition.CompositeIsNormal | runtime/pasrt_unicode.c:308-443 | a recorded composite whose first element is its own normal form is its own normal form if and only if its second element has no decomposition and comes last in canonical order, and the pair is no Hangul pair |
| Normalization.ComposeLosesNothing | runtime/pasrt_unicode.c:353-390 | decomposing and ordering what composition made gives back exactly what it was made from |
| Normalization.NfcKeepsNfd | runtime/pasrt_unicode.c:308-443 | normalising preserves canonical equivalence |
| Normalization.NfcIdempotent | runtime/pasrt_unicode.c:308-443 | normalising twice changes nothing |
| Normalization.NfcAgreesWithNfd | runtime/pasrt_unicode.c:308-443 | two texts normalise alike exactly when their ordered decompositions agree |
| Normalization.ComposeCut | runtime/pasrt_unicode.c:122-134 | no composition reaches back over a starter that cannot be a second element |
| Normalization.CombinesBackIs | runtime/pasrt_unicode.c:122-134 | a starter combines backwards if and only if it is a vowel, a tail, or the second element of a recorded pair |
| Normalization.RecomposeCut | runtime/pasrt_unicode.c:394-443 | a segment boundary loses neither reordering nor composition |
| Normalization.NfcIsRecompose | runtime/pasrt_unicode.c:394-443 | ordering and composing the whole decomposition is the normal form, and it is scalar values |
| CanonicalEquivalence.NfcDecidesEquivalence | runtime/pasrt_unicode.c:308-443 | two texts have one normal form exactly when single decompositions, their inverses and swaps of marks lead from one to the other |
| CanonicalEquivalence.NfcIsEquivalent | runtime/pasrt_unicode.c:308-443 | a text is canonically equivalent to its normal form |
| NfcText.WriteScalars | runtime/pasrt_unicode.c:394-405 | encodes all of a segment or reports overflow, exactly when it does not fit |
| NfcText.FlushSegment | runtime/pasrt_unicode.c:394-405 | orders, composes and encodes one segment; overflow exactly when its bytes do not fit |
| NfcText.NfcBytesCut | runtime/pasrt_unicode.c:414-443 | the normal form of a text cut where a segment starts is the two normal forms joined |
| NfcText.Take | runtime/pasrt_unicode.c:418-440 | one turn of the loop: flush when a segment starts, then hold the decomposition or report the segment limit |
| NfcText.TextNfc | runtime/pasrt_unicode.c:407-443 | the segment-wise pass writes the bytes of the whole-text normal form; it succeeds exactly when the text is well-formed, every stretch in which no starter that nothing can take in begins a code point decomposes within 256 places, and the result fits; a failure is the first one met; no buffer is overrun |
| NfcText.StartersFit | runtime/pasrt_unicode.c:414-440 | a text that begins a segment at every code point is refused for no segment, however long it is |
| NfcText.PlainLettersFit | runtime/pasrt_unicode.c:414-440 | in particular one of starters that decompose to themselves and are no second element |
| NfcText.StartsAtCut | runtime/pasrt_unicode.c:422-430 | the code begins a segment exactly where a decomposition begins with a starter that no recorded pair and no syllable can take in |
| NfcText.SameBytesExactlyWhenEquivalent | runtime/pasrt_unicode.c:407-443 | two texts get the same bytes exactly when they are canonically equivalent |
| NfcText.WrittenIsNormal | runtime/pasrt_unicode.c:407-443 | the bytes written are well-formed and normalise to themselves |
| Graphemes.ScanMeans | runtime/pasrt_unicode.c:528-563 | the four fields are exactly the look-behinds GB9c, GB11, GB12 and GB13 speak of, counted from where the scan began |
| Graphemes.ConjunctForgotten | runtime/pasrt_unicode.c:569-599 | starting at a boundary forgets no conjunct that could still bind |
| Graphemes.RunForgotten | runtime/pasrt_unicode.c:569-599 | nor does it change which regional indicators pair |
| Graphemes.PictureForgotten | runtime/pasrt_unicode.c:569-599 | nor a pictograph a joiner could still extend |
| Graphemes.ScanDecides | runtime/pasrt_unicode.c:538-599 | a scan begun at any boundary decides every later one as section 3.1.1 of UAX #29 does with full look-behind |
| Graphemes.TextNext | runtime/pasrt_unicode.c:601-627 | on any bytes: one byte where they are ill-formed, otherwise up to the first boundary of the well-formed text that begins there; from a boundary of a well-formed text it answers the next boundary |
| Graphemes.TextCount | runtime/pasrt_unicode.c:663-670 | on any bytes the number of elements, each beginning where the one before ends; on a well-formed text the number of boundaries beyond the start, and it visits the offsets of all boundaries, in order, and no others |
| Graphemes.EndOfElement | runtime/pasrt_unicode.c:601-627 | an element that begins at a boundary of a text ends at the next boundary of that text, whatever stands before it |
| ChannelTheorems.FirstInFirstOut | runtime/pasrt_task.c:61-242 | at every state of every run: values received, then values queued, are exactly the values sent, within the capacity, and both only grow |
| ChannelTheorems.NoMoreIsForEver | runtime/pasrt_task.c:224-242 | "no more" is answered only of a closed channel with everything delivered, and so it stays |
| ChannelTheorems.NobodyStranded | runtime/pasrt_task.c:176-242 | while an unsignalled reader sleeps there are no more values than readers already woken, dually for writers and free slots; on a closed channel everyone parked has been woken |
| ChannelTheorems.ValueFindsAReader | runtime/pasrt_task.c:197-242 | a queued value some reader sleeps beside has another, woken reader on its way to it, dually for slots |
| ChannelTheorems.NoMissedWakeup | runtime/pasrt_task.c:244-414 | when a selector sleeps unwoken and one of the arms its round looked at could proceed, some thread still owes the broadcast; its round looked at every arm unless its counter wrapped harmfully |
| ChannelTheorems.DebtorIsAwake | runtime/pasrt_task.c:277-281 | whoever owes a broadcast waits for no condition, and for no mutex but activity |
| ChannelProgress.NoDeadlock | runtime/pasrt_task.c:61-414 | in every reachable state some thread can take its next step, without a wait's returning for no reason or by its time, if and only if the program is not stopped and some thread is inside an operation and not on a condition unwoken |
| ChannelProgress.BroadcastIsOnItsWay | runtime/pasrt_task.c:277-281 | in every reachable state in which a broadcast is owed, and the program is not stopped, some thread can go on |
| ChannelProgress.SleeperIsNotAlone | runtime/pasrt_task.c:244-414 | a selector asleep beside an arm that could proceed and that its round looked at is never in a program in which nobody can go on |
| ChannelMissed.WakeupMissed | runtime/pasrt_task.c:347-390 | a reachable run, by induction over 2^32 - 1 rounds that gave up, in which a selector without a bound sleeps unwoken beside an arm with a value, nobody owes a broadcast and no thread can go on |
| SelectRounds.GaveUpAfterARound | runtime/pasrt_task.c:357-414 | over the run: giving up follows a bounded select's whole round, in one hold of activity, at whose every look the arm's channel was locked and could not proceed; since then the thread only waited; every arm was tried exactly when the counter did not wrap harmfully |
| SelectAnswers.SelectAnswers | runtime/pasrt_task.c:302-414 | from the call: a select returns with an arm of the call's or, only with a bound, having given up and done nothing; if with an arm, in a state of one of its rounds it held that arm's channel and the arm could proceed, its step from there received one value, found the channel closed and drained, or sent the arm's value, and no other step of the call touched any channel |
| SelectAnswers.WaitEnds | runtime/pasrt_task.c:402-414 | a bounded wait that runs out of time ends in giving up and returning; one woken in time begins another round over all arms, one further on |
| ChannelTheorems.LockDiscipline | runtime/pasrt_task.c:244-414 | one channel mutex at a time; nothing is requested under it; activity is never requested by its holder |
| ChannelTheorems.NoLockCycle | runtime/pasrt_task.c:244-414 | no chain of threads waiting for one another's mutexes is longer than two links, so none closes |
| ChannelTheorems.InUseIsLive | runtime/pasrt_task.c:105-157 | a thread inside an operation finds its channel not freed and its reference counted |
| ChannelTheorems.FreedOnce | runtime/pasrt_task.c:105-139 | a channel is freed at most once, with no reference left, by the thread that dropped the last one |
| ChannelCalls.SendReturns | runtime/pasrt_task.c:197-214 | `send` returns when its value and nothing else has gone to the end of the queue of a channel that was open and had room |
| ChannelCalls.ReceiveReturns | runtime/pasrt_task.c:224-242 | `receive` returns having taken the first of the queue, or having found the channel closed and drained, and says which; it has done nothing else |
| ChannelCalls.ShutReturns | runtime/pasrt_task.c:176-186 | after a close the channel is closed for ever; nothing else has been done |
| ChannelCalls.CloseReturns | runtime/pasrt_task.c:145-158 | the owner's closer first closes the channel, for ever, and then drops its one reference, freeing the channel if that was the last |
| ChannelCalls.UnrefReturns | runtime/pasrt_task.c:113-139 | a borrower's closer drops its one reference and does nothing else, freeing the channel if that was the last |
| ChannelCalls.RefReturns | runtime/pasrt_task.c:105-111 | lending counts exactly one reference more |
| ChannelCalls.CreateMakes | runtime/pasrt_task.c:71-99 | a new channel is open and empty, its one reference is its maker's, and its capacity is the one asked for, then and ever after |
| ChannelCalls.StopsExactly | runtime/pasrt_task.c:179-205 | the program is stopped in a step if and only if that step sends to a closed channel, in a statement or in a select |
| SelectRotation.CoversExactlyWithoutSkip | runtime/pasrt_task.c:347-390 | one round looks at every arm if and only if the turn counter does not wrap inside it or the number of arms divides its range |
| SelectRotation.LastTurnSkips | runtime/pasrt_task.c:347-390 | with three arms and the counter at its last value, arm 2 is not looked at |
| SelectRotation.EveryArmFirstOnce | runtime/pasrt_task.c:337-390 | over n consecutive rounds before a wrap each arm is looked at first exactly once |
| ChannelRing.NewTrapsExactly | runtime/pasrt_task.c:71-83 | creation is refused exactly when a factor is not positive or the product exceeds the 64-bit range |
| ChannelRing.Ring.Enqueue | runtime/pasrt_task.c:208-210 | the ring appends to the bounded sequence it stands for |
| ChannelRing.Ring.Dequeue | runtime/pasrt_task.c:235-237 | the ring removes the first of the sequence |
| ChannelRing.Ring.SendOnce | runtime/pasrt_task.c:197-214 | the ring does what the protocol's send step says: trap, wait or append |
| ChannelRing.Ring.ReceiveOnce | runtime/pasrt_task.c:224-242 | and what its receive step says: wait, answer no more, or deliver the oldest value |
| ChannelRing.Ring.TrySend | runtime/pasrt_task.c:302-335 | and a sending arm of `select` |
| ChannelRing.Ring.TryReceive | runtime/pasrt_task.c:302-335 | and a receiving arm |
| TaskProtocol.JoinedOnce | runtime/pasrt_task.c:454-470 | a thread is joined at most once, only after it has finished, and at most one thread ever holds the claim to it |
| TaskProtocol.NoEarlyReturn | runtime/pasrt_task.c:457-476 | whoever is about to unlock and return from the join finds the activation complete and joined |
| TaskProtocol.WaiterIsAnnounced | runtime/pasrt_task.c:457-470 | while someone sleeps on `done`, another thread has the claim and has still to announce it |
| TaskProtocol.FreedOnceAfterJoin | runtime/pasrt_task.c:441-488 | a record is freed at most once, with no reference left, after its join; the last to let go is the one that frees it, and no one is inside an operation on a freed record |
| TaskProtocol.BlockLeavesNothingRunning | runtime/pasrt_task.c:608-626 | a block that has dropped its reference leaves a finished activation, joined exactly once |
| TaskCalls.WaitReturns | runtime/pasrt_task.c:454-476 | from the call: a thread that has called `wait` gets on only when the activation has finished and has been joined, once, and it gains or loses no reference by it |
| TaskCalls.BlockJoinReturns | runtime/pasrt_task.c:608-626 | from the call: the block's join returns from an activation only when it has finished and has been joined, once; by then the block's one reference is gone, and the record is freed if it was the last |
| TaskCalls.ReleaseReturns | runtime/pasrt_task.c:478-488 | releasing a task-variable waits for nothing, drops its one reference, and frees the record if that was the last |
| TaskCalls.SpawnedIsOwned | runtime/pasrt_task.c:561-608 | a spawned activation can be joined by its block and by nobody else, and waited for by its spawner exactly when it was given a name |
| UnwindingTheorems.GotoCutsToMarks | runtime/pasrt.c:2096-2144 | at every landing of every run: the abandoned runners ran once each, innermost first, and exactly the surviving blocks' are left if and only if the mark was on the list when the goto began and no landing inside one of the runners went astray, or nothing was older; then files were closed and then handles, most recent first, each list up to the first record at its mark's address; exactly what is older than the target's arming is left if and only if that is the mark's own, or there is none and nothing older, and something younger is left if and only if it is a later one |
| UnwindingTheorems.MarksFromTheStart | runtime/pasrt.c:2096-2144 | the walks along files and handles told from where the goto begins: the walk stops at the mark's own record exactly when that is on the list; a mark gone at the start is never found, and one that was there is found unless a landing inside one of its runners misses its mark or the program disposes of the mark's variable meanwhile |
| UnwindingCalls.GotoLands | runtime/pasrt.c:2096-2144 | from where the goto is made: it goes by the marks of the block it names and by the lists it found, and lands in that very block |
| UnwindingTheorems.DeferMarksByAddress | runtime/pasrt.c:2113-2124 | the saved successor and the deferred mark lie in frames still there, so their addresses are equal exactly when they are the same record |
| UnwindingTheorems.AstrayComesOfLost | runtime/pasrt.c:682-702 | a deferred mark is missed in a run only after some goto of that run began with its own gone, and such a goto can land no other way |
| UnwindingAstray.SurvivorIsRun | runtime/pasrt.c:682-702 | a reachable run in which a goto from a block's runner into that block runs the deferred statement of an enclosing block that stays active |
| UnwindingAstray.LiveFileIsClosed | runtime/pasrt.c:2128-2133 | a reachable run in which a goto whose file mark has been disposed of closes the file of a block that stays active |
| UnwindingAstray.DeadFileStays | runtime/pasrt.c:2128-2133 | a reachable run in which what `new` makes lies where the disposed mark lay, the walk stops there at once, and the file of an abandoned block stays on the list |
| UnwindingAstray.HaltIsLeft | runtime/pasrt.c:2385-2416 | a reachable run in which a goto made inside a runner of a `halt` lands in a live block: the halt's frame is gone, nothing has been delivered and the program goes on |
| UnwindingEnds.UnwindingEndsOrIsLeft | runtime/pasrt.c:2096-2144 | over every run, a goto or halt is still there, or has stopped the program with what is on top of it, if and only if no goto has landed beneath it since |
| UnwindingTheorems.UnwindingInOrder | runtime/pasrt.c:2109-2144 | at every moment of a goto or halt, whatever the runners do, the runners found have been run from the first on and the rest are still owed; unless a landing goes astray, no file or handle found has been released but what the program disposed of itself |
| UnwindingEnds.HaltRunsAll | runtime/pasrt.c:2385-2416 | from where `halt` is called: it is left undone exactly when a goto lands beneath it; if the program has stopped within it, every runner found has run since, in order, also when one of them halted again, and last came the exit with the status of the halt on top; when no runner is left nothing found has been closed that the program did not dispose of, unless a landing went astray |
| UnwindingTheorems.NothingTwice | runtime/pasrt.c:682-702 | over every run no runner runs twice, no record is released twice, what has left its list has been dealt with, and obtained values are those held and those closed |
| UnwindingEnds.HaltLeavesNothing | runtime/pasrt.c:2385-2416 | from where `halt` is called, exactly one of three: a goto has landed beneath it and it is left; it is at work and the program has not stopped; or the program has stopped within it and every runner, file and handle ever registered was dealt with exactly once |
| UnwindingEnds.StoppedLeavesNothing | runtime/pasrt.c:2385-2416 | a stopped program has empty lists, every runner armed has run exactly once, every file and handle was released exactly once, and a value was closed as often as obtained if and only if no variable holds it whose record had left the list |
| UnwindingReturns.BlockReturns | runtime/pasrt.c:635-702 | a block that returns in the ordinary way: each record it was entered with was registered once, its deferred statement has been executed exactly once, each file and each handle released exactly once, and none is on a list |
| UnwindingCalls.AssignmentsMove | runtime/pasrt.c:617-646 | an assignment closes what the variable held and it holds the new value; a move empties its source; no other variable is touched and nothing else is closed |
| UnwindingCalls.DisposeFile | runtime/pasrt.c:1009-1044 | disposing of a variable takes its file off the list, and it has been released exactly once |
| UnwindingCalls.DisposeSlot | runtime/pasrt.c:635-646 | and its handle, of which what it held is closed exactly once |
| UnwindingTheorems.UnwindingNeverSticks | runtime/pasrt.c:2096-2144 | a goto's target is always there, and after each runner its saved successor is the head of the list or nothing is left |
| UnwindingLists.WalkEndsAtMark | runtime/pasrt.c:2128-2142 | a walk stops before the end if and only if some record lies at the mark's address, and then at the first that does |
| UnwindingLists.WalkCuts | runtime/pasrt.c:2128-2142 | what a walk leaves begins with the first record at the mark's address, the mark's own or one made after it; exactly what was registered before the mark was taken is left if and only if it is the mark's own, or there is none and nothing older |
| UnwindingTheorems.MoveToItself | runtime/pasrt.c:617-633 | `h := take(h)` changes nothing and closes nothing |
| LiveList.Live.Link | runtime/pasrt.c:578-587 | the record becomes the head of the doubly linked list |
| LiveList.Live.Unlink | runtime/pasrt.c:748-757 | the record leaves its place, first, last or inside, the others keep theirs, and an unlinked record stays so |
| LiveList.Live.Set | runtime/pasrt.c:704-710 | the old value is closed once, then the variable holds the new one |
| LiveList.Live.Take | runtime/pasrt.c:617-633 | the value leaves without being closed |
| LiveList.Live.Move | runtime/pasrt.c:617-633 | take then set, closing what the target held after the taking |
| LiveList.Live.Done | runtime/pasrt.c:635-646 | the value is closed if there is one, and the slot leaves the list |
| LiveList.Live.CutTo | runtime/pasrt.c:2134-2142 | the walk along the links releases exactly the slots before the first that lies at the mark's address, in order, and leaves the list from there on |
| LiveList.Live.DeferDone | runtime/pasrt.c:682-702 | the record is off the list and empty before its runner is known to the caller, so a second call runs nothing |
| NumberSyntax.IntegerLengthIsLongest | runtime/pasrt.c:1489-1528 | the digits measured from the left are the longest prefix that is a signed-integer, or there is none |
| NumberSyntax.NumberLengthIsLongest | runtime/pasrt.c:1581-1659 | likewise for a signed-number with its optional fraction and scale factor (section 6.1.5 of ISO 7185) |
| FileReader.TextReader.Fill | runtime/pasrt.c:1238-1293 | the lookahead becomes the next character of what is left; nothing is lost or repeated and a missing last end-of-line is supplied once |
| FileReader.TextReader.Eof | runtime/pasrt.c:1295-1301 | true exactly when nothing is left, and asking consumes nothing |
| FileReader.TextReader.Eoln | runtime/pasrt.c:1305-1311 | true exactly in front of a line end, a trap exactly at the end of the file, and asking consumes nothing |
| FileReader.TextReader.Unread | runtime/pasrt.c:1472-1487 | one character goes back in front of what is left; never more than two are pending |
| FileReader.TextReader.Readln | runtime/pasrt.c:1440-1457 | consumes exactly one line with its end, traps exactly at the end of the file |
| FileReader.TextReader.SkipBlanks | runtime/pasrt.c:1459-1470 | consumes exactly the leading blanks |
| FileReader.TextReader.ReadInteger | runtime/pasrt.c:1489-1532 | consumes the blanks and the longest signed-integer and nothing more; traps exactly when there is none or its digits exceed the type, at either width; the accumulator never exceeds the type |
| FileReader.TextReader.ReadReal | runtime/pasrt.c:1581-1659 | consumes the blanks and the longest signed-number, hands its characters to strtod, and leaves everything looked at beyond it to be read in order, as many characters given back as the source looks beyond; traps exactly when no prefix is a number |
| FileReader.TextReader.ReadChar | runtime/pasrt.c:1432-1438 | the next character; a line end shows as a space unless it had been given back |
| FileReader.GivenBackLineEnd | runtime/pasrt.c:1254-1260 | from `1e` and a line end a program reads the number 1, then `e`, then the line end as itself, where section 6.4.3.5 of ISO 7185 has a space |
| FileReader.LineEndGivenBack | runtime/pasrt.c:1581-1659 | a line end is among the characters a number read gives back if and only if the number is followed by a point, or by a scale mark and an optional sign, and then the line end |
| RealWriter.OneDigitRounds | runtime/pasrt.c:1825-1828 | deciding on the first discarded digit is rounding the whole expansion to nearest, halves away from zero |
| RealWriter.NearestIsTruncatedHalfUp | runtime/pasrt.c:1795-1805 | which is adding half a unit and truncating, as the clause prescribes |
| RealWriter.RoundHalfUp | runtime/pasrt.c:1838-1851 | in place, the kept digits and the carry are the rounded value; a carry comes out only of all nines |
| RealWriter.RoundFixed | runtime/pasrt.c:1886-1909 | the spare slot absorbs every carry; no leading nought is left but a lone one |
| RealWriter.WriteFixed | runtime/pasrt.c:1871-1926 | the rounded value in the fixed form, a sign only on a value that is not all noughts, and max(TotalWidth, MinNumChars) characters with the spaces in front |
| RealWriter.FixedIsDetermined | runtime/pasrt.c:1871-1926 | the clause leaves exactly one text to be written in the fixed form |
| RealWriter.RoundFloat | runtime/pasrt.c:1944-1977 | 1 + DecPlaces digits of the rounded value, the exponent moving up by one exactly on a carry |
| RealWriter.WriteFloat | runtime/pasrt.c:1927-1989 | the digits are the rounded value's, the exponent moves up exactly with a carry, its digits are the exponent, and the length is ActWidth or, at exponent 99 only, one more |
| RealWriter.FloatWidth | runtime/pasrt.c:1927-1989 | ActWidth characters, and one more exactly when the digits carry at exponent 99 |
| RealWriter.TotalWidthKept | runtime/pasrt.c:1920-1976 | a TotalWidth of at least ExpDigits + 6 is kept, a smaller one gives that many characters and one decimal place, none gives twelve; one character more exactly when the digits carry at exponent 99 |
| RealWriter.FloatIsDetermined | runtime/pasrt.c:1927-1989 | the clause leaves exactly one text to be written in the floating form, whether rounding went up a decade included |
| BranchCoverage.DumpedIsReported | runtime/pasrt.c:223-237 | what the dump prints is what was reported if and only if the column is not negative |
| BranchCoverage.PackInjective | runtime/pasrt.c:274-276 | different decisions with non-negative columns have different keys |
| BranchCoverage.NegativeColumnsCollide | runtime/pasrt.c:274-276 | every decision with a negative column shares its key with one whose column is not negative |
| BranchCoverage.KeysShared | runtime/pasrt.c:274-276 | two decisions share a key if and only if they agree once a negative column has lost its top bit to the line's lowest |
| BranchCoverage.DumpIsReports | runtime/pasrt.c:223-237 | a dump of the keys of a set of reports names those reports and no others if and only if no column is negative |
| BranchCoverage.NotFound | runtime/pasrt.c:277-285 | a search that meets an empty slot has shown the key absent |
| BranchCoverage.Placed | runtime/pasrt.c:277-285 | storing at that slot keeps every key reachable from its home and adds exactly one |
| BranchCoverage.BranchTable.Grow | runtime/pasrt.c:243-262 | rehashing keeps the set and halves the load; a refused allocation changes nothing |
| BranchCoverage.BranchTable.Branch | runtime/pasrt.c:264-286 | the reports taken in gain exactly this decision unless its line is not positive or its memory is refused, and the table's keys are theirs; every probe loop ends because at most half the slots are taken |
| BranchCoverage.BranchTable.Dump | runtime/pasrt.c:223-237 | after any calls: each key is printed once, no line twice, and what is printed is what was reported if and only if no column was negative |
| SocketReader.Socket.ReadLine | runtime/pasrt_posix.c:301-365 | the answer and what is left depend only on the bytes and the capacity, never on how reads are cut or interrupted; a failing read loses nothing; there is a read exactly when nothing was buffered to answer from |
| SocketReader.ReadLines | runtime/pasrt_posix.c:301-365 | one readline after another, asking again after a failed read, gives the answers that the bytes and the capacities alone determine |
| SocketReader.Socket.Buffered | runtime/pasrt_posix.c:367-382 | true exactly when a newline or a full buffer is there to answer from |
| SocketReader.Socket.Shift | runtime/pasrt_posix.c:329-333 | moving the partial line to the front changes nothing that is left to hand out |
| SocketReader.LinesArrive | runtime/pasrt_posix.c:301-365 | lines sent with either line end, and a last one without, are exactly the lines answered, and every answer after them is closed |
| SocketReader.LongLastLine | runtime/pasrt_posix.c:346-361 | a last line too long for its caller is answered so once, and then the connection is closed |
| SocketReader.AnswersCharacterised | runtime/pasrt_posix.c:301-365 | the answers are exactly those that cut the stream up in order, leaving out nothing: a line its text and its end, or what comes last without one; a refused line too; a full buffer without a line end; nothing only at the end |
| Power.PowInt | runtime/pasrt.c:391-416 | for every base and exponent the exact value, or a trap exactly on a zero base with y <= 0 or a value outside the type; the accumulator stays within 64 bits |
| Power.PartialProducts | verify/rules.py:543-561 | no partial product is larger than a later one, so none traps spuriously |
| Power.ExactPower | verify/iso.py:254-274 | repeated squaring computes the recursion the standard states |
| Lowering.ModIsIso | verify/lowering.py:87-103 | at every width, remainder-then-add is the one r with 0 <= r < j that j divides i - r by |
| Lowering.DivIsIso | verify/lowering.py:106-108 | at every width, the emitted division is the one quotient truncating toward zero, but for the least word over -1, which the integer type does not have |
| Lowering.StepTrapsExactly | verify/lowering.py:336-352 | stepped `succ` traps exactly when no value has that ordinal, and is otherwise that value |
| Lowering.NarrowSumIsWrong | verify/rules.py:425-455 | added at the program's own width, succ(maxint, 2) would be a wrong value of the type |
| Lowering.OffsetExactIffSpanFits | verify/lowering.py:240-269 | the unchecked subtraction is exact for every accepted subscript if and only if the span is a value of the integer type, which is what the compiler's rearranged test refuses by |
| Lowering.SetRangeMembers | verify/lowering.py:463-476 | at every set width two shifts build exactly the members of [lo..hi], none when hi precedes lo |
| Lowering.StoreTrapsExactly | verify/lowering.py:479-491 | the store check fires exactly when some member is no value of the base type |

## Left out

- The contents of the Unicode tables, and the routines that only walk them: case mapping, column widths, one scalar at an offset.
- Operating-system calls: opening, seeking, temporary files, binding, sockets other than the line reader, processes, terminals, clocks. A socket is a byte sequence cut up arbitrarily; a bounded wait ends at any step.
- libc and floating point: the exact decimal expansion of a real is given, `strtod` is not modelled, infinities and NaN are not written.
- Graphemes.ScanMeans: counts regional indicators without bound, where the C field is an `int` that a run of more than 2147483647 of them would overflow.
- Composition.ComposeCharacterised: a text that begins with a mark is taken not to begin with a Hangul lead or syllable; those have combining class zero in the database, which the tables here leave open.
- NfcText.TextNfc: PAS_U_DECOMP_MAX is a parameter that must be at least the widest decomposition, which generate.py measures.
- FileReader.TextReader.ReadReal: answers the characters given to strtod, not the real; the growing character buffer is a sequence.
- RealWriter.RoundFloat: requires DecPlaces up to 767, as `WriteFloat` does.
- RealWriter.RoundFixed: requires the expansion to fit the 1450-character buffer, as `WriteFixed` does.
- RealWriter.WriteFloat: requires DecPlaces up to 767, where the expansion read off printf ends; beyond that the C code reads past it.
- RealWriter.WriteFixed: requires the expansion to fit the 1450-character buffer, which holds for FracDigits up to 1074 and somewhat more.
- BranchCoverage.BranchTable.Branch: sizes are unbounded, where the C counters are `int`s that 2^30 decisions would overflow; the key's `or` is written as the sum it amounts to.
- Files other than texts, direct access, `update`, `position`: they rest on stdio's buffering, and `position` is one low after an `eof` that found nothing.
- The standard files, which `pas_file_done` unlinks and flushes but does not close; in `Unwinding` a file is closed when it is unlinked.
- In `Unwinding` the memory of a dead frame whose record is still on a list is not used again, where in C a later activation would overwrite the record; a handle variable of an abandoned frame stays among the `loose` ones.
- Traps: a runtime error ends the process without unwinding, so a run simply stops there.
- The lists of several threads: each thread has its own, and `Unwinding` is one thread's.
- Growth of the array of spawned activations, and the order in which a block joins them; `TaskProtocol` lets a block join its own in any order.
- Traps on empty task and channel variables, which are one test each.
- The bound on the size of two joined texts that `runtime/pasrt.c:2930-2932` claims: it does not hold.
- The remaining catalogue rules of `verify/rules.py`: comparisons of one instruction with one clause, and the floating-point ones.
