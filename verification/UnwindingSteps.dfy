/** What every step of the unwinding machine keeps. */
module UnwindingSteps {
  import opened Unwinding
  import opened UnwindingLists

  // ------------------------------------------ what a step leaves alone

  /** The step touches nothing that was registered before n, but for what it says in `more`. */
  predicate Untouched(s: State, s': State, more: seq<Event>, n: nat) {
    && s'.log == s.log + more
    && Below(s'.defers, n) == Below(s.defers, n)
    && (forall e | e in more :: e.tag == Ran ==> n <= e.n)
    && VarsKept(s, s', more, n)
  }

  /** Of files and handles: they stay, or are disposed of, or a landing has gone astray; and none
      comes back. */
  predicate VarsKept(s: State, s': State, more: seq<Event>, n: nat) {
    && (forall x | x in s'.files && x < n :: x in s.files)
    && (forall x | x in SlotIds(s'.slots) && x < n :: x in SlotIds(s.slots))
    && (Has(more, AstrayVars)
    || ((forall x | x in s.files && x < n :: x in s'.files || Event(Disposed, x) in more)
        && (forall x | x in SlotIds(s.slots) && x < n :: x in SlotIds(s'.slots) || Event(Disposed, x) in more)))
  }

  lemma AccountedVars(s: State, s': State, more: seq<Event>, since: nat, before: Lists, n: nat)
    requires since <= |s.log| && s'.log == s.log + more && VarsKept(s, s', more, n)
    requires Bounded(before.files, n) && Bounded(before.slots, n)
    requires !Since(s.log, since, AstrayVars) ==>
               && (forall x | x in before.files :: x in s.files || Event(Disposed, x) in s.log[since..])
               && (forall x | x in before.slots :: x in SlotIds(s.slots) || Event(Disposed, x) in s.log[since..])
    ensures !Since(s'.log, since, AstrayVars) ==>
              && (forall x | x in before.files :: x in s'.files || Event(Disposed, x) in s'.log[since..])
              && (forall x | x in before.slots :: x in SlotIds(s'.slots) || Event(Disposed, x) in s'.log[since..])
  {
    SinceGrows(s.log, more, since, AstrayVars);
    assert s'.log[since..] == s.log[since..] + more;
  }

  lemma AccountedKeeps(s: State, s': State, more: seq<Event>, since: nat, before: Lists, born: nat, n: nat)
    requires Accounted(s, since, before, born) && Untouched(s, s', more, n) && born <= n
    ensures Accounted(s', since, before, born)
  {
    hide Since, Has, Sorted, VarsKept, RanOf, Below, SlotIds;
    assert s'.log[since..] == s.log[since..] + more;
    RanOfAppend(s.log[since..], more, before.defers);
    RanOfNone(more, before.defers);
    BelowTwice(s.defers, n, born);
    BelowTwice(s'.defers, n, born);
    AccountedVars(s, s', more, since, before, n);
    NoneComesBack(s, s', more, n, born);
  }

  lemma NoneComesBack(s: State, s': State, more: seq<Event>, n: nat, born: nat)
    requires VarsKept(s, s', more, n) && born <= n
    ensures forall x | x in s'.files && x < born :: x in s.files
    ensures forall x | x in SlotIds(s'.slots) && x < born :: x in SlotIds(s.slots)
  {
  }

  lemma FrameKeeps(f: Frame, s: State, s': State, more: seq<Event>, n: nat)
    requires FrameAccounted(f, s) && Untouched(s, s', more, n) && f.born <= n
    ensures FrameAccounted(f, s')
  {
    hide Accounted, Untouched, Since, Fits;
    assert s'.log == s.log + more by { UntouchedLog(s, s', more, n); }
    match f.job
    case Jumping(_, _, since, before, _, _) =>
      AccountedKeeps(s, s', more, since, before, f.born, n);
      SinceGrows(s.log, more, 0, Lost);
    case Halting(_, since, before) => AccountedKeeps(s, s', more, since, before, f.born, n);
    case _ =>
  }

  lemma UntouchedLog(s: State, s': State, more: seq<Event>, n: nat)
    requires Untouched(s, s', more, n)
    ensures s'.log == s.log + more && Below(s'.defers, n) == Below(s.defers, n)
  {
  }

  lemma {:induction false} HistoryKeeps(stack: seq<Frame>, s: State, s': State, more: seq<Event>, n: nat)
    requires History(stack, s) && Untouched(s, s', more, n) && Stacked(stack, n)
    ensures History(stack, s')
  {
    hide FrameAccounted, Untouched;
    if stack != [] {
      FrameKeeps(stack[0], s, s', more, n);
      StackedWiden(stack[1..], stack[0].born, n);
      HistoryKeeps(stack[1..], s, s', more, n);
    }
  }

  lemma StackedWiden(stack: seq<Frame>, bound: nat, bound': nat)
    requires Stacked(stack, bound) && bound <= bound'
    ensures Stacked(stack, bound')
  {
  }

  lemma {:induction false} StackedCut(stack: seq<Frame>, bound: nat, k: nat)
    requires Stacked(stack, bound) && k <= |stack|
    ensures Stacked(stack[k..], bound)
    ensures 0 < k <= |stack| ==> Stacked(stack[k..], stack[k - 1].born)
  {
    if k == 0 {
      assert stack[0..] == stack;
    } else {
      StackedCut(stack[1..], stack[0].born, k - 1);
      assert stack[1..][k - 1..] == stack[k..];
      StackedWiden(stack[k..], stack[0].born, bound);
      if k == 1 { assert stack[1..] == stack[k..]; }
    }
  }

  lemma {:induction false} MarksFitKeeps(stack: seq<Frame>, l: Lists, l': Lists, n: nat)
    requires MarksFit(stack, l) && Stacked(stack, n)
    requires forall x | x < n && x in l'.defers :: x in l.defers
    requires forall x | x < n && x in l'.files :: x in l.files
    requires forall x | x < n && x in l'.slots :: x in l.slots
    ensures MarksFit(stack, l')
  {
    if stack != [] { MarksFitKeeps(stack[1..], l, l', stack[0].born); }
  }

  lemma {:induction false} MarksFitAt(stack: seq<Frame>, l: Lists, k: nat)
    requires MarksFit(stack, l) && k < |stack|
    ensures MarksFit(stack[k..], l)
    ensures var f := stack[k];
            Fits(l.defers, f.mark.d, f.armed) && Fits(l.files, f.mark.f, f.armed) && Fits(l.slots, f.mark.h, f.armed)
  {
    if k == 0 {
      assert stack[0..] == stack;
    } else {
      MarksFitAt(stack[1..], l, k - 1);
      assert stack[1..][k - 1..] == stack[k..];
    }
  }

  // ------------------------------------------ what control can come back to

  lemma CursorKeeps(f: Frame, s: State, s': State, more: seq<Event>, n: nat)
    requires f.job.Jumping? && CursorGood(f, s.defers, s.log) && f.born <= n
    requires s'.log == s.log + more && Below(s'.defers, n) == Below(s.defers, n) && f.job.since <= |s.log|
    ensures CursorGood(f, s'.defers, s'.log)
  {
    hide Since;
    BelowTwice(s.defers, n, f.born);
    BelowTwice(s'.defers, n, f.born);
    SinceGrows(s.log, more, f.job.since, Astray);
  }

  lemma GoneKeeps(mark: Option<Id>, s: seq<Id>, s': seq<Id>, armed: nat, n: nat)
    requires Sorted(s) && Sorted(s') && Below(s', n) == Below(s, n) && armed <= n && Fits(s, mark, armed)
    ensures Gone(mark, s') <==> Gone(mark, s)
  {
    BelowFacts(s, n);
    BelowFacts(s', n);
  }

  lemma {:induction false} ResumableKeeps(stack: seq<Frame>, s: State, s': State, more: seq<Event>, n: nat)
    requires Stacked(stack, n) && MarksFit(stack, ListsOf(s)) && History(stack, s)
    requires Sorted(s.defers) && Sorted(s'.defers)
    requires s'.log == s.log + more && Below(s'.defers, n) == Below(s.defers, n)
    ensures Resumable(stack, s.defers, s.log) ==> Resumable(stack, s'.defers, s'.log)
    ensures Beneath(stack, s.defers, s.log) ==> Beneath(stack, s'.defers, s'.log)
  {
    hide CursorGood, Sorted, Gone, Accounted, Since;
    if stack != [] {
      var f, rest := stack[0], stack[1..];
      StackedWiden(rest, f.born, n);
      ResumableKeeps(rest, s, s', more, n);
      GoneKeeps(f.mark.d, s.defers, s'.defers, f.armed, n);
      if f.job.Jumping? && CursorGood(f, s.defers, s.log) {
        assert f.job.since <= |s.log| by { SinceWithin(f, s); }
        CursorKeeps(f, s, s', more, n);
      }
    }
  }

  lemma SinceWithin(f: Frame, s: State)
    requires FrameAccounted(f, s) && f.job.Jumping?
    ensures f.job.since <= |s.log|
  {
  }

  /** Where control can resume, everything beneath can be landed on. */
  lemma {:induction false} ResumableIsBeneath(stack: seq<Frame>, defers: seq<Id>, log: seq<Event>)
    requires Resumable(stack, defers, log)
    ensures Beneath(stack, defers, log)
  {
    hide CursorGood, Gone;
    if stack != [] {
      match stack[0].job
      case Jumping(_, _, _, _, _, _) =>
      case Halting(_, _, _) =>
      case _ => ResumableIsBeneath(stack[1..], defers, log);
    }
  }

  /** The first record of the list is run: what can be landed on still can. */
  lemma {:induction false} BeneathRan(stack: seq<Frame>, s: State, s': State, more: seq<Event>, n: nat)
    requires Stacked(stack, n) && MarksFit(stack, ListsOf(s)) && History(stack, s)
    requires Sorted(s.defers) && s.defers != [] && s'.defers == s.defers[1..] && s'.log == s.log + more
    requires Beneath(stack, s.defers, s.log)
    ensures Beneath(stack, s'.defers, s'.log)
  {
    hide Sorted, CursorGood, FrameAccounted, Gone, Fits;
    if stack != [] {
      var f, rest := stack[0], stack[1..];
      StackedWiden(rest, f.born, n);
      BeneathRan(rest, s, s', more, n);
      MarkAndHead(f.mark.d, s.defers, f.armed);
      if IsBlock(f) && !Gone(f.mark.d, s'.defers) {
        Stacked1(stack, n);
        ResumableKeeps(stack, s, s', more, f.armed);
      }
    }
  }

  lemma Stacked1(stack: seq<Frame>, n: nat)
    requires stack != [] && Stacked(stack, n)
    ensures Stacked(stack, stack[0].armed)
  {
  }

  /** A mark that outlives the head is not the head, and so the head is younger than the block. */
  lemma MarkAndHead(mark: Option<Id>, s: seq<Id>, armed: nat)
    requires Sorted(s) && s != [] && Fits(s, mark, armed)
    ensures Sorted(s[1..])
    ensures !Gone(mark, s[1..]) ==> !Gone(mark, s) && Below(s[1..], armed) == Below(s, armed)
  {
    var rest := s[1..];
    assert s == [s[0]] + rest;
    assert forall x | x in rest :: x < s[0];
    assert s[0] in s;
    if !Gone(mark, rest) {
      assert s[0] >= armed;
    }
  }

  /** With nothing left after a landing that has gone astray, anything can be landed on. */
  lemma {:induction false} NothingLeft(stack: seq<Frame>, s: State, log: seq<Event>, more: seq<Event>)
    requires History(stack, s) && log == s.log + more && Has(more, Astray)
    ensures Resumable(stack, [], log) && Beneath(stack, [], log)
  {
    hide Accounted, Has;
    if stack != [] {
      NothingLeft(stack[1..], s, log, more);
      if stack[0].job.Jumping? {
        SinceWithin(stack[0], s);
        SinceGrows(s.log, more, stack[0].job.since, Astray);
      }
    }
  }

  // ----------------------------------------------------------- owners, aims

  lemma {:induction false} OwnersWithin(stack: seq<Frame>, n: nat)
    requires Stacked(stack, n)
    ensures forall d | d in Owners(stack) :: d < n
  {
    if stack != [] { OwnersWithin(stack[1..], stack[0].born); }
  }

  /** An activation's own record is the first of the list, when it is on it and the activation is
      the innermost. */
  lemma OwnIsHead(s: State)
    requires Ordered(s) && Stacked(s.stack, s.serial) && Owned(s) && s.stack != []
    requires s.stack[0].own.defer.Some? && s.stack[0].own.defer.value in s.defers
    ensures s.defers != [] && s.defers[0] == s.stack[0].own.defer.value
  {
    var d := s.stack[0].own.defer.value;
    OwnersWithin(s.stack[1..], s.stack[0].born);
    FirstIn(s.defers);
    assert Owners(s.stack) == {d} + Owners(s.stack[1..]);
    var i :| 0 <= i < |s.defers| && s.defers[i] == d;
    assert s.defers[0] >= s.defers[i];
  }

  /** Under an activation with no record of its own, everything on the list is older. */
  lemma NoneYounger(s: State)
    requires Ordered(s) && Stacked(s.stack, s.serial) && Owned(s) && s.stack != [] && s.stack[0].own.defer == None
    ensures Bounded(s.defers, s.stack[0].born) && Below(s.defers, s.stack[0].born) == s.defers
  {
    OwnersWithin(s.stack[1..], s.stack[0].born);
    assert Owners(s.stack) == {} + Owners(s.stack[1..]);
    assert forall d | d in s.defers :: d in Owners(s.stack);
    BelowAll(s.defers, s.stack[0].born);
  }

  lemma {:induction false} OwnersCut(stack: seq<Frame>, n: nat, k: nat)
    requires Stacked(stack, n) && k < |stack|
    ensures forall d | d in Owners(stack) && d < stack[k].armed :: d in Owners(stack[k..])
  {
    if k == 0 {
      assert stack[0..] == stack;
    } else {
      OwnersCut(stack[1..], stack[0].born, k - 1);
      assert stack[1..][k - 1..] == stack[k..];
      BornAfter(stack, n, k);
    }
  }

  lemma {:induction false} BornAfter(stack: seq<Frame>, n: nat, k: nat)
    requires Stacked(stack, n) && 0 < k < |stack|
    ensures stack[k].armed <= stack[0].born
  {
    if k > 1 { BornAfter(stack[1..], stack[0].born, k - 1); }
  }

  lemma {:induction false} CutBelow(stack: seq<Frame>, s: State, k: nat)
    requires k <= |stack|
    ensures Aimed(stack) ==> Aimed(stack[k..])
    ensures History(stack, s) ==> History(stack[k..], s)
    ensures Beneath(stack, s.defers, s.log) ==> Beneath(stack[k..], s.defers, s.log)
  {
    hide FrameAccounted, Resumable, CanReach;
    if k == 0 {
      assert stack[0..] == stack;
    } else {
      CutBelow(stack[1..], s, k - 1);
      assert stack[1..][k - 1..] == stack[k..];
    }
  }

  // ------------------------------------------ the stack as a whole

  predicate Fit(stack: seq<Frame>, s: State, n: nat) {
    && Stacked(stack, n) && MarksFit(stack, ListsOf(s)) && Aimed(stack)
    && Resumable(stack, s.defers, s.log) && History(stack, s)
  }

  predicate NoNews(s: State, s': State, n: nat) {
    && (forall x | x < n && x in s'.defers :: x in s.defers)
    && (forall x | x < n && x in s'.files :: x in s.files)
    && (forall x | x < n && x in SlotIds(s'.slots) :: x in SlotIds(s.slots))
  }

  lemma FitKeeps(stack: seq<Frame>, s: State, s': State, more: seq<Event>, n: nat)
    requires Fit(stack, s, n) && Untouched(s, s', more, n) && NoNews(s, s', n)
    requires Sorted(s.defers) && Sorted(s'.defers)
    ensures Fit(stack, s', n)
  {
    hide Sorted, Stacked, Aimed, History, Resumable, MarksFit;
    MarksFitKeeps(stack, ListsOf(s), ListsOf(s'), n);
    HistoryKeeps(stack, s, s', more, n);
    ResumableKeeps(stack, s, s', more, n);
  }

  predicate Shrinks(o: Own, o': Own) {
    && (o'.defer == None || o'.defer == o.defer)
    && (forall x | x in o'.files :: x in o.files) && (forall x | x in o'.slots :: x in o.slots)
  }

  predicate Plain(f: Frame) { f.job.Code? || f.job.Epilogue? }

  /** The innermost activation goes on with something else. */
  lemma FitTop(stack: seq<Frame>, f: Frame, s: State, n: nat)
    requires stack != [] && Fit(stack, s, n) && Plain(stack[0]) && Plain(f)
    requires f.born == stack[0].born && f.armed == stack[0].armed && f.mark == stack[0].mark
    requires Shrinks(stack[0].own, f.own)
    ensures Fit([f] + stack[1..], s, n)
  {
    assert ([f] + stack[1..])[1..] == stack[1..];
  }

  lemma FitPush(stack: seq<Frame>, f: Frame, s: State, n: nat, n': nat)
    requires Fit(stack, s, n) && Plain(f) && f.born == n <= f.armed <= n'
    requires f.own.defer.Some? ==> f.born <= f.own.defer.value < f.armed
    requires (forall x | x in f.own.files :: f.born <= x) && (forall x | x in f.own.slots :: f.born <= x)
    requires f.mark == HeadsOf(s) && Ordered(s) && s.serial <= f.armed
    ensures Fit([f] + stack, s, n')
  {
    assert ([f] + stack)[1..] == stack;
    HeadFits(s.defers, f.armed);
    HeadFits(s.files, f.armed);
    HeadFits(SlotIds(s.slots), f.armed);
  }

  lemma HeadFits(s: seq<Id>, n: nat)
    requires Sorted(s) && Bounded(s, n)
    ensures Fits(s, Head(s), n)
  {
    FirstIn(s);
    forall x | x in s
      ensures s != [] && x <= s[0]
    {
      var i :| 0 <= i < |s| && s[i] == x;
    }
  }

  lemma FitRest(stack: seq<Frame>, s: State, n: nat)
    requires stack != [] && Fit(stack, s, n) && Plain(stack[0])
    ensures Fit(stack[1..], s, stack[0].born) && stack[0].born <= n && Fit(stack[1..], s, n)
  {
    StackedWiden(stack[1..], stack[0].born, n);
  }

  ghost predicate Clear(s: State) { Has(s.log, Astray) ==> Has(s.log, Lost) }

  lemma SoundIs(s: State)
    ensures Sound(s) <==> Ordered(s) && Fit(s.stack, s, s.serial) && Owned(s) && Clear(s)
  {
    assert s.log[0..] == s.log;
  }

  /** Steps that neither begin nor end an unwinding, and run nothing. */
  predicate Calm(more: seq<Event>) { forall e | e in more :: e.tag !in {Ran, Astray, AstrayVars} }

  lemma CalmFit(s: State, s': State, more: seq<Event>)
    requires Sound(s) && Ordered(s') && s'.log == s.log + more && Calm(more)
    requires VarsKept(s, s', more, s.serial) && NoNews(s, s', s.serial)
    requires Below(s'.defers, s.serial) == s.defers
    ensures Fit(s.stack, s', s.serial) && Clear(s')
  {
    hide Fit, Has, VarsKept, NoNews;
    SoundIs(s);
    BelowAll(s.defers, s.serial);
    FitKeeps(s.stack, s, s', more, s.serial) by { assert Sorted(s.defers) && Sorted(s'.defers); }
    CalmClear(s, s', more);
  }

  lemma CalmClear(s: State, s': State, more: seq<Event>)
    requires Clear(s) && s'.log == s.log + more && Calm(more)
    ensures Clear(s')
  {
  }

  lemma ClearMore(s: State, s': State, more: seq<Event>)
    requires Clear(s) && s'.log == s.log + more && forall e | e in more :: e.tag != Astray
    ensures Clear(s')
  {
  }

  // ------------------------------------------------------------- entering

  lemma EnterLists(s: State, nd: bool, nf: nat, nh: nat)
    requires Ordered(s)
    ensures var s' := EnterBlock(s, nd, nf, nh).(stack := s.stack);
            var more := EnterLog(s, nd, nf, nh);
            && s'.log == s.log + more && Calm(more) && Ordered(s')
            && VarsKept(s, s', more, s.serial) && NoNews(s, s', s.serial)
            && Below(s'.defers, s.serial) == s.defers
  {
    hide Sorted, Down, Tagged, Below, Empty, SlotIds, Calm, Has, Bounded;
    var s' := EnterBlock(s, nd, nf, nh).(stack := s.stack);
    var fs, hs := Down(s.serial, nf), Down(s.serial + nf, nh);
    var ds := if nd then [s.serial + nf + nh] else [];
    DownFacts(s.serial, nf);
    DownFacts(s.serial + nf, nh);
    SlotIdsEmpty(hs);
    SlotIdsAppend(Empty(hs), s.slots);
    OneSorted(s.serial + nf + nh);
    Grows(ds, s.defers, s.serial, s'.serial);
    Grows(fs, s.files, s.serial, s'.serial);
    Grows(hs, SlotIds(s.slots), s.serial, s'.serial);
    EnterCalm(ds, fs, hs);
  }

  function EnterLog(s: State, nd: bool, nf: nat, nh: nat): seq<Event> {
    var ds := if nd then [s.serial + nf + nh] else [];
    Tagged(DeferInit, ds) + Tagged(FileInit, Down(s.serial, nf)) + Tagged(SlotInit, Down(s.serial + nf, nh))
  }

  lemma EnterCalm(ds: seq<Id>, fs: seq<Id>, hs: seq<Id>)
    ensures Calm(Tagged(DeferInit, ds) + Tagged(FileInit, fs) + Tagged(SlotInit, hs))
  {
    TaggedTags(DeferInit, ds);
    TaggedTags(FileInit, fs);
    TaggedTags(SlotInit, hs);
  }

  lemma OneSorted(x: Id)
    ensures Sorted([x]) && Sorted([])
  {
  }

  /** New records come in front. */
  lemma Grows(a: seq<Id>, b: seq<Id>, n: nat, n': nat)
    requires Sorted(a) && Sorted(b) && Bounded(b, n) && n <= n' && forall x | x in a :: n <= x < n'
    ensures Sorted(a + b) && Bounded(a + b, n') && Below(a + b, n) == b
    ensures forall x | x < n :: x in a + b <==> x in b
  {
    SortedAppend(a, b, n);
    BelowAppend(a, b, n);
    BelowAll(b, n);
  }

  lemma EnterKeeps(s: State, nd: bool, nf: nat, nh: nat)
    requires Sound(s)
    ensures Sound(EnterBlock(s, nd, nf, nh))
  {
    hide Ordered, Fit, Down, Tagged, EnterLog, Calm, VarsKept, NoNews, Below;
    SoundIs(s);
    var s' := EnterBlock(s, nd, nf, nh);
    var s1 := s'.(stack := s.stack);
    EnterLists(s, nd, nf, nh);
    CalmFit(s, s1, EnterLog(s, nd, nf, nh));
    DownFacts(s.serial, nf);
    DownFacts(s.serial + nf, nh);
    FitPush(s.stack, s'.stack[0], s1, s.serial, s'.serial);
    FitSame(s'.stack, s1, s', s'.serial);
    OrderedSame(s1, s');
    OwnedEnter(s, s', nd, nf, nh);
    SoundIs(s');
  }

  lemma OwnedEnter(s: State, s': State, nd: bool, nf: nat, nh: nat)
    requires Owned(s) && s' == EnterBlock(s, nd, nf, nh)
    ensures Owned(s')
  {
    assert s'.stack[1..] == s.stack;
    assert s'.defers == (if nd then [s.serial + nf + nh] else []) + s.defers;
  }

  /** What holds of the lists and the log holds whatever stack lies beside them. */
  lemma FitSame(stack: seq<Frame>, s: State, s': State, n: nat)
    requires Fit(stack, s, n) && s'.defers == s.defers && s'.files == s.files && s'.slots == s.slots && s'.log == s.log
    ensures Fit(stack, s', n)
  {
    HistorySame(stack, s, s');
  }

  lemma {:induction false} HistorySame(stack: seq<Frame>, s: State, s': State)
    requires History(stack, s) && s'.defers == s.defers && s'.files == s.files && s'.slots == s.slots && s'.log == s.log
    ensures History(stack, s')
  {
    if stack != [] { HistorySame(stack[1..], s, s'); }
  }

  lemma NewKeeps(s: State, nf: nat, nh: nat)
    requires Sound(s)
    ensures Sound(NewVariable(s, nf, nh))
  {
    hide Ordered, Fit, Down, Tagged, EnterLog, Calm, VarsKept, NoNews, Below;
    SoundIs(s);
    var s' := NewVariable(s, nf, nh);
    var s1 := EnterBlock(s, false, nf, nh).(stack := s.stack);
    EnterLists(s, false, nf, nh);
    CalmFit(s, s1, EnterLog(s, false, nf, nh));
    FitSame(s.stack, s1, s', s.serial);
    FitWiden(s.stack, s', s.serial, s'.serial);
    assert s'.defers == s.defers;
    OrderedSame(s1, s');
    SoundIs(s');
  }

  lemma OrderedSame(s: State, s': State)
    requires Ordered(s) && s'.defers == s.defers && s'.files == s.files && s'.slots == s.slots && s'.serial == s.serial
    ensures Ordered(s')
  {
  }

  lemma FitWiden(stack: seq<Frame>, s: State, n: nat, n': nat)
    requires Fit(stack, s, n) && n <= n'
    ensures Fit(stack, s, n')
  {
    StackedWiden(stack, n, n');
  }

  // ----------------------------------------------- the innermost activation

  lemma UntouchedLess(s: State, s': State, more: seq<Event>, n: nat, m: nat)
    requires Untouched(s, s', more, n) && m <= n
    ensures Untouched(s, s', more, m)
  {
    hide Has;
    BelowTwice(s.defers, n, m);
    BelowTwice(s'.defers, n, m);
  }

  /** The innermost activation finishes with some of what is its own, and touches nothing older. */
  lemma TopKeeps(stack: seq<Frame>, f: Frame, s: State, s': State, more: seq<Event>, n: nat)
    requires stack != [] && Fit(stack, s, n) && Plain(stack[0]) && Plain(f)
    requires f.born == stack[0].born && f.armed == stack[0].armed && f.mark == stack[0].mark
    requires Shrinks(stack[0].own, f.own)
    requires Untouched(s, s', more, f.born) && NoNews(s, s', n) && Sorted(s.defers) && Sorted(s'.defers)
    ensures Fit([f] + stack[1..], s', n)
  {
    hide Untouched, Sorted, History, Resumable;
    FitRest(stack, s, n);
    FitKeeps(stack[1..], s, s', more, f.born);
    MarksFitKeeps(stack, ListsOf(s), ListsOf(s'), n);
    FitPlain(f, stack[0], stack[1..], s', n);
  }

  lemma FitPlain(f: Frame, g: Frame, rest: seq<Frame>, s: State, n: nat)
    requires Fit(rest, s, f.born) && Plain(f) && Stacked([g] + rest, n) && MarksFit([g] + rest, ListsOf(s))
    requires f.born == g.born && f.armed == g.armed && f.mark == g.mark && Shrinks(g.own, f.own)
    ensures Fit([f] + rest, s, n)
  {
    assert ([g] + rest)[1..] == rest && ([f] + rest)[1..] == rest;
    assert ([g] + rest)[0] == g;
  }

  lemma FileGoesKeeps(s: State, id: Id, why: seq<Event>, n: nat)
    requires Ordered(s) && Calm(why) && (n <= id || Event(Disposed, id) in why)
    ensures var s' := FileGoes(s, id, why);
            && s'.log == s.log + s'.log[|s.log|..] && Calm(s'.log[|s.log|..]) && Ordered(s')
            && VarsKept(s, s', s'.log[|s.log|..], n) && NoNews(s, s', s.serial)
            && s'.defers == s.defers && s'.stack == s.stack && s'.serial == s.serial
  {
    hide Sorted, Without;
    var s' := FileGoes(s, id, why);
    var more := why + if id in s.files then [Event(FileDone, id)] else [];
    WithoutFacts(s.files, id);
    assert s'.log == s.log + more;
    assert s'.log[|s.log|..] == more;
  }

  lemma SlotGoesKeeps(s: State, id: Id, why: seq<Event>, n: nat)
    requires Ordered(s) && Calm(why) && (n <= id || Event(Disposed, id) in why)
    ensures var s' := SlotGoes(s, id, why);
            && s'.log == s.log + s'.log[|s.log|..] && Calm(s'.log[|s.log|..]) && Ordered(s')
            && VarsKept(s, s', s'.log[|s.log|..], n) && NoNews(s, s', s.serial)
            && s'.defers == s.defers && s'.stack == s.stack && s'.serial == s.serial
  {
    hide Sorted, Without, SlotsWithout, HeldBy;
    var s' := SlotGoes(s, id, why);
    var more := why + if id in SlotIds(s.slots) then Closing(HeldBy(s.slots, id)) + [Event(SlotDone, id)]
                      else Closing(HeldBy(s.loose, id));
    WithoutFacts(SlotIds(s.slots), id);
    SlotIdsChanged(s.slots, id, None);
    assert s'.log == s.log + more;
    assert s'.log[|s.log|..] == more;
  }

  /** Steps of the innermost activation that leave the list of deferred blocks alone. */
  lemma TopSound(s: State, s': State, f: Frame, more: seq<Event>)
    requires Sound(s) && s.stack != [] && Plain(s.stack[0]) && Plain(f)
    requires f.born == s.stack[0].born && f.armed == s.stack[0].armed && f.mark == s.stack[0].mark
    requires f.own.defer == s.stack[0].own.defer && Shrinks(s.stack[0].own, f.own)
    requires s'.stack == [f] + s.stack[1..] && s'.serial == s.serial && s'.defers == s.defers
    requires Ordered(s') && s'.log == s.log + more && Calm(more)
    requires VarsKept(s, s', more, f.born) && NoNews(s, s', s.serial)
    ensures Sound(s')
  {
    hide Fit, VarsKept, NoNews, Ordered, Has;
    SoundIs(s);
    assert Sorted(s.defers) && Sorted(s'.defers) by { assert Ordered(s) && Ordered(s'); OrderedDefers(s); OrderedDefers(s'); }
    TopKeeps(s.stack, f, s, s', more, s.serial);
    CalmClear(s, s', more);
    OwnedTop(s, s', f);
    SoundIs(s');
  }

  lemma OrderedDefers(s: State)
    requires Ordered(s)
    ensures Sorted(s.defers) && Bounded(s.defers, s.serial)
  {
  }

  lemma OwnedTop(s: State, s': State, f: Frame)
    requires Owned(s) && s.stack != [] && s'.stack == [f] + s.stack[1..] && s'.defers == s.defers
    requires f.own.defer == s.stack[0].own.defer
    ensures Owned(s')
  {
    assert s'.stack[1..] == s.stack[1..];
  }

  lemma DropFileKeeps(s: State, id: Id)
    requires Sound(s) && Enabled(s, DropFile(id))
    ensures Sound(Do(s, DropFile(id)))
  {
    hide Sound, Ordered, Calm;
    var s0 := s.(heap := s.heap - {id});
    var s' := Do(s, DropFile(id));
    SoundIs(s);
    OrderedSame(s, s0);
    CalmOne(id);
    FileGoesKeeps(s0, id, [Event(Disposed, id)], s.stack[0].born);
    assert [s.stack[0]] + s.stack[1..] == s.stack;
    TopSound(s, s', s.stack[0], s'.log[|s.log|..]);
  }

  lemma CalmOne(id: Id)
    ensures Calm([Event(Disposed, id)]) && Calm([])
  {
  }

  lemma DropSlotKeeps(s: State, id: Id)
    requires Sound(s) && Enabled(s, DropSlot(id))
    ensures Sound(Do(s, DropSlot(id)))
  {
    hide Sound, Ordered, Calm;
    var s0 := s.(heap := s.heap - {id});
    var s' := Do(s, DropSlot(id));
    SoundIs(s);
    OrderedSame(s, s0);
    CalmOne(id);
    SlotGoesKeeps(s0, id, [Event(Disposed, id)], s.stack[0].born);
    assert [s.stack[0]] + s.stack[1..] == s.stack;
    TopSound(s, s', s.stack[0], s'.log[|s.log|..]);
  }

  lemma TopFacts(s: State)
    requires Sound(s) && s.stack != []
    ensures var f := s.stack[0];
            && Ordered(s) && f.born <= f.armed <= s.serial
            && (forall x | x in f.own.files :: f.born <= x) && (forall x | x in f.own.slots :: f.born <= x)
  {
  }

  lemma ShrinkFiles(o: Own, id: Id)
    ensures Shrinks(o, o.(files := Without(o.files, id))) && Shrinks(o, o.(slots := Without(o.slots, id)))
  {
    WithoutLess(o.files, id);
    WithoutLess(o.slots, id);
  }

  lemma {:induction false} WithoutLess(s: seq<Id>, id: Id)
    ensures forall x | x in Without(s, id) :: x in s
  {
    if s != [] { WithoutLess(s[1..], id); }
  }

  lemma EndFileKeeps(s: State, id: Id)
    requires Sound(s) && Enabled(s, EndFile(id))
    ensures Sound(Do(s, EndFile(id)))
  {
    hide Sound, Ordered, Calm, Without, Shrinks;
    var top := s.stack[0];
    var f := top.(own := top.own.(files := Without(top.own.files, id)));
    var s' := Do(s, EndFile(id));
    TopFacts(s);
    OrderedSame(s, WithTop(s, f));
    CalmOne(id);
    FileGoesKeeps(WithTop(s, f), id, [], f.born);
    ShrinkFiles(top.own, id);
    TopSound(s, s', f, s'.log[|s.log|..]);
  }

  lemma EndSlotKeeps(s: State, id: Id)
    requires Sound(s) && Enabled(s, EndSlot(id))
    ensures Sound(Do(s, EndSlot(id)))
  {
    hide Sound, Ordered, Calm, Without, Shrinks;
    var top := s.stack[0];
    var f := top.(own := top.own.(slots := Without(top.own.slots, id)));
    var s' := Do(s, EndSlot(id));
    TopFacts(s);
    OrderedSame(s, WithTop(s, f));
    CalmOne(id);
    SlotGoesKeeps(WithTop(s, f), id, [], f.born);
    ShrinkFiles(top.own, id);
    TopSound(s, s', f, s'.log[|s.log|..]);
  }

  lemma LeaveKeeps(s: State)
    requires Sound(s) && Enabled(s, Leave)
    ensures Sound(Do(s, Leave))
  {
    hide Sound, Ordered;
    var s' := Do(s, Leave);
    TopFacts(s);
    OrderedSame(s, s');
    CalmOne(0);
    assert s'.log == s.log + [];
    TopSound(s, s', s'.stack[0], []);
  }

  /** Assignments to handle variables move values, never records. */
  lemma AssignedKeeps(s: State, id: Id, v: Option<nat>)
    ensures var s' := Assigned(s, id, v);
            && s'.log == s.log + Closing(ValueOf(s, id)) && SlotIds(s'.slots) == SlotIds(s.slots)
            && s' == s.(log := s'.log, slots := s'.slots, loose := s'.loose)
  {
    SlotIdsChanged(s.slots, id, v);
  }

  lemma AssignFacts(s: State, a: Act) returns (more: seq<Event>)
    requires Enabled(s, a) && (a.Set? || a.Move? || a.Release?)
    ensures var s' := Do(s, a);
            && s'.log == s.log + more && Calm(more) && SlotIds(s'.slots) == SlotIds(s.slots)
            && s' == s.(log := s'.log, slots := s'.slots, loose := s'.loose)
  {
    hide Fresh, Assigned, ValueOf, Closing, Getting, Calm, SlotIds, Put;
    match a {
      case Set(id, v) =>
        AssignedKeeps(Logged(s, Getting(v)), id, v);
        more := Getting(v) + Closing(ValueOf(Logged(s, Getting(v)), id));
        CalmValues(v, ValueOf(Logged(s, Getting(v)), id));
      case Move(src, dst) =>
        SlotIdsChanged(s.slots, src, None);
        AssignedKeeps(WithValue(s, src, None), dst, ValueOf(s, src));
        more := Closing(ValueOf(WithValue(s, src, None), dst));
        CalmValues(None, ValueOf(WithValue(s, src, None), dst));
      case Release(id) =>
        AssignedKeeps(s, id, None);
        more := Closing(ValueOf(s, id));
        CalmValues(None, ValueOf(s, id));
    }
  }

  lemma CalmValues(v: Option<nat>, w: Option<nat>)
    ensures Calm(Getting(v) + Closing(w)) && Calm(Closing(w))
  {
  }

  lemma AssignKeeps(s: State, a: Act)
    requires Sound(s) && Enabled(s, a) && (a.Set? || a.Move? || a.Release?)
    ensures Sound(Do(s, a))
  {
    hide Sound, Do, Fresh, Calm, SlotIds;
    var more := AssignFacts(s, a);
    AssignSound(s, Do(s, a), more);
  }

  lemma AssignSound(s: State, s': State, more: seq<Event>)
    requires Sound(s) && s.stack != [] && Plain(s.stack[0]) && s'.log == s.log + more && Calm(more)
    requires s' == s.(log := s'.log, slots := s'.slots, loose := s'.loose) && SlotIds(s'.slots) == SlotIds(s.slots)
    ensures Sound(s')
  {
    hide Sound, Has, Calm, SlotIds;
    TopFacts(s);
    assert [s.stack[0]] + s.stack[1..] == s.stack;
    TopSound(s, s', s.stack[0], more);
  }

  // ------------------------------------------------------------- unwinding

  lemma RanTop(s: State, s1: State, d: Id, n: nat)
    requires Ordered(s) && s.defers != [] && s.defers[0] == d && n <= d
    requires s1 == Logged(s.(defers := Without(s.defers, d)), [Event(Ran, d)])
    ensures s1.defers == s.defers[1..] && Ordered(s1) && Untouched(s, s1, [Event(Ran, d)], n) && NoNews(s, s1, s.serial)
  {
    hide Below, Sorted, Without, VarsKept, Bounded, SlotIds;
    RunsFirst(s);
    RanOrdered(s, s1);
    assert s.defers == [d] + s.defers[1..];
    BelowAppend([d], s.defers[1..], n);
    BelowVars(s, s1, [Event(Ran, d)], n);
  }

  /** An innermost activation without records of its own: a runner's. */
  lemma RunnerSound(s: State)
    requires Ordered(s) && Fit(s.stack, s, s.serial) && Owned(s) && Clear(s)
    ensures Sound(s.(stack := [Frame(s.serial, s.serial, NOTHING, HeadsOf(s), Code(true))] + s.stack))
  {
    hide Ordered, Fit, Has;
    var f := Frame(s.serial, s.serial, NOTHING, HeadsOf(s), Code(true));
    var s' := s.(stack := [f] + s.stack);
    FitPush(s.stack, f, s, s.serial, s.serial);
    FitSame(s'.stack, s, s', s.serial);
    OrderedSame(s, s');
    OwnedPush(s, f);
    SoundIs(s');
  }

  lemma OwnedPush(s: State, f: Frame)
    requires Owned(s)
    ensures Owned(s.(stack := [f] + s.stack))
  {
    assert ([f] + s.stack)[1..] == s.stack;
  }

  lemma EpilogueKeeps(s: State)
    requires Sound(s) && Enabled(s, Go) && s.stack[0].job.Epilogue?
    ensures Sound(EpilogueStep(s))
  {
    hide Sound, Ordered, Fit, RunDeferred, Has, Owned;
    SoundIs(s);
    TopFacts(s);
    var top := s.stack[0];
    if top.own.defer.Some? {
      var d := top.own.defer.value;
      var f := top.(own := top.own.(defer := None));
      var s0 := WithTop(s, f);
      if d in s.defers {
        EpilogueRuns(s);
      } else {
        EpilogueSkips(s);
      }
    } else {
      EpilogueEnds(s);
    }
  }

  lemma EpilogueRuns(s: State)
    requires Sound(s) && s.stack != [] && Plain(s.stack[0])
    requires var o := s.stack[0].own; o.defer.Some? && o.defer.value in s.defers
    ensures var f := s.stack[0].(own := s.stack[0].own.(defer := None));
            Sound(RunDeferred(WithTop(s, f), s.stack[0].own.defer.value))
  {
    hide Fit, Ordered, Has, Untouched;
    SoundIs(s);
    TopFacts(s);
    var top := s.stack[0];
    var d := top.own.defer.value;
    var f := top.(own := top.own.(defer := None));
    OwnIsHead(s) by { assert Stacked(s.stack, s.serial); }
    var s1 := Logged(s.(defers := Without(s.defers, d)), [Event(Ran, d)]);
    var s2 := s1.(stack := [f] + s.stack[1..]);
    assert f.born <= d by { assert Stacked(s.stack, s.serial); }
    RanTop(s, s1, d, f.born);
    OrderedDefers(s);
    OrderedDefers(s1);
    TopKeeps(s.stack, f, s, s1, [Event(Ran, d)], s.serial);
    FitSame(s2.stack, s1, s2, s.serial);
    OrderedSame(s1, s2);
    OwnedRan(s, s2, f, d);
    ClearMore(s, s2, [Event(Ran, d)]);
    RunnerSound(s2);
  }

  lemma OwnedRan(s: State, s': State, f: Frame, d: Id)
    requires Ordered(s) && Owned(s) && s.stack != [] && s.stack[0].own.defer == Some(d) && s.defers != [] && s.defers[0] == d
    requires s'.defers == s.defers[1..] && s'.stack == [f] + s.stack[1..]
    ensures Owned(s')
  {
    assert s.defers == [d] + s.defers[1..];
    assert s'.stack[1..] == s.stack[1..];
    assert Owners(s.stack) == {d} + Owners(s.stack[1..]);
    forall x | x in s'.defers
      ensures x in Owners(s.stack[1..])
    {
      assert x in s.defers && x < d;
    }
  }

  lemma EpilogueSkips(s: State)
    requires Sound(s) && s.stack != [] && Plain(s.stack[0])
    requires var o := s.stack[0].own; o.defer.Some? && o.defer.value !in s.defers
    ensures Sound(WithTop(s, s.stack[0].(own := s.stack[0].own.(defer := None))))
  {
    hide Fit, Ordered, Has;
    SoundIs(s);
    var f := s.stack[0].(own := s.stack[0].own.(defer := None));
    var s' := WithTop(s, f);
    FitTop(s.stack, f, s, s.serial);
    FitSame(s'.stack, s, s', s.serial);
    OrderedSame(s, s');
    assert s'.stack[1..] == s.stack[1..];
    assert Owners(s.stack) == {s.stack[0].own.defer.value} + Owners(s.stack[1..]);
    SoundIs(s');
  }

  lemma EpilogueEnds(s: State)
    requires Sound(s) && s.stack != [] && Plain(s.stack[0]) && s.stack[0].own == NOTHING
    ensures Sound(s.(stack := s.stack[1..]))
  {
    hide Fit, Ordered, Has;
    SoundIs(s);
    var s' := s.(stack := s.stack[1..]);
    FitRest(s.stack, s, s.serial);
    FitSame(s'.stack, s, s', s.serial);
    OrderedSame(s, s');
    assert Owners(s.stack) == {} + Owners(s.stack[1..]);
    SoundIs(s');
  }

  lemma AccountedBegins(s: State)
    requires Ordered(s)
    ensures Accounted(s, |s.log|, ListsOf(s), s.serial)
  {
    BelowAll(s.defers, s.serial);
    assert s.log[|s.log|..] == [];
  }

  /** An unwinding comes on top. */
  lemma FitPushUnwind(stack: seq<Frame>, f: Frame, s: State, n: nat)
    requires Fit(stack, s, n) && Ordered(s) && s.serial == n
    requires f.born == f.armed == n && f.own == NOTHING && f.mark == HeadsOf(s) && !Plain(f)
    requires FrameAccounted(f, s)
    requires f.job.Jumping? ==>
               var j := f.job;
               && j.cursor == Head(s.defers) && j.before == ListsOf(s) && CanReach(stack, j.target)
               && Target(stack, j.target).mark == j.mark && Target(stack, j.target).armed == j.limit
    ensures Fit([f] + stack, s, n)
  {
    hide Sorted, FrameAccounted, Fits, Since, Has;
    assert ([f] + stack)[1..] == stack;
    HeadFits(s.defers, n);
    HeadFits(s.files, n);
    HeadFits(SlotIds(s.slots), n);
    ResumableIsBeneath(stack, s.defers, s.log);
    BelowAll(s.defers, n);
  }

  lemma {:induction false} ArmedWithin(stack: seq<Frame>, n: nat, k: nat)
    requires Stacked(stack, n) && k < |stack|
    ensures stack[k].armed <= n
  {
    if k > 0 { ArmedWithin(stack[1..], stack[0].born, k - 1); }
  }

  lemma GotoKeeps(s: State, t: nat)
    requires Sound(s) && CanReach(s.stack, t)
    ensures Sound(BeginJump(s, t))
  {
    hide Fit, Ordered, Has, Fits;
    SoundIs(s);
    var to := Target(s.stack, t);
    var more := if Gone(to.mark.d, s.defers) then [Event(Lost, to.armed)] else [];
    var s1 := Logged(s, more);
    var s' := BeginJump(s, t);
    OrderedSame(s, s1);
    LogCalm(s, s1, more);
    AccountedBegins(s1);
    GotoAccounted(s, s1, t, more);
    FitPushUnwind(s.stack, s'.stack[0], s1, s.serial);
    FitSame(s'.stack, s1, s', s.serial);
    OrderedSame(s1, s');
    OwnedPush(s1, s'.stack[0]);
    SoundIs(s');
  }

  lemma LogCalm(s: State, s1: State, more: seq<Event>)
    requires Sound(s) && s1 == Logged(s, more) && Calm(more)
    ensures Fit(s.stack, s1, s.serial) && Clear(s1)
  {
    hide Has, Fit, Sorted, Resumable, History;
    SoundIs(s);
    OrderedSame(s, s1);
    BelowAll(s.defers, s.serial);
    CalmFit(s, s1, more);
  }

  lemma GotoAccounted(s: State, s1: State, t: nat, more: seq<Event>)
    requires Sound(s) && CanReach(s.stack, t) && s1 == Logged(s, more)
    requires more == if Gone(Target(s.stack, t).mark.d, s.defers) then [Event(Lost, Target(s.stack, t).armed)] else []
    requires Accounted(s1, |s1.log|, ListsOf(s1), s1.serial)
    ensures FrameAccounted(BeginJump(s, t).stack[0], s1)
  {
    hide Accounted, Fits, Resumable, History, Aimed;
    var k: nat := |s.stack| - t;
    MarksFitAt(s.stack, ListsOf(s), k);
    ArmedWithin(s.stack, s.serial, k);
    if Gone(Target(s.stack, t).mark.d, s.defers) {
      SinceGrows(s.log, more, 0, Lost);
      assert Event(Lost, Target(s.stack, t).armed) in more;
    }
  }

  lemma HaltKeeps(s: State, status: nat)
    requires Sound(s)
    ensures Sound(BeginHalt(s, status))
  {
    hide Fit, Ordered, Has;
    SoundIs(s);
    var s' := BeginHalt(s, status);
    AccountedBegins(s);
    FitPushUnwind(s.stack, s'.stack[0], s, s.serial);
    FitSame(s'.stack, s, s', s.serial);
    OrderedSame(s, s');
    OwnedPush(s, s'.stack[0]);
    SoundIs(s');
  }

  /** s' is s after its first deferred record has been unlinked and its runner begun. */
  predicate RanFirst(s: State, s': State) {
    && s.defers != [] && s'.defers == s.defers[1..] && s'.log == s.log + [Event(Ran, s.defers[0])]
    && s'.files == s.files && s'.slots == s.slots && s'.serial == s.serial
  }

  /** Running the first record of all is what every unwinding in progress expects next. */
  lemma AccountedRan(s: State, s': State, since: nat, before: Lists, born: nat)
    requires Accounted(s, since, before, born) && RanFirst(s, s') && Sorted(s.defers)
    ensures Accounted(s', since, before, born)
  {
    hide Since, Has, RanOf;
    var d := s.defers[0];
    var more := [Event(Ran, d)];
    assert s'.log[since..] == s.log[since..] + more;
    RanOfAppend(s.log[since..], more, before.defers);
    if d < born {
      Shift(RanOf(s.log[since..], before.defers), d, s'.defers, before.defers);
      RanOfOne(d, before.defers);
      TailBelow(s.defers, born);
    } else {
      RanOfNone(more, before.defers);
    }
    AccountedVars(s, s', more, since, before, born) by { BelowVars(s, s', more, born); }
  }

  lemma TailBelow(s: seq<Id>, n: nat)
    requires Sorted(s) && s != [] && s[0] < n
    ensures Below(s, n) == [s[0]] + s[1..] && Below(s[1..], n) == s[1..]
  {
    assert s == [s[0]] + s[1..];
  }

  lemma BelowVars(s: State, s': State, more: seq<Event>, n: nat)
    requires s'.files == s.files && s'.slots == s.slots
    ensures VarsKept(s, s', more, n)
  {
  }

  lemma FrameRan(f: Frame, s: State, s': State)
    requires FrameAccounted(f, s) && RanFirst(s, s') && Sorted(s.defers)
    ensures FrameAccounted(f, s')
  {
    hide Accounted, Sorted, Fits, Has;
    match f.job
    case Jumping(_, _, since, before, _, _) =>
      AccountedRan(s, s', since, before, f.born);
      SinceGrows(s.log, [Event(Ran, s.defers[0])], 0, Lost);
    case Halting(_, since, before) => AccountedRan(s, s', since, before, f.born);
    case _ =>
  }

  lemma {:induction false} HistoryRan(stack: seq<Frame>, s: State, s': State)
    requires History(stack, s) && RanFirst(s, s') && Sorted(s.defers)
    ensures History(stack, s')
  {
    hide FrameAccounted, Sorted, RanFirst;
    if stack != [] {
      FrameRan(stack[0], s, s');
      HistoryRan(stack[1..], s, s');
    }
  }

  lemma RanOrdered(s: State, s': State)
    requires Ordered(s) && RanFirst(s, s')
    ensures Ordered(s') && NoNews(s, s', s.serial)
  {
    assert s.defers == [s.defers[0]] + s.defers[1..];
    assert forall x | x in s.defers[1..] :: x in s.defers;
  }

  /** What a turn of either loop keeps, the unwinding itself being left to say. */
  lemma UnwindRan(s: State, s': State, f: Frame)
    requires Ordered(s) && Fit(s.stack, s, s.serial) && Owned(s) && Clear(s) && s.stack != [] && !Plain(s.stack[0])
    requires s.stack[0].own == NOTHING && RanFirst(s, s') && s'.stack == [f] + s.stack[1..]
    requires f.born == s.stack[0].born && f.armed == s.stack[0].armed && f.own == NOTHING && f.mark == s.stack[0].mark
    requires if f.job.Jumping?
             then s.stack[0].job.Jumping? && f.job == s.stack[0].job.(cursor := f.job.cursor) && CursorGood(f, s'.defers, s'.log)
             else f.job.Halting? && f.job == s.stack[0].job
    ensures Sound(s'.(stack := [Frame(s'.serial, s'.serial, NOTHING, HeadsOf(s'), Code(true))] + s'.stack))
  {
    hide Accounted, Sorted, CursorGood, Has, Resumable, Fits;
    var rest := s.stack[1..];
    assert s'.stack[1..] == rest;
    OrderedDefers(s);
    RanOrdered(s, s');
    HistoryRan(s.stack, s, s');
    MarksFitKeeps(s.stack, ListsOf(s), ListsOf(s'), s.serial);
    UnwindBeneath(s.stack, s);
    StackedWiden(rest, s.stack[0].born, s.serial);
    BeneathRan(rest, s, s', [Event(Ran, s.defers[0])], s.serial);
    ResumableOf(f, rest, s');
    assert Fit(s'.stack, s', s'.serial);
    OwnedTail(s, s', f);
    ClearMore(s, s', [Event(Ran, s.defers[0])]);
    RunnerSound(s');
  }

  lemma UnwindBeneath(stack: seq<Frame>, s: State)
    requires stack != [] && !Plain(stack[0]) && Resumable(stack, s.defers, s.log)
    ensures Beneath(stack[1..], s.defers, s.log)
  {
  }

  lemma ResumableOf(f: Frame, rest: seq<Frame>, s: State)
    requires !Plain(f) && Beneath(rest, s.defers, s.log) && (f.job.Jumping? ==> CursorGood(f, s.defers, s.log))
    ensures Resumable([f] + rest, s.defers, s.log)
  {
    assert ([f] + rest)[1..] == rest;
  }

  lemma OwnedTail(s: State, s': State, f: Frame)
    requires Owned(s) && RanFirst(s, s') && s.stack != [] && s.stack[0].own == NOTHING && f.own == NOTHING
    requires s'.stack == [f] + s.stack[1..]
    ensures Owned(s')
  {
    assert s.defers == [s.defers[0]] + s.defers[1..];
    assert s'.stack[1..] == s.stack[1..];
    assert Owners(s.stack) == {} + Owners(s.stack[1..]);
  }

  lemma RunsFirst(s: State)
    requires Ordered(s) && s.defers != []
    ensures var s1 := Logged(s.(defers := Without(s.defers, s.defers[0])), [Event(Ran, s.defers[0])]); RanFirst(s, s1)
  {
  }

  lemma HaltRuns(s: State)
    requires Sound(s) && s.stack != [] && s.stack[0].job.Halting? && s.defers != []
    ensures Sound(RunDeferred(s, s.defers[0]))
  {
    hide Fit, Has;
    SoundIs(s);
    RunsFirst(s);
    var d := s.defers[0];
    var s1 := Logged(s.(defers := Without(s.defers, d)), [Event(Ran, d)]);
    assert s1.stack == [s.stack[0]] + s.stack[1..];
    UnwindRan(s, s1, s.stack[0]);
  }

  /** A jump on top: the first of the list is the saved successor, or a landing inside one of its
      runners has gone astray and left nothing. */
  lemma JumpTop(s: State)
    requires Sound(s) && s.stack != [] && s.stack[0].job.Jumping?
    ensures var f := s.stack[0];
            var j := f.job;
            && Ordered(s) && f.own == NOTHING && Bounded(s.defers, f.born) && Below(s.defers, f.born) == s.defers
            && CursorGood(f, s.defers, s.log)
            && (j.cursor == Head(s.defers) || s.defers == [])
            && (j.cursor == None || j.cursor == j.mark.d ==>
                  Bounded(s.defers, j.limit) && (Gone(j.mark.d, s.defers) ==> s.defers == []))
            && Aimed(s.stack) && CanReach(s.stack[1..], j.target)
            && Target(s.stack[1..], j.target).mark == j.mark && Target(s.stack[1..], j.target).armed == j.limit
            && FrameAccounted(f, s)
  {
    hide MarksFit, History, Sorted, Beneath;
    NoneYounger(s);
    var j := s.stack[0].job;
    assert FrameAccounted(s.stack[0], s) by { HistoryTop(s.stack, s); }
    if j.cursor == Head(s.defers) && j.cursor == j.mark.d && s.defers != [] {
      HeadBounds(s.defers, j.limit);
    }
  }

  lemma HistoryTop(stack: seq<Frame>, s: State)
    requires History(stack, s) && stack != []
    ensures FrameAccounted(stack[0], s) && History(stack[1..], s)
  {
  }

  lemma HeadBounds(s: seq<Id>, n: nat)
    requires Sorted(s) && s != [] && s[0] < n
    ensures Bounded(s, n) && s[0] in s
  {
    forall x | x in s
      ensures x < n
    {
      var i :| 0 <= i < |s| && s[i] == x;
      assert s[0] >= s[i];
    }
  }

  lemma WalkKeeps(s: State)
    requires Sound(s) && s.stack != [] && s.stack[0].job.Jumping?
    requires var j := s.stack[0].job; j.cursor != None && j.cursor != j.mark.d
    ensures Sound(WalkOn(s, s.stack[0].job.cursor.value))
  {
    hide Fit, Has, Ordered, Sorted, FrameAccounted, Aimed, CanReach, Fits, Since;
    SoundIs(s);
    JumpTop(s);
    var f := s.stack[0];
    var j := f.job;
    var d := j.cursor.value;
    var f' := f.(job := j.(cursor := NextOf(s.defers, d)));
    var s0 := WithTop(s, f');
    if d in s.defers {
      assert s.defers != [] && s.defers[0] == d;
      NextIsHead(s.defers);
      RunsFirst(s);
      var s1 := Logged(s.(defers := Without(s.defers, d)), [Event(Ran, d)]).(stack := s0.stack);
      CursorMoves(f, f', s, s1);
      UnwindRan(s, s1, f');
    } else {
      NextOfAbsent(s.defers, d);
      CursorEnds(s, f');
    }
  }

  lemma CursorMoves(f: Frame, f': Frame, s: State, s': State)
    requires f.job.Jumping? && CursorGood(f, s.defers, s.log) && RanFirst(s, s') && Ordered(s)
    requires Bounded(s.defers, f.born) && f.job.cursor == Some(s.defers[0]) && f.job.cursor != f.job.mark.d
    requires f' == f.(job := f.job.(cursor := Head(s.defers[1..])))
    ensures CursorGood(f', s'.defers, s'.log)
  {
    assert s.defers == [s.defers[0]] + s.defers[1..];
    BelowAll(s.defers, f.born);
    assert forall x | x in s.defers[1..] :: x in s.defers;
    BelowAll(s.defers[1..], f.born);
  }

  lemma CursorEnds(s: State, f': Frame)
    requires Sound(s) && s.stack != [] && s.stack[0].job.Jumping? && s.defers == []
    requires s.stack[0].job.cursor != None && f' == s.stack[0].(job := s.stack[0].job.(cursor := None))
    ensures Sound(WithTop(s, f'))
  {
    hide Has, Accounted, Fits, Sorted, Bounded;
    var s' := WithTop(s, f');
    assert s'.stack[1..] == s.stack[1..];
    assert History(s'.stack, s);
    HistorySame(s'.stack, s, s');
    assert CursorGood(f', s'.defers, s'.log);
    assert Owners(s'.stack) == Owners(s.stack);
  }

  // ---------------------------------------------------------------- landing

  function LandLog(s: State, mark: Mark, limit: nat): seq<Event> {
    Tagged(FileDone, s.files[..Above(s.at, s.files, mark.f)]) + SlotsDone(s.slots[..LandSlots(s, mark)]) + Strayed(s, mark, limit)
  }

  lemma LandLogTags(s: State, mark: Mark, limit: nat)
    ensures var more := LandLog(s, mark, limit);
            && (forall e | e in more :: e.tag != Ran && e.tag != Lost)
            && (Has(more, Astray) <==> Gone(mark.d, s.defers))
            && (Missed(s.at, s.files, mark.f) || Missed(s.at, SlotIds(s.slots), mark.h) <==> Has(more, AstrayVars))
  {
    var a, b, c := Tagged(FileDone, s.files[..Above(s.at, s.files, mark.f)]), SlotsDone(s.slots[..LandSlots(s, mark)]), Strayed(s, mark, limit);
    TaggedTags(FileDone, s.files[..Above(s.at, s.files, mark.f)]);
    SlotsDoneTags(s.slots[..LandSlots(s, mark)]);
    assert a + b + c == LandLog(s, mark, limit);
    StrayedTags(s, mark, limit);
    HasAppend(a + b, c, Astray);
    HasAppend(a + b, c, AstrayVars);
  }

  lemma HasAppend(a: seq<Event>, b: seq<Event>, tag: Tag)
    ensures Has(a + b, tag) <==> Has(a, tag) || Has(b, tag)
  {
  }

  lemma StrayedTags(s: State, mark: Mark, limit: nat)
    ensures var c := Strayed(s, mark, limit);
            && (forall e | e in c :: e.tag == Astray || e.tag == AstrayVars)
            && (Has(c, Astray) <==> Gone(mark.d, s.defers))
            && (Has(c, AstrayVars) <==> Missed(s.at, s.files, mark.f) || Missed(s.at, SlotIds(s.slots), mark.h))
  {
    hide Gone, Missed;
    if Gone(mark.d, s.defers) { assert Event(Astray, limit) in Strayed(s, mark, limit); }
    if Missed(s.at, s.files, mark.f) || Missed(s.at, SlotIds(s.slots), mark.h) { assert Event(AstrayVars, limit) in Strayed(s, mark, limit); }
  }

  /** What a landing leaves on the lists of files and of handles. */
  lemma LandVars(s: State, t: nat, mark: Mark, limit: nat)
    requires Ordered(s) && Fits(s.files, mark.f, limit) && Fits(SlotIds(s.slots), mark.h, limit) && 0 < t <= |s.stack|
    requires Sited(s.at, s.files, mark.f, limit) && Sited(s.at, SlotIds(s.slots), mark.h, limit)
    ensures var s' := Land(s, t, mark, limit);
            && Ordered(s') && NoNews(s, s', s.serial) && s'.log == s.log + LandLog(s, mark, limit)
            && s'.files == s.files[Above(s.at, s.files, mark.f)..]
            && SlotIds(s'.slots) == SlotIds(s.slots)[Above(s.at, SlotIds(s.slots), mark.h)..]
            && VarsKept(s, s', LandLog(s, mark, limit), limit)
  {
    hide Sorted, Tagged, SlotsDone, Fits, Has, Strayed, Below, Above, Missed, Sited, FirstAt;
    WalkCuts(s.at, s.files, mark.f, limit);
    WalkCuts(s.at, SlotIds(s.slots), mark.h, limit);
    SlotIdsCut(s.slots, LandSlots(s, mark));
    CutAt(s.files, Above(s.at, s.files, mark.f));
    CutAt(SlotIds(s.slots), LandSlots(s, mark));
    LandLogTags(s, mark, limit);
  }

  lemma TargetAt(s: State)
    requires Sound(s) && MarksSited(s) && s.stack != [] && s.stack[0].job.Jumping?
    ensures var j := s.stack[0].job;
            && 0 < j.target < |s.stack|
            && var to := s.stack[|s.stack| - j.target];
            && to.mark == j.mark && to.armed == j.limit && IsBlock(to)
            && Fits(s.files, j.mark.f, j.limit) && Fits(SlotIds(s.slots), j.mark.h, j.limit)
            && Sited(s.at, s.files, j.mark.f, j.limit) && Sited(s.at, SlotIds(s.slots), j.mark.h, j.limit)
  {
    hide MarksFit, Resumable, History, Fits, Sorted, Sited;
    var j := s.stack[0].job;
    assert CanReach(s.stack[1..], j.target);
    MarksFitAt(s.stack, ListsOf(s), |s.stack| - j.target);
  }

  /** The stack a landing leaves, beside what it leaves on the lists. */
  lemma LandFit(s: State)
    requires Sound(s) && MarksSited(s) && s.stack != [] && s.stack[0].job.Jumping?
    requires var j := s.stack[0].job; j.cursor == None || j.cursor == j.mark.d
    ensures var j := s.stack[0].job;
            var s' := Land(s, j.target, j.mark, j.limit);
            Fit(s'.stack, s', s.serial)
  {
    hide MarksSited, Sited, Above, Ordered, Has, Fits, LandLog, Untouched, VarsKept, NoNews, Resumable,
      Beneath, Stacked, Aimed, History, MarksFit, Accounted, CursorGood, Tagged, SlotsDone, Strayed, Sorted,
      Below;
    JumpTop(s);
    TargetAt(s);
    var j := s.stack[0].job;
    var k: nat := |s.stack| - j.target;
    var s' := Land(s, j.target, j.mark, j.limit);
    var more := LandLog(s, j.mark, j.limit);
    LandVars(s, j.target, j.mark, j.limit);
    LandLogTags(s, j.mark, j.limit);
    var to, rest := s.stack[k], s.stack[k + 1..];
    assert s.stack[k..] == [to] + rest && s'.stack == [to.(job := Code(false))] + rest;
    SoundIs(s);
    LandStack(s, k);
    ArmedWithin(s.stack, s.serial, k);
    LandUntouched(s, s', more, j.limit);
    UntouchedLess(s, s', more, j.limit, to.born) by { StackedTop([to] + rest, s.serial); }
    LandRest(s, s', more, to, rest);
    MarksFitKeeps([to] + rest, ListsOf(s), ListsOf(s'), s.serial) by { NoNewsIs(s, s', s.serial); }
    FitPlain(to.(job := Code(false)), to, rest, s', s.serial) by { ShrinksSelf(to.own); }
  }

  lemma ShrinksSelf(o: Own)
    ensures Shrinks(o, o)
  {
  }

  lemma NoNewsIs(s: State, s': State, n: nat)
    requires NoNews(s, s', n)
    ensures forall x | x < n && x in s'.defers :: x in s.defers
    ensures forall x | x < n && x in s'.files :: x in s.files
    ensures forall x | x < n && x in SlotIds(s'.slots) :: x in SlotIds(s.slots)
  {
  }

  lemma StackedTop(stack: seq<Frame>, n: nat)
    requires stack != [] && Stacked(stack, n)
    ensures stack[0].born <= stack[0].armed <= n && Stacked(stack[1..], stack[0].born)
  {
  }

  /** The lower part of the stack, as the jump finds it. */
  lemma LandStack(s: State, k: nat)
    requires Fit(s.stack, s, s.serial) && s.stack != [] && !Plain(s.stack[0]) && 0 < k < |s.stack|
    ensures var to, rest := s.stack[k], s.stack[k + 1..];
            && Stacked([to] + rest, s.serial) && MarksFit([to] + rest, ListsOf(s))
            && Stacked(rest, to.born) && MarksFit(rest, ListsOf(s)) && Aimed(rest) && History(rest, s)
            && Beneath([to] + rest, s.defers, s.log) && to.born <= to.armed
  {
    hide Resumable, Accounted, CanReach, Fits, CursorGood, Gone;
    var to, rest := s.stack[k], s.stack[k + 1..];
    assert s.stack[k..] == [to] + rest;
    StackedCut(s.stack, s.serial, k);
    StackedCut(s.stack, s.serial, k + 1);
    MarksFitAt(s.stack, ListsOf(s), k);
    assert ([to] + rest)[1..] == rest;
    CutBelow(s.stack, s, k + 1);
    UnwindBeneath(s.stack, s);
    CutBelow(s.stack[1..], s, k - 1);
    assert s.stack[1..][k - 1..] == s.stack[k..];
  }

  lemma LandUntouched(s: State, s': State, more: seq<Event>, n: nat)
    requires s'.defers == s.defers && s'.log == s.log + more && VarsKept(s, s', more, n)
    requires forall e | e in more :: e.tag != Ran
    ensures Untouched(s, s', more, n)
  {
  }

  lemma LandRest(s: State, s': State, more: seq<Event>, to: Frame, rest: seq<Frame>)
    requires Stacked(rest, to.born) && MarksFit(rest, ListsOf(s)) && Aimed(rest) && History(rest, s)
    requires Beneath([to] + rest, s.defers, s.log) && IsBlock(to) && Ordered(s) && Ordered(s')
    requires Untouched(s, s', more, to.born) && NoNews(s, s', s.serial) && to.born <= s.serial
    requires s'.defers == s.defers && (Gone(to.mark.d, s.defers) ==> s.defers == [] && Has(more, Astray))
    ensures Fit(rest, s', to.born)
  {
    hide Untouched, NoNews, Gone, History, Stacked, Aimed, MarksFit, CursorGood, Has;
    OrderedDefers(s);
    OrderedDefers(s');
    UntouchedLog(s, s', more, to.born);
    HistoryKeeps(rest, s, s', more, to.born);
    MarksFitKeeps(rest, ListsOf(s), ListsOf(s'), to.born) by { NoNewsIs(s, s', s.serial); }
    if Gone(to.mark.d, s.defers) {
      NothingLeft(rest, s, s'.log, more);
    } else {
      BlockResumes(to, rest, s.defers, s.log);
      ResumableKeeps(rest, s, s', more, to.born);
    }
  }

  lemma BlockResumes(to: Frame, rest: seq<Frame>, defers: seq<Id>, log: seq<Event>)
    requires IsBlock(to) && Beneath([to] + rest, defers, log) && !Gone(to.mark.d, defers)
    ensures Resumable(rest, defers, log)
  {
    assert ([to] + rest)[1..] == rest;
  }

  lemma LandOwned(s: State, k: nat, to: Frame, s': State)
    requires Owned(s) && Stacked(s.stack, s.serial) && k < |s.stack| && Bounded(s.defers, s.stack[k].armed)
    requires s'.defers == s.defers && s'.stack == [to] + s.stack[k + 1..] && to.own == s.stack[k].own
    ensures Owned(s')
  {
    OwnersCut(s.stack, s.serial, k);
    assert s.stack[k..][1..] == s.stack[k + 1..] && s'.stack[1..] == s.stack[k + 1..];
    assert Owners(s.stack[k..]) == Owners(s'.stack);
  }

  lemma LandClear(s: State, s': State, more: seq<Event>)
    requires Clear(s) && s.stack != [] && s.stack[0].job.Jumping? && s'.log == s.log + more
    requires Bounded(s.defers, s.stack[0].born) && Below(s.defers, s.stack[0].born) == s.defers
    requires var f := s.stack[0]; CursorGood(f, s.defers, s.log) && FrameAccounted(f, s)
    requires Has(more, Astray) <==> Gone(s.stack[0].job.mark.d, s.defers)
    requires forall e | e in more :: e.tag != Lost
    ensures Clear(s')
  {
    var j := s.stack[0].job;
    HasAppend(s.log, more, Astray);
    HasAppend(s.log, more, Lost);
    assert s.log[0..] == s.log;
    if Has(more, Astray) && Since(s.log, j.since, Astray) {
      assert Has(s.log, Astray);
    }
  }

  lemma LandKeeps(s: State)
    requires Sound(s) && MarksSited(s) && s.stack != [] && s.stack[0].job.Jumping?
    requires var j := s.stack[0].job; j.cursor == None || j.cursor == j.mark.d
    ensures var j := s.stack[0].job; Sound(Land(s, j.target, j.mark, j.limit))
  {
    hide MarksSited, Sited, Above, Fit, Ordered, Has, Fits, LandLog, VarsKept, NoNews, Resumable, Stacked,
      Aimed, History, MarksFit, CursorGood, FrameAccounted, Clear, Tagged, SlotsDone, Strayed, Sorted, Below,
      Bounded, Owned, Missed, FirstAt, SlotIds, LandSlots, CanReach, IsBlock;
    JumpTop(s);
    TargetAt(s);
    var j := s.stack[0].job;
    var k: nat := |s.stack| - j.target;
    var s' := Land(s, j.target, j.mark, j.limit);
    LandVars(s, j.target, j.mark, j.limit);
    LandLogTags(s, j.mark, j.limit);
    LandFit(s);
    SoundIs(s);
    assert Stacked(s.stack, s.serial);
    var to := s.stack[k];
    assert s.stack[k..][1..] == s.stack[k + 1..];
    LandOwned(s, k, to.(job := Code(false)), s');
    LandClear(s, s', LandLog(s, j.mark, j.limit));
    SoundIs(s');
  }

  // ------------------------------------------------------------- every step

  lemma FinishKeeps(s: State, status: nat)
    requires Sound(s) && s.defers == []
    ensures Sound(Finish(s, status))
  {
    hide Has, MarksFit, Resumable, History, Stacked, Aimed, Tagged, SlotsDone;
    var more := Tagged(FileDone, s.files) + SlotsDone(s.slots) + [Event(Exited, status)];
    TaggedTags(FileDone, s.files);
    SlotsDoneTags(s.slots);
    SoundIs(s);
    ClearMore(s, Finish(s, status), more);
    FinishFit(Finish(s, status));
    SoundIs(Finish(s, status));
  }

  lemma FinishFit(s: State)
    requires s.stack == [] && s.defers == [] && s.files == [] && s.slots == []
    ensures Ordered(s) && Fit(s.stack, s, s.serial) && Owned(s)
  {
  }

  lemma GoKeeps(s: State)
    requires Sound(s) && MarksSited(s) && Enabled(s, Go)
    ensures Sound(Do(s, Go))
  {
    hide Sound, MarksSited, Fresh, RunDeferred, Land, WalkOn, EpilogueStep, Finish;
    var top := s.stack[0];
    match top.job
    case Epilogue(_) => EpilogueKeeps(s);
    case Jumping(_, cursor, _, _, mark, _) => if cursor == None || cursor == mark.d { LandKeeps(s); } else { WalkKeeps(s); }
    case Halting(status, _, _) => if s.defers != [] { HaltRuns(s); } else { FinishKeeps(s, status); }
  }

  lemma StepSound(s: State, a: Act)
    requires Sound(s) && MarksSited(s) && Enabled(s, a)
    ensures Sound(Do(s, a))
  {
    hide Sound, MarksSited, Fresh, RunDeferred, Land, EnterBlock, NewVariable, BeginJump, BeginHalt, FileGoes, SlotGoes;
    match a
    case Enter(nd, nf, nh) => EnterKeeps(s, nd, nf, nh);
    case New(nf, nh) => NewKeeps(s, nf, nh);
    case DropFile(id) => DropFileKeeps(s, id);
    case DropSlot(id) => DropSlotKeeps(s, id);
    case Leave => LeaveKeeps(s);
    case EndFile(id) => EndFileKeeps(s, id);
    case EndSlot(id) => EndSlotKeeps(s, id);
    case Goto(t) => GotoKeeps(s, t);
    case Halt(status) => HaltKeeps(s, status);
    case Set(_, _) => AssignKeeps(s, a);
    case Move(_, _) => AssignKeeps(s, a);
    case Release(_) => AssignKeeps(s, a);
    case Go => GoKeeps(s);
  }
}
