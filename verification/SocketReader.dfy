/** Reading lines from a socket (pasx_socket_readline and pasx_socket_buffered of
    runtime/pasrt_posix.c): a bounded buffer that is searched, shifted and refilled, over a
    connection that hands out its bytes in pieces of any size and may interrupt any read. */
module SocketReader {
  type Bytes = seq<char>

  const PASX_SOCK_BUF := 4096

  datatype Answer = Line(text: Bytes) | Closed | Refused | TooLong

  /** How one read behaves: it delivers at most so many bytes, or fails. */
  datatype Read = Chunk(most: nat) | Interrupted | Failed

  /** The place of the first newline, or the length when there is none. */
  function Newline(s: Bytes): (i: nat)
    ensures i <= |s| && (i < |s| ==> s[i] == '\n') && forall k | 0 <= k < i :: s[k] != '\n'
  {
    if s == [] || s[0] == '\n' then 0 else 1 + Newline(s[1..])
  }

  function Min(a: nat, b: nat): nat { if a < b then a else b }

  /** A carriage return belongs to the line end only in front of a newline. */
  function Stripped(s: Bytes): Bytes { if s != [] && s[|s| - 1] == '\r' then s[..|s| - 1] else s }

  /** What readline answers, of all that has not been handed out, however it arrives. */
  function AnswerTo(rest: Bytes, cap: nat): Answer {
    var i := Newline(rest);
    if i < Min(|rest|, PASX_SOCK_BUF) then
      if |Stripped(rest[..i])| > cap then TooLong else Line(Stripped(rest[..i]))
    else if |rest| >= PASX_SOCK_BUF then TooLong
    else if rest == [] then Closed
    else if |rest| > cap then TooLong
    else Line(rest)
  }

  /** How much of it is gone afterwards: the line and its end, or a full buffer, or everything. */
  function Used(rest: Bytes): (n: nat)
    ensures n <= |rest|
  {
    var i := Newline(rest);
    if i < Min(|rest|, PASX_SOCK_BUF) then i + 1 else Min(|rest|, PASX_SOCK_BUF)
  }

  lemma {:induction false} NewlineIs(s: Bytes, i: nat)
    requires i <= |s| && (i < |s| ==> s[i] == '\n') && forall k | 0 <= k < i :: s[k] != '\n'
    ensures Newline(s) == i
  {
    if i > 0 { NewlineIs(s[1..], i - 1); }
  }

  class Socket {
    const buf: array<char>
    var head: nat
    var tail: nat
    var stream: Bytes       // what the far end will still send before it closes
    var script: seq<Read>   // how the reads to come will behave
    var calls: nat          // how many there have been

    predicate Valid()
      reads this
    {
      buf.Length == PASX_SOCK_BUF && head <= tail <= PASX_SOCK_BUF
    }

    /** Everything not handed out yet, in order. */
    function Rest(): Bytes
      reads this, buf
      requires Valid()
    {
      buf[head..tail] + stream
    }

    constructor (stream: Bytes, script: seq<Read>)
      ensures Valid() && fresh(buf) && Rest() == stream && this.script == script && head == tail
    {
      buf := new char[PASX_SOCK_BUF];
      head, tail, calls := 0, 0, 0;
      this.stream, this.script := stream, script;
    }

    /** read(2) into the free end of the buffer: -1 with an error, 0 only at the end. */
    method ReadMore() returns (n: int, interrupted: bool)
      requires Valid() && tail < PASX_SOCK_BUF
      modifies this`stream, this`script, this`calls, buf
      ensures calls == old(calls) + 1 && -1 <= n <= PASX_SOCK_BUF - tail
      ensures n >= 0 ==> n <= |old(stream)| && stream == old(stream)[n..] && buf[tail..tail + n] == old(stream)[..n]
      ensures n < 0 ==> stream == old(stream) && old(script) != [] && script == old(script)[1..]
      ensures n < 0 ==> old(script)[0] == if interrupted then Interrupted else Failed
      ensures n == 0 ==> old(stream) == []
      ensures buf[..tail] == old(buf[..tail]) && script == old(script)[if old(script) == [] then 0 else 1..]
    {
      calls := calls + 1;
      var most := PASX_SOCK_BUF;
      n, interrupted := 0, false;
      if script != [] {
        var r := script[0];
        script := script[1..];
        match r
        case Chunk(k) => most := if k == 0 then 1 else k;
        case Interrupted => return -1, true;
        case Failed => return -1, false;
      }
      n := Min(most, Min(PASX_SOCK_BUF - tail, |stream|));
      ghost var before := buf[..tail];
      forall k | 0 <= k < n { buf[tail + k] := stream[k]; }
      assert forall k | 0 <= k < n :: buf[tail + k] == stream[k];
      Pointwise(buf[tail..tail + n], stream[..n]);
      assert buf[..tail] == before;
      stream := stream[n..];
    }

    /** Is there a line, or a full buffer, to answer from? */
    method Buffered() returns (r: bool)
      requires Valid()
      ensures r == Answerable()
    {
      var i := head;
      while i < tail
        invariant head <= i <= tail && forall k | head <= k < i :: buf[k] != '\n'
      {
        if buf[i] == '\n' { return true; }
        i := i + 1;
      }
      return head == 0 && tail == PASX_SOCK_BUF;
    }

    predicate Answerable()
      reads this, buf
      requires Valid()
    {
      (exists k :: head <= k < tail && buf[k] == '\n') || (head == 0 && tail == PASX_SOCK_BUF)
    }

    /** The line that ends at buf[i], without its end. */
    method TakeLine(i: nat, cap: nat) returns (r: Answer)
      requires Valid() && head <= i < tail && buf[i] == '\n' && forall j | head <= j < i :: buf[j] != '\n'
      modifies this`head
      ensures Valid() && r == AnswerTo(old(Rest()), cap) && Rest() == old(Rest())[Used(old(Rest()))..]
    {
      hide Newline, AnswerTo, Used, Min;
      ghost var rest := Rest();
      var len := i - head;
      ghost var text := rest[..len];
      ghost var all := buf[head..tail];
      assert all[..len] == buf[head..i] && all[len + 1..] == buf[i + 1..tail];
      CutOf(all, stream, len);
      LineEndsAt(rest, len, cap);
      if len > 0 && buf[i - 1] == '\r' { len := len - 1; }
      assert buf[head..head + len] == Stripped(text);
      if len > cap {
        head := i + 1;
        r := TooLong;
      } else {
        r := Line(buf[head..head + len]);
        head := i + 1;
      }
    }

    /** The partial line moves to the front. */
    method Shift()
      requires Valid()
      modifies this`head, this`tail, buf
      ensures Valid() && head == 0 && tail == old(tail) - old(head) && Rest() == old(Rest())
      ensures forall j | 0 <= j < tail :: buf[j] == old(buf[head + j])
      ensures old(head) == 0 ==> buf[..] == old(buf[..])
    {
      if head > 0 {
        ghost var was := buf[head..tail];
        forall k | 0 <= k < tail - head { buf[k] := buf[head + k]; }
        tail := tail - head;
        head := 0;
        assert buf[0..tail] == was;
      }
    }

    /** The far end has closed; what is left is a line all the same. */
    method LastLine(cap: nat) returns (r: Answer)
      requires Valid() && head == 0 && tail < PASX_SOCK_BUF && stream == []
      requires forall j | 0 <= j < tail :: buf[j] != '\n'
      modifies this`head
      ensures Valid() && r == AnswerTo(old(Rest()), cap) && Rest() == old(Rest())[Used(old(Rest()))..]
    {
      ghost var rest := Rest();
      NewlineIs(rest, |rest|);
      var len := tail - head;
      if len <= 0 { return Closed; }
      if len > cap {
        head := tail;
        return TooLong;
      }
      r := Line(buf[head..head + len]);
      head := tail;
    }

    /** The first newline that has arrived, or the end of what has. */
    method Scan() returns (i: nat)
      requires Valid()
      ensures head <= i <= tail && (i < tail ==> buf[i] == '\n') && forall j | head <= j < i :: buf[j] != '\n'
    {
      i := head;
      while i < tail && buf[i] != '\n'
        invariant head <= i <= tail && forall j | head <= j < i :: buf[j] != '\n'
      {
        i := i + 1;
      }
    }

    /** One read, and what came added to the buffer. */
    method Refill() returns (n: int, interrupted: bool)
      requires Valid() && tail < PASX_SOCK_BUF
      modifies this`stream, this`script, this`calls, this`tail, buf
      ensures Valid() && Rest() == old(Rest()) && calls == old(calls) + 1 && -1 <= n
      ensures tail == old(tail) + (if n > 0 then n else 0) && buf[..old(tail)] == old(buf[..tail])
      ensures |stream| == old(|stream|) - (if n > 0 then n else 0)
      ensures n < 0 ==> old(script) != [] && old(script)[0] == if interrupted then Interrupted else Failed
      ensures n == 0 ==> stream == []
      ensures script == old(script)[if old(script) == [] then 0 else 1..]
    {
      ghost var rest := Rest();
      n, interrupted := ReadMore();
      if n > 0 {
        assert buf[head..tail] == buf[..tail][head..] && buf[head..tail + n] == buf[head..tail] + buf[tail..tail + n];
        tail := tail + n;
      } else {
        assert buf[head..tail] == buf[..tail][head..];
      }
    }

    /** pasx_socket_readline: the answer depends on what the connection carries and on `cap` alone,
        not on how it is cut up or interrupted; only a failing read is answered by a refusal, and
        then nothing is lost. There is a read exactly when nothing was buffered to answer from. */
    method ReadLine(cap: int) returns (r: Answer)
      requires Valid()
      modifies this, buf
      ensures Valid()
      ensures cap < 0 ==> r == Refused && Rest() == old(Rest()) && calls == old(calls)
      ensures cap >= 0 ==>
                || (r == AnswerTo(old(Rest()), cap) && Rest() == old(Rest())[Used(old(Rest()))..])
                || (r == Refused && Rest() == old(Rest()) && Failed in old(script) && |script| < |old(script)|)
      ensures cap >= 0 ==> (old(Answerable()) <==> calls == old(calls))
      ensures exists k | 0 <= k <= |old(script)| :: script == old(script)[k..]
    {
      hide Newline, AnswerTo, Used, Min, Rest;
      if cap < 0 {
        assert script == script[0..];
        return Refused;
      }
      ghost var rest := Rest();
      ghost var k: nat := 0;
      while true
        invariant Valid() && Rest() == rest
        invariant k <= |old(script)| && script == old(script)[k..]
        invariant calls >= old(calls)
        invariant calls == old(calls) ==> head == old(head) && tail == old(tail) && buf[..] == old(buf[..])
        invariant calls > old(calls) ==> !old(Answerable())
        decreases |script| + |stream|
      {
        var i := Scan();
        ghost var first := calls == old(calls);
        assert first ==> forall j | 0 <= j < PASX_SOCK_BUF :: buf[j] == old(buf[..])[j];
        if i < tail {
          r := TakeLine(i, cap);
          return;
        }
        ghost var full := head == 0 && tail == PASX_SOCK_BUF;
        assert first ==> (old(Answerable()) <==> full);
        Shift();
        if tail == PASX_SOCK_BUF {
          TooMuch(cap);
          tail := 0;
          NothingBuffered();
          return TooLong;
        }
        ghost var was := buf[..tail];
        var n, interrupted := Refill();
        k := if k < |old(script)| then k + 1 else k;
        if n < 0 {
          if interrupted { continue; }
          return Refused;
        }
        if n == 0 {
          assert forall j | 0 <= j < tail :: buf[j] == was[j];
          r := LastLine(cap);
          return;
        }
      }
    }

    lemma TooMuch(cap: nat)
      requires Valid() && head == 0 && tail == PASX_SOCK_BUF && forall j | 0 <= j < tail :: buf[j] != '\n'
      ensures AnswerTo(Rest(), cap) == TooLong && stream == Rest()[Used(Rest())..]
    {
      TooLongIs(Rest(), cap);
    }

    lemma NothingBuffered()
      requires Valid() && head == 0 && tail == 0
      ensures Rest() == stream
    {
    }
  }

  lemma Pointwise(a: Bytes, b: Bytes)
    requires |a| == |b| && forall k | 0 <= k < |a| :: a[k] == b[k]
    ensures a == b
  {
  }

  lemma CutOf(a: Bytes, b: Bytes, n: nat)
    requires n < |a|
    ensures (a + b)[..n] == a[..n] && (a + b)[n] == a[n] && (a + b)[n + 1..] == a[n + 1..] + b
  {
  }

  lemma LineEndsAt(rest: Bytes, len: nat, cap: nat)
    requires len < |rest| && len < PASX_SOCK_BUF && rest[len] == '\n' && forall j | 0 <= j < len :: rest[j] != '\n'
    ensures Used(rest) == len + 1
    ensures AnswerTo(rest, cap) ==
            if |Stripped(rest[..len])| > cap then TooLong else Line(Stripped(rest[..len]))
  {
    NewlineIs(rest, len);
  }

  lemma TooLongIs(rest: Bytes, cap: nat)
    requires |rest| >= PASX_SOCK_BUF && forall j | 0 <= j < PASX_SOCK_BUF :: rest[j] != '\n'
    ensures AnswerTo(rest, cap) == TooLong && Used(rest) == PASX_SOCK_BUF
  {
  }

  // ------------------------------------------------------------- whole runs

  /** The answers of one readline after another: a function of the bytes and the capacities. */
  function Answers(rest: Bytes, caps: seq<nat>): seq<Answer> {
    if caps == [] then [] else [AnswerTo(rest, caps[0])] + Answers(rest[Used(rest)..], caps[1..])
  }

  lemma {:induction false} AnswersSplit(rest: Bytes, caps: seq<nat>, i: nat)
    requires i < |caps|
    ensures var left := Left(rest, caps[..i]);
            && Answers(rest, caps[..i + 1]) == Answers(rest, caps[..i]) + [AnswerTo(left, caps[i])]
            && Left(rest, caps[..i + 1]) == left[Used(left)..]
  {
    hide AnswerTo, Used;
    if i > 0 {
      AnswersSplit(rest[Used(rest)..], caps[1..], i - 1);
      assert caps[..i][1..] == caps[1..][..i - 1] && caps[..i + 1][1..] == caps[1..][..i];
    }
  }

  /** What is left of the bytes after as many answers. */
  function Left(rest: Bytes, caps: seq<nat>): Bytes {
    if caps == [] then rest else Left(rest[Used(rest)..], caps[1..])
  }

  /** A program that reads line after line, asking again when a read failed, is answered the same
      however the connection cuts up, interrupts and fails its reads. */
  method ReadLines(s: Socket, caps: seq<nat>) returns (answers: seq<Answer>, refusals: nat)
    requires s.Valid()
    modifies s, s.buf
    ensures s.Valid()
    ensures answers == Answers(old(s.Rest()), caps) && s.Rest() == Left(old(s.Rest()), caps)
    ensures Failed !in old(s.script) ==> refusals == 0
  {
    hide Answers, Left, AnswerTo, Used;
    ghost var rest := s.Rest();
    answers, refusals := [], 0;
    var i := 0;
    assert caps[..0] == [];
    NoAnswers(rest);
    while i < |caps|
      invariant s.Valid() && i <= |caps|
      invariant answers == Answers(rest, caps[..i]) && s.Rest() == Left(rest, caps[..i])
      invariant Failed in s.script || refusals > 0 ==> Failed in old(s.script)
      decreases |caps| - i, |s.script|
    {
      NeverRefused(s.Rest(), caps[i]);
      var r := s.ReadLine(caps[i]);
      if r == Refused {
        refusals := refusals + 1;
      } else {
        AnswersSplit(rest, caps, i);
        answers := answers + [r];
        i := i + 1;
      }
    }
    assert caps[..i] == caps;
  }

  lemma NeverRefused(rest: Bytes, cap: nat)
    ensures AnswerTo(rest, cap) != Refused
  {
  }

  lemma NoAnswers(rest: Bytes)
    ensures Answers(rest, []) == [] && Left(rest, []) == rest
  {
  }

  /** A line as the far end sends it. */
  datatype Sent = Sent(text: Bytes, cr: bool)

  function OnWire(l: Sent): Bytes { l.text + if l.cr then ['\r', '\n'] else ['\n'] }

  function Wire(lines: seq<Sent>): Bytes { if lines == [] then [] else OnWire(lines[0]) + Wire(lines[1..]) }

  predicate Fits(l: Sent, cap: nat) {
    && (forall i | 0 <= i < |l.text| :: l.text[i] != '\n')
    && (l.text != [] && l.text[|l.text| - 1] == '\r' ==> l.cr)
    && |OnWire(l)| <= PASX_SOCK_BUF && |l.text| <= cap
  }

  lemma OneLineArrives(l: Sent, more: Bytes, cap: nat)
    requires Fits(l, cap)
    ensures AnswerTo(OnWire(l) + more, cap) == Line(l.text) && Used(OnWire(l) + more) == |OnWire(l)|
    ensures (OnWire(l) + more)[|OnWire(l)|..] == more
  {
    var s := OnWire(l) + more;
    var i := |OnWire(l)| - 1;
    assert forall k | 0 <= k < |l.text| :: s[k] == l.text[k];
    NewlineIs(s, i);
    if l.cr { assert s[..i] == l.text + ['\r']; } else { assert s[..i] == l.text; }
    assert Stripped(s[..i]) == l.text;
  }

  /** Lines sent with either line end, then a last one without, are the lines read; and from then on
      every answer is that the connection is closed. */
  lemma {:induction false} LinesArrive(lines: seq<Sent>, last: Bytes, caps: seq<nat>)
    requires |caps| > |lines| && forall i | 0 <= i < |lines| :: Fits(lines[i], caps[i])
    requires |last| < PASX_SOCK_BUF && |last| <= caps[|lines|] && forall i | 0 <= i < |last| :: last[i] != '\n'
    ensures var a := Answers(Wire(lines) + last, caps);
            && |a| == |caps| && (forall i | 0 <= i < |lines| :: a[i] == Line(lines[i].text))
            && a[|lines|] == (if last == [] then Closed else Line(last))
            && forall i | |lines| < i < |caps| :: a[i] == Closed
  {
    hide Fits, OnWire, AnswerTo, Used, Answers;
    AnswersFirst(Wire(lines) + last, caps);
    if lines == [] {
      assert Wire(lines) + last == last;
      LastArrives(last, caps[0]);
      ClosedEver(caps[1..]);
    } else {
      var rest := Wire(lines[1..]) + last;
      assert Wire(lines) + last == OnWire(lines[0]) + rest;
      OneLineArrives(lines[0], rest, caps[0]);
      LinesArrive(lines[1..], last, caps[1..]);
    }
  }

  /** A last line that does not fit the buffer is refused once, and then the connection is closed. */
  lemma LongLastLine(last: Bytes, caps: seq<nat>)
    requires caps != [] && caps[0] < |last| < PASX_SOCK_BUF && forall i | 0 <= i < |last| :: last[i] != '\n'
    ensures var a := Answers(last, caps); |a| == |caps| && a[0] == TooLong && forall i | 0 < i < |caps| :: a[i] == Closed
  {
    NewlineIs(last, |last|);
    AnswersFirst(last, caps);
    assert last[|last|..] == [];
    ClosedEver(caps[1..]);
  }

  lemma {:induction false} ClosedEver(caps: seq<nat>)
    ensures |Answers([], caps)| == |caps| && forall i | 0 <= i < |caps| :: Answers([], caps)[i] == Closed
  {
    if caps != [] {
      ClosedEver(caps[1..]);
      AnswersFirst([], caps);
      assert Newline([]) == 0 && Used([]) == 0;
    }
  }

  lemma AnswersFirst(rest: Bytes, caps: seq<nat>)
    requires caps != []
    ensures Answers(rest, caps) == [AnswerTo(rest, caps[0])] + Answers(rest[Used(rest)..], caps[1..])
    ensures Left(rest, caps) == Left(rest[Used(rest)..], caps[1..])
  {
  }

  lemma LastArrives(last: Bytes, cap: nat)
    requires |last| < PASX_SOCK_BUF && |last| <= cap && forall i | 0 <= i < |last| :: last[i] != '\n'
    ensures AnswerTo(last, cap) == if last == [] then Closed else Line(last)
    ensures last[Used(last)..] == []
  {
    NewlineIs(last, |last|);
  }

  // ------------------------------------------- every byte in one answer

  predicate NoNewline(s: Bytes) { forall i | 0 <= i < |s| :: s[i] != '\n' }

  /** What an answer says of the stretch of the stream it stands for, `more` being what follows. */
  predicate StandsFor(a: Answer, stretch: Bytes, more: Bytes, cap: nat) {
    match a
    case Line(text) =>
      && |text| <= cap && NoNewline(text) && 0 < |stretch| <= PASX_SOCK_BUF
      && (|| (stretch == text + ['\n'] && (text == [] || text[|text| - 1] != '\r'))
          || stretch == text + ['\r', '\n']
          || (stretch == text && more == [] && |stretch| < PASX_SOCK_BUF))
    case Closed => stretch == [] && more == []
    case TooLong =>
      || (0 < |stretch| <= PASX_SOCK_BUF && stretch[|stretch| - 1] == '\n'
          && var s := stretch[..|stretch| - 1];
             NoNewline(s) && cap < if s != [] && s[|s| - 1] == '\r' then |s| - 1 else |s|)
      || (NoNewline(stretch) && |stretch| == PASX_SOCK_BUF)
      || (NoNewline(stretch) && cap < |stretch| < PASX_SOCK_BUF && more == [])
    case Refused => false
  }

  lemma AnswerStands(rest: Bytes, cap: nat)
    ensures StandsFor(AnswerTo(rest, cap), rest[..Used(rest)], rest[Used(rest)..], cap)
  {
    var i := Newline(rest);
    var stretch := rest[..Used(rest)];
    if i < Min(|rest|, PASX_SOCK_BUF) {
      var s := rest[..i];
      assert NoNewline(s) && stretch == s + ['\n'];
      if s != [] && s[|s| - 1] == '\r' { assert s == Stripped(s) + ['\r'] && stretch == Stripped(s) + ['\r', '\n']; }
    } else if |rest| >= PASX_SOCK_BUF {
      assert NoNewline(stretch);
    } else {
      assert stretch == rest;
    }
  }

  /** And no other answer stands for it, nor this one for another stretch. */
  lemma StandsOnce(rest: Bytes, cap: nat, a: Answer, stretch: Bytes, more: Bytes)
    requires rest == stretch + more && StandsFor(a, stretch, more, cap)
    ensures a == AnswerTo(rest, cap) && |stretch| == Used(rest)
  {
    match a
    case Line(text) =>
      if stretch == text + ['\n'] {
        NewlineIs(rest, |text|);
        assert rest[..|text|] == text;
      } else if stretch == text + ['\r', '\n'] {
        NewlineIs(rest, |text| + 1);
        assert rest[..|text| + 1] == text + ['\r'];
      } else {
        NewlineIs(rest, |rest|);
        assert rest == text;
      }
    case Closed => assert rest == [];
    case TooLong =>
      if stretch != [] && stretch[|stretch| - 1] == '\n' {
        var s := stretch[..|stretch| - 1];
        NewlineIs(rest, |s|);
        assert rest[..|s|] == s;
      } else if |stretch| == PASX_SOCK_BUF {
        assert forall i | 0 <= i < PASX_SOCK_BUF :: rest[i] == stretch[i];
        TooLongIs(rest, cap);
      } else {
        assert rest == stretch;
        NewlineIs(rest, |rest|);
      }
  }

  /** The stretches, one to an answer, are the stream up to `tail`, which is left. */
  predicate CutUp(rest: Bytes, caps: seq<nat>, answers: seq<Answer>, stretches: seq<Bytes>, tail: Bytes) {
    && |answers| == |stretches| == |caps|
    && if caps == [] then rest == tail
       else
         && stretches[0] <= rest
         && var more := rest[|stretches[0]|..];
         StandsFor(answers[0], stretches[0], more, caps[0]) && CutUp(more, caps[1..], answers[1..], stretches[1..], tail)
  }

  function Join(stretches: seq<Bytes>): Bytes { if stretches == [] then [] else stretches[0] + Join(stretches[1..]) }

  /** So nothing is left out and nothing comes twice. */
  lemma {:induction false} CutUpJoins(rest: Bytes, caps: seq<nat>, answers: seq<Answer>, stretches: seq<Bytes>, tail: Bytes)
    requires CutUp(rest, caps, answers, stretches, tail)
    ensures rest == Join(stretches) + tail
  {
    hide StandsFor;
    if caps == [] {
      assert Join(stretches) + tail == tail;
    } else {
      CutUpJoins(rest[|stretches[0]|..], caps[1..], answers[1..], stretches[1..], tail);
      assert rest == stretches[0] + rest[|stretches[0]|..];
    }
  }

  lemma {:induction false} AnswersCutUp(rest: Bytes, caps: seq<nat>) returns (stretches: seq<Bytes>)
    ensures CutUp(rest, caps, Answers(rest, caps), stretches, Left(rest, caps))
  {
    hide StandsFor, AnswerTo, Used, Answers, Left;
    if caps == [] {
      stretches := [];
      NoAnswers(rest);
    } else {
      var n := Used(rest);
      var more := AnswersCutUp(rest[n..], caps[1..]);
      stretches := [rest[..n]] + more;
      AnswersFirst(rest, caps);
      AnswerStands(rest, caps[0]);
      assert stretches[1..] == more && Answers(rest, caps)[1..] == Answers(rest[n..], caps[1..]);
    }
  }

  lemma {:induction false} CutUpOnce(rest: Bytes, caps: seq<nat>, answers: seq<Answer>, stretches: seq<Bytes>, tail: Bytes)
    requires CutUp(rest, caps, answers, stretches, tail)
    ensures answers == Answers(rest, caps) && tail == Left(rest, caps)
  {
    hide StandsFor, AnswerTo, Used, Answers, Left;
    if caps == [] {
      NoAnswers(rest);
    } else {
      var more := rest[|stretches[0]|..];
      assert rest == stretches[0] + more;
      StandsOnce(rest, caps[0], answers[0], stretches[0], more);
      AnswersFirst(rest, caps);
      CutUpOnce(more, caps[1..], answers[1..], stretches[1..], tail);
      assert answers == [answers[0]] + answers[1..];
    }
  }

  /** The answers to one readline after another are exactly those that cut the stream up, in order and
      leaving out nothing: a line its text and its end, or what comes last without one; a line too long
      for its caller as well; a full buffer without a line end; and nothing at all only when there is
      nothing more, which is what Closed says. */
  lemma AnswersCharacterised(rest: Bytes, caps: seq<nat>, answers: seq<Answer>)
    ensures answers == Answers(rest, caps) <==>
            exists stretches: seq<Bytes>, tail: Bytes :: CutUp(rest, caps, answers, stretches, tail)
    ensures forall stretches: seq<Bytes>, tail: Bytes ::
              CutUp(rest, caps, answers, stretches, tail) ==> rest == Join(stretches) + tail
  {
    hide CutUp, Answers, Join;
    var own := AnswersCutUp(rest, caps);
    forall stretches: seq<Bytes>, tail: Bytes | CutUp(rest, caps, answers, stretches, tail)
      ensures answers == Answers(rest, caps) && rest == Join(stretches) + tail
    {
      CutUpOnce(rest, caps, answers, stretches, tail);
      CutUpJoins(rest, caps, answers, stretches, tail);
    }
  }
}
