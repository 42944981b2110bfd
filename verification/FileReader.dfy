/** Reading a text (`struct pas_file` of runtime/pasrt.c): the lazily fetched lookahead, the two
    characters that can be given back, and the number readers built on them. */
module FileReader {
  import opened NumberSyntax

  datatype Option<T> = None | Some(value: T)

  datatype Result<T> = Ok(value: T) | Trap(error: Error)

  datatype Error = ReadlnPastEnd | EolnAtEnd | NoComponent | NoNumber | OutOfRange

  const MAXINT: nat := 0x7fff_ffff
  const MAXINT64: nat := 0x7fff_ffff_ffff_ffff

  function First(s: Text): Option<char> { if s == [] then None else Some(s[0]) }

  /** What the stream will still deliver: an end-of-line is appended when the contents lack one. */
  function Completed(s: Text, atLineStart: bool): Text {
    if s == [] then (if atLineStart then [] else ['\n'])
    else if s[|s| - 1] == '\n' then s
    else s + ['\n']
  }

  lemma CompletedNext(s: Text, atLineStart: bool)
    requires s != []
    ensures Completed(s, atLineStart) == [s[0]] + Completed(s[1..], s[0] == '\n')
  {
    assert s == [s[0]] + s[1..];
  }

  /** The length of the line at the front, its end included. */
  function LineLength(s: Text): (n: nat)
    ensures n <= |s| && (forall i | 0 <= i < n - 1 :: s[i] != '\n')
    ensures s != [] ==> 0 < n && (n < |s| ==> s[n - 1] == '\n')
  {
    if s == [] then 0 else if s[0] == '\n' then 1 else 1 + LineLength(s[1..])
  }

  class TextReader {
    const contents: Text
    var at: nat                       // how much of the stream getc has taken
    var lookahead: Option<char>       // None is EOF
    var have: bool
    var ateof: bool
    var atbol: bool
    var ch: char
    const pushback: array<char>
    var npush: nat

    /** The characters given back, the next one first. */
    function Given(): Text
      reads this`npush, pushback
      requires npush <= 2 == pushback.Length
    {
      if npush == 2 then [pushback[1], pushback[0]] else if npush == 1 then [pushback[0]] else []
    }

    function Ahead(): Text
      reads this`at, this`atbol
      requires at <= |contents|
    {
      Completed(contents[at..], atbol)
    }

    /** Everything the program has not read yet, in order. */
    function Rest(): Text
      reads this, pushback
      requires Valid()
    {
      (if have && lookahead.Some? then [lookahead.value] else []) + Given() + Ahead()
    }

    /** No digit is ever given back, which is why two places are enough. */
    predicate Valid()
      reads this, pushback
    {
      && npush <= 2 == pushback.Length && at <= |contents|
      && (npush > 0 ==> !IsDigit(pushback[0])) && (npush > 1 ==> !IsDigit(pushback[1]))
      && (have && lookahead.Some? && IsDigit(lookahead.value) ==> npush == 0)
      && (have ==> ateof == lookahead.None?)
      && (have && lookahead.None? ==> npush == 0 && Ahead() == [])
      && (have ==> ch == ' ' || Some(ch) == lookahead)
      && (have && lookahead.Some? && lookahead.value != '\n' ==> ch == lookahead.value)
    }

    /** A text that has been reset. */
    constructor (contents: Text)
      ensures Valid() && fresh(pushback) && this.contents == contents
      ensures Rest() == Completed(contents, true) && npush == 0 && !have
    {
      this.contents := contents;
      at, lookahead, have, ateof, atbol, ch, npush := 0, None, false, false, true, ' ', 0;
      pushback := new char[2];
      new;
      assert contents[0..] == contents;
    }

    /** pas_fill: the character given back last, else the stream's next, else the appended
        end-of-line once, else the end. */
    method Fill()
      requires Valid()
      modifies this`at, this`lookahead, this`have, this`ateof, this`atbol, this`ch, this`npush
      ensures Valid() && have && Rest() == old(Rest()) && lookahead == First(Rest())
      ensures npush <= old(npush)
      ensures old(have) ==> ch == old(ch) && npush == old(npush)
      ensures !old(have) ==> ch == (match lookahead
                                    case None => ' '
                                    case Some(c) => if c == '\n' && old(npush) == 0 then ' ' else c)
    {
      hide Completed;
      if have { return; }
      if npush > 0 {
        Pop();
        return;
      }
      FromStream();
      have := true;
      ateof := lookahead.None?;
      ch := if lookahead == None || lookahead == Some('\n') then ' ' else lookahead.value;
    }

    /** The character given back last. */
    method Pop()
      requires Valid() && !have && npush > 0
      modifies this`lookahead, this`have, this`ateof, this`ch, this`npush
      ensures Valid() && have && Rest() == old(Rest()) && lookahead == First(Rest()) == Some(ch)
      ensures npush == old(npush) - 1
    {
      hide Completed, Ahead;
      ghost var ahead, given := Ahead(), Given();
      npush := npush - 1;
      lookahead := Some(pushback[npush]);
      have, ateof, ch := true, false, lookahead.value;
      assert given == [lookahead.value] + Given() && Ahead() == ahead;
    }

    /** getc, with the end-of-line that `reset` owes a text whose last line has none. */
    method FromStream()
      requires at <= |contents|
      modifies this`at, this`lookahead, this`atbol
      ensures at <= |contents| && lookahead == First(old(Ahead()))
      ensures old(Ahead()) == (if lookahead.Some? then [lookahead.value] else []) + Ahead()
    {
      if at < |contents| {
        CompletedNext(contents[at..], atbol);
        assert contents[at..][1..] == contents[at + 1..];
        lookahead := Some(contents[at]);
        at := at + 1;
      } else {
        lookahead := None;
      }
      if lookahead.None? && !atbol { lookahead := Some('\n'); }
      if lookahead.Some? { atbol := lookahead.value == '\n'; }
    }

    /** The character in hand is done with: `f->have = 0`. */
    method Drop()
      requires Valid() && have && lookahead.Some?
      modifies this`have
      ensures Valid() && !have && Rest() == old(Rest())[1..]
      ensures IsDigit(lookahead.value) ==> npush == 0
    {
      have := false;
    }

    /** pas_unread: one consumed character back in front of what is in hand. */
    method Unread(c: char)
      requires Valid() && have && !IsDigit(c) && c != '\n'
      requires lookahead.Some? ==> npush < 2 && !IsDigit(lookahead.value)
      modifies this`lookahead, this`have, this`ateof, this`ch, this`npush, pushback
      ensures Valid() && have && Rest() == [c] + old(Rest()) && lookahead == Some(c)
      ensures npush == old(npush) + if old(lookahead).Some? then 1 else 0
    {
      if have && lookahead.Some? {
        pushback[npush] := lookahead.value;
        npush := npush + 1;
      }
      lookahead := Some(c);
      have, ateof, ch := true, false, c;
    }

    method Eof() returns (r: bool)
      requires Valid()
      modifies this
      ensures Valid() && Rest() == old(Rest()) && r == (Rest() == [])
    {
      Fill();
      r := ateof;
    }

    method Eoln() returns (r: Result<bool>)
      requires Valid()
      modifies this
      ensures Valid() && Rest() == old(Rest())
      ensures r == if Rest() == [] then Trap(EolnAtEnd) else Ok(Rest()[0] == '\n')
    {
      Fill();
      if lookahead.None? { return Trap(EolnAtEnd); }
      return Ok(lookahead == Some('\n'));
    }

    /** `read(f, c)`: c := f^; get(f). A line end read from the stream shows as a space; one that
        a number read gave back does not. */
    method ReadChar() returns (r: Result<char>)
      requires Valid()
      modifies this
      ensures old(Rest()) == [] <==> r == Trap(NoComponent)
      ensures old(Rest()) != [] ==>
                && Valid() && Rest() == old(Rest())[1..] && !have && (old(have) ==> npush == old(npush))
                && var givenBack := if old(have) then old(ch) == '\n' else old(npush) > 0;
                r == Ok(if old(Rest())[0] == '\n' && !givenBack then ' ' else old(Rest())[0])
    {
      Fill();
      if ateof { return Trap(NoComponent); }
      r := Ok(ch);
      Drop();
    }

    /** pas_readln: up to and including the next end of line. */
    method Readln() returns (r: Result<()>)
      requires Valid()
      modifies this
      ensures old(Rest()) == [] <==> r == Trap(ReadlnPastEnd)
      ensures r.Ok? ==> Valid() && Rest() == old(Rest())[LineLength(old(Rest()))..]
    {
      hide Valid, Rest, LineLength;
      ghost var text := Rest();
      ghost var n: nat := 0;
      Fill();
      if lookahead.None? { return Trap(ReadlnPastEnd); }
      while true
        invariant Valid() && have && lookahead.Some?
        invariant n < |text| && Rest() == text[n..] && lookahead == First(Rest())
        invariant forall i | 0 <= i < n :: text[i] != '\n'
        decreases |text| - n
      {
        var c := lookahead;
        Drop();
        n := n + 1;
        if c == Some('\n') { break; }
        Fill();
        if lookahead.None? { break; }
      }
      LineIs(text, n);
      r := Ok(());
    }

    /** pas_skip_blanks. */
    method SkipBlanks()
      requires Valid()
      modifies this
      ensures Valid() && have && lookahead == First(Rest())
      ensures Rest() == old(Rest())[Blanks(old(Rest()))..]
    {
      hide Valid, Rest, Blanks;
      ghost var text := Rest();
      ghost var n: nat := 0;
      Fill();
      while lookahead.Some? && IsBlank(lookahead.value)
        invariant Valid() && have && n <= |text| && Rest() == text[n..] && lookahead == First(Rest())
        invariant forall i | 0 <= i < n :: IsBlank(text[i])
        decreases |text| - n
      {
        Drop();
        n := n + 1;
        Fill();
      }
      BlanksAre(text, n);
    }

    /** One more character consumed and the next one fetched. */
    method Advance()
      requires Valid() && have && lookahead.Some? && Rest() != [] && lookahead == First(Rest())
      modifies this
      ensures Valid() && have && Rest() == old(Rest())[1..] && lookahead == First(Rest())
      ensures npush <= old(npush) && (IsDigit(old(Rest())[0]) ==> npush == 0)
    {
      Drop();
      Fill();
    }

    /** pas_read_int and pas_read_int64: skips blanks, reads the longest signed-integer, and traps
        when there is none or when its digits exceed the type's bound. */
    method ReadInteger(wide: bool) returns (r: Result<int>, ghost n: nat)
      requires Valid()
      modifies this
      ensures var text := old(Rest())[Blanks(old(Rest()))..];
              && IntegerAnswer(text, if wide then MAXINT64 else MAXINT, n, r)
              && (r.Ok? ==> Valid() && Rest() == text[n..])
    {
      hide *;
      SkipBlanks();
      r, n := TakeSigned(if wide then MAXINT64 else MAXINT);
    }

    /** The sign in hand, if there is one. */
    method TakeSign() returns (sign: Text)
      requires Valid() && have && lookahead == First(Rest())
      modifies this
      ensures Valid() && have && lookahead == First(Rest()) && npush <= old(npush)
      ensures sign == old(Rest())[..Sign(old(Rest()))] && Rest() == old(Rest())[Sign(old(Rest()))..]
    {
      hide Valid, Rest;
      sign := [];
      if lookahead.Some? && IsSign(lookahead.value) {
        sign := [lookahead.value];
        Advance();
      }
    }

    /** The signed-integer in hand, accumulated digit by digit. */
    method TakeSigned(limit: nat) returns (r: Result<int>, ghost n: nat)
      requires Valid() && have && lookahead == First(Rest())
      modifies this
      ensures IntegerAnswer(old(Rest()), limit, n, r) && (r.Ok? ==> Valid() && Rest() == old(Rest())[n..])
    {
      hide *;
      ghost var text := Rest();
      var sign := TakeSign();
      ghost var t := Rest();
      var value := 0;
      var digits: nat := 0;
      ValueEmpty(t);
      while lookahead.Some? && IsDigit(lookahead.value)
        invariant digits <= |t| && AllDigits(t, digits)
        invariant Valid() && have && Rest() == t[digits..] && lookahead == First(Rest())
        invariant value == Value(t[..digits]) <= limit
        decreases |t| - digits
      {
        InHand(t, digits, lookahead);
        var digit := DigitValue(lookahead.value);
        ValueMore(t, digits);
        if value > limit / 10 || (value == limit / 10 && digit > limit % 10) {
          n := TooLarge(text, digits + 1, limit);
          return Trap(OutOfRange), n;
        }
        assert value * 10 + digit <= limit;   // the accumulator does not overflow
        value := value * 10 + digit;
        digits := digits + 1;
        Advance();
      }
      DigitsEnd(t, digits, lookahead);
      SignIs(text, sign);
      n := IntegerRead(text, digits, limit, sign == ['-']);
      if digits == 0 { return Trap(NoNumber), n; }
      return Ok(if sign == ['-'] then -value else value), n;
    }

    /** The digits in hand, all of them. */
    method TakeDigits() returns (ds: Text)
      requires Valid() && have && lookahead == First(Rest())
      modifies this
      ensures Valid() && have && lookahead == First(Rest()) && npush <= old(npush)
      ensures ds == old(Rest())[..Digits(old(Rest()))] && Rest() == old(Rest())[Digits(old(Rest()))..]
      ensures ds != [] ==> npush == 0
    {
      hide Valid, Rest, Digits, AllDigits, Value;
      ghost var t := Rest();
      var k: nat := 0;
      ds := [];
      ValueEmpty(t);
      while lookahead.Some? && IsDigit(lookahead.value)
        invariant k <= |t| && AllDigits(t, k) && ds == t[..k]
        invariant Valid() && have && Rest() == t[k..] && lookahead == First(Rest())
        invariant npush <= old(npush) && (k > 0 ==> npush == 0)
        decreases |t| - k
      {
        Tail(t, k);
        DigitsMore(t, k);
        ds := ds + [lookahead.value];
        Advance();
        k := k + 1;
      }
      DigitsUpTo(t, k);
    }

    /** A point belongs to the number only with a digit after it. */
    method TakeFraction() returns (b: Text)
      requires Valid() && have && lookahead == Some('.') == First(Rest()) && npush == 0
      modifies this, pushback
      ensures Valid() && have && lookahead == First(Rest())
      ensures b == old(Rest())[..FractionLength(old(Rest()))] && Rest() == old(Rest())[FractionLength(old(Rest()))..]
      ensures npush == FractionBeyond(old(Rest())) && (npush > 0 ==> lookahead == Some('.'))
    {
      hide Valid, Rest, Digits;
      ghost var t := Rest();
      Advance();
      b := TakeDigits();
      if b != [] {
        b := ['.'] + b;
      } else {
        Unread('.');
      }
    }

    /** A scale factor belongs to the number only with a digit in it; the mark and the sign go back
        in the order that keeps the text as it was. */
    method TakeScale() returns (c: Text)
      requires Valid() && have && lookahead == First(Rest()) && npush == 0
      requires lookahead.Some? && IsExponentMark(lookahead.value)
      modifies this, pushback
      ensures Valid() && have && lookahead == First(Rest())
      ensures var n := ScaleLength(old(Rest()));
              Rest() == old(Rest())[n..] && c == if n == 0 then [] else ['e'] + old(Rest())[1..n]
      ensures npush == ScaleBeyond(old(Rest()))
    {
      hide *;
      ghost var t := Rest();
      MarkInHand(t, lookahead);
      var mark := lookahead.value;
      Advance();
      var sign := TakeSign();
      ghost var u := Rest();
      var ds := TakeDigits();
      ScaleRead(t, sign, u);
      ScaleBeyondIs(t, sign, u);
      if ds != [] {
        c := ['e'] + sign + ds;
      } else {
        c := [];
        SignIs(t[1..], sign);
        NoDigits(u, ds);
        GiveBack(sign, mark);
      }
    }

    /** The sign before the mark, so that they come in the order they were written. */
    method GiveBack(sign: Text, mark: char)
      requires Valid() && have && lookahead == First(Rest()) && npush == 0 && IsExponentMark(mark)
      requires |sign| <= 1 && (sign != [] ==> IsSign(sign[0])) && (Rest() != [] ==> !IsDigit(Rest()[0]))
      modifies this, pushback
      ensures Valid() && have && Rest() == [mark] + (sign + old(Rest())) && lookahead == First(Rest())
      ensures npush == |sign| + if old(Rest()) != [] then 1 else 0
    {
      hide Valid, Rest;
      if sign != [] { Unread(sign[0]); }
      Unread(mark);
    }

    /** The sign and the digits of the mantissa; `digits` is what the number cannot be without. */
    method TakeInteger() returns (a: Text, digits: bool)
      requires Valid() && have && lookahead == First(Rest())
      modifies this
      ensures Valid() && have && lookahead == First(Rest())
      ensures digits <==> IntegerLength(old(Rest())) > 0
      ensures var i := IntegerLength(old(Rest()));
              digits ==> npush == 0 && a == old(Rest())[..i] && Rest() == old(Rest())[i..]
    {
      hide Valid, Rest, Digits, IntegerLength;
      ghost var text := Rest();
      var sign := TakeSign();
      var ds := TakeDigits();
      a, digits := sign + ds, ds != [];
      MantissaRead(text, sign, ds);
    }

    method TakeFractionIfAny() returns (b: Text)
      requires Valid() && have && lookahead == First(Rest()) && npush == 0
      modifies this, pushback
      ensures Valid() && have && lookahead == First(Rest())
      ensures b == old(Rest())[..FractionLength(old(Rest()))] && Rest() == old(Rest())[FractionLength(old(Rest()))..]
      ensures npush == FractionBeyond(old(Rest())) && (npush > 0 ==> lookahead == Some('.'))
    {
      hide Valid, Rest, FractionLength, FractionBeyond;
      PartsBegin(Rest());
      b := [];
      if lookahead == Some('.') { b := TakeFraction(); }
    }

    method TakeScaleIfAny() returns (c: Text)
      requires Valid() && have && lookahead == First(Rest()) && (npush > 0 ==> lookahead == Some('.'))
      modifies this, pushback
      ensures Valid() && have && lookahead == First(Rest())
      ensures var n := ScaleLength(old(Rest()));
              Rest() == old(Rest())[n..] && c == if n == 0 then [] else ['e'] + old(Rest())[1..n]
      ensures npush == old(npush) + ScaleBeyond(old(Rest()))
    {
      hide Valid, Rest, ScaleLength, ScaleBeyond;
      PartsBegin(Rest());
      c := [];
      if lookahead.Some? && IsExponentMark(lookahead.value) { c := TakeScale(); }
    }

    /** pas_read_real: skips blanks and reads the longest signed-number; the answer is the text
        handed to strtod. What was looked at beyond the number is given back, and that many
        characters after the one in hand are pending. */
    method ReadReal() returns (r: Result<Text>, ghost n: nat)
      requires Valid()
      modifies this, pushback
      ensures var text := old(Rest())[Blanks(old(Rest()))..];
              && NumberAnswer(text, n, r)
              && (r.Ok? ==> Valid() && have && Rest() == text[n..] && npush == Beyond(text))
    {
      hide *;
      SkipBlanks();
      r, n := TakeNumber();
    }

    method TakeNumber() returns (r: Result<Text>, ghost n: nat)
      requires Valid() && have && lookahead == First(Rest())
      modifies this, pushback
      ensures NumberAnswer(old(Rest()), n, r)
      ensures r.Ok? ==> Valid() && have && Rest() == old(Rest())[n..] && npush == Beyond(old(Rest()))
    {
      hide *;
      ghost var text := Rest();
      var a, digits := TakeInteger();
      if !digits {
        NothingRead(text);
        return Trap(NoNumber), 0;
      }
      ghost var i := IntegerLength(text);
      ghost var j := i + FractionLength(text[i..]);
      CutAgain(text, i, j - i);
      n := NumberRead(text, i, j);
      BeyondParts(text, i, j);
      var b := TakeFractionIfAny();
      var m := a + b;
      var c := TakeScaleIfAny();
      r := Ok(m + c);
    }
  }

  lemma MarkInHand(t: Text, c: Option<char>)
    requires c == First(t) && c.Some? && IsExponentMark(c.value)
    ensures t != [] && t[0] == c.value && !IsDigit(t[0])
  {
  }

  /** How many characters after the point in hand have been given back. */
  function FractionBeyond(s: Text): nat {
    if s != [] && s[0] == '.' && FractionLength(s) == 0 && |s| > 1 then 1 else 0
  }

  /** And after the mark of a scale factor that is none. */
  function ScaleBeyond(s: Text): nat {
    if s != [] && IsExponentMark(s[0]) && ScaleLength(s) == 0
    then Sign(s[1..]) + if |s| > 1 + Sign(s[1..]) then 1 else 0 else 0
  }

  function Beyond(text: Text): nat {
    FractionBeyond(text[IntegerLength(text)..]) + ScaleBeyond(text[MantissaLength(text)..])
  }

  lemma BeyondParts(text: Text, i: nat, j: nat)
    requires i == IntegerLength(text) && j == i + FractionLength(text[i..])
    ensures j <= |text| && Beyond(text) == FractionBeyond(text[i..]) + ScaleBeyond(text[j..])
  {
    hide IntegerLength, FractionLength, FractionBeyond, ScaleBeyond;
  }

  /** What is looked at beyond a number: the point, or the mark and its sign, and one character. */
  predicate PointBeyond(text: Text, n: nat)
    requires n <= |text|
  {
    n == IntegerLength(text) && n < |text| && text[n] == '.'
  }

  predicate MarkBeyond(text: Text, n: nat)
    requires n <= |text|
  {
    n == MantissaLength(text) && n < |text| && IsExponentMark(text[n])
  }

  /** The number is followed by what the reader must look beyond, and then by a line end. */
  predicate LineEndBeyond(text: Text, n: nat)
    requires n <= |text|
  {
    || (PointBeyond(text, n) && n + 1 < |text| && text[n + 1] == '\n')
    || (MarkBeyond(text, n) && var k := n + 1 + Sign(text[n + 1..]); k < |text| && text[k] == '\n')
  }

  /** A line end is among the characters given back exactly when the number is followed by a point,
      or by the mark of a scale factor and an optional sign, and then the line end. */
  lemma LineEndGivenBack(text: Text)
    requires IntegerLength(text) > 0
    ensures var n := NumberLength(text);
            && (Beyond(text) > 0 ==> n + Beyond(text) < |text|)
            && (LineEndBeyond(text, n) <==> exists k :: n < k <= n + Beyond(text) && k < |text| && text[k] == '\n')
  {
    hide IntegerLength, FractionLength, ScaleLength, LineEndBeyond, FractionBeyond, ScaleBeyond;
    var n: nat, i: nat, j: nat := NumberLength(text), IntegerLength(text), MantissaLength(text);
    PartsBegin(text[i..]);
    PartsBegin(text[j..]);
    if FractionBeyond(text[i..]) > 0 {
      BeyondPoint(text, n, i, j);
    } else if ScaleBeyond(text[j..]) > 0 {
      BeyondMark(text, n, i, j);
    } else {
      NoneBeyond(text, n, i, j);
    }
  }

  lemma BeyondPoint(text: Text, n: nat, i: nat, j: nat)
    requires n == NumberLength(text) && i == IntegerLength(text) > 0 && j == MantissaLength(text)
    requires FractionBeyond(text[i..]) > 0
    ensures n == i == j && n + 1 < |text| && Beyond(text) == 1 && (LineEndBeyond(text, n) <==> text[n + 1] == '\n')
  {
    hide Digits, IntegerLength, ScaleLength, FractionLength;
    PartsBegin(text[j..]);
    assert text[i..][0] == text[i] && text[j..][0] == text[j];
  }

  lemma BeyondMark(text: Text, n: nat, i: nat, j: nat)
    requires n == NumberLength(text) && i == IntegerLength(text) > 0 && j == MantissaLength(text)
    requires FractionBeyond(text[i..]) == 0 && ScaleBeyond(text[j..]) > 0
    ensures n == j && Beyond(text) == ScaleBeyond(text[j..]) && n + Beyond(text) < |text|
    ensures LineEndBeyond(text, n) <==> exists k :: n < k <= n + Beyond(text) && text[k] == '\n'
  {
    hide Digits, IntegerLength, FractionLength, ScaleLength;
    var g := Sign(text[j + 1..]);
    assert text[j..][0] == text[j] && text[j..][1..] == text[j + 1..];
    SignNoEnd(text[j + 1..]);
    assert g == 1 ==> text[j + 1..][0] == text[j + 1];
  }

  lemma SignNoEnd(s: Text)
    ensures Sign(s) == 1 ==> s[0] != '\n'
  {
  }

  lemma NoneBeyond(text: Text, n: nat, i: nat, j: nat)
    requires n == NumberLength(text) && i == IntegerLength(text) > 0 && j == MantissaLength(text)
    requires FractionBeyond(text[i..]) == 0 && ScaleBeyond(text[j..]) == 0
    ensures !LineEndBeyond(text, n)
  {
    hide Digits, IntegerLength;
    if i < |text| { assert text[i..][0] == text[i]; }
    if j < |text| { assert text[j..][0] == text[j] && text[j..][1..] == text[j + 1..]; }
  }

  lemma InHand(t: Text, k: nat, c: Option<char>)
    requires k <= |t| && c == First(t[k..]) && c.Some?
    ensures k < |t| && t[k] == c.value && t[k..][1..] == t[k + 1..] && t[k..] != []
  {
  }

  lemma DigitsEnd(t: Text, k: nat, c: Option<char>)
    requires k <= |t| && c == First(t[k..]) && (c.None? || !IsDigit(c.value))
    ensures k < |t| ==> !IsDigit(t[k])
  {
  }

  /** Section 6.4.3.5 of ISO 7185 has a line end show as a space. From the contents "1e", line end,
      the program reads the number 1, then `e`, and then a line end that is itself. */
  method GivenBackLineEnd() returns (number: Result<Text>, mark: Result<char>, end: Result<char>)
    ensures number == Ok(['1']) && mark == Ok('e') && end == Ok('\n')
  {
    var text := ['1', 'e', '\n'];
    var f := new TextReader(text);
    OneThenMark(text);
    ghost var n;
    number, n := f.ReadReal();
    OneIsRead(text, n, number);
    mark := f.ReadChar();
    end := f.ReadChar();
  }

  lemma OneThenMark(text: Text)
    requires text == ['1', 'e', '\n']
    ensures Completed(text, true) == text && Blanks(text) == 0 && text[0..] == text
    ensures IntegerLength(text) == 1 && MantissaLength(text) == 1 && NumberLength(text) == 1 && Beyond(text) == 1
  {
    DigitsAre(text, 1);
    assert text[0..] == text && text[1..] == ['e', '\n'] && text[1..][1..] == ['\n'];
    assert ['\n'][0..] == ['\n'];
  }

  lemma OneAnswer(text: Text, n: nat, m: nat, r: Result<Text>)
    requires m > 0 && LongestNumber(text, m) && NumberAnswer(text, n, r)
    ensures n == m
  {
  }

  lemma OneIsRead(text: Text, n: nat, r: Result<Text>)
    requires text == ['1', 'e', '\n'] && NumberAnswer(text, n, r)
    ensures n == 1 && r == Ok(['1']) && text[n..] == ['e', '\n']
  {
    OneThenMark(text);
    NumberLengthIsLongest(text);
    OneAnswer(text, n, 1, r);
    assert text[..1] == ['1'] && text[..1] + [] == ['1'] && Spelled(text, 1) == text[..1] + [];
  }

  lemma ValueEmpty(t: Text)
    ensures Value(t[..0]) == 0 && AllDigits(t, 0)
  {
  }

  lemma Tail(t: Text, k: nat)
    requires k < |t|
    ensures t[k..][1..] == t[k + 1..] && t[k..][0] == t[k]
  {
  }

  predicate AllDigits(t: Text, k: nat) { k <= |t| && forall i | 0 <= i < k :: IsDigit(t[i]) }

  lemma ValueMore(t: Text, k: nat)
    requires k < |t| && AllDigits(t, k) && IsDigit(t[k])
    ensures AllDigits(t, k + 1)
    ensures Value(t[..k + 1]) == 10 * Value(t[..k]) + DigitValue(t[k])
  {
    assert t[..k + 1][..k] == t[..k];
  }

  lemma {:induction false} ValueGrows(t: Text, k: nat, n: nat)
    requires k <= n && AllDigits(t, n)
    ensures Value(t[..k]) <= Value(t[..n])
  {
    if k < n {
      ValueGrows(t, k, n - 1);
      ValueMore(t, n - 1);
    }
  }

  /** What the standard asks of a read of a signed-integer: n characters make up the longest one,
      0 when there is none; the answer is its value unless that is out of range. */
  ghost predicate IntegerAnswer(text: Text, limit: nat, n: nat, r: Result<int>) {
    if n == 0 then (forall k: nat | k <= |text| :: !IsInteger(text[..k])) && r == Trap(NoNumber)
    else
      && LongestInteger(text, n)
      && var v: int := Value(text[Sign(text)..n]);
      if v > limit then r == Trap(OutOfRange) else r == Ok(if text[0] == '-' then -v else v)
  }

  /** The digits read are those of the longest signed-integer, or there is none. */
  lemma DigitsRead(text: Text, k: nat)
    requires Digits(text[Sign(text)..]) == k
    ensures k == 0 ==> forall n: nat | n <= |text| :: !IsInteger(text[..n])
    ensures var n := Sign(text) + k;
            k > 0 ==> LongestInteger(text, n)
                      && text[Sign(text)..n] == text[Sign(text)..][..k] && text[n..] == text[Sign(text)..][k..]
  {
    IntegerLengthIsLongest(text);
    assert text[Sign(text)..][..k] == text[Sign(text)..Sign(text) + k];
  }

  lemma IntegerRead(text: Text, k: nat, limit: nat, negative: bool) returns (n: nat)
    requires var t := text[Sign(text)..];
             && AllDigits(t, k) && (k < |t| ==> !IsDigit(t[k]))
             && Value(t[..k]) <= limit
    requires negative == (text != [] && text[0] == '-')
    ensures var t := text[Sign(text)..];
            var v: int := Value(t[..k]);
            && n <= |text| && (k > 0 ==> t[k..] == text[n..])
            && IntegerAnswer(text, limit, n, if k == 0 then Trap(NoNumber) else Ok(if negative then -v else v))
  {
    var t := text[Sign(text)..];
    DigitsAre(t, k);
    DigitsRead(text, k);
    n := if k == 0 then 0 else Sign(text) + k;
  }

  lemma TooLarge(text: Text, k: nat, limit: nat) returns (n: nat)
    requires k > 0 && AllDigits(text[Sign(text)..], k)
    requires Value(text[Sign(text)..][..k]) > limit
    ensures IntegerAnswer(text, limit, n, Trap(OutOfRange))
  {
    hide Digits, Value, IsInteger;
    var t := text[Sign(text)..];
    var d := Digits(t);
    n := Sign(text) + d;
    ValueGrows(t, k, d);
    DigitsRead(text, d);
  }

  lemma DigitsMore(t: Text, k: nat)
    requires k < |t| && AllDigits(t, k) && IsDigit(t[k])
    ensures AllDigits(t, k + 1) && t[..k + 1] == t[..k] + [t[k]]
  {
  }

  lemma DigitsUpTo(t: Text, k: nat)
    requires AllDigits(t, k) && (k < |t| ==> !IsDigit(t[k]))
    ensures Digits(t) == k
  {
    DigitsAre(t, k);
  }

  /** How a mark is shown to strtod. */
  function Spelled(text: Text, n: nat): Text
    requires MantissaLength(text) <= n <= |text|
  {
    var m := MantissaLength(text);
    text[..m] + if n == m then [] else ['e'] + text[m + 1..n]
  }

  /** What the standard asks of a read of a signed-number, up to its value: n characters make up the
      longest one, 0 when there is none. */
  ghost predicate NumberAnswer(text: Text, n: nat, r: Result<Text>) {
    if n == 0 then (forall k: nat | k <= |text| :: !IsNumber(text[..k])) && r == Trap(NoNumber)
    else LongestNumber(text, n) && MantissaLength(text) <= n && r == Ok(Spelled(text, n))
  }

  lemma ScaleRead(t: Text, sign: Text, u: Text)
    requires t != [] && IsExponentMark(t[0])
    requires sign == t[1..][..Sign(t[1..])] && u == t[1..][Sign(t[1..])..]
    ensures var d := Digits(u);
            && ScaleLength(t) == (if d == 0 then 0 else 1 + |sign| + d)
            && (d > 0 ==> ['e'] + sign + u[..d] == ['e'] + t[1..1 + |sign| + d] && u[d..] == t[1 + |sign| + d..])
            && [t[0]] + (sign + u) == t
  {
    hide *;
    ScaleMeasure(t, sign, u);
    HeadAndRest(t);
    SignAndRest(t[1..]);
    if Digits(u) > 0 { ScaleText(t, t[1..], sign, u, Digits(u)); }
  }

  lemma HeadAndRest(t: Text)
    requires t != []
    ensures [t[0]] + t[1..] == t
  {
  }

  lemma SignAndRest(s: Text)
    ensures Sign(s) <= |s| && s[..Sign(s)] + s[Sign(s)..] == s
  {
  }

  lemma ScaleMeasure(t: Text, sign: Text, u: Text)
    requires t != [] && IsExponentMark(t[0])
    requires sign == t[1..][..Sign(t[1..])] && u == t[1..][Sign(t[1..])..]
    ensures ScaleLength(t) == if Digits(u) == 0 then 0 else 1 + |sign| + Digits(u)
  {
    hide Digits;
  }

  lemma ScaleText(t: Text, rest: Text, sign: Text, u: Text, d: nat)
    requires t != [] && rest == t[1..] == sign + u && d <= |u|
    ensures ['e'] + sign + u[..d] == ['e'] + t[1..1 + |sign| + d] && u[d..] == t[1 + |sign| + d..]
  {
    CutAgain(t, 1, |sign| + d);
    assert rest[..|sign| + d] == sign + u[..d] && rest[|sign| + d..] == u[d..];
    Join3(['e'], sign, u[..d]);
  }

  lemma Join3(a: Text, b: Text, c: Text)
    ensures a + b + c == a + (b + c)
  {
  }

  lemma ScaleBeyondIs(t: Text, sign: Text, u: Text)
    requires t != [] && IsExponentMark(t[0])
    requires sign == t[1..][..Sign(t[1..])] && u == t[1..][Sign(t[1..])..]
    ensures ScaleBeyond(t) == if Digits(u) > 0 then 0 else |sign| + if u != [] then 1 else 0
  {
    ScaleRead(t, sign, u);
  }

  lemma SignIs(text: Text, sign: Text)
    requires sign == text[..Sign(text)]
    ensures sign == ['-'] <==> text != [] && text[0] == '-'
    ensures |sign| <= 1 && (sign != [] ==> IsSign(sign[0]))
  {
  }

  lemma NoDigits(u: Text, ds: Text)
    requires ds == u[..Digits(u)] && ds == []
    ensures Digits(u) == 0 && u[0..] == u && (u != [] ==> !IsDigit(u[0]))
  {
  }

  lemma CutAgain(s: Text, i: nat, k: nat)
    requires i + k <= |s|
    ensures s[i..][k..] == s[i + k..] && s[i..][..k] == s[i..i + k] && s[..i] + s[i..i + k] == s[..i + k]
  {
  }

  /** Parts begin with their own character or are absent. */
  lemma PartsBegin(s: Text)
    ensures First(s) != Some('.') ==> FractionLength(s) == 0 && FractionBeyond(s) == 0
    ensures s == [] || !IsExponentMark(s[0]) ==> ScaleLength(s) == 0 && ScaleBeyond(s) == 0
  {
  }

  lemma MantissaRead(text: Text, sign: Text, ds: Text)
    requires sign == text[..Sign(text)] && ds == text[Sign(text)..][..Digits(text[Sign(text)..])]
    ensures ds == [] ==> IntegerLength(text) == 0
    ensures var i := |sign| + |ds|;
            ds != [] ==>
              && i == IntegerLength(text) && sign + ds == text[..i]
              && text[Sign(text)..][Digits(text[Sign(text)..])..] == text[i..]
  {
    CutAgain(text, |sign|, |ds|);
  }

  lemma NumberRead(text: Text, i: nat, j: nat) returns (n: nat)
    requires i == IntegerLength(text) > 0 && j == i + FractionLength(text[i..])
    ensures n == j + ScaleLength(text[j..]) <= |text| && text[j..][ScaleLength(text[j..])..] == text[n..]
    ensures var c := if n == j then [] else ['e'] + text[j..][1..n - j];
            NumberAnswer(text, n, Ok(text[..j] + c))
  {
    hide IntegerLength, FractionLength, ScaleLength, IsNumber;
    n := NumberLength(text);
    NumberLengthIsLongest(text);
    CutAgain(text, j, n - j);
    if n > j {
      CutAgain(text, j, 1);
      CutAgain(text[j..], 1, n - j - 1);
      assert text[j..][1..n - j] == text[j + 1..n];
    }
  }

  lemma NothingRead(text: Text)
    requires IntegerLength(text) == 0
    ensures NumberAnswer(text, 0, Trap(NoNumber))
  {
    NumberLengthIsLongest(text);
  }

  lemma {:induction false} LineIs(s: Text, n: nat)
    requires 0 < n <= |s| && (forall i | 0 <= i < n - 1 :: s[i] != '\n') && (s[n - 1] == '\n' || n == |s|)
    ensures LineLength(s) == n
  {
    if n > 1 { LineIs(s[1..], n - 1); }
  }

  lemma {:induction false} BlanksAre(s: Text, n: nat)
    requires n <= |s| && (forall i | 0 <= i < n :: IsBlank(s[i])) && (n < |s| ==> !IsBlank(s[n]))
    ensures Blanks(s) == n
  {
    if n > 0 { BlanksAre(s[1..], n - 1); }
  }

  lemma {:induction false} DigitsAre(s: Text, n: nat)
    requires n <= |s| && (forall i | 0 <= i < n :: IsDigit(s[i])) && (n < |s| ==> !IsDigit(s[n]))
    ensures Digits(s) == n
  {
    if n > 0 { DigitsAre(s[1..], n - 1); }
  }
}
