/** The Redis wire format: the command writer and the reply reader. */
module Resp {
  import opened Basics

  type Byte = b: int | 0 <= b < 256
  type Bytes = seq<Byte>

  const CR: Byte := 13
  const LF: Byte := 10
  const PLUS: Byte := 43
  const MINUS: Byte := 45
  const ZERO: Byte := 48
  const COLON: Byte := 58
  const STAR: Byte := 42
  const DOLLAR: Byte := 36

  const CRLF: Bytes := [CR, LF]

  const INT_MAX := 0x7fff_ffff
  const INT_MIN := -0x8000_0000
  const LLONG_MAX := 0x7fff_ffff_ffff_ffff
  const LLONG_MIN := -0x8000_0000_0000_0000

  // ---------------------------------------------------------------- decimal numbers

  predicate IsDigit(b: Byte) {
    ZERO <= b <= ZERO + 9
  }

  function Digits(n: nat): (d: Bytes)
    ensures d != [] && forall i :: 0 <= i < |d| ==> IsDigit(d[i])
  {
    if n < 10 then [ZERO + n] else Digits(n / 10) + [ZERO + n % 10]
  }

  function Decimal(n: int): Bytes {
    if n < 0 then [MINUS] + Digits(-n) else Digits(n)
  }

  predicate IsSpace(b: Byte) {
    b == 32 || 9 <= b <= 13
  }

  function SkipSpace(s: Bytes): Bytes {
    if s != [] && IsSpace(s[0]) then SkipSpace(s[1..]) else s
  }

  function LeadingDigits(s: Bytes): (d: Bytes)
    ensures forall i :: 0 <= i < |d| ==> IsDigit(d[i])
  {
    if s != [] && IsDigit(s[0]) then [s[0]] + LeadingDigits(s[1..]) else []
  }

  function ValueOf(d: Bytes): nat
    requires forall i :: 0 <= i < |d| ==> IsDigit(d[i])
  {
    if d == [] then 0
    else
      assert IsDigit(d[|d| - 1]);
      10 * ValueOf(d[..|d| - 1]) + (d[|d| - 1] - ZERO)
  }

  /** Text to integer as the C++ library does it: leading space, a sign, the longest run of
      digits; nothing without digits or outside the type's range. */
  function ToInt(s: Bytes, lo: int, hi: int): Option<int> {
    var t := SkipSpace(s);
    var signed := t != [] && (t[0] == MINUS || t[0] == PLUS);
    var d := LeadingDigits(if signed then t[1..] else t);
    var v: int := if signed && t[0] == MINUS then 0 - ValueOf(d) else ValueOf(d);
    if d == [] || v < lo || v > hi then None else Some(v)
  }

  lemma {:induction false} LeadingDigitsAll(s: Bytes)
    requires forall i :: 0 <= i < |s| ==> IsDigit(s[i])
    ensures LeadingDigits(s) == s
  {
    if s != [] { LeadingDigitsAll(s[1..]); }
  }

  lemma {:induction false} ValueOfDigits(n: nat)
    ensures ValueOf(Digits(n)) == n
  {
    if n >= 10 {
      ValueOfDigits(n / 10);
      assert Digits(n)[..|Digits(n)| - 1] == Digits(n / 10);
    }
  }

  /** Reading back a printed length: itself within the range, else nothing. */
  lemma ToIntOfDigits(n: nat, hi: int)
    ensures ToInt(Digits(n), INT_MIN, hi) == if n <= hi then Some(n) else None
  {
    LeadingDigitsAll(Digits(n));
    ValueOfDigits(n);
    assert IsDigit(Digits(n)[0]);
  }

  // ---------------------------------------------------------------- the command writer

  function EncodeArg(arg: Bytes): Bytes {
    [DOLLAR] + Digits(|arg|) + CRLF + arg + CRLF
  }

  function EncodeArgs(args: seq<Bytes>): Bytes {
    if args == [] then [] else EncodeArgs(args[..|args| - 1]) + EncodeArg(args[|args| - 1])
  }

  function Encode(args: seq<Bytes>): Bytes {
    [STAR] + Digits(|args|) + CRLF + EncodeArgs(args)
  }

  method WriteCommand(args: seq<Bytes>) returns (request: Bytes)
    ensures request == Encode(args)
  {
    request := [STAR] + Digits(|args|) + CRLF;
    for i := 0 to |args|
      invariant request == [STAR] + Digits(|args|) + CRLF + EncodeArgs(args[..i])
    {
      assert args[..i + 1][..i] == args[..i];
      request := request + ([DOLLAR] + Digits(|args[i]|) + CRLF + args[i] + CRLF);
    }
    assert args[..|args|] == args;
  }

  lemma {:induction false} EncodeArgsFirst(args: seq<Bytes>)
    requires args != []
    ensures EncodeArgs(args) == EncodeArg(args[0]) + EncodeArgs(args[1..])
  {
    if |args| > 1 {
      var init, last := args[..|args| - 1], args[|args| - 1];
      EncodeArgsFirst(init);
      assert args[1..][..|args| - 2] == init[1..];
    }
  }

  // ---------------------------------------------------------------- lines

  function IndexOf(s: Bytes, b: Byte): (i: nat)
    ensures i <= |s| && (i < |s| ==> s[i] == b) && forall k :: 0 <= k < i ==> s[k] != b
  {
    if s == [] || s[0] == b then 0 else 1 + IndexOf(s[1..], b)
  }

  predicate HasCrlf(s: Bytes) {
    exists i :: 0 <= i < |s| - 1 && s[i] == CR && s[i + 1] == LF
  }

  function Trimmed(line: Bytes): Bytes {
    if line != [] && line[|line| - 1] == CR then line[..|line| - 1] else line
  }

  /** A line ends at the first LF once a CR LF has arrived. */
  function ReadLine(input: Bytes): (r: Option<(Bytes, Bytes)>)
    ensures r.Some? ==> |r.value.1| < |input| && |r.value.0| + |r.value.1| < |input|
  {
    if HasCrlf(input) then
      var i := IndexOf(input, LF);
      assert i < |input|;
      Some((Trimmed(input[..i]), input[i + 1..]))
    else None
  }

  lemma ReadLineOf(line: Bytes, tail: Bytes)
    requires forall i :: 0 <= i < |line| ==> line[i] != LF && line[i] != CR
    ensures ReadLine(line + CRLF + tail) == Some((line, tail))
  {
    var s := line + CRLF + tail;
    assert s[|line|] == CR && s[|line| + 1] == LF;
    assert forall i :: 0 <= i < |line| ==> s[i] == line[i];
    assert IndexOf(s, LF) == |line| + 1;
    assert s[..|line| + 1] == line + [CR];
    assert s[|line| + 2..] == tail;
  }

  /** The line and the rest are determined by the input: no other split at an LF has none before. */
  lemma LineIsRead(input: Bytes, line: Bytes, rest: Bytes)
    requires HasCrlf(input)
    requires exists raw :: LF !in raw && input == raw + [LF] + rest && line == Trimmed(raw)
    ensures ReadLine(input) == Some((line, rest))
  {
    var raw :| LF !in raw && input == raw + [LF] + rest && line == Trimmed(raw);
    assert input[|raw|] == LF;
    assert forall k :: 0 <= k < |raw| ==> input[k] == raw[k];
    assert IndexOf(input, LF) == |raw|;
    assert input[..|raw|] == raw && input[|raw| + 1..] == rest;
  }

  // ---------------------------------------------------------------- the reply reader

  datatype Reply =
    | SimpleString(text: Bytes)
    | Integer(value: int)
    | BulkString(text: Bytes)
    | Array(elements: seq<Bytes>)
    | Nil

  /** `Incomplete`: more input is awaited.  `Failed`: an exception.  `Undefined`: the signed
      addition of the two delimiter bytes overflows. */
  datatype Outcome = Parsed(reply: Reply, rest: Bytes) | Incomplete | Failed | Undefined

  /** An array keeps the text of its elements; what has none becomes the empty string. */
  function TextOf(r: Reply): Bytes {
    match r
    case SimpleString(t) => t
    case BulkString(t) => t
    case Integer(v) => Decimal(v)
    case _ => []
  }

  function ParseBulk(length: int, input: Bytes): (o: Outcome)
    ensures o.Parsed? ==> |o.rest| <= |input|
  {
    if length == -1 then Parsed(Nil, input)
    else if length < -1 then Failed
    else if length + 2 > INT_MAX then Undefined
    else if |input| < length + 2 then Incomplete
    else Parsed(BulkString(input[..length]), input[length + 2..])
  }

  function Parse(input: Bytes): (o: Outcome)
    ensures o.Parsed? ==> |o.rest| < |input|
    decreases |input|, 0, 0
  {
    match ReadLine(input)
    case None => Incomplete
    case Some((line, rest)) =>
      if line == [] then Failed
      else
        var payload := line[1..];
        if line[0] == PLUS then Parsed(SimpleString(payload), rest)
        else if line[0] == COLON then
          match ToInt(payload, LLONG_MIN, LLONG_MAX)
          case None => Failed
          case Some(v) => Parsed(Integer(v), rest)
        else if line[0] == DOLLAR then
          match ToInt(payload, INT_MIN, INT_MAX)
          case None => Failed
          case Some(length) => ParseBulk(length, rest)
        else if line[0] == STAR then
          match ToInt(payload, INT_MIN, INT_MAX)
          case None => Failed
          case Some(count) =>
            if count == -1 then Parsed(Nil, rest)
            else if count < -1 then Failed
            else ParseElements(rest, count, [])
        else Failed
  }

  function ParseElements(input: Bytes, count: nat, elements: seq<Bytes>): (o: Outcome)
    ensures o.Parsed? ==> |o.rest| <= |input|
    decreases |input|, 1, count
  {
    if count == 0 then Parsed(Array(elements), input)
    else
      var first := Parse(input);
      if first.Parsed? then ParseElements(first.rest, count - 1, elements + [TextOf(first.reply)]) else first
  }

  /** The reader consumes the bytes that arrive. */
  class ReplyReader {
    var input: Bytes

    constructor (arriving: Bytes)
      ensures input == arriving
    {
      input := arriving;
    }

    /** Waits for a CR LF, then takes the bytes up to the first LF and drops one trailing CR. */
    method TakeLine() returns (line: Option<Bytes>)
      modifies this
      ensures line.Some? <==> HasCrlf(old(input))
      ensures line == None ==> input == old(input)
      ensures line.Some? ==> exists raw :: LF !in raw && old(input) == raw + [LF] + input && line.value == Trimmed(raw)
    {
      var arrived := HasArrived();
      if !arrived { return None; }
      var raw := TakeUpToLf();
      line := Some(if raw != [] && raw[|raw| - 1] == CR then raw[..|raw| - 1] else raw);
    }

    /** Takes the bytes before the first LF, and drops that LF. */
    method TakeUpToLf() returns (taken: Bytes)
      requires LF in input
      modifies this
      ensures LF !in taken && old(input) == taken + [LF] + input
    {
      taken := [];
      while input[0] != LF
        invariant input != [] && LF in input && LF !in taken
        invariant old(input) == taken + input
        decreases |input|
      {
        taken := taken + [input[0]];
        input := input[1..];
      }
      input := input[1..];
    }

    /** Scans for the delimiter. */
    method HasArrived() returns (found: bool)
      ensures found <==> HasCrlf(input)
    {
      var i := 0;
      while i + 1 < |input|
        invariant forall k :: 0 <= k < i && k + 1 < |input| ==> !(input[k] == CR && input[k + 1] == LF)
      {
        if input[i] == CR && input[i + 1] == LF { return true; }
        i := i + 1;
      }
      return false;
    }

    method TakeBulk(length: int) returns (o: Outcome)
      modifies this
      ensures o == ParseBulk(length, old(input)) && (o.Parsed? ==> input == o.rest)
    {
      if length == -1 { return Parsed(Nil, input); }
      if length < -1 { return Failed; }
      if length + 2 > INT_MAX { return Undefined; }
      if |input| < length + 2 { return Incomplete; }
      var blob := input[..length];
      input := input[length..];
      input := input[2..];
      return Parsed(BulkString(blob), input);
    }

    /** One element. */
    method TakeElement(ghost count: nat, elements: seq<Bytes>) returns (o: Outcome, elements': seq<Bytes>)
      requires count > 0
      modifies this
      ensures !o.Parsed? ==> o == ParseElements(old(input), count, elements)
      ensures o.Parsed? ==> |input| <= |old(input)|
      ensures o.Parsed? ==> ParseElements(old(input), count, elements) == ParseElements(input, count - 1, elements')
      decreases |input|, 1
    {
      o := TakeReply();
      elements' := elements + if o.Parsed? then [TextOf(o.reply)] else [];
    }

    method TakeElements(count: nat) returns (o: Outcome)
      modifies this
      ensures o == ParseElements(old(input), count, []) && (o.Parsed? ==> input == o.rest)
      decreases |input|, 2
    {
      var elements := [];
      for i := 0 to count
        invariant |input| <= |old(input)|
        invariant ParseElements(old(input), count, []) == ParseElements(input, count - i, elements)
      {
        var element;
        element, elements := TakeElement(count - i, elements);
        if !element.Parsed? { return element; }
      }
      return Parsed(Array(elements), input);
    }

    method TakeReply() returns (o: Outcome)
      modifies this
      ensures o == Parse(old(input)) && (o.Parsed? ==> input == o.rest)
      decreases |input|, 0
    {
      var next := TakeLine();
      if next == None { return Incomplete; }
      LineIsRead(old(input), next.value, input);
      var line := next.value;
      if line == [] { return Failed; }
      var payload := line[1..];
      if line[0] == PLUS {
        return Parsed(SimpleString(payload), input);
      } else if line[0] == COLON {
        var v := ToInt(payload, LLONG_MIN, LLONG_MAX);
        if v == None { return Failed; }
        return Parsed(Integer(v.value), input);
      } else if line[0] == DOLLAR {
        var length := ToInt(payload, INT_MIN, INT_MAX);
        if length == None { return Failed; }
        o := TakeBulk(length.value);
      } else if line[0] == STAR {
        var count := ToInt(payload, INT_MIN, INT_MAX);
        if count == None { return Failed; }
        if count.value == -1 { return Parsed(Nil, input); }
        if count.value < -1 { return Failed; }
        o := TakeElements(count.value);
      } else {
        return Failed;
      }
    }
  }

  // ---------------------------------------------------------------- round trip

  /** The lengths the reader can handle. */
  predicate Fits(arg: Bytes) {
    |arg| <= INT_MAX - 2
  }

  lemma DigitsLine(prefix: Byte, n: nat, tail: Bytes)
    requires prefix != CR && prefix != LF
    ensures ReadLine([prefix] + Digits(n) + CRLF + tail) == Some(([prefix] + Digits(n), tail))
  {
    var line := [prefix] + Digits(n);
    forall i | 0 <= i < |line| ensures line[i] != LF && line[i] != CR {
      if i > 0 { assert IsDigit(Digits(n)[i - 1]); }
    }
    ReadLineOf(line, tail);
  }

  /** One bulk string reads back if and only if its length fits. */
  lemma ArgRoundTrip(arg: Bytes, tail: Bytes)
    ensures Fits(arg) ==> Parse(EncodeArg(arg) + tail) == Parsed(BulkString(arg), tail)
    ensures !Fits(arg) ==> !Parse(EncodeArg(arg) + tail).Parsed?
  {
    var body := arg + CRLF + tail;
    assert EncodeArg(arg) + tail == [DOLLAR] + Digits(|arg|) + CRLF + body;
    DigitsLine(DOLLAR, |arg|, body);
    assert ([DOLLAR] + Digits(|arg|))[1..] == Digits(|arg|);
    ToIntOfDigits(|arg|, INT_MAX);
    assert |arg| <= INT_MAX ==> Parse(EncodeArg(arg) + tail) == ParseBulk(|arg|, body);
    assert body[..|arg|] == arg && body[|arg| + 2..] == tail;
  }

  predicate AllFit(args: seq<Bytes>) {
    forall i :: 0 <= i < |args| ==> Fits(args[i])
  }

  lemma AllFitFirst(args: seq<Bytes>)
    requires args != []
    ensures AllFit(args) <==> Fits(args[0]) && AllFit(args[1..])
  {
    assert args == [args[0]] + args[1..];
  }

  lemma FirstElement(first: Bytes, rest: Bytes, count: nat, elements: seq<Bytes>)
    ensures var o := ParseElements(EncodeArg(first) + rest, count + 1, elements);
      if Fits(first) then o == ParseElements(rest, count, elements + [first]) else !o.Parsed?
  {
    ArgRoundTrip(first, rest);
  }

  lemma ArgsSplit(args: seq<Bytes>, tail: Bytes)
    requires args != []
    ensures EncodeArgs(args) + tail == EncodeArg(args[0]) + (EncodeArgs(args[1..]) + tail)
  {
    EncodeArgsFirst(args);
    Associative(EncodeArg(args[0]), EncodeArgs(args[1..]), tail);
  }

  lemma MoveFirst<T>(a: seq<T>, b: seq<T>)
    requires b != []
    ensures a + [b[0]] + b[1..] == a + b
  {
  }

  lemma Associative(a: Bytes, b: Bytes, c: Bytes)
    ensures a + b + c == a + (b + c)
  {
  }

  lemma NoElements(elements: seq<Bytes>, tail: Bytes)
    ensures ParseElements(EncodeArgs([]) + tail, 0, elements) == Parsed(Array(elements + []), tail)
  {
    assert EncodeArgs([]) + tail == tail && elements + [] == elements;
  }

  lemma {:induction false} ElementsRoundTrip(args: seq<Bytes>, elements: seq<Bytes>, tail: Bytes)
    ensures var o := ParseElements(EncodeArgs(args) + tail, |args|, elements);
      if AllFit(args) then o == Parsed(Array(elements + args), tail) else !o.Parsed?
    decreases |args|
  {
    if args == [] {
      NoElements(elements, tail);
    } else {
      var first, others := args[0], args[1..];
      ArgsSplit(args, tail);
      AllFitFirst(args);
      FirstElement(first, EncodeArgs(others) + tail, |others|, elements);
      ElementsRoundTrip(others, elements + [first], tail);
      MoveFirst(elements, args);
    }
  }

  predicate CanBeSent(args: seq<Bytes>) {
    |args| <= INT_MAX && AllFit(args)
  }

  lemma CommandHeader(args: seq<Bytes>, tail: Bytes)
    ensures Parse(Encode(args) + tail) ==
      if |args| <= INT_MAX then ParseElements(EncodeArgs(args) + tail, |args|, []) else Failed
  {
    HeaderLine(args, tail);
    assert ([STAR] + Digits(|args|))[1..] == Digits(|args|);
    ToIntOfDigits(|args|, INT_MAX);
  }

  lemma HeaderLine(args: seq<Bytes>, tail: Bytes)
    ensures ReadLine(Encode(args) + tail) == Some(([STAR] + Digits(|args|), EncodeArgs(args) + tail))
  {
    Associative([STAR] + Digits(|args|) + CRLF, EncodeArgs(args), tail);
    DigitsLine(STAR, |args|, EncodeArgs(args) + tail);
  }

  /** Whatever the bytes, CR and LF included, and whatever follows: what the writer emits reads
      back as an array of exactly those strings, and exactly the emitted bytes are consumed, if
      and only if the number of arguments is in the int range and each length leaves room for
      the two delimiter bytes. */
  lemma CommandRoundTrip(args: seq<Bytes>, tail: Bytes)
    ensures Parse(Encode(args) + tail) == Parsed(Array(args), tail) <==> CanBeSent(args)
    ensures !CanBeSent(args) ==> !Parse(Encode(args) + tail).Parsed?
  {
    CommandHeader(args, tail);
    ElementsRoundTrip(args, [], tail);
    assert [] + args == args;
  }

  /** No command is a proper prefix of another, and different commands differ. */
  lemma CommandsAreInjective(args: seq<Bytes>, args': seq<Bytes>, tail: Bytes, tail': Bytes)
    requires CanBeSent(args) && CanBeSent(args') && Encode(args) + tail == Encode(args') + tail'
    ensures args == args' && tail == tail'
  {
    CommandRoundTrip(args, tail);
    CommandRoundTrip(args', tail');
  }
}
