/** The RESP codec of the Redis client: the frames it writes and the replies it parses, as
    functions of the bytes. */
module Resp {

  newtype Byte = x: int | 0 <= x < 256

  type Bytes = seq<Byte>

  const CR: Byte := 13
  const LF: Byte := 10
  const DOLLAR: Byte := 36
  const STAR: Byte := 42
  const PLUS: Byte := 43
  const MINUS: Byte := 45
  const ZERO: Byte := 48
  const COLON: Byte := 58

  /** The largest Go int: no Go string is longer. */
  const MAX_INT := 0x7FFF_FFFF_FFFF_FFFF
  const MIN_INT := -0x8000_0000_0000_0000

  datatype ReadError = UnexpectedEof | BadHeader | BadNumber | NilBulk | ServerError

  datatype Outcome<+T> = Got(value: T) | Failed(error: ReadError)

  /** What a read returns, and the input it leaves unread. */
  datatype Parsed<+T> = Parsed(outcome: Outcome<T>, rest: Bytes)

  // ----- Numbers

  function Itoa(n: nat): (s: Bytes)
    ensures s != [] && forall k :: 0 <= k < |s| ==> ZERO <= s[k] <= ZERO + 9
  {
    if n < 10 then [ZERO + n as Byte] else Itoa(n / 10) + [ZERO + (n % 10) as Byte]
  }

  function FormatInt(n: int): Bytes {
    if n < 0 then [MINUS] + Itoa(-n) else Itoa(n)
  }

  predicate IsDigit(b: Byte) {
    ZERO <= b <= ZERO + 9
  }

  predicate AllDigits(s: Bytes) {
    forall k :: 0 <= k < |s| ==> IsDigit(s[k])
  }

  function DigitsValue(s: Bytes): nat
    requires AllDigits(s)
  {
    if s == [] then 0 else DigitsValue(s[..|s| - 1]) * 10 + (s[|s| - 1] - ZERO) as int
  }

  /** Decimal, optionally signed, and within 64 bits. */
  function Atoi(s: Bytes): Outcome<int> {
    if s == [] then Failed(BadNumber) else
      var signed := s[0] == PLUS || s[0] == MINUS;
      var digits := if signed then s[1..] else s;
      if digits == [] || !AllDigits(digits) then Failed(BadNumber) else
        var magnitude: int := DigitsValue(digits);
        var n := if s[0] == MINUS then -magnitude else magnitude;
        if MIN_INT <= n <= MAX_INT then Got(n) else Failed(BadNumber)
  }

  lemma {:induction false} DigitsOfItoa(n: nat)
    ensures AllDigits(Itoa(n)) && DigitsValue(Itoa(n)) == n
  {
    if n < 10 {
      assert Itoa(n)[..0] == [];
    } else {
      DigitsOfItoa(n / 10);
      assert Itoa(n)[..|Itoa(n)| - 1] == Itoa(n / 10);
    }
  }

  lemma AtoiOfFormat(n: int)
    requires MIN_INT <= n <= MAX_INT
    ensures Atoi(FormatInt(n)) == Got(n)
  {
    var m := if n < 0 then -n else n;
    DigitsOfItoa(m);
    if n < 0 {
      assert FormatInt(n)[1..] == Itoa(m);
    } else {
      assert IsDigit(Itoa(m)[0]);
    }
  }

  /** Different numbers print differently. */
  lemma ItoaInjective(a: nat, b: nat)
    requires Itoa(a) == Itoa(b)
    ensures a == b
  {
    DigitsOfItoa(a);
    DigitsOfItoa(b);
  }

  // ----- Frames

  function Line(s: Bytes): Bytes {
    s + [CR, LF]
  }

  function Bulk(part: Bytes): Bytes {
    Line([DOLLAR] + Itoa(|part|)) + Line(part)
  }

  function Bulks(parts: seq<Bytes>): Bytes {
    if parts == [] then [] else Bulk(parts[0]) + Bulks(parts[1..])
  }

  /** The array frame of a command. */
  function Encode(parts: seq<Bytes>): Bytes {
    Line([STAR] + Itoa(|parts|)) + Bulks(parts)
  }

  // ----- Parsing

  /** Index of the first line feed, or -1. */
  function NewlineAt(s: Bytes): (i: int)
    ensures -1 <= i < |s|
    ensures i >= 0 ==> s[i] == LF
    ensures forall k :: 0 <= k < (if i < 0 then |s| else i) ==> s[k] != LF
  {
    if s == [] then -1
    else if s[0] == LF then 0
    else var i := NewlineAt(s[1..]); if i < 0 then -1 else i + 1
  }

  function TrimCr(s: Bytes): Bytes {
    if s != [] && s[|s| - 1] == CR then s[..|s| - 1] else s
  }

  function ParseLine(s: Bytes): Parsed<Bytes> {
    var i := NewlineAt(s);
    if i < 0 then Parsed(Failed(UnexpectedEof), []) else Parsed(Got(TrimCr(s[..i])), s[i + 1..])
  }

  /** A line that starts with the given mark, followed by a number. */
  function ParseHeader(s: Bytes, mark: Byte): Parsed<int> {
    var line := ParseLine(s);
    if line.outcome.Failed? then Parsed(Failed(line.outcome.error), line.rest) else
      var h := line.outcome.value;
      if h == [] || h[0] != mark then Parsed(Failed(BadHeader), line.rest)
      else Parsed(Atoi(h[1..]), line.rest)
  }

  function ParseBulk(s: Bytes): Parsed<Bytes> {
    var header := ParseHeader(s, DOLLAR);
    if header.outcome.Failed? then Parsed(Failed(header.outcome.error), header.rest) else
      var size := header.outcome.value;
      if size < 0 then Parsed(Failed(NilBulk), header.rest)
      else if |header.rest| < size + 2 then Parsed(Failed(UnexpectedEof), [])
      else Parsed(Got(header.rest[..size]), header.rest[size + 2..])
  }

  /** The items one after the other: all of them, or the error of the first that cannot be read. */
  function ParseItems(s: Bytes, count: nat): (p: Parsed<seq<Bytes>>)
    ensures p.outcome.Got? ==> |p.outcome.value| == count
    decreases count
  {
    if count == 0 then Parsed(Got([]), s) else
      var item := ParseBulk(s);
      if item.outcome.Failed? then Parsed(Failed(item.outcome.error), item.rest) else
        Prepend([item.outcome.value], ParseItems(item.rest, count - 1))
  }

  function Prepend(items: seq<Bytes>, p: Parsed<seq<Bytes>>): Parsed<seq<Bytes>> {
    if p.outcome.Failed? then p else Parsed(Got(items + p.outcome.value), p.rest)
  }

  function ParseArray(s: Bytes): Parsed<seq<Bytes>> {
    var header := ParseHeader(s, STAR);
    if header.outcome.Failed? then Parsed(Failed(header.outcome.error), header.rest)
    else if header.outcome.value < 0 then Parsed(Got([]), header.rest)
    else ParseItems(header.rest, header.outcome.value)
  }

  function ParseInteger(s: Bytes): Parsed<int> {
    var line := ParseLine(s);
    if line.outcome.Got? && line.outcome.value != [] && line.outcome.value[0] == MINUS
    then Parsed(Failed(ServerError), line.rest)
    else ParseHeader(s, COLON)
  }

  // ----- Round trips

  lemma {:induction false} NewlineAfter(h: Bytes, rest: Bytes)
    requires LF !in h
    ensures NewlineAt(h + [LF] + rest) == |h|
  {
    var s := h + [LF] + rest;
    assert s[|h|] == LF && forall k :: 0 <= k < |h| ==> s[k] == h[k];
  }

  lemma LineRoundTrip(h: Bytes, rest: Bytes)
    requires LF !in h
    ensures ParseLine(Line(h) + rest) == Parsed(Got(h), rest)
  {
    assert Line(h) + rest == (h + [CR]) + [LF] + rest;
    NewlineAfter(h + [CR], rest);
    assert (Line(h) + rest)[..|h| + 1] == h + [CR];
    assert (Line(h) + rest)[|h| + 2..] == rest;
  }

  lemma HeaderRoundTrip(mark: Byte, n: int, rest: Bytes)
    requires mark != LF && MIN_INT <= n <= MAX_INT
    ensures ParseHeader(Line([mark] + FormatInt(n)) + rest, mark) == Parsed(Got(n), rest)
  {
    var h := [mark] + FormatInt(n);
    assert LF !in FormatInt(n);
    LineRoundTrip(h, rest);
    assert h[1..] == FormatInt(n);
    AtoiOfFormat(n);
  }

  /** A bulk string of any bytes, line ends and type marks included, reads back as itself. */
  lemma BulkRoundTrip(part: Bytes, rest: Bytes)
    requires |part| <= MAX_INT
    ensures ParseBulk(Bulk(part) + rest) == Parsed(Got(part), rest)
  {
    var body := Line(part) + rest;
    assert Bulk(part) + rest == Line([DOLLAR] + FormatInt(|part|)) + body;
    HeaderRoundTrip(DOLLAR, |part|, body);
    assert body[..|part|] == part && body[|part| + 2..] == rest;
  }

  ghost predicate GoStrings(parts: seq<Bytes>) {
    |parts| <= MAX_INT && forall i :: 0 <= i < |parts| ==> |parts[i]| <= MAX_INT
  }

  lemma {:induction false} ItemsRoundTrip(parts: seq<Bytes>, rest: Bytes)
    requires GoStrings(parts)
    ensures ParseItems(Bulks(parts) + rest, |parts|) == Parsed(Got(parts), rest)
  {
    if parts == [] {
      assert Bulks(parts) + rest == rest;
    } else {
      var tail := parts[1..];
      var after := Bulks(tail) + rest;
      assert Bulks(parts) + rest == Bulk(parts[0]) + after;
      BulkRoundTrip(parts[0], after);
      ItemsRoundTrip(tail, rest);
      assert [parts[0]] + tail == parts;
    }
  }

  /** Reading a frame back gives exactly its parts and leaves exactly what follows it. */
  lemma ArrayRoundTrip(parts: seq<Bytes>, rest: Bytes)
    requires GoStrings(parts)
    ensures ParseArray(Encode(parts) + rest) == Parsed(Got(parts), rest)
  {
    assert Encode(parts) + rest == Line([STAR] + FormatInt(|parts|)) + (Bulks(parts) + rest);
    HeaderRoundTrip(STAR, |parts|, Bulks(parts) + rest);
    ItemsRoundTrip(parts, rest);
  }

  lemma IntegerRoundTrip(n: int, rest: Bytes)
    requires MIN_INT <= n <= MAX_INT
    ensures ParseInteger(Line([COLON] + FormatInt(n)) + rest) == Parsed(Got(n), rest)
  {
    HeaderRoundTrip(COLON, n, rest);
    assert LF !in FormatInt(n);
    LineRoundTrip([COLON] + FormatInt(n), rest);
  }

  /** The frames of a pipeline of commands. */
  function EncodeAll(commands: seq<seq<Bytes>>): Bytes {
    if commands == [] then [] else Encode(commands[0]) + EncodeAll(commands[1..])
  }

  function ParseAll(s: Bytes, count: nat): Parsed<seq<seq<Bytes>>>
    decreases count
  {
    if count == 0 then Parsed(Got([]), s) else
      var first := ParseArray(s);
      if first.outcome.Failed? then Parsed(Failed(first.outcome.error), first.rest) else
        var others := ParseAll(first.rest, count - 1);
        if others.outcome.Failed? then others
        else Parsed(Got([first.outcome.value] + others.outcome.value), others.rest)
  }

  /** Concatenated frames decode in order, each to itself. */
  lemma {:induction false} FramesRoundTrip(commands: seq<seq<Bytes>>, rest: Bytes)
    requires forall i :: 0 <= i < |commands| ==> GoStrings(commands[i])
    ensures ParseAll(EncodeAll(commands) + rest, |commands|) == Parsed(Got(commands), rest)
  {
    if commands == [] {
      assert EncodeAll(commands) + rest == rest;
    } else {
      var tail := commands[1..];
      assert EncodeAll(commands) + rest == Encode(commands[0]) + (EncodeAll(tail) + rest);
      FramesRoundTrip(tail, rest);
      FirstFrame(commands[0], EncodeAll(tail) + rest, tail, rest);
      assert [commands[0]] + tail == commands;
    }
  }

  lemma FirstFrame(command: seq<Bytes>, after: Bytes, others: seq<seq<Bytes>>, rest: Bytes)
    requires GoStrings(command) && ParseAll(after, |others|) == Parsed(Got(others), rest)
    ensures ParseAll(Encode(command) + after, |others| + 1) == Parsed(Got([command] + others), rest)
  {
    ArrayRoundTrip(command, after);
  }

  /** No frame is a prefix of another: what follows a frame never changes what it says. */
  lemma FramesArePrefixFree(a: seq<Bytes>, afterA: Bytes, b: seq<Bytes>, afterB: Bytes)
    requires GoStrings(a) && GoStrings(b) && Encode(a) + afterA == Encode(b) + afterB
    ensures a == b && afterA == afterB
  {
    ArrayRoundTrip(a, afterA);
    ArrayRoundTrip(b, afterB);
  }
}
