/** What the RESP parsers accept, refuse and leave unread, for every input and not only for what the
    client itself writes. */
module RespLaws {
  import opened Resp

  // ----- Lines

  predicate EndsInCr(h: Bytes) {
    h != [] && h[|h| - 1] == 13
  }

  /** A line ends at the first line feed; one carriage return before it belongs to the end. Without a line
      feed all input is used up. */
  lemma LineIsRead(s: Bytes)
    ensures var p := ParseLine(s);
            match p.outcome
            case Got(h) =>
              && 10 !in h
              && (s == h + [13, 10] + p.rest || (s == h + [10] + p.rest && !EndsInCr(h)))
            case Failed(e) => 10 !in s && e == UnexpectedEof && p.rest == []
  {
    var i := NewlineAt(s);
    if i >= 0 {
      var l := s[..i];
      assert s == l + [10] + s[i + 1..];
      if EndsInCr(l) {
        assert l == l[..i - 1] + [13];
      }
    }
  }

  /** A line that ends in a bare line feed is a line too. */
  lemma BareLineIsRead(h: Bytes, rest: Bytes)
    requires 10 !in h && !EndsInCr(h)
    ensures ParseLine(h + [10] + rest) == Parsed(Got(h), rest)
  {
    NewlineAfter(h, rest);
    assert (h + [10] + rest)[..|h|] == h && (h + [10] + rest)[|h| + 1..] == rest;
  }

  // ----- Numbers

  /** The decimal numeral of a number that is not negative. */
  predicate Numeral(digits: Bytes, n: int) {
    digits != [] && AllDigits(digits) && DigitsValue(digits) == n
  }

  /** A number is a numeral, with a plus or a minus before it or none, of a value that 64 bits hold;
      nothing else is. */
  lemma NumberIsRead(s: Bytes, n: int)
    ensures Atoi(s) == Got(n) <==>
            && -0x8000_0000_0000_0000 <= n <= 0x7FFF_FFFF_FFFF_FFFF && s != []
            && (if s[0] == 43 then Numeral(s[1..], n) else if s[0] == 45 then Numeral(s[1..], -n) else Numeral(s, n))
    ensures Atoi(s).Got? || Atoi(s) == Failed(BadNumber)
  {
  }

  /** What the first line of the input announces: a mark and a number. */
  predicate Announces(s: Bytes, mark: Byte, n: int) {
    var line := ParseLine(s).outcome;
    line.Got? && line.value != [] && line.value[0] == mark && Atoi(line.value[1..]) == Got(n)
  }

  // ----- Bulk strings

  /** The nil bulk string: what the server answers when there is nothing to pop. */
  lemma NilBulkIsRead(n: int, rest: Bytes)
    requires -0x8000_0000_0000_0000 <= n < 0
    ensures ParseBulk(Line([36] + FormatInt(n)) + rest) == Parsed(Failed(NilBulk), rest)
  {
    HeaderRoundTrip(36, n, rest);
  }

  lemma NilBulkOfTheServer(rest: Bytes)
    ensures ParseBulk([36, 45, 49, 13, 10] + rest) == Parsed(Failed(NilBulk), rest)
  {
    NilBulkIsRead(-1, rest);
    assert Itoa(1) == [49];
    assert Line([36] + FormatInt(-1)) == [36, 45, 49, 13, 10];
  }

  lemma BodyAndEnd(r: Bytes, n: nat)
    requires n + 2 <= |r|
    ensures r == r[..n] + [r[n], r[n + 1]] + r[n + 2..]
  {
  }

  /** Every outcome of reading a bulk string, exactly. A string is read if a dollar line announces its
      length and that many bytes and two more follow; the nil string is a negative length; what is left
      unread is what follows. */
  lemma BulkIsRead(s: Bytes)
    ensures var p, line := ParseBulk(s), ParseLine(s);
            match p.outcome
            case Got(v) => Announces(s, 36, |v|) && exists x, y :: line.rest == v + [x, y] + p.rest
            case Failed(NilBulk) => (exists n :: n < 0 && Announces(s, 36, n)) && p.rest == line.rest
            case Failed(UnexpectedEof) =>
              p.rest == [] && (10 !in s || exists n :: Announces(s, 36, n) && n >= 0 && |line.rest| < n + 2)
            case Failed(BadHeader) =>
              line.outcome.Got? && (line.outcome.value == [] || line.outcome.value[0] != 36) && p.rest == line.rest
            case Failed(BadNumber) =>
              && line.outcome.Got? && line.outcome.value != [] && line.outcome.value[0] == 36
              && Atoi(line.outcome.value[1..]).Failed? && p.rest == line.rest
            case Failed(ServerError) => false
  {
    LineIsRead(s);
    var line := ParseLine(s);
    if line.outcome.Got? && line.outcome.value != [] && line.outcome.value[0] == 36 {
      var size := Atoi(line.outcome.value[1..]);
      NumberIsRead(line.outcome.value[1..], if size.Got? then size.value else 0);
      if size.Got? {
        assert Announces(s, 36, size.value);
        if 0 <= size.value && size.value + 2 <= |line.rest| {
          BodyAndEnd(line.rest, size.value);
        }
      }
    }
  }

  // ----- Arrays

  /** A negative count is an array without items, and leaves the rest. */
  lemma NegativeArrayIsEmpty(n: int, rest: Bytes)
    requires -0x8000_0000_0000_0000 <= n < 0
    ensures ParseArray(Line([42] + FormatInt(n)) + rest) == Parsed(Got([]), rest)
  {
    HeaderRoundTrip(42, n, rest);
  }

  /** An item that cannot be read makes the array unreadable, with the same error. */
  lemma UnreadableItem(s: Bytes, count: nat)
    requires count > 0
    ensures ParseBulk(s).outcome.Failed? ==>
              ParseItems(s, count) == Parsed(Failed(ParseBulk(s).outcome.error), ParseBulk(s).rest)
    ensures ParseBulk(s).outcome.Got? && ParseItems(ParseBulk(s).rest, count - 1).outcome.Failed? ==>
              ParseItems(s, count) == ParseItems(ParseBulk(s).rest, count - 1)
  {
  }

  /** The items are read one after the other, each from what the one before it left. */
  ghost predicate ReadInTurn(rests: seq<Bytes>, items: seq<Bytes>) {
    && |rests| == |items| + 1
    && forall k :: 0 <= k < |items| ==> ParseBulk(rests[k]) == Parsed(Got(items[k]), rests[k + 1])
  }

  lemma TurnBefore(s: Bytes, rests: seq<Bytes>, items: seq<Bytes>, item: Bytes)
    requires ReadInTurn(rests, items) && ParseBulk(s) == Parsed(Got(item), rests[0])
    ensures ReadInTurn([s] + rests, [item] + items)
  {
  }

  lemma {:induction false} ItemsAreRead(s: Bytes, count: nat) returns (rests: seq<Bytes>)
    requires ParseItems(s, count).outcome.Got?
    ensures ReadInTurn(rests, ParseItems(s, count).outcome.value)
    ensures rests[0] == s && rests[|rests| - 1] == ParseItems(s, count).rest
    decreases count
  {
    if count == 0 {
      rests := [s];
    } else {
      var first := ParseBulk(s);
      var more := ParseItems(first.rest, count - 1);
      rests := ItemsAreRead(first.rest, count - 1);
      TurnBefore(s, rests, more.outcome.value, first.outcome.value);
      rests := [s] + rests;
    }
  }

  /** An array is its items, as many as a star line announces; a negative number announces none. */
  lemma ArrayIsRead(s: Bytes, n: int)
    requires Announces(s, 42, n)
    ensures n < 0 ==> ParseArray(s) == Parsed(Got([]), ParseLine(s).rest)
    ensures n >= 0 ==> ParseArray(s) == ParseItems(ParseLine(s).rest, n)
  {
  }

  lemma ArrayIsAnnounced(s: Bytes)
    ensures ParseArray(s).outcome.Got? ==> exists n :: Announces(s, 42, n)
  {
    var header := ParseHeader(s, 42);
    if header.outcome.Got? {
      assert Announces(s, 42, header.outcome.value);
    }
  }

  // ----- Integers

  /** A line that starts with a minus is the server's error, and nothing else is. */
  lemma ServerErrorIsRead(s: Bytes)
    ensures var p, line := ParseInteger(s), ParseLine(s);
            && (p.outcome == Failed(ServerError) <==>
                line.outcome.Got? && line.outcome.value != [] && line.outcome.value[0] == 45)
            && (line.outcome.Got? ==> p.rest == line.rest)
            && (forall n :: p.outcome == Got(n) <==> Announces(s, 58, n))
  {
    LineIsRead(s);
    var line := ParseLine(s);
    if line.outcome.Got? && line.outcome.value != [] {
      NumberIsRead(line.outcome.value[1..], 0);
    }
  }

  /** The command PING on the wire. */
  lemma PingFrame()
    ensures Encode([[80, 73, 78, 71]]) == [42, 49, 13, 10, 36, 52, 13, 10, 80, 73, 78, 71, 13, 10]
  {
    var ping: Bytes := [80, 73, 78, 71];
    assert Itoa(1) == [49] && Itoa(4) == [52];
    assert Bulks([ping]) == Bulk(ping) + Bulks([]);
  }
}
