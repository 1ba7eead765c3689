/** The client's frame builder and reply readers, as they run: a loop that appends to a buffer,
    and loops that consume a shared input. */
module RespReader {
  import opened Resp

  /** Builds the array frame of a command. */
  method BuildArray(parts: seq<Bytes>) returns (b: Bytes)
    ensures b == Encode(parts)
  {
    b := [STAR] + Itoa(|parts|) + [CR, LF];
    ghost var header := b;
    for i := 0 to |parts|
      invariant b + Bulks(parts[i..]) == header + Bulks(parts)
    {
      var frame := [DOLLAR] + Itoa(|parts[i]|) + [CR, LF] + parts[i] + [CR, LF];
      assert frame == Bulk(parts[i]);
      NextBulk(b, frame, parts, i);
      b := b + frame;
    }
  }

  lemma NextBulk(b: Bytes, frame: Bytes, parts: seq<Bytes>, i: nat)
    requires i < |parts| && frame == Bulk(parts[i])
    ensures (b + frame) + Bulks(parts[i + 1..]) == b + Bulks(parts[i..])
  {
    assert parts[i..][0] == parts[i] && parts[i..][1..] == parts[i + 1..];
    assert (b + frame) + Bulks(parts[i + 1..]) == b + (frame + Bulks(parts[i + 1..]));
  }

  /** A buffered reader: the bytes received and how many have been consumed. */
  /** Where the first line of the unread input ends. */
  lemma LineEnds(input: Bytes, start: nat, pos: nat)
    requires start <= pos <= |input| && (forall k :: start <= k < pos ==> input[k] != LF)
    requires pos < |input| ==> input[pos] == LF
    ensures var s := input[start..];
            if pos == |input| then NewlineAt(s) < 0
            else && NewlineAt(s) == pos - start
                 && s[..pos - start] == input[start..pos] && s[pos - start + 1..] == input[pos + 1..]
  {
    var s := input[start..];
    assert forall k :: 0 <= k < |s| ==> s[k] == input[start + k];
    if pos < |input| {
      assert s[pos - start] == LF;
    }
  }

  class Reader {
    const input: Bytes
    var pos: nat

    ghost predicate Valid()
      reads this
    {
      pos <= |input|
    }

    ghost function Unread(): Bytes
      requires Valid()
      reads this
    {
      input[pos..]
    }

    constructor (input: Bytes)
      ensures Valid() && Unread() == input
    {
      this.input := input;
      pos := 0;
    }

    method ReadLine() returns (r: Outcome<Bytes>)
      requires Valid()
      modifies this
      ensures Valid() && Parsed(r, Unread()) == ParseLine(old(Unread()))
    {
      var start := pos;
      while pos < |input| && input[pos] != LF
        invariant start <= pos <= |input|
        invariant forall k :: start <= k < pos ==> input[k] != LF
      {
        pos := pos + 1;
      }
      LineEnds(input, start, pos);
      if pos == |input| {
        return Failed(UnexpectedEof);
      }
      var line := input[start..pos];
      pos := pos + 1;
      r := Got(if line != [] && line[|line| - 1] == CR then line[..|line| - 1] else line);
    }

    method ReadBulkString() returns (r: Outcome<Bytes>)
      requires Valid()
      modifies this
      ensures Valid() && Parsed(r, Unread()) == ParseBulk(old(Unread()))
    {
      var header := ReadLine();
      if header.Failed? {
        return Failed(header.error);
      }
      if header.value == [] || header.value[0] != DOLLAR {
        return Failed(BadHeader);
      }
      var size := Atoi(header.value[1..]);
      if size.Failed? {
        return Failed(size.error);
      }
      if size.value < 0 {
        return Failed(NilBulk);
      }
      var n := size.value;
      if |input| - pos < n + 2 {
        pos := |input|;
        return Failed(UnexpectedEof);
      }
      r := Got(input[pos..pos + n]);
      assert input[pos..][..n] == input[pos..pos + n] && input[pos..][n + 2..] == input[pos + n + 2..];
      pos := pos + n + 2;
    }

    method ReadBulkStringArray() returns (r: Outcome<seq<Bytes>>)
      requires Valid()
      modifies this
      ensures Valid() && Parsed(r, Unread()) == ParseArray(old(Unread()))
    {
      var header := ReadLine();
      if header.Failed? {
        return Failed(header.error);
      }
      if header.value == [] || header.value[0] != STAR {
        return Failed(BadHeader);
      }
      var size := Atoi(header.value[1..]);
      if size.Failed? {
        return Failed(size.error);
      }
      if size.value < 0 {
        return Got([]);
      }
      r := ReadItems(size.value);
    }

    /** The loop of ReadBulkStringArray over its elements. */
    method ReadItems(count: nat) returns (r: Outcome<seq<Bytes>>)
      requires Valid()
      modifies this
      ensures Valid() && Parsed(r, Unread()) == ParseItems(old(Unread()), count)
    {
      ghost var all := ParseItems(Unread(), count);
      var items: seq<Bytes> := [];
      PrependNothing(all);
      for i := 0 to count
        invariant Valid()
        invariant all == Prepend(items, ParseItems(Unread(), count - i))
      {
        var item := ReadBulkString();
        if item.Failed? {
          return Failed(item.error);
        }
        PrependSnoc(items, item.value, ParseItems(Unread(), count - i - 1));
        items := items + [item.value];
      }
      PrependToNothing(items, Unread());
      r := Got(items);
    }

    method ReadInteger() returns (r: Outcome<int>)
      requires Valid()
      modifies this
      ensures Valid() && Parsed(r, Unread()) == ParseInteger(old(Unread()))
    {
      var line := ReadLine();
      if line.Failed? {
        return Failed(line.error);
      }
      if line.value != [] && line.value[0] == MINUS {
        return Failed(ServerError);
      }
      if line.value == [] || line.value[0] != COLON {
        return Failed(BadHeader);
      }
      r := Atoi(line.value[1..]);
    }
  }

  lemma PrependNothing(p: Parsed<seq<Bytes>>)
    ensures Prepend([], p) == p
  {
    if p.outcome.Got? {
      assert [] + p.outcome.value == p.outcome.value;
    }
  }

  lemma PrependToNothing(items: seq<Bytes>, rest: Bytes)
    ensures Prepend(items, ParseItems(rest, 0)) == Parsed(Got(items), rest)
  {
    assert items + [] == items;
  }

  lemma PrependSnoc(items: seq<Bytes>, item: Bytes, p: Parsed<seq<Bytes>>)
    ensures Prepend(items, Prepend([item], p)) == Prepend(items + [item], p)
  {
    if p.outcome.Got? {
      assert items + ([item] + p.outcome.value) == (items + [item]) + p.outcome.value;
    }
  }
}
