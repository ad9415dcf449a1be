/**
 * The RESP2 reply parser and the command encoder of the rate-limit client,
 * together with the server's side of the wire format.
 */
module Resp {
  import opened Options
  import opened Decimal

  const CR: byte := 13
  const LF: byte := 10
  const CRLF: Bytes := [13, 10]
  // Type bytes: '+', '-', ':', '$', '*'
  const SIMPLE: byte := 43
  const ERROR: byte := 45
  const INTEGER: byte := 58
  const BULK: byte := 36
  const ARRAY: byte := 42

  /** A parsed reply value; texts are kept as their bytes. */
  datatype Reply = Text(bytes: Bytes) | Int(value: int) | Null | List(items: seq<Reply>)

  /**
   * One parse attempt: not enough bytes, a protocol violation, or one reply with
   * the number of bytes it used. `failed` marks a server error reply.
   */
  datatype Parsed = Incomplete | Malformed | Done(used: nat, value: Reply, failed: bool) {
    function Shifted(base: nat): Parsed {
      match this
      case Done(u, v, f) => Done(base + u, v, f)
      case _ => this
    }
  }

  // ---------------------------------------------------------------------
  // The parser as a function of the unread bytes
  // ---------------------------------------------------------------------

  predicate CrlfAt(s: Bytes, i: int) {
    0 <= i < |s| - 1 && s[i] == CR && s[i + 1] == LF
  }

  /** `indexOf("\r\n")`: the first line end, if there is one. */
  function FindCrlf(s: Bytes): (at: Option<nat>)
    ensures at.Some? ==> CrlfAt(s, at.value) && forall i :: CrlfAt(s, i) ==> at.value <= i
    ensures at.None? ==> forall i :: !CrlfAt(s, i)
  {
    if |s| < 2 then None
    else if s[0] == CR && s[1] == LF then Some(0)
    else
      var tail := FindCrlf(s[1..]);
      assert forall i :: CrlfAt(s, i) ==> CrlfAt(s[1..], i - 1);
      if tail.Some? then Some(tail.value + 1) else None
  }

  function Parse(num: Number, s: Bytes): (p: Parsed)
    ensures p.Done? ==> 0 < p.used <= |s|
    decreases |s|, 0
  {
    if |s| == 0 then Incomplete
    else
      match FindCrlf(s[1..])
      case None => Incomplete
      case Some(end) => ParseBody(num, s[0], s[1..1 + end], s[end + 3..]).Shifted(end + 3)
  }

  /** What follows the header line, by type byte. */
  function ParseBody(num: Number, kind: byte, line: Bytes, body: Bytes): (p: Parsed)
    ensures p.Done? ==> p.used <= |body|
    decreases |body|, 2
  {
    if kind == SIMPLE then Done(0, Text(line), false)
    else if kind == ERROR then Done(0, Null, true)
    else if kind == INTEGER then
      match num(line)
      case None => Malformed
      case Some(i) => Done(0, Int(i), false)
    else if kind == BULK then
      match num(line)
      case None => Malformed
      case Some(length) =>
        if length < -1 then Malformed
        else if length == -1 then Done(0, Null, false)
        else if |body| < length + 2 then Incomplete
        else if body[length] != CR || body[length + 1] != LF then Malformed
        else Done(length + 2, Text(body[..length]), false)
    else if kind == ARRAY then
      match num(line)
      case None => Malformed
      case Some(count) =>
        if count < -1 then Malformed
        else if count == -1 then Done(0, Null, false)
        else ParseItems(num, body, count)
    else Malformed
  }

  /** `count` replies in a row; an error reply ends the row at once. */
  function ParseItems(num: Number, s: Bytes, count: nat): (p: Parsed)
    ensures p.Done? ==> p.used <= |s|
    ensures p.Done? && !p.failed ==> p.value.List? && |p.value.items| == count
    decreases |s|, 1
  {
    if count == 0 then Done(0, List([]), false)
    else
      match Parse(num, s)
      case Done(used, value, failed) =>
        if failed then Done(used, value, true)
        else Prepend(value, ParseItems(num, s[used..], count - 1).Shifted(used))
      case p => p
  }

  function Prepend(value: Reply, p: Parsed): Parsed
    requires p.Done? && !p.failed ==> p.value.List?
  {
    if p.Done? && !p.failed then Done(p.used, List([value] + p.value.items), false) else p
  }

  // ---------------------------------------------------------------------
  // The parser as the client runs it: offsets into one buffer
  // ---------------------------------------------------------------------

  /** The array result once `values` are read and `left` items remain at `offset`. */
  ghost function Resume(num: Number, buffer: Bytes, offset: nat, left: nat, values: seq<Reply>): Parsed
    requires offset <= |buffer|
  {
    WithFront(values, ParseItems(num, buffer[offset..], left).Shifted(offset))
  }

  function WithFront(values: seq<Reply>, p: Parsed): Parsed
    requires p.Done? && !p.failed ==> p.value.List?
  {
    if p.Done? && !p.failed then Done(p.used, List(values + p.value.items), false) else p
  }

  lemma ResumeItem(num: Number, buffer: Bytes, offset: nat, left: nat, values: seq<Reply>)
    requires offset <= |buffer| && left > 0
    ensures var p := Parse(num, buffer[offset..]).Shifted(offset);
            Resume(num, buffer, offset, left, values) ==
            if p.Done? && !p.failed then Resume(num, buffer, p.used, left - 1, values + [p.value]) else p
  {
    var p := Parse(num, buffer[offset..]);
    if p.Done? && !p.failed {
      assert buffer[offset..][p.used..] == buffer[offset + p.used..];
      var q := ParseItems(num, buffer[offset + p.used..], left - 1);
      if q.Done? && !q.failed {
        assert values + ([p.value] + q.value.items) == (values + [p.value]) + q.value.items;
      }
    }
  }

  method ParseRedisReply(num: Number, buffer: Bytes, offset: nat) returns (p: Parsed)
    requires offset <= |buffer|
    ensures p == Parse(num, buffer[offset..]).Shifted(offset)
    decreases |buffer| - offset, 0
  {
    if offset >= |buffer| { return Incomplete; }
    var s := buffer[offset..];
    var kind := buffer[offset];
    var lineEnd := FindCrlf(buffer[offset + 1..]);
    assert buffer[offset + 1..] == s[1..];
    if lineEnd.None? { return Incomplete; }
    var line := buffer[offset + 1..offset + 1 + lineEnd.value];
    var bodyStart := offset + lineEnd.value + 3;
    assert line == s[1..1 + lineEnd.value];
    assert buffer[bodyStart..] == s[lineEnd.value + 3..];
    if kind == SIMPLE { return Done(bodyStart, Text(line), false); }
    if kind == ERROR { return Done(bodyStart, Null, true); }
    if kind == INTEGER {
      var value := num(line);
      if value.None? { return Malformed; }
      return Done(bodyStart, Int(value.value), false);
    }
    if kind == BULK {
      var length := num(line);
      if length.None? || length.value < -1 { return Malformed; }
      if length.value == -1 { return Done(bodyStart, Null, false); }
      var bodyEnd := bodyStart + length.value;
      if |buffer| < bodyEnd + 2 { return Incomplete; }
      if buffer[bodyEnd] != CR || buffer[bodyEnd + 1] != LF { return Malformed; }
      assert buffer[bodyStart..bodyEnd] == buffer[bodyStart..][..length.value];
      return Done(bodyEnd + 2, Text(buffer[bodyStart..bodyEnd]), false);
    }
    if kind == ARRAY {
      var count := num(line);
      if count.None? || count.value < -1 { return Malformed; }
      if count.value == -1 { return Done(bodyStart, Null, false); }
      p := ParseArray(num, buffer, bodyStart, count.value);
      return;
    }
    return Malformed;
  }

  method ParseArray(num: Number, buffer: Bytes, bodyStart: nat, count: nat) returns (p: Parsed)
    requires bodyStart <= |buffer|
    ensures p == ParseItems(num, buffer[bodyStart..], count).Shifted(bodyStart)
    decreases |buffer| - bodyStart, 1
  {
    var values: seq<Reply> := [];
    var nextOffset := bodyStart;
    var index := 0;
    ghost var whole := ParseItems(num, buffer[bodyStart..], count).Shifted(bodyStart);
    while index < count
      invariant 0 <= index <= count && bodyStart <= nextOffset <= |buffer|
      invariant whole == Resume(num, buffer, nextOffset, count - index, values)
    {
      var item := ParseRedisReply(num, buffer, nextOffset);
      ResumeItem(num, buffer, nextOffset, count - index, values);
      if !item.Done? || item.failed { return item; }
      nextOffset := item.used;
      values := values + [item.value];
      index := index + 1;
    }
    return Done(nextOffset, List(values), false);
  }
}
