/**
 * Laws of the RESP parser: more bytes never change a finished parse, encoded
 * commands come back intact, and exactly which server replies are consumed as
 * one reply.
 */
module RespWire {
  import opened Options
  import opened Decimal
  import opened Resp

  // ---------------------------------------------------------------------
  // Later bytes do not change a finished parse
  // ---------------------------------------------------------------------

  lemma FindCrlfStable(s: Bytes, more: Bytes)
    requires FindCrlf(s).Some?
    ensures FindCrlf(s + more) == FindCrlf(s)
  {
    var at := FindCrlf(s).value;
    assert CrlfAt(s + more, at);
    var found := FindCrlf(s + more).value;
    assert CrlfAt(s, found);
  }

  lemma {:induction false} ParseStable(num: Number, s: Bytes, more: Bytes)
    requires Parse(num, s) != Incomplete
    ensures Parse(num, s + more) == Parse(num, s)
    decreases |s|, 0
  {
    hide ParseBody, FindCrlf;
    assert (s + more)[1..] == s[1..] + more;
    FindCrlfStable(s[1..], more);
    var end := FindCrlf(s[1..]).value;
    assert (s + more)[1..1 + end] == s[1..1 + end];
    assert (s + more)[end + 3..] == s[end + 3..] + more;
    BodyStable(num, s[0], s[1..1 + end], s[end + 3..], more);
  }

  lemma {:induction false} BodyStable(num: Number, kind: byte, line: Bytes, body: Bytes, more: Bytes)
    requires ParseBody(num, kind, line, body) != Incomplete
    ensures ParseBody(num, kind, line, body + more) == ParseBody(num, kind, line, body)
    decreases |body|, 2
  {
    hide ParseItems;
    var count := num(line);
    if count.Some? && count.value >= 0 {
      if kind == ARRAY {
        ItemsStable(num, body, count.value, more);
      } else if kind == BULK {
        assert (body + more)[..count.value] == body[..count.value];
      }
    }
  }

  lemma {:induction false} ItemsStable(num: Number, s: Bytes, count: nat, more: Bytes)
    requires ParseItems(num, s, count) != Incomplete
    ensures ParseItems(num, s + more, count) == ParseItems(num, s, count)
    decreases |s|, 1
  {
    hide Parse;
    if count > 0 {
      ParseStable(num, s, more);
      var p := Parse(num, s);
      if p.Done? && !p.failed {
        assert (s + more)[p.used..] == s[p.used..] + more;
        ItemsStable(num, s[p.used..], count - 1, more);
      }
    }
  }

  // ---------------------------------------------------------------------
  // The server's side of the format
  // ---------------------------------------------------------------------

  datatype Wire =
    | SimpleString(line: Bytes)
    | SimpleError(line: Bytes)
    | Integer(i: int)
    | BulkString(bytes: Bytes)
    | NullBulk
    | NullArray
    | Array(items: seq<Wire>)

  function Header(kind: byte, line: Bytes): Bytes {
    [kind] + line + CRLF
  }

  function Encode(v: Wire): (bytes: Bytes)
    ensures |bytes| > 0
    decreases v, 0
  {
    match v
    case SimpleString(line) => Header(SIMPLE, line)
    case SimpleError(line) => Header(ERROR, line)
    case Integer(i) => Header(INTEGER, Print(i))
    case BulkString(bytes) => Header(BULK, Print(|bytes|)) + (bytes + CRLF)
    case NullBulk => Header(BULK, Print(-1))
    case NullArray => Header(ARRAY, Print(-1))
    case Array(items) => Header(ARRAY, Print(|items|)) + EncodeAll(items)
  }

  function EncodeAll(vs: seq<Wire>): Bytes
    decreases vs, 1
  {
    if vs == [] then [] else Encode(vs[0]) + EncodeAll(vs[1..])
  }

  /** Lines hold no line end, and every number is one JavaScript represents exactly. */
  predicate WellFormed(v: Wire) {
    match v
    case SimpleString(line) => FindCrlf(line) == None
    case SimpleError(line) => FindCrlf(line) == None
    case Integer(i) => Safe(i)
    case BulkString(bytes) => Safe(|bytes|)
    case NullBulk => true
    case NullArray => true
    case Array(items) => Safe(|items|) && forall i :: 0 <= i < |items| ==> WellFormed(items[i])
  }

  lemma SomeDigits()
    ensures Print(3) == [51] && Print(2) == [50] && Print(-1) == [45, 49] && Print(-120) == [45, 49, 50, 48]
  {
    assert Digits(1) == [49] && Digits(12) == Digits(1) + [50] && Digits(120) == Digits(12) + [48];
  }

  /** The format byte by byte, as the Redis serialization protocol has it. */
  lemma BytesOnTheWire(line: Bytes)
    ensures Encode(SimpleString(line)) == [43] + line + [13, 10]
    ensures Encode(SimpleError(line)) == [45] + line + [13, 10]
    ensures Encode(Integer(-120)) == [58, 45, 49, 50, 48, 13, 10]
    ensures Encode(BulkString([80, 13, 10])) == [36, 51, 13, 10, 80, 13, 10, 13, 10]
    ensures Encode(NullBulk) == [36, 45, 49, 13, 10]
    ensures Encode(NullArray) == [42, 45, 49, 13, 10]
    ensures Safe(9007199254740991) && Safe(-9007199254740991)
    ensures !Safe(9007199254740992) && !Safe(-9007199254740992)
  {
    hide Print, EncodeAll;
    SomeDigits();
  }

  /** An array is its count and then its items. */
  lemma ArrayOnTheWire(first: Wire, second: Wire)
    ensures Encode(Array([first, second])) == [42, 50, 13, 10] + Encode(first) + Encode(second)
  {
    hide Print;
    SomeDigits();
    var items := [first, second];
    assert items[1..] == [second] && [second][1..] == [];
    assert EncodeAll([second]) == Encode(second) + EncodeAll([]);
    assert EncodeAll(items) == Encode(first) + EncodeAll([second]);
  }

  predicate HasError(v: Wire)
    decreases v, 0
  {
    v.SimpleError? || (v.Array? && AnyError(v.items))
  }

  predicate AnyError(vs: seq<Wire>)
    decreases vs, 1
  {
    exists i :: 0 <= i < |vs| && HasError(vs[i])
  }

  /** The only error of `v` is the last thing in it. */
  predicate ErrorLast(v: Wire)
    decreases v, 0
  {
    v.SimpleError? || (v.Array? && ErrorLastAll(v.items))
  }

  predicate ErrorLastAll(vs: seq<Wire>)
    decreases vs, 1
  {
    |vs| > 0 && ErrorLast(vs[|vs| - 1]) && forall i :: 0 <= i < |vs| - 1 ==> !HasError(vs[i])
  }

  function Meaning(v: Wire): Reply
    decreases v, 0
  {
    match v
    case SimpleString(line) => Text(line)
    case SimpleError(_) => Null
    case Integer(i) => Int(i)
    case BulkString(bytes) => Text(bytes)
    case NullBulk => Null
    case NullArray => Null
    case Array(items) => List(Meanings(items))
  }

  function Meanings(vs: seq<Wire>): seq<Reply>
    decreases vs, 1
  {
    if vs == [] then [] else [Meaning(vs[0])] + Meanings(vs[1..])
  }

  /** How far the first error of `v` reaches into its encoding. */
  function ErrorEnd(v: Wire): nat
    decreases v, 0
  {
    match v
    case Array(items) => |Header(ARRAY, Print(|items|))| + ErrorEndAll(items)
    case _ => |Encode(v)|
  }

  function ErrorEndAll(vs: seq<Wire>): nat
    decreases vs, 1
  {
    if vs == [] then 0
    else if HasError(vs[0]) then ErrorEnd(vs[0])
    else |Encode(vs[0])| + ErrorEndAll(vs[1..])
  }

  // ---------------------------------------------------------------------
  // Parsing what was encoded
  // ---------------------------------------------------------------------

  lemma ParseHeader(num: Number, kind: byte, line: Bytes, body: Bytes)
    requires FindCrlf(line) == None
    ensures Parse(num, Header(kind, line) + body) == ParseBody(num, kind, line, body).Shifted(|line| + 3)
  {
    hide ParseBody;
    var s := Header(kind, line) + body;
    var tail := s[1..];
    assert tail == line + CRLF + body;
    assert CrlfAt(tail, |line|);
    var at := FindCrlf(tail).value;
    assert forall i :: 0 <= i < |line| - 1 && CrlfAt(tail, i) ==> CrlfAt(line, i);
    assert s[1..1 + |line|] == line;
    assert s[|line| + 3..] == body;
  }

  lemma PrintHasNoCrlf(i: int)
    ensures FindCrlf(Print(i)) == None
  {
    assert forall k :: !CrlfAt(Print(i), k);
  }

  /** A number header announces exactly the number that was printed. */
  lemma ParseNumberHeader(num: Number, kind: byte, i: int, body: Bytes)
    requires ReadsDecimals(num)
    ensures num(Print(i)) == if Safe(i) then Some(i) else None
    ensures Parse(num, Header(kind, Print(i)) + body) == ParseBody(num, kind, Print(i), body).Shifted(|Print(i)| + 3)
  {
    hide Parse, ParseBody, Print;
    PrintHasNoCrlf(i);
    ParseHeader(num, kind, Print(i), body);
  }

  lemma BulkBody(num: Number, line: Bytes, bytes: Bytes, rest: Bytes)
    requires num(line) == Some(|bytes|)
    ensures ParseBody(num, BULK, line, bytes + CRLF + rest) == Done(|bytes| + 2, Text(bytes), false)
  {
    hide ParseItems;
    var body := bytes + CRLF + rest;
    assert body[..|bytes|] == bytes;
    assert body[|bytes|] == CR && body[|bytes| + 1] == LF;
  }

  lemma ParseBulk(num: Number, bytes: Bytes, rest: Bytes)
    requires ReadsDecimals(num)
    ensures Parse(num, Encode(BulkString(bytes)) + rest) ==
            if Safe(|bytes|) then Done(|Encode(BulkString(bytes))|, Text(bytes), false) else Malformed
  {
    hide Parse, ParseItems, FindCrlf, Print;
    var line := Print(|bytes|);
    ParseNumberHeader(num, BULK, |bytes|, bytes + CRLF + rest);
    assert Encode(BulkString(bytes)) + rest == Header(BULK, line) + (bytes + CRLF + rest);
    if Safe(|bytes|) { BulkBody(num, line, bytes, rest); }
  }

  lemma ParseArrayHeader(num: Number, items: seq<Wire>, rest: Bytes)
    requires ReadsDecimals(num)
    ensures Parse(num, Encode(Array(items)) + rest) ==
            if Safe(|items|) then
              ParseItems(num, EncodeAll(items) + rest, |items|).Shifted(|Header(ARRAY, Print(|items|))|)
            else Malformed
  {
    hide Parse, ParseItems, FindCrlf, Print;
    ParseNumberHeader(num, ARRAY, |items|, EncodeAll(items) + rest);
    assert Encode(Array(items)) + rest == Header(ARRAY, Print(|items|)) + (EncodeAll(items) + rest);
  }

  /**
   * A well-formed server reply followed by anything parses to its meaning; with
   * an error inside, parsing stops right after the first error.
   */
  lemma {:induction false} ParseEncoded(num: Number, v: Wire, rest: Bytes)
    requires ReadsDecimals(num) && WellFormed(v)
    ensures Parse(num, Encode(v) + rest) ==
            if HasError(v) then Done(ErrorEnd(v), Null, true) else Done(|Encode(v)|, Meaning(v), false)
    decreases v, 0
  {
    hide Parse, Print, ParseItems;
    match v {
      case Array(items) =>
        ParseArrayHeader(num, items, rest);
        ParseEncodedAll(num, items, rest);
        assert HasError(v) <==> AnyError(items);
      case _ => ParseLeaf(num, v, rest);
    }
  }

  lemma ParseLeaf(num: Number, v: Wire, rest: Bytes)
    requires ReadsDecimals(num) && WellFormed(v) && !v.Array?
    ensures Parse(num, Encode(v) + rest) == Done(|Encode(v)|, Meaning(v), v.SimpleError?)
  {
    hide Parse, FindCrlf, Print, ParseItems;
    match v {
      case SimpleString(line) => ParseHeader(num, SIMPLE, line, rest);
      case SimpleError(line) => ParseHeader(num, ERROR, line, rest);
      case Integer(i) => ParseNumberHeader(num, INTEGER, i, rest);
      case BulkString(bytes) => ParseBulk(num, bytes, rest);
      case NullBulk => ParseNumberHeader(num, BULK, -1, rest);
      case NullArray => ParseNumberHeader(num, ARRAY, -1, rest);
    }
  }

  lemma {:induction false} ParseEncodedAll(num: Number, vs: seq<Wire>, rest: Bytes)
    requires ReadsDecimals(num) && forall i :: 0 <= i < |vs| ==> WellFormed(vs[i])
    ensures ParseItems(num, EncodeAll(vs) + rest, |vs|) ==
            if AnyError(vs) then Done(ErrorEndAll(vs), Null, true)
            else Done(|EncodeAll(vs)|, List(Meanings(vs)), false)
    decreases vs, 1
  {
    hide Parse, Encode, WellFormed, HasError, Meaning, ErrorEnd;
    if vs != [] {
      var s := EncodeAll(vs) + rest;
      assert s == Encode(vs[0]) + (EncodeAll(vs[1..]) + rest);
      ParseEncoded(num, vs[0], EncodeAll(vs[1..]) + rest);
      if !HasError(vs[0]) {
        assert s[|Encode(vs[0])|..] == EncodeAll(vs[1..]) + rest;
        ParseEncodedAll(num, vs[1..], rest);
        AnyErrorTail(vs);
      }
    }
  }

  lemma AnyErrorTail(vs: seq<Wire>)
    requires vs != []
    ensures AnyError(vs) <==> HasError(vs[0]) || AnyError(vs[1..])
  {
    if AnyError(vs) {
      var i :| 0 <= i < |vs| && HasError(vs[i]);
      if i > 0 { assert HasError(vs[1..][i - 1]); }
    }
    if AnyError(vs[1..]) {
      var i :| 0 <= i < |vs[1..]| && HasError(vs[1..][i]);
      assert HasError(vs[i + 1]);
    }
  }

  // ---------------------------------------------------------------------
  // Which server replies are consumed as exactly one reply
  // ---------------------------------------------------------------------

  lemma {:induction false} ErrorEndIsEnd(v: Wire)
    requires HasError(v)
    ensures ErrorEnd(v) <= |Encode(v)|
    ensures ErrorEnd(v) == |Encode(v)| <==> ErrorLast(v)
    decreases v, 0
  {
    if v.Array? {
      assert AnyError(v.items);
      ErrorEndAllIsEnd(v.items);
    }
  }

  lemma {:induction false} ErrorEndAllIsEnd(vs: seq<Wire>)
    requires AnyError(vs)
    ensures ErrorEndAll(vs) <= |EncodeAll(vs)|
    ensures ErrorEndAll(vs) == |EncodeAll(vs)| <==> ErrorLastAll(vs)
    decreases vs, 1
  {
    if HasError(vs[0]) {
      ErrorEndIsEnd(vs[0]);
      if |vs| > 1 { assert |Encode(vs[1])| > 0; }
    } else {
      AnyErrorTail(vs);
      ErrorEndAllIsEnd(vs[1..]);
      assert forall i :: 0 <= i < |vs| - 2 ==> vs[1..][i] == vs[i + 1];
      assert vs[1..][|vs| - 2] == vs[|vs| - 1];
      assert ErrorLastAll(vs[1..]) ==> ErrorLastAll(vs) by {
        if ErrorLastAll(vs[1..]) {
          forall i | 0 <= i < |vs| - 1 ensures !HasError(vs[i]) {
            if i > 0 { assert !HasError(vs[1..][i - 1]); }
          }
        }
      }
    }
  }

  /**
   * The client consumes a server reply as exactly one reply if and only if the
   * reply holds no error, or its only error is the last thing in it.
   */
  lemma OneReplyExactly(num: Number, v: Wire, rest: Bytes)
    requires ReadsDecimals(num) && WellFormed(v)
    ensures var p := Parse(num, Encode(v) + rest);
            p.Done? && (p.used == |Encode(v)| <==> !HasError(v) || ErrorLast(v))
  {
    ParseEncoded(num, v, rest);
    if HasError(v) { ErrorEndIsEnd(v); }
  }

  // ---------------------------------------------------------------------
  // Commands
  // ---------------------------------------------------------------------

  function Bulks(command: seq<Bytes>): (vs: seq<Wire>)
    ensures |vs| == |command|
    ensures forall i :: 0 <= i < |vs| ==> vs[i] == BulkString(command[i])
  {
    if command == [] then [] else [BulkString(command[0])] + Bulks(command[1..])
  }

  function Texts(command: seq<Bytes>): (values: seq<Reply>)
    ensures |values| == |command|
    ensures forall i :: 0 <= i < |values| ==> values[i] == Text(command[i])
  {
    seq(|command|, i requires 0 <= i < |command| => Text(command[i]))
  }

  method EncodeRedisCommand(command: seq<Bytes>) returns (bytes: Bytes)
    ensures bytes == Encode(Array(Bulks(command)))
  {
    assert EncodeAll([]) == [];
    hide EncodeAll, Print, Bulks;
    bytes := [ARRAY] + Print(|command|) + CRLF;
    ghost var head := bytes;
    var i := 0;
    while i < |command|
      invariant 0 <= i <= |command|
      invariant bytes == head + EncodeAll(Bulks(command[..i]))
    {
      var part := ([BULK] + Print(|command[i]|) + CRLF) + (command[i] + CRLF);
      EncodeOneMore(command, i);
      ghost var done := EncodeAll(Bulks(command[..i]));
      assert (head + done) + part == head + (done + part);
      bytes := bytes + part;
      i := i + 1;
    }
    assert command[..i] == command;
  }

  lemma EncodeOneMore(command: seq<Bytes>, i: nat)
    requires i < |command|
    ensures EncodeAll(Bulks(command[..i + 1])) == EncodeAll(Bulks(command[..i])) + Encode(BulkString(command[i]))
  {
    assert Bulks(command[..i + 1]) == Bulks(command[..i]) + [BulkString(command[i])];
    EncodeAllSnoc(Bulks(command[..i]), BulkString(command[i]));
  }

  lemma {:induction false} EncodeAllSnoc(vs: seq<Wire>, v: Wire)
    ensures EncodeAll(vs + [v]) == EncodeAll(vs) + Encode(v)
  {
    if vs == [] {
      assert vs + [v] == [v];
      assert EncodeAll([]) == [];
    } else {
      assert (vs + [v])[1..] == vs[1..] + [v];
      EncodeAllSnoc(vs[1..], v);
    }
  }

  predicate SafeSizes(command: seq<Bytes>) {
    Safe(|command|) && forall i :: 0 <= i < |command| ==> Safe(|command[i]|)
  }

  /**
   * An encoded command parses back to exactly its arguments, using every byte,
   * whatever bytes the arguments hold. The one exception is a size beyond the
   * safe integers, and then the parse is refused.
   */
  lemma CommandRoundTrip(num: Number, command: seq<Bytes>)
    requires ReadsDecimals(num)
    ensures var bytes := Encode(Array(Bulks(command)));
            Parse(num, bytes) ==
            if SafeSizes(command) then Done(|bytes|, List(Texts(command)), false) else Malformed
  {
    hide Parse, ParseItems, Bulks, EncodeAll;
    var v := Array(Bulks(command));
    assert Encode(v) + [] == Encode(v);
    if SafeSizes(command) {
      ParseEncoded(num, v, []);
      MeaningsOfBulks(command);
      NoErrorInBulks(command);
      assert !HasError(v) && Meaning(v) == List(Meanings(v.items));
    } else {
      ParseArrayHeader(num, v.items, []);
      assert EncodeAll(v.items) + [] == EncodeAll(v.items);
      if Safe(|command|) { OversizedArgument(num, command); }
    }
  }

  lemma NoErrorInBulks(command: seq<Bytes>)
    ensures !AnyError(Bulks(command))
  {
    hide Bulks;
    assert forall i :: 0 <= i < |command| ==> !HasError(Bulks(command)[i]);
  }

  lemma {:induction false} MeaningsOfBulks(command: seq<Bytes>)
    ensures Meanings(Bulks(command)) == Texts(command)
  {
    if command != [] {
      MeaningsOfBulks(command[1..]);
      assert Bulks(command)[1..] == Bulks(command[1..]);
    }
  }

  lemma EncodeBulksCons(command: seq<Bytes>)
    requires command != []
    ensures EncodeAll(Bulks(command)) == Encode(BulkString(command[0])) + EncodeAll(Bulks(command[1..]))
  {
    hide Encode;
    assert Bulks(command)[1..] == Bulks(command[1..]);
  }

  lemma {:induction false} OversizedArgument(num: Number, command: seq<Bytes>)
    requires ReadsDecimals(num)
    requires exists i :: 0 <= i < |command| && !Safe(|command[i]|)
    ensures ParseItems(num, EncodeAll(Bulks(command)), |command|) == Malformed
  {
    hide Parse, Encode, EncodeAll, Bulks;
    var first, tail := BulkString(command[0]), EncodeAll(Bulks(command[1..]));
    EncodeBulksCons(command);
    ParseBulk(num, command[0], tail);
    if Safe(|command[0]|) {
      assert (Encode(first) + tail)[|Encode(first)|..] == tail;
      var i :| 0 <= i < |command| && !Safe(|command[i]|);
      assert command[1..][i - 1] == command[i];
      OversizedArgument(num, command[1..]);
    }
  }
}
