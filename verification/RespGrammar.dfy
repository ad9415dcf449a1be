/** The replies the parser accepts, as a grammar: it accepts those and no others. */
module RespGrammar {
  import opened Options
  import opened Decimal
  import opened Resp
  import opened RespWire

  /** A header line with this type byte. */
  predicate HeaderLine(s: Bytes, kind: byte, line: Bytes) {
    FindCrlf(line) == None && s == Header(kind, line)
  }

  /** A header line that announces the number `i`, in whatever spelling is read as it. */
  ghost predicate NumberLine(num: Number, s: Bytes, kind: byte, i: int) {
    exists line :: HeaderLine(s, kind, line) && num(line) == Some(i)
  }

  /** `s` is one way of writing `v`. */
  ghost predicate Spells(num: Number, s: Bytes, v: Wire)
    decreases v, 0
  {
    match v
    case SimpleString(line) => HeaderLine(s, SIMPLE, line)
    case SimpleError(line) => HeaderLine(s, ERROR, line)
    case Integer(i) => NumberLine(num, s, INTEGER, i)
    case BulkString(bytes) =>
      exists n :: 0 <= n <= |s| && NumberLine(num, s[..n], BULK, |bytes|) && s[n..] == bytes + CRLF
    case NullBulk => NumberLine(num, s, BULK, -1)
    case NullArray => NumberLine(num, s, ARRAY, -1)
    case Array(items) =>
      exists n :: 0 <= n <= |s| && NumberLine(num, s[..n], ARRAY, |items|) && SpellsAll(num, s[n..], items)
  }

  ghost predicate SpellsAll(num: Number, s: Bytes, vs: seq<Wire>)
    decreases vs, 1
  {
    if vs == [] then s == []
    else exists n :: 0 <= n <= |s| && Spells(num, s[..n], vs[0]) && SpellsAll(num, s[n..], vs[1..])
  }

  // ---------------------------------------------------------------------
  // What is accepted is spelled
  // ---------------------------------------------------------------------

  /** The header of a parse: its line, and where the body starts. */
  lemma HeaderOf(num: Number, s: Bytes)
    requires Parse(num, s) != Incomplete
    ensures var end := FindCrlf(s[1..]);
            && s != [] && end.Some? && end.value + 3 <= |s|
            && HeaderLine(s[..end.value + 3], s[0], s[1..1 + end.value])
            && Parse(num, s) == ParseBody(num, s[0], s[1..1 + end.value], s[end.value + 3..]).Shifted(end.value + 3)
  {
    hide Parse, ParseBody, HeaderLine, FindCrlf;
    ParseOpens(num, s);
    FirstLine(s);
  }

  lemma ParseOpens(num: Number, s: Bytes)
    ensures var end := FindCrlf(s[if s == [] then 0 else 1..]);
            Parse(num, s) == if s == [] || end.None? then Incomplete
            else ParseBody(num, s[0], s[1..1 + end.value], s[end.value + 3..]).Shifted(end.value + 3)
  {
    hide ParseBody, FindCrlf;
  }

  lemma FirstLine(s: Bytes)
    requires s != [] && FindCrlf(s[1..]).Some?
    ensures var end := FindCrlf(s[1..]).value;
            end + 3 <= |s| && HeaderLine(s[..end + 3], s[0], s[1..1 + end])
  {
    hide FindCrlf;
    var end := FindCrlf(s[1..]).value;
    var line := s[1..1 + end];
    assert CrlfAt(s[1..], end);
    assert s[..end + 3] == [s[0]] + line + CRLF;
    forall i
      ensures !CrlfAt(line, i)
    {
      assert CrlfAt(s[1..], i) ==> end <= i;
    }
  }

  lemma {:induction false} AcceptedIsSpelled(num: Number, s: Bytes) returns (v: Wire)
    requires Parse(num, s).Done? && !Parse(num, s).failed
    ensures Spells(num, s[..Parse(num, s).used], v) && !HasError(v) && Meaning(v) == Parse(num, s).value
    decreases |s|, 0
  {
    hide Parse, ParseItems, FindCrlf, SpellsAll;
    HeaderOf(num, s);
    var end := FindCrlf(s[1..]).value;
    var kind, line, body, n := s[0], s[1..1 + end], s[end + 3..], end + 3;
    var used := Parse(num, s).used;
    if kind == SIMPLE {
      v := SimpleString(line);
    } else if kind == INTEGER {
      v := Integer(num(line).value);
      assert NumberLine(num, s[..n], INTEGER, v.i);
    } else if num(line).value == -1 {
      v := if kind == BULK then NullBulk else NullArray;
      assert NumberLine(num, s[..n], kind, -1);
    } else if kind == BULK {
      v := BulkString(body[..num(line).value]);
      assert s[..used][..n] == s[..n] && s[..used][n..] == body[..num(line).value + 2];
      assert body[..num(line).value + 2] == v.bytes + CRLF;
      assert NumberLine(num, s[..used][..n], BULK, |v.bytes|);
    } else {
      var items := AcceptedAreSpelled(num, body, num(line).value);
      v := Array(items);
      assert s[..used][..n] == s[..n] && s[..used][n..] == body[..used - n];
      assert NumberLine(num, s[..used][..n], ARRAY, |items|);
    }
  }

  lemma {:induction false} AcceptedAreSpelled(num: Number, s: Bytes, count: nat) returns (vs: seq<Wire>)
    requires ParseItems(num, s, count).Done? && !ParseItems(num, s, count).failed
    ensures |vs| == count && SpellsAll(num, s[..ParseItems(num, s, count).used], vs)
    ensures !AnyError(vs) && List(Meanings(vs)) == ParseItems(num, s, count).value
    decreases |s|, 1
  {
    hide Parse, Spells, HasError, Meaning;
    if count == 0 {
      vs := [];
    } else {
      var n, used := Parse(num, s).used, ParseItems(num, s, count).used;
      var v := AcceptedIsSpelled(num, s);
      var rest := AcceptedAreSpelled(num, s[n..], count - 1);
      vs := [v] + rest;
      assert vs[1..] == rest;
      assert s[..used][..n] == s[..n] && s[..used][n..] == s[n..][..used - n];
      AnyErrorTail(vs);
    }
  }

  // ---------------------------------------------------------------------
  // What is spelled is accepted
  // ---------------------------------------------------------------------

  lemma NumberParses(num: Number, s: Bytes, kind: byte, i: int, rest: Bytes) returns (line: Bytes)
    requires NumberLine(num, s, kind, i)
    ensures num(line) == Some(i) && |s| == |line| + 3
    ensures Parse(num, s + rest) == ParseBody(num, kind, line, rest).Shifted(|s|)
  {
    hide Parse, ParseBody, FindCrlf;
    line :| HeaderLine(s, kind, line) && num(line) == Some(i);
    ParseHeader(num, kind, line, rest);
  }

  lemma {:induction false} SpelledIsAccepted(num: Number, s: Bytes, v: Wire, rest: Bytes)
    requires Spells(num, s, v) && !HasError(v)
    ensures Parse(num, s + rest) == Done(|s|, Meaning(v), false)
    decreases v, 0
  {
    hide Parse, ParseItems, FindCrlf, SpellsAll, NumberLine;
    match v
    case SimpleString(line) => ParseHeader(num, SIMPLE, line, rest);
    case SimpleError(line) => assert false;
    case Integer(i) => var line := NumberParses(num, s, INTEGER, i, rest);
    case NullBulk => var line := NumberParses(num, s, BULK, -1, rest);
    case NullArray => var line := NumberParses(num, s, ARRAY, -1, rest);
    case BulkString(bytes) =>
      var n :| 0 <= n <= |s| && NumberLine(num, s[..n], BULK, |bytes|) && s[n..] == bytes + CRLF;
      assert s + rest == s[..n] + (bytes + CRLF + rest);
      var line := NumberParses(num, s[..n], BULK, |bytes|, bytes + CRLF + rest);
      BulkBody(num, line, bytes, rest);
    case Array(items) =>
      var n :| 0 <= n <= |s| && NumberLine(num, s[..n], ARRAY, |items|) && SpellsAll(num, s[n..], items);
      assert s + rest == s[..n] + (s[n..] + rest);
      var line := NumberParses(num, s[..n], ARRAY, |items|, s[n..] + rest);
      SpelledAreAccepted(num, s[n..], items, rest);
  }

  lemma {:induction false} SpelledAreAccepted(num: Number, s: Bytes, vs: seq<Wire>, rest: Bytes)
    requires SpellsAll(num, s, vs) && !AnyError(vs)
    ensures ParseItems(num, s + rest, |vs|) == Done(|s|, List(Meanings(vs)), false)
    decreases vs, 1
  {
    hide Parse, Spells, HasError, Meaning;
    if vs != [] {
      var n :| 0 <= n <= |s| && Spells(num, s[..n], vs[0]) && SpellsAll(num, s[n..], vs[1..]);
      AnyErrorTail(vs);
      SpelledIsAccepted(num, s[..n], vs[0], s[n..] + rest);
      assert s + rest == s[..n] + (s[n..] + rest);
      assert (s + rest)[n..] == s[n..] + rest;
      SpelledAreAccepted(num, s[n..], vs[1..], rest);
    }
  }

  // ---------------------------------------------------------------------
  // Exactly
  // ---------------------------------------------------------------------

  /** A reply without error at the front of `s`, of this length and value. */
  ghost predicate Begins(num: Number, s: Bytes, used: nat, value: Reply) {
    exists v :: used <= |s| && Spells(num, s[..used], v) && !HasError(v) && Meaning(v) == value
  }

  /** A buffer parses to a reply without error exactly when one is written at its front. */
  lemma AcceptsExactly(num: Number, s: Bytes, used: nat, value: Reply)
    ensures Parse(num, s) == Done(used, value, false) <==> Begins(num, s, used, value)
  {
    hide Parse, Spells, HasError, Meaning;
    if Parse(num, s) == Done(used, value, false) {
      var v := AcceptedIsSpelled(num, s);
    }
    if Begins(num, s, used, value) {
      var v :| used <= |s| && Spells(num, s[..used], v) && !HasError(v) && Meaning(v) == value;
      SpelledIsAccepted(num, s[..used], v, s[used..]);
      assert s[..used] + s[used..] == s;
    }
  }

  /** Whatever arrives behind a malformed buffer, it never becomes a reply. */
  lemma MalformedIsHopeless(num: Number, s: Bytes, more: Bytes, used: nat, value: Reply)
    requires Parse(num, s) == Malformed
    ensures !Begins(num, s + more, used, value)
  {
    hide Parse, Begins;
    ParseStable(num, s, more);
    AcceptsExactly(num, s + more, used, value);
  }

  /**
   * A buffer whose header line is complete fails at once, without waiting for more, exactly on an
   * unknown type byte, a number that is none or below -1, a bulk string that does not end where it
   * should, or an array that fails so in one of its items.
   */
  lemma FailsAtOnce(num: Number, kind: byte, line: Bytes, body: Bytes)
    requires FindCrlf(line) == None
    ensures var number := num(line);
            Parse(num, Header(kind, line) + body) == Malformed <==>
              || kind !in {SIMPLE, ERROR, INTEGER, BULK, ARRAY}
              || (kind in {INTEGER, BULK, ARRAY} && number == None)
              || (kind in {BULK, ARRAY} && number.Some? && number.value < -1)
              || (kind == BULK && number.Some? && 0 <= number.value <= |body| - 2
                  && !CrlfAt(body, number.value))
              || (kind == ARRAY && number.Some? && number.value >= 0
                  && ParseItems(num, body, number.value) == Malformed)
  {
    hide Parse, ParseItems, FindCrlf;
    ParseHeader(num, kind, line, body);
  }
}
