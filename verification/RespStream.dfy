/**
 * The reply stream of one connection: how it is cut into chunks does not matter,
 * and which replies a server's answers turn into.
 */
module RespStream {
  import opened Decimal
  import opened Resp
  import opened RespWire

  datatype Delivery = Delivery(value: Reply, failed: bool)

  /** Replies delivered in order, the unread bytes, and whether parsing failed. */
  datatype Drained = Drained(replies: seq<Delivery>, rest: Bytes, broken: bool)

  function Drain(num: Number, s: Bytes): (d: Drained)
    ensures |d.rest| <= |s|
    decreases |s|
  {
    match Parse(num, s)
    case Incomplete => Drained([], s, false)
    case Malformed => Drained([], [], true)
    case Done(used, value, failed) =>
      var d := Drain(num, s[used..]);
      Drained([Delivery(value, failed)] + d.replies, d.rest, d.broken)
  }

  /** One data event; a failed connection receives nothing more. */
  function Receive(num: Number, d: Drained, chunk: Bytes): Drained {
    if d.broken then d
    else
      var n := Drain(num, d.rest + chunk);
      Drained(d.replies + n.replies, n.rest, n.broken)
  }

  function Feed(num: Number, d: Drained, chunks: seq<Bytes>): Drained
    decreases |chunks|
  {
    if chunks == [] then d else Feed(num, Receive(num, d, chunks[0]), chunks[1..])
  }

  function Joined(chunks: seq<Bytes>): Bytes {
    if chunks == [] then [] else chunks[0] + Joined(chunks[1..])
  }

  lemma {:induction false} DrainSplit(num: Number, a: Bytes, b: Bytes)
    ensures Drain(num, a + b) == Receive(num, Drain(num, a), b)
    decreases |a|
  {
    hide Parse;
    var p := Parse(num, a);
    if p == Incomplete {
      assert [] + Drain(num, a + b).replies == Drain(num, a + b).replies;
    } else {
      ParseStable(num, a, b);
      if p.Done? {
        var later := a[p.used..];
        assert (a + b)[p.used..] == later + b;
        DrainSplit(num, later, b);
        ReceivePrepends(num, Delivery(p.value, p.failed), Drain(num, later), b);
      }
    }
  }

  lemma ReceivePrepends(num: Number, first: Delivery, d: Drained, chunk: Bytes)
    ensures var r := Receive(num, d, chunk);
            Receive(num, d.(replies := [first] + d.replies), chunk) == r.(replies := [first] + r.replies)
  {
    hide Drain;
    var n := Drain(num, d.rest + chunk);
    assert ([first] + d.replies) + n.replies == [first] + (d.replies + n.replies);
  }

  /**
   * Every way of splitting a byte stream into chunks delivers the same replies,
   * leaves the same unread bytes and fails alike.
   */
  lemma {:induction false} ChunkingIsInvisible(num: Number, before: Bytes, chunks: seq<Bytes>)
    ensures Feed(num, Drain(num, before), chunks) == Drain(num, before + Joined(chunks))
    decreases |chunks|
  {
    hide Drain, Receive;
    if chunks == [] {
      assert before + [] == before;
    } else {
      DrainSplit(num, before, chunks[0]);
      ChunkingIsInvisible(num, before + chunks[0], chunks[1..]);
      assert before + chunks[0] + Joined(chunks[1..]) == before + Joined(chunks);
    }
  }

  // ---------------------------------------------------------------------
  // What the replies of a server turn into
  // ---------------------------------------------------------------------

  /** The values still unread once the first error of `v` ended its parse. */
  function Leftover(v: Wire): (vs: seq<Wire>)
    requires HasError(v)
    ensures WellFormed(v) ==> forall i :: 0 <= i < |vs| ==> WellFormed(vs[i])
    decreases v, 0
  {
    if v.SimpleError? then []
    else
      assert AnyError(v.items);
      LeftoverAll(v.items)
  }

  function LeftoverAll(vs: seq<Wire>): (left: seq<Wire>)
    requires AnyError(vs)
    ensures (forall i :: 0 <= i < |vs| ==> WellFormed(vs[i])) ==> forall i :: 0 <= i < |left| ==> WellFormed(left[i])
    decreases vs, 1
  {
    if HasError(vs[0]) then Leftover(vs[0]) + vs[1..]
    else
      AnyErrorTail(vs);
      LeftoverAll(vs[1..])
  }

  lemma {:induction false} EncodeAllConcat(a: seq<Wire>, b: seq<Wire>)
    ensures EncodeAll(a + b) == EncodeAll(a) + EncodeAll(b)
  {
    if a == [] {
      assert a + b == b;
    } else {
      assert (a + b)[1..] == a[1..] + b;
      EncodeAllConcat(a[1..], b);
    }
  }

  lemma {:induction false} LeftoverBytes(v: Wire)
    requires HasError(v)
    ensures ErrorEnd(v) <= |Encode(v)| && EncodeAll(Leftover(v)) == Encode(v)[ErrorEnd(v)..]
    decreases v, 0
  {
    if v.Array? {
      assert AnyError(v.items);
      LeftoverAllBytes(v.items);
      var header := Header(ARRAY, Print(|v.items|));
      assert Encode(v)[|header| + ErrorEndAll(v.items)..] == EncodeAll(v.items)[ErrorEndAll(v.items)..];
    }
  }

  lemma {:induction false} LeftoverAllBytes(vs: seq<Wire>)
    requires AnyError(vs)
    ensures ErrorEndAll(vs) <= |EncodeAll(vs)|
    ensures EncodeAll(LeftoverAll(vs)) == EncodeAll(vs)[ErrorEndAll(vs)..]
    decreases vs, 1
  {
    hide Encode, Leftover;
    if HasError(vs[0]) {
      LeftoverBytes(vs[0]);
      EncodeAllConcat(Leftover(vs[0]), vs[1..]);
      assert (Encode(vs[0]) + EncodeAll(vs[1..]))[ErrorEnd(vs[0])..]
          == Encode(vs[0])[ErrorEnd(vs[0])..] + EncodeAll(vs[1..]);
    } else {
      AnyErrorTail(vs);
      LeftoverAllBytes(vs[1..]);
    }
  }

  /** What remains to be parsed after the first reply of `vs`. */
  function After(vs: seq<Wire>): (left: seq<Wire>)
    requires vs != []
    ensures |EncodeAll(left)| < |EncodeAll(vs)|
    ensures (forall i :: 0 <= i < |vs| ==> WellFormed(vs[i])) ==> forall i :: 0 <= i < |left| ==> WellFormed(left[i])
  {
    if HasError(vs[0]) then
      ErrorEndPositive(vs[0]);
      LeftoverBytes(vs[0]);
      EncodeAllConcat(Leftover(vs[0]), vs[1..]);
      Leftover(vs[0]) + vs[1..]
    else vs[1..]
  }

  lemma ErrorEndPositive(v: Wire)
    ensures ErrorEnd(v) > 0
  {
  }

  function FirstSeen(v: Wire): Delivery {
    if HasError(v) then Delivery(Null, true) else Delivery(Meaning(v), false)
  }

  /** The replies the client sees when the server sends `vs`. */
  function Seen(vs: seq<Wire>): seq<Delivery>
    decreases |EncodeAll(vs)|
  {
    if vs == [] then [] else [FirstSeen(vs[0])] + Seen(After(vs))
  }

  /** How many bytes the first reply of the encoding of `v` uses. */
  function FirstUsed(v: Wire): (used: nat)
    ensures used <= |Encode(v)|
  {
    if HasError(v) then
      LeftoverBytes(v);
      ErrorEnd(v)
    else |Encode(v)|
  }

  lemma AfterBytes(vs: seq<Wire>)
    requires vs != []
    ensures EncodeAll(vs) == Encode(vs[0]) + EncodeAll(vs[1..])
    ensures EncodeAll(vs)[FirstUsed(vs[0])..] == EncodeAll(After(vs))
  {
    hide Encode, HasError, ErrorEnd, Leftover;
    var head, tail := Encode(vs[0]), EncodeAll(vs[1..]);
    var used := FirstUsed(vs[0]);
    assert (head + tail)[used..] == head[used..] + tail;
    if HasError(vs[0]) {
      LeftoverBytes(vs[0]);
      EncodeAllConcat(Leftover(vs[0]), vs[1..]);
    }
  }

  lemma ParseFirst(num: Number, vs: seq<Wire>)
    requires ReadsDecimals(num) && vs != [] && WellFormed(vs[0])
    ensures Parse(num, EncodeAll(vs)) == Done(FirstUsed(vs[0]), FirstSeen(vs[0]).value, FirstSeen(vs[0]).failed)
    ensures EncodeAll(vs)[FirstUsed(vs[0])..] == EncodeAll(After(vs))
  {
    hide Parse, Encode, Meaning, HasError, ErrorEnd, After, WellFormed;
    AfterBytes(vs);
    ParseEncoded(num, vs[0], EncodeAll(vs[1..]));
  }

  lemma {:induction false} DrainEncoded(num: Number, vs: seq<Wire>)
    requires ReadsDecimals(num) && forall i :: 0 <= i < |vs| ==> WellFormed(vs[i])
    ensures Drain(num, EncodeAll(vs)) == Drained(Seen(vs), [], false)
    decreases |EncodeAll(vs)|
  {
    assert Parse(num, []) == Incomplete;
    hide Parse, EncodeAll, After, FirstSeen, FirstUsed, WellFormed;
    if vs == [] {
      assert EncodeAll(vs) == [] by { NothingEncoded(); }
    } else {
      ParseFirst(num, vs);
      DrainEncoded(num, After(vs));
    }
  }

  lemma NothingEncoded()
    ensures EncodeAll([]) == []
  {
  }

  /** A reply the client takes as one: no error inside, or only as its last part. */
  predicate Whole(v: Wire) {
    HasError(v) ==> ErrorLast(v)
  }

  lemma LeftoverEmpty(v: Wire)
    requires HasError(v)
    ensures Leftover(v) == [] <==> ErrorLast(v)
  {
    ErrorEndIsEnd(v);
    LeftoverBytes(v);
    if Leftover(v) != [] { assert |Encode(Leftover(v)[0])| > 0; }
  }

  /** Each server reply is seen as one reply, in order, iff each of them is whole. */
  lemma {:induction false} SeenOnePerReply(vs: seq<Wire>)
    ensures |Seen(vs)| >= |vs|
    ensures |Seen(vs)| == |vs| <==> forall i :: 0 <= i < |vs| ==> Whole(vs[i])
    decreases |EncodeAll(vs)|
  {
    hide HasError, ErrorLast, Leftover, Encode, Meaning;
    if vs != [] {
      var left := After(vs);
      SeenOnePerReply(left);
      if HasError(vs[0]) { LeftoverEmpty(vs[0]); }
      assert |Seen(vs)| == 1 + |Seen(left)|;
      if Whole(vs[0]) {
        assert left == vs[1..];
        assert forall i :: 1 <= i < |vs| ==> vs[i] == left[i - 1];
        assert forall i :: 0 <= i < |left| ==> left[i] == vs[i + 1];
      }
    }
  }

  lemma {:induction false} SeenInOrder(vs: seq<Wire>, k: nat)
    requires k < |vs| && forall i :: 0 <= i <= k ==> Whole(vs[i])
    ensures k < |Seen(vs)|
    ensures Seen(vs)[k] == FirstSeen(vs[k])
    decreases k
  {
    hide HasError, ErrorLast, Leftover, Encode, Meaning;
    if HasError(vs[0]) { LeftoverEmpty(vs[0]); }
    assert After(vs) == vs[1..];
    if k > 0 { SeenInOrder(vs[1..], k - 1); }
  }

  /**
   * A server array with an error in front of another element is one reply to the
   * server and two to the client, so the next command's answer is taken by the
   * wrong reader.
   */
  lemma NestedErrorSplits(num: Number)
    requires ReadsDecimals(num)
    ensures var v := Array([SimpleError([]), Integer(1)]);
            Drain(num, Encode(v)).replies == [Delivery(Null, true), Delivery(Int(1), false)]
  {
    hide Drain, Parse, Encode;
    var v := Array([SimpleError([]), Integer(1)]);
    SplitError();
    DrainEncoded(num, [v]);
    assert EncodeAll([v]) == Encode(v) by { assert Encode(v) + EncodeAll([]) == Encode(v); }
  }

  lemma SplitError()
    ensures var v := Array([SimpleError([]), Integer(1)]);
            HasError(v) && After([v]) == [Integer(1)] && Seen([v]) == [Delivery(Null, true), Delivery(Int(1), false)]
  {
    var v := Array([SimpleError([]), Integer(1)]);
    assert v.items[0] == SimpleError([]) && v.items[1..] == [Integer(1)];
    assert HasError(v) && !HasError(Integer(1)) by { assert HasError(v.items[0]); }
    assert Leftover(v) == [] + [Integer(1)];
    assert After([v]) == [Integer(1)] && After([Integer(1)]) == [];
    assert Seen([Integer(1)]) == [Delivery(Int(1), false)];
  }
}
