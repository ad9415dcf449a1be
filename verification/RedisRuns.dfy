/**
 * Whole runs of the rate-limit client: every promise settles at most once, and
 * on each connection the k-th reply settles the k-th waiting command.
 */
module RedisRuns {
  import opened Decimal
  import opened Resp
  import opened RespWire
  import opened RespStream
  import opened RedisClient

  datatype Event =
    | Open
    | HalfClose
    | Enqueue(t: Ticket, aborted: bool, writeFails: bool)
    | Data(chunk: Bytes)
    | Fail
    | Expire(t: Ticket)

  /**
   * The client with the history of its current connection: the commands that
   * waited on it in order (`inherited` of them already waited when it opened), the
   * bytes it received, and whether the server ever answered more than was asked.
   */
  datatype Trace = Trace(client: Client, inherited: nat, waited: seq<Ticket>, got: Bytes, surplus: bool,
                         issued: set<Ticket>)

  const START := Trace(Client(false, false, [], Queue([], map[])), 0, [], [], false, {})

  function Step(num: Number, s: Trace, e: Event): Trace {
    match e
    case Open =>
      if s.client.writable then s
      else
        var pending := s.client.queue.pending;
        s.(client := Opened(s.client), inherited := |pending|, waited := pending, got := [], surplus := false)
    case HalfClose => s.(client := s.client.(writable := false))
    case Enqueue(t, aborted, writeFails) =>
      if t in s.issued then s
      else
        s.(client := Enqueued(s.client, t, aborted, writeFails),
           waited := if s.client.writable then s.waited + [t] else s.waited,
           issued := s.issued + {t})
    case Data(chunk) =>
      if !s.client.connected then s
      else
        var got := s.got + chunk;
        s.(client := Received(num, s.client, chunk), got := got,
           surplus := s.surplus || |Drain(num, got).replies| > |s.waited|)
    case Fail => s.(client := Failed(s.client))
    case Expire(t) => if t !in s.issued then s else s.(client := Expired(s.client, t))
  }

  function Run(num: Number, s: Trace, events: seq<Event>): Trace
    decreases |events|
  {
    if events == [] then s else Run(num, Step(num, s, events[0]), events[1..])
  }

  // ---------------------------------------------------------------------
  // The invariant
  // ---------------------------------------------------------------------

  /** Every issued command either waits or is settled, and nothing else is there. */
  ghost predicate Covered(q: Queue, issued: set<Ticket>) {
    forall t :: t in issued <==> t in q.outcomes || t in q.pending
  }

  /** Each issued command waits exactly once or is settled, never both. */
  ghost predicate Sound(q: Queue, issued: set<Ticket>) {
    && Covered(q, issued)
    && Distinct(q.pending)
    && forall t :: t in q.pending ==> t !in q.outcomes
  }

  /** The first replies settled the first commands; each of the others waits or was rejected. */
  ghost predicate Matched(replies: seq<Delivery>, waited: seq<Ticket>, q: Queue) {
    && |replies| <= |waited|
    && (forall k :: 0 <= k < |replies| ==> waited[k] in q.outcomes && q.outcomes[waited[k]] == Settle(replies[k]))
    && forall k :: |replies| <= k < |waited| ==>
         if waited[k] in q.outcomes then q.outcomes[waited[k]] == Rejected else waited[k] in q.pending
  }

  /** On an open connection exactly the commands without a reply wait, in order. */
  ghost predicate Live(d: Drained, s: Trace) {
    && !d.broken && s.client.buffer == d.rest
    && (!s.surplus ==> |d.replies| <= |s.waited| && s.client.queue.pending == s.waited[|d.replies|..])
  }

  /** What every run keeps; the replies are those of the connection so far, whether it still lives or not. */
  ghost predicate Aligned(num: Number, s: Trace) {
    var c, d := s.client, Drain(num, s.got);
    && Sound(c.queue, s.issued)
    && Distinct(s.waited)
    && (forall t :: t in s.waited ==> t in s.issued)
    && (c.writable ==> c.connected)
    && (!c.connected ==> c.queue.pending == [])
    && s.inherited <= |s.waited|
    && (!s.surplus ==> Matched(d.replies, s.waited, c.queue))
    && (c.connected ==> Live(d, s))
  }

  /** Settled promises keep their outcome. */
  ghost predicate Kept(before: map<Ticket, Settlement>, after: map<Ticket, Settlement>) {
    forall t :: t in before ==> t in after && after[t] == before[t]
  }

  lemma RejectAllSound(q: Queue, issued: set<Ticket>)
    requires Covered(q, issued)
    ensures Kept(q.outcomes, RejectAll(q)) && Sound(Queue([], RejectAll(q)), issued)
  {
    hide RejectAll;
    RejectAllSettles(q);
  }

  lemma TakeSound(q: Queue, reply: Delivery, issued: set<Ticket>)
    requires Sound(q, issued)
    ensures Sound(Take(q, reply), issued) && Kept(q.outcomes, Take(q, reply).outcomes)
  {
  }

  lemma {:induction false} DeliverSound(q: Queue, replies: seq<Delivery>, issued: set<Ticket>)
    requires Sound(q, issued)
    ensures Sound(Deliver(q, replies), issued) && Kept(q.outcomes, Deliver(q, replies).outcomes)
    decreases |replies|
  {
    if replies != [] {
      TakeSound(q, replies[0], issued);
      hide Take, Sound;
      DeliverSound(Take(q, replies[0]), replies[1..], issued);
    }
  }

  lemma TakeMatches(earlier: seq<Delivery>, reply: Delivery, waited: seq<Ticket>, q: Queue, issued: set<Ticket>)
    requires Sound(q, issued) && Matched(earlier, waited, q) && Distinct(waited)
    requires |earlier| < |waited| && q.pending == waited[|earlier|..]
    ensures Matched(earlier + [reply], waited, Take(q, reply))
    ensures Take(q, reply).pending == waited[|earlier| + 1..]
  {
    var n, next := |earlier|, Take(q, reply);
    assert q.pending[0] == waited[n] && q.pending[1..] == waited[n + 1..];
    assert forall k :: n < k < |waited| ==> waited[k] == next.pending[k - n - 1];
  }

  lemma {:induction false} DeliverMatches(earlier: seq<Delivery>, replies: seq<Delivery>, waited: seq<Ticket>,
                                          q: Queue, issued: set<Ticket>)
    requires Sound(q, issued) && Matched(earlier, waited, q) && Distinct(waited)
    requires |earlier| + |replies| <= |waited| && q.pending == waited[|earlier|..]
    ensures Matched(earlier + replies, waited, Deliver(q, replies))
    ensures Deliver(q, replies).pending == waited[|earlier| + |replies|..]
    decreases |replies|
  {
    hide Sound, Matched, Take, Distinct;
    if replies == [] {
      assert earlier + replies == earlier;
    } else {
      var next := earlier + [replies[0]];
      TakeMatches(earlier, replies[0], waited, q, issued);
      TakeSound(q, replies[0], issued);
      DeliverMatches(next, replies[1..], waited, Take(q, replies[0]), issued);
      assert next + replies[1..] == earlier + replies;
    }
  }

  /** A failure rejects what still waits and leaves what was answered. */
  lemma RejectAllMatches(replies: seq<Delivery>, waited: seq<Ticket>, q: Queue)
    requires Matched(replies, waited, q)
    ensures Matched(replies, waited, Queue([], RejectAll(q)))
  {
    hide RejectAll;
    RejectAllSettles(q);
  }

  // ---------------------------------------------------------------------
  // Each event keeps it
  // ---------------------------------------------------------------------

  lemma FailKeeps(num: Number, s: Trace, c: Client)
    requires Covered(c.queue, s.issued) && Distinct(s.waited) && s.inherited <= |s.waited|
    requires forall t :: t in s.waited ==> t in s.issued
    requires !s.surplus ==> Matched(Drain(num, s.got).replies, s.waited, c.queue)
    ensures Aligned(num, s.(client := Failed(c))) && Kept(c.queue.outcomes, Failed(c).queue.outcomes)
  {
    hide Drain, Matched, RejectAll;
    RejectAllSound(c.queue, s.issued);
    if !s.surplus { RejectAllMatches(Drain(num, s.got).replies, s.waited, c.queue); }
  }

  lemma DataKeeps(num: Number, s: Trace, chunk: Bytes)
    requires Aligned(num, s) && s.client.connected
    ensures Aligned(num, Step(num, s, Data(chunk)))
    ensures Kept(s.client.queue.outcomes, Step(num, s, Data(chunk)).client.queue.outcomes)
  {
    hide Drain, Deliver, Matched, RejectAll;
    var c, before := s.client, Drain(num, s.got);
    DrainSplit(num, s.got, chunk);
    var n, after := Drain(num, c.buffer + chunk), Step(num, s, Data(chunk));
    DeliverSound(c.queue, n.replies, s.issued);
    var next := c.(buffer := n.rest, queue := Deliver(c.queue, n.replies));
    if !after.surplus {
      MatchedBound(before.replies, s.waited, c.queue);
      DeliverMatches(before.replies, n.replies, s.waited, c.queue, s.issued);
    }
    if n.broken { FailKeeps(num, after, next); }
  }

  lemma MatchedBound(replies: seq<Delivery>, waited: seq<Ticket>, q: Queue)
    requires Matched(replies, waited, q)
    ensures |replies| <= |waited|
  {
  }

  lemma EnqueueKeeps(num: Number, s: Trace, t: Ticket, aborted: bool, writeFails: bool)
    requires Aligned(num, s) && t !in s.issued
    ensures var after := Step(num, s, Enqueue(t, aborted, writeFails));
            Aligned(num, after) && Kept(s.client.queue.outcomes, after.client.queue.outcomes)
  {
    hide Drain, RejectAll;
    var c := s.client;
    if c.writable {
      var queued := c.(queue := c.queue.(pending := c.queue.pending + [t]));
      var after := Trace(queued, s.inherited, s.waited + [t], s.got, s.surplus, s.issued + {t});
      assert Sound(queued.queue, after.issued);
      if aborted {
        ExpiredKeeps(num, after, t);
      } else if writeFails {
        FailKeeps(num, after, queued);
      } else {
        var d := Drain(num, s.got);
        assert !s.surplus ==> Matched(d.replies, after.waited, queued.queue);
      }
    }
  }

  /**
   * A new command is queued behind the others, with nothing else changed, exactly
   * when the socket is writable, its signal is silent and the write succeeds.
   * Otherwise it is rejected: alone when the socket is not writable, together with
   * everything that waited when its signal or its write brings the socket down.
   */
  lemma IssuedWaitsOrIsRejected(c: Client, t: Ticket, aborted: bool, writeFails: bool, issued: set<Ticket>)
    requires Sound(c.queue, issued) && t !in issued
    ensures var after := Enqueued(c, t, aborted, writeFails);
            && Sound(after.queue, issued + {t}) && Kept(c.queue.outcomes, after.queue.outcomes)
            && (t in after.queue.pending <==> c.writable && !aborted && !writeFails)
            && (t in after.queue.pending ==> after == c.(queue := c.queue.(pending := c.queue.pending + [t])))
            && (t in after.queue.outcomes ==> after.queue.outcomes[t] == Rejected)
            && (!c.writable ==> after.queue.pending == c.queue.pending)
            && (c.writable && t in after.queue.outcomes ==>
                  && !after.connected && !after.writable && after.buffer == [] && after.queue.pending == []
                  && forall u :: u in c.queue.pending ==> after.queue.outcomes[u] == Rejected)
  {
    hide RejectAll;
    var queued := c.queue.(pending := c.queue.pending + [t]);
    var expired := queued.(outcomes := queued.outcomes[t := Rejected]);
    RejectAllSettles(queued);
    RejectAllSettles(expired);
    RejectAllSound(queued, issued + {t});
    RejectAllSound(expired, issued + {t});
  }

  lemma ExpiredKeeps(num: Number, s: Trace, t: Ticket)
    requires Sound(s.client.queue, s.issued) && Distinct(s.waited) && s.inherited <= |s.waited|
    requires forall u :: u in s.waited ==> u in s.issued
    requires t in s.issued && t !in s.client.queue.outcomes
    requires !s.surplus ==> Matched(Drain(num, s.got).replies, s.waited, s.client.queue)
    ensures Aligned(num, s.(client := Expired(s.client, t)))
    ensures Kept(s.client.queue.outcomes, Expired(s.client, t).queue.outcomes)
  {
    hide RejectAll, Drain;
    FailKeeps(num, s, s.client.(queue := s.client.queue.(outcomes := s.client.queue.outcomes[t := Rejected])));
  }

  lemma StepKeeps(num: Number, s: Trace, e: Event)
    requires Aligned(num, s)
    ensures Aligned(num, Step(num, s, e))
    ensures Kept(s.client.queue.outcomes, Step(num, s, e).client.queue.outcomes)
  {
    hide Drain, RejectAll, Received, Enqueued, Expired;
    match e {
      case Open => OpenKeeps(num, s);
      case HalfClose =>
      case Enqueue(t, aborted, writeFails) => if t !in s.issued { EnqueueKeeps(num, s, t, aborted, writeFails); }
      case Data(chunk) => if s.client.connected { DataKeeps(num, s, chunk); }
      case Fail => FailKeeps(num, s, s.client);
      case Expire(t) => if t in s.issued { ExpireKeeps(num, s, t); }
    }
  }

  lemma OpenKeeps(num: Number, s: Trace)
    requires Aligned(num, s)
    ensures Aligned(num, Step(num, s, Open))
  {
    hide Drain;
    assert Drain(num, []) == Drained([], [], false) by { DrainNothing(num); }
    var q := s.client.queue;
    assert q.pending[0..] == q.pending;
    assert Matched([], q.pending, q);
  }

  lemma DrainNothing(num: Number)
    ensures Drain(num, []) == Drained([], [], false)
  {
  }

  lemma ExpireKeeps(num: Number, s: Trace, t: Ticket)
    requires Aligned(num, s) && t in s.issued
    ensures Aligned(num, s.(client := Expired(s.client, t)))
    ensures Kept(s.client.queue.outcomes, Expired(s.client, t).queue.outcomes)
  {
    if t in s.client.queue.outcomes {
      assert s.(client := s.client) == s;
    } else {
      ExpiredKeeps(num, s, t);
    }
  }

  /** In every run each promise settles at most once and the invariant holds at the end. */
  lemma {:induction false} RunKeeps(num: Number, s: Trace, events: seq<Event>)
    requires Aligned(num, s)
    ensures Aligned(num, Run(num, s, events))
    ensures Kept(s.client.queue.outcomes, Run(num, s, events).client.queue.outcomes)
    decreases |events|
  {
    if events != [] {
      StepKeeps(num, s, events[0]);
      RunKeeps(num, Step(num, s, events[0]), events[1..]);
    }
  }

  lemma StartAligned(num: Number)
    ensures Aligned(num, START)
  {
  }

  // ---------------------------------------------------------------------
  // Replies and commands
  // ---------------------------------------------------------------------

  /** The commands sent on the current connection. */
  function Commands(s: Trace): seq<Ticket>
    requires s.inherited <= |s.waited|
  {
    s.waited[s.inherited..]
  }

  /**
   * On a connection whose server never answered unasked, whether it still lives or has ended in
   * any way, the k-th reply settled the k-th waiting command: an error rejected it, any other
   * value is its result. That is the k-th command *sent on this connection* if and only if
   * nothing was waiting when the connection opened.
   */
  lemma KthReplyKthCommand(num: Number, events: seq<Event>, k: nat)
    requires var s := Run(num, START, events);
             !s.surplus && k < |Drain(num, s.got).replies|
    ensures var s := Run(num, START, events);
            var reply, q := Drain(num, s.got).replies[k], s.client.queue;
            && k < |s.waited| && s.waited[k] in q.outcomes
            && q.outcomes[s.waited[k]] == (if reply.failed then Rejected else Resolved(reply.value))
            && s.inherited <= |s.waited|
            && (k < |Commands(s)| ==> (s.waited[k] == Commands(s)[k] <==> s.inherited == 0))
  {
    hide Drain;
    StartAligned(num);
    RunKeeps(num, START, events);
  }

  /**
   * The commands behind those: while the connection lives they wait, in order and with nothing
   * else; once it has ended, by whatever event, every one of them is rejected.
   */
  lemma TheOthersWaitOrAreRejected(num: Number, events: seq<Event>)
    requires !Run(num, START, events).surplus
    ensures var s := Run(num, START, events);
            var n := |Drain(num, s.got).replies|;
            && n <= |s.waited|
            && (s.client.connected ==> s.client.queue.pending == s.waited[n..])
            && (!s.client.connected ==>
                  && s.client.queue.pending == []
                  && forall k :: n <= k < |s.waited| ==>
                       s.waited[k] in s.client.queue.outcomes && s.client.queue.outcomes[s.waited[k]] == Rejected)
  {
    hide Drain;
    StartAligned(num);
    RunKeeps(num, START, events);
  }

  /**
   * Once a server's answers have arrived, the promise of the k-th waiting command holds the
   * meaning of the k-th answer, or is rejected if that is an error, whatever arrived behind them
   * and whether the connection lives or not; without a leftover queue these are the commands
   * sent. While the connection lives and nothing arrived behind them, the buffer is empty and the
   * other commands wait.
   */
  lemma CommandsGetTheirReplies(num: Number, events: seq<Event>, answers: seq<Wire>, k: nat)
    requires ReadsDecimals(num) && forall i :: 0 <= i < |answers| ==> WellFormed(answers[i]) && Whole(answers[i])
    requires var s := Run(num, START, events);
             !s.surplus && EncodeAll(answers) <= s.got
    requires k < |answers|
    ensures var s := Run(num, START, events);
            && |answers| <= |s.waited| && s.waited[k] in s.client.queue.outcomes
            && s.client.queue.outcomes[s.waited[k]]
               == (if HasError(answers[k]) then Rejected else Resolved(Meaning(answers[k])))
            && s.inherited <= |s.waited| && (s.inherited == 0 ==> Commands(s) == s.waited)
            && (s.client.connected && s.got == EncodeAll(answers) ==>
                  s.client.buffer == [] && s.client.queue.pending == s.waited[|answers|..])
  {
    hide Drain, Seen, EncodeAll, WellFormed, Whole, HasError, Meaning;
    StartAligned(num);
    RunKeeps(num, START, events);
    var got := Run(num, START, events).got;
    var behind := got[|EncodeAll(answers)|..];
    assert got == EncodeAll(answers) + behind;
    DrainEncoded(num, answers);
    DrainSplit(num, EncodeAll(answers), behind);
    SeenOnePerReply(answers);
    SeenInOrder(answers, k);
  }

  // ---------------------------------------------------------------------
  // How the data arrives
  // ---------------------------------------------------------------------

  lemma {:induction false} DeliverConcat(q: Queue, a: seq<Delivery>, b: seq<Delivery>)
    ensures Deliver(q, a + b) == Deliver(Deliver(q, a), b)
    decreases |a|
  {
    hide Take;
    if a == [] {
      assert a + b == b;
    } else {
      assert (a + b)[1..] == a[1..] + b;
      DeliverConcat(Take(q, a[0]), a[1..], b);
    }
  }

  /** The buffer holds no complete reply and nothing malformed, as after every data event. */
  predicate Unfinished(num: Number, buffer: Bytes) {
    Drain(num, buffer) == Drained([], buffer, false)
  }

  lemma RestUnfinished(num: Number, s: Bytes)
    ensures !Drain(num, s).broken ==> Unfinished(num, Drain(num, s).rest)
  {
    hide Drain;
    DrainSplit(num, s, []);
    var d := Drain(num, s);
    assert s + [] == s && d.rest + [] == d.rest;
    assert !d.broken ==> d.replies == d.replies + Drain(num, d.rest).replies;
  }

  /** Two data events do what one with all their bytes does. */
  lemma ReceivedTwice(num: Number, c: Client, first: Bytes, second: Bytes)
    requires Unfinished(num, c.buffer) && c.connected
    ensures var next := Received(num, c, first);
            && (next.connected ==> Unfinished(num, next.buffer))
            && (if next.connected then Received(num, next, second) else next) == Received(num, c, first + second)
  {
    hide Drain, Deliver, RejectAll;
    var all := c.buffer + first;
    assert all + second == c.buffer + (first + second);
    DrainSplit(num, all, second);
    RestUnfinished(num, all);
    var d := Drain(num, all);
    DeliverConcat(c.queue, d.replies, Drain(num, d.rest + second).replies);
  }

  function DataEvents(chunks: seq<Bytes>): (events: seq<Event>) {
    if chunks == [] then [] else [Data(chunks[0])] + DataEvents(chunks[1..])
  }

  lemma {:induction false} ChunksReceived(num: Number, s: Trace, chunks: seq<Bytes>)
    requires s.client.connected ==> Unfinished(num, s.client.buffer)
    ensures Run(num, s, DataEvents(chunks)).client
            == if s.client.connected then Received(num, s.client, Joined(chunks)) else s.client
    decreases |chunks|
  {
    hide Received, Unfinished;
    if chunks == [] {
      if s.client.connected { NothingReceived(num, s.client); }
    } else {
      var next := Step(num, s, Data(chunks[0]));
      assert DataEvents(chunks)[1..] == DataEvents(chunks[1..]);
      if s.client.connected { ReceivedTwice(num, s.client, chunks[0], Joined(chunks[1..])); }
      ChunksReceived(num, next, chunks[1..]);
    }
  }

  lemma NothingReceived(num: Number, c: Client)
    requires Unfinished(num, c.buffer)
    ensures Received(num, c, []) == c
  {
    hide Drain;
    assert c.buffer + [] == c.buffer;
  }

  /**
   * At any point of any run it makes no difference to the client, to its queue or to any promise,
   * how the bytes that arrive next are cut into data events.
   */
  lemma ChunksMakeNoDifference(num: Number, events: seq<Event>, chunks: seq<Bytes>)
    ensures var s := Run(num, START, events);
            Run(num, s, DataEvents(chunks)).client == Step(num, s, Data(Joined(chunks))).client
  {
    hide Run, Received, Drain, Unfinished;
    var s := Run(num, START, events);
    StartAligned(num);
    RunKeeps(num, START, events);
    RestUnfinished(num, s.got);
    ChunksReceived(num, s, chunks);
  }

  /** The client before the reply: command 0 was sent on the old connection, command 1 on the new one. */
  lemma Reopened(num: Number, data: Event)
    ensures Run(num, START, [Open, Enqueue(0, false, false), HalfClose, Open, Enqueue(1, false, false), data])
            == Step(num, Trace(Client(true, true, [], Queue([0, 1], map[])), 1, [0, 1], [], false, {0, 1}), data)
  {
    hide Received;
    var e1, e2, e3, e4 := Enqueue(0, false, false), HalfClose, Open, Enqueue(1, false, false);
    var s1 := Trace(Client(true, true, [], Queue([0], map[])), 0, [0], [], false, {0});
    var s4 := Trace(Client(true, true, [], Queue([0, 1], map[])), 1, [0, 1], [], false, {0, 1});
    assert Step(num, Step(num, START, Open), e1) == s1;
    assert Step(num, Step(num, Step(num, s1, e2), e3), e4) == s4;
    RunCons(num, START, [Open, e1, e2, e3, e4, data]);
    RunCons(num, Step(num, START, Open), [e1, e2, e3, e4, data]);
    RunCons(num, s1, [e2, e3, e4, data]);
    RunCons(num, Step(num, s1, e2), [e3, e4, data]);
    RunCons(num, Step(num, Step(num, s1, e2), e3), [e4, data]);
    RunCons(num, s4, [data]);
  }

  lemma RunCons(num: Number, s: Trace, events: seq<Event>)
    requires events != []
    ensures |events| > 1 ==> Run(num, s, events) == Run(num, Step(num, s, events[0]), events[1..])
    ensures |events| == 1 ==> Run(num, s, events) == Step(num, s, events[0])
    ensures |events| == 2 ==> events[1..] == [events[1]]
    ensures |events| == 3 ==> events[1..] == [events[1], events[2]]
    ensures |events| == 4 ==> events[1..] == [events[1], events[2], events[3]]
    ensures |events| == 5 ==> events[1..] == [events[1], events[2], events[3], events[4]]
    ensures |events| == 6 ==> events[1..] == [events[1], events[2], events[3], events[4], events[5]]
  {
    hide Step;
  }

  /**
   * Opening a new connection while a half-closed one still has a waiting command
   * hands that command the new connection's first reply.
   */
  lemma ReopenMisdelivers(num: Number)
    requires ReadsDecimals(num)
    ensures var s := Run(num, START, [Open, Enqueue(0, false, false), HalfClose, Open, Enqueue(1, false, false),
                                      Data(Encode(Integer(7)))]);
            s.client.queue == Queue([1], map[0 := Resolved(Int(7))]) && Commands(s) == [1]
  {
    hide Run, Drain, Encode;
    Reopened(num, Data(Encode(Integer(7))));
    OneInteger(num, 7);
    assert [] + Encode(Integer(7)) == Encode(Integer(7));
    assert Deliver(Queue([0, 1], map[]), [Delivery(Int(7), false)]) == Queue([1], map[0 := Resolved(Int(7))]);
  }

  lemma OneInteger(num: Number, i: int)
    requires ReadsDecimals(num) && Safe(i)
    ensures Drain(num, Encode(Integer(i))) == Drained([Delivery(Int(i), false)], [], false)
  {
    hide Drain;
    DrainEncoded(num, [Integer(i)]);
    assert EncodeAll([Integer(i)]) == Encode(Integer(i));
    assert After([Integer(i)]) == [];
  }
}
