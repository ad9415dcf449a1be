/**
 * The rate-limit client of one Redis connection at a time: a receive buffer and
 * a queue of commands that still wait for their reply.
 */
module RedisClient {
  import opened Decimal
  import opened Resp
  import opened RespStream

  /** One command's promise. */
  type Ticket = nat

  datatype Settlement = Resolved(value: Reply) | Rejected

  function Settle(reply: Delivery): Settlement {
    if reply.failed then Rejected else Resolved(reply.value)
  }

  /** Commands waiting for a reply, oldest first, and the promises settled so far. */
  datatype Queue = Queue(pending: seq<Ticket>, outcomes: map<Ticket, Settlement>)

  /** `writable` is the socket's own flag; it can drop before the socket closes. */
  datatype Client = Client(connected: bool, writable: bool, buffer: Bytes, queue: Queue)

  // ---------------------------------------------------------------------
  // What each event does
  // ---------------------------------------------------------------------

  function SettleOnce(outcomes: map<Ticket, Settlement>, t: Ticket, s: Settlement): map<Ticket, Settlement> {
    if t in outcomes then outcomes else outcomes[t := s]
  }

  function RejectAll(q: Queue): map<Ticket, Settlement>
    decreases |q.pending|
  {
    if q.pending == [] then q.outcomes
    else RejectAll(Queue(q.pending[1..], SettleOnce(q.outcomes, q.pending[0], Rejected)))
  }

  /** The oldest waiting command takes the reply; without one the reply is dropped. */
  function Take(q: Queue, reply: Delivery): Queue {
    if q.pending == [] then q
    else Queue(q.pending[1..], SettleOnce(q.outcomes, q.pending[0], Settle(reply)))
  }

  function Deliver(q: Queue, replies: seq<Delivery>): Queue
    decreases |replies|
  {
    if replies == [] then q else Deliver(Take(q, replies[0]), replies[1..])
  }

  function Failed(c: Client): Client {
    Client(false, false, [], Queue([], RejectAll(c.queue)))
  }

  function Received(num: Number, c: Client, chunk: Bytes): Client {
    var d := Drain(num, c.buffer + chunk);
    var next := c.(buffer := d.rest, queue := Deliver(c.queue, d.replies));
    if d.broken then Failed(next) else next
  }

  function Opened(c: Client): Client {
    c.(connected := true, writable := true, buffer := [])
  }

  function Enqueued(c: Client, t: Ticket, aborted: bool, writeFails: bool): Client {
    if !c.writable then c.(queue := c.queue.(outcomes := SettleOnce(c.queue.outcomes, t, Rejected)))
    else
      var queued := c.(queue := c.queue.(pending := c.queue.pending + [t]));
      if aborted then Expired(queued, t) else if writeFails then Failed(queued) else queued
  }

  /** A command's timer or abort signal fires. */
  function Expired(c: Client, t: Ticket): Client {
    if t in c.queue.outcomes then c
    else Failed(c.(queue := c.queue.(outcomes := c.queue.outcomes[t := Rejected])))
  }

  /** A failure rejects every command that waits and changes no promise settled before. */
  lemma {:induction false} RejectAllSettles(q: Queue)
    ensures forall t :: t in q.outcomes ==> t in RejectAll(q) && RejectAll(q)[t] == q.outcomes[t]
    ensures forall t :: t in q.pending && t !in q.outcomes ==> t in RejectAll(q) && RejectAll(q)[t] == Rejected
    ensures forall t :: t in RejectAll(q) ==> t in q.outcomes || t in q.pending
    decreases |q.pending|
  {
    if q.pending != [] {
      RejectAllSettles(Queue(q.pending[1..], SettleOnce(q.outcomes, q.pending[0], Rejected)));
    }
  }

  ghost predicate Distinct(ts: seq<Ticket>) {
    forall i, j :: 0 <= i < j < |ts| ==> ts[i] != ts[j]
  }

  /** Each waiting command waits once, for a promise that is still open. */
  ghost predicate Waiting(q: Queue) {
    Distinct(q.pending) && forall t :: t in q.pending ==> t !in q.outcomes
  }

  /** The oldest commands got these replies: an error rejects, anything else is the promise's value. */
  ghost predicate Answered(waiting: seq<Ticket>, replies: seq<Delivery>, outcomes: map<Ticket, Settlement>) {
    forall k :: 0 <= k < |replies| && k < |waiting| ==>
      && waiting[k] in outcomes
      && (outcomes[waiting[k]] == Rejected <==> replies[k].failed)
      && (!replies[k].failed ==> outcomes[waiting[k]] == Resolved(replies[k].value))
  }

  lemma TakeAnswers(q: Queue, reply: Delivery)
    requires Waiting(q) && q.pending != []
    ensures var next := Take(q, reply);
            && Waiting(next) && next.pending == q.pending[1..]
            && q.pending[0] in next.outcomes
            && next.outcomes[q.pending[0]] == if reply.failed then Rejected else Resolved(reply.value)
  {
  }

  lemma {:induction false} DeliverKeeps(q: Queue, replies: seq<Delivery>)
    ensures forall t :: t in q.outcomes ==>
              t in Deliver(q, replies).outcomes && Deliver(q, replies).outcomes[t] == q.outcomes[t]
    decreases |replies|
  {
    if replies != [] { DeliverKeeps(Take(q, replies[0]), replies[1..]); }
  }

  lemma {:induction false} DeliverAnswers(q: Queue, replies: seq<Delivery>)
    requires Waiting(q)
    ensures Answered(q.pending, replies, Deliver(q, replies).outcomes)
    decreases |replies|
  {
    if replies != [] && q.pending != [] {
      hide Take, Waiting;
      TakeAnswers(q, replies[0]);
      var next := Take(q, replies[0]);
      DeliverAnswers(next, replies[1..]);
      DeliverKeeps(next, replies[1..]);
      assert forall k :: 0 < k < |q.pending| ==> q.pending[k] == next.pending[k - 1];
    }
  }

  /** The same for the bytes of one data event, also when parsing fails behind the replies. */
  lemma ReceivedAnswers(num: Number, c: Client, chunk: Bytes)
    requires Waiting(c.queue)
    ensures Answered(c.queue.pending, Drain(num, c.buffer + chunk).replies, Received(num, c, chunk).queue.outcomes)
  {
    hide Drain, Deliver, RejectAll, Waiting;
    var d := Drain(num, c.buffer + chunk);
    DeliverAnswers(c.queue, d.replies);
    RejectAllSettles(Deliver(c.queue, d.replies));
  }

  // ---------------------------------------------------------------------
  // The client object
  // ---------------------------------------------------------------------

  class NativeRedisRateLimitClient {
    const num: Number
    var connected: bool
    var writable: bool
    var buffer: Bytes
    var pending: seq<Ticket>
    var outcomes: map<Ticket, Settlement>

    function State(): Client
      reads this
    {
      Client(connected, writable, buffer, Queue(pending, outcomes))
    }

    constructor (num: Number)
      ensures this.num == num && State() == Client(false, false, [], Queue([], map[]))
    {
      this.num := num;
      connected, writable, buffer, pending, outcomes := false, false, [], [], map[];
    }

    /** A new socket; commands still pending from the previous one stay queued. */
    method OpenConnection()
      requires !writable
      modifies this
      ensures State() == Opened(old(State()))
    {
      connected, writable := true, true;
      buffer := [];
    }

    /** A new command waits if it could be written while its signal was silent; otherwise it is rejected. */
    method Enqueue(t: Ticket, aborted: bool, writeFails: bool)
      modifies this
      ensures State() == Enqueued(old(State()), t, aborted, writeFails)
      ensures var sent := old(writable) && !aborted && !writeFails;
              t !in old(outcomes) && t !in old(pending) ==>
                && (if sent then pending == old(pending) + [t] else t !in pending)
                && (if sent then outcomes == old(outcomes) else t in outcomes && outcomes[t] == Rejected)
    {
      hide RejectAll;
      ghost var q := Queue(pending + [t], outcomes);
      RejectAllSettles(q);
      RejectAllSettles(q.(outcomes := q.outcomes[t := Rejected]));
      if !writable {
        SettlePromise(t, Rejected);
        return;
      }
      pending := pending + [t];
      if aborted {
        Expire(t);
        return;
      }
      if writeFails { FailSocket(); }
    }

    method SettlePromise(t: Ticket, s: Settlement)
      modifies this`outcomes
      ensures outcomes == SettleOnce(old(outcomes), t, s)
    {
      if t !in outcomes { outcomes := outcomes[t := s]; }
    }

    method Expire(t: Ticket)
      modifies this
      ensures State() == Expired(old(State()), t)
    {
      if t in outcomes { return; }
      outcomes := outcomes[t := Rejected];
      FailSocket();
    }

    method FailSocket()
      modifies this
      ensures State() == Failed(old(State()))
    {
      connected, writable := false, false;
      buffer := [];
      while |pending| > 0
        invariant !connected && !writable && buffer == []
        invariant RejectAll(Queue(pending, outcomes)) == RejectAll(old(State().queue))
        decreases |pending|
      {
        var next := pending[0];
        pending := pending[1..];
        SettlePromise(next, Rejected);
      }
    }

    method TakeReply(reply: Delivery)
      modifies this`pending, this`outcomes
      ensures Queue(pending, outcomes) == Take(old(State().queue), reply)
    {
      if |pending| > 0 {
        var next := pending[0];
        pending := pending[1..];
        SettlePromise(next, if reply.failed then Rejected else Resolved(reply.value));
      }
    }

    method HandleData(chunk: Bytes)
      modifies this
      ensures State() == Received(num, old(State()), chunk)
      ensures Waiting(old(State().queue)) ==>
                Answered(old(pending), Drain(num, old(buffer) + chunk).replies, outcomes)
    {
      hide Parse, Drain, Deliver, Ahead, Take, RejectAll, SettleOnce, Waiting, Answered;
      if Waiting(State().queue) { ReceivedAnswers(num, State(), chunk); }
      buffer := buffer + chunk;
      ghost var d := Drain(num, buffer);
      ghost var settled := Deliver(Queue(pending, outcomes), d.replies);
      AheadStart(num, buffer, Queue(pending, outcomes));
      assert buffer[0..] == buffer;
      var offset := 0;
      while offset < |buffer|
        invariant connected == old(connected) && writable == old(writable)
        invariant buffer == old(buffer) + chunk && offset <= |buffer|
        invariant Ahead(num, buffer[offset..], Queue(pending, outcomes), d, settled)
        decreases |buffer| - offset
      {
        var parsed := ParseRedisReply(num, buffer, offset);
        AheadStep(num, buffer[offset..], Queue(pending, outcomes), d, settled);
        if parsed == Malformed {
          FailSocket();
          return;
        }
        if parsed == Incomplete { break; }
        assert buffer[offset..][parsed.used - offset..] == buffer[parsed.used..];
        offset := parsed.used;
        TakeReply(Delivery(parsed.value, parsed.failed));
      }
      assert offset == |buffer| ==> buffer[offset..] == [];
      AheadStep(num, buffer[offset..], Queue(pending, outcomes), d, settled);
      if offset > 0 { buffer := buffer[offset..]; }
    }
  }

  /** Draining the unread bytes into `q` still ends as draining everything did. */
  ghost predicate Ahead(num: Number, unread: Bytes, q: Queue, d: Drained, settled: Queue) {
    var left := Drain(num, unread);
    left.rest == d.rest && left.broken == d.broken && Deliver(q, left.replies) == settled
  }

  lemma AheadStart(num: Number, unread: Bytes, q: Queue)
    ensures Ahead(num, unread, q, Drain(num, unread), Deliver(q, Drain(num, unread).replies))
    ensures Parse(num, []) == Incomplete
  {
  }

  lemma AheadStep(num: Number, unread: Bytes, q: Queue, d: Drained, settled: Queue)
    requires Ahead(num, unread, q, d, settled)
    ensures var p := Parse(num, unread);
            p.Done? ==> Ahead(num, unread[p.used..], Take(q, Delivery(p.value, p.failed)), d, settled)
    ensures Parse(num, unread) == Incomplete ==> q == settled && d.rest == unread && !d.broken
    ensures Parse(num, unread) == Malformed ==> q == settled && d.rest == [] && d.broken
  {
    hide Parse;
  }
}
