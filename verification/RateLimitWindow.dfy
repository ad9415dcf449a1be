/**
 * The three Lua scripts of the shared rate-limit store, run atomically against
 * Redis counters, and the number of requests a limit lets through.
 */
module RateLimitWindow {
  import opened Options

  type Key = nat

  /** A stored counter; without `expiresAt` it never expires. */
  datatype Counter = Counter(hits: int, expiresAt: Option<int>)

  type Counters = map<Key, Counter>

  // Redis drops a key once the clock is past its expiry time.
  predicate Live(cs: Counters, now: int, key: Key) {
    key in cs && (cs[key].expiresAt.Some? ==> now <= cs[key].expiresAt.value)
  }

  // ---------------------------------------------------------------------
  // Redis commands
  // ---------------------------------------------------------------------

  function IncrBy(cs: Counters, now: int, key: Key, delta: int): Counters {
    if Live(cs, now, key) then cs[key := cs[key].(hits := cs[key].hits + delta)]
    else cs[key := Counter(delta, None)]
  }

  function Pttl(cs: Counters, now: int, key: Key): int {
    if !Live(cs, now, key) then -2
    else if cs[key].expiresAt.None? then -1
    else cs[key].expiresAt.value - now
  }

  // ---------------------------------------------------------------------
  // What each script leaves behind
  // ---------------------------------------------------------------------

  datatype Hit = Hit(totalHits: int, ttl: int)

  function Incremented(cs: Counters, now: int, key: Key, windowMs: int): Counter {
    if !Live(cs, now, key) then Counter(1, Some(now + windowMs))
    else Counter(cs[key].hits + 1, Some(if cs[key].expiresAt.Some? then cs[key].expiresAt.value else now + windowMs))
  }

  function AfterIncrement(cs: Counters, now: int, key: Key, windowMs: int): Counters {
    cs[key := Incremented(cs, now, key, windowMs)]
  }

  function AfterDecrement(cs: Counters, now: int, key: Key): Counters {
    if Live(cs, now, key) && cs[key].hits > 1 then cs[key := cs[key].(hits := cs[key].hits - 1)] else cs - {key}
  }

  class RateLimitKeys {
    var counters: Counters
    var now: int

    constructor (now: int)
      ensures counters == map[] && this.now == now
    {
      counters, this.now := map[], now;
    }

    method IncrementScript(key: Key, windowMs: int) returns (reply: Hit)
      requires windowMs > 0
      modifies this`counters
      ensures counters == AfterIncrement(old(counters), now, key, windowMs)
      ensures reply == Hit(counters[key].hits, counters[key].expiresAt.value - now)
    {
      counters := IncrBy(counters, now, key, 1);
      var totalHits := counters[key].hits;
      var ttl := Pttl(counters, now, key);
      if ttl < 0 {
        ttl := windowMs;
        counters := counters[key := counters[key].(expiresAt := Some(now + ttl))];
      }
      return Hit(totalHits, ttl);
    }

    method GetScript(key: Key) returns (reply: Option<Hit>)
      ensures reply == if Live(counters, now, key) && counters[key].expiresAt.Some?
                       then Some(Hit(counters[key].hits, counters[key].expiresAt.value - now)) else None
    {
      if !Live(counters, now, key) { return None; }
      var ttl := Pttl(counters, now, key);
      if ttl < 0 { return None; }
      return Some(Hit(counters[key].hits, ttl));
    }

    method DecrementScript(key: Key) returns (totalHits: int)
      modifies this`counters
      ensures counters == AfterDecrement(old(counters), now, key)
      ensures totalHits == (if Live(old(counters), now, key) then old(counters[key].hits) else 0) - 1
    {
      counters := IncrBy(counters, now, key, -1);
      totalHits := counters[key].hits;
      if totalHits <= 0 { counters := counters - {key}; }
    }

    method ResetKey(key: Key)
      modifies this`counters
      ensures counters == old(counters) - {key}
    {
      counters := counters - {key};
    }
  }

  // ---------------------------------------------------------------------
  // Stored counters stay positive and expiring
  // ---------------------------------------------------------------------

  datatype Op = Increment(key: Key) | Get(key: Key) | Decrement(key: Key) | Reset(key: Key) | Wait(ms: nat)

  datatype World = World(counters: Counters, now: int)

  function Step(w: World, windowMs: int, op: Op): World {
    match op
    case Increment(key) => w.(counters := AfterIncrement(w.counters, w.now, key, windowMs))
    case Get(_) => w
    case Decrement(key) => w.(counters := AfterDecrement(w.counters, w.now, key))
    case Reset(key) => w.(counters := w.counters - {key})
    case Wait(ms) => w.(now := w.now + ms)
  }

  function Run(w: World, windowMs: int, ops: seq<Op>): World
    decreases |ops|
  {
    if ops == [] then w else Run(Step(w, windowMs, ops[0]), windowMs, ops[1..])
  }

  /** Every stored counter is at least 1 and expires within the window. */
  ghost predicate Bounded(w: World, windowMs: int) {
    forall key :: key in w.counters ==>
      && w.counters[key].hits >= 1
      && w.counters[key].expiresAt.Some?
      && w.counters[key].expiresAt.value <= w.now + windowMs
  }

  lemma StepBounded(w: World, windowMs: int, op: Op)
    requires windowMs > 0 && Bounded(w, windowMs)
    ensures Bounded(Step(w, windowMs, op), windowMs)
  {
  }

  lemma {:induction false} RunBounded(w: World, windowMs: int, ops: seq<Op>)
    requires windowMs > 0 && Bounded(w, windowMs)
    ensures Bounded(Run(w, windowMs, ops), windowMs)
    decreases |ops|
  {
    if ops != [] {
      StepBounded(w, windowMs, ops[0]);
      RunBounded(Step(w, windowMs, ops[0]), windowMs, ops[1..]);
    }
  }

  // ---------------------------------------------------------------------
  // What the scripts do to one counter
  // ---------------------------------------------------------------------

  /** A hit is added to the live counter, whose window it does not prolong, or begins a window of its own. */
  lemma IncrementCounts(cs: Counters, now: int, key: Key, windowMs: int)
    ensures var after := AfterIncrement(cs, now, key, windowMs);
            && key in after && after - {key} == cs - {key}
            && after[key].hits == (if Live(cs, now, key) then cs[key].hits else 0) + 1
            && (Live(cs, now, key) && cs[key].expiresAt.Some? ==> after[key].expiresAt == cs[key].expiresAt)
            && (!Live(cs, now, key) || cs[key].expiresAt.None? ==> after[key].expiresAt == Some(now + windowMs))
  {
  }

  /**
   * A hit is taken back from a live counter above 1, with its expiry unchanged; any other counter
   * is removed, and no other key is touched.
   */
  lemma DecrementTakesBack(cs: Counters, now: int, key: Key)
    ensures var after := AfterDecrement(cs, now, key);
            && after - {key} == cs - {key}
            && (key in after <==> Live(cs, now, key) && cs[key].hits > 1)
            && (key in after ==> after[key].hits == cs[key].hits - 1 && after[key].expiresAt == cs[key].expiresAt)
  {
  }

  /** A decrement undoes an increment at the same moment; where there was no live counter none is left. */
  lemma DecrementUndoesIncrement(cs: Counters, now: int, key: Key, windowMs: int)
    requires windowMs > 0
    ensures Live(cs, now, key) && cs[key].expiresAt.Some? && cs[key].hits >= 1 ==>
              AfterDecrement(AfterIncrement(cs, now, key, windowMs), now, key) == cs
    ensures !Live(cs, now, key) ==>
              AfterDecrement(AfterIncrement(cs, now, key, windowMs), now, key) == cs - {key}
  {
    var after := AfterDecrement(AfterIncrement(cs, now, key, windowMs), now, key);
    if Live(cs, now, key) {
      assert cs[key := cs[key]] == cs;
    } else {
      assert after == cs - {key};
    }
  }

  // ---------------------------------------------------------------------
  // How many requests pass
  // ---------------------------------------------------------------------

  /** One increment reply, with the start of the window it was counted in. */
  datatype Entry = Entry(time: int, start: int, totalHits: int)

  predicate OnlyIncrements(ops: seq<Op>) {
    forall i :: 0 <= i < |ops| ==> ops[i].Increment? || ops[i].Get? || ops[i].Wait?
  }

  function WindowStart(w: World, windowMs: int, key: Key): int
    requires key in w.counters && w.counters[key].expiresAt.Some?
  {
    w.counters[key].expiresAt.value - windowMs
  }

  /** The replies that increments of `key` get in a run, oldest first. */
  function Log(w: World, windowMs: int, ops: seq<Op>, key: Key): seq<Entry>
    decreases |ops|
  {
    if ops == [] then []
    else
      var next := Step(w, windowMs, ops[0]);
      (if ops[0] == Increment(key)
       then [Entry(w.now, WindowStart(next, windowMs, key), next.counters[key].hits)] else [])
      + Log(next, windowMs, ops[1..], key)
  }

  function Count(b: bool): nat {
    if b then 1 else 0
  }

  /** Replies within the limit in the window begun at `start`. */
  function InWindow(log: seq<Entry>, start: int, limit: int): nat {
    if log == [] then 0
    else Count(log[0].start == start && log[0].totalHits <= limit) + InWindow(log[1..], start, limit)
  }

  /** Replies within the limit in the half-open interval [from, from + windowMs). */
  function Passed(log: seq<Entry>, from: int, windowMs: int, limit: int): nat {
    if log == [] then 0
    else
      Count(from <= log[0].time < from + windowMs && log[0].totalHits <= limit)
      + Passed(log[1..], from, windowMs, limit)
  }

  /** Consistent with a counter of window `start` that has counted `hits` so far. */
  ghost predicate Continues(log: seq<Entry>, windowMs: int, now: int, start: int, hits: int)
    decreases |log|
  {
    log != [] ==>
      var e := log[0];
      && now <= e.time <= e.start + windowMs
      && (if e.start == start then e.totalHits == hits + 1
          else e.start == e.time > start + windowMs && e.totalHits == 1)
      && Continues(log[1..], windowMs, e.time, e.start, e.totalHits)
  }

  /** A counter that is not stored behaves like one whose window is long over. */
  function CurrentStart(w: World, windowMs: int, key: Key): int {
    if key in w.counters && w.counters[key].expiresAt.Some? then WindowStart(w, windowMs, key) else w.now - windowMs - 1
  }

  function CurrentHits(w: World, key: Key): int {
    if key in w.counters then w.counters[key].hits else 1
  }

  lemma {:induction false} ContinuesLater(log: seq<Entry>, windowMs: int, now: int, earlier: int, start: int, hits: int)
    requires Continues(log, windowMs, now, start, hits) && earlier <= now
    ensures Continues(log, windowMs, earlier, start, hits)
  {
  }

  lemma {:induction false} ContinuesAbsent(log: seq<Entry>, windowMs: int, now: int, s1: int, h1: int, s2: int, h2: int)
    requires Continues(log, windowMs, now, s1, h1)
    requires windowMs > 0 && s1 + windowMs < now && s2 <= s1
    ensures Continues(log, windowMs, now, s2, h2)
  {
  }

  lemma {:induction false} LogContinues(w: World, windowMs: int, ops: seq<Op>, key: Key)
    requires windowMs > 0 && Bounded(w, windowMs) && OnlyIncrements(ops)
    ensures Continues(Log(w, windowMs, ops, key), windowMs, w.now, CurrentStart(w, windowMs, key), CurrentHits(w, key))
    decreases |ops|
  {
    if ops != [] {
      var next := Step(w, windowMs, ops[0]);
      StepBounded(w, windowMs, ops[0]);
      LogContinues(next, windowMs, ops[1..], key);
      var log := Log(next, windowMs, ops[1..], key);
      if ops[0] == Increment(key) {
        assert Log(w, windowMs, ops, key)[1..] == log;
      } else {
        assert [] + log == log;
        var start, hits := CurrentStart(w, windowMs, key), CurrentHits(w, key);
        if key !in w.counters {
          ContinuesAbsent(log, windowMs, next.now, CurrentStart(next, windowMs, key), hits, start, hits);
        }
        ContinuesLater(log, windowMs, next.now, w.now, start, hits);
      }
    }
  }

  lemma {:induction false} PassedLater(log: seq<Entry>, windowMs: int, now: int, start: int, hits: int, from: int,
                                       limit: int)
    requires Continues(log, windowMs, now, start, hits) && from + windowMs <= now
    ensures Passed(log, from, windowMs, limit) == 0
  {
    if log != [] {
      PassedLater(log[1..], windowMs, log[0].time, log[0].start, log[0].totalHits, from, limit);
    }
  }

  /** A window that begins inside the interval is the last one the interval meets. */
  lemma {:induction false} PassedFromInside(log: seq<Entry>, windowMs: int, now: int, start: int, hits: int,
                                            from: int, limit: int)
    requires Continues(log, windowMs, now, start, hits) && from <= start
    ensures Passed(log, from, windowMs, limit) <= if hits < limit then limit - hits else 0
    decreases |log|
  {
    if log != [] {
      var e := log[0];
      if e.start == start {
        PassedFromInside(log[1..], windowMs, e.time, start, e.totalHits, from, limit);
      } else {
        PassedLater(log, windowMs, e.time, start, hits, from, limit);
      }
    }
  }

  /** A window that began earlier, once the interval has begun. */
  lemma {:induction false} PassedAcross(log: seq<Entry>, windowMs: int, now: int, start: int, hits: int, from: int,
                                        limit: nat)
    requires Continues(log, windowMs, now, start, hits) && start < from <= now
    ensures Passed(log, from, windowMs, limit) <= limit + if hits < limit then limit - hits else 0
    decreases |log|
  {
    if log != [] {
      var e := log[0];
      if e.start == start {
        PassedAcross(log[1..], windowMs, e.time, start, e.totalHits, from, limit);
      } else {
        PassedFromInside(log[1..], windowMs, e.time, e.start, 1, from, limit);
      }
    }
  }

  lemma {:induction false} PassedBefore(log: seq<Entry>, windowMs: int, now: int, start: int, hits: int, from: int,
                                        limit: nat)
    requires Continues(log, windowMs, now, start, hits) && start <= now < from && hits >= 1
    ensures Passed(log, from, windowMs, limit) <= if limit > 0 then 2 * limit - 1 else 0
    decreases |log|
  {
    if log != [] {
      var e := log[0];
      if e.time < from {
        PassedBefore(log[1..], windowMs, e.time, e.start, e.totalHits, from, limit);
      } else if e.start < from {
        PassedAcross(log[1..], windowMs, e.time, e.start, e.totalHits, from, limit);
      } else {
        PassedFromInside(log[1..], windowMs, e.time, e.start, 1, from, limit);
      }
    }
  }

  lemma {:induction false} InWindowBound(log: seq<Entry>, windowMs: int, now: int, start: int, hits: int, window: int,
                                         limit: nat)
    requires Continues(log, windowMs, now, start, hits) && windowMs > 0
    ensures window < start ==> InWindow(log, window, limit) == 0
    ensures window == start ==> InWindow(log, window, limit) <= if hits < limit then limit - hits else 0
    ensures InWindow(log, window, limit) <= limit || window == start
    decreases |log|
  {
    if log != [] {
      var e := log[0];
      InWindowBound(log[1..], windowMs, e.time, e.start, e.totalHits, window, limit);
    }
  }

  /** One window lets at most `limit` requests through, beginning with any stored state. */
  lemma WindowLimit(w: World, windowMs: int, ops: seq<Op>, key: Key, window: int, limit: nat)
    requires windowMs > 0 && Bounded(w, windowMs) && OnlyIncrements(ops)
    ensures InWindow(Log(w, windowMs, ops, key), window, limit) <= limit
  {
    LogContinues(w, windowMs, ops, key);
    InWindowBound(Log(w, windowMs, ops, key), windowMs, w.now, CurrentStart(w, windowMs, key), CurrentHits(w, key),
                  window, limit);
  }

  /**
   * With increments only, any interval of one window's length lets at most
   * 2 * limit - 1 requests through.
   */
  lemma IntervalLimit(w: World, windowMs: int, ops: seq<Op>, key: Key, from: int, limit: nat)
    requires windowMs > 0 && Bounded(w, windowMs) && OnlyIncrements(ops)
    ensures Passed(Log(w, windowMs, ops, key), from, windowMs, limit) <= if limit > 0 then 2 * limit - 1 else 0
  {
    var log, start, hits := Log(w, windowMs, ops, key), CurrentStart(w, windowMs, key), CurrentHits(w, key);
    LogContinues(w, windowMs, ops, key);
    if from <= start {
      PassedFromInside(log, windowMs, w.now, start, hits, from, limit);
    } else if from <= w.now {
      PassedAcross(log, windowMs, w.now, start, hits, from, limit);
    } else {
      PassedBefore(log, windowMs, w.now, start, hits, from, limit);
    }
  }

  function Burst(key: Key, n: nat): (ops: seq<Op>)
    ensures OnlyIncrements(ops)
  {
    if n == 0 then [] else [Increment(key)] + Burst(key, n - 1)
  }

  function Counted(w: World, key: Key, n: nat): World
    requires key in w.counters
  {
    w.(counters := w.counters[key := w.counters[key].(hits := w.counters[key].hits + n)])
  }

  /** The reply of a first increment comes in front of the others. */
  lemma FirstReply(w: World, windowMs: int, ops: seq<Op>, key: Key, from: int, limit: int)
    requires ops != [] && ops[0] == Increment(key)
    ensures var next := Step(w, windowMs, ops[0]);
            Passed(Log(w, windowMs, ops, key), from, windowMs, limit)
            == Count(from <= w.now < from + windowMs && next.counters[key].hits <= limit)
               + Passed(Log(next, windowMs, ops[1..], key), from, windowMs, limit)
  {
    var next := Step(w, windowMs, ops[0]);
    var e := Entry(w.now, WindowStart(next, windowMs, key), next.counters[key].hits);
    var tail := Log(next, windowMs, ops[1..], key);
    assert ([e] + tail)[1..] == tail;
  }

  /** A burst in a live window passes as long as the limit is not used up. */
  lemma {:induction false} BurstPasses(w: World, windowMs: int, key: Key, n: nat, rest: seq<Op>, from: int, limit: nat)
    requires Live(w.counters, w.now, key) && w.counters[key].expiresAt.Some?
    requires w.counters[key].hits + n <= limit && from <= w.now < from + windowMs
    ensures Passed(Log(w, windowMs, Burst(key, n) + rest, key), from, windowMs, limit)
            == n + Passed(Log(Counted(w, key, n), windowMs, rest, key), from, windowMs, limit)
    decreases n
  {
    hide Log, Passed;
    if n == 0 {
      assert Burst(key, 0) + rest == rest;
      assert Counted(w, key, 0) == w;
    } else {
      var ops, next := Burst(key, n) + rest, Step(w, windowMs, Increment(key));
      assert ops[0] == Increment(key) && ops[1..] == Burst(key, n - 1) + rest;
      FirstReply(w, windowMs, ops, key, from, limit);
      BurstPasses(next, windowMs, key, n - 1, rest, from, limit);
      assert Counted(next, key, n - 1) == Counted(w, key, n);
    }
  }

  /** One request, a pause, `limit - 1` more just before the window ends, `limit` just after. */
  function WorstCase(key: Key, windowMs: nat, limit: nat): seq<Op>
    requires limit > 0
  {
    [Increment(key), Wait(windowMs)]
        + (Burst(key, limit - 1) + ([Wait(1)] + ([Increment(key)] + Burst(key, limit - 1))))
  }

  lemma AfterWait(w: World, windowMs: int, ops: seq<Op>, key: Key)
    requires ops != [] && ops[0].Wait?
    ensures Log(w, windowMs, ops, key) == Log(w.(now := w.now + ops[0].ms), windowMs, ops[1..], key)
  {
    var tail := Log(w.(now := w.now + ops[0].ms), windowMs, ops[1..], key);
    assert [] + tail == tail;
  }

  /** The bound is reached for every limit and window. */
  lemma IntervalLimitTight(key: Key, windowMs: nat, limit: nat)
    requires windowMs >= 2 && limit > 0
    ensures Passed(Log(World(map[], 0), windowMs, WorstCase(key, windowMs, limit), key), windowMs, windowMs, limit)
            == 2 * limit - 1
  {
    hide Log, Passed, Burst;
    var burst := Burst(key, limit - 1);
    var late := [Wait(1)] + ([Increment(key)] + burst);
    var ops, start := WorstCase(key, windowMs, limit), World(map[], 0);
    assert ops[1..] == [Wait(windowMs)] + (burst + late) && ops[1..][1..] == burst + late;
    var w1 := World(map[key := Counter(1, Some(windowMs))], 0);
    var w2 := w1.(now := windowMs);
    assert Step(start, windowMs, ops[0]) == w1;
    FirstReply(start, windowMs, ops, key, windowMs, limit);
    AfterWait(w1, windowMs, ops[1..], key);
    BurstPasses(w2, windowMs, key, limit - 1, late, windowMs, limit);
    FreshWindow(Counted(w2, key, limit - 1), windowMs, key, limit);
  }

  /** After the window is over the full limit passes again. */
  lemma FreshWindow(w: World, windowMs: nat, key: Key, limit: nat)
    requires windowMs >= 2 && limit > 0 && w.now == windowMs
    requires key in w.counters && w.counters[key].expiresAt == Some(w.now)
    ensures Passed(Log(w, windowMs, [Wait(1)] + ([Increment(key)] + Burst(key, limit - 1)), key), windowMs, windowMs,
                   limit)
            == limit
  {
    hide Log, Passed, Burst;
    var burst := Burst(key, limit - 1);
    var last := [Increment(key)] + burst;
    assert ([Wait(1)] + last)[1..] == last && last[1..] == burst;
    AfterWait(w, windowMs, [Wait(1)] + last, key);
    var w3 := w.(now := windowMs + 1);
    var w4 := Step(w3, windowMs, Increment(key));
    FirstReply(w3, windowMs, last, key, windowMs, limit);
    assert burst + [] == burst;
    BurstPasses(w4, windowMs, key, limit - 1, [], windowMs, limit);
    NothingPasses(Counted(w4, key, limit - 1), windowMs, key, limit);
  }

  lemma NothingPasses(w: World, windowMs: int, key: Key, limit: int)
    ensures Passed(Log(w, windowMs, [], key), windowMs, windowMs, limit) == 0
  {
  }
}
