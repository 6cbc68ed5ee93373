/** The token bucket, the usage meter and the bandwidth throttle (`gw-core::quota`
    and `throttle` of `gw-server`), with `real` for `f64` and for seconds. */
module Quota {
  import opened Frames

  function Min(a: real, b: real): real { if a <= b then a else b }

  function Max(a: nat, b: nat): nat { if a >= b then a else b }

  /** The value of a bucket's fields. */
  datatype Bucket = Bucket(capacity: real, tokens: real, rate: real) {
    function Refill(elapsed: real): Bucket { this.(tokens := Min(tokens + elapsed * rate, capacity)) }

    predicate Affords(amount: nat) { tokens >= amount as real }

    function Consume(amount: nat): Bucket {
      if Affords(amount) then this.(tokens := tokens - amount as real) else this
    }

    /** Seconds until `amount`, capped at capacity, is available. */
    function TimeUntil(amount: nat): real
      requires rate > 0.0
    {
      var wanted := Min(amount as real, capacity);
      if tokens >= wanted then 0.0 else (wanted - tokens) / rate
    }

    ghost predicate Valid() { 0.0 <= tokens <= capacity && rate >= 1.0 && capacity >= 1.0 }
  }

  function NewBucket(ratePerSec: nat, burst: nat): Bucket {
    var capacity := Max(burst, 1) as real;
    Bucket(capacity, capacity, Max(ratePerSec, 1) as real)
  }

  // ------------------------------------------------------ the exact envelope

  /** What a bucket went through: time passed, or bytes were let through. */
  datatype Event = Elapsed(seconds: real) | Passed(amount: nat)

  /** The events a caller's attempts give rise to, from a full bucket. */
  datatype Attempt = Wait(seconds: real) | Try(amount: nat)

  function Level(b: Bucket, attempts: seq<Attempt>): Bucket {
    if attempts == [] then b
    else
      var before := Level(b, attempts[..|attempts| - 1]);
      match attempts[|attempts| - 1]
      case Wait(t) => before.Refill(t)
      case Try(n) => before.Consume(n)
  }

  /** What got through: refused attempts leave no event. */
  function History(b: Bucket, attempts: seq<Attempt>): seq<Event> {
    if attempts == [] then []
    else
      var front := attempts[..|attempts| - 1];
      match attempts[|attempts| - 1]
      case Wait(t) => History(b, front) + [Elapsed(t)]
      case Try(n) => History(b, front) + (if Level(b, front).Affords(n) then [Passed(n)] else [])
  }

  function Duration(events: seq<Event>): real {
    if events == [] then 0.0
    else Duration(events[..|events| - 1]) + (match events[|events| - 1] case Elapsed(t) => t case Passed(_) => 0.0)
  }

  function Volume(events: seq<Event>): nat {
    if events == [] then 0
    else Volume(events[..|events| - 1]) + (match events[|events| - 1] case Elapsed(_) => 0 case Passed(n) => n)
  }

  /** What the window starting at event `k` and ending now still allows. */
  function Room(b: Bucket, events: seq<Event>, k: nat): real
    requires k <= |events|
  {
    b.capacity + b.rate * Duration(events[k..]) - Volume(events[k..]) as real
  }

  ghost predicate Timely(attempts: seq<Attempt>) {
    forall i :: 0 <= i < |attempts| && attempts[i].Wait? ==> attempts[i].seconds >= 0.0
  }

  /** `tokens` is the least room over all windows ending now. */
  ghost predicate LeastRoom(b: Bucket, events: seq<Event>, tokens: real) {
    && (forall k :: 0 <= k <= |events| ==> tokens <= Room(b, events, k))
    && exists k :: 0 <= k <= |events| && tokens == Room(b, events, k)
  }

  lemma WindowMore(events: seq<Event>, e: Event, k: nat)
    requires k <= |events|
    ensures (events + [e])[k..] == events[k..] + [e]
  {
  }

  lemma TotalsMore(window: seq<Event>, e: Event)
    ensures Duration(window + [e]) == Duration(window) + (if e.Elapsed? then e.seconds else 0.0)
    ensures Volume(window + [e]) == Volume(window) + (if e.Passed? then e.amount else 0)
  {
    assert (window + [e])[..|window|] == window;
  }

  lemma RoomOneMore(b: Bucket, events: seq<Event>, e: Event, k: nat)
    requires k <= |events|
    ensures Room(b, events + [e], k)
         == Room(b, events, k) + (if e.Elapsed? then b.rate * e.seconds else -(e.amount as real))
  {
    WindowMore(events, e, k);
    var window := events[k..];
    TotalsMore(window, e);
    if e.Elapsed? { Distributes(b.rate, Duration(window), e.seconds); }
  }

  lemma RoomAtEnd(b: Bucket, events: seq<Event>)
    ensures Room(b, events, |events|) == b.capacity
  {
    assert events[|events|..] == [];
  }

  lemma Distributes(rate: real, s: real, t: real)
    ensures rate * (s + t) == rate * s + rate * t
  {
  }

  lemma LeastRoomOneMore(b: Bucket, events: seq<Event>, e: Event, tokens: real)
    requires LeastRoom(b, events, tokens) && b.rate >= 0.0 && tokens <= b.capacity
    requires e.Elapsed? ==> e.seconds >= 0.0
    ensures LeastRoom(b, events + [e],
              if e.Elapsed? then Min(tokens + e.seconds * b.rate, b.capacity) else tokens - e.amount as real)
  {
    var after := if e.Elapsed? then Min(tokens + e.seconds * b.rate, b.capacity) else tokens - e.amount as real;
    var more := events + [e];
    forall k | 0 <= k <= |more| ensures after <= Room(b, more, k) {
      if k <= |events| { RoomOneMore(b, events, e, k); } else { RoomAtEnd(b, more); }
    }
    var k :| 0 <= k <= |events| && tokens == Room(b, events, k);
    RoomOneMore(b, events, e, k);
    RoomAtEnd(b, more);
    assert after == Room(b, more, k) || after == Room(b, more, |more|);
  }

  ghost predicate Exact(b: Bucket, events: seq<Event>, now: Bucket) {
    now.Valid() && now == b.(tokens := now.tokens) && LeastRoom(b, events, now.tokens)
  }

  lemma RefillExact(b: Bucket, events: seq<Event>, now: Bucket, t: real)
    requires Exact(b, events, now) && t >= 0.0
    ensures Exact(b, events + [Elapsed(t)], now.Refill(t))
  {
    assert t * b.rate >= 0.0;
    LeastRoomOneMore(b, events, Elapsed(t), now.tokens);
  }

  lemma ConsumeExact(b: Bucket, events: seq<Event>, now: Bucket, n: nat)
    requires Exact(b, events, now) && now.Affords(n)
    ensures Exact(b, events + [Passed(n)], now.Consume(n))
  {
    LeastRoomOneMore(b, events, Passed(n), now.tokens);
  }

  /** A bucket that lived through the log. */
  function LevelOf(b: Bucket, log: seq<Event>): Bucket {
    if log == [] then b
    else
      var before := LevelOf(b, log[..|log| - 1]);
      match log[|log| - 1]
      case Elapsed(t) => before.Refill(t)
      case Passed(n) => before.Consume(n)
  }

  /** It could afford whatever passed. */
  ghost predicate Payable(b: Bucket, log: seq<Event>) {
    log == []
    || (&& Payable(b, log[..|log| - 1])
        && match log[|log| - 1]
           case Elapsed(t) => t >= 0.0
           case Passed(n) => LevelOf(b, log[..|log| - 1]).Affords(n))
  }

  lemma PayableMore(b: Bucket, log: seq<Event>, e: Event)
    requires Payable(b, log) && (if e.Elapsed? then e.seconds >= 0.0 else LevelOf(b, log).Affords(e.amount))
    ensures Payable(b, log + [e])
    ensures LevelOf(b, log + [e]) == if e.Elapsed? then LevelOf(b, log).Refill(e.seconds) else LevelOf(b, log).Consume(e.amount)
  {
    assert (log + [e])[..|log|] == log;
  }

  lemma {:induction false} PayableIsExact(rate: nat, burst: nat, log: seq<Event>)
    requires Payable(NewBucket(rate, burst), log)
    ensures Exact(NewBucket(rate, burst), log, LevelOf(NewBucket(rate, burst), log))
  {
    var b := NewBucket(rate, burst);
    if log == [] {
      assert Duration([]) == 0.0 && Room(b, [], 0) == b.capacity;
    } else {
      var front, e := log[..|log| - 1], log[|log| - 1];
      PayableIsExact(rate, burst, front);
      assert log == front + [e];
      if e.Elapsed? {
        RefillExact(b, front, LevelOf(b, front), e.seconds);
      } else {
        ConsumeExact(b, front, LevelOf(b, front), e.amount);
      }
    }
  }

  lemma {:induction false} HistoryIsPayable(b: Bucket, attempts: seq<Attempt>)
    requires Timely(attempts)
    ensures Payable(b, History(b, attempts)) && LevelOf(b, History(b, attempts)) == Level(b, attempts)
  {
    if attempts != [] {
      var front, a := attempts[..|attempts| - 1], attempts[|attempts| - 1];
      HistoryIsPayable(b, front);
      if a.Wait? {
        PayableMore(b, History(b, front), Elapsed(a.seconds));
      } else if Level(b, front).Affords(a.amount) {
        PayableMore(b, History(b, front), Passed(a.amount));
      } else {
        assert History(b, attempts) == History(b, front);
      }
    }
  }

  /** Over any run of waits and attempts on a full bucket, the tokens left are
      exactly the least room over all windows ending now. */
  lemma TokensAreLeastRoom(rate: nat, burst: nat, attempts: seq<Attempt>)
    requires Timely(attempts)
    ensures var b := NewBucket(rate, burst);
            Exact(b, History(b, attempts), Level(b, attempts))
  {
    HistoryIsPayable(NewBucket(rate, burst), attempts);
    PayableIsExact(rate, burst, History(NewBucket(rate, burst), attempts));
  }

  /** What comes in during `seconds`. */
  function Earned(rate: nat, seconds: real): real { Max(rate, 1) as real * seconds }

  /** The most that may pass in `seconds`. */
  function Envelope(rate: nat, burst: nat, seconds: real): real { Max(burst, 1) as real + Earned(rate, seconds) }

  /** The last `|events| - k` events, and then `amount`, stay within the envelope. */
  predicate Within(rate: nat, burst: nat, events: seq<Event>, k: nat, amount: nat)
    requires k <= |events|
  {
    (Volume(events[k..]) + amount) as real <= Envelope(rate, burst, Duration(events[k..]))
  }

  lemma WithinIsRoom(rate: nat, burst: nat, events: seq<Event>, k: nat, amount: nat)
    requires k <= |events|
    ensures Within(rate, burst, events, k, amount) <==> amount as real <= Room(NewBucket(rate, burst), events, k)
  {
  }

  /** Every window ending now has room for `amount`. */
  ghost predicate EveryWindow(rate: nat, burst: nat, events: seq<Event>, amount: nat) {
    forall k :: 0 <= k <= |events| ==> Within(rate, burst, events, k, amount)
  }

  lemma AllWithin(rate: nat, burst: nat, events: seq<Event>, tokens: real, amount: nat)
    requires LeastRoom(NewBucket(rate, burst), events, tokens) && tokens >= amount as real
    ensures EveryWindow(rate, burst, events, amount)
  {
    forall k | 0 <= k <= |events| ensures Within(rate, burst, events, k, amount) {
      assert tokens <= Room(NewBucket(rate, burst), events, k);
      WithinIsRoom(rate, burst, events, k, amount);
    }
  }

  lemma SomeExceeded(rate: nat, burst: nat, events: seq<Event>, tokens: real, amount: nat)
    requires LeastRoom(NewBucket(rate, burst), events, tokens) && tokens < amount as real
    ensures !EveryWindow(rate, burst, events, amount)
  {
    var k :| 0 <= k <= |events| && tokens == Room(NewBucket(rate, burst), events, k);
    WithinIsRoom(rate, burst, events, k, amount);
  }

  /** `try_consume` succeeds exactly when, with this take included, every window
      ending at it stays within `burst + rate * elapsed`. */
  lemma LimiterIsExact(rate: nat, burst: nat, attempts: seq<Attempt>, amount: nat)
    requires Timely(attempts)
    ensures var b := NewBucket(rate, burst);
            Level(b, attempts).Affords(amount) <==> EveryWindow(rate, burst, History(b, attempts), amount)
  {
    TokensAreLeastRoom(rate, burst, attempts);
    var past := History(NewBucket(rate, burst), attempts);
    var now := Level(NewBucket(rate, burst), attempts);
    if now.Affords(amount) {
      AllWithin(rate, burst, past, now.tokens, amount);
    } else {
      SomeExceeded(rate, burst, past, now.tokens, amount);
    }
  }

  // ------------------------------------------------------- logs as they are

  lemma {:induction false} PayablePrefix(b: Bucket, log: seq<Event>, k: nat)
    requires Payable(b, log) && k <= |log|
    ensures Payable(b, log[..k])
  {
    if k < |log| {
      PayablePrefix(b, log[..|log| - 1], k);
      assert log[..|log| - 1][..k] == log[..k];
    } else {
      assert log[..k] == log;
    }
  }

  /** What passed in a window of the log is within the envelope. */
  ghost predicate WindowWithin(rate: nat, burst: nat, log: seq<Event>, j: nat, k: nat)
    requires j <= k <= |log|
  {
    Volume(log[j..k]) as real <= Envelope(rate, burst, Duration(log[j..k]))
  }

  lemma PayableWindow(rate: nat, burst: nat, log: seq<Event>, j: nat, k: nat)
    requires Payable(NewBucket(rate, burst), log) && j <= k <= |log|
    ensures WindowWithin(rate, burst, log, j, k)
  {
    PayablePrefix(NewBucket(rate, burst), log, k);
    PayableIsExact(rate, burst, log[..k]);
    AllWithin(rate, burst, log[..k], LevelOf(NewBucket(rate, burst), log[..k]).tokens, 0);
    assert Within(rate, burst, log[..k], j, 0);
    assert log[..k][j..] == log[j..k];
  }

  /** What passed, in order. */
  function Passings(log: seq<Event>): seq<nat> {
    if log == [] then []
    else
      Passings(log[..|log| - 1])
      + (match log[|log| - 1] case Elapsed(_) => [] case Passed(n) => [n])
  }

  lemma PassingsMore(log: seq<Event>, e: Event)
    ensures Passings(log + [e]) == Passings(log) + (if e.Passed? then [e.amount] else [])
  {
    assert (log + [e])[..|log|] == log;
  }

  function Sum(s: seq<nat>): nat {
    if s == [] then 0 else Sum(s[..|s| - 1]) + s[|s| - 1]
  }

  lemma SumMore(s: seq<nat>, n: nat)
    ensures Sum(s + [n]) == Sum(s) + n
  {
    assert (s + [n])[..|s|] == s;
  }

  lemma {:induction false} PassingsSum(log: seq<Event>)
    ensures Volume(log) == Sum(Passings(log))
  {
    if log != [] {
      var front, e := log[..|log| - 1], log[|log| - 1];
      PassingsSum(front);
      if e.Passed? { SumMore(Passings(front), e.amount); } else { assert Passings(front) + [] == Passings(front); }
    }
  }

  /** What passed in no window is more than the envelope allows. */
  ghost predicate EveryWindowWithin(rate: nat, burst: nat, log: seq<Event>) {
    forall j, k :: 0 <= j <= k <= |log| ==> WindowWithin(rate, burst, log, j, k)
  }

  lemma PayableEverywhere(rate: nat, burst: nat, log: seq<Event>)
    requires Payable(NewBucket(rate, burst), log)
    ensures EveryWindowWithin(rate, burst, log)
    ensures Sum(Passings(log)) as real <= Envelope(rate, burst, Duration(log))
  {
    PayableWindow(rate, burst, log, 0, |log|);
    assert log[0..|log|] == log;
    PassingsSum(log);
    forall j, k | 0 <= j <= k <= |log| ensures WindowWithin(rate, burst, log, j, k) { PayableWindow(rate, burst, log, j, k); }
  }

  ghost predicate Forward(log: seq<Event>) {
    forall i :: 0 <= i < |log| && log[i].Elapsed? ==> log[i].seconds >= 0.0
  }

  /** A full bucket could pay for a log exactly if no window of it exceeds the burst plus
      the rate times its length. */
  lemma {:induction false} PayableIff(rate: nat, burst: nat, log: seq<Event>)
    requires Forward(log)
    ensures Payable(NewBucket(rate, burst), log) <==> EveryWindowWithin(rate, burst, log)
  {
    if Payable(NewBucket(rate, burst), log) {
      PayableEverywhere(rate, burst, log);
    } else {
      var front, e := log[..|log| - 1], log[|log| - 1];
      if EveryWindowWithin(rate, burst, log) {
        FrontWithin(rate, burst, log);
        PayableIff(rate, burst, front);
        assert log == front + [e];
        if e.Passed? { LastIsAffordable(rate, burst, front, e); }
      }
    }
  }

  lemma FrontWithin(rate: nat, burst: nat, log: seq<Event>)
    requires log != [] && EveryWindowWithin(rate, burst, log)
    ensures EveryWindowWithin(rate, burst, log[..|log| - 1])
  {
    var front := log[..|log| - 1];
    forall j, k | 0 <= j <= k <= |front| ensures WindowWithin(rate, burst, front, j, k) {
      assert WindowWithin(rate, burst, log, j, k) && front[j..k] == log[j..k];
    }
  }

  lemma LastIsAffordable(rate: nat, burst: nat, front: seq<Event>, e: Event)
    requires Payable(NewBucket(rate, burst), front) && EveryWindowWithin(rate, burst, front + [e]) && e.Passed?
    ensures LevelOf(NewBucket(rate, burst), front).Affords(e.amount)
  {
    var log, now := front + [e], LevelOf(NewBucket(rate, burst), front);
    PayableIsExact(rate, burst, front);
    if !now.Affords(e.amount) {
      SomeExceeded(rate, burst, front, now.tokens, e.amount);
      var k: nat :| k <= |front| && !Within(rate, burst, front, k, e.amount);
      assert WindowWithin(rate, burst, log, k, |log|);
      assert log[k..|log|] == front[k..] + [e];
      TotalsMore(front[k..], e);
      assert false;
    }
  }

  // ------------------------------------------------ the limit is used up

  /** How long nothing had passed before event `k`. */
  function Waited(log: seq<Event>, k: nat): real
    requires k <= |log|
  {
    if k == 0 || log[k - 1].Passed? then 0.0 else Waited(log, k - 1) + log[k - 1].seconds
  }

  /** The window from event `j` to event `k` is full but for what comes in during `slack`
      seconds. */
  ghost predicate Brimful(rate: nat, burst: nat, slack: real, log: seq<Event>, j: nat, k: nat)
    requires j <= k < |log|
  {
    var window := log[j..k + 1];
    Envelope(rate, burst, Duration(window) - slack) <= Volume(window) as real <= Envelope(rate, burst, Duration(window))
  }

  /** What passed at `k` was held back for no more than `slack` seconds, or some window
      ending with it is full but for that slack. */
  ghost predicate Prompt(rate: nat, burst: nat, slack: real, log: seq<Event>, k: nat)
    requires k < |log|
  {
    log[k].Passed? && Waited(log, k) > slack ==> exists j :: 0 <= j <= k && Brimful(rate, burst, slack, log, j, k)
  }

  ghost predicate AllPrompt(rate: nat, burst: nat, slack: real, log: seq<Event>) {
    forall k :: 0 <= k < |log| ==> Prompt(rate, burst, slack, log, k)
  }

  lemma {:induction false} WaitedSame(log: seq<Event>, e: Event, k: nat)
    requires k <= |log|
    ensures Waited(log + [e], k) == Waited(log, k)
  {
    if k > 0 { WaitedSame(log, e, k - 1); }
  }

  lemma WaitedMore(log: seq<Event>, e: Event)
    ensures Waited(log + [e], |log| + 1) == if e.Passed? then 0.0 else Waited(log, |log|) + e.seconds
  {
    WaitedSame(log, e, |log|);
  }

  lemma PromptStays(rate: nat, burst: nat, slack: real, log: seq<Event>, e: Event, k: nat)
    requires k < |log| && Prompt(rate, burst, slack, log, k)
    ensures Prompt(rate, burst, slack, log + [e], k)
  {
    var more := log + [e];
    WaitedSame(log, e, k);
    if log[k].Passed? && Waited(log, k) > slack {
      var j :| 0 <= j <= k && Brimful(rate, burst, slack, log, j, k);
      assert more[j..k + 1] == log[j..k + 1];
      assert Brimful(rate, burst, slack, more, j, k);
    }
  }

  lemma AllPromptMore(rate: nat, burst: nat, slack: real, log: seq<Event>, e: Event)
    requires AllPrompt(rate, burst, slack, log) && Prompt(rate, burst, slack, log + [e], |log|)
    ensures AllPrompt(rate, burst, slack, log + [e])
  {
    forall k | 0 <= k < |log + [e]| ensures Prompt(rate, burst, slack, log + [e], k) {
      if k < |log| { PromptStays(rate, burst, slack, log, e, k); }
    }
  }

  lemma LeastRoomWindow(rate: nat, burst: nat, log: seq<Event>, left: real) returns (j: nat)
    requires Payable(NewBucket(rate, burst), log) && LevelOf(NewBucket(rate, burst), log).tokens == left
    ensures j <= |log| && Room(NewBucket(rate, burst), log, j) == left >= 0.0
  {
    PayableIsExact(rate, burst, log);
    j :| 0 <= j <= |log| && left == Room(NewBucket(rate, burst), log, j);
  }

  /** If what is left after a passing came in during the slack, a window is that full. */
  lemma LittleLeftIsPrompt(rate: nat, burst: nat, slack: real, log: seq<Event>, n: nat, left: real)
    requires Payable(NewBucket(rate, burst), log + [Passed(n)]) && n > 0
    requires LevelOf(NewBucket(rate, burst), log + [Passed(n)]).tokens == left <= Earned(rate, slack)
    ensures Prompt(rate, burst, slack, log + [Passed(n)], |log|)
  {
    var more := log + [Passed(n)];
    var j := LeastRoomWindow(rate, burst, more, left);
    LeftBelowCapacity(rate, burst, log, n);
    RoomAtEnd(NewBucket(rate, burst), more);
    RoomIsSlack(rate, burst, slack, more, j, left);
  }

  lemma LeftBelowCapacity(rate: nat, burst: nat, log: seq<Event>, n: nat)
    requires Payable(NewBucket(rate, burst), log + [Passed(n)]) && n > 0
    ensures LevelOf(NewBucket(rate, burst), log + [Passed(n)]).tokens < NewBucket(rate, burst).capacity
  {
    assert (log + [Passed(n)])[..|log|] == log;
    PayableIsExact(rate, burst, log);
  }

  lemma RoomIsSlack(rate: nat, burst: nat, slack: real, log: seq<Event>, j: nat, room: real)
    requires j < |log| && room == Room(NewBucket(rate, burst), log, j)
    requires 0.0 <= room <= Earned(rate, slack)
    ensures Brimful(rate, burst, slack, log, j, |log| - 1)
  {
    assert log[j..|log|] == log[j..];
    LessSlack(rate, Duration(log[j..]), slack);
  }

  lemma Scales(s: real, t: real, rate: real)
    requires s <= t && rate >= 0.0
    ensures s * rate <= t * rate
  {
    assert (t - s) * rate >= 0.0;
  }

  lemma LessCameIn(left: Bucket, late: real, slack: real, rate: nat)
    requires CameIn(left, late) && late <= slack && left.rate == Max(rate, 1) as real
    ensures left.tokens <= Earned(rate, slack)
  {
    Scales(late, slack, left.rate);
  }

  lemma LessSlack(rate: nat, seconds: real, slack: real)
    ensures Earned(rate, seconds - slack) == Earned(rate, seconds) - Earned(rate, slack)
  {
    var r := Max(rate, 1) as real;
    assert r * (seconds - slack) == r * seconds - r * slack;
  }

  /** Refilling in two goes is refilling once. */
  lemma RefillSplits(b: Bucket, s: real, t: real)
    requires b.tokens <= b.capacity && b.rate >= 0.0 && s >= 0.0 && t >= 0.0
    ensures b.Refill(s).Refill(t) == b.Refill(s + t)
  {
    assert (s + t) * b.rate == s * b.rate + t * b.rate && t * b.rate >= 0.0;
  }

  lemma PauseIsTime(b: Bucket, amount: nat)
    requires b.Valid()
    ensures b.TimeUntil(amount) >= 0.0
  {
  }

  /** `time_until` is exactly how long it takes: waiting that long, or longer, brings the
      amount, capped at capacity, and nothing shorter does. */
  lemma TimeUntilIff(b: Bucket, amount: nat, t: real)
    requires b.Valid() && t >= 0.0
    ensures t >= b.TimeUntil(amount) <==> b.Refill(t).tokens >= Min(amount as real, b.capacity)
  {
    var wanted, u := Min(amount as real, b.capacity), b.TimeUntil(amount);
    if b.tokens >= wanted {
      assert t * b.rate >= 0.0;
    } else {
      MoreTime(t, wanted - b.tokens, b.rate);
    }
  }

  lemma MoreTime(t: real, missing: real, rate: real)
    requires rate > 0.0
    ensures t >= missing / rate <==> t * rate >= missing
  {
    var u := missing / rate;
    assert u * rate == missing;
    assert (t - u) * rate == t * rate - u * rate;
  }

  // --------------------------------------------------------------- objects

  class TokenBucket {
    var capacity: real
    var tokens: real
    var rate: real

    function Value(): Bucket
      reads this
    {
      Bucket(capacity, tokens, rate)
    }

    constructor (ratePerSec: nat, burst: nat)
      ensures Value() == NewBucket(ratePerSec, burst) && Value().Valid()
      ensures tokens == capacity == (if burst > 1 then burst else 1) as real
      ensures rate == (if ratePerSec > 1 then ratePerSec else 1) as real
    {
      capacity := Max(burst, 1) as real;
      tokens := Max(burst, 1) as real;
      rate := Max(ratePerSec, 1) as real;
    }

    method Refill(elapsed: real)
      modifies this
      ensures Value() == old(Value()).Refill(elapsed)
    {
      var filled := tokens + elapsed * rate;
      tokens := if filled <= capacity then filled else capacity;
    }

    method TryConsume(amount: nat) returns (ok: bool)
      modifies this
      ensures ok == old(Value()).Affords(amount) && Value() == old(Value()).Consume(amount)
    {
      ok := tokens >= amount as real;
      if ok {
        tokens := tokens - amount as real;
      }
    }

    method TimeUntil(amount: nat) returns (t: real)
      requires rate > 0.0
      ensures t == Value().TimeUntil(amount) && t >= 0.0
      ensures Value().Valid() ==>
                forall u: real :: u >= 0.0 ==> (u >= t <==> Value().Refill(u).tokens >= Min(amount as real, capacity))
    {
      if Value().Valid() {
        forall u: real | u >= 0.0
          ensures u >= Value().TimeUntil(amount) <==> Value().Refill(u).tokens >= Min(amount as real, capacity)
        {
          TimeUntilIff(Value(), amount, u);
        }
      }
      var wanted := if amount as real <= capacity then amount as real else capacity;
      if tokens >= wanted {
        return 0.0;
      }
      return (wanted - tokens) / rate;
    }
  }

  /** Byte counters of one connection. */
  class UsageMeter {
    var bytesIn: nat
    var bytesOut: nat

    constructor ()
      ensures bytesIn == bytesOut == 0
    {
      bytesIn, bytesOut := 0, 0;
    }

    method AddIn(n: nat)
      modifies this
      ensures bytesIn == old(bytesIn) + n && bytesOut == old(bytesOut)
    {
      bytesIn := bytesIn + n;
    }

    /** The clock's log shows when. */
    method AddOut(n: nat, ghost clock: Clock)
      modifies this, clock`log
      ensures bytesOut == old(bytesOut) + n && bytesIn == old(bytesIn)
      ensures clock.log == old(clock.log) + [Passed(n)]
    {
      bytesOut := bytesOut + n;
      clock.log := clock.log + [Passed(n)];
    }
  }

  /** A monotone clock. Its `i`-th reading comes `late(i)` seconds after the
      previous reading or the end of the sleep since; a sleep takes at least what
      was asked. `log` is the time that passed on it, and the bytes metered meanwhile. */
  class Clock {
    var now: real
    var readings: nat
    const late: nat -> real
    ghost var log: seq<Event>

    ghost predicate Valid() { forall i: nat :: late(i) >= 0.0 }

    constructor (start: real, late: nat -> real)
      ensures now == start && this.late == late && readings == 0 && log == []
    {
      now, readings := start, 0;
      this.late := late;
      log := [];
    }

    method Now() returns (t: real)
      modifies this
      ensures t == now == old(now) + late(old(readings)) && readings == old(readings) + 1
      ensures log == old(log) + [Elapsed(now - old(now))]
    {
      log := log + [Elapsed(late(readings))];
      now, readings := now + late(readings), readings + 1;
      t := now;
    }

    method Sleep(seconds: real)
      modifies this
      ensures now == old(now) + seconds && readings == old(readings)
      ensures log == old(log) + [Elapsed(now - old(now))]
    {
      log := log + [Elapsed(seconds)];
      now := now + seconds;
    }
  }

  // ------------------------------------------------------- what a log shows

  /** Between these two logs only time passed, `t` seconds of it. */
  ghost predicate Idle(before: seq<Event>, after: seq<Event>, t: real)
    decreases |after|
  {
    (before == after && t == 0.0)
    || (&& |after| > |before| && after[|after| - 1].Elapsed? && after[|after| - 1].seconds >= 0.0
        && Idle(before, after[..|after| - 1], t - after[|after| - 1].seconds))
  }

  lemma IdleMore(before: seq<Event>, after: seq<Event>, t: real, more: real)
    requires Idle(before, after, t) && |before| <= |after| && more >= 0.0
    ensures Idle(before, after + [Elapsed(more)], t + more)
  {
    assert (after + [Elapsed(more)])[..|after|] == after;
  }

  // -------------------------------------------------------------- throttle

  /** The bucket before the consume of round `i` of `throttle`, whose clock readings
      come `late(0), late(1), ...` after the previous reading or sleep. */
  function Round(b: Bucket, amount: nat, late: nat -> real, i: nat): Bucket
    requires b.rate > 0.0
    ensures Round(b, amount, late, i).rate == b.rate && Round(b, amount, late, i).capacity == b.capacity
  {
    if i == 0 then b.Refill(late(0))
    else
      var before := Round(b, amount, late, i - 1);
      before.Refill(before.TimeUntil(amount) + late(i))
  }

  lemma WaitSuffices(b: Bucket, amount: nat, extra: real)
    requires b.Valid() && amount as real <= b.capacity && extra >= 0.0
    ensures b.Refill(b.TimeUntil(amount) + extra).Affords(amount)
  {
    PauseIsTime(b, amount);
    TimeUntilIff(b, amount, b.TimeUntil(amount) + extra);
  }

  /** The consume of round `i` succeeds. */
  predicate Granted(b: Bucket, amount: nat, late: nat -> real, i: nat)
    requires b.rate > 0.0
  {
    Round(b, amount, late, i).Affords(amount)
  }

  /** `throttle` returns exactly when the amount fits the burst, and then after at
      most one sleep; a larger amount is refused in every round. */
  lemma ThrottleReturnsIff(b: Bucket, amount: nat, late: nat -> real)
    requires b.Valid() && forall i: nat :: late(i) >= 0.0
    ensures (exists i: nat :: Granted(b, amount, late, i)) <==> amount as real <= b.capacity
    ensures amount as real <= b.capacity ==> Granted(b, amount, late, 0) || Granted(b, amount, late, 1)
  {
    if amount as real <= b.capacity {
      var first := Round(b, amount, late, 0);
      assert late(0) * b.rate >= 0.0;
      WaitSuffices(first, amount, late(1));
      assert Granted(b, amount, late, 1);
    } else {
      forall i: nat ensures !Granted(b, amount, late, i) { RoundCapped(b, amount, late, i); }
    }
  }

  lemma RoundCapped(b: Bucket, amount: nat, late: nat -> real, i: nat)
    requires b.rate > 0.0
    ensures Round(b, amount, late, i).tokens <= b.capacity
  {
  }

  /** The readings of one `throttle` call: the first comes `sinceLast` and a delay
      after the last refill, the next ones a delay after the sleep before them. */
  function Gaps(sinceLast: real, late: nat -> real, readings: nat): nat -> real {
    (i: nat) => if i == 0 then sinceLast + late(readings) else late(readings + i)
  }

  /** How long after the last refill before the call round `i` takes its reading. */
  function RoundTime(b: Bucket, amount: nat, late: nat -> real, i: nat): real
    requires b.rate > 0.0
  {
    if i == 0 then late(0)
    else RoundTime(b, amount, late, i - 1) + Round(b, amount, late, i - 1).TimeUntil(amount) + late(i)
  }

  lemma RefillKeepsValid(b: Bucket, elapsed: real)
    requires b.Valid() && elapsed >= 0.0
    ensures b.Refill(elapsed).Valid()
  {
    assert elapsed * b.rate >= 0.0;
  }

  /** Refilling round by round is refilling once for the whole time. */
  lemma {:induction false} RoundIsRefill(b: Bucket, amount: nat, late: nat -> real, i: nat)
    requires b.Valid() && forall k: nat :: late(k) >= 0.0
    ensures RoundTime(b, amount, late, i) >= late(i) && Round(b, amount, late, i).Valid()
    ensures Round(b, amount, late, i) == b.Refill(RoundTime(b, amount, late, i))
  {
    if i > 0 {
      RoundIsRefill(b, amount, late, i - 1);
      var before := Round(b, amount, late, i - 1);
      PauseIsTime(before, amount);
      RefillSplits(b, RoundTime(b, amount, late, i - 1), before.TimeUntil(amount) + late(i));
    }
    RefillKeepsValid(b, RoundTime(b, amount, late, i));
  }

  /** The bucket before round `i`. */
  function Before(b: Bucket, amount: nat, late: nat -> real, i: nat): Bucket
    requires b.rate > 0.0
  {
    if i == 0 then b else Round(b, amount, late, i - 1)
  }

  /** And how long after the last refill before the call that was. */
  function TimeBefore(b: Bucket, amount: nat, late: nat -> real, i: nat): real
    requires b.rate > 0.0
  {
    if i == 0 then 0.0 else RoundTime(b, amount, late, i - 1)
  }

  method ReadClock(clock: Clock, ghost log: seq<Event>, ghost since: real) returns (t: real)
    requires Idle(log, clock.log, clock.now - since) && |log| <= |clock.log| && clock.Valid()
    modifies clock
    ensures Idle(log, clock.log, clock.now - since) && |log| <= |clock.log|
    ensures t == clock.now == old(clock.now) + clock.late(old(clock.readings)) && clock.readings == old(clock.readings) + 1
  {
    t := clock.Now();
    IdleMore(log, old(clock.log), old(clock.now) - since, t - old(clock.now));
  }

  method Pause(clock: Clock, seconds: real, ghost log: seq<Event>, ghost since: real)
    requires Idle(log, clock.log, clock.now - since) && |log| <= |clock.log| && seconds >= 0.0
    modifies clock
    ensures Idle(log, clock.log, clock.now - since) && |log| <= |clock.log|
    ensures clock.now == old(clock.now) + seconds && clock.readings == old(clock.readings)
  {
    IdleMore(log, clock.log, clock.now - since, seconds);
    clock.Sleep(seconds);
  }

  /** One round: read the clock, refill, try, and sleep if refused. */
  method ThrottleRound(bucket: TokenBucket, last: real, clock: Clock, amount: nat,
                       ghost start: Bucket, ghost gaps: nat -> real, ghost i: nat, ghost base: real,
                       ghost log: seq<Event>, ghost since: real)
    returns (through: bool, seen: real)
    requires start.Valid() && bucket.Value() == Before(start, amount, gaps, i) && clock.Valid()
    requires gaps(i) == clock.now + clock.late(clock.readings) - last
                        - (if i == 0 then 0.0 else Before(start, amount, gaps, i).TimeUntil(amount))
    requires (forall k: nat :: gaps(k) >= 0.0) && last - base == TimeBefore(start, amount, gaps, i)
    requires Idle(log, clock.log, clock.now - since) && |log| <= |clock.log|
    modifies bucket, clock
    ensures through == Granted(start, amount, gaps, i)
    ensures bucket.Value() == Round(start, amount, gaps, i).Consume(amount)
    ensures !through ==> bucket.Value() == Round(start, amount, gaps, i)
    ensures seen == old(clock.now) + clock.late(old(clock.readings)) && clock.readings == old(clock.readings) + 1
    ensures seen - base == RoundTime(start, amount, gaps, i)
    ensures clock.now == seen + if through then 0.0 else Round(start, amount, gaps, i).TimeUntil(amount)
    ensures old(clock.now) <= seen <= clock.now && (through ==> clock.now == seen)
    ensures Idle(log, clock.log, clock.now - since) && |log| <= |clock.log|
  {
    assert Round(start, amount, gaps, i).Valid() by { RoundIsRefill(start, amount, gaps, i); }
    PauseIsTime(Round(start, amount, gaps, i), amount);
    seen := ReadClock(clock, log, since);
    bucket.Refill(seen - last);
    assert bucket.Value() == Round(start, amount, gaps, i);
    through := bucket.TryConsume(amount);
    if !through {
      var pause := bucket.TimeUntil(amount);
      Pause(clock, pause, log, since);
    }
  }

  lemma RefillGrows(b: Bucket, s: real, t: real)
    requires b.rate >= 0.0 && s <= t
    ensures b.Refill(s).tokens <= b.Refill(t).tokens
  {
    Scales(s, t, b.rate);
  }

  /** Refused in the first round, the amount is not there before the sleep has run out. */
  lemma NoSooner(b: Bucket, amount: nat, late: nat -> real, t: real)
    requires b.Valid() && (forall k: nat :: late(k) >= 0.0) && amount as real <= b.capacity
    requires !Granted(b, amount, late, 0) && 0.0 <= t < RoundTime(b, amount, late, 1) - late(1)
    ensures !b.Refill(t).Affords(amount)
  {
    var first := b.Refill(late(0));
    RefillKeepsValid(b, late(0));
    if t <= late(0) {
      RefillGrows(b, t, late(0));
    } else {
      RefillSplits(b, late(0), t - late(0));
      TimeUntilIff(first, amount, t - late(0));
    }
  }

  /** And what is left once it is paid came in while the second reading was late. */
  lemma LittleLeft(b: Bucket, amount: nat, late: nat -> real)
    requires b.Valid() && (forall k: nat :: late(k) >= 0.0) && amount as real <= b.capacity
    requires !Granted(b, amount, late, 0)
    ensures Round(b, amount, late, 1).Consume(amount).tokens <= late(1) * b.rate
  {
    var first := b.Refill(late(0));
    var u := first.TimeUntil(amount);
    assert u * b.rate == amount as real - first.tokens;
    assert (u + late(1)) * b.rate == u * b.rate + late(1) * b.rate;
    RefillKeepsValid(b, late(0));
    WaitSuffices(first, amount, late(1));
  }

  /** The amount was not there at any time before `seconds` after the last refill. */
  ghost predicate NotBefore(b: Bucket, amount: nat, seconds: real) {
    forall t :: 0.0 <= t < seconds ==> !b.Refill(t).Affords(amount)
  }

  /** What is left came in during `late` seconds. */
  predicate CameIn(left: Bucket, late: real) { left.tokens <= late * left.rate }

  lemma PaidInTime(b: Bucket, amount: nat, late: nat -> real)
    requires b.Valid() && (forall k: nat :: late(k) >= 0.0) && amount as real <= b.capacity
    requires !Granted(b, amount, late, 0)
    ensures amount > 0 && NotBefore(b, amount, RoundTime(b, amount, late, 1) - late(1))
    ensures CameIn(Round(b, amount, late, 1).Consume(amount), late(1))
  {
    forall t | 0.0 <= t < RoundTime(b, amount, late, 1) - late(1) ensures !b.Refill(t).Affords(amount) {
      NoSooner(b, amount, late, t);
    }
    RefillKeepsValid(b, late(0));
    LittleLeft(b, amount, late);
  }

  lemma AfterRound(start: Bucket, amount: nat, gaps: nat -> real, i: nat, elapsed: real)
    requires start.Valid() && (forall k: nat :: gaps(k) >= 0.0) && elapsed == RoundTime(start, amount, gaps, i)
    requires forall k: nat :: k < i ==> !Granted(start, amount, gaps, k)
    ensures Round(start, amount, gaps, i) == start.Refill(elapsed)
    ensures start.Refill(elapsed).Valid() && start.Refill(elapsed).Consume(amount).Valid()
    ensures Granted(start, amount, gaps, i) ==> i < 2 && amount as real <= start.capacity
    ensures amount as real <= start.capacity && i > 0 ==> Granted(start, amount, gaps, i)
  {
    RoundIsRefill(start, amount, gaps, i);
    ThrottleReturnsIff(start, amount, gaps);
  }

  /** The loop of `throttle`, watched for at most `patience` rounds. */
  method ThrottleLoop(bucket: TokenBucket, last: real, clock: Clock, amount: nat, patience: nat)
    returns (through: bool, seen: real, ghost rounds: nat)
    requires bucket.Value().Valid() && clock.Valid() && last <= clock.now && patience > 0
    modifies bucket, clock
    ensures last <= seen <= clock.now && old(clock.now) <= seen && (through ==> clock.now == seen)
    ensures Idle(old(clock.log), clock.log, clock.now - old(clock.now))
    ensures var b, gaps := old(bucket.Value()), Gaps(old(clock.now) - last, clock.late, old(clock.readings));
            && 0 < rounds <= patience && (through <==> Granted(b, amount, gaps, rounds - 1)) && (!through ==> rounds == patience)
            && (forall i: nat :: i < rounds - 1 ==> !Granted(b, amount, gaps, i))
            && seen - last == RoundTime(b, amount, gaps, rounds - 1)
            && bucket.Value() == Round(b, amount, gaps, rounds - 1).Consume(amount)
  {
    ghost var start, gaps := bucket.Value(), Gaps(clock.now - last, clock.late, clock.readings);
    seen, rounds := last, 0;
    var left := patience;
    while true
      invariant rounds + left == patience && left > 0 && clock.readings == old(clock.readings) + rounds
      invariant bucket.Value() == Before(start, amount, gaps, rounds)
      invariant clock.now - seen == if rounds == 0 then old(clock.now) - last else bucket.Value().TimeUntil(amount)
      invariant seen - last == TimeBefore(start, amount, gaps, rounds)
      invariant forall i: nat :: i < rounds ==> !Granted(start, amount, gaps, i)
      invariant last <= seen && old(clock.now) <= clock.now
      invariant Idle(old(clock.log), clock.log, clock.now - old(clock.now)) && |old(clock.log)| <= |clock.log|
      decreases left
    {
      through, seen := ThrottleRound(bucket, seen, clock, amount, start, gaps, rounds, last, old(clock.log), old(clock.now));
      rounds, left := rounds + 1, left - 1;
      if through || left == 0 {
        break;
      }
    }
  }

  /** `throttle`, watched for at most `patience` rounds: it is through after the first
      round that is granted. The bucket has been refilled for all the time since
      `last`, and pays if it is through. If it slept, the amount was not there at any
      time before the sleep had run out. */
  method Throttle(bucket: TokenBucket, last: real, clock: Clock, amount: nat, patience: nat)
    returns (through: bool, seen: real, ghost rounds: nat)
    requires bucket.Value().Valid() && clock.Valid() && last <= clock.now && patience > 0
    modifies bucket, clock
    ensures bucket.Value().Valid() && last <= seen <= clock.now && old(clock.now) <= seen
    ensures Idle(old(clock.log), clock.log, clock.now - old(clock.now)) && (through ==> clock.now == seen)
    ensures var b, gaps := old(bucket.Value()), Gaps(old(clock.now) - last, clock.late, old(clock.readings));
            && 0 < rounds <= patience && (through <==> Granted(b, amount, gaps, rounds - 1)) && (!through ==> rounds == patience)
            && (forall i: nat :: i < rounds - 1 ==> !Granted(b, amount, gaps, i))
    ensures var refilled := old(bucket.Value()).Refill(seen - last);
            && (through <==> refilled.Affords(amount))
            && bucket.Value() == refilled.Consume(amount)
    ensures through ==> rounds <= 2 && amount as real <= bucket.capacity
    ensures through && rounds == 1 ==> seen - old(clock.now) == clock.late(old(clock.readings))
    ensures through && rounds == 2 ==>
              var late := clock.late(old(clock.readings) + 1);
              amount > 0 && NotBefore(old(bucket.Value()), amount, seen - last - late) && CameIn(bucket.Value(), late)
    ensures amount as real <= bucket.capacity && patience >= 2 ==> through
  {
    ghost var start, gaps := bucket.Value(), Gaps(clock.now - last, clock.late, clock.readings);
    through, seen, rounds := ThrottleLoop(bucket, last, clock, amount, patience);
    AfterRound(start, amount, gaps, rounds - 1, seen - last);
    if through && rounds == 2 { PaidInTime(start, amount, gaps); }
  }
}
