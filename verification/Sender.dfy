/** The sending side of a connection: `sender_task` of `gw-server` with its limiter
    and meter. */
module Sender {
  import opened Frames
  import opened Places
  import opened Codec
  import opened Framing
  import opened Quota
  import opened ReplyGrammar

  const BANDWIDTH_BURST: nat := 1024 * 1024

  /** What one `select!` of the task yields. */
  datatype Select = Chunk(bytes: Blob) | EndOfOutput | OutOfBand(frame: ServerFrame) | OutOfBandClosed

  /** What a turn asks to be sent, after the turns in `before`: the out-of-band branch
      is off once its channel has closed, and nothing follows the end of output. */
  function ReplyTo(before: seq<Select>, turn: Select): seq<ServerFrame> {
    if EndOfOutput in before then []
    else match turn
      case Chunk(bytes) => [Output(bytes)]
      case EndOfOutput => [Closed]
      case OutOfBand(f) => if OutOfBandClosed in before then [] else [f]
      case OutOfBandClosed => []
  }

  /** And the size it is metered for, if any. */
  function SizeOf(before: seq<Select>, turn: Select): seq<nat> {
    if turn.Chunk? && EndOfOutput !in before then [|turn.bytes|] else []
  }

  function Replies(schedule: seq<Select>): seq<ServerFrame> {
    if schedule == [] then []
    else Replies(schedule[..|schedule| - 1]) + ReplyTo(schedule[..|schedule| - 1], schedule[|schedule| - 1])
  }

  /** The sizes of the chunks taken, in order. */
  function Sizes(schedule: seq<Select>): seq<nat> {
    if schedule == [] then []
    else Sizes(schedule[..|schedule| - 1]) + SizeOf(schedule[..|schedule| - 1], schedule[|schedule| - 1])
  }

  lemma OneMoreTurn(before: seq<Select>, turn: Select)
    ensures Replies(before + [turn]) == Replies(before) + ReplyTo(before, turn)
    ensures Sizes(before + [turn]) == Sizes(before) + SizeOf(before, turn)
  {
    assert (before + [turn])[..|before|] == before;
  }

  /** What turn `i` asks to be sent: a chunk, `Closed` at the end of the output, and what
      came out of band; nothing after that end, nothing out of band once that channel has
      closed. */
  function Asked(schedule: seq<Select>): nat -> Option<ServerFrame> {
    (i: nat) =>
      if i >= |schedule| || EndOfOutput in schedule[..i] then None
      else match schedule[i]
        case Chunk(bytes) => Some(Output(bytes))
        case EndOfOutput => Some(Closed)
        case OutOfBand(f) => if OutOfBandClosed in schedule[..i] then None else Some(f)
        case OutOfBandClosed => None
  }

  /** And what it is metered for. */
  function Weighed(schedule: seq<Select>): nat -> Option<nat> {
    (i: nat) =>
      if i < |schedule| && EndOfOutput !in schedule[..i] && schedule[i].Chunk? then Some(|schedule[i].bytes|) else None
  }

  lemma AskedMore(before: seq<Select>, turn: Select)
    ensures forall i: nat :: i < |before| ==> Asked(before)(i) == Asked(before + [turn])(i)
    ensures forall i: nat :: i < |before| ==> Weighed(before)(i) == Weighed(before + [turn])(i)
    ensures ReplyTo(before, turn) == Listed(Asked(before + [turn])(|before|))
    ensures SizeOf(before, turn) == Listed(Weighed(before + [turn])(|before|))
  {
    var all := before + [turn];
    forall i: nat | i <= |before| ensures all[..i] == before[..i] { }
    assert before[..|before|] == before;
  }

  /** What the task sends and meters on a schedule is what its turns ask for, each once and
      in order. */
  lemma {:induction false} RepliesAnswer(schedule: seq<Select>) returns (at: seq<nat>, chunks: seq<nat>)
    ensures Lists(Replies(schedule), at, |schedule|, Asked(schedule))
    ensures Lists(Sizes(schedule), chunks, |schedule|, Weighed(schedule))
  {
    at, chunks := [], [];
    if schedule != [] {
      var before, turn := schedule[..|schedule| - 1], schedule[|schedule| - 1];
      at, chunks := RepliesAnswer(before);
      assert schedule == before + [turn];
      AskedMore(before, turn);
      ListsMore(Replies(before), at, |before|, Asked(before), Asked(schedule));
      ListsMore(Sizes(before), chunks, |before|, Weighed(before), Weighed(schedule));
      at, chunks := More(at, |before|, Asked(schedule)), More(chunks, |before|, Weighed(schedule));
    }
  }

  lemma {:induction false} RepliesPrefix(schedule: seq<Select>, n: nat)
    requires n <= |schedule|
    ensures Replies(schedule[..n]) <= Replies(schedule)
  {
    if n < |schedule| {
      RepliesPrefix(schedule[..|schedule| - 1], n);
      assert schedule[..|schedule| - 1][..n] == schedule[..n];
    } else {
      assert schedule[..n] == schedule;
    }
  }

  /** The receiver queues only pongs. */
  predicate PongsOnly(schedule: seq<Select>) {
    forall i :: 0 <= i < |schedule| && schedule[i].OutOfBand? ==> schedule[i].frame == Pong
  }

  /** After the greeting, what the task sends keeps the connection in the grammar,
      and the connection is over exactly when the end of the output was reached. */
  lemma {:induction false} RepliesKeepGrammar(sent: seq<ServerFrame>, schedule: seq<Select>)
    requires Scan(sent) == Streaming && PongsOnly(schedule)
    ensures Scan(sent + Replies(schedule)) == if EndOfOutput in schedule then Over else Streaming
  {
    if schedule == [] {
      assert sent + Replies(schedule) == sent;
    } else {
      var before, turn := schedule[..|schedule| - 1], schedule[|schedule| - 1];
      assert schedule == before + [turn];
      RepliesKeepGrammar(sent, before);
      GrammarOneMore(sent, before, turn);
    }
  }

  lemma GrammarOneMore(sent: seq<ServerFrame>, before: seq<Select>, turn: Select)
    requires Scan(sent + Replies(before)) == if EndOfOutput in before then Over else Streaming
    requires turn.OutOfBand? ==> turn.frame == Pong
    ensures Scan(sent + Replies(before + [turn])) == if EndOfOutput in before + [turn] then Over else Streaming
  {
    var reply := ReplyTo(before, turn);
    assert Replies(before + [turn]) == Replies(before) + reply by { OneMoreTurn(before, turn); }
    Regroup(sent, Replies(before), reply);
    ReplyKeepsGrammar(sent + Replies(before), before, turn);
  }

  lemma ReplyKeepsGrammar(sent: seq<ServerFrame>, before: seq<Select>, turn: Select)
    requires Scan(sent) == if EndOfOutput in before then Over else Streaming
    requires turn.OutOfBand? ==> turn.frame == Pong
    ensures Scan(sent + ReplyTo(before, turn)) == if EndOfOutput in before + [turn] then Over else Streaming
  {
    var reply := ReplyTo(before, turn);
    if reply == [] {
      assert sent + reply == sent;
    } else {
      ScanOneMore(sent, reply[0]);
      assert reply == [reply[0]];
    }
  }

  // ------------------------------------------------------- the task itself

  /** What the task keeps account from: its limiter, how late its clock may read, and the
      clock's log, the time and the meter when it began. */
  datatype Books = Books(rate: nat, limited: bool, slack: Option<real>, log: seq<Event>, now: real, bytesOut: nat) {
    function Full(): Bucket { NewBucket(rate, BANDWIDTH_BURST) }
  }

  /** `events` is what the clock has logged since; the meter has counted all that passed,
      and a limiter could pay for it at the time. */
  ghost predicate Logged(books: Books, log: seq<Event>, now: real, bytesOut: nat, events: seq<Event>) {
    && log == books.log + events && Duration(events) == now - books.now >= 0.0
    && bytesOut == books.bytesOut + Sum(Passings(events))
    && (if books.limited then Payable(books.Full(), events) else now == books.now)
    && (books.limited && books.slack.Some? ==> AllPrompt(books.rate, BANDWIDTH_BURST, books.slack.value, events))
  }

  /** The bucket stands where the log has left it. */
  ghost predicate InStep(books: Books, bucket: Bucket, events: seq<Event>) {
    && bucket.Valid() && bucket.capacity == BANDWIDTH_BURST as real
    && (books.limited ==> bucket == LevelOf(books.Full(), events))
    && Waited(events, |events|) == 0.0
  }

  /** While the task waits, its account only ages. */
  lemma {:induction false} LoggedIdle(books: Books, log: seq<Event>, now: real, bytesOut: nat, events: seq<Event>,
                                      after: seq<Event>, t: real)
    returns (more: seq<Event>)
    requires Logged(books, log, now, bytesOut, events) && Idle(log, after, t) && LevelOf(books.Full(), events).Valid()
    requires books.limited
    ensures Logged(books, after, now + t, bytesOut, more) && Passings(more) == Passings(events) && t >= 0.0
    ensures Waited(more, |more|) == Waited(events, |events|) + t
    ensures LevelOf(books.Full(), more) == LevelOf(books.Full(), events).Refill(t)
    decreases |after|
  {
    if log == after && t == 0.0 {
      more := events;
    } else {
      var last := after[|after| - 1].seconds;
      var front := LoggedIdle(books, log, now, bytesOut, events, after[..|after| - 1], t - last);
      more := front + [Elapsed(last)];
      LoggedMore(books, after[..|after| - 1], now + (t - last), bytesOut, front, Elapsed(last));
      assert after[..|after| - 1] + [Elapsed(last)] == after;
      WaitedMore(front, Elapsed(last));
      RefillSplits(LevelOf(books.Full(), events), t - last, last);
    }
  }

  lemma LoggedMore(books: Books, log: seq<Event>, now: real, bytesOut: nat, events: seq<Event>, e: Event)
    requires Logged(books, log, now, bytesOut, events)
    requires if e.Elapsed? then books.limited && e.seconds >= 0.0
             else books.limited ==> LevelOf(books.Full(), events).Affords(e.amount)
    requires books.limited && books.slack.Some? && e.Passed? ==>
               Prompt(books.rate, BANDWIDTH_BURST, books.slack.value, events + [e], |events|)
    ensures Logged(books, log + [e], now + (if e.Elapsed? then e.seconds else 0.0),
                   bytesOut + (if e.Passed? then e.amount else 0), events + [e])
    ensures Passings(events + [e]) == Passings(events) + if e.Passed? then [e.amount] else []
    ensures var level := LevelOf(books.Full(), events);
            LevelOf(books.Full(), events + [e]) == if e.Elapsed? then level.Refill(e.seconds) else level.Consume(e.amount)
  {
    Regroup(books.log, events, [e]);
    TotalsMore(events, e);
    PassingsMore(events, e);
    if e.Passed? { SumMore(Passings(events), e.amount); } else { assert Passings(events) + [] == Passings(events); }
    if books.limited { PayableMore(books.Full(), events, e); }
    if books.limited && books.slack.Some? { AllPromptMore(books.rate, BANDWIDTH_BURST, books.slack.value, events, e); }
    assert (events + [e])[..|events|] == events;
  }

  /** No reading of the clock is later than the books allow for. */
  ghost predicate Punctual(books: Books, clock: Clock) {
    books.slack.Some? ==> forall i: nat :: clock.late(i) <= books.slack.value
  }

  /** `amount` is let through: it was held back for a late reading, or none too late. */
  lemma HeldBack(rate: nat, slack: real, late: real, events: seq<Event>, amount: nat, left: Bucket)
    requires Payable(NewBucket(rate, BANDWIDTH_BURST), events + [Passed(amount)]) && late <= slack
    requires LevelOf(NewBucket(rate, BANDWIDTH_BURST), events + [Passed(amount)]) == left
    requires Waited(events, |events|) == late || (amount > 0 && CameIn(left, late))
    ensures Prompt(rate, BANDWIDTH_BURST, slack, events + [Passed(amount)], |events|)
  {
    WaitedSame(events, Passed(amount), |events|);
    if Waited(events, |events|) != late {
      RateStays(rate, events + [Passed(amount)]);
      LessCameIn(left, late, slack, rate);
      LittleLeftIsPrompt(rate, BANDWIDTH_BURST, slack, events, amount, left.tokens);
    }
  }

  lemma RateStays(rate: nat, events: seq<Event>)
    requires Payable(NewBucket(rate, BANDWIDTH_BURST), events)
    ensures LevelOf(NewBucket(rate, BANDWIDTH_BURST), events).rate == Max(rate, 1) as real
  {
    PayableIsExact(rate, BANDWIDTH_BURST, events);
  }

  lemma PaidUp(books: Books, events: seq<Event>, amount: nat, late: real, left: Bucket)
    requires books.limited && Payable(books.Full(), events) && LevelOf(books.Full(), events).Affords(amount)
    requires left == LevelOf(books.Full(), events).Consume(amount)
    requires left.Valid() && left.capacity == BANDWIDTH_BURST as real
    requires books.slack.Some? ==> late <= books.slack.value
    requires Waited(events, |events|) == late || (amount > 0 && CameIn(left, late))
    ensures InStep(books, left, events + [Passed(amount)])
    ensures books.slack.Some? ==>
              Prompt(books.rate, BANDWIDTH_BURST, books.slack.value, events + [Passed(amount)], |events|)
  {
    PayableMore(books.Full(), events, Passed(amount));
    WaitedMore(events, Passed(amount));
    if books.slack.Some? { HeldBack(books.rate, books.slack.value, late, events, amount, left); }
  }

  /** Waits until the limiter lets `amount` through, for at most `patience` rounds. */
  method Pay(bucket: TokenBucket, last: real, clock: Clock, amount: nat, patience: nat,
             ghost books: Books, ghost bytesOut: nat, ghost events: seq<Event>)
    returns (through: bool, seen: real, ghost more: seq<Event>)
    requires Logged(books, clock.log, clock.now, bytesOut, events) && InStep(books, bucket.Value(), events) && books.limited
    requires clock.Valid() && Punctual(books, clock) && last == clock.now && patience > 0
    modifies bucket, clock
    ensures Logged(books, clock.log, clock.now, bytesOut, more) && Passings(more) == Passings(events)
    ensures through ==> seen == clock.now && LevelOf(books.Full(), more).Affords(amount)
    ensures through ==> InStep(books, bucket.Value(), more + [Passed(amount)])
    ensures through && books.slack.Some? ==>
              Prompt(books.rate, BANDWIDTH_BURST, books.slack.value, more + [Passed(amount)], |more|)
    ensures !through ==> amount > BANDWIDTH_BURST || patience < 2
  {
    ghost var rounds;
    ghost var log, now := clock.log, clock.now;
    through, seen, rounds := Throttle(bucket, last, clock, amount, patience);
    more := LoggedIdle(books, log, now, bytesOut, events, clock.log, clock.now - now);
    if through { PaidUp(books, more, amount, clock.late(old(clock.readings) + rounds - 1), bucket.Value()); }
  }

  /** `emitted` is on the wire after `before`, every frame of it whole. */
  ghost predicate OnWire(before: Bytes, emitted: seq<ServerFrame>, now: Bytes) {
    && (forall j :: 0 <= j < |emitted| ==> |EncodeServer(emitted[j])| <= MAX_FRAME_LEN)
    && now == before + Stream(emitted, EncodeServer)
  }

  lemma OnWireMore(before: Bytes, emitted: seq<ServerFrame>, now: Bytes, f: ServerFrame)
    requires OnWire(before, emitted, now) && |EncodeServer(f)| <= MAX_FRAME_LEN
    ensures OnWire(before, emitted + [f], now + Framed(EncodeServer(f)))
  {
    var body := Framed(EncodeServer(f));
    assert Stream(emitted + [f], EncodeServer) == Stream(emitted, EncodeServer) + body by { StreamOneMore(emitted, f); }
    Regroup(before, Stream(emitted, EncodeServer), body);
  }

  /** After `whole`, sending `frame` failed with room for `room` bytes: it is too large, or
      only what fits has been written. */
  ghost predicate BrokenOff(frame: ServerFrame, room: int, whole: Bytes, written: Bytes) {
    var body := EncodeServer(frame);
    if |body| > MAX_FRAME_LEN then written == whole
    else 0 <= room < |Framed(body)| && written == whole + Framed(body)[..room]
  }

  /** What can be written in all. */
  function Total(send: FramedSend): nat
    reads send
  {
    |send.written| + send.capacity
  }

  /** Sends one frame: whole, or a part of it and an error. */
  method Emit(send: FramedSend, frame: ServerFrame, ghost before: Bytes, ghost emitted: seq<ServerFrame>)
    returns (ok: bool)
    requires OnWire(before, emitted, send.written)
    modifies send
    ensures ok ==> OnWire(before, emitted + [frame], send.written)
    ensures !ok ==> BrokenOff(frame, old(send.capacity), old(send.written), send.written)
    ensures Total(send) == old(Total(send)) && old(send.written) <= send.written
  {
    var sent := send.Send(frame, EncodeServer);
    ok := sent.Ok?;
    if ok {
      OnWireMore(before, emitted, old(send.written), frame);
    }
  }

  /** How far the task got: at the next `select!`, ended with the output, stopped by a
      failed send, or still in `throttle`. */
  datatype Stop = Selecting | Finished | SendFailed | Throttling

  /** `taken` turns done, `whole` the wire at the end of the last whole frame. */
  datatype Progress = Progress(taken: nat, stop: Stop, whole: Bytes)

  /** The turns in `done` are done, and their frames on the wire. */
  ghost predicate OnTrack(stop: Stop, done: seq<Select>, before: Bytes, whole: Bytes, written: Bytes) {
    && (stop.Finished? <==> EndOfOutput in done)
    && OnWire(before, Replies(done), whole)
    && whole <= written && (!stop.SendFailed? ==> whole == written)
  }

  /** The frame a turn sends, with the out-of-band branch on or off. */
  function FrameOf(turn: Select, oobOpen: bool): Option<ServerFrame> {
    match turn
    case Chunk(bytes) => Some(Output(bytes))
    case EndOfOutput => Some(Closed)
    case OutOfBand(f) => if oobOpen then Some(f) else None
    case OutOfBandClosed => None
  }

  lemma TurnDone(done: seq<Select>, turn: Select, oobOpen: bool)
    requires EndOfOutput !in done && oobOpen == (OutOfBandClosed !in done)
    ensures var frame := FrameOf(turn, oobOpen);
            Replies(done + [turn]) == if frame.Some? then Replies(done) + [frame.value] else Replies(done)
    ensures ReplyTo(done, turn) == if FrameOf(turn, oobOpen).Some? then [FrameOf(turn, oobOpen).value] else []
    ensures EndOfOutput in done + [turn] <==> turn.EndOfOutput?
    ensures OutOfBandClosed in done + [turn] <==> !oobOpen || turn.OutOfBandClosed?
  {
    OneMoreTurn(done, turn);
    assert Replies(done) + [] == Replies(done);
  }

  /** Throttles and meters a chunk. */
  method Charge(bucket: TokenBucket, last: real, clock: Clock, meter: UsageMeter, amount: nat, limited: bool, patience: nat,
                ghost books: Books, ghost events: seq<Event>)
    returns (through: bool, seen: real, ghost more: seq<Event>)
    requires Logged(books, clock.log, clock.now, meter.bytesOut, events) && InStep(books, bucket.Value(), events)
    requires clock.Valid() && Punctual(books, clock) && last == clock.now && patience > 0 && limited == books.limited
    modifies bucket, clock, meter
    ensures Logged(books, clock.log, clock.now, meter.bytesOut, more) && meter.bytesIn == old(meter.bytesIn)
    ensures Passings(more) == Passings(events) + if through then [amount] else []
    ensures through ==> seen == clock.now && InStep(books, bucket.Value(), more)
    ensures !through ==> limited && (amount > BANDWIDTH_BURST || patience < 2)
  {
    through, seen, more := true, last, events;
    if limited {
      through, seen, more := Pay(bucket, last, clock, amount, patience, books, meter.bytesOut, events);
    }
    if through {
      LoggedMore(books, clock.log, clock.now, meter.bytesOut, more, Passed(amount));
      meter.AddOut(amount, clock);
      more := more + [Passed(amount)];
    }
  }

  /** One turn that sends: throttle and meter a chunk, then send the frame. */
  method SendTurn(send: FramedSend, turn: Select, frame: ServerFrame, limited: bool, patience: nat, bucket: TokenBucket,
                  last: real, clock: Clock, meter: UsageMeter, ghost books: Books, ghost events: seq<Event>,
                  ghost before: Bytes, ghost emitted: seq<ServerFrame>)
    returns (stop: Stop, seen: real, ghost more: seq<Event>)
    requires Logged(books, clock.log, clock.now, meter.bytesOut, events) && InStep(books, bucket.Value(), events)
    requires clock.Valid() && Punctual(books, clock) && last == clock.now && patience > 0 && limited == books.limited
    requires OnWire(before, emitted, send.written)
    modifies send, bucket, clock, meter
    ensures Logged(books, clock.log, clock.now, meter.bytesOut, more) && meter.bytesIn == old(meter.bytesIn)
    ensures Passings(more) == Passings(events) + if turn.Chunk? && !stop.Throttling? then [|turn.bytes|] else []
    ensures !stop.Throttling? ==> seen == clock.now && InStep(books, bucket.Value(), more)
    ensures !stop.Finished? && (stop.Throttling? ==> Unaffordable(turn, limited, patience))
    ensures stop.Selecting? ==> OnWire(before, emitted + [frame], send.written)
    ensures if stop.Throttling? then send.written == old(send.written) else old(send.written) <= send.written
    ensures stop.SendFailed? ==> BrokenOff(frame, old(send.capacity), old(send.written), send.written)
    ensures Total(send) == old(Total(send))
  {
    seen, more := last, events;
    if turn.Chunk? {
      var through;
      through, seen, more := Charge(bucket, last, clock, meter, |turn.bytes|, limited, patience, books, events);
      if !through {
        return Throttling, seen, more;
      }
    }
    var ok := Emit(send, frame, before, emitted);
    stop := if ok then Selecting else SendFailed;
  }

  /** The frame that `turn` asked for could not be sent. */
  ghost predicate CutShort(done: seq<Select>, turn: Select, room: int, whole: Bytes, written: Bytes) {
    ReplyTo(done, turn) != [] && BrokenOff(ReplyTo(done, turn)[0], room, whole, written)
  }

  /** One turn of the loop. */
  method Turn(send: FramedSend, turn: Select, oobOpen: bool, limited: bool, patience: nat, bucket: TokenBucket,
              last: real, clock: Clock, meter: UsageMeter, ghost books: Books, ghost events: seq<Event>,
              ghost done: seq<Select>, ghost before: Bytes)
    returns (stop: Stop, whole: Bytes, stillOpen: bool, seen: real, ghost more: seq<Event>)
    requires OnTrack(Selecting, done, before, send.written, send.written) && oobOpen == (OutOfBandClosed !in done)
    requires Logged(books, clock.log, clock.now, meter.bytesOut, events) && InStep(books, bucket.Value(), events)
    requires clock.Valid() && Punctual(books, clock) && last == clock.now && patience > 0 && limited == books.limited
    modifies send, bucket, clock, meter
    ensures var completed := stop.Selecting? || stop.Finished?;
            OnTrack(stop, if completed then done + [turn] else done, before, whole, send.written)
    ensures stillOpen == (OutOfBandClosed !in done + [turn])
    ensures stop.SendFailed? ==> CutShort(done, turn, old(send.capacity), whole, send.written)
    ensures Total(send) == old(Total(send)) && (stop.SendFailed? ==> whole == old(send.written))
    ensures Logged(books, clock.log, clock.now, meter.bytesOut, more) && meter.bytesIn == old(meter.bytesIn)
    ensures Passings(more) == Passings(events) + if stop.Throttling? then [] else SizeOf(done, turn)
    ensures !stop.Throttling? ==> seen == clock.now && InStep(books, bucket.Value(), more)
    ensures stop.Throttling? ==> Unaffordable(turn, limited, patience)
  {
    stop, seen, more, whole := Selecting, last, events, send.written;
    var frame := FrameOf(turn, oobOpen);
    if frame.Some? {
      stop, seen, more := SendTurn(send, turn, frame.value, limited, patience, bucket, last, clock, meter,
                                   books, events, before, Replies(done));
    } else {
      assert Passings(events) + [] == Passings(events);
    }
    TurnDone(done, turn, oobOpen);
    if stop.Selecting? {
      stop := if turn.EndOfOutput? then Finished else Selecting;
      whole := send.written;
    }
    stillOpen := oobOpen && !turn.OutOfBandClosed?;
  }

  /** The sizes metered, in order: those of the chunks of the turns done, and that of a
      turn whose send failed. */
  ghost function Charged(p: Progress, schedule: seq<Select>): seq<nat>
    requires p.taken <= |schedule| && (p.stop.SendFailed? ==> p.taken < |schedule|)
  {
    Sizes(schedule[..if p.stop.SendFailed? then p.taken + 1 else p.taken])
  }

  /** The turns before `p.taken` are done and their frames on the wire, nothing after them
      but what fits of one that could not be sent. */
  ghost predicate Sent(p: Progress, schedule: seq<Select>, before: Bytes, total: nat, written: Bytes) {
    && p.taken <= |schedule| && (p.stop.SendFailed? || p.stop.Throttling? ==> p.taken < |schedule|)
    && (p.stop.Finished? <==> EndOfOutput in schedule[..p.taken])
    && OnWire(before, Replies(schedule[..p.taken]), p.whole)
    && (if p.stop.SendFailed? then CutShort(schedule[..p.taken], schedule[p.taken], total - |p.whole|, p.whole, written)
        else p.whole == written)
  }

  lemma TurnTaken(p: Progress, q: Progress, schedule: seq<Select>, before: Bytes, total: nat, written: Bytes, oobOpen: bool)
    requires p.taken < |schedule| && p.stop.Selecting?
    requires q.taken == p.taken + if q.stop.Selecting? || q.stop.Finished? then 1 else 0
    requires var done, turn := schedule[..p.taken], schedule[p.taken];
             && OnTrack(q.stop, if q.stop.Selecting? || q.stop.Finished? then done + [turn] else done, before, q.whole, written)
             && oobOpen == (OutOfBandClosed !in done + [turn])
             && (q.stop.SendFailed? ==> CutShort(done, turn, total - |q.whole|, q.whole, written))
    ensures Sent(q, schedule, before, total, written)
    ensures q.stop.Selecting? ==> oobOpen == (OutOfBandClosed !in schedule[..q.taken])
  {
    assert schedule[..p.taken + 1] == schedule[..p.taken] + [schedule[p.taken]];
  }

  lemma ChargedMore(p: Progress, q: Progress, schedule: seq<Select>)
    requires p.taken < |schedule| && p.stop.Selecting?
    requires q.taken == p.taken + if q.stop.Selecting? || q.stop.Finished? then 1 else 0
    ensures Charged(q, schedule)
         == Charged(p, schedule) + if q.stop.Throttling? then [] else SizeOf(schedule[..p.taken], schedule[p.taken])
  {
    var done := schedule[..p.taken];
    OneMoreTurn(done, schedule[p.taken]);
    assert schedule[..p.taken + 1] == done + [schedule[p.taken]];
    assert Sizes(done) + [] == Sizes(done);
  }

  /** One turn of the loop, on the schedule. */
  method Advance(send: FramedSend, schedule: seq<Select>, p: Progress, oobOpen: bool, limited: bool, patience: nat,
                 bucket: TokenBucket, last: real, clock: Clock, meter: UsageMeter, ghost books: Books,
                 ghost events: seq<Event>, ghost before: Bytes)
    returns (q: Progress, stillOpen: bool, seen: real, ghost more: seq<Event>)
    requires p.taken < |schedule| && p.stop.Selecting? && Sent(p, schedule, before, Total(send), send.written)
    requires oobOpen == (OutOfBandClosed !in schedule[..p.taken])
    requires Logged(books, clock.log, clock.now, meter.bytesOut, events) && InStep(books, bucket.Value(), events)
    requires Passings(events) == Charged(p, schedule)
    requires clock.Valid() && Punctual(books, clock) && last == clock.now && patience > 0 && limited == books.limited
    modifies send, bucket, clock, meter
    ensures Sent(q, schedule, before, old(Total(send)), send.written) && Total(send) == old(Total(send))
    ensures q.taken == p.taken + if q.stop.Selecting? || q.stop.Finished? then 1 else 0
    ensures q.stop.Selecting? ==> stillOpen == (OutOfBandClosed !in schedule[..q.taken])
    ensures q.stop.Throttling? ==> Unaffordable(schedule[q.taken], limited, patience)
    ensures Logged(books, clock.log, clock.now, meter.bytesOut, more) && meter.bytesIn == old(meter.bytesIn)
    ensures Passings(more) == Charged(q, schedule)
    ensures !q.stop.Throttling? ==> seen == clock.now && InStep(books, bucket.Value(), more)
  {
    ghost var total := Total(send);
    var stop, whole;
    stop, whole, stillOpen, seen, more := Turn(send, schedule[p.taken], oobOpen, limited, patience, bucket, last, clock, meter,
                                               books, events, schedule[..p.taken], before);
    q := Progress(p.taken + if stop.Selecting? || stop.Finished? then 1 else 0, stop, whole);
    TurnTaken(p, q, schedule, before, total, send.written, stillOpen);
    ChargedMore(p, q, schedule);
  }

  /** The select loop: turns are taken until a send fails or the output ends. */
  method SenderLoop(send: FramedSend, schedule: seq<Select>, limited: bool, patience: nat, bucket: TokenBucket, clock: Clock,
                    meter: UsageMeter, ghost books: Books)
    returns (p: Progress, ghost events: seq<Event>)
    requires bucket.Value() == books.Full() && limited == books.limited && patience > 0
    requires clock.Valid() && Punctual(books, clock)
    requires books.log == clock.log && books.now == clock.now && books.bytesOut == meter.bytesOut
    modifies send, clock, meter, bucket
    ensures Sent(p, schedule, old(send.written), old(Total(send)), send.written)
    ensures p.stop.Selecting? ==> p.taken == |schedule|
    ensures p.stop.Throttling? ==> Unaffordable(schedule[p.taken], limited, patience)
    ensures Logged(books, clock.log, clock.now, meter.bytesOut, events)
    ensures Passings(events) == Charged(p, schedule) && meter.bytesIn == old(meter.bytesIn)
    ensures !p.stop.Throttling? ==> Waited(events, |events|) == 0.0
  {
    ghost var before := send.written;
    p, events := Progress(0, Selecting, send.written), [];
    var seen, oobOpen := clock.now, true;
    while p.taken < |schedule| && p.stop.Selecting?
      invariant Sent(p, schedule, before, old(Total(send)), send.written) && Total(send) == old(Total(send))
      invariant p.stop.Selecting? ==> oobOpen == (OutOfBandClosed !in schedule[..p.taken])
      invariant p.stop.Throttling? ==> Unaffordable(schedule[p.taken], limited, patience)
      invariant Logged(books, clock.log, clock.now, meter.bytesOut, events) && meter.bytesIn == old(meter.bytesIn)
      invariant Passings(events) == Charged(p, schedule)
      invariant !p.stop.Throttling? ==> seen == clock.now && InStep(books, bucket.Value(), events)
      decreases |schedule| - p.taken, p.stop.Selecting?
    {
      p, oobOpen, seen, events := Advance(send, schedule, p, oobOpen, limited, patience, bucket, seen, clock, meter, books,
                                          events, before);
    }
  }

  /** A turn the limiter never lets through, or not in so few rounds. */
  predicate Unaffordable(turn: Select, limited: bool, patience: nat) {
    limited && turn.Chunk? && (|turn.bytes| > BANDWIDTH_BURST || patience < 2)
  }

  /** All of it is no more than the limit allows in that time. */
  predicate WithinEnvelope(rate: nat, sizes: seq<nat>, seconds: real) {
    Sum(sizes) as real <= Envelope(rate, BANDWIDTH_BURST, seconds)
  }

  /** What the books come to when the task stops. */
  lemma Accounts(limit: Option<nat>, lateness: real, punctual: bool, books: Books, log: seq<Event>, now: real, bytesOut: nat,
                 seconds: real, events: seq<Event>, sizes: seq<nat>)
    requires Logged(books, log, now, bytesOut, events) && Passings(events) == sizes && seconds == now - books.now
    requires books.limited == limit.Some? && (limit.Some? ==> books.rate == limit.value)
    requires books.slack == if punctual then Some(lateness) else None
    ensures log == books.log + events && Duration(events) == seconds >= 0.0
    ensures bytesOut == books.bytesOut + Sum(sizes)
    ensures limit.None? ==> now == books.now
    ensures limit.Some? && punctual ==> AllPrompt(limit.value, BANDWIDTH_BURST, lateness, events)
    ensures limit.Some? ==> EveryWindowWithin(limit.value, BANDWIDTH_BURST, events)
    ensures limit.Some? ==> WithinEnvelope(limit.value, sizes, Duration(events))
  {
    if limit.Some? { PayableEverywhere(limit.value, BANDWIDTH_BURST, events); }
  }

  /** Sends what the schedule yields until a send fails or the output ends, watched for
      at most `patience` rounds of any one `throttle`. The frames emitted are those the
      turns done ask for; they are on the wire whole, with at most a part of a failed
      one after them. `events` is what the clock logged meanwhile: all the time that
      passed on it and, at their times, the sizes of the chunks taken and of a failed
      one. The meter counts them. With a limit, no window of it exceeds what the limit
      allows, and nothing is held back that the limit allows: whatever waited for more than
      a late reading of the clock ends a window that is full but for what comes in during
      that. Without one no time passes. */
  method SenderTask(send: FramedSend, schedule: seq<Select>, maxBytesPerSec: Option<nat>, clock: Clock, meter: UsageMeter,
                    patience: nat, ghost lateness: real)
    returns (p: Progress, ghost events: seq<Event>)
    requires clock.Valid() && patience > 0
    modifies send, clock, meter
    ensures Sent(p, schedule, old(send.written), old(Total(send)), send.written)
    ensures p.stop.Selecting? ==> p.taken == |schedule|
    ensures p.stop.Throttling? ==> Unaffordable(schedule[p.taken], maxBytesPerSec.Some?, patience)
    ensures Replies(schedule[..p.taken]) <= Replies(schedule) && old(send.written) <= p.whole <= send.written
    ensures clock.log == old(clock.log) + events && Duration(events) == clock.now - old(clock.now) >= 0.0
    ensures Passings(events) == Charged(p, schedule)
    ensures meter.bytesOut == old(meter.bytesOut) + Sum(Charged(p, schedule)) && meter.bytesIn == old(meter.bytesIn)
    ensures maxBytesPerSec.Some? && (forall i: nat :: clock.late(i) <= lateness) ==>
              AllPrompt(maxBytesPerSec.value, BANDWIDTH_BURST, lateness, events)
    ensures !p.stop.Throttling? ==> Waited(events, |events|) == 0.0
    ensures maxBytesPerSec.None? ==> clock.now == old(clock.now)
    ensures maxBytesPerSec.Some? ==> EveryWindowWithin(maxBytesPerSec.value, BANDWIDTH_BURST, events)
    ensures maxBytesPerSec.Some? ==> WithinEnvelope(maxBytesPerSec.value, Charged(p, schedule), Duration(events))
  {
    var rate := if maxBytesPerSec.Some? then maxBytesPerSec.value else 0;
    var bucket := new TokenBucket(rate, BANDWIDTH_BURST);
    ghost var punctual := forall i: nat :: clock.late(i) <= lateness;
    ghost var books := Books(rate, maxBytesPerSec.Some?, if punctual then Some(lateness) else None, clock.log, clock.now,
                             meter.bytesOut);
    p, events := SenderLoop(send, schedule, maxBytesPerSec.Some?, patience, bucket, clock, meter, books);
    RepliesPrefix(schedule, p.taken);
    Accounts(maxBytesPerSec, lateness, punctual, books, clock.log, clock.now, meter.bytesOut, clock.now - old(clock.now),
             events, Charged(p, schedule));
  }

  lemma StreamOneMore(frames: seq<ServerFrame>, f: ServerFrame)
    requires forall i :: 0 <= i < |frames| ==> |EncodeServer(frames[i])| <= MAX_FRAME_LEN
    requires |EncodeServer(f)| <= MAX_FRAME_LEN
    ensures Stream(frames + [f], EncodeServer) == Stream(frames, EncodeServer) + Framed(EncodeServer(f))
  {
    StreamConcat(frames, [f], EncodeServer);
    assert Stream([f], EncodeServer) == Framed(EncodeServer(f)) + [];
  }
}
