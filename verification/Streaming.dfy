/** One attached client, from the ingested output to the bytes on its wire: the sender
    task draws from a reader of the session, drops the pending call whenever the
    out-of-band branch wins, and sends what it got after the greeting, while ingest
    and the other readers go on (`sender_task` of `gw-server` over `gw-core`). */
module Streaming {
  import opened Frames
  import opened Codec
  import opened Framing
  import opened ReplyGrammar
  import opened Scrollback
  import Readers
  import Delivery
  import opened Sender
  import Metering

  /** Where the task is: at the `select!`, waiting to meter a chunk, sending it, about to
      say that the session has ended, or over (it may be aborted anywhere). */
  datatype Phase = AtSelect | Holding(bytes: Blob) | Sending(bytes: Blob) | Ending | Gone

  /** Bytes taken from the reader, metered, and sent. */
  datatype Counts = Counts(taken: nat, metered: nat, sent: nat)

  /** `schedule` is what the selects yielded so far; the frames of its first `answered`
      turns have been sent after `greeting`. `ticks` is what the meter saw of it. */
  datatype State = State(session: Readers.State, reader: Readers.ReaderId, phase: Phase,
                         schedule: seq<Select>, answered: nat, greeting: seq<ServerFrame>, sent: seq<ServerFrame>,
                         counts: Counts, ticks: seq<Metering.Step>)
  {
    function Mine(): Readers.Reader
      requires reader in session.readers
    {
      session.readers[reader]
    }
  }

  datatype Action =
    | Others(a: Readers.Action)        // ingest, or another client's reader
    | Own(a: Readers.Action)           // a step of `next`
    | Interrupt                        // a pong is there: `next` is dropped, the pong sent
    | OutOfBandEnds
    | Count                            // the limiter is through with the chunk: it is metered
    | SendChunk | SendClosed
    | Stop

  predicate IsOwn(a: Readers.Action, r: Readers.ReaderId) {
    (a.Begin? || a.Enable? || a.Check? || a.Wake? || a.Rearm?) && a.r == r
  }

  predicate IsForeign(a: Readers.Action, r: Readers.ReaderId) {
    a.IngestAppend? || a.IngestClose? || a.IngestNotify? || a.r != r
  }

  predicate Can(s: State, a: Action) {
    s.reader in s.session.readers
    && match a
       case Others(b) => Readers.Can(s.session, b) && IsForeign(b, s.reader)
       case Own(b) => s.phase.AtSelect? && Readers.Can(s.session, b) && IsOwn(b, s.reader)
                      && |s.session.inner.buf| < 0x1_0000_0000_0000_0000
       case Interrupt => s.phase.AtSelect? && (s.Mine().pc.Idle? || s.Mine().pc.Parked?) && OutOfBandClosed !in s.schedule
       case OutOfBandEnds => s.phase.AtSelect? && (s.Mine().pc.Idle? || s.Mine().pc.Parked?) && OutOfBandClosed !in s.schedule
       case Count => s.phase.Holding?
       case SendChunk => s.phase.Sending?
       case SendClosed => s.phase.Ending?
       case Stop => !s.phase.Gone?
  }

  /** The session after the pending `next`, if there is one, is dropped. */
  function Dropped(s: State): Readers.State
    requires s.reader in s.session.readers
  {
    if s.Mine().pc.Parked? then Readers.Step(s.session, Readers.Drop(s.reader)) else s.session
  }

  function Turned(s: State, session: Readers.State, phase: Phase, turn: Select): State {
    s.(session := session, phase := phase, schedule := s.schedule + [turn])
  }

  function Answer(s: State, phase: Phase, frame: ServerFrame): State {
    s.(phase := phase, answered := |s.schedule|, sent := s.sent + [frame])
  }

  function Ticking(s: State, counts: Counts, tick: Metering.Step): State {
    s.(counts := counts, ticks := s.ticks + [tick])
  }

  function Step(s: State, a: Action): State
    requires Can(s, a)
  {
    match a
    case Others(b) => s.(session := Readers.Step(s.session, b))
    case Own(b) =>
      var session := Readers.Step(s.session, b);
      if b.Check? then
        match s.session.inner.Look(s.Mine().cursor).poll
        case Chunk(bytes) =>
          Ticking(Turned(s, session, Holding(bytes), Select.Chunk(bytes)),
                  s.counts.(taken := s.counts.taken + |bytes|), Metering.Take(|bytes|))
        case Finished => Turned(s, session, Ending, EndOfOutput)
        case Wait => s.(session := session)
      else s.(session := session)
    case Interrupt => Answer(Turned(s, Dropped(s), AtSelect, OutOfBand(Pong)), AtSelect, Pong)
    case OutOfBandEnds => Turned(s, Dropped(s), AtSelect, OutOfBandClosed).(answered := |s.schedule| + 1)
    case Count =>
      Ticking(s.(phase := Sending(s.phase.bytes)), s.counts.(metered := s.counts.metered + |s.phase.bytes|), Metering.Count)
    case SendChunk =>
      Ticking(Answer(s, AtSelect, Output(s.phase.bytes)), s.counts.(sent := s.counts.sent + |s.phase.bytes|), Metering.Sent)
    case SendClosed => Ticking(Answer(s, Gone, Closed), s.counts, Metering.Abort)
    case Stop => Ticking(s.(phase := Gone), s.counts, Metering.Abort)
  }

  // --------------------------------------------------------------- payloads

  /** The output bytes carried by the frames. */
  function Payload(frames: seq<ServerFrame>): Bytes {
    if frames == [] then []
    else Payload(frames[..|frames| - 1]) + (if frames[|frames| - 1].Output? then frames[|frames| - 1].bytes else [])
  }

  lemma PayloadMore(frames: seq<ServerFrame>, f: ServerFrame)
    ensures Payload(frames + [f]) == Payload(frames) + (if f.Output? then f.bytes else [])
  {
    assert (frames + [f])[..|frames|] == frames;
  }

  lemma {:induction false} PayloadPrefix(frames: seq<ServerFrame>, n: nat)
    requires n <= |frames|
    ensures Payload(frames[..n]) <= Payload(frames)
  {
    if n < |frames| {
      PayloadPrefix(frames[..|frames| - 1], n);
      assert frames[..|frames| - 1][..n] == frames[..n];
    } else {
      assert frames[..n] == frames;
    }
  }

  /** The chunks the selects yielded. */
  function Chunks(schedule: seq<Select>): Bytes {
    if schedule == [] then []
    else
      var front, turn := schedule[..|schedule| - 1], schedule[|schedule| - 1];
      Chunks(front) + (if turn.Chunk? then turn.bytes else [])
  }

  lemma ChunksMore(schedule: seq<Select>, turn: Select)
    ensures Chunks(schedule + [turn]) == Chunks(schedule) + (if turn.Chunk? then turn.bytes else [])
  {
    assert (schedule + [turn])[..|schedule|] == schedule;
  }

  lemma OutputMore(log: seq<Readers.Event>, e: Readers.Event)
    ensures Delivery.Output(log + [e]) == Delivery.Output(log) + (if e.Took? then e.bytes else [])
  {
    assert (log + [e])[..|log|] == log;
  }

  // -------------------------------------------------------------- invariant

  ghost predicate Greets(frames: seq<ServerFrame>) {
    Scan(frames) == Streaming && Payload(frames) == []
  }

  /** The schedule is what the reader was given, and pongs. */
  ghost predicate Drawn(s: State)
    requires s.reader in s.session.readers
  {
    && Chunks(s.schedule) == Delivery.Output(s.Mine().log)
    && (EndOfOutput in s.schedule ==> Readers.End in s.Mine().log)
    && PongsOnly(s.schedule)
  }

  /** Where the task is with answering it. */
  ghost predicate Answering(s: State) {
    && s.answered <= |s.schedule| <= s.answered + 1
    && EndOfOutput !in s.schedule[..|s.schedule| - (if s.schedule != [] then 1 else 0)]
    && (s.phase.AtSelect? ==> s.answered == |s.schedule| && EndOfOutput !in s.schedule)
    && (s.phase.Holding? || s.phase.Sending? ==>
          |s.schedule| == s.answered + 1 && s.schedule[s.answered] == Select.Chunk(s.phase.bytes))
    && (s.phase.Ending? ==> |s.schedule| == s.answered + 1 && s.schedule[s.answered] == EndOfOutput)
  }

  ghost predicate Told(s: State) {
    && Readers.Inv(s.session) && s.reader in s.session.readers && Greets(s.greeting)
    && Drawn(s) && Answering(s)
    && s.sent == s.greeting + Replies(s.schedule[..s.answered])
    && Payload(s.sent) == Chunks(s.schedule[..s.answered])
  }

  predicate Paired(phase: Phase, pc: Metering.Pc) {
    match phase
    case AtSelect => pc.Selecting?
    case Holding(bytes) => pc == Metering.Throttling(|bytes|)
    case Sending(bytes) => pc == Metering.Sending(|bytes|)
    case Ending => pc.Selecting?
    case Gone => pc.Gone?
  }

  /** The counters are the meter's after `ticks`, and count what was taken and sent. */
  ghost predicate Ticked(s: State) {
    var run := Metering.Run(s.ticks, s.session.inner.maxBytes);
    && run.Some? && Counts(run.value.taken, run.value.metered, run.value.sent) == s.counts
    && s.counts.taken == |Chunks(s.schedule)| && s.counts.sent == |Payload(s.sent)|
    && Paired(s.phase, run.value.pc)
  }

  ghost predicate Inv(s: State) { Told(s) && Ticked(s) }

  // ------------------------------------------------- every step keeps it

  /** What the others do leaves this client's log alone. */
  lemma ForeignKeepsLog(s: Readers.State, a: Readers.Action, r: Readers.ReaderId)
    requires r in s.readers && Readers.Can(s, a) && IsForeign(a, r)
    ensures r in Readers.Step(s, a).readers && Readers.Step(s, a).readers[r].log == s.readers[r].log
  {
  }

  lemma OwnKeepsLog(s: Readers.State, a: Readers.Action, r: Readers.ReaderId)
    requires r in s.readers && Readers.Can(s, a) && (IsOwn(a, r) || a == Readers.Drop(r)) && !a.Check?
    ensures r in Readers.Step(s, a).readers && Readers.Step(s, a).readers[r].log == s.readers[r].log
  {
  }

  /** A check adds to the log what the look yielded. */
  lemma CheckLogs(s: Readers.State, r: Readers.ReaderId)
    requires Readers.Can(s, Readers.Check(r))
    ensures r in Readers.Step(s, Readers.Check(r)).readers
    ensures var poll := s.inner.Look(s.readers[r].cursor).poll;
            var log, now := s.readers[r].log, Readers.Step(s, Readers.Check(r)).readers[r].log;
            && Delivery.Output(now) == Delivery.Output(log) + (if poll.Chunk? then poll.bytes else [])
            && (Readers.End in log || poll.Finished? ==> Readers.End in now)
  {
    var look := s.inner.Look(s.readers[r].cursor);
    var skipped := if s.readers[r].cursor < s.inner.startOffset then s.inner.startOffset - s.readers[r].cursor else 0;
    RecordedOutput(s.readers[r].log, skipped, look.poll);
    assert Readers.Step(s, Readers.Check(r)).readers[r] == Readers.Landed(s.readers[r], look, skipped);
  }

  lemma RecordedOutput(log: seq<Readers.Event>, skipped: nat, poll: Poll)
    ensures var now := Readers.Recorded(log, skipped, poll);
            && Delivery.Output(now) == Delivery.Output(log) + (if poll.Chunk? then poll.bytes else [])
            && (Readers.End in log || poll.Finished? ==> Readers.End in now)
  {
    match poll
    case Chunk(bytes) => OutputMore(log, Readers.Took(skipped, bytes));
    case Finished =>
      OutputMore(log, Readers.Took(skipped, []));
      OutputMore(if skipped > 0 then log + [Readers.Took(skipped, [])] else log, Readers.End);
    case Wait => OutputMore(log, Readers.Took(skipped, []));
  }

  /** The select yields `turn`; the reader's log has grown by the chunk in it. */
  lemma TurnedKeepsTold(s: State, session: Readers.State, phase: Phase, turn: Select)
    requires Told(s) && s.phase.AtSelect? && Readers.Inv(session) && s.reader in session.readers
    requires turn.OutOfBand? ==> turn.frame == Pong
    requires Delivery.Output(session.readers[s.reader].log)
          == Delivery.Output(s.Mine().log) + (if turn.Chunk? then turn.bytes else [])
    requires turn.EndOfOutput? ==> Readers.End in session.readers[s.reader].log
    requires (phase.Holding? && turn == Select.Chunk(phase.bytes)) || (phase.Ending? && turn == EndOfOutput)
    ensures Told(Turned(s, session, phase, turn))
  {
    var t := Turned(s, session, phase, turn);
    DrawnMore(s.schedule, turn, Delivery.Output(t.Mine().log), Readers.End in t.Mine().log);
    assert Drawn(t);
    assert Answering(t) && t.schedule[..t.answered] == s.schedule[..s.answered] by { TurnedAnswering(s, t, turn); }
  }

  lemma DrawnMore(schedule: seq<Select>, turn: Select, given: Bytes, ended: bool)
    requires Chunks(schedule) + (if turn.Chunk? then turn.bytes else []) == given && PongsOnly(schedule)
    requires EndOfOutput !in schedule && (turn.EndOfOutput? ==> ended) && (turn.OutOfBand? ==> turn.frame == Pong)
    ensures Chunks(schedule + [turn]) == given && PongsOnly(schedule + [turn])
    ensures EndOfOutput in schedule + [turn] ==> ended
  {
    ChunksMore(schedule, turn);
  }

  lemma TurnedAnswering(s: State, t: State, turn: Select)
    requires Answering(s) && s.phase.AtSelect? && t.schedule == s.schedule + [turn] && t.answered == s.answered
    requires (t.phase.Holding? && turn == Select.Chunk(t.phase.bytes)) || (t.phase.Ending? && turn == EndOfOutput)
    ensures Answering(t) && t.schedule[..t.answered] == s.schedule[..s.answered]
  {
    assert t.schedule[..t.answered] == s.schedule[..s.answered] == s.schedule;
    assert t.schedule[..|t.schedule| - 1] == s.schedule;
  }

  /** The frame a turn asks for is sent after the frames of the turns before it. */
  lemma ReplySent(greeting: seq<ServerFrame>, done: seq<Select>, turn: Select, frame: ServerFrame)
    requires ReplyTo(done, turn) == [frame] && (turn.OutOfBand? ==> frame == Pong)
    requires Payload(greeting + Replies(done)) == Chunks(done)
    ensures greeting + Replies(done + [turn]) == greeting + Replies(done) + [frame]
    ensures Payload(greeting + Replies(done) + [frame]) == Chunks(done + [turn])
  {
    assert Replies(done + [turn]) == Replies(done) + [frame] by { OneMoreTurn(done, turn); }
    Regroup(greeting, Replies(done), [frame]);
    PayloadMore(greeting + Replies(done), frame);
    ChunksMore(done, turn);
  }

  lemma SendKeepsTold(s: State, phase: Phase, frame: ServerFrame)
    requires Told(s) && (s.phase.Sending? || s.phase.Ending?)
    requires (s.phase.Sending? && phase.AtSelect? && frame == Output(s.phase.bytes))
             || (s.phase.Ending? && phase.Gone? && frame == Closed)
    ensures Told(Answer(s, phase, frame))
  {
    var done, turn := s.schedule[..s.answered], s.schedule[s.answered];
    var t := Answer(s, phase, frame);
    assert s.schedule == done + [turn];
    assert t.schedule[..t.answered] == s.schedule;
    assert EndOfOutput !in done && ReplyTo(done, turn) == [frame] by { assert s.schedule[..|s.schedule| - 1] == done; }
    ReplySent(s.greeting, done, turn, frame);
    assert t.sent == t.greeting + Replies(t.schedule[..t.answered]) && Payload(t.sent) == Chunks(t.schedule[..t.answered]);
    assert Answering(t) by { AnsweredAll(s, t); }
  }

  lemma AnsweredAll(s: State, t: State)
    requires Answering(s) && t.schedule == s.schedule && t.answered == |s.schedule|
    requires (s.phase.Sending? && t.phase.AtSelect?) || (s.phase.Ending? && t.phase.Gone?)
    ensures Answering(t)
  {
    if s.phase.Sending? {
      var done := s.schedule[..|s.schedule| - 1];
      assert s.schedule == done + [s.schedule[s.answered]];
    }
  }

  /** Dropping the pending call changes nothing the client gets. */
  lemma DroppedKeeps(s: State)
    requires Told(s) && (s.Mine().pc.Idle? || s.Mine().pc.Parked?)
    ensures Readers.Inv(Dropped(s)) && s.reader in Dropped(s).readers && Dropped(s).readers[s.reader].log == s.Mine().log
  {
    if s.Mine().pc.Parked? { Readers.StepKeepsInv(s.session, Readers.Drop(s.reader)); }
  }

  lemma InterruptKeepsTold(s: State)
    requires Told(s) && Can(s, Interrupt)
    ensures Told(Step(s, Interrupt))
  {
    var t := Step(s, Interrupt);
    DroppedKeeps(s);
    OutOfBandTurn(s, t, OutOfBand(Pong));
    assert s.schedule[..s.answered] == s.schedule;
    ReplySent(s.greeting, s.schedule, OutOfBand(Pong), Pong);
  }

  /** The reader's log and what was drawn from it stay as they are. */
  lemma OutOfBandTurn(s: State, t: State, turn: Select)
    requires s.reader in s.session.readers && Drawn(s) && Answering(s) && s.phase.AtSelect?
    requires turn == OutOfBand(Pong) || turn == OutOfBandClosed
    requires t.reader == s.reader && t.reader in t.session.readers && t.Mine().log == s.Mine().log
    requires t.phase.AtSelect? && t.schedule == s.schedule + [turn] && t.answered == |t.schedule|
    ensures Drawn(t) && Answering(t) && t.schedule[..t.answered] == t.schedule
  {
    ChunksMore(s.schedule, turn);
    assert t.schedule[..t.answered] == t.schedule && t.schedule[..|t.schedule| - 1] == s.schedule;
  }

  lemma OutOfBandEndsKeepsTold(s: State)
    requires Told(s) && Can(s, OutOfBandEnds)
    ensures Told(Step(s, OutOfBandEnds))
  {
    var t := Step(s, OutOfBandEnds);
    DroppedKeeps(s);
    OutOfBandTurn(s, t, OutOfBandClosed);
    ChunksMore(s.schedule, OutOfBandClosed);
    OneMoreTurn(s.schedule, OutOfBandClosed);
    assert s.schedule[..s.answered] == s.schedule;
    assert Replies(s.schedule) + [] == Replies(s.schedule);
  }

  lemma OwnKeepsTold(s: State, b: Readers.Action)
    requires Told(s) && Can(s, Own(b))
    ensures Told(Step(s, Own(b)))
  {
    Readers.StepKeepsInv(s.session, b);
    if b.Check? {
      CheckLogs(s.session, s.reader);
      var session := Readers.Step(s.session, b);
      match s.session.inner.Look(s.Mine().cursor).poll
      case Chunk(bytes) => TurnedKeepsTold(s, session, Holding(bytes), Select.Chunk(bytes));
      case Finished => TurnedKeepsTold(s, session, Ending, EndOfOutput);
      case Wait =>
    } else {
      OwnKeepsLog(s.session, b, s.reader);
    }
  }

  lemma StepKeepsTold(s: State, a: Action)
    requires Told(s) && Can(s, a)
    ensures Told(Step(s, a))
  {
    match a
    case Others(b) =>
      Readers.StepKeepsInv(s.session, b);
      ForeignKeepsLog(s.session, b, s.reader);
    case Own(b) => OwnKeepsTold(s, b);
    case Interrupt => InterruptKeepsTold(s);
    case OutOfBandEnds => OutOfBandEndsKeepsTold(s);
    case Count =>
    case SendChunk => SendKeepsTold(s, AtSelect, Output(s.phase.bytes));
    case SendClosed => SendKeepsTold(s, Gone, Closed);
    case Stop =>
  }

  // --------------------------------------------------- every step is metered

  lemma TickMore(ticks: seq<Metering.Step>, tick: Metering.Step, cap: nat)
    requires Metering.Run(ticks, cap).Some? && Metering.Can(Metering.Run(ticks, cap).value, tick, cap)
    ensures Metering.Run(ticks + [tick], cap) == Some(Metering.Next(Metering.Run(ticks, cap).value, tick, cap))
  {
    assert (ticks + [tick])[..|ticks|] == ticks;
  }

  lemma ReadersKeepMax(s: Readers.State, a: Readers.Action)
    requires Readers.Can(s, a)
    ensures Readers.Step(s, a).inner.maxBytes == s.inner.maxBytes
  {
  }

  lemma LookFits(s: State)
    requires Readers.Inv(s.session) && s.reader in s.session.readers && s.session.inner.Addressed()
    ensures var poll := s.session.inner.Look(s.Mine().cursor).poll;
            poll.Chunk? ==> |poll.bytes| <= s.session.inner.maxBytes
  {
  }

  lemma OwnKeepsTicked(s: State, b: Readers.Action)
    requires Inv(s) && Can(s, Own(b))
    ensures Ticked(Step(s, Own(b)))
  {
    ReadersKeepMax(s.session, b);
    if b.Check? {
      LookFits(s);
      match s.session.inner.Look(s.Mine().cursor).poll
      case Chunk(bytes) =>
        ChunksMore(s.schedule, Select.Chunk(bytes));
        TickMore(s.ticks, Metering.Take(|bytes|), s.session.inner.maxBytes);
      case Finished => ChunksMore(s.schedule, EndOfOutput);
      case Wait =>
    }
  }

  lemma OutOfBandKeepsTicked(s: State, a: Action)
    requires Inv(s) && Can(s, a) && (a.Interrupt? || a.OutOfBandEnds?)
    ensures Ticked(Step(s, a))
  {
    if s.Mine().pc.Parked? { ReadersKeepMax(s.session, Readers.Drop(s.reader)); }
    ChunksMore(s.schedule, if a.Interrupt? then OutOfBand(Pong) else OutOfBandClosed);
    PayloadMore(s.sent, Pong);
  }

  lemma StepKeepsTicked(s: State, a: Action)
    requires Inv(s) && Can(s, a)
    ensures Ticked(Step(s, a))
  {
    var cap := s.session.inner.maxBytes;
    match a
    case Others(b) => ReadersKeepMax(s.session, b);
    case Own(b) => OwnKeepsTicked(s, b);
    case Interrupt => OutOfBandKeepsTicked(s, a);
    case OutOfBandEnds => OutOfBandKeepsTicked(s, a);
    case Count => TickMore(s.ticks, Metering.Count, cap);
    case SendChunk =>
      PayloadMore(s.sent, Output(s.phase.bytes));
      TickMore(s.ticks, Metering.Sent, cap);
    case SendClosed =>
      PayloadMore(s.sent, Closed);
      TickMore(s.ticks, Metering.Abort, cap);
    case Stop => TickMore(s.ticks, Metering.Abort, cap);
  }

  lemma StepKeepsInv(s: State, a: Action)
    requires Inv(s) && Can(s, a)
    ensures Inv(Step(s, a))
  {
    StepKeepsTold(s, a);
    StepKeepsTicked(s, a);
  }

  // ---------------------------------------------------------------- theorems

  /** A client has just been greeted and given a fresh reader of a session in any
      state it can be in. */
  ghost predicate Initial(s: State) {
    && Readers.Inv(s.session) && s.reader in s.session.readers && s.Mine() == Readers.Reader(Readers.Idle, 0, [])
    && s.phase == AtSelect && s.schedule == [] && s.answered == 0
    && Greets(s.greeting) && s.sent == s.greeting && s.counts == Counts(0, 0, 0) && s.ticks == []
  }

  ghost predicate IsRun(run: seq<State>, acts: seq<Action>) {
    && |run| == |acts| + 1
    && Initial(run[0])
    && forall i :: 0 <= i < |acts| ==> Can(run[i], acts[i]) && run[i + 1] == Step(run[i], acts[i])
  }

  lemma {:induction false} RunKeepsInv(run: seq<State>, acts: seq<Action>, i: nat)
    requires IsRun(run, acts) && i < |run|
    ensures Inv(run[i])
  {
    if i > 0 {
      RunKeepsInv(run, acts, i - 1);
      StepKeepsInv(run[i - 1], acts[i - 1]);
    } else {
      AtFirst(run[0]);
    }
  }

  lemma AtFirst(s: State)
    requires Initial(s)
    ensures Inv(s)
  {
    assert s.schedule[..0] == [] && s.greeting + [] == s.greeting;
  }

  /** What the reader was given, of which all but the chunk in hand has been sent, is
      the session's output with exactly the skipped positions left out. */
  lemma SentIsOutput(s: State)
    requires Inv(s)
    ensures s.Mine().cursor <= |s.session.history|
    ensures Chunks(s.schedule) == Delivery.Except(s.session.history, s.Mine().cursor, s.Mine().log)
    ensures Payload(s.sent) <= Chunks(s.schedule)
    ensures s.answered == |s.schedule| ==> Payload(s.sent) == Chunks(s.schedule)
  {
    assert Readers.ReaderOk(s.Mine(), s.session);
    Delivery.LogIsOutput(s.Mine().log, s.session.history, s.Mine().cursor, s.session.inner.maxBytes);
    if s.answered == |s.schedule| {
      assert s.schedule[..s.answered] == s.schedule;
    } else {
      assert s.schedule[..|s.schedule| - 1] == s.schedule[..s.answered];
    }
  }

  /** In every run, cut the connection's stream anywhere: the output its client decodes
      is a prefix of the session's output with exactly the skipped bytes left out. */
  lemma ClientSeesOutput(run: seq<State>, acts: seq<Action>, i: nat, wire: Bytes, cut: nat)
    requires IsRun(run, acts) && i < |run|
    requires OnWire([], run[i].sent, wire) && cut <= |wire|
    ensures run[i].reader in run[i].session.readers && run[i].Mine().cursor <= |run[i].session.history|
    ensures Payload(ReceiveAll(wire[..cut], TakeServer).frames)
         <= Delivery.Except(run[i].session.history, run[i].Mine().cursor, run[i].Mine().log)
  {
    RunKeepsInv(run, acts, i);
    SentIsOutput(run[i]);
    DecodedPayload(run[i].sent, wire, cut);
  }

  lemma DecodedPayload(sent: seq<ServerFrame>, wire: Bytes, cut: nat)
    requires OnWire([], sent, wire) && cut <= |wire|
    ensures Payload(ReceiveAll(wire[..cut], TakeServer).frames) <= Payload(sent)
  {
    ServersAreSendable(sent);
    assert wire == Stream(sent, EncodeServer);
    CutStream(sent, EncodeServer, TakeServer, cut);
    PayloadPrefix(sent, Whole(sent, EncodeServer, cut));
  }

  /** In every run, a client told `Closed` has been sent all there ever was and will be
      of the output, less the skipped positions; and the frames keep the grammar. */
  lemma ClosedMeansAll(run: seq<State>, acts: seq<Action>, i: nat)
    requires IsRun(run, acts) && i < |run|
    ensures run[i].reader in run[i].session.readers
    ensures Scan(run[i].sent) in {ReplyGrammar.Streaming, ReplyGrammar.Over}
    ensures Scan(run[i].sent) == ReplyGrammar.Over ==>
              && run[i].session.inner.closed && run[i].Mine().cursor == |run[i].session.history|
              && Payload(run[i].sent)
                 == Delivery.Except(run[i].session.history, |run[i].session.history|, run[i].Mine().log)
  {
    RunKeepsInv(run, acts, i);
    var s := run[i];
    SentIsOutput(s);
    RepliesKeepGrammar(s.greeting, s.schedule[..s.answered]);
    if EndOfOutput in s.schedule[..s.answered] {
      assert s.answered == |s.schedule|;
      assert s.schedule[..s.answered] == s.schedule;
      assert Readers.ReaderOk(s.Mine(), s.session);
    }
  }

  // ------------------------------------------------------- what is reported

  ghost predicate Continues(s: State, t: State) {
    s.ticks <= t.ticks && t.session.inner.maxBytes == s.session.inner.maxBytes
  }

  lemma StepContinues(s: State, a: Action)
    requires Can(s, a)
    ensures Continues(s, Step(s, a))
  {
    match a
    case Others(b) => ReadersKeepMax(s.session, b);
    case Own(b) => ReadersKeepMax(s.session, b);
    case _ => if s.Mine().pc.Parked? { ReadersKeepMax(s.session, Readers.Drop(s.reader)); }
  }

  lemma ContinuesOn(s: State, t: State, u: State)
    requires Continues(s, t) && Continues(t, u)
    ensures Continues(s, u)
  {
  }

  lemma RunContinues(run: seq<State>, acts: seq<Action>, i: nat)
    requires IsRun(run, acts) && i < |acts|
    ensures Continues(run[i], run[i + 1])
  {
    StepContinues(run[i], acts[i]);
  }

  ghost predicate AllContinue(run: seq<State>) {
    forall j :: 0 <= j < |run| - 1 ==> Continues(run[j], run[j + 1])
  }

  lemma {:induction false} RunsOn(run: seq<State>, k: nat, i: nat)
    requires AllContinue(run) && k <= i < |run|
    ensures Continues(run[k], run[i])
  {
    if k < i {
      RunsOn(run, k, i - 1);
      assert Continues(run[i - 1], run[i - 1 + 1]);
      ContinuesOn(run[k], run[i - 1], run[i]);
    }
  }

  lemma RunAllContinues(run: seq<State>, acts: seq<Action>)
    requires IsRun(run, acts)
    ensures AllContinue(run)
  {
    forall j | 0 <= j < |run| - 1 ensures Continues(run[j], run[j + 1]) { RunContinues(run, acts, j); }
  }

  /** In every run, the bytes metered when the totals are read lie between what had been
      sent by then and what is metered in the end, within one chunk of the former. They
      are what had been sent by then exactly if no non-empty chunk was being sent, or was
      lost so, and what is sent in the end exactly if the bytes counted since are those
      lost in the end. */
  lemma ReportInRun(run: seq<State>, acts: seq<Action>, k: nat, i: nat)
    requires IsRun(run, acts) && k <= i < |run|
    ensures var early, end := run[k], run[i];
            && |Payload(early.sent)| <= early.counts.metered <= |Payload(early.sent)| + early.session.inner.maxBytes
            && early.counts.metered <= end.counts.metered && early.ticks <= end.ticks
            && (early.counts.metered == |Payload(early.sent)| <==> Metering.Unsent(early.ticks) == 0)
            && (early.counts.metered == |Payload(end.sent)|
                <==> Metering.CountedSince(end.ticks, |early.ticks|) == Metering.Unsent(end.ticks))
            && (!early.phase.Gone? ==>
                  Metering.Unsent(early.ticks) == if early.phase.Sending? then |early.phase.bytes| else 0)
  {
    RunKeepsInv(run, acts, k);
    RunKeepsInv(run, acts, i);
    RunAllContinues(run, acts);
    RunsOn(run, k, i);
    var cap := run[i].session.inner.maxBytes;
    assert run[i].ticks[..|run[k].ticks|] == run[k].ticks;
    Metering.ReportIsSentIff(run[i].ticks, |run[k].ticks|, cap);
    Metering.MeteringBounds(run[k].ticks, cap);
  }
}
