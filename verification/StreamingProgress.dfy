/** What there is to send goes out: whenever the sender task selects and its reader has
    something to return, the task's own steps put it on the wire. */
module StreamingProgress {
  import opened Frames
  import opened Scrollback
  import Readers
  import Delivery
  import opened Streaming

  /** A step of the task itself. */
  predicate Itself(a: Action) { a.Own? || a.Count? || a.SendChunk? || a.SendClosed? }

  /** `run` goes on by such steps. */
  ghost predicate GoesOn(acts: seq<Action>, more: seq<Action>) {
    acts <= more && forall k :: |acts| <= k < |more| ==> Itself(more[k])
  }

  lemma OneMore(run: seq<State>, acts: seq<Action>, a: Action) returns (longer: seq<State>)
    requires IsRun(run, acts) && Can(run[|acts|], a)
    ensures IsRun(longer, acts + [a]) && longer[|acts| + 1] == Step(run[|acts|], a)
  {
    longer := run + [Step(run[|acts|], a)];
  }

  /** What its next look gives it. */
  ghost function Due(s: State): Poll
    requires s.reader in s.session.readers && s.Mine().cursor <= |s.session.history|
  {
    Outcome(Unread(s.session.history, s.session.inner.maxBytes, s.Mine().cursor), s.session.inner.closed)
  }

  /** The task selects, nothing is on its way to its reader, and there is something there. */
  ghost predicate Ready(s: State, due: Poll) {
    && s.reader in s.session.readers && s.phase.AtSelect? && s.Mine().cursor <= |s.session.history|
    && s.Mine().pc != Readers.Parked(false) && |s.session.inner.buf| < 0x1_0000_0000_0000_0000
    && !due.Wait? && due == Due(s)
  }

  function Steps(pc: Readers.Pc): nat {
    match pc
    case Idle => 3
    case Created(_) => 2
    case Enabled(_) => 1
    case Parked(_) => 5
    case Woken => 4
  }

  /** The next step of `next` in each of its places. */
  function Onward(s: State): Readers.Action
    requires s.reader in s.session.readers
  {
    match s.Mine().pc
    case Idle => Readers.Begin(s.reader)
    case Created(_) => Readers.Enable(s.reader)
    case Enabled(_) => Readers.Check(s.reader)
    case Parked(_) => Readers.Wake(s.reader)
    case Woken => Readers.Rearm(s.reader)
  }

  lemma OnwardKeepsReady(s: State, due: Poll)
    requires Inv(s) && Ready(s, due) && !s.Mine().pc.Enabled?
    ensures Can(s, Own(Onward(s)))
    ensures var t := Step(s, Own(Onward(s)));
            Ready(t, due) && Steps(t.Mine().pc) < Steps(s.Mine().pc) && t.sent == s.sent && t.session.history == s.session.history
  {
  }

  /** It has been taken from the reader: a chunk in hand, or the end. */
  predicate Taken(phase: Phase, due: Poll) {
    match due
    case Chunk(bytes) => phase.Holding? && phase.bytes == bytes
    case Finished => phase.Ending?
    case Wait => false
  }

  /** And this is the frame for it. */
  predicate Carries(frame: ServerFrame, due: Poll) {
    match due
    case Chunk(bytes) => frame.Output? && frame.bytes == bytes
    case Finished => frame == Closed
    case Wait => false
  }

  /** The look itself. */
  lemma LookTakes(s: State, due: Poll)
    requires Inv(s) && Ready(s, due) && s.Mine().pc.Enabled?
    ensures Can(s, Own(Onward(s)))
    ensures var t := Step(s, Own(Onward(s)));
            Taken(t.phase, due) && t.sent == s.sent && t.session.history == s.session.history
  {
    LookMeaning(s.session.inner, s.session.history, s.Mine().cursor);
  }

  ghost predicate Since(s: State, t: State) { t.sent == s.sent && t.session.history == s.session.history }

  lemma MovesOn(run: seq<State>, acts: seq<Action>, due: Poll) returns (next: seq<State>, a: Action)
    requires IsRun(run, acts) && Ready(run[|acts|], due)
    ensures IsRun(next, acts + [a]) && Itself(a) && Since(run[|acts|], next[|acts| + 1])
    ensures if run[|acts|].Mine().pc.Enabled? then Taken(next[|acts| + 1].phase, due)
            else Ready(next[|acts| + 1], due) && Steps(next[|acts| + 1].Mine().pc) < Steps(run[|acts|].Mine().pc)
  {
    var s := run[|acts|];
    assert Inv(s) by { RunKeepsInv(run, acts, |acts|); }
    a := Own(Onward(s));
    if s.Mine().pc.Enabled? { LookTakes(s, due); } else { OnwardKeepsReady(s, due); }
    next := OneMore(run, acts, a);
  }

  lemma {:induction false} Takes(run: seq<State>, acts: seq<Action>, due: Poll) returns (longer: seq<State>, more: seq<Action>)
    requires IsRun(run, acts) && Ready(run[|acts|], due)
    ensures IsRun(longer, more) && GoesOn(acts, more)
    ensures Since(run[|acts|], longer[|more|]) && Taken(longer[|more|].phase, due)
    decreases Steps(run[|acts|].Mine().pc)
  {
    var a;
    longer, a := MovesOn(run, acts, due);
    more := acts + [a];
    if !run[|acts|].Mine().pc.Enabled? {
      longer, more := Takes(longer, more, due);
    }
  }

  lemma SendsChunk(run: seq<State>, acts: seq<Action>) returns (longer: seq<State>)
    requires IsRun(run, acts) && run[|acts|].phase.Holding? && run[|acts|].reader in run[|acts|].session.readers
    ensures IsRun(longer, acts + [Count] + [SendChunk])
    ensures var s, t := run[|acts|], longer[|acts| + 2];
            t.sent == s.sent + [Output(s.phase.bytes)] && t.session.history == s.session.history && t.phase.AtSelect?
  {
    var counted := OneMore(run, acts, Count);
    longer := OneMore(counted, acts + [Count], SendChunk);
  }

  lemma Sends(run: seq<State>, acts: seq<Action>, due: Poll)
    returns (longer: seq<State>, more: seq<Action>, frame: ServerFrame)
    requires IsRun(run, acts) && Taken(run[|acts|].phase, due) && run[|acts|].reader in run[|acts|].session.readers
    ensures IsRun(longer, more) && GoesOn(acts, more) && Carries(frame, due)
    ensures var s, t := run[|acts|], longer[|more|];
            && t.sent == s.sent + [frame] && t.session.history == s.session.history
            && (if due.Chunk? then t.phase.AtSelect? else t.phase.Gone?)
  {
    if due.Chunk? {
      frame := Output(run[|acts|].phase.bytes);
      longer := SendsChunk(run, acts);
      more := acts + [Count] + [SendChunk];
    } else {
      frame := Closed;
      longer := OneMore(run, acts, SendClosed);
      more := acts + [SendClosed];
    }
  }

  /** In every run: a task at its `select!`, while ingest owes no notify, with output or the
      end of it to be had, sends by its own steps just what is due: in one frame everything
      its reader has not skipped or returned yet, or `Closed`. */
  lemma WhatIsDueGoesOut(run: seq<State>, acts: seq<Action>, due: Poll)
    returns (longer: seq<State>, more: seq<Action>, frame: ServerFrame)
    requires IsRun(run, acts) && run[|acts|].phase.AtSelect? && !run[|acts|].session.ingest.Owes()
    requires |run[|acts|].session.inner.buf| < 0x1_0000_0000_0000_0000
    requires run[|acts|].reader in run[|acts|].session.readers && run[|acts|].Mine().cursor <= |run[|acts|].session.history|
    requires due == Due(run[|acts|]) && !due.Wait?
    ensures IsRun(longer, more) && GoesOn(acts, more) && Carries(frame, due)
    ensures var s, t := run[|acts|], longer[|more|];
            && t.sent == s.sent + [frame] && t.session.history == s.session.history
            && (if due.Chunk? then t.phase.AtSelect? else t.phase.Gone?)
  {
    assert Inv(run[|acts|]) by { RunKeepsInv(run, acts, |acts|); }
    DueIsNotAsleep(run[|acts|]);
    var mid, some := Takes(run, acts, due);
    assert Inv(mid[|some|]) by { RunKeepsInv(mid, some, |some|); }
    longer, more, frame := Sends(mid, some, due);
  }

  lemma DueIsNotAsleep(s: State)
    requires Inv(s) && s.Mine().cursor <= |s.session.history| && !Due(s).Wait? && !s.session.ingest.Owes()
    ensures s.Mine().pc != Readers.Parked(false)
  {
    assert Readers.ReaderOk(s.Mine(), s.session);
  }
}
