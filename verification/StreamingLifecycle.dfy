/** One client's sender task in the machine of all handlers: whatever the task does, its
    handler does the same there, so what is proved of every run of the handlers holds of
    a connection that streams. */
module StreamingLifecycle {
  import opened Frames
  import opened ReplyGrammar
  import opened Sessions
  import Readers
  import Sender
  import opened Streaming
  import L = Lifecycle
  import LifecycleTheorems

  /** `s` is the sender task of handler `h`, which serves session `x`. */
  ghost predicate Tracks(s: State, all: L.State, h: L.HandlerId, x: Session) {
    && h in all.handlers && all.handlers[h].sent == s.sent
    && all.handlers[h].sender == (if s.phase.Gone? then L.Quiet else L.Streams(x))
    && x.id in all.drawn && (s.session.inner.closed <==> x.id in all.ended)
  }

  /** What a step of the task, or of its session, is there. */
  function Lifted(s: State, a: Action, h: L.HandlerId, x: Session): Option<L.Action> {
    match a
    case Others(b) => if b.IngestClose? then Some(L.SessionEnds(x.id)) else None
    case Own(_) => None
    case Interrupt => Some(L.Emit(h, Pong))
    case OutOfBandEnds => None
    case Count => None
    case SendChunk => if s.phase.Sending? then Some(L.Emit(h, Output(s.phase.bytes))) else None
    case SendClosed => Some(L.EmitClosed(h))
    case Stop => Some(L.StopSender(h))
  }

  ghost predicate Follows(s: State, t: State, all: L.State, b: Option<L.Action>, h: L.HandlerId, x: Session) {
    match b
    case None => Tracks(t, all, h, x)
    case Some(b) => L.Can(all, b) && Tracks(t, L.Step(all, b), h, x)
  }

  lemma Emits(s: State, t: State, all: L.State, f: ServerFrame, h: L.HandlerId, x: Session)
    requires Tracks(s, all, h, x) && !s.phase.Gone? && (f.Output? || f.Pong?)
    requires t.sent == s.sent + [f] && !t.phase.Gone? && t.session.inner.closed == s.session.inner.closed
    ensures Follows(s, t, all, Some(L.Emit(h, f)), h, x)
  {
  }

  lemma Ends(s: State, t: State, all: L.State, h: L.HandlerId, x: Session)
    requires Tracks(s, all, h, x) && t.sent == s.sent && t.phase.Gone? == s.phase.Gone? && t.session.inner.closed
    ensures Follows(s, t, all, Some(L.SessionEnds(x.id)), h, x)
  {
  }

  lemma Leaves(s: State, t: State, all: L.State, h: L.HandlerId, x: Session)
    requires Tracks(s, all, h, x) && !s.phase.Gone? && t.phase.Gone? && t.session.inner.closed == s.session.inner.closed
    ensures t.sent == s.sent ==> Follows(s, t, all, Some(L.StopSender(h)), h, x)
    ensures t.sent == s.sent + [Closed] && s.session.inner.closed ==> Follows(s, t, all, Some(L.EmitClosed(h)), h, x)
  {
  }

  lemma StepLifts(s: State, a: Action, all: L.State, h: L.HandlerId, x: Session)
    requires Inv(s) && Can(s, a) && Tracks(s, all, h, x)
    ensures Follows(s, Step(s, a), all, Lifted(s, a, h, x), h, x)
  {
    var t := Step(s, a);
    match a
    case Others(b) =>
      ClosedByIngest(s.session, b);
      if b.IngestClose? { Ends(s, t, all, h, x); }
    case Own(b) => ClosedByIngest(s.session, b);
    case Interrupt =>
      DropKeepsClosed(s);
      Emits(s, t, all, Pong, h, x);
    case OutOfBandEnds => DropKeepsClosed(s);
    case Count =>
    case SendChunk => Emits(s, t, all, Output(s.phase.bytes), h, x);
    case SendClosed =>
      EndingIsClosed(s);
      Leaves(s, t, all, h, x);
    case Stop => Leaves(s, t, all, h, x);
  }

  lemma DropKeepsClosed(s: State)
    requires s.reader in s.session.readers
    ensures Dropped(s).inner == s.session.inner
  {
  }

  lemma ClosedByIngest(s: Readers.State, a: Readers.Action)
    requires Readers.Can(s, a)
    ensures Readers.Step(s, a).inner.closed <==> s.inner.closed || a.IngestClose?
  {
  }

  lemma EndingIsClosed(s: State)
    requires Inv(s) && s.phase.Ending?
    ensures s.session.inner.closed
  {
    assert Sender.EndOfOutput in s.schedule by { assert s.schedule[s.answered] == Sender.EndOfOutput; }
    assert Readers.ReaderOk(s.Mine(), s.session);
  }

  function Listed(a: Option<L.Action>): seq<L.Action> { if a.Some? then [a.value] else [] }

  /** What the first `i` steps of a run are there. */
  function LiftedRun(run: seq<State>, acts: seq<Action>, i: nat, h: L.HandlerId, x: Session): seq<L.Action>
    requires i <= |acts| && i <= |run|
  {
    if i == 0 then []
    else LiftedRun(run, acts, i - 1, h, x) + Listed(Lifted(run[i - 1], acts[i - 1], h, x))
  }

  /** A run of the handlers that this task's state goes with at its end. */
  ghost predicate Leads(whole: seq<L.State>, acts: seq<L.Action>, s: State, h: L.HandlerId, x: Session) {
    LifecycleTheorems.IsRun(whole, acts) && Tracks(s, whole[|acts|], h, x)
  }

  lemma LifecycleOneMore(run: seq<L.State>, acts: seq<L.Action>, a: L.Action)
    requires LifecycleTheorems.IsRun(run, acts) && L.Can(run[|acts|], a)
    ensures LifecycleTheorems.IsRun(run + [L.Step(run[|acts|], a)], acts + [a])
  {
  }

  ghost predicate Moves(s: State, a: Action, t: State) { Inv(s) && Can(s, a) && t == Step(s, a) }

  lemma LeadsOn(whole: seq<L.State>, acts: seq<L.Action>, s: State, a: Action, t: State, h: L.HandlerId, x: Session)
    returns (longer: seq<L.State>)
    ensures Leads(whole, acts, s, h, x) && Moves(s, a, t) ==> Leads(longer, acts + Listed(Lifted(s, a, h, x)), t, h, x)
  {
    longer := whole;
    if Leads(whole, acts, s, h, x) && Moves(s, a, t) {
      var last := Lifted(s, a, h, x);
      StepLifts(s, a, whole[|acts|], h, x);
      if last.Some? {
        LifecycleOneMore(whole, acts, last.value);
        longer := whole + [L.Step(whole[|acts|], last.value)];
      } else {
        assert acts + [] == acts;
      }
    }
  }

  lemma RunMoves(run: seq<State>, acts: seq<Action>, i: nat)
    requires IsRun(run, acts) && i < |acts|
    ensures Moves(run[i], acts[i], run[i + 1])
  {
    RunKeepsInv(run, acts, i);
  }

  /** From wherever a run of the handlers has brought the task's handler when it starts to
      stream, every run of the task goes on as a run of the handlers, which sends the same
      frames and ends the session at the same time. */
  lemma {:induction false} EveryRunLifts(run: seq<State>, acts: seq<Action>, i: nat, before: seq<L.State>,
                                         lead: seq<L.Action>, h: L.HandlerId, x: Session)
    returns (whole: seq<L.State>)
    requires IsRun(run, acts) && i < |run| && Leads(before, lead, run[0], h, x)
    ensures Leads(whole, lead + LiftedRun(run, acts, i, h, x), run[i], h, x)
  {
    if i == 0 {
      whole := before;
      assert lead + [] == lead;
    } else {
      var most := EveryRunLifts(run, acts, i - 1, before, lead, h, x);
      var lifted := LiftedRun(run, acts, i - 1, h, x);
      RunMoves(run, acts, i - 1);
      whole := LeadsOn(most, lead + lifted, run[i - 1], acts[i - 1], run[i], h, x);
      Regroup(lead, lifted, Listed(Lifted(run[i - 1], acts[i - 1], h, x)));
    }
  }

  // --------------------------------------------------------------- the start

  lemma {:induction false} NoOutputBeforeLive(frames: seq<ServerFrame>)
    requires Scan(frames) in {Silent, Signing, ReplyGrammar.Greeted}
    ensures Payload(frames) == []
  {
    if frames != [] {
      NoOutputBeforeLive(frames[..|frames| - 1]);
    }
  }

  /** The task of a connection just told `Live`. */
  function Begun(session: Readers.State, r: Readers.ReaderId, greeting: seq<ServerFrame>): State {
    State(session, r, AtSelect, [], 0, greeting, greeting, Counts(0, 0, 0), [])
  }

  /** A handler that sends `Status(Live)` starts such a task: its runs begin here. */
  lemma StreamingBegins(all: L.State, h: L.HandlerId, session: Readers.State, r: Readers.ReaderId)
    requires L.Inv(all) && L.Can(all, L.SendStatus(h))
    requires Readers.Inv(session) && r in session.readers && session.readers[r] == Readers.Reader(Readers.Idle, 0, [])
    requires session.inner.closed <==> all.handlers[h].pc.s.id in all.ended
    ensures var live := L.Step(all, L.SendStatus(h));
            var s := Begun(session, r, live.handlers[h].sent);
            Initial(s) && Tracks(s, live, h, all.handlers[h].pc.s)
  {
    var sent := all.handlers[h].sent;
    assert L.HandlerOk(all.handlers[h], all);
    ScanOneMore(sent, Status(Live));
    NoOutputBeforeLive(sent);
    PayloadMore(sent, Status(Live));
  }

  // ---------------------------------------------------- everything else there

  /** Not a step of this task, nor the end of its session. */
  predicate Elsewhere(a: L.Action, h: L.HandlerId, x: Session) {
    && !((a.Emit? || a.EmitClosed? || a.StopSender?) && a.h == h)
    && a != L.SessionEnds(x.id)
  }

  /** What happens elsewhere, in other handlers and in this one's receiver, may come in
      between anywhere. */
  lemma ElsewhereKeepsTracks(s: State, all: L.State, a: L.Action, h: L.HandlerId, x: Session)
    requires L.Inv(all) && L.Can(all, a) && Tracks(s, all, h, x) && Elsewhere(a, h, x)
    ensures Tracks(s, L.Step(all, a), h, x)
  {
    assert L.PhaseOk(all.handlers[h]) by { assert L.HandlerOk(all.handlers[h], all); }
    SenderLeftAlone(all, a, h, x);
    SessionLeftAlone(all, a, h, x);
  }

  lemma SenderLeftAlone(all: L.State, a: L.Action, h: L.HandlerId, x: Session)
    requires L.Can(all, a) && Elsewhere(a, h, x) && h in all.handlers
    requires L.PhaseOk(all.handlers[h]) && !all.handlers[h].sender.NoSender?
    ensures var t := L.Step(all, a);
            h in t.handlers && t.handlers[h].sent == all.handlers[h].sent && t.handlers[h].sender == all.handlers[h].sender
  {
  }

  lemma SessionLeftAlone(all: L.State, a: L.Action, h: L.HandlerId, x: Session)
    requires L.Can(all, a) && Elsewhere(a, h, x)
    ensures x.id in all.drawn ==> x.id in L.Step(all, a).drawn
    ensures x.id in L.Step(all, a).ended <==> x.id in all.ended
  {
  }
}
