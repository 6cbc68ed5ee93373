/** What a client is sent and what the control plane sees, read off the steps taken. */
module LifecycleTrace {
  import opened Frames
  import opened Places
  import opened Sessions
  import opened ReplyGrammar
  import opened Lifecycle
  import opened LifecycleProofs
  import opened LifecycleTheorems

  /** What a step sends to the client of handler `h`. */
  function SentBy(s: State, a: Action, h: HandlerId): Option<ServerFrame> {
    if a.SessionEnds? || a.h != h then None
    else match a
      case Sign(_, frame) => Some(frame)
      case SendError(_, frame) => Some(frame)
      case SendHello(_) =>
        if PcOf(s, h).Greeting? then
          Some(ServerHello(PROTOCOL_VERSION, PcOf(s, h).s.id, PcOf(s, h).resumed, PcOf(s, h).s.token))
        else None
      case SendStatus(_) => Some(Status(Live))
      case Emit(_, frame) => Some(frame)
      case EmitClosed(_) => Some(Closed)
      case _ => None
  }

  /** What it reports. */
  function ReportedBy(s: State, a: Action): Option<Event> {
    match a
    case Approve(h) => if PcOf(s, h).AwaitVerdict? then Some(OpenOk(PcOf(s, h).s.id)) else None
    case Authorized(h) =>
      var found := if PcOf(s, h).Authorizing? && PcOf(s, h).resume.Some? then s.reg.Resume(PcOf(s, h).resume.value) else None;
      if found.Some? then Some(Resumed(found.value.id)) else None
    case SendHello(h) => if PcOf(s, h).Greeting? then Some(Event.Greeted(PcOf(s, h).s.id)) else None
    case ReportUsage(h) => if PcOf(s, h).Reporting? then Some(UsageReported(PcOf(s, h).s.id)) else None
    case Decide(h) =>
      if PcOf(s, h).Deciding? && (PcOf(s, h).asked || PcOf(s, h).s.id in s.ended) then Some(SlotClosed(PcOf(s, h).s.id))
      else None
    case _ => None
  }

  function SentIn(run: seq<State>, acts: seq<Action>, h: HandlerId): nat -> Option<ServerFrame> {
    (i: nat) => if i < |acts| && i < |run| then SentBy(run[i], acts[i], h) else None
  }

  function ReportedIn(run: seq<State>, acts: seq<Action>): nat -> Option<Event> {
    (i: nat) => if i < |acts| && i < |run| then ReportedBy(run[i], acts[i]) else None
  }

  /** What has been sent to a client so far. */
  function SentTo(s: State, h: HandlerId): seq<ServerFrame> { if h in s.handlers then s.handlers[h].sent else [] }

  lemma StepSends(s: State, a: Action, h: HandlerId)
    requires Can(s, a)
    ensures SentTo(Step(s, a), h) == SentTo(s, h) + Listed(SentBy(s, a, h))
  {
    assert SentTo(s, h) + [] == SentTo(s, h);
    if a.SessionEnds? || a.h != h { OthersStay(s, a, h); }
  }

  lemma StepReports(s: State, a: Action)
    requires Can(s, a)
    ensures Step(s, a).log == s.log + Listed(ReportedBy(s, a))
  {
    assert s.log + [] == s.log;
  }

  /** In every run, what a client has been sent is exactly what the steps of its handler
      sent, in order. */
  lemma {:induction false} ClientGetsWhatIsSent(run: seq<State>, acts: seq<Action>, i: nat, h: HandlerId)
    returns (at: seq<nat>)
    requires IsRun(run, acts) && i < |run|
    ensures Lists(SentTo(run[i], h), at, i, SentIn(run, acts, h))
  {
    at := [];
    if i > 0 {
      at := ClientGetsWhatIsSent(run, acts, i - 1, h);
      StepSends(run[i - 1], acts[i - 1], h);
      ListsMore(SentTo(run[i - 1], h), at, i - 1, SentIn(run, acts, h), SentIn(run, acts, h));
      at := More(at, i - 1, SentIn(run, acts, h));
    }
  }

  /** And the control plane sees exactly what the steps reported. */
  lemma {:induction false} LogIsWhatIsReported(run: seq<State>, acts: seq<Action>, i: nat) returns (at: seq<nat>)
    requires IsRun(run, acts) && i < |run|
    ensures Lists(run[i].log, at, i, ReportedIn(run, acts))
  {
    at := [];
    if i > 0 {
      at := LogIsWhatIsReported(run, acts, i - 1);
      StepReports(run[i - 1], acts[i - 1]);
      ListsMore(run[i - 1].log, at, i - 1, ReportedIn(run, acts), ReportedIn(run, acts));
      at := More(at, i - 1, ReportedIn(run, acts));
    }
  }
}
