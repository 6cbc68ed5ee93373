/** Any number of connection handlers over one shared registry, interleaving at
    every `await` of `handle_connection` and `negotiate` (`gw-server`).

    Assumed of the surroundings: ids and tokens are never drawn twice, and a client
    presents a token it was sent or one that no session has or will get. */
module Lifecycle {
  import opened Frames
  import opened Sessions
  import opened ReplyGrammar

  type HandlerId = nat

  datatype Pc =
    | AwaitHello
    | Authorizing(resume: Option<Token>)
    | AwaitOpen
    | Connecting
    | AwaitVerdict(s: Session)                   // registered; `session_open` asked
    | Denied(s: Session)                         // `session_open` refused; `remove` is next
    | Rejecting                                  // removed; the error frame is next
    | Greeting(s: Session, resumed: bool)        // `Hello` is next
    | Confirming(s: Session)                     // `Status(Live)` is next
    | Running(s: Session)                        // receiver and sender at work
    | Reporting(s: Session, asked: bool)         // receiver done; `report_usage` is next
    | Deciding(s: Session, asked: bool)          // usage reported
    | Removing(s: Session)                       // `session_close` reported; `remove` is next
    | Done
  {
    /** Registered, and the control plane has not approved it. */
    predicate Pending() { AwaitVerdict? || Denied? }

    /** Using an approved session. */
    predicate Attached() { Greeting? || Confirming? || Running? || Reporting? || Deciding? || Removing? }
  }

  datatype Sender = NoSender | Streams(session: Session) | Quiet

  datatype Handler = Handler(pc: Pc, sender: Sender, sent: seq<ServerFrame>)

  /** What the control plane and the clients see, in order. */
  datatype Event =
    | OpenOk(id: SessionId) | Resumed(id: SessionId) | Greeted(id: SessionId)
    | UsageReported(id: SessionId) | SlotClosed(id: SessionId)

  datatype State = State(
    reg: Registry,
    minted: set<Session>,      // every session ever created
    drawn: set<SessionId>,     // their ids
    disclosed: set<Token>,     // tokens a client may have been sent
    guessed: set<Token>,       // tokens presented that belong to no session
    ended: set<SessionId>,     // sessions whose output is closed
    log: seq<Event>,
    handlers: map<HandlerId, Handler>)

  datatype Action =
    | Accept(h: HandlerId)
    | HelloArrives(h: HandlerId, resume: Option<Token>)
    | Authorized(h: HandlerId)
    | OpenArrives(h: HandlerId)
    | Sign(h: HandlerId, frame: ServerFrame)
    | Connected(h: HandlerId, s: Session)
    | Approve(h: HandlerId)
    | Refuse(h: HandlerId)
    | RemoveDenied(h: HandlerId)
    | SendError(h: HandlerId, frame: ServerFrame)
    | Fail(h: HandlerId, leaked: bool)           // a `recv` or `send` failed
    | SendHello(h: HandlerId)
    | SendStatus(h: HandlerId)
    | Emit(h: HandlerId, frame: ServerFrame)     // by the sender task
    | EmitClosed(h: HandlerId)
    | StopSender(h: HandlerId)                   // aborted, or its `send` failed
    | Leave(h: HandlerId, asked: bool)
    | ReportUsage(h: HandlerId)
    | Decide(h: HandlerId)
    | Remove(h: HandlerId)
    | SessionEnds(id: SessionId)

  function PcOf(s: State, h: HandlerId): Pc {
    if h in s.handlers then s.handlers[h].pc else Done
  }

  predicate Can(s: State, a: Action) {
    match a
    case Accept(h) => h !in s.handlers
    case HelloArrives(h, resume) =>
      PcOf(s, h).AwaitHello?
      && (resume.Some? ==> resume.value in s.disclosed || forall m :: m in s.minted ==> m.token != resume.value)
    case Authorized(h) => PcOf(s, h).Authorizing?
    case OpenArrives(h) => PcOf(s, h).AwaitOpen?
    case Sign(h, frame) => PcOf(s, h).Connecting? && frame.SignRequest?
    case Connected(h, made) =>
      PcOf(s, h).Connecting? && made.id !in s.drawn && made.token !in s.guessed
      && made.token !in s.disclosed && forall m :: m in s.minted ==> m.token != made.token
    case Approve(h) => PcOf(s, h).AwaitVerdict?
    case Refuse(h) => PcOf(s, h).AwaitVerdict?
    case RemoveDenied(h) => PcOf(s, h).Denied?
    case SendError(h, frame) =>
      frame.Error? && h in s.handlers
      && (PcOf(s, h).AwaitHello? || PcOf(s, h).Authorizing? || PcOf(s, h).AwaitOpen? || PcOf(s, h).Connecting?
          || PcOf(s, h).Rejecting?)
    case Fail(h, leaked) =>
      h in s.handlers && (leaked ==> PcOf(s, h).Greeting?)
      && (PcOf(s, h).AwaitHello? || PcOf(s, h).Authorizing? || PcOf(s, h).AwaitOpen? || PcOf(s, h).Connecting?
          || PcOf(s, h).Rejecting? || PcOf(s, h).Greeting? || PcOf(s, h).Confirming?)
    case SendHello(h) => PcOf(s, h).Greeting?
    case SendStatus(h) => PcOf(s, h).Confirming?
    case Emit(h, frame) => h in s.handlers && s.handlers[h].sender.Streams? && (frame.Output? || frame.Pong?)
    case EmitClosed(h) => h in s.handlers && s.handlers[h].sender.Streams? && s.handlers[h].sender.session.id in s.ended
    case StopSender(h) => h in s.handlers && s.handlers[h].sender.Streams?
    case Leave(h, _) => PcOf(s, h).Running?
    case ReportUsage(h) => PcOf(s, h).Reporting?
    case Decide(h) => PcOf(s, h).Deciding?
    case Remove(h) => PcOf(s, h).Removing?
    case SessionEnds(id) => id in s.drawn
  }

  function Move(s: State, h: HandlerId, pc: Pc): State
    requires h in s.handlers
  {
    s.(handlers := s.handlers[h := s.handlers[h].(pc := pc)])
  }

  /** The handler sends `frame` and moves on. */
  function Send(s: State, h: HandlerId, frame: ServerFrame, pc: Pc, sender: Sender): State
    requires h in s.handlers
  {
    s.(handlers := s.handlers[h := Handler(pc, sender, s.handlers[h].sent + [frame])])
  }

  function Step(s: State, a: Action): State
    requires Can(s, a)
  {
    match a
    case Accept(h) => s.(handlers := s.handlers[h := Handler(AwaitHello, NoSender, [])])
    case HelloArrives(h, resume) =>
      var t := Move(s, h, Authorizing(resume));
      if resume.Some? && resume.value !in s.disclosed then t.(guessed := s.guessed + {resume.value}) else t
    case Authorized(h) =>
      var resume := s.handlers[h].pc.resume;
      var found := if resume.Some? then s.reg.Resume(resume.value) else None;
      if found.Some? then Move(s, h, Greeting(found.value, true)).(log := s.log + [Resumed(found.value.id)])
      else Move(s, h, AwaitOpen)
    case OpenArrives(h) => Move(s, h, Pc.Connecting)
    case Sign(h, frame) => Send(s, h, frame, Pc.Connecting, NoSender)
    case Connected(h, made) =>
      Move(s, h, AwaitVerdict(made)).(reg := s.reg.Create(made), minted := s.minted + {made}, drawn := s.drawn + {made.id})
    case Approve(h) =>
      var x := s.handlers[h].pc.s;
      Move(s, h, Greeting(x, false)).(log := s.log + [OpenOk(x.id)])
    case Refuse(h) => Move(s, h, Denied(s.handlers[h].pc.s))
    case RemoveDenied(h) => Move(s, h, Rejecting).(reg := s.reg.Remove(s.handlers[h].pc.s.id))
    case SendError(h, frame) => Send(s, h, frame, Done, NoSender)
    case Fail(h, leaked) =>
      var t := Move(s, h, Done);
      if leaked then t.(disclosed := s.disclosed + {s.handlers[h].pc.s.token}) else t
    case SendHello(h) =>
      var Greeting(x, resumed) := s.handlers[h].pc;
      Send(s, h, ServerHello(PROTOCOL_VERSION, x.id, resumed, x.token), Confirming(x), NoSender)
        .(log := s.log + [Event.Greeted(x.id)], disclosed := s.disclosed + {x.token})
    case SendStatus(h) =>
      var x := s.handlers[h].pc.s;
      Send(s, h, Status(Live), Running(x), Streams(x))
    case Emit(h, frame) => Send(s, h, frame, s.handlers[h].pc, s.handlers[h].sender)
    case EmitClosed(h) => Send(s, h, Closed, s.handlers[h].pc, Quiet)
    case StopSender(h) => s.(handlers := s.handlers[h := s.handlers[h].(sender := Quiet)])
    case Leave(h, asked) => Move(s, h, Reporting(s.handlers[h].pc.s, asked))
    case ReportUsage(h) =>
      var Reporting(x, asked) := s.handlers[h].pc;
      Move(s, h, Deciding(x, asked)).(log := s.log + [UsageReported(x.id)])
    case Decide(h) =>
      var Deciding(x, asked) := s.handlers[h].pc;
      if asked || x.id in s.ended then Move(s, h, Removing(x)).(log := s.log + [SlotClosed(x.id)])
      else Move(s, h, Done)
    case Remove(h) => Move(s, h, Done).(reg := s.reg.Remove(s.handlers[h].pc.s.id))
    case SessionEnds(id) => s.(ended := s.ended + {id})
  }

  const Start := State(NoSessions, {}, {}, {}, {}, {}, [], map[])

  // -------------------------------------------------------------- invariant

  /** Whom the registry, the tokens and the log may speak of. */
  ghost predicate Books(s: State) {
    && s.reg.Consistent()
    && (forall id :: id in s.reg.byId ==> s.reg.byId[id] in s.minted)
    && (forall m, n :: m in s.minted && n in s.minted && (m.id == n.id || m.token == n.token) ==> m == n)
    && (forall m :: m in s.minted ==> m.id in s.drawn && m.token !in s.guessed)
    && (forall m :: m in s.minted && m.token in s.disclosed ==> OpenOk(m.id) in s.log)
    && (forall e :: e in s.log ==> e.id in s.drawn)
  }

  /** Everything a session's log shows comes after its approval. */
  ghost predicate ApprovedFirst(log: seq<Event>) {
    forall i :: 0 <= i < |log| && !log[i].OpenOk? ==> OpenOk(log[i].id) in log[..i]
  }

  ghost predicate PhaseOk(hd: Handler) {
    var phase := Scan(hd.sent);
    match hd.pc
    case AwaitHello => phase.Silent? && hd.sender.NoSender?
    case Authorizing(_) => phase.Silent? && hd.sender.NoSender?
    case AwaitOpen => phase.Silent? && hd.sender.NoSender?
    case Greeting(_, resumed) => (phase.Silent? || (phase.Signing? && !resumed)) && hd.sender.NoSender?
    case Confirming(_) => phase.Greeted? && hd.sender.NoSender?
    case _ =>
      if hd.pc.Connecting? || hd.pc.Pending() || hd.pc.Rejecting? then
        (phase.Silent? || phase.Signing?) && hd.sender.NoSender?
      else !phase.Broken? && (hd.sender.Streams? ==> phase.Streaming?)
  }

  ghost predicate HandlerOk(hd: Handler, s: State) {
    && PhaseOk(hd)
    && (hd.pc.Authorizing? && hd.pc.resume.Some? ==> hd.pc.resume.value in s.disclosed || hd.pc.resume.value in s.guessed)
    && (hd.pc.Pending() ==>
          && hd.pc.s.id in s.reg.byId && s.reg.byId[hd.pc.s.id] == hd.pc.s
          && hd.pc.s.token !in s.disclosed && forall e :: e in s.log ==> e.id != hd.pc.s.id)
    && (hd.pc.Attached() ==> hd.pc.s in s.minted && OpenOk(hd.pc.s.id) in s.log)
    && (hd.pc.Removing? ==> SlotClosed(hd.pc.s.id) in s.log)
  }

  /** A handler is about to settle the session `id`: it awaits the verdict or the
      removal after a refusal, or has reported `session_close` and not removed yet. */
  ghost predicate Settles(s: State, h: HandlerId, id: SessionId) {
    h in s.handlers && (s.handlers[h].pc.Pending() || s.handlers[h].pc.Removing?) && s.handlers[h].pc.s.id == id
  }

  predicate SlotHeld(log: seq<Event>, id: SessionId) { OpenOk(id) in log && SlotClosed(id) !in log }

  /** Slot accounting: held slots are registered, and registered sessions hold a
      slot unless some handler is about to settle them. */
  ghost predicate Slots(s: State) {
    && (forall id :: SlotHeld(s.log, id) ==> id in s.reg.byId)
    && (forall id :: id in s.reg.byId ==> SlotHeld(s.log, id) || exists h :: Settles(s, h, id))
  }

  ghost predicate OwnsPending(s: State, h: HandlerId) {
    h in s.handlers && s.handlers[h].pc.Pending()
  }

  /** No two handlers await a verdict on the same session. */
  ghost predicate PendingApart(s: State) {
    forall h, k :: OwnsPending(s, h) && OwnsPending(s, k) && h != k ==> s.handlers[h].pc.s.id != s.handlers[k].pc.s.id
  }

  ghost predicate AllOk(s: State) {
    forall h :: h in s.handlers ==> HandlerOk(s.handlers[h], s)
  }

  ghost predicate Inv(s: State) {
    Books(s) && ApprovedFirst(s.log) && AllOk(s) && PendingApart(s) && Slots(s)
  }
}
