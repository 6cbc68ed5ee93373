/** Every step of every handler keeps the invariant of `Lifecycle`. A step is taken
    apart into what it does to one handler, the log, the tokens and the registry. */
module LifecycleProofs {
  import opened Frames
  import opened Sessions
  import opened ReplyGrammar
  import opened Lifecycle

  /** The two program counters settle the same session, or neither settles any. */
  predicate SettlesAlike(p: Pc, q: Pc) {
    && p.Pending() == q.Pending() && p.Removing? == q.Removing?
    && (p.Pending() || p.Removing? ==> p.s == q.s)
  }

  lemma SettlesKept(s: State, h: HandlerId, hd: Handler)
    requires SettlesAlike(PcOf(s, h), hd.pc)
    ensures var t := s.(handlers := s.handlers[h := hd]);
            && (forall k :: OwnsPending(t, k) <==> OwnsPending(s, k))
            && (forall k :: OwnsPending(s, k) ==> t.handlers[k].pc.s == s.handlers[k].pc.s)
            && (forall k, id :: Settles(t, k, id) <==> Settles(s, k, id))
  {
  }

  lemma SlotsSettledAlike(s: State, t: State)
    requires Slots(s) && t.reg == s.reg && t.log == s.log && forall k, id :: Settles(t, k, id) <==> Settles(s, k, id)
    ensures Slots(t)
  {
    forall id | id in t.reg.byId && !SlotHeld(t.log, id) ensures exists k :: Settles(t, k, id) {
      var k :| Settles(s, k, id);
      assert Settles(t, k, id);
    }
  }

  lemma HandlersOk(s: State, h: HandlerId, hd: Handler)
    requires Inv(s) && HandlerOk(hd, s)
    ensures var t := s.(handlers := s.handlers[h := hd]);
            forall k :: k in t.handlers ==> HandlerOk(t.handlers[k], t)
  {
    var t := s.(handlers := s.handlers[h := hd]);
    forall k | k in t.handlers ensures HandlerOk(t.handlers[k], t) {
      assert HandlerOk(t.handlers[k], s);
    }
  }

  /** One handler moves, settling what it settled before. */
  lemma OneHandler(s: State, h: HandlerId, hd: Handler)
    requires Inv(s) && HandlerOk(hd, s) && SettlesAlike(PcOf(s, h), hd.pc)
    ensures Inv(s.(handlers := s.handlers[h := hd]))
  {
    var t := s.(handlers := s.handlers[h := hd]);
    HandlersOk(s, h, hd);
    SettlesKept(s, h, hd);
    SlotsSettledAlike(s, t);
    assert Books(t);
  }

  /** An event of an approved session that takes or frees no slot. */
  lemma AddEvent(s: State, e: Event)
    requires Inv(s) && OpenOk(e.id) in s.log && !e.OpenOk? && !e.SlotClosed?
    ensures Inv(s.(log := s.log + [e]))
  {
    var t := s.(log := s.log + [e]);
    LogGrows(s.log, e);
    forall h | h in t.handlers ensures HandlerOk(t.handlers[h], t) {
      assert HandlerOk(s.handlers[h], s);
    }
    assert forall h :: OwnsPending(t, h) <==> OwnsPending(s, h);
    SlotsFollow(s, t);
  }

  /** Slots depend on the registry, the slots held and who settles what. */
  lemma SlotsFollow(s: State, t: State)
    requires Slots(s) && t.reg == s.reg && t.handlers == s.handlers
    requires forall id :: SlotHeld(t.log, id) <==> SlotHeld(s.log, id)
    ensures Slots(t)
  {
    forall id | id in t.reg.byId && !SlotHeld(t.log, id) ensures exists k :: Settles(t, k, id) {
      var k :| Settles(s, k, id);
      assert Settles(t, k, id);
    }
  }

  lemma LogGrows(log: seq<Event>, e: Event)
    requires ApprovedFirst(log) && (e.OpenOk? || OpenOk(e.id) in log)
    ensures ApprovedFirst(log + [e])
  {
    var more := log + [e];
    forall i | 0 <= i < |more| && !more[i].OpenOk? ensures OpenOk(more[i].id) in more[..i] {
      assert more[..i] == log[..i];
    }
  }

  /** A client may learn the token of an approved session. */
  lemma Disclose(s: State, x: Session)
    requires Inv(s) && x in s.minted && OpenOk(x.id) in s.log
    ensures Inv(s.(disclosed := s.disclosed + {x.token}))
  {
    var t := s.(disclosed := s.disclosed + {x.token});
    forall h | h in t.handlers ensures HandlerOk(t.handlers[h], t) {
      assert HandlerOk(s.handlers[h], s);
    }
    assert forall h :: OwnsPending(t, h) <==> OwnsPending(s, h);
    SlotsFollow(s, t);
  }

  /** Tokens that belong to no session, and sessions that end, change nothing. */
  lemma Outside(s: State, guessed: set<Token>, ended: set<SessionId>)
    requires Inv(s) && s.guessed <= guessed && forall m :: m in s.minted ==> m.token !in guessed
    ensures Inv(s.(guessed := guessed, ended := ended))
  {
    var t := s.(guessed := guessed, ended := ended);
    forall h | h in t.handlers ensures HandlerOk(t.handlers[h], t) {
      assert HandlerOk(s.handlers[h], s);
    }
    assert forall h :: OwnsPending(t, h) <==> OwnsPending(s, h);
    SlotsFollow(s, t);
  }

  // -------------------------------------------- steps that settle something

  /** A step about the session `x` leaves the slots of all others as they were. */
  lemma SlotsAfter(s: State, t: State, h: HandlerId, x: Session)
    requires Slots(s)
    requires forall id :: id != x.id ==> (id in t.reg.byId <==> id in s.reg.byId)
    requires forall id :: id != x.id ==> (SlotHeld(t.log, id) <==> SlotHeld(s.log, id))
    requires forall k, id :: id != x.id && Settles(s, k, id) ==> Settles(t, k, id)
    requires SlotHeld(t.log, x.id) ==> x.id in t.reg.byId
    requires x.id in t.reg.byId ==> SlotHeld(t.log, x.id) || Settles(t, h, x.id)
    ensures Slots(t)
  {
    forall id | id in t.reg.byId && !SlotHeld(t.log, id) ensures exists k :: Settles(t, k, id) {
      if id == x.id {
        assert Settles(t, h, x.id);
      } else {
        var k :| Settles(s, k, id);
        assert Settles(t, k, id);
      }
    }
  }

  /** Handlers other than `h` keep what they settle. */
  lemma OthersSettle(s: State, t: State, h: HandlerId, x: Session)
    requires h in s.handlers && h in t.handlers && t.handlers == s.handlers[h := t.handlers[h]]
    requires (s.handlers[h].pc.Pending() || s.handlers[h].pc.Removing?) ==> s.handlers[h].pc.s.id == x.id
    ensures forall k, id :: id != x.id && Settles(s, k, id) ==> Settles(t, k, id)
    ensures forall k :: k != h ==> (OwnsPending(t, k) <==> OwnsPending(s, k))
    ensures forall k :: k != h && OwnsPending(s, k) ==> t.handlers[k] == s.handlers[k]
  {
  }

  lemma NewBooks(s: State, x: Session)
    requires Books(s) && x.id !in s.drawn && x.token !in s.guessed && x.token !in s.disclosed
    requires forall m :: m in s.minted ==> m.token != x.token
    ensures x.id !in s.reg.byId && x.token !in s.reg.byToken
    ensures Books(s.(reg := s.reg.Create(x), minted := s.minted + {x}, drawn := s.drawn + {x.id}))
    ensures forall e :: e in s.log ==> e.id != x.id
  {
    assert forall t :: t in s.reg.byToken ==> s.reg.byId[s.reg.byToken[t]] in s.minted;
    CreateConsistentIff(s.reg, x);
  }

  /** A new session joins the registry, awaiting its verdict. */
  lemma ConnectedKeepsInv(s: State, h: HandlerId, x: Session)
    requires Inv(s) && Can(s, Connected(h, x))
    ensures Inv(Step(s, Connected(h, x)))
  {
    var t := Step(s, Connected(h, x));
    NewBooks(s, x);
    OthersSettle(s, t, h, x);
    assert Settles(t, h, x.id);
    SlotsAfter(s, t, h, x);
    ConnectedHandlers(s, h, x);
  }

  lemma ConnectedHandlers(s: State, h: HandlerId, x: Session)
    requires Inv(s) && Can(s, Connected(h, x))
    requires x.id !in s.reg.byId && forall e :: e in s.log ==> e.id != x.id
    ensures AllOk(Step(s, Connected(h, x))) && PendingApart(Step(s, Connected(h, x)))
  {
    var t := Step(s, Connected(h, x));
    forall k | k in t.handlers ensures HandlerOk(t.handlers[k], t) {
      assert HandlerOk(s.handlers[k], s);
      ConnectedHandler(s, h, x, k);
    }
    forall k | OwnsPending(t, k) && k != h ensures OwnsPending(s, k) && t.handlers[k].pc.s.id != x.id {
      assert HandlerOk(s.handlers[k], s);
    }
  }

  lemma ConnectedHandler(s: State, h: HandlerId, x: Session, k: HandlerId)
    requires Can(s, Connected(h, x)) && k in s.handlers && HandlerOk(s.handlers[k], s)
    requires x.id !in s.reg.byId && forall e :: e in s.log ==> e.id != x.id
    ensures HandlerOk(Step(s, Connected(h, x)).handlers[k], Step(s, Connected(h, x)))
  {
    assert HandlerOk(s.handlers[k], s);
  }

  /** With one handler no longer pending, the pending ones stay apart. */
  lemma StillApart(s: State, t: State, h: HandlerId)
    requires PendingApart(s) && h in t.handlers && !t.handlers[h].pc.Pending()
    requires t.handlers == s.handlers[h := t.handlers[h]]
    ensures PendingApart(t)
  {
    assert forall k :: OwnsPending(t, k) ==> OwnsPending(s, k) && t.handlers[k] == s.handlers[k];
  }

  lemma ApprovedBooks(s: State, id: SessionId)
    requires Books(s) && ApprovedFirst(s.log) && id in s.drawn
    ensures Books(s.(log := s.log + [OpenOk(id)])) && ApprovedFirst(s.log + [OpenOk(id)])
  {
    LogGrows(s.log, OpenOk(id));
  }

  /** The control plane approves: the slot is held from here on. */
  lemma ApproveKeepsInv(s: State, h: HandlerId)
    requires Inv(s) && Can(s, Approve(h))
    ensures Inv(Step(s, Approve(h)))
  {
    var t := Step(s, Approve(h));
    assert Books(t) && ApprovedFirst(t.log) by {
      Handled(s, h);
      ApprovedBooks(s, s.handlers[h].pc.s.id);
    }
    assert Slots(t) by { ApprovedSlots(s, h); }
    assert PendingApart(t) by { StillApart(s, t, h); }
    ApprovedHandlers(s, h);
  }

  lemma ApprovedSlots(s: State, h: HandlerId)
    requires Inv(s) && Can(s, Approve(h))
    ensures Slots(Step(s, Approve(h)))
  {
    Handled(s, h);
    var t := Step(s, Approve(h));
    var x := s.handlers[h].pc.s;
    OthersSettle(s, t, h, x);
    SlotsAfter(s, t, h, x);
  }

  lemma ApprovedHandlers(s: State, h: HandlerId)
    requires Inv(s) && Can(s, Approve(h))
    ensures AllOk(Step(s, Approve(h)))
  {
    var t := Step(s, Approve(h));
    forall k | k in t.handlers ensures HandlerOk(t.handlers[k], t) {
      assert HandlerOk(s.handlers[k], s);
      if k != h && s.handlers[k].pc.Pending() { assert OwnsPending(s, k) && OwnsPending(s, h); }
    }
  }

  /** A session leaves the registry: refused, or its close reported. */
  lemma RemovedKeepsInv(s: State, h: HandlerId, next: Pc)
    requires Inv(s) && h in s.handlers
    requires (s.handlers[h].pc.Denied? && next.Rejecting?) || (s.handlers[h].pc.Removing? && next.Done?)
    ensures Inv(Move(s, h, next).(reg := s.reg.Remove(s.handlers[h].pc.s.id)))
  {
    var x := s.handlers[h].pc.s;
    var t := Move(s, h, next).(reg := s.reg.Remove(x.id));
    assert Books(t) by { RemovedBooks(s, x.id); }
    RemovedSettled(s, h, next);
    RemovedHandlers(s, h, next);
  }

  lemma RemovedSettled(s: State, h: HandlerId, next: Pc)
    requires Inv(s) && h in s.handlers
    requires (s.handlers[h].pc.Denied? && next.Rejecting?) || (s.handlers[h].pc.Removing? && next.Done?)
    ensures var t := Move(s, h, next).(reg := s.reg.Remove(s.handlers[h].pc.s.id));
            Slots(t) && PendingApart(t)
  {
    Handled(s, h);
    RemovedBooks(s, s.handlers[h].pc.s.id);
    RemovedSlots(s, h, next);
    StillApart(s, Move(s, h, next).(reg := s.reg.Remove(s.handlers[h].pc.s.id)), h);
  }

  lemma RemovedSlots(s: State, h: HandlerId, next: Pc)
    requires Slots(s) && h in s.handlers && (s.handlers[h].pc.Denied? || s.handlers[h].pc.Removing?)
    requires !SlotHeld(s.log, s.handlers[h].pc.s.id)
    requires s.reg.Remove(s.handlers[h].pc.s.id).byId == s.reg.byId - {s.handlers[h].pc.s.id}
    ensures Slots(Move(s, h, next).(reg := s.reg.Remove(s.handlers[h].pc.s.id)))
  {
    var x := s.handlers[h].pc.s;
    var t := Move(s, h, next).(reg := s.reg.Remove(x.id));
    OthersSettle(s, t, h, x);
    SlotsAfter(s, t, h, x);
  }

  lemma RemovedBooks(s: State, id: SessionId)
    requires Books(s)
    ensures Books(s.(reg := s.reg.Remove(id)))
    ensures s.reg.Remove(id).byId == s.reg.byId - {id}
  {
    OperationsRefine(s.reg, Session(id, []), id, []);
  }

  lemma RemovedHandlers(s: State, h: HandlerId, next: Pc)
    requires Inv(s) && h in s.handlers
    requires (s.handlers[h].pc.Denied? && next.Rejecting?) || (s.handlers[h].pc.Removing? && next.Done?)
    ensures AllOk(Move(s, h, next).(reg := s.reg.Remove(s.handlers[h].pc.s.id)))
  {
    var t := Move(s, h, next).(reg := s.reg.Remove(s.handlers[h].pc.s.id));
    assert HandlerOk(s.handlers[h], s);
    forall k | k in t.handlers ensures HandlerOk(t.handlers[k], t) {
      if k != h {
        RemovedOthers(s, h, k);
        assert t.handlers[k] == s.handlers[k];
        HandlerOkAlike(s.handlers[k], s.(reg := t.reg), t);
      }
    }
  }

  /** Removing the session `h` settles leaves what another handler relies on. */
  lemma RemovedOthers(s: State, h: HandlerId, k: HandlerId)
    requires Inv(s) && h in s.handlers && k in s.handlers && k != h
    requires s.handlers[h].pc.Denied? || s.handlers[h].pc.Removing?
    ensures HandlerOk(s.handlers[k], s.(reg := s.reg.Remove(s.handlers[h].pc.s.id)))
  {
    assert HandlerOk(s.handlers[h], s) && HandlerOk(s.handlers[k], s);
    if s.handlers[k].pc.Pending() {
      assert OwnsPending(s, k) && (s.handlers[h].pc.Denied? ==> OwnsPending(s, h));
    }
  }

  lemma HandlerOkAlike(hd: Handler, s: State, t: State)
    requires HandlerOk(hd, s)
    requires t.reg == s.reg && t.minted == s.minted && t.disclosed == s.disclosed && t.guessed == s.guessed && t.log == s.log
    ensures HandlerOk(hd, t)
  {
  }

  /** `session_close` is reported. */
  lemma SlotClosedKeepsInv(s: State, h: HandlerId)
    requires Inv(s) && PcOf(s, h).Deciding?
    ensures var x := s.handlers[h].pc.s;
            Inv(Move(s, h, Removing(x)).(log := s.log + [SlotClosed(x.id)]))
  {
    var x := s.handlers[h].pc.s;
    var t := Move(s, h, Removing(x)).(log := s.log + [SlotClosed(x.id)]);
    assert HandlerOk(s.handlers[h], s);
    LogGrows(s.log, SlotClosed(x.id));
    assert Slots(t) by {
      OthersSettle(s, t, h, x);
      assert Settles(t, h, x.id);
      SlotsAfter(s, t, h, x);
    }
    assert PendingApart(t) by { StillApart(s, t, h); }
    ClosedHandlers(s, h);
  }

  lemma ClosedHandlers(s: State, h: HandlerId)
    requires Inv(s) && PcOf(s, h).Deciding?
    ensures var x := s.handlers[h].pc.s;
            AllOk(Move(s, h, Removing(x)).(log := s.log + [SlotClosed(x.id)]))
  {
    var x := s.handlers[h].pc.s;
    var t := Move(s, h, Removing(x)).(log := s.log + [SlotClosed(x.id)]);
    forall k | k in t.handlers ensures HandlerOk(t.handlers[k], t) {
      Handled(s, h);
      Handled(s, k);
      ClosedHandler(s, h, k);
    }
  }

  lemma ClosedHandler(s: State, h: HandlerId, k: HandlerId)
    requires PcOf(s, h).Deciding? && k in s.handlers && HandlerOk(s.handlers[h], s) && HandlerOk(s.handlers[k], s)
    ensures var x := s.handlers[h].pc.s;
            var t := Move(s, h, Removing(x)).(log := s.log + [SlotClosed(x.id)]);
            HandlerOk(t.handlers[k], t)
  {
  }

  // --------------------------------------------------------------- all steps

  lemma Handled(s: State, h: HandlerId)
    requires Inv(s) && h in s.handlers
    ensures HandlerOk(s.handlers[h], s)
  {
  }

  lemma AcceptKeepsInv(s: State, h: HandlerId)
    requires Inv(s) && Can(s, Accept(h))
    ensures Inv(Step(s, Accept(h)))
  {
    OneHandler(s, h, Handler(AwaitHello, NoSender, []));
  }

  lemma OpenKeepsInv(s: State, h: HandlerId)
    requires Inv(s) && Can(s, OpenArrives(h))
    ensures Inv(Step(s, OpenArrives(h)))
  {
    Handled(s, h);
    OneHandler(s, h, s.handlers[h].(pc := Pc.Connecting));
  }

  lemma RefuseKeepsInv(s: State, h: HandlerId)
    requires Inv(s) && Can(s, Refuse(h))
    ensures Inv(Step(s, Refuse(h)))
  {
    Handled(s, h);
    OneHandler(s, h, s.handlers[h].(pc := Denied(s.handlers[h].pc.s)));
  }

  lemma StopKeepsInv(s: State, h: HandlerId)
    requires Inv(s) && Can(s, StopSender(h))
    ensures Inv(Step(s, StopSender(h)))
  {
    Handled(s, h);
    OneHandler(s, h, s.handlers[h].(sender := Quiet));
  }

  lemma LeaveKeepsInv(s: State, h: HandlerId, asked: bool)
    requires Inv(s) && Can(s, Leave(h, asked))
    ensures Inv(Step(s, Leave(h, asked)))
  {
    Handled(s, h);
    OneHandler(s, h, s.handlers[h].(pc := Reporting(s.handlers[h].pc.s, asked)));
  }

  lemma SignKeepsInv(s: State, h: HandlerId, frame: ServerFrame)
    requires Inv(s) && Can(s, Sign(h, frame))
    ensures Inv(Step(s, Sign(h, frame)))
  {
    Handled(s, h);
    ScanOneMore(s.handlers[h].sent, frame);
    OneHandler(s, h, Handler(Pc.Connecting, NoSender, s.handlers[h].sent + [frame]));
  }

  lemma SendErrorKeepsInv(s: State, h: HandlerId, frame: ServerFrame)
    requires Inv(s) && Can(s, SendError(h, frame))
    ensures Inv(Step(s, SendError(h, frame)))
  {
    Handled(s, h);
    Refuses(s, h, frame);
    OneHandler(s, h, Handler(Done, NoSender, s.handlers[h].sent + [frame]));
  }

  lemma Refuses(s: State, h: HandlerId, frame: ServerFrame)
    requires Can(s, SendError(h, frame)) && HandlerOk(s.handlers[h], s)
    ensures HandlerOk(Handler(Done, NoSender, s.handlers[h].sent + [frame]), s) && SettlesAlike(PcOf(s, h), Done)
  {
    RefusedPhase(s.handlers[h], frame);
  }

  lemma RefusedPhase(hd: Handler, frame: ServerFrame)
    requires PhaseOk(hd) && frame.Error?
    requires hd.pc.AwaitHello? || hd.pc.Authorizing? || hd.pc.AwaitOpen? || hd.pc.Connecting? || hd.pc.Rejecting?
    ensures PhaseOk(Handler(Done, NoSender, hd.sent + [frame]))
  {
    ScanOneMore(hd.sent, frame);
  }

  /** A frame of the sender task is sent. */
  lemma EmitsKeepInv(s: State, a: Action)
    requires Inv(s) && Can(s, a) && (a.Emit? || a.EmitClosed?)
    ensures Inv(Step(s, a))
  {
    Handled(s, a.h);
    var hd := s.handlers[a.h];
    var frame := if a.Emit? then a.frame else Closed;
    ScanOneMore(hd.sent, frame);
    OneHandler(s, a.h, Handler(hd.pc, if a.Emit? then hd.sender else Quiet, hd.sent + [frame]));
  }

  lemma StatusKeepsInv(s: State, h: HandlerId)
    requires Inv(s) && Can(s, SendStatus(h))
    ensures Inv(Step(s, SendStatus(h)))
  {
    Handled(s, h);
    ScanOneMore(s.handlers[h].sent, Status(Live));
    OneHandler(s, h, Step(s, SendStatus(h)).handlers[h]);
  }

  lemma HelloKeepsInv(s: State, a: Action)
    requires Inv(s) && Can(s, a) && a.HelloArrives?
    ensures Inv(Step(s, a))
  {
    var t := Step(s, a);
    Handled(s, a.h);
    Outside(s, t.guessed, s.ended);
    OneHandler(s.(guessed := t.guessed), a.h, t.handlers[a.h]);
  }

  /** A token that resolves was disclosed, and belongs to an approved session. */
  lemma ResumedIsApproved(s: State, h: HandlerId)
    requires Inv(s) && PcOf(s, h).Authorizing? && s.handlers[h].pc.resume.Some?
    requires s.reg.Resume(s.handlers[h].pc.resume.value).Some?
    ensures var x := s.reg.Resume(s.handlers[h].pc.resume.value).value;
            x in s.minted && OpenOk(x.id) in s.log && x.token == s.handlers[h].pc.resume.value
  {
    Handled(s, h);
  }

  lemma AuthorizedKeepsInv(s: State, h: HandlerId)
    requires Inv(s) && Can(s, Authorized(h))
    ensures Inv(Step(s, Authorized(h)))
  {
    var resume := s.handlers[h].pc.resume;
    if resume.Some? && s.reg.Resume(resume.value).Some? {
      ResumeKeepsInv(s, h, s.reg.Resume(resume.value).value);
    } else {
      Handled(s, h);
      OneHandler(s, h, s.handlers[h].(pc := AwaitOpen));
    }
  }

  lemma ResumeKeepsInv(s: State, h: HandlerId, x: Session)
    requires Inv(s) && PcOf(s, h).Authorizing? && s.handlers[h].pc.resume.Some?
    requires s.reg.Resume(s.handlers[h].pc.resume.value) == Some(x)
    ensures Inv(Move(s, h, Greeting(x, true)).(log := s.log + [Resumed(x.id)]))
  {
    Handled(s, h);
    ResumedIsApproved(s, h);
    AddEvent(s, Resumed(x.id));
    OneHandler(s.(log := s.log + [Resumed(x.id)]), h, s.handlers[h].(pc := Greeting(x, true)));
  }

  lemma SendHelloKeepsInv(s: State, h: HandlerId)
    requires Inv(s) && Can(s, SendHello(h))
    ensures Inv(Step(s, SendHello(h)))
  {
    var t := Step(s, SendHello(h));
    Handled(s, h);
    var Greeting(x, resumed) := s.handlers[h].pc;
    ScanOneMore(s.handlers[h].sent, ServerHello(PROTOCOL_VERSION, x.id, resumed, x.token));
    Disclose(s, x);
    var u := s.(disclosed := t.disclosed);
    AddEvent(u, Event.Greeted(x.id));
    OneHandler(u.(log := t.log), h, t.handlers[h]);
  }

  lemma FailKeepsInv(s: State, h: HandlerId, leaked: bool)
    requires Inv(s) && Can(s, Fail(h, leaked))
    ensures Inv(Step(s, Fail(h, leaked)))
  {
    if leaked {
      LeakKeepsInv(s, h);
    } else {
      DoneIsOk(s, h);
      OneHandler(s, h, s.handlers[h].(pc := Done));
    }
  }

  /** A handler whose connection fails may stop where it is. */
  lemma DoneIsOk(s: State, h: HandlerId)
    requires Inv(s) && exists leaked :: Can(s, Fail(h, leaked))
    ensures HandlerOk(s.handlers[h].(pc := Done), s) && SettlesAlike(PcOf(s, h), Done)
  {
    Handled(s, h);
  }

  lemma LeakKeepsInv(s: State, h: HandlerId)
    requires Inv(s) && Can(s, Fail(h, true))
    ensures Inv(Step(s, Fail(h, true)))
  {
    Handled(s, h);
    var x := s.handlers[h].pc.s;
    DoneIsOk(s, h);
    Disclose(s, x);
    OneHandler(s.(disclosed := s.disclosed + {x.token}), h, s.handlers[h].(pc := Done));
  }

  lemma ReportKeepsInv(s: State, h: HandlerId)
    requires Inv(s) && Can(s, ReportUsage(h))
    ensures Inv(Step(s, ReportUsage(h)))
  {
    var t := Step(s, ReportUsage(h));
    Handled(s, h);
    AddEvent(s, UsageReported(s.handlers[h].pc.s.id));
    OneHandler(s.(log := t.log), h, t.handlers[h]);
  }

  lemma DecideKeepsInv(s: State, h: HandlerId)
    requires Inv(s) && Can(s, Decide(h))
    ensures Inv(Step(s, Decide(h)))
  {
    Handled(s, h);
    if Step(s, Decide(h)).handlers[h].pc.Removing? {
      SlotClosedKeepsInv(s, h);
    } else {
      OneHandler(s, h, Step(s, Decide(h)).handlers[h]);
    }
  }

  /** Steps of a connection that already has its session. */
  lemma LaterKeepsInv(s: State, a: Action)
    requires Inv(s) && Can(s, a)
    requires a.Emit? || a.EmitClosed? || a.StopSender? || a.Leave? || a.ReportUsage? || a.Decide? || a.Remove?
    ensures Inv(Step(s, a))
  {
    match a {
      case Emit(_, _) => EmitsKeepInv(s, a);
      case EmitClosed(_) => EmitsKeepInv(s, a);
      case StopSender(h) => StopKeepsInv(s, h);
      case Leave(h, asked) => LeaveKeepsInv(s, h, asked);
      case ReportUsage(h) => ReportKeepsInv(s, h);
      case Decide(h) => DecideKeepsInv(s, h);
      case Remove(h) => RemovedKeepsInv(s, h, Done);
    }
  }

  lemma StepKeepsInv(s: State, a: Action)
    requires Inv(s) && Can(s, a)
    ensures Inv(Step(s, a))
  {
    if a.Emit? || a.EmitClosed? || a.StopSender? || a.Leave? || a.ReportUsage? || a.Decide? || a.Remove? {
      LaterKeepsInv(s, a);
    } else {
      match a {
        case Accept(h) => AcceptKeepsInv(s, h);
        case HelloArrives(_, _) => HelloKeepsInv(s, a);
        case Authorized(h) => AuthorizedKeepsInv(s, h);
        case OpenArrives(h) => OpenKeepsInv(s, h);
        case Sign(h, frame) => SignKeepsInv(s, h, frame);
        case Connected(h, x) => ConnectedKeepsInv(s, h, x);
        case Approve(h) => ApproveKeepsInv(s, h);
        case Refuse(h) => RefuseKeepsInv(s, h);
        case RemoveDenied(h) => RemovedKeepsInv(s, h, Rejecting);
        case SendError(h, frame) => SendErrorKeepsInv(s, h, frame);
        case Fail(h, leaked) => FailKeepsInv(s, h, leaked);
        case SendHello(h) => SendHelloKeepsInv(s, h);
        case SendStatus(h) => StatusKeepsInv(s, h);
        case SessionEnds(_) => Outside(s, s.guessed, Step(s, a).ended);
      }
    }
  }
}
