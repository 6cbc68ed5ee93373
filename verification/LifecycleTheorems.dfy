/** What the handlers promise the control plane and the clients, over every run. */
module LifecycleTheorems {
  import opened Frames
  import opened Sessions
  import opened ReplyGrammar
  import opened Lifecycle
  import opened LifecycleProofs

  ghost predicate IsRun(run: seq<State>, acts: seq<Action>) {
    && |run| == |acts| + 1
    && run[0] == Start
    && forall i :: 0 <= i < |acts| ==> Can(run[i], acts[i]) && run[i + 1] == Step(run[i], acts[i])
  }

  lemma {:induction false} RunKeepsInv(run: seq<State>, acts: seq<Action>, i: nat)
    requires IsRun(run, acts) && i < |run|
    ensures Inv(run[i])
  {
    if i > 0 {
      RunKeepsInv(run, acts, i - 1);
      StepKeepsInv(run[i - 1], acts[i - 1]);
    }
  }

  // ------------------------------------------------------- slots and order

  /** Every approved and unclosed session is registered; every registered session
      is approved and unclosed, or awaits its verdict or its refusal's removal, or
      is between some handler's `session_close` and `remove`. */
  lemma SlotAccounting(run: seq<State>, acts: seq<Action>, i: nat, id: SessionId)
    requires IsRun(run, acts) && i < |run|
    ensures SlotHeld(run[i].log, id) ==> id in run[i].reg.byId
    ensures id in run[i].reg.byId ==> SlotHeld(run[i].log, id) || exists h :: Settles(run[i], h, id)
  {
    RunKeepsInv(run, acts, i);
  }

  /** The log only grows, and whatever it says of a session (a close, a greeting, a
      resume, a usage report) comes after that session's approval. */
  lemma OpenedBeforeAll(run: seq<State>, acts: seq<Action>, i: nat, k: nat)
    requires IsRun(run, acts) && i < |run| && k < |run[i].log|
    ensures i + 1 < |run| ==> run[i].log <= run[i + 1].log
    ensures !run[i].log[k].OpenOk? ==> OpenOk(run[i].log[k].id) in run[i].log[..k]
  {
    assert ApprovedFirst(run[i].log) by { RunKeepsInv(run, acts, i); }
    if i + 1 < |run| { LogOnlyGrows(run[i], acts[i]); }
  }

  /** A `Hello` names an approved session and carries the token that resolves to it,
      unless its close was reported meanwhile. */
  lemma HelloIsTrue(run: seq<State>, acts: seq<Action>, i: nat, h: HandlerId)
    requires IsRun(run, acts) && i < |acts| && acts[i] == SendHello(h)
    ensures h in run[i].handlers && h in run[i + 1].handlers && run[i].handlers[h].pc.Greeting?
    ensures var Greeting(x, resumed) := run[i].handlers[h].pc;
            && run[i + 1].handlers[h].sent
                 == run[i].handlers[h].sent + [ServerHello(PROTOCOL_VERSION, x.id, resumed, x.token)]
            && OpenOk(x.id) in run[i].log
            && (run[i].reg.Resume(x.token) == Some(x) || SlotClosed(x.id) in run[i].log)
  {
    RunKeepsInv(run, acts, i);
    Handled(run[i], h);
    var s := run[i];
    var x := s.handlers[h].pc.s;
    if SlotClosed(x.id) !in s.log {
      assert SlotHeld(s.log, x.id) && s.reg.byId[x.id].id == x.id;
    }
  }

  /** The frames of every connection follow the reply grammar; one that says it
      resumed said nothing before. */
  lemma RepliesAreGrammatical(run: seq<State>, acts: seq<Action>, i: nat, h: HandlerId) returns (signs: nat)
    requires IsRun(run, acts) && i < |run| && h in run[i].handlers
    ensures Shape(run[i].handlers[h].sent, signs) && ResumedFirst(run[i].handlers[h].sent)
  {
    RunKeepsInv(run, acts, i);
    signs := Grammatical(run[i].handlers[h], run[i]);
  }

  ghost predicate ResumedFirst(sent: seq<ServerFrame>) {
    forall k :: 0 <= k < |sent| && sent[k].ServerHello? && sent[k].resumed ==> k == 0
  }

  lemma Grammatical(hd: Handler, s: State) returns (signs: nat)
    requires HandlerOk(hd, s)
    ensures Shape(hd.sent, signs) && ResumedFirst(hd.sent)
  {
    signs := ScanShape(hd.sent);
  }

  /** A handler that decides about the close has reported its usage, and so has one
      of the session's handlers before every close. */
  ghost predicate UsageFirst(s: State) {
    && (forall h :: PcOf(s, h).Deciding? ==> UsageReported(PcOf(s, h).s.id) in s.log)
    && (forall k :: 0 <= k < |s.log| && s.log[k].SlotClosed? ==> UsageReported(s.log[k].id) in s.log[..k])
  }

  lemma DecidingStep(s: State, a: Action, h: HandlerId)
    requires UsageFirst(s) && Can(s, a) && PcOf(Step(s, a), h).Deciding?
    ensures UsageReported(PcOf(Step(s, a), h).s.id) in Step(s, a).log
  {
    LogOnlyGrows(s, a);
    if a == ReportUsage(h) {
      assert Step(s, a).log[|s.log|] == UsageReported(PcOf(Step(s, a), h).s.id);
    } else {
      assert PcOf(s, h) == PcOf(Step(s, a), h);
    }
  }

  lemma UsageStep(s: State, a: Action)
    requires UsageFirst(s) && Can(s, a)
    ensures UsageFirst(Step(s, a))
  {
    var t := Step(s, a);
    LogOnlyGrows(s, a);
    forall h | PcOf(t, h).Deciding? ensures UsageReported(PcOf(t, h).s.id) in t.log { DecidingStep(s, a, h); }
    forall k | 0 <= k < |t.log| && t.log[k].SlotClosed? ensures UsageReported(t.log[k].id) in t.log[..k] {
      if k < |s.log| {
        assert t.log[..k] == s.log[..k];
      } else {
        assert a.Decide? && t.log[..k] == s.log;
      }
    }
  }

  /** Usage is reported before the close of the session, in every run. */
  lemma {:induction false} UsageBeforeClose(run: seq<State>, acts: seq<Action>, i: nat)
    requires IsRun(run, acts) && i < |run|
    ensures UsageFirst(run[i])
  {
    if i > 0 {
      UsageBeforeClose(run, acts, i - 1);
      UsageStep(run[i - 1], acts[i - 1]);
    }
  }

  // -------------------------------------------------- closing at most once

  ghost predicate AttachedTo(s: State, h: HandlerId, id: SessionId) {
    h in s.handlers && s.handlers[h].pc.Attached() && s.handlers[h].pc.s.id == id
  }

  /** At most one connection is attached to the session. */
  ghost predicate Alone(s: State, id: SessionId) {
    forall h, k :: AttachedTo(s, h, id) && AttachedTo(s, k, id) ==> h == k
  }

  /** How often `session_close` was reported for it. */
  function Closes(log: seq<Event>, id: SessionId): nat { multiset(log)[SlotClosed(id)] }

  ghost predicate ClosedOnce(s: State, id: SessionId) {
    && Closes(s.log, id) <= 1
    && (SlotClosed(id) in s.log ==>
          (exists h :: AttachedTo(s, h, id) && s.handlers[h].pc.Removing?)
          || (id !in s.reg.byId && forall h :: !AttachedTo(s, h, id)))
  }

  lemma ClosesOneMore(log: seq<Event>, e: Event, id: SessionId)
    ensures Closes(log + [e], id) == Closes(log, id) + (if e == SlotClosed(id) then 1 else 0)
    ensures SlotClosed(id) in log <==> Closes(log, id) > 0
  {
    assert multiset(log + [e]) == multiset(log) + multiset{e};
  }

  /** Only `Decide` reports a close, at most one at a time. */
  lemma LogStep(s: State, a: Action, id: SessionId)
    requires Can(s, a)
    ensures var t := Step(s, a);
            var closes := a.Decide? && t.log == s.log + [SlotClosed(id)];
            && Closes(t.log, id) == Closes(s.log, id) + (if closes then 1 else 0)
            && (SlotClosed(id) in t.log <==> SlotClosed(id) in s.log || closes)
  {
    var t := Step(s, a);
    if t.log != s.log {
      var e := t.log[|s.log|];
      assert t.log == s.log + [e];
      ClosesOneMore(s.log, e, id);
    }
  }

  /** A step moves no handler but its own. */
  lemma OthersStay(s: State, a: Action, k: HandlerId)
    requires Can(s, a) && (a.SessionEnds? || k != a.h)
    ensures k in Step(s, a).handlers <==> k in s.handlers
    ensures k in s.handlers ==> Step(s, a).handlers[k] == s.handlers[k]
  {
  }

  /** Attachment begins only with a resume of a registered session or an approval. */
  lemma AttachStep(s: State, a: Action, k: HandlerId, id: SessionId)
    requires s.reg.Consistent() && Can(s, a) && AttachedTo(Step(s, a), k, id) && !AttachedTo(s, k, id)
    ensures (a == Authorized(k) && id in s.reg.byId)
            || (a == Approve(k) && OwnsPending(s, k) && s.handlers[k].pc.s.id == id)
  {
    if a.SessionEnds? || k != a.h { OthersStay(s, a, k); }
  }

  /** A handler about to remove stays so until it does. */
  lemma RemovingStays(s: State, a: Action, k: HandlerId)
    requires Can(s, a) && PcOf(s, k).Removing? && a != Remove(k)
    ensures k in Step(s, a).handlers && PcOf(Step(s, a), k) == PcOf(s, k)
  {
    if a.SessionEnds? || k != a.h { OthersStay(s, a, k); }
  }

  lemma NobodyAttaches(s: State, a: Action, id: SessionId)
    requires Inv(s) && Can(s, a) && SlotClosed(id) in s.log && id !in s.reg.byId
    requires forall h :: !AttachedTo(s, h, id)
    ensures forall h :: !AttachedTo(Step(s, a), h, id)
  {
    forall h ensures !AttachedTo(Step(s, a), h, id) {
      if AttachedTo(Step(s, a), h, id) {
        AttachStep(s, a, h, id);
        Handled(s, h);
      }
    }
  }

  lemma StaysGone(s: State, a: Action, id: SessionId)
    requires Books(s) && Can(s, a) && SlotClosed(id) in s.log && id !in s.reg.byId
    ensures id !in Step(s, a).reg.byId
  {
    assert SlotClosed(id).id in s.drawn;
  }

  /** Once its last user has reported the close, the removal leaves nobody attached. */
  lemma RemoveDetaches(s: State, h: HandlerId, id: SessionId)
    requires AttachedTo(s, h, id) && s.handlers[h].pc.Removing? && Alone(s, id)
    ensures Can(s, Remove(h)) && id !in Step(s, Remove(h)).reg.byId
    ensures forall k :: !AttachedTo(Step(s, Remove(h)), k, id)
  {
    forall k ensures !AttachedTo(Step(s, Remove(h)), k, id) {
      if k != h {
        OthersStay(s, Remove(h), k);
        assert !AttachedTo(s, k, id);
      }
    }
  }

  /** While the session is used by one connection at a time, a step keeps its close
      unique. */
  lemma OnceStep(s: State, a: Action, id: SessionId)
    requires Inv(s) && Can(s, a) && Alone(s, id) && ClosedOnce(s, id)
    ensures ClosedOnce(Step(s, a), id)
  {
    var t := Step(s, a);
    LogStep(s, a, id);
    ClosesOneMore(s.log, OpenOk(id), id);
    var closes := a.Decide? && t.log == s.log + [SlotClosed(id)];
    if closes {
      assert AttachedTo(s, a.h, id) && s.handlers[a.h].pc.Deciding?;
      assert AttachedTo(t, a.h, id) && t.handlers[a.h].pc.Removing?;
    } else if SlotClosed(id) in s.log {
      ClosedStays(s, a, id);
    }
  }

  /** What is left after a close is reported: its reporter until it removes the session,
      and then nobody. */
  lemma ClosedStays(s: State, a: Action, id: SessionId)
    requires Inv(s) && Can(s, a) && Alone(s, id) && ClosedOnce(s, id) && SlotClosed(id) in s.log
    ensures var t := Step(s, a);
            (exists h :: AttachedTo(t, h, id) && t.handlers[h].pc.Removing?)
            || (id !in t.reg.byId && forall h :: !AttachedTo(t, h, id))
  {
    if id !in s.reg.byId && forall h :: !AttachedTo(s, h, id) {
      NobodyAttaches(s, a, id);
      StaysGone(s, a, id);
    } else {
      var h :| AttachedTo(s, h, id) && s.handlers[h].pc.Removing?;
      if a == Remove(h) {
        RemoveDetaches(s, h, id);
      } else {
        RemovingStays(s, a, h);
        assert AttachedTo(Step(s, a), h, id);
      }
    }
  }

  /** If no two connections are ever attached to a session at once, its close is
      reported at most once. */
  lemma {:induction false} ClosedAtMostOnce(run: seq<State>, acts: seq<Action>, i: nat, id: SessionId)
    requires IsRun(run, acts) && i < |run|
    requires forall j :: 0 <= j < i ==> Alone(run[j], id)
    ensures ClosedOnce(run[i], id)
  {
    if i > 0 {
      ClosedAtMostOnce(run, acts, i - 1, id);
      RunKeepsInv(run, acts, i - 1);
      OnceStep(run[i - 1], acts[i - 1], id);
    }
  }

  // ---------------------------------------------- two promises it cannot keep

  ghost predicate Reachable(s: State) {
    exists run, acts :: IsRun(run, acts) && run[|acts|] == s
  }

  lemma ReachStep(s: State, a: Action)
    requires Reachable(s) && Can(s, a)
    ensures Reachable(Step(s, a))
  {
    var run, acts :| IsRun(run, acts) && run[|acts|] == s;
    var longer, more := run + [Step(s, a)], acts + [a];
    assert IsRun(longer, more) && longer[|more|] == Step(s, a);
  }

  lemma ReachStart()
    ensures Reachable(Start)
  {
    var run, acts: seq<Action> := [Start], [];
    assert IsRun(run, acts) && run[|acts|] == Start;
  }

  const X := Session(7, [1])

  /** A first connection asks for a new session. */
  lemma FirstConnection() returns (s: State)
    ensures Reachable(s) && s == Start.(handlers := map[0 := Handler(Pc.Connecting, NoSender, [])])
  {
    ReachStart();
    s := Start;
    ReachStep(s, Accept(0)); s := Step(s, Accept(0));
    ReachStep(s, HelloArrives(0, None)); s := Step(s, HelloArrives(0, None));
    ReachStep(s, Authorized(0)); s := Step(s, Authorized(0));
    ReachStep(s, OpenArrives(0)); s := Step(s, OpenArrives(0));
    assert s.handlers == map[0 := Handler(Pc.Connecting, NoSender, [])];
  }

  /** It gets `X`, and the control plane approves. */
  lemma FreshSession() returns (s: State)
    ensures Reachable(s) && s.reg == NoSessions.Create(X) && s.minted == {X} && s.disclosed == {} && s.log == [OpenOk(7)]
    ensures s.drawn == {7}
    ensures s.handlers == map[0 := Handler(Greeting(X, false), NoSender, [])]
  {
    s := FirstConnection();
    ReachStep(s, Connected(0, X)); s := Step(s, Connected(0, X));
    ReachStep(s, Approve(0)); s := Step(s, Approve(0));
    assert s.handlers == map[0 := Handler(Greeting(X, false), NoSender, [])];
  }

  /** A connection is greeted and then its client asks to close. */
  lemma Greet(s: State, h: HandlerId)
    requires Reachable(s) && PcOf(s, h).Greeting? && s.handlers[h].pc.s == X
    ensures Can(s, SendHello(h)) && Reachable(Step(s, SendHello(h)))
    ensures var t := Step(s, SendHello(h));
            && t.handlers.Keys == s.handlers.Keys && t.handlers[h].pc == Confirming(X)
            && (forall k :: k in s.handlers && k != h ==> t.handlers[k] == s.handlers[k])
            && X.token in t.disclosed && t.reg == s.reg && t.drawn == s.drawn && Closes(t.log, 7) == Closes(s.log, 7)
  {
    ClosesOneMore(s.log, Event.Greeted(7), 7);
    ReachStep(s, SendHello(h));
  }

  lemma Confirm(s: State, h: HandlerId)
    requires Reachable(s) && PcOf(s, h) == Confirming(X)
    ensures Can(s, SendStatus(h)) && Reachable(Step(s, SendStatus(h)))
    ensures var t := Step(s, SendStatus(h));
            && t.handlers.Keys == s.handlers.Keys && t.handlers[h].pc == Running(X)
            && (forall k :: k in s.handlers && k != h ==> t.handlers[k] == s.handlers[k])
            && t == s.(handlers := t.handlers) && t.handlers[h].sender == Streams(X)
  {
    ReachStep(s, SendStatus(h));
  }

  lemma GreetAndLeave(s0: State, h: HandlerId) returns (s: State)
    requires Reachable(s0) && PcOf(s0, h).Greeting? && s0.handlers[h].pc.s == X
    ensures Reachable(s) && s.handlers.Keys == s0.handlers.Keys && s.handlers[h].pc == Reporting(X, true)
    ensures forall k :: k in s0.handlers && k != h ==> s.handlers[k] == s0.handlers[k]
    ensures X.token in s.disclosed && s.reg == s0.reg && Closes(s.log, 7) == Closes(s0.log, 7)
  {
    Greet(s0, h);
    s := Step(s0, SendHello(h));
    Confirm(s, h);
    s := Step(s, SendStatus(h));
    ReachStep(s, Leave(h, true));
    s := Step(s, Leave(h, true));
  }

  lemma Report(s: State, h: HandlerId)
    requires Reachable(s) && PcOf(s, h) == Reporting(X, true)
    ensures Can(s, ReportUsage(h)) && Reachable(Step(s, ReportUsage(h)))
    ensures var t := Step(s, ReportUsage(h));
            && t.handlers == s.handlers[h := s.handlers[h].(pc := Deciding(X, true))]
            && Closes(t.log, 7) == Closes(s.log, 7)
  {
    ClosesOneMore(s.log, UsageReported(7), 7);
    ReachStep(s, ReportUsage(h));
  }

  lemma ReportAndDecide(s0: State, h: HandlerId) returns (s: State)
    requires Reachable(s0) && PcOf(s0, h) == Reporting(X, true)
    ensures Reachable(s) && Closes(s.log, 7) == Closes(s0.log, 7) + 1
    ensures forall k :: k in s0.handlers && k != h ==> k in s.handlers && s.handlers[k] == s0.handlers[k]
  {
    Report(s0, h);
    s := Step(s0, ReportUsage(h));
    ClosesOneMore(s.log, SlotClosed(7), 7);
    ReachStep(s, Decide(h)); s := Step(s, Decide(h));
  }

  /** A second connection resumes `X`. */
  lemma SecondConnection(s0: State) returns (s: State)
    requires Reachable(s0) && s0.handlers.Keys == {0} && X.token in s0.disclosed && s0.reg == NoSessions.Create(X)
    ensures Reachable(s) && s.handlers.Keys == {0, 1} && s.handlers[0] == s0.handlers[0]
    ensures s.handlers[1].pc == Greeting(X, true) && Closes(s.log, 7) == Closes(s0.log, 7)
  {
    s := s0;
    ReachStep(s, Accept(1)); s := Step(s, Accept(1));
    ReachStep(s, HelloArrives(1, Some([1]))); s := Step(s, HelloArrives(1, Some([1])));
    ClosesOneMore(s.log, Resumed(7), 7);
    ReachStep(s, Authorized(1)); s := Step(s, Authorized(1));
  }

  /** `session_close` is not reported exactly once: two connections attached to one
      session, both asked to close, both report it. */
  lemma CloseReportedTwice() returns (s: State)
    ensures Reachable(s) && Closes(s.log, 7) == 2
  {
    s := FreshSession();
    assert Closes(s.log, 7) == 0;
    s := GreetAndLeave(s, 0);
    s := SecondConnection(s);
    s := GreetAndLeave(s, 1);
    s := ReportAndDecide(s, 0);
    s := ReportAndDecide(s, 1);
  }

  /** A close is reported exactly when the client asked for it or the session has
      ended, and the report is a repeat exactly when the session is no longer
      registered, or another handler has reported the close and not removed the
      session yet. */
  lemma CloseRepeatsIff(run: seq<State>, acts: seq<Action>, i: nat, h: HandlerId)
    requires IsRun(run, acts) && i < |acts| && acts[i] == Decide(h)
    ensures var Deciding(x, asked) := PcOf(run[i], h);
            var closes := asked || x.id in run[i].ended;
            && Closes(run[i + 1].log, x.id) == Closes(run[i].log, x.id) + (if closes then 1 else 0)
            && (closes ==>
                  (Closes(run[i + 1].log, x.id) > 1 <==>
                     x.id !in run[i].reg.byId || exists k :: PcOf(run[i], k).Removing? && PcOf(run[i], k).s.id == x.id))
  {
    var id := PcOf(run[i], h).s.id;
    LogStep(run[i], acts[i], id);
    ClosesOneMore(run[i].log, OpenOk(id), id);
    RunKeepsInv(run, acts, i);
    ClosedIff(run[i], h);
  }

  lemma ClosedIff(s: State, h: HandlerId)
    requires Inv(s) && PcOf(s, h).Attached()
    ensures var id := PcOf(s, h).s.id;
            SlotClosed(id) in s.log <==>
              id !in s.reg.byId || exists k :: PcOf(s, k).Removing? && PcOf(s, k).s.id == id
  {
    var id := PcOf(s, h).s.id;
    Handled(s, h);
    if SlotClosed(id) in s.log && id in s.reg.byId {
      var k :| Settles(s, k, id);
      Handled(s, k);
      assert SlotClosed(id).id == id;
      assert PcOf(s, k).Removing? && PcOf(s, k).s.id == id;
    }
    forall k | PcOf(s, k).Removing? && PcOf(s, k).s.id == id ensures SlotClosed(id) in s.log { Handled(s, k); }
  }

  /** A session may end while nobody is attached to it: its slot stays held. */
  lemma EndsWhileDetached() returns (s: State)
    ensures Reachable(s) && X.id in s.ended && SlotHeld(s.log, X.id) && forall h :: !AttachedTo(s, h, X.id)
    ensures X.token in s.disclosed && s.reg.Resume(X.token) == Some(X)
  {
    s := FreshSession();
    ReachStep(s, Fail(0, true));
    s := Step(s, Fail(0, true));
    s := EndsNow(s);
  }

  lemma EndsNow(s0: State) returns (s: State)
    requires Reachable(s0) && X.id in s0.drawn
    ensures Reachable(s) && s == s0.(ended := s0.ended + {X.id})
  {
    ReachStep(s0, SessionEnds(7));
    s := Step(s0, SessionEnds(7));
  }

  /** `Closed` does not say that the token no longer works. */
  lemma ClosedSentTokenWorks() returns (s: State)
    ensures Reachable(s) && 0 in s.handlers && Closed in s.handlers[0].sent && s.reg.Resume(X.token) == Some(X)
  {
    s := FreshSession();
    Greet(s, 0);
    s := Step(s, SendHello(0));
    Confirm(s, 0);
    s := EndAndSayClosed(Step(s, SendStatus(0)), 0);
  }

  lemma EndAndSayClosed(s0: State, h: HandlerId) returns (s: State)
    requires Reachable(s0) && X.id in s0.drawn && h in s0.handlers && s0.handlers[h].sender == Streams(X)
    ensures Reachable(s) && s.reg == s0.reg && h in s.handlers && Closed in s.handlers[h].sent
  {
    ReachStep(s0, SessionEnds(7));
    s := Step(s0, SessionEnds(7));
    ReachStep(s, EmitClosed(h));
    s := Step(s, EmitClosed(h));
    assert s.handlers[h].sent == s0.handlers[h].sent + [Closed];
  }

  /** An approved session nobody is attached to and whose token nobody was sent. */
  ghost predicate Stranded(s: State, x: Session) {
    && x in s.minted && SlotHeld(s.log, x.id) && x.token !in s.disclosed
    && forall h :: !Uses(s, h, x.id)
  }

  ghost predicate Uses(s: State, h: HandlerId, id: SessionId) {
    AttachedTo(s, h, id) || (OwnsPending(s, h) && s.handlers[h].pc.s.id == id)
  }

  /** Its slot is held, and it stays registered, for ever. */
  lemma {:induction false} StrandedForever(run: seq<State>, acts: seq<Action>, i: nat, j: nat, x: Session)
    requires IsRun(run, acts) && i <= j < |run| && Stranded(run[i], x)
    ensures Stranded(run[j], x) && x.id in run[j].reg.byId
  {
    if i < j {
      StrandedForever(run, acts, i, j - 1, x);
      RunKeepsInv(run, acts, j - 1);
      StrandedStep(run[j - 1], acts[j - 1], x);
    }
    RunKeepsInv(run, acts, j);
    StrandedIsHeld(run[j], x);
  }

  lemma StrandedIsHeld(s: State, x: Session)
    requires Inv(s) && Stranded(s, x)
    ensures x.id in s.reg.byId
  {
    assert SlotHeld(s.log, x.id);
  }

  lemma StrandedStep(s: State, a: Action, x: Session)
    requires Inv(s) && Can(s, a) && Stranded(s, x)
    ensures Stranded(Step(s, a), x)
  {
    var t := Step(s, a);
    forall h ensures !Uses(t, h, x.id) { StillUnused(s, a, x, h); }
    if a.Decide? { assert !Uses(s, a.h, x.id); }
    LogStep(s, a, x.id);
    StaysUndisclosed(s, a, x);
    assert OpenOk(x.id) in t.log by { LogOnlyGrows(s, a); }
  }

  lemma LogOnlyGrows(s: State, a: Action)
    requires Can(s, a)
    ensures s.log <= Step(s, a).log
  {
  }

  lemma StaysUndisclosed(s: State, a: Action, x: Session)
    requires Inv(s) && Can(s, a) && Stranded(s, x)
    ensures x.token !in Step(s, a).disclosed
  {
    if a.SendHello? || (a.Fail? && a.leaked) {
      Handled(s, a.h);
      assert !Uses(s, a.h, x.id);
    }
  }

  /** A handler gets a session awaiting a verdict only by connecting. */
  lemma PendingStep(s: State, a: Action, h: HandlerId)
    requires Can(s, a) && OwnsPending(Step(s, a), h)
    ensures a == Connected(h, Step(s, a).handlers[h].pc.s)
            || (OwnsPending(s, h) && s.handlers[h].pc.s == Step(s, a).handlers[h].pc.s)
  {
    if a.SessionEnds? || h != a.h { OthersStay(s, a, h); }
  }

  lemma StillUnused(s: State, a: Action, x: Session, h: HandlerId)
    requires Inv(s) && Can(s, a) && Stranded(s, x)
    ensures !Uses(Step(s, a), h, x.id)
  {
    assert !Uses(s, h, x.id) && x.id in s.drawn;
    if AttachedTo(Step(s, a), h, x.id) {
      AttachStep(s, a, h, x.id);
      NotResumed(s, x, h);
    }
    if OwnsPending(Step(s, a), h) {
      PendingStep(s, a, h);
    }
  }

  lemma NotResumed(s: State, x: Session, h: HandlerId)
    requires Inv(s) && Can(s, Authorized(h)) && Stranded(s, x)
    ensures !Uses(Step(s, Authorized(h)), h, x.id)
  {
    var resume := s.handlers[h].pc.resume;
    if resume.Some? && s.reg.Resume(resume.value).Some? {
      var y := s.reg.Resume(resume.value).value;
      assert y.id != x.id by { ResumedWasTold(s, h); }
    }
    AuthorizedUses(s, h, x.id);
  }

  lemma AuthorizedUses(s: State, h: HandlerId, id: SessionId)
    requires Can(s, Authorized(h))
    requires var resume := s.handlers[h].pc.resume;
             resume.Some? && s.reg.Resume(resume.value).Some? ==> s.reg.Resume(resume.value).value.id != id
    ensures !Uses(Step(s, Authorized(h)), h, id)
  {
  }

  /** Nobody resumes a session whose token was not sent to a client. */
  lemma ResumedWasTold(s: State, h: HandlerId)
    requires Inv(s) && PcOf(s, h).Authorizing? && s.handlers[h].pc.resume.Some?
    requires s.reg.Resume(s.handlers[h].pc.resume.value).Some?
    ensures var x := s.reg.Resume(s.handlers[h].pc.resume.value).value;
            x in s.minted && x.token in s.disclosed
  {
    ResumedIsApproved(s, h);
    Handled(s, h);
  }

  /** And there is such a session: its connection failed before the `Hello` left. */
  lemma SlotCanBeStranded() returns (s: State)
    ensures Reachable(s) && Stranded(s, X)
  {
    s := FreshSession();
    ReachStep(s, Fail(0, false)); s := Step(s, Fail(0, false));
  }
}
