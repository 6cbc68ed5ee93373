/** When a session's slot is freed, when it is lost for good, and when its token stops
    working: exactly, over every run of the handlers. */
module LifecycleSlots {
  import opened Frames
  import opened Sessions
  import opened ReplyGrammar
  import opened Lifecycle
  import opened LifecycleProofs
  import opened LifecycleTheorems

  // ------------------------------------------------------- freeing a slot

  /** A handler of the session reports its close. */
  predicate Frees(s: State, a: Action, id: SessionId) {
    && a.Decide? && PcOf(s, a.h).Deciding? && PcOf(s, a.h).s.id == id
    && (PcOf(s, a.h).asked || id in s.ended)
  }

  lemma FreesStep(s: State, a: Action, id: SessionId)
    requires Can(s, a) && SlotHeld(s.log, id)
    ensures !SlotHeld(Step(s, a).log, id) <==> Frees(s, a, id)
    ensures Frees(s, a, id) ==> AttachedTo(s, a.h, id)
  {
    LogStep(s, a, id);
    LogOnlyGrows(s, a);
  }

  /** In every run, a held slot is freed by exactly those steps: a handler attached to
      the session decides that it was asked to close, or that the session has ended. */
  lemma FreedIff(run: seq<State>, acts: seq<Action>, i: nat, id: SessionId)
    requires IsRun(run, acts) && i < |acts| && SlotHeld(run[i].log, id)
    ensures !SlotHeld(run[i + 1].log, id) <==> Frees(run[i], acts[i], id)
  {
    FreesStep(run[i], acts[i], id);
  }

  ghost predicate Detached(run: seq<State>, i: nat, j: nat, id: SessionId)
    requires i <= j <= |run|
  {
    forall k, h :: i <= k < j ==> !AttachedTo(run[k], h, id)
  }

  /** So nothing is reported while nobody is attached, whether the session has ended or
      not: its slot stays held and it stays registered. */
  lemma {:induction false} HeldWhileDetached(run: seq<State>, acts: seq<Action>, i: nat, j: nat, id: SessionId)
    requires IsRun(run, acts) && i <= j < |run| && SlotHeld(run[i].log, id) && Detached(run, i, j, id)
    ensures SlotHeld(run[j].log, id) && id in run[j].reg.byId
  {
    if i < j {
      HeldWhileDetached(run, acts, i, j - 1, id);
      FreesStep(run[j - 1], acts[j - 1], id);
    }
    SlotAccounting(run, acts, j, id);
  }

  predicate CanAll(s: State, acts: seq<Action>)
    decreases |acts|
  {
    acts == [] || (Can(s, acts[0]) && CanAll(Step(s, acts[0]), acts[1..]))
  }

  function Exec(s: State, acts: seq<Action>): State
    requires CanAll(s, acts)
    decreases |acts|
  {
    if acts == [] then s else Exec(Step(s, acts[0]), acts[1..])
  }

  /** What a handler does by itself once its client is gone. */
  function WayOut(h: HandlerId, asked: bool): seq<Action> {
    [Leave(h, asked), ReportUsage(h), Decide(h), Remove(h)]
  }

  lemma ExecFirst(s: State, a: Action, rest: seq<Action>)
    requires Can(s, a) && CanAll(Step(s, a), rest)
    ensures CanAll(s, [a] + rest) && Exec(s, [a] + rest) == Exec(Step(s, a), rest)
  {
    assert ([a] + rest)[1..] == rest;
  }

  /** From whatever state: a running handler of a session that has ended, or whose
      client asks to close, frees the slot and removes the session by its own steps. */
  lemma HandlerFrees(s: State, h: HandlerId, asked: bool)
    requires PcOf(s, h).Running? && (asked || PcOf(s, h).s.id in s.ended)
    ensures CanAll(s, WayOut(h, asked))
    ensures !SlotHeld(Exec(s, WayOut(h, asked)).log, PcOf(s, h).s.id)
    ensures PcOf(s, h).s.id !in Exec(s, WayOut(h, asked)).reg.byId
  {
    var t := Step(s, Leave(h, asked));
    ReportAndOut(t, h);
    ExecFirst(s, Leave(h, asked), WayOut(h, asked)[1..]);
    assert WayOut(h, asked) == [Leave(h, asked)] + WayOut(h, asked)[1..];
  }

  lemma ReportAndOut(s: State, h: HandlerId)
    requires PcOf(s, h).Reporting? && (PcOf(s, h).asked || PcOf(s, h).s.id in s.ended)
    ensures var out := [ReportUsage(h), Decide(h), Remove(h)];
            && CanAll(s, out) && !SlotHeld(Exec(s, out).log, PcOf(s, h).s.id)
            && PcOf(s, h).s.id !in Exec(s, out).reg.byId
  {
    DecideAndOut(Step(s, ReportUsage(h)), h);
    ExecFirst(s, ReportUsage(h), [Decide(h), Remove(h)]);
    assert [ReportUsage(h), Decide(h), Remove(h)] == [ReportUsage(h)] + [Decide(h), Remove(h)];
  }

  lemma DecideAndOut(s: State, h: HandlerId)
    requires PcOf(s, h).Deciding? && (PcOf(s, h).asked || PcOf(s, h).s.id in s.ended)
    ensures var out := [Decide(h), Remove(h)];
            && CanAll(s, out) && !SlotHeld(Exec(s, out).log, PcOf(s, h).s.id)
            && PcOf(s, h).s.id !in Exec(s, out).reg.byId
  {
    var id := PcOf(s, h).s.id;
    var t := Step(s, Decide(h));
    assert t.log[|s.log|] == SlotClosed(id);
    assert [Remove(h)] == [Remove(h)] + [] && CanAll(Step(t, Remove(h)), []);
    ExecFirst(t, Remove(h), []);
    ExecFirst(s, Decide(h), [Remove(h)]);
    assert [Decide(h), Remove(h)] == [Decide(h)] + [Remove(h)];
  }

  // ------------------------------------------------------- losing a slot

  /** Its client has been sent the session's token. */
  predicate Informed(pc: Pc) {
    pc.Attached() && (pc.Greeting? ==> pc.resumed)
  }

  /** A session whose token nobody was sent has not been closed, and at most one handler
      uses it. */
  ghost predicate Private(s: State, x: Session) {
    x.token in s.disclosed
    || (SlotClosed(x.id) !in s.log && forall h, k :: Uses(s, h, x.id) && Uses(s, k, x.id) ==> h == k)
  }

  ghost predicate Told(s: State) {
    && (forall h :: h in s.handlers && Informed(s.handlers[h].pc) ==> s.handlers[h].pc.s.token in s.disclosed)
    && (forall x :: x in s.minted ==> Private(s, x))
  }

  lemma DisclosedGrows(s: State, a: Action)
    requires Can(s, a)
    ensures s.disclosed <= Step(s, a).disclosed && s.minted <= Step(s, a).minted
  {
  }

  lemma InformedStep(s: State, a: Action, h: HandlerId)
    requires Inv(s) && Told(s) && Can(s, a)
    requires h in Step(s, a).handlers && Informed(Step(s, a).handlers[h].pc)
    ensures Step(s, a).handlers[h].pc.s.token in Step(s, a).disclosed
  {
    DisclosedGrows(s, a);
    if a.SessionEnds? || a.h != h {
      OthersStay(s, a, h);
    } else if a.Authorized? {
      assert HandlerOk(s.handlers[h], s);
    }
  }

  /** Who begins to use a session: the handler that created it, or one that resumed it
      with its token. */
  lemma UseStep(s: State, a: Action, h: HandlerId, x: Session)
    requires Inv(s) && Can(s, a) && Uses(Step(s, a), h, x.id) && !Uses(s, h, x.id) && x in s.minted
    ensures x.token in s.disclosed
  {
    if AttachedTo(Step(s, a), h, x.id) {
      AttachStep(s, a, h, x.id);
      assert a == Authorized(h) && HandlerOk(s.handlers[h], s);
    } else {
      PendingStep(s, a, h);
    }
  }

  lemma PrivateStep(s: State, a: Action, x: Session)
    requires Inv(s) && Told(s) && Can(s, a) && x in s.minted
    ensures Private(Step(s, a), x)
  {
    var t := Step(s, a);
    DisclosedGrows(s, a);
    if x.token !in t.disclosed {
      assert Private(s, x);
      LogStep(s, a, x.id);
      if a.Decide? { assert HandlerOk(s.handlers[a.h], s) && Informed(s.handlers[a.h].pc); }
      forall h, k | Uses(t, h, x.id) && Uses(t, k, x.id) ensures h == k {
        if !Uses(s, h, x.id) { UseStep(s, a, h, x); }
        if !Uses(s, k, x.id) { UseStep(s, a, k, x); }
      }
    }
  }

  /** A session just created is used by its creator alone. */
  lemma PrivateAtFirst(s: State, h: HandlerId, x: Session)
    requires Inv(s) && Can(s, Connected(h, x))
    ensures Private(Step(s, Connected(h, x)), x)
  {
    var t := Step(s, Connected(h, x));
    assert SlotClosed(x.id) in s.log ==> x.id in s.drawn;
    forall k | k != h ensures !Uses(t, k, x.id) {
      OthersStay(s, Connected(h, x), k);
      if k in s.handlers { Handled(s, k); }
    }
  }

  lemma ToldStep(s: State, a: Action)
    requires Inv(s) && Told(s) && Can(s, a)
    ensures Told(Step(s, a))
  {
    var t := Step(s, a);
    forall h | h in t.handlers && Informed(t.handlers[h].pc) ensures t.handlers[h].pc.s.token in t.disclosed {
      InformedStep(s, a, h);
    }
    forall x | x in t.minted ensures Private(t, x) {
      if x in s.minted { PrivateStep(s, a, x); } else { PrivateAtFirst(s, a.h, x); }
    }
  }

  lemma {:induction false} RunKeepsTold(run: seq<State>, acts: seq<Action>, i: nat)
    requires IsRun(run, acts) && i < |run|
    ensures Told(run[i])
  {
    if i > 0 {
      RunKeepsTold(run, acts, i - 1);
      RunKeepsInv(run, acts, i - 1);
      ToldStep(run[i - 1], acts[i - 1]);
    }
  }

  /** The connection fails between the approval of `x` and its `Hello`, of which nothing
      reaches the client; and no client was sent the token before. */
  predicate LosesHello(s: State, a: Action, x: Session) {
    a.Fail? && !a.leaked && PcOf(s, a.h) == Greeting(x, false) && x.token !in s.disclosed
  }

  lemma LosingStrands(s: State, a: Action, x: Session)
    requires Inv(s) && Told(s) && Can(s, a) && LosesHello(s, a, x)
    ensures Stranded(Step(s, a), x) && !Stranded(s, x)
  {
    Handled(s, a.h);
    assert AttachedTo(s, a.h, x.id) && Uses(s, a.h, x.id) && Private(s, x);
    var t := Step(s, a);
    forall k ensures !Uses(t, k, x.id) {
      if k != a.h {
        OthersStay(s, a, k);
        assert !Uses(s, k, x.id);
      }
    }
  }

  /** A handler stops using an approved session nobody was told of only that way. */
  lemma LeavesOnlyByLosing(s: State, a: Action, x: Session, h: HandlerId)
    requires Inv(s) && Told(s) && Can(s, a) && x in s.minted && x.token !in Step(s, a).disclosed
    requires OpenOk(x.id) in s.log && Uses(s, h, x.id) && !Uses(Step(s, a), h, x.id)
    ensures LosesHello(s, a, x) && a.h == h
  {
    DisclosedGrows(s, a);
    if a.SessionEnds? || a.h != h { OthersStay(s, a, h); }
    Handled(s, h);
    assert OpenOk(x.id).id == x.id;
    assert s.handlers[h].pc.s == x;
    assert !Informed(s.handlers[h].pc);
  }

  lemma OnlyLosingStrands(s: State, a: Action, x: Session)
    requires Inv(s) && Told(s) && Can(s, a) && Stranded(Step(s, a), x) && !Stranded(s, x)
    ensures LosesHello(s, a, x)
  {
    var t := Step(s, a);
    DisclosedGrows(s, a);
    BecomesStranded(s, a, x);
    var h :| Uses(s, h, x.id);
    LeavesOnlyByLosing(s, a, x, h);
  }

  /** It was created and approved before, so somebody was using it. */
  lemma BecomesStranded(s: State, a: Action, x: Session)
    requires Inv(s) && Can(s, a) && Stranded(Step(s, a), x) && !Stranded(s, x)
    ensures x in s.minted && OpenOk(x.id) in s.log && exists h :: Uses(s, h, x.id)
  {
    DisclosedGrows(s, a);
    if a.Connected? { ConnectedUses(s, a.h, a.s); }
    if a.Approve? { ApprovedUses(s, a.h); }
    OpenStep(s, a, x.id);
    LogStep(s, a, x.id);
  }

  lemma ConnectedUses(s: State, h: HandlerId, x: Session)
    requires Can(s, Connected(h, x))
    ensures Uses(Step(s, Connected(h, x)), h, x.id)
  {
    assert OwnsPending(Step(s, Connected(h, x)), h);
  }

  lemma ApprovedUses(s: State, h: HandlerId)
    requires Can(s, Approve(h))
    ensures Uses(Step(s, Approve(h)), h, PcOf(s, h).s.id)
  {
    assert AttachedTo(Step(s, Approve(h)), h, PcOf(s, h).s.id);
  }

  /** Only an approval opens a slot. */
  lemma OpenStep(s: State, a: Action, id: SessionId)
    requires Can(s, a)
    ensures OpenOk(id) in Step(s, a).log <==> OpenOk(id) in s.log || (a.Approve? && PcOf(s, a.h).s.id == id)
  {
    var t := Step(s, a);
    if a.Approve? { assert t.log[|s.log|] == OpenOk(PcOf(s, a.h).s.id); }
  }

  /** In every run, a step strands a session exactly when it is that failure. */
  lemma StrandsIff(run: seq<State>, acts: seq<Action>, i: nat, x: Session)
    requires IsRun(run, acts) && i < |acts|
    ensures Stranded(run[i + 1], x) && !Stranded(run[i], x) <==> LosesHello(run[i], acts[i], x)
  {
    RunKeepsInv(run, acts, i);
    RunKeepsTold(run, acts, i);
    if LosesHello(run[i], acts[i], x) { LosingStrands(run[i], acts[i], x); }
    if Stranded(run[i + 1], x) && !Stranded(run[i], x) { OnlyLosingStrands(run[i], acts[i], x); }
  }
}
