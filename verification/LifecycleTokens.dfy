/** For how long a session's token works, in terms of what the handlers do. */
module LifecycleTokens {
  import opened Frames
  import opened Sessions
  import opened ReplyGrammar
  import opened Lifecycle
  import opened LifecycleProofs
  import opened LifecycleTheorems

  /** A handler takes the session out of the registry: after reporting its close, or
      after the control plane refused it. */
  predicate Removes(s: State, a: Action, id: SessionId) {
    (a.Remove? && PcOf(s, a.h).Removing? && PcOf(s, a.h).s.id == id)
    || (a.RemoveDenied? && PcOf(s, a.h).Denied? && PcOf(s, a.h).s.id == id)
  }

  ghost predicate RemovedBefore(run: seq<State>, acts: seq<Action>, i: nat, id: SessionId)
    requires i <= |acts| < |run|
  {
    exists j :: 0 <= j < i && Removes(run[j], acts[j], id)
  }

  lemma RemovedMore(run: seq<State>, acts: seq<Action>, i: nat, id: SessionId)
    requires i < |acts| < |run|
    ensures RemovedBefore(run, acts, i + 1, id) <==> RemovedBefore(run, acts, i, id) || Removes(run[i], acts[i], id)
  {
  }

  /** Only a new session is registered, and only a removal unregisters one. */
  lemma RegistryStep(s: State, a: Action, id: SessionId)
    requires s.reg.Consistent() && Can(s, a)
    ensures id in Step(s, a).reg.byId <==> (a.Connected? && a.s.id == id) || (id in s.reg.byId && !Removes(s, a, id))
  {
    if !a.Connected? && !a.Remove? && !a.RemoveDenied? { RegistryStays(s, a); }
  }

  lemma RegistryStays(s: State, a: Action)
    requires Can(s, a) && !a.Connected? && !a.Remove? && !a.RemoveDenied?
    ensures Step(s, a).reg == s.reg
  {
  }

  lemma DrawnStep(s: State, a: Action, id: SessionId)
    requires Can(s, a)
    ensures id in Step(s, a).drawn <==> (a.Connected? && a.s.id == id) || id in s.drawn
    ensures a.Connected? ==> a.s.id !in s.drawn
  {
  }

  lemma RemovedWasDrawn(s: State, a: Action, id: SessionId)
    requires Inv(s) && Can(s, a) && Removes(s, a, id)
    ensures id in s.drawn
  {
    Handled(s, a.h);
  }

  /** A session whose id was drawn is registered exactly until it is removed. */
  ghost predicate Registered(run: seq<State>, acts: seq<Action>, i: nat, id: SessionId)
    requires i <= |acts| < |run|
  {
    && (id in run[i].drawn ==> (id in run[i].reg.byId <==> !RemovedBefore(run, acts, i, id)))
    && (RemovedBefore(run, acts, i, id) || id in run[i].reg.byId ==> id in run[i].drawn)
  }

  lemma {:induction false} RunKeepsRegistered(run: seq<State>, acts: seq<Action>, i: nat, id: SessionId)
    requires IsRun(run, acts) && i < |run|
    ensures Registered(run, acts, i, id)
  {
    if i > 0 {
      RunKeepsRegistered(run, acts, i - 1, id);
      RegisteredStep(run, acts, i - 1, id);
    }
  }

  lemma RegisteredStep(run: seq<State>, acts: seq<Action>, i: nat, id: SessionId)
    requires IsRun(run, acts) && i < |acts| && Registered(run, acts, i, id)
    ensures Registered(run, acts, i + 1, id)
  {
    RunKeepsInv(run, acts, i);
    RemovedMore(run, acts, i, id);
    RegistryStep(run[i], acts[i], id);
    DrawnStep(run[i], acts[i], id);
    if Removes(run[i], acts[i], id) { RemovedWasDrawn(run[i], acts[i], id); }
  }

  /** In every run, a session's token resolves to it exactly until the first removal of
      the session, whatever its client has been told. */
  lemma TokenWorksIff(run: seq<State>, acts: seq<Action>, i: nat, x: Session)
    requires IsRun(run, acts) && i < |run| && x in run[i].minted
    ensures run[i].reg.Resume(x.token) == Some(x) <==> !RemovedBefore(run, acts, i, x.id)
  {
    assert Books(run[i]) by { RunKeepsInv(run, acts, i); }
    RunKeepsRegistered(run, acts, i, x.id);
  }

  // --------------------------------------------------- what a client was told

  /** Every `Hello` a connection has sent names a session that was created. */
  ghost predicate HellosName(s: State) {
    forall h, k :: h in s.handlers && 0 <= k < |s.handlers[h].sent| && s.handlers[h].sent[k].ServerHello? ==>
      Session(s.handlers[h].sent[k].sessionId, s.handlers[h].sent[k].token) in s.minted
  }

  /** What a step sends: at most one frame, and a `Hello` only by `SendHello`. */
  lemma SentStep(s: State, a: Action, h: HandlerId)
    requires Can(s, a) && h in Step(s, a).handlers
    ensures var now := Step(s, a).handlers[h].sent;
            || now == (if h in s.handlers then s.handlers[h].sent else [])
            || (h in s.handlers && |now| == |s.handlers[h].sent| + 1 && s.handlers[h].sent == now[..|s.handlers[h].sent|]
                && (now[|s.handlers[h].sent|].ServerHello? ==>
                      a == SendHello(h)
                      && now[|s.handlers[h].sent|].sessionId == PcOf(s, h).s.id
                      && now[|s.handlers[h].sent|].token == PcOf(s, h).s.token))
  {
    if a.SessionEnds? || a.h != h { OthersStay(s, a, h); }
  }

  lemma HelloStep(s: State, a: Action, h: HandlerId, k: nat)
    requires Inv(s) && HellosName(s) && Can(s, a)
    requires h in Step(s, a).handlers && k < |Step(s, a).handlers[h].sent| && Step(s, a).handlers[h].sent[k].ServerHello?
    ensures var hello := Step(s, a).handlers[h].sent[k];
            Session(hello.sessionId, hello.token) in s.minted
  {
    SentStep(s, a, h);
    Handled(s, h);
    if k < |s.handlers[h].sent| { assert Step(s, a).handlers[h].sent[k] == s.handlers[h].sent[k]; }
  }

  lemma HellosStep(s: State, a: Action)
    requires Inv(s) && HellosName(s) && Can(s, a)
    ensures HellosName(Step(s, a))
  {
    var t := Step(s, a);
    assert s.minted <= t.minted;
    forall h, k | h in t.handlers && 0 <= k < |t.handlers[h].sent| && t.handlers[h].sent[k].ServerHello?
      ensures Session(t.handlers[h].sent[k].sessionId, t.handlers[h].sent[k].token) in t.minted
    {
      HelloStep(s, a, h, k);
    }
  }

  lemma {:induction false} RunKeepsHellos(run: seq<State>, acts: seq<Action>, i: nat)
    requires IsRun(run, acts) && i < |run|
    ensures HellosName(run[i])
  {
    if i > 0 {
      RunKeepsHellos(run, acts, i - 1);
      RunKeepsInv(run, acts, i - 1);
      HellosStep(run[i - 1], acts[i - 1]);
    }
  }

  /** A connection that has sent `Closed` has sent a `Hello` before, and the token in it
      resolves exactly until the first removal of its session. */
  lemma ClosedTokenIff(run: seq<State>, acts: seq<Action>, i: nat, h: HandlerId) returns (k: nat)
    requires IsRun(run, acts) && i < |run| && h in run[i].handlers && Closed in run[i].handlers[h].sent
    ensures k < |run[i].handlers[h].sent| && run[i].handlers[h].sent[k].ServerHello?
    ensures var hello := run[i].handlers[h].sent[k];
            run[i].reg.Resume(hello.token) == Some(Session(hello.sessionId, hello.token))
            <==> !RemovedBefore(run, acts, i, hello.sessionId)
  {
    k := RepliesAreGrammatical(run, acts, i, h);
    var sent := run[i].handlers[h].sent;
    RunKeepsHellos(run, acts, i);
    TokenWorksIff(run, acts, i, Session(sent[k].sessionId, sent[k].token));
  }
}
