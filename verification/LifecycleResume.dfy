/** Where a presented token leads: to the session it belongs to, or to a new one. */
module LifecycleResume {
  import opened Frames
  import opened Sessions
  import opened ReplyGrammar
  import opened Lifecycle
  import opened LifecycleProofs
  import opened LifecycleTheorems
  import opened LifecycleSlots
  import opened LifecycleTokens

  // -------------------------------------------------- what was presented

  /** Before its `Hello` is answered, or past that. */
  predicate Presented(pc: Pc, resume: Option<Token>) {
    pc == Authorizing(resume) || (!pc.AwaitHello? && !pc.Authorizing?)
  }

  lemma PresentedStep(s: State, a: Action, h: HandlerId, resume: Option<Token>)
    requires Can(s, a) && h in s.handlers && Presented(PcOf(s, h), resume)
    ensures h in Step(s, a).handlers && Presented(PcOf(Step(s, a), h), resume)
  {
    if a.SessionEnds? || a.h != h { OthersStay(s, a, h); }
  }

  /** What a handler is authorizing is what its `Hello` carried. */
  lemma {:induction false} PresentedStays(run: seq<State>, acts: seq<Action>, i: nat, j: nat, h: HandlerId,
                                          resume: Option<Token>)
    requires IsRun(run, acts) && i < j < |run| && acts[i] == HelloArrives(h, resume)
    ensures h in run[j].handlers && Presented(PcOf(run[j], h), resume)
  {
    if j > i + 1 {
      PresentedStays(run, acts, i, j - 1, h, resume);
      PresentedStep(run[j - 1], acts[j - 1], h, resume);
    }
  }

  // ------------------------------------------------------ who was created

  ghost predicate CreatedBefore(acts: seq<Action>, j: nat, x: Session)
    requires j <= |acts|
  {
    exists k, h :: 0 <= k < j && acts[k] == Connected(h, x)
  }

  lemma MintedStep(s: State, a: Action, x: Session)
    requires Can(s, a)
    ensures x in Step(s, a).minted <==> x in s.minted || (a.Connected? && a.s == x)
  {
  }

  lemma CreatedMore(acts: seq<Action>, j: nat, x: Session)
    requires j < |acts|
    ensures CreatedBefore(acts, j + 1, x) <==> CreatedBefore(acts, j, x) || (acts[j].Connected? && acts[j].s == x)
  {
    if acts[j].Connected? && acts[j].s == x { assert acts[j] == Connected(acts[j].h, x); }
  }

  lemma {:induction false} MintedIsCreated(run: seq<State>, acts: seq<Action>, j: nat, x: Session)
    requires IsRun(run, acts) && j < |run|
    ensures x in run[j].minted <==> CreatedBefore(acts, j, x)
  {
    if j > 0 {
      MintedIsCreated(run, acts, j - 1, x);
      MintedStep(run[j - 1], acts[j - 1], x);
      CreatedMore(acts, j - 1, x);
    }
  }

  // -------------------------------------------------------- what comes of it

  /** The token presented is that of a session created and not removed since. */
  ghost predicate Living(run: seq<State>, acts: seq<Action>, j: nat, resume: Option<Token>, x: Session)
    requires j <= |acts| < |run|
  {
    resume == Some(x.token) && CreatedBefore(acts, j, x) && !RemovedBefore(run, acts, j, x.id)
  }

  lemma ResolvesIff(run: seq<State>, acts: seq<Action>, j: nat, resume: Option<Token>, x: Session)
    requires IsRun(run, acts) && j < |acts|
    ensures resume.Some? && run[j].reg.Resume(resume.value) == Some(x) <==> Living(run, acts, j, resume, x)
  {
    MintedIsCreated(run, acts, j, x);
    RunKeepsInv(run, acts, j);
    if x in run[j].minted { TokenWorksIff(run, acts, j, x); }
    if resume.Some? && run[j].reg.Resume(resume.value) == Some(x) { ResolvedIsMinted(run[j], resume.value, x); }
  }

  lemma ResolvedIsMinted(s: State, token: Token, x: Session)
    requires Inv(s) && s.reg.Resume(token) == Some(x)
    ensures x in s.minted && x.token == token
  {
  }

  /** A handler with a session in hand greets it in its next step. */
  ghost predicate GreetsNext(s: State, h: HandlerId, x: Session, resumed: bool) {
    && Can(s, SendHello(h))
    && h in Step(s, SendHello(h)).handlers
    && Step(s, SendHello(h)).handlers[h].sent == [ServerHello(PROTOCOL_VERSION, x.id, resumed, x.token)]
  }

  /** Once its client is authorized, a handler greets a session as resumed exactly if its
      `Hello` carried the token of that session, which was created and has not been removed
      since. If there is no such session it waits for an `Open`, having sent and reported
      nothing. */
  lemma ResumesIff(run: seq<State>, acts: seq<Action>, i: nat, j: nat, h: HandlerId, resume: Option<Token>, x: Session)
    requires IsRun(run, acts) && i < j < |acts| && acts[i] == HelloArrives(h, resume) && acts[j] == Authorized(h)
    ensures GreetsNext(run[j + 1], h, x, true) <==> Living(run, acts, j, resume, x)
    ensures Living(run, acts, j, resume, x) ==> run[j + 1].log == run[j].log + [Resumed(x.id)]
    ensures (forall y :: !Living(run, acts, j, resume, y)) ==>
              && run[j + 1].log == run[j].log && h in run[j + 1].handlers
              && run[j + 1].handlers[h] == Handler(AwaitOpen, NoSender, [])
  {
    PresentedStays(run, acts, i, j, h, resume);
    RunKeepsInv(run, acts, j);
    SilentBefore(run[j], h);
    AuthorizedTo(run[j], h, x);
    ResolvesIff(run, acts, j, resume, x);
    var found := if resume.Some? then run[j].reg.Resume(resume.value) else None;
    if found.Some? { ResolvesIff(run, acts, j, resume, found.value); }
  }

  lemma SilentBefore(s: State, h: HandlerId)
    requires Inv(s) && PcOf(s, h).Authorizing?
    ensures s.handlers[h].sent == [] && s.handlers[h].sender == NoSender
  {
    assert HandlerOk(s.handlers[h], s);
    var _ := ScanShape(s.handlers[h].sent);
  }

  lemma AuthorizedTo(s: State, h: HandlerId, x: Session)
    requires PcOf(s, h).Authorizing? && s.handlers[h].sent == []
    ensures var resume := PcOf(s, h).resume;
            GreetsNext(Step(s, Authorized(h)), h, x, true) <==> resume.Some? && s.reg.Resume(resume.value) == Some(x)
  {
    var t := Step(s, Authorized(h));
    if t.handlers[h].pc.Greeting? {
      var y := t.handlers[h].pc.s;
      var hello := Step(t, SendHello(h)).handlers[h].sent;
      assert hello == [] + [ServerHello(PROTOCOL_VERSION, y.id, true, y.token)];
      assert GreetsNext(t, h, x, true) <==> hello[0] == ServerHello(PROTOCOL_VERSION, x.id, true, x.token);
    }
  }

  // ------------------------------------------------------ a new session

  /** Its id and token are nobody's. */
  ghost predicate New(s: State, y: Session) {
    && y.id !in s.drawn && y.token !in s.guessed && y.token !in s.disclosed
    && forall m :: m in s.minted ==> m.token != y.token
  }

  /** A session made for the `Open`, its approval asked for. */
  function Opened(s: State, h: HandlerId, y: Session): State
    requires h in s.handlers
  {
    s.(handlers := s.handlers[h := Handler(AwaitVerdict(y), NoSender, [])],
       reg := s.reg.Create(y), minted := s.minted + {y}, drawn := s.drawn + {y.id})
  }

  lemma OpensThen(s: State, h: HandlerId, y: Session, rest: seq<Action>)
    requires h in s.handlers && s.handlers[h] == Handler(AwaitOpen, NoSender, []) && New(s, y)
    requires CanAll(Opened(s, h, y), rest)
    ensures CanAll(s, [OpenArrives(h), Connected(h, y)] + rest)
    ensures Exec(s, [OpenArrives(h), Connected(h, y)] + rest) == Exec(Opened(s, h, y), rest)
  {
    var t := Step(s, OpenArrives(h));
    assert Step(t, Connected(h, y)).handlers == Opened(s, h, y).handlers;
    ExecFirst(t, Connected(h, y), rest);
    ExecFirst(s, OpenArrives(h), [Connected(h, y)] + rest);
    assert [OpenArrives(h)] + ([Connected(h, y)] + rest) == [OpenArrives(h), Connected(h, y)] + rest;
  }

  lemma ExecThree(s: State, a: Action, b: Action, c: Action)
    requires Can(s, a) && Can(Step(s, a), b) && Can(Step(Step(s, a), b), c)
    ensures CanAll(s, [a, b, c]) && Exec(s, [a, b, c]) == Step(Step(Step(s, a), b), c)
  {
    var t := Step(s, a);
    var u := Step(t, b);
    assert CanAll(Step(u, c), []) && Exec(Step(u, c), []) == Step(u, c);
    ExecFirst(u, c, []);
    ExecFirst(t, b, [c]);
    ExecFirst(s, a, [b, c]);
    assert [c] + [] == [c] && [b] + [c] == [b, c] && [a] + [b, c] == [a, b, c];
  }

  /** A handler waiting for an `Open` gets a new session by its own steps, once the control
      plane approves: opened, greeted as new, live. */
  lemma OpensNew(s: State, h: HandlerId, y: Session)
    requires h in s.handlers && s.handlers[h] == Handler(AwaitOpen, NoSender, []) && New(s, y)
    ensures var own := [OpenArrives(h), Connected(h, y)] + [Approve(h), SendHello(h), SendStatus(h)];
            && CanAll(s, own)
            && var t := Exec(s, own);
               && h in t.handlers && t.handlers[h] == Handler(Running(y), Streams(y),
                                                              [ServerHello(PROTOCOL_VERSION, y.id, false, y.token), Status(Live)])
               && t.log == s.log + [OpenOk(y.id), Event.Greeted(y.id)] && t.reg == s.reg.Create(y)
  {
    ExecThree(Opened(s, h, y), Approve(h), SendHello(h), SendStatus(h));
    OpensThen(s, h, y, [Approve(h), SendHello(h), SendStatus(h)]);
  }

  /** If the control plane refuses, nothing is left of it but the error the client gets. */
  lemma RefusedLeavesNothing(s: State, h: HandlerId, y: Session, error: ServerFrame)
    requires Inv(s) && h in s.handlers && s.handlers[h] == Handler(AwaitOpen, NoSender, []) && New(s, y) && error.Error?
    ensures var own := [OpenArrives(h), Connected(h, y)] + [Refuse(h), RemoveDenied(h), SendError(h, error)];
            && CanAll(s, own)
            && var t := Exec(s, own);
               && h in t.handlers && t.handlers[h] == Handler(Done, NoSender, [error])
               && t.log == s.log && t.reg == s.reg
  {
    ExecThree(Opened(s, h, y), Refuse(h), RemoveDenied(h), SendError(h, error));
    OpensThen(s, h, y, [Refuse(h), RemoveDenied(h), SendError(h, error)]);
    NewIsUndone(s, y);
  }

  lemma NewIsUndone(s: State, y: Session)
    requires Inv(s) && New(s, y)
    ensures s.reg.Create(y).Remove(y.id) == s.reg
  {
    assert y.id !in s.reg.byId && y.token !in s.reg.byToken;
    OperationsRefine(s.reg, y, y.id, y.token);
  }
}
