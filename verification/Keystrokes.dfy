/** Any number of connection handlers of one session, each with its client's framed
    stream, and the actor of its SSH channel behind one bounded queue they share
    (`receiver_loop` of `gw-server`, `Session::send_input` and the ingest task of
    `gw-core`, the actor of `gw-ssh`), interleaving at every `await`. */
module Keystrokes {
  import opened Frames
  import opened Places
  import opened SshActor
  import opened Receiver

  type ClientId = nat

  const INPUT_CAPACITY := 64
  const OUTPUT_CAPACITY := 256

  /** A handler: the frames its client's stream still yields, the input it is about to
      queue, and whether its loop is over and its hold on the session gone. */
  datatype Handler = Handler(incoming: seq<ClientFrame>, pending: Option<SshInput>, gone: bool)

  /** `streams` is what each client's stream yields in all, `arrivals` every input ever
      queued, `owners` whose the operations applied so far were. The session
      is held by the registry, by its ingest task, and by its handlers. */
  datatype State = State(
    handlers: map<ClientId, Handler>,
    streams: map<ClientId, seq<ClientFrame>>,
    arrivals: seq<Arrival>,
    actor: Actor,
    owners: seq<ClientId>,
    unread: nat,               // messages of the actor the ingest task has not taken
    ingesting: bool,
    registered: bool)

  datatype Action =
    | Connect(c: ClientId, frames: seq<ClientFrame>)
    | Read(c: ClientId)        // one `recv` of the loop
    | Forward(c: ClientId)     // its `send_input`
    | ApplyResize
    | Select(t: Turn)          // one `select!` of the actor
    | Ingest | IngestEnds
    | Unregister

  function Oldest(s: State): Option<SshInput> {
    if s.actor.consumed < |s.arrivals| then Some(s.arrivals[s.actor.consumed].input) else None
  }

  /** Somebody holds the session, and with it the sending end of the queue. */
  ghost predicate Held(s: State) {
    s.registered || s.ingesting || exists c :: c in s.handlers && !s.handlers[c].gone
  }

  ghost predicate CanSelect(s: State, t: Turn) {
    match t
    case Data(_, delivered) => delivered == s.ingesting && (delivered ==> s.unread < OUTPUT_CAPACITY)
    case ExtendedData(_, delivered) => delivered == s.ingesting && (delivered ==> s.unread < OUTPUT_CAPACITY)
    case NextInput(_) => s.actor.consumed < |s.arrivals|
    case InputsClosed => s.actor.consumed >= |s.arrivals| && !Held(s)
    case _ => true
  }

  ghost predicate Can(s: State, a: Action) {
    match a
    case Connect(c, _) => c !in s.handlers && Held(s)
    case Read(c) => c in s.handlers && !s.handlers[c].gone && s.handlers[c].pending.None?
    case Forward(c) =>
      && c in s.handlers && s.handlers[c].pending.Some?
      && (s.actor.stopped.None? ==> |s.arrivals| < s.actor.consumed + INPUT_CAPACITY)
    case ApplyResize => s.actor.stopped.None? && s.actor.pendingResize.Some?
    case Select(t) => s.actor.stopped.None? && s.actor.pendingResize.None? && CanSelect(s, t)
    case Ingest => s.ingesting && s.unread > 0
    case IngestEnds => s.ingesting && s.unread == 0 && s.actor.stopped.Some?
    case Unregister => s.registered
  }

  /** What one `recv` makes of a handler. */
  function Receives(hd: Handler): Handler {
    if hd.incoming == [] || hd.incoming[0].Close? then hd.(gone := true)
    else
      var inputs := InputOf(hd.incoming[0]);
      Handler(hd.incoming[1..], if inputs == [] then None else Some(inputs[0]), false)
  }

  function Selected(s: State, t: Turn): State {
    var actor := Act(s.actor, t, Oldest(s));
    s.(actor := actor,
       owners := if t.NextInput? && |actor.applied| > |s.actor.applied| && s.actor.consumed < |s.arrivals|
                 then s.owners + [s.arrivals[s.actor.consumed].client] else s.owners,
       unread := if (t.Data? || t.ExtendedData?) && t.delivered then s.unread + 1 else s.unread)
  }

  ghost function Step(s: State, a: Action): State
    requires Can(s, a)
  {
    match a
    case Connect(c, frames) =>
      s.(handlers := s.handlers[c := Handler(frames, None, false)], streams := s.streams[c := frames])
    case Read(c) => s.(handlers := s.handlers[c := Receives(s.handlers[c])])
    case Forward(c) =>
      s.(handlers := s.handlers[c := s.handlers[c].(pending := None)],
         arrivals := if s.actor.stopped.None? then s.arrivals + [Arrival(c, s.handlers[c].pending.value)] else s.arrivals)
    case ApplyResize =>
      s.(actor := Settled(s.actor),
         owners := if 0 < s.actor.consumed <= |s.arrivals| then s.owners + [s.arrivals[s.actor.consumed - 1].client]
                   else s.owners)
    case Select(t) => Selected(s, t)
    case Ingest => s.(unread := s.unread - 1)
    case IngestEnds => s.(ingesting := false)
    case Unregister => s.(registered := false)
  }

  /** A session just created. */
  const Start := State(map[], map[], [], Started, [], 0, true, true)

  ghost predicate IsRun(run: seq<State>, acts: seq<Action>) {
    && |run| == |acts| + 1
    && run[0] == Start
    && forall i :: 0 <= i < |acts| ==> Can(run[i], acts[i]) && run[i + 1] == Step(run[i], acts[i])
  }

  // -------------------------------------------------------------- invariant

  /** All that a client asks to be typed. */
  function Typed(frames: seq<ClientFrame>): seq<SshInput> { Inputs(BeforeClose(frames)) }

  function Pending(hd: Handler): seq<SshInput> {
    if hd.pending.Some? then [hd.pending.value] else []
  }

  /** What its handler has still to forward. */
  function ToCome(hd: Handler): seq<SshInput> {
    Pending(hd) + (if hd.gone then [] else Typed(hd.incoming))
  }

  /** While the actor runs, nothing a client typed is lost or reordered on its way. */
  ghost predicate Accounted(s: State, c: ClientId)
    requires c in s.handlers && c in s.streams
  {
    Flows(From(s.arrivals, c), ToCome(s.handlers[c]), Typed(s.streams[c]), s.actor.stopped.None?)
  }

  predicate Flows(queued: seq<SshInput>, coming: seq<SshInput>, typed: seq<SshInput>, running: bool) {
    queued <= typed && (running ==> queued + coming == typed)
  }

  ghost predicate Owned(s: State) {
    && InOrder(s.actor, Queue(s.arrivals))
    && |s.owners| == |s.actor.applied| <= |s.arrivals|
    && forall k :: 0 <= k < |s.owners| ==> s.owners[k] == s.arrivals[k].client
  }

  /** The ingest task outlives the actor, and nothing else ends the actor but its
      channel. */
  ghost predicate Alive(s: State) {
    && (s.actor.stopped.None? ==> s.ingesting)
    && (s.actor.stopped.Some? ==> s.actor.stopped.value.HungUp? || s.actor.stopped.value.WriteRefused?)
  }

  ghost predicate Inv(s: State) {
    && s.handlers.Keys == s.streams.Keys
    && (forall c :: c in s.handlers ==> Accounted(s, c))
    && (forall c :: c !in s.handlers ==> From(s.arrivals, c) == [])
    && Owned(s) && Alive(s)
  }

  // --------------------------------------------------- reading the streams

  lemma {:induction false} InputsConcat(a: seq<ClientFrame>, b: seq<ClientFrame>)
    ensures Inputs(a + b) == Inputs(a) + Inputs(b)
  {
    if b == [] {
      assert a + b == a;
    } else {
      var front, last := b[..|b| - 1], b[|b| - 1];
      InputsConcat(a, front);
      assert a + b == (a + front) + [last];
      InputsMore(a + front, last);
      Regroup(Inputs(a), Inputs(front), InputOf(last));
    }
  }

  lemma InputsMore(frames: seq<ClientFrame>, f: ClientFrame)
    ensures Inputs(frames + [f]) == Inputs(frames) + InputOf(f)
  {
    assert (frames + [f])[..|frames|] == frames;
  }

  lemma TypedOne(frames: seq<ClientFrame>)
    ensures Typed(frames) == if frames == [] || frames[0].Close? then [] else InputOf(frames[0]) + Typed(frames[1..])
  {
    if frames != [] && !frames[0].Close? {
      InputsConcat([frames[0]], BeforeClose(frames[1..]));
      OneInput(frames[0]);
    }
  }

  lemma OneInput(f: ClientFrame)
    ensures Inputs([f]) == InputOf(f) && |InputOf(f)| <= 1
  {
    assert [f][..0] == [];
  }

  lemma ReadKeepsToCome(hd: Handler)
    requires !hd.gone && hd.pending.None?
    ensures ToCome(Receives(hd)) == ToCome(hd)
  {
    TypedOne(hd.incoming);
    if hd.incoming != [] && !hd.incoming[0].Close? {
      var inputs := InputOf(hd.incoming[0]);
      assert inputs == if inputs == [] then [] else [inputs[0]] by { OneInput(hd.incoming[0]); }
      assert Pending(Receives(hd)) == inputs;
    }
  }

  lemma FromMore(arrivals: seq<Arrival>, x: Arrival, c: ClientId)
    ensures From(arrivals + [x], c) == From(arrivals, c) + (if x.client == c then [x.input] else [])
    ensures Queue(arrivals + [x]) == Queue(arrivals) + [x.input]
  {
    assert (arrivals + [x])[..|arrivals|] == arrivals;
  }

  // -------------------------------------------------- every step keeps it

  lemma InOrderGrows(a: Actor, queue: seq<SshInput>, x: SshInput)
    requires InOrder(a, queue)
    ensures InOrder(a, queue + [x])
  {
    assert (queue + [x])[..a.consumed] == queue[..a.consumed];
    if a.consumed > 0 { assert (queue + [x])[..a.consumed - 1] == queue[..a.consumed - 1]; }
  }

  lemma ForwardFlows(queued: seq<SshInput>, hd: Handler, typed: seq<SshInput>)
    requires hd.pending.Some? && Flows(queued, ToCome(hd), typed, true)
    ensures Flows(queued + [hd.pending.value], ToCome(hd.(pending := None)), typed, true)
  {
    var left := ToCome(hd.(pending := None));
    assert ToCome(hd) == [hd.pending.value] + left;
    Regroup(queued, [hd.pending.value], left);
  }

  /** What the queue holds of a client after a handler has forwarded. */
  lemma ForwardFrom(s: State, c: ClientId, d: ClientId)
    requires Can(s, Forward(c))
    ensures From(Step(s, Forward(c)).arrivals, d)
         == From(s.arrivals, d) + (if c == d && s.actor.stopped.None? then [s.handlers[c].pending.value] else [])
  {
    FromMore(s.arrivals, Arrival(c, s.handlers[c].pending.value), d);
    assert From(s.arrivals, d) + [] == From(s.arrivals, d);
  }

  lemma ForwardAccounted(s: State, c: ClientId, d: ClientId)
    requires Can(s, Forward(c)) && s.handlers.Keys == s.streams.Keys
    requires d in s.handlers && d in s.streams && Accounted(s, d)
    ensures Accounted(Step(s, Forward(c)), d)
  {
    ForwardFrom(s, c, d);
    if c == d && s.actor.stopped.None? {
      ForwardFlows(From(s.arrivals, c), s.handlers[c], Typed(s.streams[c]));
    }
  }

  lemma ForwardKeepsInv(s: State, c: ClientId)
    requires Inv(s) && Can(s, Forward(c))
    ensures Inv(Step(s, Forward(c)))
  {
    var t := Step(s, Forward(c));
    forall d | d in t.handlers ensures Accounted(t, d) {
      assert Accounted(s, d);
      ForwardAccounted(s, c, d);
    }
    forall d | d !in t.handlers ensures From(t.arrivals, d) == [] {
      FromMore(s.arrivals, Arrival(c, s.handlers[c].pending.value), d);
    }
    ForwardOwned(s, c);
  }

  lemma ForwardOwned(s: State, c: ClientId)
    requires Owned(s) && Can(s, Forward(c))
    ensures Owned(Step(s, Forward(c)))
  {
    FromMore(s.arrivals, Arrival(c, s.handlers[c].pending.value), c);
    InOrderGrows(s.actor, Queue(s.arrivals), s.handlers[c].pending.value);
  }

  lemma ReadKeepsInv(s: State, c: ClientId)
    requires Inv(s) && Can(s, Read(c))
    ensures Inv(Step(s, Read(c)))
  {
    var t := Step(s, Read(c));
    ReadKeepsToCome(s.handlers[c]);
    forall d | d in t.handlers ensures Accounted(t, d) { assert Accounted(s, d); }
  }

  lemma ConnectKeepsInv(s: State, c: ClientId, frames: seq<ClientFrame>)
    requires Inv(s) && Can(s, Connect(c, frames))
    ensures Inv(Step(s, Connect(c, frames)))
  {
    var t := Step(s, Connect(c, frames));
    assert From(s.arrivals, c) == [];
    ToComeAtFirst(frames);
    forall d | d in t.handlers ensures Accounted(t, d) {
      if d != c { assert Accounted(s, d); }
    }
  }

  lemma ToComeAtFirst(frames: seq<ClientFrame>)
    ensures Flows([], ToCome(Handler(frames, None, false)), Typed(frames), true)
  {
  }

  /** The actor moved and the queue did not. */
  lemma ActorMoved(s: State, t: State)
    requires Inv(s) && Owned(t) && Alive(t)
    requires t.handlers == s.handlers && t.streams == s.streams && t.arrivals == s.arrivals
    requires t.actor.stopped.None? ==> s.actor.stopped.None?
    ensures Inv(t)
  {
    forall c | c in t.handlers ensures Accounted(t, c) { assert Accounted(s, c); }
  }

  lemma ResizeOwned(s: State)
    requires Owned(s) && Can(s, ApplyResize)
    ensures Owned(Step(s, ApplyResize))
  {
    SettledInOrder(s.actor, Queue(s.arrivals));
  }

  lemma SelectOwned(s: State, t: Turn)
    requires Owned(s) && Can(s, Select(t))
    ensures Owned(Selected(s, t))
  {
    assert Oldest(s) == SshActor.Oldest(Queue(s.arrivals), s.actor.consumed);
    ActInOrder(s.actor, t, Queue(s.arrivals));
  }

  /** The end of the queue is never reached while the actor runs. */
  lemma SelectAlive(s: State, t: Turn)
    requires Alive(s) && Can(s, Select(t))
    ensures Alive(Selected(s, t)) && !t.InputsClosed?
  {
    assert Held(s);
  }

  lemma StepKeepsInv(s: State, a: Action)
    requires Inv(s) && Can(s, a)
    ensures Inv(Step(s, a))
  {
    match a
    case Connect(c, frames) => ConnectKeepsInv(s, c, frames);
    case Read(c) => ReadKeepsInv(s, c);
    case Forward(c) => ForwardKeepsInv(s, c);
    case ApplyResize =>
      ResizeOwned(s);
      ActorMoved(s, Step(s, a));
    case Select(t) =>
      SelectOwned(s, t);
      SelectAlive(s, t);
      ActorMoved(s, Selected(s, t));
    case Ingest => ActorMoved(s, Step(s, a));
    case IngestEnds => ActorMoved(s, Step(s, a));
    case Unregister => ActorMoved(s, Step(s, a));
  }

  lemma {:induction false} RunKeepsInv(run: seq<State>, acts: seq<Action>, i: nat)
    requires IsRun(run, acts) && i < |run|
    ensures Inv(run[i])
  {
    if i > 0 {
      RunKeepsInv(run, acts, i - 1);
      StepKeepsInv(run[i - 1], acts[i - 1]);
    }
  }

  /** The bounded queues hold no more than the code gives them room for. */
  ghost predicate Bounded(s: State) {
    && s.unread <= 256
    && (s.actor.stopped.None? ==> |s.arrivals| <= s.actor.consumed + 64)
  }

  lemma BoundedStep(s: State, a: Action)
    requires Bounded(s) && Can(s, a)
    ensures Bounded(Step(s, a))
  {
  }

  lemma {:induction false} QueuesAreBounded(run: seq<State>, acts: seq<Action>, i: nat)
    requires IsRun(run, acts) && i < |run|
    ensures Bounded(run[i])
  {
    if i > 0 {
      QueuesAreBounded(run, acts, i - 1);
      BoundedStep(run[i - 1], acts[i - 1]);
    }
  }

  // ------------------------------------------------- each client's own order

  /** The operations applied for one client, in the order they were applied. */
  function AppliedFor(applied: seq<ChannelOp>, owners: seq<ClientId>, c: ClientId): seq<ChannelOp>
    requires |applied| == |owners|
  {
    if applied == [] then []
    else
      AppliedFor(applied[..|applied| - 1], owners[..|applied| - 1], c)
      + (if owners[|applied| - 1] == c then [applied[|applied| - 1]] else [])
  }

  lemma OpsAppend(inputs: seq<SshInput>, x: SshInput)
    ensures Ops(inputs + [x]) == Ops(inputs) + [OpOf(x)]
  {
  }

  lemma {:induction false} AppliedIsFrom(applied: seq<ChannelOp>, owners: seq<ClientId>, arrivals: seq<Arrival>, c: ClientId)
    requires |applied| == |owners| <= |arrivals| && applied == Ops(Queue(arrivals)[..|applied|])
    requires forall k :: 0 <= k < |owners| ==> owners[k] == arrivals[k].client
    ensures AppliedFor(applied, owners, c) == Ops(From(arrivals[..|applied|], c))
  {
    if applied != [] {
      var n := |applied| - 1;
      OpsMore(Queue(arrivals), n);
      AppliedIsFrom(applied[..n], owners[..n], arrivals, c);
      assert arrivals[..n + 1] == arrivals[..n] + [arrivals[n]];
      FromMore(arrivals[..n], arrivals[n], c);
      OpsAppend(From(arrivals[..n], c), arrivals[n].input);
    }
  }

  lemma OpsPrefix(a: seq<SshInput>, b: seq<SshInput>)
    requires a <= b
    ensures Ops(a) <= Ops(b)
  {
  }

  lemma AppliedCount(s: State)
    requires Owned(s)
    ensures var n := |s.actor.applied|;
            n <= |s.arrivals| && s.actor.applied == Ops(Queue(s.arrivals)[..n])
    ensures s.actor.stopped.None? && s.actor.pendingResize.None? ==> |s.actor.applied| == s.actor.consumed
  {
  }

  lemma AppliedIsPrefix(s: State, c: ClientId)
    requires Inv(s) && c in s.streams
    ensures AppliedFor(s.actor.applied, s.owners, c) <= Ops(Typed(s.streams[c]))
  {
    AppliedCount(s);
    var n := |s.actor.applied|;
    AppliedIsFrom(s.actor.applied, s.owners, s.arrivals, c);
    FromPrefix(s.arrivals, c, n);
    assert From(s.arrivals, c) <= Typed(s.streams[c]) by { assert Accounted(s, c); }
    OpsPrefix(From(s.arrivals[..n], c), Typed(s.streams[c]));
  }

  /** What frame `i` of a client has done on the SSH channel: its keystrokes written, or the
      window set to its size. */
  function DoneBy(frames: seq<ClientFrame>): nat -> Option<ChannelOp> {
    (i: nat) =>
      if i >= |frames| then None
      else match frames[i]
        case Input(bytes) => Some(Wrote(bytes))
        case Resize(cols, rows) => Some(WindowChanged(cols, rows))
        case _ => None
  }

  /** `ops` is done for exactly the first `n` frames, none of them a `Close`. */
  ghost predicate Serves(ops: seq<ChannelOp>, at: seq<nat>, n: nat, frames: seq<ClientFrame>) {
    n <= |frames| && Close !in frames[..n] && Lists(ops, at, n, DoneBy(frames))
  }

  lemma OpsListed(inputs: seq<SshInput>, at: seq<nat>, frames: seq<ClientFrame>)
    requires Lists(inputs, at, |frames|, TypedBy(frames))
    ensures Lists(Ops(inputs), at, |frames|, DoneBy(frames))
  {
    forall i: nat | i < |frames| && DoneBy(frames)(i).Some? ensures i in at { assert TypedBy(frames)(i).Some?; }
  }

  /** All that a client's frames ask for, up to its `Close`. */
  lemma TypedListed(frames: seq<ClientFrame>) returns (all: seq<nat>)
    ensures BeforeClose(frames) <= frames
    ensures Lists(Ops(Typed(frames)), all, |BeforeClose(frames)|, DoneBy(frames))
  {
    BeforeCloseIsPrefix(frames);
    var served := BeforeClose(frames);
    all := InputsListed(served);
    OpsListed(Inputs(served), all, served);
    DoneByPrefix(Ops(Inputs(served)), all, served, frames);
  }

  lemma DoneByPrefix(ops: seq<ChannelOp>, at: seq<nat>, served: seq<ClientFrame>, frames: seq<ClientFrame>)
    requires Lists(ops, at, |served|, DoneBy(served)) && served <= frames
    ensures Lists(ops, at, |served|, DoneBy(frames))
  {
    ListsSame(ops, at, |served|, DoneBy(served), DoneBy(frames));
  }

  /** The first `k` of those. */
  lemma TypedServes(frames: seq<ClientFrame>, k: nat) returns (at: seq<nat>, n: nat)
    requires k <= |Typed(frames)|
    ensures Serves(Ops(Typed(frames))[..k], at, n, frames)
    ensures k == |Typed(frames)| ==> n == |frames| || frames[n].Close?
  {
    var all := TypedListed(frames);
    StopsAtClose(frames);
    ListsPrefix(Ops(Typed(frames)), all, |BeforeClose(frames)|, DoneBy(frames), k);
    at, n := all[..k], if k < |all| then all[k] else |BeforeClose(frames)|;
    NoCloseBefore(frames, n);
  }

  lemma NoCloseBefore(frames: seq<ClientFrame>, n: nat)
    requires n <= |BeforeClose(frames)|
    ensures n <= |frames| && Close !in frames[..n]
  {
    BeforeCloseIsPrefix(frames);
    assert forall i :: 0 <= i < n ==> frames[i] == BeforeClose(frames)[i];
  }

  lemma {:induction false} StopsAtClose(frames: seq<ClientFrame>)
    ensures var n := |BeforeClose(frames)|;
            n <= |frames| && (n == |frames| || frames[n].Close?)
  {
    if frames != [] && !frames[0].Close? { StopsAtClose(frames[1..]); }
  }

  /** In every run, what has been done on the SSH channel for one client is what its first
      `n` frames say, one for one and in order, however many others type at the same
      time. */
  lemma KeystrokesInOrder(run: seq<State>, acts: seq<Action>, i: nat, c: ClientId) returns (at: seq<nat>, n: nat)
    requires IsRun(run, acts) && i < |run| && c in run[i].streams
    ensures |run[i].owners| == |run[i].actor.applied|
    ensures AppliedFor(run[i].actor.applied, run[i].owners, c) <= Ops(Typed(run[i].streams[c]))
    ensures Serves(AppliedFor(run[i].actor.applied, run[i].owners, c), at, n, run[i].streams[c])
  {
    RunKeepsInv(run, acts, i);
    AppliedIsPrefix(run[i], c);
    var done := AppliedFor(run[i].actor.applied, run[i].owners, c);
    at, n := TypedServes(run[i].streams[c], |done|);
    assert Ops(Typed(run[i].streams[c]))[..|done|] == done;
  }

  /** And that is all of them up to its `Close`, once the client's handler is done and the
      actor has caught up. */
  lemma NothingLost(run: seq<State>, acts: seq<Action>, i: nat, c: ClientId) returns (at: seq<nat>, n: nat)
    requires IsRun(run, acts) && i < |run| && c in run[i].handlers
    requires run[i].handlers[c].gone && run[i].handlers[c].pending.None?
    requires run[i].actor.stopped.None? && run[i].actor.pendingResize.None? && run[i].actor.consumed == |run[i].arrivals|
    ensures c in run[i].streams && |run[i].owners| == |run[i].actor.applied|
    ensures AppliedFor(run[i].actor.applied, run[i].owners, c) == Ops(Typed(run[i].streams[c]))
    ensures Serves(AppliedFor(run[i].actor.applied, run[i].owners, c), at, n, run[i].streams[c])
    ensures n == |run[i].streams[c]| || run[i].streams[c][n].Close?
  {
    RunKeepsInv(run, acts, i);
    AllApplied(run[i], c);
    var ops := Ops(Typed(run[i].streams[c]));
    at, n := TypedServes(run[i].streams[c], |ops|);
    assert ops[..|ops|] == ops;
  }

  lemma AllApplied(s: State, c: ClientId)
    requires Inv(s) && c in s.handlers && s.handlers[c].gone && s.handlers[c].pending.None?
    requires s.actor.stopped.None? && s.actor.pendingResize.None? && s.actor.consumed == |s.arrivals|
    ensures AppliedFor(s.actor.applied, s.owners, c) == Ops(Typed(s.streams[c]))
  {
    AppliedCount(s);
    AppliedIsFrom(s.actor.applied, s.owners, s.arrivals, c);
    assert s.arrivals[..|s.arrivals|] == s.arrivals;
    assert From(s.arrivals, c) == Typed(s.streams[c]) by { assert Accounted(s, c) && ToCome(s.handlers[c]) == []; }
  }

  // ------------------------------------------------ the actor is `SshActor.Run`

  /** The actor's turns among the steps. */
  function Turns(acts: seq<Action>): seq<Turn> {
    if acts == [] then []
    else Turns(acts[..|acts| - 1]) + (if acts[|acts| - 1].Select? then [acts[|acts| - 1].t] else [])
  }

  /** After these turns on this queue, or on any that goes on from it, the actor settles
      to the same. */
  ghost predicate Mirrors(turns: seq<Turn>, queue: seq<SshInput>, actor: Actor) {
    forall longer :: queue <= longer ==> Settled(Acts(turns, longer)) == Settled(actor)
  }

  lemma MirrorsTurn(turns: seq<Turn>, queue: seq<SshInput>, actor: Actor, t: Turn)
    requires Mirrors(turns, queue, actor) && actor.stopped.None? && actor.pendingResize.None?
    requires t.NextInput? ==> actor.consumed < |queue|
    ensures Mirrors(turns + [t], queue, Act(actor, t, SshActor.Oldest(queue, actor.consumed)))
  {
    forall longer | queue <= longer
      ensures Settled(Acts(turns + [t], longer)) == Settled(Act(actor, t, SshActor.Oldest(queue, actor.consumed)))
    {
      assert (turns + [t])[..|turns|] == turns;
      assert Settled(Acts(turns, longer)) == actor;
    }
  }

  lemma MirrorsStep(turns: seq<Turn>, s: State, a: Action)
    requires Mirrors(turns, Queue(s.arrivals), s.actor) && Can(s, a)
    ensures Mirrors(turns + (if a.Select? then [a.t] else []), Queue(Step(s, a).arrivals), Step(s, a).actor)
  {
    if a.Select? {
      assert Oldest(s) == SshActor.Oldest(Queue(s.arrivals), s.actor.consumed);
      MirrorsTurn(turns, Queue(s.arrivals), s.actor, a.t);
    } else {
      assert turns + [] == turns;
      assert Queue(s.arrivals) <= Queue(Step(s, a).arrivals);
    }
  }

  /** What the actor of any run has done when it next waits, or has stopped, is what
      `SshActor.Run` computes from its turns and the shared queue. */
  lemma {:induction false} ActorIsRun(run: seq<State>, acts: seq<Action>, i: nat)
    requires IsRun(run, acts) && i < |run|
    ensures Mirrors(Turns(acts[..i]), Queue(run[i].arrivals), run[i].actor)
    ensures Settled(run[i].actor) == Settled(Acts(Turns(acts[..i]), Queue(run[i].arrivals)))
  {
    if i > 0 {
      ActorIsRun(run, acts, i - 1);
      MirrorsStep(Turns(acts[..i - 1]), run[i - 1], acts[i - 1]);
      assert acts[..i][..i - 1] == acts[..i - 1];
    }
  }

  // ----------------------------------------------- what ends the SSH actor

  /** The channel hangs up, or refuses a write. */
  ghost predicate ChannelEnds(s: State, a: Action) {
    a == Select(Hangup) || (a == Select(NextInput(false)) && Oldest(s).Some? && Oldest(s).value.Keys?)
  }

  ghost predicate EndedBefore(run: seq<State>, acts: seq<Action>, i: nat)
    requires i <= |acts| < |run|
  {
    exists j :: 0 <= j < i && ChannelEnds(run[j], acts[j])
  }

  lemma EndedMore(run: seq<State>, acts: seq<Action>, i: nat)
    requires i < |acts| < |run|
    ensures EndedBefore(run, acts, i + 1) <==> EndedBefore(run, acts, i) || ChannelEnds(run[i], acts[i])
  {
  }

  /** In every run the actor never finds its queue closed or its consumer gone: the
      ingest task holds the session for as long as the actor runs. */
  lemma QueueNeverCloses(run: seq<State>, acts: seq<Action>, i: nat)
    requires IsRun(run, acts) && i < |acts| && acts[i].Select?
    ensures run[i].ingesting && Held(run[i])
    ensures !acts[i].t.InputsClosed? && (acts[i].t.Data? || acts[i].t.ExtendedData? ==> acts[i].t.delivered)
  {
    RunKeepsInv(run, acts, i);
  }

  lemma StopStep(s: State, a: Action)
    requires Alive(s) && Can(s, a)
    ensures Step(s, a).actor.stopped.Some? <==> s.actor.stopped.Some? || ChannelEnds(s, a)
  {
    if a.Select? { SelectAlive(s, a.t); }
  }

  lemma StopAt(run: seq<State>, acts: seq<Action>, i: nat)
    requires IsRun(run, acts) && i < |acts|
    ensures run[i + 1].actor.stopped.Some? <==> run[i].actor.stopped.Some? || ChannelEnds(run[i], acts[i])
  {
    assert Alive(run[i]) by { RunKeepsInv(run, acts, i); }
    StopStep(run[i], acts[i]);
  }

  /** So it has stopped exactly when its channel has hung up or refused a write,
      whoever closed, detached or removed the session. */
  lemma {:induction false} ActorStopsIff(run: seq<State>, acts: seq<Action>, i: nat)
    requires IsRun(run, acts) && i < |run|
    ensures run[i].actor.stopped.Some? <==> EndedBefore(run, acts, i)
  {
    if i > 0 {
      ActorStopsIff(run, acts, i - 1);
      EndedMore(run, acts, i - 1);
      StopAt(run, acts, i - 1);
    }
  }

  /** In particular not when its only client has asked to close and the session has been
      removed from the registry. */
  lemma CloseLeavesActor() returns (run: seq<State>, acts: seq<Action>)
    ensures IsRun(run, acts) && acts == [Connect(0, [Close]), Read(0), Unregister]
    ensures var s := run[3];
            && !s.registered && s.handlers.Keys == {0} && s.handlers[0].gone
            && s.actor == Started && s.ingesting
  {
    acts := [Connect(0, [Close]), Read(0), Unregister];
    var one := Step(Start, acts[0]);
    var two := Step(one, acts[1]);
    run := [Start, one, two, Step(two, acts[2])];
  }
}
