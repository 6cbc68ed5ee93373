/** What a client types arrives: from every state in which the SSH actor runs, the client's
    handler and the actor finish by themselves, and all of it has been done. */
module KeystrokesProgress {
  import opened Frames
  import opened SshActor
  import opened Keystrokes

  /** A step of the client's handler, or of the actor with a channel that takes writes. */
  predicate Helps(a: Action, c: ClientId) {
    a == Read(c) || a == Forward(c) || a == ApplyResize || a == Action.Select(NextInput(true))
  }

  /** `run` goes on by such steps, leaving what the clients have to say as it was. */
  ghost predicate GoesOn(run: seq<State>, acts: seq<Action>, longer: seq<State>, more: seq<Action>, c: ClientId) {
    && |run| == |acts| + 1 && |longer| == |more| + 1 && acts <= more
    && (forall k :: |acts| <= k < |more| ==> Helps(more[k], c))
    && longer[|more|].streams == run[|acts|].streams
  }

  lemma OneMore(run: seq<State>, acts: seq<Action>, a: Action)
    requires IsRun(run, acts) && Can(run[|acts|], a)
    ensures IsRun(run + [Step(run[|acts|], a)], acts + [a])
  {
  }

  lemma GoesOnStep(run: seq<State>, acts: seq<Action>, a: Action, c: ClientId) returns (longer: seq<State>)
    requires IsRun(run, acts) && Can(run[|acts|], a) && Helps(a, c)
    ensures IsRun(longer, acts + [a]) && GoesOn(run, acts, longer, acts + [a], c)
    ensures longer[|acts| + 1] == Step(run[|acts|], a)
  {
    OneMore(run, acts, a);
    longer := run + [Step(run[|acts|], a)];
  }

  lemma GoesOnThen(run: seq<State>, acts: seq<Action>, mid: seq<State>, some: seq<Action>, longer: seq<State>,
                   more: seq<Action>, c: ClientId)
    requires GoesOn(run, acts, mid, some, c) && GoesOn(mid, some, longer, more, c)
    ensures GoesOn(run, acts, longer, more, c)
  {
  }

  // --------------------------------------------------- the actor catches up

  ghost predicate Running(s: State) {
    s.actor.stopped.None? && s.actor.consumed <= |s.arrivals|
  }

  ghost predicate CaughtUp(s: State) {
    Running(s) && s.actor.pendingResize.None? && s.actor.consumed == |s.arrivals|
  }

  function Behind(s: State): int {
    2 * (|s.arrivals| - s.actor.consumed) + if s.actor.pendingResize.Some? then 1 else 0
  }

  lemma CatchesUp(run: seq<State>, acts: seq<Action>, c: ClientId) returns (longer: seq<State>, more: seq<Action>)
    requires IsRun(run, acts) && Running(run[|acts|])
    ensures IsRun(longer, more) && GoesOn(run, acts, longer, more, c)
    ensures CaughtUp(longer[|more|]) && longer[|more|].handlers == run[|acts|].handlers
    decreases Behind(run[|acts|])
  {
    var s := run[|acts|];
    if CaughtUp(s) {
      longer, more := run, acts;
    } else {
      var a := if s.actor.pendingResize.Some? then ApplyResize else Action.Select(NextInput(true));
      var next := GoesOnStep(run, acts, a, c);
      longer, more := CatchesUp(next, acts + [a], c);
      GoesOnThen(run, acts, next, acts + [a], longer, more, c);
    }
  }

  // ------------------------------------------------- the handler gets through

  function Left(hd: Handler): nat {
    2 * |hd.incoming| + (if hd.pending.Some? then 1 else 0) + (if hd.gone then 0 else 1)
  }

  ghost predicate Through(s: State, c: ClientId) {
    c in s.handlers && s.handlers[c].gone && s.handlers[c].pending.None? && CaughtUp(s)
  }

  lemma ReadLeavesLess(hd: Handler)
    requires !hd.gone && hd.pending.None?
    ensures Left(Receives(hd)) < Left(hd)
  {
  }

  lemma GetsThrough(run: seq<State>, acts: seq<Action>, c: ClientId) returns (longer: seq<State>, more: seq<Action>)
    requires IsRun(run, acts) && Running(run[|acts|]) && c in run[|acts|].handlers
    ensures IsRun(longer, more) && GoesOn(run, acts, longer, more, c) && Through(longer[|more|], c)
    decreases Left(run[|acts|].handlers[c])
  {
    var ready, done := CatchesUp(run, acts, c);
    var s := ready[|done|];
    if Through(s, c) {
      longer, more := ready, done;
    } else {
      var a := if s.handlers[c].pending.Some? then Forward(c) else Read(c);
      if a.Read? { ReadLeavesLess(s.handlers[c]); }
      var next := GoesOnStep(ready, done, a, c);
      GoesOnThen(run, acts, ready, done, next, done + [a], c);
      longer, more := GetsThrough(next, done + [a], c);
      GoesOnThen(run, acts, next, done + [a], longer, more, c);
    }
  }

  /** From every state of every run in which the actor has not stopped, a client's handler
      and the actor, by their own steps, bring all that the client typed to the channel: one
      operation for each of its frames, in order, up to its `Close`. */
  lemma EverythingArrives(run: seq<State>, acts: seq<Action>, c: ClientId)
    returns (longer: seq<State>, more: seq<Action>, at: seq<nat>, n: nat)
    requires IsRun(run, acts) && run[|acts|].actor.stopped.None? && c in run[|acts|].handlers
    ensures IsRun(longer, more) && GoesOn(run, acts, longer, more, c) && c in run[|acts|].streams
    ensures var t, frames := longer[|more|], run[|acts|].streams[c];
            && |t.owners| == |t.actor.applied| && Serves(AppliedFor(t.actor.applied, t.owners, c), at, n, frames)
            && (n == |frames| || frames[n].Close?)
  {
    RunKeepsInv(run, acts, |acts|);
    longer, more := GetsThrough(run, acts, c);
    at, n := NothingLost(longer, more, |more|, c);
  }
}
