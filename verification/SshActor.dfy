/** The actor that owns the SSH channel (`SshSession::spawn` in `gw-ssh`): a FIFO of
    inputs, a slot for a deferred resize, and the output that goes back. */
module SshActor {
  import opened Frames
  import opened Places

  datatype SshInput = Keys(bytes: Blob) | Resized(cols: U32, rows: U32)

  /** What is done on the SSH channel. */
  datatype ChannelOp = Wrote(bytes: Blob) | WindowChanged(cols: U32, rows: U32)

  function OpOf(x: SshInput): ChannelOp {
    match x
    case Keys(bytes) => Wrote(bytes)
    case Resized(cols, rows) => WindowChanged(cols, rows)
  }

  function Ops(inputs: seq<SshInput>): seq<ChannelOp> {
    seq(|inputs|, i requires 0 <= i < |inputs| => OpOf(inputs[i]))
  }

  lemma OpsMore(inputs: seq<SshInput>, k: nat)
    requires k < |inputs|
    ensures Ops(inputs[..k + 1]) == Ops(inputs[..k]) + [OpOf(inputs[k])]
  {
  }

  /** What is done for the inputs: the same bytes written, the same size set, one for one
      and in order. */
  ghost predicate Does(applied: seq<ChannelOp>, inputs: seq<SshInput>) {
    && |applied| <= |inputs|
    && forall k :: 0 <= k < |applied| ==>
         match inputs[k]
         case Keys(bytes) => applied[k] == Wrote(bytes)
         case Resized(cols, rows) => applied[k] == WindowChanged(cols, rows)
  }

  lemma OpsDo(inputs: seq<SshInput>, n: nat)
    requires n <= |inputs|
    ensures Does(Ops(inputs[..n]), inputs)
  {
  }

  /** What one `select!` yields. A data message says whether the consumer of the
      output is still there, an input whether the channel takes the write. */
  datatype Turn =
    | Data(bytes: Bytes, delivered: bool) | ExtendedData(bytes: Bytes, delivered: bool)
    | Hangup | OtherMessage
    | NextInput(writable: bool) | InputsClosed

  datatype Window = Window(cols: U32, rows: U32)

  /** Why it stopped. */
  datatype Cause = HungUp | WriteRefused | ConsumerGone | SendersGone

  /** The actor: inputs consumed, turns taken, the deferred resize, and what it has done. */
  datatype Actor = Actor(consumed: nat, taken: nat, pendingResize: Option<Window>,
                         applied: seq<ChannelOp>, output: seq<Bytes>, stopped: Option<Cause>)

  const Started := Actor(0, 0, None, [], [], None)

  /** The top of the loop: a deferred resize is applied before the next wait. */
  function Settled(a: Actor): Actor {
    if a.stopped.None? && a.pendingResize.Some? then
      a.(pendingResize := None, applied := a.applied + [WindowChanged(a.pendingResize.value.cols, a.pendingResize.value.rows)])
    else a
  }

  /** One turn of a settled actor; `next` is the oldest input in the queue. */
  function Act(a: Actor, t: Turn, next: Option<SshInput>): Actor {
    var b := a.(taken := a.taken + 1);
    match t
    case Data(bytes, delivered) =>
      if delivered then b.(output := a.output + [bytes]) else b.(stopped := Some(ConsumerGone))
    case ExtendedData(bytes, delivered) =>
      if delivered then b.(output := a.output + [bytes]) else b.(stopped := Some(ConsumerGone))
    case Hangup => b.(stopped := Some(HungUp))
    case OtherMessage => b
    case NextInput(writable) =>
      if next.None? then b
      else if next.value.Resized? then
        b.(consumed := a.consumed + 1, pendingResize := Some(Window(next.value.cols, next.value.rows)))
      else if writable then b.(consumed := a.consumed + 1, applied := a.applied + [Wrote(next.value.bytes)])
      else b.(consumed := a.consumed + 1, stopped := Some(WriteRefused))
    case InputsClosed => b.(stopped := Some(SendersGone))
  }

  function Oldest(inputs: seq<SshInput>, consumed: nat): Option<SshInput> {
    if consumed < |inputs| then Some(inputs[consumed]) else None
  }

  /** The actor after these turns. */
  function Acts(turns: seq<Turn>, inputs: seq<SshInput>): Actor {
    if turns == [] then Started
    else
      var before := Settled(Acts(turns[..|turns| - 1], inputs));
      if before.stopped.Some? then before else Act(before, turns[|turns| - 1], Oldest(inputs, before.consumed))
  }

  /** What it has done is exactly what it consumed, in order, but for a resize still
      deferred, or a write the channel refused and that ended it. */
  ghost predicate InOrder(a: Actor, inputs: seq<SshInput>) {
    && a.consumed <= |inputs|
    && (if a.stopped == Some(WriteRefused) then
          a.consumed > 0 && inputs[a.consumed - 1].Keys? && a.pendingResize.None? && a.applied == Ops(inputs[..a.consumed - 1])
        else if a.pendingResize.Some? then
          && a.stopped.None? && a.consumed > 0
          && inputs[a.consumed - 1] == Resized(a.pendingResize.value.cols, a.pendingResize.value.rows)
          && a.applied == Ops(inputs[..a.consumed - 1])
        else a.applied == Ops(inputs[..a.consumed]))
  }

  lemma SettledInOrder(a: Actor, inputs: seq<SshInput>)
    requires InOrder(a, inputs)
    ensures InOrder(Settled(a), inputs)
  {
    if a.consumed > 0 { OpsMore(inputs, a.consumed - 1); }
  }

  lemma ActInOrder(a: Actor, t: Turn, inputs: seq<SshInput>)
    requires InOrder(a, inputs) && a.stopped.None? && a.pendingResize.None?
    ensures InOrder(Act(a, t, Oldest(inputs, a.consumed)), inputs)
  {
    if a.consumed < |inputs| { OpsMore(inputs, a.consumed); }
  }

  /** After any turns. */
  lemma {:induction false} ActsInOrder(turns: seq<Turn>, inputs: seq<SshInput>)
    ensures InOrder(Acts(turns, inputs), inputs)
  {
    if turns != [] {
      ActsInOrder(turns[..|turns| - 1], inputs);
      var before := Settled(Acts(turns[..|turns| - 1], inputs));
      SettledInOrder(Acts(turns[..|turns| - 1], inputs), inputs);
      if before.stopped.None? { ActInOrder(before, turns[|turns| - 1], inputs); }
    }
  }

  /** Output that came in and was delivered. */
  function Outputs(turns: seq<Turn>): seq<Bytes> {
    if turns == [] then []
    else
      var t := turns[|turns| - 1];
      Outputs(turns[..|turns| - 1])
      + (if (t.Data? || t.ExtendedData?) && t.delivered then [t.bytes] else [])
  }

  lemma {:induction false} ActsDeliver(turns: seq<Turn>, inputs: seq<SshInput>)
    ensures var a := Acts(turns, inputs);
            && a.taken <= |turns| && (a.stopped.None? ==> a.taken == |turns|)
            && a.output == Outputs(turns[..a.taken])
  {
    if turns != [] {
      var front, t := turns[..|turns| - 1], turns[|turns| - 1];
      ActsDeliver(front, inputs);
      var before := Settled(Acts(front, inputs));
      if before.stopped.None? {
        assert turns[..|turns|] == turns && front[..|front|] == front;
        ActDelivers(before, t, Oldest(inputs, before.consumed));
      } else {
        assert turns[..before.taken] == front[..before.taken];
      }
    }
  }

  lemma ActDelivers(a: Actor, t: Turn, next: Option<SshInput>)
    ensures Act(a, t, next).taken == a.taken + 1
    ensures Act(a, t, next).output == a.output + (if (t.Data? || t.ExtendedData?) && t.delivered then [t.bytes] else [])
  {
    assert a.output + [] == a.output;
  }

  // ------------------------------------------------- what the turns come to

  /** The output that turn `i` brings and passes on. */
  function PassedOn(turns: seq<Turn>): nat -> Option<Bytes> {
    (i: nat) =>
      if i >= |turns| then None
      else match turns[i]
        case Data(bytes, delivered) => if delivered then Some(bytes) else None
        case ExtendedData(bytes, delivered) => if delivered then Some(bytes) else None
        case _ => None
  }

  lemma {:induction false} OutputsListed(turns: seq<Turn>) returns (at: seq<nat>)
    ensures Lists(Outputs(turns), at, |turns|, PassedOn(turns))
  {
    at := [];
    if turns != [] {
      var before, t := turns[..|turns| - 1], turns[|turns| - 1];
      at := OutputsListed(before);
      assert Outputs(before) + [] == Outputs(before);
      ListsMore(Outputs(before), at, |before|, PassedOn(before), PassedOn(turns));
      at := More(at, |before|, PassedOn(turns));
    }
  }

  /** How often the turns took from the queue. */
  function Nexts(turns: seq<Turn>): nat { multiset(turns)[NextInput(true)] + multiset(turns)[NextInput(false)] }

  lemma NextsMore(turns: seq<Turn>, t: Turn)
    ensures Nexts(turns + [t]) == Nexts(turns) + (if t.NextInput? then 1 else 0)
  {
    assert multiset(turns + [t]) == multiset(turns) + multiset{t};
  }

  /** What the last of the turns stops the actor for, if anything, when `n` have taken from
      the queue. */
  function StopOf(t: Turn, n: nat, inputs: seq<SshInput>): Option<Cause> {
    match t
    case Data(_, delivered) => if delivered then None else Some(ConsumerGone)
    case ExtendedData(_, delivered) => if delivered then None else Some(ConsumerGone)
    case Hangup => Some(HungUp)
    case OtherMessage => None
    case NextInput(writable) => if !writable && 0 < n <= |inputs| && inputs[n - 1].Keys? then Some(WriteRefused) else None
    case InputsClosed => Some(SendersGone)
  }

  /** Every turn is taken until one stops it; each that takes from the queue consumes the
      next input, as long as there is one. */
  ghost predicate Runs(a: Actor, turns: seq<Turn>, inputs: seq<SshInput>) {
    && a.taken <= |turns| && (a.stopped.None? ==> a.taken == |turns|)
    && a.stopped == (if a.taken == 0 then None else StopOf(turns[a.taken - 1], Nexts(turns[..a.taken]), inputs))
    && a.consumed == (if Nexts(turns[..a.taken]) <= |inputs| then Nexts(turns[..a.taken]) else |inputs|)
    && GoesOn(turns, a.taken, inputs)
  }

  /** None of the turns before turn `n` stops it. */
  ghost predicate GoesOn(turns: seq<Turn>, n: nat, inputs: seq<SshInput>)
    requires n <= |turns|
  {
    forall i :: 0 < i < n ==> StopOf(turns[i - 1], Nexts(turns[..i]), inputs) == None
  }

  lemma {:induction false} ActsRun(turns: seq<Turn>, inputs: seq<SshInput>)
    ensures Runs(Acts(turns, inputs), turns, inputs)
  {
    if turns == [] {
      assert Nexts([]) == 0;
    } else {
      var before, t := turns[..|turns| - 1], turns[|turns| - 1];
      ActsRun(before, inputs);
      assert turns == before + [t];
      RunsMore(Acts(before, inputs), before, t, inputs);
    }
  }

  lemma RunsMore(a: Actor, before: seq<Turn>, t: Turn, inputs: seq<SshInput>)
    requires Runs(a, before, inputs)
    ensures var b := Settled(a);
            Runs(if b.stopped.Some? then b else Act(b, t, Oldest(inputs, b.consumed)), before + [t], inputs)
  {
    forall i: nat | i <= |before| ensures (before + [t])[..i] == before[..i] { }
    if a.stopped.None? { RunsTurn(Settled(a), before, t, inputs); }
  }

  lemma GoesOnMore(before: seq<Turn>, t: Turn, inputs: seq<SshInput>)
    requires GoesOn(before, |before|, inputs)
    requires before != [] ==> StopOf(before[|before| - 1], Nexts(before), inputs) == None
    ensures GoesOn(before + [t], |before| + 1, inputs)
  {
    var all := before + [t];
    forall i | 0 < i < |all| ensures StopOf(all[i - 1], Nexts(all[..i]), inputs) == None {
      assert all[..i] == before[..i];
      if i == |before| { assert before[..i] == before; }
    }
  }

  lemma RunsTurn(a: Actor, before: seq<Turn>, t: Turn, inputs: seq<SshInput>)
    requires Runs(a, before, inputs) && a.stopped.None?
    ensures Runs(Act(a, t, Oldest(inputs, a.consumed)), before + [t], inputs)
  {
    var all := before + [t];
    assert before[..|before|] == before && all[..|all|] == all;
    GoesOnMore(before, t, inputs);
    NextsMore(before, t);
  }

  /** Nothing happens after it stopped. */
  lemma {:induction false} ActsStayStopped(turns: seq<Turn>, n: nat, inputs: seq<SshInput>)
    requires n <= |turns|
    ensures Acts(turns[..n], inputs).stopped.Some? ==> Acts(turns, inputs) == Acts(turns[..n], inputs)
  {
    if n < |turns| {
      ActsStayStopped(turns[..|turns| - 1], n, inputs);
      assert turns[..|turns| - 1][..n] == turns[..n];
    } else {
      assert turns[..n] == turns;
    }
  }

  ghost predicate Faithful(a: Actor, turns: seq<Turn>, inputs: seq<SshInput>) {
    && a == Settled(Acts(turns, inputs)) && InOrder(a, inputs) && a.pendingResize.None?
    && a.taken <= |turns| && a.output == Outputs(turns[..a.taken])
  }

  lemma Concludes(turns: seq<Turn>, n: nat, inputs: seq<SshInput>)
    requires n <= |turns| && (n == |turns| || Acts(turns[..n], inputs).stopped.Some?)
    ensures Faithful(Settled(Acts(turns[..n], inputs)), turns, inputs)
  {
    ActsStayStopped(turns, n, inputs);
    assert turns[..|turns|] == turns;
    ActsInOrder(turns, inputs);
    SettledInOrder(Acts(turns, inputs), inputs);
    ActsDeliver(turns, inputs);
  }

  lemma ActsMore(turns: seq<Turn>, i: nat, inputs: seq<SshInput>)
    requires i < |turns| && Acts(turns[..i], inputs).stopped.None?
    ensures var before := Settled(Acts(turns[..i], inputs));
            Acts(turns[..i + 1], inputs) == Act(before, turns[i], Oldest(inputs, before.consumed))
  {
    assert turns[..i + 1][..i] == turns[..i];
  }

  /** One `select!` of the loop: what it does with a message or with the next input. */
  method Select(turn: Turn, next: Option<SshInput>, a: Actor) returns (b: Actor)
    requires a.stopped.None? && a.pendingResize.None?
    ensures b == Act(a, turn, next)
  {
    var consumed, applied, output, pendingResize, stopped := a.consumed, a.applied, a.output, a.pendingResize, a.stopped;
    match turn {
      case Data(bytes, delivered) =>
        if delivered { output := output + [bytes]; } else { stopped := Some(ConsumerGone); }
      case ExtendedData(bytes, delivered) =>
        if delivered { output := output + [bytes]; } else { stopped := Some(ConsumerGone); }
      case Hangup => stopped := Some(HungUp);
      case OtherMessage =>
      case NextInput(writable) =>
        if next.Some? {
          consumed := consumed + 1;
          match next.value
          case Keys(bytes) =>
            if writable { applied := applied + [Wrote(bytes)]; } else { stopped := Some(WriteRefused); }
          case Resized(cols, rows) => pendingResize := Some(Window(cols, rows));
        }
      case InputsClosed => stopped := Some(SendersGone);
    }
    b := Actor(consumed, a.taken + 1, pendingResize, applied, output, stopped);
  }

  /** The actor over a schedule of turns and the queue's inputs, oldest first. When it
      next waits, or stops, it has done exactly what it consumed, in order; a write
      the channel refuses is the one exception and the last thing it takes. */
  method Run(turns: seq<Turn>, inputs: seq<SshInput>) returns (a: Actor, ghost at: seq<nat>)
    ensures a == Settled(Acts(turns, inputs))
    ensures a.consumed <= |inputs| && a.pendingResize.None?
    ensures Does(a.applied, inputs) && |a.applied| == a.consumed - if a.stopped == Some(WriteRefused) then 1 else 0
    ensures Runs(a, turns, inputs)
    ensures Lists(a.output, at, a.taken, PassedOn(turns[..a.taken]))
  {
    a := Started;
    var i := 0;
    while true
      invariant i <= |turns| && a.stopped.None? && a == Acts(turns[..i], inputs)
      decreases |turns| - i
    {
      if a.pendingResize.Some? {
        var window := a.pendingResize.value;
        a := a.(pendingResize := None, applied := a.applied + [WindowChanged(window.cols, window.rows)]);
      }
      if i == |turns| {
        break;
      }
      ActsMore(turns, i, inputs);
      a := Select(turns[i], if a.consumed < |inputs| then Some(inputs[a.consumed]) else None, a);
      i := i + 1;
      if a.stopped.Some? {
        break;
      }
    }
    Concludes(turns, i, inputs);
    Settles(turns, inputs);
    at := OutputsListed(turns[..a.taken]);
  }

  lemma Settles(turns: seq<Turn>, inputs: seq<SshInput>)
    ensures var a := Settled(Acts(turns, inputs));
            && Runs(a, turns, inputs) && a.consumed <= |inputs|
            && Does(a.applied, inputs) && |a.applied| == a.consumed - if a.stopped == Some(WriteRefused) then 1 else 0
  {
    ActsRun(turns, inputs);
    ActsInOrder(turns, inputs);
    SettledInOrder(Acts(turns, inputs), inputs);
    var a := Settled(Acts(turns, inputs));
    OpsDo(inputs, a.consumed);
    if a.consumed > 0 { OpsDo(inputs, a.consumed - 1); }
  }

  // ------------------------------------------------------- several clients

  datatype Arrival = Arrival(client: nat, input: SshInput)

  /** The queue as the actor sees it. */
  function Queue(arrivals: seq<Arrival>): seq<SshInput> {
    seq(|arrivals|, i requires 0 <= i < |arrivals| => arrivals[i].input)
  }

  /** What came from one client, in arrival order. */
  function From(arrivals: seq<Arrival>, client: nat): seq<SshInput> {
    if arrivals == [] then []
    else
      var last := arrivals[|arrivals| - 1];
      From(arrivals[..|arrivals| - 1], client) + (if last.client == client then [last.input] else [])
  }

  lemma {:induction false} FromPrefix(arrivals: seq<Arrival>, client: nat, n: nat)
    requires n <= |arrivals|
    ensures From(arrivals[..n], client) <= From(arrivals, client)
  {
    if n < |arrivals| {
      var front := arrivals[..|arrivals| - 1];
      FromPrefix(front, client, n);
      assert front[..n] == arrivals[..n];
    } else {
      assert arrivals[..n] == arrivals;
    }
  }
}
