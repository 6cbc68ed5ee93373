/** How the metering of `sender_task` looks to the handler that aborts it
    (`handle_connection` in `gw-server`): the abort is not awaited, so the task keeps
    running up to its next `await`, while the handler reads the totals. */
module Metering {
  import opened Frames

  /** Where the task is with the chunk in hand; a task that is gone has lost the bytes
      it had metered and not sent. */
  datatype Pc = Selecting | Throttling(n: nat) | Sending(n: nat) | Gone(lost: nat)

  /** Bytes taken from the reader, metered, and sent. */
  datatype Meter = Meter(pc: Pc, taken: nat, metered: nat, sent: nat)

  datatype Step = Take(n: nat) | Count | Sent | SendFails | Abort

  predicate Can(m: Meter, a: Step, cap: nat) {
    match a
    case Take(n) => m.pc.Selecting? && n <= cap
    case Count => m.pc.Throttling?
    case Sent => m.pc.Sending?
    case SendFails => m.pc.Sending?
    case Abort => !m.pc.Gone?
  }

  function Next(m: Meter, a: Step, cap: nat): Meter
    requires Can(m, a, cap)
  {
    match a
    case Take(n) => m.(pc := Throttling(n), taken := m.taken + n)
    case Count => m.(pc := Sending(m.pc.n), metered := m.metered + m.pc.n)
    case Sent => m.(pc := Selecting, sent := m.sent + m.pc.n)
    case SendFails => m.(pc := Gone(m.pc.n))
    case Abort => m.(pc := Gone(if m.pc.Sending? then m.pc.n else 0))
  }

  function Run(acts: seq<Step>, cap: nat): Option<Meter> {
    if acts == [] then Some(Meter(Selecting, 0, 0, 0))
    else
      var before := Run(acts[..|acts| - 1], cap);
      if before.Some? && Can(before.value, acts[|acts| - 1], cap) then Some(Next(before.value, acts[|acts| - 1], cap))
      else None
  }

  // -------------------------------------------- what the steps themselves say

  /** The chunk taken last. */
  function LastTaken(acts: seq<Step>): nat {
    if acts == [] then 0
    else if acts[|acts| - 1].Take? then acts[|acts| - 1].n
    else LastTaken(acts[..|acts| - 1])
  }

  /** Bytes between `Count` and `Sent`, or lost there. */
  function Unsent(acts: seq<Step>): nat {
    if acts == [] then 0
    else
      var front := acts[..|acts| - 1];
      match acts[|acts| - 1]
      case Count => LastTaken(front)
      case Sent => 0
      case _ => Unsent(front)
  }

  /** Bytes counted after the first `k` steps. */
  function CountedSince(acts: seq<Step>, k: nat): nat {
    if |acts| <= k then 0
    else
      var front := acts[..|acts| - 1];
      CountedSince(front, k) + (if acts[|acts| - 1].Count? then LastTaken(front) else 0)
  }

  ghost predicate Accounts(m: Meter, acts: seq<Step>, cap: nat) {
    && m.taken >= m.metered >= m.sent && m.taken - m.sent <= cap
    && m.metered == m.sent + Unsent(acts) == CountedSince(acts, 0)
    && (m.pc.Selecting? ==> m.taken == m.sent)
    && (m.pc.Throttling? ==> m.taken - m.metered == m.pc.n == LastTaken(acts) && m.metered == m.sent)
    && (m.pc.Sending? ==> m.taken == m.metered && m.pc.n == Unsent(acts))
    && (m.pc.Gone? ==> m.pc.lost == Unsent(acts))
  }

  /** At any point of any run: taken >= metered >= sent, at most one chunk apart, and
      what is metered and not sent is the chunk in flight or lost. */
  lemma {:induction false} MeteringBounds(acts: seq<Step>, cap: nat)
    requires Run(acts, cap).Some?
    ensures Accounts(Run(acts, cap).value, acts, cap)
  {
    if acts != [] {
      MeteringBounds(acts[..|acts| - 1], cap);
    }
  }

  lemma {:induction false} Prefix(acts: seq<Step>, k: nat, cap: nat)
    requires Run(acts, cap).Some? && k <= |acts|
    ensures Run(acts[..k], cap).Some?
    ensures Run(acts[..k], cap).value.sent <= Run(acts, cap).value.sent
    ensures CountedSince(acts, 0) == CountedSince(acts[..k], 0) + CountedSince(acts, k)
  {
    if k == |acts| {
      assert acts[..k] == acts;
    } else {
      Prefix(acts[..|acts| - 1], k, cap);
      assert acts[..|acts| - 1][..k] == acts[..k];
    }
  }

  /** What `totals` reports, read when the task has taken `k` steps. */
  function Reported(acts: seq<Step>, k: nat, cap: nat): nat
    requires k <= |acts|
  {
    if Run(acts[..k], cap).Some? then Run(acts[..k], cap).value.metered else 0
  }

  /** The reported bytes are no less than what had been sent by then, at most one
      chunk more, and no more than the final meter. They are what had been sent by
      then exactly when no non-empty chunk was in flight or lost, and what is sent in
      the end exactly when the bytes counted since are those lost in the end. */
  lemma ReportIsSentIff(acts: seq<Step>, k: nat, cap: nat)
    requires Run(acts, cap).Some? && k <= |acts|
    ensures Run(acts[..k], cap).Some?
    ensures var early, end := Run(acts[..k], cap).value, Run(acts, cap).value;
            var reported := Reported(acts, k, cap);
            && early.sent <= reported <= early.sent + cap && reported <= end.metered
            && (reported == early.sent <==> Unsent(acts[..k]) == 0)
            && (reported == end.sent <==> CountedSince(acts, k) == Unsent(acts))
  {
    Prefix(acts, k, cap);
    MeteringBounds(acts[..k], cap);
    MeteringBounds(acts, cap);
  }

  /** So a chunk metered when the totals are read and then lost to the abort is
      reported without ever being sent. */
  lemma ReportMayExceedSent()
    ensures var acts := [Take(5), Count, Abort];
            Run(acts, 8).Some? && Reported(acts, 2, 8) == 5 && Run(acts, 8).value.sent == 0
  {
    var acts := [Take(5), Count, Abort];
    assert acts[..2] == [Take(5), Count] && [Take(5), Count][..1] == [Take(5)];
    assert Run([Take(5)][..0], 8) == Some(Meter(Selecting, 0, 0, 0));
  }
}
