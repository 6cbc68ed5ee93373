/** One ingest task and any number of readers sharing a scrollback and a `Notify`,
    as an interleaving of their atomic steps (`spawn_ingest` and
    `SessionReader::next` in `gw-core`).

    `notify_waiters` readies every `Notified` that exists and stores no permit.
    `next` creates a `Notified`, enables it, looks at the buffer under the lock,
    and parks on the `Notified` when there is nothing to return. */
module Readers {
  import opened Frames
  import opened Scrollback

  type ReaderId = nat

  /** What one look delivered: bytes skipped because they aged out, then bytes
      returned; or the final `None`. */
  datatype Event = Took(skipped: nat, bytes: Bytes) | End

  /** Where a reader is inside `next`; `ready` is the state of its `Notified`. */
  datatype Pc = Idle | Created(ready: bool) | Enabled(ready: bool) | Parked(ready: bool) | Woken

  datatype Reader = Reader(pc: Pc, cursor: nat, log: seq<Event>)

  datatype Ingest = Receiving | OwesNotify | OwesFinalNotify | Stopped {
    predicate Owes() { OwesNotify? || OwesFinalNotify? }
  }

  /** `history` is every byte ever appended. */
  datatype State = State(inner: Inner, ingest: Ingest, readers: map<ReaderId, Reader>, history: Bytes)

  datatype Action =
    | IngestAppend(data: Bytes) | IngestClose | IngestNotify
    | Attach(r: ReaderId) | Detach(r: ReaderId)
    | Begin(r: ReaderId) | Enable(r: ReaderId) | Check(r: ReaderId)
    | Wake(r: ReaderId) | Rearm(r: ReaderId) | Drop(r: ReaderId)

  // ------------------------------------------------------------------ steps

  predicate Can(s: State, a: Action) {
    match a
    case IngestAppend(_) => s.ingest.Receiving?
    case IngestClose => s.ingest.Receiving?
    case IngestNotify => s.ingest.Owes()
    case Attach(r) => r !in s.readers
    case Detach(r) => r in s.readers
    case Begin(r) => r in s.readers && s.readers[r].pc.Idle?
    case Enable(r) => r in s.readers && s.readers[r].pc.Created?
    case Check(r) => r in s.readers && s.readers[r].pc.Enabled? && s.inner.Addressed()
    case Wake(r) => r in s.readers && s.readers[r].pc == Parked(true)
    case Rearm(r) => r in s.readers && s.readers[r].pc.Woken?
    case Drop(r) => r in s.readers && s.readers[r].pc.Parked?
  }

  function Readied(pc: Pc): Pc {
    match pc
    case Created(_) => Created(true)
    case Enabled(_) => Enabled(true)
    case Parked(_) => Parked(true)
    case _ => pc
  }

  function Recorded(log: seq<Event>, skipped: nat, poll: Poll): seq<Event> {
    match poll
    case Chunk(bytes) => log + [Took(skipped, bytes)]
    case Finished => (if skipped > 0 then log + [Took(skipped, [])] else log) + [End]
    case Wait => if skipped > 0 then log + [Took(skipped, [])] else log
  }

  /** Where a look leaves the reader: parked, or back from `next`. */
  function Landed(rd: Reader, look: Glance, skipped: nat): Reader
    requires rd.pc.Enabled?
  {
    Reader(if look.poll.Wait? then Parked(rd.pc.ready) else Idle,
           look.cursor, Recorded(rd.log, skipped, look.poll))
  }

  /** The locked block of `next`, for the reader in `rd`. */
  function Checked(inner: Inner, rd: Reader): Reader
    requires inner.Addressed() && rd.pc.Enabled?
  {
    Landed(rd, inner.Look(rd.cursor), if rd.cursor < inner.startOffset then inner.startOffset - rd.cursor else 0)
  }

  function At(s: State, r: ReaderId, pc: Pc): State
    requires r in s.readers
  {
    s.(readers := s.readers[r := s.readers[r].(pc := pc)])
  }

  function Step(s: State, a: Action): State
    requires Can(s, a)
  {
    match a
    case IngestAppend(data) =>
      s.(inner := s.inner.Append(data), ingest := OwesNotify, history := s.history + data)
    case IngestClose => s.(inner := s.inner.(closed := true), ingest := OwesFinalNotify)
    case IngestNotify =>
      s.(ingest := if s.ingest.OwesNotify? then Receiving else Stopped,
         readers := map r | r in s.readers :: s.readers[r].(pc := Readied(s.readers[r].pc)))
    case Attach(r) => s.(readers := s.readers[r := Reader(Idle, 0, [])])
    case Detach(r) => s.(readers := s.readers - {r})
    case Begin(r) => At(s, r, Created(false))
    case Enable(r) => At(s, r, Enabled(s.readers[r].pc.ready))
    case Check(r) => s.(readers := s.readers[r := Checked(s.inner, s.readers[r])])
    case Wake(r) => At(s, r, Woken)
    case Rearm(r) => At(s, r, Created(false))
    case Drop(r) => At(s, r, Idle)
  }

  predicate CanAll(s: State, acts: seq<Action>)
    decreases |acts|
  {
    acts == [] || (Can(s, acts[0]) && CanAll(Step(s, acts[0]), acts[1..]))
  }

  function Exec(s: State, acts: seq<Action>): State
    requires CanAll(s, acts)
    decreases |acts|
  {
    if acts == [] then s else Exec(Step(s, acts[0]), acts[1..])
  }

  ghost predicate Initial(s: State) {
    s.inner == Empty(s.inner.maxBytes) && s.ingest == Receiving && s.readers == map[] && s.history == []
  }

  // -------------------------------------------------------------- invariant

  /** The log accounts for `h[..upTo]`: each chunk is the output at its place, and
      a look that skipped anything returned exactly the last `maxBytes` bytes. */
  ghost predicate Explains(log: seq<Event>, h: Bytes, upTo: nat, maxBytes: nat)
    requires upTo <= |h|
  {
    if log == [] then upTo == 0
    else
      var front := log[..|log| - 1];
      match log[|log| - 1]
      case End => Explains(front, h, upTo, maxBytes)
      case Took(skipped, bytes) =>
        && skipped + |bytes| <= upTo
        && bytes == h[upTo - |bytes|..upTo]
        && |bytes| <= maxBytes && (skipped > 0 ==> |bytes| == maxBytes)
        && Explains(front, h, upTo - |bytes| - skipped, maxBytes)
  }

  ghost predicate ReaderOk(rd: Reader, s: State) {
    && rd.cursor <= |s.history|
    && Explains(rd.log, s.history, rd.cursor, s.inner.maxBytes)
    && (End in rd.log ==> s.inner.closed && rd.cursor == |s.history|)
    && (rd.pc == Parked(false) && (rd.cursor < |s.history| || s.inner.closed) ==> s.ingest.Owes())
  }

  ghost predicate Inv(s: State) {
    && Retains(s.inner, s.history)
    && (s.inner.closed <==> s.ingest.OwesFinalNotify? || s.ingest.Stopped?)
    && forall r :: r in s.readers ==> ReaderOk(s.readers[r], s)
  }

  lemma {:induction false} ExplainsGrows(log: seq<Event>, h: Bytes, more: Bytes, upTo: nat, maxBytes: nat)
    requires upTo <= |h| && Explains(log, h, upTo, maxBytes)
    ensures Explains(log, h + more, upTo, maxBytes)
  {
    if log != [] {
      var front := log[..|log| - 1];
      match log[|log| - 1]
      case End => ExplainsGrows(front, h, more, upTo, maxBytes);
      case Took(skipped, bytes) =>
        assert (h + more)[upTo - |bytes|..upTo] == h[upTo - |bytes|..upTo];
        ExplainsGrows(front, h, more, upTo - |bytes| - skipped, maxBytes);
    }
  }

  /** A check in terms of the output alone. */
  lemma CheckMeaning(inner: Inner, h: Bytes, rd: Reader)
    requires Retains(inner, h) && rd.cursor <= |h| && rd.pc.Enabled?
    ensures inner.Addressed()
    ensures var poll := Outcome(Unread(h, inner.maxBytes, rd.cursor), inner.closed);
            Checked(inner, rd) == Landed(rd, Glance(|h|, poll), Lost(h, inner.maxBytes, rd.cursor))
  {
    LookMeaning(inner, h, rd.cursor);
  }

  lemma RecordedExplains(log: seq<Event>, h: Bytes, cursor: nat, maxBytes: nat, poll: Poll)
    requires cursor <= |h| && Explains(log, h, cursor, maxBytes)
    requires var bytes := Unread(h, maxBytes, cursor);
             if bytes == [] then !poll.Chunk? else poll == Chunk(bytes)
    ensures Explains(Recorded(log, Lost(h, maxBytes, cursor), poll), h, |h|, maxBytes)
    ensures End in Recorded(log, Lost(h, maxBytes, cursor), poll) ==> End in log || poll.Finished?
  {
    ExplainsTook(log, h, cursor, maxBytes);
    if poll.Finished? {
      var lost := Lost(h, maxBytes, cursor);
      ExplainsEnd(if lost > 0 then log + [Took(lost, [])] else log, h, |h|, maxBytes);
    }
  }

  lemma ExplainsTook(log: seq<Event>, h: Bytes, cursor: nat, maxBytes: nat)
    requires cursor <= |h| && Explains(log, h, cursor, maxBytes)
    ensures Explains(log + [Took(Lost(h, maxBytes, cursor), Unread(h, maxBytes, cursor))], h, |h|, maxBytes)
  {
    var bytes := Unread(h, maxBytes, cursor);
    assert bytes == h[|h| - |bytes|..|h|];
    var took := log + [Took(Lost(h, maxBytes, cursor), bytes)];
    assert took[..|took| - 1] == log;
  }

  lemma ExplainsEnd(log: seq<Event>, h: Bytes, upTo: nat, maxBytes: nat)
    requires upTo <= |h| && Explains(log, h, upTo, maxBytes)
    ensures Explains(log + [End], h, upTo, maxBytes)
  {
    assert (log + [End])[..|log|] == log;
  }

  lemma CheckedIsOk(s: State, r: ReaderId)
    requires Inv(s) && Can(s, Check(r))
    ensures ReaderOk(Checked(s.inner, s.readers[r]), s)
  {
    var rd := s.readers[r];
    assert ReaderOk(rd, s);
    CheckMeaning(s.inner, s.history, rd);
    RecordedExplains(rd.log, s.history, rd.cursor, s.inner.maxBytes,
                     Outcome(Unread(s.history, s.inner.maxBytes, rd.cursor), s.inner.closed));
  }

  /** Every step of every task keeps the invariant. */
  lemma StepKeepsInv(s: State, a: Action)
    requires Inv(s) && Can(s, a)
    ensures Inv(Step(s, a))
  {
    var t := Step(s, a);
    match a
    case IngestAppend(data) =>
      AppendRetains(s.inner, s.history, data);
      forall r | r in t.readers ensures ReaderOk(t.readers[r], t) {
        ExplainsGrows(s.readers[r].log, s.history, data, s.readers[r].cursor, s.inner.maxBytes);
      }
    case Check(r) => CheckedIsOk(s, r);
    case _ =>
  }
}
