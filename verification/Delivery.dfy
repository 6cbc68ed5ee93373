/** What readers are promised, over every run of `Readers`: no lost wakeup, the
    delivered stream, keep-alive on reattach, and cancel safety. */
module Delivery {
  import opened Frames
  import opened Scrollback
  import opened Readers

  /** `run[i + 1]` is `run[i]` after `acts[i]`, from an empty session. */
  ghost predicate IsRun(run: seq<State>, acts: seq<Action>) {
    && |run| == |acts| + 1
    && Initial(run[0])
    && forall i :: 0 <= i < |acts| ==> Can(run[i], acts[i]) && run[i + 1] == Step(run[i], acts[i])
  }

  lemma {:induction false} RunKeepsInv(run: seq<State>, acts: seq<Action>, i: nat)
    requires IsRun(run, acts) && i < |run|
    ensures Inv(run[i]) && run[i].inner.maxBytes == run[0].inner.maxBytes
  {
    if i > 0 {
      RunKeepsInv(run, acts, i - 1);
      StepKeepsInv(run[i - 1], acts[i - 1]);
    }
  }

  // ---------------------------------------------------------------- wakeups

  /** A reader asleep on available output or on closure is owed a notify. */
  lemma NoLostWakeup(run: seq<State>, acts: seq<Action>, i: nat, r: ReaderId)
    requires IsRun(run, acts) && i < |run| && r in run[i].readers
    requires run[i].readers[r].pc == Parked(false)
    requires run[i].readers[r].cursor < |run[i].history| || run[i].inner.closed
    ensures run[i].ingest.Owes()
  {
    RunKeepsInv(run, acts, i);
  }

  /** What a reader inside `next` still has to do by itself. */
  function Remaining(r: ReaderId, pc: Pc): seq<Action> {
    match pc
    case Idle => [Begin(r), Enable(r), Check(r)]
    case Created(_) => [Enable(r), Check(r)]
    case Enabled(_) => [Check(r)]
    case Parked(_) => [Wake(r), Rearm(r), Enable(r), Check(r)]
    case Woken => [Rearm(r), Enable(r), Check(r)]
  }

  /** The state in which that work reaches the check: `s` with `r` enabled. */
  function AtCheck(s: State, r: ReaderId): State
    requires r in s.readers
  {
    var pc := s.readers[r].pc;
    At(s, r, Enabled((pc.Created? || pc.Enabled?) && pc.ready))
  }

  lemma AtTwice(s: State, r: ReaderId, first: Pc, second: Pc)
    requires r in s.readers
    ensures At(At(s, r, first), r, second) == At(s, r, second)
  {
    assert At(At(s, r, first), r, second).readers == At(s, r, second).readers;
  }

  lemma {:induction false} ReachesCheck(s: State, r: ReaderId)
    requires s.inner.Addressed() && r in s.readers && s.readers[r].pc != Parked(false)
    ensures Can(AtCheck(s, r), Check(r))
    ensures CanAll(s, Remaining(r, s.readers[r].pc))
    ensures Exec(s, Remaining(r, s.readers[r].pc)) == Step(AtCheck(s, r), Check(r))
    decreases |Remaining(r, s.readers[r].pc)|
  {
    var pc := s.readers[r].pc;
    var left := Remaining(r, pc);
    if pc.Enabled? {
      assert AtCheck(s, r).readers == s.readers;
      assert AtCheck(s, r) == s;
      assert CanAll(Step(s, Check(r)), left[1..]);
    } else {
      var next: Pc := if pc.Created? then Enabled(pc.ready) else if pc.Parked? then Woken else Created(false);
      var t := Step(s, left[0]);
      assert t == At(s, r, next);
      AtTwice(s, r, next, AtCheck(s, r).readers[r].pc);
      assert left[1..] == Remaining(r, next);
      ReachesCheck(t, r);
    }
  }

  /** Progress: when ingest owes nothing and there is something to return, `next`
      returns after at most four steps of its own, needing no other task. */
  lemma NextReturns(run: seq<State>, acts: seq<Action>, i: nat, r: ReaderId)
    requires IsRun(run, acts) && i < |run| && r in run[i].readers && !run[i].ingest.Owes()
    requires (run[i].readers[r].cursor < |run[i].history| && run[i].inner.maxBytes > 0) || run[i].inner.closed
    ensures var solo := Remaining(r, run[i].readers[r].pc);
            && |solo| <= 4 && CanAll(run[i], solo)
            && var t := Exec(run[i], solo);
               r in t.readers && t.readers[r].pc == Idle && t.readers[r].cursor == |t.history|
               && |t.readers[r].log| > |run[i].readers[r].log|
  {
    RunKeepsInv(run, acts, i);
    ReachesCheck(run[i], r);
    var rd := AtCheck(run[i], r).readers[r];
    assert ReaderOk(run[i].readers[r], run[i]);
    CheckMeaning(run[i].inner, run[i].history, rd);
  }

  // ------------------------------------------------------- delivered stream

  function Output(log: seq<Event>): Bytes {
    if log == [] then []
    else
      var e := log[|log| - 1];
      Output(log[..|log| - 1]) + (if e.Took? then e.bytes else [])
  }

  /** How far a log reaches, and the positions it skipped on the way. */
  function Span(log: seq<Event>): nat {
    if log == [] then 0
    else
      var e := log[|log| - 1];
      Span(log[..|log| - 1]) + (if e.Took? then e.skipped + |e.bytes| else 0)
  }

  ghost predicate SkippedAt(log: seq<Event>, p: nat) {
    log != [] &&
    var front := log[..|log| - 1];
    var e := log[|log| - 1];
    SkippedAt(front, p) || (e.Took? && Span(front) <= p < Span(front) + e.skipped)
  }

  /** `h[..n]` without the positions the log skipped. */
  ghost function Except(h: Bytes, n: nat, log: seq<Event>): Bytes
    requires n <= |h|
  {
    if n == 0 then []
    else Except(h, n - 1, log) + (if SkippedAt(log, n - 1) then [] else [h[n - 1]])
  }

  lemma {:induction false} ExceptStretch(h: Bytes, lo: nat, hi: nat, log: seq<Event>)
    requires lo <= hi <= |h|
    ensures (forall p: nat :: lo <= p < hi ==> SkippedAt(log, p)) ==> Except(h, hi, log) == Except(h, lo, log)
    ensures (forall p: nat :: lo <= p < hi ==> !SkippedAt(log, p)) ==>
              Except(h, hi, log) == Except(h, lo, log) + h[lo..hi]
  {
    if lo < hi {
      ExceptStretch(h, lo, hi - 1, log);
      assert h[lo..hi] == h[lo..hi - 1] + [h[hi - 1]];
    }
  }

  lemma {:induction false} ExceptAgrees(h: Bytes, n: nat, log: seq<Event>, other: seq<Event>)
    requires n <= |h| && forall p: nat :: p < n ==> SkippedAt(log, p) == SkippedAt(other, p)
    ensures Except(h, n, log) == Except(h, n, other)
  {
    if n > 0 { ExceptAgrees(h, n - 1, log, other); }
  }

  lemma {:induction false} LogIsOutput(log: seq<Event>, h: Bytes, upTo: nat, maxBytes: nat)
    requires upTo <= |h| && Explains(log, h, upTo, maxBytes)
    ensures Span(log) == upTo && forall p: nat :: SkippedAt(log, p) ==> p < upTo
    ensures Output(log) == Except(h, upTo, log)
  {
    if log != [] {
      var front := log[..|log| - 1];
      var e := log[|log| - 1];
      if e.End? {
        LogIsOutput(front, h, upTo, maxBytes);
        ExceptAgrees(h, upTo, front, log);
        assert Output(log) == Output(front);
      } else {
        var from := upTo - |e.bytes| - e.skipped;
        LogIsOutput(front, h, from, maxBytes);
        TookExtends(log, h, from);
      }
    }
  }

  lemma TookExtends(log: seq<Event>, h: Bytes, from: nat)
    requires log != [] && log[|log| - 1].Took?
    requires var front := log[..|log| - 1];
             && Span(front) == from <= |h|
             && (forall p: nat :: SkippedAt(front, p) ==> p < from)
             && Output(front) == Except(h, from, front)
    requires var e := log[|log| - 1];
             from + e.skipped + |e.bytes| <= |h|
             && e.bytes == h[from + e.skipped..from + e.skipped + |e.bytes|]
    ensures Output(log) == Except(h, Span(log), log)
  {
    var front, e := log[..|log| - 1], log[|log| - 1];
    var kept := from + e.skipped;
    forall p: nat ensures SkippedAt(log, p) <==> SkippedAt(front, p) || from <= p < kept {}
    ExceptAgrees(h, from, front, log);
    ExceptStretch(h, from, kept, log);
    ExceptStretch(h, kept, kept + |e.bytes|, log);
    assert Output(log) == Output(front) + e.bytes;
  }

  /** In every run each reader has received the output up to its cursor with
      exactly its skipped positions removed, and `None` only at the very end. */
  lemma StreamRefinement(run: seq<State>, acts: seq<Action>, i: nat, r: ReaderId)
    requires IsRun(run, acts) && i < |run| && r in run[i].readers
    ensures var rd := run[i].readers[r];
            && rd.cursor == Span(rd.log) <= |run[i].history|
            && Output(rd.log) == Except(run[i].history, rd.cursor, rd.log)
            && (End in rd.log ==> rd.cursor == |run[i].history|
                                  && forall j :: i <= j < |run| ==> run[j].history == run[i].history)
  {
    RunKeepsInv(run, acts, i);
    var rd := run[i].readers[r];
    LogIsOutput(rd.log, run[i].history, rd.cursor, run[i].inner.maxBytes);
    if End in rd.log {
      forall j | i <= j < |run| ensures run[j].history == run[i].history { ClosedIsFinal(run, acts, i, j); }
    }
  }

  lemma {:induction false} ClosedIsFinal(run: seq<State>, acts: seq<Action>, i: nat, j: nat)
    requires IsRun(run, acts) && i <= j < |run| && run[i].inner.closed
    ensures run[j].inner.closed && run[j].history == run[i].history
  {
    if i < j {
      ClosedIsFinal(run, acts, i, j - 1);
      assert !run[j - 1].ingest.Receiving? by { RunKeepsInv(run, acts, j - 1); }
      ClosedStep(run[j - 1], acts[j - 1]);
    }
  }

  lemma ClosedStep(s: State, a: Action)
    requires Can(s, a) && s.inner.closed && !s.ingest.Receiving?
    ensures Step(s, a).inner.closed && Step(s, a).history == s.history
  {
  }

  /** What a look at output `h` from `cursor` must add to a reader's log: a gap
      exactly when more than `max` bytes arrived past the cursor, and then exactly
      the last `max` bytes; otherwise everything past the cursor; and `None`
      exactly when the session is closed and there is nothing to return. */
  function Delivered(h: Bytes, max: nat, closed: bool, cursor: nat): seq<Event>
    requires cursor <= |h|
  {
    var behind := |h| - cursor;
    (if behind > max then [Took(behind - max, Suffix(h, max))]
     else if behind > 0 then [Took(0, Suffix(h, behind))] else [])
    + (if closed && (behind == 0 || max == 0) then [End] else [])
  }

  lemma RecordedIsDelivered(log: seq<Event>, h: Bytes, max: nat, closed: bool, cursor: nat)
    requires cursor <= |h|
    ensures Recorded(log, Lost(h, max, cursor), Outcome(Unread(h, max, cursor), closed))
         == log + Delivered(h, max, closed, cursor)
  {
  }

  lemma ChecksDeliver(run: seq<State>, acts: seq<Action>, i: nat, r: ReaderId)
    requires IsRun(run, acts) && i < |acts| && acts[i] == Check(r)
    ensures r in run[i].readers && r in run[i + 1].readers && run[i].readers[r].cursor <= |run[i].history|
    ensures run[i + 1].readers[r].log == run[i].readers[r].log
              + Delivered(run[i].history, run[i].inner.maxBytes, run[i].inner.closed, run[i].readers[r].cursor)
    ensures run[i + 1].readers[r].cursor == |run[i].history|
  {
    RunKeepsInv(run, acts, i);
    var rd := run[i].readers[r];
    assert ReaderOk(rd, run[i]);
    CheckMeaning(run[i].inner, run[i].history, rd);
    RecordedIsDelivered(rd.log, run[i].history, run[i].inner.maxBytes, run[i].inner.closed, rd.cursor);
  }

  // ------------------------------------------------------------- keep-alive

  /** The first chunk of any log is the last `maxBytes` bytes of the output at the
      moment it was taken. */
  lemma {:induction false} FirstChunk(log: seq<Event>, h: Bytes, upTo: nat, maxBytes: nat)
    requires upTo <= |h| && Explains(log, h, upTo, maxBytes) && log != [] && log[0].Took?
    ensures var seen := log[0].skipped + |log[0].bytes|;
            && seen <= upTo
            && (log[0].skipped > 0 ==> |log[0].bytes| == maxBytes)
            && log[0].bytes == Suffix(h[..seen], maxBytes) == h[log[0].skipped..seen]
  {
    var e := log[|log| - 1];
    var front := log[..|log| - 1];
    if |log| == 1 {
      assert Explains(front, h, upTo - |e.bytes| - e.skipped, maxBytes);
    } else {
      FirstChunk(front, h, if e.Took? then upTo - |e.bytes| - e.skipped else upTo, maxBytes);
    }
  }

  /** With no gap after its first chunk, a reader's output is one stretch of `h`. */
  lemma {:induction false} OneStretch(log: seq<Event>, h: Bytes, upTo: nat, maxBytes: nat)
    requires upTo <= |h| && Explains(log, h, upTo, maxBytes)
    requires log != [] && log[0].Took?
    requires forall j :: 1 <= j < |log| && log[j].Took? ==> log[j].skipped == 0
    ensures log[0].skipped <= upTo && Output(log) == h[log[0].skipped..upTo]
  {
    var e := log[|log| - 1];
    var front := log[..|log| - 1];
    var bytes := if e.Took? then e.bytes else [];
    if |log| == 1 {
      FirstChunk(log, h, upTo, maxBytes);
      assert Explains(front, h, upTo - |bytes| - e.skipped, maxBytes);
      assert Output(front) == [];
    } else {
      assert e.Took? ==> e.skipped == 0;
      OneStretch(front, h, upTo - |bytes|, maxBytes);
      OneMore(log[0].skipped, h, upTo, bytes);
      assert Output(log) == Output(front) + bytes;
    }
  }

  lemma OneMore(lo: nat, h: Bytes, upTo: nat, bytes: Bytes)
    requires lo + |bytes| <= upTo <= |h| && bytes == h[upTo - |bytes|..upTo]
    ensures h[lo..upTo] == h[lo..upTo - |bytes|] + bytes
  {
  }

  lemma RunExplains(run: seq<State>, acts: seq<Action>, i: nat, r: ReaderId)
    requires IsRun(run, acts) && i < |run| && r in run[i].readers
    ensures var rd := run[i].readers[r];
            rd.cursor <= |run[i].history| && Explains(rd.log, run[i].history, rd.cursor, run[i].inner.maxBytes)
  {
    RunKeepsInv(run, acts, i);
    assert ReaderOk(run[i].readers[r], run[i]);
  }

  /** Reattaching with a fresh reader: its first chunk is the last
      `min(maxBytes, |H|)` bytes of the output at that moment, so a client that
      holds `H[..p]` and is at most `maxBytes` behind drops the overlap and holds
      `H` up to the reader's cursor, whatever happened while it was away. */
  lemma KeepAlive(run: seq<State>, acts: seq<Action>, i: nat, r: ReaderId, p: nat)
    requires IsRun(run, acts) && i < |run| && r in run[i].readers
    requires var log := run[i].readers[r].log;
             log != [] && log[0].Took? && forall j :: 1 <= j < |log| && log[j].Took? ==> log[j].skipped == 0
    requires var first := run[i].readers[r].log[0];
             var seen := first.skipped + |first.bytes|;
             p <= seen <= p + run[i].inner.maxBytes
    ensures var rd := run[i].readers[r];
            var first := rd.log[0];
            var seen := first.skipped + |first.bytes|;
            && seen <= rd.cursor <= |run[i].history|
            && first.bytes == Suffix(run[i].history[..seen], run[i].inner.maxBytes)
            && first.skipped <= p
            && Output(rd.log) == run[i].history[first.skipped..rd.cursor]
            && run[i].history[..p] + Output(rd.log)[p - first.skipped..] == run[i].history[..rd.cursor]
  {
    RunExplains(run, acts, i, r);
    var rd := run[i].readers[r];
    var h := run[i].history;
    FirstChunk(rd.log, h, rd.cursor, run[i].inner.maxBytes);
    OneStretch(rd.log, h, rd.cursor, run[i].inner.maxBytes);
    Stitch(h, p, rd.log[0].skipped, rd.cursor);
  }

  lemma Stitch(h: Bytes, p: nat, lo: nat, hi: nat)
    requires lo <= p <= hi <= |h|
    ensures h[..p] + h[lo..hi][p - lo..] == h[..hi]
  {
  }

  /** Such a first chunk is there for the asking: a newly attached reader gets it
      on its first call, from any reachable state with output to replay. */
  lemma ReattachReplays(run: seq<State>, acts: seq<Action>, i: nat, r: ReaderId)
    requires IsRun(run, acts) && i < |run| && r !in run[i].readers
    requires run[i].history != [] && run[i].inner.maxBytes > 0
    ensures var s := run[i];
            var calls := [Attach(r), Begin(r), Enable(r), Check(r)];
            var replay := Suffix(s.history, s.inner.maxBytes);
            && CanAll(s, calls) && r in Exec(s, calls).readers
            && Exec(s, calls).readers[r] == Reader(Idle, |s.history|, [Took(|s.history| - |replay|, replay)])
            && Exec(s, calls).readers - {r} == s.readers && Exec(s, calls).inner == s.inner
  {
    var s := run[i];
    assert Retains(s.inner, s.history) by { RunKeepsInv(run, acts, i); }
    FirstCheck(s.inner, s.history, Reader(Enabled(false), 0, []));
    AttachAndLook(s, r);
    Fresh(s.readers, r, Checked(s.inner, Reader(Enabled(false), 0, [])));
  }

  lemma Fresh(readers: map<ReaderId, Reader>, r: ReaderId, rd: Reader)
    requires r !in readers
    ensures readers[r := rd] - {r} == readers
  {
  }

  lemma AttachAndLook(s: State, r: ReaderId)
    requires r !in s.readers && s.inner.Addressed()
    ensures var calls := [Attach(r), Begin(r), Enable(r), Check(r)];
            CanAll(s, calls)
            && Exec(s, calls) == s.(readers := s.readers[r := Checked(s.inner, Reader(Enabled(false), 0, []))])
  {
    var calls := [Attach(r), Begin(r), Enable(r), Check(r)];
    var t := Step(s, Attach(r));
    assert calls[1..] == Remaining(r, Idle);
    ReachesCheck(t, r);
    var looked := Checked(s.inner, Reader(Enabled(false), 0, []));
    assert AtCheck(t, r).readers[r := looked] == s.readers[r := looked];
  }

  lemma FirstCheck(inner: Inner, h: Bytes, rd: Reader)
    requires Retains(inner, h) && h != [] && inner.maxBytes > 0
    requires rd.pc.Enabled? && rd.cursor == 0 && rd.log == []
    ensures inner.Addressed()
    ensures var replay := Suffix(h, inner.maxBytes);
            Checked(inner, rd) == Reader(Idle, |h|, [Took(|h| - |replay|, replay)])
  {
    CheckMeaning(inner, h, rd);
    RecordedIsDelivered([], h, inner.maxBytes, inner.closed, 0);
  }

  // --------------------------------------------- what the client can tell of it

  /** A client that holds `held`, the output up to a point no more than `max` bytes back,
      reads on with reader `r`, whose first chunk is `replay`; `k` of its bytes are held
      already. No frame carries a position, so this is all the client knows. */
  ghost predicate Replayed(run: seq<State>, r: ReaderId, max: nat, held: Bytes, replay: Bytes, k: nat) {
    && run != []
    && var s := run[|run| - 1];
       && s.inner.maxBytes == max && held <= s.history
       && r in s.readers && s.readers[r].log != [] && s.readers[r].log[0].Took?
       && var first := s.readers[r].log[0];
          && first.bytes == replay && |held| <= first.skipped + |replay| <= |held| + max
          && k == |held| - first.skipped
  }

  /** The overlap may be `k`: it is so in some run. */
  ghost predicate MayOverlap(max: nat, held: Bytes, replay: Bytes, k: nat) {
    exists run, acts, r :: IsRun(run, acts) && Replayed(run, r, max, held, replay, k)
  }

  /** A replay shorter than the scrollback is all the output there was; one that fills it
      may begin with any end of what is held. */
  predicate Fits(max: nat, held: Bytes, replay: Bytes, k: nat) {
    if |replay| < max then k == |held| && held <= replay
    else |replay| == max && k <= |held| && Suffix(held, k) <= replay
  }

  /** Exactly the overlaps that fit the bytes are possible. */
  lemma OverlapIff(max: nat, held: Bytes, replay: Bytes, k: nat)
    requires replay != []
    ensures MayOverlap(max, held, replay, k) <==> Fits(max, held, replay, k)
  {
    if MayOverlap(max, held, replay, k) {
      var run, acts, r :| IsRun(run, acts) && Replayed(run, r, max, held, replay, k);
      OverlapFits(run, acts, r, max, held, replay, k);
    }
    if Fits(max, held, replay, k) {
      OverlapHappens(max, held, replay, k);
    }
  }

  lemma OverlapFits(run: seq<State>, acts: seq<Action>, r: ReaderId, max: nat, held: Bytes, replay: Bytes, k: nat)
    requires IsRun(run, acts) && Replayed(run, r, max, held, replay, k) && replay != []
    ensures Fits(max, held, replay, k)
  {
    RunExplains(run, acts, |run| - 1, r);
    var s := run[|run| - 1];
    FirstFits(s.readers[r].log, s.history, s.readers[r].cursor, max, held);
  }

  lemma FirstFits(log: seq<Event>, h: Bytes, upTo: nat, max: nat, held: Bytes)
    requires upTo <= |h| && Explains(log, h, upTo, max) && log != [] && log[0].Took? && held <= h
    requires log[0].bytes != [] && |held| <= log[0].skipped + |log[0].bytes| <= |held| + max
    ensures log[0].skipped <= |held| && Fits(max, held, log[0].bytes, |held| - log[0].skipped)
  {
    FirstChunk(log, h, upTo, max);
    assert held == h[..|held|];
    FitsByPlace(h, |held|, log[0].skipped, max, log[0].bytes);
  }

  lemma FitsByPlace(h: Bytes, p: nat, skipped: nat, max: nat, replay: Bytes)
    requires skipped <= p <= skipped + |replay| <= |h| && replay == h[skipped..skipped + |replay|]
    requires |replay| <= max && (skipped > 0 ==> |replay| == max)
    ensures Fits(max, h[..p], replay, p - skipped)
  {
    var k := p - skipped;
    assert Suffix(h[..p], k) == h[skipped..p] == replay[..k];
    if skipped == 0 { assert h[..p] == replay[..p]; }
  }

  lemma RunOneMore(run: seq<State>, acts: seq<Action>, a: Action)
    requires IsRun(run, acts) && Can(run[|acts|], a)
    ensures IsRun(run + [Step(run[|acts|], a)], acts + [a])
  {
  }

  lemma {:induction false} RunThen(run: seq<State>, acts: seq<Action>, more: seq<Action>) returns (whole: seq<State>)
    requires IsRun(run, acts) && CanAll(run[|acts|], more)
    ensures IsRun(whole, acts + more) && whole[|whole| - 1] == Exec(run[|acts|], more)
    decreases |more|
  {
    if more == [] {
      assert acts + more == acts;
      whole := run;
    } else {
      RunOneMore(run, acts, more[0]);
      whole := RunThen(run + [Step(run[|acts|], more[0])], acts + [more[0]], more[1..]);
      assert acts + [more[0]] + more[1..] == acts + more;
    }
  }

  lemma OverlapHappens(max: nat, held: Bytes, replay: Bytes, k: nat)
    requires Fits(max, held, replay, k) && replay != []
    ensures MayOverlap(max, held, replay, k)
  {
    var h := held[..|held| - k] + replay;
    HeldIsPrefix(held, replay, k, max);
    var run, acts := ReplayRun(h, max);
    assert Replayed(run, 0, max, held, replay, k);
  }

  /** Any output may be read from the start, by a reader attached after it. */
  lemma ReplayRun(h: Bytes, max: nat) returns (run: seq<State>, acts: seq<Action>)
    requires h != [] && max > 0
    ensures IsRun(run, acts)
    ensures var s := run[|run| - 1];
            && s.inner.maxBytes == max && s.history == h && 0 in s.readers
            && s.readers[0].log == [Took(|h| - |Suffix(h, max)|, Suffix(h, max))]
  {
    var start := State(Empty(max), Receiving, map[], []);
    RunOneMore([start], [], IngestAppend(h));
    var once, calls := [start] + [Step(start, IngestAppend(h))], [Attach(0), Begin(0), Enable(0), Check(0)];
    ReattachReplays(once, [] + [IngestAppend(h)], 1, 0);
    run := RunThen(once, [] + [IngestAppend(h)], calls);
    acts := [] + [IngestAppend(h)] + calls;
    RunKeepsInv(once, [] + [IngestAppend(h)], 1);
    ReplayKeepsHistory(once[1], 0);
  }

  lemma ReplayKeepsHistory(s: State, r: ReaderId)
    requires r !in s.readers && s.inner.Addressed()
    ensures var calls := [Attach(r), Begin(r), Enable(r), Check(r)];
            CanAll(s, calls) && Exec(s, calls).history == s.history
  {
    AttachAndLook(s, r);
  }

  lemma HeldIsPrefix(held: Bytes, replay: Bytes, k: nat, max: nat)
    requires Fits(max, held, replay, k)
    ensures var h := held[..|held| - k] + replay;
            held <= h && Suffix(h, max) == replay && |h| - |replay| == |held| - k
  {
    var h := held[..|held| - k] + replay;
    assert h[|held| - k..] == replay;
    assert Suffix(held, k) <= replay;
    assert held == held[..|held| - k] + Suffix(held, k);
  }

  /** So the client can tell how much to drop exactly if the replay does not fill the
      scrollback, or no end of what it holds begins the replay. */
  lemma OverlapKnownIff(max: nat, held: Bytes, replay: Bytes, k: nat)
    requires replay != [] && MayOverlap(max, held, replay, k)
    ensures (forall j :: MayOverlap(max, held, replay, j) ==> j == k)
       <==> |replay| < max || forall j :: 0 < j <= |held| ==> !(Suffix(held, j) <= replay)
  {
    forall j: nat ensures MayOverlap(max, held, replay, j) <==> Fits(max, held, replay, j) {
      OverlapIff(max, held, replay, j);
    }
    if |replay| == max {
      assert MayOverlap(max, held, replay, 0);
      if j :| 0 < j <= |held| && Suffix(held, j) <= replay {
        assert MayOverlap(max, held, replay, j);
      } else {
        assert forall j: nat :: Fits(max, held, replay, j) ==> j == 0;
      }
    }
  }

  /** Holding "aa" and sent "aa", a client of a scrollback of two bytes may have missed
      nothing, one byte or two. */
  lemma OverlapUnknown()
    ensures var aa := [97, 97];
            MayOverlap(2, aa, aa, 2) && MayOverlap(2, aa, aa, 1) && MayOverlap(2, aa, aa, 0)
  {
    OverlapIff(2, [97, 97], [97, 97], 2);
    OverlapIff(2, [97, 97], [97, 97], 1);
    OverlapIff(2, [97, 97], [97, 97], 0);
  }

  /** No chunk handed to a sender is larger than the scrollback. */
  lemma {:induction false} ChunkBound(log: seq<Event>, h: Bytes, upTo: nat, maxBytes: nat)
    requires upTo <= |h| && Explains(log, h, upTo, maxBytes)
    ensures forall e :: e in log && e.Took? ==> |e.bytes| <= maxBytes
  {
    if log != [] {
      var e := log[|log| - 1];
      ChunkBound(log[..|log| - 1], h, if e.Took? then upTo - |e.bytes| - e.skipped else upTo, maxBytes);
      assert log == log[..|log| - 1] + [e];
    }
  }
}
