/** Dropping a pending `next` (the out-of-band branch wins the select) loses
    nothing: step by step at every place it can be dropped, and over whole runs by
    refinement to a machine that has no wakeups and no drops at all, and by a run
    of the same machine that drops nothing and delivers the same. */
module CancelSafety {
  import opened Frames
  import opened Scrollback
  import opened Readers
  import opened Delivery

  /** Dropping the pending call and calling `next` again. */
  function Recall(r: ReaderId): seq<Action> { [Drop(r)] + Remaining(r, Idle) }

  lemma RecallReachesCheck(s: State, r: ReaderId)
    requires Inv(s) && r in s.readers && s.readers[r].pc.Parked?
    ensures CanAll(s, Recall(r)) && Can(At(s, r, Enabled(false)), Check(r))
    ensures Exec(s, Recall(r)) == Step(At(s, r, Enabled(false)), Check(r))
  {
    var t := Step(s, Drop(r));
    assert t == At(s, r, Idle);
    assert Recall(r)[1..] == Remaining(r, Idle);
    ReachesCheck(t, r);
    AtTwice(s, r, Idle, Enabled(false));
  }

  /** A reader already notified: the state afterwards is the same as if the call
      had been left to finish. */
  lemma DropWhenNotified(s: State, r: ReaderId)
    requires Inv(s) && r in s.readers && s.readers[r].pc == Parked(true)
    ensures CanAll(s, Recall(r)) && CanAll(s, Remaining(r, Parked(true)))
    ensures Exec(s, Recall(r)) == Exec(s, Remaining(r, Parked(true)))
  {
    RecallReachesCheck(s, r);
    ReachesCheck(s, r);
  }

  /** A reader not notified while ingest owes nothing: dropping the call and calling
      again leaves the very same state. */
  lemma DropWhenIdle(s: State, r: ReaderId)
    requires Inv(s) && r in s.readers && s.readers[r].pc == Parked(false) && !s.ingest.Owes()
    ensures CanAll(s, Recall(r)) && Exec(s, Recall(r)) == s
  {
    RecallReachesCheck(s, r);
    var e := At(s, r, Enabled(false));
    assert ReaderOk(s.readers[r], s);
    CheckMeaning(s.inner, s.history, e.readers[r]);
    assert Recorded(s.readers[r].log, 0, Wait) == s.readers[r].log;
    assert Step(e, Check(r)).readers == s.readers;
  }

  /** A state with every `Notified` taken as ready. */
  function Blind(s: State): State {
    s.(readers := map r | r in s.readers :: s.readers[r].(pc := Readied(s.readers[r].pc)))
  }

  function With(s: State, r: ReaderId, rd: Reader): State { s.(readers := s.readers[r := rd]) }

  lemma BlindWith(s: State, r: ReaderId, rd: Reader, ingest: Ingest)
    ensures Blind(With(Blind(s).(ingest := ingest), r, rd)) == Blind(With(s, r, rd).(ingest := ingest))
    ensures Blind(Blind(s)) == Blind(s)
  {
    assert Blind(With(Blind(s).(ingest := ingest), r, rd)).readers == Blind(With(s, r, rd).(ingest := ingest)).readers;
    assert Blind(Blind(s)).readers == Blind(s).readers;
  }

  /** A reader racing the notify of an append: calling again before the notify, or
      waiting for it, delivers the same and differs at most in a pending wakeup. */
  lemma DropWhenOwed(s: State, r: ReaderId)
    requires Inv(s) && r in s.readers && s.readers[r].pc == Parked(false) && s.ingest.Owes()
    ensures CanAll(s, Recall(r)) && Can(Exec(s, Recall(r)), IngestNotify)
    ensures Can(s, IngestNotify) && CanAll(Step(s, IngestNotify), Remaining(r, Parked(true)))
    ensures Blind(Step(Exec(s, Recall(r)), IngestNotify))
         == Blind(Exec(Step(s, IngestNotify), Remaining(r, Parked(true))))
  {
    RecallReachesCheck(s, r);
    var notified := Step(s, IngestNotify);
    ReachesCheck(notified, r);
    var looked := Checked(s.inner, s.readers[r].(pc := Enabled(false)));
    WithAt(s, r, looked);
    WithAt(notified, r, looked);
    BlindWith(s, r, looked, notified.ingest);
    BlindWith(With(s, r, looked).(ingest := notified.ingest), r, looked, notified.ingest);
  }

  /** A check through `At` replaces the reader by what the check made of it. */
  lemma WithAt(s: State, r: ReaderId, looked: Reader)
    requires r in s.readers && s.inner.Addressed()
    requires looked == Checked(s.inner, s.readers[r].(pc := Enabled(false)))
    ensures Step(At(s, r, Enabled(false)), Check(r)) == With(s, r, looked)
  {
    var e := At(s, r, Enabled(false));
    Overwrite(s.readers, r, s.readers[r].(pc := Enabled(false)), looked);
    assert Step(e, Check(r)) == With(e, r, looked);
  }

  lemma Overwrite(readers: map<ReaderId, Reader>, r: ReaderId, first: Reader, second: Reader)
    ensures readers[r := first][r := second] == readers[r := second]
  {
  }

  // ------------------------------------------------------------- refinement

  /** A reader without program counter: where it is and what it has received. */
  datatype View = View(cursor: nat, log: seq<Event>)

  /** The simple machine: the output, whether it is final, and the views. */
  datatype Simple = Simple(history: Bytes, closed: bool, maxBytes: nat, views: map<ReaderId, View>)

  function Abstract(s: State): Simple {
    Simple(s.history, s.inner.closed, s.inner.maxBytes,
           map r | r in s.readers :: View(s.readers[r].cursor, s.readers[r].log))
  }

  predicate Visible(a: Action) {
    a.IngestAppend? || a.IngestClose? || a.Attach? || a.Detach? || a.Check?
  }

  function SimpleStep(t: Simple, a: Action): Simple {
    match a
    case IngestAppend(data) => t.(history := t.history + data)
    case IngestClose => t.(closed := true)
    case Attach(r) => t.(views := t.views[r := View(0, [])])
    case Detach(r) => t.(views := t.views - {r})
    case Check(r) =>
      if r in t.views && t.views[r].cursor <= |t.history| then
        var v := t.views[r];
        t.(views := t.views[r := View(|t.history|, v.log + Delivered(t.history, t.maxBytes, t.closed, v.cursor))])
      else t
    case _ => t
  }

  lemma CheckRefines(s: State, r: ReaderId)
    requires Inv(s) && Can(s, Check(r))
    ensures Abstract(Step(s, Check(r))) == SimpleStep(Abstract(s), Check(r))
  {
    CheckedView(s, r);
    AbstractWith(s, r, Checked(s.inner, s.readers[r]));
  }

  lemma CheckedView(s: State, r: ReaderId)
    requires Inv(s) && Can(s, Check(r))
    ensures s.readers[r].cursor <= |s.history|
    ensures var rd := Checked(s.inner, s.readers[r]);
            && rd.cursor == |s.history|
            && rd.log == s.readers[r].log
                         + Delivered(s.history, s.inner.maxBytes, s.inner.closed, s.readers[r].cursor)
  {
    assert ReaderOk(s.readers[r], s);
    CheckMeaning(s.inner, s.history, s.readers[r]);
    RecordedIsDelivered(s.readers[r].log, s.history, s.inner.maxBytes, s.inner.closed, s.readers[r].cursor);
  }

  lemma AbstractWith(s: State, r: ReaderId, rd: Reader)
    ensures Abstract(With(s, r, rd)) == Abstract(s).(views := Abstract(s).views[r := View(rd.cursor, rd.log)])
  {
    assert Abstract(With(s, r, rd)).views == Abstract(s).views[r := View(rd.cursor, rd.log)];
  }

  /** Every step refines the simple machine; wakeups, re-arming and drops stutter. */
  lemma StepRefines(s: State, a: Action)
    requires Inv(s) && Can(s, a)
    ensures Abstract(Step(s, a)) == SimpleStep(Abstract(s), a)
    ensures !Visible(a) ==> Abstract(Step(s, a)) == Abstract(s)
  {
    match a
    case Check(r) => CheckRefines(s, r);
    case Attach(r) => AbstractWith(s, r, Reader(Idle, 0, []));
    case Detach(r) => assert Abstract(Step(s, a)).views == Abstract(s).views - {r};
    case IngestNotify => assert Abstract(Step(s, a)).views == Abstract(s).views;
    case IngestAppend(_) =>
    case IngestClose =>
    case Begin(r) => AtIsInvisible(s, r, Created(false));
    case Enable(r) => AtIsInvisible(s, r, Enabled(s.readers[r].pc.ready));
    case Wake(r) => AtIsInvisible(s, r, Woken);
    case Rearm(r) => AtIsInvisible(s, r, Created(false));
    case Drop(r) => AtIsInvisible(s, r, Idle);
  }

  lemma AtIsInvisible(s: State, r: ReaderId, pc: Pc)
    requires r in s.readers
    ensures Abstract(At(s, r, pc)) == Abstract(s)
  {
    assert Abstract(At(s, r, pc)).views == Abstract(s).views;
  }

  function SimpleExec(t: Simple, acts: seq<Action>): Simple {
    if acts == [] then t else SimpleStep(SimpleExec(t, acts[..|acts| - 1]), acts[|acts| - 1])
  }

  /** The schedule with every step crossed out that changes nothing anyone can see:
      wakeups, re-arming, drops, and looks that found nothing new. */
  function Erase(t: Simple, acts: seq<Action>): seq<Action> {
    if acts == [] then []
    else
      var before := Erase(t, acts[..|acts| - 1]);
      var a := acts[|acts| - 1];
      if SimpleStep(SimpleExec(t, before), a) == SimpleExec(t, before) then before else before + [a]
  }

  lemma EraseOneMore(t: Simple, before: seq<Action>, a: Action)
    ensures SimpleExec(t, Erase(t, before + [a])) == SimpleStep(SimpleExec(t, Erase(t, before)), a)
  {
    assert (before + [a])[..|before|] == before;
    var longer := Erase(t, before) + [a];
    assert longer[..|longer| - 1] == Erase(t, before);
  }

  lemma RefinesOneMore(t: Simple, before: seq<Action>, s: State, a: Action)
    requires Inv(s) && Can(s, a) && Abstract(s) == SimpleExec(t, Erase(t, before))
    ensures Abstract(Step(s, a)) == SimpleExec(t, Erase(t, before + [a]))
  {
    StepRefines(s, a);
    EraseOneMore(t, before, a);
  }

  lemma RefinesAt(run: seq<State>, acts: seq<Action>, i: nat)
    requires IsRun(run, acts) && i < |acts|
    requires Abstract(run[i]) == SimpleExec(Abstract(run[0]), Erase(Abstract(run[0]), acts[..i]))
    ensures Abstract(run[i + 1]) == SimpleExec(Abstract(run[0]), Erase(Abstract(run[0]), acts[..i + 1]))
  {
    assert acts[..i + 1] == acts[..i] + [acts[i]];
    assert Inv(run[i]) by { RunKeepsInv(run, acts, i); }
    RefinesOneMore(Abstract(run[0]), acts[..i], run[i], acts[i]);
  }

  lemma {:induction false} RunRefines(run: seq<State>, acts: seq<Action>, i: nat)
    requires IsRun(run, acts) && i < |run|
    ensures Abstract(run[i]) == SimpleExec(Abstract(run[0]), Erase(Abstract(run[0]), acts[..i]))
  {
    if i > 0 {
      RunRefines(run, acts, i - 1);
      RefinesAt(run, acts, i - 1);
    }
  }

  /** Two runs whose telling steps agree deliver the same to every reader, however
      often and wherever either of them dropped a pending `next`. */
  lemma DropsLeaveNoTrace(run: seq<State>, acts: seq<Action>, other: seq<State>, others: seq<Action>)
    requires IsRun(run, acts) && IsRun(other, others)
    requires run[0].inner.maxBytes == other[0].inner.maxBytes
    requires Erase(Abstract(run[0]), acts) == Erase(Abstract(other[0]), others)
    ensures Abstract(run[|acts|]) == Abstract(other[|others|])
  {
    RunRefines(run, acts, |acts|);
    RunRefines(other, others, |others|);
    assert acts[..|acts|] == acts && others[..|others|] == others;
    assert Abstract(run[0]) == Abstract(other[0]);
  }

  // ------------------------------------------------ the same without drops

  /** `s` with every reader between calls. */
  function Rested(s: State): State {
    s.(readers := map r | r in s.readers :: s.readers[r].(pc := Idle))
  }

  /** What a run with no drops and no sleeps does instead of `a`: a check that finds
      something is a whole call of `next`, one that finds nothing is left out. */
  function Undropped(s: State, a: Action): seq<Action> {
    match a
    case IngestAppend(_) => [a]
    case IngestClose => [a]
    case IngestNotify => [a]
    case Attach(_) => [a]
    case Detach(_) => [a]
    case Check(r) =>
      if r in s.readers && s.inner.Addressed() && s.inner.Look(s.readers[r].cursor).poll.Wait? then []
      else [Begin(r), Enable(r), Check(r)]
    case _ => []
  }

  function UndroppedRun(run: seq<State>, acts: seq<Action>): seq<Action>
    requires |run| >= |acts|
  {
    if acts == [] then []
    else UndroppedRun(run, acts[..|acts| - 1]) + Undropped(run[|acts| - 1], acts[|acts| - 1])
  }

  lemma RestedWith(s: State, r: ReaderId, rd: Reader)
    ensures Rested(With(s, r, rd)) == With(Rested(s), r, rd.(pc := Idle))
  {
    assert Rested(With(s, r, rd)).readers == With(Rested(s), r, rd.(pc := Idle)).readers;
  }

  /** A check that has to wait has found nothing, unless nothing is ever retained. */
  lemma WaitIsEmpty(inner: Inner, h: Bytes, rd: Reader)
    requires Retains(inner, h) && rd.cursor <= |h| && rd.pc.Enabled? && inner.maxBytes > 0
    ensures var poll := inner.Look(rd.cursor).poll;
            && (poll.Wait? ==> Checked(inner, rd) == rd.(pc := Parked(rd.pc.ready)))
            && (!poll.Wait? ==> Checked(inner, rd) == Checked(inner, rd.(pc := Enabled(false))) && Checked(inner, rd).pc == Idle)
  {
    LookMeaning(inner, h, rd.cursor);
  }

  lemma RestedCheck(s: State, r: ReaderId)
    requires Inv(s) && Can(s, Check(r)) && s.inner.maxBytes > 0
    ensures CanAll(Rested(s), Undropped(s, Check(r)))
    ensures Exec(Rested(s), Undropped(s, Check(r))) == Rested(Step(s, Check(r)))
  {
    var rd := s.readers[r];
    assert ReaderOk(rd, s);
    WaitIsEmpty(s.inner, s.history, rd);
    RestedWith(s, r, Checked(s.inner, rd));
    if s.inner.Look(rd.cursor).poll.Wait? {
      assert Rested(s).readers[r := rd.(pc := Idle)] == Rested(s).readers;
    } else {
      ReachesCheck(Rested(s), r);
      WithAt(Rested(s), r, Checked(s.inner, rd));
    }
  }

  lemma RestedStep(s: State, a: Action)
    requires Inv(s) && Can(s, a) && s.inner.maxBytes > 0
    ensures CanAll(Rested(s), Undropped(s, a)) && Exec(Rested(s), Undropped(s, a)) == Rested(Step(s, a))
  {
    match a
    case Check(r) => RestedCheck(s, r);
    case Begin(r) => RestedAt(s, r, Created(false));
    case Enable(r) => RestedAt(s, r, Enabled(s.readers[r].pc.ready));
    case Wake(r) => RestedAt(s, r, Woken);
    case Rearm(r) => RestedAt(s, r, Created(false));
    case Drop(r) => RestedAt(s, r, Idle);
    case _ => RestedSame(s, a);
  }

  lemma RestedAt(s: State, r: ReaderId, pc: Pc)
    requires r in s.readers
    ensures Rested(At(s, r, pc)) == Rested(s)
  {
    assert Rested(At(s, r, pc)).readers == Rested(s).readers;
  }

  lemma RestedSame(s: State, a: Action)
    requires Can(s, a) && (a.IngestAppend? || a.IngestClose? || a.IngestNotify? || a.Attach? || a.Detach?)
    ensures CanAll(Rested(s), [a]) && Exec(Rested(s), [a]) == Rested(Step(s, a))
  {
    assert Step(Rested(s), a).readers == Rested(Step(s, a)).readers;
    assert CanAll(Step(Rested(s), a), []);
  }

  lemma {:induction false} ExecAppend(s: State, first: seq<Action>, second: seq<Action>)
    requires CanAll(s, first) && CanAll(Exec(s, first), second)
    ensures CanAll(s, first + second) && Exec(s, first + second) == Exec(Exec(s, first), second)
    decreases |first|
  {
    if first == [] {
      assert first + second == second;
    } else {
      assert (first + second)[1..] == first[1..] + second;
      ExecAppend(Step(s, first[0]), first[1..], second);
    }
  }

  /** `twin` drops no call and ends like `t`, from `s`. */
  ghost predicate EndsLike(s: State, twin: seq<Action>, t: State) {
    CanAll(s, twin) && Exec(s, twin) == Rested(t) && forall a :: a in twin ==> !a.Drop?
  }

  lemma EndsLikeMore(s: State, twin: seq<Action>, t: State, a: Action)
    requires EndsLike(s, twin, t) && Inv(t) && Can(t, a) && t.inner.maxBytes > 0
    ensures EndsLike(s, twin + Undropped(t, a), Step(t, a))
  {
    RestedStep(t, a);
    ExecAppend(s, twin, Undropped(t, a));
  }

  /** Whatever a run with drops delivers, a run without any drop delivers too: it
      ends with the same session, and every reader with the same cursor and log. */
  lemma {:induction false} DropFreeTwin(run: seq<State>, acts: seq<Action>, i: nat)
    requires IsRun(run, acts) && i < |run| && run[0].inner.maxBytes > 0
    ensures EndsLike(run[0], UndroppedRun(run, acts[..i]), run[i])
  {
    if i == 0 {
      assert Rested(run[0]).readers == run[0].readers;
    } else {
      DropFreeTwin(run, acts, i - 1);
      RunKeepsInv(run, acts, i - 1);
      EndsLikeAt(run, acts, i - 1);
    }
  }

  lemma EndsLikeAt(run: seq<State>, acts: seq<Action>, i: nat)
    requires IsRun(run, acts) && i < |acts| && run[i].inner.maxBytes > 0
    requires EndsLike(run[0], UndroppedRun(run, acts[..i]), run[i])
    ensures EndsLike(run[0], UndroppedRun(run, acts[..i + 1]), run[i + 1])
  {
    assert UndroppedRun(run, acts[..i + 1]) == UndroppedRun(run, acts[..i]) + Undropped(run[i], acts[i]) by {
      assert acts[..i + 1][..i] == acts[..i];
    }
    RunKeepsInv(run, acts, i);
    EndsLikeMore(run[0], UndroppedRun(run, acts[..i]), run[i], acts[i]);
  }

  // ------------------------------------------ a session that retains nothing

  /** How often `next` has returned `None`. */
  function Ends(log: seq<Event>): nat {
    if log == [] then 0 else Ends(log[..|log| - 1]) + (if log[|log| - 1].End? then 1 else 0)
  }

  lemma LogMore(log: seq<Event>, e: Event)
    ensures Delivery.Output(log + [e]) == Delivery.Output(log) + (if e.Took? then e.bytes else [])
    ensures Ends(log + [e]) == Ends(log) + (if e.End? then 1 else 0)
  {
    assert (log + [e])[..|log|] == log;
  }

  /** The readers differ at most in gaps, of which no byte was delivered. */
  ghost predicate SameButGaps(a: Reader, b: Reader) {
    Delivery.Output(a.log) == Delivery.Output(b.log) == [] && Ends(a.log) == Ends(b.log)
  }

  /** `t` is between calls, and otherwise like `s` but for gaps. */
  ghost predicate Silent(t: State, s: State) {
    && t.inner == s.inner && t.ingest == s.ingest && t.history == s.history && t.readers.Keys == s.readers.Keys
    && forall r :: r in s.readers ==>
         t.readers[r].pc.Idle? && t.readers[r].cursor <= |t.history| && SameButGaps(t.readers[r], s.readers[r])
  }

  /** A look at nothing retained is final or empty-handed, wherever the cursor is. */
  lemma NothingRetained(inner: Inner, h: Bytes, rd: Reader)
    requires Retains(inner, h) && inner.maxBytes == 0 && rd.cursor <= |h| && rd.pc.Enabled? && Delivery.Output(rd.log) == []
    ensures inner.Look(rd.cursor).poll == if inner.closed then Finished else Wait
    ensures var now := Checked(inner, rd);
            && now.cursor == |h| && Delivery.Output(now.log) == []
            && Ends(now.log) == Ends(rd.log) + (if inner.closed then 1 else 0)
            && (inner.closed ==> now.pc.Idle?)
  {
    var skipped := if rd.cursor < inner.startOffset then inner.startOffset - rd.cursor else 0;
    LogMore(rd.log, Took(skipped, []));
    LogMore(if skipped > 0 then rd.log + [Took(skipped, [])] else rd.log, End);
  }

  lemma SilentWith(t: State, s: State, r: ReaderId, mine: Reader, theirs: Reader)
    requires Silent(t, s) && r in s.readers
    requires mine.pc.Idle? && mine.cursor <= |t.history| && SameButGaps(mine, theirs)
    ensures Silent(With(t, r, mine), With(s, r, theirs))
  {
  }

  lemma SilentCheck(t: State, s: State, r: ReaderId)
    requires Retains(s.inner, s.history) && r in s.readers && ReaderOk(s.readers[r], s)
    requires Can(s, Check(r)) && s.inner.maxBytes == 0 && Silent(t, s)
    ensures CanAll(t, Undropped(s, Check(r))) && Silent(Exec(t, Undropped(s, Check(r))), Step(s, Check(r)))
  {
    var theirs := Checked(s.inner, s.readers[r]);
    assert s.readers[r].cursor <= |s.history| by { assert ReaderOk(s.readers[r], s); }
    NothingRetained(s.inner, s.history, s.readers[r]);
    if s.inner.closed {
      FinalCheck(t, r);
      SilentWith(t, s, r, Checked(t.inner, t.readers[r].(pc := Enabled(false))), theirs);
    } else {
      SilentWith(t, s, r, t.readers[r], theirs);
      assert With(t, r, t.readers[r]) == t by { assert With(t, r, t.readers[r]).readers == t.readers; }
    }
  }

  lemma FinalCheck(t: State, r: ReaderId)
    requires Retains(t.inner, t.history) && t.inner.maxBytes == 0 && t.inner.closed
    requires r in t.readers && t.readers[r].pc.Idle? && t.readers[r].cursor <= |t.history|
    requires Delivery.Output(t.readers[r].log) == []
    ensures var calls := [Begin(r), Enable(r), Check(r)];
            var looked := Checked(t.inner, t.readers[r].(pc := Enabled(false)));
            && CanAll(t, calls) && Exec(t, calls) == With(t, r, looked)
            && looked.pc.Idle? && looked.cursor == |t.history| && Delivery.Output(looked.log) == []
            && Ends(looked.log) == Ends(t.readers[r].log) + 1
  {
    var looked := Checked(t.inner, t.readers[r].(pc := Enabled(false)));
    NothingRetained(t.inner, t.history, t.readers[r].(pc := Enabled(false)));
    ReachesCheck(t, r);
    WithAt(t, r, looked);
  }

  lemma SilentStep(t: State, s: State, a: Action)
    requires Inv(s) && Can(s, a) && s.inner.maxBytes == 0 && Silent(t, s)
    ensures CanAll(t, Undropped(s, a)) && Silent(Exec(t, Undropped(s, a)), Step(s, a))
  {
    if a.Check? {
      assert ReaderOk(s.readers[a.r], s);
      SilentCheck(t, s, a.r);
    } else if Undropped(s, a) == [] {
      SilentOwn(t, s, a);
    } else {
      SilentSame(t, s, a);
    }
  }

  lemma SilentOwn(t: State, s: State, a: Action)
    requires Can(s, a) && Silent(t, s) && (a.Begin? || a.Enable? || a.Wake? || a.Rearm? || a.Drop?)
    ensures Silent(t, Step(s, a))
  {
    SilentWith(t, s, a.r, t.readers[a.r], s.readers[a.r]);
  }

  lemma SilentSame(t: State, s: State, a: Action)
    requires Can(s, a) && Silent(t, s) && (a.IngestAppend? || a.IngestClose? || a.IngestNotify? || a.Attach? || a.Detach?)
    ensures CanAll(t, [a]) && Silent(Exec(t, [a]), Step(s, a))
  {
    assert Silent(Step(t, a), Step(s, a));
    assert CanAll(Step(t, a), []) && [a][1..] == [];
  }

  ghost predicate EndsSilent(s: State, twin: seq<Action>, t: State) {
    CanAll(s, twin) && Silent(Exec(s, twin), t) && forall a :: a in twin ==> !a.Drop?
  }

  lemma EndsSilentMore(s: State, twin: seq<Action>, t: State, a: Action)
    requires EndsSilent(s, twin, t) && Inv(t) && Can(t, a) && t.inner.maxBytes == 0
    ensures EndsSilent(s, twin + Undropped(t, a), Step(t, a))
  {
    SilentStep(Exec(s, twin), t, a);
    ExecAppend(s, twin, Undropped(t, a));
  }

  /** With a scrollback of zero bytes the same run without drops ends with the same
      session, every reader having received the same, which is no byte at all, and as
      many final `None`s; only the gaps a drop may have split are left out. */
  lemma {:induction false} SilentTwin(run: seq<State>, acts: seq<Action>, i: nat)
    requires IsRun(run, acts) && i < |run| && run[0].inner.maxBytes == 0
    ensures EndsSilent(run[0], UndroppedRun(run, acts[..i]), run[i])
  {
    if i > 0 {
      SilentTwin(run, acts, i - 1);
      RunKeepsInv(run, acts, i - 1);
      EndsSilentAt(run, acts, i - 1);
    }
  }

  lemma EndsSilentAt(run: seq<State>, acts: seq<Action>, i: nat)
    requires IsRun(run, acts) && i < |acts| && run[i].inner.maxBytes == 0
    requires EndsSilent(run[0], UndroppedRun(run, acts[..i]), run[i])
    ensures EndsSilent(run[0], UndroppedRun(run, acts[..i + 1]), run[i + 1])
  {
    assert UndroppedRun(run, acts[..i + 1]) == UndroppedRun(run, acts[..i]) + Undropped(run[i], acts[i]) by {
      assert acts[..i + 1][..i] == acts[..i];
    }
    RunKeepsInv(run, acts, i);
    EndsSilentMore(run[0], UndroppedRun(run, acts[..i]), run[i], acts[i]);
  }
}
