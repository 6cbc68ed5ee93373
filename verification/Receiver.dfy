/** The receiving side of a connection: `receiver_loop` and `ControlSigner::sign` of
    `gw-server`, over the framed stream. */
module Receiver {
  import opened Frames
  import opened Codec
  import opened Framing
  import opened Places
  import opened Quota
  import opened SshActor

  // ---------------------------------------------------------- receiver_loop

  /** The frames the loop serves: those before the first `Close`. */
  function BeforeClose(frames: seq<ClientFrame>): seq<ClientFrame> {
    if frames == [] || frames[0].Close? then [] else [frames[0]] + BeforeClose(frames[1..])
  }

  /** What one frame forwards to the session, what it answers, and how many
      keystroke bytes it carries. */
  function InputOf(f: ClientFrame): seq<SshInput> {
    match f
    case Input(bytes) => [Keys(bytes)]
    case Resize(cols, rows) => [Resized(cols, rows)]
    case _ => []
  }

  function PongOf(f: ClientFrame): seq<ServerFrame> { if f.Ping? then [Pong] else [] }

  function BytesOf(f: ClientFrame): nat { if f.Input? then |f.bytes| else 0 }

  function Inputs(frames: seq<ClientFrame>): seq<SshInput> {
    if frames == [] then [] else Inputs(frames[..|frames| - 1]) + InputOf(frames[|frames| - 1])
  }

  function Pongs(frames: seq<ClientFrame>): seq<ServerFrame> {
    if frames == [] then [] else Pongs(frames[..|frames| - 1]) + PongOf(frames[|frames| - 1])
  }

  function InputBytes(frames: seq<ClientFrame>): nat {
    if frames == [] then 0 else InputBytes(frames[..|frames| - 1]) + BytesOf(frames[|frames| - 1])
  }

  // --------------------------------------------- what the frames come to

  /** What frame `i` types: keystrokes, or a new window size, as they are in it. */
  function TypedBy(frames: seq<ClientFrame>): nat -> Option<SshInput> {
    (i: nat) =>
      if i >= |frames| then None
      else match frames[i]
        case Input(bytes) => Some(Keys(bytes))
        case Resize(cols, rows) => Some(Resized(cols, rows))
        case _ => None
  }

  /** The keystrokes among the inputs, end to end. */
  function KeyBytes(inputs: seq<SshInput>): Bytes {
    if inputs == [] then []
    else
      KeyBytes(inputs[..|inputs| - 1])
      + (if inputs[|inputs| - 1].Keys? then inputs[|inputs| - 1].bytes else [])
  }

  lemma KeyBytesMore(inputs: seq<SshInput>, x: SshInput)
    ensures KeyBytes(inputs + [x]) == KeyBytes(inputs) + (if x.Keys? then x.bytes else [])
  {
    assert (inputs + [x])[..|inputs|] == inputs;
  }

  lemma FrameSays(before: seq<ClientFrame>, f: ClientFrame)
    ensures var all := before + [f];
            && (forall i: nat :: i < |before| ==> TypedBy(before)(i) == TypedBy(all)(i))
            && Inputs(all) == Inputs(before) + Listed(TypedBy(all)(|before|))
            && |KeyBytes(Inputs(all))| == |KeyBytes(Inputs(before))| + BytesOf(f)
  {
    assert (before + [f])[..|before|] == before;
    if f.Input? || f.Resize? {
      KeyBytesMore(Inputs(before), InputOf(f)[0]);
    } else {
      assert Inputs(before) + [] == Inputs(before);
    }
  }

  ghost predicate PongEach(frames: seq<ClientFrame>, pongs: seq<ServerFrame>) {
    |pongs| == multiset(frames)[Ping] && forall k :: 0 <= k < |pongs| ==> pongs[k] == Pong
  }

  lemma PongEachMore(before: seq<ClientFrame>, pongs: seq<ServerFrame>, f: ClientFrame)
    requires PongEach(before, pongs)
    ensures PongEach(before + [f], pongs + PongOf(f))
  {
    assert multiset(before + [f]) == multiset(before) + multiset{f};
  }

  lemma {:induction false} PongsCount(frames: seq<ClientFrame>)
    ensures PongEach(frames, Pongs(frames))
  {
    if frames != [] {
      var before, f := frames[..|frames| - 1], frames[|frames| - 1];
      PongsCount(before);
      PongEachMore(before, Pongs(before), f);
      assert frames == before + [f];
    }
  }

  lemma {:induction false} InputsListed(frames: seq<ClientFrame>) returns (at: seq<nat>)
    ensures Lists(Inputs(frames), at, |frames|, TypedBy(frames)) && InputBytes(frames) == |KeyBytes(Inputs(frames))|
  {
    at := [];
    if frames != [] {
      var before, f := frames[..|frames| - 1], frames[|frames| - 1];
      at := InputsListed(before);
      assert frames == before + [f];
      FrameSays(before, f);
      ListsMore(Inputs(before), at, |before|, TypedBy(before), TypedBy(frames));
      at := More(at, |before|, TypedBy(frames));
    }
  }

  /** The inputs the frames come to are, one for one and in order, what the `Input` and
      `Resize` frames say; there is a pong for every `Ping`, and as many bytes are counted
      as are typed. */
  ghost predicate ComesTo(frames: seq<ClientFrame>, at: seq<nat>, inputs: seq<SshInput>, pongs: seq<ServerFrame>, bytes: nat) {
    && Lists(inputs, at, |frames|, TypedBy(frames))
    && PongEach(frames, pongs)
    && bytes == |KeyBytes(inputs)|
  }

  lemma FramesSay(frames: seq<ClientFrame>) returns (at: seq<nat>)
    ensures ComesTo(frames, at, Inputs(frames), Pongs(frames), InputBytes(frames))
  {
    at := InputsListed(frames);
    PongsCount(frames);
  }

  lemma {:induction false} BeforeCloseSplits(done: seq<ClientFrame>, rest: seq<ClientFrame>)
    requires Close !in done
    ensures BeforeClose(done + rest) == done + BeforeClose(rest)
  {
    if done == [] {
      assert done + rest == rest;
    } else {
      assert (done + rest)[1..] == done[1..] + rest;
      BeforeCloseSplits(done[1..], rest);
    }
  }

  /** What is served is a prefix of what was sent. */
  lemma {:induction false} BeforeCloseIsPrefix(frames: seq<ClientFrame>)
    ensures BeforeClose(frames) <= frames && Close !in BeforeClose(frames)
    ensures BeforeClose(frames) == frames <==> Close !in frames
  {
    if frames != [] && !frames[0].Close? {
      BeforeCloseIsPrefix(frames[1..]);
      assert frames == [frames[0]] + frames[1..];
    }
  }

  lemma {:induction false} InputsPrefix(frames: seq<ClientFrame>, n: nat)
    requires n <= |frames|
    ensures Inputs(frames[..n]) <= Inputs(frames)
  {
    if n < |frames| {
      InputsPrefix(frames[..|frames| - 1], n);
      assert frames[..|frames| - 1][..n] == frames[..n];
    } else {
      assert frames[..n] == frames;
    }
  }

  /** One `recv` of a longer reception. */
  lemma ReceiveOne(stream: Bytes)
    ensures var all, r := ReceiveAll(stream, TakeClient), Receive(stream, TakeClient);
            if r.result.Ok? then
              && all.frames == [r.result.value] + ReceiveAll(r.rest, TakeClient).frames
              && Reception(all.frames[1..], all.error) == ReceiveAll(r.rest, TakeClient)
            else all == Reception([], r.result.error)
  {
    var r := Receive(stream, TakeClient);
    if r.result.Ok? {
      assert ([r.result.value] + ReceiveAll(r.rest, TakeClient).frames)[1..] == ReceiveAll(r.rest, TakeClient).frames;
    }
  }

  /** A channel whose receiver goes away once it has taken `limit` items, if ever:
      what is in it after `more` is sent. */
  function Admit<T>(items: seq<T>, more: seq<T>, limit: Option<nat>): seq<T> {
    if limit.None? || |items| + |more| <= limit.value then items + more
    else if |items| <= limit.value then items + more[..limit.value - |items|]
    else items
  }

  lemma AdmitTwice<T>(items: seq<T>, more: seq<T>, again: seq<T>, limit: Option<nat>)
    ensures Admit(Admit(items, more, limit), again, limit) == Admit(items, more + again, limit)
  {
  }

  /** A channel's sending end; sends to a gone receiver are dropped. */
  class Channel<T> {
    var items: seq<T>
    const limit: Option<nat>

    constructor (limit: Option<nat>)
      ensures items == [] && this.limit == limit
    {
      items := [];
      this.limit := limit;
    }

    method Send(x: T) returns (ok: bool)
      modifies this
      ensures ok == (limit.None? || |old(items)| < limit.value)
      ensures items == Admit(old(items), [x], limit) == old(items) + (if ok then [x] else [])
    {
      ok := limit.None? || |items| < limit.value;
      if ok {
        items := items + [x];
      }
    }
  }

  datatype Outcome = DetachedClient | ClosedByClient

  /** The session's queue, the out-of-band channel and the meter, as values. */
  datatype Effects = Effects(inputs: seq<SshInput>, inputLimit: Option<nat>, pongs: seq<ServerFrame>, oobLimit: Option<nat>,
                             bytesIn: nat, bytesOut: nat)
  {
    function With(inputs': seq<SshInput>, pongs': seq<ServerFrame>, bytes: nat): Effects {
      this.(inputs := Admit(inputs, inputs', inputLimit),
            pongs := Admit(pongs, pongs', oobLimit),
            bytesIn := bytesIn + bytes)
    }

    /** All that serving these frames changes. */
    function Serving(frames: seq<ClientFrame>): Effects { With(Inputs(frames), Pongs(frames), InputBytes(frames)) }

    lemma ServingOneMore(done: seq<ClientFrame>, f: ClientFrame)
      ensures Serving(done + [f]) == Serving(done).With(InputOf(f), PongOf(f), BytesOf(f))
    {
      assert (done + [f])[..|done|] == done;
      AdmitTwice(inputs, Inputs(done), InputOf(f), inputLimit);
      AdmitTwice(pongs, Pongs(done), PongOf(f), oobLimit);
    }
  }

  function Snapshot(input: Channel<SshInput>, oob: Channel<ServerFrame>, meter: UsageMeter): Effects
    reads input, oob, meter
  {
    Effects(input.items, input.limit, oob.items, oob.limit, meter.bytesIn, meter.bytesOut)
  }

  /** One turn of the loop, for a frame other than `Close`. */
  method Serve(f: ClientFrame, input: Channel<SshInput>, oob: Channel<ServerFrame>, meter: UsageMeter)
    modifies input, oob, meter
    ensures Snapshot(input, oob, meter) == old(Snapshot(input, oob, meter)).With(InputOf(f), PongOf(f), BytesOf(f))
  {
    match f
    case Input(bytes) =>
      meter.AddIn(|bytes|);
      var _ := input.Send(Keys(bytes));
    case Resize(cols, rows) =>
      var _ := input.Send(Resized(cols, rows));
    case Ping =>
      var _ := oob.Send(Pong);
    case _ =>
  }

  /** Where the loop is: `done` served, the rest of `all` still in the stream. */
  ghost predicate Progress(all: seq<ClientFrame>, done: seq<ClientFrame>, stream: Bytes) {
    all == done + ReceiveAll(stream, TakeClient).frames && Close !in done
  }

  lemma ProgressMade(all: seq<ClientFrame>, done: seq<ClientFrame>, stream: Bytes)
    requires Progress(all, done, stream)
    ensures var r := Receive(stream, TakeClient);
            && (r.result.Err? ==> BeforeClose(all) == done && Close !in all)
            && (r.result == Ok(Close) ==> BeforeClose(all) == done && Close in all)
            && (r.result.Ok? && r.result.value != Close ==> Progress(all, done + [r.result.value], r.rest))
  {
    ReceiveOne(stream);
    BeforeCloseSplits(done, ReceiveAll(stream, TakeClient).frames);
  }

  /** Serves the stream up to the first `Close` or error: `inputs` are forwarded and `pongs`
      queued, which is what the frames before it say, at the places `at`. */
  method ReceiverLoop(recv: FramedRecv, input: Channel<SshInput>, oob: Channel<ServerFrame>, meter: UsageMeter)
    returns (outcome: Outcome, ghost at: seq<nat>, ghost inputs: seq<SshInput>, ghost pongs: seq<ServerFrame>)
    modifies recv, input, oob, meter
    ensures var frames := ReceiveAll(old(recv.inner), TakeClient).frames;
            && outcome == (if Close in frames then ClosedByClient else DetachedClient)
            && meter.bytesIn >= old(meter.bytesIn) && meter.bytesOut == old(meter.bytesOut)
            && ComesTo(BeforeClose(frames), at, inputs, pongs, meter.bytesIn - old(meter.bytesIn))
            && inputs == Inputs(BeforeClose(frames))
    ensures input.items == Admit(old(input.items), inputs, input.limit)
    ensures oob.items == Admit(old(oob.items), pongs, oob.limit)
  {
    ghost var all := ReceiveAll(recv.inner, TakeClient).frames;
    ghost var done: seq<ClientFrame> := [];
    ghost var before := Snapshot(input, oob, meter);
    while true
      invariant Progress(all, done, recv.inner) && Snapshot(input, oob, meter) == before.Serving(done)
      decreases |recv.inner|
    {
      ProgressMade(all, done, recv.inner);
      var frame, _ := recv.Recv(TakeClient);
      if frame.Err? || frame.value.Close? {
        inputs, pongs := Inputs(done), Pongs(done);
        at := FramesSay(done);
        return if frame.Err? then DetachedClient else ClosedByClient, at, inputs, pongs;
      }
      before.ServingOneMore(done, frame.value);
      Serve(frame.value, input, oob, meter);
      done := done + [frame.value];
    }
  }

  // ------------------------------------------------------------------ sign

  /** Frames `sign` skips while it waits for the answer to request `id`. */
  predicate Skippable(f: ClientFrame, id: U64) { f.Ping? || (f.SignResponse? && f.id != id) }

  /** The first frame from `from` on that it does not skip. */
  function Next(frames: seq<ClientFrame>, id: U64, from: nat): (n: nat)
    requires from <= |frames|
    ensures from <= n <= |frames|
    decreases |frames| - from
  {
    if from == |frames| || !Skippable(frames[from], id) then from else Next(frames, id, from + 1)
  }

  lemma {:induction false} NextIsFirst(frames: seq<ClientFrame>, id: U64, from: nat)
    requires from <= |frames|
    ensures var n := Next(frames, id, from);
            && (forall p: nat :: from <= p < n ==> Skippable(frames[p], id))
            && (n < |frames| ==> !Skippable(frames[n], id))
    decreases |frames| - from
  {
    if from < |frames| && Skippable(frames[from], id) { NextIsFirst(frames, id, from + 1); }
  }

  datatype SignError = TransportLost(error: TransportError) | UnexpectedFrame(frame: ClientFrame)

  datatype Signed = Signature(bytes: Blob) | NotSigned(error: SignError)

  /** One `sign` call over what the client sends: the first response with its id,
      after skipping stale responses and pings; anything else is an error. */
  function Answer(incoming: Reception<ClientFrame>, id: U64): (Signed)
  {
    var n := Next(incoming.frames, id, 0);
    if n == |incoming.frames| then NotSigned(TransportLost(incoming.error))
    else if incoming.frames[n].SignResponse? then Signature(incoming.frames[n].signature)
    else NotSigned(UnexpectedFrame(incoming.frames[n]))
  }

  /** What it leaves to read when it stops at a frame. */
  function After(incoming: Reception<ClientFrame>, id: U64): Reception<ClientFrame>
    requires Next(incoming.frames, id, 0) < |incoming.frames|
  {
    Reception(incoming.frames[Next(incoming.frames, id, 0) + 1..], incoming.error)
  }

  /** Pings and responses to other requests are passed over, and nothing else: the first
      frame that is neither is the signature if it is the response, and an error with that
      frame if it is not; the call fails with the stream if there is none. */
  lemma AnswerIs(incoming: Reception<ClientFrame>, id: U64, n: nat)
    requires n <= |incoming.frames|
    requires forall p :: 0 <= p < n ==>
               incoming.frames[p].Ping? || (incoming.frames[p].SignResponse? && incoming.frames[p].id != id)
    requires n < |incoming.frames| ==>
               !incoming.frames[n].Ping? && (incoming.frames[n].SignResponse? ==> incoming.frames[n].id == id)
    ensures Answer(incoming, id) ==
              if n == |incoming.frames| then NotSigned(TransportLost(incoming.error))
              else if incoming.frames[n].SignResponse? then Signature(incoming.frames[n].signature)
              else NotSigned(UnexpectedFrame(incoming.frames[n]))
    ensures Next(incoming.frames, id, 0) == n
  {
    NextIsFirst(incoming.frames, id, 0);
    var m := Next(incoming.frames, id, 0);
    assert m < n ==> Skippable(incoming.frames[m], id);
    assert n < m ==> Skippable(incoming.frames[n], id);
  }

  class ControlSigner {
    const send: FramedSend
    const recv: FramedRecv
    var nextId: U64

    constructor (send: FramedSend, recv: FramedRecv)
      ensures this.send == send && this.recv == recv && nextId == 1
    {
      this.send, this.recv := send, recv;
      nextId := 1;
    }

    /** The request counter does not overflow. */
    method Sign(publicKey: Blob, toSign: Blob) returns (r: Signed)
      requires nextId < 0xFFFF_FFFF_FFFF_FFFF
      modifies this`nextId, send, recv
      ensures nextId == old(nextId) + 1
      ensures var request := EncodeServer(SignRequest(old(nextId), publicKey, toSign));
              var incoming := ReceiveAll(old(recv.inner), TakeClient);
              if |request| <= MAX_FRAME_LEN && LEN_PREFIX + |request| <= old(send.capacity) then
                && send.written == old(send.written) + Framed(request)
                && r == Answer(incoming, old(nextId))
                && (Next(incoming.frames, old(nextId), 0) < |incoming.frames| ==>
                      ReceiveAll(recv.inner, TakeClient) == After(incoming, old(nextId)))
              else
                r.NotSigned? && r.error.TransportLost? && recv.inner == old(recv.inner)
    {
      var id := nextId;
      nextId := nextId + 1;
      var sent := send.Send(SignRequest(id, publicKey, toSign), EncodeServer);
      if sent.Err? {
        return NotSigned(TransportLost(sent.error));
      }
      ghost var incoming := ReceiveAll(recv.inner, TakeClient);
      ghost var skipped: nat := 0;
      while true
        modifies recv
        invariant skipped <= |incoming.frames|
        invariant Next(incoming.frames, id, skipped) == Next(incoming.frames, id, 0)
        invariant ReceiveAll(recv.inner, TakeClient) == Reception(incoming.frames[skipped..], incoming.error)
        decreases |recv.inner|
      {
        ReceiveOne(recv.inner);
        var frame, _ := recv.Recv(TakeClient);
        if frame.Err? {
          return NotSigned(TransportLost(frame.error));
        }
        assert incoming.frames[skipped] == frame.value;
        assert incoming.frames[skipped..][1..] == incoming.frames[skipped + 1..];
        if frame.value.SignResponse? && frame.value.id == id {
          return Signature(frame.value.signature);
        }
        if !frame.value.SignResponse? && !frame.value.Ping? {
          return NotSigned(UnexpectedFrame(frame.value));
        }
        skipped := skipped + 1;
      }
    }
  }

  // ------------------------------------------------- any number of signings

  /** Where `n` requests, numbered from `id`, take their answers from, up to the
      first call that fails. */
  function Taken(frames: seq<ClientFrame>, id: U64, n: nat, from: nat): (at: seq<nat>)
    requires from <= |frames| && id + n < 0x1_0000_0000_0000_0000
    ensures |at| <= n
    decreases n
  {
    if n == 0 then []
    else
      var first := Next(frames, id, from);
      if first < |frames| && frames[first].SignResponse? then [first] + Taken(frames, id + 1, n - 1, first + 1)
      else []
  }

  /** Call `j` starts reading where call `j - 1` stopped. */
  function Start(at: seq<nat>, from: nat, j: nat): nat
    requires j < |at|
  {
    if j == 0 then from else at[j - 1] + 1
  }

  /** Call `j`, for request `id + j`, took its answer from its own response, after
      skipping only stale responses and pings. */
  ghost predicate Matches(frames: seq<ClientFrame>, id: nat, at: seq<nat>, from: nat, j: nat)
    requires j < |at|
  {
    && Start(at, from, j) <= at[j] < |frames|
    && frames[at[j]].SignResponse? && frames[at[j]].id == id + j
    && forall p: nat :: Start(at, from, j) <= p < at[j] ==>
         frames[p].Ping? || (frames[p].SignResponse? && frames[p].id != id + j)
  }

  ghost predicate AllMatch(frames: seq<ClientFrame>, id: nat, at: seq<nat>, from: nat) {
    forall j: nat :: j < |at| ==> Matches(frames, id, at, from, j)
  }

  lemma AllMatchMore(frames: seq<ClientFrame>, id: nat, first: nat, later: seq<nat>, from: nat)
    requires AllMatch(frames, id + 1, later, first + 1) && Matches(frames, id, [first] + later, from, 0)
    ensures AllMatch(frames, id, [first] + later, from)
  {
    var at := [first] + later;
    forall j: nat | j < |at| ensures Matches(frames, id, at, from, j) {
      if j > 0 {
        assert Matches(frames, id + 1, later, first + 1, j - 1);
        assert Start(at, from, j) == Start(later, first + 1, j - 1);
      }
    }
  }

  lemma FirstMatches(frames: seq<ClientFrame>, id: U64, from: nat, at: seq<nat>)
    requires from <= |frames| && |at| > 0 && at[0] == Next(frames, id, from)
    requires at[0] < |frames| && frames[at[0]].SignResponse?
    ensures Matches(frames, id, at, from, 0)
  {
    NextIsFirst(frames, id, from);
  }

  /** Over any number of calls, each answer is the response to its own request and
      is taken further on than the one before. */
  lemma {:induction false} AnswersMatch(frames: seq<ClientFrame>, id: U64, n: nat, from: nat)
    requires from <= |frames| && id + n < 0x1_0000_0000_0000_0000
    ensures AllMatch(frames, id, Taken(frames, id, n, from), from)
    decreases n
  {
    if n > 0 {
      var first := Next(frames, id, from);
      if first < |frames| && frames[first].SignResponse? {
        AnswersMatch(frames, id + 1, n - 1, first + 1);
        var later := Taken(frames, id + 1, n - 1, first + 1);
        FirstMatches(frames, id, from, [first] + later);
        AllMatchMore(frames, id, first, later, from);
      }
    }
  }

  // -------------------------------------------------------- chained calls

  /** `rest` is what follows in `frames` from `from` on. */
  ghost predicate IsRest(rest: seq<ClientFrame>, frames: seq<ClientFrame>, from: nat) {
    from + |rest| == |frames| && forall p: nat :: p < |rest| ==> rest[p] == frames[from + p]
  }

  /** Looking on from `from` is looking from the start of what is left. */
  lemma {:induction false} NextShift(frames: seq<ClientFrame>, rest: seq<ClientFrame>, id: U64, from: nat, k: nat)
    requires IsRest(rest, frames, from) && k <= |rest|
    ensures Next(frames, id, from + k) == from + Next(rest, id, k)
    decreases |rest| - k
  {
    if k < |rest| && Skippable(rest[k], id) { NextShift(frames, rest, id, from, k + 1); }
  }

  /** What call `j` returned, and what it left to the next one if there was one. */
  ghost predicate Linked(ahead: seq<Reception<ClientFrame>>, answers: seq<Signed>, id: nat, j: nat)
    requires j < |answers| == |ahead| && id + j < 0x1_0000_0000_0000_0000
  {
    && answers[j] == Answer(ahead[j], id + j)
    && (j + 1 < |answers| ==>
          && answers[j].Signature? && Next(ahead[j].frames, id + j, 0) < |ahead[j].frames|
          && ahead[j + 1] == After(ahead[j], id + j))
  }

  /** `ahead` and `answers` are what successive calls of `Sign` whose requests went out,
      numbered from `id`, had to read and returned, up to the first that failed. */
  ghost predicate Chained(ahead: seq<Reception<ClientFrame>>, answers: seq<Signed>, id: nat, n: nat) {
    && id + n < 0x1_0000_0000_0000_0000
    && |answers| == |ahead| <= n
    && (forall j: nat :: j < |answers| ==> Linked(ahead, answers, id, j))
    && (|answers| < n ==> |answers| > 0 && answers[|answers| - 1].NotSigned?)
  }

  /** One call over what is left of `frames` from `from`. */
  lemma AnswerFrom(incoming: Reception<ClientFrame>, frames: seq<ClientFrame>, id: U64, from: nat)
    requires IsRest(incoming.frames, frames, from)
    ensures var first := Next(frames, id, from);
            && (Answer(incoming, id).Signature? <==> first < |frames| && frames[first].SignResponse?)
            && (first < |frames| && frames[first].SignResponse? ==> Answer(incoming, id) == Signature(frames[first].signature))
            && (Next(incoming.frames, id, 0) < |incoming.frames| ==> IsRest(After(incoming, id).frames, frames, first + 1))
  {
    NextShift(frames, incoming.frames, id, from, 0);
  }

  /** From call `k` on the answers are the signatures at the positions `at`, and then
      one failure if fewer than `n`. */
  ghost predicate Collects(answers: seq<Signed>, k: nat, frames: seq<ClientFrame>, at: seq<nat>, n: nat) {
    && |at| <= n && |answers| - k == (if |at| == n then n else |at| + 1)
    && (forall j: nat :: j < |at| ==>
          at[j] < |frames| && frames[at[j]].SignResponse? && answers[k + j] == Signature(frames[at[j]].signature))
    && (|at| < n ==> answers[k + |at|].NotSigned?)
  }

  lemma CollectsMore(answers: seq<Signed>, k: nat, frames: seq<ClientFrame>, first: nat, later: seq<nat>, n: nat)
    requires n > 0 && |answers| > k && first < |frames| && frames[first].SignResponse?
    requires answers[k] == Signature(frames[first].signature) && Collects(answers, k + 1, frames, later, n - 1)
    ensures Collects(answers, k, frames, [first] + later, n)
  {
    var at := [first] + later;
    forall j: nat | j < |at|
      ensures at[j] < |frames| && frames[at[j]].SignResponse? && answers[k + j] == Signature(frames[at[j]].signature)
    {
      if j > 0 { assert at[j] == later[j - 1] && answers[k + j] == answers[k + 1 + (j - 1)]; }
    }
  }

  /** What one link of the chain gives. */
  lemma Link(ahead: seq<Reception<ClientFrame>>, answers: seq<Signed>, frames: seq<ClientFrame>,
             id: nat, n: nat, k: nat, from: nat)
    requires Chained(ahead, answers, id, n) && k < |ahead| && from <= |frames| && IsRest(ahead[k].frames, frames, from)
    ensures var first := Next(frames, id + k, from);
            && (answers[k].Signature? <==> first < |frames| && frames[first].SignResponse?)
            && (answers[k].Signature? ==> answers[k] == Signature(frames[first].signature))
            && (k + 1 < |ahead| ==> answers[k].Signature? && IsRest(ahead[k + 1].frames, frames, first + 1))
            && (k + 1 == |ahead| < n ==> answers[k].NotSigned?)
  {
    AnswerFrom(ahead[k], frames, id + k, from);
    assert Linked(ahead, answers, id, k);
  }

  lemma {:induction false} ChainedFrom(ahead: seq<Reception<ClientFrame>>, answers: seq<Signed>, frames: seq<ClientFrame>,
                                       id: nat, n: nat, k: nat, from: nat)
    requires Chained(ahead, answers, id, n) && k <= |answers| && (k == |answers| ==> k == n) && from <= |frames|
    requires k < |ahead| ==> IsRest(ahead[k].frames, frames, from)
    ensures Collects(answers, k, frames, Taken(frames, id + k, n - k, from), n - k)
    decreases n - k
  {
    if k < |answers| {
      Link(ahead, answers, frames, id, n, k, from);
      var first := Next(frames, id + k, from);
      if answers[k].Signature? {
        ChainedFrom(ahead, answers, frames, id, n, k + 1, first + 1);
        TakesOne(answers, frames, id + k, n - k, k, from);
      } else {
        TakenOne(frames, id + k, n - k, from);
      }
    }
  }

  lemma TakesOne(answers: seq<Signed>, frames: seq<ClientFrame>, id: U64, n: nat, k: nat, from: nat)
    requires from <= |frames| && n > 0 && id + n < 0x1_0000_0000_0000_0000 && k < |answers|
    requires var first := Next(frames, id, from);
             && first < |frames| && frames[first].SignResponse? && answers[k] == Signature(frames[first].signature)
             && Collects(answers, k + 1, frames, Taken(frames, id + 1, n - 1, first + 1), n - 1)
    ensures Collects(answers, k, frames, Taken(frames, id, n, from), n)
  {
    TakenOne(frames, id, n, from);
    var first := Next(frames, id, from);
    CollectsMore(answers, k, frames, first, Taken(frames, id + 1, n - 1, first + 1), n);
  }

  lemma TakenOne(frames: seq<ClientFrame>, id: U64, n: nat, from: nat)
    requires from <= |frames| && n > 0 && id + n < 0x1_0000_0000_0000_0000
    ensures var first := Next(frames, id, from);
            Taken(frames, id, n, from)
            == if first < |frames| && frames[first].SignResponse? then [first] + Taken(frames, id + 1, n - 1, first + 1) else []
  {
  }

  /** Of `n` chained calls over `frames`, those that succeed return the signatures at
      the positions in `Taken`, one each; the next one fails. */
  lemma ChainedTaken(ahead: seq<Reception<ClientFrame>>, answers: seq<Signed>, frames: seq<ClientFrame>, id: nat, n: nat)
    requires Chained(ahead, answers, id, n) && (|ahead| > 0 ==> ahead[0].frames == frames)
    ensures Collects(answers, 0, frames, Taken(frames, id, n, 0), n)
  {
    ChainedFrom(ahead, answers, frames, id, n, 0, 0);
  }
}
