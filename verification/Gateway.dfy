/** The parts put together: the constants of three crates fit, and keystrokes reach the
    SSH channel in the order each client typed them, from the bytes of its stream on. */
module Gateway {
  import opened Frames
  import opened Codec
  import opened Framing
  import opened Places
  import opened Scrollback
  import Readers
  import Delivery
  import opened Quota
  import Receiver
  import Sender
  import opened SshActor
  import Keystrokes

  /** With the default scrollback, every chunk any reader ever gets passes the
      throttle after at most one sleep, and its frame is within the frame cap. */
  lemma ChunksAreSendable(run: seq<Readers.State>, acts: seq<Readers.Action>, i: nat, r: Readers.ReaderId,
                          e: Readers.Event, b: Bucket, late: nat -> real)
    requires Delivery.IsRun(run, acts) && i < |run| && r in run[i].readers
    requires run[0].inner.maxBytes == DEFAULT_SCROLLBACK_BYTES
    requires e in run[i].readers[r].log && e.Took?
    requires b.Valid() && b.capacity == Sender.BANDWIDTH_BURST as real && forall k: nat :: late(k) >= 0.0
    ensures |e.bytes| <= DEFAULT_SCROLLBACK_BYTES <= Sender.BANDWIDTH_BURST
    ensures Granted(b, |e.bytes|, late, 0) || Granted(b, |e.bytes|, late, 1)
    ensures |EncodeServer(Output(e.bytes))| <= MAX_FRAME_LEN
  {
    Delivery.RunKeepsInv(run, acts, i);
    var rd := run[i].readers[r];
    Delivery.ChunkBound(rd.log, run[i].history, rd.cursor, run[i].inner.maxBytes);
    ThrottleReturnsIff(b, |e.bytes|, late);
    OutputOverhead(e.bytes);
  }

  /** What a handler receives of frames whose stream is cut after `cut` bytes. */
  ghost function Received(frames: seq<ClientFrame>, cut: nat): seq<ClientFrame>
    requires forall i :: 0 <= i < |frames| ==> |EncodeClient(frames[i])| <= MAX_FRAME_LEN
    requires cut <= |Stream(frames, EncodeClient)|
  {
    ReceiveAll(Stream(frames, EncodeClient)[..cut], TakeClient).frames
  }

  /** However the stream is cut, and wherever the client closes, what is forwarded
      is a prefix of the inputs it sent. */
  lemma ForwardsAPrefix(frames: seq<ClientFrame>, cut: nat)
    requires forall i :: 0 <= i < |frames| ==> |EncodeClient(frames[i])| <= MAX_FRAME_LEN
    requires cut <= |Stream(frames, EncodeClient)|
    ensures Keystrokes.Typed(Received(frames, cut)) <= Receiver.Inputs(frames) && Received(frames, cut) <= frames
  {
    var n := Whole(frames, EncodeClient, cut);
    assert Received(frames, cut) == frames[..n] by {
      ClientsAreSendable(frames);
      CutStream(frames, EncodeClient, TakeClient, cut);
    }
    ServedPrefix(frames, n);
  }

  lemma ServedPrefix(frames: seq<ClientFrame>, n: nat)
    requires n <= |frames|
    ensures Keystrokes.Typed(frames[..n]) <= Receiver.Inputs(frames)
  {
    Receiver.BeforeCloseIsPrefix(frames[..n]);
    var served := Receiver.BeforeClose(frames[..n]);
    assert served == frames[..|served|];
    Receiver.InputsPrefix(frames, |served|);
  }

  /** A client sends `frames`, its stream is cut anywhere, and its handler works beside
      any number of others. In every run, what has been done on the SSH channel for
      that client is what the first `n` frames it sent say, one for one and in order. */
  lemma KeystrokesInOrder(run: seq<Keystrokes.State>, acts: seq<Keystrokes.Action>, i: nat, c: Keystrokes.ClientId,
                          frames: seq<ClientFrame>, cut: nat)
    returns (at: seq<nat>, n: nat)
    requires Keystrokes.IsRun(run, acts) && i < |run|
    requires forall k :: 0 <= k < |frames| ==> |EncodeClient(frames[k])| <= MAX_FRAME_LEN
    requires cut <= |Stream(frames, EncodeClient)|
    requires c in run[i].streams && run[i].streams[c] == Received(frames, cut)
    ensures |run[i].owners| == |run[i].actor.applied|
    ensures Keystrokes.AppliedFor(run[i].actor.applied, run[i].owners, c) <= Ops(Receiver.Inputs(frames))
    ensures Keystrokes.Serves(Keystrokes.AppliedFor(run[i].actor.applied, run[i].owners, c), at, n, frames)
  {
    at, n := Keystrokes.KeystrokesInOrder(run, acts, i, c);
    ForwardsAPrefix(frames, cut);
    Keystrokes.OpsPrefix(Keystrokes.Typed(run[i].streams[c]), Receiver.Inputs(frames));
    SentServes(Keystrokes.AppliedFor(run[i].actor.applied, run[i].owners, c), at, n, run[i].streams[c], frames);
  }

  lemma SentServes(ops: seq<ChannelOp>, at: seq<nat>, n: nat, received: seq<ClientFrame>, frames: seq<ClientFrame>)
    requires Keystrokes.Serves(ops, at, n, received) && received <= frames
    ensures Keystrokes.Serves(ops, at, n, frames)
  {
    assert frames[..n] == received[..n];
    ListsSame(ops, at, n, Keystrokes.DoneBy(received), Keystrokes.DoneBy(frames));
  }
}
