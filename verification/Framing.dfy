/** Length-prefixed frames over a byte stream: `encode_framed` of `gw-proto` and the
    `FramedSend` / `FramedRecv` halves of `gw-transport`. A stream is the ordered
    byte sequence still to be read; it may end anywhere. */
module Framing {
  import opened Frames
  import opened Codec

  const LEN_PREFIX := 4
  const MAX_FRAME_LEN := 8 * 1024 * 1024

  datatype TransportError = Truncated | FrameTooLarge(n: nat) | Undecodable(error: DecodeError) | WriteFailed

  datatype Result<+T> = Ok(value: T) | Err(error: TransportError)

  function ToBe32(n: U32): Bytes {
    [n / 0x100_0000, n / 0x1_0000 % 0x100, n / 0x100 % 0x100, n % 0x100]
  }

  function FromBe32(b: Bytes): U32
    requires |b| == LEN_PREFIX
  {
    0x100_0000 * (b[0] as int) + 0x1_0000 * (b[1] as int) + 0x100 * (b[2] as int) + b[3] as int
  }

  lemma Be32RoundTrip(n: U32)
    ensures FromBe32(ToBe32(n)) == n
  {
    assert n / 0x1_0000 == n / 0x100 / 0x100 && n / 0x100_0000 == n / 0x100 / 0x100 / 0x100;
  }

  /** The four bytes are the base-256 digits, the most significant first, and no other
      bytes stand for the number. */
  lemma Be32Places(n: U32, b: Bytes)
    requires |b| == 4
    ensures b == ToBe32(n) <==> n == 0x100_0000 * (b[0] as int) + 0x1_0000 * (b[1] as int) + 0x100 * (b[2] as int) + b[3] as int
    ensures b == ToBe32(n) <==> n == FromBe32(b)
  {
    Be32RoundTrip(n);
    DigitsAreUnique(b);
  }

  lemma DigitsAreUnique(b: Bytes)
    requires |b| == 4
    ensures ToBe32(FromBe32(b)) == b
  {
    var n := FromBe32(b);
    var second := 0x100 * (b[0] as int) + b[1] as int;
    var third := 0x100 * second + b[2] as int;
    assert n == 0x100 * third + b[3] as int && n / 0x100 == third && n / 0x1_0000 == second && n / 0x100_0000 == b[0];
  }

  /** A body with its length in front. */
  function Framed(body: Bytes): Bytes
    requires |body| <= MAX_FRAME_LEN
  {
    ToBe32(|body|) + body
  }

  // ------------------------------------------------- what a stream carries

  /** One `recv`: its result, and the bytes left unread. */
  datatype Received<+T> = Received(result: Result<T>, rest: Bytes)

  function Receive<T>(stream: Bytes, take: Bytes -> Parse<T>): (r: Received<T>)
    ensures r.result.Ok? ==> |r.rest| < |stream|
  {
    if |stream| < LEN_PREFIX then Received(Err(Truncated), [])
    else
      var n := FromBe32(stream[..LEN_PREFIX]);
      var after := stream[LEN_PREFIX..];
      if n > MAX_FRAME_LEN then Received(Err(FrameTooLarge(n)), after)
      else if |after| < n then Received(Err(Truncated), [])
      else match Decode(after[..n], take)
        case Took(f, _) => Received(Ok(f), after[n..])
        case Fail(e) => Received(Err(Undecodable(e)), after[n..])
  }

  /** A frame is received exactly off a length, no more than the cap, and a body of that
      length that decodes to it. */
  lemma ReceivesIff<T>(stream: Bytes, take: Bytes -> Parse<T>, f: T, rest: Bytes)
    ensures Receive(stream, take) == Received(Ok(f), rest)
       <==> exists body: Bytes ::
              |body| <= MAX_FRAME_LEN && stream == Framed(body) + rest && Decode(body, take) == Took(f, [])
  {
    if Receive(stream, take) == Received(Ok(f), rest) {
      var body := ReceivedBody(stream, take, f, rest);
    }
    if body: Bytes :| |body| <= MAX_FRAME_LEN && stream == Framed(body) + rest && Decode(body, take) == Took(f, []) {
      ReceiveBody(body, take, rest);
    }
  }

  /** And what else `recv` can run into: a stream that ends in the length or in the body, and
      a length above the cap, which leaves the body unread. */
  lemma ReceiveFails<T>(n: U32, rest: Bytes, take: Bytes -> Parse<T>)
    ensures n > MAX_FRAME_LEN ==> Receive(ToBe32(n) + rest, take) == Received(Err(FrameTooLarge(n)), rest)
    ensures |rest| < n <= MAX_FRAME_LEN ==> Receive(ToBe32(n) + rest, take) == Received(Err(Truncated), [])
    ensures |rest| < 4 ==> Receive(rest, take) == Received(Err(Truncated), [])
  {
    var stream := ToBe32(n) + rest;
    assert stream[..LEN_PREFIX] == ToBe32(n) && stream[LEN_PREFIX..] == rest;
    Be32RoundTrip(n);
  }

  lemma ReceivedBody<T>(stream: Bytes, take: Bytes -> Parse<T>, f: T, rest: Bytes) returns (body: Bytes)
    requires Receive(stream, take) == Received(Ok(f), rest)
    ensures |body| <= MAX_FRAME_LEN && stream == Framed(body) + rest && Decode(body, take) == Took(f, [])
  {
    var prefix, after := stream[..LEN_PREFIX], stream[LEN_PREFIX..];
    var n := FromBe32(prefix);
    body := after[..n];
    DigitsAreUnique(prefix);
    assert stream == prefix + after && after == body + rest;
    Regroup(prefix, body, rest);
  }

  lemma ReceiveBody<T>(body: Bytes, take: Bytes -> Parse<T>, rest: Bytes)
    requires |body| <= MAX_FRAME_LEN
    ensures Receive(Framed(body) + rest, take)
         == match Decode(body, take)
            case Took(f, _) => Received(Ok(f), rest)
            case Fail(e) => Received(Err(Undecodable(e)), rest)
  {
    var stream := Framed(body) + rest;
    assert stream[..LEN_PREFIX] == ToBe32(|body|);
    Be32RoundTrip(|body|);
    assert stream[LEN_PREFIX..] == body + rest;
    assert (body + rest)[..|body|] == body && (body + rest)[|body|..] == rest;
  }

  /** Everything repeated `recv` yields up to and including its first error. */
  datatype Reception<+T> = Reception(frames: seq<T>, error: TransportError)

  function ReceiveAll<T>(stream: Bytes, take: Bytes -> Parse<T>): Reception<T>
    decreases |stream|
  {
    match Receive(stream, take)
    case Received(Ok(f), rest) =>
      var later := ReceiveAll(rest, take);
      Reception([f] + later.frames, later.error)
    case Received(Err(e), _) => Reception([], e)
  }

  /** `take` undoes `encode` on the given frames, and each of them fits the cap. */
  ghost predicate Sendable<T>(frames: seq<T>, encode: T -> Bytes, take: Bytes -> Parse<T>) {
    forall i :: 0 <= i < |frames| ==>
      |encode(frames[i])| <= MAX_FRAME_LEN && Decode(encode(frames[i]), take) == Took(frames[i], [])
  }

  /** The bytes `send` writes for these frames. */
  ghost function Stream<T>(frames: seq<T>, encode: T -> Bytes): Bytes
    requires forall i :: 0 <= i < |frames| ==> |encode(frames[i])| <= MAX_FRAME_LEN
  {
    if frames == [] then [] else Framed(encode(frames[0])) + Stream(frames[1..], encode)
  }

  lemma ReceiveFramed<T>(f: T, encode: T -> Bytes, take: Bytes -> Parse<T>, tail: Bytes)
    requires Sendable([f], encode, take)
    ensures |encode([f][0])| <= MAX_FRAME_LEN
    ensures Receive(Framed(encode(f)) + tail, take) == Received(Ok(f), tail)
  {
    assert [f][0] == f;
    ReceiveBody(encode(f), take, tail);
  }

  lemma ReceiveCut(body: Bytes, k: nat)
    requires |body| <= MAX_FRAME_LEN && k < |Framed(body)|
    ensures var cut := Framed(body)[..k];
            && (k >= LEN_PREFIX ==> FromBe32(cut[..LEN_PREFIX]) == |body| && |cut[LEN_PREFIX..]| < |body|)
  {
    if k >= LEN_PREFIX {
      assert Framed(body)[..k][..LEN_PREFIX] == ToBe32(|body|);
      Be32RoundTrip(|body|);
    }
  }

  lemma NothingWhole<T>(body: Bytes, take: Bytes -> Parse<T>, k: nat)
    requires |body| <= MAX_FRAME_LEN && k < |Framed(body)|
    ensures ReceiveAll(Framed(body)[..k], take) == Reception([], Truncated)
  {
    ReceiveCut(body, k);
  }

  /** How many of the frames arrive whole when the stream is cut after `k` bytes. */
  ghost function Whole<T>(frames: seq<T>, encode: T -> Bytes, k: nat): (n: nat)
    requires forall i :: 0 <= i < |frames| ==> |encode(frames[i])| <= MAX_FRAME_LEN
    ensures n <= |frames|
  {
    if frames == [] || k < |Framed(encode(frames[0]))| then 0
    else 1 + Whole(frames[1..], encode, k - |Framed(encode(frames[0]))|)
  }

  /** They are the longest prefix whose bytes all lie before the cut. */
  lemma {:induction false} WholeIsLongestPrefix<T>(frames: seq<T>, encode: T -> Bytes, k: nat)
    requires forall i :: 0 <= i < |frames| ==> |encode(frames[i])| <= MAX_FRAME_LEN
    ensures var n := Whole(frames, encode, k);
            && |Stream(frames[..n], encode)| <= k
            && (n < |frames| ==> k < |Stream(frames[..n + 1], encode)|)
  {
    if frames != [] {
      var head := |Framed(encode(frames[0]))|;
      assert frames[..1] == [frames[0]] && Stream(frames[..1], encode) == Framed(encode(frames[0])) + [];
      if k >= head {
        WholeIsLongestPrefix(frames[1..], encode, k - head);
        var n := Whole(frames, encode, k);
        assert frames[..n][1..] == frames[1..][..n - 1];
        assert n < |frames| ==> frames[..n + 1][1..] == frames[1..][..n];
      }
    }
  }

  /** However a stream of frames is cut, the reader gets exactly the frames that
      arrived whole and then a truncation error: never another frame. */
  lemma {:induction false} CutStream<T>(frames: seq<T>, encode: T -> Bytes, take: Bytes -> Parse<T>, k: nat)
    requires Sendable(frames, encode, take) && k <= |Stream(frames, encode)|
    ensures ReceiveAll(Stream(frames, encode)[..k], take)
         == Reception(frames[..Whole(frames, encode, k)], Truncated)
  {
    if frames != [] {
      var head := |Framed(encode(frames[0]))|;
      if k < head {
        CutFirst(frames, encode, take, k);
      } else {
        CutStream(frames[1..], encode, take, k - head);
        var n := Whole(frames[1..], encode, k - head);
        CutRest(frames, encode, take, k, frames[1..][..n]);
        FirstAndMore(frames, n);
      }
    }
  }

  lemma CutFirst<T>(frames: seq<T>, encode: T -> Bytes, take: Bytes -> Parse<T>, k: nat)
    requires frames != [] && Sendable(frames, encode, take) && k < |Framed(encode(frames[0]))|
    ensures k <= |Stream(frames, encode)| && ReceiveAll(Stream(frames, encode)[..k], take) == Reception([], Truncated)
  {
    TakeWithin(Framed(encode(frames[0])), Stream(frames[1..], encode), k);
    NothingWhole(encode(frames[0]), take, k);
  }

  /** The first frame arrives whole, and `later` follow. */
  lemma CutRest<T>(frames: seq<T>, encode: T -> Bytes, take: Bytes -> Parse<T>, k: nat, later: seq<T>)
    requires frames != [] && Sendable(frames, encode, take)
    requires |Framed(encode(frames[0]))| <= k <= |Stream(frames, encode)|
    requires ReceiveAll(Stream(frames[1..], encode)[..k - |Framed(encode(frames[0]))|], take) == Reception(later, Truncated)
    ensures ReceiveAll(Stream(frames, encode)[..k], take) == Reception([frames[0]] + later, Truncated)
  {
    var head := Framed(encode(frames[0]));
    TakePast(head, Stream(frames[1..], encode), k);
    FirstReceived(frames[0], encode, take, Stream(frames[1..], encode)[..k - |head|]);
  }

  lemma TakePast(head: Bytes, tail: Bytes, k: nat)
    requires |head| <= k <= |head| + |tail|
    ensures (head + tail)[..k] == head + tail[..k - |head|]
  {
  }

  lemma TakeWithin(head: Bytes, tail: Bytes, k: nat)
    requires k <= |head|
    ensures (head + tail)[..k] == head[..k]
  {
  }

  lemma FirstReceived<T>(f: T, encode: T -> Bytes, take: Bytes -> Parse<T>, rest: Bytes)
    requires Sendable([f], encode, take)
    ensures |encode([f][0])| <= MAX_FRAME_LEN
    ensures var later := ReceiveAll(rest, take);
            ReceiveAll(Framed(encode(f)) + rest, take) == Reception([f] + later.frames, later.error)
  {
    ReceiveFramed(f, encode, take, rest);
  }

  lemma FirstAndMore<T>(frames: seq<T>, n: nat)
    requires n < |frames|
    ensures [frames[0]] + frames[1..][..n] == frames[..n + 1]
  {
  }

  /** An uncut stream yields every frame, in order, and then ends. */
  lemma StreamRoundTrip<T>(frames: seq<T>, encode: T -> Bytes, take: Bytes -> Parse<T>)
    requires Sendable(frames, encode, take)
    ensures ReceiveAll(Stream(frames, encode), take) == Reception(frames, Truncated)
  {
    var stream := Stream(frames, encode);
    assert stream[..|stream|] == stream && frames[..|frames|] == frames;
    AllWhole(frames, encode);
    CutStream(frames, encode, take, |stream|);
  }

  lemma {:induction false} AllWhole<T>(frames: seq<T>, encode: T -> Bytes)
    requires forall i :: 0 <= i < |frames| ==> |encode(frames[i])| <= MAX_FRAME_LEN
    ensures Whole(frames, encode, |Stream(frames, encode)|) == |frames|
  {
    if frames != [] { AllWhole(frames[1..], encode); }
  }

  lemma {:induction false} StreamConcat<T>(a: seq<T>, b: seq<T>, encode: T -> Bytes)
    requires forall f :: f in a + b ==> |encode(f)| <= MAX_FRAME_LEN
    ensures forall i :: 0 <= i < |a| ==> |encode(a[i])| <= MAX_FRAME_LEN
    ensures forall i :: 0 <= i < |b| ==> |encode(b[i])| <= MAX_FRAME_LEN
    ensures forall i :: 0 <= i < |a + b| ==> |encode((a + b)[i])| <= MAX_FRAME_LEN
    ensures Stream(a + b, encode) == Stream(a, encode) + Stream(b, encode)
  {
    assert forall f :: f in a || f in b ==> f in a + b;
    if a == [] {
      assert a + b == b;
    } else {
      assert (a + b)[1..] == a[1..] + b;
      StreamConcat(a[1..], b, encode);
    }
  }

  /** Both frame types of the protocol travel this way. */
  lemma ClientsAreSendable(frames: seq<ClientFrame>)
    requires forall i :: 0 <= i < |frames| ==> |EncodeClient(frames[i])| <= MAX_FRAME_LEN
    ensures Sendable(frames, EncodeClient, TakeClient)
  {
    CodecRoundTrip();
    assert forall i :: 0 <= i < |frames| ==> DecodeClient(EncodeClient(frames[i])) == Took(frames[i], []);
  }

  lemma ServersAreSendable(frames: seq<ServerFrame>)
    requires forall i :: 0 <= i < |frames| ==> |EncodeServer(frames[i])| <= MAX_FRAME_LEN
    ensures Sendable(frames, EncodeServer, TakeServer)
  {
    CodecRoundTrip();
    assert forall i :: 0 <= i < |frames| ==> DecodeServer(EncodeServer(frames[i])) == Took(frames[i], []);
  }

  // ------------------------------------------------------ the stream halves

  method EncodeFramed<T>(frame: T, encode: T -> Bytes) returns (r: Result<Bytes>)
    ensures var body := encode(frame);
            r == if |body| > MAX_FRAME_LEN then Err(FrameTooLarge(|body|)) else Ok(Framed(body))
  {
    var body := encode(frame);
    if |body| > MAX_FRAME_LEN {
      return Err(FrameTooLarge(|body|));
    }
    var out: Bytes := [];
    out := out + ToBe32(|body|);
    out := out + body;
    assert out == Framed(body);
    return Ok(out);
  }

  /** The write half. `capacity` bytes can still be written before the peer is
      gone; a write that does not fit fails after writing what fits. */
  class FramedSend {
    var written: Bytes
    var capacity: nat

    constructor (capacity: nat)
      ensures written == [] && this.capacity == capacity
    {
      written, this.capacity := [], capacity;
    }

    method WriteAll(bytes: Bytes) returns (ok: bool)
      modifies this
      ensures ok <==> |bytes| <= old(capacity)
      ensures ok ==> written == old(written) + bytes && capacity == old(capacity) - |bytes|
      ensures !ok ==> written == old(written) + bytes[..old(capacity)] && capacity == 0
    {
      ok := |bytes| <= capacity;
      var n := if ok then |bytes| else capacity;
      written, capacity := written + bytes[..n], capacity - n;
    }

    method Send<T>(frame: T, encode: T -> Bytes) returns (r: Result<()>)
      modifies this
      ensures |encode(frame)| > MAX_FRAME_LEN ==>
                r == Err(FrameTooLarge(|encode(frame)|)) && written == old(written) && capacity == old(capacity)
      ensures |encode(frame)| <= MAX_FRAME_LEN ==>
                var bytes := Framed(encode(frame));
                if |bytes| <= old(capacity) then
                  r == Ok(()) && written == old(written) + bytes && capacity == old(capacity) - |bytes|
                else
                  r == Err(WriteFailed) && written == old(written) + bytes[..old(capacity)] && capacity == 0
    {
      var framed := EncodeFramed(frame, encode);
      match framed
      case Err(e) => r := Err(e);
      case Ok(bytes) =>
        var ok := WriteAll(bytes);
        r := if ok then Ok(()) else Err(WriteFailed);
    }
  }

  /** The read half: `inner` is what the peer's stream still holds. */
  class FramedRecv {
    var inner: Bytes

    constructor (inner: Bytes)
      ensures this.inner == inner
    {
      this.inner := inner;
    }

    /** Fill `buf` from the stream; a stream that ends first is drained. */
    method ReadExact(buf: array<Byte>) returns (ok: bool)
      modifies this, buf
      ensures ok <==> buf.Length <= |old(inner)|
      ensures ok ==> buf[..] == old(inner)[..buf.Length] && inner == old(inner)[buf.Length..]
      ensures !ok ==> inner == []
    {
      ok := buf.Length <= |inner|;
      if ok {
        forall i | 0 <= i < buf.Length {
          buf[i] := inner[i];
        }
        inner := inner[buf.Length..];
      } else {
        inner := [];
      }
    }

    /** `bodyLen` is the size of the body buffer this call asked for. */
    method Recv<T>(take: Bytes -> Parse<T>) returns (r: Result<T>, bodyLen: nat)
      modifies this
      ensures Receive(old(inner), take) == Received(r, inner)
      ensures bodyLen <= MAX_FRAME_LEN
    {
      var stream := inner;
      bodyLen := 0;
      var len := new Byte[LEN_PREFIX];
      var ok := ReadExact(len);
      if !ok {
        return Err(Truncated), bodyLen;
      }
      var n := FromBe32(len[..]);
      if n > MAX_FRAME_LEN {
        return Err(FrameTooLarge(n)), bodyLen;
      }
      bodyLen := n;
      var body := new Byte[bodyLen];
      ok := ReadExact(body);
      if !ok {
        return Err(Truncated), bodyLen;
      }
      match Decode(body[..], take)
      case Took(f, _) => r := Ok(f);
      case Fail(e) => r := Err(Undecodable(e));
    }
  }
}
