/** `encode` and `decode` of `gw-proto`, over the byte format of the Postcard wire
    format specification (sections "Varint Encoded Integers" and "Tagged Unions").

    Every writer `PutX(v, tail)` puts the encoding of `v` in front of `tail`, and
    every reader `TakeX(s)` splits a value off the front of `s`. A reader undoes
    its writer whatever follows, so values compose into frames by nesting. */
module Codec {
  import opened Frames

  datatype DecodeError = UnexpectedEnd | BadVarint | BadBool | BadUtf8 | BadOption | UnknownVariant

  /** Result of reading a value off the front of a byte string. */
  datatype Parse<+T> = Took(value: T, rest: Bytes) | Fail(error: DecodeError) {
    predicate IsFailure() { Fail? }

    function PropagateFailure<U>(): Parse<U>
      requires Fail?
    {
      Fail(error)
    }

    function Extract(): (T, Bytes)
      requires Took?
    {
      (value, rest)
    }
  }

  // ---------------------------------------------------------------- varints

  /** Base-128 groups, least significant first, the high bit marking "more". */
  function PutVarint(n: nat, tail: Bytes): Bytes {
    if n < 0x80 then [n] + tail else [0x80 + n % 0x80] + PutVarint(n / 0x80, tail)
  }

  /** One more than the largest number `groups` groups can carry when the last of
      them may not exceed `top`. */
  function Cap(groups: nat, top: Byte): nat {
    if groups == 0 then 0 else if groups == 1 then top + 1 else 0x80 * Cap(groups - 1, top)
  }

  /** Reads at most `groups` groups; the last permitted one may not exceed `top`. */
  function TakeVarint(s: Bytes, groups: nat, top: Byte): (p: Parse<nat>)
    ensures p.Took? ==> p.value < Cap(groups, top) && |p.rest| < |s|
  {
    if groups == 0 then Fail(BadVarint)
    else if s == [] then Fail(UnexpectedEnd)
    else if s[0] < 0x80 then
      if groups == 1 && s[0] > top then Fail(BadVarint)
      else CapAtLeast(groups, top); Took(s[0], s[1..])
    else
      var (high, rest) :- TakeVarint(s[1..], groups - 1, top);
      Took(s[0] - 0x80 + 0x80 * high, rest)
  }

  lemma CapAtLeast(groups: nat, top: Byte)
    requires groups > 0
    ensures Cap(groups, top) >= (if groups == 1 then top + 1 else 0x80)
  {
  }

  /** The permitted widths: 3, 5, 10 and 19 groups carry exactly 16, 32, 64 and
      128 bits. */
  lemma CapWidths()
    ensures Cap(3, 3) == 0x1_0000
    ensures Cap(5, 15) == 0x1_0000_0000
    ensures Cap(10, 1) == 0x1_0000_0000_0000_0000
    ensures Cap(19, 3) == 0x1_0000_0000_0000_0000_0000_0000_0000_0000
  {
    assert Cap(10, 3) == 0x2_0000_0000_0000_0000;
  }

  lemma {:induction false} VarintRoundTrip(n: nat, tail: Bytes, groups: nat, top: Byte)
    requires n < Cap(groups, top) && top < 0x80
    ensures TakeVarint(PutVarint(n, tail), groups, top) == Took(n, tail)
    ensures |PutVarint(n, tail)| <= groups + |tail|
  {
    var s := PutVarint(n, tail);
    if n < 0x80 {
      assert s[1..] == tail;
    } else {
      assert s[1..] == PutVarint(n / 0x80, tail);
      VarintRoundTrip(n / 0x80, tail, groups - 1, top);
    }
  }

  /** The varint that was read, as the bytes it was read from. */
  function Consumed<T>(s: Bytes, p: Parse<T>): Bytes
    requires p.Took? && |p.rest| <= |s|
  {
    s[..|s| - |p.rest|]
  }

  /** Groups with the "more" bit on all of them but the last. */
  predicate Groups(c: Bytes) {
    c != [] && if |c| == 1 then c[0] < 0x80 else c[0] >= 0x80 && Groups(c[1..])
  }

  function GroupsValue(c: Bytes): nat
    requires Groups(c)
  {
    if |c| == 1 then c[0] else c[0] - 0x80 + 0x80 * GroupsValue(c[1..])
  }

  /** What a successful read took off the front, and what it made of it. */
  lemma {:induction false} VarintShape(s: Bytes, groups: nat, top: Byte)
    requires TakeVarint(s, groups, top).Took?
    ensures var p := TakeVarint(s, groups, top);
            var c := Consumed(s, p);
            |c| <= groups && s == c + p.rest && Groups(c) && p.value == GroupsValue(c)
  {
    var p := TakeVarint(s, groups, top);
    if s[0] < 0x80 {
      assert Consumed(s, p) == [s[0]];
    } else {
      VarintShape(s[1..], groups - 1, top);
      var q := TakeVarint(s[1..], groups - 1, top);
      ConsumedMore(s, Consumed(s[1..], q), q.rest);
      GroupsMore(s[0], Consumed(s[1..], q));
    }
  }

  lemma ConsumedMore(s: Bytes, c: Bytes, rest: Bytes)
    requires s != [] && s[1..] == c + rest
    ensures s[..|s| - |rest|] == [s[0]] + c && s == [s[0]] + c + rest
  {
  }

  lemma GroupsMore(lead: Byte, c: Bytes)
    requires lead >= 0x80 && Groups(c)
    ensures Groups([lead] + c) && GroupsValue([lead] + c) == lead - 0x80 + 0x80 * GroupsValue(c)
  {
    assert ([lead] + c)[1..] == c;
  }

  /** The last group adds nothing. */
  predicate Padded(c: Bytes) { |c| > 1 && c[|c| - 1] == 0 }

  /** The reader accepts padded varints too: writing back what was read restores
      the bytes exactly when the last group read is not a zero padding group. */
  lemma VarintCanonical(s: Bytes, groups: nat, top: Byte)
    requires TakeVarint(s, groups, top).Took?
    ensures var p := TakeVarint(s, groups, top);
            PutVarint(p.value, p.rest) == s <==> !Padded(Consumed(s, p))
  {
    VarintShape(s, groups, top);
    var p := TakeVarint(s, groups, top);
    PutGroups(Consumed(s, p), p.rest);
  }

  lemma {:induction false} PutGroups(c: Bytes, tail: Bytes)
    requires Groups(c)
    ensures PutVarint(GroupsValue(c), tail) == c + tail <==> !Padded(c)
    ensures GroupsValue(c) == 0 ==> c[|c| - 1] == 0
  {
    if |c| == 1 {
      assert c == [c[0]];
    } else {
      PutGroups(c[1..], tail);
      PutOneMore(c[0], GroupsValue(c[1..]), tail, c[1..] + tail);
      assert c + tail == [c[0]] + (c[1..] + tail);
    }
  }

  lemma PutOneMore(lead: Byte, high: nat, tail: Bytes, others: Bytes)
    requires lead >= 0x80
    ensures PutVarint(lead - 0x80 + 0x80 * high, tail) == [lead] + others
            <==> high > 0 && PutVarint(high, tail) == others
  {
    var n := lead - 0x80 + 0x80 * high;
    assert ([lead] + others)[0] == lead && ([lead] + others)[1..] == others;
    if high > 0 {
      assert PutVarint(n, tail) == [lead] + PutVarint(high, tail);
      assert PutVarint(n, tail)[1..] == PutVarint(high, tail);
    } else {
      assert PutVarint(n, tail)[0] == n;
    }
  }

  // ------------------------------------------------------- scalars and blobs

  function TakeU16(s: Bytes): Parse<U16> {
    CapWidths();
    var (n, rest) :- TakeVarint(s, 3, 3); Took(n, rest)
  }

  function TakeU32(s: Bytes): Parse<U32> {
    CapWidths();
    var (n, rest) :- TakeVarint(s, 5, 15); Took(n, rest)
  }

  function TakeU64(s: Bytes): Parse<U64> {
    CapWidths();
    var (n, rest) :- TakeVarint(s, 10, 1); Took(n, rest)
  }

  function TakeU128(s: Bytes): Parse<U128> {
    CapWidths();
    var (n, rest) :- TakeVarint(s, 19, 3); Took(n, rest)
  }

  lemma U16RoundTrip(n: U16, tail: Bytes)
    ensures TakeU16(PutVarint(n, tail)) == Took(n, tail)
  {
    CapWidths();
    VarintRoundTrip(n, tail, 3, 3);
  }

  lemma U32RoundTrip(n: U32, tail: Bytes)
    ensures TakeU32(PutVarint(n, tail)) == Took(n, tail)
  {
    CapWidths();
    VarintRoundTrip(n, tail, 5, 15);
  }

  lemma U64RoundTrip(n: U64, tail: Bytes)
    ensures TakeU64(PutVarint(n, tail)) == Took(n, tail)
  {
    CapWidths();
    VarintRoundTrip(n, tail, 10, 1);
  }

  lemma U128RoundTrip(n: U128, tail: Bytes)
    ensures TakeU128(PutVarint(n, tail)) == Took(n, tail)
  {
    CapWidths();
    VarintRoundTrip(n, tail, 19, 3);
  }

  function PutBool(b: bool, tail: Bytes): Bytes { [if b then 1 else 0] + tail }

  function TakeBool(s: Bytes): Parse<bool> {
    if s == [] then Fail(UnexpectedEnd)
    else if s[0] > 1 then Fail(BadBool)
    else Took(s[0] == 1, s[1..])
  }

  function PutBlob(b: Blob, tail: Bytes): Bytes { PutVarint(|b|, b + tail) }

  function TakeBlob(s: Bytes): Parse<Blob> {
    var (n, rest) :- TakeU64(s);
    if |rest| < n then Fail(UnexpectedEnd) else Took(rest[..n], rest[n..])
  }

  function TakeText(s: Bytes): Parse<Text> {
    var (b, rest) :- TakeBlob(s);
    if ValidUtf8(b) then Took(b, rest) else Fail(BadUtf8)
  }

  function PutOption(o: Option<Blob>, tail: Bytes): Bytes {
    match o
    case None => [0] + tail
    case Some(b) => [1] + PutBlob(b, tail)
  }

  function TakeOption<T>(s: Bytes, take: Bytes -> Parse<T>): Parse<Option<T>> {
    if s == [] then Fail(UnexpectedEnd)
    else if s[0] == 0 then Took(None, s[1..])
    else if s[0] == 1 then var (v, rest) :- take(s[1..]); Took(Some(v), rest)
    else Fail(BadOption)
  }

  lemma BoolRoundTrip(b: bool, tail: Bytes)
    ensures TakeBool(PutBool(b, tail)) == Took(b, tail)
  {
    assert PutBool(b, tail)[1..] == tail;
  }

  lemma BlobRoundTrip(b: Blob, tail: Bytes)
    ensures TakeBlob(PutBlob(b, tail)) == Took(b, tail)
    ensures |PutBlob(b, tail)| <= 10 + |b| + |tail|
  {
    CapWidths();
    VarintRoundTrip(|b|, b + tail, 10, 1);
    assert (b + tail)[..|b|] == b && (b + tail)[|b|..] == tail;
  }

  lemma TextRoundTrip(b: Text, tail: Bytes)
    ensures TakeText(PutBlob(b, tail)) == Took(b, tail)
  {
    BlobRoundTrip(b, tail);
  }

  lemma OptionRoundTrip(o: Option<Blob>, tail: Bytes)
    ensures TakeOption(PutOption(o, tail), TakeBlob) == Took(o, tail)
  {
    assert PutOption(o, tail)[1..] == if o.None? then tail else PutBlob(o.value, tail);
    if o.Some? { BlobRoundTrip(o.value, tail); }
  }

  lemma OptionTextRoundTrip(o: Option<Text>, tail: Bytes)
    ensures TakeOption(PutOption(o, tail), TakeText) == Took(o, tail)
  {
    assert PutOption(o, tail)[1..] == if o.None? then tail else PutBlob(o.value, tail);
    if o.Some? { TextRoundTrip(o.value, tail); }
  }

  // ---------------------------------------------------------- nested records

  function PutTarget(t: TargetSpec, tail: Bytes): Bytes {
    PutBlob(t.host, PutVarint(t.port, PutBlob(t.user, tail)))
  }

  function TakeTarget(s: Bytes): Parse<TargetSpec> {
    var (host, s1) :- TakeText(s);
    var (port, s2) :- TakeU16(s1);
    var (user, s3) :- TakeText(s2);
    Took(TargetSpec(host, port, user), s3)
  }

  lemma TargetRoundTrip(t: TargetSpec, tail: Bytes)
    ensures TakeTarget(PutTarget(t, tail)) == Took(t, tail)
  {
    TextRoundTrip(t.user, tail);
    U16RoundTrip(t.port, PutBlob(t.user, tail));
    TextRoundTrip(t.host, PutVarint(t.port, PutBlob(t.user, tail)));
  }

  function PutAuth(a: AuthIntent, tail: Bytes): Bytes {
    match a
    case DelegatedKey(key) => PutVarint(0, PutBlob(key, tail))
    case Password(secret) => PutVarint(1, PutBlob(secret, tail))
    case PrivateKey(pem, passphrase) => PutVarint(2, PutBlob(pem, PutOption(passphrase, tail)))
    case GatewayKey(keyId) => PutVarint(3, PutBlob(keyId, tail))
  }

  function TakeAuth(s: Bytes): Parse<AuthIntent> {
    var (tag, s0) :- TakeU32(s);
    if tag == 0 then var (key, s1) :- TakeBlob(s0); Took(DelegatedKey(key), s1)
    else if tag == 1 then var (secret, s1) :- TakeText(s0); Took(Password(secret), s1)
    else if tag == 2 then
      var (pem, s1) :- TakeText(s0);
      var (passphrase, s2) :- TakeOption(s1, TakeText);
      Took(PrivateKey(pem, passphrase), s2)
    else if tag == 3 then var (keyId, s1) :- TakeText(s0); Took(GatewayKey(keyId), s1)
    else Fail(UnknownVariant)
  }

  lemma AuthRoundTrip(a: AuthIntent, tail: Bytes)
    ensures TakeAuth(PutAuth(a, tail)) == Took(a, tail)
  {
    match a
    case DelegatedKey(key) =>
      BlobRoundTrip(key, tail);
      U32RoundTrip(0, PutBlob(key, tail));
    case Password(secret) =>
      TextRoundTrip(secret, tail);
      U32RoundTrip(1, PutBlob(secret, tail));
    case PrivateKey(pem, passphrase) =>
      OptionTextRoundTrip(passphrase, tail);
      TextRoundTrip(pem, PutOption(passphrase, tail));
      U32RoundTrip(2, PutBlob(pem, PutOption(passphrase, tail)));
    case GatewayKey(keyId) =>
      TextRoundTrip(keyId, tail);
      U32RoundTrip(3, PutBlob(keyId, tail));
  }

  // ------------------------------------------------------------ client frames

  function PutClient(f: ClientFrame, tail: Bytes): Bytes {
    match f
    case ClientHello(version, name, resume, account) =>
      PutVarint(0, PutVarint(version, PutBlob(name, PutOption(resume, PutOption(account, tail)))))
    case Open(target, auth, cols, rows) =>
      PutVarint(1, PutTarget(target, PutAuth(auth, PutVarint(cols, PutVarint(rows, tail)))))
    case Input(bytes) => PutVarint(2, PutBlob(bytes, tail))
    case Resize(cols, rows) => PutVarint(3, PutVarint(cols, PutVarint(rows, tail)))
    case SignResponse(id, signature) => PutVarint(4, PutVarint(id, PutBlob(signature, tail)))
    case Ping => PutVarint(5, tail)
    case Close => PutVarint(6, tail)
  }

  function TakeClient(s: Bytes): Parse<ClientFrame> {
    var (tag, s0) :- TakeU32(s);
    if tag == 0 then
      var (version, s1) :- TakeU16(s0);
      var (name, s2) :- TakeText(s1);
      var (resume, s3) :- TakeOption(s2, TakeBlob);
      var (account, s4) :- TakeOption(s3, TakeBlob);
      Took(ClientHello(version, name, resume, account), s4)
    else if tag == 1 then
      var (target, s1) :- TakeTarget(s0);
      var (auth, s2) :- TakeAuth(s1);
      var (cols, s3) :- TakeU16(s2);
      var (rows, s4) :- TakeU16(s3);
      Took(Open(target, auth, cols, rows), s4)
    else if tag == 2 then var (bytes, s1) :- TakeBlob(s0); Took(Input(bytes), s1)
    else if tag == 3 then
      var (cols, s1) :- TakeU16(s0);
      var (rows, s2) :- TakeU16(s1);
      Took(Resize(cols, rows), s2)
    else if tag == 4 then
      var (id, s1) :- TakeU64(s0);
      var (signature, s2) :- TakeBlob(s1);
      Took(SignResponse(id, signature), s2)
    else if tag == 5 then Took(Ping, s0)
    else if tag == 6 then Took(Close, s0)
    else Fail(UnknownVariant)
  }

  lemma ClientRoundTrip(f: ClientFrame, tail: Bytes)
    ensures TakeClient(PutClient(f, tail)) == Took(f, tail)
  {
    match f
    case ClientHello(version, name, resume, account) =>
      var s3 := PutOption(account, tail);
      var s2 := PutOption(resume, s3);
      var s1 := PutBlob(name, s2);
      OptionRoundTrip(account, tail);
      OptionRoundTrip(resume, s3);
      TextRoundTrip(name, s2);
      U16RoundTrip(version, s1);
      U32RoundTrip(0, PutVarint(version, s1));
    case Open(target, auth, cols, rows) =>
      var s3 := PutVarint(rows, tail);
      var s2 := PutVarint(cols, s3);
      var s1 := PutAuth(auth, s2);
      U16RoundTrip(rows, tail);
      U16RoundTrip(cols, s3);
      AuthRoundTrip(auth, s2);
      TargetRoundTrip(target, s1);
      U32RoundTrip(1, PutTarget(target, s1));
    case Input(bytes) =>
      BlobRoundTrip(bytes, tail);
      U32RoundTrip(2, PutBlob(bytes, tail));
    case Resize(cols, rows) =>
      U16RoundTrip(rows, tail);
      U16RoundTrip(cols, PutVarint(rows, tail));
      U32RoundTrip(3, PutVarint(cols, PutVarint(rows, tail)));
    case SignResponse(id, signature) =>
      BlobRoundTrip(signature, tail);
      U64RoundTrip(id, PutBlob(signature, tail));
      U32RoundTrip(4, PutVarint(id, PutBlob(signature, tail)));
    case Ping => U32RoundTrip(5, tail);
    case Close => U32RoundTrip(6, tail);
  }

  // ------------------------------------------------------------ server frames

  function StatusTag(s: SessionStatus): U32 {
    match s
    case Connecting => 0
    case Authenticating => 1
    case Live => 2
    case Detached => 3
    case Ended => 4
  }

  function TakeStatus(s: Bytes): Parse<SessionStatus> {
    var (tag, s0) :- TakeU32(s);
    if tag == 0 then Took(Connecting, s0)
    else if tag == 1 then Took(Authenticating, s0)
    else if tag == 2 then Took(Live, s0)
    else if tag == 3 then Took(Detached, s0)
    else if tag == 4 then Took(Ended, s0)
    else Fail(UnknownVariant)
  }

  function PutServer(f: ServerFrame, tail: Bytes): Bytes {
    match f
    case ServerHello(version, id, resumed, token) =>
      PutVarint(0, PutVarint(version, PutVarint(id, PutBool(resumed, PutBlob(token, tail)))))
    case Output(bytes) => PutVarint(1, PutBlob(bytes, tail))
    case SignRequest(id, key, data) => PutVarint(2, PutVarint(id, PutBlob(key, PutBlob(data, tail))))
    case Status(status) => PutVarint(3, PutVarint(StatusTag(status), tail))
    case Pong => PutVarint(4, tail)
    case Error(message) => PutVarint(5, PutBlob(message, tail))
    case Closed => PutVarint(6, tail)
  }

  function TakeServer(s: Bytes): Parse<ServerFrame> {
    var (tag, s0) :- TakeU32(s);
    if tag == 0 then
      var (version, s1) :- TakeU16(s0);
      var (id, s2) :- TakeU128(s1);
      var (resumed, s3) :- TakeBool(s2);
      var (token, s4) :- TakeBlob(s3);
      Took(ServerHello(version, id, resumed, token), s4)
    else if tag == 1 then var (bytes, s1) :- TakeBlob(s0); Took(Output(bytes), s1)
    else if tag == 2 then
      var (id, s1) :- TakeU64(s0);
      var (key, s2) :- TakeBlob(s1);
      var (data, s3) :- TakeBlob(s2);
      Took(SignRequest(id, key, data), s3)
    else if tag == 3 then var (status, s1) :- TakeStatus(s0); Took(Status(status), s1)
    else if tag == 4 then Took(Pong, s0)
    else if tag == 5 then var (message, s1) :- TakeText(s0); Took(Error(message), s1)
    else if tag == 6 then Took(Closed, s0)
    else Fail(UnknownVariant)
  }

  lemma ServerRoundTrip(f: ServerFrame, tail: Bytes)
    ensures TakeServer(PutServer(f, tail)) == Took(f, tail)
  {
    match f
    case ServerHello(_, _, _, _) => ServerHelloRoundTrip(f, tail);
    case Output(bytes) =>
      BlobRoundTrip(bytes, tail);
      U32RoundTrip(1, PutBlob(bytes, tail));
    case SignRequest(_, _, _) => SignRequestRoundTrip(f, tail);
    case Status(status) =>
      U32RoundTrip(StatusTag(status), tail);
      U32RoundTrip(3, PutVarint(StatusTag(status), tail));
    case Pong => U32RoundTrip(4, tail);
    case Error(message) =>
      TextRoundTrip(message, tail);
      U32RoundTrip(5, PutBlob(message, tail));
    case Closed => U32RoundTrip(6, tail);
  }

  lemma ServerHelloRoundTrip(f: ServerFrame, tail: Bytes)
    requires f.ServerHello?
    ensures TakeServer(PutServer(f, tail)) == Took(f, tail)
  {
    var s3 := PutBlob(f.token, tail);
    var s2 := PutBool(f.resumed, s3);
    var s1 := PutVarint(f.sessionId, s2);
    BlobRoundTrip(f.token, tail);
    BoolRoundTrip(f.resumed, s3);
    U128RoundTrip(f.sessionId, s2);
    U16RoundTrip(f.version, s1);
    U32RoundTrip(0, PutVarint(f.version, s1));
  }

  lemma SignRequestRoundTrip(f: ServerFrame, tail: Bytes)
    requires f.SignRequest?
    ensures TakeServer(PutServer(f, tail)) == Took(f, tail)
  {
    var s2 := PutBlob(f.data, tail);
    var s1 := PutBlob(f.publicKey, s2);
    BlobRoundTrip(f.data, tail);
    BlobRoundTrip(f.publicKey, s2);
    U64RoundTrip(f.id, s1);
    U32RoundTrip(2, PutVarint(f.id, s1));
  }

  // ------------------------------------------------------ encode and decode

  function EncodeClient(f: ClientFrame): Bytes { PutClient(f, []) }

  function EncodeServer(f: ServerFrame): Bytes { PutServer(f, []) }

  /** `decode` reads a frame off the front and drops what follows it. */
  function Decode<T>(s: Bytes, take: Bytes -> Parse<T>): Parse<T> {
    var (f, _) :- take(s); Took(f, [])
  }

  function DecodeClient(s: Bytes): Parse<ClientFrame> { Decode(s, TakeClient) }

  function DecodeServer(s: Bytes): Parse<ServerFrame> { Decode(s, TakeServer) }

  /** Decoding an encoding gives the frame back, for every frame of both types. */
  lemma CodecRoundTrip()
    ensures forall f :: DecodeClient(EncodeClient(f)) == Took(f, [])
    ensures forall f :: DecodeServer(EncodeServer(f)) == Took(f, [])
  {
    forall f: ClientFrame { ClientRoundTrip(f, []); }
    forall f: ServerFrame { ServerRoundTrip(f, []); }
  }

  /** No encoding is a prefix of another frame's encoding. */
  lemma ClientPrefixFree(f: ClientFrame, g: ClientFrame, more: Bytes, other: Bytes)
    requires PutClient(f, more) == PutClient(g, other)
    ensures f == g && more == other
  {
    ClientRoundTrip(f, more);
    ClientRoundTrip(g, other);
  }

  lemma ServerPrefixFree(f: ServerFrame, g: ServerFrame, more: Bytes, other: Bytes)
    requires PutServer(f, more) == PutServer(g, other)
    ensures f == g && more == other
  {
    ServerRoundTrip(f, more);
    ServerRoundTrip(g, other);
  }

  /** The converse of the round trip fails: trailing bytes and padded varints
      decode as well, so different byte strings decode to the same frame. */
  lemma DecodeIsNotInjective()
    ensures DecodeClient([5]) == DecodeClient([5, 9]) == DecodeClient([0x85, 0]) == Took(Ping, [])
    ensures EncodeClient(Ping) == [5]
  {
    assert TakeVarint([0x85, 0][1..], 4, 15) == Took(0, [0x85, 0][1..][1..]);
    assert TakeVarint([5, 9], 5, 15).Took? && TakeVarint([0x85, 0], 5, 15).Took?;
  }

  /** Byte-exact encodings: variant numbers, field order, option tags, and a
      two-group varint. */
  lemma ClientWireExamples()
    ensures EncodeClient(ClientHello(1, [0x61], Some([7, 8]), None)) == [0, 1, 1, 0x61, 1, 2, 7, 8, 0]
    ensures EncodeClient(Input([9, 9])) == [2, 2, 9, 9] && EncodeClient(Resize(80, 24)) == [3, 80, 24]
    ensures EncodeClient(SignResponse(7, [5])) == [4, 7, 1, 5]
    ensures EncodeClient(Ping) == [5] && EncodeClient(Close) == [6]
  {
  }

  lemma TagWireExamples()
    ensures PutAuth(DelegatedKey([7]), []) == [0, 1, 7] && PutAuth(Password([8]), []) == [1, 1, 8]
    ensures PutAuth(PrivateKey([0x6B], Some([0x70])), []) == [2, 1, 0x6B, 1, 1, 0x70]
    ensures PutAuth(PrivateKey([0x6B], None), []) == [2, 1, 0x6B, 0] && PutAuth(GatewayKey([9]), []) == [3, 1, 9]
    ensures EncodeServer(Status(Connecting)) == [3, 0] && EncodeServer(Status(Authenticating)) == [3, 1]
    ensures EncodeServer(Status(Detached)) == [3, 3] && EncodeServer(Status(Ended)) == [3, 4]
  {
  }

  lemma OpenWireExample()
    ensures EncodeClient(Open(TargetSpec([], 22, []), GatewayKey([0x6B]), 300, 24))
         == [1, 0, 22, 0, 3, 1, 0x6B, 0xAC, 2, 24]
  {
    assert PutVarint(300, PutVarint(24, [])) == [0xAC, 2, 24];
    assert PutAuth(GatewayKey([0x6B]), [0xAC, 2, 24]) == [3, 1, 0x6B, 0xAC, 2, 24];
    assert PutTarget(TargetSpec([], 22, []), [3, 1, 0x6B, 0xAC, 2, 24]) == [0, 22, 0, 3, 1, 0x6B, 0xAC, 2, 24];
  }

  lemma ServerWireExamples()
    ensures EncodeServer(ServerHello(1, 2, true, [3])) == [0, 1, 2, 1, 1, 3]
    ensures EncodeServer(Output([4])) == [1, 1, 4] && EncodeServer(SignRequest(7, [1], [2])) == [2, 7, 1, 1, 1, 2]
    ensures EncodeServer(Status(Live)) == [3, 2] && EncodeServer(Pong) == [4]
    ensures EncodeServer(Error([0x65])) == [5, 1, 0x65] && EncodeServer(Closed) == [6]
  {
  }

  /** An `Output` frame is at most 15 bytes longer than its payload. */
  lemma OutputOverhead(bytes: Blob)
    ensures |EncodeServer(Output(bytes))| <= |bytes| + 15
  {
    CapWidths();
    BlobRoundTrip(bytes, []);
    VarintRoundTrip(1, PutBlob(bytes, []), 5, 15);
  }
}
