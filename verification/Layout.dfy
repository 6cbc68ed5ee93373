/** The bytes of every frame, field by field from the front, in the Postcard wire format:
    what the nested writers of `Codec` come to. */
module Layout {
  import opened Frames
  import opened Codec

  /** A number by itself. */
  function Num(n: nat): Bytes { PutVarint(n, []) }

  lemma {:induction false} NumThen(n: nat, tail: Bytes)
    ensures PutVarint(n, tail) == Num(n) + tail
  {
    if n >= 0x80 {
      NumThen(n / 0x80, tail);
    }
  }

  lemma Five(a: Bytes, b: Bytes, c: Bytes, d: Bytes, e: Bytes)
    ensures a + (b + (c + (d + e))) == a + b + c + d + e
  {
  }

  // ------------------------------------------------------ the bytes in order

  /** A byte string or a text: its length, then itself. */
  function Sized(b: Blob): Bytes { Num(|b|) + b }

  function Maybe(o: Option<Blob>): Bytes { if o.Some? then [1] + Sized(o.value) else [0] }

  lemma SizedThen(b: Blob, tail: Bytes)
    ensures PutBlob(b, tail) == Sized(b) + tail
  {
    NumThen(|b|, b + tail);
    Regroup(Num(|b|), b, tail);
  }

  lemma MaybeThen(o: Option<Blob>, tail: Bytes)
    ensures PutOption(o, tail) == Maybe(o) + tail
  {
    if o.Some? {
      SizedThen(o.value, tail);
      Regroup([1], Sized(o.value), tail);
    }
  }

  function TargetBytes(t: TargetSpec): Bytes { Sized(t.host) + Num(t.port) + Sized(t.user) }

  lemma TargetThen(t: TargetSpec, tail: Bytes)
    ensures PutTarget(t, tail) == TargetBytes(t) + tail
  {
    SizedThen(t.user, tail);
    NumThen(t.port, Sized(t.user) + tail);
    SizedThen(t.host, Num(t.port) + (Sized(t.user) + tail));
    Regroup(Num(t.port), Sized(t.user), tail);
    Regroup(Sized(t.host), Num(t.port) + Sized(t.user), tail);
    Regroup(Sized(t.host), Num(t.port), Sized(t.user));
  }

  function AuthBytes(a: AuthIntent): Bytes {
    match a
    case DelegatedKey(key) => [0] + Sized(key)
    case Password(secret) => [1] + Sized(secret)
    case PrivateKey(pem, passphrase) => [2] + Sized(pem) + Maybe(passphrase)
    case GatewayKey(keyId) => [3] + Sized(keyId)
  }

  lemma TaggedThen(tag: nat, fields: Bytes, tail: Bytes)
    requires tag < 0x80
    ensures PutVarint(tag, fields + tail) == [tag] + fields + tail
  {
    Regroup([tag], fields, tail);
  }

  lemma AuthThen(a: AuthIntent, tail: Bytes)
    ensures PutAuth(a, tail) == AuthBytes(a) + tail
  {
    match a
    case DelegatedKey(key) =>
      SizedThen(key, tail);
      TaggedThen(0, Sized(key), tail);
    case Password(secret) =>
      SizedThen(secret, tail);
      TaggedThen(1, Sized(secret), tail);
    case PrivateKey(pem, passphrase) =>
      MaybeThen(passphrase, tail);
      SizedThen(pem, Maybe(passphrase) + tail);
      Regroup(Sized(pem), Maybe(passphrase), tail);
      TaggedThen(2, Sized(pem) + Maybe(passphrase), tail);
      Regroup([2], Sized(pem), Maybe(passphrase));
    case GatewayKey(keyId) =>
      SizedThen(keyId, tail);
      TaggedThen(3, Sized(keyId), tail);
  }

  function ClientBytes(f: ClientFrame): Bytes {
    match f
    case ClientHello(version, name, resume, account) => [0] + Num(version) + Sized(name) + Maybe(resume) + Maybe(account)
    case Open(target, auth, cols, rows) => [1] + TargetBytes(target) + AuthBytes(auth) + Num(cols) + Num(rows)
    case Input(bytes) => [2] + Sized(bytes)
    case Resize(cols, rows) => [3] + Num(cols) + Num(rows)
    case SignResponse(id, signature) => [4] + Num(id) + Sized(signature)
    case Ping => [5]
    case Close => [6]
  }

  function ServerBytes(f: ServerFrame): Bytes {
    match f
    case ServerHello(version, id, resumed, token) =>
      [0] + Num(version) + Num(id) + [if resumed then 1 else 0] + Sized(token)
    case Output(bytes) => [1] + Sized(bytes)
    case SignRequest(id, key, data) => [2] + Num(id) + Sized(key) + Sized(data)
    case Status(status) =>
      [3, match status case Connecting => 0 case Authenticating => 1 case Live => 2 case Detached => 3 case Ended => 4]
    case Pong => [4]
    case Error(message) => [5] + Sized(message)
    case Closed => [6]
  }

  lemma HelloLayout(f: ClientFrame)
    requires f.ClientHello?
    ensures EncodeClient(f) == ClientBytes(f)
  {
    var account := Maybe(f.accountToken);
    MaybeThen(f.accountToken, []);
    assert account + [] == account;
    MaybeThen(f.resume, account);
    SizedThen(f.clientName, Maybe(f.resume) + account);
    NumThen(f.version, Sized(f.clientName) + (Maybe(f.resume) + account));
    Five([0], Num(f.version), Sized(f.clientName), Maybe(f.resume), account);
  }

  lemma OpenLayout(f: ClientFrame)
    requires f.Open?
    ensures EncodeClient(f) == ClientBytes(f)
  {
    var rows := Num(f.rows);
    NumThen(f.cols, rows);
    AuthThen(f.auth, Num(f.cols) + rows);
    TargetThen(f.target, AuthBytes(f.auth) + (Num(f.cols) + rows));
    Five([1], TargetBytes(f.target), AuthBytes(f.auth), Num(f.cols), rows);
  }

  /** Every client frame is its variant number and then its fields, in the order in which
      they are declared. */
  lemma ClientLayout(f: ClientFrame)
    ensures EncodeClient(f) == ClientBytes(f)
  {
    match f
    case ClientHello(_, _, _, _) => HelloLayout(f);
    case Open(_, _, _, _) => OpenLayout(f);
    case Input(bytes) =>
      SizedThen(bytes, []);
      assert Sized(bytes) + [] == Sized(bytes);
    case Resize(cols, rows) =>
      NumThen(cols, Num(rows));
      Regroup([3], Num(cols), Num(rows));
    case SignResponse(id, signature) =>
      SizedThen(signature, []);
      assert Sized(signature) + [] == Sized(signature);
      NumThen(id, Sized(signature));
      Regroup([4], Num(id), Sized(signature));
    case Ping =>
    case Close =>
  }

  lemma GreetingLayout(f: ServerFrame)
    requires f.ServerHello?
    ensures EncodeServer(f) == ServerBytes(f)
  {
    var token, flag := Sized(f.token), [if f.resumed then 1 else 0];
    SizedThen(f.token, []);
    assert token + [] == token;
    NumThen(f.sessionId, flag + token);
    NumThen(f.version, Num(f.sessionId) + (flag + token));
    Five([0], Num(f.version), Num(f.sessionId), flag, token);
  }

  lemma RequestLayout(f: ServerFrame)
    requires f.SignRequest?
    ensures EncodeServer(f) == ServerBytes(f)
  {
    var data := Sized(f.data);
    SizedThen(f.data, []);
    assert data + [] == data;
    SizedThen(f.publicKey, data);
    NumThen(f.id, Sized(f.publicKey) + data);
    assert [2] + (Num(f.id) + (Sized(f.publicKey) + data)) == ServerBytes(f);
  }

  /** And every server frame. */
  lemma ServerLayout(f: ServerFrame)
    ensures EncodeServer(f) == ServerBytes(f)
  {
    match f
    case ServerHello(_, _, _, _) => GreetingLayout(f);
    case Output(bytes) =>
      SizedThen(bytes, []);
      assert Sized(bytes) + [] == Sized(bytes);
    case SignRequest(_, _, _) => RequestLayout(f);
    case Status(_) =>
    case Pong =>
    case Error(message) =>
      SizedThen(message, []);
      assert Sized(message) + [] == Sized(message);
    case Closed =>
  }
}
