/** The wire entities of `gw-proto`: integer widths, byte strings, text, and the
    two frame types exchanged by client and gateway. */
module Frames {
  type Byte = b: int | 0 <= b < 0x100
  type Bytes = seq<Byte>

  type U16 = n: int | 0 <= n < 0x1_0000
  type U32 = n: int | 0 <= n < 0x1_0000_0000
  type U64 = n: int | 0 <= n < 0x1_0000_0000_0000_0000
  type U128 = n: int | 0 <= n < 0x1_0000_0000_0000_0000_0000_0000_0000_0000

  /** A `Vec<u8>`: its length fits the platform's 64-bit `usize`. */
  type Blob = b: Bytes | |b| < 0x1_0000_0000_0000_0000

  /** A `String`: a `Vec<u8>` whose bytes are well-formed UTF-8. */
  type Text = b: Blob | ValidUtf8(b) witness []

  predicate Continuation(b: Byte) { 0x80 <= b <= 0xBF }

  /** Width of the well-formed UTF-8 character that starts `b`, or 0 if none
      does (Table 3-7 of the Unicode Standard). */
  function CharWidth(b: Bytes): (w: nat)
    requires b != []
    ensures w <= |b|
  {
    if b[0] < 0x80 then 1
    else if |b| >= 2 && 0xC2 <= b[0] <= 0xDF && Continuation(b[1]) then 2
    else if && |b| >= 3
            && Continuation(b[1]) && Continuation(b[2])
            && 0xE0 <= b[0] <= 0xEF
            && (b[0] == 0xE0 ==> 0xA0 <= b[1])
            && (b[0] == 0xED ==> b[1] <= 0x9F) then 3
    else if && |b| >= 4
            && Continuation(b[1]) && Continuation(b[2]) && Continuation(b[3])
            && 0xF0 <= b[0] <= 0xF4
            && (b[0] == 0xF0 ==> 0x90 <= b[1])
            && (b[0] == 0xF4 ==> b[1] <= 0x8F) then 4
    else 0
  }

  predicate ValidUtf8(b: Bytes)
    decreases |b|
  {
    b == [] || (CharWidth(b) > 0 && ValidUtf8(b[CharWidth(b)..]))
  }

  datatype Option<+T> = None | Some(value: T)

  const PROTOCOL_VERSION: U16 := 1

  type SessionId = U128
  type Token = Blob

  datatype TargetSpec = TargetSpec(host: Text, port: U16, user: Text)

  datatype AuthIntent =
    | DelegatedKey(publicKey: Blob)
    | Password(secret: Text)
    | PrivateKey(pem: Text, passphrase: Option<Text>)
    | GatewayKey(keyId: Text)

  datatype ClientFrame =
    | ClientHello(version: U16, clientName: Text, resume: Option<Token>, accountToken: Option<Blob>)
    | Open(target: TargetSpec, auth: AuthIntent, cols: U16, rows: U16)
    | Input(bytes: Blob)
    | Resize(cols: U16, rows: U16)
    | SignResponse(id: U64, signature: Blob)
    | Ping
    | Close

  datatype SessionStatus = Connecting | Authenticating | Live | Detached | Ended

  datatype ServerFrame =
    | ServerHello(version: U16, sessionId: SessionId, resumed: bool, token: Token)
    | Output(bytes: Blob)
    | SignRequest(id: U64, publicKey: Blob, data: Blob)
    | Status(status: SessionStatus)
    | Pong
    | Error(message: Text)
    | Closed

  lemma Regroup<T>(a: seq<T>, b: seq<T>, c: seq<T>)
    ensures a + b + c == a + (b + c)
  {
  }
}
