/** How far `decode` is from reading exactly the bytes `encode` writes: it accepts
    padded varints and trailing bytes, so a frame has many byte strings. The encoding
    is the one shortest of them, and the one with neither. */
module Canonical {
  import opened Frames
  import opened Codec

  /** What is written back is never longer than what was read; it is as long, and the
      same, exactly if what was read is clean. */
  ghost predicate Tight(written: Bytes, s: Bytes, clean: bool) {
    |written| <= |s| && (clean <==> |written| == |s|) && (clean <==> written == s)
  }

  // ------------------------------------------------- the varints a reader reads

  /** The varint at the front of `s`, if there is one, is not padded. */
  predicate Unpadded(s: Bytes, groups: nat, top: Byte) {
    var p := TakeVarint(s, groups, top);
    p.Took? && |p.rest| <= |s| ==> !Padded(Consumed(s, p))
  }

  predicate CleanU16(s: Bytes) { Unpadded(s, 3, 3) }

  predicate CleanU32(s: Bytes) { Unpadded(s, 5, 15) }

  predicate CleanU64(s: Bytes) { Unpadded(s, 10, 1) }

  predicate CleanU128(s: Bytes) { Unpadded(s, 19, 3) }

  predicate CleanOption(s: Bytes) { s != [] && s[0] == 1 ==> CleanU64(s[1..]) }

  predicate CleanTarget(s: Bytes)
    requires TakeTarget(s).Took?
  {
    var port := TakeText(s).rest;
    CleanU64(s) && CleanU16(port) && CleanU64(TakeU16(port).rest)
  }

  predicate CleanAuth(s: Bytes)
    requires TakeAuth(s).Took?
  {
    var tag := TakeU32(s);
    && CleanU32(s) && CleanU64(tag.rest)
    && (tag.value == 2 ==> CleanOption(TakeText(tag.rest).rest))
  }

  predicate CleanHello(s: Bytes)
    requires TakeU16(s).Took? && TakeText(TakeU16(s).rest).Took?
    requires TakeOption(TakeText(TakeU16(s).rest).rest, TakeBlob).Took?
  {
    var name := TakeU16(s).rest;
    var resume := TakeText(name).rest;
    CleanU16(s) && CleanU64(name) && CleanOption(resume) && CleanOption(TakeOption(resume, TakeBlob).rest)
  }

  predicate CleanOpen(s: Bytes)
    requires TakeTarget(s).Took? && TakeAuth(TakeTarget(s).rest).Took?
  {
    var auth := TakeTarget(s).rest;
    CleanTarget(s) && CleanAuth(auth) && CleanWindow(TakeAuth(auth).rest)
  }

  predicate CleanWindow(s: Bytes) {
    CleanU16(s) && (TakeU16(s).Took? ==> CleanU16(TakeU16(s).rest))
  }

  /** No varint of the client frame at the front of `s` is padded. */
  predicate CleanClient(s: Bytes)
    requires TakeClient(s).Took?
  {
    var tag := TakeU32(s);
    && CleanU32(s)
    && match tag.value
       case 0 => CleanHello(tag.rest)
       case 1 => CleanOpen(tag.rest)
       case 2 => CleanU64(tag.rest)
       case 3 => CleanWindow(tag.rest)
       case 4 => CleanU64(tag.rest) && CleanU64(TakeU64(tag.rest).rest)
       case _ => true
  }

  predicate CleanGreeting(s: Bytes)
    requires TakeU16(s).Took? && TakeU128(TakeU16(s).rest).Took?
    requires TakeBool(TakeU128(TakeU16(s).rest).rest).Took?
  {
    var id := TakeU16(s).rest;
    CleanU16(s) && CleanU128(id) && CleanU64(TakeBool(TakeU128(id).rest).rest)
  }

  predicate CleanRequest(s: Bytes)
    requires TakeU64(s).Took? && TakeBlob(TakeU64(s).rest).Took?
  {
    var key := TakeU64(s).rest;
    CleanU64(s) && CleanU64(key) && CleanU64(TakeBlob(key).rest)
  }

  /** No varint of the server frame at the front of `s` is padded. */
  predicate CleanServer(s: Bytes)
    requires TakeServer(s).Took?
  {
    var tag := TakeU32(s);
    && CleanU32(s)
    && match tag.value
       case 0 => CleanGreeting(tag.rest)
       case 1 => CleanU64(tag.rest)
       case 2 => CleanRequest(tag.rest)
       case 3 => CleanU32(tag.rest)
       case 5 => CleanU64(tag.rest)
       case _ => true
  }

  // ----------------------------------------------- lengths do not depend on the tail

  lemma {:induction false} VarintLength(n: nat, a: Bytes, b: Bytes)
    ensures |PutVarint(n, a)| - |a| == |PutVarint(n, b)| - |b|
  {
    if n >= 0x80 { VarintLength(n / 0x80, a, b); }
  }

  lemma BlobLength(v: Blob, a: Bytes, b: Bytes)
    ensures |PutBlob(v, a)| - |a| == |PutBlob(v, b)| - |b|
  {
    VarintLength(|v|, v + a, v + b);
  }

  lemma OptionLength(v: Option<Blob>, a: Bytes, b: Bytes)
    ensures |PutOption(v, a)| - |a| == |PutOption(v, b)| - |b|
  {
    if v.Some? { BlobLength(v.value, a, b); }
  }

  lemma TargetLength(v: TargetSpec, a: Bytes, b: Bytes)
    ensures |PutTarget(v, a)| - |a| == |PutTarget(v, b)| - |b|
  {
    BlobLength(v.user, a, b);
    VarintLength(v.port, PutBlob(v.user, a), PutBlob(v.user, b));
    BlobLength(v.host, PutVarint(v.port, PutBlob(v.user, a)), PutVarint(v.port, PutBlob(v.user, b)));
  }

  lemma AuthLength(v: AuthIntent, a: Bytes, b: Bytes)
    ensures |PutAuth(v, a)| - |a| == |PutAuth(v, b)| - |b|
  {
    match v
    case DelegatedKey(key) =>
      BlobLength(key, a, b);
      VarintLength(0, PutBlob(key, a), PutBlob(key, b));
    case Password(secret) =>
      BlobLength(secret, a, b);
      VarintLength(1, PutBlob(secret, a), PutBlob(secret, b));
    case PrivateKey(pem, passphrase) =>
      OptionLength(passphrase, a, b);
      BlobLength(pem, PutOption(passphrase, a), PutOption(passphrase, b));
      VarintLength(2, PutBlob(pem, PutOption(passphrase, a)), PutBlob(pem, PutOption(passphrase, b)));
    case GatewayKey(keyId) =>
      BlobLength(keyId, a, b);
      VarintLength(3, PutBlob(keyId, a), PutBlob(keyId, b));
  }

  // ------------------------------------------ a tight value before a tight rest

  lemma VarintThen(n: nat, s: Bytes, rest: Bytes, inner: Bytes, here: bool, after: bool)
    requires Tight(PutVarint(n, rest), s, here) && Tight(inner, rest, after)
    ensures Tight(PutVarint(n, inner), s, here && after)
  {
    VarintLength(n, inner, rest);
  }

  lemma BlobThen(v: Blob, s: Bytes, rest: Bytes, inner: Bytes, here: bool, after: bool)
    requires Tight(PutBlob(v, rest), s, here) && Tight(inner, rest, after)
    ensures Tight(PutBlob(v, inner), s, here && after)
  {
    BlobLength(v, inner, rest);
  }

  lemma OptionThen(v: Option<Blob>, s: Bytes, rest: Bytes, inner: Bytes, here: bool, after: bool)
    requires Tight(PutOption(v, rest), s, here) && Tight(inner, rest, after)
    ensures Tight(PutOption(v, inner), s, here && after)
  {
    OptionLength(v, inner, rest);
  }

  lemma TargetThen(v: TargetSpec, s: Bytes, rest: Bytes, inner: Bytes, here: bool, after: bool)
    requires Tight(PutTarget(v, rest), s, here) && Tight(inner, rest, after)
    ensures Tight(PutTarget(v, inner), s, here && after)
  {
    TargetLength(v, inner, rest);
  }

  lemma AuthThen(v: AuthIntent, s: Bytes, rest: Bytes, inner: Bytes, here: bool, after: bool)
    requires Tight(PutAuth(v, rest), s, here) && Tight(inner, rest, after)
    ensures Tight(PutAuth(v, inner), s, here && after)
  {
    AuthLength(v, inner, rest);
  }

  // ------------------------------------------------------ every reader is tight

  /** Writing back a run of groups is as long as the run exactly if it is not padded. */
  lemma {:induction false} GroupsLength(c: Bytes, tail: Bytes)
    requires Groups(c)
    ensures |PutVarint(GroupsValue(c), tail)| <= |c| + |tail|
    ensures |PutVarint(GroupsValue(c), tail)| == |c| + |tail| <==> !Padded(c)
    ensures GroupsValue(c) == 0 ==> c[|c| - 1] == 0
  {
    if |c| > 1 {
      GroupsLength(c[1..], tail);
      LengthOneMore(c[0], GroupsValue(c[1..]), tail);
    }
  }

  lemma LengthOneMore(lead: Byte, high: nat, tail: Bytes)
    requires lead >= 0x80
    ensures |PutVarint(lead - 0x80 + 0x80 * high, tail)| == 1 + (if high > 0 then |PutVarint(high, tail)| else |tail|)
    ensures high == 0 ==> |PutVarint(high, tail)| == 1 + |tail|
  {
    var n := lead - 0x80 + 0x80 * high;
    if high > 0 {
      assert PutVarint(n, tail) == [lead] + PutVarint(high, tail);
    } else {
      assert PutVarint(n, tail) == [n] + tail;
    }
  }

  lemma VarintTight(s: Bytes, groups: nat, top: Byte)
    requires TakeVarint(s, groups, top).Took?
    ensures var p := TakeVarint(s, groups, top);
            Tight(PutVarint(p.value, p.rest), s, Unpadded(s, groups, top))
  {
    VarintShape(s, groups, top);
    VarintCanonical(s, groups, top);
    var p := TakeVarint(s, groups, top);
    GroupsLength(Consumed(s, p), p.rest);
  }

  lemma BlobTight(s: Bytes)
    requires TakeBlob(s).Took?
    ensures Tight(PutBlob(TakeBlob(s).value, TakeBlob(s).rest), s, CleanU64(s))
  {
    VarintTight(s, 10, 1);
    var p := TakeU64(s);
    assert p.rest[..p.value] + p.rest[p.value..] == p.rest;
  }

  lemma OptionTight(s: Bytes)
    requires TakeOption(s, TakeBlob).Took?
    ensures Tight(PutOption(TakeOption(s, TakeBlob).value, TakeOption(s, TakeBlob).rest), s, CleanOption(s))
  {
    if s[0] == 1 {
      BlobTight(s[1..]);
      Behind(1, s, PutBlob(TakeBlob(s[1..]).value, TakeBlob(s[1..]).rest), CleanU64(s[1..]));
    } else {
      Behind(0, s, s[1..], true);
    }
  }

  lemma OptionTextTight(s: Bytes)
    requires TakeOption(s, TakeText).Took?
    ensures Tight(PutOption(TakeOption(s, TakeText).value, TakeOption(s, TakeText).rest), s, CleanOption(s))
  {
    if s[0] == 1 {
      BlobTight(s[1..]);
      Behind(1, s, PutBlob(TakeBlob(s[1..]).value, TakeBlob(s[1..]).rest), CleanU64(s[1..]));
    } else {
      Behind(0, s, s[1..], true);
    }
  }

  /** A byte that stands for itself keeps what follows tight. */
  lemma Behind(b: Byte, s: Bytes, inner: Bytes, clean: bool)
    requires s != [] && s[0] == b && Tight(inner, s[1..], clean)
    ensures Tight([b] + inner, s, clean)
  {
    assert s == [b] + s[1..] && ([b] + inner)[1..] == inner;
  }

  lemma TargetTight(s: Bytes)
    requires TakeTarget(s).Took?
    ensures Tight(PutTarget(TakeTarget(s).value, TakeTarget(s).rest), s, CleanTarget(s))
  {
    var host := TakeText(s);
    var port := TakeU16(host.rest);
    var user := TakeText(port.rest);
    BlobTight(s);
    VarintTight(host.rest, 3, 3);
    BlobTight(port.rest);
    var s2 := PutBlob(user.value, user.rest);
    VarintThen(port.value, host.rest, port.rest, s2, CleanU16(host.rest), CleanU64(port.rest));
    BlobThen(host.value, s, host.rest, PutVarint(port.value, s2), CleanU64(s), CleanU16(host.rest) && CleanU64(port.rest));
  }

  lemma AuthTight(s: Bytes)
    requires TakeAuth(s).Took?
    ensures Tight(PutAuth(TakeAuth(s).value, TakeAuth(s).rest), s, CleanAuth(s))
  {
    VarintTight(s, 5, 15);
    var tag := TakeU32(s);
    BlobTight(tag.rest);
    var first := TakeBlob(tag.rest);
    if tag.value == 2 {
      var option := TakeOption(first.rest, TakeText);
      OptionTextTight(first.rest);
      var s1 := PutOption(option.value, option.rest);
      BlobThen(first.value, tag.rest, first.rest, s1, CleanU64(tag.rest), CleanOption(first.rest));
      VarintThen(2, s, tag.rest, PutBlob(first.value, s1), CleanU32(s), CleanU64(tag.rest) && CleanOption(first.rest));
    } else {
      VarintThen(tag.value, s, tag.rest, PutBlob(first.value, first.rest), CleanU32(s), CleanU64(tag.rest));
    }
  }

  // ----------------------------------------- the fields that follow a tag

  lemma TagTight(tag: U32, s: Bytes, rest: Bytes, inner: Bytes, clean: bool)
    requires TakeU32(s) == Took(tag, rest) && Tight(inner, rest, clean)
    ensures Tight(PutVarint(tag, inner), s, CleanU32(s) && clean)
  {
    VarintTight(s, 5, 15);
    VarintThen(tag, s, rest, inner, CleanU32(s), clean);
  }

  lemma HelloFieldsTight(s: Bytes, version: U16, s1: Bytes, name: Text, s2: Bytes,
                         resume: Option<Blob>, s3: Bytes, account: Option<Blob>, rest: Bytes)
    requires TakeU16(s) == Took(version, s1) && TakeText(s1) == Took(name, s2)
    requires TakeOption(s2, TakeBlob) == Took(resume, s3) && TakeOption(s3, TakeBlob) == Took(account, rest)
    ensures Tight(PutVarint(version, PutBlob(name, PutOption(resume, PutOption(account, rest)))), s, CleanHello(s))
  {
    VarintTight(s, 3, 3);
    BlobTight(s1);
    OptionTight(s2);
    OptionTight(s3);
    var options := CleanOption(s2) && CleanOption(s3);
    OptionThen(resume, s2, s3, PutOption(account, rest), CleanOption(s2), CleanOption(s3));
    BlobThen(name, s1, s2, PutOption(resume, PutOption(account, rest)), CleanU64(s1), options);
    VarintThen(version, s, s1, PutBlob(name, PutOption(resume, PutOption(account, rest))), CleanU16(s), CleanU64(s1) && options);
  }

  lemma WindowTight(s: Bytes, cols: U16, s1: Bytes, rows: U16, rest: Bytes)
    requires TakeU16(s) == Took(cols, s1) && TakeU16(s1) == Took(rows, rest)
    ensures Tight(PutVarint(cols, PutVarint(rows, rest)), s, CleanWindow(s))
  {
    VarintTight(s, 3, 3);
    VarintTight(s1, 3, 3);
    VarintThen(cols, s, s1, PutVarint(rows, rest), CleanU16(s), CleanU16(s1));
  }

  lemma OpenFieldsTight(s: Bytes, target: TargetSpec, s1: Bytes, auth: AuthIntent, s2: Bytes,
                        cols: U16, s3: Bytes, rows: U16, rest: Bytes)
    requires TakeTarget(s) == Took(target, s1) && TakeAuth(s1) == Took(auth, s2)
    requires TakeU16(s2) == Took(cols, s3) && TakeU16(s3) == Took(rows, rest)
    ensures Tight(PutTarget(target, PutAuth(auth, PutVarint(cols, PutVarint(rows, rest)))), s, CleanOpen(s))
  {
    TargetTight(s);
    AuthTight(s1);
    WindowTight(s2, cols, s3, rows, rest);
    var window := PutVarint(cols, PutVarint(rows, rest));
    AuthThen(auth, s1, s2, window, CleanAuth(s1), CleanWindow(s2));
    TargetThen(target, s, s1, PutAuth(auth, window), CleanTarget(s), CleanAuth(s1) && CleanWindow(s2));
  }

  lemma NumberedTight(s: Bytes, id: U64, s1: Bytes, blob: Blob, s2: Bytes, inner: Bytes, clean: bool)
    requires TakeU64(s) == Took(id, s1) && TakeBlob(s1) == Took(blob, s2) && Tight(inner, s2, clean)
    ensures Tight(PutVarint(id, PutBlob(blob, inner)), s, CleanU64(s) && CleanU64(s1) && clean)
  {
    VarintTight(s, 10, 1);
    BlobTight(s1);
    BlobThen(blob, s1, s2, inner, CleanU64(s1), clean);
    VarintThen(id, s, s1, PutBlob(blob, inner), CleanU64(s), CleanU64(s1) && clean);
  }

  lemma GreetingTight(s: Bytes, version: U16, s1: Bytes, id: U128, s2: Bytes, resumed: bool, s3: Bytes, token: Blob, rest: Bytes)
    requires TakeU16(s) == Took(version, s1) && TakeU128(s1) == Took(id, s2)
    requires TakeBool(s2) == Took(resumed, s3) && TakeBlob(s3) == Took(token, rest)
    ensures Tight(PutVarint(version, PutVarint(id, PutBool(resumed, PutBlob(token, rest)))), s, CleanGreeting(s))
  {
    VarintTight(s, 3, 3);
    VarintTight(s1, 19, 3);
    BlobTight(s3);
    var flagged := PutBool(resumed, PutBlob(token, rest));
    Behind(if resumed then 1 else 0, s2, PutBlob(token, rest), CleanU64(s3));
    VarintThen(id, s1, s2, flagged, CleanU128(s1), CleanU64(s3));
    VarintThen(version, s, s1, PutVarint(id, flagged), CleanU16(s), CleanU128(s1) && CleanU64(s3));
  }

  // ------------------------------------------------------------- the frames

  lemma ClientHelloTight(s: Bytes, f: ClientFrame, rest: Bytes)
    requires TakeClient(s) == Took(f, rest) && f.ClientHello?
    ensures Tight(PutClient(f, rest), s, CleanClient(s))
  {
    var s0 := TakeU32(s).rest;
    var s1 := TakeU16(s0).rest;
    var s2 := TakeText(s1).rest;
    var s3 := TakeOption(s2, TakeBlob).rest;
    var fields := PutVarint(f.version, PutBlob(f.clientName, PutOption(f.resume, PutOption(f.accountToken, rest))));
    HelloFieldsTight(s0, f.version, s1, f.clientName, s2, f.resume, s3, f.accountToken, rest);
    TagTight(0, s, s0, fields, CleanHello(s0));
  }

  lemma OpenTight(s: Bytes, f: ClientFrame, rest: Bytes)
    requires TakeClient(s) == Took(f, rest) && f.Open?
    ensures Tight(PutClient(f, rest), s, CleanClient(s))
  {
    var s0 := TakeU32(s).rest;
    var s1 := TakeTarget(s0).rest;
    var s2 := TakeAuth(s1).rest;
    var s3 := TakeU16(s2).rest;
    var fields := PutTarget(f.target, PutAuth(f.auth, PutVarint(f.cols, PutVarint(f.rows, rest))));
    OpenFieldsTight(s0, f.target, s1, f.auth, s2, f.cols, s3, f.rows, rest);
    TagTight(1, s, s0, fields, CleanOpen(s0));
  }

  lemma InputTight(s: Bytes, f: ClientFrame, rest: Bytes)
    requires TakeClient(s) == Took(f, rest) && f.Input?
    ensures Tight(PutClient(f, rest), s, CleanClient(s))
  {
    var s0 := TakeU32(s).rest;
    BlobTight(s0);
    TagTight(2, s, s0, PutBlob(f.bytes, rest), CleanU64(s0));
  }

  lemma ResizeTight(s: Bytes, f: ClientFrame, rest: Bytes)
    requires TakeClient(s) == Took(f, rest) && f.Resize?
    ensures Tight(PutClient(f, rest), s, CleanClient(s))
  {
    var s0 := TakeU32(s).rest;
    WindowTight(s0, f.cols, TakeU16(s0).rest, f.rows, rest);
    TagTight(3, s, s0, PutVarint(f.cols, PutVarint(f.rows, rest)), CleanWindow(s0));
  }

  lemma SignResponseTight(s: Bytes, f: ClientFrame, rest: Bytes)
    requires TakeClient(s) == Took(f, rest) && f.SignResponse?
    ensures Tight(PutClient(f, rest), s, CleanClient(s))
  {
    var s0 := TakeU32(s).rest;
    var s1 := TakeU64(s0).rest;
    NumberedTight(s0, f.id, s1, f.signature, rest, rest, true);
    TagTight(4, s, s0, PutVarint(f.id, PutBlob(f.signature, rest)), CleanU64(s0) && CleanU64(s1));
  }

  lemma TagOnlyClientTight(s: Bytes, f: ClientFrame, rest: Bytes)
    requires TakeClient(s) == Took(f, rest) && (f.Ping? || f.Close?)
    ensures Tight(PutClient(f, rest), s, CleanClient(s))
  {
    TagTight(if f.Ping? then 5 else 6, s, rest, rest, true);
  }

  /** Reading a client frame off the front and writing it back: never longer, and as
      long, and the same, exactly if no varint read is padded. */
  lemma ClientTight(s: Bytes, f: ClientFrame, rest: Bytes)
    requires TakeClient(s) == Took(f, rest)
    ensures Tight(PutClient(f, rest), s, CleanClient(s))
  {
    match f
    case ClientHello(_, _, _, _) => ClientHelloTight(s, f, rest);
    case Open(_, _, _, _) => OpenTight(s, f, rest);
    case Input(_) => InputTight(s, f, rest);
    case Resize(_, _) => ResizeTight(s, f, rest);
    case SignResponse(_, _) => SignResponseTight(s, f, rest);
    case Ping => TagOnlyClientTight(s, f, rest);
    case Close => TagOnlyClientTight(s, f, rest);
  }

  lemma ServerHelloTight(s: Bytes, f: ServerFrame, rest: Bytes)
    requires TakeServer(s) == Took(f, rest) && f.ServerHello?
    ensures Tight(PutServer(f, rest), s, CleanServer(s))
  {
    var s0 := TakeU32(s).rest;
    var s1 := TakeU16(s0).rest;
    var s2 := TakeU128(s1).rest;
    var fields := PutVarint(f.version, PutVarint(f.sessionId, PutBool(f.resumed, PutBlob(f.token, rest))));
    GreetingTight(s0, f.version, s1, f.sessionId, s2, f.resumed, TakeBool(s2).rest, f.token, rest);
    TagTight(0, s, s0, fields, CleanGreeting(s0));
  }

  lemma SignRequestTight(s: Bytes, f: ServerFrame, rest: Bytes)
    requires TakeServer(s) == Took(f, rest) && f.SignRequest?
    ensures Tight(PutServer(f, rest), s, CleanServer(s))
  {
    var s0 := TakeU32(s).rest;
    var s1 := TakeU64(s0).rest;
    var s2 := TakeBlob(s1).rest;
    BlobTight(s2);
    NumberedTight(s0, f.id, s1, f.publicKey, s2, PutBlob(f.data, rest), CleanU64(s2));
    TagTight(2, s, s0, PutVarint(f.id, PutBlob(f.publicKey, PutBlob(f.data, rest))), CleanRequest(s0));
  }

  lemma StatusTight(s: Bytes, f: ServerFrame, rest: Bytes)
    requires TakeServer(s) == Took(f, rest) && f.Status?
    ensures Tight(PutServer(f, rest), s, CleanServer(s))
  {
    var s0 := TakeU32(s).rest;
    TagTight(StatusTag(f.status), s0, rest, rest, true);
    TagTight(3, s, s0, PutVarint(StatusTag(f.status), rest), CleanU32(s0));
  }

  lemma BytesTight(s: Bytes, f: ServerFrame, rest: Bytes)
    requires TakeServer(s) == Took(f, rest) && (f.Output? || f.Error?)
    ensures Tight(PutServer(f, rest), s, CleanServer(s))
  {
    var s0 := TakeU32(s).rest;
    BlobTight(s0);
    TagTight(if f.Output? then 1 else 5, s, s0, PutBlob(if f.Output? then f.bytes else f.message, rest), CleanU64(s0));
  }

  lemma TagOnlyServerTight(s: Bytes, f: ServerFrame, rest: Bytes)
    requires TakeServer(s) == Took(f, rest) && (f.Pong? || f.Closed?)
    ensures Tight(PutServer(f, rest), s, CleanServer(s))
  {
    TagTight(if f.Pong? then 4 else 6, s, rest, rest, true);
  }

  /** The same for server frames. */
  lemma ServerTight(s: Bytes, f: ServerFrame, rest: Bytes)
    requires TakeServer(s) == Took(f, rest)
    ensures Tight(PutServer(f, rest), s, CleanServer(s))
  {
    match f
    case ServerHello(_, _, _, _) => ServerHelloTight(s, f, rest);
    case Output(_) => BytesTight(s, f, rest);
    case SignRequest(_, _, _) => SignRequestTight(s, f, rest);
    case Status(_) => StatusTight(s, f, rest);
    case Pong => TagOnlyServerTight(s, f, rest);
    case Error(_) => BytesTight(s, f, rest);
    case Closed => TagOnlyServerTight(s, f, rest);
  }

  // ------------------------------------------------------------- whole frames

  lemma ClientLength(f: ClientFrame, a: Bytes, b: Bytes)
    ensures |PutClient(f, a)| - |a| == |PutClient(f, b)| - |b|
  {
    match f
    case ClientHello(version, name, resume, account) => ClientHelloLength(f, a, b);
    case Open(target, auth, cols, rows) => OpenLength(f, a, b);
    case Input(bytes) =>
      BlobLength(bytes, a, b);
      VarintLength(2, PutBlob(bytes, a), PutBlob(bytes, b));
    case Resize(cols, rows) =>
      VarintLength(rows, a, b);
      VarintLength(cols, PutVarint(rows, a), PutVarint(rows, b));
      VarintLength(3, PutVarint(cols, PutVarint(rows, a)), PutVarint(cols, PutVarint(rows, b)));
    case SignResponse(id, signature) =>
      BlobLength(signature, a, b);
      VarintLength(id, PutBlob(signature, a), PutBlob(signature, b));
      VarintLength(4, PutVarint(id, PutBlob(signature, a)), PutVarint(id, PutBlob(signature, b)));
    case Ping => VarintLength(5, a, b);
    case Close => VarintLength(6, a, b);
  }

  lemma ClientHelloLength(f: ClientFrame, a: Bytes, b: Bytes)
    requires f.ClientHello?
    ensures |PutClient(f, a)| - |a| == |PutClient(f, b)| - |b|
  {
    var a3, b3 := PutOption(f.accountToken, a), PutOption(f.accountToken, b);
    var a2, b2 := PutOption(f.resume, a3), PutOption(f.resume, b3);
    var a1, b1 := PutBlob(f.clientName, a2), PutBlob(f.clientName, b2);
    OptionLength(f.accountToken, a, b);
    OptionLength(f.resume, a3, b3);
    BlobLength(f.clientName, a2, b2);
    VarintLength(f.version, a1, b1);
    VarintLength(0, PutVarint(f.version, a1), PutVarint(f.version, b1));
  }

  lemma OpenLength(f: ClientFrame, a: Bytes, b: Bytes)
    requires f.Open?
    ensures |PutClient(f, a)| - |a| == |PutClient(f, b)| - |b|
  {
    var a3, b3 := PutVarint(f.rows, a), PutVarint(f.rows, b);
    var a2, b2 := PutVarint(f.cols, a3), PutVarint(f.cols, b3);
    var a1, b1 := PutAuth(f.auth, a2), PutAuth(f.auth, b2);
    VarintLength(f.rows, a, b);
    VarintLength(f.cols, a3, b3);
    AuthLength(f.auth, a2, b2);
    TargetLength(f.target, a1, b1);
    VarintLength(1, PutTarget(f.target, a1), PutTarget(f.target, b1));
  }

  lemma ServerLength(f: ServerFrame, a: Bytes, b: Bytes)
    ensures |PutServer(f, a)| - |a| == |PutServer(f, b)| - |b|
  {
    match f
    case ServerHello(_, _, _, _) => ServerHelloLength(f, a, b);
    case Output(bytes) =>
      BlobLength(bytes, a, b);
      VarintLength(1, PutBlob(bytes, a), PutBlob(bytes, b));
    case SignRequest(_, _, _) => SignRequestLength(f, a, b);
    case Status(status) =>
      VarintLength(StatusTag(status), a, b);
      VarintLength(3, PutVarint(StatusTag(status), a), PutVarint(StatusTag(status), b));
    case Pong => VarintLength(4, a, b);
    case Error(message) =>
      BlobLength(message, a, b);
      VarintLength(5, PutBlob(message, a), PutBlob(message, b));
    case Closed => VarintLength(6, a, b);
  }

  lemma ServerHelloLength(f: ServerFrame, a: Bytes, b: Bytes)
    requires f.ServerHello?
    ensures |PutServer(f, a)| - |a| == |PutServer(f, b)| - |b|
  {
    var a3, b3 := PutBlob(f.token, a), PutBlob(f.token, b);
    var a2, b2 := PutBool(f.resumed, a3), PutBool(f.resumed, b3);
    var a1, b1 := PutVarint(f.sessionId, a2), PutVarint(f.sessionId, b2);
    BlobLength(f.token, a, b);
    VarintLength(f.sessionId, a2, b2);
    VarintLength(f.version, a1, b1);
    VarintLength(0, PutVarint(f.version, a1), PutVarint(f.version, b1));
  }

  lemma SignRequestLength(f: ServerFrame, a: Bytes, b: Bytes)
    requires f.SignRequest?
    ensures |PutServer(f, a)| - |a| == |PutServer(f, b)| - |b|
  {
    var a2, b2 := PutBlob(f.data, a), PutBlob(f.data, b);
    var a1, b1 := PutBlob(f.publicKey, a2), PutBlob(f.publicKey, b2);
    BlobLength(f.data, a, b);
    BlobLength(f.publicKey, a2, b2);
    VarintLength(f.id, a1, b1);
    VarintLength(2, PutVarint(f.id, a1), PutVarint(f.id, b1));
  }

  /** What decodes to a client frame is its encoding exactly if no varint in it is padded
      and nothing follows the frame; that is, exactly if it is as long. Nothing shorter
      decodes to the frame. */
  lemma ClientDecodesExactlyIff(s: Bytes, f: ClientFrame)
    requires DecodeClient(s) == Took(f, [])
    ensures TakeClient(s).Took? && (s == EncodeClient(f) <==> CleanClient(s) && TakeClient(s).rest == [])
    ensures |EncodeClient(f)| <= |s| && (s == EncodeClient(f) <==> |s| == |EncodeClient(f)|)
  {
    ClientTight(s, f, TakeClient(s).rest);
    ClientLength(f, TakeClient(s).rest, []);
  }

  lemma ServerDecodesExactlyIff(s: Bytes, f: ServerFrame)
    requires DecodeServer(s) == Took(f, [])
    ensures TakeServer(s).Took? && (s == EncodeServer(f) <==> CleanServer(s) && TakeServer(s).rest == [])
    ensures |EncodeServer(f)| <= |s| && (s == EncodeServer(f) <==> |s| == |EncodeServer(f)|)
  {
    ServerTight(s, f, TakeServer(s).rest);
    ServerLength(f, TakeServer(s).rest, []);
  }
}
