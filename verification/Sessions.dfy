/** The registry of live sessions of `gw-core`: two maps, by id and by resume token,
    changed together, refining a single token-to-session map. */
module Sessions {
  import opened Frames

  /** What the registry needs to know of a session. */
  datatype Session = Session(id: SessionId, token: Token)

  datatype Registry = Registry(byId: map<SessionId, Session>, byToken: map<Token, SessionId>) {
    function Create(s: Session): Registry { Registry(byId[s.id := s], byToken[s.token := s.id]) }

    function Resume(token: Token): Option<Session> {
      if token in byToken && byToken[token] in byId then Some(byId[byToken[token]]) else None
    }

    function Remove(id: SessionId): Registry {
      if id in byId then Registry(byId - {id}, byToken - {byId[id].token}) else this
    }

    /** The maps are inverse to each other. */
    ghost predicate Consistent() {
      && (forall id :: id in byId ==>
            byId[id].id == id && byId[id].token in byToken && byToken[byId[id].token] == id)
      && (forall t :: t in byToken ==> byToken[t] in byId && byId[byToken[t]].token == t)
    }

    /** The one map they stand for. */
    function Live(): map<Token, Session> {
      map t | t in byToken && byToken[t] in byId :: byId[byToken[t]]
    }
  }

  const NoSessions := Registry(map[], map[])

  /** Inserting keeps the maps inverse exactly when the id and the token are both
      new, or belong to each other already. */
  lemma CreateConsistentIff(r: Registry, s: Session)
    requires r.Consistent()
    ensures r.Create(s).Consistent() <==>
              (s.id !in r.byId && s.token !in r.byToken)
              || (s.id in r.byId && r.byId[s.id].token == s.token)
  {
    var t := r.Create(s);
    if s.id in r.byId && r.byId[s.id].token != s.token {
      assert t.byToken[r.byId[s.id].token] == s.id && t.byId[s.id].token == s.token;
    } else if s.id !in r.byId && s.token in r.byToken {
      var other := r.byToken[s.token];
      assert t.byId[other].token == s.token && t.byToken[s.token] == s.id;
    }
  }

  lemma CreateRefines(r: Registry, s: Session)
    requires r.Consistent() && s.id !in r.byId && s.token !in r.byToken
    ensures r.Create(s).Consistent() && r.Create(s).Live() == r.Live()[s.token := s]
    ensures r.Create(s).Remove(s.id) == r
  {
    assert r.Create(s).Remove(s.id).byId == r.byId;
    assert r.Create(s).Remove(s.id).byToken == r.byToken;
  }

  lemma RemoveRefines(r: Registry, id: SessionId)
    requires r.Consistent()
    ensures r.Remove(id).Consistent() && r.Remove(id).Remove(id) == r.Remove(id)
    ensures r.Remove(id).Live() == if id in r.byId then r.Live() - {r.byId[id].token} else r.Live()
  {
  }

  /** Each operation acts on the one map as its name says; removing is idempotent. */
  lemma OperationsRefine(r: Registry, s: Session, id: SessionId, token: Token)
    requires r.Consistent()
    ensures r.Resume(token) == if token in r.Live() then Some(r.Live()[token]) else None
    ensures r.Remove(id).Consistent() && r.Remove(id).Remove(id) == r.Remove(id)
    ensures r.Remove(id).Live() == if id in r.byId then r.Live() - {r.byId[id].token} else r.Live()
    ensures s.id !in r.byId && s.token !in r.byToken ==>
              r.Create(s).Consistent() && r.Create(s).Live() == r.Live()[s.token := s]
              && r.Create(s).Remove(s.id) == r
  {
    RemoveRefines(r, id);
    if s.id !in r.byId && s.token !in r.byToken { CreateRefines(r, s); }
  }

  lemma {:induction false} SameSize(r: Registry)
    requires r.Consistent()
    ensures |r.byId| == |r.byToken|
    decreases |r.byId|
  {
    if r.byId == map[] {
      assert r.byToken.Keys == {};
    } else {
      var id :| id in r.byId;
      var smaller := r.Remove(id);
      OperationsRefine(r, r.byId[id], id, r.byId[id].token);
      assert smaller.byId.Keys == r.byId.Keys - {id};
      assert smaller.byToken.Keys == r.byToken.Keys - {r.byId[id].token};
      SameSize(smaller);
      assert |r.byId.Keys| == |smaller.byId.Keys| + 1 && |r.byToken.Keys| == |smaller.byToken.Keys| + 1;
    }
  }

  // ---------------------------------------------------- runs of operations

  datatype Op = Created(s: Session) | Removed(id: SessionId)

  function Run(ops: seq<Op>): Registry {
    if ops == [] then NoSessions
    else
      var before := Run(ops[..|ops| - 1]);
      match ops[|ops| - 1]
      case Created(s) => before.Create(s)
      case Removed(id) => before.Remove(id)
  }

  /** Ids and tokens are never drawn twice. */
  ghost predicate Fresh(ops: seq<Op>) {
    forall i, j :: 0 <= i < j < |ops| && ops[i].Created? && ops[j].Created? ==>
      ops[i].s.id != ops[j].s.id && ops[i].s.token != ops[j].s.token
  }

  /** `s` was created and not removed since. */
  ghost predicate Alive(ops: seq<Op>, s: Session) {
    exists k :: 0 <= k < |ops| && ops[k] == Created(s) && forall j :: k < j < |ops| ==> ops[j] != Removed(s.id)
  }

  lemma AliveAfter(ops: seq<Op>, op: Op, s: Session)
    ensures Alive(ops + [op], s) <==> op == Created(s) || (Alive(ops, s) && op != Removed(s.id))
  {
    var more := ops + [op];
    if op == Created(s) {
      assert more[|ops|] == Created(s);
    } else if Alive(ops, s) && op != Removed(s.id) {
      var k :| 0 <= k < |ops| && ops[k] == Created(s) && forall j :: k < j < |ops| ==> ops[j] != Removed(s.id);
      assert more[k] == Created(s);
    }
    if Alive(more, s) && op != Created(s) {
      var k :| 0 <= k < |more| && more[k] == Created(s) && forall j :: k < j < |more| ==> more[j] != Removed(s.id);
      assert ops[k] == Created(s) && more[|ops|] == op;
      assert forall j :: k < j < |ops| ==> ops[j] == more[j];
    }
  }

  /** The registry holds exactly the living sessions. */
  ghost predicate Holds(r: Registry, ops: seq<Op>) {
    r.Consistent() && forall s: Session :: (s.id in r.byId && r.byId[s.id] == s) <==> Alive(ops, s)
  }

  lemma FreshIsNew(r: Registry, ops: seq<Op>, s: Session)
    requires Holds(r, ops) && Fresh(ops + [Created(s)])
    ensures s.id !in r.byId && s.token !in r.byToken
  {
    var more := ops + [Created(s)];
    assert more[|ops|] == Created(s);
    forall id | id in r.byId ensures id != s.id && r.byId[id].token != s.token {
      assert Alive(ops, r.byId[id]);
      var k :| 0 <= k < |ops| && ops[k] == Created(r.byId[id]);
      assert more[k] == ops[k];
    }
  }

  lemma CreatedHolds(r: Registry, ops: seq<Op>, s: Session)
    requires Holds(r, ops) && s.id !in r.byId && s.token !in r.byToken
    ensures Holds(r.Create(s), ops + [Created(s)])
  {
    CreateConsistentIff(r, s);
    forall o: Session
      ensures (o.id in r.Create(s).byId && r.Create(s).byId[o.id] == o) <==> Alive(ops + [Created(s)], o)
    {
      AliveAfter(ops, Created(s), o);
    }
  }

  lemma RemovedHolds(r: Registry, ops: seq<Op>, id: SessionId)
    requires Holds(r, ops)
    ensures Holds(r.Remove(id), ops + [Removed(id)])
  {
    assert r.Remove(id).Consistent();
    forall o: Session
      ensures (o.id in r.Remove(id).byId && r.Remove(id).byId[o.id] == o) <==> Alive(ops + [Removed(id)], o)
    {
      AliveAfter(ops, Removed(id), o);
    }
  }

  /** After any operations on fresh sessions, the maps are inverse and of one size,
      and hold exactly the sessions created and not removed since. */
  lemma {:induction false} RunHoldsAlive(ops: seq<Op>)
    requires Fresh(ops)
    ensures Holds(Run(ops), ops) && |Run(ops).byId| == |Run(ops).byToken|
  {
    if ops != [] {
      var front := ops[..|ops| - 1];
      assert ops == front + [ops[|ops| - 1]];
      RunHoldsAlive(front);
      match ops[|ops| - 1]
      case Created(s) =>
        FreshIsNew(Run(front), front, s);
        CreatedHolds(Run(front), front, s);
      case Removed(id) => RemovedHolds(Run(front), front, id);
    }
    SameSize(Run(ops));
  }

  /** A token resolves to `s` exactly when it is the token of `s`, and `s` was
      created and not removed since: a removed token never resolves again. */
  lemma ResumeIff(ops: seq<Op>, token: Token, s: Session)
    requires Fresh(ops)
    ensures Run(ops).Resume(token) == Some(s) <==> s.token == token && Alive(ops, s)
  {
    RunHoldsAlive(ops);
  }

  /** `SessionManager`: the two maps, updated in place. */
  class SessionManager {
    var byId: map<SessionId, Session>
    var byToken: map<Token, SessionId>

    function Value(): Registry
      reads this
    {
      Registry(byId, byToken)
    }

    constructor ()
      ensures Value() == NoSessions
    {
      byId, byToken := map[], map[];
    }

    /** `id` and `token` are the freshly drawn ones. */
    method Create(id: SessionId, token: Token) returns (s: Session)
      modifies this
      ensures s == Session(id, token) && Value() == old(Value()).Create(s)
    {
      s := Session(id, token);
      byId := byId[id := s];
      byToken := byToken[token := id];
    }

    method Resume(token: Token) returns (found: Option<Session>)
      ensures found == Value().Resume(token)
    {
      if token !in byToken {
        return None;
      }
      var id := byToken[token];
      if id !in byId {
        return None;
      }
      return Some(byId[id]);
    }

    method Remove(id: SessionId)
      modifies this
      ensures Value() == old(Value()).Remove(id)
    {
      if id in byId {
        var s := byId[id];
        byId := byId - {id};
        byToken := byToken - {s.token};
      }
    }

    method Len() returns (n: nat)
      requires Value().Consistent()
      ensures n == |byId| == |Value().Live()|
    {
      n := |byId|;
      SameSize(Value());
      assert Value().Live().Keys == byToken.Keys;
    }
  }
}
