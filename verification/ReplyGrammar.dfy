/** What a connection may send to its client:
    `SignRequest* (Error | Hello Status(Live) (Data | Pong)* Closed?)`, or any prefix
    of that; a resumed connection greets without asking for signatures. */
module ReplyGrammar {
  import opened Frames

  datatype Phase = Silent | Signing | Refused | Greeted | Streaming | Over | Broken

  function Advance(p: Phase, f: ServerFrame): Phase {
    match p
    case Silent =>
      if f.SignRequest? then Signing else if f.Error? then Refused else if f.ServerHello? then Greeted else Broken
    case Signing =>
      if f.SignRequest? then Signing else if f.Error? then Refused
      else if f.ServerHello? && !f.resumed then Greeted else Broken
    case Greeted => if f == Status(Live) then Streaming else Broken
    case Streaming => if f.Output? || f.Pong? then Streaming else if f.Closed? then Over else Broken
    case _ => Broken
  }

  function Scan(sent: seq<ServerFrame>): Phase {
    if sent == [] then Silent else Advance(Scan(sent[..|sent| - 1]), sent[|sent| - 1])
  }

  lemma ScanOneMore(sent: seq<ServerFrame>, f: ServerFrame)
    ensures Scan(sent + [f]) == Advance(Scan(sent), f)
  {
    assert (sent + [f])[..|sent|] == sent;
  }

  /** `signs` signature requests, then what `phase` says. */
  ghost predicate Shape(sent: seq<ServerFrame>, signs: nat) {
    && signs <= |sent|
    && (forall i :: 0 <= i < signs ==> sent[i].SignRequest?)
    && (|sent| == signs
        || (|sent| == signs + 1 && sent[signs].Error?)
        || (&& sent[signs].ServerHello? && (signs > 0 ==> !sent[signs].resumed)
            && (|sent| > signs + 1 ==> sent[signs + 1] == Status(Live))
            && forall i :: signs + 2 <= i < |sent| ==>
                 sent[i].Output? || sent[i].Pong? || (sent[i].Closed? && i == |sent| - 1)))
  }

  /** The automaton accepts only what the grammar describes. */
  lemma {:induction false} ScanShape(sent: seq<ServerFrame>) returns (signs: nat)
    requires Scan(sent) != Broken
    ensures Shape(sent, signs)
    ensures Scan(sent).Silent? ==> sent == []
    ensures Scan(sent).Signing? ==> signs == |sent|
    ensures Scan(sent).Greeted? ==> |sent| == signs + 1 && sent[signs].ServerHello?
    ensures Scan(sent).Streaming? ==>
              |sent| >= signs + 2 && sent[signs].ServerHello? && forall i :: signs + 2 <= i < |sent| ==> !sent[i].Closed?
  {
    signs := 0;
    if sent != [] {
      var front, last := sent[..|sent| - 1], sent[|sent| - 1];
      signs := ScanShape(front);
      if last.SignRequest? { signs := |sent|; }
    }
  }
}
