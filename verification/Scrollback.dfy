/** The bounded, absolutely addressed scrollback of a session (`gw-core`), and the
    part of `SessionReader::next` that runs under its lock. */
module Scrollback {
  import opened Frames

  const DEFAULT_SCROLLBACK_BYTES := 256 * 1024

  /** The last `n` bytes of `h`, or all of it if it is shorter. */
  function Suffix(h: Bytes, n: nat): Bytes {
    if |h| <= n then h else h[|h| - n..]
  }

  /** The value of `SessionInner`'s fields. */
  datatype Inner = Inner(buf: Bytes, startOffset: nat, endOffset: nat, closed: bool, maxBytes: nat) {
    predicate Addressed() { startOffset + |buf| == endOffset }

    /** Extend, then trim the excess off the front. */
    function Append(data: Bytes): Inner {
      var extended := buf + data;
      var end := endOffset + |data|;
      if |extended| > maxBytes then
        var excess := |extended| - maxBytes;
        Inner(extended[excess..], startOffset + excess, end, closed, maxBytes)
      else
        Inner(extended, startOffset, end, closed, maxBytes)
    }

    /** One look at the buffer from `cursor`: the new cursor and what `next` does.
        The bytes from offset `c` on are the last `endOffset - c` of the buffer. */
    function Look(cursor: nat): Glance
      requires Addressed()
    {
      var c := if cursor < startOffset then startOffset else cursor;
      if c < endOffset then Glance(endOffset, Chunk(Suffix(buf, endOffset - c)))
      else if closed then Glance(c, Finished)
      else Glance(c, Wait)
    }
  }

  datatype Poll = Chunk(bytes: Bytes) | Finished | Wait

  datatype Glance = Glance(cursor: nat, poll: Poll)

  function Empty(maxBytes: nat): Inner { Inner([], 0, 0, false, maxBytes) }

  // ------------------------------------------- what the buffer stands for

  /** `i` is the scrollback of a session whose whole output so far is `h`. */
  ghost predicate Retains(i: Inner, h: Bytes) {
    i.buf == Suffix(h, i.maxBytes) && i.endOffset == |h| && i.startOffset == |h| - |i.buf|
  }

  lemma AppendRetains(i: Inner, h: Bytes, data: Bytes)
    requires Retains(i, h)
    ensures Retains(i.Append(data), h + data)
  {
    var extended := i.buf + data;
    assert extended == (h + data)[|h| - |i.buf|..];
  }

  function Concat(chunks: seq<Bytes>): Bytes {
    if chunks == [] then [] else Concat(chunks[..|chunks| - 1]) + chunks[|chunks| - 1]
  }

  function AppendAll(i: Inner, chunks: seq<Bytes>): Inner {
    if chunks == [] then i else AppendAll(i, chunks[..|chunks| - 1]).Append(chunks[|chunks| - 1])
  }

  /** After any appends the buffer is the last `maxBytes` bytes of everything
      appended, at its absolute offsets. */
  lemma {:induction false} AppendAllRetains(maxBytes: nat, chunks: seq<Bytes>)
    ensures var i := AppendAll(Empty(maxBytes), chunks);
            Retains(i, Concat(chunks)) && i.maxBytes == maxBytes && !i.closed
  {
    if chunks != [] {
      var front := chunks[..|chunks| - 1];
      AppendAllRetains(maxBytes, front);
      AppendRetains(AppendAll(Empty(maxBytes), front), Concat(front), chunks[|chunks| - 1]);
    }
  }

  /** How the output was split into chunks leaves no trace. */
  lemma ChunkingLeavesNoTrace(maxBytes: nat, chunks: seq<Bytes>, others: seq<Bytes>)
    requires Concat(chunks) == Concat(others)
    ensures AppendAll(Empty(maxBytes), chunks) == AppendAll(Empty(maxBytes), others)
  {
    AppendAllRetains(maxBytes, chunks);
    AppendAllRetains(maxBytes, others);
  }

  // ------------------------------------------ what a look at it yields

  /** Bytes a reader at `cursor` has lost to trimming, in terms of output alone. */
  function Lost(h: Bytes, maxBytes: nat, cursor: nat): nat
    requires cursor <= |h|
  {
    if |h| - cursor > maxBytes then |h| - cursor - maxBytes else 0
  }

  /** What is still there for it: all that was retained past its cursor. */
  function Unread(h: Bytes, maxBytes: nat, cursor: nat): Bytes
    requires cursor <= |h|
  {
    Suffix(h, |h| - cursor - Lost(h, maxBytes, cursor))
  }

  function Outcome(bytes: Bytes, closed: bool): Poll {
    if bytes != [] then Chunk(bytes) else if closed then Finished else Wait
  }

  /** A look skips exactly what was trimmed past the cursor, returns everything
      after that, and always leaves the cursor at the end. */
  lemma LookMeaning(i: Inner, h: Bytes, cursor: nat)
    requires Retains(i, h) && cursor <= |h|
    ensures i.Addressed()
    ensures Lost(h, i.maxBytes, cursor) == (if cursor < i.startOffset then i.startOffset - cursor else 0)
    ensures i.Look(cursor) == Glance(|h|, Outcome(Unread(h, i.maxBytes, cursor), i.closed))
  {
    SuffixOfSuffix(h, i.maxBytes, |h| - cursor - Lost(h, i.maxBytes, cursor));
  }

  lemma SuffixOfSuffix(h: Bytes, n: nat, k: nat)
    requires k <= |Suffix(h, n)|
    ensures Suffix(Suffix(h, n), k) == Suffix(h, k)
  {
  }

  // ------------------------------------------------------------- the objects

  /** `SessionInner`: fields updated in place, `history` the output so far. */
  class SessionInner {
    var buf: Bytes
    var startOffset: nat
    var endOffset: nat
    var closed: bool
    const maxBytes: nat
    ghost var history: Bytes

    function Value(): Inner
      reads this
    {
      Inner(buf, startOffset, endOffset, closed, maxBytes)
    }

    ghost predicate Valid()
      reads this
    {
      Retains(Value(), history)
    }

    constructor (maxBytes: nat)
      ensures Valid() && Value() == Empty(maxBytes) && history == []
    {
      buf, startOffset, endOffset, closed := [], 0, 0, false;
      this.maxBytes := maxBytes;
      history := [];
    }

    method Append(data: Bytes)
      requires Valid()
      modifies this
      ensures Valid() && history == old(history) + data && closed == old(closed)
      ensures Value() == old(Value()).Append(data)
    {
      AppendRetains(Value(), history, data);
      history := history + data;
      buf := buf + data;
      endOffset := endOffset + |data|;
      if |buf| > maxBytes {
        var excess := |buf| - maxBytes;
        buf := buf[excess..];
        startOffset := startOffset + excess;
      }
    }

    method Close()
      requires Valid()
      modifies this
      ensures Valid() && history == old(history) && Value() == old(Value()).(closed := true)
    {
      closed := true;
    }
  }

  /** `SessionReader`: one client's cursor into the session's output. */
  class SessionReader {
    const session: SessionInner
    var cursor: nat

    constructor (session: SessionInner)
      ensures this.session == session && cursor == 0
    {
      this.session := session;
      cursor := 0;
    }

    /** The locked block of `next`. */
    method Check() returns (poll: Poll)
      requires session.Valid() && cursor <= |session.history|
      modifies this
      ensures cursor == |session.history|
      ensures poll == Outcome(Unread(session.history, session.maxBytes, old(cursor)), session.closed)
      ensures Glance(cursor, poll) == session.Value().Look(old(cursor))
    {
      LookMeaning(session.Value(), session.history, cursor);
      if cursor < session.startOffset {
        cursor := session.startOffset;
      }
      if cursor < session.endOffset {
        var lo := cursor - session.startOffset;
        var chunk := session.buf[lo..];
        assert chunk == Suffix(session.buf, session.endOffset - cursor);
        cursor := session.endOffset;
        return Chunk(chunk);
      }
      if session.closed {
        return Finished;
      }
      return Wait;
    }
  }
}
