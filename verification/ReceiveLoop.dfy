/** The `data` handler of one WebSocket connection: heartbeats, the size limit, the frame loop. */
module ReceiveLoop {
  import opened Common
  import opened Text
  import opened StompFrame
  import opened FrameStream
  import opened HeartbeatGaps

  const MAX_BUFFER_BYTES := 1024 * 1024

  function Utf8Width(c: char): nat {
    if c as int < 0x80 then 1 else if c as int < 0x800 then 2 else if c as int < 0x1_0000 then 3 else 4
  }

  /** Buffer.byteLength(s, 'utf8'). */
  function Utf8Bytes(s: string): nat {
    if s == "" then 0 else Utf8Bytes(s[..|s| - 1]) + Utf8Width(s[|s| - 1])
  }

  lemma {:induction false} Utf8Concat(s: string, t: string)
    ensures Utf8Bytes(s + t) == Utf8Bytes(s) + Utf8Bytes(t)
    ensures Utf8Bytes(s) >= |s|
    decreases |t|, |s|
  {
    if t != "" {
      Utf8Concat(s, t[..|t| - 1]);
      assert (s + t)[..|s + t| - 1] == s + t[..|t| - 1];
    } else {
      assert s + t == s;
      if s != "" { Utf8Concat(s[..|s| - 1], ""); }
    }
  }

  /** The bytes of one character in UTF-8, as section 3 of RFC 3629 lays them out. */
  function Utf8(c: char): seq<int> {
    var u := c as int;
    if u <= 0x7F then [u]
    else if u <= 0x7FF then [0xC0 + u / 0x40, 0x80 + u % 0x40]
    else if u <= 0xFFFF then [0xE0 + u / 0x40 / 0x40, 0x80 + u / 0x40 % 0x40, 0x80 + u % 0x40]
    else [0xF0 + u / 0x40 / 0x40 / 0x40, 0x80 + u / 0x40 / 0x40 % 0x40, 0x80 + u / 0x40 % 0x40, 0x80 + u % 0x40]
  }

  /** The code point that bytes of that layout stand for. */
  function Utf8Decoded(bytes: seq<int>): int
    requires 1 <= |bytes| <= 4
  {
    if |bytes| == 1 then bytes[0]
    else if |bytes| == 2 then Tail6(bytes[0] - 0xC0, bytes[1])
    else if |bytes| == 3 then Tail6(Tail6(bytes[0] - 0xE0, bytes[1]), bytes[2])
    else Tail6(Tail6(Tail6(bytes[0] - 0xF0, bytes[1]), bytes[2]), bytes[3])
  }

  /** Six more bits, from a continuation byte. */
  function Tail6(high: int, byte: int): int { high * 0x40 + (byte - 0x80) }

  lemma Tail6Undoes(u: nat)
    ensures Tail6(u / 0x40, 0x80 + u % 0x40) == u
  {}

  lemma Utf8RoundTrip(c: char)
    ensures Utf8Decoded(Utf8(c)) == c as int
    ensures |Utf8(c)| == Utf8Width(c)
  {
    var u := c as int;
    Tail6Undoes(u);
    Tail6Undoes(u / 0x40);
    Tail6Undoes(u / 0x40 / 0x40);
  }

  function Encoded(s: string): seq<int> {
    if s == "" then [] else Encoded(s[..|s| - 1]) + Utf8(s[|s| - 1])
  }

  /** The byte length that the limit counts is the length of the text in UTF-8. */
  lemma {:induction false} Utf8BytesLaw(s: string)
    ensures Utf8Bytes(s) == |Encoded(s)|
  {
    if s != "" {
      Utf8BytesLaw(s[..|s| - 1]);
      Utf8RoundTrip(s[|s| - 1]);
    }
  }

  datatype Message = Message(text: string, at: int)

  /** The state of one connection: what the handler keeps, and the frames it has dispatched. */
  datatype Link = Link(buffer: string, totalBytes: nat, lastHeartbeat: int, overflowed: bool, dispatched: seq<Frame>)

  function Handle(l: Link, m: Message): Link {
    if IsBlank(m.text) then l.(lastHeartbeat := m.at)
    else
      var total := l.totalBytes + Utf8Bytes(m.text);
      if total > MAX_BUFFER_BYTES then l.(totalBytes := total, overflowed := true)
      else
        var text := l.buffer + m.text;
        Link(Tail(text), total,
             if Frames(text) == [] then l.lastHeartbeat else m.at,
             l.overflowed, l.dispatched + Frames(text))
  }

  class Connection {
    const accumulator: FrameAccumulator
    var totalBytes: nat
    var lastHeartbeatReceived: int
    var overflowed: bool
    var dispatched: seq<Frame>

    ghost function View(): Link
      reads this, accumulator
    {
      Link(accumulator.buffer, totalBytes, lastHeartbeatReceived, overflowed, dispatched)
    }

    constructor (now: int)
      ensures View() == Link("", 0, now, false, [])
      ensures fresh(accumulator)
    {
      accumulator := new FrameAccumulator();
      totalBytes, lastHeartbeatReceived, overflowed, dispatched := 0, now, false, [];
    }

    method OnData(message: string, now: int)
      modifies this, accumulator
      ensures View() == Handle(old(View()), Message(message, now))
    {
      TrimMeaning(message);
      if Trim(message) == "" {
        lastHeartbeatReceived := now;
        return;
      }
      totalBytes := totalBytes + Utf8Bytes(message);
      if totalBytes > MAX_BUFFER_BYTES {
        overflowed := true;
        return;
      }
      accumulator.Push(message);
      DispatchFrames(now);
    }

    method DispatchFrames(now: int)
      modifies this, accumulator
      ensures var text := old(accumulator.buffer);
              && accumulator.buffer == Tail(text)
              && dispatched == old(dispatched) + Frames(text)
              && lastHeartbeatReceived == if Frames(text) == [] then old(lastHeartbeatReceived) else now
      ensures totalBytes == old(totalBytes) && overflowed == old(overflowed)
    {
      ghost var text := accumulator.buffer;
      ghost var taken := [];
      var available := accumulator.HasFrames();
      while available
        invariant dispatched == old(dispatched) + taken && taken + Frames(accumulator.buffer) == Frames(text)
        invariant Tail(accumulator.buffer) == Tail(text)
        invariant available <==> Segments(accumulator.buffer) != []
        invariant lastHeartbeatReceived == if taken == [] then old(lastHeartbeatReceived) else now
        invariant totalBytes == old(totalBytes) && overflowed == old(overflowed)
        decreases |accumulator.buffer|
      {
        ghost var rest := accumulator.buffer;
        var frame := accumulator.NextFrame();
        ConcatAssoc(taken, [frame.value], Frames(accumulator.buffer));
        ConcatAssoc(old(dispatched), taken, [frame.value]);
        taken := taken + [frame.value];
        lastHeartbeatReceived := now;
        dispatched := dispatched + [frame.value];
        available := accumulator.HasFrames();
      }
      NoSegment(accumulator.buffer);
      assert Frames(accumulator.buffer) == [];
    }
  }

  // ---------------------------------------------------------------- every run of the handler

  function Run(messages: seq<Message>, start: int): Link {
    if messages == [] then Link("", 0, start, false, [])
    else Handle(Run(messages[..|messages| - 1], start), messages[|messages| - 1])
  }

  /** Bytes offered so far: heartbeats are free, refused chunks still count. */
  function Offered(messages: seq<Message>): nat {
    if messages == [] then 0
    else
      var m := messages[|messages| - 1];
      Offered(messages[..|messages| - 1]) + if IsBlank(m.text) then 0 else Utf8Bytes(m.text)
  }

  /** The text that gets past the heartbeat test and the limit. */
  function Accepted(messages: seq<Message>): string {
    if messages == [] then ""
    else
      var m := messages[|messages| - 1];
      Accepted(messages[..|messages| - 1]) +
      if IsBlank(m.text) || Offered(messages) > MAX_BUFFER_BYTES then "" else m.text
  }

  /** The latest sign of life: a heartbeat, or an accepted chunk that closes a frame. */
  function LastSign(messages: seq<Message>, start: int): int {
    if messages == [] then start
    else
      var m := messages[|messages| - 1];
      if IsBlank(m.text) || (Offered(messages) <= MAX_BUFFER_BYTES && NUL in m.text) then m.at
      else LastSign(messages[..|messages| - 1], start)
  }

  function Total(messages: seq<Message>): string {
    if messages == [] then "" else Total(messages[..|messages| - 1]) + messages[|messages| - 1].text
  }

  /** The counters of every run: bytes offered, overflow noticed, latest sign of life. */
  lemma {:induction false} RunCounts(messages: seq<Message>, start: int)
    ensures Run(messages, start).totalBytes == Offered(messages)
    ensures Run(messages, start).overflowed <==> Offered(messages) > 1_048_576
    ensures Run(messages, start).lastHeartbeat == LastSign(messages, start)
    ensures NUL !in Run(messages, start).buffer
  {
    if messages != [] {
      var init, m := messages[..|messages| - 1], messages[|messages| - 1];
      RunCounts(init, start);
      NoSegment(Run(init, start).buffer + m.text);
    }
  }

  /** On every run the frames dispatched are those of the accepted text, and the buffer is its tail. */
  lemma {:induction false} RunDispatches(messages: seq<Message>, start: int)
    ensures Run(messages, start).dispatched == Frames(Accepted(messages))
    ensures Run(messages, start).buffer == Tail(Accepted(messages))
  {
    if messages == [] {
      NoSegment("");
    } else {
      var init, m := messages[..|messages| - 1], messages[|messages| - 1];
      RunDispatches(init, start);
      RunCounts(init, start);
      if IsBlank(m.text) || Offered(messages) > MAX_BUFFER_BYTES {
        assert Accepted(messages) == Accepted(init);
      } else {
        FramesConcat(Accepted(init), m.text);
        SegmentsConcat(Accepted(init), m.text);
      }
    }
  }

  /** On every run the accepted text, and so the buffer, stays within the limit. */
  lemma {:induction false} RunBounded(messages: seq<Message>, start: int)
    ensures Utf8Bytes(Accepted(messages)) <= Offered(messages)
    ensures Utf8Bytes(Accepted(messages)) <= 1_048_576
    ensures Utf8Bytes(Run(messages, start).buffer) <= 1_048_576
  {
    if messages != [] {
      var init, m := messages[..|messages| - 1], messages[|messages| - 1];
      RunBounded(init, start);
      if IsBlank(m.text) || Offered(messages) > MAX_BUFFER_BYTES {
        assert Accepted(messages) == Accepted(init);
      } else {
        Utf8Concat(Accepted(init), m.text);
      }
    }
    RunDispatches(messages, start);
    TailBytes(Accepted(messages));
  }

  lemma TailBytes(s: string)
    ensures Utf8Bytes(Tail(s)) <= Utf8Bytes(s)
  {
    var pieces := Split(s, NUL);
    JoinUndoesSplit(s, NUL);
    JoinLast(pieces);
  }

  lemma {:induction false} JoinLast(pieces: seq<string>)
    requires pieces != []
    ensures Utf8Bytes(pieces[|pieces| - 1]) <= Utf8Bytes(Join(pieces, NUL))
  {
    if |pieces| > 1 {
      JoinLast(pieces[1..]);
      Utf8Concat(pieces[0] + [NUL], Join(pieces[1..], NUL));
    }
  }

  // ---------------------------------------------------------------- dropped heartbeats

  /** The text offered, heartbeats included: only the chunks refused at the limit are left out. */
  function Unrefused(messages: seq<Message>): string {
    if messages == [] then ""
    else
      var m := messages[|messages| - 1];
      Unrefused(messages[..|messages| - 1]) +
      if !IsBlank(m.text) && Offered(messages) > MAX_BUFFER_BYTES then "" else m.text
  }

  /** Every whitespace-only chunk arrives where dropping it cannot be noticed. */
  predicate AllDroppable(messages: seq<Message>, start: int) {
    messages != [] ==>
      var init, m := messages[..|messages| - 1], messages[|messages| - 1];
      && AllDroppable(init, start)
      && (IsBlank(m.text) ==> Droppable(Run(init, start).buffer, m.text))
  }

  /** A connection that has dispatched the frames of `whole`, and goes on as if all of it had been pushed. */
  ghost predicate AsIfPushed(l: Link, whole: string) {
    l.dispatched == Frames(whole) && SameFuture(Tail(whole), l.buffer)
  }

  /** At no moment of the run can anyone tell that heartbeats are dropped instead of pushed. */
  ghost predicate AlwaysAsIfPushed(messages: seq<Message>, start: int) {
    && AsIfPushed(Run(messages, start), Unrefused(messages))
    && (messages != [] ==> AlwaysAsIfPushed(messages[..|messages| - 1], start))
  }

  /** Texts with the same future yield the same frames when they grow by the same text. */
  lemma SameFutureGrows(x: string, y: string, t: string)
    requires SameFuture(x, y) && NUL !in x && NUL !in y
    ensures Frames(x + t) == Frames(y + t)
    ensures SameFuture(Tail(x + t), Tail(y + t))
  {
    if NUL in t {
      IndexOfCuts(t, NUL);
      var i := IndexOf(t, NUL);
      var a, rest := t[..i], t[i + 1..];
      CutAfter(x, a, rest);
      CutAfter(y, a, rest);
    } else {
      NoSegment(x + t);
      NoSegment(y + t);
      SameFutureExtends(x, y, t);
    }
  }

  lemma CutAfter(x: string, a: string, rest: string)
    requires NUL !in x && NUL !in a
    ensures Frames(x + (a + [NUL] + rest)) == [Parsed(x + a)] + Frames(rest)
    ensures Tail(x + (a + [NUL] + rest)) == Tail(rest)
  {
    ConcatAssoc(x, a + [NUL], rest);
    ConcatAssoc(x, a, [NUL]);
    SegmentFirst(x + a, rest);
  }

  lemma SameFutureExtends(x: string, y: string, t: string)
    requires SameFuture(x, y)
    ensures SameFuture(x + t, y + t)
  {
    forall rest ensures Parsed(x + t + rest) == Parsed(y + t + rest) {
      ConcatAssoc(x, t, rest);
      ConcatAssoc(y, t, rest);
    }
  }

  lemma HeartbeatStep(l: Link, whole: string, gap: string)
    requires AsIfPushed(l, whole) && NUL !in l.buffer && IsBlank(gap)
    ensures AsIfPushed(l, whole + gap) <==> Droppable(l.buffer, gap)
  {
    FramesConcat(whole, gap);
    SegmentsConcat(whole, gap);
    NoSegment(whole);
    NoSegment(Tail(whole) + gap);
    SameFutureExtends(Tail(whole), l.buffer, gap);
    GapNeutralIff(l.buffer, gap);
  }

  lemma ChunkStep(l: Link, whole: string, m: Message)
    requires AsIfPushed(l, whole) && NUL !in l.buffer && !IsBlank(m.text)
    ensures AsIfPushed(Handle(l, m), whole + if l.totalBytes + Utf8Bytes(m.text) > MAX_BUFFER_BYTES then "" else m.text)
  {
    if l.totalBytes + Utf8Bytes(m.text) > MAX_BUFFER_BYTES {
      assert whole + "" == whole;
    } else {
      FramesConcat(whole, m.text);
      SegmentsConcat(whole, m.text);
      NoSegment(whole);
      SameFutureGrows(Tail(whole), l.buffer, m.text);
    }
  }

  /**
   * Dropping heartbeats is invisible throughout a run, in the frames dispatched and in every
   * continuation, exactly when each of them is droppable where it arrives.
   */
  lemma {:induction false} DroppedHeartbeatsIff(messages: seq<Message>, start: int)
    ensures AllDroppable(messages, start) <==> AlwaysAsIfPushed(messages, start)
  {
    if messages == [] {
      NoSegment("");
    } else {
      var init, m := messages[..|messages| - 1], messages[|messages| - 1];
      DroppedHeartbeatsIff(init, start);
      RunCounts(init, start);
      if AlwaysAsIfPushed(init, start) {
        if IsBlank(m.text) {
          HeartbeatStep(Run(init, start), Unrefused(init), m.text);
        } else {
          ChunkStep(Run(init, start), Unrefused(init), m);
        }
      }
    }
  }

  /** In particular the frames dispatched are those of the whole text, heartbeats included. */
  lemma DroppedHeartbeatsInvisible(messages: seq<Message>, start: int)
    requires AllDroppable(messages, start)
    ensures Run(messages, start).dispatched == Frames(Unrefused(messages))
    ensures SameFuture(Tail(Unrefused(messages)), Run(messages, start).buffer)
  {
    DroppedHeartbeatsIff(messages, start);
  }

  lemma {:induction false} NothingRefused(messages: seq<Message>)
    requires Offered(messages) <= MAX_BUFFER_BYTES
    ensures Unrefused(messages) == Total(messages)
  {
    if messages != [] {
      NothingRefused(messages[..|messages| - 1]);
    }
  }

  /** Every whitespace-only chunk arrives while the buffer holds no part of a frame. */
  predicate HeartbeatsAtBoundaries(messages: seq<Message>, start: int) {
    messages != [] ==>
      var init, m := messages[..|messages| - 1], messages[|messages| - 1];
      && HeartbeatsAtBoundaries(init, start)
      && (IsBlank(m.text) ==> IsBlank(Run(init, start).buffer))
  }

  /** The case the protocol intends: heartbeats at frame boundaries, and nothing refused. */
  lemma {:induction false} BoundaryHeartbeats(messages: seq<Message>, start: int)
    requires HeartbeatsAtBoundaries(messages, start)
    ensures AllDroppable(messages, start)
    ensures Offered(messages) <= MAX_BUFFER_BYTES ==> Run(messages, start).dispatched == Frames(Total(messages))
  {
    if messages != [] {
      BoundaryHeartbeats(messages[..|messages| - 1], start);
    }
    DroppedHeartbeatsInvisible(messages, start);
    if Offered(messages) <= MAX_BUFFER_BYTES { NothingRefused(messages); }
  }

  /**
   * End to end: serialize frames with white space between them, cut the text anywhere, receive the
   * pieces. Exactly those frames are dispatched, in order, iff each is transparent and holds no NUL.
   */
  lemma ReceivedAsSentIff(sent: seq<Sent>, trailing: string, messages: seq<Message>, start: int)
    requires AllWellFormed(sent)
    requires IsBlank(trailing)
    requires Unrefused(messages) == Wire(sent) + trailing
    requires AllDroppable(messages, start)
    ensures Run(messages, start).dispatched == Values(sent) <==> AllSurvive(sent)
  {
    DroppedHeartbeatsInvisible(messages, start);
    StreamRoundTripIff(sent, trailing);
  }
}
