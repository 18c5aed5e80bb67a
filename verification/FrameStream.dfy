/** FrameAccumulator: a chunked character stream cut into STOMP frames at NULs. */
module FrameStream {
  import opened Common
  import opened Text
  import opened HeaderEscaping
  import opened StompFrame

  // ---------------------------------------------------------------- segments of a text

  /** The NUL-terminated segments of a text, and what follows the last NUL. */
  function Segments(s: string): seq<string> {
    var pieces := Split(s, NUL);
    pieces[..|pieces| - 1]
  }

  function Tail(s: string): string {
    var pieces := Split(s, NUL);
    pieces[|pieces| - 1]
  }

  function ParsedAll(segments: seq<string>): (frames: seq<Frame>)
    ensures |frames| == |segments|
    ensures forall i :: 0 <= i < |segments| ==> frames[i] == Parsed(segments[i])
  {
    if segments == [] then [] else [Parsed(segments[0])] + ParsedAll(segments[1..])
  }

  /** The frames that a whole text holds. */
  function Frames(s: string): seq<Frame> {
    ParsedAll(Segments(s))
  }

  lemma SegmentFirst(a: string, rest: string)
    requires NUL !in a
    ensures Segments(a + [NUL] + rest) == [a] + Segments(rest)
    ensures Tail(a + [NUL] + rest) == Tail(rest)
    ensures Frames(a + [NUL] + rest) == [Parsed(a)] + Frames(rest)
  {
    SplitFirst(a, rest, NUL);
  }

  lemma {:induction false} FirstCut(s: string)
    requires NUL in s
    ensures var i := IndexOf(s, NUL);
            && i < |s|
            && s == s[..i] + [NUL] + s[i + 1..]
            && NUL !in s[..i]
            && Frames(s) == [Parsed(s[..i])] + Frames(s[i + 1..])
            && Tail(s) == Tail(s[i + 1..])
  {
    IndexOfCuts(s, NUL);
    var i := IndexOf(s, NUL);
    SegmentFirst(s[..i], s[i + 1..]);
  }

  lemma NoSegment(s: string)
    ensures NUL !in s <==> Segments(s) == []
    ensures NUL !in s ==> Tail(s) == s
    ensures NUL !in Tail(s)
  {
    SplitNone(s, NUL);
  }

  /** Cutting a text anywhere: the first half is drained, its tail waits for the second half. */
  lemma SegmentsConcat(a: string, b: string)
    ensures Segments(a + b) == Segments(a) + Segments(Tail(a) + b)
    ensures Tail(a + b) == Tail(Tail(a) + b)
  {
    var p, q := Split(a, NUL), Split(b, NUL);
    SplitConcat(a, b, NUL);
    MergeLast(p, q);
    NoSegment(a);
    SplitNone(Tail(a), NUL);
    SplitConcat(Tail(a), b, NUL);
    AllButLast(Segments(a), Merge([Tail(a)], q));
  }

  lemma AllButLast(a: seq<string>, b: seq<string>)
    requires b != []
    ensures (a + b)[..|a + b| - 1] == a + b[..|b| - 1] && (a + b)[|a + b| - 1] == b[|b| - 1]
  {}

  lemma FramesConcat(a: string, b: string)
    ensures Frames(a + b) == Frames(a) + Frames(Tail(a) + b)
  {
    SegmentsConcat(a, b);
  }

  // ---------------------------------------------------------------- the accumulator

  /** The buffer and the result after one take: everything up to the first NUL is taken off and parsed. */
  function Taken(buffer: string): (string, Option<Frame>) {
    var i := IndexOf(buffer, NUL);
    if i == |buffer| then (buffer, None) else (buffer[i + 1..], Some(Parsed(buffer[..i])))
  }

  lemma TakenMeaning(buffer: string)
    ensures NUL in buffer <==> Taken(buffer).1.Some?
    ensures NUL in buffer ==>
              && |Taken(buffer).0| < |buffer|
              && Frames(buffer) == [Taken(buffer).1.value] + Frames(Taken(buffer).0)
    ensures Tail(Taken(buffer).0) == Tail(buffer)
  {
    if NUL in buffer {
      FirstCut(buffer);
    }
  }

  class FrameAccumulator {
    var buffer: string

    constructor ()
      ensures buffer == ""
    {
      buffer := "";
    }

    method Push(data: string)
      modifies this
      ensures buffer == old(buffer) + data
    {
      buffer := buffer + data;
    }

    method HasFrames() returns (available: bool)
      ensures available <==> Segments(buffer) != []
    {
      NoSegment(buffer);
      available := NUL in buffer;
    }

    /** Takes the first complete frame off the buffer; None exactly when HasFrames is false. */
    method NextFrame() returns (frame: Option<Frame>)
      modifies this
      ensures (buffer, frame) == Taken(old(buffer))
      ensures frame.None? <==> Segments(old(buffer)) == []
      ensures frame.Some? ==> Frames(old(buffer)) == [frame.value] + Frames(buffer)
      ensures frame.Some? ==> |buffer| < |old(buffer)|
      ensures Tail(buffer) == Tail(old(buffer))
    {
      NoSegment(buffer);
      TakenMeaning(buffer);
      var nullIdx := IndexOf(buffer, NUL);
      if nullIdx == |buffer| {
        return None;
      }
      var parsed := ParseFrame(buffer[..nullIdx]);
      buffer := buffer[nullIdx + 1..];
      frame := Some(parsed);
    }
  }

  // ---------------------------------------------------------------- every run of the accumulator

  datatype Op = Push(data: string) | Take

  datatype Progress = Progress(buffer: string, emitted: seq<Frame>)

  function After(ops: seq<Op>): Progress {
    if ops == [] then Progress("", [])
    else
      var p := After(ops[..|ops| - 1]);
      match ops[|ops| - 1]
      case Push(data) => p.(buffer := p.buffer + data)
      case Take =>
        var (rest, frame) := Taken(p.buffer);
        Progress(rest, if frame.Some? then p.emitted + [frame.value] else p.emitted)
  }

  function Pushed(ops: seq<Op>): string {
    if ops == [] then ""
    else Pushed(ops[..|ops| - 1]) + (if ops[|ops| - 1].Push? then ops[|ops| - 1].data else "")
  }

  /** However pushes and takes interleave and whatever the input: nothing is lost, reordered or invented. */
  lemma {:induction false} ChunkIndependence(ops: seq<Op>)
    ensures Frames(Pushed(ops)) == After(ops).emitted + Frames(After(ops).buffer)
    ensures Tail(Pushed(ops)) == Tail(After(ops).buffer)
    ensures NUL !in After(ops).buffer ==>
              After(ops) == Progress(Tail(Pushed(ops)), Frames(Pushed(ops)))
  {
    NoSegment(After(ops).buffer);
    if ops != [] {
      var init := ops[..|ops| - 1];
      ChunkIndependence(init);
      var p := After(init);
      match ops[|ops| - 1]
      case Push(data) => PushStep(Pushed(init), p.buffer, p.emitted, data);
      case Take =>
        assert Pushed(ops) == Pushed(init);
        TakenMeaning(p.buffer);
        if NUL in p.buffer {
          ConcatAssoc(p.emitted, [Taken(p.buffer).1.value], Frames(Taken(p.buffer).0));
        }
    } else {
      NoSegment("");
    }
  }

  lemma PushStep(pushed: string, buffer: string, emitted: seq<Frame>, data: string)
    requires Frames(pushed) == emitted + Frames(buffer) && Tail(pushed) == Tail(buffer)
    ensures Frames(pushed + data) == emitted + Frames(buffer + data)
    ensures Tail(pushed + data) == Tail(buffer + data)
  {
    FramesConcat(pushed, data);
    FramesConcat(buffer, data);
    ConcatAssoc(emitted, Frames(buffer), Frames(Tail(buffer) + data));
    SegmentsConcat(pushed, data);
    SegmentsConcat(buffer, data);
  }

  // ---------------------------------------------------------------- streams of serialized frames

  /** A frame to send, and the white space the sender puts in front of it. */
  datatype Sent = Sent(gap: string, command: string, entries: seq<Header>, body: string) {
    function Text(): string { Content(command, entries, body) }

    function Value(): Frame { Frame(command, ToMap(entries, map[]), body) }

    predicate WellFormed() { IsBlank(gap) && Distinct(entries) }

    predicate NulFree() {
      && NUL !in command && NUL !in body
      && forall h :: h in entries ==> NUL !in h.key && NUL !in h.value
    }
  }

  function Wire(sent: seq<Sent>): string {
    if sent == [] then "" else sent[0].gap + sent[0].Text() + [NUL] + Wire(sent[1..])
  }

  function Values(sent: seq<Sent>): (values: seq<Frame>)
    ensures |values| == |sent|
    ensures forall i :: 0 <= i < |sent| ==> values[i] == sent[i].Value()
  {
    if sent == [] then [] else [sent[0].Value()] + Values(sent[1..])
  }

  predicate AllWellFormed(sent: seq<Sent>) {
    forall s :: s in sent ==> s.WellFormed()
  }

  /** The streams that arrive unchanged. */
  predicate AllSurvive(sent: seq<Sent>) {
    forall s :: s in sent ==> s.NulFree() && Transparent(s.command, s.entries, s.body)
  }

  lemma {:induction false} HeaderBlockNulFree(entries: seq<Header>)
    ensures NUL !in HeaderBlock(entries) <==> forall h :: h in entries ==> NUL !in h.key && NUL !in h.value
  {
    if entries != [] {
      HeaderBlockNulFree(entries[1..]);
      EscapeIsOneField(entries[0].key);
      EscapeIsOneField(entries[0].value);
      assert entries == [entries[0]] + entries[1..];
      assert NUL in HeaderLine(entries[0]) <==> NUL in entries[0].key || NUL in entries[0].value;
    }
  }

  lemma TextNulFree(s: Sent)
    requires IsBlank(s.gap)
    ensures NUL !in s.gap + s.Text() <==> s.NulFree()
  {
    HeaderBlockNulFree(s.entries);
  }

  /** One more NUL: the segment it closes comes after those that the text before it holds. */
  lemma OneMoreNul(text: string, rest: string)
    ensures Segments(text + [NUL] + rest) == Segments(text) + [Tail(text)] + Segments(rest)
    ensures Tail(text + [NUL] + rest) == Tail(rest)
  {
    ConcatAssoc(text, [NUL], rest);
    SegmentsConcat(text, [NUL] + rest);
    NoSegment(text);
    SegmentFirst(Tail(text), rest);
    ConcatAssoc(Tail(text), [NUL], rest);
    ConcatAssoc(Segments(text), [Tail(text)], Segments(rest));
  }

  /** Each sent frame yields at least one segment, and exactly its own when it holds no NUL. */
  lemma {:induction false} WireSegments(sent: seq<Sent>)
    requires AllWellFormed(sent)
    ensures Tail(Wire(sent)) == ""
    ensures |Segments(Wire(sent))| >= |sent|
    ensures |Segments(Wire(sent))| == |sent| ==> EachItsOwn(sent, Segments(Wire(sent)))
    ensures AllNulFree(sent) ==> |Segments(Wire(sent))| == |sent|
  {
    if sent != [] {
      assert sent[0] in sent && forall x :: x in sent[1..] ==> x in sent;
      WireSegments(sent[1..]);
      WireStep(sent);
      OneMoreFrame(sent, Segments(Wire(sent)), Segments(Wire(sent[1..])));
    }
  }

  /** Segment by segment, the text of the frame that was sent, none of which holds a NUL. */
  predicate EachItsOwn(sent: seq<Sent>, segments: seq<string>)
    requires |segments| == |sent|
  {
    forall i :: 0 <= i < |sent| ==> sent[i].NulFree() && segments[i] == sent[i].gap + sent[i].Text()
  }

  predicate AllNulFree(sent: seq<Sent>) {
    forall s :: s in sent ==> s.NulFree()
  }

  lemma OneMoreFrame(sent: seq<Sent>, all: seq<string>, rest: seq<string>)
    requires sent != [] && |rest| >= |sent[1..]|
    requires |rest| == |sent[1..]| ==> EachItsOwn(sent[1..], rest)
    requires AllNulFree(sent[1..]) ==> |rest| == |sent[1..]|
    requires sent[0].NulFree() ==> all == [sent[0].gap + sent[0].Text()] + rest
    requires !sent[0].NulFree() ==> |all| >= 2 + |rest|
    ensures |all| >= |sent|
    ensures |all| == |sent| ==> EachItsOwn(sent, all)
    ensures AllNulFree(sent) ==> |all| == |sent|
  {
    assert sent[0] in sent && forall x :: x in sent[1..] ==> x in sent;
    if |all| == |sent| {
      forall i | 0 <= i < |sent| ensures sent[i].NulFree() && all[i] == sent[i].gap + sent[i].Text() {
        if i > 0 { assert sent[i] == sent[1..][i - 1] && all[i] == rest[i - 1]; }
      }
    }
  }

  /** The first frame sent adds its own segment, and more only when it holds a NUL. */
  lemma WireStep(sent: seq<Sent>)
    requires sent != [] && IsBlank(sent[0].gap)
    ensures sent[0].NulFree() ==>
              Segments(Wire(sent)) == [sent[0].gap + sent[0].Text()] + Segments(Wire(sent[1..]))
    ensures !sent[0].NulFree() ==> |Segments(Wire(sent))| >= 2 + |Segments(Wire(sent[1..]))|
    ensures Tail(Wire(sent)) == Tail(Wire(sent[1..]))
  {
    var text := sent[0].gap + sent[0].Text();
    OneMoreNul(text, Wire(sent[1..]));
    NoSegment(text);
    TextNulFree(sent[0]);
  }

  /**
   * The stream round trip: the frames that come out of a sent stream are the frames that went in
   * exactly when every one of them is transparent and holds no NUL.
   */
  lemma {:induction false} StreamRoundTripIff(sent: seq<Sent>, trailing: string)
    requires AllWellFormed(sent)
    requires IsBlank(trailing)
    ensures Frames(Wire(sent) + trailing) == Values(sent)
       <==> AllSurvive(sent)
    ensures Tail(Wire(sent) + trailing) == trailing
  {
    WireSegments(sent);
    TrailingBlank(Wire(sent), trailing);
    var segments := Segments(Wire(sent));
    if |segments| == |sent| {
      forall i | 0 <= i < |sent|
        ensures Parsed(segments[i]) == sent[i].Value() <==> Transparent(sent[i].command, sent[i].entries, sent[i].body)
      {
        SentRoundTrip(sent, i);
      }
    }
  }

  lemma TrailingBlank(text: string, trailing: string)
    requires Tail(text) == "" && IsBlank(trailing)
    ensures Segments(text + trailing) == Segments(text) && Tail(text + trailing) == trailing
  {
    SegmentsConcat(text, trailing);
    assert "" + trailing == trailing;
    NoSegment(trailing);
  }

  lemma SentRoundTrip(sent: seq<Sent>, i: nat)
    requires i < |sent| && AllWellFormed(sent)
    ensures Parsed(sent[i].gap + sent[i].Text()) == sent[i].Value()
       <==> Transparent(sent[i].command, sent[i].entries, sent[i].body)
  {
    assert sent[i] in sent;
    LeadingBlankNeutral(sent[i].gap, sent[i].Text());
    FrameRoundTripIff(sent[i].command, sent[i].entries, sent[i].body);
  }

  // ---------------------------------------------------------------- white space between frames

  /** White space in front of a text changes none of its frames. */
  lemma GapFrames(gap: string, s: string)
    requires IsBlank(gap)
    ensures Frames(gap + s) == Frames(s)
    ensures Tail(gap + s) == if NUL in s then Tail(s) else gap + s
  {
    NoSegment(gap + s);
    NoSegment(s);
    if NUL in s {
      FirstCut(s);
      var i := IndexOf(s, NUL);
      var a, rest := s[..i], s[i + 1..];
      ConcatAssoc(gap, a + [NUL], rest);
      ConcatAssoc(gap, a, [NUL]);
      SegmentFirst(gap + a, rest);
      LeadingBlankNeutral(gap, a);
    }
  }
}
