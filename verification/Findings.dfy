/** Inputs on which the code does not do what its comments and callers expect of it. */
module Findings {
  import opened Common
  import opened Text
  import HeaderEscaping
  import StompFrame
  import FrameStream
  import HeartbeatGaps
  import ReceiveLoop
  import RequestGuard
  import SessionRegistry
  import Delivery
  import ChatClient

  // ---------------------------------------------------------------- the codec

  /** A backslash before a literal `c` comes back before a colon; one pass would have kept it. */
  lemma BackslashBeforeC()
    ensures HeaderEscaping.Unescape(HeaderEscaping.Escape("\\c")) == "\\:"
    ensures HeaderEscaping.DecodeOnePass(HeaderEscaping.Escape("\\c")) == "\\c"
  {
    HeaderEscaping.UnescapeEscape("\\c");
    HeaderEscaping.DecodeOnePassUndoesEscape("\\c");
    assert HeaderEscaping.GarbledAt("\\c", 1);
  }

  /** A header named `__proto__` never arrives, in whatever frame it is sent alone. */
  lemma ProtoHeaderIsLost(command: string, value: string, body: string)
    requires LF !in command && !IsBlank(command)
    ensures var sent := [StompFrame.Header("__proto__", value)];
            StompFrame.Parsed(StompFrame.Content(command, sent, body)).headers == map[]
  {
    LoneHeader(command, "__proto__", value, body);
  }

  lemma LoneHeader(command: string, key: string, value: string, body: string)
    requires LF !in command && !IsBlank(command) && '\\' !in key && key != ""
    ensures var sent := [StompFrame.Header(key, value)];
            var expected := StompFrame.Assign(map[], key, HeaderEscaping.Garbled(value));
            StompFrame.Parsed(StompFrame.Content(command, sent, body)).headers == expected
  {
    var sent := [StompFrame.Header(key, value)];
    StompFrame.ParsedContent(command, sent, body);
    HeaderEscaping.UnescapeEscape(key);
    HeaderEscaping.RoundTripIff(key);
    assert sent[1..] == [];
  }

  // ---------------------------------------------------------------- heartbeats and the byte limit

  /** A line feed dropped inside a body changes the frame for some continuation. */
  lemma HeartbeatInsideBody()
    ensures !HeartbeatGaps.Neutral("SEND\n\nhello", "\n")
  {
    HeartbeatGaps.LineFeedGapIff("SEND\n\nhello", "\n");
    assert "\n" == [LF] && !IsSpace("SEND\n\nhello"[0]);
  }

  /** A space dropped behind a header line without a key changes none, although a frame is open. */
  lemma GapInIgnoredHeader()
    ensures HeartbeatGaps.Neutral("C\n:x", " ") && !IsBlank("C\n:x")
  {
    assert "C\n:x" == "C" + [LF] + ":x";
    assert "C"[0] == 'C' && ":x"[0] == ':' && "C\n:x"[0] == 'C' && !IsSpace('C') && !IsSpace(':');
    SecondLineOpen("C", ":x");
    assert IndexOf(":x", ':') == 0;
    HeartbeatGaps.IgnoredLineNeutral("C\n:x", " ");
  }

  lemma SecondLineOpen(command: string, line: string)
    requires LF !in command && LF !in line && !IsBlank(command) && !IsBlank(line)
    ensures var buffered := command + [LF] + line;
            HeartbeatGaps.InHeaderLine(buffered) && HeartbeatGaps.OpenLine(buffered) == line
  {
    SplitFirst(command, line, LF);
    SplitNone(line, LF);
    assert [command] + [line] == [command, line] && [command, line][1..] == [line];
    assert !HeartbeatGaps.HeadersEnd([line]);
  }

  /** One byte more than a mebibyte of traffic overflows a connection whose buffer is empty. */
  lemma OverflowWithEmptyBuffer()
    ensures var full := ReceiveLoop.Message(seq(ReceiveLoop.MAX_BUFFER_BYTES - 1, i => 'x') + [NUL], 0);
            && ReceiveLoop.Run([full], 0).buffer == "" && !ReceiveLoop.Run([full], 0).overflowed
            && ReceiveLoop.Run([full, ReceiveLoop.Message("x", 1)], 0).overflowed
  {
    var text := seq(ReceiveLoop.MAX_BUFFER_BYTES - 1, i => 'x');
    PlainBytes(|text|);
    assert text[0] == 'x' && "x"[0] == 'x' && !IsSpace('x');
    FullThenOneMore(text, "x");
  }

  lemma FullThenOneMore(text: string, more: string)
    requires NUL !in text && !IsBlank(text) && !IsBlank(more) && more != ""
    requires ReceiveLoop.Utf8Bytes(text) == ReceiveLoop.MAX_BUFFER_BYTES - 1
    ensures var full := ReceiveLoop.Message(text + [NUL], 0);
            && ReceiveLoop.Run([full], 0).buffer == "" && !ReceiveLoop.Run([full], 0).overflowed
            && ReceiveLoop.Run([full, ReceiveLoop.Message(more, 1)], 0).overflowed
  {
    var full, last := ReceiveLoop.Message(text + [NUL], 0), ReceiveLoop.Message(more, 1);
    BlankConcat(text, [NUL]);
    assert (text + [NUL])[..|text + [NUL]| - 1] == text;
    assert [full, last][..1] == [full] && [full][..0] == [];
    ReceiveLoop.RunCounts([full], 0);
    ReceiveLoop.RunCounts([full, last], 0);
    ReceiveLoop.Utf8Concat(more, "");
    EmptyTail(text);
  }

  lemma EmptyTail(text: string)
    requires NUL !in text
    ensures FrameStream.Tail("" + (text + [NUL])) == ""
  {
    FrameStream.SegmentFirst(text, "");
    assert text + [NUL] + "" == "" + (text + [NUL]);
  }

  lemma {:induction false} PlainBytes(n: nat)
    ensures ReceiveLoop.Utf8Bytes(seq(n, i => 'x')) == n
  {
    if n > 0 {
      PlainBytes(n - 1);
      assert seq(n, i => 'x')[..n - 1] == seq(n - 1, i => 'x');
    }
  }

  // ---------------------------------------------------------------- the request guard

  /** When cleaning reads the clock 1402 ms after the request did, a double submit is let through. */
  lemma LateCleaning(key: string)
    ensures var first := RequestGuard.Attempt(1, 1, Some(key));
            var again := RequestGuard.Attempt(1000, 2402, Some(key));
            && RequestGuard.ClockRuns([first, again])
            && RequestGuard.Log([first, again])
               == [RequestGuard.Entry(1, Some(key)), RequestGuard.Entry(1000, Some(key))]
  {
    var first, again := RequestGuard.Attempt(1, 1, Some(key)), RequestGuard.Attempt(1000, 2402, Some(key));
    OneAccepted(key);
    RequestGuard.GuardRefinesLog([first], again);
    assert [first, again][..1] == [first];
  }

  lemma OneAccepted(key: string)
    ensures RequestGuard.Log([RequestGuard.Attempt(1, 1, Some(key))]) == [RequestGuard.Entry(1, Some(key))]
    ensures RequestGuard.CountSince([RequestGuard.Entry(1, Some(key))], -1000) == 1
    ensures RequestGuard.LastAccepted([RequestGuard.Entry(1, Some(key))], key) == Some(1)
  {
    var first, entry := RequestGuard.Attempt(1, 1, Some(key)), RequestGuard.Entry(1, Some(key));
    assert [first][..0] == [] && [entry][..0] == [];
    assert RequestGuard.Cleaned(map[], 1) == map[];
    assert RequestGuard.CountSince([], -1000) == 0;
  }

  // ---------------------------------------------------------------- sessions and conversations

  /** One connection authenticates as A and then as B. */
  function TwoIdentities(): seq<SessionRegistry.Event> {
    [SessionRegistry.Connection(0),
     SessionRegistry.Connect(0, Some(SessionRegistry.Claims("A", "STUDENT", []))),
     SessionRegistry.Connect(0, Some(SessionRegistry.Claims("B", "STUDENT", [])))]
  }

  lemma ExecAppend(run: seq<SessionRegistry.Event>, e: SessionRegistry.Event)
    requires SessionRegistry.Exec(run).Some? && SessionRegistry.Enabled(SessionRegistry.Exec(run).value, e)
    ensures SessionRegistry.Exec(run + [e]) == Some(SessionRegistry.Step(SessionRegistry.Exec(run).value, e))
  {
    assert (run + [e])[..|run|] == run;
  }

  /** After a second CONNECT the first identity still has the connection in its set. */
  lemma SecondIdentity()
    ensures SessionRegistry.Exec(TwoIdentities()).Some?
    ensures var r := SessionRegistry.Exec(TwoIdentities()).value.reg;
            && r.Indexed("A", 0) && !r.Owns("A", 0) && r.Owns("B", 0)
            && Delivery.Live(r, 0) && r.sessions[0].authenticated
  {
    var events := TwoIdentities();
    assert events == [] + [events[0]] + [events[1]] + [events[2]];
    ExecAppend([], events[0]);
    ExecAppend([] + [events[0]], events[1]);
    ExecAppend([] + [events[0]] + [events[1]], events[2]);
  }

  /** When it then subscribes to its message queue, B's connection gets the messages meant for A. */
  lemma MessagesOfFirstIdentity()
    ensures var run := TwoIdentities() + [SessionRegistry.Subscribe(0, "q", Delivery.MESSAGES)];
            SessionRegistry.Exec(run).Some? && Delivery.ForeignCopies(SessionRegistry.Exec(run).value.reg)
  {
    SecondIdentity();
    var e := SessionRegistry.Subscribe(0, "q", Delivery.MESSAGES);
    ExecAppend(TwoIdentities(), e);
    var r := SessionRegistry.Exec(TwoIdentities() + [e]).value.reg;
    assert |Delivery.MESSAGES| > 0;
    assert "q" in r.sessions[0].IdsFor(Delivery.MESSAGES);
    assert r.Indexed("A", 0) && !r.Owns("A", 0);
  }

  /** With colons in the ids two pairs of users can share a conversation. */
  lemma SharedConversation()
    ensures Delivery.BuildConversationId("a:b", "c") == Delivery.BuildConversationId("a", "b:c") == "a:b:c"
  {
    assert "a:b"[0] < "c"[0] && "a"[0] < "b:c"[0];
    assert "a:b" + ":" + "c" == "a:b:c" && "a" + ":" + "b:c" == "a:b:c";
  }

  // ---------------------------------------------------------------- the chat client

  lemma RunAppend(events: seq<ChatClient.Event>, e: ChatClient.Event)
    ensures ChatClient.Run(events + [e]) == ChatClient.Step(ChatClient.Run(events), e)
  {
    assert (events + [e])[..|events|] == events;
  }

  /** A frame that sendOrQueue took on without a token is gone at once. */
  lemma DroppedWithoutToken(f: ChatClient.Frame)
    ensures var o := ChatClient.Run([ChatClient.Send(f, false)]).outbox;
            o.accepted == [f] && o.dropped == [f] && o.pending == [] && o.sent == []
  {
    RunAppend([], ChatClient.Send(f, false));
    assert [] + [ChatClient.Send(f, false)] == [ChatClient.Send(f, false)];
  }

  /** With a token: connect, then queue two frames while the client is dialing. */
  function TwoQueued(f: ChatClient.Frame, g: ChatClient.Frame): seq<ChatClient.Event> {
    [ChatClient.Token(true), ChatClient.Connect, ChatClient.Send(f, false), ChatClient.Send(g, false)]
  }

  lemma AfterTwoQueued(f: ChatClient.Frame, g: ChatClient.Frame)
    ensures var s := ChatClient.Run(TwoQueued(f, g));
            && s.outbox == ChatClient.Outbox([f, g], [], [], [f, g])
            && s.hasToken && s.link == ChatClient.Client(0, false) && s.dialing == {0}
  {
    var events := TwoQueued(f, g);
    RunAppend([], events[0]);
    RunAppend([] + [events[0]], events[1]);
    RunAppend([] + [events[0]] + [events[1]], events[2]);
    RunAppend([] + [events[0]] + [events[1]] + [events[2]], events[3]);
    assert events == [] + [events[0]] + [events[1]] + [events[2]] + [events[3]];
  }

  /** Two frames that fail in one flush change places. */
  lemma FailedFramesChangePlaces(f: ChatClient.Frame, g: ChatClient.Frame)
    ensures ChatClient.Run(TwoQueued(f, g) + [ChatClient.Established(0, [true, true])]).outbox.pending == [g, f]
  {
    AfterTwoQueued(f, g);
    RunAppend(TwoQueued(f, g), ChatClient.Established(0, [true, true]));
    assert ChatClient.ThrownOf([f, g], [true, true], 1) == [f];
  }

  /** A frame that fails before another one goes through is overtaken by it. */
  lemma FailedFrameIsOvertaken(f: ChatClient.Frame, g: ChatClient.Frame)
    ensures var o := ChatClient.Run(TwoQueued(f, g) + [ChatClient.Established(0, [true, false])]).outbox;
            o.accepted == [f, g] && o.sent == [g] && o.pending == [f]
  {
    AfterTwoQueued(f, g);
    RunAppend(TwoQueued(f, g), ChatClient.Established(0, [true, false]));
    assert ChatClient.ThrownOf([f, g], [true, false], 1) == [f];
    assert ChatClient.GoneOf([f, g], [true, false], 1) == [];
  }
}
