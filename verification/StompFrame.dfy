/** parseFrame and serializeFrame: one STOMP frame as text and back. */
module StompFrame {
  import opened Common
  import opened Text
  import opened HeaderEscaping

  datatype Frame = Frame(command: string, headers: map<string, string>, body: string)

  /** A header as Object.entries enumerates it. */
  datatype Header = Header(key: string, value: string)

  // ---------------------------------------------------------------- parsing

  /** Writing a string to an object literal: a write to `__proto__` leaves no own property behind. */
  function Assign(headers: map<string, string>, key: string, value: string): map<string, string> {
    if key == "__proto__" then headers else headers[key := value]
  }

  function ReadHeader(line: string, headers: map<string, string>): map<string, string> {
    var colon := IndexOf(line, ':');
    if 0 < colon < |line| then Assign(headers, Unescape(line[..colon]), Unescape(line[colon + 1..]))
    else headers
  }

  function SkipBlank(lines: seq<string>): (rest: seq<string>)
    ensures rest != [] ==> !IsBlank(rest[0]) && rest[0] in lines
  {
    if lines != [] && IsBlank(lines[0]) then SkipBlank(lines[1..]) else lines
  }

  /** The headers up to the first blank line, and the lines after it. */
  function ReadHeaders(lines: seq<string>, headers: map<string, string>): (map<string, string>, seq<string>) {
    if lines == [] then (headers, [])
    else if IsBlank(lines[0]) then (headers, lines[1..])
    else ReadHeaders(lines[1..], ReadHeader(lines[0], headers))
  }

  function StripNul(s: string): string {
    if s != "" && s[|s| - 1] == NUL then s[..|s| - 1] else s
  }

  function ParsedLines(lines: seq<string>): Frame {
    var head := SkipBlank(lines);
    if head == [] then Frame("", map[], "")
    else
      var (headers, rest) := ReadHeaders(head[1..], map[]);
      Frame(Trim(head[0]), headers, StripNul(Join(rest, LF)))
  }

  function Parsed(raw: string): Frame {
    ParsedLines(Split(raw, LF))
  }

  method SkipBlankLines(lines: seq<string>) returns (idx: nat)
    ensures idx <= |lines| && lines[idx..] == SkipBlank(lines)
  {
    idx := 0;
    while idx < |lines| && Trim(lines[idx]) == ""
      invariant idx <= |lines|
      invariant SkipBlank(lines[idx..]) == SkipBlank(lines)
    {
      TrimMeaning(lines[idx]);
      idx := idx + 1;
    }
    if idx < |lines| { TrimMeaning(lines[idx]); }
  }

  method CollectHeaders(lines: seq<string>, start: nat) returns (headers: map<string, string>, idx: nat)
    requires start <= |lines|
    ensures idx <= |lines| && (headers, lines[idx..]) == ReadHeaders(lines[start..], map[])
  {
    headers, idx := map[], start;
    ghost var rest := lines[start..];
    while idx < |lines|
      invariant idx <= |lines| && rest == lines[idx..]
      invariant ReadHeaders(rest, headers) == ReadHeaders(lines[start..], map[])
    {
      var line := lines[idx];
      TrimMeaning(line);
      idx := idx + 1;
      assert line == rest[0];
      rest := rest[1..];
      if Trim(line) == "" {
        break;
      }
      var colon := IndexOf(line, ':');
      if 0 < colon < |line| {
        headers := Assign(headers, Unescape(line[..colon]), Unescape(line[colon + 1..]));
      }
    }
  }

  method ParseFrame(raw: string) returns (frame: Frame)
    ensures frame == Parsed(raw)
  {
    var lines := Split(raw, LF);
    var idx := SkipBlankLines(lines);
    var command := if idx < |lines| then Trim(lines[idx]) else "";
    idx := idx + 1;
    var headers: map<string, string> := map[];
    var remaining := "";
    if idx <= |lines| {
      headers, idx := CollectHeaders(lines, idx);
      remaining := Join(lines[idx..], LF);
    }
    frame := Frame(command, headers, StripNul(remaining));
  }

  /** Whatever the input, the parsed command is trimmed and lies on one line. */
  lemma CommandIsOneWord(raw: string)
    ensures IsTrimmed(Parsed(raw).command) && LF !in Parsed(raw).command
  {
    var head := SkipBlank(Split(raw, LF));
    if head != [] {
      TrimMeaning(head[0]);
    }
  }

  // ---------------------------------------------------------------- what parsing means, for any input

  /** A line that gives header `key` a value: text before its first colon that decodes to the key. */
  predicate Names(line: string, key: string) {
    var colon := IndexOf(line, ':');
    1 <= colon < |line| && Unescape(line[..colon]) == key && key != "__proto__"
  }

  function ValueIn(line: string): string {
    var colon := IndexOf(line, ':');
    if colon < |line| then Unescape(line[colon + 1..]) else ""
  }

  /** The last of the first n lines that names the key. */
  function LastNaming(lines: seq<string>, n: nat, key: string): Option<string>
    requires n <= |lines|
  {
    if n == 0 then None
    else if Names(lines[n - 1], key) then Some(lines[n - 1])
    else LastNaming(lines, n - 1, key)
  }

  function Named(line: string, key: string): Option<string> {
    if Names(line, key) then Some(line) else None
  }

  function Later(second: Option<string>, first: Option<string>): Option<string> {
    if second.Some? then second else first
  }

  lemma {:induction false} LastNamingShift(lines: seq<string>, n: nat, key: string)
    requires 1 <= n <= |lines|
    ensures LastNaming(lines, n, key) == Later(LastNaming(lines[1..], n - 1, key), Named(lines[0], key))
  {
    if n > 1 {
      LastNamingShift(lines, n - 1, key);
      assert lines[1..][n - 2] == lines[n - 1];
    }
  }

  lemma {:induction false} LastNamingPrefix(lines: seq<string>, n: nat, m: nat, key: string)
    requires m <= n <= |lines|
    ensures LastNaming(lines[..n], m, key) == LastNaming(lines, m, key)
  {
    if m > 0 { LastNamingPrefix(lines, n, m - 1, key); }
  }

  /** A header has the value of the line that names it, or is as it was before. */
  predicate LookedUp(headers: map<string, string>, key: string, line: Option<string>, before: map<string, string>) {
    match line
    case Some(l) => key in headers && headers[key] == ValueIn(l)
    case None => (key in headers <==> key in before) && (key in before ==> headers[key] == before[key])
  }

  lemma ReadHeaderMeaning(line: string, acc: map<string, string>, key: string)
    ensures LookedUp(ReadHeader(line, acc), key, Named(line, key), acc)
  {}

  lemma LookedUpTwice(
      last: map<string, string>, middle: map<string, string>, acc: map<string, string>, key: string,
      second: Option<string>, first: Option<string>)
    requires LookedUp(last, key, second, middle) && LookedUp(middle, key, first, acc)
    ensures LookedUp(last, key, Later(second, first), acc)
  {}

  predicate EndsAt(lines: seq<string>, n: nat) {
    n <= |lines| && (forall i :: 0 <= i < n ==> !IsBlank(lines[i])) && (n < |lines| ==> IsBlank(lines[n]))
  }

  /** The header lines end at the first blank line; each key has the value of the last of them that names it. */
  lemma {:induction false} ReadHeadersMeaning(lines: seq<string>, acc: map<string, string>, key: string)
    returns (n: nat)
    ensures EndsAt(lines, n)
    ensures ReadHeaders(lines, acc).1 == if n < |lines| then lines[n + 1..] else []
    ensures LookedUp(ReadHeaders(lines, acc).0, key, LastNaming(lines, n, key), acc)
  {
    if lines == [] || IsBlank(lines[0]) {
      n := 0;
    } else {
      var m := ReadHeadersMeaning(lines[1..], ReadHeader(lines[0], acc), key);
      n := m + 1;
      LastNamingShift(lines, n, key);
      ReadHeaderMeaning(lines[0], acc, key);
      LookedUpTwice(ReadHeaders(lines, acc).0, ReadHeader(lines[0], acc), acc, key,
        LastNaming(lines[1..], m, key), Named(lines[0], key));
      EndsLater(lines, m);
    }
  }

  lemma EndsLater(lines: seq<string>, m: nat)
    requires lines != [] && !IsBlank(lines[0]) && EndsAt(lines[1..], m)
    ensures EndsAt(lines, m + 1)
    ensures m < |lines[1..]| ==> lines[1..][m + 1..] == lines[m + 2..]
  {
    assert forall i :: 1 <= i < |lines| ==> lines[i] == lines[1..][i - 1];
  }

  predicate StartsAt(lines: seq<string>, h: nat) {
    h <= |lines| && (forall i :: 0 <= i < h ==> IsBlank(lines[i])) && (h < |lines| ==> !IsBlank(lines[h]))
  }

  lemma {:induction false} SkipBlankMeaning(lines: seq<string>) returns (h: nat)
    ensures StartsAt(lines, h) && SkipBlank(lines) == lines[h..]
  {
    if lines == [] || !IsBlank(lines[0]) {
      h := 0;
    } else {
      var k := SkipBlankMeaning(lines[1..]);
      h := k + 1;
      assert lines[1..][k..] == lines[h..];
      assert forall i :: 1 <= i < h ==> lines[i] == lines[1..][i - 1];
    }
  }

  /** The text without a NUL at its end. */
  predicate BodyIs(body: string, text: string) {
    if |text| > 0 && text[|text| - 1] == '\0' then body + ['\0'] == text else body == text
  }

  /** What a frame is, given the line of its command and the lines after that one. */
  predicate ReadsAs(f: Frame, command: string, rest: seq<string>, n: nat, key: string) {
    && f.command == Trim(command)
    && EndsAt(rest, n)
    && LookedUp(f.headers, key, LastNaming(rest, n, key), map[])
    && BodyIs(f.body, if n < |rest| then Join(rest[n + 1..], LF) else "")
  }

  lemma HeadMeaning(head: seq<string>, key: string) returns (n: nat)
    requires head != []
    ensures var (headers, rest) := ReadHeaders(head[1..], map[]);
            ReadsAs(Frame(Trim(head[0]), headers, StripNul(Join(rest, LF))), head[0], head[1..], n, key)
  {
    n := ReadHeadersMeaning(head[1..], map[], key);
  }

  /**
   * What the parser makes of any text, by its lines: the command is the first line that is not blank,
   * trimmed; the headers are on the n lines between it and the next blank one, where the last line to
   * name a key wins and a line without a key names none; the body is everything after the blank line,
   * less one NUL at its end.
   */
  lemma ParsedMeaning(raw: string, key: string) returns (h: nat, n: nat)
    ensures StartsAt(Split(raw, LF), h)
    ensures h == |Split(raw, LF)| ==> Parsed(raw) == Frame("", map[], "")
    ensures h < |Split(raw, LF)| ==> ReadsAs(Parsed(raw), Split(raw, LF)[h], Split(raw, LF)[h + 1..], n, key)
  {
    h, n := LinesMeaning(Split(raw, LF), key);
  }

  lemma LinesMeaning(lines: seq<string>, key: string) returns (h: nat, n: nat)
    ensures StartsAt(lines, h)
    ensures h == |lines| ==> ParsedLines(lines) == Frame("", map[], "")
    ensures h < |lines| ==> ReadsAs(ParsedLines(lines), lines[h], lines[h + 1..], n, key)
  {
    h := SkipBlankMeaning(lines);
    n := 0;
    if h < |lines| {
      n := HeadMeaning(lines[h..], key);
      assert lines[h..][0] == lines[h] && lines[h..][1..] == lines[h + 1..];
    }
  }

  // ---------------------------------------------------------------- serializing

  function HeaderLine(h: Header): string {
    Escape(h.key) + ":" + Escape(h.value)
  }

  function HeaderBlock(entries: seq<Header>): string {
    if entries == [] then "" else HeaderLine(entries[0]) + [LF] + HeaderBlock(entries[1..])
  }

  /** A serialized frame without its closing NUL. */
  function Content(command: string, entries: seq<Header>, body: string): string {
    command + [LF] + (HeaderBlock(entries) + [LF] + body)
  }

  lemma {:induction false} HeaderBlockAppend(entries: seq<Header>, h: Header)
    ensures HeaderBlock(entries + [h]) == HeaderBlock(entries) + (HeaderLine(h) + [LF])
  {
    if entries != [] {
      HeaderBlockAppend(entries[1..], h);
      assert (entries + [h])[1..] == entries[1..] + [h];
      ConcatAssoc(HeaderLine(entries[0]) + [LF], HeaderBlock(entries[1..]), HeaderLine(h) + [LF]);
    } else {
      assert (entries + [h])[1..] == [];
    }
  }

  method SerializeFrame(command: string, entries: seq<Header>, body: string) returns (frame: string)
    ensures frame == Content(command, entries, body) + [NUL]
  {
    frame := command + [LF];
    for i := 0 to |entries|
      invariant frame == command + [LF] + HeaderBlock(entries[..i])
    {
      HeaderBlockAppend(entries[..i], entries[i]);
      assert entries[..i] + [entries[i]] == entries[..i + 1];
      var line := Escape(entries[i].key) + ":" + Escape(entries[i].value) + [LF];
      ConcatAssoc(command + [LF], HeaderBlock(entries[..i]), line);
      frame := frame + line;
    }
    assert entries[..|entries|] == entries;
    ConcatAssoc(command + [LF], HeaderBlock(entries), [LF]);
    ConcatAssoc(command + [LF], HeaderBlock(entries) + [LF], body);
    frame := frame + [LF] + body + [NUL];
  }

  // ---------------------------------------------------------------- serialize, then parse

  predicate Distinct(entries: seq<Header>) {
    forall i, j :: 0 <= i < j < |entries| ==> entries[i].key != entries[j].key
  }

  function ToMap(entries: seq<Header>, acc: map<string, string>): map<string, string> {
    if entries == [] then acc else ToMap(entries[1..], acc[entries[0].key := entries[0].value])
  }

  /** The headers that arrive when `entries` are sent. */
  function Received(entries: seq<Header>, acc: map<string, string>): map<string, string> {
    if entries == [] then acc
    else if entries[0].key == "" then Received(entries[1..], acc)
    else Received(entries[1..], Assign(acc, Garbled(entries[0].key), Garbled(entries[0].value)))
  }

  lemma ReadHeaderLine(h: Header, acc: map<string, string>)
    ensures LF !in HeaderLine(h) && !IsBlank(HeaderLine(h))
    ensures ReadHeader(HeaderLine(h), acc)
         == if h.key == "" then acc else Assign(acc, Garbled(h.key), Garbled(h.value))
  {
    var k, v := Escape(h.key), Escape(h.value);
    EscapeIsOneField(h.key);
    EscapeIsOneField(h.value);
    IndexOfFirst(k, ':', v);
    assert k + [':'] + v == HeaderLine(h);
    assert !IsSpace(HeaderLine(h)[|k|]);
    assert HeaderLine(h)[..|k|] == k && HeaderLine(h)[|k| + 1..] == v;
    UnescapeEscape(h.key);
    UnescapeEscape(h.value);
  }

  lemma {:induction false} ReadHeaderBlock(entries: seq<Header>, body: string, acc: map<string, string>)
    ensures ReadHeaders(Split(HeaderBlock(entries) + [LF] + body, LF), acc)
         == (Received(entries, acc), Split(body, LF))
  {
    if entries == [] {
      SplitFirst("", body, LF);
      assert HeaderBlock(entries) + [LF] + body == "" + [LF] + body;
    } else {
      var h, rest := entries[0], HeaderBlock(entries[1..]) + [LF] + body;
      ReadHeaderLine(h, acc);
      assert HeaderBlock(entries) + [LF] + body == HeaderLine(h) + [LF] + rest;
      SplitFirst(HeaderLine(h), rest, LF);
      ReadHeaderBlock(entries[1..], body, ReadHeader(HeaderLine(h), acc));
    }
  }

  /** What the parser makes of a serialized frame whose command is a non-blank line. */
  lemma ParsedContent(command: string, entries: seq<Header>, body: string)
    requires LF !in command && !IsBlank(command)
    ensures Parsed(Content(command, entries, body))
         == Frame(Trim(command), Received(entries, map[]), StripNul(body))
  {
    SplitFirst(command, HeaderBlock(entries) + [LF] + body, LF);
    ReadHeaderBlock(entries, body, map[]);
    JoinUndoesSplit(body, LF);
  }

  predicate KeySurvives(key: string) {
    key != "" && key != "__proto__" && SurvivesEscaping(key)
  }

  predicate HeadersSurvive(entries: seq<Header>) {
    forall h :: h in entries ==> KeySurvives(h.key) && SurvivesEscaping(h.value)
  }

  function GarbleValues(entries: seq<Header>): seq<Header> {
    seq(|entries|, i requires 0 <= i < |entries| => Header(entries[i].key, Garbled(entries[i].value)))
  }

  /** Only keys that survive escaping ever reach the parsed header object. */
  lemma {:induction false} ReceivedKeys(entries: seq<Header>, acc: map<string, string>, key: string)
    requires key in Received(entries, acc)
    ensures key in acc || KeySurvives(key)
  {
    if entries != [] && entries[0].key == "" {
      ReceivedKeys(entries[1..], acc, key);
    } else if entries != [] {
      RoundTripIff(entries[0].key);
      ReceivedKeys(entries[1..], Assign(acc, Garbled(entries[0].key), Garbled(entries[0].value)), key);
    }
  }

  lemma {:induction false} ReceivedWhenKeysSurvive(entries: seq<Header>, acc: map<string, string>)
    requires forall h :: h in entries ==> KeySurvives(h.key)
    ensures Received(entries, acc) == ToMap(GarbleValues(entries), acc)
  {
    if entries != [] {
      var h := entries[0];
      UnescapeEscape(h.key);
      RoundTripIff(h.key);
      ReceivedWhenKeysSurvive(entries[1..], acc[h.key := Garbled(h.value)]);
      assert GarbleValues(entries)[1..] == GarbleValues(entries[1..]);
    }
  }

  lemma {:induction false} ToMapLookup(entries: seq<Header>, acc: map<string, string>, key: string)
    requires Distinct(entries)
    ensures (forall h :: h in entries ==> h.key != key) && key in acc ==>
              key in ToMap(entries, acc) && ToMap(entries, acc)[key] == acc[key]
    ensures forall h :: h in entries && h.key == key ==>
              key in ToMap(entries, acc) && ToMap(entries, acc)[key] == h.value
  {
    if entries != [] {
      var rest := entries[1..];
      assert forall h :: h in rest ==> exists i :: 0 < i < |entries| && entries[i] == h;
      assert entries == [entries[0]] + rest;
      ToMapLookup(rest, acc[entries[0].key := entries[0].value], key);
    }
  }

  /** The header object makes the round trip exactly when every key and value survives. */
  lemma HeadersRoundTripIff(entries: seq<Header>)
    requires Distinct(entries)
    ensures Received(entries, map[]) == ToMap(entries, map[]) <==> HeadersSurvive(entries)
  {
    var received, sent := Received(entries, map[]), ToMap(entries, map[]);
    if received == sent {
      forall h | h in entries ensures KeySurvives(h.key) {
        ToMapLookup(entries, map[], h.key);
        ReceivedKeys(entries, map[], h.key);
      }
      ReceivedWhenKeysSurvive(entries, map[]);
      forall h | h in entries ensures SurvivesEscaping(h.value) {
        var g := GarbleValues(entries);
        var i :| 0 <= i < |entries| && entries[i] == h;
        ToMapLookup(entries, map[], h.key);
        ToMapLookup(g, map[], h.key);
        assert g[i] in g;
        UnescapeEscape(h.value);
        RoundTripIff(h.value);
      }
    }
    if HeadersSurvive(entries) {
      ReceivedWhenKeysSurvive(entries, map[]);
      forall i | 0 <= i < |entries| ensures GarbleValues(entries)[i] == entries[i] {
        assert entries[i] in entries;
        UnescapeEscape(entries[i].value);
        RoundTripIff(entries[i].value);
      }
      assert GarbleValues(entries) == entries;
    }
  }

  // ---------------------------------------------------------------- leading white space

  lemma {:induction false} LeadingSpaceNeutral(w: char, raw: string)
    requires IsSpace(w)
    ensures Parsed([w] + raw) == Parsed(raw)
  {
    var lines := Split(raw, LF);
    assert ([w] + raw)[1..] == raw;
    if w == LF {
      assert Split([w] + raw, LF)[1..] == lines;
    } else {
      assert Split([w] + raw, LF) == [[w] + lines[0]] + lines[1..];
      BlankCons(w, lines[0]);
      TrimCons(w, lines[0]);
      assert ([[w] + lines[0]] + lines[1..])[1..] == lines[1..];
    }
  }

  /** White space in front of a frame never changes how it parses. */
  lemma {:induction false} LeadingBlankNeutral(gap: string, raw: string)
    requires IsBlank(gap)
    ensures Parsed(gap + raw) == Parsed(raw)
  {
    if gap == "" {
      assert gap + raw == raw;
    } else {
      var init, w := gap[..|gap| - 1], gap[|gap| - 1];
      assert init + [w] == gap;
      ConcatAssoc(init, [w], raw);
      LeadingBlankNeutral(init, [w] + raw);
      LeadingSpaceNeutral(w, raw);
    }
  }

  lemma {:induction false} NonBlankHasCommand(s: string)
    ensures SkipBlank(Split(s, LF)) == [] <==> IsBlank(s)
  {
    if s != "" {
      NonBlankHasCommand(s[1..]);
      var rest := Split(s[1..], LF);
      assert forall i :: 0 <= i < |s| - 1 ==> s[1..][i] == s[i + 1];
      if s[0] == LF {
        assert Split(s, LF)[1..] == rest;
      } else {
        assert Split(s, LF) == [[s[0]] + rest[0]] + rest[1..];
        assert Split(s, LF)[1..] == rest[1..];
        BlankCons(s[0], rest[0]);
      }
      assert s == [s[0]] + s[1..];
      BlankCons(s[0], s[1..]);
    }
  }

  // ---------------------------------------------------------------- the frame round trip

  /** The frames a receiver gets back unchanged. The first case is the frame with nothing in it. */
  predicate Transparent(command: string, entries: seq<Header>, body: string) {
    || (command == "" && entries == [] && body == "")
    || (&& command != "" && IsTrimmed(command) && LF !in command
        && HeadersSurvive(entries)
        && StripNul(body) == body)
  }

  /** Without a command line, the first header is read as the command. */
  lemma HeaderAsCommand(entries: seq<Header>, body: string)
    requires entries != []
    ensures Parsed(HeaderBlock(entries) + [LF] + body).command != ""
  {
    var line, block := HeaderLine(entries[0]), HeaderBlock(entries[1..]);
    ReadHeaderLine(entries[0], map[]);
    ConcatAssoc(line + [LF], block, [LF]);
    ConcatAssoc(line + [LF], block + [LF], body);
    SplitFirst(line, block + [LF] + body, LF);
    TrimMeaning(line);
  }

  lemma OnlyNothingIsEmpty(body: string)
    ensures Parsed(body).command == "" ==> Parsed(body).body == ""
    ensures Parsed(body) == Frame("", map[], body) <==> body == ""
  {
    NonBlankHasCommand(body);
    var head := SkipBlank(Split(body, LF));
    if head != [] { TrimMeaning(head[0]); }
  }

  lemma BlankCommandRoundTrip(command: string, entries: seq<Header>, body: string)
    requires IsBlank(command)
    ensures Parsed(Content(command, entries, body)) == Frame(command, ToMap(entries, map[]), body)
       <==> command == "" && entries == [] && body == ""
  {
    var raw := Content(command, entries, body);
    var rest := HeaderBlock(entries) + [LF] + body;
    assert IsBlank(command + [LF]);
    LeadingBlankNeutral(command + [LF], rest);
    CommandIsOneWord(raw);
    if entries != [] {
      HeaderAsCommand(entries, body);
    } else {
      assert rest == [LF] + body;
      LeadingBlankNeutral([LF], body);
      OnlyNothingIsEmpty(body);
    }
  }

  /** Serialize then parse returns the frame exactly for the transparent frames. */
  lemma FrameRoundTripIff(command: string, entries: seq<Header>, body: string)
    requires Distinct(entries)
    ensures Parsed(Content(command, entries, body)) == Frame(command, ToMap(entries, map[]), body)
       <==> Transparent(command, entries, body)
  {
    if IsBlank(command) {
      BlankCommandRoundTrip(command, entries, body);
      assert command != "" ==> IsSpace(command[0]);
    } else if LF in command {
      CommandIsOneWord(Content(command, entries, body));
    } else {
      ParsedContent(command, entries, body);
      TrimMeaning(command);
      HeadersRoundTripIff(entries);
    }
  }
}
