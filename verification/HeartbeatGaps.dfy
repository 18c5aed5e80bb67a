/** White space that reaches a half-received frame: exactly when the receive loop may drop it. */
module HeartbeatGaps {
  import opened Common
  import opened Text
  import opened HeaderEscaping
  import opened StompFrame

  /** Two texts that parse alike however they go on. */
  ghost predicate SameFuture(x: string, y: string) {
    forall rest :: Parsed(x + rest) == Parsed(y + rest)
  }

  /** A gap that can be dropped behind `buffered` without any continuation parsing differently. */
  ghost predicate Neutral(buffered: string, gap: string) {
    SameFuture(buffered + gap, buffered)
  }

  // ---------------------------------------------------------------- gaps in a body

  /** The blank line after the headers has been read to its end. */
  predicate HeadersEnd(lines: seq<string>) {
    |lines| >= 2 && (IsBlank(lines[0]) || HeadersEnd(lines[1..]))
  }

  predicate HeadComplete(s: string) {
    var head := SkipBlank(Split(s, LF));
    head != [] && HeadersEnd(head[1..])
  }

  lemma {:induction false} SkipBlankMerge(a: seq<string>, b: seq<string>)
    requires a != [] && b != [] && |SkipBlank(a)| >= 2
    ensures SkipBlank(Merge(a, b)) == Merge(SkipBlank(a), b)
  {
    if IsBlank(a[0]) {
      SkipBlankMerge(a[1..], b);
      assert Merge(a, b)[1..] == Merge(a[1..], b);
    }
  }

  lemma {:induction false} ReadHeadersMerge(a: seq<string>, b: seq<string>, acc: map<string, string>)
    requires b != [] && HeadersEnd(a)
    ensures ReadHeaders(a, acc).1 != []
    ensures ReadHeaders(Merge(a, b), acc) == (ReadHeaders(a, acc).0, Merge(ReadHeaders(a, acc).1, b))
  {
    assert Merge(a, b)[1..] == Merge(a[1..], b);
    if !IsBlank(a[0]) {
      ReadHeadersMerge(a[1..], b, ReadHeader(a[0], acc));
    }
  }

  /** The body text read so far, before the parser strips a closing NUL. */
  function BodySoFar(s: string): string {
    var head := SkipBlank(Split(s, LF));
    if head == [] then "" else Join(ReadHeaders(head[1..], map[]).1, LF)
  }

  /** Once the head is complete, all further text is body. */
  lemma BodyGrows(s: string, t: string)
    requires HeadComplete(s)
    ensures BodySoFar(s + t) == BodySoFar(s) + t
  {
    var a, b := Split(s, LF), Split(t, LF);
    var head := SkipBlank(a);
    SplitConcat(s, t, LF);
    SkipBlankMerge(a, b);
    assert Merge(head, b)[1..] == Merge(head[1..], b);
    ReadHeadersMerge(head[1..], b, map[]);
    JoinMerge(ReadHeaders(head[1..], map[]).1, b, LF);
    JoinUndoesSplit(t, LF);
  }

  /** White space dropped from the middle of a body is lost, whatever follows it. */
  lemma {:induction false} DroppedBodyIsLost(buffered: string, gap: string, rest: string)
    requires HeadComplete(buffered) && IsBlank(gap) && gap != ""
    ensures |Parsed(buffered + gap + rest).body| >= |Parsed(buffered + rest).body| + |gap|
  {
    var text := BodySoFar(buffered);
    BodyGrows(buffered, gap + rest);
    ConcatAssoc(buffered, gap, rest);
    BodyGrows(buffered, rest);
    StripNulLength(text, gap, rest);
  }

  lemma StripNulLength(text: string, gap: string, rest: string)
    requires IsBlank(gap) && gap != ""
    ensures |StripNul(text + (gap + rest))| >= |StripNul(text + rest)| + |gap|
  {
    var with, without := text + (gap + rest), text + rest;
    assert with[|with| - 1] == if rest == "" then gap[|gap| - 1] else rest[|rest| - 1];
    assert rest != "" ==> without[|without| - 1] == rest[|rest| - 1];
  }

  // ---------------------------------------------------------------- gaps with a line feed

  lemma {:induction false} HeadersEndMerge(a: seq<string>, b: seq<string>)
    requires b != [] && HeadersEnd(a)
    ensures HeadersEnd(Merge(a, b))
  {
    assert Merge(a, b)[1..] == Merge(a[1..], b);
    if !IsBlank(a[0]) { HeadersEndMerge(a[1..], b); }
  }

  lemma HeadStays(s: string, t: string)
    requires HeadComplete(s)
    ensures HeadComplete(s + t)
  {
    var a, b := Split(s, LF), Split(t, LF);
    var head := SkipBlank(a);
    SplitConcat(s, t, LF);
    SkipBlankMerge(a, b);
    assert Merge(head, b)[1..] == Merge(head[1..], b);
    HeadersEndMerge(head[1..], b);
  }

  lemma {:induction false} BlankLineEndsHeaders(lines: seq<string>, blank: string)
    requires IsBlank(blank)
    ensures HeadersEnd(lines + [blank, ""])
    ensures SkipBlank(lines) != [] ==> SkipBlank(lines + [blank, ""]) == SkipBlank(lines) + [blank, ""]
  {
    var all := lines + [blank, ""];
    if lines != [] {
      assert all[1..] == lines[1..] + [blank, ""];
      BlankLineEndsHeaders(lines[1..], blank);
    } else {
      assert all == [blank, ""];
    }
  }

  lemma {:induction false} MergeBlank(a: seq<string>, blank: string)
    requires a != []
    ensures Merge(a, ["", blank, ""]) == a + [blank, ""]
  {
    if |a| == 1 {
      assert a[0] + "" == a[0];
      assert ["", blank, ""][1..] == [blank, ""];
    } else {
      MergeBlank(a[1..], blank);
    }
  }

  lemma SplitBlankLine(blank: string)
    requires LF !in blank
    ensures Split([LF] + blank + [LF], LF) == ["", blank, ""]
  {
    SplitFirst(blank, "", LF);
    assert blank + [LF] + "" == blank + [LF];
    SplitFirst("", blank + [LF], LF);
    assert "" + [LF] + (blank + [LF]) == [LF] + blank + [LF];
  }

  /** Behind anything that is not blank, a blank line ends the head. */
  lemma BlankLineCompletesHead(s: string, blank: string)
    requires !IsBlank(s) && IsBlank(blank) && LF !in blank
    ensures HeadComplete(s + ([LF] + blank + [LF]))
  {
    NonBlankHasCommand(s);
    SplitConcat(s, [LF] + blank + [LF], LF);
    SplitBlankLine(blank);
    MergeBlank(Split(s, LF), blank);
    BlankLineAfterHead(Split(s, LF), blank);
  }

  lemma BlankLineAfterHead(lines: seq<string>, blank: string)
    requires SkipBlank(lines) != [] && IsBlank(blank)
    ensures var head := SkipBlank(lines + [blank, ""]);
            head != [] && HeadersEnd(head[1..])
  {
    BlankLineEndsHeaders(lines, blank);
    var head := SkipBlank(lines);
    assert (head + [blank, ""])[1..] == head[1..] + [blank, ""];
    BlankLineEndsHeaders(head[1..], blank);
  }

  /** A gap with a line feed, twice, holds a whole blank line. */
  lemma BlankLineInTwoGaps(gap: string) returns (p: string, blank: string, tail: string)
    requires IsBlank(gap) && LF in gap
    ensures gap + gap == p + ([LF] + blank + [LF]) + tail
    ensures IsBlank(p) && IsBlank(blank) && LF !in blank
  {
    IndexOfCuts(gap, LF);
    var i := IndexOf(gap, LF);
    var q := gap[i + 1..];
    p := gap[..i];
    var z := q + gap;
    IndexOfCuts(z, LF);
    blank, tail := z[..IndexOf(z, LF)], z[IndexOf(z, LF) + 1..];
    BlankConcat(q, gap);
    Regroup(p, q, gap, blank, tail);
  }

  lemma Regroup(p: string, q: string, gap: string, blank: string, tail: string)
    requires gap == p + [LF] + q && q + gap == blank + [LF] + tail
    ensures gap + gap == p + ([LF] + blank + [LF]) + tail
  {
    ConcatAssoc(p + [LF], q, gap);
    ConcatAssoc(p + [LF], blank + [LF], tail);
    ConcatAssoc(p + [LF], blank, [LF]);
    ConcatAssoc(p, [LF], blank);
    ConcatAssoc(p, [LF] + blank, [LF]);
  }

  lemma TwoGapsCompleteHead(buffered: string, gap: string)
    requires !IsBlank(buffered) && IsBlank(gap) && LF in gap
    ensures HeadComplete(buffered + (gap + gap))
  {
    var p, blank, tail := BlankLineInTwoGaps(gap);
    var line := [LF] + blank + [LF];
    BlankConcat(buffered, p);
    BlankLineCompletesHead(buffered + p, blank);
    HeadStays(buffered + p + line, tail);
    ConcatAssoc(buffered, p, line);
    ConcatAssoc(buffered, p + line, tail);
  }

  lemma EndGapTells(s: string, gap: string)
    requires HeadComplete(s) && IsBlank(gap) && gap != ""
    ensures Parsed(s + gap) != Parsed(s)
  {
    DroppedBodyIsLost(s, gap, "");
    assert s + gap + "" == s + gap && s + "" == s;
  }

  lemma TurnGap(buffered: string, gap: string)
    ensures buffered + gap + (gap + gap) == buffered + (gap + gap) + gap
  {}

  /** A gap with a line feed can be dropped, whatever follows, exactly at a frame boundary. */
  lemma LineFeedGapIff(buffered: string, gap: string)
    requires IsBlank(gap) && LF in gap
    ensures Neutral(buffered, gap) <==> IsBlank(buffered)
  {
    if IsBlank(buffered) {
      BlankBufferNeutral(buffered, gap);
    } else {
      TwoGapsCompleteHead(buffered, gap);
      EndGapTells(buffered + (gap + gap), gap);
      TurnGap(buffered, gap);
    }
  }

  /** In particular the heartbeat line feed of the protocol. */
  lemma HeartbeatNeutralIff(buffered: string)
    ensures (forall rest :: Parsed(buffered + "\n" + rest) == Parsed(buffered + rest)) <==> IsBlank(buffered)
  {
    assert "\n" == [LF];
    LineFeedGapIff(buffered, "\n");
  }

  lemma BlankBufferNeutral(buffered: string, gap: string)
    requires IsBlank(buffered) && IsBlank(gap)
    ensures Neutral(buffered, gap)
  {
    BlankConcat(buffered, gap);
    forall rest ensures Parsed(buffered + gap + rest) == Parsed(buffered + rest) {
      LeadingBlankNeutral(buffered, rest);
      LeadingBlankNeutral(buffered + gap, rest);
    }
  }

  // ---------------------------------------------------------------- gaps inside a line

  /** The lines with text added to the last, and more lines after it. */
  function With(lines: seq<string>, t: string, more: seq<string>): (r: seq<string>)
    requires lines != []
  {
    lines[..|lines| - 1] + [lines[|lines| - 1] + t] + more
  }

  lemma WithFirst(lines: seq<string>, t: string, more: seq<string>)
    requires |lines| > 1
    ensures With(lines, t, more)[0] == lines[0] && With(lines, t, more)[1..] == With(lines[1..], t, more)
  {}

  lemma MergeIsWith(a: seq<string>, b: seq<string>)
    requires a != [] && b != []
    ensures Merge(a, b) == With(a, b[0], b[1..])
  {
    MergeLast(a, b);
    ConcatAssoc(a[..|a| - 1], [a[|a| - 1] + b[0]], b[1..]);
  }

  lemma SplitWith(buffered: string, t: string)
    ensures Split(buffered + t, LF) == With(Split(buffered, LF), Split(t, LF)[0], Split(t, LF)[1..])
  {
    SplitConcat(buffered, t, LF);
    MergeIsWith(Split(buffered, LF), Split(t, LF));
  }

  lemma SplitGap(gap: string, rest: string)
    requires LF !in gap
    ensures Split(gap + rest, LF)[0] == gap + Split(rest, LF)[0]
    ensures Split(gap + rest, LF)[1..] == Split(rest, LF)[1..]
  {
    SplitConcat(gap, rest, LF);
    SplitNone(gap, LF);
  }

  lemma {:induction false} SkipBlankWith(lines: seq<string>, t: string, more: seq<string>)
    requires SkipBlank(lines) != []
    ensures SkipBlank(With(lines, t, more)) == With(SkipBlank(lines), t, more)
  {
    var all := With(lines, t, more);
    if IsBlank(lines[0]) {
      SkipBlankWith(lines[1..], t, more);
      WithFirst(lines, t, more);
    } else if |lines| == 1 {
      assert all[0] == lines[0] + t;
      BlankConcat(lines[0], t);
    } else {
      assert all[0] == lines[0];
    }
  }

  /** The headers read from all lines but the last. */
  function HeadersBefore(lines: seq<string>, acc: map<string, string>): map<string, string> {
    if |lines| <= 1 then acc else HeadersBefore(lines[1..], ReadHeader(lines[0], acc))
  }

  lemma {:induction false} ReadOpenHeader(lines: seq<string>, acc: map<string, string>, t: string, more: seq<string>)
    requires lines != [] && !HeadersEnd(lines)
    ensures ReadHeaders(With(lines, t, more), acc)
         == ReadHeaders([lines[|lines| - 1] + t] + more, HeadersBefore(lines, acc))
  {
    if |lines| > 1 {
      ReadOpenHeader(lines[1..], ReadHeader(lines[0], acc), t, more);
      WithFirst(lines, t, more);
    } else {
      assert With(lines, t, more) == [lines[0] + t] + more;
    }
  }

  /** A header line that is dropped whatever is added to it: no key, or a key that cannot be set. */
  predicate IgnoredLine(line: string) {
    var colon := IndexOf(line, ':');
    colon < |line| && (colon == 0 || Unescape(line[..colon]) == "__proto__")
  }

  lemma IgnoredLineReads(line: string, t: string, acc: map<string, string>)
    requires IgnoredLine(line)
    ensures ReadHeader(line + t, acc) == acc && !IsBlank(line + t)
  {
    var colon := IndexOf(line, ':');
    assert line + t == line[..colon] + [':'] + (line[colon + 1..] + t);
    IndexOfFirst(line[..colon], ':', line[colon + 1..] + t);
    assert (line + t)[..colon] == line[..colon] && !IsSpace((line + t)[colon]);
  }

  /** The buffer ends inside a header line. */
  predicate InHeaderLine(buffered: string) {
    var head := SkipBlank(Split(buffered, LF));
    |head| >= 2 && !HeadersEnd(head[1..])
  }

  function OpenLine(buffered: string): string {
    var lines := Split(buffered, LF);
    lines[|lines| - 1]
  }

  predicate InIgnoredLine(buffered: string) {
    InHeaderLine(buffered) && IgnoredLine(OpenLine(buffered))
  }

  lemma {:induction false} SkipBlankKeepsLast(lines: seq<string>)
    requires SkipBlank(lines) != []
    ensures SkipBlank(lines)[|SkipBlank(lines)| - 1] == lines[|lines| - 1]
  {
    if IsBlank(lines[0]) { SkipBlankKeepsLast(lines[1..]); }
  }

  /** The frame with this command whose headers and body are still to be read off the lines. */
  function FrameFrom(command: string, lines: seq<string>, acc: map<string, string>): Frame {
    var (headers, rest) := ReadHeaders(lines, acc);
    Frame(command, headers, StripNul(Join(rest, LF)))
  }

  lemma ParsedOpenHeader(lines: seq<string>, t: string, more: seq<string>)
    requires |SkipBlank(lines)| >= 2 && !HeadersEnd(SkipBlank(lines)[1..])
    ensures var head, rest := SkipBlank(lines), [lines[|lines| - 1] + t] + more;
            ParsedLines(With(lines, t, more)) == FrameFrom(Trim(head[0]), rest, HeadersBefore(head[1..], map[]))
  {
    var head := SkipBlank(lines);
    SkipBlankWith(lines, t, more);
    SkipBlankKeepsLast(lines);
    WithFirst(head, t, more);
    ReadOpenHeader(head[1..], map[], t, more);
  }

  /** However the buffered text goes on, it is a frame with this command, these headers, and the open line next. */
  ghost predicate ReadsOn(buffered: string, command: string, line: string, acc: map<string, string>) {
    forall t :: Parsed(buffered + t) == FrameFrom(command, [line + Split(t, LF)[0]] + Split(t, LF)[1..], acc)
  }

  /** How a frame parses whose buffered part ends inside a header line. */
  lemma HeaderLineReadsOn(buffered: string) returns (command: string, acc: map<string, string>)
    requires InHeaderLine(buffered)
    ensures ReadsOn(buffered, command, OpenLine(buffered), acc)
  {
    var lines := Split(buffered, LF);
    command, acc := Trim(SkipBlank(lines)[0]), HeadersBefore(SkipBlank(lines)[1..], map[]);
    forall t
      ensures Parsed(buffered + t)
           == FrameFrom(command, [OpenLine(buffered) + Split(t, LF)[0]] + Split(t, LF)[1..], acc)
    {
      SplitWith(buffered, t);
      ParsedOpenHeader(lines, Split(t, LF)[0], Split(t, LF)[1..]);
    }
  }

  lemma IgnoredLineNeutral(buffered: string, gap: string)
    requires InIgnoredLine(buffered) && LF !in gap
    ensures Neutral(buffered, gap)
  {
    var command, acc := HeaderLineReadsOn(buffered);
    IgnoredWhateverFollows(buffered, gap, command, OpenLine(buffered), acc);
  }

  lemma IgnoredWhateverFollows(
      buffered: string, gap: string, command: string, line: string, acc: map<string, string>)
    requires ReadsOn(buffered, command, line, acc) && IgnoredLine(line) && LF !in gap
    ensures Neutral(buffered, gap)
  {
    forall rest ensures Parsed(buffered + gap + rest) == Parsed(buffered + rest) {
      var pieces := Split(rest, LF);
      SplitGap(gap, rest);
      ConcatAssoc(buffered, gap, rest);
      IgnoredFirst(command, line, gap + pieces[0], pieces[1..], acc);
      IgnoredFirst(command, line, pieces[0], pieces[1..], acc);
    }
  }

  lemma IgnoredFirst(command: string, line: string, t: string, more: seq<string>, acc: map<string, string>)
    requires IgnoredLine(line)
    ensures FrameFrom(command, [line + t] + more, acc) == FrameFrom(command, more, acc)
  {
    IgnoredLineReads(line, t, acc);
    assert ([line + t] + more)[1..] == more;
  }

  // ---------------------------------------------------------------- continuations that tell the difference

  lemma {:induction false} PairAppend(x: string, y: string, b: char, r: string)
    requires '\\' !in y && (y == "" || y[0] != b)
    ensures ReplacePair(x + y, '\\', b, r) == ReplacePair(x, '\\', b, r) + y
    decreases |x|, |y|
  {
    var s := x + y;
    if x == "" {
      assert s == y;
      if y != "" { PairNone(y, b, r); }
    } else if |x| > 1 && x[0] == '\\' && x[1] == b {
      PairAppend(x[2..], y, b, r);
      assert s[0] == x[0] && s[1] == x[1] && s[2..] == x[2..] + y;
      ConcatAssoc(r, ReplacePair(x[2..], '\\', b, r), y);
    } else {
      PairAppend(x[1..], y, b, r);
      assert s[0] == x[0] && s[1..] == x[1..] + y;
      assert |s| > 1 ==> s[1] == if |x| > 1 then x[1] else y[0];
      ConcatAssoc([x[0]], ReplacePair(x[1..], '\\', b, r), y);
    }
  }

  lemma {:induction false} PairNone(y: string, b: char, r: string)
    requires '\\' !in y
    ensures ReplacePair(y, '\\', b, r) == y
  {
    if y != "" {
      PairNone(y[1..], b, r);
      assert y == [y[0]] + y[1..];
    }
  }

  lemma UnescapeAppend(x: string, y: string)
    requires '\\' !in y && (y == "" || (y[0] != 'c' && y[0] != 'n'))
    ensures Unescape(x + y) == Unescape(x) + y
  {
    PairAppend(x, y, 'c', ":");
    PairAppend(UnescapeColons(x), y, 'n', "\n");
    PairAppend(UnescapeLineFeeds(UnescapeColons(x)), y, '\\', "\\");
  }

  /** A value that no header has yet. */
  lemma {:induction false} FreshValue(m: map<string, string>) returns (n: nat)
    ensures forall k :: k in m ==> |m[k]| < n
    decreases |m|
  {
    n := 0;
    if m != map[] {
      var k :| k in m;
      var smaller := m - {k};
      assert k !in smaller && m.Keys == smaller.Keys + {k};
      n := FreshValue(smaller);
      n := if n > |m[k]| then n else |m[k]| + 1;
    }
  }

  function Filler(n: nat): string { seq(n, i => 'x') }

  lemma ReadColonLine(key: string, value: string, acc: map<string, string>)
    requires key != "" && ':' !in key
    ensures ReadHeader(key + [':'] + value, acc) == Assign(acc, Unescape(key), Unescape(value))
    ensures !IsBlank(key + [':'] + value)
  {
    var line := key + [':'] + value;
    IndexOfFirst(key, ':', value);
    assert line[..|key|] == key && line[|key| + 1..] == value && !IsSpace(line[|key|]);
  }

  lemma NewKeysDiffer(line: string, gap: string)
    requires IsBlank(gap) && gap != ""
    ensures var k1, k2 := Unescape(line + (gap + "a")), Unescape(line + "a");
            k1 != k2 && k1 != "__proto__" && k2 != "__proto__"
  {
    NoSpecials(gap);
    UnescapeAppend(line, gap + "a");
    UnescapeAppend(line, "a");
    var k1, k2 := Unescape(line) + (gap + "a"), Unescape(line) + "a";
    assert |k1| != |k2|;
    assert k1[|k1| - 1] == 'a' && k2[|k2| - 1] == 'a' && "__proto__"[8] == '_' && |"__proto__"| == 9;
  }

  lemma FreshUnderTwoKeys(acc: map<string, string>, k1: string, k2: string, value: string)
    requires k1 != k2 && forall k :: k in acc ==> acc[k] != value
    ensures acc[k1 := value] != acc[k2 := value]
  {
    assert k1 in acc[k1 := value];
    assert k1 in acc[k2 := value] ==> acc[k2 := value][k1] != value;
  }

  /** A value that no header has yet and that needs no escaping. */
  lemma FreshFiller(acc: map<string, string>) returns (value: string)
    ensures forall k :: k in acc ==> acc[k] != value
    ensures LF !in value && Unescape(value) == value
  {
    var n := FreshValue(acc);
    value := Filler(n);
    UnescapeAppend("", value);
    assert "" + value == value;
  }

  /** The same fresh value under two different keys. */
  lemma FreshValueTells(k1: string, k2: string, value: string, acc: map<string, string>)
    requires k1 != "" && k2 != "" && ':' !in k1 && ':' !in k2
    requires Unescape(k1) != Unescape(k2) && Unescape(k1) != "__proto__" && Unescape(k2) != "__proto__"
    requires Unescape(value) == value && forall k :: k in acc ==> acc[k] != value
    ensures !IsBlank(k1 + [':'] + value) && !IsBlank(k2 + [':'] + value)
    ensures ReadHeader(k1 + [':'] + value, acc) != ReadHeader(k2 + [':'] + value, acc)
  {
    ReadColonLine(k1, value, acc);
    ReadColonLine(k2, value, acc);
    FreshUnderTwoKeys(acc, Unescape(k1), Unescape(k2), value);
  }

  /** An open line without a colon: finish it as a header of its own, with a value no header has yet. */
  lemma NewKeyTells(line: string, gap: string, acc: map<string, string>) returns (rest: string)
    requires ':' !in line && IsBlank(gap) && gap != "" && LF !in gap
    ensures LF !in rest && !IsBlank(line + rest) && !IsBlank(line + (gap + rest))
    ensures ReadHeader(line + (gap + rest), acc) != ReadHeader(line + rest, acc)
  {
    var value := FreshFiller(acc);
    rest := "a" + [':'] + value;
    NoSpecials(gap);
    NewKeysDiffer(line, gap);
    JoinKey(line, gap, value);
    FreshValueTells(line + (gap + "a"), line + "a", value, acc);
  }

  lemma JoinKey(line: string, gap: string, value: string)
    ensures line + (gap + ("a" + [':'] + value)) == line + (gap + "a") + [':'] + value
    ensures line + ("a" + [':'] + value) == line + "a" + [':'] + value
  {}

  lemma NoSpecials(gap: string)
    requires IsBlank(gap)
    ensures '\\' !in gap && ':' !in gap && (gap == "" || (gap[0] != 'c' && gap[0] != 'n'))
  {
    assert !IsSpace('\\') && !IsSpace(':') && !IsSpace('c') && !IsSpace('n');
  }

  /** An open line whose key is read: the gap lands in the value. */
  lemma ValueTells(line: string, gap: string, acc: map<string, string>)
    requires ':' in line && !IgnoredLine(line) && IsBlank(gap) && gap != ""
    ensures !IsBlank(line + "a") && !IsBlank(line + (gap + "a"))
    ensures ReadHeader(line + (gap + "a"), acc) != ReadHeader(line + "a", acc)
  {
    IndexOfCuts(line, ':');
    var colon := IndexOf(line, ':');
    var key, value := line[..colon], line[colon + 1..];
    NoSpecials(gap);
    UnescapeAppend(value, gap + "a");
    UnescapeAppend(value, "a");
    assert line + (gap + "a") == key + [':'] + (value + (gap + "a")) && line + "a" == key + [':'] + (value + "a");
    ReadColonLine(key, value + (gap + "a"), acc);
    ReadColonLine(key, value + "a", acc);
    var k := Unescape(key);
    assert |Unescape(value) + (gap + "a")| != |Unescape(value) + "a"|;
    assert acc[k := Unescape(value) + (gap + "a")][k] != acc[k := Unescape(value) + "a"][k];
  }

  lemma LastHeaderRead(command: string, line: string, acc: map<string, string>)
    requires !IsBlank(line)
    ensures FrameFrom(command, [line] + [], acc).headers == ReadHeader(line, acc)
  {
    assert [line] + [] == [line] && [line][1..] == [];
    assert ReadHeaders([line], acc) == ReadHeaders([], ReadHeader(line, acc));
  }

  lemma HeaderLineTells(buffered: string, gap: string)
    requires InHeaderLine(buffered) && !InIgnoredLine(buffered)
    requires IsBlank(gap) && gap != "" && LF !in gap
    ensures !Neutral(buffered, gap)
  {
    var command, acc := HeaderLineReadsOn(buffered);
    ReadLineTells(buffered, gap, command, OpenLine(buffered), acc);
  }

  lemma ReadLineTells(buffered: string, gap: string, command: string, line: string, acc: map<string, string>)
    requires ReadsOn(buffered, command, line, acc) && !IgnoredLine(line)
    requires IsBlank(gap) && gap != "" && LF !in gap
    ensures !Neutral(buffered, gap)
  {
    var rest := "a";
    if ':' in line { ValueTells(line, gap, acc); } else { rest := NewKeyTells(line, gap, acc); }
    LastLineHeaders(buffered, rest, command, line, acc);
    LastLineHeaders(buffered, gap + rest, command, line, acc);
    ConcatAssoc(buffered, gap, rest);
    assert Parsed(buffered + gap + rest).headers != Parsed(buffered + rest).headers;
  }

  lemma LastLineHeaders(buffered: string, t: string, command: string, line: string, acc: map<string, string>)
    requires ReadsOn(buffered, command, line, acc) && LF !in t && !IsBlank(line + t)
    ensures Parsed(buffered + t).headers == ReadHeader(line + t, acc)
  {
    SplitNone(t, LF);
    LastHeaderRead(command, line + t, acc);
    assert [t][1..] == [];
  }

  // ---------------------------------------------------------------- gaps inside the command line

  lemma {:induction false} LeadingOfNonBlank(line: string, t: string)
    requires !IsBlank(line)
    ensures Leading(line + t) == Leading(line) < |line|
  {
    assert (line + t)[0] == line[0] && (line + t)[1..] == line[1..] + t;
    if IsSpace(line[0]) {
      assert line == [line[0]] + line[1..];
      BlankCons(line[0], line[1..]);
      LeadingOfNonBlank(line[1..], t);
    }
  }

  lemma TrimOfPlainEnd(s: string)
    requires s != "" && !IsSpace(s[|s| - 1]) && Leading(s) < |s|
    ensures |Trim(s)| == |s| - Leading(s)
  {
    var u := s[Leading(s)..];
    assert u[|u| - 1] == s[|s| - 1];
    assert Trailing(u) == 0;
  }

  lemma SplitLastLine(buffered: string, t: string)
    requires LF !in t
    ensures Split(buffered + t, LF) == With(Split(buffered, LF), t, [])
  {
    SplitWith(buffered, t);
    SplitNone(t, LF);
  }

  lemma OpenCommand(lines: seq<string>, t: string)
    requires |SkipBlank(lines)| == 1
    ensures ParsedLines(With(lines, t, [])).command == Trim(lines[|lines| - 1] + t) && !IsBlank(lines[|lines| - 1])
  {
    SkipBlankWith(lines, t, []);
    SkipBlankKeepsLast(lines);
    assert With(SkipBlank(lines), t, [])[0] == lines[|lines| - 1] + t;
  }

  /** The command grows with every character up to a plain one that reaches its open line. */
  lemma CommandLength(lines: seq<string>, t: string)
    requires |SkipBlank(lines)| == 1 && t != "" && !IsSpace(t[|t| - 1])
    ensures var line := lines[|lines| - 1];
            |ParsedLines(With(lines, t, [])).command| == |line| + |t| - Leading(line)
  {
    var line := lines[|lines| - 1];
    OpenCommand(lines, t);
    LeadingOfNonBlank(line, t);
    TrimOfPlainEnd(line + t);
  }

  lemma CommandTells(buffered: string, gap: string)
    requires |SkipBlank(Split(buffered, LF))| == 1 && LF !in gap && gap != ""
    ensures !Neutral(buffered, gap)
  {
    ConcatAssoc(buffered, gap, "x");
    SplitLastLine(buffered, gap + "x");
    SplitLastLine(buffered, "x");
    CommandLength(Split(buffered, LF), gap + "x");
    CommandLength(Split(buffered, LF), "x");
    assert |Parsed(buffered + gap + "x").command| != |Parsed(buffered + "x").command|;
  }

  // ---------------------------------------------------------------- the exact condition

  /** The white space that may be dropped: at a frame boundary, or inside a header line that is ignored anyway. */
  predicate Droppable(buffered: string, gap: string) {
    gap == "" || IsBlank(buffered) || (LF !in gap && InIgnoredLine(buffered))
  }

  /** Dropping a whitespace-only chunk is invisible to every continuation exactly when it is droppable. */
  lemma GapNeutralIff(buffered: string, gap: string)
    requires IsBlank(gap)
    ensures Neutral(buffered, gap) <==> Droppable(buffered, gap)
  {
    if gap == "" {
      assert buffered + gap == buffered;
    } else if LF in gap {
      LineFeedGapIff(buffered, gap);
    } else if IsBlank(buffered) {
      BlankBufferNeutral(buffered, gap);
    } else if InIgnoredLine(buffered) {
      IgnoredLineNeutral(buffered, gap);
    } else {
      OpenFrameTells(buffered, gap);
    }
  }

  lemma OpenFrameTells(buffered: string, gap: string)
    requires IsBlank(gap) && gap != "" && LF !in gap && !IsBlank(buffered) && !InIgnoredLine(buffered)
    ensures !Neutral(buffered, gap)
  {
    NonBlankHasCommand(buffered);
    if |SkipBlank(Split(buffered, LF))| == 1 {
      CommandTells(buffered, gap);
    } else if HeadComplete(buffered) {
      EndGapTells(buffered, gap);
      assert buffered + gap + "" == buffered + gap && buffered + "" == buffered;
    } else {
      HeaderLineTells(buffered, gap);
    }
  }
}
