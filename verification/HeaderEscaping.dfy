/** escapeHeader and unescapeHeader: value encoding of STOMP header keys and values. */
module HeaderEscaping {
  import opened Common
  import opened Text

  /** Three global replaces in sequence, as the codec does them. */
  function Escape(s: string): string {
    ReplaceChar(ReplaceChar(ReplaceChar(s, '\\', "\\\\"), LF, "\\n"), ':', "\\c")
  }

  function UnescapeColons(s: string): string { ReplacePair(s, '\\', 'c', ":") }
  function UnescapeLineFeeds(s: string): string { ReplacePair(s, '\\', 'n', "\n") }
  function UnescapeBackslashes(s: string): string { ReplacePair(s, '\\', '\\', "\\") }

  function Unescape(s: string): string {
    UnescapeBackslashes(UnescapeLineFeeds(UnescapeColons(s)))
  }

  /** The code of one character in STOMP 1.1 value encoding. */
  function Code(c: char): string {
    if c == '\\' then "\\\\" else if c == LF then "\\n" else if c == ':' then "\\c" else [c]
  }

  /** A backslash directly followed by a literal `c` or `n`: the pairs the three passes garble. */
  predicate GarbledAt(s: string, i: int) {
    0 < i < |s| && s[i - 1] == '\\' && (s[i] == 'c' || s[i] == 'n')
  }

  predicate SurvivesEscaping(s: string) {
    forall i :: 0 < i < |s| ==> !GarbledAt(s, i)
  }

  /** s with each garbled `c` turned into a colon and each garbled `n` into a line feed. */
  function Garbled(s: string): (r: string)
    ensures |r| == |s|
  {
    seq(|s|, i requires 0 <= i < |s| =>
      if GarbledAt(s, i) then (if s[i] == 'c' then ':' else LF) else s[i])
  }

  /** The three passes encode character by character: no pass touches what an earlier one wrote. */
  lemma EscapeStep(c: char, rest: string)
    ensures Escape([c] + rest) == Code(c) + Escape(rest)
  {
    ReplaceCharConcat([c], rest, '\\', "\\\\");
    var a, b := ReplaceChar([c], '\\', "\\\\"), ReplaceChar(rest, '\\', "\\\\");
    ReplaceCharConcat(a, b, LF, "\\n");
    ReplaceCharConcat(ReplaceChar(a, LF, "\\n"), ReplaceChar(b, LF, "\\n"), ':', "\\c");
    CodeOfOne(c);
  }

  lemma CodeOfOne(c: char)
    ensures Escape([c]) == Code(c)
  {
    assert [c][1..] == "";
    if c == '\\' {
      assert ReplaceChar([c], '\\', "\\\\") == ['\\'] + ['\\'];
      ReplaceCharConcat(['\\'], ['\\'], LF, "\\n");
      ReplaceCharConcat(['\\'], ['\\'], ':', "\\c");
    } else if c == LF {
      assert ReplaceChar([c], LF, "\\n") == ['\\'] + ['n'];
      ReplaceCharConcat(['\\'], ['n'], ':', "\\c");
    }
    forall x: char, d: char, r: string ensures ReplaceChar([x], d, r) == if x == d then r else [x] {
      assert [x][1..] == "";
    }
  }

  /** Neither a line feed nor a colon survives in an escaped string, and no NUL is created or lost. */
  lemma {:induction false} EscapeIsOneField(s: string)
    ensures LF !in Escape(s) && ':' !in Escape(s)
    ensures NUL in Escape(s) <==> NUL in s
    ensures s != "" <==> Escape(s) != ""
    ensures s != "" ==> (Escape(s)[0] == 'c' <==> s[0] == 'c')
  {
    if s != "" {
      EscapeIsOneField(s[1..]);
      EscapeStep(s[0], s[1..]);
      assert s == [s[0]] + s[1..];
    }
  }

  /** Decoding in one left-to-right pass, which is what STOMP 1.1 value encoding asks for. */
  function DecodeOnePass(s: string): string
    decreases |s|
  {
    if s == "" then ""
    else if s[0] == '\\' && |s| > 1 then
      [if s[1] == 'c' then ':' else if s[1] == 'n' then LF else s[1]] + DecodeOnePass(s[2..])
    else [s[0]] + DecodeOnePass(s[1..])
  }

  lemma {:induction false} DecodeOnePassUndoesEscape(s: string)
    ensures DecodeOnePass(Escape(s)) == s
  {
    if s != "" {
      DecodeOnePassUndoesEscape(s[1..]);
      assert s == [s[0]] + s[1..];
      EscapeStep(s[0], s[1..]);
      DecodeCode(s[0], Escape(s[1..]));
    }
  }

  lemma DecodeCode(c: char, rest: string)
    ensures DecodeOnePass(Code(c) + rest) == [c] + DecodeOnePass(rest)
  {
    assert (Code(c) + rest)[|Code(c)|..] == rest;
  }

  lemma EscapeInjective(s: string, t: string)
    requires Escape(s) == Escape(t)
    ensures s == t
  {
    DecodeOnePassUndoesEscape(s);
    DecodeOnePassUndoesEscape(t);
  }

  lemma GarbledStep(s: string)
    requires s != ""
    ensures GarbledAt(s, 1) ==> Garbled(s) == [s[0], if s[1] == 'c' then ':' else LF] + Garbled(s[2..])
    ensures !GarbledAt(s, 1) ==> Garbled(s) == [s[0]] + Garbled(s[1..])
  {}

  /** After the colon pass, an escaped string starts with `n` only if the original did. */
  lemma FirstAfterColonPass(s: string)
    requires s != ""
    ensures UnescapeColons(Escape(s)) != "" && (UnescapeColons(Escape(s))[0] == 'n' ==> s[0] == 'n')
  {
    assert s == [s[0]] + s[1..];
    EscapeStep(s[0], s[1..]);
  }

  /** What each pass does to the text that stands for a backslash, alone or in a garbled pair. */
  lemma ColonPass(c: char, x: string)
    requires c == 'c' || c == 'n'
    ensures UnescapeColons(['\\', '\\', c] + x)
         == (if c == 'c' then "\\:" else "\\\\n") + UnescapeColons(x)
  {
    if c == 'c' {
      PairHit('\\', 'c', x, ":");
      PairMiss('\\', ['\\', 'c'] + x, '\\', 'c', ":");
    } else {
      PairMissTwice('\\', 'n', x, '\\', 'c', ":");
      PairMiss('\\', ['\\', 'n'] + x, '\\', 'c', ":");
    }
    assert ['\\'] + (['\\', c] + x) == ['\\', '\\', c] + x;
  }

  lemma LineFeedPass(x: string)
    ensures UnescapeLineFeeds("\\\\n" + x) == "\\\n" + UnescapeLineFeeds(x)
  {
    PairHit('\\', 'n', x, "\n");
    PairMiss('\\', ['\\', 'n'] + x, '\\', 'n', "\n");
    assert ['\\'] + (['\\', 'n'] + x) == "\\\\n" + x;
  }

  /** What the three passes together do to a character that no backslash garbles. */
  lemma PassesOnPlain(c: char, rest: string)
    requires !GarbledAt([c] + rest, 1)
    ensures Unescape(Escape([c] + rest)) == [c] + Unescape(Escape(rest))
  {
    EscapeStep(c, rest);
    var e := Escape(rest);
    var p := UnescapeColons(e);
    var q := UnescapeLineFeeds(p);
    if c == '\\' {
      assert e == "" || e[0] != 'c' by { EscapeIsOneField(rest); }
      assert p == "" || p[0] != 'n' by { if rest != "" { FirstAfterColonPass(rest); } }
      PairMissTwice('\\', '\\', e, '\\', 'c', ":");
      PairMissTwice('\\', '\\', p, '\\', 'n', "\n");
      PairHit('\\', '\\', q, "\\");
    } else if c == ':' {
      PairHit('\\', 'c', e, ":");
      PairMiss(':', p, '\\', 'n', "\n");
      PairMiss(':', q, '\\', '\\', "\\");
    } else if c == LF {
      PairMissTwice('\\', 'n', e, '\\', 'c', ":");
      PairHit('\\', 'n', p, "\n");
      PairMiss(LF, q, '\\', '\\', "\\");
    } else {
      PairMiss(c, e, '\\', 'c', ":");
      PairMiss(c, p, '\\', 'n', "\n");
      PairMiss(c, q, '\\', '\\', "\\");
    }
  }

  /** What they do to a garbled pair. */
  lemma PassesOnPair(c: char, rest: string)
    requires c == 'c' || c == 'n'
    ensures Unescape(Escape(['\\', c] + rest)) == ['\\', if c == 'c' then ':' else LF] + Unescape(Escape(rest))
  {
    assert ['\\', c] + rest == ['\\'] + ([c] + rest);
    EscapeStep('\\', [c] + rest);
    EscapeStep(c, rest);
    var e := Escape(rest);
    var p := UnescapeColons(e);
    assert Escape(['\\', c] + rest) == ['\\', '\\', c] + e;
    var q := UnescapeLineFeeds(p);
    ColonPass(c, e);
    if c == 'c' {
      PairMissTwice('\\', ':', p, '\\', 'n', "\n");
      PairMissTwice('\\', ':', q, '\\', '\\', "\\");
    } else {
      LineFeedPass(p);
      PairMissTwice('\\', LF, q, '\\', '\\', "\\");
    }
  }

  /** The exact meaning of unescaping an escaped string, for every string. */
  lemma {:induction false} UnescapeEscape(s: string)
    ensures Unescape(Escape(s)) == Garbled(s)
    decreases |s|
  {
    if s != "" {
      GarbledStep(s);
      if GarbledAt(s, 1) {
        UnescapeEscape(s[2..]);
        assert s == ['\\', s[1]] + s[2..];
        PassesOnPair(s[1], s[2..]);
      } else {
        UnescapeEscape(s[1..]);
        assert s == [s[0]] + s[1..];
        PassesOnPlain(s[0], s[1..]);
      }
    }
  }

  /** The header round trip holds exactly for strings without a garbled pair. */
  lemma RoundTripIff(s: string)
    ensures Unescape(Escape(s)) == s <==> SurvivesEscaping(s)
    ensures SurvivesEscaping(Garbled(s))
  {
    UnescapeEscape(s);
    var g := Garbled(s);
    forall i | 0 < i < |s|
      ensures GarbledAt(s, i) ==> g[i] != s[i]
      ensures !GarbledAt(g, i)
    {}
  }
}
