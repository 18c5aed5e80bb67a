/** String operations of the JavaScript runtime that the STOMP codec leans on. */
module Text {
  import opened Common

  const LF: char := '\n'
  const NUL: char := '\0'

  /** The white space and line terminators that String.prototype.trim removes. */
  predicate IsSpace(c: char) {
    || '\t' <= c <= '\r'
    || c == ' ' || c == '\U{00A0}' || c == '\U{1680}'
    || '\U{2000}' <= c <= '\U{200A}'
    || c == '\U{2028}' || c == '\U{2029}' || c == '\U{202F}' || c == '\U{205F}'
    || c == '\U{3000}' || c == '\U{FEFF}'
  }

  /** By code point: WhiteSpace and LineTerminator of ECMA-262, sections 12.2 and 12.3. */
  lemma SpaceCodes(c: char)
    ensures IsSpace(c) <==>
              || c as int in {9, 10, 11, 12, 13, 32, 160, 5760, 8232, 8233, 8239, 8287, 12288, 65279}
              || 8192 <= c as int <= 8202
  {}

  predicate IsBlank(s: string) {
    forall i :: 0 <= i < |s| ==> IsSpace(s[i])
  }

  /** The number of leading and of trailing white space characters. */
  function Leading(s: string): (k: nat)
    ensures k <= |s| && IsBlank(s[..k])
    ensures k < |s| ==> !IsSpace(s[k])
  {
    if s == "" || !IsSpace(s[0]) then 0
    else
      var k := 1 + Leading(s[1..]);
      assert s[..k] == [s[0]] + s[1..][..k - 1];
      k
  }

  function Trailing(s: string): (k: nat)
    ensures k <= |s|
  {
    if s == "" || !IsSpace(s[|s| - 1]) then 0 else 1 + Trailing(s[..|s| - 1])
  }

  lemma {:induction false} TrailingMeaning(s: string)
    ensures forall i :: |s| - Trailing(s) <= i < |s| ==> IsSpace(s[i])
    ensures Trailing(s) < |s| ==> !IsSpace(s[|s| - Trailing(s) - 1])
  {
    if s != "" && IsSpace(s[|s| - 1]) {
      var t := s[..|s| - 1];
      TrailingMeaning(t);
      assert forall i :: 0 <= i < |t| ==> t[i] == s[i];
    }
  }

  function Trim(s: string): string {
    var t := s[Leading(s)..];
    t[..|t| - Trailing(t)]
  }

  predicate IsTrimmed(s: string) {
    s == "" || (!IsSpace(s[0]) && !IsSpace(s[|s| - 1]))
  }

  /** What Trim returns: a trimmed slice, empty only for a blank string. */
  lemma TrimMeaning(s: string)
    ensures IsTrimmed(Trim(s))
    ensures Trim(s) == "" <==> IsBlank(s)
    ensures IsTrimmed(s) ==> Trim(s) == s
    ensures forall c :: c in Trim(s) ==> c in s
  {
    var i := Leading(s);
    var t := s[i..];
    var k := Trailing(t);
    TrailingMeaning(t);
    assert IsBlank(s) <==> i == |s|;
    assert i < |s| ==> k < |t| by {
      assert i < |s| ==> t[0] == s[i];
    }
    assert IsTrimmed(s) ==> t == s && (s == "" || k == 0);
  }

  /** Trim cuts a blank piece off either end. */
  lemma TrimCuts(s: string) returns (i: nat, j: nat)
    ensures i <= j <= |s| && Trim(s) == s[i..j] && IsBlank(s[..i]) && IsBlank(s[j..])
  {
    i := Leading(s);
    var t := s[i..];
    TrailingMeaning(t);
    j := |s| - Trailing(t);
    assert forall k :: j <= k < |s| ==> s[k] == t[k - i];
  }

  lemma BlankCons(c: char, s: string)
    ensures IsBlank([c] + s) <==> IsSpace(c) && IsBlank(s)
  {
    var t := [c] + s;
    assert t[0] == c;
    assert forall i :: 0 <= i < |s| ==> s[i] == t[i + 1];
    assert forall i :: 0 < i < |t| ==> t[i] == s[i - 1];
  }

  lemma BlankConcat(s: string, t: string)
    ensures IsBlank(s + t) <==> IsBlank(s) && IsBlank(t)
  {
    var u := s + t;
    assert forall i :: 0 <= i < |s| ==> s[i] == u[i];
    assert forall i :: 0 <= i < |t| ==> t[i] == u[|s| + i];
    assert forall i :: 0 <= i < |u| ==> u[i] == if i < |s| then s[i] else t[i - |s|];
  }

  lemma TrimCons(w: char, s: string)
    requires IsSpace(w)
    ensures Trim([w] + s) == Trim(s)
  {
    var t, k := [w] + s, Leading(s);
    assert t[0] == w && t[1..] == s;
    assert t[1 + k..] == s[k..];
  }

  /** s.split(sep) for a single character sep: always at least one piece. */
  function Split(s: string, sep: char): (pieces: seq<string>)
    ensures |pieces| >= 1
    ensures forall i :: 0 <= i < |pieces| ==> sep !in pieces[i]
  {
    if s == "" then [""]
    else if s[0] == sep then [""] + Split(s[1..], sep)
    else var rest := Split(s[1..], sep); [[s[0]] + rest[0]] + rest[1..]
  }

  /** pieces.join(sep). */
  function Join(pieces: seq<string>, sep: char): string {
    if pieces == [] then ""
    else if |pieces| == 1 then pieces[0]
    else pieces[0] + [sep] + Join(pieces[1..], sep)
  }

  lemma {:induction false} JoinUndoesSplit(s: string, sep: char)
    ensures Join(Split(s, sep), sep) == s
  {
    if s != "" {
      JoinUndoesSplit(s[1..], sep);
      var rest := Split(s[1..], sep);
      if s[0] == sep {
        assert Split(s, sep)[1..] == rest;
      } else {
        assert Split(s, sep)[1..] == rest[1..];
      }
    }
  }

  /** Splitting peels off a piece that is followed by a separator. */
  lemma {:induction false} SplitFirst(piece: string, rest: string, sep: char)
    requires sep !in piece
    ensures Split(piece + [sep] + rest, sep) == [piece] + Split(rest, sep)
  {
    var s := piece + [sep] + rest;
    if piece == "" {
      assert s[0] == sep && s[1..] == rest;
    } else {
      SplitFirst(piece[1..], rest, sep);
      assert s[0] == piece[0] && s[1..] == piece[1..] + [sep] + rest;
      var tail := Split(s[1..], sep);
      assert tail[1..] == Split(rest, sep) && [s[0]] + tail[0] == piece;
    }
  }

  lemma {:induction false} SplitNone(s: string, sep: char)
    ensures Split(s, sep) == [s] <==> sep !in s
    ensures |Split(s, sep)| == 1 <==> sep !in s
  {
    if s != "" {
      SplitNone(s[1..], sep);
      assert s == [s[0]] + s[1..];
    }
  }

  /** The pieces of s + t, from the pieces of s and the pieces of t. */
  function Merge(a: seq<string>, b: seq<string>): (c: seq<string>)
    requires a != [] && b != []
    ensures |c| == |a| + |b| - 1
  {
    if |a| == 1 then [a[0] + b[0]] + b[1..] else [a[0]] + Merge(a[1..], b)
  }

  lemma {:induction false} SplitConcat(s: string, t: string, sep: char)
    ensures Split(s + t, sep) == Merge(Split(s, sep), Split(t, sep))
  {
    if s == "" {
      assert s + t == t && "" + Split(t, sep)[0] == Split(t, sep)[0];
    } else {
      SplitConcat(s[1..], t, sep);
      assert (s + t)[0] == s[0] && (s + t)[1..] == s[1..] + t;
      var a, b := Split(s[1..], sep), Split(t, sep);
      if s[0] == sep {
        assert ([""] + a)[1..] == a;
      } else {
        MergeFirst([s[0]], a, b);
      }
    }
  }

  lemma MergeFirst(p: string, a: seq<string>, b: seq<string>)
    requires a != [] && b != []
    ensures Merge([p + a[0]] + a[1..], b) == [p + Merge(a, b)[0]] + Merge(a, b)[1..]
  {
    assert ([p + a[0]] + a[1..])[1..] == a[1..];
    if |a| == 1 {
      ConcatAssoc(p, a[0], b[0]);
      assert Merge(a, b)[1..] == b[1..];
    } else {
      assert Merge(a, b)[1..] == Merge(a[1..], b);
    }
  }

  lemma {:induction false} MergeLast(a: seq<string>, b: seq<string>)
    requires a != [] && b != []
    ensures Merge(a, b) == a[..|a| - 1] + Merge([a[|a| - 1]], b)
  {
    if |a| > 1 {
      MergeLast(a[1..], b);
      assert a[..|a| - 1] == [a[0]] + a[1..][..|a| - 2];
      ConcatAssoc([a[0]], a[1..][..|a| - 2], Merge([a[|a| - 1]], b));
    }
  }

  lemma {:induction false} JoinMerge(a: seq<string>, b: seq<string>, sep: char)
    requires a != [] && b != []
    ensures Join(Merge(a, b), sep) == Join(a, sep) + Join(b, sep)
  {
    if |a| == 1 {
      assert Merge(a, b)[1..] == b[1..];
    } else {
      JoinMerge(a[1..], b, sep);
      assert |Merge(a, b)| > 1 && Merge(a, b)[1..] == Merge(a[1..], b);
    }
  }

  /** str.indexOf(c), with |s| for "not found". */
  function IndexOf(s: string, c: char): (i: nat)
    ensures i <= |s|
    ensures i < |s| ==> s[i] == c
    ensures c !in s[..i]
  {
    if s == "" || s[0] == c then 0
    else
      var i := 1 + IndexOf(s[1..], c);
      assert s[..i] == [s[0]] + s[1..][..i - 1];
      i
  }

  lemma {:induction false} IndexOfFirst(a: string, c: char, b: string)
    requires c !in a
    ensures IndexOf(a + [c] + b, c) == |a|
  {
    if a != "" {
      IndexOfFirst(a[1..], c, b);
      assert (a + [c] + b)[1..] == a[1..] + [c] + b;
    }
  }

  lemma IndexOfCuts(s: string, c: char)
    requires c in s
    ensures IndexOf(s, c) < |s| && s == s[..IndexOf(s, c)] + [c] + s[IndexOf(s, c) + 1..]
  {
    var i := IndexOf(s, c);
    assert i < |s| by { assert s[..|s|] == s; }
  }

  /** str.replace(/c/g, r) for a single character c. */
  function ReplaceChar(s: string, c: char, r: string): string {
    if s == "" then "" else (if s[0] == c then r else [s[0]]) + ReplaceChar(s[1..], c, r)
  }

  /** str.replace(/ab/g, r) for two characters: leftmost matches, no overlap, one pass. */
  function ReplacePair(s: string, a: char, b: char, r: string): string
    decreases |s|
  {
    if s == "" then ""
    else if |s| > 1 && s[0] == a && s[1] == b then r + ReplacePair(s[2..], a, b, r)
    else [s[0]] + ReplacePair(s[1..], a, b, r)
  }

  lemma PairHit(a: char, b: char, rest: string, r: string)
    ensures ReplacePair([a, b] + rest, a, b, r) == r + ReplacePair(rest, a, b, r)
  {
    assert ([a, b] + rest)[2..] == rest;
  }

  lemma PairMiss(c: char, rest: string, a: char, b: char, r: string)
    requires c != a || rest == "" || rest[0] != b
    ensures ReplacePair([c] + rest, a, b, r) == [c] + ReplacePair(rest, a, b, r)
  {
    assert ([c] + rest)[1..] == rest;
  }

  lemma PairMissTwice(c: char, d: char, rest: string, a: char, b: char, r: string)
    requires c != a || d != b
    requires d != a || rest == "" || rest[0] != b
    ensures ReplacePair([c, d] + rest, a, b, r) == [c, d] + ReplacePair(rest, a, b, r)
  {
    PairMiss(d, rest, a, b, r);
    PairMiss(c, [d] + rest, a, b, r);
    ConcatAssoc([c], [d], rest);
    ConcatAssoc([c], [d], ReplacePair(rest, a, b, r));
  }

  /** Replacing a single character works on each half of a string separately. */
  lemma {:induction false} ReplaceCharConcat(a: string, b: string, c: char, r: string)
    ensures ReplaceChar(a + b, c, r) == ReplaceChar(a, c, r) + ReplaceChar(b, c, r)
  {
    if a == "" {
      assert a + b == b;
    } else {
      ReplaceCharConcat(a[1..], b, c, r);
      assert (a + b)[0] == a[0] && (a + b)[1..] == a[1..] + b;
      ConcatAssoc(if a[0] == c then r else [a[0]], ReplaceChar(a[1..], c, r), ReplaceChar(b, c, r));
    }
  }
}
