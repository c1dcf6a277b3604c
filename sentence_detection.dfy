/** Sentence detection over recognised text (src/utils/sentenceDetection.ts):
    whether a text is a complete sentence, the split of a text into
    sentences, and its last sentence. */
module SentenceDetection {
  import opened Wrappers
  import opened Text

  /** `text` ends in `.`, `!` or `?` once trimmed and holds at least three
      space-separated words. */
  function IsCompleteSentence(text: string): (b: bool)
    ensures !EndsWithTerminator(Trim(text)) ==> !b
    ensures b <==> EndsWithTerminator(Trim(text)) && WordCount(Trim(text)) >= 3
  {
    var trimmed := Trim(text);
    WordsCount(trimmed);
    if !EndsWithTerminator(trimmed) then false
    else |Words(trimmed)| >= 3
  }

  /** The pattern `/(?<=[.!?])\s+/` can start a match at `i`: a whitespace
      character right after a sentence-ending mark. */
  predicate BreaksAt(s: string, i: int) {
    0 < i < |s| && IsTerminator(s[i - 1]) && IsWhitespace(s[i])
  }

  /** `s` holds no place where the sentence pattern matches. */
  predicate Unbroken(s: string) {
    forall i :: 0 < i < |s| ==> !BreaksAt(s, i)
  }

  /** The first place at or after `from` where the pattern matches, or `|s|`. */
  function FirstBreak(s: string, from: nat): (i: nat)
    ensures i <= |s|
    ensures i < |s| ==> from <= i && BreaksAt(s, i)
    ensures forall j :: from <= j < i ==> !BreaksAt(s, j)
    decreases |s| - from
  {
    if from >= |s| then |s|
    else if BreaksAt(s, from) then from
    else FirstBreak(s, from + 1)
  }

  /** The end of the whitespace run that starts at `i`: the greedy `\s+`. */
  function RunEnd(s: string, i: nat): (j: nat)
    requires i <= |s|
    ensures i <= j <= |s|
    ensures forall k :: i <= k < j ==> IsWhitespace(s[k])
    ensures j < |s| ==> !IsWhitespace(s[j])
    decreases |s| - i
  {
    if i < |s| && IsWhitespace(s[i]) then RunEnd(s, i + 1) else i
  }

  /** `s.split(/(?<=[.!?])\s+/)`: `s` cut at every whitespace run that follows
      a sentence-ending mark, the runs themselves dropped. */
  function RawSentences(s: string): (pieces: seq<string>)
    ensures |pieces| >= 1
    decreases |s|
  {
    var i := FirstBreak(s, 0);
    if i == |s| then [s]
    else [s[..i]] + RawSentences(s[RunEnd(s, i)..])
  }

  /** `.map((s) => s.trim())`. */
  function TrimAll(pieces: seq<string>): (r: seq<string>)
    ensures forall t :: t in r ==> IsTrimmed(t)
  {
    if pieces == [] then [] else [Trim(pieces[0])] + TrimAll(pieces[1..])
  }

  /** `splitIntoSentences`: the pieces of the split, trimmed, empty ones dropped. */
  function SplitIntoSentences(text: string): (r: seq<string>)
    ensures forall k :: 0 <= k < |r| ==> r[k] != [] && IsTrimmed(r[k])
  {
    NonEmpty(TrimAll(RawSentences(text)))
  }

  /** What every result of `splitIntoSentences` looks like: non-empty trimmed
      pieces in which the pattern never matches, each but the last ending in a
      sentence-ending mark. */
  predicate WellFormed(sentences: seq<string>) {
    forall k :: 0 <= k < |sentences| ==>
      && sentences[k] != [] && IsTrimmed(sentences[k]) && Unbroken(sentences[k])
      && (k < |sentences| - 1 ==> EndsWithTerminator(sentences[k]))
  }

  /** A slice that avoids every match strictly inside it holds none. */
  lemma UnbrokenSlice(s: string, a: nat, b: nat)
    requires a <= b <= |s|
    requires forall j :: a < j < b ==> !BreaksAt(s, j)
    ensures Unbroken(s[a..b])
  {
    forall m ensures !BreaksAt(s[a..b], m) {
      if BreaksAt(s[a..b], m) {
        assert s[a..b][m - 1] == s[a + m - 1] && s[a..b][m] == s[a + m];
        assert BreaksAt(s, a + m);
      }
    }
  }

  /** Trimming cannot create a match. */
  lemma TrimUnbroken(s: string)
    requires Unbroken(s)
    ensures Unbroken(Trim(s))
  {
    var a, b := TrimSlice(s);
    UnbrokenSlice(s, a, b);
  }

  /** Trimming keeps a last character that is not whitespace. */
  lemma TrimKeepsLast(s: string)
    requires s != [] && !IsWhitespace(s[|s| - 1])
    ensures Trim(s) != [] && Trim(s)[|Trim(s)| - 1] == s[|s| - 1]
  {
    var a, b := TrimSlice(s);
  }

  /** Trimming distributes over a first piece. */
  lemma TrimAllCons(t: string, rest: seq<string>)
    ensures TrimAll([t] + rest) == [Trim(t)] + TrimAll(rest)
  {
    assert ([t] + rest)[1..] == rest;
  }

  /** Filtering keeps a non-empty first piece in front. */
  lemma NonEmptyCons(t: string, rest: seq<string>)
    requires t != []
    ensures NonEmpty([t] + rest) == [t] + NonEmpty(rest)
  {
    assert ([t] + rest)[1..] == rest;
  }

  /** The piece before the first match is not blank, ends in the mark, and
      its trim holds no match. */
  lemma FirstPiece(s: string, i: nat)
    requires i == FirstBreak(s, 0) < |s|
    ensures Trim(s[..i]) != [] && EndsWithTerminator(Trim(s[..i])) && Unbroken(Trim(s[..i]))
  {
    TrimKeepsLast(s[..i]);
    UnbrokenSlice(s, 0, i);
    assert s[0..i] == s[..i];
    TrimUnbroken(s[..i]);
  }

  /** One step of the split: the piece before the first match, trimmed,
      followed by the sentences of what lies after the whitespace run. */
  lemma SplitStep(s: string, i: nat)
    requires i == FirstBreak(s, 0) < |s|
    ensures Trim(s[..i]) != [] && EndsWithTerminator(Trim(s[..i])) && Unbroken(Trim(s[..i]))
    ensures SplitIntoSentences(s) == [Trim(s[..i])] + SplitIntoSentences(s[RunEnd(s, i)..])
  {
    var rest := RawSentences(s[RunEnd(s, i)..]);
    assert RawSentences(s) == [s[..i]] + rest;
    FirstPiece(s, i);
    TrimAllCons(s[..i], rest);
    NonEmptyCons(Trim(s[..i]), TrimAll(rest));
  }

  /** Without a match the text is one sentence, trimmed, unless it is blank. */
  lemma SplitWhole(s: string)
    requires FirstBreak(s, 0) == |s|
    ensures Unbroken(s)
    ensures SplitIntoSentences(s) == if AllWhitespace(s) then [] else [Trim(s)]
  {
    UnbrokenSlice(s, 0, |s|);
    assert s[0..|s|] == s;
    assert RawSentences(s) == [s];
    TrimAllCons(s, []);
    assert [s] + [] == [s];
    NonEmptySingle(Trim(s));
  }

  /** Filtering one piece keeps it exactly when it is not empty. */
  lemma NonEmptySingle(t: string)
    ensures NonEmpty([t]) == if t == [] then [] else [t]
  {
    assert [t][1..] == [];
  }

  /** Every result of `splitIntoSentences` is well formed: the split only
      happens after a sentence-ending mark. */
  lemma {:induction false} SplitWellFormed(text: string)
    ensures WellFormed(SplitIntoSentences(text))
    decreases |text|
  {
    var i := FirstBreak(text, 0);
    if i < |text| {
      SplitStep(text, i);
      var rest := text[RunEnd(text, i)..];
      SplitWellFormed(rest);
      var r := SplitIntoSentences(text);
      var r' := SplitIntoSentences(rest);
      forall k | 0 <= k < |r|
        ensures r[k] != [] && IsTrimmed(r[k]) && Unbroken(r[k])
        ensures k < |r| - 1 ==> EndsWithTerminator(r[k])
      {
        if k > 0 {
          assert r[k] == r'[k - 1];
        }
      }
    } else {
      SplitWhole(text);
      TrimUnbroken(text);
    }
  }

  /** The split is empty exactly when the text is blank. */
  lemma SplitEmptyIffBlank(text: string)
    ensures SplitIntoSentences(text) == [] <==> AllWhitespace(text)
  {
    var i := FirstBreak(text, 0);
    if i < |text| {
      SplitStep(text, i);
      assert !IsWhitespace(text[i - 1]);
    } else {
      SplitWhole(text);
    }
  }

  /** `getLastCompleteSentence`: the last sentence of the split, if there is
      one; its completeness is not checked. */
  function GetLastCompleteSentence(text: string): (r: Option<string>)
    ensures r == None <==> AllWhitespace(text)
    ensures r.Some? ==> r.value != [] && IsTrimmed(r.value) && Unbroken(r.value)
    ensures r.Some? ==> var sentences := SplitIntoSentences(text);
                        sentences != [] && r.value == sentences[|sentences| - 1]
  {
    var sentences := SplitIntoSentences(text);
    SplitEmptyIffBlank(text);
    SplitWellFormed(text);
    if |sentences| > 0 then Some(sentences[|sentences| - 1]) else None
  }

  /** The first character of a join is that of its first piece. */
  lemma JoinHead(pieces: seq<string>, sep: string)
    requires pieces != [] && pieces[0] != []
    ensures Join(pieces, sep) != [] && Join(pieces, sep)[0] == pieces[0][0]
  {
  }

  /** Joining well-formed sentences with single spaces and splitting the
      result gives them back. */
  lemma {:induction false} SplitJoin(sentences: seq<string>)
    requires WellFormed(sentences)
    ensures SplitIntoSentences(Join(sentences, " ")) == sentences
    decreases |sentences|
  {
    if sentences == [] {
      SplitEmptyIffBlank("");
    } else if |sentences| == 1 {
      var s := sentences[0];
      assert FirstBreak(s, 0) == |s| by {
        assert Unbroken(s);
      }
      SplitWhole(s);
    } else {
      var x := sentences[0];
      var tail := sentences[1..];
      assert WellFormed(tail) by {
        forall k | 0 <= k < |tail| ensures tail[k] == sentences[k + 1] { }
      }
      var y := Join(tail, " ");
      SplitJoin(tail);
      JoinHead(tail, " ");
      assert tail[0] == sentences[1];
      var s := x + " " + y;
      assert Join(sentences, " ") == s;
      SplitBeforeSpace(x, y);
      assert Trim(x) == x;
    }
  }

  /** In `x + " " + y`, with `x` unbroken and ending a sentence and `y`
      starting with a non-whitespace character, the pattern first matches at the
      space and the whitespace run is that space alone. */
  lemma SplitBeforeSpace(x: string, y: string)
    requires Unbroken(x) && EndsWithTerminator(x)
    requires y != [] && !IsWhitespace(y[0])
    ensures var s := x + " " + y;
            FirstBreak(s, 0) == |x| && RunEnd(s, |x|) == |x| + 1 && s[..|x|] == x && s[|x| + 1..] == y
  {
    var s := x + " " + y;
    assert BreaksAt(s, |x|);
    forall j | 0 <= j < |x| ensures !BreaksAt(s, j) {
      if BreaksAt(s, j) {
        assert s[j - 1] == x[j - 1] && s[j] == x[j];
        assert BreaksAt(x, j);
      }
    }
    assert s[|x| + 1] == y[0];
    assert s[..|x|] == x && s[|x| + 1..] == y;
  }

  /** Trimming ends on the last character that is not whitespace. */
  lemma TrimLastAt(s: string, k: nat)
    requires k < |s| && !IsWhitespace(s[k]) && AllWhitespace(s[k + 1..])
    ensures Trim(s) != [] && Trim(s)[|Trim(s)| - 1] == s[k]
  {
    var a, b := TrimSlice(s);
    assert !AllWhitespace(s) by {
      assert !IsWhitespace(s[k]);
    }
    LastOfTrimmedSlice(s, a, b, Trim(s));
    OneLastNonWhitespace(s, k, b);
  }

  /** The last character of a trimmed, non-empty slice `s[a..b]` is `s[b - 1]`,
      and it is not whitespace. */
  lemma LastOfTrimmedSlice(s: string, a: nat, b: nat, t: string)
    requires a <= b <= |s| && t == s[a..b] && t != [] && IsTrimmed(t)
    ensures 0 < b && t[|t| - 1] == s[b - 1] && !IsWhitespace(s[b - 1])
  {
  }

  /** A string has only one last non-whitespace character. */
  lemma OneLastNonWhitespace(s: string, k: nat, b: nat)
    requires k < |s| && !IsWhitespace(s[k]) && AllWhitespace(s[k + 1..])
    requires 0 < b <= |s| && !IsWhitespace(s[b - 1]) && AllWhitespace(s[b..])
    ensures b == k + 1
  {
    forall j | b <= j < |s|
      ensures IsWhitespace(s[j])
    {
      assert s[j] == s[b..][j - b];
    }
    forall j | k + 1 <= j < |s|
      ensures IsWhitespace(s[j])
    {
      assert s[j] == s[k + 1..][j - k - 1];
    }
  }

  /** The last character `k` of a trimmed, non-empty slice `t[a..b]` of the
      suffix `t == s[j..]`, with only whitespace after it, is not whitespace
      in `s`, and only whitespace follows it there. */
  lemma SuffixSliceLast(s: string, j: nat, t: string, a: nat, b: nat, u: string, k: nat)
    requires j <= |s| && t == s[j..] && a <= b <= |t| && u == t[a..b] && k + 1 == j + b
    requires u != [] && IsTrimmed(u) && AllWhitespace(t[b..])
    ensures k < |s| && !IsWhitespace(s[k]) && AllWhitespace(s[k + 1..])
    ensures u[|u| - 1] == s[k]
  {
    assert u[|u| - 1] == t[b - 1] == s[k];
    forall i | k + 1 <= i < |s|
      ensures IsWhitespace(s[i])
    {
      assert s[i] == t[b..][i - j - b];
    }
  }

  /** Trimming a suffix that is not blank ends on the same character as
      trimming the whole text. */
  lemma TrimLastOfSuffix(s: string, j: nat)
    requires j <= |s| && Trim(s[j..]) != []
    ensures SameLast(Trim(s[j..]), Trim(s))
  {
    var t := s[j..];
    var a, b := TrimSlice(t);
    var k: nat := j + b - 1;
    SuffixSliceLast(s, j, t, a, b, Trim(t), k);
    TrimLastAt(s, k);
  }

  /** A text whose first match starts a whitespace run that reaches its end
      is one sentence, which ends on the text's last non-whitespace character. */
  lemma LastSentenceBeforeRun(text: string, i: nat)
    requires i == FirstBreak(text, 0) < |text| && RunEnd(text, i) == |text|
    ensures Trim(text) != [] && Trim(text[..i]) != []
    ensures SplitIntoSentences(text) == [Trim(text[..i])]
    ensures Trim(text[..i])[|Trim(text[..i])| - 1] == Trim(text)[|Trim(text)| - 1]
  {
    assert AllWhitespace(text[i..]) by {
      forall k | 0 <= k < |text| - i ensures IsWhitespace(text[i..][k]) {
        assert text[i..][k] == text[i + k];
      }
    }
    TrimLastAt(text, i - 1);
    TrimKeepsLast(text[..i]);
    SplitStep(text, i);
    SplitEmptyIffBlank(text[|text|..]);
    assert [Trim(text[..i])] + [] == [Trim(text[..i])];
  }

  /** Both sequences are non-empty and end in the same element. */
  predicate SameLast<T(==)>(x: seq<T>, y: seq<T>) {
    x != [] && y != [] && x[|x| - 1] == y[|y| - 1]
  }

  /** The last sentence of `text` ends on its last character that is not
      whitespace. */
  ghost predicate EndsLikeText(text: string) {
    EndsLike(SplitIntoSentences(text), Trim(text))
  }

  /** The last of `sentences` ends on the last character of `t`. */
  predicate EndsLike(sentences: seq<string>, t: string) {
    && sentences != [] && sentences[|sentences| - 1] != [] && t != []
    && sentences[|sentences| - 1][|sentences[|sentences| - 1]| - 1] == t[|t| - 1]
  }

  /** A text whose first match is followed by more than whitespace has the
      last sentence of the text after the whitespace run. */
  lemma LastOfSplitAfterRun(text: string, i: nat)
    requires i == FirstBreak(text, 0) < |text| && RunEnd(text, i) < |text|
    requires SplitIntoSentences(text[RunEnd(text, i)..]) != []
    ensures SameLast(SplitIntoSentences(text), SplitIntoSentences(text[RunEnd(text, i)..]))
  {
    SplitStep(text, i);
    var r' := SplitIntoSentences(text[RunEnd(text, i)..]);
    assert SplitIntoSentences(text)[|r'|] == r'[|r'| - 1];
  }

  /** Sentence lists that share their last sentence, and strings that share
      their last character, end alike. */
  lemma EndsLikeCarries(r: seq<string>, r': seq<string>, a: string, b: string)
    requires EndsLike(r', a) && SameLast(r, r') && SameLast(a, b)
    ensures EndsLike(r, b)
  {
  }

  /** Ending alike needs a sentence and a character. */
  lemma EndsLikeNonEmpty(r: seq<string>, t: string)
    requires EndsLike(r, t)
    ensures r != [] && t != []
  {
  }

  /** A text whose first match is followed by more than whitespace ends like
      the text after the whitespace run. */
  lemma EndsLikeRest(text: string, i: nat)
    requires i == FirstBreak(text, 0) < |text| && RunEnd(text, i) < |text|
    requires EndsLikeText(text[RunEnd(text, i)..])
    ensures EndsLikeText(text)
  {
    var j := RunEnd(text, i);
    var rest := text[j..];
    EndsLikeNonEmpty(SplitIntoSentences(rest), Trim(rest));
    LastOfSplitAfterRun(text, i);
    TrimLastOfSuffix(text, j);
    EndsLikeCarries(SplitIntoSentences(text), SplitIntoSentences(rest), Trim(rest), Trim(text));
  }

  /** The last sentence of a text that is not blank ends on the text's last
      character that is not whitespace. */
  lemma {:induction false} LastSentenceEnds(text: string)
    requires !AllWhitespace(text)
    ensures EndsLikeText(text)
    decreases |text|
  {
    var i := FirstBreak(text, 0);
    if i < |text| {
      var j := RunEnd(text, i);
      if j == |text| {
        LastSentenceBeforeRun(text, i);
      } else {
        assert !AllWhitespace(text[j..]) by {
          assert text[j..][0] == text[j];
        }
        LastSentenceEnds(text[j..]);
        EndsLikeRest(text, i);
      }
    } else {
      SplitWhole(text);
    }
  }

  /** `r` is a string that ends on the last character of `t`, a sentence-ending mark. */
  predicate EndsOnMark(r: Option<string>, t: string) {
    r.Some? && r.value != [] && t != [] && r.value[|r.value| - 1] == t[|t| - 1] && EndsWithTerminator(r.value)
  }

  /** The last of `sentences`, taken from a list that ends like a terminated
      string, is non-empty, ends on that string's mark, and is terminated. */
  lemma LastTerminated(r: Option<string>, sentences: seq<string>, t: string)
    requires EndsLike(sentences, t) && EndsWithTerminator(t)
    requires r == Some(sentences[|sentences| - 1])
    ensures EndsOnMark(r, t)
  {
  }

  /** The last sentence of a text that is not blank ends like the text. */
  lemma NonBlankEnds(text: string)
    requires Trim(text) != []
    ensures EndsLikeText(text)
  {
    LastSentenceEnds(text);
  }

  /** A text whose trimmed form ends in a sentence-ending mark has a last
      sentence, ending in that same mark. */
  lemma TerminatedHasLast(text: string)
    requires EndsWithTerminator(Trim(text))
    ensures EndsOnMark(GetLastCompleteSentence(text), Trim(text))
  {
    var r, sentences, t := GetLastCompleteSentence(text), SplitIntoSentences(text), Trim(text);
    NonBlankEnds(text);
    assert r.Some? && r.value == sentences[|sentences| - 1];
    LastTerminated(r, sentences, t);
  }

  /** A complete sentence always has a last sentence, and that one ends in the
      mark that made the text complete. */
  lemma CompleteSentenceHasLast(text: string)
    requires IsCompleteSentence(text)
    ensures EndsOnMark(GetLastCompleteSentence(text), Trim(text))
  {
    TerminatedHasLast(text);
  }
}
