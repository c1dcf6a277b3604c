/** The JavaScript string operations the modelled code relies on: `trim`,
    `split` on one character, `includes`, `startsWith`, `join` and
    `toLowerCase`. A string is a sequence of Unicode scalar values. */
module Text {

  /** The characters `String.prototype.trim` removes and the regular-expression
      class `\s` matches: ECMAScript WhiteSpace and LineTerminator. */
  predicate IsWhitespace(c: char) {
    || c == '\t' || c == '\n' || c == '\U{000B}' || c == '\U{000C}' || c == '\r' || c == ' '
    || c == '\U{00A0}' || c == '\U{1680}' || ('\U{2000}' <= c <= '\U{200A}')
    || c == '\U{2028}' || c == '\U{2029}' || c == '\U{202F}' || c == '\U{205F}'
    || c == '\U{3000}' || c == '\U{FEFF}'
  }

  predicate AllWhitespace(s: string) {
    forall i :: 0 <= i < |s| ==> IsWhitespace(s[i])
  }

  /** Neither end of `s` is whitespace. */
  predicate IsTrimmed(s: string) {
    s == [] || (!IsWhitespace(s[0]) && !IsWhitespace(s[|s| - 1]))
  }

  /** Drops the trailing whitespace: the result is the prefix that ends at the last non-whitespace character. */
  function TrimEnd(s: string): (r: string)
    ensures r <= s
    ensures AllWhitespace(s[|r|..])
    ensures r == [] || !IsWhitespace(r[|r| - 1])
  {
    if s != [] && IsWhitespace(s[|s| - 1]) then TrimEnd(s[..|s| - 1]) else s
  }

  /** `s.trim()`: drops the leading whitespace, then the trailing whitespace. */
  function Trim(s: string): (r: string)
    ensures IsTrimmed(r)
    ensures r == [] <==> AllWhitespace(s)
    ensures IsTrimmed(s) ==> r == s
    ensures |r| <= |s|
    decreases |s|
  {
    if s != [] && IsWhitespace(s[0]) then
      var r := Trim(s[1..]);
      assert AllWhitespace(s[1..]) ==> AllWhitespace(s) by {
        if AllWhitespace(s[1..]) {
          forall i | 0 <= i < |s| ensures IsWhitespace(s[i]) {
            if i > 0 { assert s[i] == s[1..][i - 1]; }
          }
        }
      }
      r
    else
      var r := TrimEnd(s);
      assert r == [] ==> AllWhitespace(s) by {
        if r == [] { assert s[|r|..] == s; }
      }
      assert r != [] ==> r[0] == s[0];
      r
  }

  /** The regular-expression class `[.!?]`: a sentence-ending punctuation mark. */
  predicate IsTerminator(c: char) {
    c == '.' || c == '!' || c == '?'
  }

  /** The test `/[.!?]$/.test(s)`: the last character of `s` ends a sentence. */
  predicate EndsWithTerminator(s: string) {
    s != [] && IsTerminator(s[|s| - 1])
  }

  /** `s.trim()` is a slice of `s` with only whitespace cut off on either side. */
  lemma {:induction false} TrimSlice(s: string) returns (a: nat, b: nat)
    ensures a <= b <= |s| && Trim(s) == s[a..b]
    ensures AllWhitespace(s[..a]) && AllWhitespace(s[b..])
    decreases |s|
  {
    if s != [] && IsWhitespace(s[0]) {
      var a', b' := TrimSlice(s[1..]);
      a, b := a' + 1, b' + 1;
      assert s[1..][a'..b'] == s[a..b];
      assert s[1..][b'..] == s[b..];
      forall i | 0 <= i < a ensures IsWhitespace(s[..a][i]) {
        if i > 0 { assert s[..a][i] == s[1..][..a'][i - 1]; }
      }
    } else {
      a, b := 0, |TrimEnd(s)|;
      assert s[a..b] == TrimEnd(s);
    }
  }

  /** Whitespace before a trimmed text is dropped by trimming. */
  lemma {:induction false} LeadingBlanksTrimmed(s: string, n: nat)
    requires n <= |s| && AllWhitespace(s[..n]) && IsTrimmed(s[n..])
    ensures Trim(s) == s[n..]
    decreases n
  {
    if n > 0 {
      assert IsWhitespace(s[..n][0]);
      assert s[1..][n - 1..] == s[n..];
      var rest := s[1..][..n - 1];
      forall k | 0 <= k < |rest| ensures IsWhitespace(rest[k]) {
        assert rest[k] == s[..n][k + 1];
      }
      LeadingBlanksTrimmed(s[1..], n - 1);
    } else {
      assert s[n..] == s;
    }
  }

  /** The index of the first `c` in `s`, or `|s|` when there is none. */
  function IndexOf(s: string, c: char): (i: nat)
    ensures i <= |s|
    ensures i < |s| ==> s[i] == c
    ensures forall j :: 0 <= j < i ==> s[j] != c
  {
    if s == [] then 0
    else if s[0] == c then 0
    else 1 + IndexOf(s[1..], c)
  }

  /** `s.split(c)` for a one-character separator: never empty. */
  function Split(s: string, c: char): (pieces: seq<string>)
    ensures |pieces| >= 1
    decreases |s|
  {
    var i := IndexOf(s, c);
    if i == |s| then
      assert s[..i] == s;
      [s]
    else [s[..i]] + Split(s[i + 1..], c)
  }

  /** No piece of `s.split(c)` holds the separator. */
  lemma {:induction false} SplitPiecesFree(s: string, c: char)
    ensures forall k :: 0 <= k < |Split(s, c)| ==> c !in Split(s, c)[k]
    decreases |s|
  {
    var i := IndexOf(s, c);
    if i < |s| {
      SplitPiecesFree(s[i + 1..], c);
      assert c !in s[..i];
    } else {
      assert s[..i] == s;
    }
  }

  /** `pieces.join(sep)`. */
  function Join(pieces: seq<string>, sep: string): string {
    if pieces == [] then ""
    else if |pieces| == 1 then pieces[0]
    else pieces[0] + sep + Join(pieces[1..], sep)
  }

  /** Splitting and joining back with the separator gives the original string. */
  lemma {:induction false} JoinSplit(s: string, c: char)
    ensures Join(Split(s, c), [c]) == s
    decreases |s|
  {
    var i := IndexOf(s, c);
    if i < |s| {
      var rest := Split(s[i + 1..], c);
      JoinSplit(s[i + 1..], c);
      assert Split(s, c) == [s[..i]] + rest;
      assert ([s[..i]] + rest)[1..] == rest;
      Around(s, i);
    }
  }

  /** A string is the part before index `i`, the character at `i` and the part after it. */
  lemma Around(s: string, i: nat)
    requires i < |s|
    ensures s == s[..i] + [s[i]] + s[i + 1..]
  {
  }

  /** Keeps the non-empty pieces (`.filter((w) => w.length > 0)`). */
  function NonEmpty(pieces: seq<string>): (r: seq<string>)
    ensures forall k :: 0 <= k < |r| ==> r[k] != [] && r[k] in pieces
    ensures forall k :: 0 <= k < |pieces| && pieces[k] != [] ==> pieces[k] in r
  {
    if pieces == [] then []
    else if pieces[0] == [] then NonEmpty(pieces[1..])
    else [pieces[0]] + NonEmpty(pieces[1..])
  }

  /** The words of `s`: `s.split(" ").filter((w) => w.length > 0)`. */
  function Words(s: string): (r: seq<string>)
    ensures forall k :: 0 <= k < |r| ==> r[k] != [] && ' ' !in r[k]
  {
    SplitPiecesFree(s, ' ');
    NonEmpty(Split(s, ' '))
  }

  /** The first `c` of `x + y` is in `x` when `x` holds one, and otherwise it is the first one of `y`. */
  lemma {:induction false} IndexOfAppend(x: string, y: string, c: char)
    ensures IndexOf(x + y, c) == if IndexOf(x, c) < |x| then IndexOf(x, c) else |x| + IndexOf(y, c)
  {
    if x == [] {
      assert x + y == y;
    } else {
      assert (x + y)[0] == x[0] && (x + y)[1..] == x[1..] + y;
      if x[0] != c {
        IndexOfAppend(x[1..], y, c);
      }
    }
  }

  /** Splitting at a separator splits the two sides independently. */
  lemma {:induction false} SplitAppend(x: string, y: string, c: char)
    ensures Split(x + [c] + y, c) == Split(x, c) + Split(y, c)
    decreases |x|
  {
    var i := IndexOf(x, c);
    SplitUnfold(x, c);
    if i == |x| {
      SplitAtFirst(x, y, c);
    } else {
      SplitInside(x, y, c, i);
      SplitAppend(x[i + 1..], y, c);
      AppendAssoc([x[..i]], Split(x[i + 1..], c), Split(y, c));
    }
  }

  /** The first piece of `s.split(c)` runs up to the first `c`; the others are the pieces after it. */
  lemma SplitUnfold(s: string, c: char)
    ensures IndexOf(s, c) == |s| ==> Split(s, c) == [s]
    ensures IndexOf(s, c) < |s| ==> Split(s, c) == [s[..IndexOf(s, c)]] + Split(s[IndexOf(s, c) + 1..], c)
  {
  }

  lemma AppendAssoc<T>(a: seq<T>, b: seq<T>, c: seq<T>)
    ensures a + (b + c) == (a + b) + c
  {
  }

  /** When `x` holds no separator, the separator after it ends the first piece. */
  lemma SplitAtFirst(x: string, y: string, c: char)
    requires IndexOf(x, c) == |x|
    ensures Split(x + [c] + y, c) == [x] + Split(y, c)
  {
    var s := x + [c] + y;
    IndexOfAppend(x, [c] + y, c);
    assert s == x + ([c] + y);
    SplitUnfold(s, c);
    assert s[..|x|] == x && s[|x| + 1..] == y;
  }

  /** When `x` holds a separator at `i`, the first piece of `x + [c] + y` is that of `x`. */
  lemma SplitInside(x: string, y: string, c: char, i: nat)
    requires i == IndexOf(x, c) < |x|
    ensures Split(x + [c] + y, c) == [x[..i]] + Split(x[i + 1..] + [c] + y, c)
  {
    AppendAssoc(x, [c], y);
    IndexOfAppend(x, [c] + y, c);
    SliceOfAppend(x, [c] + y, i);
    AppendAssoc(x[i + 1..], [c], y);
    SplitUnfold(x + ([c] + y), c);
  }

  /** Slicing `x + z` around an index inside `x` slices `x`. */
  lemma SliceOfAppend<T>(x: seq<T>, z: seq<T>, i: nat)
    requires i < |x|
    ensures (x + z)[..i] == x[..i] && (x + z)[i + 1..] == x[i + 1..] + z
  {
  }

  /** Filtering out empty pieces distributes over concatenation. */
  lemma {:induction false} NonEmptyAppend(x: seq<string>, y: seq<string>)
    ensures NonEmpty(x + y) == NonEmpty(x) + NonEmpty(y)
  {
    if x == [] {
      assert x + y == y;
    } else {
      assert (x + y)[0] == x[0] && (x + y)[1..] == x[1..] + y;
      NonEmptyAppend(x[1..], y);
    }
  }

  /** Joining two texts with one space joins their word lists. */
  lemma WordsAppend(x: string, y: string)
    ensures Words(x + " " + y) == Words(x) + Words(y)
  {
    SplitAppend(x, y, ' ');
    NonEmptyAppend(Split(x, ' '), Split(y, ' '));
  }

  /** The words of `s` counted in one left-to-right scan: a word starts at
      each character other than a space that opens `s` after a space (when
      `afterSpace`) or follows a space inside `s`. */
  function WordStartsFrom(s: string, afterSpace: bool): nat {
    if s == [] then 0
    else (if s[0] != ' ' && afterSpace then 1 else 0) + WordStartsFrom(s[1..], s[0] == ' ')
  }

  /** The number of space-separated words in `s`, by counting where they start. */
  function WordCount(s: string): nat {
    WordStartsFrom(s, true)
  }

  /** A text without spaces is one word, or none when it is empty. */
  lemma {:induction false} WordStartsNoSpace(x: string, afterSpace: bool)
    requires ' ' !in x
    ensures WordStartsFrom(x, afterSpace) == if x != [] && afterSpace then 1 else 0
    decreases |x|
  {
    if x != [] {
      assert x[0] in x;
      assert ' ' !in x[1..] by {
        forall k | 0 <= k < |x[1..]| ensures x[1..][k] != ' ' {
          assert x[1..][k] == x[k + 1];
        }
      }
      WordStartsNoSpace(x[1..], false);
    }
  }

  /** Scanning past a space-free prefix counts at most one word for it. */
  lemma {:induction false} WordStartsAppend(x: string, z: string, afterSpace: bool)
    requires ' ' !in x
    ensures WordStartsFrom(x + z, afterSpace) ==
              (if x != [] && afterSpace then 1 else 0) + WordStartsFrom(z, if x == [] then afterSpace else false)
    decreases |x|
  {
    if x == [] {
      assert x + z == z;
    } else {
      assert x[0] in x;
      assert (x + z)[0] == x[0] && (x + z)[1..] == x[1..] + z;
      assert ' ' !in x[1..] by {
        forall k | 0 <= k < |x[1..]| ensures x[1..][k] != ' ' {
          assert x[1..][k] == x[k + 1];
        }
      }
      WordStartsAppend(x[1..], z, false);
    }
  }

  /** The word count of two texts joined by one space is the sum of theirs. */
  lemma WordCountAppend(x: string, y: string)
    requires ' ' !in x
    ensures WordCount(x + " " + y) == WordCount(x) + WordCount(y)
  {
    assert x + " " + y == x + ([' '] + y);
    WordStartsAppend(x, [' '] + y, true);
    assert ([' '] + y)[1..] == y;
    WordStartsNoSpace(x, true);
  }

  /** A text without spaces has itself as its only word, or no word when empty. */
  lemma WordsNoSpace(w: string)
    requires ' ' !in w
    ensures Words(w) == if w == [] then [] else [w]
  {
    SplitUnfold(w, ' ');
    assert IndexOf(w, ' ') == |w|;
    assert Split(w, ' ') == [w];
    assert NonEmpty([w][1..]) == [] by {
      assert [w][1..] == [];
    }
  }

  /** `Words` finds exactly as many words as the scan counts. */
  lemma {:induction false} WordsCount(s: string)
    ensures |Words(s)| == WordCount(s)
    decreases |s|
  {
    var i := IndexOf(s, ' ');
    if i == |s| {
      WordsNoSpace(s);
      WordStartsNoSpace(s, true);
    } else {
      var x, y := s[..i], s[i + 1..];
      assert ' ' !in x by {
        forall k | 0 <= k < |x| ensures x[k] != ' ' {
          assert x[k] == s[k];
        }
      }
      assert s == x + " " + y by {
        Around(s, i);
      }
      WordsAppend(x, y);
      WordsNoSpace(x);
      WordStartsNoSpace(x, true);
      WordCountAppend(x, y);
      WordsCount(y);
    }
  }

  /** `s.split("-")[0]`: the part of a language tag before its first hyphen. */
  function PrimarySubtag(s: string): (r: string)
    ensures r <= s && '-' !in r
    ensures |r| < |s| ==> s[|r|] == '-'
  {
    Split(s, '-')[0]
  }

  /** `t` occurs in `s` starting at index `i`. */
  predicate OccursAt(s: string, t: string, i: int) {
    0 <= i <= |s| - |t| && s[i..i + |t|] == t
  }

  /** `s.includes(t)`: true exactly when `t` occurs somewhere in `s`. */
  function Contains(s: string, t: string): (b: bool)
    ensures b <==> exists i :: OccursAt(s, t, i)
  {
    if t <= s then
      assert OccursAt(s, t, 0);
      true
    else if s == [] then
      assert forall i :: !OccursAt(s, t, i);
      false
    else
      var b := Contains(s[1..], t);
      assert b ==> exists i :: OccursAt(s, t, i) by {
        if b {
          var i :| OccursAt(s[1..], t, i);
          OccursShift(s, t, i);
        }
      }
      assert (exists i :: OccursAt(s, t, i)) ==> b by {
        if i :| OccursAt(s, t, i) {
          assert i > 0;
          OccursShift(s, t, i - 1);
        }
      }
      b
  }

  /** An occurrence in the tail of `s` is one in `s`, one place later. */
  lemma OccursShift(s: string, t: string, i: nat)
    requires s != []
    ensures OccursAt(s[1..], t, i) <==> OccursAt(s, t, i + 1)
  {
    if i + 1 <= |s| - |t| {
      assert s[1..][i..i + |t|] == s[i + 1..i + 1 + |t|];
    }
  }

  /** `c.toLowerCase()` for the scripts whose case mapping is a fixed offset:
      Basic Latin, Latin-1, Greek and Cyrillic capitals. */
  function LowerChar(c: char): char {
    if 'A' <= c <= 'Z'
       || ('\U{00C0}' <= c <= '\U{00DE}' && c != '\U{00D7}')
       || ('\U{0391}' <= c <= '\U{03A9}' && c != '\U{03A2}')
       || ('\U{0410}' <= c <= '\U{042F}')
    then (c as int + 32) as char
    else if '\U{0400}' <= c <= '\U{040F}' then (c as int + 80) as char
    else c
  }

  /** `s.toLowerCase()`, character by character. */
  function Lower(s: string): (r: string)
    ensures |r| == |s| && forall i :: 0 <= i < |s| ==> r[i] == LowerChar(s[i])
  {
    seq(|s|, i requires 0 <= i < |s| => LowerChar(s[i]))
  }
}
