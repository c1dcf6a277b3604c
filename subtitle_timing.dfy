/** How long a subtitle stays on screen and whether it is shown at once
    (src/utils/subtitleTiming.ts). Lengths are counted in characters. */
module SubtitleTiming {
  import opened Text
  import SentenceDetection

  /** A subtitle is long when it has more than this many characters. */
  const LongThreshold := 80
  /** Milliseconds of reading time allowed per character. */
  const MsPerChar := 45

  /** Whether `text` counts as a long subtitle. */
  predicate IsLong(text: string) {
    |text| > LongThreshold
  }

  /** The least display time, in milliseconds. */
  function BaseTime(long: bool): int {
    if long then 2000 else 1500
  }

  /** The greatest reading time, in milliseconds. */
  function ReadingCap(long: bool): int {
    if long then 6000 else 4000
  }

  /** `calculateDisplayTime`: the reading time of `text` at 45 ms a character,
      capped, but never less than the base time. */
  function CalculateDisplayTime(text: string): (ms: int)
    ensures !IsLong(text) ==> 1500 <= ms <= 4000
    ensures IsLong(text) ==> 2000 <= ms <= 6000
    ensures ms >= BaseTime(IsLong(text)) && ms <= ReadingCap(IsLong(text))
    ensures BaseTime(IsLong(text)) <= |text| * MsPerChar <= ReadingCap(IsLong(text)) <==> ms == |text| * MsPerChar
  {
    var long := IsLong(text);
    var readingTime := if |text| * MsPerChar < ReadingCap(long) then |text| * MsPerChar else ReadingCap(long);
    if BaseTime(long) > readingTime then BaseTime(long) else readingTime
  }

  /** An empty subtitle is shown for the short base time. */
  lemma EmptyDisplayTime()
    ensures CalculateDisplayTime("") == 1500
  {
  }

  /** A short subtitle of up to 33 characters gets the base time and any
      longer one exactly its reading time: the 4000 ms cap is never reached,
      since 80 characters read in 3600 ms. */
  lemma ShortDisplayTimeBands(text: string)
    requires !IsLong(text)
    ensures |text| <= 33 ==> CalculateDisplayTime(text) == 1500
    ensures 34 <= |text| ==> CalculateDisplayTime(text) == |text| * MsPerChar
  {
  }

  /** A long subtitle gets its reading time up to 133 characters and the cap
      from 134 on. */
  lemma LongDisplayTimeBands(text: string)
    requires IsLong(text)
    ensures |text| <= 133 ==> CalculateDisplayTime(text) == |text| * MsPerChar
    ensures |text| >= 134 ==> CalculateDisplayTime(text) == 6000
  {
  }

  /** A longer subtitle is never shown for less time, even across the
      short/long boundary. */
  lemma DisplayTimeMonotone(a: string, b: string)
    requires |a| <= |b|
    ensures CalculateDisplayTime(a) <= CalculateDisplayTime(b)
  {
    if IsLong(b) && !IsLong(a) {
      ShortDisplayTimeBands(a);
      LongDisplayTimeBands(b);
    }
  }

  /** `shouldDisplayImmediately`: at least five space-separated words and a
      trimmed text that ends a sentence. */
  function ShouldDisplayImmediately(text: string): (b: bool)
    ensures b <==> WordCount(text) >= 5 && EndsWithTerminator(Trim(text))
  {
    WordsCount(text);
    var words := |Words(text)|;
    var isSentenceEnd := EndsWithTerminator(Trim(text));
    words >= 5 && isSentenceEnd
  }

  /** On a trimmed text, being shown at once implies being a complete sentence. */
  lemma ImmediateIsComplete(text: string)
    requires IsTrimmed(text) && ShouldDisplayImmediately(text)
    ensures SentenceDetection.IsCompleteSentence(text)
  {
  }

  /** Without trimming the implication fails: the words are counted in the
      untrimmed text, split on spaces only, so each leading tab counts as a
      word, while the sentence test counts the words of the trimmed text. */
  lemma TabsCountAsWords()
    ensures ShouldDisplayImmediately("\t \t \t a b.")
    ensures !SentenceDetection.IsCompleteSentence("\t \t \t a b.")
  {
    var tab, a, b := "\t", "a", "b.";
    var ab := a + " " + b;
    var text := tab + " " + (tab + " " + (tab + " " + ab));
    assert text == "\t \t \t a b.";
    assert ab == "a b.";
    WordStartsNoSpace(tab, true);
    WordStartsNoSpace(a, true);
    WordStartsNoSpace(b, true);
    WordCountAppend(a, b);
    WordCountAppend(tab, ab);
    WordCountAppend(tab, tab + " " + ab);
    WordCountAppend(tab, tab + " " + (tab + " " + ab));
    LeadingBlanksTrimmed(text, 6);
  }
}
