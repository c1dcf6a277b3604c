/** The offline translator (src/services/translation/providers/MockTranslationService.ts):
    an exact dictionary lookup, then a loose one, then a tagged copy of the
    text. The dictionary is a parameter, in its iteration order; the three
    regular-expression tests on the text are inputs. */
module MockTranslation {
  import opened Wrappers
  import opened Text

  /** One dictionary entry: a lowercase source phrase and its translations,
      keyed by language code. */
  datatype Entry = Entry(phrase: string, translations: map<string, string>)

  /** The answers of the three regular-expression tests on the original
      text: accented Spanish letters, common Spanish words, common English
      words. */
  datatype Cues = Cues(spanishChars: bool, spanishWords: bool, englishWords: bool)

  /** `translations[code]`, when it is present and not empty. */
  function TranslationFor(entry: Entry, code: string): (r: Option<string>)
    ensures r.Some? <==> code in entry.translations && entry.translations[code] != ""
    ensures r.Some? ==> r.value == entry.translations[code] && r.value != ""
  {
    if code in entry.translations && entry.translations[code] != "" then Some(entry.translations[code]) else None
  }

  /** Entry `i` is the first whose phrase is `phrase`. */
  ghost predicate FirstWithPhrase(dict: seq<Entry>, i: int, phrase: string) {
    0 <= i < |dict| && dict[i].phrase == phrase && forall j :: 0 <= j < i ==> dict[j].phrase != phrase
  }

  /** `mockTranslations[lowerText][code]`: the translation the entry for
      `lowerText` has for `code`, if there is such an entry and translation. */
  function ExactLookup(dict: seq<Entry>, lowerText: string, code: string): (r: Option<string>)
    ensures (forall i :: 0 <= i < |dict| ==> dict[i].phrase != lowerText) ==> r == None
    ensures forall i :: FirstWithPhrase(dict, i, lowerText) ==> r == TranslationFor(dict[i], code)
  {
    if dict == [] then None
    else if dict[0].phrase == lowerText then TranslationFor(dict[0], code)
    else
      var r := ExactLookup(dict[1..], lowerText, code);
      assert forall i :: FirstWithPhrase(dict, i, lowerText) ==> FirstWithPhrase(dict[1..], i - 1, lowerText);
      r
  }

  /** Either string contains the other. */
  predicate Related(lowerText: string, phrase: string) {
    Contains(lowerText, phrase) || Contains(phrase, lowerText)
  }

  /** Entry `entry` is a loose match for `lowerText` with a translation for `code`. */
  predicate LooseHit(entry: Entry, lowerText: string, code: string) {
    Related(lowerText, entry.phrase) && TranslationFor(entry, code).Some?
  }

  /** Entry `i` is the first loose match with a translation for `code`. */
  ghost predicate FirstLooseHit(dict: seq<Entry>, i: int, lowerText: string, code: string) {
    0 <= i < |dict| && LooseHit(dict[i], lowerText, code)
    && forall j :: 0 <= j < i ==> !LooseHit(dict[j], lowerText, code)
  }

  /** The loop over the entries: the translation for `code` of the first
      entry whose phrase contains, or is contained in, `lowerText` and that
      has one. */
  function LooseLookup(dict: seq<Entry>, lowerText: string, code: string): (r: Option<string>)
    ensures r == None <==> forall i :: 0 <= i < |dict| ==> !LooseHit(dict[i], lowerText, code)
    ensures forall i :: FirstLooseHit(dict, i, lowerText, code) ==> r == TranslationFor(dict[i], code)
  {
    if dict == [] then None
    else if LooseHit(dict[0], lowerText, code) then TranslationFor(dict[0], code)
    else
      var r := LooseLookup(dict[1..], lowerText, code);
      assert forall i :: FirstLooseHit(dict, i, lowerText, code) ==> FirstLooseHit(dict[1..], i - 1, lowerText, code);
      assert forall i :: 0 < i < |dict| ==> dict[i] == dict[1..][i - 1];
      r
  }

  /** No string starts with both `es` and `en`. */
  lemma DistinctPrefixes(s: string)
    ensures !("es" <= s && "en" <= s)
  {
    if |s| >= 2 {
      assert "es"[1] != "en"[1];
    }
  }

  /** The tag for a text the dictionary does not know: English for a
      Spanish-to-English pair, Spanish for an English-to-Spanish pair, and
      otherwise English when the text looks Spanish. */
  function FallbackTag(source: string, target: string, cues: Cues): (tag: string)
    ensures tag == "[EN] " || tag == "[ES] "
    ensures "es" <= source && "en" <= target ==> tag == "[EN] "
    ensures "en" <= source && "es" <= target ==> tag == "[ES] "
  {
    DistinctPrefixes(source);
    var spanishToEnglish := "es" <= source && "en" <= target;
    var englishToSpanish := "en" <= source && "es" <= target;
    if spanishToEnglish then "[EN] "
    else if englishToSpanish then "[ES] "
    else if cues.spanishChars || (cues.spanishWords && !cues.englishWords) then "[EN] "
    else "[ES] "
  }

  /** `translate`: the exact entry's translation for the target's primary
      subtag, else the first loose match's, else the tagged original text. */
  function Translate(dict: seq<Entry>, text: string, source: string, target: string, cues: Cues): (r: string)
    ensures r != ""
    ensures var lowerText := Trim(Lower(text));
            var code := PrimarySubtag(target);
            && (ExactLookup(dict, lowerText, code).Some? ==> r == ExactLookup(dict, lowerText, code).value)
            && (ExactLookup(dict, lowerText, code).None? && LooseLookup(dict, lowerText, code).Some? ==>
                  r == LooseLookup(dict, lowerText, code).value)
            && (ExactLookup(dict, lowerText, code).None? && LooseLookup(dict, lowerText, code).None? ==>
                  r == FallbackTag(source, target, cues) + text)
  {
    var lowerText := Trim(Lower(text));
    var code := PrimarySubtag(target);
    match ExactLookup(dict, lowerText, code)
    case Some(translation) =>
      assert exists i :: FirstWithPhrase(dict, i, lowerText) && TranslationFor(dict[i], code) == Some(translation) by {
        ExactFound(dict, lowerText, code);
      }
      translation
    case None =>
      match LooseLookup(dict, lowerText, code)
      case Some(translation) =>
        LooseFound(dict, lowerText, code);
        translation
      case None => FallbackTag(source, target, cues) + text
  }

  /** A found exact translation comes from the first entry with that phrase. */
  lemma {:induction false} ExactFound(dict: seq<Entry>, lowerText: string, code: string)
    requires ExactLookup(dict, lowerText, code).Some?
    ensures exists i :: FirstWithPhrase(dict, i, lowerText) && TranslationFor(dict[i], code) == ExactLookup(dict, lowerText, code)
  {
    if dict[0].phrase == lowerText {
      assert FirstWithPhrase(dict, 0, lowerText);
    } else {
      ExactFound(dict[1..], lowerText, code);
      var i :| FirstWithPhrase(dict[1..], i, lowerText) && TranslationFor(dict[1..][i], code) == ExactLookup(dict[1..], lowerText, code);
      assert FirstWithPhrase(dict, i + 1, lowerText);
    }
  }

  /** A found loose translation comes from the first loose hit, and is not empty. */
  lemma {:induction false} LooseFound(dict: seq<Entry>, lowerText: string, code: string)
    requires LooseLookup(dict, lowerText, code).Some?
    ensures exists i :: FirstLooseHit(dict, i, lowerText, code)
    ensures LooseLookup(dict, lowerText, code).value != ""
  {
    if LooseHit(dict[0], lowerText, code) {
      assert FirstLooseHit(dict, 0, lowerText, code);
    } else {
      LooseFound(dict[1..], lowerText, code);
      var i :| FirstLooseHit(dict[1..], i, lowerText, code);
      assert FirstLooseHit(dict, i + 1, lowerText, code);
    }
  }

  /** A phrase the dictionary has, with a translation for the target, is
      translated by its own entry even when an earlier entry matches loosely. */
  lemma ExactBeforeLoose(dict: seq<Entry>, text: string, source: string, target: string, cues: Cues, i: nat)
    requires FirstWithPhrase(dict, i, Trim(Lower(text)))
    requires TranslationFor(dict[i], PrimarySubtag(target)).Some?
    ensures Translate(dict, text, source, target, cues) == dict[i].translations[PrimarySubtag(target)]
  {
  }

  /** Every phrase contains the empty string, so a blank text the dictionary
      does not list exactly is translated by the first entry that has the
      target language at all. */
  lemma BlankTextTakesFirstEntry(dict: seq<Entry>, text: string, source: string, target: string, cues: Cues, i: nat)
    requires Trim(Lower(text)) == ""
    requires forall j :: 0 <= j < |dict| ==> dict[j].phrase != ""
    requires i < |dict| && TranslationFor(dict[i], PrimarySubtag(target)).Some?
    requires forall j :: 0 <= j < i ==> TranslationFor(dict[j], PrimarySubtag(target)).None?
    ensures Translate(dict, text, source, target, cues) == dict[i].translations[PrimarySubtag(target)]
  {
    var code := PrimarySubtag(target);
    assert OccursAt(dict[i].phrase, "", 0);
    assert FirstLooseHit(dict, i, "", code);
  }

  /** With nothing in the dictionary the text comes back whole behind a
      five-character tag. */
  lemma UnknownTextKeptWhole(text: string, source: string, target: string, cues: Cues)
    ensures var r := Translate([], text, source, target, cues);
            r[5..] == text && (r[..5] == "[EN] " || r[..5] == "[ES] ")
  {
  }
}
