/** The phrase accumulator and latest-wins translation guard that sits between
    speech recognition and the display (src/hooks/useSubtitleQueue.ts).

    The hook's three refs become fields of `SubtitleQueue`; the 200 ms debounced
    call to `performTranslation` becomes the `pending` slot, which a new call
    overwrites, `cancel` empties and `FlushPending` (the debounce timer firing)
    hands to `PerformTranslation`. The awaited translation is split in two: the
    request is issued by `PerformTranslation` and its outcome is delivered later,
    in any order, to `CompleteTranslation`. Every callback the hook makes is
    appended to `emitted`. */
module UseSubtitleQueue {
  import opened Wrappers
  import opened Text

  /** Milliseconds between two accepted fragments beyond which a new phrase starts. */
  const NewPhraseDelay := 1000

  /** One call of `onSubtitleUpdate`, `onTranslationUpdate` or `onOverlayUpdate`. */
  datatype Emission =
    | SubtitleUpdate(subtitle: string)
    | TranslationUpdate(translation: string)
    | OverlayUpdate(subtitle: string, translation: string)

  /** An issued translation request: the ticket it was given and the text it translates. */
  datatype Request = Request(id: nat, text: string)

  predicate IsLineTerminator(c: char) {
    c == '\n' || c == '\r' || c == '\U{2028}' || c == '\U{2029}'
  }

  /** `^<open>.*<close>$` without flags: `.` matches any character but a line terminator. */
  predicate EnclosedBy(s: string, open: char, close: char) {
    && |s| >= 2 && s[0] == open && s[|s| - 1] == close
    && forall i :: 1 <= i < |s| - 1 ==> !IsLineTerminator(s[i])
  }

  /** A bracketed or parenthesised engine annotation such as `[Music]`:
      `/^\[.*\]$/` or `/^\(.*\)$/`. */
  predicate IsAnnotation(clean: string) {
    EnclosedBy(clean, '[', ']') || EnclosedBy(clean, '(', ')')
  }

  /** The fragment filter of `processNewText`: the trimmed text, unless it is
      shorter than two characters or an annotation. */
  function Accepted(text: string): Option<string> {
    var clean := Trim(text);
    if |clean| < 2 || IsAnnotation(clean) then None else Some(clean)
  }

  /** The literal list of non-speech markers the hook also rejects. */
  const KnownMarkers: seq<string> := ["[MÃºsica]", "[Music]"]

  /** The literal marker list adds nothing to the two patterns, so the filter
      can leave it out: both markers are bracketed. */
  lemma KnownMarkersAreBracketed(clean: string)
    ensures IsAnnotation(clean) <==>
              EnclosedBy(clean, '[', ']') || EnclosedBy(clean, '(', ')') || clean in KnownMarkers
  {
    if clean in KnownMarkers {
      assert clean == "[MÃºsica]" || clean == "[Music]";
    }
  }

  /** The running phrase after `clean` is appended to `acc`. */
  function Accumulate(acc: string, clean: string): string {
    if acc != "" then acc + " " + clean else clean
  }

  /** Appending a trimmed fragment keeps the phrase trimmed, so the hook's
      final `trim()` of the phrase never changes it (by `Trim`'s contract). */
  lemma AccumulateTrimmed(acc: string, clean: string)
    requires IsTrimmed(acc) && IsTrimmed(clean) && clean != ""
    ensures IsTrimmed(Accumulate(acc, clean))
  {
    var phrase := Accumulate(acc, clean);
    assert phrase[0] == if acc != "" then acc[0] else clean[0];
    assert phrase[|phrase| - 1] == clean[|clean| - 1];
  }

  /** The phrase's words are the old phrase's words followed by the fragment's. */
  lemma AccumulateWords(acc: string, clean: string)
    ensures Words(Accumulate(acc, clean)) == Words(acc) + Words(clean)
  {
    if acc != "" {
      WordsAppend(acc, clean);
    } else {
      assert Words(acc) == [] by {
        assert Split(acc, ' ') == [""];
      }
    }
  }

  class SubtitleQueue {
    /** `contextAccumulatorRef`: the phrase built so far. */
    var accumulator: string
    /** `lastTextArrivalRef`: when the last accepted fragment arrived. */
    var lastArrival: int
    /** `currentTranslationIdRef`: the ticket of the only request whose result may still be shown. */
    var translationId: nat
    /** The argument of the pending debounced `performTranslation` call, if any. */
    var pending: Option<string>
    /** Every callback made so far, in order. */
    var emitted: seq<Emission>
    /** Whether the caller supplied `onOverlayUpdate`. */
    const hasOverlay: bool

    ghost predicate Valid()
      reads this
    {
      IsTrimmed(accumulator)
    }

    constructor (hasOverlay: bool)
      ensures Valid()
      ensures accumulator == "" && lastArrival == 0 && translationId == 0
      ensures pending == None && emitted == [] && this.hasOverlay == hasOverlay
    {
      accumulator := "";
      lastArrival := 0;
      translationId := 0;
      pending := None;
      emitted := [];
      this.hasOverlay := hasOverlay;
    }

    /** `performTranslation` up to its `await`: blank text is ignored; otherwise
        the ticket counter is bumped and the request carries the new ticket. */
    method PerformTranslation(text: string) returns (request: Option<Request>)
      requires Valid()
      modifies this
      ensures Valid()
      ensures AllWhitespace(text) ==> request == None && translationId == old(translationId)
      ensures !AllWhitespace(text) ==>
                translationId == old(translationId) + 1 && request == Some(Request(translationId, text))
      ensures accumulator == old(accumulator) && lastArrival == old(lastArrival)
      ensures pending == old(pending) && emitted == old(emitted)
    {
      if Trim(text) == "" {
        return None;
      }
      translationId := translationId + 1;
      request := Some(Request(translationId, text));
    }

    /** `performTranslation` after its `await`: the outcome (`None` when the
        translator threw) is shown, together with its source text on the
        overlay, only while the request's ticket is still the current one. */
    method CompleteTranslation(request: Request, outcome: Option<string>)
      requires Valid()
      modifies this
      ensures Valid()
      ensures request.id != translationId || outcome == None ==> emitted == old(emitted)
      ensures request.id == translationId && outcome.Some? ==>
                emitted == old(emitted) + [TranslationUpdate(outcome.value)]
                           + (if hasOverlay then [OverlayUpdate(request.text, outcome.value)] else [])
      ensures accumulator == old(accumulator) && lastArrival == old(lastArrival)
      ensures translationId == old(translationId) && pending == old(pending)
    {
      if outcome.Some? && request.id == translationId {
        emitted := emitted + [TranslationUpdate(outcome.value)];
        if hasOverlay {
          emitted := emitted + [OverlayUpdate(request.text, outcome.value)];
        }
      }
    }

    /** The debounce timer fires: the pending text, if any, is translated. */
    method FlushPending() returns (request: Option<Request>)
      requires Valid()
      modifies this
      ensures Valid()
      ensures old(pending) == None ==> request == None && unchanged(this)
      ensures old(pending).Some? && AllWhitespace(old(pending).value) ==>
                request == None && translationId == old(translationId)
      ensures old(pending).Some? && !AllWhitespace(old(pending).value) ==>
                translationId == old(translationId) + 1
                && request == Some(Request(translationId, old(pending).value))
      ensures old(pending).Some? ==> pending == None
      ensures accumulator == old(accumulator) && lastArrival == old(lastArrival) && emitted == old(emitted)
    {
      request := None;
      if pending.Some? {
        var text := pending.value;
        pending := None;
        request := PerformTranslation(text);
      }
    }

    /** `processNewText(text, isFinal)` at time `now`. A rejected fragment
        changes nothing, not even the arrival time. An accepted one more than
        `NewPhraseDelay` after the previous starts a new phrase: both lines are
        blanked, the pending translation is cancelled and every request in
        flight becomes stale. The fragment is then appended to the phrase, which
        is shown and queued for translation. `isFinal` plays no part. */
    method ProcessNewText(text: string, isFinal: bool, now: int)
      requires Valid()
      modifies this
      ensures Valid()
      ensures Accepted(text) == None ==> unchanged(this)
      ensures Accepted(text).Some? ==> lastArrival == now && pending == Some(accumulator)
      ensures Accepted(text).Some? && now - old(lastArrival) > NewPhraseDelay ==>
                && accumulator == Accepted(text).value
                && translationId == old(translationId) + 1
                && emitted == old(emitted) + [SubtitleUpdate(""), TranslationUpdate("")] + [SubtitleUpdate(accumulator)]
      ensures Accepted(text).Some? && now - old(lastArrival) <= NewPhraseDelay ==>
                && accumulator == Accumulate(old(accumulator), Accepted(text).value)
                && translationId == old(translationId)
                && emitted == old(emitted) + [SubtitleUpdate(accumulator)]
    {
      // Blank, one-character and annotation fragments are dropped.
      var accepted := Accepted(text);
      if accepted == None {
        return;
      }
      var clean := accepted.value;
      var timeSinceLastText := now - lastArrival;
      lastArrival := now;
      if timeSinceLastText > NewPhraseDelay {
        // The same blanking as `clearQueue`, then the pending translation is
        // cancelled and every request in flight is retired.
        ClearQueue();
        pending := None;
        translationId := translationId + 1;
      }
      // The source's second emptiness test of `cleanText` cannot fail here.
      AppendFragment(clean);
      // The source trims the phrase once more; by `AccumulateTrimmed` that is
      // the identity, so the phrase is shown as it stands.
      var fullText := accumulator;
      emitted := emitted + [SubtitleUpdate(fullText)];
      pending := Some(fullText);
    }

    /** Appends an accepted fragment to the phrase, after a space unless the
        phrase is empty. */
    method AppendFragment(clean: string)
      requires Valid() && IsTrimmed(clean) && clean != ""
      modifies this`accumulator
      ensures Valid() && accumulator == Accumulate(old(accumulator), clean)
    {
      var previousText := if accumulator != "" then accumulator + " " else "";
      AccumulateTrimmed(accumulator, clean);
      assert previousText + clean == Accumulate(accumulator, clean);
      accumulator := previousText + clean;
    }

    /** `clearQueue`: empties the phrase and blanks both lines; tickets and the
        pending translation are left alone. */
    method ClearQueue()
      requires Valid()
      modifies this
      ensures Valid()
      ensures accumulator == "" && emitted == old(emitted) + [SubtitleUpdate(""), TranslationUpdate("")]
      ensures lastArrival == old(lastArrival) && translationId == old(translationId) && pending == old(pending)
    {
      accumulator := "";
      emitted := emitted + [SubtitleUpdate(""), TranslationUpdate("")];
    }

    /** `reset` as written: `clearQueue` plus a new ticket, so every request in
        flight becomes stale. The pending debounced translation survives. */
    method Reset()
      requires Valid()
      modifies this
      ensures Valid()
      ensures accumulator == "" && emitted == old(emitted) + [SubtitleUpdate(""), TranslationUpdate("")]
      ensures translationId == old(translationId) + 1
      ensures lastArrival == old(lastArrival) && pending == old(pending)
    {
      ClearQueue();
      translationId := translationId + 1;
    }

    /** `reset` as evidently intended: also cancels the pending debounced
        translation, as a phrase break does. */
    method ResetAndCancel()
      requires Valid()
      modifies this
      ensures Valid()
      ensures accumulator == "" && emitted == old(emitted) + [SubtitleUpdate(""), TranslationUpdate("")]
      ensures translationId == old(translationId) + 1 && pending == None
      ensures lastArrival == old(lastArrival)
    {
      Reset();
      pending := None;
    }
  }

  /** The first accepted fragment of a fresh queue starts a new phrase, since
      the last arrival time starts at 0 (for any clock past one second). */
  method FirstFragmentStartsPhrase(text: string, now: int) returns (shown: seq<Emission>, ticket: nat)
    requires Accepted(text).Some? && now > NewPhraseDelay
    ensures shown == [SubtitleUpdate(""), TranslationUpdate(""), SubtitleUpdate(Trim(text))]
    ensures ticket == 1
  {
    var q := new SubtitleQueue(true);
    q.ProcessNewText(text, false, now);
    shown, ticket := q.emitted, q.translationId;
  }

  /** Two fragments 300 ms apart form one phrase, and only that phrase is queued. */
  method FragmentsWithinDelayFormOnePhrase(first: string, second: string, now: int)
    returns (shown: seq<Emission>, queued: Option<string>)
    requires Accepted(first).Some? && Accepted(second).Some? && now > NewPhraseDelay
    ensures shown == [SubtitleUpdate(""), TranslationUpdate(""), SubtitleUpdate(Trim(first)),
                      SubtitleUpdate(Trim(first) + " " + Trim(second))]
    ensures queued == Some(Trim(first) + " " + Trim(second))
  {
    var q := new SubtitleQueue(true);
    q.ProcessNewText(first, false, now);
    q.ProcessNewText(second, true, now + 300);
    shown, queued := q.emitted, q.pending;
  }

  /** Overlapping requests: once a newer request has been issued, the older
      one's result shows nothing, whether it arrives before the newer one's
      (`newerFirst` false) or after it. */
  method LatestRequestWins(a: string, b: string, resultA: string, resultB: string, newerFirst: bool)
    returns (shown: seq<Emission>)
    requires !AllWhitespace(a) && !AllWhitespace(b)
    ensures shown == [TranslationUpdate(resultB), OverlayUpdate(b, resultB)]
  {
    var q := new SubtitleQueue(true);
    var requestA := q.PerformTranslation(a);
    var requestB := q.PerformTranslation(b);
    if newerFirst {
      q.CompleteTranslation(requestB.value, Some(resultB));
      q.CompleteTranslation(requestA.value, Some(resultA));
    } else {
      q.CompleteTranslation(requestA.value, Some(resultA));
      q.CompleteTranslation(requestB.value, Some(resultB));
    }
    shown := q.emitted;
  }

  /** A phrase break makes the previous phrase's translation in flight inert. */
  method PhraseBreakMakesInFlightInert(first: string, second: string, now: int, late: string)
    returns (shown: seq<Emission>)
    requires Accepted(first).Some? && Accepted(second).Some? && now > NewPhraseDelay
    ensures shown == [SubtitleUpdate(""), TranslationUpdate(""), SubtitleUpdate(Trim(first)),
                      SubtitleUpdate(""), TranslationUpdate(""), SubtitleUpdate(Trim(second))]
  {
    var q := new SubtitleQueue(false);
    q.ProcessNewText(first, true, now);
    var request := q.FlushPending();
    q.ProcessNewText(second, true, now + 1200);
    q.CompleteTranslation(request.value, Some(late));
    shown := q.emitted;
  }

  /** A reset makes every request already in flight inert. */
  method ResetMakesInFlightInert(text: string, late: string) returns (shown: seq<Emission>)
    requires !AllWhitespace(text)
    ensures shown == [SubtitleUpdate(""), TranslationUpdate("")]
  {
    var q := new SubtitleQueue(true);
    var request := q.PerformTranslation(text);
    q.Reset();
    q.CompleteTranslation(request.value, Some(late));
    shown := q.emitted;
  }

  /** As written, a fragment accepted just before `reset` is still translated
      after it, and its translation reaches the blanked display. */
  method PendingTranslationSurvivesReset(text: string, now: int, late: string)
    returns (shown: seq<Emission>)
    requires Accepted(text).Some? && now > NewPhraseDelay
    ensures shown == [SubtitleUpdate(""), TranslationUpdate(""), SubtitleUpdate(Trim(text)),
                      SubtitleUpdate(""), TranslationUpdate(""),
                      TranslationUpdate(late), OverlayUpdate(Trim(text), late)]
  {
    var q := new SubtitleQueue(true);
    q.ProcessNewText(text, true, now);
    q.Reset();
    var request := q.FlushPending();
    q.CompleteTranslation(request.value, Some(late));
    shown := q.emitted;
  }

  /** With the cancelling reset, nothing queued before the reset is translated:
      the debounce timer finds no pending text and the display stays blank. */
  method CancellingResetLeavesDisplayBlank(text: string, now: int)
    returns (shown: seq<Emission>, request: Option<Request>)
    requires Accepted(text).Some? && now > NewPhraseDelay
    ensures request == None
    ensures shown == [SubtitleUpdate(""), TranslationUpdate(""), SubtitleUpdate(Trim(text)),
                      SubtitleUpdate(""), TranslationUpdate("")]
  {
    var q := new SubtitleQueue(true);
    q.ProcessNewText(text, true, now);
    q.ResetAndCancel();
    request := q.FlushPending();
    shown := q.emitted;
  }
}
