/** The browser speech-recognition front end (src/hooks/useSpeechRecognition.ts):
    how a batch of recognition results becomes at most one transcript
    callback, which recognition errors are reported, and what the hook
    reports in each of its two modes. */
module UseSpeechRecognition {
  import opened Wrappers
  import opened Text

  /** One entry of `event.results`: its best alternative's transcript and whether it is final. */
  datatype RecognitionResult = RecognitionResult(transcript: string, isFinal: bool)

  /** One `onTranscript(text, isFinal)` call. */
  datatype Callback = Callback(text: string, isFinal: bool)

  /** The results an `onresult` event asks to be read: those from `resultIndex` on. */
  function Unread(results: seq<RecognitionResult>, resultIndex: nat): seq<RecognitionResult> {
    if resultIndex <= |results| then results[resultIndex..] else []
  }

  /** The in-order concatenation of the transcripts of the results whose
      finality is `final`. */
  function Collected(results: seq<RecognitionResult>, final: bool): string {
    if results == [] then ""
    else
      var last := results[|results| - 1];
      Collected(results[..|results| - 1], final) + (if last.isFinal == final then last.transcript else "")
  }

  /** Collecting distributes over concatenation of result lists. */
  lemma {:induction false} CollectedAppend(a: seq<RecognitionResult>, b: seq<RecognitionResult>, final: bool)
    ensures Collected(a + b, final) == Collected(a, final) + Collected(b, final)
    decreases |b|
  {
    if b == [] {
      assert a + b == a;
    } else {
      var init := b[..|b| - 1];
      assert (a + b)[..|a + b| - 1] == a + init;
      CollectedAppend(a, init, final);
    }
  }

  /** The transcripts of all the results, in order. */
  function Transcripts(results: seq<RecognitionResult>): string {
    if results == [] then "" else Transcripts(results[..|results| - 1]) + results[|results| - 1].transcript
  }

  /** The final and interim parts split the results by finality: each result's
      transcript goes to exactly one of them, so their lengths add up. */
  lemma {:induction false} CollectedPartition(results: seq<RecognitionResult>)
    ensures |Collected(results, true)| + |Collected(results, false)| == |Transcripts(results)|
    ensures (forall k :: 0 <= k < |results| ==> results[k].isFinal) ==>
              Collected(results, true) == Transcripts(results) && Collected(results, false) == ""
    ensures (forall k :: 0 <= k < |results| ==> !results[k].isFinal) ==>
              Collected(results, false) == Transcripts(results) && Collected(results, true) == ""
    decreases |results|
  {
    if results != [] {
      CollectedPartition(results[..|results| - 1]);
    }
  }

  /** `onresult`: the unread results are folded into a final and an interim
      transcript; a non-blank final part is reported, trimmed, as final; failing
      that a non-blank interim part is reported, trimmed, as interim; two blank
      parts report nothing. */
  method OnResult(results: seq<RecognitionResult>, resultIndex: nat) returns (callback: Option<Callback>)
    ensures var finalPart := Collected(Unread(results, resultIndex), true);
            var interimPart := Collected(Unread(results, resultIndex), false);
            && (!AllWhitespace(finalPart) ==> callback == Some(Callback(Trim(finalPart), true)))
            && (AllWhitespace(finalPart) && !AllWhitespace(interimPart) ==>
                  callback == Some(Callback(Trim(interimPart), false)))
            && (AllWhitespace(finalPart) && AllWhitespace(interimPart) ==> callback == None)
  {
    var finalTranscript := "";
    var interimTranscript := "";
    var i := resultIndex;
    while i < |results|
      invariant resultIndex <= i <= |results| || (i == resultIndex && resultIndex > |results|)
      invariant i <= |results| ==> finalTranscript == Collected(results[resultIndex..i], true)
      invariant i <= |results| ==> interimTranscript == Collected(results[resultIndex..i], false)
      invariant i > |results| ==> finalTranscript == "" && interimTranscript == ""
    {
      assert results[resultIndex..i + 1][..i - resultIndex] == results[resultIndex..i];
      var transcript := results[i].transcript;
      if results[i].isFinal {
        finalTranscript := finalTranscript + transcript;
      } else {
        interimTranscript := interimTranscript + transcript;
      }
      i := i + 1;
    }
    if resultIndex <= |results| {
      assert results[resultIndex..i] == Unread(results, resultIndex);
    }
    // `finalTranscript && …`: the empty string is falsy, and it is blank anyway.
    var finalTrimmed := Trim(finalTranscript);
    var interimTrimmed := Trim(interimTranscript);
    if finalTranscript != "" && |finalTrimmed| > 0 {
      callback := Some(Callback(finalTrimmed, true));
    } else if |interimTrimmed| > 0 {
      callback := Some(Callback(interimTrimmed, false));
    } else {
      callback := None;
    }
  }

  /** The error code browsers send when they heard nothing. */
  const NoSpeech := "no-speech"
  /** The error code browsers send when microphone access is refused. */
  const NotAllowed := "not-allowed"

  /** The native recogniser's error handling state. */
  class NativeRecognizer {
    /** `isNativeListening`. */
    var isListening: bool
    /** The hook's `error` state: the message of the last error, if any. */
    var error: Option<string>
    /** Every message handed to `onError`, in order. */
    var reported: seq<string>
    /** Whether the caller supplied `onError`. */
    const hasErrorHandler: bool

    constructor (hasErrorHandler: bool)
      ensures !isListening && error == None && reported == [] && this.hasErrorHandler == hasErrorHandler
    {
      isListening := false;
      error := None;
      reported := [];
      this.hasErrorHandler := hasErrorHandler;
    }

    /** `startListening`. In Whisper mode it only awaits `startWhisper`, which
        catches and reports its own failures, so this hook's state is left
        alone and nothing is thrown, whatever `acquireFailure` says. In native
        mode `acquireFailure` is the message of a rejected microphone request;
        it becomes the hook's error, is reported and is thrown again
        (`thrown`). A successful request with a recogniser present starts it;
        a `start` that throws because recognition is already running
        (`alreadyStarted`) still sets the listening flag but keeps the
        previous error. */
    method StartListening(mode: Mode, acquireFailure: Option<string>, hasRecognizer: bool, alreadyStarted: bool)
      returns (thrown: Option<string>)
      modifies this`isListening, this`error, this`reported
      ensures mode == Whisper ==> thrown == None && unchanged(this)
      ensures mode == Native ==> thrown == acquireFailure
      ensures mode == Native && acquireFailure.Some? ==>
                && error == acquireFailure && isListening == old(isListening)
                && reported == old(reported) + (if hasErrorHandler then [acquireFailure.value] else [])
      ensures mode == Native && acquireFailure.None? && !hasRecognizer ==> unchanged(this)
      ensures mode == Native && acquireFailure.None? && hasRecognizer ==>
                && isListening && reported == old(reported)
                && error == (if alreadyStarted then old(error) else None)
    {
      if mode == Whisper {
        return None;
      }
      if acquireFailure.Some? {
        error := acquireFailure;
        if hasErrorHandler {
          reported := reported + [acquireFailure.value];
        }
        return acquireFailure;
      }
      thrown := None;
      if hasRecognizer {
        isListening := true;
        if !alreadyStarted {
          error := None;
        }
      }
    }

    /** `onerror` with the event's error code: silence is ignored; anything else
        becomes the hook's error and is reported; a refused microphone also
        stops listening. */
    method OnError(code: string)
      modifies this`isListening, this`error, this`reported
      ensures code == NoSpeech ==> unchanged(this)
      ensures code != NoSpeech ==>
                && error == Some("Speech recognition error: " + code)
                && reported == old(reported) + (if hasErrorHandler then [error.value] else [])
                && isListening == (old(isListening) && code != NotAllowed)
    {
      if code == NoSpeech {
        return;
      }
      var message := "Speech recognition error: " + code;
      error := Some(message);
      if hasErrorHandler {
        reported := reported + [message];
      }
      if code == NotAllowed {
        isListening := false;
      }
    }
  }

  /** A recogniser that reported a network error and is then started while
      it is already running listens again but still shows that error. */
  method RestartKeepsEarlierError() returns (listening: bool, shown: Option<string>)
    ensures listening && shown == Some("Speech recognition error: network")
  {
    var r := new NativeRecognizer(true);
    r.OnError("network");
    assert "Speech recognition error: " + "network" == "Speech recognition error: network";
    var thrown := r.StartListening(Native, None, true, true);
    listening, shown := r.isListening, r.error;
  }

  /** A refused microphone is reported once, thrown again, and leaves the
      recogniser idle. */
  method RefusedMicrophoneReported() returns (listening: bool, shown: Option<string>, reported: seq<string>,
                                              thrown: Option<string>)
    ensures !listening && shown == Some("Permission denied") && reported == ["Permission denied"]
    ensures thrown == Some("Permission denied")
  {
    var r := new NativeRecognizer(true);
    thrown := r.StartListening(Native, Some("Permission denied"), true, false);
    listening, shown, reported := r.isListening, r.error, r.reported;
  }

  /** Recognition by the browser's engine, or by the Whisper segmenter. */
  datatype Mode = Native | Whisper

  /** What the whisper hook currently reports. */
  datatype WhisperView = WhisperView(isListening: bool, isModelLoading: bool, isModelReady: bool, loadingProgress: int)

  /** What the hook returns. */
  datatype HookView = HookView(
    isListening: bool, isSupported: bool, isModelLoading: bool, isModelReady: bool,
    loadingProgress: int, mode: Mode)

  /** The hook's return value in `mode`, given the whisper hook's state, the
      native listening flag and whether the browser has a recogniser. */
  function View(mode: Mode, whisper: WhisperView, nativeListening: bool, browserSupport: bool): (v: HookView)
    ensures v.mode == mode && v.isModelLoading == whisper.isModelLoading
    ensures mode == Whisper ==>
              v.isListening == whisper.isListening && v.isSupported
              && v.isModelReady == whisper.isModelReady && v.loadingProgress == whisper.loadingProgress
    ensures mode == Native ==>
              v.isListening == nativeListening && v.isSupported == browserSupport
              && v.isModelReady && v.loadingProgress == 0
  {
    match mode
    case Whisper => HookView(whisper.isListening, true, whisper.isModelLoading, whisper.isModelReady, whisper.loadingProgress, mode)
    case Native => HookView(nativeListening, browserSupport, whisper.isModelLoading, true, 0, mode)
  }

  /** In native mode the hook's listening, support, readiness and progress do
      not depend on the whisper hook at all; in whisper mode they do not depend
      on the browser's recogniser. */
  lemma ViewIndependence(w1: WhisperView, w2: WhisperView, l1: bool, l2: bool, s1: bool, s2: bool)
    ensures var a := View(Native, w1, l1, s1);
            var b := View(Native, w2, l1, s1);
            a.isListening == b.isListening && a.isSupported == b.isSupported
            && a.isModelReady == b.isModelReady && a.loadingProgress == b.loadingProgress
    ensures View(Whisper, w1, l1, s1) == View(Whisper, w1, l2, s2)
  {
  }
}
