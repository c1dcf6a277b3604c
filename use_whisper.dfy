/** The audio segmenter in front of the Whisper worker (src/hooks/useWhisper.ts).

    Each audio frame is appended to a buffer, and the frame's loudness
    (its root-mean-square level against 0.002) arrives as the boolean `quiet`.
    A 100 ms tick cuts the buffer into a segment after half a second of
    silence or five seconds of speech. Only one segment is in flight at a
    time, and a segment of at most 3200 samples (0.2 s at 16 kHz) is
    discarded. The worker's replies clear the in-flight flag and report
    transcripts. Time is a millisecond parameter. Messages posted to the
    worker, transcripts and errors handed to the callbacks are appended to
    logs. */
module UseWhisper {
  import opened Wrappers
  import opened Text

  /** Milliseconds of silence after which the segment is cut. */
  const SilenceDuration := 500
  /** Milliseconds of segment after which it is cut regardless of silence. */
  const MaxSegmentDuration := 5000
  /** `16000 * 0.2`: a segment must hold more samples than this to be transcribed. */
  const MinSamples := 3200

  /** A `generate` request posted to the worker. */
  datatype Submission = Submission(audio: seq<real>, language: string)

  /** One `onTranscript(text, isFinal)` call. */
  datatype Transcript = Transcript(text: string, isFinal: bool)

  /** The `data` of a `loading` message. `Progress` carries the already rounded
      percentage of a numeric progress report. */
  datatype LoadingData = Progress(percent: int) | Initiate | Done | OtherLoadingData

  /** The `data` of a `complete` message: one text, an array of chunks each
      with a text, or anything else. */
  datatype CompleteData = TextData(text: string) | ChunkList(texts: seq<string>) | OtherCompleteData

  /** A message from the worker, by its `status`. */
  datatype WorkerMessage =
    | Loading(loading: LoadingData)
    | Ready
    | Complete(data: CompleteData)
    | Error(message: string)
    | OtherStatus

  /** The frames' samples, in arrival order. */
  function Flatten(chunks: seq<seq<real>>): seq<real> {
    if chunks == [] then [] else Flatten(chunks[..|chunks| - 1]) + chunks[|chunks| - 1]
  }

  /** `chunks.reduce((acc, chunk) => acc + chunk.length, 0)`. */
  function TotalLength(chunks: seq<seq<real>>): nat {
    if chunks == [] then 0 else TotalLength(chunks[..|chunks| - 1]) + |chunks[|chunks| - 1]|
  }

  /** The merged audio holds exactly as many samples as the sum of the chunk lengths. */
  lemma {:induction false} FlattenLength(chunks: seq<seq<real>>)
    ensures |Flatten(chunks)| == TotalLength(chunks)
    decreases |chunks|
  {
    if chunks != [] {
      FlattenLength(chunks[..|chunks| - 1]);
    }
  }

  /** The sample count of a prefix of the buffer never exceeds the whole buffer's. */
  lemma {:induction false} TotalLengthPrefix(chunks: seq<seq<real>>, k: nat)
    requires k <= |chunks|
    ensures TotalLength(chunks[..k]) <= TotalLength(chunks)
    decreases |chunks|
  {
    if k < |chunks| {
      var init := chunks[..|chunks| - 1];
      assert init[..k] == chunks[..k];
      TotalLengthPrefix(init, k);
    } else {
      assert chunks[..k] == chunks;
    }
  }

  /** Pushing a frame onto the buffer appends its samples to the merged audio
      after everything already buffered. */
  lemma {:induction false} FlattenPush(chunks: seq<seq<real>>, frame: seq<real>)
    ensures Flatten(chunks + [frame]) == Flatten(chunks) + frame
    ensures TotalLength(chunks + [frame]) == TotalLength(chunks) + |frame|
  {
    assert (chunks + [frame])[..|chunks|] == chunks;
  }

  /** The merge loop: a buffer of `TotalLength(chunks)` samples into which each
      chunk is copied at the running offset. The result is the chunks' samples
      in order. */
  method MergeChunks(chunks: seq<seq<real>>) returns (merged: seq<real>)
    ensures merged == Flatten(chunks)
    ensures |merged| == TotalLength(chunks)
  {
    var totalLength := TotalLength(chunks);
    var audio := new real[totalLength];
    var offset := 0;
    var k := 0;
    while k < |chunks|
      invariant 0 <= k <= |chunks|
      invariant offset == TotalLength(chunks[..k]) <= totalLength
      invariant audio[..offset] == Flatten(chunks[..k])
    {
      var chunk := chunks[k];
      assert chunks[..k + 1][..k] == chunks[..k];
      TotalLengthPrefix(chunks, k + 1);
      // `mergedAudio.set(chunk, offset)`
      forall j | 0 <= j < |chunk| {
        audio[offset + j] := chunk[j];
      }
      assert audio[..offset + |chunk|] == audio[..offset] + chunk;
      offset := offset + |chunk|;
      k := k + 1;
    }
    assert chunks[..k] == chunks;
    assert audio[..] == audio[..offset];
    merged := audio[..];
    FlattenLength(chunks);
  }

  /** How long the silence has lasted at `now`. The tick tests the silence
      start for truthiness, so an unset start, and a start at time 0, count as
      no silence. */
  function SilenceSoFar(silenceStart: Option<int>, now: int): int {
    if silenceStart.Some? && silenceStart.value != 0 then now - silenceStart.value else 0
  }

  /** Whether a tick at `now` cuts the segment. */
  predicate ShouldCut(silenceStart: Option<int>, segmentStart: int, now: int) {
    SilenceSoFar(silenceStart, now) > SilenceDuration || now - segmentStart > MaxSegmentDuration
  }

  /** A cut happens exactly after more than half a second of silence or more
      than five seconds of segment; without a silence start, or with one
      recorded at time 0 (which is falsy), only the length rule applies. */
  lemma CutRule(silenceStart: Option<int>, segmentStart: int, now: int)
    ensures silenceStart == None ==> (ShouldCut(silenceStart, segmentStart, now) <==> now - segmentStart > 5000)
    ensures silenceStart == Some(0) ==> (ShouldCut(silenceStart, segmentStart, now) <==> now - segmentStart > 5000)
    ensures silenceStart.Some? && silenceStart.value != 0 ==>
              (ShouldCut(silenceStart, segmentStart, now) <==>
                 now - silenceStart.value > 500 || now - segmentStart > 5000)
  {
  }

  /** The text a `complete` message reports, if any: the trimmed text, or the
      chunk texts joined with spaces and trimmed; nothing when that is empty. */
  function TranscriptOf(data: CompleteData): (r: Option<string>)
    ensures data.OtherCompleteData? ==> r == None
    ensures data.TextData? ==> (r == None <==> AllWhitespace(data.text))
    ensures data.ChunkList? ==> (r == None <==> AllWhitespace(Join(data.texts, " ")))
    ensures r.Some? ==> r.value != [] && IsTrimmed(r.value)
    ensures data.TextData? && r.Some? && IsTrimmed(data.text) ==> r.value == data.text
  {
    match data
    case TextData(text) =>
      var t := Trim(text);
      if t != "" then Some(t) else None
    case ChunkList(texts) =>
      var t := Trim(Join(texts, " "));
      if t != "" then Some(t) else None
    case OtherCompleteData => None
  }

  class Segmenter {
    /** `audioDataRef`: the frames buffered since the last cut. */
    var chunks: seq<seq<real>>
    /** `silenceStartRef`: when the current run of quiet frames began. */
    var silenceStart: Option<int>
    /** `segmentStartRef`: when the current segment began. */
    var segmentStart: int
    /** `lastAudioDataTimeRef`: when the last frame arrived (written, never read). */
    var lastAudioData: int
    /** `isProcessingRef`: a segment is with the worker. */
    var isProcessing: bool
    var isListening: bool
    var isModelLoading: bool
    var isModelReady: bool
    var loadingProgress: int
    /** `workerRef.current` is set. */
    var hasWorker: bool
    /** The `language` option. */
    var language: string
    /** Whether the caller supplied `onError`. */
    const hasErrorHandler: bool
    /** Every `generate` message posted to the worker, in order. */
    var submitted: seq<Submission>
    /** Every `onTranscript` call, in order. */
    var transcripts: seq<Transcript>
    /** The message of every `onError` call, in order. */
    var errors: seq<string>

    /** Listening needs a loaded model, which never unloads. */
    ghost predicate Valid()
      reads this
    {
      isListening ==> isModelReady
    }

    /** The hook's first render at time `now`. */
    constructor (language: string, hasErrorHandler: bool, now: int)
      ensures Valid()
      ensures chunks == [] && silenceStart == None && segmentStart == now && lastAudioData == now
      ensures !isProcessing && !isListening && !isModelLoading && !isModelReady && loadingProgress == 0
      ensures !hasWorker && this.language == language && this.hasErrorHandler == hasErrorHandler
      ensures submitted == [] && transcripts == [] && errors == []
    {
      chunks := [];
      silenceStart := None;
      segmentStart := now;
      lastAudioData := now;
      isProcessing := false;
      isListening := false;
      isModelLoading := false;
      isModelReady := false;
      loadingProgress := 0;
      hasWorker := false;
      this.language := language;
      this.hasErrorHandler := hasErrorHandler;
      submitted := [];
      transcripts := [];
      errors := [];
    }

    /** The enabling effect: a worker is created, unless one exists, and told to load the model. */
    method CreateWorker()
      requires Valid()
      modifies this`hasWorker, this`isModelLoading
      ensures Valid() && hasWorker
      ensures isModelLoading == (old(isModelLoading) || !old(hasWorker))
    {
      if !hasWorker {
        hasWorker := true;
        isModelLoading := true;
      }
    }

    /** The effect's cleanup: the worker is terminated and forgotten. */
    method TerminateWorker()
      requires Valid()
      modifies this`hasWorker
      ensures Valid() && !hasWorker
    {
      hasWorker := false;
    }

    /** `onmessage`: loading progress, readiness, a completed transcription or a worker error. */
    method OnWorkerMessage(message: WorkerMessage)
      requires Valid()
      modifies this`isModelLoading, this`isModelReady, this`loadingProgress, this`isProcessing
      modifies this`transcripts, this`errors
      ensures Valid()
      ensures message.Loading? ==>
                && isModelLoading
                && loadingProgress == (match message.loading
                                       case Progress(p) => p
                                       case Initiate => 0
                                       case Done => 100
                                       case OtherLoadingData => old(loadingProgress))
                && isProcessing == old(isProcessing) && isModelReady == old(isModelReady)
                && transcripts == old(transcripts) && errors == old(errors)
      ensures message.Ready? ==>
                && !isModelLoading && isModelReady && loadingProgress == 100
                && isProcessing == old(isProcessing) && transcripts == old(transcripts) && errors == old(errors)
      ensures message.Complete? ==>
                && !isProcessing
                && transcripts == old(transcripts) + (match TranscriptOf(message.data)
                                                      case Some(t) => [Transcript(t, true)]
                                                      case None => [])
                && isModelLoading == old(isModelLoading) && isModelReady == old(isModelReady)
                && loadingProgress == old(loadingProgress) && errors == old(errors)
      ensures message.Error? ==>
                && !isProcessing && !isModelLoading
                && errors == old(errors) + (if hasErrorHandler then [message.message] else [])
                && isModelReady == old(isModelReady) && loadingProgress == old(loadingProgress)
                && transcripts == old(transcripts)
      ensures message.OtherStatus? ==> unchanged(this)
    {
      match message
      case Loading(loading) =>
        isModelLoading := true;
        match loading {
          case Progress(p) => loadingProgress := p;
          case Initiate => loadingProgress := 0;
          case Done => loadingProgress := 100;
          case OtherLoadingData =>
        }
      case Ready =>
        isModelLoading := false;
        isModelReady := true;
        loadingProgress := 100;
      case Complete(data) =>
        isProcessing := false;
        var text := TranscriptOf(data);
        if text.Some? {
          // Always final: the worker transcribes whole segments.
          transcripts := transcripts + [Transcript(text.value, true)];
        }
      case Error(m) =>
        isProcessing := false;
        isModelLoading := false;
        if hasErrorHandler {
          errors := errors + [m];
        }
      case OtherStatus =>
    }

    /** `startListening` at time `now`. Nothing happens before the model is
        ready. `failure` is the message of the error opening the microphone
        raised, if it raised one. */
    method StartListening(now: int, failure: Option<string>)
      requires Valid()
      modifies this`isListening, this`segmentStart, this`errors
      ensures Valid()
      ensures isModelReady && failure == None ==>
                isListening && segmentStart == now && errors == old(errors)
      ensures isModelReady && failure.Some? ==>
                isListening == old(isListening) && segmentStart == old(segmentStart)
                && errors == old(errors) + (if hasErrorHandler then [failure.value] else [])
      ensures !isModelReady ==> unchanged(this)
    {
      if !isModelReady {
        return;
      }
      if failure.Some? {
        if hasErrorHandler {
          errors := errors + [failure.value];
        }
        return;
      }
      isListening := true;
      segmentStart := now;
    }

    /** `onaudioprocess` for a frame arriving at `now`: a quiet frame starts the
        silence run unless one is running, a loud one ends it; the frame is
        buffered either way. */
    method OnAudioFrame(frame: seq<real>, quiet: bool, now: int)
      requires Valid()
      modifies this`silenceStart, this`chunks, this`lastAudioData
      ensures Valid()
      ensures quiet && old(silenceStart).Some? ==> silenceStart == old(silenceStart)
      ensures quiet && old(silenceStart) == None ==> silenceStart == Some(now)
      ensures !quiet ==> silenceStart == None
      ensures chunks == old(chunks) + [frame] && lastAudioData == now
      ensures Flatten(chunks) == Flatten(old(chunks)) + frame
    {
      if quiet {
        if silenceStart == None {
          silenceStart := Some(now);
        }
      } else {
        silenceStart := None;
      }
      FlattenPush(chunks, frame);
      chunks := chunks + [frame];
      lastAudioData := now;
    }

    /** `stopListening`: listening stops and the buffer, the silence run and
        the in-flight flag are dropped. */
    method StopListening()
      requires Valid()
      modifies this`isListening, this`chunks, this`silenceStart, this`isProcessing
      ensures Valid()
      ensures !isListening && chunks == [] && silenceStart == None && !isProcessing
    {
      isListening := false;
      chunks := [];
      silenceStart := None;
      isProcessing := false;
    }

    /** One tick of the 100 ms interval at time `now`; the interval runs only
        while listening. A tick that finds a non-empty buffer and a reason to
        cut, with no segment in flight, submits the merged buffer if it is long
        enough (marking it in flight, even without a worker to post to) and
        starts a new segment in every case. */
    method Tick(now: int)
      requires Valid()
      modifies this`chunks, this`silenceStart, this`segmentStart, this`isProcessing, this`submitted
      ensures Valid()
      ensures (|| !isListening || old(chunks) == []
               || !ShouldCut(old(silenceStart), old(segmentStart), now) || old(isProcessing)) ==> unchanged(this)
      ensures isListening && old(chunks) != [] && ShouldCut(old(silenceStart), old(segmentStart), now)
              && !old(isProcessing) ==>
                && chunks == [] && silenceStart == None && segmentStart == now
                && (TotalLength(old(chunks)) > MinSamples ==>
                      isProcessing
                      && submitted == old(submitted) +
                           (if hasWorker then [Submission(Flatten(old(chunks)), PrimarySubtag(language))] else []))
                && (TotalLength(old(chunks)) <= MinSamples ==> !isProcessing && submitted == old(submitted))
    {
      if !isListening || chunks == [] {
        return;
      }
      var segmentDuration := now - segmentStart;
      var silenceDuration := SilenceSoFar(silenceStart, now);
      var shouldProcess := silenceDuration > SilenceDuration || segmentDuration > MaxSegmentDuration;
      if shouldProcess && !isProcessing {
        var totalLength := TotalLength(chunks);
        if totalLength > MinSamples {
          var mergedAudio := MergeChunks(chunks);
          isProcessing := true;
          if hasWorker {
            submitted := submitted + [Submission(mergedAudio, PrimarySubtag(language))];
          }
        }
        chunks := [];
        silenceStart := None;
        segmentStart := now;
      }
    }
  }

  /** A fresh segmenter whose model has loaded and which started listening at `t`. */
  method ListeningSegmenter(language: string, hasErrorHandler: bool, t: int) returns (s: Segmenter)
    ensures fresh(s) && s.Valid()
    ensures s.chunks == [] && s.silenceStart == None && s.segmentStart == t
    ensures s.isListening && s.isModelReady && !s.isModelLoading && !s.isProcessing && s.hasWorker
    ensures s.language == language && s.hasErrorHandler == hasErrorHandler
    ensures s.submitted == [] && s.transcripts == [] && s.errors == []
  {
    s := new Segmenter(language, hasErrorHandler, t);
    s.CreateWorker();
    s.OnWorkerMessage(Ready);
    s.StartListening(t, None);
  }

  /** A loud frame then a quiet one: 100 ms into the silence nothing is cut;
      once the silence passes half a second, both frames go to the worker as
      one segment, in order, with the language's primary subtag. */
  method SilenceCutsSegment(language: string, loud: seq<real>, quiet: seq<real>, t: int)
    returns (early: seq<Submission>, late: seq<Submission>, buffered: seq<seq<real>>)
    requires t > 0 && |loud| + |quiet| > MinSamples
    ensures early == []
    ensures late == [Submission(loud + quiet, PrimarySubtag(language))]
    ensures buffered == []
  {
    var s := ListeningSegmenter(language, true, t);
    s.OnAudioFrame(loud, false, t + 100);
    s.OnAudioFrame(quiet, true, t + 200);
    FlattenPush([], loud);
    FlattenPush([loud], quiet);
    s.Tick(t + 300);
    early := s.submitted;
    assert s.chunks == [loud, quiet];
    assert Flatten(s.chunks) == loud + quiet && TotalLength(s.chunks) > MinSamples;
    s.Tick(t + 701);
    late, buffered := s.submitted, s.chunks;
  }

  /** The worker is told "en" for an "en-US" recogniser. */
  lemma EnglishHint()
    ensures PrimarySubtag("en-US") == "en"
  {
    assert IndexOf("en-US", '-') == 2;
    assert "en-US"[..2] == "en";
  }

  /** A listening segmenter for "en-US" that has just submitted `first`, cut at `t + 700`. */
  method BusySegmenter(first: seq<real>, t: int) returns (s: Segmenter)
    requires t > 0 && |first| > MinSamples
    ensures fresh(s) && s.Valid()
    ensures s.chunks == [] && s.silenceStart == None && s.segmentStart == t + 700
    ensures s.isListening && s.isProcessing && s.hasWorker && s.language == "en-US"
    ensures s.submitted == [Submission(first, "en")]
  {
    s := ListeningSegmenter("en-US", false, t);
    EnglishHint();
    s.OnAudioFrame(first, true, t + 100);
    FlattenPush([], first);
    assert s.chunks == [first];
    assert Flatten(s.chunks) == first && TotalLength(s.chunks) > MinSamples;
    s.Tick(t + 700);
  }

  /** The segmenter of `BusySegmenter` after two more frames and a due tick at
      `t + 5800`: the cut is skipped because `first` is still in flight. */
  method BusyWithBuffer(first: seq<real>, second: seq<real>, third: seq<real>, t: int) returns (s: Segmenter)
    requires t > 0 && |first| > MinSamples
    ensures fresh(s) && s.Valid()
    ensures s.chunks == [second, third] && s.segmentStart == t + 700 && s.silenceStart == None
    ensures s.isListening && s.isProcessing && s.hasWorker && s.language == "en-US"
    ensures s.submitted == [Submission(first, "en")]
  {
    s := BusySegmenter(first, t);
    s.OnAudioFrame(second, false, t + 800);
    s.OnAudioFrame(third, false, t + 900);
    assert s.chunks == [second, third];
    s.Tick(t + 5800);
  }

  /** While a segment is in flight, a due cut is skipped: nothing more is
      posted and the buffer keeps every frame. */
  method BusyWorkerDefersCut(first: seq<real>, second: seq<real>, third: seq<real>, t: int)
    returns (posted: seq<Submission>, kept: seq<seq<real>>)
    requires t > 0 && |first| > MinSamples
    ensures posted == [Submission(first, "en")]
    ensures kept == [second, third]
  {
    var s := BusyWithBuffer(first, second, third, t);
    posted, kept := s.submitted, s.chunks;
  }

  /** Two buffered frames merge into their concatenation. */
  lemma FlattenPair(a: seq<real>, b: seq<real>)
    ensures Flatten([a, b]) == a + b && TotalLength([a, b]) == |a| + |b|
  {
    FlattenPush([], a);
    FlattenPush([a], b);
    assert [] + [a] == [a] && [a] + [b] == [a, b];
  }

  /** The segmenter of `BusyWithBuffer` after the worker replies `complete`
      with nothing to report: the worker is free and the buffer is intact. */
  method IdleWithBuffer(first: seq<real>, second: seq<real>, third: seq<real>, t: int) returns (s: Segmenter)
    requires t > 0 && |first| > MinSamples
    ensures fresh(s) && s.Valid()
    ensures s.chunks == [second, third] && s.segmentStart == t + 700 && s.silenceStart == None
    ensures s.isListening && !s.isProcessing && s.hasWorker && s.language == "en-US"
    ensures s.submitted == [Submission(first, "en")]
  {
    s := BusyWithBuffer(first, second, third, t);
    s.OnWorkerMessage(Complete(OtherCompleteData));
  }

  /** Once the worker replies `complete`, whatever it carries, the next tick
      submits everything buffered while it was busy, as one segment. */
  method ReplyReleasesDeferredCut(first: seq<real>, second: seq<real>, third: seq<real>, t: int)
    returns (posted: seq<Submission>)
    requires t > 0 && |first| > MinSamples && |second| + |third| > MinSamples
    ensures posted == [Submission(first, "en"), Submission(second + third, "en")]
  {
    var s := IdleWithBuffer(first, second, third, t);
    EnglishHint();
    FlattenPair(second, third);
    s.Tick(t + 5900);
    posted := s.submitted;
  }

  /** A segment of at most 3200 samples is dropped at the cut: nothing is
      posted, the buffer is emptied and the worker stays free. */
  method ShortSegmentDiscarded(frame: seq<real>, t: int)
    returns (posted: seq<Submission>, buffered: seq<seq<real>>, processing: bool)
    requires t > 0 && |frame| <= MinSamples
    ensures posted == [] && buffered == [] && !processing
  {
    var s := ListeningSegmenter("es-ES", true, t);
    s.OnAudioFrame(frame, false, t + 100);
    FlattenPush([], frame);
    s.Tick(t + 5100);
    posted, buffered, processing := s.submitted, s.chunks, s.isProcessing;
  }

  /** A `complete` message with chunk texts reports them joined by spaces, as
      one final transcript, and frees the worker. */
  method ChunkTextsJoined(t: int) returns (shown: seq<Transcript>, processing: bool)
    ensures shown == [Transcript("hello world", true)] && !processing
  {
    var s := ListeningSegmenter("en", false, t);
    assert Join(["hello", "world"], " ") == "hello world";
    s.OnWorkerMessage(Complete(ChunkList(["hello", "world"])));
    shown, processing := s.transcripts, s.isProcessing;
  }
}
