# echocast, modelled in Dafny

echocast is a live-subtitle web application. Speech comes in from the browser's
native recogniser or from a Whisper worker that receives segmented microphone
audio. The text is accumulated into phrases, translated by a server route
(Gemini) or by an offline mock translator, and shown with a display time.

This project models the core of that pipeline:

- the phrase accumulator and latest-wins translation guard (`UseSubtitleQueue`);
- the audio segmenter in front of the Whisper worker (`UseWhisper`);
- the native recogniser's result and error handling (`UseSpeechRecognition`);
- subtitle timing and sentence splitting (`SubtitleTiming`, `SentenceDetection`);
- the language table, its search and lookup helpers, and the language picker
  (`LanguageData`, `LanguageUtils`, `LanguageSelector`);
- the server translation route (`TranslateRoute`);
- the client translation hook and its retry schedule (`UseTranslation`);
- the service factory and the mock translator (`ServiceFactory`, `MockTranslation`);
- the microphone list hook (`UseAudioDevices`);
- the application store (`AppStore`).

Shared string helpers follow JavaScript's semantics: `trim`, `split`,
`join`, `includes`, `startsWith`, `toLowerCase` and code-point ordering. They
live in `Text`, and `Option`/`Result` live in `Wrappers`.

Stateful hooks and objects are classes whose fields the methods update. Each
callback the code makes is appended to a log field, so contracts can state
what was shown or posted. Clocks, the network, the worker, the microphone,
franc's language guess and Gemini's answer are parameters of the methods
that use them.

## Model

| member | source | states |
|---|---|---|
| UseSubtitleQueue.KnownMarkersAreBracketed | src/hooks/useSubtitleQueue.ts:77-86 | a fragment is an annotation (bracketed or parenthesised, one line) exactly when the two patterns or the literal marker list reject it: the literal markers add nothing |
| UseSubtitleQueue.AccumulateTrimmed | src/hooks/useSubtitleQueue.ts:102-105 | joining a trimmed accumulator and a trimmed non-empty fragment with a space gives a trimmed phrase |
| UseSubtitleQueue.AccumulateWords | src/hooks/useSubtitleQueue.ts:102-105 | the words of the accumulated phrase are the accumulator's words followed by the fragment's |
| UseSubtitleQueue.SubtitleQueue.constructor | src/hooks/useSubtitleQueue.ts:34-36 | empty accumulator, arrival time 0, ticket 0, nothing pending or shown |
| UseSubtitleQueue.SubtitleQueue.PerformTranslation | src/hooks/useSubtitleQueue.ts:40-58 | blank text issues nothing; otherwise a request with the next ticket is issued; nothing else changes |
| UseSubtitleQueue.SubtitleQueue.CompleteTranslation | src/hooks/useSubtitleQueue.ts:53-61 | an answer is shown, together with the overlay when there is one, only if its ticket is still the latest; failures and stale answers change nothing |
| UseSubtitleQueue.SubtitleQueue.FlushPending | src/hooks/useSubtitleQueue.ts:73 | the debounce firing hands the last queued phrase to translation and empties the slot; with nothing queued nothing happens |
| UseSubtitleQueue.SubtitleQueue.ProcessNewText | src/hooks/useSubtitleQueue.ts:75-111 | a dropped fragment changes nothing; after more than 1000 ms a new phrase starts (display cleared, ticket bumped); otherwise the fragment is appended; the phrase is shown and queued for translation |
| UseSubtitleQueue.SubtitleQueue.AppendFragment | src/hooks/useSubtitleQueue.ts:102-105 | the accumulator becomes the old one plus the fragment, space-separated |
| UseSubtitleQueue.SubtitleQueue.ClearQueue | src/hooks/useSubtitleQueue.ts:120-124 | clears the accumulator and both displays; the ticket and the queued call are kept |
| UseSubtitleQueue.SubtitleQueue.Reset | src/hooks/useSubtitleQueue.ts:126-129 | as written: clears and bumps the ticket, but the debounced call stays queued |
| UseSubtitleQueue.SubtitleQueue.ResetAndCancel | src/hooks/useSubtitleQueue.ts:126-129 | corrected reset: also cancels the debounced call |
| UseSubtitleQueue.FirstFragmentStartsPhrase | src/hooks/useSubtitleQueue.ts:88-110 | the first accepted fragment clears both displays, then shows its trimmed text under ticket 1 |
| UseSubtitleQueue.FragmentsWithinDelayFormOnePhrase | src/hooks/useSubtitleQueue.ts:92-110 | two fragments within the delay are shown and queued as one space-joined phrase |
| UseSubtitleQueue.LatestRequestWins | src/hooks/useSubtitleQueue.ts:44-58 | of two overlapping requests, only the later one's answer is shown, both when it arrives before the earlier one's and when it arrives after it |
| UseSubtitleQueue.PhraseBreakMakesInFlightInert | src/hooks/useSubtitleQueue.ts:92-98 | a request in flight when a new phrase starts is never shown |
| UseSubtitleQueue.ResetMakesInFlightInert | src/hooks/useSubtitleQueue.ts:126-129 | a request in flight at reset is never shown |
| UseSubtitleQueue.PendingTranslationSurvivesReset | src/hooks/useSubtitleQueue.ts:126-129 | as written: a phrase queued before reset is still translated and shown after the display was cleared |
| UseSubtitleQueue.CancellingResetLeavesDisplayBlank | src/hooks/useSubtitleQueue.ts:126-129 | with the corrected reset nothing is issued and the display stays blank |
| UseWhisper.FlattenLength | src/hooks/useWhisper.ts:224-227 | the merged length equals the sum of the chunk lengths |
| UseWhisper.TotalLengthPrefix | src/hooks/useWhisper.ts:224-236 | a prefix of the chunks holds no more samples than all of them, so the merge stays inside the buffer |
| UseWhisper.FlattenPush | src/hooks/useWhisper.ts:154-168 | appending a frame appends its samples and its length |
| UseWhisper.MergeChunks | src/hooks/useWhisper.ts:224-236 | the loop copies every chunk in order: the result is the concatenation, of the total length |
| UseWhisper.CutRule | src/hooks/useWhisper.ts:209-220 | a segment is cut after more than 500 ms of silence or more than 5000 ms since it began; with no silence start, or one recorded at time 0 (falsy), only the 5000 ms rule applies |
| UseWhisper.TranscriptOf | src/hooks/useWhisper.ts:80-97 | a string text or the space-joined chunk texts, trimmed; blank or other data gives no transcript |
| UseWhisper.Segmenter.constructor | src/hooks/useWhisper.ts:18-38 | no audio, no worker, not listening, not loading, progress 0 |
| UseWhisper.Segmenter.CreateWorker | src/hooks/useWhisper.ts:50-108 | a worker exists; a new one starts loading |
| UseWhisper.Segmenter.TerminateWorker | src/hooks/useWhisper.ts:110-116 | the worker is gone |
| UseWhisper.Segmenter.OnWorkerMessage | src/hooks/useWhisper.ts:57-104 | loading sets progress (0 at initiate, 100 at done); ready sets ready and 100; complete clears busy and reports a non-blank transcript as final; error clears busy and loading and reports; other statuses change nothing |
| UseWhisper.Segmenter.StartListening | src/hooks/useWhisper.ts:127-180 | without a ready model nothing happens; otherwise it listens from now, or reports the failure |
| UseWhisper.Segmenter.OnAudioFrame | src/hooks/useWhisper.ts:154-168 | the frame is buffered; quiet starts silence once, sound ends it |
| UseWhisper.Segmenter.StopListening | src/hooks/useWhisper.ts:182-199 | not listening, buffer and silence cleared, not busy |
| UseWhisper.Segmenter.Tick | src/hooks/useWhisper.ts:206-257 | when listening with audio, the cut rule met and the worker idle: the buffer is merged, posted if it holds more than 3200 samples and dropped otherwise, and a new segment starts; in every other case nothing changes |
| UseWhisper.SilenceCutsSegment | src/hooks/useWhisper.ts:206-257 | a loud frame then a quiet one: nothing is posted 100 ms into the silence; once the silence passes 500 ms both frames go out as one segment, in order, with the language's primary subtag |
| UseWhisper.BusyWorkerDefersCut | src/hooks/useWhisper.ts:222 | while a segment is in flight later audio stays buffered and is not posted |
| UseWhisper.ReplyReleasesDeferredCut | src/hooks/useWhisper.ts:80-97 | the worker's reply lets the next tick post the deferred audio |
| UseWhisper.ShortSegmentDiscarded | src/hooks/useWhisper.ts:230 | a segment of at most 3200 samples is dropped without being posted |
| UseWhisper.ChunkTextsJoined | src/hooks/useWhisper.ts:80-97 | chunk texts arrive as one space-joined final transcript |
| UseSpeechRecognition.CollectedAppend | src/hooks/useSpeechRecognition.ts:81-88 | collecting final or interim transcripts distributes over concatenation |
| UseSpeechRecognition.CollectedPartition | src/hooks/useSpeechRecognition.ts:81-88 | every transcript goes to exactly one of the final and interim strings |
| UseSpeechRecognition.OnResult | src/hooks/useSpeechRecognition.ts:77-95 | the loop from the result index collects final and interim text; non-blank final text is reported as final, else non-blank interim text as interim, else nothing |
| UseSpeechRecognition.NativeRecognizer.constructor | src/hooks/useSpeechRecognition.ts:36 | not listening, no error |
| UseSpeechRecognition.NativeRecognizer.StartListening | src/hooks/useSpeechRecognition.ts:140-178 | in Whisper mode it throws nothing and leaves the hook's state alone, since `startWhisper` handles its own failures; in native mode a failed microphone request sets the error, reports it and is rethrown; with a recogniser, listening starts and the error clears, unless `start` threw because recognition was already running, which keeps the previous error |
| UseSpeechRecognition.RestartKeepsEarlierError | src/hooks/useSpeechRecognition.ts:116-167 | after a network error, a start while already running listens again and still shows that error |
| UseSpeechRecognition.RefusedMicrophoneReported | src/hooks/useSpeechRecognition.ts:170-176 | a refused microphone is shown, reported once and thrown again, and nothing listens |
| UseSpeechRecognition.NativeRecognizer.OnError | src/hooks/useSpeechRecognition.ts:116-129 | `no-speech` is ignored; other codes set and report the error, and `not-allowed` stops listening |
| UseSpeechRecognition.View | src/hooks/useSpeechRecognition.ts:208-218 | the hook's fields come from the Whisper segmenter in Whisper mode, and from the native recogniser (always ready, progress 0) otherwise |
| UseSpeechRecognition.ViewIndependence | src/hooks/useSpeechRecognition.ts:208-218 | in native mode readiness and progress do not depend on the worker; in Whisper mode the native state is ignored |
| SubtitleTiming.CalculateDisplayTime | src/utils/subtitleTiming.ts:2-16 | 1500..4000 ms for texts of up to 80 characters and 2000..6000 ms for longer ones; 45 ms per character exactly when that lies between the floor and the cap |
| SubtitleTiming.EmptyDisplayTime | src/utils/subtitleTiming.ts:2-16 | the empty text shows for 1500 ms |
| SubtitleTiming.ShortDisplayTimeBands | src/utils/subtitleTiming.ts:7-15 | short texts: the floor up to 33 characters, 45 ms per character from 34 |
| SubtitleTiming.LongDisplayTimeBands | src/utils/subtitleTiming.ts:4-15 | long texts: 45 ms per character up to 133 characters, the 6000 ms cap from 134 |
| SubtitleTiming.DisplayTimeMonotone | src/utils/subtitleTiming.ts:2-16 | a longer text never shows for less time |
| SubtitleTiming.ShouldDisplayImmediately | src/utils/subtitleTiming.ts:19-23 | true exactly when the untrimmed text has at least five words by the word-start count (`Text.WordCount`) and the trimmed text ends in `.`, `!` or `?` |
| SubtitleTiming.ImmediateIsComplete | src/utils/subtitleTiming.ts:19-23 | a trimmed text shown immediately is also a complete sentence |
| SubtitleTiming.TabsCountAsWords | src/utils/subtitleTiming.ts:19-23 | the implication needs the trimmed text: `"\t \t \t a b."` is shown immediately, because the untrimmed split on spaces counts each tab as a word, yet it is not a complete sentence |
| SentenceDetection.IsCompleteSentence | src/utils/sentenceDetection.ts:1-10 | true exactly when the trimmed text ends in a terminator and holds at least three words by the word-start count (`Text.WordCount`) |
| SentenceDetection.SplitIntoSentences | src/utils/sentenceDetection.ts:12-17 | every piece is non-empty and trimmed |
| SentenceDetection.SplitWellFormed | src/utils/sentenceDetection.ts:12-17 | pieces are trimmed, non-empty and contain no internal break; every piece but the last ends in a terminator |
| SentenceDetection.SplitEmptyIffBlank | src/utils/sentenceDetection.ts:12-17 | no sentences exactly when the text is blank |
| SentenceDetection.SplitJoin | src/utils/sentenceDetection.ts:12-17 | splitting well-formed sentences joined by spaces gives them back |
| SentenceDetection.LastSentenceEnds | src/utils/sentenceDetection.ts:12-22 | for non-blank text the last sentence ends with the trimmed text's last character |
| SentenceDetection.GetLastCompleteSentence | src/utils/sentenceDetection.ts:19-22 | null exactly for blank text; otherwise the last split piece, which is non-empty, trimmed and unbroken |
| SentenceDetection.TerminatedHasLast | src/utils/sentenceDetection.ts:12-22 | when the trimmed text ends in a terminator, there is a last sentence; it ends on the trimmed text's last character, which is that terminator |
| SentenceDetection.CompleteSentenceHasLast | src/utils/sentenceDetection.ts:1-22 | a complete sentence has a last sentence, ending on the same terminator as the trimmed text |
| Text.Trim | src/utils/sentenceDetection.ts:2 | the result is trimmed, empty exactly for blank input, the input itself when already trimmed, and a slice between whitespace runs (`Text.TrimSlice`) |
| Text.Words | src/utils/sentenceDetection.ts:8 | the words are non-empty and hold no space |
| Text.WordsNoSpace | src/utils/sentenceDetection.ts:8 | a text without spaces is its own single word, or has none when empty |
| Text.WordsAppend | src/utils/sentenceDetection.ts:8 | the words of two texts joined by one space are the words of the first followed by those of the second |
| Text.WordCountAppend | src/utils/subtitleTiming.ts:20 | the word-start count of two texts joined by one space, the first without spaces, is the sum of theirs |
| Text.WordsCount | src/utils/subtitleTiming.ts:20 | the number of words `split(" ").filter(...)` finds equals the number of word starts, a non-space character at the start or after a space |
| Text.Contains | src/data/languages.ts:117-121 | `includes`: true exactly when the needle occurs at some index |
| Text.PrimarySubtag | src/app/api/translate/route.ts:95-96 | `split("-")[0]`: a hyphen-free prefix followed by a hyphen or the end |
| LanguageData.FilterMatches | src/data/languages.ts:114-123 | the kept languages are exactly the table's matches (name, native name or code contains the lowered query), without `auto` unless asked |
| LanguageData.WithoutAuto | src/data/languages.ts:108-112 | exactly the table's entries other than `auto` |
| LanguageData.SearchIn | src/data/languages.ts:104-126 | a blank query gives the table (without `auto` unless asked); otherwise the matches of the trimmed, lowered query |
| LanguageData.SearchSubsequence | src/data/languages.ts:104-126 | the search keeps the table's order |
| LanguageData.SearchLanguages | src/data/languages.ts:104-126 | every result is in the language table and is `auto` only when asked |
| LanguageData.FindByCode | src/data/languages.ts:128-130 | undefined exactly when no entry has the code; otherwise the first entry that has it |
| LanguageData.GetLanguageByCode | src/data/languages.ts:128-130 | the first table entry with the code, or none |
| LanguageUtils.GetLanguageFlag | src/utils/languageUtils.ts:4-7 | the entry's flag, or the globe when the code is unknown or the flag empty |
| LanguageUtils.GetLanguageName | src/utils/languageUtils.ts:10-13 | the entry's name, or the code itself when unknown or the name is empty |
| LanguageSelector.WithPopularity | src/components/LanguageSelector.tsx:42-48 | exactly the popular (or the other) languages, in order |
| LanguageSelector.PartitionPermutation | src/components/LanguageSelector.tsx:42-50 | popular then others is a permutation of the search result |
| LanguageSelector.Arrange | src/components/LanguageSelector.tsx:34-51 | a non-blank query keeps the search order; the result is always a permutation |
| LanguageSelector.BlankQueryPopularFirst | src/components/LanguageSelector.tsx:42-50 | with a blank query the popular languages come first, each group in table order |
| LanguageSelector.DividerAtBoundary | src/components/LanguageSelector.tsx:162-170 | with a blank query a divider appears exactly where popular gives way to the rest |
| LanguageSelector.Selector.constructor | src/components/LanguageSelector.tsx:34-51 | closed, empty query, full list |
| LanguageSelector.Selector.SetSearchQuery | src/components/LanguageSelector.tsx:34-51 | the visible list follows the new query |
| LanguageSelector.Selector.Select | src/components/LanguageSelector.tsx:68-72 | reports the code, closes, clears the query |
| LanguageSelector.Selector.InputClick | src/components/LanguageSelector.tsx:74-79 | opens unless disabled |
| LanguageSelector.Selector.KeyDown | src/components/LanguageSelector.tsx:81-88 | Escape closes and clears; Enter selects the first visible language when there is one; other keys change nothing |
| LanguageSelector.Selector.MouseDown | src/components/LanguageSelector.tsx:53-66 | a press outside closes and clears the query; inside changes nothing |
| LanguageSelector.TypeAndEnter | src/components/LanguageSelector.tsx:81-88 | typing a query and pressing Enter reports the first visible language, or nothing |
| LanguageSelector.EscapeRestoresFullList | src/components/LanguageSelector.tsx:81-84 | Escape brings back the full arranged list and closes |
| TranslateRoute.ConvertToISO6391 | src/app/api/translate/route.ts:58-90 | mapped three-letter codes give their two-letter code; anything else its first two characters; the result has at most two characters |
| TranslateRoute.KeysShape | src/app/api/translate/route.ts:59-88 | every key of the mapping has three letters |
| TranslateRoute.ConvertIdempotent | src/app/api/translate/route.ts:58-90 | converting twice is converting once |
| TranslateRoute.DetectLanguage | src/app/api/translate/route.ts:46-56 | texts under 10 trimmed characters and `und` give nothing; otherwise the converted guess |
| TranslateRoute.ShortTextNotDetected | src/app/api/translate/route.ts:46-56 | a short text is never detected, whatever franc says |
| TranslateRoute.ResolveLanguages | src/app/api/translate/route.ts:92-108 | `auto` takes the detection (or `en`) as the source; a detected es/en swap reverses the pair; otherwise both primary subtags |
| TranslateRoute.ResolveFollowsDetection | src/app/api/translate/route.ts:92-108 | for an English/Spanish pair, a detection that contradicts the source becomes the source and the target is the other language |
| TranslateRoute.BuildPrompt | src/app/api/translate/route.ts:121-140 | the prompt built with `+=` is the header naming `detected language (<code>)` for `auto` and the given source otherwise, the context block only for a non-empty context, and the fixed instruction tail |
| TranslateRoute.PromptEndsWithTail | src/app/api/translate/route.ts:138-140 | every prompt ends with the closing instruction |
| TranslateRoute.AutoPromptNamesDetection | src/app/api/translate/route.ts:92-123 | for `auto`, a text long enough for detection names the converted detector answer; a shorter one names English |
| TranslateRoute.GivenSourceIgnoresDetection | src/app/api/translate/route.ts:119-123 | with a source other than `auto` the prompt is the same whatever the detector answers, and names the source and target as given |
| TranslateRoute.SwapNeverReachesPrompt | src/app/api/translate/route.ts:98-123 | for source `es`, target `en` and text detected as English, `resolveLanguages` gives en→es while the prompt still asks for es→en |
| TranslateRoute.ResolvedPrompt | src/app/api/translate/route.ts:92-140 | the corrected prompt names the resolved pair: for `auto`, the detection (or English) to the target's primary subtag; a detected en/es mismatch reverses the direction; otherwise the primary subtags of source and target |
| TranslateRoute.TranslateWithGeminiResolved | src/app/api/translate/route.ts:110-145 | `translateWithGemini` with the corrected prompt; key and reply handling unchanged |
| TranslateRoute.TranslateWithGemini | src/app/api/translate/route.ts:110-145 | no key: the missing-key error, no prompt; otherwise the prompt is `GeminiPrompt`, whose source label comes from `DetectLanguage` for `auto`, it ends with the instructions, and the reply is trimmed or its error passed on |
| TranslateRoute.Post | src/app/api/translate/route.ts:5-44 | missing text is 400 "Text is required"; a provider other than gemini is 400 "Invalid provider"; Gemini's error is 500; success returns the trimmed translation |
| UseTranslation.Pow2Monotone | src/hooks/useTranslation.ts:24 | powers of two grow with the exponent |
| UseTranslation.RetryDelay | src/hooks/useTranslation.ts:24 | exactly the smaller of one second doubled per attempt and 30 seconds: never above either, and equal to one of them |
| UseTranslation.RetryDelayMonotone | src/hooks/useTranslation.ts:24 | later retries never wait less |
| UseTranslation.RetrySchedule | src/hooks/useTranslation.ts:23-24 | 1000, 2000 and 4000 ms for the three retries, 8000 and 16000 ms for attempt indices 3 and 4, and 30000 ms from attempt 5 on |
| UseTranslation.ProviderOf | src/hooks/useTranslation.ts:42 | the options' provider, or `mock` |
| UseTranslation.PerformTranslation | src/hooks/useTranslation.ts:35-53 | blank text gives "" and makes no factory or service; otherwise the factory is made once and kept, the provider's service is taken from its cache or made and added with no other entry changing, it receives the untrimmed text, both languages and the context, and its result or error is passed on |
| UseTranslation.SameProviderReused | src/hooks/useTranslation.ts:35-53 | two translations with one provider consult the same service object, each with its own untrimmed text |
| UseTranslation.BlankNeedsNoService | src/hooks/useTranslation.ts:40 | blank text never creates the factory |
| UseTranslation.DefaultsToMock | src/hooks/useTranslation.ts:42-52 | without a provider the mock is asked and its error rethrown |
| ServiceFactory.KindFor | src/services/translation/TranslationServiceFactory.ts:29-37 | `gemini` gets the Gemini HTTP service; anything else the mock |
| ServiceFactory.TranslationServiceFactory.constructor | src/services/translation/TranslationServiceFactory.ts:9-13 | an empty cache |
| ServiceFactory.TranslationServiceFactory.CreateService | src/services/translation/TranslationServiceFactory.ts:29-37 | a new object of the provider's kind |
| ServiceFactory.TranslationServiceFactory.GetService | src/services/translation/TranslationServiceFactory.ts:22-27 | a cached service is returned unchanged; otherwise a new one is cached under the provider and no other entry changes |
| ServiceFactory.Registry.constructor | src/services/translation/TranslationServiceFactory.ts:8 | no factory yet |
| ServiceFactory.Registry.GetInstance | src/services/translation/TranslationServiceFactory.ts:15-20 | the existing factory, or a new one with an empty cache that is kept |
| ServiceFactory.SameServiceTwice | src/services/translation/TranslationServiceFactory.ts:15-27 | asking twice gives the very same service object |
| ServiceFactory.DistinctProviders | src/services/translation/TranslationServiceFactory.ts:22-27 | two providers get two distinct cached objects |
| MockTranslation.TranslationFor | src/services/translation/providers/MockTranslationService.ts:25-30 | an entry's non-empty translation for the code, or none |
| MockTranslation.ExactLookup | src/services/translation/providers/MockTranslationService.ts:25-30 | the translation of the first entry whose phrase is the text; none when no entry has it |
| MockTranslation.LooseLookup | src/services/translation/providers/MockTranslationService.ts:32-39 | none exactly when no entry both overlaps the text and has a translation; otherwise the first such entry's |
| MockTranslation.FallbackTag | src/services/translation/providers/MockTranslationService.ts:41-60 | `[EN] ` for es to en, `[ES] ` for en to es, otherwise by the Spanish and English cues |
| MockTranslation.Translate | src/services/translation/providers/MockTranslationService.ts:15-62 | the exact translation, else the loose one, else the tagged original; never empty |
| MockTranslation.ExactFound | src/services/translation/providers/MockTranslationService.ts:25-30 | a found exact translation comes from the first entry with that phrase |
| MockTranslation.LooseFound | src/services/translation/providers/MockTranslationService.ts:32-39 | a found loose translation comes from the first loose hit |
| MockTranslation.ExactBeforeLoose | src/services/translation/providers/MockTranslationService.ts:25-39 | an exact entry wins even over an earlier loose hit |
| MockTranslation.BlankTextTakesFirstEntry | src/services/translation/providers/MockTranslationService.ts:32-39 | blank text, being contained in every phrase, takes the first entry with the target language |
| MockTranslation.UnknownTextKeptWhole | src/services/translation/providers/MockTranslationService.ts:41-60 | an unknown text comes back whole behind a five-character tag |
| UseAudioDevices.AudioInputs | src/hooks/useAudioDevices.ts:22-24 | exactly the audio inputs |
| UseAudioDevices.AudioInputsAppend | src/hooks/useAudioDevices.ts:22-24 | filtering keeps enumeration order and repeats: it distributes over concatenation, and keeps a single device exactly when it is an audio input |
| UseAudioDevices.FirstAudioInput | src/hooks/useAudioDevices.ts:22-24 | the first kept input is the first audio input enumerated |
| UseAudioDevices.LexTransitive | src/hooks/useAudioDevices.ts:26-30 | code-point ordering is transitive (with `LexTotal`, `LexAntisymmetric`, `LexReflexive`: a total order) |
| UseAudioDevices.Sort | src/hooks/useAudioDevices.ts:26-30 | `sort()`: a sorted permutation |
| UseAudioDevices.SortedUnique | src/hooks/useAudioDevices.ts:26-30 | two sorted permutations of one multiset are equal |
| UseAudioDevices.HasChangedIffIdsDiffer | src/hooks/useAudioDevices.ts:26-30 | the list counts as changed exactly when the multisets of ids differ, so reordering is not a change |
| UseAudioDevices.FindById | src/hooks/useAudioDevices.ts:36-41 | a device with the id, or none exactly when no device has it |
| UseAudioDevices.InitialPick | src/hooks/useAudioDevices.ts:70-73 | `default` when present, else the first input |
| UseAudioDevices.AudioDevices.constructor | src/hooks/useAudioDevices.ts:13-16 | no devices, `default` selected, not updating, no error |
| UseAudioDevices.AudioDevices.SetSelectedDeviceId | src/hooks/useAudioDevices.ts:13 | the selection is the given id |
| UseAudioDevices.AudioDevices.LoadInitialDevices | src/hooks/useAudioDevices.ts:57-82 | success stores the inputs and picks a device; failure records the error |
| UseAudioDevices.AudioDevices.UpdateDevices | src/hooks/useAudioDevices.ts:18-55 | a changed or first list replaces the devices and falls back to `default` when the selection vanished; an unchanged list changes nothing; failure clears the list and records the error; never left updating |
| UseAudioDevices.SelectionStaysValid | src/hooks/useAudioDevices.ts:36-41 | after an update the selection is `default` or present in the list |
| UseAudioDevices.ReorderedIsNoChange | src/hooks/useAudioDevices.ts:26-46 | the same devices in another order do not replace the list |
| AppStore.Store.constructor | src/stores/appStore.ts:28-41 | the store starts in the initial state (es to en, Gemini, nothing shown) |
| AppStore.Store.SetSourceLanguage | src/stores/appStore.ts:43 | only the source language changes |
| AppStore.Store.SetTargetLanguage | src/stores/appStore.ts:44 | only the target language changes |
| AppStore.Store.SetIsListening | src/stores/appStore.ts:45 | only the listening flag changes |
| AppStore.Store.SetDisplaySubtitle | src/stores/appStore.ts:46 | only the subtitle changes |
| AppStore.Store.SetDisplayTranslation | src/stores/appStore.ts:47 | only the translation changes |
| AppStore.Store.SetIsOverlayOpen | src/stores/appStore.ts:48 | only the overlay flag changes |
| AppStore.Store.SetTranslationProvider | src/stores/appStore.ts:58-60 | only the provider changes |
| AppStore.Store.ClearSubtitles | src/stores/appStore.ts:50-54 | both display strings are emptied and nothing else changes |
| AppStore.Store.Reset | src/stores/appStore.ts:56 | back to the initial state |
| AppStore.ResetForgetsHistory | src/stores/appStore.ts:56 | after any changes, reset gives the initial state |
| AppStore.ClearKeepsSettings | src/stores/appStore.ts:50-54 | clearing keeps languages, listening and provider |

## Left out

- Browser and Node I/O are parameters or are left out: microphone streams, `AudioContext`, the worker's creation URL, `fetch`, the Gemini SDK, `alert` and `console`.
- The RMS loudness computation and its floating point are left out; each frame's loudness against 0.002 arrives as a boolean.
- The rounding of the worker's loading progress is not modelled; the rounded percentage is an input.
- UseWhisper.TranscriptOf: chunk arrays are taken to hold string texts. An item without a string `text`, which JavaScript would join as `undefined` or an empty string, is not modelled.
- The native recogniser's `onend` restart, its media-stream plumbing, the `lang` it is given before `start` and its `lastAudioDataTime` are not modelled; that ref is written but never read.
- Asynchronous timing is not modelled. The 200 ms debounce is the explicit `pending` slot and `FlushPending`. The query library's retry loop is not executed; only its delay function is.
- Strings are sequences of code points, not UTF-16 code units. Lengths, `sort()` order and `includes` differ from JavaScript for astral characters.
- Text.Lower covers ASCII, Latin-1, Greek and Cyrillic capitals only, not all of Unicode's case mapping.
- franc's guess and Gemini's reply are inputs; their behaviour is not part of this model.
- TranslateRoute.ConvertToISO6391 ignores the inherited `Object.prototype` keys the JavaScript lookup would also find, such as `constructor`.
- TranslateRoute.Post: missing `source`/`target` fields throw a TypeError in the source, which ends as a 500. Non-`Error` throws answer "Translation failed". The model takes both as strings and errors as messages.
- TranslateRoute.BuildPrompt states how the prompt is composed. A lemma comparing the prompts with and without context is not included.
- LanguageData.Languages holds the 67 entries, but facts about the concrete table are not proved; the selector takes its table as a parameter.
- MockTranslation.Translate: the three regular-expression tests on the text are inputs (`Cues`). The dictionary is a sequence in its iteration order, which matches JSON object order except for integer-like keys.
- useOverlayWindow, the page components, the HTTP translation service's `fetch` and the worker script are not part of this model.

## Findings

| source | as written | input that shows it | evidently intended | confidence | as-written member | corrected member |
|---|---|---|---|---|---|---|
| src/hooks/useSubtitleQueue.ts:126-129 | `reset` clears the display and bumps the ticket but does not cancel the debounced translation | one accepted fragment, then `reset` before 200 ms pass: the debounce still fires and the old phrase's translation is shown on the cleared display | reset also cancels the queued call, leaving the display blank | medium, not executed | UseSubtitleQueue.PendingTranslationSurvivesReset | UseSubtitleQueue.CancellingResetLeavesDisplayBlank |
| src/app/api/translate/route.ts:98-123 | `resolveLanguages` swaps an en/es pair when the detection contradicts the given source, but `translateWithGemini` reads only `actualSource`, and only for `auto`, where no swap happens; the swap never reaches the prompt | source `es`, target `en`, a text franc detects as English: the pair resolves to en→es, the prompt asks for es→en | the prompt names the resolved source and target, so the detected direction is used | low, not executed | TranslateRoute.SwapNeverReachesPrompt | TranslateRoute.ResolvedPrompt |
