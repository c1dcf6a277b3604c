/** The translation endpoint (src/app/api/translate/route.ts): request
    validation, language detection and resolution, and the prompt sent to the
    Gemini model. The detector (`franc`), the model and the environment are
    inputs: what the detector answered, whether an API key is configured, and
    what the model replied. */
module TranslateRoute {
  import opened Wrappers
  import opened Text

  /** ISO 639-3 codes the endpoint knows, with their ISO 639-1 equivalents. */
  const Iso6391Of: map<string, string> := map[
    "eng" := "en", "spa" := "es", "fra" := "fr", "deu" := "de", "ita" := "it",
    "por" := "pt", "rus" := "ru", "jpn" := "ja", "zho" := "zh", "kor" := "ko",
    "ara" := "ar", "hin" := "hi", "nld" := "nl", "tur" := "tr", "pol" := "pl",
    "swe" := "sv", "fin" := "fi", "dan" := "da", "ces" := "cs", "ell" := "el",
    "hun" := "hu", "ron" := "ro", "tha" := "th", "vie" := "vi", "ind" := "id",
    "msa" := "ms", "heb" := "he", "ukr" := "uk"
  ]

  /** Every known code has three letters. */
  lemma KeysShape()
    ensures forall k :: k in Iso6391Of ==> |k| == 3
  {
  }

  /** Every known code maps to two letters. */
  lemma ValuesShape()
    ensures forall k :: k in Iso6391Of ==> |Iso6391Of[k]| == 2
  {
  }

  /** `iso639_3.slice(0, 2)`. */
  function FirstTwo(s: string): (r: string)
    ensures r <= s && |r| == if |s| < 2 then |s| else 2
  {
    if |s| < 2 then s else s[..2]
  }

  /** `convertToISO6391`: the mapped code for a known ISO 639-3 code, and
      otherwise the first two characters. */
  function ConvertToISO6391(code: string): (r: string)
    ensures code in Iso6391Of ==> r == Iso6391Of[code]
    ensures code !in Iso6391Of ==> r == FirstTwo(code)
    ensures |r| <= 2
  {
    ValuesShape();
    if code in Iso6391Of && Iso6391Of[code] != "" then Iso6391Of[code] else FirstTwo(code)
  }

  /** Converting a converted code changes nothing: no result is itself a
      known three-letter code. */
  lemma ConvertIdempotent(code: string)
    ensures ConvertToISO6391(ConvertToISO6391(code)) == ConvertToISO6391(code)
  {
    var r := ConvertToISO6391(code);
    ShortUnknown(r);
  }

  /** No string of two letters or fewer is a known code. */
  lemma ShortUnknown(s: string)
    requires |s| <= 2
    ensures s !in Iso6391Of
  {
    KeysShape();
  }

  /** The detector's code for text whose language it cannot determine. */
  const Undetermined := "und"
  /** The least trimmed length the detector is consulted for. */
  const MinDetectLength := 10

  /** `detectLanguage`: nothing for empty text or text shorter than ten
      characters once trimmed; otherwise the detector's answer converted to
      ISO 639-1, or nothing when it is undetermined or the detector threw
      (`franc` is `None`). */
  function DetectLanguage(text: string, franc: Option<string>): (r: Option<string>)
    ensures |Trim(text)| < MinDetectLength ==> r == None
    ensures franc == None || franc == Some(Undetermined) ==> r == None
    ensures |Trim(text)| >= MinDetectLength && franc.Some? && franc.value != Undetermined ==>
              r == Some(ConvertToISO6391(franc.value))
  {
    if text == "" || |Trim(text)| < MinDetectLength then None
    else match franc
      case None => None
      case Some(langCode) => if langCode == Undetermined then None else Some(ConvertToISO6391(langCode))
  }

  /** Short text is never shown to the detector: its answer does not matter. */
  lemma ShortTextNotDetected(text: string, a: Option<string>, b: Option<string>)
    requires |Trim(text)| < MinDetectLength
    ensures DetectLanguage(text, a) == DetectLanguage(text, b) == None
  {
  }

  /** JavaScript truthiness of a possibly missing string. */
  predicate Truthy(s: Option<string>) {
    s.Some? && s.value != ""
  }

  /** `resolveLanguages`: the source is the detected language (English when
      none) for `auto`, otherwise the primary subtag of the given source; the
      target is the primary subtag of the given target; a detection of English
      for a Spanish source, or of Spanish for an English source, swaps the
      pair. */
  method ResolveLanguages(source: string, target: string, detected: Option<string>)
    returns (actualSource: string, actualTarget: string)
    ensures source == "auto" ==>
              actualSource == (if Truthy(detected) then detected.value else "en")
              && actualTarget == PrimarySubtag(target)
    ensures source != "auto" && Truthy(detected) && detected.value == "en" && PrimarySubtag(source) == "es" ==>
              actualSource == "en" && actualTarget == "es"
    ensures source != "auto" && Truthy(detected) && detected.value == "es" && PrimarySubtag(source) == "en" ==>
              actualSource == "es" && actualTarget == "en"
    ensures source != "auto"
            && !(Truthy(detected) && detected.value == "en" && PrimarySubtag(source) == "es")
            && !(Truthy(detected) && detected.value == "es" && PrimarySubtag(source) == "en") ==>
              actualSource == PrimarySubtag(source) && actualTarget == PrimarySubtag(target)
  {
    actualSource := if source == "auto" then (if Truthy(detected) then detected.value else "en") else PrimarySubtag(source);
    actualTarget := PrimarySubtag(target);
    if Truthy(detected) && source != "auto" {
      if detected.value == "en" && actualSource == "es" {
        actualSource := "en";
        actualTarget := "es";
      } else if detected.value == "es" && actualSource == "en" {
        actualSource := "es";
        actualTarget := "en";
      }
    }
  }

  /** When both the given source and the detection are English or Spanish,
      the detection wins and the target is the other of the two. */
  method ResolveFollowsDetection(source: string, target: string, detected: string)
    returns (actualSource: string, actualTarget: string)
    requires source != "auto" && PrimarySubtag(source) in {"en", "es"} && detected in {"en", "es"}
    requires PrimarySubtag(source) != detected
    ensures actualSource == detected && actualTarget in {"en", "es"} && actualTarget != actualSource
  {
    actualSource, actualTarget := ResolveLanguages(source, target, Some(detected));
  }

  /** The first part of the prompt, up to the quoted text. */
  function PromptHead(sourceLang: string, target: string, text: string): string {
    "You are a professional translator. Translate the following text from " + sourceLang + " to " + target
    + ".\n  \nText to translate:\n\"" + text + "\"\n"
  }

  /** The block that passes the context along. */
  function ContextBlock(context: string): string {
    "\nContext for the translation (use this to resolve ambiguities and ensure correct meaning):\n\""
    + context + "\"\n"
  }

  /** The closing instruction of every prompt. */
  const PromptTail := "\nReturn ONLY the translated text. Do not include any explanations, notes, or quotes around the output."

  /** `s` ends with `t`. */
  predicate EndsWith(s: string, t: string) {
    |t| <= |s| && s[|s| - |t|..] == t
  }

  /** Appending `t` gives a string that ends with `t`. */
  lemma EndsWithAppend(s: string, t: string)
    ensures EndsWith(s + t, t)
  {
    assert (s + t)[|s|..] == t;
  }

  /** How the prompt names the source: `detected language (<code>)` for
      `auto`, otherwise the source itself. */
  function SourceLang(source: string, actualSource: string): string {
    if source == "auto" then "detected language (" + actualSource + ")" else source
  }

  /** The prompt of `translateWithGemini`, built piece by piece: the head
      naming the source (the detected one for `auto`) and the target, the
      context block when there is a context, and the closing instruction. */
  method BuildPrompt(text: string, source: string, target: string, context: Option<string>, actualSource: string)
    returns (prompt: string)
    ensures prompt == Prompt(SourceLang(source, actualSource), target, text, context)
  {
    prompt := PromptHead(SourceLang(source, actualSource), target, text);
    if Truthy(context) {
      prompt := prompt + ContextBlock(context.value);
    }
    prompt := prompt + PromptTail;
  }

  /** Every prompt closes with the fixed instruction. */
  lemma PromptEndsWithTail(sourceLang: string, target: string, text: string, context: Option<string>)
    ensures EndsWith(Prompt(sourceLang, target, text, context), PromptTail)
  {
    EndsWithAppend(PromptHead(sourceLang, target, text) + (if Truthy(context) then ContextBlock(context.value) else ""),
                   PromptTail);
  }

  /** The source as `translateWithGemini` names it in the prompt: for `auto`
      the detected language, English when nothing is detected; otherwise the
      source exactly as given. */
  function SourceLabel(text: string, source: string, franc: Option<string>): string {
    var detected := DetectLanguage(text, franc);
    SourceLang(source, if Truthy(detected) then detected.value else "en")
  }

  /** A whole prompt: the head naming the two languages, the context block
      when there is a non-empty context, and the closing instruction. */
  function Prompt(sourceLang: string, target: string, text: string, context: Option<string>): string {
    PromptHead(sourceLang, target, text) + (if Truthy(context) then ContextBlock(context.value) else "") + PromptTail
  }

  /** The prompt `translateWithGemini` sends for a request. */
  function GeminiPrompt(text: string, source: string, target: string, context: Option<string>,
                        franc: Option<string>): string
  {
    Prompt(SourceLabel(text, source, franc), target, text, context)
  }

  /** For `auto`, a text long enough to be detected names the converted
      detector answer as its source; a short one names English. */
  lemma AutoPromptNamesDetection(text: string, target: string, context: Option<string>, code: string)
    requires code != Undetermined
    ensures |Trim(text)| >= MinDetectLength && ConvertToISO6391(code) != "" ==>
              SourceLabel(text, "auto", Some(code)) == "detected language (" + ConvertToISO6391(code) + ")"
    ensures |Trim(text)| < MinDetectLength ==>
              SourceLabel(text, "auto", Some(code)) == "detected language (en)"
  {
  }

  /** With a source other than `auto`, the prompt does not depend on the
      detector: it names the source and the target exactly as given, so the
      en/es swap of `resolveLanguages` never reaches the model. */
  lemma {:induction false} GivenSourceIgnoresDetection(text: string, source: string, target: string,
                                                       context: Option<string>, franc1: Option<string>,
                                                       franc2: Option<string>)
    requires source != "auto"
    ensures GeminiPrompt(text, source, target, context, franc1) == GeminiPrompt(text, source, target, context, franc2)
    ensures GeminiPrompt(text, source, target, context, franc1) == Prompt(source, target, text, context)
  {
  }

  /** A Spanish source whose text is detected as English: `resolveLanguages`
      turns the pair into English to Spanish, yet the prompt still asks for a
      translation from the given Spanish source to the given English target. */
  method SwapNeverReachesPrompt(text: string, context: Option<string>, franc: Option<string>)
    returns (actualSource: string, actualTarget: string, prompt: string)
    requires DetectLanguage(text, franc) == Some("en")
    ensures actualSource == "en" && actualTarget == "es"
    ensures prompt == Prompt("es", "en", text, context)
  {
    actualSource, actualTarget := ResolveLanguages("es", "en", DetectLanguage(text, franc));
    var asked: Option<string>, outcome := TranslateWithGemini(text, "es", "en", context, true, franc, Success(""));
    GivenSourceIgnoresDetection(text, "es", "en", context, franc, franc);
    prompt := asked.value;
  }

  /** The prompt naming the resolved pair: the detection (English when
      nothing is detected) for `auto`, otherwise the resolved source, and the
      resolved target. */
  method ResolvedPrompt(text: string, source: string, target: string, context: Option<string>, franc: Option<string>)
    returns (prompt: string)
    ensures source == "auto" ==> prompt == Prompt(SourceLabel(text, source, franc), PrimarySubtag(target), text, context)
    ensures source != "auto" && DetectLanguage(text, franc) == Some("en") && PrimarySubtag(source) == "es" ==>
              prompt == Prompt("en", "es", text, context)
    ensures source != "auto" && DetectLanguage(text, franc) == Some("es") && PrimarySubtag(source) == "en" ==>
              prompt == Prompt("es", "en", text, context)
    ensures source != "auto"
            && !(DetectLanguage(text, franc) == Some("en") && PrimarySubtag(source) == "es")
            && !(DetectLanguage(text, franc) == Some("es") && PrimarySubtag(source) == "en") ==>
              prompt == Prompt(PrimarySubtag(source), PrimarySubtag(target), text, context)
  {
    var actualSource, actualTarget := ResolveLanguages(source, target, DetectLanguage(text, franc));
    var sourceLang := if source == "auto" then SourceLang(source, actualSource) else actualSource;
    prompt := Prompt(sourceLang, actualTarget, text, context);
  }

  /** `translateWithGemini` as evidently intended: the same, except that the
      prompt names the resolved pair, so a detected en/es mismatch reverses
      the direction. */
  method TranslateWithGeminiResolved(text: string, source: string, target: string, context: Option<string>,
                                     apiKeyConfigured: bool, franc: Option<string>, reply: Result<string, string>)
    returns (prompt: Option<string>, outcome: Result<string, string>)
    ensures !apiKeyConfigured ==> prompt == None && outcome == Failure(MissingKey)
    ensures apiKeyConfigured && source == "auto" ==>
              prompt == Some(Prompt(SourceLabel(text, source, franc), PrimarySubtag(target), text, context))
    ensures apiKeyConfigured && source != "auto" && DetectLanguage(text, franc) == Some("en") && PrimarySubtag(source) == "es" ==>
              prompt == Some(Prompt("en", "es", text, context))
    ensures apiKeyConfigured && source != "auto" && DetectLanguage(text, franc) == Some("es") && PrimarySubtag(source) == "en" ==>
              prompt == Some(Prompt("es", "en", text, context))
    ensures apiKeyConfigured && source != "auto"
            && !(DetectLanguage(text, franc) == Some("en") && PrimarySubtag(source) == "es")
            && !(DetectLanguage(text, franc) == Some("es") && PrimarySubtag(source) == "en") ==>
              prompt == Some(Prompt(PrimarySubtag(source), PrimarySubtag(target), text, context))
    ensures apiKeyConfigured && reply.Success? ==> outcome == Success(Trim(reply.value))
    ensures apiKeyConfigured && reply.Failure? ==> outcome == reply
  {
    if !apiKeyConfigured {
      return None, Failure(MissingKey);
    }
    var built := ResolvedPrompt(text, source, target, context, franc);
    prompt := Some(built);
    outcome := match reply
      case Success(reply) => Success(Trim(reply))
      case Failure(message) => Failure(message);
  }

  /** The message thrown when no API key is configured. */
  const MissingKey := "GEMINI_API_KEY not configured"

  /** `translateWithGemini`: fails without an API key; otherwise resolves
      the languages, builds the prompt and returns the model's reply trimmed,
      or the model's failure. */
  method TranslateWithGemini(text: string, source: string, target: string, context: Option<string>,
                             apiKeyConfigured: bool, franc: Option<string>, reply: Result<string, string>)
    returns (prompt: Option<string>, outcome: Result<string, string>)
    ensures !apiKeyConfigured ==> prompt == None && outcome == Failure(MissingKey)
    ensures apiKeyConfigured ==> prompt == Some(GeminiPrompt(text, source, target, context, franc))
    ensures apiKeyConfigured ==> prompt.Some? && EndsWith(prompt.value, PromptTail)
    ensures apiKeyConfigured && reply.Success? ==> outcome == Success(Trim(reply.value))
    ensures apiKeyConfigured && reply.Failure? ==> outcome == reply
  {
    if !apiKeyConfigured {
      return None, Failure(MissingKey);
    }
    var detected := DetectLanguage(text, franc);
    var actualSource, actualTarget := ResolveLanguages(source, target, detected);
    var built := BuildPrompt(text, source, target, context, actualSource);
    PromptEndsWithTail(SourceLang(source, actualSource), target, text, context);
    prompt := Some(built);
    outcome := match reply
      case Success(reply) => Success(Trim(reply))
      case Failure(message) => Failure(message);
  }

  /** The fields of a request body; a field that is missing is `None`. */
  datatype Request = Request(text: Option<string>, source: string, target: string,
                             context: Option<string>, provider: Option<string>)

  /** A response: the translation, or an error message with status 400 or 500. */
  datatype Response = Translated(translatedText: string) | BadRequest(error: string) | ServerError(error: string)

  /** The provider a request names, `gemini` when it names none. */
  function ProviderOf(req: Request): string {
    req.provider.GetOr("gemini")
  }

  /** `POST`: a missing or empty text is refused first, then any provider but
      Gemini; a Gemini failure becomes a server error with its message. */
  method Post(req: Request, apiKeyConfigured: bool, franc: Option<string>, reply: Result<string, string>)
    returns (response: Response)
    ensures !Truthy(req.text) ==> response == BadRequest("Text is required")
    ensures Truthy(req.text) && ProviderOf(req) != "gemini" ==> response == BadRequest("Invalid provider")
    ensures Truthy(req.text) && ProviderOf(req) == "gemini" ==>
              && (!apiKeyConfigured ==> response == ServerError(MissingKey))
              && (apiKeyConfigured && reply.Success? ==> response == Translated(Trim(reply.value)))
              && (apiKeyConfigured && reply.Failure? ==> response == ServerError(reply.error))
    ensures response.Translated? ==> Truthy(req.text) && ProviderOf(req) == "gemini" && apiKeyConfigured
  {
    if !Truthy(req.text) {
      return BadRequest("Text is required");
    }
    if ProviderOf(req) != "gemini" {
      return BadRequest("Invalid provider");
    }
    var prompt, outcome := TranslateWithGemini(req.text.value, req.source, req.target, req.context,
                                               apiKeyConfigured, franc, reply);
    response := match outcome
      case Success(translatedText) => Translated(translatedText)
      case Failure(message) => ServerError(message);
  }
}
