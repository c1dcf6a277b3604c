/** The client-side translation hook (src/hooks/useTranslation.ts): the
    retry back-off handed to the query library and the translation call
    itself. The service's own answer is an input. */
module UseTranslation {
  import opened Wrappers
  import opened Text
  import ServiceFactory

  /** How many times a failed translation is retried. */
  const MaxRetries := 3
  /** The longest wait before a retry, in milliseconds. */
  const MaxDelay := 30000
  /** The wait before the first retry, in milliseconds. */
  const FirstDelay := 1000

  /** `2 ** n`. */
  function Pow2(n: nat): (p: nat)
    ensures p >= 1
  {
    if n == 0 then 1 else 2 * Pow2(n - 1)
  }

  /** Powers of two grow with the exponent. */
  lemma {:induction false} Pow2Monotone(i: nat, j: nat)
    requires i <= j
    ensures Pow2(i) <= Pow2(j)
    decreases j
  {
    if i < j {
      Pow2Monotone(i, j - 1);
    }
  }

  /** `retryDelay`: one second doubled per earlier attempt, at most thirty
      seconds. */
  function RetryDelay(attemptIndex: nat): (ms: int)
    ensures FirstDelay <= ms <= MaxDelay
    ensures ms == MaxDelay || ms == FirstDelay * Pow2(attemptIndex)
    ensures ms <= FirstDelay * Pow2(attemptIndex)
  {
    var backoff := FirstDelay * Pow2(attemptIndex);
    if backoff < MaxDelay then backoff else MaxDelay
  }

  /** A later attempt never waits less. */
  lemma RetryDelayMonotone(i: nat, j: nat)
    requires i <= j
    ensures RetryDelay(i) <= RetryDelay(j)
  {
    Pow2Monotone(i, j);
  }

  /** The three retries wait one, two and four seconds; later attempt
      indices would wait eight and sixteen seconds, and from the sixth attempt
      on the wait is the thirty-second cap. */
  lemma RetrySchedule(n: nat)
    ensures RetryDelay(0) == 1000 && RetryDelay(1) == 2000 && RetryDelay(2) == 4000
    ensures RetryDelay(3) == 8000 && RetryDelay(4) == 16000
    ensures n >= 5 ==> RetryDelay(n) == MaxDelay
  {
    assert Pow2(1) == 2 && Pow2(2) == 4;
    assert Pow2(3) == 8 && Pow2(4) == 16;
    if n >= 5 {
      assert Pow2(5) == 32;
      Pow2Monotone(5, n);
    }
  }

  /** `TranslationOptions`; a missing `apiProvider` is `None`. */
  datatype TranslationOptions = TranslationOptions(sourceLanguage: string, targetLanguage: string, apiProvider: Option<string>)

  /** The provider a call uses: `mock` when the options name none. */
  function ProviderOf(options: TranslationOptions): (p: string)
    ensures options.apiProvider.Some? ==> p == options.apiProvider.value
    ensures options.apiProvider.None? ==> p == "mock"
  {
    options.apiProvider.GetOr("mock")
  }

  /** The arguments `performTranslation` passes to `service.translate`. */
  datatype ServiceRequest = ServiceRequest(text: string, sourceLanguage: string, targetLanguage: string,
                                           context: Option<string>)

  /** `performTranslation`: blank text gives the empty translation without
      touching the factory; otherwise the program's factory (made on first
      use, kept afterwards) supplies the service for the provider, made and
      cached only when that provider has no entry yet. The service is handed
      the text as given, untrimmed, with the options' two languages and the
      context (`sent`), and its answer (`reply`), success or error, is passed
      on unchanged. `asked` is the service consulted. */
  method PerformTranslation(registry: ServiceFactory.Registry, text: string, options: TranslationOptions,
                            context: Option<string>, reply: Result<string, string>)
    returns (asked: ServiceFactory.Service?, sent: Option<ServiceRequest>, outcome: Result<string, string>)
    requires registry.Valid()
    modifies registry, registry.instance
    ensures registry.Valid()
    ensures old(registry.instance) != null ==> registry.instance == old(registry.instance)
    ensures AllWhitespace(text) ==>
              && asked == null && sent == None && outcome == Success("")
              && registry.instance == old(registry.instance)
              && (registry.instance != null ==> registry.instance.services == old(registry.instance.services))
    ensures !AllWhitespace(text) ==>
              && registry.instance != null && asked != null
              && ProviderOf(options) in registry.instance.services
              && asked == registry.instance.services[ProviderOf(options)]
              && asked.kind == ServiceFactory.KindFor(ProviderOf(options))
              && sent == Some(ServiceRequest(text, options.sourceLanguage, options.targetLanguage, context))
              && outcome == reply
    ensures !AllWhitespace(text) && old(registry.instance) == null ==>
              && fresh(registry.instance) && fresh(asked)
              && registry.instance.services == map[ProviderOf(options) := asked]
    ensures !AllWhitespace(text) && old(registry.instance) != null
            && ProviderOf(options) in old(registry.instance.services) ==>
              && registry.instance.services == old(registry.instance.services)
              && asked == old(registry.instance.services[ProviderOf(options)])
    ensures !AllWhitespace(text) && old(registry.instance) != null
            && ProviderOf(options) !in old(registry.instance.services) ==>
              && fresh(asked)
              && registry.instance.services == old(registry.instance.services)[ProviderOf(options) := asked]
  {
    if Trim(text) == "" {
      return null, None, Success("");
    }
    var provider := ProviderOf(options);
    var factory := registry.GetInstance();
    var service := factory.GetService(provider);
    asked := service;
    sent := Some(ServiceRequest(text, options.sourceLanguage, options.targetLanguage, context));
    outcome := reply;
  }

  /** A blank text never reaches a service and gives the empty translation,
      whatever the service would have answered. */
  method BlankNeedsNoService(text: string, options: TranslationOptions, reply: Result<string, string>)
    returns (outcome: Result<string, string>, factoryMade: bool)
    requires AllWhitespace(text)
    ensures outcome == Success("") && !factoryMade
  {
    var registry := new ServiceFactory.Registry();
    var asked, sent;
    asked, sent, outcome := PerformTranslation(registry, text, options, None, reply);
    factoryMade := registry.instance != null;
  }

  /** Two translations with the same provider consult the same service
      object, and each hands it its own text, untrimmed. */
  method SameProviderReused(first: string, second: string, options: TranslationOptions,
                            reply: Result<string, string>)
    returns (askedFirst: ServiceFactory.Service?, askedSecond: ServiceFactory.Service?,
             sentSecond: Option<ServiceRequest>)
    requires !AllWhitespace(first) && !AllWhitespace(second)
    ensures askedFirst != null && askedFirst == askedSecond
    ensures sentSecond == Some(ServiceRequest(second, options.sourceLanguage, options.targetLanguage, None))
  {
    var registry := new ServiceFactory.Registry();
    var sentFirst, outcome;
    askedFirst, sentFirst, outcome := PerformTranslation(registry, first, options, None, reply);
    askedSecond, sentSecond, outcome := PerformTranslation(registry, second, options, None, reply);
  }

  /** Without a provider the mock translator is consulted, and a service
      error comes back as it was raised. */
  method DefaultsToMock(text: string, source: string, target: string, error: string)
    returns (kind: ServiceFactory.ServiceKind, outcome: Result<string, string>)
    requires !AllWhitespace(text)
    ensures kind == ServiceFactory.Mock && outcome == Failure(error)
  {
    var registry := new ServiceFactory.Registry();
    var asked, sent;
    asked, sent, outcome := PerformTranslation(registry, text, TranslationOptions(source, target, None), None, Failure(error));
    kind := asked.kind;
  }
}
