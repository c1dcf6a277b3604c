/** The lazily filled cache of translation services
    (src/services/translation/TranslationServiceFactory.ts): one factory per
    program, and at most one service object per provider name. */
module ServiceFactory {
  /** What a service object is: the HTTP-backed service with its display
      name and provider, or the mock translator. */
  datatype ServiceKind = Remote(name: string, provider: string) | Mock

  /** A translation service object; only its kind matters here. */
  class Service {
    /** Which service this object is. */
    const kind: ServiceKind

    constructor (kind: ServiceKind)
      ensures this.kind == kind
    {
      this.kind := kind;
    }
  }

  /** The kind of service `createService` makes for `provider`: the Gemini
      service for `gemini`, and the mock for `mock` and anything else. */
  function KindFor(provider: string): (k: ServiceKind)
    ensures k.Remote? <==> provider == "gemini"
    ensures k.Remote? ==> k.name == "Gemini" && k.provider == "gemini"
  {
    if provider == "gemini" then Remote("Gemini", "gemini") else Mock
  }

  /** The factory: its `services` map from provider names to the service
      objects already made. */
  class TranslationServiceFactory {
    /** The cache, filled on demand. */
    var services: map<string, Service>

    /** Every cached service is the kind made for its key. */
    ghost predicate Valid()
      reads this
    {
      forall p :: p in services ==> services[p].kind == KindFor(p)
    }

    /** The private constructor: an empty cache. */
    constructor ()
      ensures services == map[] && Valid()
    {
      services := map[];
    }

    /** `createService`: a new service object of the kind made for `provider`. */
    method CreateService(provider: string) returns (s: Service)
      ensures fresh(s) && s.kind == KindFor(provider)
    {
      s := new Service(KindFor(provider));
    }

    /** `getService`: the cached object for `provider`, made and cached first
        when there is none; no other entry changes. */
    method GetService(provider: string) returns (s: Service)
      requires Valid()
      modifies this`services
      ensures Valid()
      ensures provider in services && s == services[provider] && s.kind == KindFor(provider)
      ensures provider in old(services) ==> s == old(services)[provider] && services == old(services)
      ensures provider !in old(services) ==> fresh(s) && services == old(services)[provider := s]
    {
      if provider !in services {
        var created := CreateService(provider);
        services := services[provider := created];
      }
      s := services[provider];
    }
  }

  /** The class's static `instance` slot. */
  class Registry {
    /** `TranslationServiceFactory.instance`, unset until first asked for. */
    var instance: TranslationServiceFactory?

    /** The cached factory, if any, keeps its cache consistent. */
    ghost predicate Valid()
      reads this, instance
    {
      instance != null ==> instance.Valid()
    }

    /** The program starts with no factory. */
    constructor ()
      ensures instance == null && Valid()
    {
      instance := null;
    }

    /** `getInstance`: the existing factory, or a new one with an empty cache
        that is kept from then on. */
    method GetInstance() returns (factory: TranslationServiceFactory)
      requires Valid()
      modifies this
      ensures Valid() && instance == factory
      ensures old(instance) != null ==> factory == old(instance)
      ensures old(instance) == null ==> fresh(factory) && factory.services == map[]
    {
      if instance == null {
        instance := new TranslationServiceFactory();
      }
      factory := instance;
    }
  }

  /** Asking the program for its factory twice gives the same factory, and
      asking that factory for a provider twice gives the same service object,
      the kind made for that provider. */
  method SameServiceTwice(provider: string) returns (first: Service, second: Service)
    ensures first == second && first.kind == KindFor(provider)
  {
    var registry := new Registry();
    var f1 := registry.GetInstance();
    first := f1.GetService(provider);
    var f2 := registry.GetInstance();
    second := f2.GetService(provider);
  }

  /** Providers get separate service objects: asking for a second provider
      leaves the first one's entry alone. */
  method DistinctProviders(p: string, q: string) returns (a: Service, b: Service, cached: map<string, Service>)
    requires p != q
    ensures cached.Keys == {p, q} && cached[p] == a && cached[q] == b && a != b
  {
    var factory := new TranslationServiceFactory();
    a := factory.GetService(p);
    b := factory.GetService(q);
    cached := factory.services;
  }
}
