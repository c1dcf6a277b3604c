/** The application's shared state (src/stores/appStore.ts): the language
    pair, the listening flag, the two display lines, the overlay flag and the
    translation provider, each replaced by its setter. */
module AppStore {
  /** The two providers a user can pick. */
  datatype Provider = Gemini | MockProvider

  /** The store's data fields, as one value. */
  datatype State = State(
    sourceLanguage: string, targetLanguage: string, isListening: bool,
    displaySubtitle: string, displayTranslation: string, isOverlayOpen: bool,
    translationProvider: Provider)

  /** `initialState`. */
  const InitialState := State("es", "en", false, "", "", false, Gemini)

  /** The store. */
  class Store {
    var sourceLanguage: string
    var targetLanguage: string
    var isListening: bool
    var displaySubtitle: string
    var displayTranslation: string
    var isOverlayOpen: bool
    var translationProvider: Provider

    /** The fields, as one value. */
    function Snapshot(): State
      reads this
    {
      State(sourceLanguage, targetLanguage, isListening, displaySubtitle, displayTranslation,
            isOverlayOpen, translationProvider)
    }

    /** The store as created: the initial state. */
    constructor ()
      ensures Snapshot() == InitialState
    {
      sourceLanguage, targetLanguage := InitialState.sourceLanguage, InitialState.targetLanguage;
      isListening := InitialState.isListening;
      displaySubtitle, displayTranslation := InitialState.displaySubtitle, InitialState.displayTranslation;
      isOverlayOpen := InitialState.isOverlayOpen;
      translationProvider := InitialState.translationProvider;
    }

    /** `setSourceLanguage`. */
    method SetSourceLanguage(lang: string)
      modifies this
      ensures Snapshot() == old(Snapshot()).(sourceLanguage := lang)
    {
      sourceLanguage := lang;
    }

    /** `setTargetLanguage`. */
    method SetTargetLanguage(lang: string)
      modifies this
      ensures Snapshot() == old(Snapshot()).(targetLanguage := lang)
    {
      targetLanguage := lang;
    }

    /** `setIsListening`. */
    method SetIsListening(listening: bool)
      modifies this
      ensures Snapshot() == old(Snapshot()).(isListening := listening)
    {
      isListening := listening;
    }

    /** `setDisplaySubtitle`. */
    method SetDisplaySubtitle(text: string)
      modifies this
      ensures Snapshot() == old(Snapshot()).(displaySubtitle := text)
    {
      displaySubtitle := text;
    }

    /** `setDisplayTranslation`. */
    method SetDisplayTranslation(text: string)
      modifies this
      ensures Snapshot() == old(Snapshot()).(displayTranslation := text)
    {
      displayTranslation := text;
    }

    /** `setIsOverlayOpen`. */
    method SetIsOverlayOpen(open: bool)
      modifies this
      ensures Snapshot() == old(Snapshot()).(isOverlayOpen := open)
    {
      isOverlayOpen := open;
    }

    /** `setTranslationProvider`. */
    method SetTranslationProvider(provider: Provider)
      modifies this
      ensures Snapshot() == old(Snapshot()).(translationProvider := provider)
    {
      translationProvider := provider;
    }

    /** `clearSubtitles`: both display lines become empty, nothing else changes. */
    method ClearSubtitles()
      modifies this
      ensures Snapshot() == old(Snapshot()).(displaySubtitle := "", displayTranslation := "")
    {
      displaySubtitle, displayTranslation := "", "";
    }

    /** `reset`: every field goes back to its initial value. */
    method Reset()
      modifies this
      ensures Snapshot() == InitialState
    {
      sourceLanguage, targetLanguage := InitialState.sourceLanguage, InitialState.targetLanguage;
      isListening := InitialState.isListening;
      displaySubtitle, displayTranslation := InitialState.displaySubtitle, InitialState.displayTranslation;
      isOverlayOpen := InitialState.isOverlayOpen;
      translationProvider := InitialState.translationProvider;
    }
  }

  /** Whatever a session did to the store, resetting it gives the state a new
      store starts in. */
  method ResetForgetsHistory(source: string, target: string, subtitle: string, translation: string)
    returns (after: State)
    ensures after == InitialState
  {
    var store := new Store();
    store.SetSourceLanguage(source);
    store.SetTargetLanguage(target);
    store.SetIsListening(true);
    store.SetDisplaySubtitle(subtitle);
    store.SetDisplayTranslation(translation);
    store.SetIsOverlayOpen(true);
    store.SetTranslationProvider(MockProvider);
    store.Reset();
    after := store.Snapshot();
  }

  /** Clearing the subtitles keeps the language pair and the other settings
      a user chose. */
  method ClearKeepsSettings(source: string, target: string, subtitle: string, translation: string)
    returns (after: State)
    ensures after == State(source, target, true, "", "", false, MockProvider)
  {
    var store := new Store();
    store.SetSourceLanguage(source);
    store.SetTargetLanguage(target);
    store.SetIsListening(true);
    store.SetTranslationProvider(MockProvider);
    store.SetDisplaySubtitle(subtitle);
    store.SetDisplayTranslation(translation);
    store.ClearSubtitles();
    after := store.Snapshot();
  }
}
