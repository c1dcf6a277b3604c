/** The table of supported languages and its search (src/data/languages.ts). */
module LanguageData {
  import opened Wrappers
  import opened Text

  /** One selectable language: a BCP 47 tag, an English name, the language's
      own name for itself and a flag emoji. */
  datatype Language = Language(code: string, name: string, nativeName: string, flag: string)

  /** The code of the pseudo-language that asks for automatic detection. */
  const AutoCode := "auto"

  /** `LANGUAGES`, in table order. */
  const Languages: seq<Language> := [
    Language("auto", "Automatic", "Auto-detect", "🌐"),
    Language("es-ES", "Spanish", "Español", "🇪🇸"),
    Language("en-US", "English", "English", "🇺🇸"),
    Language("fr-FR", "French", "Français", "🇫🇷"),
    Language("de-DE", "German", "Deutsch", "🇩🇪"),
    Language("it-IT", "Italian", "Italiano", "🇮🇹"),
    Language("pt-BR", "Portuguese", "Português", "🇧🇷"),
    Language("ru-RU", "Russian", "Русский", "🇷🇺"),
    Language("ja-JP", "Japanese", "日本語", "🇯🇵"),
    Language("ko-KR", "Korean", "한국어", "🇰🇷"),
    Language("zh-CN", "Chinese (Simplified)", "中文", "🇨🇳"),
    Language("zh-TW", "Chinese (Traditional)", "繁體中文", "🇹🇼"),
    Language("ar-SA", "Arabic", "العربية", "🇸🇦"),
    Language("hi-IN", "Hindi", "हिन्दी", "🇮🇳"),
    Language("th-TH", "Thai", "ไทย", "🇹🇭"),
    Language("vi-VN", "Vietnamese", "Tiếng Việt", "🇻🇳"),
    Language("tr-TR", "Turkish", "Türkçe", "🇹🇷"),
    Language("nl-NL", "Dutch", "Nederlands", "🇳🇱"),
    Language("sv-SE", "Swedish", "Svenska", "🇸🇪"),
    Language("no-NO", "Norwegian", "Norsk", "🇳🇴"),
    Language("da-DK", "Danish", "Dansk", "🇩🇰"),
    Language("fi-FI", "Finnish", "Suomi", "🇫🇮"),
    Language("pl-PL", "Polish", "Polski", "🇵🇱"),
    Language("cs-CZ", "Czech", "Čeština", "🇨🇿"),
    Language("sk-SK", "Slovak", "Slovenčina", "🇸🇰"),
    Language("hu-HU", "Hungarian", "Magyar", "🇭🇺"),
    Language("ro-RO", "Romanian", "Română", "🇷🇴"),
    Language("bg-BG", "Bulgarian", "Български", "🇧🇬"),
    Language("hr-HR", "Croatian", "Hrvatski", "🇭🇷"),
    Language("sr-RS", "Serbian", "Српски", "🇷🇸"),
    Language("sl-SI", "Slovenian", "Slovenščina", "🇸🇮"),
    Language("et-EE", "Estonian", "Eesti", "🇪🇪"),
    Language("lv-LV", "Latvian", "Latviešu", "🇱🇻"),
    Language("lt-LT", "Lithuanian", "Lietuvių", "🇱🇹"),
    Language("el-GR", "Greek", "Ελληνικά", "🇬🇷"),
    Language("pt-PT", "Portuguese (Portugal)", "Português (Portugal)", "🇵🇹"),
    Language("ca-ES", "Catalan", "Català", "🏴󠁥󠁳󠁣󠁴󠁿"),
    Language("eu-ES", "Basque", "Euskera", "🏴󠁥󠁳󠁰󠁶󠁿"),
    Language("gl-ES", "Galician", "Galego", "🏴󠁥󠁳󠁧󠁡󠁿"),
    Language("he-IL", "Hebrew", "עברית", "🇮🇱"),
    Language("fa-IR", "Persian", "فارسی", "🇮🇷"),
    Language("ur-PK", "Urdu", "اردو", "🇵🇰"),
    Language("bn-BD", "Bengali", "বাংলা", "🇧🇩"),
    Language("ta-IN", "Tamil", "தமிழ்", "🇮🇳"),
    Language("te-IN", "Telugu", "తెలుగు", "🇮🇳"),
    Language("mr-IN", "Marathi", "मराठी", "🇮🇳"),
    Language("gu-IN", "Gujarati", "ગુજરાતી", "🇮🇳"),
    Language("kn-IN", "Kannada", "ಕನ್ನಡ", "🇮🇳"),
    Language("ml-IN", "Malayalam", "മലയാളം", "🇮🇳"),
    Language("pa-IN", "Punjabi", "ਪੰਜਾਬੀ", "🇮🇳"),
    Language("sw-KE", "Swahili", "Kiswahili", "🇰🇪"),
    Language("am-ET", "Amharic", "አማርኛ", "🇪🇹"),
    Language("zu-ZA", "Zulu", "IsiZulu", "🇿🇦"),
    Language("af-ZA", "Afrikaans", "Afrikaans", "🇿🇦"),
    Language("is-IS", "Icelandic", "Íslenska", "🇮🇸"),
    Language("ga-IE", "Irish", "Gaeilge", "🇮🇪"),
    Language("cy-GB", "Welsh", "Cymraeg", "🏴󠁧󠁢󠁷󠁬󠁳󠁿"),
    Language("mt-MT", "Maltese", "Malti", "🇲🇹"),
    Language("id-ID", "Indonesian", "Bahasa Indonesia", "🇮🇩"),
    Language("ms-MY", "Malay", "Bahasa Melayu", "🇲🇾"),
    Language("tl-PH", "Filipino", "Filipino", "🇵🇭"),
    Language("my-MM", "Burmese", "မြန်မာ", "🇲🇲"),
    Language("km-KH", "Khmer", "ភាសាខ្មែរ", "🇰🇭"),
    Language("lo-LA", "Lao", "ລາວ", "🇱🇦"),
    Language("si-LK", "Sinhala", "සිංහල", "🇱🇰"),
    Language("ne-NP", "Nepali", "नेपाली", "🇳🇵"),
    Language("mn-MN", "Mongolian", "Монгол", "🇲🇳")
  ]

  /** `POPULAR_LANGUAGES`: the codes the selector lists first. */
  const PopularLanguages: seq<string> := ["auto", "es-ES", "en-US", "fr-FR", "de-DE", "it-IT", "pt-BR", "ru-RU", "ja-JP", "ko-KR", "zh-CN", "ar-SA", "hi-IN"]

  /** `a` is `b` with some elements left out, the rest in their order. */
  predicate IsSubsequence<T(==)>(a: seq<T>, b: seq<T>)
    decreases |b|
  {
    if a == [] then true
    else if b == [] then false
    else if a[0] == b[0] then IsSubsequence(a[1..], b[1..])
    else IsSubsequence(a, b[1..])
  }

  /** The search test: the lower-cased name, native name or code contains the
      search term. */
  predicate Matches(lang: Language, searchTerm: string) {
    || Contains(Lower(lang.name), searchTerm)
    || Contains(Lower(lang.nativeName), searchTerm)
    || Contains(Lower(lang.code), searchTerm)
  }

  /** The filter of a non-blank search: `auto` only when asked for, and a match. */
  predicate Kept(lang: Language, searchTerm: string, includeAuto: bool) {
    (includeAuto || lang.code != AutoCode) && Matches(lang, searchTerm)
  }

  /** The entries of `table` that pass the filter, in table order. */
  function FilterMatches(table: seq<Language>, searchTerm: string, includeAuto: bool): (r: seq<Language>)
    ensures forall l :: l in r <==> l in table && Kept(l, searchTerm, includeAuto)
  {
    if table == [] then []
    else if Kept(table[0], searchTerm, includeAuto) then [table[0]] + FilterMatches(table[1..], searchTerm, includeAuto)
    else FilterMatches(table[1..], searchTerm, includeAuto)
  }

  /** `table.filter((lang) => lang.code !== "auto")`. */
  function WithoutAuto(table: seq<Language>): (r: seq<Language>)
    ensures forall l :: l in r <==> l in table && l.code != AutoCode
  {
    if table == [] then []
    else if table[0].code != AutoCode then [table[0]] + WithoutAuto(table[1..])
    else WithoutAuto(table[1..])
  }

  /** `searchLanguages(query, includeAuto)` over `table`: a blank query
      gives the table (without `auto` unless asked for); otherwise the entries
      matching the lower-cased, trimmed query. */
  function SearchIn(table: seq<Language>, query: string, includeAuto: bool): (r: seq<Language>)
    ensures forall l :: l in r ==> l in table && (includeAuto || l.code != AutoCode)
    ensures AllWhitespace(query) ==>
              forall l :: l in r <==> l in table && (includeAuto || l.code != AutoCode)
    ensures !AllWhitespace(query) ==>
              forall l :: l in r <==> l in table && Kept(l, Trim(Lower(query)), includeAuto)
  {
    if AllWhitespace(query) then
      if includeAuto then table else WithoutAuto(table)
    else
      var searchTerm := Trim(Lower(query));
      FilterMatches(table, searchTerm, includeAuto)
  }

  /** `searchLanguages(query, includeAuto)`. */
  function SearchLanguages(query: string, includeAuto: bool): (r: seq<Language>)
    ensures forall l :: l in r ==> l in Languages && (includeAuto || l.code != AutoCode)
  {
    SearchIn(Languages, query, includeAuto)
  }

  /** Every sequence is a subsequence of itself. */
  lemma {:induction false} SubsequenceReflexive<T>(a: seq<T>)
    ensures IsSubsequence(a, a)
  {
    if a != [] {
      SubsequenceReflexive(a[1..]);
    }
  }

  /** The search filter keeps the table's order. */
  lemma {:induction false} FilterMatchesSubsequence(table: seq<Language>, searchTerm: string, includeAuto: bool)
    ensures IsSubsequence(FilterMatches(table, searchTerm, includeAuto), table)
  {
    if table != [] {
      FilterMatchesSubsequence(table[1..], searchTerm, includeAuto);
    }
  }

  /** Dropping `auto` keeps the table's order. */
  lemma {:induction false} WithoutAutoSubsequence(table: seq<Language>)
    ensures IsSubsequence(WithoutAuto(table), table)
  {
    if table != [] {
      WithoutAutoSubsequence(table[1..]);
    }
  }

  /** Every search lists table entries in table order. */
  lemma SearchSubsequence(table: seq<Language>, query: string, includeAuto: bool)
    ensures IsSubsequence(SearchIn(table, query, includeAuto), table)
  {
    if AllWhitespace(query) {
      if includeAuto {
        SubsequenceReflexive(table);
      } else {
        WithoutAutoSubsequence(table);
      }
    } else {
      FilterMatchesSubsequence(table, Trim(Lower(query)), includeAuto);
    }
  }

  /** `l` is the first entry of `table` with this code. */
  ghost predicate FirstWithCode(table: seq<Language>, l: Language, code: string) {
    exists i :: 0 <= i < |table| && table[i] == l && l.code == code
                && forall j :: 0 <= j < i ==> table[j].code != code
  }

  /** `getLanguageByCode` over `table`: the first entry with exactly this code. */
  function FindByCode(table: seq<Language>, code: string): (r: Option<Language>)
    ensures r == None <==> forall l :: l in table ==> l.code != code
    ensures r.Some? ==> FirstWithCode(table, r.value, code)
    ensures forall l :: FirstWithCode(table, l, code) ==> r == Some(l)
  {
    if table == [] then None
    else if table[0].code == code then
      assert FirstWithCode(table, table[0], code) by {
        assert table[0] == table[0];
      }
      Some(table[0])
    else
      var r := FindByCode(table[1..], code);
      FirstWithCodeTail(table, code);
      r
  }

  /** Past a first entry with another code, the first entry with this code is
      the first one of the rest. */
  lemma FirstWithCodeTail(table: seq<Language>, code: string)
    requires table != [] && table[0].code != code
    ensures forall l :: FirstWithCode(table, l, code) <==> FirstWithCode(table[1..], l, code)
  {
    forall l ensures FirstWithCode(table, l, code) <==> FirstWithCode(table[1..], l, code) {
      if FirstWithCode(table, l, code) {
        var i :| 0 <= i < |table| && table[i] == l && l.code == code
                 && forall j :: 0 <= j < i ==> table[j].code != code;
        assert table[1..][i - 1] == l;
        assert forall j :: 0 <= j < i - 1 ==> table[1..][j] == table[j + 1];
      }
      if FirstWithCode(table[1..], l, code) {
        var i :| 0 <= i < |table[1..]| && table[1..][i] == l && l.code == code
                 && forall j :: 0 <= j < i ==> table[1..][j].code != code;
        assert table[i + 1] == l;
        assert forall j :: 1 <= j < i + 1 ==> table[j] == table[1..][j - 1];
      }
    }
  }

  /** `getLanguageByCode(code)`: the first entry with this code, if any. */
  function GetLanguageByCode(code: string): (r: Option<Language>)
    ensures r == None <==> forall l :: l in Languages ==> l.code != code
    ensures r.Some? ==> r.value in Languages && r.value.code == code
    ensures forall l :: FirstWithCode(Languages, l, code) ==> r == Some(l)
  {
    FindByCode(Languages, code)
  }
}
