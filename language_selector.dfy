/** The searchable language picker (src/components/LanguageSelector.tsx):
    which languages it lists and in what order, where it draws the divider
    between popular and other languages, and how its open state and query
    react to the user. */
module LanguageSelector {
  import opened Text
  import opened LanguageData

  /** `POPULAR_LANGUAGES.includes(lang.code)`. */
  predicate IsPopular(lang: Language) {
    lang.code in PopularLanguages
  }

  /** The entries of `languages` whose popularity is `popular`, in order. */
  function WithPopularity(languages: seq<Language>, popular: bool): (r: seq<Language>)
    ensures forall l :: l in r <==> l in languages && IsPopular(l) == popular
    ensures forall k :: 0 <= k < |r| ==> IsPopular(r[k]) == popular
  {
    if languages == [] then []
    else if IsPopular(languages[0]) == popular then [languages[0]] + WithPopularity(languages[1..], popular)
    else WithPopularity(languages[1..], popular)
  }

  /** Splitting by popularity loses and duplicates nothing. */
  lemma {:induction false} PartitionPermutation(languages: seq<Language>)
    ensures multiset(WithPopularity(languages, true) + WithPopularity(languages, false)) == multiset(languages)
  {
    if languages != [] {
      PartitionPermutation(languages[1..]);
      assert languages == [languages[0]] + languages[1..];
    }
  }

  /** The list the effect makes of the search result `languages` for `query`:
      the result itself for a non-blank query, otherwise its popular entries
      followed by the rest, a reordering either way. */
  function Arrange(query: string, languages: seq<Language>): (r: seq<Language>)
    ensures !AllWhitespace(query) ==> r == languages
    ensures multiset(r) == multiset(languages)
  {
    if !AllWhitespace(query) then languages
    else
      PartitionPermutation(languages);
      WithPopularity(languages, true) + WithPopularity(languages, false)
  }

  /** The list the picker over `table` shows for `query`. */
  function VisibleLanguages(table: seq<Language>, query: string): seq<Language> {
    Arrange(query, SearchIn(table, query, false))
  }

  /** Each popularity group keeps the search order. */
  lemma {:induction false} WithPopularitySubsequence(languages: seq<Language>, popular: bool)
    ensures IsSubsequence(WithPopularity(languages, popular), languages)
  {
    if languages != [] {
      WithPopularitySubsequence(languages[1..], popular);
    }
  }

  /** For a blank query every popular entry comes before every other one, and
      each group is in search order. */
  lemma BlankQueryPopularFirst(query: string, languages: seq<Language>)
    requires AllWhitespace(query)
    ensures var r := Arrange(query, languages);
            forall i, j :: 0 <= i < j < |r| && IsPopular(r[j]) ==> IsPopular(r[i])
    ensures var popular := WithPopularity(languages, true);
            && Arrange(query, languages)[..|popular|] == popular
            && IsSubsequence(popular, languages)
            && IsSubsequence(Arrange(query, languages)[|popular|..], languages)
  {
    var popular := WithPopularity(languages, true);
    var others := WithPopularity(languages, false);
    var r := Arrange(query, languages);
    assert r == popular + others;
    assert r[..|popular|] == popular && r[|popular|..] == others;
    WithPopularitySubsequence(languages, true);
    WithPopularitySubsequence(languages, false);
  }

  /** Whether the "Other languages" divider is drawn before item `index`. */
  predicate ShowDivider(query: string, shown: seq<Language>, index: nat)
    requires index < |shown|
  {
    AllWhitespace(query) && index > 0 && IsPopular(shown[index]) != IsPopular(shown[index - 1])
  }

  /** For a blank query the divider is drawn exactly once, before the first
      non-popular entry, when there are popular entries before it; for a
      non-blank query it is never drawn. */
  lemma DividerAtBoundary(query: string, languages: seq<Language>, index: nat)
    requires index < |Arrange(query, languages)|
    ensures ShowDivider(query, Arrange(query, languages), index) <==>
              AllWhitespace(query) && index == |WithPopularity(languages, true)| && index > 0
  {
    if AllWhitespace(query) {
      var popular := WithPopularity(languages, true);
      var others := WithPopularity(languages, false);
      var r := Arrange(query, languages);
      assert r == popular + others;
      if index > 0 {
        if index < |popular| {
          assert r[index] == popular[index] && r[index - 1] == popular[index - 1];
        } else if index > |popular| {
          assert r[index] == others[index - |popular|] && r[index - 1] == others[index - 1 - |popular|];
        } else {
          assert r[index] == others[0] && r[index - 1] == popular[index - 1];
        }
      }
    }
  }

  /** The keys the picker's input reacts to. */
  datatype Key = Escape | Enter | OtherKey

  /** The picker's state. */
  class Selector {
    /** Whether the list is open. */
    var isOpen: bool
    /** The text typed into the search box. */
    var searchQuery: string
    /** `filteredLanguages`: the list on show. */
    var filtered: seq<Language>
    /** The table searched; the component searches `LANGUAGES`. */
    const table: seq<Language>
    /** Every code handed to `onChange`, in order. */
    var changes: seq<string>
    /** The `disabled` property. */
    const disabled: bool

    /** The effect that recomputes the list has run for the current query. */
    ghost predicate Valid()
      reads this
    {
      filtered == VisibleLanguages(table, searchQuery)
    }

    /** A closed picker with an empty query, once the list effect has run. */
    constructor (disabled: bool, table: seq<Language>)
      ensures Valid() && !isOpen && searchQuery == "" && changes == []
      ensures this.disabled == disabled && this.table == table
    {
      isOpen := false;
      searchQuery := "";
      this.table := table;
      filtered := VisibleLanguages(table, "");
      changes := [];
      this.disabled := disabled;
    }

    /** The user types: the query changes and the list effect recomputes the list. */
    method SetSearchQuery(query: string)
      modifies this`searchQuery, this`filtered
      ensures searchQuery == query && Valid()
    {
      searchQuery := query;
      filtered := VisibleLanguages(table, searchQuery);
    }

    /** `handleLanguageSelect`: reports the code, closes the list and clears the query. */
    method Select(language: Language)
      modifies this`changes, this`isOpen, this`searchQuery, this`filtered
      ensures changes == old(changes) + [language.code]
      ensures !isOpen && searchQuery == "" && Valid()
    {
      changes := changes + [language.code];
      isOpen := false;
      SetSearchQuery("");
    }

    /** `handleInputClick`: opens the list unless the picker is disabled. */
    method InputClick()
      modifies this`isOpen
      ensures isOpen == (old(isOpen) || !disabled)
    {
      if !disabled {
        isOpen := true;
      }
    }

    /** `handleKeyDown`: Escape closes the list and clears the query; Enter
        selects the first listed language when there is one. */
    method KeyDown(key: Key)
      requires Valid()
      modifies this`changes, this`isOpen, this`searchQuery, this`filtered
      ensures Valid()
      ensures key == Escape ==> !isOpen && searchQuery == "" && changes == old(changes)
      ensures key == Enter && old(filtered) != [] ==>
                !isOpen && searchQuery == "" && changes == old(changes) + [old(filtered)[0].code]
      ensures key == OtherKey || (key == Enter && old(filtered) == []) ==> unchanged(this)
    {
      if key == Escape {
        isOpen := false;
        SetSearchQuery("");
      } else if key == Enter && |filtered| > 0 {
        Select(filtered[0]);
      }
    }

    /** `handleClickOutside`: a press outside the picker closes it and clears the query. */
    method MouseDown(inside: bool)
      requires Valid()
      modifies this`isOpen, this`searchQuery, this`filtered
      ensures Valid()
      ensures !inside ==> !isOpen && searchQuery == ""
      ensures inside ==> unchanged(this)
    {
      if !inside {
        isOpen := false;
        SetSearchQuery("");
      }
    }
  }

  /** Typing a query and pressing Enter reports the first language listed for
      it, and nothing when the list is empty. */
  method TypeAndEnter(table: seq<Language>, query: string) returns (reported: seq<string>)
    ensures var shown := VisibleLanguages(table, query);
            reported == if shown != [] then [shown[0].code] else []
  {
    var picker := new Selector(false, table);
    picker.SetSearchQuery(query);
    picker.KeyDown(Enter);
    reported := picker.changes;
  }

  /** Escape after a search brings back the full popular-first list. */
  method EscapeRestoresFullList(table: seq<Language>, query: string) returns (shown: seq<Language>, open: bool)
    ensures shown == VisibleLanguages(table, "") && !open
  {
    var picker := new Selector(false, table);
    picker.InputClick();
    picker.SetSearchQuery(query);
    picker.KeyDown(Escape);
    shown, open := picker.filtered, picker.isOpen;
  }
}
