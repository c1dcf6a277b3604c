/** Display helpers over the language table (src/utils/languageUtils.ts). */
module LanguageUtils {
  import opened Wrappers
  import opened LanguageData

  /** The flag shown when a code has no entry or its entry has no flag. */
  const GlobeFlag := "🌐"

  /** `getLanguageFlag(code)`: the flag of the first entry with this code, or
      the globe when there is none or its flag is empty. */
  function GetLanguageFlag(code: string): (flag: string)
    ensures flag != ""
    ensures (forall l :: l in Languages ==> l.code != code) ==> flag == GlobeFlag
    ensures forall l :: FirstWithCode(Languages, l, code) ==> flag == if l.flag != "" then l.flag else GlobeFlag
  {
    match GetLanguageByCode(code)
    case Some(language) => if language.flag != "" then language.flag else GlobeFlag
    case None => GlobeFlag
  }

  /** `getLanguageName(code)`: the name of the first entry with this code, or
      the code itself when there is none or its name is empty. */
  function GetLanguageName(code: string): (name: string)
    ensures (forall l :: l in Languages ==> l.code != code) ==> name == code
    ensures forall l :: FirstWithCode(Languages, l, code) ==> name == if l.name != "" then l.name else code
  {
    match GetLanguageByCode(code)
    case Some(language) => if language.name != "" then language.name else code
    case None => code
  }
}
