/**
 * The language store of src/store/languageStore.ts: the interface language, the text
 * direction that goes with it, and the lookup of a UI string with the key itself as fallback.
 * Only `language` is persisted; the writes to `document.documentElement` are left out.
 */
module Locale {

  datatype Language = En | Ar

  datatype Direction = Ltr | Rtl

  /** Arabic is written right to left, English left to right. */
  function DirectionOf(language: Language): (d: Direction)
    ensures d == Rtl <==> language == Ar
  {
    if language == Ar then Rtl else Ltr
  }

  /** The bundled translation tables, one per language. */
  datatype Translations = Translations(en: map<string, string>, ar: map<string, string>)

  function TableFor(tr: Translations, language: Language): map<string, string> {
    if language == Ar then tr.ar else tr.en
  }

  /**
   * `translations[language][key] || key`: a lookup never fails, shows either the key or a text
   * of the language's table, and never shows an empty label for a non-empty key.
   */
  function Translate(tr: Translations, language: Language, key: string): (r: string)
    ensures r == key || r in TableFor(tr, language).Values
    ensures key != "" ==> r != ""
    ensures key in TableFor(tr, language) && TableFor(tr, language)[key] != "" ==> r == TableFor(tr, language)[key]
  {
    var table := TableFor(tr, language);
    if key in table && table[key] != "" then table[key] else key
  }

  class LanguageStore {
    var language: Language
    var direction: Direction

    /** The store's own invariant: the direction follows the language. */
    ghost predicate Consistent()
      reads this
    {
      direction == DirectionOf(language)
    }

    /** A first visit: Arabic, right to left. */
    constructor ()
      ensures language == Ar && direction == Rtl && Consistent()
    {
      language := Ar;
      direction := Rtl;
    }

    /**
     * A later visit: the persisted `language` is merged over the initial state, so the store's
     * `direction` keeps its initial value whatever the saved language is (only the document's
     * direction is adjusted, outside the store).
     */
    constructor Rehydrated(saved: Language)
      ensures language == saved && direction == Rtl
      ensures Consistent() <==> saved == Ar
    {
      language := saved;
      direction := Rtl;
    }

    method SetLanguage(l: Language)
      modifies this
      ensures language == l && direction == DirectionOf(l) && Consistent()
    {
      var d := if l == Ar then Rtl else Ltr;
      language, direction := l, d;
    }

    /** `t(key)` in the store's current language. */
    function T(tr: Translations, key: string): (r: string)
      reads this
      ensures r == key || r in TableFor(tr, language).Values
      ensures key != "" ==> r != ""
    {
      Translate(tr, language, key)
    }

    /** What `partialize` writes to storage: the language alone. */
    function Persisted(): Language
      reads this
    {
      language
    }
  }
}
