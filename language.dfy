/** The language context: the current language, kept in browser storage
    under `preferred-language`, and `t`, the lookup of a text by key with a
    fall-back to English and then to the key itself. */
module Language {
  import opened Common
  import opened Session

  /** Per language, the text of each key. */
  type Table = map<string, map<string, string>>

  /** The translation table the client ships. */
  const Translations: Table := map[
    "en" := map["welcome" := "Welcome", "login" := "Login", "signup" := "Sign up"],
    "hi" := map["welcome" := "स्वागत है", "login" := "लॉगिन", "signup" := "साइन अप"],
    "mr" := map["welcome" := "स्वागत आहे", "login" := "लॉगिन", "signup" := "साइन अप"]
  ]

  /** The languages the staff menu offers, in menu order. */
  const Offered: seq<string> := ["en", "hi", "bn", "mr", "ta", "te", "kn"]

  /** The non-empty text of `key` in `lang`, if the table has one. */
  function Entry(table: Table, lang: string, key: string): (r: Option<string>)
    ensures r.Some? <==> lang in table && key in table[lang] && table[lang][key] != ""
    ensures r.Some? ==> r.value == table[lang][key]
  {
    if lang in table && key in table[lang] && table[lang][key] != "" then Some(table[lang][key]) else None
  }

  /** `t(key)`: the current language's text, else the English text, else
      the key. */
  function Translate(table: Table, lang: string, key: string): (r: string)
    ensures Entry(table, lang, key).Some? ==> r == Entry(table, lang, key).value
    ensures Entry(table, lang, key).None? && Entry(table, "en", key).Some? ==> r == Entry(table, "en", key).value
    ensures Entry(table, lang, key).None? && Entry(table, "en", key).None? ==> r == key
  {
    match Entry(table, lang, key)
    case Some(text) => text
    case None =>
      match Entry(table, "en", key)
      case Some(text) => text
      case None => key
  }

  /** `t` never comes back empty-handed: it answers with a table entry of the
      current language or of English, or with the key. */
  lemma TranslateIsTotal(table: Table, lang: string, key: string)
    ensures Translate(table, lang, key) == key
         || (lang in table && key in table[lang] && Translate(table, lang, key) == table[lang][key])
         || ("en" in table && key in table["en"] && Translate(table, lang, key) == table["en"][key])
    ensures key != "" ==> Translate(table, lang, key) != ""
  {
  }

  /** Offered languages without a table (Bengali, Tamil, Telugu, Kannada) show
      the English text, or the key where English has none. */
  lemma UntranslatedLanguagesShowEnglish(lang: string, key: string)
    requires lang in Offered && lang !in Translations
    ensures Translate(Translations, lang, key) == Translate(Translations, "en", key)
    ensures lang == "bn" || lang == "ta" || lang == "te" || lang == "kn"
  {
  }

  /** The first language: the stored one when it is a non-empty string,
      English otherwise. */
  function InitialLanguage(m: map<string, string>): (lang: string)
    ensures Truthy(Get(m, LanguageKey)) ==> lang == m[LanguageKey]
    ensures !Truthy(Get(m, LanguageKey)) ==> lang == "en"
  {
    if Truthy(Get(m, LanguageKey)) then m[LanguageKey] else "en"
  }

  /** A language chosen and stored is the one the next page load starts in. */
  lemma ChosenLanguagePersists(m: map<string, string>, lang: string)
    requires lang != ""
    ensures InitialLanguage(m[LanguageKey := lang]) == lang
  {
  }

  /** `LanguageProvider`: the language state and its setter. */
  class LanguageProvider {
    var language: string

    constructor (store: Storage)
      ensures language == InitialLanguage(store.items)
    {
      language := InitialLanguage(store.items);
    }

    /** `setLanguage`: update the state and persist the choice. */
    method SetLanguage(lang: string, store: Storage)
      modifies this, store
      ensures language == lang
      ensures store.items == old(store.items)[LanguageKey := lang]
    {
      language := lang;
      store.SetItem(LanguageKey, lang);
    }

    /** `t` in the current language. */
    function T(key: string): (r: string)
      reads this
      ensures key != "" ==> r != ""
      ensures language in Offered && language !in Translations ==> r == Translate(Translations, "en", key)
    {
      Translate(Translations, language, key)
    }
  }
}
