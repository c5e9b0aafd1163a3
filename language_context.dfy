/**
 * The language preference store of lib/language-context.tsx: the active
 * language (English or Arabic), its copy in the browser's local storage, the
 * document's `dir` and `lang` attributes, and the translate-by-key lookup.
 */
module LanguageContext {
  import opened JsText

  datatype Language = En | Ar

  /** The local-storage slot that holds the preference. */
  const StorageKey: string := "ai-lab-language"

  /** Message of the error raised when the store is used outside its provider. */
  const OutsideProviderError: string := "useLanguage must be used within LanguageProvider"

  /** A translation key; the table itself (lib/translations) is a parameter. */
  type Key = string

  /** `translations[language][key]`, absent where the table has no entry. */
  type Table = map<(Language, Key), string>

  /** The tag written to storage and to `document.documentElement.lang`. */
  function Code(l: Language): (s: string)
    ensures s == "en" || s == "ar"
    ensures (s == "ar") == (l == Ar)
  {
    match l
    case En => "en"
    case Ar => "ar"
  }

  /** Recognises a stored value: only "en" and "ar" are languages. */
  function Parse(s: string): (r: Option<Language>)
    ensures r.Some? <==> s == "en" || s == "ar"
    ensures r.Some? ==> Code(r.value) == s
  {
    if s == "en" then Some(En) else if s == "ar" then Some(Ar) else None
  }

  /** Text direction of the document: right-to-left exactly for Arabic. */
  function Direction(l: Language): (d: string)
    ensures d == "rtl" <==> l == Ar
    ensures l == En ==> d == "ltr"
  {
    if l == Ar then "rtl" else "ltr"
  }

  /** The language found in storage at start-up, if it is a recognised one. */
  function Saved(storage: map<string, string>): (r: Option<Language>)
    ensures r.Some? <==> StorageKey in storage && (storage[StorageKey] == "en" || storage[StorageKey] == "ar")
    ensures r.Some? ==> storage[StorageKey] == Code(r.value)
  {
    if StorageKey in storage then Parse(storage[StorageKey]) else None
  }

  /** `translations[language][key] || key`: the entry, or the key itself when the entry is missing or empty. */
  function Lookup(table: Table, l: Language, key: Key): (r: string)
    ensures (l, key) in table && table[(l, key)] != "" ==> r == table[(l, key)]
    ensures (l, key) !in table || table[(l, key)] == "" ==> r == key
  {
    if (l, key) in table && table[(l, key)] != "" then table[(l, key)] else key
  }

  /** `useLanguage`: the provider's context, or the error thrown outside a provider. */
  datatype Outcome<+T> = Ok(value: T) | Thrown(message: string)

  function UseLanguage<C>(context: Option<C>): (r: Outcome<C>)
    ensures r.Thrown? <==> context.None?
    ensures r.Thrown? ==> r.message == OutsideProviderError
    ensures r.Ok? ==> context == Some(r.value)
  {
    match context
    case None => Thrown(OutsideProviderError)
    case Some(c) => Ok(c)
  }

  /** Everything the store can change, as one value. */
  datatype StoreView = StoreView(language: Language, storage: map<string, string>, dir: string, docLang: string)

  /** The store as mounted: `useState("en")`, the storage and the document as found. */
  function Mounted(storage: map<string, string>, dir: string, docLang: string): (v: StoreView)
    ensures v.language == En && v.storage == storage
    ensures v.dir == dir && v.docLang == docLang
  {
    StoreView(En, storage, dir, docLang)
  }

  /** The start-up effect: adopt a recognised saved language and apply it to the document; otherwise change nothing. */
  function Restored(v: StoreView): (w: StoreView)
    ensures w.storage == v.storage
    ensures Saved(v.storage).Some? ==>
              w.language == Saved(v.storage).value && w.dir == Direction(w.language) && w.docLang == Code(w.language)
    ensures Saved(v.storage).None? ==> w == v
  {
    match Saved(v.storage)
    case Some(l) => StoreView(l, v.storage, Direction(l), Code(l))
    case None => v
  }

  /** `setLanguage(l)`: memory, storage slot and document all switch to `l`; no other storage key changes. */
  function Applied(v: StoreView, l: Language): (w: StoreView)
    ensures w.language == l && w.dir == Direction(l) && w.docLang == Code(l)
    ensures StorageKey in w.storage && Parse(w.storage[StorageKey]) == Some(l)
    ensures w.storage.Keys == v.storage.Keys + {StorageKey}
    ensures forall k :: k in v.storage && k != StorageKey ==> w.storage[k] == v.storage[k]
  {
    StoreView(l, v.storage[StorageKey := Code(l)], Direction(l), Code(l))
  }

  /** Setting the same language twice is the same as setting it once. */
  lemma AppliedIdempotent(v: StoreView, l: Language)
    ensures Applied(Applied(v, l), l) == Applied(v, l)
  {
  }

  /** What `setLanguage(l)` leaves does not depend on the state it started from, storage aside. */
  lemma AppliedForgetsPrior(v: StoreView, u: StoreView, l: Language)
    requires v.storage == u.storage
    ensures Applied(v, l) == Applied(u, l)
  {
  }

  /** After `setLanguage(l)` and a reload, the start-up effect restores `l`, with its direction. */
  lemma ReloadRestores(v: StoreView, l: Language, dir: string, docLang: string)
    ensures Restored(Mounted(Applied(v, l).storage, dir, docLang))
      == StoreView(l, Applied(v, l).storage, Direction(l), Code(l))
  {
  }

  /** A table with a non-empty entry for `key` in every language never falls back to the key. */
  lemma LookupComplete(table: Table, key: Key)
    requires forall l: Language :: (l, key) in table && table[(l, key)] != ""
    ensures forall l: Language :: Lookup(table, l, key) == table[(l, key)] && Lookup(table, l, key) != ""
  {
  }

  /** The provider's state: React state, local storage and the document element. */
  class LanguageStore {
    var language: Language
    var storage: map<string, string>
    var dir: string
    var docLang: string
    const table: Table

    ghost function View(): StoreView
      reads this
    {
      StoreView(language, storage, dir, docLang)
    }

    /** Mounting `LanguageProvider`: the language starts as English. */
    constructor (storage0: map<string, string>, dir0: string, docLang0: string, table0: Table)
      ensures View() == Mounted(storage0, dir0, docLang0) && table == table0
    {
      language := En;
      storage := storage0;
      dir := dir0;
      docLang := docLang0;
      table := table0;
    }

    /** The mount effect: restore a recognised saved language; never writes storage. */
    method RestoreSaved()
      modifies this
      ensures View() == Restored(old(View()))
    {
      if StorageKey in storage {
        var saved := storage[StorageKey];
        if saved == "en" || saved == "ar" {
          var l := if saved == "ar" then Ar else En;
          language := l;
          dir := Direction(l);
          docLang := Code(l);
        }
      }
    }

    /** `setLanguage(l)`, the three updates in source order. */
    method SetLanguage(l: Language)
      modifies this
      ensures View() == Applied(old(View()), l)
    {
      language := l;
      storage := storage[StorageKey := Code(l)];
      dir := if l == Ar then "rtl" else "ltr";
      docLang := Code(l);
    }

    /** `t(key)` against the current language. */
    function T(key: Key): (s: string)
      reads this
      ensures (language, key) in table && table[(language, key)] != "" ==> s == table[(language, key)]
      ensures (language, key) !in table || table[(language, key)] == "" ==> s == key
    {
      Lookup(table, language, key)
    }
  }
}
