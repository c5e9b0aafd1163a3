/**
 * The header button of components/language-switcher.tsx: it flips the store
 * between the two languages and is labelled with the one it switches to.
 */
module LanguageSwitcher {
  import opened JsText
  import opened LanguageContext

  /** Each language's name for itself. */
  function NativeName(l: Language): (s: string)
    ensures s == "English" <==> l == En
  {
    match l
    case En => "English"
    case Ar => "\U{0627}\U{0644}\U{0639}\U{0631}\U{0628}\U{064A}\U{0629}"
  }

  /** The language a click selects: the other one. */
  function Toggled(l: Language): (r: Language)
    ensures r != l
  {
    if l == En then Ar else En
  }

  /** The button label names the language a click switches to. */
  function Label(l: Language): (s: string)
    ensures s == NativeName(Toggled(l))
  {
    if l == En then "\U{0627}\U{0644}\U{0639}\U{0631}\U{0628}\U{064A}\U{0629}" else "English"
  }

  lemma ToggledInvolution(l: Language)
    ensures Toggled(Toggled(l)) == l
  {
  }

  /** Two clicks bring the store back to the language it had, in memory, storage and document. */
  lemma TwoClicksRestore(v: StoreView)
    ensures var w := Applied(Applied(v, Toggled(v.language)), Toggled(Toggled(v.language)));
      w.language == v.language && w.dir == Direction(v.language) && w.docLang == Code(v.language)
      && Saved(w.storage) == Some(v.language)
  {
  }

  /** `onClick`: set the other language through the store. */
  method Click(store: LanguageStore)
    modifies store
    ensures store.View() == Applied(old(store.View()), Toggled(old(store.language)))
  {
    store.SetLanguage(if store.language == En then Ar else En);
  }
}
