/** The language context: the app-wide language, kept in step with the
    translation locale and saved under "lang" in the device store. */
module LanguageContext {
  import opened Wrappers
  import opened I18n
  import opened Storage

  const LangKey: string := "lang"

  /** The state's first value, read off the translation locale: Spanish for
      "es…", English for "en…", Portuguese otherwise. */
  function InitialLang(locale: string): (l: Lang)
    ensures "es" <= locale ==> l == Es
    ensures !("es" <= locale) && "en" <= locale ==> l == En
    ensures !("es" <= locale) && !("en" <= locale) ==> l == Pt
  {
    if "es" <= locale then Es
    else if "en" <= locale then En
    else Pt
  }

  /** Read from a locale the translation object set, the first value is that
      locale's language. */
  lemma InitialLangOfCode(l: Lang)
    ensures InitialLang(Code(l)) == l
  {
    match l
    case Pt =>
      assert !("es" <= "pt") by { assert "pt"[0] != "es"[0]; }
      assert !("en" <= "pt") by { assert "pt"[0] != "en"[0]; }
    case En =>
      assert !("es" <= "en") by { assert "en"[1] != "es"[1]; }
    case Es =>
  }

  /** A saved value is taken only when it is exactly one of the codes. */
  function ParseLang(saved: Option<string>): (r: Option<Lang>)
    ensures forall l :: r == Some(l) <==> saved == Some(Code(l))
  {
    match saved
    case None => None
    case Some(s) =>
      if s == "pt" then Some(Pt)
      else if s == "es" then Some(Es)
      else if s == "en" then Some(En)
      else None
  }

  /** `nextLang`: pt to en, en to es, es to pt. */
  function NextLang(l: Lang): (n: Lang)
    ensures n != l
    ensures l == Pt <==> n == En
    ensures l == En <==> n == Es
  {
    if l == Pt then En else if l == En then Es else Pt
  }

  /** Three toggles come back to the starting language, and no fewer. */
  lemma ToggleCycle(l: Lang)
    ensures NextLang(NextLang(NextLang(l))) == l
    ensures NextLang(NextLang(l)) != l
  {
  }

  class LanguageProvider {
    var lang: Lang
    const i18n: Translator
    const storage: AsyncStorage

    /** The context's language and the translation locale agree. */
    predicate Synced()
      reads this, i18n
    {
      i18n.locale == Code(lang)
    }

    /** Mounting: the language read off the current locale; when that locale
        is one the translation object sets, the two agree. */
    constructor (i18n: Translator, storage: AsyncStorage)
      ensures this.i18n == i18n && this.storage == storage
      ensures lang == InitialLang(i18n.locale)
      ensures forall l :: i18n.locale == Code(l) ==> Synced()
    {
      this.i18n := i18n;
      this.storage := storage;
      lang := InitialLang(i18n.locale);
      forall l | i18n.locale == Code(l) {
        InitialLangOfCode(l);
      }
    }

    /** The restore effect. `readOk` is false when reading the store throws,
        which is swallowed. A saved known code becomes the language and the
        locale; anything else changes nothing. */
    method Restore(readOk: bool)
      modifies this, i18n
      ensures var r := ParseLang(storage.Get(LangKey));
              if readOk && r.Some? then lang == r.value && i18n.locale == Code(r.value)
              else lang == old(lang) && i18n.locale == old(i18n.locale)
      ensures old(Synced()) ==> Synced()
    {
      if readOk {
        var saved := storage.Get(LangKey);
        var parsed := ParseLang(saved);
        if parsed.Some? {
          lang := parsed.value;
          i18n.SetLocale(parsed.value);
        }
      }
    }

    /** `setLang(l)`: the state, the locale and (when the write succeeds) the
        store all get `l`; a failed write is swallowed. */
    method SetLang(l: Lang, writeOk: bool)
      modifies this, i18n, storage
      ensures lang == l && i18n.locale == Code(l)
      ensures storage.items == if writeOk then old(storage.items)[LangKey := Code(l)] else old(storage.items)
      ensures Synced()
    {
      lang := l;
      i18n.SetLocale(l);
      storage.SetItem(LangKey, Code(l), writeOk);
    }

    /** `toggleLang`: `setLang` of the next language in the cycle. */
    method ToggleLang(writeOk: bool)
      modifies this, i18n, storage
      ensures lang == NextLang(old(lang)) && i18n.locale == Code(lang)
      ensures storage.items == if writeOk then old(storage.items)[LangKey := Code(lang)] else old(storage.items)
    {
      var nextLang := NextLang(lang);
      SetLang(nextLang, writeOk);
    }
  }

  /** What `useLanguage` hands a component: the provider's value, or,
      outside any provider, the context's default value, whose language is
      Portuguese and whose `setLang` and `toggleLang` do nothing. */
  datatype LanguageValue = DefaultValue | ProvidedValue(provider: LanguageProvider)

  function UseLanguage(context: Option<LanguageProvider>): (v: LanguageValue)
    ensures v.DefaultValue? <==> context.None?
    ensures context.Some? ==> v == ProvidedValue(context.value)
  {
    match context
    case Some(p) => ProvidedValue(p)
    case None => DefaultValue
  }

  /** The `lang` a component reads. */
  function CurrentLang(v: LanguageValue): (l: Lang)
    reads if v.ProvidedValue? then {v.provider} else {}
    ensures v.DefaultValue? ==> l == Pt
    ensures v.ProvidedValue? ==> l == v.provider.lang
  {
    if v.ProvidedValue? then v.provider.lang else Pt
  }

  /** A component's `setLang`: the provider's, or the default no-op. */
  method SetLangThrough(v: LanguageValue, l: Lang, writeOk: bool)
    modifies if v.ProvidedValue? then {v.provider, v.provider.i18n, v.provider.storage} else {}
    ensures v.ProvidedValue? ==> v.provider.lang == l && v.provider.Synced()
    ensures v.ProvidedValue? ==>
      v.provider.storage.items == if writeOk then old(v.provider.storage.items)[LangKey := Code(l)] else old(v.provider.storage.items)
  {
    if v.ProvidedValue? {
      v.provider.SetLang(l, writeOk);
    }
  }

  /** A component's `toggleLang`: the provider's, or the default no-op. */
  method ToggleLangThrough(v: LanguageValue, writeOk: bool)
    modifies if v.ProvidedValue? then {v.provider, v.provider.i18n, v.provider.storage} else {}
    ensures v.ProvidedValue? ==> v.provider.lang == NextLang(old(v.provider.lang))
  {
    if v.ProvidedValue? {
      v.provider.ToggleLang(writeOk);
    }
  }

  /** Pressing the toggle three times leaves the language where it was. */
  method ToggleThrice(p: LanguageProvider)
    modifies p, p.i18n, p.storage
    ensures p.lang == old(p.lang) && p.Synced()
  {
    p.ToggleLang(true);
    p.ToggleLang(true);
    p.ToggleLang(true);
    ToggleCycle(old(p.lang));
  }
}
