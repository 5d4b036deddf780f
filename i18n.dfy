/** The translation object's locale: chosen once from the device's first
    language when the app starts, and set by hand afterwards. The message
    catalogues and the lookup `t()` are not part of this model. */
module I18n {
  import opened Wrappers

  /** The three languages the app ships. */
  datatype Lang = Pt | En | Es

  /** A language's locale code. */
  function Code(l: Lang): (c: string)
    ensures |c| == 2
  {
    match l
    case Pt => "pt"
    case En => "en"
    case Es => "es"
  }

  /** Different languages have different codes. */
  lemma CodeInjective(a: Lang, b: Lang)
    ensures Code(a) == Code(b) <==> a == b
  {
    if a != b {
      assert Code(a)[0] != Code(b)[0] || Code(a)[1] != Code(b)[1];
    }
  }

  /** One entry of the device's locale list. */
  datatype Locale = Locale(languageCode: Option<string>)

  /** `deviceLang`: the first locale's language code, "en" when the list
      (or the function giving it) is missing or empty, or when that code is
      null. `locales` is None when `getLocales` is not available. */
  function DeviceLang(locales: Option<seq<Locale>>): (d: string)
    ensures locales.None? || locales.value == [] ==> d == "en"
    ensures locales.Some? && locales.value != [] && locales.value[0].languageCode.None? ==> d == "en"
    ensures locales.Some? && locales.value != [] && locales.value[0].languageCode.Some? ==>
      d == locales.value[0].languageCode.value
  {
    match locales
    case None => "en"
    case Some(ls) => if ls == [] then "en" else ls[0].languageCode.GetOr("en")
  }

  /** The starting language: Portuguese for a "pt…" device language, else
      Spanish for "es…", else English. */
  function LocaleFor(deviceLang: string): (l: Lang)
    ensures l == Pt <==> "pt" <= deviceLang
    ensures l == Es <==> !("pt" <= deviceLang) && "es" <= deviceLang
    ensures l == En <==> !("pt" <= deviceLang) && !("es" <= deviceLang)
  {
    if "pt" <= deviceLang then Pt
    else if "es" <= deviceLang then Es
    else En
  }

  /** A device without a usable locale starts in English. */
  lemma NoLocaleIsEnglish(locales: Option<seq<Locale>>)
    requires locales.None? || locales.value == [] || locales.value[0].languageCode.None?
    ensures LocaleFor(DeviceLang(locales)) == En
  {
    assert DeviceLang(locales) == "en";
    assert !("pt" <= "en") by { assert "en"[0] != "pt"[0]; }
    assert !("es" <= "en") by { assert "en"[1] != "es"[1]; }
  }

  /** The `i18n` object, reduced to the locale it translates into. */
  class Translator {
    var locale: string

    /** Module initialisation: the locale is the code of the language the
        device language selects, so always one of "pt", "en", "es". */
    constructor (locales: Option<seq<Locale>>)
      ensures locale == Code(LocaleFor(DeviceLang(locales)))
    {
      var deviceLang := DeviceLang(locales);
      if "pt" <= deviceLang {
        locale := "pt";
      } else if "es" <= deviceLang {
        locale := "es";
      } else {
        locale := "en";
      }
    }

    /** `setLocale(lang)`. */
    method SetLocale(l: Lang)
      modifies this
      ensures locale == Code(l)
    {
      locale := Code(l);
    }
  }
}
