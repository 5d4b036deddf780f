/** The language selector: a header that opens a list of the three
    languages, each of which switches the app's language. */
module LanguageToggleButton {
  import opened I18n
  import opened LanguageContext

  /** The options, in the order the list shows them. */
  const Langs: seq<Lang> := [Pt, En, Es]

  /** Every language is offered, exactly once. */
  lemma LangsComplete()
    ensures forall l :: l in Langs
    ensures forall i, j :: 0 <= i < j < |Langs| ==> Langs[i] != Langs[j]
  {
    forall l ensures l in Langs {
      match l
      case Pt => assert Langs[0] == Pt;
      case En => assert Langs[1] == En;
      case Es => assert Langs[2] == Es;
    }
  }

  class LanguageSelector {
    var open: bool
    const ctx: LanguageProvider

    constructor (ctx: LanguageProvider)
      ensures this.ctx == ctx && !open
    {
      this.ctx := ctx;
      open := false;
    }

    /** Pressing the header flips `open`. */
    method PressHeader()
      modifies this
      ensures open == !old(open)
    {
      open := !open;
    }

    /** The options drawn under the header: all three while open, none
        while closed. */
    method Shown() returns (options: seq<Lang>)
      ensures open ==> options == Langs
      ensures !open ==> options == []
    {
      options := if open then Langs else [];
    }

    /** `changeLanguage(newLang)`: the context's `setLang` runs only for a
        language other than the current one, and the list closes either
        way. Afterwards the context is in `newLang`. */
    method ChangeLanguage(newLang: Lang, writeOk: bool)
      modifies this, ctx, ctx.i18n, ctx.storage
      requires ctx.Synced()
      ensures !open
      ensures ctx.lang == newLang && ctx.Synced()
      ensures newLang == old(ctx.lang) ==> ctx.storage.items == old(ctx.storage.items)
      ensures newLang != old(ctx.lang) ==>
        ctx.storage.items == if writeOk then old(ctx.storage.items)[LangKey := Code(newLang)] else old(ctx.storage.items)
    {
      if newLang != ctx.lang {
        ctx.SetLang(newLang, writeOk);
      }
      open := false;
    }
  }
}
