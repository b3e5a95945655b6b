/** The header's language picker. The chosen language lives in the URL's
    `lang` parameter, French by default; the dropdown's visibility is the
    component's own state. */
module LanguageSelector {
  import opened Common
  import opened Lists
  import opened SearchParams

  datatype Language = Language(code: string, name: string)

  const English := Language("en", "English")
  const French := Language("fr", "Français")

  /** The languages offered, in menu order. */
  const Languages: seq<Language> := [English, French]

  const DefaultLang := "fr"

  /** `currentLang`: the URL's `lang`, or French when it is missing or
      empty. */
  function CurrentLang(ps: Params): (r: string)
    ensures r != ""
  {
    Or(Get(ps, "lang"), DefaultLang)
  }

  /** `currentLanguage`: the language whose code is `currentLang`, else the
      default language, else the first one. */
  function CurrentLanguage(ps: Params): (r: Language)
    ensures r in Languages
  {
    var lang := CurrentLang(ps);
    var found := FindIndex(Languages, (l: Language) => l.code == lang);
    if found.Some? then Languages[found.value]
    else
      var fallback := FindIndex(Languages, (l: Language) => l.code == DefaultLang);
      if fallback.Some? then Languages[fallback.value] else Languages[0]
  }

  /** The button shows the language the URL names when it is one of the
      offered codes, and French for anything else. */
  lemma CurrentLanguageRule(ps: Params)
    ensures CurrentLang(ps) == "en" ==> CurrentLanguage(ps) == English
    ensures CurrentLang(ps) != "en" ==> CurrentLanguage(ps) == French
  {
    var lang := CurrentLang(ps);
    var found := FindIndex(Languages, (l: Language) => l.code == lang);
    if lang == "en" {
      assert Languages[0].code == lang;
      assert found == Some(0);
    } else if lang == "fr" {
      assert Languages[1].code == lang;
      assert found == Some(1);
    } else {
      assert found.None? by {
        assert Languages[0].code != lang && Languages[1].code != lang;
      }
      var fallback := FindIndex(Languages, (l: Language) => l.code == DefaultLang);
      assert Languages[1].code == DefaultLang;
      assert fallback == Some(1);
    }
  }

  /** The effect on mount: a missing or empty `lang` is replaced by the
      default; a present one is left alone. */
  function WithDefaultLang(ps: Params): Params {
    if !Truthy(Get(ps, "lang")) then Set(ps, "lang", DefaultLang) else ps
  }

  /** The default does not change which language is shown, it only writes
      it into the URL; every other parameter keeps its value, and running
      the effect again changes nothing. */
  lemma WithDefaultLangRule(ps: Params)
    ensures Truthy(Get(WithDefaultLang(ps), "lang"))
    ensures CurrentLang(WithDefaultLang(ps)) == CurrentLang(ps)
    ensures forall other :: other != "lang" ==> Get(WithDefaultLang(ps), other) == Get(ps, other)
    ensures WithDefaultLang(WithDefaultLang(ps)) == WithDefaultLang(ps)
  {
    if !Truthy(Get(ps, "lang")) {
      GetAfterSet(ps, "lang", DefaultLang);
      forall other | other != "lang"
        ensures Get(WithDefaultLang(ps), other) == Get(ps, other)
      {
        GetOtherAfterSet(ps, "lang", DefaultLang, other);
      }
    }
  }

  /** `handleLanguageChange(code)` on the URL: choosing the current language
      leaves it as it is, any other choice is written into `lang`. */
  function AfterLanguageChange(ps: Params, code: string): Params {
    if code == CurrentLang(ps) then ps else Set(ps, "lang", code)
  }

  /** After choosing an offered language, that language is the current one,
      and every other parameter keeps its value. */
  lemma LanguageChangeRule(ps: Params, code: string)
    requires code != ""
    ensures CurrentLang(AfterLanguageChange(ps, code)) == code
    ensures forall other :: other != "lang" ==> Get(AfterLanguageChange(ps, code), other) == Get(ps, other)
  {
    if code != CurrentLang(ps) {
      GetAfterSet(ps, "lang", code);
      forall other | other != "lang"
        ensures Get(AfterLanguageChange(ps, code), other) == Get(ps, other)
      {
        GetOtherAfterSet(ps, "lang", code, other);
      }
    }
  }

  /** The component: the URL's parameters and whether the dropdown is
      open. */
  class LanguagePicker {
    var searchParams: Params
    var isOpen: bool

    constructor(url: Params)
      ensures searchParams == url && !isOpen
    {
      searchParams := url;
      isOpen := false;
    }

    /** The effect's URL half. The translation it then schedules is not part
        of this model. */
    method EnsureLangParam()
      modifies this
      ensures searchParams == WithDefaultLang(old(searchParams)) && isOpen == old(isOpen)
    {
      if !Truthy(Get(searchParams, "lang")) {
        var newParams := searchParams;
        newParams := Set(newParams, "lang", DefaultLang);
        searchParams := newParams;
      }
    }

    /** Choosing a language closes the dropdown and, for a different
        language, rewrites `lang`. */
    method ChangeLanguage(code: string)
      modifies this
      ensures !isOpen
      ensures searchParams == AfterLanguageChange(old(searchParams), code)
    {
      if code == CurrentLang(searchParams) {
        isOpen := false;
        return;
      }
      isOpen := false;
      var newParams := searchParams;
      newParams := Set(newParams, "lang", code);
      searchParams := newParams;
    }

    /** The button toggles the dropdown. */
    method Toggle()
      modifies this
      ensures isOpen == !old(isOpen) && searchParams == old(searchParams)
    {
      isOpen := !isOpen;
    }

    /** A click on the backdrop closes the dropdown. */
    method Close()
      modifies this
      ensures !isOpen && searchParams == old(searchParams)
    {
      isOpen := false;
    }
  }
}
