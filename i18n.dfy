/**
 * The shared translation engine and its start-up configuration
 * (src/i18n/index.ts): the two registered locales, the default and
 * fallback language, and the client-only sync of the language with the
 * text between the first two slashes of the page's pathname.
 */
module I18n {
  import opened Wrappers
  import Strings

  /** The two locales that have a translation catalog. */
  datatype Locale = Ar | En {
    /** The language code i18next and the URL use for this locale. */
    function Tag(): string {
      match this
      case Ar => "ar"
      case En => "en"
    }
  }

  /** The locale a language code names, if it names one of the registered two. */
  function ParseLocale(code: string): (r: Option<Locale>)
    ensures r.Some? ==> r.value.Tag() == code
    ensures r.None? <==> code != "ar" && code != "en"
  {
    if code == "ar" then Some(Ar)
    else if code == "en" then Some(En)
    else None
  }

  /** Parsing undoes `Tag`: the two are mutually inverse on supported codes. */
  lemma ParseTag(l: Locale)
    ensures ParseLocale(l.Tag()) == Some(l)
  {
  }

  /** The language the engine is initialised with (`lng`). */
  const DefaultLanguage: string := "ar"
  /** The language used when a key is missing (`fallbackLng`). */
  const FallbackLanguage: string := "ar"
  /** The language codes registered in `resources`. */
  const Resources: set<string> := {"ar", "en"}

  /** A language code that has a catalog. */
  predicate IsSupported(code: string) {
    ParseLocale(code).Some?
  }

  /**
   * The configuration is closed: the default and the fallback agree, are
   * Arabic, and the registered catalogs are exactly the two locales.
   */
  lemma ConfigurationIsClosed()
    ensures DefaultLanguage == FallbackLanguage == Ar.Tag()
    ensures forall code :: code in Resources <==> IsSupported(code)
    ensures |Resources| == 2
  {
  }

  /**
   * `pathname.split('/')[1]`: the text between the first and the second
   * `/`, or up to the end when there is no second one; `None` (JavaScript
   * `undefined`) when the pathname holds no `/` at all.
   */
  function PathLocale(pathname: string): (segment: Option<string>)
    ensures segment.Some? <==> '/' in pathname
    ensures segment.Some? ==> '/' !in segment.value
  {
    var parts := Strings.Split(pathname, '/');
    if |parts| > 1 then Some(parts[1]) else None
  }

  /** The segment is exactly the text between the first two slashes. */
  lemma PathLocaleBetweenSlashes(head: string, segment: string, tail: string)
    requires '/' !in head && '/' !in segment
    requires tail == [] || tail[0] == '/'
    ensures PathLocale(head + "/" + segment + tail) == Some(segment)
  {
    assert head + "/" + segment + tail == head + ['/'] + (segment + tail);
    Strings.SplitAtFirst(head, '/', segment + tail);
    if tail == [] {
      assert segment + tail == segment;
      Strings.SplitNoSeparator(segment, '/');
    } else {
      assert segment + tail == segment + ['/'] + tail[1..];
      Strings.SplitAtFirst(segment, '/', tail[1..]);
    }
  }

  /** `"/en/login"` yields `"en"`. */
  lemma PathLocaleOfLoginPage()
    ensures PathLocale("/en/login") == Some("en")
  {
    assert "/en/login" == "" + "/" + "en" + "/login";
    PathLocaleBetweenSlashes("", "en", "/login");
  }

  /** The root `"/"` yields the empty segment; a pathname without `/` yields none. */
  lemma PathLocaleOfRoot()
    ensures PathLocale("/") == Some("")
    ensures PathLocale("") == None
  {
  }

  /**
   * The engine language after the client-side path sync, given the language
   * before it and the browser window's pathname (`None` when there is no
   * window, as during server rendering).
   */
  function BootSyncedLanguage(prior: string, window: Option<string>): (lang: string)
    ensures lang == prior ||
      (window.Some? && PathLocale(window.value) == Some(lang) && IsSupported(lang))
  {
    match window
    case None => prior
    case Some(pathname) =>
      match PathLocale(pathname)
      case Some(code) => if code == "ar" || code == "en" then code else prior
      case None => prior
  }

  /**
   * The sync switches language exactly when there is a window whose first
   * path segment is a registered locale other than the current language.
   */
  lemma BootSyncChangesOnlyOnSupportedSegment(prior: string, window: Option<string>)
    ensures BootSyncedLanguage(prior, window) != prior <==>
      window.Some? && PathLocale(window.value).Some? &&
      IsSupported(PathLocale(window.value).value) &&
      PathLocale(window.value).value != prior
    ensures BootSyncedLanguage(prior, window) != prior ==>
      BootSyncedLanguage(prior, window) == PathLocale(window.value).value
  {
  }

  /** Without a window the language stays what it was. */
  lemma BootSyncServerSide(prior: string)
    ensures BootSyncedLanguage(prior, None) == prior
  {
  }

  /** A pathname `/<locale>` or `/<locale>/...` selects that locale. */
  lemma BootSyncFromLocalePath(prior: string, l: Locale, tail: string)
    requires tail == [] || tail[0] == '/'
    ensures BootSyncedLanguage(prior, Some("/" + l.Tag() + tail)) == l.Tag()
  {
    assert "/" + l.Tag() + tail == "" + "/" + l.Tag() + tail;
    PathLocaleBetweenSlashes("", l.Tag(), tail);
  }

  /** Starting from a registered language, boot always ends on a registered one. */
  lemma BootSyncKeepsSupported(prior: string, window: Option<string>)
    requires IsSupported(prior)
    ensures IsSupported(BootSyncedLanguage(prior, window))
  {
  }

  /** The process-wide i18next instance: the only state is its language. */
  class Engine {
    var language: string
    const fallbackLanguage: string
    const resources: set<string>

    /** `i18n.init({ resources, fallbackLng: 'ar', lng: 'ar', ... })`. */
    constructor Init()
      ensures language == DefaultLanguage
      ensures fallbackLanguage == FallbackLanguage
      ensures resources == Resources
    {
      language := DefaultLanguage;
      fallbackLanguage := FallbackLanguage;
      resources := Resources;
    }

    /** `i18n.changeLanguage(code)`: the engine's language becomes `code`. */
    method ChangeLanguage(code: string)
      modifies this`language
      ensures language == code
    {
      language := code;
    }

    /** The module's client-side block: adopt the path's locale, if it is one. */
    method SyncWithPath(window: Option<string>)
      modifies this`language
      ensures language == BootSyncedLanguage(old(language), window)
      ensures IsSupported(old(language)) ==> IsSupported(language)
    {
      if window.Some? {
        var pathLocale := PathLocale(window.value);
        if pathLocale.Some? && (pathLocale.value == "ar" || pathLocale.value == "en") {
          ChangeLanguage(pathLocale.value);
        }
      }
    }
  }

  /**
   * Evaluating src/i18n/index.ts: initialise the engine, then sync it with
   * the pathname when running in a browser. The result is always a
   * registered language.
   */
  method Boot(window: Option<string>) returns (engine: Engine)
    ensures fresh(engine)
    ensures engine.language == BootSyncedLanguage(DefaultLanguage, window)
    ensures IsSupported(engine.language)
  {
    engine := new Engine.Init();
    engine.SyncWithPath(window);
  }
}
