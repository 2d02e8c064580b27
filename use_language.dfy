/**
 * The `useLanguage` hook (src/hooks/useLanguage.ts): the client-side
 * coordinator that reports the active language and text direction, switches
 * language on request, mirrors the language onto the document, and follows
 * the locale segment of the route.
 */
module UseLanguage {
  import opened Wrappers
  import opened I18n

  /**
   * `currentLanguage`: Arabic until the component has mounted (so the
   * server-rendered and the first client-rendered output agree), the
   * engine's language afterwards.
   */
  function CurrentLanguage(isMounted: bool, engineLanguage: string): (current: string)
    ensures current == "ar" || current == engineLanguage
    ensures IsSupported(engineLanguage) ==> IsSupported(current)
  {
    if isMounted then engineLanguage else Ar.Tag()
  }

  /** `isRTL`: the layout runs right to left for Arabic. */
  predicate IsRtl(currentLanguage: string)
    ensures IsRtl(currentLanguage) <==> ParseLocale(currentLanguage) == Some(Ar)
  {
    currentLanguage == Ar.Tag()
  }

  /** The CSS/HTML direction keyword for a right-to-left flag. */
  function Direction(rtl: bool): (dir: string)
    ensures dir == "rtl" || dir == "ltr"
    ensures dir == "rtl" <==> rtl
  {
    if rtl then "rtl" else "ltr"
  }

  /** Before mount the hook reports Arabic, right to left, whatever the engine holds. */
  lemma BeforeMountIsArabic(engineLanguage: string)
    ensures CurrentLanguage(false, engineLanguage) == "ar"
    ensures IsRtl(CurrentLanguage(false, engineLanguage))
  {
  }

  /** The direction is `rtl` exactly for Arabic and `ltr` for every other language. */
  lemma DirectionFollowsLanguage(currentLanguage: string)
    ensures Direction(IsRtl(currentLanguage)) == "rtl" <==> currentLanguage == "ar"
    ensures Direction(IsRtl(currentLanguage)) == "ltr" <==> currentLanguage != "ar"
  {
  }

  /** The locale `toggleLanguage` switches to: English from Arabic, Arabic from anything else. */
  function ToggledLanguage(currentLanguage: string): (next: Locale)
    ensures next.Tag() != currentLanguage
    ensures next == Ar <==> currentLanguage != "ar"
  {
    if currentLanguage == Ar.Tag() then En else Ar
  }

  /** Toggling twice from a registered locale comes back to it. */
  lemma ToggleInvolution(l: Locale)
    ensures ToggledLanguage(ToggledLanguage(l.Tag()).Tag()) == l
  {
  }

  /** From an unregistered language the first toggle lands on Arabic and the second on English. */
  lemma ToggleTwiceFromUnsupported(currentLanguage: string)
    requires !IsSupported(currentLanguage)
    ensures ToggledLanguage(currentLanguage) == Ar
    ensures ToggledLanguage(ToggledLanguage(currentLanguage).Tag()) == En
  {
  }

  /** `urlLocale` is truthy: present and not the empty string. */
  predicate Truthy(urlLocale: Option<string>)
    ensures Truthy(urlLocale) ==> urlLocale.Some? && |urlLocale.value| >= 1
    ensures urlLocale.Some? && IsSupported(urlLocale.value) ==> Truthy(urlLocale)
  {
    urlLocale.Some? && urlLocale.value != ""
  }

  /** The engine language after the URL-sync effect runs once. */
  function UrlSyncedLanguage(isMounted: bool, engineLanguage: string, urlLocale: Option<string>): (lang: string)
    ensures lang == engineLanguage || (isMounted && Some(lang) == urlLocale && IsSupported(lang))
  {
    if isMounted && Truthy(urlLocale)
       && (urlLocale.value == "ar" || urlLocale.value == "en")
       && urlLocale.value != CurrentLanguage(isMounted, engineLanguage)
    then urlLocale.value
    else engineLanguage
  }

  /**
   * The URL sync changes the language exactly when the hook is mounted and
   * the route carries a registered locale other than the current language;
   * a missing, empty or unknown locale changes nothing.
   */
  lemma UrlSyncChangesOnlyWhen(isMounted: bool, engineLanguage: string, urlLocale: Option<string>)
    ensures UrlSyncedLanguage(isMounted, engineLanguage, urlLocale) != engineLanguage <==>
      isMounted && urlLocale.Some? && IsSupported(urlLocale.value) && urlLocale.value != engineLanguage
  {
  }

  /** Once mounted, the sync leaves the engine on the route's registered locale. */
  lemma UrlSyncAdopts(engineLanguage: string, l: Locale)
    ensures UrlSyncedLanguage(true, engineLanguage, Some(l.Tag())) == l.Tag()
  {
  }

  /** A second pass of the sync with the same route does nothing. */
  lemma UrlSyncIdempotent(isMounted: bool, engineLanguage: string, urlLocale: Option<string>)
    ensures var once := UrlSyncedLanguage(isMounted, engineLanguage, urlLocale);
      UrlSyncedLanguage(isMounted, once, urlLocale) == once
  {
  }

  /**
   * The browser document, one per page: `document.documentElement.dir`,
   * `document.documentElement.lang` and `document.body.style.direction`.
   */
  class Document {
    var dir: string
    var lang: string
    var bodyDirection: string

    constructor (dir: string, lang: string, bodyDirection: string)
      ensures this.dir == dir && this.lang == lang && this.bodyDirection == bodyDirection
    {
      this.dir := dir;
      this.lang := lang;
      this.bodyDirection := bodyDirection;
    }
  }

  /** The app router, one per page: `history` records every `router.push` in order. */
  class Router {
    var history: seq<string>

    constructor ()
      ensures history == []
    {
      history := [];
    }

    /** `router.push(href)`. */
    method Push(href: string)
      modifies this
      ensures history == old(history) + [href]
    {
      history := history + [href];
    }
  }

  /**
   * One `useLanguage` hook instance. Its only state of its own is the
   * mounted flag; the engine, the document and the router are shared by
   * reference with every other hook instance on the page.
   */
  class LanguageCoordinator {
    const engine: Engine
    const document: Document
    const router: Router
    var isMounted: bool

    /** The first render: not yet mounted. */
    constructor (engine: Engine, document: Document, router: Router)
      ensures this.engine == engine && this.document == document && this.router == router
      ensures !isMounted
    {
      this.engine := engine;
      this.document := document;
      this.router := router;
      isMounted := false;
    }

    /** `currentLanguage` for this hook instance. */
    function Current(): string
      reads this, engine
    {
      CurrentLanguage(isMounted, engine.language)
    }

    /** The document carries the direction and language of `Current()`. */
    predicate DocumentMatches()
      reads this, engine, document
    {
      document.dir == Direction(IsRtl(Current())) &&
      document.bodyDirection == document.dir &&
      document.lang == Current()
    }

    /** The object the hook returns: language, direction flag and mounted flag. */
    method Snapshot() returns (currentLanguage: string, isRTL: bool, mounted: bool)
      ensures mounted == isMounted
      ensures !mounted ==> currentLanguage == "ar"
      ensures mounted ==> currentLanguage == engine.language
      ensures isRTL <==> currentLanguage == "ar"
    {
      currentLanguage := Current();
      isRTL := IsRtl(currentLanguage);
      mounted := isMounted;
    }

    /** The mount effect: set the mounted flag. */
    method Mount()
      modifies this`isMounted
      ensures isMounted
      ensures Current() == engine.language
    {
      isMounted := true;
    }

    /** `toggleLanguage`: switch to the other locale and navigate to its home route. */
    method ToggleLanguage()
      modifies engine`language, router
      ensures engine.language == ToggledLanguage(old(Current())).Tag()
      ensures engine.language != old(Current())
      ensures IsSupported(engine.language)
      ensures router.history == old(router.history) + ["/" + engine.language]
    {
      var newLang := ToggledLanguage(Current()).Tag();
      engine.ChangeLanguage(newLang);
      router.Push("/" + newLang);
    }

    /** `setLanguage(lang)`: switch to `lang` and navigate to its home route. */
    method SetLanguage(lang: Locale)
      modifies engine`language, router
      ensures engine.language == lang.Tag()
      ensures isMounted ==> Current() == lang.Tag()
      ensures router.history == old(router.history) + ["/" + lang.Tag()]
    {
      engine.ChangeLanguage(lang.Tag());
      router.Push("/" + lang.Tag());
    }

    /**
     * The direction effect: once mounted, write the direction and language
     * of `Current()` onto the shared document; before mount leave it untouched.
     */
    method ApplyDocumentDirection()
      modifies document
      ensures isMounted ==> DocumentMatches()
      ensures isMounted ==> (document.dir == "rtl" <==> engine.language == "ar")
      ensures !isMounted ==> unchanged(document)
    {
      if isMounted {
        var rtl := IsRtl(Current());
        document.dir := Direction(rtl);
        document.lang := Current();
        document.bodyDirection := Direction(rtl);
      }
    }

    /** The URL-sync effect: follow the route's locale once mounted. */
    method SyncUrlLocale(urlLocale: Option<string>)
      modifies engine`language
      ensures engine.language == UrlSyncedLanguage(isMounted, old(engine.language), urlLocale)
      ensures IsSupported(old(engine.language)) ==> IsSupported(engine.language)
    {
      if isMounted && Truthy(urlLocale) {
        if (urlLocale.value == "ar" || urlLocale.value == "en") && urlLocale.value != Current() {
          engine.ChangeLanguage(urlLocale.value);
        }
      }
    }
  }

  /**
   * Two hook instances on one page, both mounted: when one of them runs the
   * direction effect, the other sees the same document and the same
   * language; when one toggles, both push to the one router.
   */
  method SharedPage(engine: Engine, document: Document, router: Router)
    modifies engine`language, document, router
    ensures IsSupported(engine.language)
    ensures document.dir == (if engine.language == "ar" then "rtl" else "ltr")
    ensures router.history == old(router.history) + ["/" + engine.language]
  {
    var navbar := new LanguageCoordinator(engine, document, router);
    var hero := new LanguageCoordinator(engine, document, router);
    navbar.Mount();
    hero.Mount();
    navbar.ToggleLanguage();
    hero.ApplyDocumentDirection();
    assert navbar.Current() == hero.Current();
    assert navbar.DocumentMatches();
  }
}
