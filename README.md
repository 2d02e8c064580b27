# Locale coordination of the ENS menu landing site

This project models the small amount of logic in the ENS digital-menu site
that is not markup: how the site decides which of its two languages,
Arabic (`ar`, right to left) or English (`en`, left to right), is active.

- **`I18n`** (`i18n.dfy`) models `src/i18n/index.ts`. It holds the two
  registered locales and the default and fallback language (both Arabic).
  It also holds the process-wide translation engine as a class whose one
  mutable field is its language. At boot, when a browser window exists, the
  engine adopts the pathname's segment `split('/')[1]` if that segment is
  `ar` or `en`.
- **`UseLanguage`** (`use_language.dfy`) models the `useLanguage` hook in
  `src/hooks/useLanguage.ts` as a class `LanguageCoordinator`. Its own state
  is the mounted flag. It holds three objects by reference, shared with
  every other hook instance on the page:
  - the engine;
  - a `Document` with `dir`, `lang` and the body `direction`;
  - a `Router` that logs every `router.push` target.

  Methods model the mount effect, `toggleLanguage`, `setLanguage`, the
  document-direction effect and the URL-locale sync effect. The pure
  derivations `currentLanguage` and `isRTL` are functions. `SharedPage`
  shows two hook instances on one page seeing each other's writes.
- **`NavLinks`** (`nav_link.dfy`) models `src/components/NavLink.tsx`. It
  has the active-link predicate and the class list passed to `cn`.
- **`Strings`** (`strings.dfy`) models JavaScript's `split` and `join` for a
  one-character separator. Joining the parts of `Split` gives back the input.
  Splitting the join of a non-empty list of separator-free parts gives back
  that list. Splitting at the first separator is proved as a lemma, and the
  path-locale properties rest on it.
- **`Wrappers`** (`wrappers.dfy`) holds `Option`. `None` stands for
  JavaScript's `undefined`/`null`.

Notes on what the code does:
- `split('/')[1]` is the text between the first and second `/`. When the
  pathname has no second `/`, it runs to the end.
- The document-direction effect rewrites the attributes every time it runs,
  even when the language has not changed.
- `toggleLanguage` maps every language other than `ar` to `ar`. So toggling
  twice restores the starting language only when that language is `ar` or
  `en`.
- Before mount, `toggleLanguage` reads the current language as `ar`, so its
  target is always `en`, whatever the engine holds.

## Model

| member | source | states |
|---|---|---|
| `Strings.Split` | src/i18n/index.ts:38 | `split('/')` yields one more part than there are separators; no part contains a separator; joining the parts gives back the input |
| `Strings.SplitJoin` | src/i18n/index.ts:38 | joining a non-empty list of separator-free parts with `/` and splitting again gives back the list |
| `Strings.SplitAtFirst` | src/i18n/index.ts:38 | splitting `a + "/" + t` with no `/` in `a` gives `a` followed by the parts of `t` |
| `I18n.ParseLocale` | src/i18n/index.ts:39 | a code is accepted exactly when it is `ar` or `en`, and the accepted locale's tag is that code |
| `I18n.ParseTag` | src/i18n/index.ts:8-11 | parsing a registered locale's tag gives back that locale |
| `I18n.ConfigurationIsClosed` | src/i18n/index.ts:8-22 | default and fallback language are both `ar`; the registered catalogs are exactly the codes that parse as locales, and there are two |
| `I18n.PathLocale` | src/i18n/index.ts:38 | a segment `[1]` exists exactly when the pathname contains `/`, and it never contains `/` |
| `I18n.PathLocaleBetweenSlashes` | src/i18n/index.ts:38 | for `head/segment` followed by nothing or by `/...`, with no `/` in `head` or `segment`, the path locale is `segment` |
| `I18n.PathLocaleOfLoginPage` | src/i18n/index.ts:38 | `"/en/login"` yields `"en"` |
| `I18n.PathLocaleOfRoot` | src/i18n/index.ts:38 | `"/"` yields the empty segment, and `""` yields none |
| `I18n.BootSyncedLanguage` | src/i18n/index.ts:37-42 | after boot sync the language is the prior one, or the pathname's segment when a window exists and that segment is `ar` or `en` |
| `I18n.BootSyncChangesOnlyOnSupportedSegment` | src/i18n/index.ts:37-42 | boot sync changes the language if and only if a window exists, its segment is present and is `ar` or `en`, and it differs from the prior language; the new language is then that segment |
| `I18n.BootSyncServerSide` | src/i18n/index.ts:14 | without a window the language is unchanged |
| `I18n.BootSyncFromLocalePath` | src/i18n/index.ts:38-41 | a pathname `/<locale>` or `/<locale>/...` makes that locale the language |
| `I18n.BootSyncKeepsSupported` | src/i18n/index.ts:39-41 | starting from `ar` or `en`, the language after boot sync is `ar` or `en` |
| `I18n.Engine.Init` | src/i18n/index.ts:16-34 | the engine starts with language `ar`, fallback `ar` and catalogs `{ar, en}` |
| `I18n.Engine.ChangeLanguage` | src/hooks/useLanguage.ts:24 | the engine's language becomes the requested code |
| `I18n.Engine.SyncWithPath` | src/i18n/index.ts:37-42 | the new language is the boot-synced language of the old one; a registered language stays registered |
| `I18n.Boot` | src/i18n/index.ts:16-42 | a freshly booted engine holds the boot-synced language from `ar`, which is always `ar` or `en` |
| `UseLanguage.CurrentLanguage` | src/hooks/useLanguage.ts:19 | the current language is `ar` or the engine's language; it is registered whenever the engine's language is |
| `UseLanguage.IsRtl` | src/hooks/useLanguage.ts:20 | the layout is right to left exactly when the language parses as the Arabic locale |
| `UseLanguage.Direction` | src/hooks/useLanguage.ts:39-41 | the direction keyword is `rtl` or `ltr`, and it is `rtl` exactly for a right-to-left layout |
| `UseLanguage.Truthy` | src/hooks/useLanguage.ts:47 | a truthy URL locale is present and non-empty; every registered locale is truthy |
| `UseLanguage.UrlSyncedLanguage` | src/hooks/useLanguage.ts:46-52 | after the URL sync the language is unchanged, or, when mounted, it is the URL locale, which is then `ar` or `en` |
| `UseLanguage.BeforeMountIsArabic` | src/hooks/useLanguage.ts:19-20 | before mount the current language is `ar` and the layout is right to left, whatever the engine holds |
| `UseLanguage.DirectionFollowsLanguage` | src/hooks/useLanguage.ts:20 | the direction is `rtl` if and only if the language is `ar`, and `ltr` otherwise |
| `UseLanguage.ToggledLanguage` | src/hooks/useLanguage.ts:23 | the toggle target always differs from the current language; it is Arabic exactly when the current language is not `ar` |
| `UseLanguage.ToggleInvolution` | src/hooks/useLanguage.ts:22-28 | toggling twice from `ar` or `en` restores it |
| `UseLanguage.ToggleTwiceFromUnsupported` | src/hooks/useLanguage.ts:23 | from any other language the first toggle gives `ar` and the second `en` |
| `UseLanguage.UrlSyncChangesOnlyWhen` | src/hooks/useLanguage.ts:46-52 | the URL sync changes the language if and only if mounted, the URL locale is present and registered, and it differs from the current language |
| `UseLanguage.UrlSyncAdopts` | src/hooks/useLanguage.ts:48-49 | once mounted, the sync leaves the engine on the route's registered locale |
| `UseLanguage.UrlSyncIdempotent` | src/hooks/useLanguage.ts:48-49 | a second sync pass with the same URL locale changes nothing |
| `UseLanguage.Document.constructor` | src/hooks/useLanguage.ts:39-41 | the page's document starts with the given `dir`, `lang` and body direction |
| `UseLanguage.Router.constructor` | src/hooks/useLanguage.ts:7 | the page's router starts with an empty navigation log |
| `UseLanguage.Router.Push` | src/hooks/useLanguage.ts:27 | `router.push(href)` appends `href` to the navigation log |
| `UseLanguage.LanguageCoordinator.constructor` | src/hooks/useLanguage.ts:6-9 | a new hook instance is not mounted and is bound to the page's shared engine, document and router |
| `UseLanguage.LanguageCoordinator.Snapshot` | src/hooks/useLanguage.ts:54-60 | the returned language is `ar` before mount and the engine's language after; `isRTL` holds exactly for `ar` |
| `UseLanguage.LanguageCoordinator.Mount` | src/hooks/useLanguage.ts:15-17 | after mount the current language is the engine's language |
| `UseLanguage.LanguageCoordinator.ToggleLanguage` | src/hooks/useLanguage.ts:22-28 | the engine switches to the toggle target of the current language, which is registered and differs from it; `"/" + target` is pushed to the shared router |
| `UseLanguage.LanguageCoordinator.SetLanguage` | src/hooks/useLanguage.ts:30-35 | the engine holds the requested locale; `"/" + locale` is pushed to the shared router |
| `UseLanguage.LanguageCoordinator.ApplyDocumentDirection` | src/hooks/useLanguage.ts:37-43 | once mounted, the shared document's `dir` and body direction are `rtl` exactly for `ar` and `lang` is the current language; before mount the document is untouched |
| `UseLanguage.LanguageCoordinator.SyncUrlLocale` | src/hooks/useLanguage.ts:46-52 | the engine holds the URL-synced language; a registered language stays registered |
| `UseLanguage.SharedPage` | src/hooks/useLanguage.ts:22-43 | two mounted hook instances share one engine, document and router: after one toggles and the other runs the direction effect, the document's direction matches the shared language, and the one push is in the shared log |
| `NavLinks.IsActive` | src/components/NavLink.tsx:21-22 | an active link has a pathname, and `href` is a prefix of it |
| `NavLinks.ActiveIffSelfOrBelow` | src/components/NavLink.tsx:22 | a path is active if and only if it equals `href`, or it is longer, agrees with `href` up to its length and has `/` right after it |
| `NavLinks.ActiveOnOwnPath` | src/components/NavLink.tsx:22 | a link is active when the pathname equals `href` |
| `NavLinks.ActiveBelow` | src/components/NavLink.tsx:22 | a link is active on every path `href + "/" + rest` |
| `NavLinks.InactiveWithoutBoundary` | src/components/NavLink.tsx:22 | a path that extends `href` without a `/` right after it is not active |
| `NavLinks.LogIsNotLogin` | src/components/NavLink.tsx:22 | `/ar/log` is not active on `/ar/login` |
| `NavLinks.NoPathnameNeverActive` | src/components/NavLink.tsx:21-22 | with no pathname no link is active |
| `NavLinks.Kept` | src/components/NavLink.tsx:29 | a class value is kept exactly when it is present and non-empty, and then it is kept unchanged |
| `NavLinks.ClassNames` | src/components/NavLink.tsx:29 | the base class, when given and non-empty, always comes first; the active class is appended, as the only other class, if and only if the link is active and a non-empty active class is given |

## Left out

- React scheduling. The mount, direction and URL-sync effects are methods that a caller runs in any order. When effects re-run after a dependency change is not modelled.
- Next.js routing. `router.push` only appends its target to a navigation log. `useParams` becomes the `urlLocale` parameter, and a `[locale]` parameter holding an array is not modelled.
- i18next internals. `LanguageDetector`, `initReactI18next`, the detection order, localStorage caching, interpolation and React options are left out. `changeLanguage` is modelled as an immediate assignment; its promise and the loading of catalogs are not modelled.
- The translation catalogs `locales/ar.json` and `locales/en.json` are not part of this model. Only their registration under `ar` and `en` is modelled.
- `NavLinks.ClassNames`: models `cn` as keeping the non-empty class values in order. The `cn` helper in `src/lib/utils` is not part of this model. Tailwind conflict merging and joining the classes into one string are left out.
- NavLink's `pendingClassName` is never used by the component. `Link` rendering and ref forwarding are presentation.
- The section components (pricing, contact, footer, hero, navbar, how-it-works, features, trusted-by, why-us) and the language switcher's label are markup only. So are the contact form's toast-and-reset handler and the pricing and marquee list presentation.
- The login page, its session flag and the templates page's filter are not part of this model.
