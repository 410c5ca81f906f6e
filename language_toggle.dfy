/** The language toggle shared by the navigation button and the language
    banner: flip the language, set it on the provider, then compute where
    the router should go. */
module LanguageToggle {
  import opened Wrappers
  import opened I18nTypes
  import opened LanguageContext

  /** The language the toggle switches to. */
  function Opposite(lang: Language): (r: Language)
    ensures r != lang
  {
    if lang == En then Es else En
  }

  lemma OppositeInvolution(lang: Language)
    ensures Opposite(Opposite(lang)) == lang
  {
  }

  /** The Spanish-namespace test as written: a raw string prefix check, so it
      does not look at the segment boundary after "/es". */
  predicate StartsWithEs(path: string) {
    "/es" <= path
  }

  /** The Spanish path for a path outside the namespace: the root becomes
      "/es", any other path gets "/es" in front. */
  function ToEs(path: string): (r: string)
    ensures StartsWithEs(r)
    ensures path == "/" ==> r == "/es"
    ensures path != "/" ==> r[3..] == path
  {
    if path == "/" then "/es" else "/es" + path
  }

  /** The English path: a leading "/es" is removed (anything else is kept),
      and an empty remainder becomes the root. */
  function ToEn(path: string): (r: string)
    ensures r != ""
    ensures path == "" ==> r == "/"
    ensures StartsWithEs(path) && |path| > 3 ==> r == path[3..]
    ensures StartsWithEs(path) && |path| == 3 ==> r == "/"
    ensures !StartsWithEs(path) && path != "" ==> r == path
  {
    var stripped := if StartsWithEs(path) then path[3..] else path;
    if stripped == "" then "/" else stripped
  }

  /** The navigation the toggle requests after switching to `newLang` on
      `path`; None when the path is already in the target namespace. */
  function NavigationTarget(newLang: Language, path: string): Option<string> {
    match newLang
    case Es => if !StartsWithEs(path) then Some(ToEs(path)) else None
    case En => if StartsWithEs(path) then Some(ToEn(path)) else None
  }

  /** The path the browser shows once the toggle's navigation (if any) is done. */
  function PathAfter(newLang: Language, path: string): string {
    NavigationTarget(newLang, path).GetOr(path)
  }

  /** A navigation is issued exactly when the path is outside the target
      namespace, and it goes to the rewritten path. */
  lemma NavigatesIffOutsideTarget(newLang: Language, path: string)
    ensures NavigationTarget(newLang, path).Some? <==> (StartsWithEs(path) <==> newLang == En)
    ensures newLang == Es && !StartsWithEs(path) ==> NavigationTarget(newLang, path) == Some(ToEs(path))
    ensures newLang == En && StartsWithEs(path) ==> NavigationTarget(newLang, path) == Some(ToEn(path))
  {
  }

  /** The English rewrite removes exactly the leading "/es". */
  lemma ToEnStripsPrefix(path: string)
    requires StartsWithEs(path)
    ensures path == "/es" ==> ToEn(path) == "/"
    ensures path != "/es" ==> "/es" + ToEn(path) == path
  {
    if path != "/es" {
      assert path == path[..3] + path[3..];
    }
  }

  /** Round trip: a non-empty path outside the Spanish namespace comes back
      unchanged from its Spanish form. */
  lemma EsThenEn(path: string)
    requires path != "" && !StartsWithEs(path)
    ensures ToEn(ToEs(path)) == path
  {
    if path != "/" {
      assert ToEs(path)[3..] == path;
    }
  }

  /** The other round trip: a Spanish path comes back from its English form,
      except "/es/", whose English form "/" goes back to "/es". */
  lemma EnThenEs(path: string)
    requires StartsWithEs(path) && path != "/es/"
    ensures ToEs(ToEn(path)) == path
  {
    ToEnStripsPrefix(path);
  }

  /** The two paths where a round trip does not return to its start. */
  lemma RoundTripExceptions()
    ensures ToEn(ToEs("")) == "/"
    ensures ToEs(ToEn("/es/")) == "/es"
  {
    assert ToEs("") == "/es";
    assert ToEn("/es/") == "/";
  }

  /** After switching to Spanish the path is always in the Spanish namespace;
      after switching to English it has left it unless the remainder after
      the first "/es" itself starts with "/es". */
  lemma NamespaceAfterToggle(path: string)
    ensures StartsWithEs(PathAfter(Es, path))
    ensures StartsWithEs(path) ==> (StartsWithEs(PathAfter(En, path)) <==> StartsWithEs(path[3..]))
    ensures !StartsWithEs(path) ==> PathAfter(En, path) == path
  {
  }

  /** Because the test is a plain prefix, "/espanol" counts as Spanish: no
      navigation towards Spanish, and "panol" towards English. */
  lemma EspanolCountsAsSpanish()
    ensures StartsWithEs("/espanol")
    ensures NavigationTarget(Es, "/espanol") == None
    ensures NavigationTarget(En, "/espanol") == Some("panol")
  {
  }

  /** Flips the provider's language, sets it (and persists it when on the
      client), and only then computes the navigation request. */
  method ToggleLanguage(provider: LanguageProvider, pathname: string) returns (newLang: Language, navigation: Option<string>)
    modifies provider, provider.store
    ensures newLang == Opposite(old(provider.language))
    ensures provider.language == newLang && provider.isClient == old(provider.isClient)
    ensures provider.store.entries == Persisted(old(provider.store.entries), old(provider.isClient), old(provider.store.writeThrows), newLang)
    ensures provider.store.readThrows == old(provider.store.readThrows)
    ensures provider.store.writeThrows == old(provider.store.writeThrows)
    ensures navigation == NavigationTarget(newLang, pathname)
  {
    newLang := if provider.language == En then Es else En;
    provider.SetLanguage(newLang);
    navigation := None;
    if newLang == Es {
      if !StartsWithEs(pathname) {
        navigation := Some(ToEs(pathname));
      }
    } else {
      if StartsWithEs(pathname) {
        navigation := Some(ToEn(pathname));
      }
    }
  }

  /** The link helper of the navigation bar and the hero section: a plain
      "/es" prefix in Spanish, so the root maps to "/es/", unlike the toggle. */
  function LocalizedPath(lang: Language, path: string): (r: string)
    ensures lang == En ==> r == path
    ensures lang == Es ==> StartsWithEs(r) && r[3..] == path
  {
    if lang == Es then "/es" + path else path
  }

  /** The link helper and the toggle agree on every path but the root. */
  lemma LocalizedPathVersusToggle(path: string)
    requires !StartsWithEs(path)
    ensures path != "/" ==> LocalizedPath(Es, path) == ToEs(path)
    ensures LocalizedPath(Es, "/") == "/es/" && ToEs("/") == "/es"
  {
  }
}
