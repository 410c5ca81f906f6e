/** How the pieces fit together: the toggle moves between the two alternates
    a page announces, the structured-data service address is the services
    page's canonical address, and the two providers of the layouts (the
    root one, English by default, and the one nested under the Spanish
    pages) keep separate state over one store. */
module SiteConsistency {
  import opened Wrappers
  import opened I18nTypes
  import opened LanguageContext
  import opened LanguageToggle
  import opened UseLanguage
  import Content
  import opened Metadata
  import opened StructuredData

  /** Toggling on a page's English alternate leads to its Spanish alternate,
      and back. */
  lemma ToggleLinksAlternates(page: Page, lang: Language)
    ensures var a := PageAlternates(page, lang);
      NavigationTarget(Es, a.en) == Some(a.es) && NavigationTarget(En, a.es) == Some(a.en)
  {
    var a := PageAlternates(page, lang);
    assert !StartsWithEs(a.en) by {
      if page != Home {
        assert a.en[1] == PageName(page)[0];
      }
    }
    assert StartsWithEs(a.es) && |a.es| >= 3;
    if page == Home {
      assert a.es == "/es" && a.en == "/";
      assert ToEn(a.es) == "/";
    } else {
      assert a.es[3..] == a.en;
    }
  }

  /** The toggle's namespace test and the metadata agree on the language of
      every canonical path. */
  lemma CanonicalNamespace(page: Page, lang: Language)
    ensures StartsWithEs(PageAlternates(page, lang).canonical) <==> lang == Es
  {
    NamespaceMark(page, lang);
    var u := PageAlternates(page, lang).canonical;
    if StartsWithEs(u) {
      assert u[1] == "/es"[1];
    }
  }

  /** The professional-service block points at the services page's canonical address. */
  lemma ServiceUrlIsCanonical(lang: Language)
    ensures ProfessionalServiceSchema(lang).url == SiteUrl + PageAlternates(Services, lang).canonical
  {
    assert PagePath(Services) == "/services";
    assert SiteUrl + LangPath(lang) + "/services" == SiteUrl + (LangPath(lang) + "/services");
  }

  /** On a Spanish page, before either provider has mounted: the toggle
      buttons sit in the shared layout, whose only enclosing provider is the
      root one, so the toggle flips the root provider to Spanish and, the
      path being in the Spanish namespace already, asks for no navigation.
      The provider nested around the Spanish page stays Spanish, and nothing
      reaches the store. */
  method SpanishLayoutToggle(store: Storage) returns (rootLang: Language, nestedLang: Language, navigation: Option<string>)
    modifies store
    ensures rootLang == Es && nestedLang == Es
    ensures navigation == None
    ensures store.entries == old(store.entries)
  {
    var root := new LanguageProvider(None, store);
    var nested := new LanguageProvider(Some(Es), store);
    var toggled := UseLanguageContext([root]);
    var provider := toggled.value;
    assert "/es/services"[..3] == "/es";
    rootLang, navigation := ToggleLanguage(provider, "/es/services");
    nestedLang := nested.language;
  }

  /** With a working store, a language set after mounting is the one a later
      visit's provider comes back to, and its content is that language's record. */
  method LanguageSurvivesReload(store: Storage) returns (restored: Language, content: Node)
    requires !store.readThrows && !store.writeThrows
    modifies store
    ensures restored == Es
    ensures content == Content.GetContent(Es)
  {
    var first := new LanguageProvider(None, store);
    first.Reconcile();
    first.SetLanguage(Es);
    var later := new LanguageProvider(None, store);
    later.Reconcile();
    PersistThenReconcile(old(store.entries), Es, En);
    restored := later.language;
    content := View(later).content;
  }
}
