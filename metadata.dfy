/** Page metadata: the site's fixed configuration, the per-language page
    texts, and the metadata record a page is rendered with (its canonical
    path, the alternate link of each language, the Open Graph and Twitter
    cards). The URL object the framework builds from the site address is
    modelled by the address string itself. */
module Metadata {
  import opened Wrappers
  import opened I18nTypes

  /** The three pages of the site. */
  datatype Page = Home | About | Services

  /** The page's name as it appears in its path. */
  function PageName(page: Page): string {
    match page
    case Home => "home"
    case About => "about"
    case Services => "services"
  }

  // ----- site configuration -----

  const SiteName := "Azulita Holistics"
  const SiteUrl := "https://azulitaholistics.com"
  const SiteDescription := "Professional homeopathy, reiki, and holistic healing services"
  const SiteInstagram := "@azulitaholistics"
  const SiteEmail := "azulitaholistics@gmail.com"

  // ----- per-language page texts -----

  datatype PageText = PageText(title: string, description: string, keywords: seq<string>)

  /** The title, description and keywords of a page in a language. */
  function PageTable(lang: Language, page: Page): PageText {
    match lang
    case En => (match page case Home => EnHomeText case About => EnAboutText case Services => EnServicesText)
    case Es => (match page case Home => EsHomeText case About => EsAboutText case Services => EsServicesText)
  }

  const EnHomeText := PageText(
      "Azulita Holistics | Natural Healing & Wellness",
      "Professional homeopathy, reiki, and holistic healing services. Natural, gentle treatments tailored to your unique health needs.",
      ["homeopathy", "reiki", "holistic healing", "natural medicine", "energy healing",
       "wellness", "alternative medicine", "natural remedies", "holistic health"])

  const EnAboutText := PageText(
      "About | Azulita Holistics",
      "Learn about our compassionate approach to natural healing through homeopathy and reiki. Personalized wellness care treating the whole person.",
      ["holistic practitioner", "homeopathy specialist", "reiki master", "natural healing",
       "personalized wellness", "holistic approach"])

  const EnServicesText := PageText(
      "Services | Azulita Holistics",
      "Homeopathy consultations, reiki sessions, and holistic wellness coaching. Individualized natural healing treatments for mind, body, and spirit.",
      ["homeopathy consultation", "reiki session", "wellness coaching", "natural healing services",
       "energy healing", "chakra balancing", "holistic treatment"])

  const EsHomeText := PageText(
      "Azulita Holistics | Sanación Natural y Bienestar",
      "Servicios profesionales de homeopatía, reiki y sanación holística. Tratamientos naturales y suaves adaptados a tus necesidades únicas de salud.",
      ["homeopatía", "reiki", "sanación holística", "medicina natural", "sanación energética",
       "bienestar", "medicina alternativa", "remedios naturales", "salud holística"])

  const EsAboutText := PageText(
      "Sobre Mí | Azulita Holistics",
      "Conoce nuestro enfoque compasivo hacia la sanación natural a través de la homeopatía y el reiki. Cuidado personalizado tratando a la persona completa.",
      ["practicante holístico", "especialista en homeopatía", "maestro de reiki", "sanación natural",
       "bienestar personalizado", "enfoque holístico"])

  const EsServicesText := PageText(
      "Servicios | Azulita Holistics",
      "Consultas de homeopatía, sesiones de reiki y coaching de bienestar holístico. Tratamientos naturales individualizados para mente, cuerpo y espíritu.",
      ["consulta de homeopatía", "sesión de reiki", "coaching de bienestar", "servicios de sanación natural",
       "sanación energética", "equilibrio de chakras", "tratamiento holístico"])

  // ----- paths -----

  /** The language's path prefix: `/es` for Spanish, nothing for English. */
  function LangPath(lang: Language): (p: string)
    ensures p == "/es" <==> lang == Es
    ensures |p| == 0 <==> lang == En
  {
    match lang
    case En => ""
    case Es => "/es"
  }

  /** The page's path below the language prefix: nothing for the home page. */
  function PagePath(page: Page): (p: string)
    ensures p == "" <==> page == Home
    ensures page != Home ==> p == "/" + PageName(page)
  {
    if page == Home then "" else "/" + PageName(page)
  }

  // ----- the metadata record -----

  datatype FormatDetection = FormatDetection(email: bool, address: bool, telephone: bool)
  datatype Alternates = Alternates(canonical: string, en: string, es: string)
  datatype Image = Image(url: string, width: int, height: int, alt: string)
  datatype OpenGraph = OpenGraph(title: string, description: string, url: string, siteName: string,
                                 locale: string, kind: string, images: seq<Image>)
  datatype Twitter = Twitter(card: string, title: string, description: string, images: seq<string>)
  datatype GoogleBot = GoogleBot(index: bool, follow: bool, maxVideoPreview: int,
                                 maxImagePreview: string, maxSnippet: int)
  datatype Robots = Robots(index: bool, follow: bool, googleBot: GoogleBot)
  datatype PageMetadata = PageMetadata(
    title: string, description: string, keywords: seq<string>,
    authors: seq<string>, creator: string, publisher: string,
    formatDetection: FormatDetection, metadataBase: string,
    alternates: Alternates, openGraph: OpenGraph, twitter: Twitter, robots: Robots)

  /** The canonical path of a page and the alternate path of each language. */
  function PageAlternates(page: Page, lang: Language): (a: Alternates)
    ensures a.canonical == LangPath(lang) + PagePath(page)
    ensures a.canonical == "" <==> lang == En && page == Home
    ensures lang == Es ==> a.canonical == a.es
    ensures lang == En && page != Home ==> a.canonical == a.en
    ensures a.en == if page == Home then "/" else "/" + PageName(page)
    ensures a.es == "/es" + PagePath(page)
  {
    var pagePath := PagePath(page);
    Alternates(LangPath(lang) + pagePath, if pagePath == "" then "/" else pagePath, "/es" + pagePath)
  }

  /** The Open Graph locale of a language. */
  function Locale(lang: Language): (s: string)
    ensures s == "es_ES" <==> lang == Es
    ensures s == "en_US" <==> lang == En
  {
    assert "es_ES"[1] != "en_US"[1];
    match lang
    case En => "en_US"
    case Es => "es_ES"
  }

  /** The metadata of `page` in `lang` (English when no language is given). */
  function GeneratePageMetadata(page: Page, lang: Option<Language>): (m: PageMetadata)
    // the page's texts, reused unchanged by both cards
    ensures m.title == PageTable(lang.GetOr(En), page).title
    ensures m.description == PageTable(lang.GetOr(En), page).description
    ensures m.keywords == PageTable(lang.GetOr(En), page).keywords
    ensures m.openGraph.title == m.title && m.twitter.title == m.title
    ensures m.openGraph.description == m.description && m.twitter.description == m.description
    // the paths, and the card's address: the site address followed by the canonical path
    ensures m.alternates == PageAlternates(page, lang.GetOr(En))
    ensures m.openGraph.url == SiteUrl + m.alternates.canonical
    ensures m.metadataBase == SiteUrl
    ensures m.openGraph.locale == Locale(lang.GetOr(En))
  {
    var l := lang.GetOr(En);
    var text := PageTable(l, page);
    var alternates := PageAlternates(page, l);
    PageMetadata(
      text.title, text.description, text.keywords,
      [SiteName], SiteName, SiteName,
      FormatDetection(false, false, false),
      SiteUrl,
      alternates,
      OpenGraph(text.title, text.description, SiteUrl + LangPath(l) + PagePath(page), SiteName,
                Locale(l), "website",
                [Image("/og-image.png", 1200, 630, SiteName + " - Natural Healing & Wellness")]),
      Twitter("summary_large_image", text.title, text.description, ["/og-image.png"]),
      Robots(true, true, GoogleBot(true, true, -1, "large", -1)))
  }

  /** Both languages of a page announce the same pair of alternates. */
  lemma AlternatesShared(page: Page, a: Language, b: Language)
    ensures PageAlternates(page, a).en == PageAlternates(page, b).en
    ensures PageAlternates(page, a).es == PageAlternates(page, b).es
  {
  }

  /** The canonical path is one of the two alternates, except on the English
      home page, whose canonical path is empty and whose alternate is `/`. */
  lemma CanonicalIsAlternate(page: Page, lang: Language)
    ensures var a := PageAlternates(page, lang);
      (a.canonical == a.en || a.canonical == a.es) <==> !(lang == En && page == Home)
  {
  }

  /** The second character of a canonical path tells the namespace: only
      Spanish paths have an `e` there. */
  lemma NamespaceMark(p: Page, a: Language)
    ensures var u := PageAlternates(p, a).canonical; (|u| >= 2 && u[1] == 'e') <==> a == Es
  {
    var u := PageAlternates(p, a).canonical;
    if a == En && p != Home {
      assert u == "/" + PageName(p);
      assert u[1] == PageName(p)[0];
    }
  }

  /** Different pages or languages never share a canonical path. */
  lemma CanonicalInjective(p: Page, a: Language, q: Page, b: Language)
    ensures PageAlternates(p, a).canonical == PageAlternates(q, b).canonical <==> p == q && a == b
  {
    var u := PageAlternates(p, a).canonical;
    var v := PageAlternates(q, b).canonical;
    if u == v {
      NamespaceMark(p, a);
      NamespaceMark(q, b);
      assert PagePath(p) == u[|LangPath(a)|..];
      assert PagePath(q) == v[|LangPath(b)|..];
    }
  }
}
