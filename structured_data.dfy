/** The schema.org blocks a page embeds for search engines, and which of them
    each page type selects. Organization and FAQ blocks are the same in
    both languages; the professional-service address and the website's
    language tag follow the language. */
module StructuredData {
  import opened Wrappers
  import opened I18nTypes
  import opened Metadata

  datatype Offer = Offer(name: string, description: string)
  datatype Question = Question(name: string, answer: string)

  datatype Schema =
    | Organization(name: string, url: string, logo: string, description: string, email: string,
                   sameAs: seq<string>, addressCountry: string, areaServed: string,
                   catalogName: string, offers: seq<Offer>)
    | ProfessionalService(name: string, url: string, description: string,
                          serviceType: seq<string>, providerName: string)
    | FaqPage(questions: seq<Question>)
    | WebSite(name: string, url: string, description: string, inLanguage: string,
              publisherName: string, publisherLogo: string)

  /** The block's `@type`. */
  function TypeName(s: Schema): string {
    match s
    case Organization(_, _, _, _, _, _, _, _, _, _) => "HealthAndBeautyBusiness"
    case ProfessionalService(_, _, _, _, _) => "ProfessionalService"
    case FaqPage(_) => "FAQPage"
    case WebSite(_, _, _, _, _, _) => "WebSite"
  }

  /** The string with the first occurrence of `c` removed, as JavaScript's
      `replace` does with a one-character pattern. */
  function RemoveFirst(s: string, c: char): string {
    if s == [] then []
    else if s[0] == c then s[1..]
    else [s[0]] + RemoveFirst(s[1..], c)
  }

  /** Removing the first `c`: everything before it is kept, and everything after. */
  lemma {:induction false} RemoveFirstAt(s: string, c: char, k: nat)
    requires k < |s| && s[k] == c && c !in s[..k]
    ensures RemoveFirst(s, c) == s[..k] + s[k+1..]
  {
    if k > 0 {
      assert s[0] in s[..k];
      assert s[1..][..k-1] == s[1..k];
      RemoveFirstAt(s[1..], c, k - 1);
      assert s[..k] == [s[0]] + s[1..k];
    }
  }

  /** Without a `c` the string is left as it is. */
  lemma {:induction false} RemoveFirstAbsent(s: string, c: char)
    requires c !in s
    ensures RemoveFirst(s, c) == s
  {
    if s != [] {
      assert forall x :: x in s[1..] ==> x in s;
      RemoveFirstAbsent(s[1..], c);
    }
  }

  /** The Instagram link: the handle after its leading `@`. */
  function InstagramLink(): (link: string)
    ensures link == "https://instagram.com/" + SiteInstagram[1..]
  {
    RemoveFirstAt(SiteInstagram, '@', 0);
    "https://instagram.com/" + RemoveFirst(SiteInstagram, '@')
  }

  const OrganizationSchema := Organization(
    SiteName, SiteUrl, SiteUrl + "/azulita.svg", SiteDescription, SiteEmail,
    [InstagramLink()], "US", "United States", "Holistic Healing Services",
    [Offer("Homeopathy Consultation",
           "Individualized homeopathic treatment plans based on your complete health picture"),
     Offer("Reiki Healing Session",
           "Gentle energy healing to restore balance and promote deep relaxation"),
     Offer("Holistic Wellness Coaching",
           "Comprehensive guidance for mind, body, and spirit wellness")])

  /** The professional-service block; its address is the language's services page. */
  function ProfessionalServiceSchema(lang: Language): (s: Schema)
    ensures s.ProfessionalService? && s.url == SiteUrl + LangPath(lang) + "/services"
  {
    ProfessionalService(
      SiteName, SiteUrl + LangPath(lang) + "/services",
      "Professional homeopathy, reiki, and holistic wellness services",
      ["Homeopathy", "Reiki", "Holistic Wellness", "Energy Healing"], SiteName)
  }

  const FaqSchema := FaqPage([
    Question("What is homeopathy?",
      "Homeopathy is a natural healing system that uses gentle remedies tailored to your unique constitution and health needs. It treats the whole person rather than just symptoms."),
    Question("What is reiki?",
      "Reiki is an energy healing practice that promotes deep relaxation, reduces stress, and supports your body's natural healing processes through gentle touch and energy work."),
    Question("What services does Azulita Holistics offer?",
      "Azulita Holistics offers homeopathy consultations, reiki healing sessions, and holistic wellness coaching. All treatments are personalized to address your unique health needs.")])

  /** The website block's language tag. */
  function InLanguage(lang: Language): (tag: string)
    ensures tag == "es-ES" <==> lang == Es
    ensures tag == "en-US" <==> lang == En
  {
    assert "es-ES"[1] != "en-US"[1];
    match lang
    case En => "en-US"
    case Es => "es-ES"
  }

  /** The website block, tagged with the page's language. */
  function WebSiteSchema(lang: Language): (s: Schema)
    ensures s.WebSite? && s.url == SiteUrl && s.inLanguage == InLanguage(lang)
  {
    WebSite(SiteName, SiteUrl, SiteDescription, InLanguage(lang), SiteName, SiteUrl + "/azulita.svg")
  }

  /** The `@type` of each selected block, in order. */
  function Kinds(schemas: seq<Schema>): (kinds: seq<string>)
    ensures |kinds| == |schemas|
    ensures forall i :: 0 <= i < |schemas| ==> kinds[i] == TypeName(schemas[i])
  {
    if schemas == [] then [] else [TypeName(schemas[0])] + Kinds(schemas[1..])
  }

  /** The blocks a page embeds, in order. */
  function PageSchemas(pageType: Page, lang: Language): seq<Schema> {
    match pageType
    case Home => [OrganizationSchema, WebSiteSchema(lang), FaqSchema]
    case Services => [ProfessionalServiceSchema(lang), FaqSchema]
    case About => [OrganizationSchema]
  }

  /** The selection: blocks are appended branch by branch, as the page type
      decides (English when no language is given). */
  method SelectSchemas(pageType: Page, lang: Option<Language>) returns (schemas: seq<Schema>)
    ensures schemas == PageSchemas(pageType, lang.GetOr(En))
  {
    var l := lang.GetOr(En);
    schemas := [];
    if pageType == Home {
      schemas := schemas + [OrganizationSchema, WebSiteSchema(l), FaqSchema];
    } else if pageType == Services {
      schemas := schemas + [ProfessionalServiceSchema(l), FaqSchema];
    } else if pageType == About {
      schemas := schemas + [OrganizationSchema];
    }
  }

  /** Which blocks each page type selects, and in which order. */
  lemma SchemaOrder(pageType: Page, lang: Language)
    ensures pageType == Home ==> Kinds(PageSchemas(pageType, lang)) == ["HealthAndBeautyBusiness", "WebSite", "FAQPage"]
    ensures pageType == Services ==> Kinds(PageSchemas(pageType, lang)) == ["ProfessionalService", "FAQPage"]
    ensures pageType == About ==> Kinds(PageSchemas(pageType, lang)) == ["HealthAndBeautyBusiness"]
  {
  }

  /** The language-dependent fields: the service address and the website's
      language tag; the organization and the website keep the bare site address. */
  lemma SchemaFields(pageType: Page, lang: Language)
    ensures forall s :: s in PageSchemas(pageType, lang) && s.ProfessionalService? ==>
      s.url == SiteUrl + LangPath(lang) + "/services"
    ensures forall s :: s in PageSchemas(pageType, lang) && s.WebSite? ==> s.inLanguage == InLanguage(lang)
    ensures forall s :: s in PageSchemas(pageType, lang) && (s.Organization? || s.WebSite?) ==> s.url == SiteUrl
  {
  }

  /** The organization's profile link points at the site's Instagram handle. */
  lemma InstagramProfile()
    ensures OrganizationSchema.sameAs == ["https://instagram.com/azulitaholistics"]
  {
    assert SiteInstagram[1..] == "azulitaholistics";
    assert InstagramLink() == "https://instagram.com/" + "azulitaholistics";
    assert "https://instagram.com/" + "azulitaholistics" == "https://instagram.com/azulitaholistics";
    assert OrganizationSchema.sameAs == [InstagramLink()];
  }
}
