/** The two localized content records and the lookup from a language to its
    record. Each record is written as named sub-records so that a lookup only
    opens the part it walks through.  */
module Content {
  import opened I18nTypes

  // ----- English -----

  const EnNav: Node := Obj([
    Field("home", Str("Home")),
    Field("about", Str("About")),
    Field("services", Str("Services"))])

  const EnHero: Node := Obj([
    Field("title", Str("Azulita Holistics")),
    Field("tagline", Str("Homeopathy · Wellness Coaching · Reiki")),
    Field("cta", Str("BOOK YOUR CONSULTATION"))])

  const EnHome: Node := Obj([Field("hero", EnHero)])

  const EnHomeopathy: Node := Obj([
    Field("title", Str("Homeopathy")),
    Field("price", Str("$85.00 (initial session + 2 follow-ups)")),
    Field("note", Str("Note: I am in the process of becoming a certified homeopath. Currently, I work with patients with the guidance of my mentor."))])

  const EnCoaching: Node := Obj([
    Field("title", Str("Wellness Coaching")),
    Field("price", Str("$65.00 (60 min), $90.00 (90 min)"))])

  const EnReiki: Node := Obj([
    Field("title", Str("Reiki")),
    Field("price", Str("$60.00 (60 min), $80.00 (90 min)"))])

  const EnServiceList: Node := List([EnHomeopathy, EnCoaching, EnReiki])

  const EnServices: Node := Obj([
    Field("title", Str("Services")),
    Field("services", EnServiceList)])

  const EnAbout: Node := Obj([
    Field("title", Str("About Me")),
    Field("contact", Str("Or email me at "))])

  const EnFooter: Node := Obj([
    Field("contact", Obj([
      Field("title", Str("Get in Touch")),
      Field("email", Str("azulitaholistics@gmail.com")),
      Field("instagram", Str("@azulitaholistics"))]))])

  /** The English record, its sections in the order they are written. */
  const EnContent: Node := Obj([
    Field("nav", EnNav), Field("home", EnHome), Field("services", EnServices),
    Field("about", EnAbout), Field("footer", EnFooter)])

  // ----- Spanish -----

  const EsNav: Node := Obj([
    Field("home", Str("Inicio")),
    Field("about", Str("Sobre Mí")),
    Field("services", Str("Servicios"))])

  const EsHero: Node := Obj([
    Field("title", Str("Azulita Holistics")),
    Field("tagline", Str("Homeopatía · Coaching Holístico · Reiki")),
    Field("cta", Str("AGENDA TU CONSULTA"))])

  const EsHome: Node := Obj([Field("hero", EsHero)])

  const EsHomeopathy: Node := Obj([
    Field("title", Str("Homeopatía")),
    Field("price", Str("$85.00 (sesión inicial + 2 seguimientos)")),
    Field("note", Str("Nota: Estoy en el proceso de certificarme como homeópata. Por el momento, trabajo con pacientes con la guía de mi mentora."))])

  const EsCoaching: Node := Obj([
    Field("title", Str("Coaching Holístico")),
    Field("price", Str("$65.00 (60 min), $90.00 (90 min)"))])

  const EsReiki: Node := Obj([
    Field("title", Str("Reiki")),
    Field("price", Str("$60.00 (60 min), $80.00 (90 min)"))])

  const EsServiceList: Node := List([EsHomeopathy, EsCoaching, EsReiki])

  const EsServices: Node := Obj([
    Field("title", Str("Servicios")),
    Field("services", EsServiceList)])

  const EsFooter: Node := Obj([
    Field("contact", Obj([
      Field("title", Str("Contáctame")),
      Field("email", Str("azulitaholistics@gmail.com")),
      Field("instagram", Str("@azulitaholistics"))]))])

  const EsAbout: Node := Obj([
    Field("title", Str("Sobre Mí")),
    Field("contact", Str("O escríbame al correo "))])

  /** The Spanish record; its `footer` section is written before `about`. */
  const EsContent: Node := Obj([
    Field("nav", EsNav), Field("home", EsHome), Field("services", EsServices),
    Field("footer", EsFooter), Field("about", EsAbout)])

  /** The record for a language; total because every language has one. */
  function GetContent(lang: Language): (c: Node)
    ensures c.Obj? && |c.fields| == 5
  {
    match lang
    case En => EnContent
    case Es => EsContent
  }

  /** The two records are distinct, so the record identifies the language. */
  lemma GetContentInjective(a: Language, b: Language)
    ensures GetContent(a) == GetContent(b) <==> a == b
  {
    assert EnNav.fields[0].value == Str("Home");
    assert EsNav.fields[0].value == Str("Inicio");
  }
}
