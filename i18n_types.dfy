/** The shared types of the site's internationalisation layer: the two
    supported languages and the shape of a content record. */
module I18nTypes {
  import opened Wrappers

  /** The closed set of supported languages: "en" | "es". */
  datatype Language = En | Es

  /** The language used when a caller gives none. */
  const DefaultLanguage: Language := En

  /** The string tag a language is written as in code and in storage. */
  function Tag(lang: Language): string {
    match lang
    case En => "en"
    case Es => "es"
  }

  /** Reads a stored string back as a language: only the exact tags are accepted. */
  function ParseLanguage(s: string): (r: Option<Language>)
    ensures r.Some? <==> (s == "en" || s == "es")
    ensures r.Some? ==> Tag(r.value) == s
  {
    if s == "en" then Some(En)
    else if s == "es" then Some(Es)
    else None
  }

  /** Writing a language and reading it back gives the same language. */
  lemma ParseTag(lang: Language)
    ensures ParseLanguage(Tag(lang)) == Some(lang)
  {
  }

  /** The nested content tree: a string leaf, an object with ordered named
      fields, or an array. */
  datatype Node = Str(text: string) | Obj(fields: seq<Field>) | List(items: seq<Node>)

  datatype Field = Field(key: string, value: Node)

  /** `s` occurs as a string leaf somewhere in `n`. */
  ghost predicate Contains(n: Node, s: string) {
    match n
    case Str(t) => t == s
    case Obj(fs) => exists i :: 0 <= i < |fs| && Contains(fs[i].value, s)
    case List(xs) => exists i :: 0 <= i < |xs| && Contains(xs[i], s)
  }
}
