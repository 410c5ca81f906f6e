/** The consumer hook: the content record of the provider's language, and
    `t`, which walks a dot-separated key path through that record and falls
    back to the key path itself. */
module UseLanguage {
  import opened Wrappers
  import opened I18nTypes
  import opened Content
  import opened LanguageContext

  // ----- keyPath.split('.') -----

  /** The parts of `s` between dots, empty parts included, as string split does. */
  function Split(s: string): (parts: seq<string>)
    ensures |parts| >= 1
  {
    if s == [] then [""]
    else
      var rest := Split(s[1..]);
      if s[0] == '.' then [""] + rest
      else [[s[0]] + rest[0]] + rest[1..]
  }

  /** No part of a split contains the separator. */
  lemma {:induction false} SplitPartsDotFree(s: string)
    ensures forall i :: 0 <= i < |Split(s)| ==> '.' !in Split(s)[i]
  {
    if s != [] {
      SplitPartsDotFree(s[1..]);
      var rest := Split(s[1..]);
      if s[0] != '.' {
        assert Split(s)[0] == [s[0]] + rest[0];
        assert forall i :: 1 <= i < |Split(s)| ==> Split(s)[i] == rest[i];
      } else {
        assert forall i :: 1 <= i < |Split(s)| ==> Split(s)[i] == rest[i - 1];
      }
    }
  }

  /** The parts joined back with dots. */
  function Join(parts: seq<string>): string
    requires |parts| >= 1
  {
    if |parts| == 1 then parts[0] else parts[0] + "." + Join(parts[1..])
  }

  lemma {:induction false} JoinSplit(s: string)
    ensures Join(Split(s)) == s
  {
    if s != [] {
      var rest := Split(s[1..]);
      JoinSplit(s[1..]);
      if s[0] == '.' {
        assert Split(s) == [""] + rest;
        assert Split(s)[1..] == rest;
      } else {
        var parts := Split(s);
        assert parts == [[s[0]] + rest[0]] + rest[1..];
        if |rest| == 1 {
          assert parts[0] == [s[0]] + s[1..];
        } else {
          assert parts[1..] == rest[1..];
          assert Join(rest) == rest[0] + "." + Join(rest[1..]);
          assert Join(parts) == ([s[0]] + rest[0]) + "." + Join(rest[1..]);
        }
        assert s == [s[0]] + s[1..];
      }
    }
  }

  /** Splitting a dot-joined list of dot-free parts gives back the parts. */
  lemma {:induction false} SplitJoin(parts: seq<string>)
    requires |parts| >= 1
    requires forall i :: 0 <= i < |parts| ==> '.' !in parts[i]
    ensures Split(Join(parts)) == parts
  {
    if |parts| == 1 {
      SplitDotFree(parts[0], []);
    } else {
      SplitJoin(parts[1..]);
      SplitDotFree(parts[0], parts[1..]);
      assert [""] + parts[1..] == [""] + Split(Join(parts[1..]));
      assert parts == [parts[0]] + parts[1..];
    }
  }

  /** A dot-free prefix becomes the first part of what follows it. */
  lemma {:induction false} SplitDotFree(w: string, tail: seq<string>)
    requires '.' !in w
    ensures tail == [] ==> Split(w) == [w]
    ensures tail != [] ==> (forall i :: 0 <= i < |tail| ==> '.' !in tail[i]) ==>
      Split(w + "." + Join(tail)) == [w] + Split(Join(tail))
  {
    if w == [] {
      if tail != [] {
        assert w + "." + Join(tail) == "." + Join(tail);
        assert ("." + Join(tail))[1..] == Join(tail);
      }
    } else {
      assert w[0] != '.';
      SplitDotFree(w[1..], tail);
      if tail == [] {
        assert Split(w[1..]) == [w[1..]];
        assert w == [w[0]] + w[1..];
      } else {
        var s := w + "." + Join(tail);
        assert s[0] == w[0];
        assert s[1..] == w[1..] + "." + Join(tail);
        assert w == [w[0]] + w[1..];
      }
    }
  }

  // ----- `key in value` on an array: canonical index keys -----

  function DigitValue(c: char): nat
    requires '0' <= c <= '9'
  {
    (c as int - '0' as int) as nat
  }

  function DigitChar(d: nat): (c: char)
    requires d < 10
    ensures '0' <= c <= '9' && DigitValue(c) == d
  {
    ('0' as int + d) as char
  }

  predicate AllDigits(s: string) {
    forall i :: 0 <= i < |s| ==> '0' <= s[i] <= '9'
  }

  /** The number a string of decimal digits denotes. */
  function DecimalValue(s: string): nat
    requires AllDigits(s)
  {
    if s == [] then 0 else 10 * DecimalValue(s[..|s| - 1]) + DigitValue(s[|s| - 1])
  }

  /** The decimal rendering of an index, as JavaScript writes a number. */
  function IndexKey(i: nat): (k: string)
    ensures |k| >= 1 && AllDigits(k)
    decreases i
  {
    if i < 10 then [DigitChar(i)] else IndexKey(i / 10) + [DigitChar(i % 10)]
  }

  /** The array index a property key names: only canonical decimal strings
      ("0", "1", ..., no sign, no leading zero) are indices. */
  function ArrayIndex(key: string): Option<nat> {
    if |key| >= 1 && AllDigits(key) && (key[0] != '0' || |key| == 1)
    then Some(DecimalValue(key)) else None
  }

  lemma {:induction false} IndexKeyLeading(i: nat)
    ensures i > 0 ==> IndexKey(i)[0] != '0'
    decreases i
  {
    if i >= 10 {
      IndexKeyLeading(i / 10);
    }
  }

  lemma {:induction false} DecimalOfIndexKey(i: nat)
    ensures DecimalValue(IndexKey(i)) == i
    decreases i
  {
    if i >= 10 {
      DecimalOfIndexKey(i / 10);
      var k := IndexKey(i);
      assert k[..|k| - 1] == IndexKey(i / 10);
    }
  }

  /** Every index is named by its own decimal rendering. */
  lemma IndexKeyRoundTrip(i: nat)
    ensures ArrayIndex(IndexKey(i)) == Some(i)
  {
    IndexKeyLeading(i);
    DecimalOfIndexKey(i);
  }

  lemma {:induction false} LeadingNonZeroPositive(s: string)
    requires |s| >= 1 && AllDigits(s) && s[0] != '0'
    ensures DecimalValue(s) > 0
    decreases |s|
  {
    if |s| > 1 {
      var p := s[..|s| - 1];
      assert p[0] == s[0];
      LeadingNonZeroPositive(p);
    }
  }

  /** Every key that names an index is that index's decimal rendering. */
  lemma {:induction false} ArrayIndexCanonical(key: string)
    requires ArrayIndex(key).Some?
    ensures IndexKey(ArrayIndex(key).value) == key
    decreases |key|
  {
    var v := DecimalValue(key);
    if |key| > 1 {
      var p := key[..|key| - 1];
      var d := DigitValue(key[|key| - 1]);
      assert p[0] == key[0];
      assert ArrayIndex(p) == Some(DecimalValue(p));
      ArrayIndexCanonical(p);
      LeadingNonZeroPositive(p);
      assert v == 10 * DecimalValue(p) + d;
      assert v / 10 == DecimalValue(p) && v % 10 == d;
      assert DigitChar(d) == key[|key| - 1];
      assert key == p + [key[|key| - 1]];
    } else {
      assert key[..|key| - 1] == [];
      assert DecimalValue(key[..|key| - 1]) == 0;
      assert v == DigitValue(key[0]);
      assert DigitChar(v) == key[0];
    }
  }

  // ----- walking the content tree -----

  /** The value of the first field named `key`. */
  function FieldLookup(fields: seq<Field>, key: string): Option<Node> {
    if fields == [] then None
    else if fields[0].key == key then Some(fields[0].value)
    else FieldLookup(fields[1..], key)
  }

  /** A field is found exactly when one has the name, and what is found is
      the value of a field with that name. */
  lemma {:induction false} FieldLookupFinds(fields: seq<Field>, key: string)
    ensures FieldLookup(fields, key).Some? <==> exists i :: 0 <= i < |fields| && fields[i].key == key
    ensures FieldLookup(fields, key).Some? ==>
      exists i :: 0 <= i < |fields| && fields[i].key == key && fields[i].value == FieldLookup(fields, key).value
  {
    if fields != [] && fields[0].key != key {
      FieldLookupFinds(fields[1..], key);
      assert forall i :: 0 < i < |fields| ==> fields[i] == fields[1..][i - 1];
      if FieldLookup(fields, key).Some? {
        var j :| 0 <= j < |fields[1..]| && fields[1..][j].key == key && fields[1..][j].value == FieldLookup(fields, key).value;
        assert fields[j + 1] == fields[1..][j];
      }
    }
  }

  /** One step `value[key]`, taken only when `value` is an object or array
      that has `key`: a string leaf has no properties. */
  function Child(n: Node, key: string): Option<Node> {
    match n
    case Str(_) => None
    case Obj(fs) => FieldLookup(fs, key)
    case List(xs) =>
      match ArrayIndex(key)
      case Some(i) => if i < |xs| then Some(xs[i]) else None
      case None => None
  }

  /** The node reached by following `keys` from `n`, if every step exists. */
  function Walk(n: Node, keys: seq<string>): Option<Node>
    decreases |keys|
  {
    if keys == [] then Some(n)
    else
      match Child(n, keys[0])
      case None => None
      case Some(c) => Walk(c, keys[1..])
  }

  lemma {:induction false} WalkAppend(n: Node, a: seq<string>, b: seq<string>)
    ensures Walk(n, a + b) == match Walk(n, a) case None => None case Some(m) => Walk(m, b)
    decreases |a|
  {
    if a != [] {
      assert (a + b)[0] == a[0] && (a + b)[1..] == a[1..] + b;
      match Child(n, a[0]) {
        case None =>
        case Some(c) => WalkAppend(c, a[1..], b);
      }
    } else {
      assert a + b == b;
    }
  }

  lemma ChildContains(n: Node, key: string, s: string)
    requires Child(n, key).Some? && Contains(Child(n, key).value, s)
    ensures Contains(n, s)
  {
    match n {
      case Obj(fs) =>
        FieldLookupFinds(fs, key);
        var i :| 0 <= i < |fs| && fs[i].key == key && fs[i].value == Child(n, key).value;
      case List(xs) =>
    }
  }

  /** Whatever string a walk reaches is stored somewhere in the tree it started from. */
  lemma {:induction false} WalkContains(n: Node, keys: seq<string>, s: string)
    requires Walk(n, keys) == Some(Str(s))
    ensures Contains(n, s)
    decreases |keys|
  {
    if keys != [] {
      var c := Child(n, keys[0]).value;
      WalkContains(c, keys[1..], s);
      ChildContains(n, keys[0], s);
    }
  }

  /** What `t(keyPath)` returns on `content`: the string the path leads to,
      else the key path itself (missing key, a step into a string, or a
      path ending on an object or array). */
  function Lookup(content: Node, keyPath: string): string {
    match Walk(content, Split(keyPath))
    case Some(Str(s)) => s
    case _ => keyPath
  }

  /** `t` never invents text: its result is the key path or a string stored in the content. */
  lemma LookupStoredOrKeyPath(content: Node, keyPath: string)
    ensures Lookup(content, keyPath) == keyPath || Contains(content, Lookup(content, keyPath))
  {
    match Walk(content, Split(keyPath)) {
      case Some(Str(s)) => WalkContains(content, Split(keyPath), s);
      case _ =>
    }
  }

  /** `t`: split the key path, then descend one key at a time, returning the
      key path as soon as a step is missing. It changes nothing. */
  method Translate(content: Node, keyPath: string) returns (r: string)
    ensures r == Lookup(content, keyPath)
    ensures r == keyPath || Contains(content, r)
  {
    LookupStoredOrKeyPath(content, keyPath);
    var keys := Split(keyPath);
    var value := content;
    for i := 0 to |keys|
      invariant Walk(content, keys[..i]) == Some(value)
    {
      var next := Child(value, keys[i]);
      WalkAppend(content, keys[..i], [keys[i]]);
      assert keys[..i + 1] == keys[..i] + [keys[i]];
      if next.None? {
        WalkAppend(content, keys[..i], keys[i..]);
        assert keys[..i] + keys[i..] == keys;
        return keyPath;
      }
      value := next.value;
    }
    assert keys[..|keys|] == keys;
    if value.Str? {
      r := value.text;
    } else {
      r := keyPath;
    }
  }

  /** What a consumer of the hook reads: the provider's language and its record. */
  datatype LanguageView = LanguageView(language: Language, content: Node)

  /** The content is always the record of the language read from the provider. */
  function View(provider: LanguageProvider): (v: LanguageView)
    reads provider
    ensures v.language == provider.language
    ensures v.content == GetContent(v.language)
  {
    LanguageView(provider.language, GetContent(provider.language))
  }

  /** Right after `SetLanguage(Es)` the hook reads the Spanish record: the
      content is never stale. */
  method ViewAfterSet(provider: LanguageProvider) returns (v: LanguageView)
    modifies provider, provider.store
    ensures provider.language == Es
    ensures v.language == Es && v.content == GetContent(Es)
  {
    provider.SetLanguage(Es);
    v := View(provider);
  }

  // ----- facts about the two records -----

  /** The first field named `key` is the one found. */
  lemma {:induction false} FieldAt(fields: seq<Field>, i: nat, key: string)
    requires i < |fields| && fields[i].key == key
    requires forall j :: 0 <= j < i ==> fields[j].key != key
    ensures FieldLookup(fields, key) == Some(fields[i].value)
  {
    if i > 0 {
      FieldAt(fields[1..], i - 1, key);
    }
  }

  /** One step into the `i`-th field of an object, when it is the first with that name. */
  lemma ObjStep(n: Node, i: nat, key: string)
    requires n.Obj? && i < |n.fields| && n.fields[i].key == key
    requires forall j :: 0 <= j < i ==> n.fields[j].key != key
    ensures Child(n, key) == Some(n.fields[i].value)
  {
    FieldAt(n.fields, i, key);
  }

  /** No field has the name: the step does not exist. */
  lemma ObjMissing(n: Node, key: string)
    requires n.Obj? && forall j :: 0 <= j < |n.fields| ==> n.fields[j].key != key
    ensures Child(n, key) == None
  {
    FieldLookupFinds(n.fields, key);
  }

  /** One step into the `i`-th element of an array, by the index's decimal key. */
  lemma ListStep(n: Node, i: nat)
    requires n.List? && i < |n.items|
    ensures Child(n, IndexKey(i)) == Some(n.items[i])
  {
    IndexKeyRoundTrip(i);
  }

  /** One key followed by more: the walk continues from the child. */
  lemma WalkCons(n: Node, key: string, rest: seq<string>, m: Node)
    requires Child(n, key) == Some(m)
    ensures Walk(n, [key] + rest) == Walk(m, rest)
  {
    assert ([key] + rest)[0] == key && ([key] + rest)[1..] == rest;
  }

  lemma Walk2(n: Node, a: string, b: string, m: Node, v: Node)
    requires Child(n, a) == Some(m) && Child(m, b) == Some(v)
    ensures Walk(n, [a, b]) == Some(v)
  {
    WalkCons(n, a, [b], m);
    WalkCons(m, b, [], v);
    assert [a] + [b] == [a, b] && [b] + [] == [b];
  }

  lemma Walk3(n: Node, a: string, b: string, c: string, m1: Node, m2: Node, v: Node)
    requires Child(n, a) == Some(m1) && Child(m1, b) == Some(m2) && Child(m2, c) == Some(v)
    ensures Walk(n, [a, b, c]) == Some(v)
  {
    WalkCons(n, a, [b, c], m1);
    Walk2(m1, b, c, m2, v);
    assert [a] + [b, c] == [a, b, c];
  }

  /** Key paths written out as their dot-separated parts. */
  lemma SplitPath2(a: string, b: string)
    requires '.' !in a && '.' !in b
    ensures Split(a + "." + b) == [a, b]
  {
    assert [a, b][1..] == [b];
    assert Join([a, b]) == a + "." + b;
    SplitJoin([a, b]);
  }

  lemma SplitPath3(a: string, b: string, c: string)
    requires '.' !in a && '.' !in b && '.' !in c
    ensures Split(a + "." + b + "." + c) == [a, b, c]
  {
    assert [a, b, c][1..] == [b, c] && [b, c][1..] == [c];
    assert Join([b, c]) == b + "." + c;
    assert Join([a, b, c]) == a + "." + (b + "." + c);
    assert a + "." + b + "." + c == a + "." + (b + "." + c);
    SplitJoin([a, b, c]);
  }

  lemma SplitPath4(a: string, b: string, c: string, d: string)
    requires '.' !in a && '.' !in b && '.' !in c && '.' !in d
    ensures Split(a + "." + b + "." + c + "." + d) == [a, b, c, d]
  {
    assert [a, b, c, d][1..] == [b, c, d] && [b, c, d][1..] == [c, d] && [c, d][1..] == [d];
    assert Join([c, d]) == c + "." + d;
    assert Join([b, c, d]) == b + "." + (c + "." + d);
    assert Join([a, b, c, d]) == a + "." + (b + "." + (c + "." + d));
    assert a + "." + b + "." + c + "." + d == a + "." + (b + "." + (c + "." + d));
    SplitJoin([a, b, c, d]);
  }

  /** A lookup through the record goes through the section its first key names. */
  lemma LookupThrough(c: Node, keyPath: string, key: string, rest: seq<string>, section: Node)
    requires Split(keyPath) == [key] + rest && Child(c, key) == Some(section)
    ensures Lookup(c, keyPath) ==
      match Walk(section, rest)
      case Some(Str(s)) => s
      case _ => keyPath
  {
    WalkCons(c, key, rest, section);
  }

  /** Where each record keeps the sections the lookups below walk through. */
  lemma SectionsOf(lang: Language)
    ensures Child(GetContent(lang), "nav") == Some(if lang == En then EnNav else EsNav)
    ensures Child(GetContent(lang), "home") == Some(if lang == En then EnHome else EsHome)
    ensures Child(GetContent(lang), "services") == Some(if lang == En then EnServices else EsServices)
  {
    var c := GetContent(lang);
    ObjStep(c, 0, "nav");
    ObjStep(c, 1, "home");
    ObjStep(c, 2, "services");
  }

  // Each fact below is split in three: the key path's parts, the walk inside
  // one section, and the step from the record into that section.

  lemma HeroTitleKeys()
    ensures Split("home.hero.title") == ["home"] + ["hero", "title"]
  {
    assert "home.hero.title" == "home" + "." + "hero" + "." + "title";
    SplitPath3("home", "hero", "title");
    assert ["home", "hero", "title"] == ["home"] + ["hero", "title"];
  }

  lemma HeroTitleWalk(lang: Language)
    ensures Walk(if lang == En then EnHome else EsHome, ["hero", "title"]) == Some(Str("Azulita Holistics"))
  {
    var home := if lang == En then EnHome else EsHome;
    var hero := if lang == En then EnHero else EsHero;
    ObjStep(home, 0, "hero");
    ObjStep(hero, 0, "title");
    Walk2(home, "hero", "title", hero, Str("Azulita Holistics"));
  }

  /** `t("home.hero.title")` gives the stored title in both languages. */
  lemma HeroTitle(lang: Language)
    ensures Lookup(GetContent(lang), "home.hero.title") == "Azulita Holistics"
  {
    HeroTitleKeys();
    HeroTitleWalk(lang);
    SectionsOf(lang);
    LookupThrough(GetContent(lang), "home.hero.title", "home", ["hero", "title"], if lang == En then EnHome else EsHome);
  }

  lemma NavHomeKeys()
    ensures Split("nav.home") == ["nav"] + ["home"]
  {
    assert "nav.home" == "nav" + "." + "home";
    SplitPath2("nav", "home");
  }

  lemma NavHomeWalk(lang: Language)
    ensures Walk(if lang == En then EnNav else EsNav, ["home"]) == Some(Str(if lang == En then "Home" else "Inicio"))
  {
    var nav := if lang == En then EnNav else EsNav;
    ObjStep(nav, 0, "home");
    WalkCons(nav, "home", [], nav.fields[0].value);
    assert ["home"] + [] == ["home"];
  }

  /** The home label of the navigation: "Home" in English, "Inicio" in Spanish. */
  lemma NavHome(lang: Language)
    ensures Lookup(GetContent(lang), "nav.home") == if lang == En then "Home" else "Inicio"
  {
    NavHomeKeys();
    NavHomeWalk(lang);
    SectionsOf(lang);
    LookupThrough(GetContent(lang), "nav.home", "nav", ["home"], if lang == En then EnNav else EsNav);
  }

  lemma HomeHeroKeys()
    ensures Split("home.hero") == ["home"] + ["hero"]
  {
    assert "home.hero" == "home" + "." + "hero";
    SplitPath2("home", "hero");
  }

  lemma HomeHeroWalk(lang: Language)
    ensures Walk(if lang == En then EnHome else EsHome, ["hero"]) == Some(if lang == En then EnHero else EsHero)
  {
    var home := if lang == En then EnHome else EsHome;
    ObjStep(home, 0, "hero");
    WalkCons(home, "hero", [], home.fields[0].value);
    assert ["hero"] + [] == ["hero"];
  }

  /** A path ending on an object ("home.hero") gives the key path back. */
  lemma ObjectPathFallsBack(lang: Language)
    ensures Lookup(GetContent(lang), "home.hero") == "home.hero"
  {
    HomeHeroKeys();
    HomeHeroWalk(lang);
    SectionsOf(lang);
    LookupThrough(GetContent(lang), "home.hero", "home", ["hero"], if lang == En then EnHome else EsHome);
  }

  lemma ServiceListKeys()
    ensures Split("services.services") == ["services"] + ["services"]
  {
    assert "services.services" == "services" + "." + "services";
    SplitPath2("services", "services");
  }

  lemma ServiceListWalk(lang: Language)
    ensures Walk(if lang == En then EnServices else EsServices, ["services"]) ==
      Some(if lang == En then EnServiceList else EsServiceList)
  {
    var services := if lang == En then EnServices else EsServices;
    ObjStep(services, 1, "services");
    WalkCons(services, "services", [], services.fields[1].value);
    assert ["services"] + [] == ["services"];
  }

  /** A path ending on an array ("services.services") gives the key path back. */
  lemma ArrayPathFallsBack(lang: Language)
    ensures Lookup(GetContent(lang), "services.services") == "services.services"
  {
    ServiceListKeys();
    ServiceListWalk(lang);
    SectionsOf(lang);
    LookupThrough(GetContent(lang), "services.services", "services", ["services"], if lang == En then EnServices else EsServices);
  }

  lemma NavContactKeys()
    ensures Split("nav.contact") == ["nav"] + ["contact"]
  {
    assert "nav.contact" == "nav" + "." + "contact";
    SplitPath2("nav", "contact");
  }

  lemma NavContactWalk(lang: Language)
    ensures Walk(if lang == En then EnNav else EsNav, ["contact"]) == None
  {
    var nav := if lang == En then EnNav else EsNav;
    ObjMissing(nav, "contact");
  }

  /** A missing key ("nav.contact": the navigation has no contact label) gives the key path back. */
  lemma MissingKeyFallsBack(lang: Language)
    ensures Lookup(GetContent(lang), "nav.contact") == "nav.contact"
  {
    NavContactKeys();
    NavContactWalk(lang);
    SectionsOf(lang);
    LookupThrough(GetContent(lang), "nav.contact", "nav", ["contact"], if lang == En then EnNav else EsNav);
  }

  lemma NavHomeXKeys()
    ensures Split("nav.home.x") == ["nav"] + ["home", "x"]
  {
    assert "nav.home.x" == "nav" + "." + "home" + "." + "x";
    SplitPath3("nav", "home", "x");
    assert ["nav", "home", "x"] == ["nav"] + ["home", "x"];
  }

  lemma NavHomeXWalk(lang: Language)
    ensures Walk(if lang == En then EnNav else EsNav, ["home", "x"]) == None
  {
    var nav := if lang == En then EnNav else EsNav;
    var leaf := nav.fields[0].value;
    ObjStep(nav, 0, "home");
    WalkCons(nav, "home", ["x"], leaf);
    assert ["home"] + ["x"] == ["home", "x"];
    assert Walk(leaf, ["x"]) == None;
  }

  /** A step into a string ("nav.home.x") gives the key path back. */
  lemma StepIntoStringFallsBack(lang: Language)
    ensures Lookup(GetContent(lang), "nav.home.x") == "nav.home.x"
  {
    NavHomeXKeys();
    NavHomeXWalk(lang);
    SectionsOf(lang);
    LookupThrough(GetContent(lang), "nav.home.x", "nav", ["home", "x"], if lang == En then EnNav else EsNav);
  }

  lemma FirstServiceTitlePath()
    ensures "services.services.0.title" == "services" + "." + "services" + "." + "0" + "." + "title"
  {
  }

  lemma FirstServiceTitleKeys()
    ensures Split("services.services.0.title") == ["services"] + ["services", "0", "title"]
  {
    FirstServiceTitlePath();
    SplitPath4("services", "services", "0", "title");
    assert ["services", "services", "0", "title"] == ["services"] + ["services", "0", "title"];
  }

  lemma FirstServiceTitleWalk(lang: Language)
    ensures Walk(if lang == En then EnServices else EsServices, ["services", "0", "title"]) ==
      Some(Str(if lang == En then "Homeopathy" else "Homeopatía"))
  {
    var services := if lang == En then EnServices else EsServices;
    var list := if lang == En then EnServiceList else EsServiceList;
    var first := if lang == En then EnHomeopathy else EsHomeopathy;
    assert IndexKey(0) == "0";
    ObjStep(services, 1, "services");
    ListStep(list, 0);
    ObjStep(first, 0, "title");
    Walk3(services, "services", "0", "title", list, first, first.fields[0].value);
  }

  /** Array elements are reached by their index keys, as in JavaScript. */
  lemma FirstServiceTitle(lang: Language)
    ensures Lookup(GetContent(lang), "services.services.0.title") == if lang == En then "Homeopathy" else "Homeopatía"
  {
    FirstServiceTitleKeys();
    FirstServiceTitleWalk(lang);
    SectionsOf(lang);
    LookupThrough(GetContent(lang), "services.services.0.title", "services", ["services", "0", "title"],
      if lang == En then EnServices else EsServices);
  }

  lemma ServiceNotes(lang: Language, i: nat)
    requires i < 3
    ensures Walk(if lang == En then EnServiceList else EsServiceList, [IndexKey(i), "note"]).Some? <==> i == 0
  {
    var list := if lang == En then EnServiceList else EsServiceList;
    var item := list.items[i];
    ListStep(list, i);
    WalkCons(list, IndexKey(i), ["note"], item);
    if i == 0 {
      ObjStep(item, 2, "note");
    } else {
      ObjMissing(item, "note");
    }
  }

  /** Both records list three services, and only the first carries a note. */
  lemma ThreeServicesOneNote(lang: Language)
    ensures Walk(GetContent(lang), ["services", "services"]).Some?
    ensures Walk(GetContent(lang), ["services", "services"]).value.List?
    ensures |Walk(GetContent(lang), ["services", "services"]).value.items| == 3
    ensures forall i :: 0 <= i < 3 ==>
      (Walk(GetContent(lang), ["services", "services", IndexKey(i), "note"]).Some? <==> i == 0)
  {
    var c := GetContent(lang);
    var services := if lang == En then EnServices else EsServices;
    var list := if lang == En then EnServiceList else EsServiceList;
    SectionsOf(lang);
    ObjStep(services, 1, "services");
    Walk2(c, "services", "services", services, list);
    forall i | 0 <= i < 3
      ensures Walk(c, ["services", "services", IndexKey(i), "note"]).Some? <==> i == 0
    {
      WalkAppend(c, ["services", "services"], [IndexKey(i), "note"]);
      assert ["services", "services"] + [IndexKey(i), "note"] == ["services", "services", IndexKey(i), "note"];
      ServiceNotes(lang, i);
    }
  }
}
