# Azulita Holistics internationalisation core, modelled in Dafny

The Azulita Holistics website is a two-language site (English and Spanish).
Its Spanish pages live under the `/es` path namespace. This project models
the logic that decides the language and what each language sees:

- **The language toggle** (`LanguageToggle`). It flips the language, sets it
  on the provider, and then computes the router request. To go to Spanish it
  prepends `/es`, and the root becomes `/es`. To go to English it strips a
  leading `/es`, and an empty remainder becomes `/`. No request is made when
  the path is already in the target namespace.
- **The language provider** (`LanguageContext`). It is a class holding the
  in-memory language and the client flag, over a key-value store whose
  reads and writes may throw. Its constructor is the first render. Its
  `Reconcile` method is the mount effect, which adopts a stored `"en"` or
  `"es"`. `SetLanguage` persists the choice only once on the client, and
  swallows a failing write. A consumer outside every provider gets the
  missing-provider error.
- **The content records and `t`** (`Content`, `UseLanguage`). The content is
  a tree of string leaves, objects with ordered fields, and arrays. `t` is a
  loop that walks a dot-separated key path through the tree, with JavaScript's
  `key in value` semantics for array indices. It falls back to the key path
  itself.
- **Page metadata** (`Metadata`). The per-language page texts, the canonical
  path, the alternate path of each language, and the Open Graph URL, locale
  and titles.
- **Structured data** (`StructuredData`). The schema.org blocks, which of
  them each page type selects and in which order, the language-dependent
  service address and `inLanguage` tag, and the Instagram profile link.
- **Cross-module facts** (`SiteConsistency`). The toggle moves between the
  very alternates a page announces. The service block points at the services
  page's canonical address. The root provider and the provider nested under
  the Spanish layout keep separate state.

The router (`usePathname`, `router.push`) becomes the toggle's path argument
and its `Option<string>` result. The browser's local storage becomes the
`Storage` class, whose two flags say whether reads and writes throw. Optional
parameters with a default (`initialLanguage = 'en'`, `lang = 'en'`) are
`Option<Language>` arguments that default to English.

The namespace test, as written in `lib/i18n/useLanguageToggle.ts:22` and
`:28`, is a raw string prefix check (`startsWith('/es')`). It does not look
at the segment boundary after `/es`, so `/espanol` counts as Spanish. The
model keeps the test as written: `StartsWithEs` is the raw prefix test, and
`EspanolCountsAsSpanish` states the consequence.

## Model

| member | source | states |
|---|---|---|
| I18nTypes.ParseLanguage | lib/i18n/LanguageContext.tsx:28 | a stored string is a language exactly when it is `"en"` or `"es"`, and then that tag is the language's tag; both the mount effect and `Reconciled` use this one test |
| I18nTypes.Tag | lib/i18n/types.ts:2 | the string a language is written as, `"en"` or `"es"`, which is also what the provider stores; `ParseTag` states that `ParseLanguage` inverts it |
| I18nTypes.ParseTag | lib/i18n/types.ts:2 | reading back the tag a language is written as gives that language |
| Content.GetContent | content/index.ts:10-12 | every language has a record (the lookup is total), and each record is an object with its five sections |
| Content.GetContentInjective | content/index.ts:5-8 | the English and Spanish records are different (for example `nav.home` is "Home" against "Inicio"), so equal records mean equal languages |
| LanguageContext.ReadFrom | lib/i18n/LanguageContext.tsx:27 | a store read throws exactly when reads throw; otherwise it returns the item exactly when the key is present, and then the stored value |
| LanguageContext.Storage.GetItem | lib/i18n/LanguageContext.tsx:27 | `getItem` gives the stored value, absence, or a throw, as `ReadFrom` describes |
| LanguageContext.Storage.SetItem | lib/i18n/LanguageContext.tsx:41 | `setItem` reports a throw exactly when writes throw, stores the value under the key unless it threw, and changes nothing else |
| LanguageContext.Reconciled | lib/i18n/LanguageContext.tsx:26-33 | after the mount-time read, a stored exact `"en"`/`"es"` is adopted; a throw, an absent item or any other string keeps the current language |
| LanguageContext.Persisted | lib/i18n/LanguageContext.tsx:39-45 | the store gains the language's tag under `"language"` only when on the client and the write does not throw; every other entry is kept |
| LanguageContext.PersistThenReconcile | lib/i18n/LanguageContext.tsx:27-41 | the written key is the read key: after a successful write of L, a fresh provider's reconcile restores L whatever it started with |
| LanguageContext.NothingPersistedBeforeMount | lib/i18n/LanguageContext.tsx:39-41 | before the mount effect the store is left exactly as it was |
| LanguageContext.LanguageProvider.constructor | lib/i18n/LanguageContext.tsx:18-21 | the first language is `initialLanguage` (English by default), never the stored one, and the client flag starts false |
| LanguageContext.LanguageProvider.Reconcile | lib/i18n/LanguageContext.tsx:24-34 | the mount effect sets the client flag and moves the language to `Reconciled` of the read; a throwing read raises nothing |
| LanguageContext.LanguageProvider.SetLanguage | lib/i18n/LanguageContext.tsx:37-46 | the in-memory language becomes L at once and unconditionally, the client flag is kept, and the store becomes `Persisted` (a failed write is swallowed and not rolled back) |
| LanguageContext.UseLanguageContext | lib/i18n/LanguageContext.tsx:55-61 | the error is raised exactly when there is no enclosing provider, with the missing-provider message; otherwise the innermost provider is used |
| LanguageToggle.Opposite | lib/i18n/useLanguageToggle.ts:16 | the target language always differs from the current one |
| LanguageToggle.OppositeInvolution | lib/i18n/useLanguageToggle.ts:16 | flipping twice gives back the starting language |
| LanguageToggle.StartsWithEs | lib/i18n/useLanguageToggle.ts:22 | the namespace test as written, a raw `startsWith('/es')`; `EspanolCountsAsSpanish` and `SiteConsistency.CanonicalNamespace` state what it accepts |
| LanguageToggle.ToEs | lib/i18n/useLanguageToggle.ts:23 | the Spanish path is in the Spanish namespace; `/` maps to `/es`, and any other path is what follows the `/es` |
| LanguageToggle.ToEn | lib/i18n/useLanguageToggle.ts:29 | the English path is never empty; a leading `/es` is removed and a bare `/es` becomes `/`; a path without the prefix is kept, and the empty path becomes `/` |
| LanguageToggle.NavigationTarget | lib/i18n/useLanguageToggle.ts:20-32 | the request the toggle issues after switching; `NavigatesIffOutsideTarget` states when there is one and where it goes |
| LanguageToggle.NavigatesIffOutsideTarget | lib/i18n/useLanguageToggle.ts:20-32 | a navigation is issued exactly when the path is outside the target namespace (both directions), and it goes to the rewritten path |
| LanguageToggle.ToEnStripsPrefix | lib/i18n/useLanguageToggle.ts:28-29 | switching to English removes exactly the leading `/es`: `/es` maps to `/`, and `/es/about` to `/about` |
| LanguageToggle.EsThenEn | lib/i18n/useLanguageToggle.ts:23-29 | every non-empty path outside the Spanish namespace comes back unchanged after the Spanish and then the English rewrite |
| LanguageToggle.EnThenEs | lib/i18n/useLanguageToggle.ts:23-29 | every Spanish path except `/es/` comes back unchanged after the English and then the Spanish rewrite |
| LanguageToggle.RoundTripExceptions | lib/i18n/useLanguageToggle.ts:23-29 | the round trips fail only on the empty path, which returns as `/`, and on `/es/`, which returns as `/es` |
| LanguageToggle.NamespaceAfterToggle | lib/i18n/useLanguageToggle.ts:20-32 | after switching to Spanish the path is always Spanish; after switching to English it is Spanish only if the part after the first `/es` starts with `/es` again |
| LanguageToggle.EspanolCountsAsSpanish | lib/i18n/useLanguageToggle.ts:22-29 | the raw prefix test counts `/espanol` as Spanish: no navigation towards Spanish, and `panol` towards English |
| LanguageToggle.ToggleLanguage | lib/i18n/useLanguageToggle.ts:15-33 | the new language is the opposite one; it is set on the provider, with the store persisted as `SetLanguage` does; the navigation is `NavigationTarget` of the new language and the path |
| LanguageToggle.LocalizedPath | components/Navigation.tsx:13-15 | the link helper keeps English paths and puts `/es` in front of Spanish ones |
| LanguageToggle.LocalizedPathVersusToggle | components/Navigation.tsx:13-15 | the link helper agrees with the toggle on every English path but the root, which it maps to `/es/` where the toggle gives `/es` |
| UseLanguage.Split | lib/i18n/useLanguage.ts:13 | `split('.')` always gives at least one part |
| UseLanguage.SplitPartsDotFree | lib/i18n/useLanguage.ts:13 | no part of a split contains a dot |
| UseLanguage.JoinSplit | lib/i18n/useLanguage.ts:13 | joining the parts back with dots gives the key path |
| UseLanguage.SplitJoin | lib/i18n/useLanguage.ts:13 | splitting a dot-joined list of dot-free keys gives back the keys |
| UseLanguage.IndexKey | lib/i18n/useLanguage.ts:18-19 | an array index's property name is a non-empty string of decimal digits |
| UseLanguage.ArrayIndex | lib/i18n/useLanguage.ts:18-19 | the array element a property key names; `IndexKeyRoundTrip` and `ArrayIndexCanonical` state that exactly the canonical decimal renderings name elements |
| UseLanguage.IndexKeyRoundTrip | lib/i18n/useLanguage.ts:18-19 | every array index is named by its own decimal rendering |
| UseLanguage.ArrayIndexCanonical | lib/i18n/useLanguage.ts:18-19 | every key that names an array index is that index's decimal rendering, so `"01"` or `"+1"` name no element |
| UseLanguage.FieldLookup | lib/i18n/useLanguage.ts:18-19 | `key in value` and `value[key]` on an object; `FieldLookupFinds` states when a field is found and that it is a field of that name |
| UseLanguage.Child | lib/i18n/useLanguage.ts:18-19 | one step of the loop: a string has no properties, an object steps by `FieldLookup`, an array by `ArrayIndex`; `ChildContains` states that the step stays inside the tree |
| UseLanguage.Walk | lib/i18n/useLanguage.ts:17-24 | the loop's descent over all keys; `WalkAppend` states that walking a joined path is walking its parts in turn, and `WalkContains` that a reached string is in the tree |
| UseLanguage.WalkAppend | lib/i18n/useLanguage.ts:17-24 | walking `a + b` is walking `a` and then `b` from where it stopped, and fails if walking `a` fails |
| UseLanguage.FieldLookupFinds | lib/i18n/useLanguage.ts:18-19 | `key in value` on an object holds exactly when some field has the name, and the step yields that field's value |
| UseLanguage.WalkContains | lib/i18n/useLanguage.ts:17-26 | a string reached by the walk is stored somewhere in the tree the walk started from |
| UseLanguage.Lookup | lib/i18n/useLanguage.ts:12-27 | what `t` returns; `Translate` is proved equal to it, and `LookupStoredOrKeyPath` and the lemmas below state its results |
| UseLanguage.LookupStoredOrKeyPath | lib/i18n/useLanguage.ts:17-26 | `t` never invents text: its result is the key path or a string stored in the content |
| UseLanguage.Translate | lib/i18n/useLanguage.ts:12-27 | the loop returns what the walk of the split path gives (the string it ends on, else the key path), and so the key path or stored text; it changes nothing |
| UseLanguage.View | lib/i18n/useLanguage.ts:6-8 | the hook's content is always the record of the provider's current language |
| UseLanguage.ViewAfterSet | lib/i18n/useLanguage.ts:7-8 | right after `SetLanguage(Es)` the hook's language is Spanish and its content is the Spanish record |
| UseLanguage.HeroTitle | lib/i18n/useLanguage.ts:11 | `t("home.hero.title")` gives `content.home.hero.title` in both languages |
| UseLanguage.NavHome | content/en.ts:4-8 | `t("nav.home")` gives "Home" in English and "Inicio" in Spanish (content/es.ts line 5) |
| UseLanguage.ObjectPathFallsBack | lib/i18n/useLanguage.ts:26 | a path ending on an object (`home.hero`) gives the key path back |
| UseLanguage.ArrayPathFallsBack | lib/i18n/useLanguage.ts:26 | a path ending on an array (`services.services`) gives the key path back |
| UseLanguage.MissingKeyFallsBack | lib/i18n/useLanguage.ts:18-23 | a missing key (`nav.contact`) gives the key path back |
| UseLanguage.StepIntoStringFallsBack | lib/i18n/useLanguage.ts:18-23 | a step into a string (`nav.home.x`) gives the key path back |
| UseLanguage.FirstServiceTitle | lib/i18n/useLanguage.ts:18-19 | array elements are reached by their index keys: `services.services.0.title` is the first service's title |
| UseLanguage.ThreeServicesOneNote | content/en.ts:24-44 | both records list exactly three services, and only the first carries a note (content/es.ts lines 25-45 likewise) |
| Metadata.LangPath | lib/metadata.ts:103 | the language prefix is `/es` exactly for Spanish and empty exactly for English |
| Metadata.PagePath | lib/metadata.ts:104 | the page path is empty exactly for the home page, and otherwise `/` followed by the page name |
| Metadata.PageName | lib/metadata.ts:99-104 | the three page names of the page union, as they appear in the page path |
| Metadata.PageTable | lib/metadata.ts:11-96 | the title, description and keywords of each language and page; `GeneratePageMetadata` states that they reach the record unchanged |
| Metadata.PageAlternates | lib/metadata.ts:119-125 | the canonical path is language prefix plus page path, empty only for the English home page; it equals the Spanish alternate for Spanish and the English alternate for English pages other than home; the English alternate is the page path or `/`, the Spanish one `/es` plus the page path |
| Metadata.Locale | lib/metadata.ts:131 | the locale is `es_ES` exactly for Spanish and `en_US` exactly for English |
| Metadata.GeneratePageMetadata | lib/metadata.ts:98-160 | title, description and keywords come unchanged from the language's page entry (English by default); the Open Graph and Twitter cards reuse them; the alternates are `PageAlternates`; the card URL is the site address followed by the canonical path; the base is the site address; the locale is `Locale` |
| Metadata.AlternatesShared | lib/metadata.ts:122-123 | both languages of a page announce the same pair of alternates |
| Metadata.CanonicalIsAlternate | lib/metadata.ts:120-123 | the canonical path is one of the alternates exactly when the page is not the English home page |
| Metadata.NamespaceMark | lib/metadata.ts:120 | a canonical path has `e` as its second character exactly when its language is Spanish |
| Metadata.CanonicalInjective | lib/metadata.ts:120 | two canonical paths are equal exactly when page and language are |
| StructuredData.RemoveFirstAt | components/StructuredData.tsx:21 | removing the first occurrence of a character keeps everything before and after it |
| StructuredData.RemoveFirstAbsent | components/StructuredData.tsx:21 | removing a character that does not occur leaves the string as it is |
| StructuredData.RemoveFirst | components/StructuredData.tsx:21 | `replace('@', '')`; `RemoveFirstAt` and `RemoveFirstAbsent` state that only the first occurrence goes |
| StructuredData.TypeName | components/StructuredData.tsx:15-115 | the `@type` of each block as written: `HealthAndBeautyBusiness`, `ProfessionalService`, `FAQPage`, `WebSite`; `SchemaOrder` states the selections through it |
| StructuredData.OrganizationSchema | components/StructuredData.tsx:13-63 | the organization block: the bare site address, the logo below it, the site's description and email, the catalog of three offers; `sameAs` is stated by `InstagramProfile`, and the same block serves both languages |
| StructuredData.FaqSchema | components/StructuredData.tsx:81-110 | the FAQ block: three fixed questions with their answers, the same in both languages |
| StructuredData.InstagramLink | components/StructuredData.tsx:21 | the profile link is `https://instagram.com/` followed by the handle without its leading `@` |
| StructuredData.InstagramProfile | components/StructuredData.tsx:21 | the organization's `sameAs` is exactly the link to `azulitaholistics` |
| StructuredData.ProfessionalServiceSchema | components/StructuredData.tsx:66-78 | the service block's address is the site address, the language prefix and `/services` |
| StructuredData.InLanguage | components/StructuredData.tsx:119 | the website block's tag is `es-ES` exactly for Spanish and `en-US` exactly for English |
| StructuredData.WebSiteSchema | components/StructuredData.tsx:113-128 | the website block has the bare site address and the language's tag |
| StructuredData.Kinds | components/StructuredData.tsx:131-139 | the `@type` list has one entry per selected block, in order |
| StructuredData.PageSchemas | components/StructuredData.tsx:131-139 | the blocks of each page type; `SelectSchemas` is proved equal to it, `SchemaOrder` states the order and `SchemaFields` the language-dependent fields |
| StructuredData.SelectSchemas | components/StructuredData.tsx:131-139 | the blocks pushed branch by branch are the page type's blocks in the given language (English by default) |
| StructuredData.SchemaOrder | components/StructuredData.tsx:133-138 | home selects organization, website and FAQ; services selects professional service and FAQ; about selects organization only, in that order |
| StructuredData.SchemaFields | components/StructuredData.tsx:17-119 | in every page's selection the service address carries the language prefix, the website tag is the language's, and the organization and website keep the bare site address |
| SiteConsistency.ToggleLinksAlternates | lib/metadata.ts:122-123 | toggling on a page's English alternate navigates to its Spanish alternate, and back |
| SiteConsistency.CanonicalNamespace | lib/metadata.ts:120 | the toggle's namespace test counts a canonical path as Spanish exactly when its language is Spanish |
| SiteConsistency.ServiceUrlIsCanonical | components/StructuredData.tsx:70 | the service block's address is the site address followed by the services page's canonical path |
| SiteConsistency.SpanishLayoutToggle | components/Layout.tsx:22-26 | the toggle buttons sit in the shared layout, under the root provider only; on `/es/services` before mounting, the toggle turns the root provider Spanish and asks for no navigation, the provider nested around the Spanish page (app/es/layout.tsx line 9) stays Spanish, and the store is untouched |
| SiteConsistency.LanguageSurvivesReload | lib/i18n/LanguageContext.tsx:24-46 | with a working store, Spanish set after mounting is what a later visit's provider restores, and its content is the Spanish record |

## Left out

- Content records: only a representative subset of each record is modelled. This is the navigation labels, the hero's title, tagline and call to action, the services title and list (title and price, and the first service's note), the about title and contact line, and the footer contact. The longer prose fields are data, and no logic depends on them. These are the subtitles, the free-consultation lines, the intro and closing texts, the service descriptions, the biography array and the copyright.
- Metadata: the keyword lists and texts are kept, but the authors' record is a list of names.
- Metadata: `new URL(...)` normalisation of the base address is a library call, so the base is the address string.
- Rendering: React re-rendering, effect scheduling and stale closures are not modelled. The mount effect is one explicit `Reconcile` call.
- Reconcile: the client flag is set before the read. No step in between can observe that order, so only the final state is stated.
- ToggleLanguage: the setter runs before any navigation because the navigation is the method's result. The router call is not modelled as an effect.
- Lookup: JavaScript keys that `in` finds on every object or array are treated as missing. These are `length` and the prototype's members, and `t` returns the key path for them either way, since none of them leads to a string.
- `console.warn` for a missing translation key is a side effect and is not modelled.
- Structured data: the `@context` value, the same `https://schema.org` in every block, is not modelled. The nested `@type` records (address, catalog, publisher) are flattened into fields.
- Structured data: `JSON.stringify` and the emitted `<script>` elements are not modelled.
- The route wrappers under `app/` are not modelled, apart from the two providers they nest. So are fonts, presentation components and `BOOKING_URL`.
