/** The language provider: the in-memory language, the client flag, the
    mount-time reconciliation with the persisted preference and the setter
    that persists. The browser's local storage is modelled as a store whose
    reads and writes may throw. */
module LanguageContext {
  import opened Wrappers
  import opened I18nTypes

  /** The one key under which the preference is read and written. */
  const StorageKey: string := "language"

  /** The error raised when the context is used outside any provider. */
  const MissingProviderError: string := "useLanguageContext must be used within a LanguageProvider"

  /** What a store read gives: the call threw, or it returned the item (None when absent). */
  datatype ReadResult = Threw | Returned(item: Option<string>)

  /** The outcome of reading `key` from `entries` when reads do or do not throw. */
  function ReadFrom(entries: map<string, string>, readThrows: bool, key: string): (r: ReadResult)
    ensures r.Threw? <==> readThrows
    ensures r.Returned? ==> (r.item.Some? <==> key in entries)
    ensures r.Returned? && r.item.Some? ==> r.item.value == entries[key]
  {
    if readThrows then Threw
    else if key in entries then Returned(Some(entries[key]))
    else Returned(None)
  }

  /** A key-value store whose calls may throw (private browsing, storage disabled). */
  class Storage {
    var entries: map<string, string>
    var readThrows: bool
    var writeThrows: bool

    constructor (entries: map<string, string>, readThrows: bool, writeThrows: bool)
      ensures this.entries == entries
      ensures this.readThrows == readThrows && this.writeThrows == writeThrows
    {
      this.entries := entries;
      this.readThrows := readThrows;
      this.writeThrows := writeThrows;
    }

    function Read(key: string): ReadResult
      reads this
    {
      ReadFrom(entries, readThrows, key)
    }

    /** getItem: the stored value, absence, or a throw. */
    method GetItem(key: string) returns (r: ReadResult)
      ensures r == Read(key)
    {
      if readThrows {
        r := Threw;
      } else if key in entries {
        r := Returned(Some(entries[key]));
      } else {
        r := Returned(None);
      }
    }

    /** setItem: stores the value unless the call throws, which it reports. */
    method SetItem(key: string, value: string) returns (threw: bool)
      modifies this
      ensures threw == writeThrows
      ensures entries == if threw then old(entries) else old(entries)[key := value]
      ensures readThrows == old(readThrows) && writeThrows == old(writeThrows)
    {
      threw := writeThrows;
      if !threw {
        entries := entries[key := value];
      }
    }
  }

  /** The language the provider holds after the mount-time read gave `read`:
      an exact "en" or "es" is adopted, a throw, an absent item or any other
      string leaves `current` as it was. */
  function Reconciled(current: Language, read: ReadResult): (r: Language)
    ensures forall l :: read == Returned(Some(Tag(l))) ==> r == l
    ensures (forall l :: read != Returned(Some(Tag(l)))) ==> r == current
  {
    match read
    case Returned(Some(stored)) => ParseLanguage(stored).GetOr(current)
    case _ => current
  }

  /** The store's entries after the provider persisted `lang`: written only
      when the provider runs on the client and the write does not throw. */
  function Persisted(entries: map<string, string>, isClient: bool, writeThrows: bool, lang: Language): (r: map<string, string>)
    ensures r.Keys == if isClient && !writeThrows then entries.Keys + {StorageKey} else entries.Keys
    ensures forall k :: k in r && k != StorageKey ==> r[k] == entries[k]
    ensures StorageKey in r ==> r[StorageKey] == if isClient && !writeThrows then Tag(lang) else entries[StorageKey]
  {
    if isClient && !writeThrows then entries[StorageKey := Tag(lang)] else entries
  }

  /** Writing a language and reconciling a fresh provider against the same
      working store restores that language, whatever the provider started with. */
  lemma PersistThenReconcile(entries: map<string, string>, lang: Language, initial: Language)
    ensures Reconciled(initial, ReadFrom(Persisted(entries, true, false, lang), false, StorageKey)) == lang
  {
  }

  /** Nothing is persisted before the mount effect has run. */
  lemma NothingPersistedBeforeMount(entries: map<string, string>, writeThrows: bool, lang: Language)
    ensures Persisted(entries, false, writeThrows, lang) == entries
  {
  }

  class LanguageProvider {
    var language: Language
    var isClient: bool
    const store: Storage

    /** First phase: the language comes from `initialLanguage` (default "en"),
        never from the store, and the provider is not yet on the client. */
    constructor (initialLanguage: Option<Language>, store: Storage)
      ensures language == initialLanguage.GetOr(DefaultLanguage)
      ensures !isClient && this.store == store
    {
      language := initialLanguage.GetOr(DefaultLanguage);
      isClient := false;
      this.store := store;
    }

    /** Second phase, the mount effect: mark the provider as on the client,
        then try to read the stored preference; a throwing read is swallowed. */
    method Reconcile()
      modifies this
      ensures isClient
      ensures language == Reconciled(old(language), store.Read(StorageKey))
    {
      isClient := true;
      var stored := store.GetItem(StorageKey);
      match stored {
        case Returned(Some(s)) =>
          var parsed := ParseLanguage(s);
          if parsed.Some? {
            language := parsed.value;
          }
        case _ =>
      }
    }

    /** Sets the language immediately, then persists it when on the client;
        a throwing write is swallowed and nothing is rolled back. */
    method SetLanguage(lang: Language)
      modifies this, store
      ensures language == lang && isClient == old(isClient)
      ensures store.entries == Persisted(old(store.entries), old(isClient), old(store.writeThrows), lang)
      ensures store.readThrows == old(store.readThrows) && store.writeThrows == old(store.writeThrows)
    {
      language := lang;
      if isClient {
        var _ := store.SetItem(StorageKey, Tag(lang));
      }
    }
  }

  /** The provider a consumer sees: the innermost of the enclosing providers
      (listed outermost first), or the missing-provider error when there is none. */
  function UseLanguageContext(enclosing: seq<LanguageProvider>): (r: Result<LanguageProvider, string>)
    ensures r.Failure? <==> enclosing == []
    ensures r.Failure? ==> r.error == MissingProviderError
    ensures r.Success? ==> r.value == enclosing[|enclosing| - 1]
  {
    if enclosing == [] then Failure(MissingProviderError)
    else Success(enclosing[|enclosing| - 1])
  }
}
