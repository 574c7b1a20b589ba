/**
 * Settings persistence: the default configuration, the merge of a stored
 * (possibly partial) record over the defaults, and a key-value store with
 * an extension backend and a page-local fallback backend.
 */
module Storage {
  import opened Types

  /** The single key under which the settings record is kept. */
  const StorageKey: string := "lava_lamp_config_v1"

  const DefaultConfig: LampConfig := LampConfig(
    theme := Light,
    color := Red,
    size := 0.5,
    speed := 1.0,
    splashOpacity := 0.9,
    isLocked := false,
    isOn := true,
    isMinimized := false,
    isSplashOn := true)

  /** A stored settings record; any field may be missing. */
  datatype PartialConfig = PartialConfig(
    theme: Option<Theme>,
    color: Option<LampColor>,
    size: Option<real>,
    speed: Option<real>,
    splashOpacity: Option<real>,
    isLocked: Option<bool>,
    isOn: Option<bool>,
    isMinimized: Option<bool>,
    isSplashOn: Option<bool>)

  const NoFields: PartialConfig :=
    PartialConfig(None, None, None, None, None, None, None, None, None)

  /** The value a stored record holds for one field, tagged with that field, if present. */
  function Lookup(p: PartialConfig, f: Field): (o: Option<FieldValue>)
    ensures o.Some? ==> KeyOf(o.value) == f
  {
    match f
    case ThemeField => if p.theme.Some? then Some(ThemeValue(p.theme.value)) else None
    case ColorField => if p.color.Some? then Some(ColorValue(p.color.value)) else None
    case SizeField => if p.size.Some? then Some(SizeValue(p.size.value)) else None
    case SpeedField => if p.speed.Some? then Some(SpeedValue(p.speed.value)) else None
    case SplashOpacityField =>
      if p.splashOpacity.Some? then Some(SplashOpacityValue(p.splashOpacity.value)) else None
    case LockedField => if p.isLocked.Some? then Some(LockedValue(p.isLocked.value)) else None
    case OnField => if p.isOn.Some? then Some(OnValue(p.isOn.value)) else None
    case MinimizedField =>
      if p.isMinimized.Some? then Some(MinimizedValue(p.isMinimized.value)) else None
    case SplashOnField => if p.isSplashOn.Some? then Some(SplashOnValue(p.isSplashOn.value)) else None
  }

  /** The full record that serialising a configuration produces. */
  function Whole(c: LampConfig): (p: PartialConfig)
    ensures forall f :: Lookup(p, f) == Some(Get(c, f))
  {
    PartialConfig(
      Some(c.theme), Some(c.color), Some(c.size), Some(c.speed), Some(c.splashOpacity),
      Some(c.isLocked), Some(c.isOn), Some(c.isMinimized), Some(c.isSplashOn))
  }

  /**
   * The object spread `{ ...base, ...p }`: each field present in `p`
   * overrides, each absent field keeps the value it has in `base`.
   */
  function Merge(base: LampConfig, p: PartialConfig): (r: LampConfig)
    ensures forall f :: Get(r, f) == Lookup(p, f).GetOr(Get(base, f))
  {
    var r := LampConfig(
      p.theme.GetOr(base.theme),
      p.color.GetOr(base.color),
      p.size.GetOr(base.size),
      p.speed.GetOr(base.speed),
      p.splashOpacity.GetOr(base.splashOpacity),
      p.isLocked.GetOr(base.isLocked),
      p.isOn.GetOr(base.isOn),
      p.isMinimized.GetOr(base.isMinimized),
      p.isSplashOn.GetOr(base.isSplashOn));
    assert forall f :: Get(r, f) == Lookup(p, f).GetOr(Get(base, f)) by {
      forall f ensures Get(r, f) == Lookup(p, f).GetOr(Get(base, f)) {
        FieldCases(f);
      }
    }
    r
  }

  /** Spreading a complete record replaces the base entirely. */
  lemma {:induction false} MergeWhole(base: LampConfig, c: LampConfig)
    ensures Merge(base, Whole(c)) == c
  {
    var r := Merge(base, Whole(c));
    assert forall f :: Get(r, f) == Get(c, f);
    FieldsDetermineConfig(r, c);
  }

  /** Spreading a record with no fields leaves the base as it was. */
  lemma {:induction false} MergeNothing(base: LampConfig)
    ensures Merge(base, NoFields) == base
  {
    var r := Merge(base, NoFields);
    assert forall f :: Get(r, f) == Get(base, f);
    FieldsDetermineConfig(r, base);
  }

  /** The later value when present, otherwise the earlier one. */
  function Pick<T>(earlier: Option<T>, later: Option<T>): Option<T> {
    if later.Some? then later else earlier
  }

  /** The record `{ ...p, ...q }`: fields of `q` win over those of `p`. */
  function Overlay(p: PartialConfig, q: PartialConfig): (r: PartialConfig)
    ensures forall f :: Lookup(q, f).Some? ==> Lookup(r, f) == Lookup(q, f)
    ensures forall f :: Lookup(q, f).None? ==> Lookup(r, f) == Lookup(p, f)
  {
    var r := PartialConfig(
      Pick(p.theme, q.theme), Pick(p.color, q.color), Pick(p.size, q.size),
      Pick(p.speed, q.speed), Pick(p.splashOpacity, q.splashOpacity),
      Pick(p.isLocked, q.isLocked), Pick(p.isOn, q.isOn),
      Pick(p.isMinimized, q.isMinimized), Pick(p.isSplashOn, q.isSplashOn));
    assert forall f :: Lookup(r, f) == if Lookup(q, f).Some? then Lookup(q, f) else Lookup(p, f) by {
      forall f ensures Lookup(r, f) == if Lookup(q, f).Some? then Lookup(q, f) else Lookup(p, f) {
        FieldCases(f);
      }
    }
    r
  }

  /** Two spreads in a row are one spread of the overlaid records: `{ ...{ ...base, ...p }, ...q }` is `{ ...base, ...{ ...p, ...q } }`. */
  lemma {:induction false} MergeTwice(base: LampConfig, p: PartialConfig, q: PartialConfig)
    ensures Merge(Merge(base, p), q) == Merge(base, Overlay(p, q))
  {
    var a := Merge(Merge(base, p), q);
    var b := Merge(base, Overlay(p, q));
    assert forall f :: Get(a, f) == Get(b, f);
    FieldsDetermineConfig(a, b);
  }

  /**
   * Applying loaded settings spreads `{ ...DEFAULT_CONFIG, ...stored }` over
   * the current configuration; whatever that configuration was, the result
   * is the defaults overridden by the stored record.
   */
  lemma {:induction false} LoadedSpread(current: LampConfig, stored: PartialConfig)
    ensures Merge(current, Overlay(Whole(DefaultConfig), stored)) == Merge(DefaultConfig, stored)
  {
    MergeTwice(current, Whole(DefaultConfig), stored);
    MergeWhole(current, DefaultConfig);
  }

  /** What the page-local store may hold under a key: text that is empty, unparsable, or a JSON record. */
  datatype PageItem = Blank | Unparsable | Json(record: PartialConfig)

  /**
   * The two key-value backends. Which one is used is fixed by the
   * environment: the extension store when it exists, otherwise the
   * page-local store. Reading the page store (including parsing) and
   * writing it fail independently: a store can be readable but full.
   */
  class SettingsStore {
    const hasExtensionStore: bool
    const pageReadable: bool
    const pageWritable: bool
    var extension: map<string, PartialConfig>
    var page: map<string, PageItem>

    constructor (hasExtensionStore: bool, pageReadable: bool, pageWritable: bool,
                 extension: map<string, PartialConfig>, page: map<string, PageItem>)
      ensures this.hasExtensionStore == hasExtensionStore
      ensures this.pageReadable == pageReadable && this.pageWritable == pageWritable
      ensures this.extension == extension && this.page == page
    {
      this.hasExtensionStore := hasExtensionStore;
      this.pageReadable := pageReadable;
      this.pageWritable := pageWritable;
      this.extension := extension;
      this.page := page;
    }

    /** A save is accepted by the backend in use. */
    predicate Writable()
      reads this
    {
      hasExtensionStore || pageWritable
    }

    /** A save can be read back: the backend in use accepts writes and reads. */
    predicate RoundTrips()
      reads this
    {
      hasExtensionStore || (pageWritable && pageReadable)
    }

    /**
     * The record that loading finds: none when the key is absent, the
     * page text is empty or unparsable, or reading the page store throws.
     */
    function Stored(): (o: Option<PartialConfig>)
      reads this
      ensures hasExtensionStore ==> (o.Some? <==> StorageKey in extension)
      ensures !hasExtensionStore ==>
                (o.Some? <==> pageReadable && StorageKey in page && page[StorageKey].Json?)
      ensures hasExtensionStore && StorageKey in extension ==> o == Some(extension[StorageKey])
      ensures !hasExtensionStore && pageReadable && StorageKey in page && page[StorageKey].Json? ==>
                o == Some(page[StorageKey].record)
    {
      if hasExtensionStore then
        if StorageKey in extension then Some(extension[StorageKey]) else None
      else if pageReadable && StorageKey in page then
        match page[StorageKey]
        case Json(record) => Some(record)
        case _ => None
      else None
    }

    /** Loads the settings: the defaults with every stored field overriding its default. */
    function Load(): (c: LampConfig)
      reads this
      ensures Stored().None? ==> c == DefaultConfig
      ensures Stored().Some? ==>
                forall f :: Get(c, f) == Lookup(Stored().value, f).GetOr(Get(DefaultConfig, f))
    {
      match Stored()
      case None => DefaultConfig
      case Some(record) => Merge(DefaultConfig, record)
    }

    /**
     * Saves the whole configuration under the one settings key; a
     * page-store write failure is swallowed and leaves everything unchanged.
     */
    method Save(config: LampConfig)
      modifies this
      ensures hasExtensionStore ==>
                extension == old(extension)[StorageKey := Whole(config)] && page == old(page)
      ensures !hasExtensionStore && pageWritable ==>
                page == old(page)[StorageKey := Json(Whole(config))] && extension == old(extension)
      ensures !Writable() ==> extension == old(extension) && page == old(page)
      ensures !Writable() ==> Load() == old(Load())
      ensures RoundTrips() ==> Load() == config
    {
      if hasExtensionStore {
        extension := extension[StorageKey := Whole(config)];
      } else if pageWritable {
        page := page[StorageKey := Json(Whole(config))];
      }
      if RoundTrips() {
        MergeWhole(DefaultConfig, config);
      }
    }
  }

  /**
   * On empty backends loading gives exactly the defaults; a save then
   * reads back when the backend accepts both the write and the read.
   */
  method FreshInstall(hasExtensionStore: bool, pageReadable: bool, pageWritable: bool,
                      config: LampConfig)
    returns (first: LampConfig, second: LampConfig)
    ensures first == DefaultConfig
    ensures hasExtensionStore || (pageReadable && pageWritable) ==> second == config
    ensures !hasExtensionStore && !(pageReadable && pageWritable) ==> second == DefaultConfig
  {
    var store := new SettingsStore(hasExtensionStore, pageReadable, pageWritable, map[], map[]);
    first := store.Load();
    store.Save(config);
    second := store.Load();
  }

  /**
   * A full page store: the write of a new configuration is rejected, and
   * loading still finds the record saved earlier, over the defaults.
   */
  method SaveToFullPage(earlier: PartialConfig, config: LampConfig)
    returns (loaded: LampConfig)
    ensures loaded == Merge(DefaultConfig, earlier)
  {
    var store := new SettingsStore(false, true, false, map[], map[StorageKey := Json(earlier)]);
    store.Save(config);
    loaded := store.Load();
  }
}
