/**
 * The shared data model of the lava lamp widget: the lamp configuration
 * record, the blob record, and the interface language with its string
 * tables and the detection of the browser's language.
 */
module Types {

  datatype Option<T> = None | Some(value: T) {
    function GetOr(default: T): T {
      match this
      case Some(v) => v
      case None => default
    }
  }

  function Max(a: real, b: real): real {
    if a >= b then a else b
  }

  function Min(a: real, b: real): real {
    if a <= b then a else b
  }

  // ---------------------------------------------------------------------------
  // Lamp configuration
  // ---------------------------------------------------------------------------

  datatype Theme = Light | Dark | Auto

  datatype LampColor = Red | Blue | Green | Purple | Rainbow

  /** The persisted lamp settings; sizes and speeds are reals, not IEEE doubles. */
  datatype LampConfig = LampConfig(
    theme: Theme,
    color: LampColor,
    size: real,
    speed: real,
    splashOpacity: real,
    isLocked: bool,
    isOn: bool,
    isMinimized: bool,
    isSplashOn: bool)

  /** The keys of a lamp configuration (the TypeScript `keyof LampConfig`). */
  datatype Field =
    | ThemeField | ColorField | SizeField | SpeedField | SplashOpacityField
    | LockedField | OnField | MinimizedField | SplashOnField

  /** A value tagged with the key it belongs to (`LampConfig[K]` for a key `K`). */
  datatype FieldValue =
    | ThemeValue(theme: Theme)
    | ColorValue(color: LampColor)
    | SizeValue(size: real)
    | SpeedValue(speed: real)
    | SplashOpacityValue(splashOpacity: real)
    | LockedValue(isLocked: bool)
    | OnValue(isOn: bool)
    | MinimizedValue(isMinimized: bool)
    | SplashOnValue(isSplashOn: bool)

  function KeyOf(v: FieldValue): Field {
    match v
    case ThemeValue(_) => ThemeField
    case ColorValue(_) => ColorField
    case SizeValue(_) => SizeField
    case SpeedValue(_) => SpeedField
    case SplashOpacityValue(_) => SplashOpacityField
    case LockedValue(_) => LockedField
    case OnValue(_) => OnField
    case MinimizedValue(_) => MinimizedField
    case SplashOnValue(_) => SplashOnField
  }

  /** Reads one field of a configuration; the value is tagged with that field. */
  function Get(c: LampConfig, f: Field): (v: FieldValue)
    ensures KeyOf(v) == f
  {
    match f
    case ThemeField => ThemeValue(c.theme)
    case ColorField => ColorValue(c.color)
    case SizeField => SizeValue(c.size)
    case SpeedField => SpeedValue(c.speed)
    case SplashOpacityField => SplashOpacityValue(c.splashOpacity)
    case LockedField => LockedValue(c.isLocked)
    case OnField => OnValue(c.isOn)
    case MinimizedField => MinimizedValue(c.isMinimized)
    case SplashOnField => SplashOnValue(c.isSplashOn)
  }

  /** The nine keys, one by one (a case split for proofs over all keys). */
  lemma FieldCases(f: Field)
    ensures || f == ThemeField || f == ColorField || f == SizeField || f == SpeedField
            || f == SplashOpacityField || f == LockedField || f == OnField
            || f == MinimizedField || f == SplashOnField
  {
  }

  /** Two configurations that agree on every field are the same configuration. */
  lemma {:induction false} FieldsDetermineConfig(a: LampConfig, b: LampConfig)
    requires forall f :: Get(a, f) == Get(b, f)
    ensures a == b
  {
    assert Get(a, ThemeField) == Get(b, ThemeField);
    assert Get(a, ColorField) == Get(b, ColorField);
    assert Get(a, SizeField) == Get(b, SizeField);
    assert Get(a, SpeedField) == Get(b, SpeedField);
    assert Get(a, SplashOpacityField) == Get(b, SplashOpacityField);
    assert Get(a, LockedField) == Get(b, LockedField);
    assert Get(a, OnField) == Get(b, OnField);
    assert Get(a, MinimizedField) == Get(b, MinimizedField);
    assert Get(a, SplashOnField) == Get(b, SplashOnField);
  }

  /**
   * The record update `{ ...c, [key]: value }`: the named field takes the
   * new value and every other field keeps its old one.
   */
  function With(c: LampConfig, v: FieldValue): (r: LampConfig)
    ensures Get(r, KeyOf(v)) == v
    ensures forall f :: f != KeyOf(v) ==> Get(r, f) == Get(c, f)
  {
    match v
    case ThemeValue(t) => c.(theme := t)
    case ColorValue(k) => c.(color := k)
    case SizeValue(s) => c.(size := s)
    case SpeedValue(s) => c.(speed := s)
    case SplashOpacityValue(o) => c.(splashOpacity := o)
    case LockedValue(b) => c.(isLocked := b)
    case OnValue(b) => c.(isOn := b)
    case MinimizedValue(b) => c.(isMinimized := b)
    case SplashOnValue(b) => c.(isSplashOn := b)
  }

  /** One wax blob: its identity, horizontal offset (percent), radius and animation timing. */
  datatype BlobConfig = BlobConfig(
    id: int,
    x: real,
    size: real,
    duration: real,
    delay: real,
    opacity: real)

  // ---------------------------------------------------------------------------
  // Internationalisation
  // ---------------------------------------------------------------------------

  datatype Language = En | Zh | Ja

  /** The key under which a language's string table is stored. */
  function Tag(l: Language): string {
    match l
    case En => "en"
    case Zh => "zh"
    case Ja => "ja"
  }

  /** One language's interface strings. */
  datatype Strings = Strings(
    title: string, locked: string, unlocked: string, theme: string,
    themeLight: string, themeDark: string, themeAuto: string, color: string,
    size: string, speed: string, opacity: string, splash: string,
    minimize: string, gift: string, copyright: string, strike: string,
    waiting: string)

  /** The string tables, keyed by language tag. */
  const Translations: map<string, Strings> := map[
    "zh" := Strings(
      "RetroFlow", "已锁定 (允许点击)", "未锁定 (允许拖动)", "外观主题",
      "亮色", "枪灰", "自动", "熔岩配色",
      "尺寸大小", "流动速度", "灯光强度", "环境光效",
      "最小化", "ST 的一份礼物", "©Copyright PILIPLAN", "快速连击3次复活",
      "冷却中..."),
    "ja" := Strings(
      "RetroFlow", "ロック中 (クリック可)", "ロック解除 (ドラッグ可)", "テーマ",
      "ライト", "ガンメタル", "自動", "配色",
      "サイズ", "速度", "光の強度", "環境光",
      "最小化", "ST からの贈り物", "©Copyright PILIPLAN", "3回連打で復活",
      "冷却中..."),
    "en" := Strings(
      "RetroFlow", "Locked (Clickable)", "Unlocked (Draggable)", "Appearance",
      "Light", "Gunmetal", "Auto", "Color",
      "Size", "Speed", "Light Opacity", "Ambient Light",
      "Minimize", "A Gift from ST", "©Copyright PILIPLAN", "STRIKE x 3",
      "WAITING...")
  ]

  /** Every language has a string table, and every table belongs to a language. */
  lemma TranslationsCoverLanguages(l: Language)
    ensures Tag(l) in Translations
    ensures forall k :: k in Translations ==> k == Tag(En) || k == Tag(Zh) || k == Tag(Ja)
  {
  }

  /**
   * The browser's navigator as far as language detection reads it. A
   * missing list or string behaves exactly like an empty one under the
   * JavaScript truthiness tests used, so absence is written as empty.
   */
  datatype Navigator = Navigator(
    languages: seq<string>,
    language: string,
    userLanguage: string,
    browserLanguage: string)

  /** ASCII lower-casing of one character. */
  function LowerChar(c: char): char {
    if 'A' <= c <= 'Z' then (c as int - 'A' as int + 'a' as int) as char else c
  }

  function Lower(s: string): (r: string)
    ensures |r| == |s|
    ensures forall i :: 0 <= i < |s| ==> r[i] == LowerChar(s[i])
  {
    seq(|s|, i requires 0 <= i < |s| => LowerChar(s[i]))
  }

  /** `s` begins with the lower-case word `p` when case is ignored. */
  ghost predicate StartsIgnoringCase(s: string, p: string) {
    |p| <= |s| && forall i :: 0 <= i < |p| ==> LowerChar(s[i]) == p[i]
  }

  /** The tag that detection inspects: the first source that is present, in priority order. */
  function PreferredTag(nav: Navigator): (tag: string)
    ensures |nav.languages| > 0 ==> tag == nav.languages[0]
    ensures |nav.languages| == 0 && nav.language != "" ==> tag == nav.language
    ensures |nav.languages| == 0 && nav.language == "" && nav.userLanguage != "" ==> tag == nav.userLanguage
    ensures (|nav.languages| == 0 && nav.language == "" && nav.userLanguage == ""
             && nav.browserLanguage != "") ==> tag == nav.browserLanguage
    ensures (|nav.languages| == 0 && nav.language == "" && nav.userLanguage == ""
             && nav.browserLanguage == "") ==> tag == "en"
  {
    if |nav.languages| > 0 then nav.languages[0]
    else if nav.language != "" then nav.language
    else if nav.userLanguage != "" then nav.userLanguage
    else if nav.browserLanguage != "" then nav.browserLanguage
    else "en"
  }

  /** Maps a language tag to a supported language by its case-insensitive prefix. */
  function ClassifyTag(tag: string): (l: Language)
    ensures l == Zh <==> StartsIgnoringCase(tag, "zh")
    ensures l == Ja <==> !StartsIgnoringCase(tag, "zh") && StartsIgnoringCase(tag, "ja")
    ensures l == En <==> !StartsIgnoringCase(tag, "zh") && !StartsIgnoringCase(tag, "ja")
  {
    var lower := Lower(tag);
    if "zh" <= lower then Zh
    else if "ja" <= lower then Ja
    else En
  }

  /** Two tags that agree once lower-cased are classified alike. */
  lemma {:induction false} ClassifyIgnoresCase(a: string, b: string)
    requires Lower(a) == Lower(b)
    ensures ClassifyTag(a) == ClassifyTag(b)
  {
    assert |a| == |b|;
    forall p | p == "zh" || p == "ja"
      ensures StartsIgnoringCase(a, p) <==> StartsIgnoringCase(b, p)
    {
      if |p| <= |a| {
        forall i | 0 <= i < |p| ensures LowerChar(a[i]) == LowerChar(b[i]) {
          assert Lower(a)[i] == Lower(b)[i];
        }
      }
    }
  }

  /**
   * Detects the interface language; `None` stands for an environment with
   * no navigator at all.
   */
  function BrowserLanguage(nav: Option<Navigator>): (l: Language)
    ensures nav.None? ==> l == En
    ensures nav.Some? ==> l == ClassifyTag(PreferredTag(nav.value))
    ensures Tag(l) in Translations
  {
    match nav
    case None => En
    case Some(n) => ClassifyTag(PreferredTag(n))
  }
}
