/** The theme (src/theme/ThemeContext.tsx and src/theme/colors.tsx): light or
    dark, three contrast levels layered over the base palette, the choice of
    following the system scheme, and the three settings kept in storage. */
module Theme {
  import opened Wrappers

  /** The nine colour roles every palette has. */
  datatype Palette = Palette(
    background: string,
    text: string,
    primary: string,
    secondary: string,
    tertiary: string,
    buttonText: string,
    card: string,
    border: string,
    error: string)

  const LightColors: Palette :=
    Palette("#F5F9FC", "#37474F", "#00ACC1", "#FF704D", "#FFCCBC", "#FFFFFF", "#E3F2FD", "#CFD8DC", "#D32F2F")

  const DarkColors: Palette :=
    Palette("#263238", "#B2EBF2", "#00BCD4", "#FF4081", "#FFAB91", "#000000", "#1E3A3F", "#546E7A", "#FF5252")

  /** A partial palette: the roles a contrast level overrides. */
  datatype Patch = Patch(
    background: Option<string>,
    text: Option<string>,
    primary: Option<string>,
    secondary: Option<string>,
    tertiary: Option<string>,
    buttonText: Option<string>,
    card: Option<string>,
    border: Option<string>,
    error: Option<string>)

  const NoPatch: Patch := Patch(None, None, None, None, None, None, None, None, None)

  datatype Contrast = Normal | Medium | High

  /** The override table, by level and scheme. */
  function ContrastPatch(level: Contrast, dark: bool): Patch {
    match level
    case Normal => NoPatch
    case Medium =>
      if dark then Patch(Some("#142229"), Some("#FFFFFF"), Some("#00BCD4"), None, None, None, Some("#1A3036"), Some("#6D8290"), None)
      else Patch(Some("#FFFFFF"), Some("#263238"), Some("#00796B"), None, None, None, Some("#D9F0F3"), Some("#A0CED9"), None)
    case High =>
      if dark then
        Patch(Some("#000000"), Some("#FFFFFF"), Some("#00E5FF"), Some("#00E5FF"), Some("#FFFFFF"), Some("#000000"),
              Some("#000000"), Some("#FFFFFF"), Some("#FF1744"))
      else
        Patch(Some("#FFFFFF"), Some("#000000"), Some("#0000CC"), Some("#003366"), Some("#000000"), Some("#FFFFFF"),
              Some("#FFFFFF"), Some("#000000"), Some("#B71C1C"))
  }

  /** `{ ...base, ...patch }`: each role the patch sets wins, the rest come from the base. */
  function Spread(base: Palette, p: Patch): (r: Palette)
    ensures r.background == p.background.GetOr(base.background)
    ensures r.text == p.text.GetOr(base.text)
    ensures r.primary == p.primary.GetOr(base.primary)
    ensures r.secondary == p.secondary.GetOr(base.secondary)
    ensures r.tertiary == p.tertiary.GetOr(base.tertiary)
    ensures r.buttonText == p.buttonText.GetOr(base.buttonText)
    ensures r.card == p.card.GetOr(base.card)
    ensures r.border == p.border.GetOr(base.border)
    ensures r.error == p.error.GetOr(base.error)
  {
    Palette(p.background.GetOr(base.background), p.text.GetOr(base.text), p.primary.GetOr(base.primary),
            p.secondary.GetOr(base.secondary), p.tertiary.GetOr(base.tertiary), p.buttonText.GetOr(base.buttonText),
            p.card.GetOr(base.card), p.border.GetOr(base.border), p.error.GetOr(base.error))
  }

  /** The provider's state. */
  datatype Settings = Settings(dark: bool, contrast: Contrast, useSystem: bool)

  /** Light, normal contrast, following the system. */
  const Initial: Settings := Settings(false, Normal, true)

  /** The colours the provider hands out. */
  function Colors(s: Settings): Palette {
    Spread(if s.dark then DarkColors else LightColors, if s.contrast != Normal then ContrastPatch(s.contrast, s.dark) else NoPatch)
  }

  /** Normal contrast is exactly the base palette of the scheme. */
  lemma NormalIsBase(s: Settings)
    requires s.contrast == Normal
    ensures Colors(s) == if s.dark then DarkColors else LightColors
  {
  }

  /** Medium contrast changes only background, text, card, border and primary. */
  lemma MediumKeepsAccents(s: Settings)
    requires s.contrast == Medium
    ensures
      var base := if s.dark then DarkColors else LightColors;
      var c := Colors(s);
      && c.secondary == base.secondary && c.tertiary == base.tertiary
      && c.buttonText == base.buttonText && c.error == base.error
      && c.background != base.background && c.card != base.card && c.border != base.border
  {
  }

  /** High contrast replaces every role: the result no longer depends on the
      base palette, and text and background are pure black and white. */
  lemma HighReplacesAll(s: Settings, base: Palette)
    requires s.contrast == High
    ensures Colors(s) == Spread(base, ContrastPatch(High, s.dark))
    ensures Colors(s).text != Colors(s).background
    ensures {Colors(s).text, Colors(s).background} == {"#000000", "#FFFFFF"}
  {
  }

  /** The system's scheme as `useColorScheme()` reports it; `None` when unknown. */
  datatype Scheme = LightScheme | DarkScheme

  /** The system effect: while following the system, its scheme decides. */
  function FollowSystem(s: Settings, system: Option<Scheme>): (r: Settings)
    ensures r.contrast == s.contrast && r.useSystem == s.useSystem
    ensures s.useSystem && system.Some? ==> r.dark == (system.value == DarkScheme)
    ensures !(s.useSystem && system.Some?) ==> r == s
  {
    if s.useSystem && system.Some? then s.(dark := system.value == DarkScheme) else s
  }

  /** `toggleTheme()`: the other scheme, and the system no longer followed. */
  function Toggle(s: Settings): (r: Settings)
    ensures r.dark != s.dark && !r.useSystem && r.contrast == s.contrast
  {
    s.(dark := !s.dark, useSystem := false)
  }

  /** Toggling twice restores the scheme; and a manual toggle is never undone
      by the system scheme. */
  lemma ToggleTwice(s: Settings, system: Option<Scheme>)
    ensures Toggle(Toggle(s)).dark == s.dark
    ensures Toggle(Toggle(s)) == s.(useSystem := false)
    ensures FollowSystem(Toggle(s), system) == Toggle(s)
  {
  }

  /** `setUseSystemTheme(use)` followed by the system effect it triggers. */
  function SetUseSystem(s: Settings, use: bool, system: Option<Scheme>): (r: Settings)
    ensures r.useSystem == use && r.contrast == s.contrast
    ensures use && system.Some? ==> r.dark == (system.value == DarkScheme)
    ensures !(use && system.Some?) ==> r.dark == s.dark
  {
    FollowSystem(s.(useSystem := use), system)
  }

  /** Turning the system scheme back on after a manual toggle hands the scheme
      back to the system. */
  lemma SystemOverridesToggle(s: Settings, scheme: Scheme)
    ensures SetUseSystem(Toggle(s), true, Some(scheme)).dark == (scheme == DarkScheme)
    ensures SetUseSystem(Toggle(s), true, Some(scheme)) == SetUseSystem(s, true, Some(scheme))
  {
  }

  /** `setContrastLevel(level)`: only the level changes. */
  function SetContrast(s: Settings, level: Contrast): (r: Settings)
    ensures r.contrast == level && r.dark == s.dark && r.useSystem == s.useSystem
  {
    s.(contrast := level)
  }

  function ContrastName(c: Contrast): string {
    match c
    case Normal => "normal"
    case Medium => "medium"
    case High => "high"
  }

  /** The level a stored string names, if it names one. */
  function ParseContrast(v: string): (r: Option<Contrast>)
    ensures r.Some? <==> v in {"normal", "medium", "high"}
    ensures r.Some? ==> ContrastName(r.value) == v
  {
    if v == "normal" then Some(Normal)
    else if v == "medium" then Some(Medium)
    else if v == "high" then Some(High)
    else None
  }

  lemma ContrastNameParses(c: Contrast)
    ensures ParseContrast(ContrastName(c)) == Some(c)
  {
  }

  const ThemeKey: string := "theme_mode"
  const ContrastKey: string := "contrast_level"
  const SystemKey: string := "use_system_theme"

  /** The save effect: what the three keys hold afterwards. */
  function Persist(s: Settings): (store: map<string, string>)
    ensures store.Keys == {ThemeKey, ContrastKey, SystemKey}
    ensures store[ThemeKey] == "dark" <==> s.dark
    ensures store[SystemKey] == "true" <==> s.useSystem
    ensures ParseContrast(store[ContrastKey]) == Some(s.contrast)
  {
    ContrastNameParses(s.contrast);
    map[ThemeKey := if s.dark then "dark" else "light",
        ContrastKey := ContrastName(s.contrast),
        SystemKey := if s.useSystem then "true" else "false"]
  }

  /** The catch branch of the load: the system scheme, when there is one. */
  function Fallback(s: Settings, system: Option<Scheme>): (r: Settings)
    ensures r.contrast == s.contrast && r.useSystem == s.useSystem
    ensures system.Some? ==> r.dark == (system.value == DarkScheme)
    ensures system.None? ==> r == s
  {
    if system.Some? then s.(dark := system.value == DarkScheme) else s
  }

  /** The load effect. The three reads happen in order; `throwsAt` names the
      read (0, 1 or 2) that throws, if one does, and what was applied before
      it stays applied. */
  function Load(s: Settings, system: Option<Scheme>, store: map<string, string>, throwsAt: Option<nat>): (r: Settings)
    ensures throwsAt == Some(0) ==> r == Fallback(s, system)
    ensures throwsAt.None? && ThemeKey in store && store[ThemeKey] != "" ==> r.dark == (store[ThemeKey] == "dark")
    ensures throwsAt.None? && !(ThemeKey in store && store[ThemeKey] != "") ==>
      r.dark == if system.Some? then system.value == DarkScheme else s.dark
    ensures throwsAt.None? && SystemKey in store ==> r.useSystem == (store[SystemKey] == "true")
    ensures throwsAt.None? && SystemKey !in store ==> r.useSystem == s.useSystem
    ensures throwsAt.None? && ContrastKey in store && ParseContrast(store[ContrastKey]).Some? ==>
      r.contrast == ParseContrast(store[ContrastKey]).value
    ensures !(ContrastKey in store && ParseContrast(store[ContrastKey]).Some?) ==> r.contrast == s.contrast
  {
    if throwsAt == Some(0) then Fallback(s, system)
    else
      var s1 := if SystemKey in store then s.(useSystem := store[SystemKey] == "true") else s;
      if throwsAt == Some(1) then Fallback(s1, system)
      else
        var s2 :=
          if ThemeKey in store && store[ThemeKey] != "" then s1.(dark := store[ThemeKey] == "dark")
          else if system.Some? then s1.(dark := system.value == DarkScheme)
          else s1;
        if throwsAt == Some(2) then Fallback(s2, system)
        else if ContrastKey in store && ParseContrast(store[ContrastKey]).Some? then
          s2.(contrast := ParseContrast(store[ContrastKey]).value)
        else s2
  }

  /** What was saved is what is loaded, whatever the state the provider
      started from and whatever the system scheme. */
  lemma LoadPersistRoundTrip(saved: Settings, start: Settings, system: Option<Scheme>)
    ensures Load(start, system, Persist(saved), None) == saved
  {
    var store := Persist(saved);
    assert store[ThemeKey] != "";
  }

  /** A stored contrast that names no level is ignored. */
  lemma UnknownContrastIgnored(s: Settings, system: Option<Scheme>, store: map<string, string>)
    requires ContrastKey in store && store[ContrastKey] == "extreme"
    ensures Load(s, system, store, None).contrast == s.contrast
  {
  }
}
