/**
 * The light/dark theme.  The theme lives in two marker classes on the body
 * (`light-mode`, `dark-mode`) and two on the toggle's icon (`fa-moon` for
 * light, `fa-sun` for dark); it is persisted under the storage key "theme" and
 * mirrored into the `--color-blanco-rgb` custom property.
 */
module Theme {
  const LightMode: string := "light-mode"
  const DarkMode: string := "dark-mode"
  const MoonIcon: string := "fa-moon"
  const SunIcon: string := "fa-sun"

  /** Storage key of the persisted theme. */
  const ThemeKey: string := "theme"
  const DarkValue: string := "dark"
  const LightValue: string := "light"

  /** The two values of `--color-blanco-rgb`. */
  const DarkRgb: string := "26, 26, 26"
  const LightRgb: string := "255, 255, 255"

  /** The class sets of the body and of the theme icon. */
  datatype Look = Look(body: set<string>, icon: set<string>)

  predicate IsDark(body: set<string>)
  {
    DarkMode in body
  }

  /** Exactly one mode class on the body, and the icon showing the matching marker only. */
  predicate Consistent(l: Look)
  {
    && (LightMode in l.body) != (DarkMode in l.body)
    && (IsDark(l.body) ==> SunIcon in l.icon && MoonIcon !in l.icon)
    && (!IsDark(l.body) ==> MoonIcon in l.icon && SunIcon !in l.icon)
  }

  /** Switch body and icon to dark, keeping every other class. */
  function Darkened(l: Look): (r: Look)
    ensures Consistent(r) && IsDark(r.body)
    ensures r.body - {LightMode, DarkMode} == l.body - {LightMode, DarkMode}
    ensures r.icon - {MoonIcon, SunIcon} == l.icon - {MoonIcon, SunIcon}
  {
    Look(l.body - {LightMode} + {DarkMode}, l.icon - {MoonIcon} + {SunIcon})
  }

  /** Switch body and icon to light, keeping every other class. */
  function Lightened(l: Look): (r: Look)
    ensures Consistent(r) && !IsDark(r.body)
    ensures r.body - {LightMode, DarkMode} == l.body - {LightMode, DarkMode}
    ensures r.icon - {MoonIcon, SunIcon} == l.icon - {MoonIcon, SunIcon}
  {
    Look(l.body - {DarkMode} + {LightMode}, l.icon - {SunIcon} + {MoonIcon})
  }

  /**
   * The toggle: a body that shows `light-mode` goes dark; any other body
   * (dark, or carrying neither class) goes light.
   */
  function Toggled(l: Look): (r: Look)
    ensures Consistent(r)
    ensures IsDark(r.body) <==> LightMode in l.body
    ensures r.body - {LightMode, DarkMode} == l.body - {LightMode, DarkMode}
    ensures r.icon - {MoonIcon, SunIcon} == l.icon - {MoonIcon, SunIcon}
  {
    if LightMode in l.body then Darkened(l) else Lightened(l)
  }

  /** The theme value persisted for a look. */
  function StoredValue(l: Look): (v: string)
    ensures v == DarkValue <==> IsDark(l.body)
    ensures v == DarkValue || v == LightValue
  {
    if IsDark(l.body) then DarkValue else LightValue
  }

  /** The value `--color-blanco-rgb` is given for a body. */
  function RgbFor(body: set<string>): (rgb: string)
    ensures rgb == DarkRgb <==> IsDark(body)
    ensures rgb == DarkRgb || rgb == LightRgb
  {
    if IsDark(body) then DarkRgb else LightRgb
  }

  /** The stored theme, read with the fallback "light" for a missing or empty entry. */
  function SavedTheme(storage: map<string, string>): (v: string)
    ensures ThemeKey in storage && storage[ThemeKey] != "" ==> v == storage[ThemeKey]
    ensures !(ThemeKey in storage && storage[ThemeKey] != "") ==> v == LightValue
  {
    if ThemeKey in storage && storage[ThemeKey] != "" then storage[ThemeKey] else LightValue
  }

  /** The look applied on load: dark exactly for the stored value "dark". */
  function Loaded(l: Look, storage: map<string, string>): (r: Look)
    ensures Consistent(r)
    ensures IsDark(r.body) <==> ThemeKey in storage && storage[ThemeKey] == DarkValue
    ensures r.body - {LightMode, DarkMode} == l.body - {LightMode, DarkMode}
    ensures r.icon - {MoonIcon, SunIcon} == l.icon - {MoonIcon, SunIcon}
  {
    if SavedTheme(storage) == DarkValue then Darkened(l) else Lightened(l)
  }

  /** From a consistent look the toggle flips the theme. */
  lemma ToggleFlips(l: Look)
    requires Consistent(l)
    ensures IsDark(Toggled(l).body) == !IsDark(l.body)
  {
  }

  /**
   * Two toggles from a consistent look give back the same body classes and
   * icon classes, so the RGB value and theme value derived from the look are
   * the starting look's.  What the page's variable and store hold is the
   * business of `ToggleViewTwice`.
   */
  lemma ToggleTwice(l: Look)
    requires Consistent(l)
    ensures Toggled(Toggled(l)) == l
    ensures RgbFor(Toggled(Toggled(l)).body) == RgbFor(l.body)
    ensures StoredValue(Toggled(Toggled(l))) == StoredValue(l)
  {
  }

  /** Everything `toggleTheme` reads or writes: the look, the RGB variable and the store. */
  datatype ThemeView = ThemeView(look: Look, rgb: string, storage: map<string, string>)

  /**
   * The effect of `toggleTheme` on the page: the look is toggled, the new
   * theme is stored and the RGB variable is re-derived from the new body.
   */
  function ToggledView(v: ThemeView): (r: ThemeView)
    ensures r.look == Toggled(v.look)
    ensures Consistent(r.look)
    ensures IsDark(r.look.body) <==> LightMode in v.look.body
    ensures r.rgb == RgbFor(r.look.body)
    ensures r.storage == v.storage[ThemeKey := StoredValue(r.look)]
  {
    var l := Toggled(v.look);
    ThemeView(l, RgbFor(l.body), v.storage[ThemeKey := StoredValue(l)])
  }

  /**
   * Two toggles give the page back its look and its RGB variable when the
   * variable matched the body beforehand; the store then holds the starting
   * theme, so it is unchanged exactly when it held that theme already.
   */
  lemma ToggleViewTwice(v: ThemeView)
    requires Consistent(v.look) && v.rgb == RgbFor(v.look.body)
    ensures ToggledView(ToggledView(v)).look == v.look
    ensures ToggledView(ToggledView(v)).rgb == v.rgb
    ensures ToggledView(ToggledView(v)).storage == v.storage[ThemeKey := StoredValue(v.look)]
    ensures ToggledView(ToggledView(v)) == v <==> ThemeKey in v.storage && v.storage[ThemeKey] == StoredValue(v.look)
  {
    ToggleTwice(v.look);
    var w := ToggledView(ToggledView(v));
    if w == v {
      assert v.storage[ThemeKey] == w.storage[ThemeKey];
    }
  }

  /** When the variable disagrees with the body, two toggles do not give it back. */
  lemma ToggleViewTwiceRealignsRgb(v: ThemeView)
    requires Consistent(v.look) && v.rgb != RgbFor(v.look.body)
    ensures ToggledView(ToggledView(v)).look == v.look
    ensures ToggledView(ToggledView(v)).rgb == RgbFor(v.look.body) != v.rgb
  {
    ToggleTwice(v.look);
  }

  /** Whatever the page showed before, loading a stored theme shows exactly that theme. */
  lemma LoadAfterToggleRestores(l: Look, m: Look, storage: map<string, string>)
    ensures var t := Toggled(l);
            IsDark(Loaded(m, storage[ThemeKey := StoredValue(t)]).body) == IsDark(t.body)
  {
  }
}
