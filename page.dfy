/**
 * The page controller: the state the page script keeps in the document, in
 * browser storage and in its one global variable, and the handlers that
 * update it in place.  Element presence is an `Option`: a handler whose
 * element the page lacks is either never registered or returns early, and
 * the model then leaves the state as it is.
 */
module PageController {
  import opened Wrappers
  import opened Languages
  import opened Translation
  import Theme
  import LanguageDropdown
  import MobileMenu
  import Scrolling

  /** The flag image inside the current-language button. */
  datatype Flag = Flag(src: string, alt: string)

  /** The current-language button: its flag image and its label span, either of which may be missing. */
  datatype LanguageButton = LanguageButton(flag: Option<Flag>, span: Option<string>)

  /** The button after showing profile `p`: flag path and name on the image, upper-cased code on the label span. */
  function LabelButton(b: Option<LanguageButton>, p: Profile): (r: Option<LanguageButton>)
    ensures r.Some? == b.Some?
    ensures r.Some? ==> r.value.flag.Some? == b.value.flag.Some? && r.value.span.Some? == b.value.span.Some?
    ensures r.Some? && r.value.flag.Some? ==> r.value.flag.value == Flag(p.flag, p.name)
    ensures r.Some? && r.value.span.Some? ==> r.value.span.value == ToUpper(p.code)
  {
    match b
    case None => None
    case Some(LanguageButton(flag, span)) =>
      Some(LanguageButton(
        if flag.Some? then Some(Flag(p.flag, p.name)) else None,
        if span.Some? then Some(ToUpper(p.code)) else None))
  }

  /** Everything a language switch reads or writes. */
  datatype LanguageView = LanguageView(
    current: string,
    documentLang: string,
    storage: map<string, string>,
    button: Option<LanguageButton>,
    elements: seq<Element>)

  /**
   * The effect of `changeLanguage(code)`: nothing at all for a code without a
   * profile; otherwise the code becomes current, the document language and the
   * stored preference, the button shows the profile, and every element is
   * rendered in the profile's language.
   */
  function Switched(v: LanguageView, code: string): (r: LanguageView)
    ensures !Supported(code) ==> r == v
    ensures Supported(code) ==>
              && r.current == code && r.documentLang == code
              && r.storage == v.storage[LanguageKey := code]
              && r.button == LabelButton(v.button, Config[code])
              && r.elements == RenderPage(v.elements, Config[code])
  {
    if Supported(code) then
      var p := Config[code];
      LanguageView(code, code, v.storage[LanguageKey := code], LabelButton(v.button, p), RenderPage(v.elements, p))
    else v
  }

  /** Switching to the same language twice gives the same state as switching once. */
  lemma SwitchIdempotent(v: LanguageView, code: string)
    ensures Switched(Switched(v, code), code) == Switched(v, code)
  {
    if Supported(code) {
      var p := Config[code];
      RenderPageIdempotent(v.elements, p);
      var b := LabelButton(v.button, p);
      assert LabelButton(b, p) == b;
    }
  }

  /**
   * With the own-key guard a switch keeps the current language a code of the
   * table, and an accepted code's profile carries that code.
   */
  lemma SwitchKeepsDefinedCode(v: LanguageView, code: string)
    requires v.current in Config
    ensures Switched(v, code).current in Config
    ensures Supported(code) ==> Config[Switched(v, code).current].code == code
  {
    if Supported(code) {
      ProfileCode(code);
    }
  }

  /** After a successful switch the stored preference names the new language, so a reload asks for it again. */
  lemma SwitchPersists(v: LanguageView, code: string)
    requires Supported(code)
    ensures SavedLanguage(Switched(v, code).storage) == code
    ensures Switched(v, code).button.Some? && Switched(v, code).button.value.span.Some? ==>
              Switched(v, code).button.value.span.value == ToUpper(code)
  {
    SavedLanguageRoundTrip(v.storage, code);
    ProfileCode(code);
  }

  /** The Portuguese switch labels a button that has a label span with "PT". */
  lemma PortugueseLabel(v: LanguageView)
    requires v.button.Some? && v.button.value.span.Some?
    ensures Switched(v, "pt").button.value.span == Some("PT")
  {
    UpperLabels();
  }

  /**
   * Counterexample for `initApp` as written: with "dark" stored, the body ends
   * dark while the RGB variable is forced to the light value.  Two theme
   * toggles from that state give back the look but move the variable to the
   * dark value.
   */
  lemma InitAppRgbMismatch(l: Theme.Look)
    ensures var storage := map[Theme.ThemeKey := Theme.DarkValue];
            var look := Theme.Loaded(l, storage);
            && Theme.IsDark(look.body) && Theme.LightRgb != Theme.RgbFor(look.body)
            && Theme.ToggledView(Theme.ToggledView(Theme.ThemeView(look, Theme.LightRgb, storage))).rgb == Theme.DarkRgb
  {
    var storage := map[Theme.ThemeKey := Theme.DarkValue];
    Theme.ToggleViewTwiceRealignsRgb(Theme.ThemeView(Theme.Loaded(l, storage), Theme.LightRgb, storage));
  }

  class Page {
    /** The script's global current language. */
    var currentLanguage: string
    /** The `lang` attribute of the document element. */
    var documentLang: string
    /** The browser's key-value store. */
    var storage: map<string, string>
    /** The current-language button (`#current-language`). */
    var languageButton: Option<LanguageButton>
    /** Every element of the document, in document order. */
    const elements: array<Element>
    /** Whether the page has the language selector (`#language-selector`). */
    const hasSelector: bool
    /** Inline style of the language dropdown (`.language-dropdown`). */
    var dropdown: Option<LanguageDropdown.Style>
    /** Class set of the body. */
    var body: Option<set<string>>
    /** Class set of the theme toggle's icon (absent when the toggle or its icon is). */
    var themeIcon: Option<set<string>>
    /** The `--color-blanco-rgb` property of the document element. */
    var rgbVariable: string
    /** Whether the page has the mobile-menu button (`#mobile-menu`). */
    const hasMenuButton: bool
    /** Class set of the navigation panel (`#main-nav`). */
    var nav: Option<set<string>>
    /** Class set of the menu button's icon. */
    var menuIcon: Option<set<string>>
    /** Inline style of the header. */
    var header: Option<Scrolling.HeaderStyle>

    /** The current language is always a code with a profile. */
    ghost predicate Valid()
      reads this
    {
      currentLanguage in Config
    }

    /** The page as loaded, before the script runs: the current language starts as "es". */
    constructor(
      storage: map<string, string>, documentLang: string, elements: array<Element>,
      languageButton: Option<LanguageButton>, hasSelector: bool, dropdown: Option<LanguageDropdown.Style>,
      body: Option<set<string>>, themeIcon: Option<set<string>>, rgbVariable: string,
      hasMenuButton: bool, nav: Option<set<string>>, menuIcon: Option<set<string>>,
      header: Option<Scrolling.HeaderStyle>)
      ensures Valid() && currentLanguage == DefaultLanguage
      ensures this.storage == storage && this.documentLang == documentLang && this.elements == elements
      ensures this.languageButton == languageButton && this.hasSelector == hasSelector && this.dropdown == dropdown
      ensures this.body == body && this.themeIcon == themeIcon && this.rgbVariable == rgbVariable
      ensures this.hasMenuButton == hasMenuButton && this.nav == nav && this.menuIcon == menuIcon
      ensures this.header == header
    {
      this.currentLanguage := DefaultLanguage;
      this.storage := storage;
      this.documentLang := documentLang;
      this.elements := elements;
      this.languageButton := languageButton;
      this.hasSelector := hasSelector;
      this.dropdown := dropdown;
      this.body := body;
      this.themeIcon := themeIcon;
      this.rgbVariable := rgbVariable;
      this.hasMenuButton := hasMenuButton;
      this.nav := nav;
      this.menuIcon := menuIcon;
      this.header := header;
    }

    /** The part of the page a language switch reads or writes. */
    ghost function LanguageState(): LanguageView
      reads this, elements
    {
      LanguageView(currentLanguage, documentLang, storage, languageButton, elements[..])
    }

    // -----------------------------------------------------------------
    // Language and prices
    // -----------------------------------------------------------------

    method UpdateLanguageButton(p: Profile)
      modifies this`languageButton
      ensures languageButton == LabelButton(old(languageButton), p)
    {
      match languageButton
      case None =>
      case Some(LanguageButton(flag, span)) =>
        var newFlag := if flag.Some? then Some(Flag(p.flag, p.name)) else None;
        var newLabel := if span.Some? then Some(ToUpper(p.code)) else None;
        languageButton := Some(LanguageButton(newFlag, newLabel));
    }

    /** The text pass: `[data-es]` elements get their translation for `code`. */
    method TranslateTexts(code: string)
      modifies elements
      ensures forall j :: 0 <= j < elements.Length ==> elements[j] == TranslateText(old(elements[j]), code)
    {
      for i := 0 to elements.Length
        invariant forall j :: 0 <= j < i ==> elements[j] == TranslateText(old(elements[j]), code)
        invariant forall j :: i <= j < elements.Length ==> elements[j] == old(elements[j])
      {
        elements[i] := TranslateText(elements[i], code);
      }
    }

    /** One attribute pass: `[data-es-<attribute>]` elements get that attribute translated. */
    method TranslateAttributes(code: string, a: Attribute)
      modifies elements
      ensures forall j :: 0 <= j < elements.Length ==> elements[j] == TranslateAttribute(old(elements[j]), code, a)
    {
      for i := 0 to elements.Length
        invariant forall j :: 0 <= j < i ==> elements[j] == TranslateAttribute(old(elements[j]), code, a)
        invariant forall j :: i <= j < elements.Length ==> elements[j] == old(elements[j])
      {
        elements[i] := TranslateAttribute(elements[i], code, a);
      }
    }

    /** `translatePage`: the text pass, then the placeholder, title and alt passes. */
    method TranslatePage(p: Profile)
      modifies elements
      ensures forall j :: 0 <= j < elements.Length ==> elements[j] == TranslateElement(old(elements[j]), p.code)
    {
      TranslateTexts(p.code);
      ghost var afterText := elements[..];
      TranslateAttributes(p.code, Placeholder);
      ghost var afterPlaceholder := elements[..];
      TranslateAttributes(p.code, Title);
      ghost var afterTitle := elements[..];
      TranslateAttributes(p.code, Alt);
      forall j | 0 <= j < elements.Length
        ensures elements[j] == TranslateElement(old(elements[j]), p.code)
      {
        assert afterText[j] == TranslateText(old(elements[j]), p.code);
        assert afterPlaceholder[j] == TranslateAttribute(afterText[j], p.code, Placeholder);
        assert afterTitle[j] == TranslateAttribute(afterPlaceholder[j], p.code, Title);
      }
    }

    /** A price pass over the elements with class `cls` (`.product-price`, `.featured-price`). */
    method UpdatePricesOfClass(cls: string, prices: map<string, string>)
      modifies elements
      ensures forall j :: 0 <= j < elements.Length ==>
                elements[j] == if cls in old(elements[j]).classes then PriceText(old(elements[j]), prices)
                               else old(elements[j])
    {
      for i := 0 to elements.Length
        invariant forall j :: 0 <= j < i ==>
                    elements[j] == if cls in old(elements[j]).classes then PriceText(old(elements[j]), prices)
                                   else old(elements[j])
        invariant forall j :: i <= j < elements.Length ==> elements[j] == old(elements[j])
      {
        if cls in elements[i].classes {
          elements[i] := PriceText(elements[i], prices);
        }
      }
    }

    /** The last price pass: `[data-price]` elements of neither price class. */
    method UpdateOtherPrices(prices: map<string, string>)
      modifies elements
      ensures forall j :: 0 <= j < elements.Length ==>
                elements[j] == if ProductPrice !in old(elements[j]).classes && FeaturedPrice !in old(elements[j]).classes
                               then PriceText(old(elements[j]), prices) else old(elements[j])
    {
      for i := 0 to elements.Length
        invariant forall j :: 0 <= j < i ==>
                    elements[j] == if ProductPrice !in old(elements[j]).classes && FeaturedPrice !in old(elements[j]).classes
                                   then PriceText(old(elements[j]), prices) else old(elements[j])
        invariant forall j :: i <= j < elements.Length ==> elements[j] == old(elements[j])
      {
        var e := elements[i];
        if e.price.Some? && ProductPrice !in e.classes && FeaturedPrice !in e.classes {
          elements[i] := PriceText(e, prices);
        }
      }
    }

    /**
     * `updatePrices`: the product, featured and remaining price passes.
     * Together they rewrite every priced element once.
     */
    method UpdatePrices(p: Profile)
      modifies elements
      ensures forall j :: 0 <= j < elements.Length ==> elements[j] == PriceText(old(elements[j]), p.prices)
    {
      ghost var before := elements[..];
      UpdatePricesOfClass(ProductPrice, p.prices);
      ghost var afterProduct := elements[..];
      UpdatePricesOfClass(FeaturedPrice, p.prices);
      ghost var afterFeatured := elements[..];
      UpdateOtherPrices(p.prices);
      forall j | 0 <= j < elements.Length
        ensures elements[j] == PriceText(before[j], p.prices)
      {
        PriceTextIdempotent(before[j], p.prices);
        assert afterFeatured[j].classes == before[j].classes;
      }
    }

    /**
     * `changeLanguage(code)`: reports whether `code` has a profile; with one,
     * applies the switch described by `Switched`, and without one changes nothing.
     */
    method ChangeLanguage(code: string) returns (ok: bool)
      requires Valid()
      modifies this`currentLanguage, this`languageButton, this`documentLang, this`storage, elements
      ensures Valid()
      ensures ok == Supported(code)
      ensures LanguageState() == Switched(old(LanguageState()), code)
    {
      if !Supported(code) {
        return false;
      }
      ProfileCode(code);
      var p := Config[code];
      ghost var before := elements[..];
      currentLanguage := code;
      UpdateLanguageButton(p);
      TranslatePage(p);
      ghost var translated := elements[..];
      UpdatePrices(p);
      documentLang := code;
      storage := storage[LanguageKey := code];
      ok := true;
      forall k | 0 <= k < |before|
        ensures elements[..][k] == Render(before[k], p)
      {
        assert translated[k] == TranslateElement(before[k], code);
      }
      RenderPageOfElements(before, elements[..], p);
    }

    /** `loadLanguage`: switch to the stored language, or to "es" when none is stored. */
    method LoadLanguage() returns (ok: bool)
      requires Valid()
      modifies this`currentLanguage, this`languageButton, this`documentLang, this`storage, elements
      ensures Valid()
      ensures ok == Supported(SavedLanguage(old(storage)))
      ensures LanguageState() == Switched(old(LanguageState()), SavedLanguage(old(storage)))
    {
      ok := ChangeLanguage(SavedLanguage(storage));
    }

    // -----------------------------------------------------------------
    // Language selector
    // -----------------------------------------------------------------

    method ShowLanguageDropdown()
      modifies this`dropdown
      ensures dropdown == if old(dropdown).Some? then Some(LanguageDropdown.Shown) else None
    {
      if dropdown.Some? {
        dropdown := Some(LanguageDropdown.Shown);
      }
    }

    method HideLanguageDropdown()
      modifies this`dropdown
      ensures dropdown == if old(dropdown).Some? then Some(LanguageDropdown.Hidden) else None
    {
      if dropdown.Some? {
        dropdown := Some(LanguageDropdown.Hidden);
      }
    }

    /**
     * A click on the current-language button, whose handler exists only when
     * the page has the selector, the button and the dropdown: it flips the
     * dropdown between shown and hidden.
     */
    method ClickLanguageButton()
      modifies this`dropdown
      ensures if hasSelector && languageButton.Some? && old(dropdown).Some?
              then dropdown == Some(LanguageDropdown.AfterTriggerClick(old(dropdown).value))
              else dropdown == old(dropdown)
    {
      if hasSelector && languageButton.Some? && dropdown.Some? {
        if LanguageDropdown.IsVisible(dropdown.value) {
          HideLanguageDropdown();
        } else {
          ShowLanguageDropdown();
        }
      }
    }

    /** A click on a language option carrying `code`: switch language, then hide the dropdown. */
    method ClickLanguageOption(code: string)
      requires Valid()
      modifies this`currentLanguage, this`languageButton, this`documentLang, this`storage, elements
      modifies this`dropdown
      ensures Valid()
      ensures hasSelector ==> LanguageState() == Switched(old(LanguageState()), code)
      ensures hasSelector ==> dropdown == if old(dropdown).Some? then Some(LanguageDropdown.Hidden) else None
      ensures !hasSelector ==> LanguageState() == old(LanguageState()) && dropdown == old(dropdown)
    {
      if hasSelector {
        var _ := ChangeLanguage(code);
        HideLanguageDropdown();
      }
    }

    /** A click that reaches the document: the dropdown is hidden. */
    method ClickDocument()
      modifies this`dropdown
      ensures hasSelector ==> dropdown == if old(dropdown).Some? then Some(LanguageDropdown.Hidden) else None
      ensures !hasSelector ==> dropdown == old(dropdown)
    {
      if hasSelector {
        HideLanguageDropdown();
      }
    }

    // -----------------------------------------------------------------
    // Theme
    // -----------------------------------------------------------------

    ghost function ThemeLook(): Theme.Look
      reads this
      requires body.Some? && themeIcon.Some?
    {
      Theme.Look(body.value, themeIcon.value)
    }

    /** The page's theme state: look, RGB variable and store. */
    ghost function ThemeState(): Theme.ThemeView
      reads this
      requires body.Some? && themeIcon.Some?
    {
      Theme.ThemeView(ThemeLook(), rgbVariable, storage)
    }

    /** `updateRGBVariables`: the variable follows the body's dark-mode class. */
    method UpdateRGBVariables()
      requires body.Some?
      modifies this`rgbVariable
      ensures rgbVariable == Theme.RgbFor(body.value)
    {
      if Theme.DarkMode in body.value {
        rgbVariable := Theme.DarkRgb;
      } else {
        rgbVariable := Theme.LightRgb;
      }
    }

    /**
     * `toggleTheme`: with body and icon present, flip the look, persist the new
     * theme and re-derive the RGB variable; otherwise do nothing.
     */
    method ToggleTheme()
      modifies this`body, this`themeIcon, this`storage, this`rgbVariable
      ensures if old(body.Some? && themeIcon.Some?) then
                && body.Some? && themeIcon.Some?
                && ThemeState() == Theme.ToggledView(old(ThemeState()))
              else
                body == old(body) && themeIcon == old(themeIcon) && storage == old(storage)
                && rgbVariable == old(rgbVariable)
    {
      if body.None? || themeIcon.None? {
        return;
      }
      var classes, icon := body.value, themeIcon.value;
      if Theme.LightMode in classes {
        body := Some(classes - {Theme.LightMode} + {Theme.DarkMode});
        themeIcon := Some(icon - {Theme.MoonIcon} + {Theme.SunIcon});
        storage := storage[Theme.ThemeKey := Theme.DarkValue];
      } else {
        body := Some(classes - {Theme.DarkMode} + {Theme.LightMode});
        themeIcon := Some(icon - {Theme.SunIcon} + {Theme.MoonIcon});
        storage := storage[Theme.ThemeKey := Theme.LightValue];
      }
      UpdateRGBVariables();
    }

    /** `loadTheme`: apply the stored theme ("light" when none) and re-derive the RGB variable. */
    method LoadTheme()
      modifies this`body, this`themeIcon, this`rgbVariable
      ensures if old(body.Some? && themeIcon.Some?) then
                && body.Some? && themeIcon.Some?
                && ThemeLook() == Theme.Loaded(old(ThemeLook()), storage)
                && rgbVariable == Theme.RgbFor(body.value)
              else
                body == old(body) && themeIcon == old(themeIcon) && rgbVariable == old(rgbVariable)
    {
      var saved := Theme.SavedTheme(storage);
      if body.None? || themeIcon.None? {
        return;
      }
      var classes, icon := body.value, themeIcon.value;
      if saved == Theme.DarkValue {
        body := Some(classes - {Theme.LightMode} + {Theme.DarkMode});
        themeIcon := Some(icon - {Theme.MoonIcon} + {Theme.SunIcon});
      } else {
        body := Some(classes - {Theme.DarkMode} + {Theme.LightMode});
        themeIcon := Some(icon - {Theme.SunIcon} + {Theme.MoonIcon});
      }
      UpdateRGBVariables();
    }

    // -----------------------------------------------------------------
    // Mobile menu
    // -----------------------------------------------------------------

    /**
     * A click on the menu button (handler present when the page has the button
     * and the panel): flip the panel's `active` class and swap the icon marker
     * to match.  A button without an icon stops after the panel update.
     */
    method ClickMenuButton()
      modifies this`nav, this`menuIcon
      ensures if hasMenuButton && old(nav).Some? then
                && nav == Some(MobileMenu.ToggledNav(old(nav).value))
                && menuIcon == if old(menuIcon).Some?
                               then Some(MobileMenu.ToggledIcon(MobileMenu.IsOpen(old(nav).value), old(menuIcon).value))
                               else None
              else nav == old(nav) && menuIcon == old(menuIcon)
    {
      if !hasMenuButton || nav.None? {
        return;
      }
      var classes := nav.value;
      var wasOpen := MobileMenu.Active in classes;
      if wasOpen {
        nav := Some(classes - {MobileMenu.Active});
        if menuIcon.Some? {
          menuIcon := Some(menuIcon.value - {MobileMenu.Times} + {MobileMenu.Bars});
        }
      } else {
        nav := Some(classes + {MobileMenu.Active});
        if menuIcon.Some? {
          menuIcon := Some(menuIcon.value - {MobileMenu.Bars} + {MobileMenu.Times});
        }
      }
    }

    /** A click on a navigation link: the panel closes and the icon shows the open marker. */
    method ClickNavLink()
      modifies this`nav, this`menuIcon
      ensures if hasMenuButton && old(nav).Some? then
                && nav == Some(MobileMenu.ClosedNav(old(nav).value))
                && menuIcon == if old(menuIcon).Some? then Some(MobileMenu.ClosedIcon(old(menuIcon).value)) else None
              else nav == old(nav) && menuIcon == old(menuIcon)
    {
      if !hasMenuButton || nav.None? {
        return;
      }
      nav := Some(nav.value - {MobileMenu.Active});
      if menuIcon.Some? {
        menuIcon := Some(menuIcon.value - {MobileMenu.Times} + {MobileMenu.Bars});
      }
    }

    // -----------------------------------------------------------------
    // Header and start-up
    // -----------------------------------------------------------------

    /** A scroll event at vertical offset `scrollY` restyles the header, if there is one. */
    method OnScroll(scrollY: int)
      modifies this`header
      ensures header == if old(header).Some? then Some(Scrolling.HeaderStyleAt(scrollY)) else None
    {
      if header.Some? {
        if scrollY > Scrolling.Threshold {
          header := Some(Scrolling.ScrolledHeader);
        } else {
          header := Some(Scrolling.RestingHeader);
        }
      }
    }

    /**
     * `initApp` as written: load the theme, load the language, then force the
     * RGB variable to the light value whatever theme was loaded.
     */
    method InitAppAsWritten() returns (languageOk: bool)
      requires Valid()
      modifies this`body, this`themeIcon, this`rgbVariable
      modifies this`currentLanguage, this`languageButton, this`documentLang, this`storage, elements
      ensures Valid()
      ensures old(body.Some? && themeIcon.Some?) ==>
                body.Some? && themeIcon.Some? && ThemeLook() == Theme.Loaded(old(ThemeLook()), old(storage))
      ensures !old(body.Some? && themeIcon.Some?) ==> body == old(body) && themeIcon == old(themeIcon)
      ensures rgbVariable == Theme.LightRgb
      ensures languageOk == Supported(SavedLanguage(old(storage)))
      ensures LanguageState() == Switched(old(LanguageState()), SavedLanguage(old(storage)))
    {
      LoadTheme();
      languageOk := LoadLanguage();
      rgbVariable := Theme.LightRgb;
    }

    /**
     * `initApp` with the RGB variable re-derived from the loaded theme: theme
     * loaded from storage, language loaded from storage, and the variable
     * matching the body.
     */
    method InitApp() returns (languageOk: bool)
      requires Valid()
      modifies this`body, this`themeIcon, this`rgbVariable
      modifies this`currentLanguage, this`languageButton, this`documentLang, this`storage, elements
      ensures Valid()
      ensures old(body.Some? && themeIcon.Some?) ==>
                body.Some? && themeIcon.Some? && ThemeLook() == Theme.Loaded(old(ThemeLook()), old(storage))
      ensures !old(body.Some? && themeIcon.Some?) ==> body == old(body) && themeIcon == old(themeIcon)
      ensures body.Some? ==> rgbVariable == Theme.RgbFor(body.value)
      ensures body.None? ==> rgbVariable == Theme.LightRgb
      ensures languageOk == Supported(SavedLanguage(old(storage)))
      ensures LanguageState() == Switched(old(LanguageState()), SavedLanguage(old(storage)))
    {
      LoadTheme();
      languageOk := LoadLanguage();
      if body.Some? {
        UpdateRGBVariables();
      } else {
        rgbVariable := Theme.LightRgb;
      }
    }
  }
}
