/**
 * The mobile navigation: the panel's `active` class and the menu button's
 * icon marker (`fa-bars` when closed, `fa-times` when open).
 */
module MobileMenu {
  const Active: string := "active"
  const Bars: string := "fa-bars"
  const Times: string := "fa-times"

  predicate IsOpen(nav: set<string>)
  {
    Active in nav
  }

  /** Panel and icon agree: open exactly when the icon shows the close marker, and one marker only. */
  predicate InStep(nav: set<string>, icon: set<string>)
  {
    (IsOpen(nav) <==> Times in icon) && (Times in icon <==> Bars !in icon)
  }

  /** The panel classes after a menu-button click. */
  function ToggledNav(nav: set<string>): (r: set<string>)
    ensures IsOpen(r) == !IsOpen(nav)
    ensures r - {Active} == nav - {Active}
  {
    if IsOpen(nav) then nav - {Active} else nav + {Active}
  }

  /** The icon classes after a menu-button click, decided by whether the panel was open. */
  function ToggledIcon(wasOpen: bool, icon: set<string>): (r: set<string>)
    ensures wasOpen ==> Bars in r && Times !in r
    ensures !wasOpen ==> Times in r && Bars !in r
    ensures r - {Bars, Times} == icon - {Bars, Times}
  {
    if wasOpen then icon - {Times} + {Bars} else icon - {Bars} + {Times}
  }

  /** The panel classes after a navigation-link click. */
  function ClosedNav(nav: set<string>): (r: set<string>)
    ensures !IsOpen(r) && r - {Active} == nav - {Active}
  {
    nav - {Active}
  }

  /** The icon classes after a navigation-link click. */
  function ClosedIcon(icon: set<string>): (r: set<string>)
    ensures Bars in r && Times !in r && r - {Bars, Times} == icon - {Bars, Times}
  {
    icon - {Times} + {Bars}
  }

  /** A menu-button click leaves panel and icon in step, whatever they were before. */
  lemma ToggleInStep(nav: set<string>, icon: set<string>)
    ensures InStep(ToggledNav(nav), ToggledIcon(IsOpen(nav), icon))
  {
  }

  /** Two menu-button clicks from an in-step state give back the same classes. */
  lemma ToggleTwice(nav: set<string>, icon: set<string>)
    requires InStep(nav, icon)
    ensures ToggledNav(ToggledNav(nav)) == nav
    ensures ToggledIcon(IsOpen(ToggledNav(nav)), ToggledIcon(IsOpen(nav), icon)) == icon
  {
  }

  /** A navigation-link click always ends closed and in step. */
  lemma CloseInStep(nav: set<string>, icon: set<string>)
    ensures !IsOpen(ClosedNav(nav)) && InStep(ClosedNav(nav), ClosedIcon(icon))
  {
  }
}
