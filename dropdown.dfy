/**
 * The language selector's dropdown, shown and hidden through three inline
 * style properties.  Whether it counts as open is read back from the
 * `visibility` property alone.
 */
module LanguageDropdown {
  datatype Style = Style(opacity: string, visibility: string, transform: string)

  const Shown: Style := Style("1", "visible", "translateY(5px)")
  const Hidden: Style := Style("0", "hidden", "translateY(-10px)")

  predicate IsVisible(s: Style)
  {
    s.visibility == "visible"
  }

  /** The trigger button's click: hide an open dropdown, show any other. */
  function AfterTriggerClick(s: Style): (r: Style)
    ensures IsVisible(r) == !IsVisible(s)
    ensures r == Shown || r == Hidden
  {
    if IsVisible(s) then Hidden else Shown
  }

  /** Two trigger clicks from a shown or hidden dropdown give back the same styles. */
  lemma TriggerTwice(s: Style)
    requires s == Shown || s == Hidden
    ensures AfterTriggerClick(AfterTriggerClick(s)) == s
  {
  }

  /** Before any click the inline styles are empty, so the first trigger click shows the dropdown. */
  lemma FirstClickShows()
    ensures AfterTriggerClick(Style("", "", "")) == Shown
  {
  }
}
