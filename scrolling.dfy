/**
 * Scroll-driven behaviour: the header's two visual treatments chosen by a
 * strict threshold on the vertical scroll offset, and the destination of an
 * in-page anchor click.  Offsets are whole pixels.
 */
module Scrolling {
  import opened Wrappers

  const Threshold: int := 100

  datatype HeaderStyle = HeaderStyle(boxShadow: string, backdropFilter: string, backgroundColor: string)

  const ScrolledHeader: HeaderStyle :=
    HeaderStyle("var(--sombra-fuerte)", "blur(10px)", "rgba(var(--color-blanco-rgb), 0.95)")
  const RestingHeader: HeaderStyle :=
    HeaderStyle("var(--sombra-suave)", "none", "var(--color-blanco)")

  /** The header treatment for a vertical scroll offset. */
  function HeaderStyleAt(scrollY: int): (r: HeaderStyle)
    ensures r == ScrolledHeader <==> scrollY > Threshold
    ensures r == RestingHeader <==> scrollY <= Threshold
  {
    if scrollY > Threshold then ScrolledHeader else RestingHeader
  }

  /** The threshold is strict: 100 rests, 101 is scrolled; 150 then 50 applies and reverts. */
  lemma ThresholdIsStrict()
    ensures HeaderStyleAt(100) == RestingHeader && HeaderStyleAt(101) == ScrolledHeader
    ensures HeaderStyleAt(150) == ScrolledHeader && HeaderStyleAt(50) == RestingHeader
  {
  }

  /** Once the header is in its scrolled treatment, any larger offset keeps it there. */
  lemma HeaderMonotone(y1: int, y2: int)
    requires y1 <= y2 && HeaderStyleAt(y1) == ScrolledHeader
    ensures HeaderStyleAt(y2) == ScrolledHeader
  {
  }

  /**
   * The destination of an anchor click on `href`: nothing for the bare "#" or
   * for a fragment with no target element (`targets` gives each target's
   * document offset); otherwise the target's offset less the header's height,
   * which is 0 when the page has no header.
   */
  function ScrollTarget(href: string, targets: map<string, int>, headerHeight: Option<int>): (r: Option<int>)
    ensures r.Some? <==> href != "#" && href in targets
    ensures r.Some? ==> r.value + headerHeight.GetOr(0) == targets[href]
    ensures r.Some? && headerHeight.None? ==> r.value == targets[href]
    ensures r.Some? && headerHeight.Some? && headerHeight.value >= 0 ==> r.value <= targets[href]
  {
    if href == "#" then None
    else if href in targets then Some(targets[href] - headerHeight.GetOr(0))
    else None
  }
}
