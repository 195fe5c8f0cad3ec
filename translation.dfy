/**
 * Per-element rewriting done by the language switch.  An element of the page
 * is a record of the fields the controller reads (tag, data attributes, price
 * key, classes) and the fields it writes (text, value, placeholder, title,
 * alt).  Each function here is the body of one `forEach` callback of the
 * controller, applied to one element.
 *
 * Data attributes are kept under their attribute names: the attribute
 * `data-X` is the entry with key `X` (so `data-pt-placeholder` is stored under
 * "pt-placeholder").  A browser's `dataset` exposes that entry under
 * `DatasetName(X)` instead ("ptPlaceholder"); the two agree for the keys
 * without hyphens that the text pass reads.  `data-price` is kept apart in
 * `price`.
 */
module Translation {
  import opened Wrappers
  import opened Languages

  datatype Element = Element(
    tag: string,
    dataset: map<string, string>,
    price: Option<string>,
    classes: set<string>,
    textContent: string,
    value: string,
    placeholder: string,
    title: string,
    alt: string)

  /** The attributes rewritten by the three attribute passes. */
  datatype Attribute = Placeholder | Title | Alt

  function Suffix(a: Attribute): string
  {
    match a
    case Placeholder => "-placeholder"
    case Title => "-title"
    case Alt => "-alt"
  }

  function Read(e: Element, a: Attribute): string
  {
    match a
    case Placeholder => e.placeholder
    case Title => e.title
    case Alt => e.alt
  }

  /** The element carries the data attribute `data-key` (an attribute selector match). */
  predicate Annotated(e: Element, key: string)
  {
    key in e.dataset
  }

  /** `element.dataset[key]` is truthy: present and not the empty string. */
  predicate Truthy(e: Element, key: string)
  {
    key in e.dataset && e.dataset[key] != ""
  }

  predicate IsTextInput(e: Element)
  {
    e.tag == "INPUT" || e.tag == "TEXTAREA"
  }

  /** The markup-owned part of an element, which the controller only reads. */
  predicate SameAnnotations(a: Element, b: Element)
  {
    a.tag == b.tag && a.dataset == b.dataset && a.price == b.price && a.classes == b.classes
  }

  /** A candidate of the text pass that has a translation for `code`. */
  predicate TextCandidate(e: Element, code: string)
  {
    Annotated(e, "es") && Truthy(e, code)
  }

  /**
   * The text pass callback: only elements with `data-es` are visited; one
   * with a non-empty translation gets it as value and placeholder when it is
   * an input or text area, is left to the price pass when it carries a price
   * key, and otherwise gets it as its text.
   */
  function TranslateText(e: Element, code: string): (r: Element)
    ensures SameAnnotations(r, e) && r.title == e.title && r.alt == e.alt
    ensures r != e ==> TextCandidate(e, code)
    ensures TextCandidate(e, code) && IsTextInput(e) ==>
              r.value == e.dataset[code] && r.placeholder == e.dataset[code] && r.textContent == e.textContent
    ensures TextCandidate(e, code) && !IsTextInput(e) && e.price.None? ==>
              r.textContent == e.dataset[code] && r.value == e.value && r.placeholder == e.placeholder
    ensures !IsTextInput(e) && e.price.Some? ==> r == e
  {
    if TextCandidate(e, code) then
      var translation := e.dataset[code];
      if IsTextInput(e) then e.(value := translation, placeholder := translation)
      else if e.price.Some? then e
      else e.(textContent := translation)
    else e
  }

  /**
   * The callback of one attribute pass: elements carrying `data-es<suffix>`
   * are visited, and one whose `code<suffix>` entry is non-empty gets exactly
   * that attribute rewritten.
   */
  function TranslateAttribute(e: Element, code: string, a: Attribute): (r: Element)
    ensures SameAnnotations(r, e) && r.textContent == e.textContent && r.value == e.value
    ensures forall b :: b != a ==> Read(r, b) == Read(e, b)
    ensures Read(r, a) ==
              if Annotated(e, "es" + Suffix(a)) && Truthy(e, code + Suffix(a))
              then e.dataset[code + Suffix(a)] else Read(e, a)
  {
    var key := code + Suffix(a);
    if Annotated(e, "es" + Suffix(a)) && Truthy(e, key) then
      match a
      case Placeholder => e.(placeholder := e.dataset[key])
      case Title => e.(title := e.dataset[key])
      case Alt => e.(alt := e.dataset[key])
    else e
  }

  /** No hyphen in `s` is followed by an ASCII lower-case letter. */
  predicate NoHyphenLower(s: string)
  {
    forall i :: 0 <= i < |s| - 1 ==> !(s[i] == '-' && 'a' <= s[i + 1] <= 'z')
  }

  /**
   * The name under which a browser's `dataset` exposes the attribute
   * `data-<k>`: every hyphen followed by an ASCII lower-case letter is dropped
   * and the letter upper-cased.
   */
  function DatasetName(k: string): (r: string)
    ensures NoHyphenLower(r)
    ensures |r| <= |k|
    ensures |k| > 0 && !('a' <= k[0] <= 'z') ==> |r| > 0 && !('a' <= r[0] <= 'z')
    decreases |k|
  {
    if |k| == 0 then ""
    else if |k| >= 2 && k[0] == '-' && 'a' <= k[1] <= 'z' then [UpperChar(k[1])] + DatasetName(k[2..])
    else [k[0]] + DatasetName(k[1..])
  }

  /** A key without hyphens is exposed under its own name. */
  lemma {:induction false} DatasetNameKeepsPlain(k: string)
    requires '-' !in k
    ensures DatasetName(k) == k
  {
    if |k| > 0 {
      assert '-' !in k[1..];
      DatasetNameKeepsPlain(k[1..]);
      assert k == [k[0]] + k[1..];
    }
  }

  /** `element.dataset[name]` in a browser: the entry of an attribute exposed under `name`, if any. */
  ghost function BrowserDataset(e: Element, name: string): (r: Option<string>)
    ensures r.Some? <==> exists k :: k in e.dataset && DatasetName(k) == name
    ensures r.Some? ==> exists k :: k in e.dataset && DatasetName(k) == name && e.dataset[k] == r.value
  {
    if exists k :: k in e.dataset && DatasetName(k) == name then
      var k :| k in e.dataset && DatasetName(k) == name; Some(e.dataset[k])
    else None
  }

  /**
   * One attribute pass as a browser runs it: the elements carrying
   * `data-es<suffix>` are visited, and the translation is looked up as
   * `dataset[code + suffix]`.
   */
  ghost function TranslateAttributeInBrowser(e: Element, code: string, a: Attribute): (r: Element)
    ensures SameAnnotations(r, e) && r.textContent == e.textContent && r.value == e.value
    ensures forall b :: b != a ==> Read(r, b) == Read(e, b)
    ensures var found := BrowserDataset(e, code + Suffix(a));
            Read(r, a) == if Annotated(e, "es" + Suffix(a)) && found.Some? && found.value != ""
                          then found.value else Read(e, a)
  {
    var found := BrowserDataset(e, code + Suffix(a));
    if Annotated(e, "es" + Suffix(a)) && found.Some? && found.value != "" then
      match a
      case Placeholder => e.(placeholder := found.value)
      case Title => e.(title := found.value)
      case Alt => e.(alt := found.value)
    else e
  }

  /**
   * In a browser no attribute is exposed under `<code>-placeholder`,
   * `<code>-title` or `<code>-alt`, so the attribute passes never write.
   */
  lemma BrowserAttributePassWritesNothing(e: Element, code: string, a: Attribute)
    ensures BrowserDataset(e, code + Suffix(a)) == None
    ensures TranslateAttributeInBrowser(e, code, a) == e
  {
    var name := code + Suffix(a);
    assert name[|code|] == '-' && 'a' <= name[|code| + 1] <= 'z';
    assert !NoHyphenLower(name);
  }

  /**
   * The input of the finding: a search box annotated for both languages keeps
   * its Spanish placeholder in a browser, while the pass as intended writes
   * the Portuguese one.
   */
  lemma BrowserPlaceholderExample()
    ensures var e := Element("INPUT", map["es-placeholder" := "Buscar", "pt-placeholder" := "Pesquisar"],
                             None, {}, "", "", "Buscar", "", "");
            && TranslateAttribute(e, "pt", Placeholder).placeholder == "Pesquisar"
            && TranslateAttributeInBrowser(e, "pt", Placeholder).placeholder == "Buscar"
  {
    var e := Element("INPUT", map["es-placeholder" := "Buscar", "pt-placeholder" := "Pesquisar"],
                     None, {}, "", "", "Buscar", "", "");
    assert "es" + Suffix(Placeholder) == "es-placeholder";
    assert "pt" + Suffix(Placeholder) == "pt-placeholder";
    BrowserAttributePassWritesNothing(e, "pt", Placeholder);
  }

  /** The attribute value the attribute pass for `a` writes, if any. */
  function AttributeTranslation(e: Element, code: string, a: Attribute): Option<string>
  {
    if Annotated(e, "es" + Suffix(a)) && Truthy(e, code + Suffix(a))
    then Some(e.dataset[code + Suffix(a)]) else None
  }

  /**
   * The four passes of the page translation, as seen by one element: the text
   * pass, then the placeholder, title and alt passes.  The placeholder pass runs
   * after the text pass, so its value wins on an input that has both.
   */
  function TranslateElement(e: Element, code: string): (r: Element)
    ensures SameAnnotations(r, e)
    ensures r.textContent == TranslateText(e, code).textContent
    ensures r.value == TranslateText(e, code).value
    ensures r.placeholder ==
              match AttributeTranslation(e, code, Placeholder)
              case Some(t) => t
              case None => TranslateText(e, code).placeholder
    ensures r.title == AttributeTranslation(e, code, Title).GetOr(e.title)
    ensures r.alt == AttributeTranslation(e, code, Alt).GetOr(e.alt)
  {
    var t := TranslateText(e, code);
    TranslateAttribute(TranslateAttribute(TranslateAttribute(t, code, Placeholder), code, Title), code, Alt)
  }

  /** The classes selected by the first two price passes. */
  const ProductPrice: string := "product-price"
  const FeaturedPrice: string := "featured-price"

  /** The display string the price passes write into `e`, if any. */
  function PriceDisplay(e: Element, prices: map<string, string>): Option<string>
  {
    match e.price
    case Some(key) =>
      if key != "" && key in prices && prices[key] != "" then Some(prices[key]) else None
    case None => None
  }

  /**
   * The callback shared by the three price passes: an element whose non-empty
   * price key is mapped to a non-empty display string gets it as its text;
   * any other element is left as it is.
   */
  function PriceText(e: Element, prices: map<string, string>): (r: Element)
    ensures SameAnnotations(r, e) && r.value == e.value && r.placeholder == e.placeholder
    ensures r.title == e.title && r.alt == e.alt
    ensures e.price.Some? && e.price.value != "" && e.price.value in prices && prices[e.price.value] != "" ==>
              r.textContent == prices[e.price.value]
    ensures !(e.price.Some? && e.price.value != "" && e.price.value in prices && prices[e.price.value] != "") ==>
              r == e
  {
    match PriceDisplay(e, prices)
    case Some(display) => e.(textContent := display)
    case None => e
  }

  /** A second price pass over an element leaves it as the first one did. */
  lemma PriceTextIdempotent(e: Element, prices: map<string, string>)
    ensures PriceText(PriceText(e, prices), prices) == PriceText(e, prices)
  {
  }

  /** What a successful language switch does to one element. */
  function Render(e: Element, p: Profile): (r: Element)
    ensures SameAnnotations(r, e)
    ensures r.textContent == PriceDisplay(e, p.prices).GetOr(TranslateText(e, p.code).textContent)
  {
    PriceText(TranslateElement(e, p.code), p.prices)
  }

  /**
   * A switched element keeps its markup; its text is its price display when it
   * has one and what the text pass gives otherwise; value, placeholder, title
   * and alt are those of the translation passes.
   */
  lemma RenderFields(e: Element, p: Profile)
    ensures SameAnnotations(Render(e, p), e)
    ensures Render(e, p).textContent == PriceDisplay(e, p.prices).GetOr(TranslateText(e, p.code).textContent)
    ensures Render(e, p).value == TranslateElement(e, p.code).value
    ensures Render(e, p).placeholder == TranslateElement(e, p.code).placeholder
    ensures Render(e, p).title == TranslateElement(e, p.code).title
    ensures Render(e, p).alt == TranslateElement(e, p.code).alt
  {
  }

  /** What a successful language switch does to the whole page, element by element. */
  function RenderPage(s: seq<Element>, p: Profile): (r: seq<Element>)
    ensures |r| == |s|
    ensures forall k :: 0 <= k < |s| ==> r[k] == Render(s[k], p)
  {
    if s == [] then [] else [Render(s[0], p)] + RenderPage(s[1..], p)
  }

  /** The four translation passes, applied a second time, rewrite nothing further. */
  lemma TranslateElementIdempotent(e: Element, code: string)
    ensures TranslateElement(TranslateElement(e, code), code) == TranslateElement(e, code)
  {
  }

  /**
   * The translation passes never write the text of a priced element and the
   * price passes write nothing else, so the two commute.
   */
  lemma TranslateAndPriceCommute(e: Element, p: Profile)
    ensures TranslateElement(PriceText(e, p.prices), p.code) == PriceText(TranslateElement(e, p.code), p.prices)
  {
  }

  /** A page whose every element is the rendering of the old one is the rendered page. */
  lemma {:induction false} RenderPageOfElements(before: seq<Element>, after: seq<Element>, p: Profile)
    requires |after| == |before|
    requires forall k :: 0 <= k < |before| ==> after[k] == Render(before[k], p)
    ensures after == RenderPage(before, p)
  {
    if before != [] {
      RenderPageOfElements(before[1..], after[1..], p);
      assert after == [after[0]] + after[1..];
    }
  }

  /** Switching to the language a second time rewrites nothing further. */
  lemma RenderIdempotent(e: Element, p: Profile)
    ensures Render(Render(e, p), p) == Render(e, p)
  {
    var t := TranslateElement(e, p.code);
    TranslateAndPriceCommute(t, p);
    TranslateElementIdempotent(e, p.code);
    PriceTextIdempotent(t, p.prices);
  }

  lemma {:induction false} RenderPageIdempotent(s: seq<Element>, p: Profile)
    ensures RenderPage(RenderPage(s, p), p) == RenderPage(s, p)
  {
    if s != [] {
      RenderIdempotent(s[0], p);
      RenderPageIdempotent(s[1..], p);
      var r := RenderPage(s, p);
      assert r[0] == Render(s[0], p) && r[1..] == RenderPage(s[1..], p);
    }
  }

  /** A priced element shows R$ 65.69 for key 89.99 once Portuguese is applied. */
  lemma PortuguesePriceRendered(e: Element)
    requires e.price == Some("89.99")
    ensures Render(e, Config["pt"]).textContent == "R$ 65.69"
  {
    PortuguesePriceExample();
    RenderFields(e, Config["pt"]);
  }

  /**
   * An element with none of the Spanish annotations and no price key is never
   * touched, whatever translations it carries for other languages.
   */
  lemma RenderIgnoresUnannotated(e: Element, p: Profile)
    requires !Annotated(e, "es") && !Annotated(e, "es-placeholder")
    requires !Annotated(e, "es-title") && !Annotated(e, "es-alt")
    requires e.price.None?
    ensures Render(e, p) == e
  {
    assert "es" + Suffix(Placeholder) == "es-placeholder";
    assert "es" + Suffix(Title) == "es-title";
    assert "es" + Suffix(Alt) == "es-alt";
  }
}
