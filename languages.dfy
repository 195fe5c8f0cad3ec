/**
 * The static language table of the storefront: one profile per supported
 * language code, each with a display name, a currency symbol, a flag image
 * path and a table from canonical price key to formatted display string.
 */
module Languages {
  import opened Wrappers

  datatype Profile = Profile(
    code: string,
    name: string,
    currency: string,
    flag: string,
    prices: map<string, string>)

  /** Storage key under which the chosen language is persisted. */
  const LanguageKey: string := "language"

  /** The language used when nothing usable is stored, and the initial current language. */
  const DefaultLanguage: string := "es"

  const Spanish: Profile := Profile(
    "es", "Español", "Bs.", "flags/bolivia.png",
    map[
      "89.99" := "Bs. 89.99",
      "149.99" := "Bs. 149.99",
      "129.99" := "Bs. 129.99",
      "69.99" := "Bs. 69.99",
      "179.99" := "Bs. 179.99",
      "199.99" := "Bs. 199.99"])

  const Portuguese: Profile := Profile(
    "pt", "Português", "R$", "flags/brazil.png",
    map[
      "89.99" := "R$ 65.69",
      "149.99" := "R$ 109.49",
      "129.99" := "R$ 94.89",
      "69.99" := "R$ 51.09",
      "179.99" := "R$ 131.39",
      "199.99" := "R$ 145.99"])

  /** The language table, keyed by language code. */
  const Config: map<string, Profile> := map["es" := Spanish, "pt" := Portuguese]

  /** The canonical price keys every profile prices. */
  const PriceKeys: set<string> := {"89.99", "149.99", "129.99", "69.99", "179.99", "199.99"}

  /** Every display string of `p` is non-empty and starts with its currency symbol. */
  ghost predicate DisplaysCurrency(p: Profile)
  {
    forall k | k in p.prices :: p.prices[k] != "" && p.currency + " " <= p.prices[k]
  }

  lemma SpanishPrices()
    ensures Spanish.prices.Keys == PriceKeys && DisplaysCurrency(Spanish)
  {
    assert Spanish.currency + " " == "Bs. ";
  }

  lemma PortuguesePrices()
    ensures Portuguese.prices.Keys == PriceKeys && DisplaysCurrency(Portuguese)
  {
    assert Portuguese.currency + " " == "R$ ";
  }

  /**
   * The table is well formed: exactly the codes "es" and "pt", each profile
   * filed under its own code, every profile pricing the same keys, and every
   * display string non-empty and starting with the profile's currency symbol.
   */
  lemma ConfigWellFormed()
    ensures Config.Keys == {"es", "pt"}
    ensures forall c | c in Config :: Config[c].code == c
    ensures forall c | c in Config :: Config[c].prices.Keys == PriceKeys && DisplaysCurrency(Config[c])
  {
    SpanishPrices();
    PortuguesePrices();
  }

  /** The profile filed under a code carries that code. */
  lemma ProfileCode(code: string)
    requires code in Config
    ensures Config[code].code == code
  {
  }

  /** The Portuguese table displays key 89.99 as R$ 65.69. */
  lemma PortuguesePriceExample()
    ensures "pt" in Config && "89.99" in Config["pt"].prices
    ensures Config["pt"].prices["89.99"] == "R$ 65.69"
  {
  }

  /** ASCII upper-casing of one character; the language codes are ASCII. */
  function UpperChar(c: char): (u: char)
    ensures 'a' <= c <= 'z' ==> 'A' <= u <= 'Z' && u as int == c as int - 32
    ensures !('a' <= c <= 'z') ==> u == c
  {
    if 'a' <= c <= 'z' then (c as int - 'a' as int + 'A' as int) as char else c
  }

  /** The upper-cased code shown on the language button. */
  function ToUpper(s: string): (r: string)
    ensures |r| == |s|
    ensures forall i :: 0 <= i < |s| ==> r[i] == UpperChar(s[i])
    ensures forall i :: 0 <= i < |r| ==> !('a' <= r[i] <= 'z')
  {
    seq(|s|, i requires 0 <= i < |s| => UpperChar(s[i]))
  }

  /** The labels the button shows for the two supported languages. */
  lemma UpperLabels()
    ensures ToUpper("es") == "ES" && ToUpper("pt") == "PT"
  {
    assert ToUpper("es")[0] == 'E' && ToUpper("es")[1] == 'S';
    assert ToUpper("pt")[0] == 'P' && ToUpper("pt")[1] == 'T';
  }

  /**
   * The language a page load asks for: the stored value, unless the key is
   * missing or holds the empty string (both falsy), in which case "es".
   */
  function SavedLanguage(storage: map<string, string>): (code: string)
    ensures code != ""
    ensures LanguageKey in storage && storage[LanguageKey] != "" ==> code == storage[LanguageKey]
    ensures !(LanguageKey in storage && storage[LanguageKey] != "") ==> code == DefaultLanguage
  {
    if LanguageKey in storage && storage[LanguageKey] != "" then storage[LanguageKey] else DefaultLanguage
  }

  /** Persisting a supported code and reloading asks for that same code again. */
  lemma SavedLanguageRoundTrip(storage: map<string, string>, code: string)
    requires code in Config
    ensures SavedLanguage(storage[LanguageKey := code]) == code
  {
  }

  // ---------------------------------------------------------------------
  // The language guard as the source writes it.  `languageConfig[langCode]`
  // is a property read on a plain object literal, so it also finds the
  // members every object inherits from Object.prototype; all of them are
  // truthy, and the guard `if (!lang)` lets them through.
  // ---------------------------------------------------------------------

  /** Names that every plain object inherits (a truthy value for each). */
  const InheritedNames: set<string> := {
    "constructor", "toString", "toLocaleString", "valueOf", "hasOwnProperty",
    "isPrototypeOf", "propertyIsEnumerable", "__proto__", "__defineGetter__",
    "__defineSetter__", "__lookupGetter__", "__lookupSetter__"}

  /** Whether `languageConfig[code]` is truthy as written. */
  predicate GuardAcceptsAsWritten(code: string)
  {
    code in Config || code in InheritedNames
  }

  /** The current language after `changeLanguage(code)` reaches line 58 as written. */
  function CurrentAfterGuardAsWritten(current: string, code: string): (next: string)
    ensures GuardAcceptsAsWritten(code) ==> next == code
    ensures !GuardAcceptsAsWritten(code) ==> next == current
  {
    if GuardAcceptsAsWritten(code) then code else current
  }

  /**
   * Counterexample: "toString" passes the written guard, so the current
   * language becomes a code that has no profile.
   */
  lemma InheritedNamePassesGuard()
    ensures "toString" !in Config
    ensures CurrentAfterGuardAsWritten(DefaultLanguage, "toString") == "toString"
  {
  }

  /** The corrected guard: only the table's own codes are accepted. */
  predicate Supported(code: string)
  {
    code in Config
  }

}
