# MODAS ALIDEL page controller, modelled in Dafny

This project models the client-side page controller of the MODAS ALIDEL storefront (`script.js`). The live document
is replaced by an abstract page state. The model covers:

- **Language and prices.** A static table gives one profile per language: Spanish with Bolivian prices and Portuguese
  with Brazilian prices. `changeLanguage` checks the code against the table. With a known code it sets the current
  language, relabels the current-language button, rewrites element texts and attributes, rewrites prices, sets the
  document's `lang` attribute and persists the choice. `loadLanguage` replays the stored choice at start-up, with
  "es" as the default.
- **Theme.** Light/dark marker classes on the body and on the toggle's icon, the stored `theme` value and the
  `--color-blanco-rgb` variable.
- **Language dropdown.** It is shown and hidden through three inline styles. The trigger button flips it, an option
  click switches language and hides it, and a document click hides it.
- **Mobile menu.** The panel's `active` class and the button icon (`fa-bars`/`fa-times`) change together.
- **Scrolling.** The header switches to its scrolled treatment exactly when the offset is above 100. An anchor click
  scrolls to the target's offset minus the header height.

Layout: one module per component. These modules are pure: `Languages`, `Translation`, `Theme`, `LanguageDropdown`,
`MobileMenu` and `Scrolling`. Module `PageController` holds class `Page`, the mutable state. Its methods update the
fields in place, and each method's frame names only the fields it changes (`modifies this`field`).

The elements of the document are a `const elements: array<Element>` in document order. `translatePage` and
`updatePrices` are loops over that array. Each loop body applies the `forEach` callback, written as a pure function
of one element record, to the elements the pass selects.

The model keeps each element's data attributes under their attribute names: `data-X` is the entry with key `X`, so
`data-pt-placeholder` is stored under "pt-placeholder". A browser's `dataset` exposes that attribute under a
camel-cased name instead (`ptPlaceholder`); `Translation.DatasetName` models that renaming. The two views agree for
the hyphen-free keys the text pass reads ("es", "pt"), but not for the keys the attribute passes read (see
Findings). The price key `data-price` is a separate optional field. JavaScript truthiness is modelled
directly: a dataset entry, price key or price string counts only when it is present and non-empty.

Every switch is stated as a function on values:

- `Switched` gives the language state after `changeLanguage`.
- `Theme.Toggled` and `Theme.Loaded` give the theme look after `toggleTheme` and `loadTheme`.
- `LanguageDropdown.AfterTriggerClick` gives the dropdown style after a trigger click.
- `MobileMenu.ToggledNav`/`ToggledIcon` give the menu classes after a button click.
- `Scrolling.HeaderStyleAt` gives the header style for a scroll offset.

Each `Page` method's postcondition ties the new state to one of these functions. The lemmas prove the properties of
the functions: idempotence, self-inverse toggles, stepping together, the strict threshold and persistence.

## Model

| member | source | states |
|---|---|---|
| `Languages.ConfigWellFormed` | script.js:4-33 | the table holds exactly "es" and "pt"; each profile sits under its own code and prices the same six keys; every display string is non-empty and starts with the profile's currency symbol |
| `Languages.SpanishPrices` | script.js:10-17 | the Spanish table prices the six keys, each as a non-empty string starting with "Bs. " |
| `Languages.PortuguesePrices` | script.js:24-31 | the Portuguese table prices the six keys, each as a non-empty string starting with "R$ " |
| `Languages.ProfileCode` | script.js:5-6 | the profile filed under a code carries that code, so `lang.code` equals the argument |
| `Languages.PortuguesePriceExample` | script.js:24-25 | the Portuguese table maps key "89.99" to "R$ 65.69" |
| `Languages.UpperChar` | script.js:91 | a lower-case ASCII letter becomes its own capital (32 code points lower); every other character is unchanged |
| `Languages.ToUpper` | script.js:91 | the button label has the code's length, is upper-cased character by character and has no lower-case letter left |
| `Languages.UpperLabels` | script.js:91 | the labels of the two languages are "ES" and "PT" |
| `Languages.SavedLanguage` | script.js:425 | the language asked for at load is the stored one when present and non-empty, and "es" otherwise |
| `Languages.SavedLanguageRoundTrip` | script.js:424-426 | after a supported code is stored under "language", the next load asks for that code |
| `Languages.CurrentAfterGuardAsWritten` | script.js:51-58 | as written, the current language becomes `code` whenever the object lookup is truthy, which includes inherited names |
| `Languages.InheritedNamePassesGuard` | script.js:51-58 | "toString" has no profile, yet the written guard makes it the current language |
| `Translation.TranslateText` | script.js:100-119 | only a `data-es` element with a non-empty translation changes; an input or text area gets it as value and placeholder, a priced non-input is left alone, any other element gets it as text; markup, title and alt are never written |
| `Translation.TranslateAttribute` | script.js:122-138 | an attribute pass, as intended, writes only its own attribute; it writes only on elements with `data-es-<attr>` whose attribute `data-<code>-<attr>` is non-empty, and gives them that value |
| `Translation.DatasetName` | script.js:123 | the name a browser's `dataset` gives an attribute never has a hyphen followed by a lower-case letter |
| `Translation.DatasetNameKeepsPlain` | script.js:101-102 | a key without hyphens, such as "es" or "pt", is exposed under its own name, so the text pass reads the attribute it names |
| `Translation.BrowserDataset` | script.js:123 | a browser's `dataset[name]` finds a value exactly when some data attribute is exposed under `name`, and then it is that attribute's value |
| `Translation.TranslateAttributeInBrowser` | script.js:122-138 | an attribute pass as written: it looks up `dataset[code + suffix]` through the browser's names and writes only its own attribute, with the value found, on elements with `data-es-<attr>` |
| `Translation.BrowserAttributePassWritesNothing` | script.js:122-138 | as written, `dataset["<code>-<attr>"]` finds nothing in a browser, so each attribute pass leaves every element unchanged |
| `Translation.BrowserPlaceholderExample` | script.js:122-126 | an input with Spanish and Portuguese placeholder attributes gets "Pesquisar" from the intended pass but keeps "Buscar" in a browser |
| `Translation.TranslateElement` | script.js:98-139 | after the four passes: text and value come from the text pass; the placeholder comes from the placeholder pass when it applies and from the text pass otherwise; title and alt come from their passes or keep their value; annotations are unchanged |
| `Translation.PriceText` | script.js:147-152 | an element with a non-empty price key that is mapped to a non-empty string gets that string as its text; every other element is unchanged, and an element with no price key is never touched |
| `Translation.PriceTextIdempotent` | script.js:147-160 | a second price pass over an element changes nothing, so an element with both price classes ends as if priced once |
| `Translation.RenderFields` | script.js:64-67 | a switched element keeps its markup; its text is its price display when it has one and otherwise what the text pass gives; value, placeholder, title and alt come from the translation passes |
| `Translation.Render` | script.js:64-67 | a switched element keeps its markup, and its text is its price display when it has one and what the text pass gives otherwise |
| `Translation.RenderPage` | script.js:98-172 | the rendered page has as many elements as the page, and each is the rendering of the element at the same position |
| `Translation.TranslateElementIdempotent` | script.js:98-139 | running the four translation passes again changes nothing |
| `Translation.TranslateAndPriceCommute` | script.js:110-113 | the translation passes never write a priced element's text and the price passes write only that text, so their order does not matter |
| `Translation.RenderPageOfElements` | script.js:64-67 | a page in which each element is the rendering of its old record is the rendered page |
| `Translation.RenderIdempotent` | script.js:98-172 | rendering an element twice in one language equals rendering it once |
| `Translation.RenderPageIdempotent` | script.js:98-172 | rendering the page twice in one language equals rendering it once |
| `Translation.PortuguesePriceRendered` | script.js:163-171 | an element with price key "89.99" shows "R$ 65.69" once Portuguese is applied |
| `Translation.RenderIgnoresUnannotated` | script.js:100 | an element without the Spanish annotations and without a price key is never changed, whatever it carries for other languages |
| `Theme.Darkened` | script.js:298-301 | the dark look has `dark-mode` and `fa-sun` only, and every other class is kept |
| `Theme.Lightened` | script.js:303-306 | the light look has `light-mode` and `fa-moon` only, and every other class is kept |
| `Theme.Toggled` | script.js:269-281 | after a toggle exactly one mode class is on the body and the icon matches it; the result is dark exactly when the body showed `light-mode`; every other body and icon class is kept |
| `Theme.StoredValue` | script.js:274-280 | the persisted theme is "dark" exactly when the body is dark, and "light" otherwise |
| `Theme.RgbFor` | script.js:315-323 | the variable is "26, 26, 26" exactly when the body has `dark-mode`, and "255, 255, 255" otherwise |
| `Theme.SavedTheme` | script.js:290 | the stored theme is read with "light" as the fallback for a missing or empty entry |
| `Theme.Loaded` | script.js:290-307 | the loaded look is consistent, and dark exactly when the stored theme is "dark"; every other body and icon class is kept |
| `Theme.ToggleFlips` | script.js:261-284 | from a consistent look a toggle flips between light and dark |
| `Theme.ToggleTwice` | script.js:261-284 | two toggles from a consistent look give back the look, so the RGB value and the theme value derived from it are the starting look's |
| `Theme.ToggledView` | script.js:261-284 | after a toggle the look is `Toggled` of the old one, so it is consistent and dark exactly when the body showed `light-mode`; the variable follows the new body, and the store is the old one with "theme" set to the new theme's value ("dark" or "light"), always written |
| `Theme.ToggleViewTwice` | script.js:261-284 | when the variable matched the body beforehand, two toggles give back the look and the variable; the store ends holding the starting theme, and the whole state is unchanged exactly when it already held it |
| `Theme.ToggleViewTwiceRealignsRgb` | script.js:261-284 | when the variable did not match the body, two toggles give back the look but leave the variable matching the body, not as it was |
| `Theme.LoadAfterToggleRestores` | script.js:289-307 | a load after a toggle shows the theme the toggle persisted |
| `LanguageDropdown.AfterTriggerClick` | script.js:197-203 | a trigger click flips visibility, and the result is exactly the shown or the hidden style |
| `LanguageDropdown.TriggerTwice` | script.js:197-203 | two trigger clicks restore a shown or hidden dropdown |
| `LanguageDropdown.FirstClickShows` | script.js:197-203 | with no inline styles yet, the first trigger click shows the dropdown |
| `MobileMenu.ToggledNav` | script.js:339-347 | a button click flips `active`, and the panel's other classes are kept |
| `MobileMenu.ToggledIcon` | script.js:342-350 | a button click shows `fa-bars` alone if the panel was open and `fa-times` alone if it was closed; other icon classes are kept |
| `MobileMenu.ClosedNav` | script.js:356 | a link click leaves the panel closed, and its other classes are kept |
| `MobileMenu.ClosedIcon` | script.js:357-359 | a link click leaves the icon on `fa-bars` alone, and its other classes are kept |
| `MobileMenu.ToggleInStep` | script.js:338-351 | after a button click panel and icon are in step, whatever the state before |
| `MobileMenu.ToggleTwice` | script.js:338-351 | two button clicks from an in-step state restore panel and icon classes |
| `MobileMenu.CloseInStep` | script.js:354-360 | a link click always ends with the panel closed and in step with the icon |
| `Scrolling.HeaderStyleAt` | script.js:405-413 | the header is in its scrolled treatment exactly when the offset is above 100, and in its resting treatment otherwise |
| `Scrolling.ThresholdIsStrict` | script.js:405-413 | the header rests at 100 and is scrolled at 101; it is scrolled at 150 and rests again at 50 |
| `Scrolling.HeaderMonotone` | script.js:405 | a larger offset than a scrolled one is scrolled too |
| `Scrolling.ScrollTarget` | script.js:376-382 | "#" or a missing target gives no scroll; otherwise the destination plus the header height equals the target's offset, the height is 0 without a header, and the destination never lies below the target |
| `PageController.LabelButton` | script.js:82-92 | the button keeps its parts; a present flag shows the profile's flag path and name, and a present label shows the upper-cased code |
| `PageController.Switched` | script.js:48-76 | an unknown code changes nothing; a known one becomes the current language, the document language and the stored "language", relabels the button and renders every element |
| `PageController.SwitchIdempotent` | script.js:48-76 | switching to the same language twice gives the same state as once |
| `PageController.SwitchKeepsDefinedCode` | script.js:51-58 | with the own-key guard, a switch from a defined current language leaves a defined one, and an accepted code's profile carries that code |
| `PageController.SwitchPersists` | script.js:70-73 | after a switch the stored preference reloads to the same code, and the button label shows the code upper-cased |
| `PageController.PortugueseLabel` | script.js:89-91 | switching to "pt" labels the button "PT" |
| `PageController.InitAppRgbMismatch` | script.js:474-475 | with "dark" stored, the loaded body is dark, yet the variable is forced to the light value; two toggles from there move the variable to the dark value |
| `PageController.Page.constructor` | script.js:38 | before the script runs, the current language is "es" and the page is as loaded |
| `PageController.Page.UpdateLanguageButton` | script.js:82-92 | the button becomes `LabelButton` of the old button |
| `PageController.Page.TranslateTexts` | script.js:100-119 | the loop applies the text pass to every element |
| `PageController.Page.TranslateAttributes` | script.js:122-138 | the loop applies one attribute pass to every element |
| `PageController.Page.TranslatePage` | script.js:98-139 | the four loops together give each element `TranslateElement` of its old record |
| `PageController.Page.UpdatePricesOfClass` | script.js:147-160 | the loop prices exactly the elements carrying the class and leaves the rest unchanged |
| `PageController.Page.UpdateOtherPrices` | script.js:163-171 | the loop prices exactly the elements of neither price class and leaves the rest unchanged |
| `PageController.Page.UpdatePrices` | script.js:145-172 | the product, featured and remaining-priced loops together give every element `PriceText` of its old record, as one pass over all priced elements would |
| `PageController.Page.ChangeLanguage` | script.js:48-76 | reports whether the code is supported; the language state becomes `Switched` of the old one; the current language stays a defined code |
| `PageController.Page.LoadLanguage` | script.js:424-427 | switches to the stored language, or "es"; an unknown stored code changes nothing |
| `PageController.Page.ShowLanguageDropdown` | script.js:233-240 | a present dropdown gets opacity "1", visibility "visible" and transform "translateY(5px)" |
| `PageController.Page.HideLanguageDropdown` | script.js:245-252 | a present dropdown gets opacity "0", visibility "hidden" and transform "translateY(-10px)" |
| `PageController.Page.ClickLanguageButton` | script.js:194-205 | with selector, button and dropdown present, the dropdown becomes `AfterTriggerClick` of its old style; otherwise nothing changes |
| `PageController.Page.ClickLanguageOption` | script.js:208-215 | with the selector present, the language state becomes `Switched` and the dropdown is hidden; otherwise nothing changes |
| `PageController.Page.ClickDocument` | script.js:218-220 | with the selector present, the dropdown is hidden |
| `PageController.Page.UpdateRGBVariables` | script.js:315-323 | the variable becomes `RgbFor` of the body classes |
| `PageController.Page.ToggleTheme` | script.js:261-284 | with body and icon present, the page's look, variable and store become `Theme.ToggledView` of the old ones; otherwise nothing changes |
| `PageController.Page.LoadTheme` | script.js:289-310 | with body and icon present, the look becomes `Loaded` from storage and the variable follows the body; otherwise nothing changes |
| `PageController.Page.ClickMenuButton` | script.js:338-351 | with button and panel present, the panel flips `active` and the icon swaps its marker to match |
| `PageController.Page.ClickNavLink` | script.js:354-361 | with button and panel present, the panel closes and the icon shows `fa-bars` |
| `PageController.Page.OnScroll` | script.js:400-415 | a present header gets the treatment `HeaderStyleAt` gives for the offset |
| `PageController.Page.InitAppAsWritten` | script.js:436-478 | the theme and language are loaded from storage, and the variable ends at the light value whatever the theme; when the body or the theme icon is missing, both class sets stay as they were |
| `PageController.Page.InitApp` | script.js:436-478 | the theme and language are loaded from storage, and the variable matches the loaded body; when the body or the theme icon is missing, both class sets stay as they were |

## Left out

- DOM querying and event registration are not modelled (`querySelectorAll`, `getElementById`, `addEventListener`). Each handler is a method of `Page`. A missing element is an absent `Option` or a false `has…` flag, and the method then changes nothing.
- Event propagation is not modelled. `stopPropagation` means a click on the trigger, an option or the dropdown body never reaches `ClickDocument`. A click inside the dropdown body therefore changes nothing and has no method.
- The `MutationObserver` (script.js:464-472) is not modelled. It is an asynchronous browser callback, and the theme methods already call `UpdateRGBVariables` themselves.
- The smooth `window.scrollTo` animation is not modelled. `Scrolling.ScrollTarget` computes only the destination.
- `Scrolling.ScrollTarget`: the target is found through a map from `href` to offset. A fragment that is not a valid CSS selector makes `querySelector` throw, and that case is not modelled.
- Console logging is not modelled. An unknown language is reported only through the `ok` result.
- Storage is an in-memory map. Persistence across reloads is represented by `SavedLanguage` and `Theme.SavedTheme` reading the same map.
- CSS values are opaque string constants, and visual styling is not modelled.
- The page bootstrap (script.js:485-489) and the global debug exports (script.js:492-493) are not modelled.
- Scroll and layout offsets are integers. Fractional `scrollY` is not modelled.
- `Languages.ToUpper`: upper-cases ASCII letters only, not the full Unicode mapping of `toUpperCase`. The two codes are ASCII.
- Price keys and dataset keys are looked up as own keys only. A markup key naming an `Object.prototype` member, such as `data-price="constructor"`, would read an inherited value in the source; that case is not modelled. The language guard, where such a code can come from storage or the console, is modelled both ways (see Findings).
- `Translation.TranslateAttribute`: models the attribute passes as reading the attribute `data-<code>-<attr>`, which is what they are evidently meant to do. As written they read `dataset["<code>-<attr>"]`, which a browser never exposes, so in a browser the three passes write nothing (see Findings). `PageController.Page.TranslatePage` and `PageController.Page.ChangeLanguage` use the intended passes.
- Element nesting is not modelled: each element is an independent record. In the source, assigning `textContent` (script.js:116, 150, 158, 168) replaces the element's descendants. A priced or annotated element nested inside a rewritten element is then detached from the page, while the model still rewrites it in the later passes.
- A menu button without an `<i>` icon makes the source handler throw right after it updates the panel. The model updates the panel and leaves the icon absent.
- A language option without `data-lang` passes `null`, which the source looks up as the key "null", an unknown code. The option's code is a string parameter.

## Findings

| source | as written | input that shows it | evidently intended | confidence | as-written member | corrected member |
|---|---|---|---|---|---|---|
| script.js:51-58 | `languageConfig[langCode]` is a plain property read, so names inherited from `Object.prototype` are truthy and pass the `if (!lang)` guard; `currentLanguage` is then set to a code with no profile, before `lang.code` (undefined) is used | `changeLanguage('toString')` (the function is exported for debugging), or "toString" stored under "language" before a load | only the table's own codes are accepted, and any other code changes nothing | medium; not executed | `Languages.InheritedNamePassesGuard` | `PageController.Page.ChangeLanguage` |
| script.js:122-138 | the attribute passes read `` element.dataset[`${lang.code}-placeholder`] `` and the `-title`/`-alt` forms; a browser exposes `data-pt-placeholder` as `dataset.ptPlaceholder`, so the read is always undefined and nothing is written | an input with `data-es-placeholder="Buscar" data-pt-placeholder="Pesquisar"` keeps "Buscar" after `changeLanguage('pt')` | the element gets the value of its `data-<code>-<attr>` attribute ("Pesquisar") | high; not executed | `Translation.TranslateAttributeInBrowser`, `Translation.BrowserAttributePassWritesNothing` | `Translation.TranslateAttribute` |
| script.js:474-475 | after `loadTheme` applies a stored dark theme, `initApp` overwrites `--color-blanco-rgb` with "255, 255, 255"; the observer is attached after `loadTheme` ran and so does not correct it | "dark" stored under "theme" at page load; two theme toggles afterwards then end with "26, 26, 26" instead of giving back the variable, since `Theme.ToggleViewTwice` needs the variable to match the body beforehand | the variable matches the loaded theme ("26, 26, 26" for dark), as `updateRGBVariables` keeps it everywhere else | medium; not executed | `PageController.InitAppRgbMismatch` | `PageController.Page.InitApp` |
