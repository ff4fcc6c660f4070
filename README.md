# Kiosk menu ordering session, modelled in Dafny

This project models the client-side ordering session of a restaurant table menu. A
diner picks a language, a food type (sweet or savory), a category, and a dish. The
diner then adds sizes of that dish to a cart and submits the order for the table. The
page keeps a single mutable `state` record (view, language, food type, category id,
fetched categories and dishes, selected dish, cart, restaurant name, table id), and
event handlers update it. The model keeps that shape:

- `jsvalues.dfy` (`JsValues`): JavaScript `null`/`undefined` as `Option`, string
  truthiness, the `||` operator, and JavaScript's truncating `%`.
- `catalog.dfy` (`Catalog`): dishes, sizes, categories and removal notes as the
  backend returns them, plus the two lookups the page does on them. These are the
  size of a dish by id (`find`) and the position of a dish by id (`findIndex`).
- `localization.dfy` (`Localization`): the fallback from an Arabic or French
  variant to the base (English) text. Category names (lines 160-162), dish-card
  names (197-199) and removal-note texts (283-285) use the guarded form `Localize`.
  The detail screen uses the `||` form `LocalizeOr` (232-235, 251-253). The two
  forms are proved to agree.
- `navigation.dfy` (`Navigation`): the seven views, the fixed parent map that
  back follows, and the previous/next index arithmetic of the dish detail screen.
- `cart.dfy` (`Cart`): cart lines and `Add`, the value-level meaning of
  `addToCart`, which either merges into a line with the same key or appends one.
  It also holds the cart total and the lemmas about keys, quantities and totals,
  including totals over whole sequences of additions.
- `ordering.dfy` (`Ordering`): the `Session` class. Its fields are the `state`
  record, and its methods are the handlers. Each handler names the fields it may
  change in its `modifies` clause. Every handler keeps `Valid()`: the confirmation
  view is never shown, no two cart lines share a key, and the detail view always
  shows a dish of the current list. Each network call is a parameter of the handler
  that awaits it: `Fetch` for catalog requests, `SubmitReply` for the order. Three
  client methods walk through an order using only the handlers' contracts.

Each handler that is a control of the page requires the view on which `render`
draws that control. The language buttons exist only on the language view, the type
cards only on the type view, the category cards only on the category view, and the
dish cards only on the dish grid. The header, with its back and cart buttons, is
drawn on every view but the language view (line 50). The checkout button appears
only on a cart view with at least one line (lines 344-347, 371-374). `GoBack`,
`LoadCategories`, `LoadDishes` and `AddToCart` are functions that other handlers
call, so they take any view.

Some behaviours of the code differ from what a naive reading would expect. The
model follows the code:

- A naive reading would treat the removal notes of a cart line as a set. The code
  compares them with `JSON.stringify` (line 326). That is ordered-sequence
  equality, so the same notes in another order make a new line.
- A naive reading would expect a failed category or dish request to change
  nothing. The code records the chosen food type (line 134) or category id
  (line 168) before the request, so those two fields change even when the request
  fails.
- The code's `goBack` has no branch for the language and confirmation views, so
  there the view stays as it is.

The header's cart button shows `cart.length`, the number of lines, not the total
quantity (line 66). `AddMergesMatchingLine` shows that merging leaves that number
unchanged.

## Model

| member | source | states |
|---|---|---|
| `JsValues.TruncRem` | data/flutter_assets/assets/emenu/app.js:299 | JavaScript `%` with a positive divisor: the remainder has the sign of the dividend, is smaller than the divisor in magnitude, and completes the truncating quotient |
| `JsValues.Or` | data/flutter_assets/assets/emenu/app.js:34 | JavaScript's short-circuit `or` gives its first operand when that is truthy, otherwise its second, and the result is truthy exactly when one operand is |
| `Catalog.FindSize` | data/flutter_assets/assets/emenu/app.js:336 | a size is found exactly when some size has the id, and the one found is the first such size |
| `Catalog.FindDishIndex` | data/flutter_assets/assets/emenu/app.js:229 | -1 exactly when no dish has the id, otherwise the index of the first dish with it |
| `Localization.Localize` | data/flutter_assets/assets/emenu/app.js:160-162 | the Arabic (French) variant exactly when the language is Arabic (French) and that variant is truthy, otherwise the base value |
| `Localization.LocalizeOr` | data/flutter_assets/assets/emenu/app.js:232-235 | the short-circuit (`or`) chain of the detail screen (also at lines 251-253 for size names) picks the variant of the selected language when it is truthy, otherwise its base value |
| `Localization.LocalizeOrAgrees` | data/flutter_assets/assets/emenu/app.js:232-235 | for dish names (and, at lines 251-253, size names) the short-circuit spelling picks the same text as the guarded spelling, so the detail screen names a dish as its card does |
| `Localization.DishDescription` | data/flutter_assets/assets/emenu/app.js:233-235 | the description is always a string: the localized description when it is truthy, else the empty string |
| `Navigation.Parent` | data/flutter_assets/assets/emenu/app.js:409-415 | where back leads from each view; it has no contract of its own, and its meaning is proved by `ParentShortensPath`, `ParentTargets`, `BackReachesLanguage` and the `ensures` of `Session.GoBack` |
| `Navigation.ParentShortensPath` | data/flutter_assets/assets/emenu/app.js:409-415 | back leaves exactly the language and confirmation views unchanged, and from every other view it moves one step closer to the language view |
| `Navigation.ParentTargets` | data/flutter_assets/assets/emenu/app.js:410-414 | back only ever leads to the language, type, category or dish views, and it never leads into confirmation |
| `Navigation.BackReachesLanguage` | data/flutter_assets/assets/emenu/app.js:409-415 | from any view but confirmation, repeated back reaches the language view and stays there, so the parent map has no cycle |
| `Navigation.PrevIndex` | data/flutter_assets/assets/emenu/app.js:299 | the previous button's index `(i - 1 + n) % n` with JavaScript's `%`; no contract of its own, its meaning is proved by `PrevIndexSteps` and `PrevNextRoundTrip` |
| `Navigation.NextIndex` | data/flutter_assets/assets/emenu/app.js:305 | the next button's index `(i + 1) % n` with JavaScript's `%`; no contract of its own, its meaning is proved by `NextIndexSteps` and `PrevNextRoundTrip` |
| `Navigation.PrevIndexSteps` | data/flutter_assets/assets/emenu/app.js:299 | for a found index in a list of n dishes, previous is one step back, and from 0 it wraps to n-1 |
| `Navigation.NextIndexSteps` | data/flutter_assets/assets/emenu/app.js:305 | next is one step forward, and from n-1 it wraps to 0 |
| `Navigation.PrevNextRoundTrip` | data/flutter_assets/assets/emenu/app.js:298-308 | both indices stay in [0, n), next after previous returns to the start, and so does previous after next |
| `Cart.IndexOfKey` | data/flutter_assets/assets/emenu/app.js:323-327 | the first line with the same dish id, size id and removal-note sequence, or the cart length when there is none |
| `Cart.Add` | data/flutter_assets/assets/emenu/app.js:321-340 | adding fails exactly when no line has the key and the dish has no size with the id; otherwise the cart grows by at most one line |
| `Cart.AddMergesMatchingLine` | data/flutter_assets/assets/emenu/app.js:323-330 | with unique keys, a matching line gets `qty` more, and the length and every other line stay the same |
| `Cart.AddAppendsNewLine` | data/flutter_assets/assets/emenu/app.js:331-338 | a new key appends one line at the end with `qty`, the base dish name, the notes and the price of the first size with the id; earlier lines are kept; without such a size the add fails and the cart is unchanged |
| `Cart.AddPreservesUniqueKeys` | data/flutter_assets/assets/emenu/app.js:321-340 | adding keeps the cart keys unique |
| `Cart.AddPreservesPositiveQuantities` | data/flutter_assets/assets/emenu/app.js:314-339 | adding a quantity of at least 1 (the UI always adds 1) keeps every quantity at least 1 |
| `Cart.AddSameSelectionTwice` | data/flutter_assets/assets/emenu/app.js:321-340 | adding the same new selection with q1 and then q2 gives one new line with q1 + q2 |
| `Cart.AddDifferentNotesTwice` | data/flutter_assets/assets/emenu/app.js:326 | the same dish and size with two different removal-note sequences gives two new lines |
| `Cart.Amount` | data/flutter_assets/assets/emenu/app.js:354 | the amount of one line, price times quantity; no contract of its own, `Session.ShowCart` proves each cart row shows it |
| `Cart.Total` | data/flutter_assets/assets/emenu/app.js:352-356 | the cart total, the sum of the line amounts; no contract of its own, `Session.ShowCart` proves the page's loop computes it, and `SumPermutation`, `MergeRaisesTotal`, `AddRaisesTotal` and `ApplyAllTotal` give its behaviour |
| `Cart.SumPermutation` | data/flutter_assets/assets/emenu/app.js:352-356 | the accumulated total does not depend on the order of the lines |
| `Cart.MergeRaisesTotal` | data/flutter_assets/assets/emenu/app.js:329 | raising a line's quantity by `qty` raises the total by `qty` times that line's stored price |
| `Cart.AddRaisesTotal` | data/flutter_assets/assets/emenu/app.js:321-340 | a successful add raises the total by `qty` times the unit price: the matched line's own price when merging, the chosen size's price when appending |
| `Cart.ApplyAllKeepsInvariants` | data/flutter_assets/assets/emenu/app.js:321-340 | over any sequence of adds with positive quantities, starting from a valid cart (for example the empty one), keys stay unique and quantities stay positive |
| `Cart.ApplyAtCatalogPrices` | data/flutter_assets/assets/emenu/app.js:329-336 | one add of an offered size keeps every line at catalog prices and raises the total by what it requested |
| `Cart.ApplyAllTotal` | data/flutter_assets/assets/emenu/app.js:352-356 | after offered adds at fixed prices, the total is the starting total plus the sum of quantity times price requested |
| `Cart.AdditionOrderKeepsTotal` | data/flutter_assets/assets/emenu/app.js:321-356 | at fixed prices, adds made in any order give the same total |
| `Ordering.ResolveTableId` | data/flutter_assets/assets/emenu/app.js:34 | the table id is `table` when truthy, else `table_code` when truthy, else `'Unknown'`, and is never empty |
| `Ordering.Session.constructor` | data/flutter_assets/assets/emenu/app.js:6-17 | the initial state: language view, English, no type, category or dish, empty lists and cart, empty name, no table id |
| `Ordering.Session.Init` | data/flutter_assets/assets/emenu/app.js:33-43 | the table id is resolved, and the restaurant name is replaced only when the info request succeeds |
| `Ordering.Session.SelectLanguage` | data/flutter_assets/assets/emenu/app.js:96-107 | a language button, only on the language view: sets the language, sets right-to-left exactly for Arabic, and shows the type view |
| `Ordering.Session.LoadCategories` | data/flutter_assets/assets/emenu/app.js:143-149 | the request filters by the stored food type; on success the categories are replaced wholesale and the category view shown, on failure neither changes |
| `Ordering.Session.SelectType` | data/flutter_assets/assets/emenu/app.js:130-136 | a type card, only on the type view: the food type is stored whatever the outcome, then the categories are loaded |
| `Ordering.Session.LoadDishes` | data/flutter_assets/assets/emenu/app.js:176-187 | the request filters by the stored category id; on success the dishes are replaced wholesale and the dish view shown, on failure neither changes |
| `Ordering.Session.SelectCategory` | data/flutter_assets/assets/emenu/app.js:167-170 | a category card, only on the category view: the category id is stored whatever the outcome, then the dishes are loaded |
| `Ordering.Session.SelectDish` | data/flutter_assets/assets/emenu/app.js:215-218 | a dish card, only on the dish grid: the chosen dish of the grid becomes the selected dish and the detail view is shown |
| `Ordering.Session.NavPrev` | data/flutter_assets/assets/emenu/app.js:298-302 | selects the dish at `(i - 1 + n) % n` for the found index i, which is the previous dish, wrapping from the first dish to the last |
| `Ordering.Session.NavNext` | data/flutter_assets/assets/emenu/app.js:304-308 | selects the dish at `(i + 1) % n`, which is the next dish, wrapping from the last dish to the first |
| `Ordering.Session.FindLine` | data/flutter_assets/assets/emenu/app.js:323-327 | the linear search returns the first line with the key, or the cart length |
| `Ordering.Session.AddToCart` | data/flutter_assets/assets/emenu/app.js:321-340 | the new cart is `Add` of the old one; when `Add` fails the call throws and the cart is unchanged; keys stay unique |
| `Ordering.Session.AddSelected` | data/flutter_assets/assets/emenu/app.js:310-318 | adds one unit of the shown dish with the chosen size and notes; an empty size selector (`NaN`) throws and changes nothing |
| `Ordering.Session.ShowCart` | data/flutter_assets/assets/emenu/app.js:343-369 | an empty cart shows only a notice; otherwise each row shows its name, quantity and price times quantity, and the total is `Total(cart)` |
| `Ordering.Session.ViewCart` | data/flutter_assets/assets/emenu/app.js:50-67 | the header's cart button, present on every view but the language view, shows the cart view |
| `Ordering.Session.GoBack` | data/flutter_assets/assets/emenu/app.js:409-415 | the view becomes its parent: cart and detail go to dish, dish to category, category to type, type to language; others stay |
| `Ordering.Session.HeaderBack` | data/flutter_assets/assets/emenu/app.js:50-57 | the header back button, present on every view but the language view, with its explicit type-to-language wiring, agrees with the parent map on every view where it exists |
| `Ordering.Session.SubmitOrder` | data/flutter_assets/assets/emenu/app.js:371-401 | the checkout button, only on a cart view with at least one line, posts `{tableName: tableId, items: cart}`; success empties the cart and shows the type view; a rejection or an exception changes neither |

## Left out

- Rendering: DOM construction, `innerHTML` templates, CSS classes, `alert` messages and `console.error` logging. The page's text direction is kept only as the `rightToLeft` field.
- The translation table of UI strings (lines 26-30), the dish card's first-size price or `'N/A'` (lines 202-205), and the removal-note checkboxes themselves (lines 278-295). Their checked texts are the `notes` argument of `AddSelected`.
- Removal-note texts that are missing render as the string `"undefined"` in a checkbox value. The model takes the note strings as given.
- `fetch`, JSON parsing and `async` timing: every request's outcome is a parameter. A server reply with an HTTP error status whose body is not a list is not distinguished from a list, and overlapping in-flight requests (a concurrency concern) are not modelled.
- `URLSearchParams` and `window.location`: the two query parameters are optional strings.
- Floating-point prices: prices are integers (minor currency units), so totals are exact.
- Cart lines are values in a sequence, not shared objects, so aliasing between the posted order body and the cart is not modelled. The page never keeps another reference to a line.
- The header's cart count is not redrawn after an add, because `addToCart` does not call `render`. Redrawing is outside the model.
- Cart.AdditionOrderKeepsTotal: proved only when every add names an offered size at one fixed price per dish and size. A line keeps the price of its first add, so with prices that change between adds the order can change the total.
- Ordering.Session.AddSelected: requires the detail view, where the add button is the only caller, so the throw on a null selected dish is not modelled.
- Ordering.Session.NavPrev: requires the detail view, where the button exists. There the shown dish is always found, so the not-found index -1 is not modelled.
- Ordering.Session.NavNext: requires the detail view, for the same reason as `NavPrev`.
