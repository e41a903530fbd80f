# El Coco storefront: pricing options and cart model

A Dafny model of the pricing and cart logic of the El Coco storefront page
(`script.js`). An operator adds products, each with a package price and
optionally an individual-piece price and a per-weight price. The catalogue
can be filtered by category. Shoppers add a chosen price option to the cart.
Cart lines are priced, totalled, edited, removed and cleared. The catalogue
and the cart are written through to browser storage.

Modules:

- `Wrappers` (`wrappers.dfy`): `Option` and `Result`.
- `Pricing` (`pricing.dfy`): the `PriceOption` sum type, `Product`, the parsed
  product form, the kilograms-per-pound constant, and product construction.
- `Catalogue` (`catalogue.dfy`): the category filter of the products tab.
- `Cart` (`cart.dfy`): `CartItem`, line and grand totals, the rendering loop
  that caches each line's total, and the pure cart edits (append, set
  quantity, remove by cart id).
- `App` (`app.dfy`): the page state `Page` (catalogue, cart, and the two storage
  entries) and one function per event handler; the "calculate total"
  button and switching to the cart tab only render. The invariant `Consistent`
  says storage mirrors memory and every cached line total is current. Page
  load establishes it. `StepAsWritten` handles one event as the page does;
  it keeps the invariant on every event except removing the last cart line
  (see "## Findings"). `Step` and `Run` handle events with the corrected
  removal, and every sequence of those keeps the invariant.
- `Scenarios` (`scenarios.dfy`): concrete products worked through the handlers.

Money, quantities and weights are exact `real`s. The optional-price fields
of the product form and the dialog quantity are `Option`s; there `None`
plays the part of `NaN`, which never passes a `> 0` guard and is replaced by
the `|| 1` default. The package price and a typed cart quantity are plain
reals, so their `NaN` cases are not modelled. Product and
cart ids come from the clock in the page, so here the caller supplies them.

Facts about the page that shape the model:

- The page never merges duplicate selections. Every add appends a line
  (`Scenarios.AddTwiceNoMerge`).
- The page has no product edit or delete, so cart lines never lose their product.
- The page has no stepper that removes a line at zero. A typed quantity of
  zero or less is refused and the line is kept.
- The per-kilo price is always derived from the per-pound price. It is never
  entered separately.
- Every product has the package option, whatever its price. A product is
  never rejected for lacking options.

## Model

| member | source | states |
|---|---|---|
| Pricing.WeightOption | script.js:134-145 | the weight option keeps the per-pound price; its per-kilo price times 0.453592 gives back the per-pound price, so it exceeds the per-pound price when that is positive |
| Pricing.BuildProduct | script.js:103-147 | a built product keeps the id, name and category; the package option is first; the individual option follows iff its box is ticked and price and pack size are positive; the weight option is last iff its box is ticked and the per-pound price is positive; 1 to 3 options in rank order, no kind twice, none unrecognised |
| Pricing.BuildProductRoundTrip | script.js:118-146 | reading the individual and weight options back from a built product returns exactly the accepted form values, and nothing when the guard rejected them |
| Pricing.WellOrderedKindsDistinct | script.js:111-146 | in a constructed option list no price kind appears twice |
| Catalogue.KeepCategory | script.js:167 | the kept products all have the category; each product occurs as often as in the catalogue if its category matches and otherwise not at all; the result is a subsequence of the catalogue |
| Catalogue.FilterByCategory | script.js:164-167 | filter "all" returns the catalogue unchanged; any other value returns exactly the matching products, with multiplicity, in catalogue order |
| Catalogue.FilterIdempotent | script.js:167 | filtering a filtered list by the same value changes nothing |
| Catalogue.FilterNoMatch | script.js:167-172 | a category no product carries gives an empty list |
| Cart.Choose | script.js:221-251 | a choice exists iff the position is within the product's options; the chosen option is the product's option at that position, and the choice remembers the position |
| Cart.Priced | script.js:352-354 | computing a line's total stores it in the line's total field and changes no other field |
| Cart.Refreshed | script.js:372-373 | refreshing the cart keeps its length and afterwards every line's cached total equals its line total |
| Cart.RenderCart | script.js:360-374 | the accumulated grand total is the sum of line totals over the cart, first to last (0 for an empty cart), and the lines come back with their totals cached |
| Cart.FindLine | script.js:432 | the result is the first position whose cart id matches, or none when no line matches |
| Cart.SetQuantity | script.js:432-434 | only the first line with the id gets the new quantity; its other fields and all other lines are unchanged; an unknown id changes nothing |
| Cart.RemoveLine | script.js:451-455 | only the first line with the id is removed; lines before keep their positions and lines after shift down by one; an unknown id changes nothing |
| Cart.EffectiveQuantity | script.js:283-285 | an unparseable or zero entry becomes 1; any other entry is kept unchanged, so the result is never 0 |
| Cart.AddLine | script.js:277-304 | no product or no option gives the select-an-option warning; a negative entry gives the quantity warning; success iff both are selected and the effective quantity is positive, and then exactly one line is appended after the untouched earlier lines, carrying the id, the product's id, name and category, the option and its position, the effective quantity (1 for a missing or zero entry), and the unit label "lb" for a weight option or "unidades" otherwise |
| Cart.LineTotalDependsOnlyOnOptionAndQuantity | script.js:333-355 | two lines with the same stored option and quantity have the same total, whatever their other fields |
| Cart.LineTotalByKind | script.js:333-350 | package and individual lines cost price times quantity; weight lines cost per-pound price times quantity; an unknown option costs 0 |
| Cart.LineTotalAdditive | script.js:338-347 | two unmerged lines for the same option cost exactly what one line with the summed quantity would, so not merging duplicates never changes the price |
| Cart.CartTotalAppend | script.js:362-374 | the grand total of two carts end to end is the sum of their grand totals |
| Cart.RefreshedTotals | script.js:372-374 | caching line totals leaves the grand total unchanged, and the cached totals then sum to it |
| Cart.RefreshedFresh | script.js:352-353 | recomputing totals of a cart whose cached totals are current changes nothing |
| Cart.CartTotalSplit | script.js:372-374 | the grand total is the total before a line, plus that line, plus the total after it |
| Cart.AddLineTotal | script.js:304 | an accepted add raises the grand total by exactly the new line's total |
| Cart.RemoveLineTotal | script.js:451-457 | removing a line lowers the grand total by exactly its total; an unknown id leaves it as it was |
| Cart.SetQuantityTotal | script.js:432-435 | a quantity edit moves the grand total by the change in that one line's total |
| App.LoadData | script.js:42-45 | an absent storage key reads as an empty list; a present one reads as the saved list |
| App.Render | script.js:360-417 | rendering keeps the catalogue and the grand total; an empty cart is left alone and not saved; a non-empty cart gets fresh cached totals and is saved; a consistent state stays consistent and positive quantities stay positive |
| App.Start | script.js:56-58 | after page load (reading both keys, then the `renderCart` run at DOMContentLoaded, script.js:473-476) the state is consistent, the catalogue is what storage held and its key is not written, and the cart is the stored cart with every line's total refreshed |
| App.ReloadRestores | script.js:42-58 | reloading from the storage of a consistent state reproduces that state exactly |
| App.SubmitProduct | script.js:148-149 | the built product is appended after the untouched catalogue, the catalogue is saved, the cart and its storage entry are untouched, and consistency is kept |
| App.AddToCart | script.js:277-308 | a rejected add changes nothing; an accepted one leaves the cart the appended cart with totals refreshed (earlier lines only re-priced, the new line carrying the selected product, option and quantity), raises the grand total by the new line's total, and saves the cart; the catalogue and its storage entry are untouched; consistency and positive quantities are kept |
| App.ChangeQuantity | script.js:421-438 | a non-positive quantity or an unknown id changes nothing; otherwise the first matching line becomes that line with the new quantity and its total refreshed, every other line is only re-priced, the grand total moves by that line's change, and the cart is saved; the catalogue and its storage entry are untouched; consistency and positive quantities are kept |
| App.RemoveAsWritten | script.js:448-460 | the page's removal splices out the first matching line but saves only when lines remain; the catalogue and its storage entry are untouched |
| App.RemoveAsWrittenLosesLastRemoval | script.js:448-460 | removing the only line of a consistent cart as written leaves storage holding it, and a reload brings it back |
| App.NextAddRepairsLostRemoval | script.js:277-308 | after the page loses the removal of the only line, the next accepted add saves the cart and the state is consistent again |
| App.RenderKeepsLostRemoval | script.js:441-444 | after the lost removal, a recalculate (or a switch to the cart tab) renders an empty cart and saves nothing, so storage still disagrees with memory |
| App.RemoveAsWrittenCounterexample | script.js:364-368 | one concrete one-line cart for which the written removal empties memory but not storage |
| App.Remove | script.js:448-460 | removal with the save: only the first matching line goes, the others keep their order, the grand total drops by its total, the cart is saved, the catalogue and its storage entry are untouched, and consistency and positive quantities are kept |
| App.RemoveAgreesInMemory | script.js:448-460 | the corrected removal and the page's agree on the cart, and entirely whenever lines remain |
| App.Clear | script.js:463-470 | clearing empties the cart in memory and saves `[]` under the cart key, totals 0, and keeps the catalogue |
| App.Selected | script.js:204-251 | an option is selected iff a product is current and the clicked position is within its options; the selection is the option at that position, with the position |
| App.StepAsWrittenKeepsConsistent | script.js:277-470 | on the page as written, every form, add, edit, remove, clear, recalculate or cart-tab event keeps a consistent state consistent, except removing the only cart line, after which storage no longer matches memory |
| App.RunKeepsConsistent | script.js:277-470 | on the page with the corrected removal, any sequence of form, add, edit, remove, clear, recalculate and cart-tab events keeps storage equal to memory and every cached total current |
| App.RunKeepsPositiveQuantities | script.js:285-290 | for parsed quantities: once every line's quantity is positive, no sequence of events makes one non-positive (stated for `Run`; the page's removal leaves the same cart, `App.RemoveAgreesInMemory`) |
| Scenarios.PanIntegralTwoOptions | script.js:293-304 | adding the package and the individual option of one product gives two lines of $1.50 and $0.50, $2.00 in all |
| Scenarios.AddTwiceNoMerge | script.js:293-304 | adding the same selection twice appends two lines with the same option and their own quantities; the grand total rises by both line totals |
| Scenarios.StartEmpty | script.js:42-58 | loading a page whose storage holds neither key gives an empty catalogue and cart and saves nothing |
| Scenarios.PapasPrices | script.js:111-146 | a product with the weight box ticked at $1.00 per pound gets the package option and then a weight option whose per-kilo price is 1 / 0.453592 |
| Scenarios.PapasNotMerged | script.js:293-304 | 2.5 lb and then 1.5 lb at $1.00 per pound give two lines with the same option totalling $4.00, whatever the per-kilo price |
| Scenarios.QuantityDefaults | script.js:285-290 | a zero or missing dialog quantity adds one unit; a negative one leaves the page state unchanged |

## Left out

- Rendering: card and cart markup, labels, `toFixed` display strings, tab switching (apart from the cart render that showing the cart tab runs, script.js:90-92), category `<option>` lists, the product counter and the empty-cart messages.
- Notifications, `setTimeout` and `transitionend`: timing and presentation only. The add handler's two warnings (script.js:279, 288) are the `Warning` results of `Cart.AddLine`; the edit handler's refusal (script.js:427) appears only as the unchanged state.
- The `confirm` dialog before clearing: clearing is taken as confirmed.
- `JSON.stringify`/`JSON.parse` through `localStorage`: storage holds the lists themselves, assuming an exact round trip.
- IEEE-754 doubles: money and weights are exact reals, so rounding drift is not modelled.
- `NaN` from `parseFloat`: inputs arrive parsed. Only the optional-price fields and the dialog quantity are `Option`s. A `NaN` package price (script.js:108), which would make every package line total `NaN`, is not modelled. Nor is a `NaN` typed into a cart quantity field (script.js:424), which passes the `<= 0` guard in the page.
- `Date.now()` ids: the caller supplies them. Colliding ids are allowed; removal and editing act on the first match.
- `updateWeightDisplay`: it computes values and discards them.
- The selection dialog's product lookup: the chosen product arrives as an input. Clicking an option is an option position in the add event, turned into the selected option by `App.Selected` through `Cart.Choose`.
- The revert of the quantity input: when the id is unknown and the quantity is not positive, the page throws a `TypeError`. The cart is unchanged either way.
- Display-only fields: option labels and the fixed `unit` texts of the individual and weight options.

## Findings

| source | as written | input that shows it | evidently intended | confidence | as-written member | corrected member |
|---|---|---|---|---|---|---|
| script.js:448-460 | the remove handler never saves the cart; it relies on `renderCart`, which returns early without saving when the cart is empty (script.js:364-368) | a stored cart with one line; remove that line; reload the page | the removal is persisted, as clearing does at script.js:465-466 | high; not executed | App.RemoveAsWritten, App.RemoveAsWrittenLosesLastRemoval, App.StepAsWritten | App.Remove, App.Step, App.RunKeepsConsistent |
