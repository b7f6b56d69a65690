# Guitar-shop cart and checkout, modelled in Dafny

This project models the client-side core of an Angular storefront:

- **the cart store** (`CartService`). It holds a list of cart lines keyed by product id. It merges additions by id, decrements and removes lines, recomputes the two totals (price and quantity), publishes them and writes the list to browser storage. On construction it restores the list from storage.
- **the checkout component**. It has a validation gate, turns the cart lines into order lines, and builds the Purchase with state and country names in place of the selection objects. It resets the cart and form after a successful order. It also copies the shipping address to billing, fills the state list that depends on the chosen country, and chooses the first expiry month.
- **the helpers**: the cart-line and order-line constructors, the expiry month and year list builders, and the `notOnlyWhitespace` validator.

Modules, one per source file or component:

| file | module | source |
|---|---|---|
| wrappers.dfy | `Wrappers` | null/undefined as `Option` |
| common.dfy | `Common` | src/app/common (records, `CartItem` and `OrderItem` constructors) |
| cart_lines.dfy | `CartLines` | the line list of src/app/services/cart.service.ts as a value: lookup, totals, add/decrement/remove and their lemmas |
| cart_service.dfy | `CartStore` | class `Cart`, the store itself |
| form_service.dfy | `ShopFormService` | src/app/services/luv2-shop-form.service.ts (month and year lists) |
| validators.dfy | `ShopValidators` | src/app/validators/luv2-shop-validators.ts |
| checkout.dfy | `Checkout` | src/app/components/checkout/checkout.component.ts |

Modelling choices:

- Money is whole cents (`int`).
- The cart is a class. Its `lines` field is a `seq<CartItem>`. Each totals channel (a `BehaviorSubject` starting at 0) is the sequence of every value published on it, so "nothing was published" can be stated. The storage key `'cartItems'` is a field `stored: Option<seq<CartItem>>`.
- The class invariant `Cart.Valid()` says the last published totals equal the sums over the current lines. Every method keeps it.
- The checkout component reads its `totalPrice`/`totalQuantity` as the cart's last published values, because its subscriptions mirror the channels.
- The outcome of `placeOrder`, the state list returned for a country, the country list, and the current year and month are parameters.
- `placedOrders` records every Purchase handed to `placeOrder`.

Behaviour of the code worth noting, which the model keeps:

- `addToCart` appends the item it is given unchanged (with whatever quantity it carries), not a new line of quantity 1. A line of quantity 1 is what `new CartItem(product)` produces.
- `resetCart` does not write storage, so the stored list survives a successful order.
- The constructor does not catch malformed stored JSON. It is not recovered as an empty cart.
- The expiry-month choice does not react to the selected year (see Findings).

## Model

| member | source | states |
|---|---|---|
| `Common.NewCartItem` | src/app/common/cart-item.ts:39-46 | a new cart line holds exactly one unit, so its subtotal is the product's unit price |
| `Common.NewCartItemDeterminedBy` | src/app/common/cart-item.ts:39-45 | two products give the same cart line iff they agree on id, name, image URL and unit price: those are copied, and sku, description, stock and dates have no effect |
| `Common.ToOrderItem` | src/app/common/order-item.ts:31-36 | the order line's subtotal (quantity × unit price) equals the cart line's |
| `Common.ToOrderItemDeterminedBy` | src/app/common/order-item.ts:31-36 | two cart lines give the same order line iff they agree on id, image, price and quantity; productId is the cart line's id. The cart line is a value, so building the order line cannot change it |
| `CartLines.IndexOf` | src/app/services/cart.service.ts:85-86 | the result is -1 exactly when no line has the id, otherwise the index of the first line with that id |
| `CartLines.FindIndex` | src/app/services/cart.service.ts:44-47 | the search loop of `find`/`findIndex` returns `IndexOf` |
| `CartLines.SumsOfConcat` | src/app/services/cart.service.ts:99-105 | the totals of two concatenated line lists are the sums of their totals |
| `CartLines.SumsAround` | src/app/services/cart.service.ts:99-105 | the totals split into the lines before, the line itself and the lines after |
| `CartLines.SumsAfterQuantityChange` | src/app/services/cart.service.ts:99-105 | changing one line's quantity moves the totals by exactly that line's difference |
| `CartLines.SumsAfterRemoval` | src/app/services/cart.service.ts:99-105 | splicing out a line lowers the totals by exactly its quantity and subtotal |
| `CartLines.SumsAfterAppend` | src/app/services/cart.service.ts:99-105 | appending a line raises the totals by its quantity and subtotal |
| `CartLines.AddedLines` | src/app/services/cart.service.ts:38-63 | the cart gains a line only for a new id; the item count rises by one unit for a known id and by the item's units for a new one |
| `CartLines.RemovedLines` | src/app/services/cart.service.ts:83-93 | the cart loses one line exactly when the id is present, and the item count drops by the units held for that id |
| `CartLines.DecrementedLines` | src/app/services/cart.service.ts:69-77 | the item count drops by exactly one unit when the id is present (nothing otherwise), and the cart loses a line exactly when that line held a single unit |
| `CartLines.AddExisting` | src/app/services/cart.service.ts:44-62 | adding an id already present keeps the length, raises that line's quantity by exactly 1, changes no other line, and raises the totals by 1 unit and by that line's unit price |
| `CartLines.AddAbsent` | src/app/services/cart.service.ts:46-62 | adding an absent id appends the given item unchanged at the end, keeps the existing lines, and raises the totals by the item's quantity and subtotal |
| `CartLines.AddKeepsInvariant` | src/app/services/cart.service.ts:44-59 | adding keeps ids pairwise distinct, keeps all quantities ≥ 1 when the item has quantity ≥ 1, and the set of ids becomes the old ids plus the item's |
| `CartLines.RemoveAbsent` | src/app/services/cart.service.ts:83-93 | removing an absent id leaves the lines as they are |
| `CartLines.WithoutAt` | src/app/services/cart.service.ts:89 | `splice(i, 1)` leaves one line fewer: the lines before `i` in place, the lines after it shifted down by one |
| `CartLines.RemovePresent` | src/app/services/cart.service.ts:85-91 | removing a present id deletes exactly its first line, keeps the others in order, lowers the totals by that line, and with distinct ids leaves the id absent |
| `CartLines.WithoutKeepsInvariant` | src/app/services/cart.service.ts:89 | splicing out a line keeps ids distinct and quantities ≥ 1 |
| `CartLines.RemoveKeepsInvariant` | src/app/services/cart.service.ts:85-89 | `remove` keeps ids distinct and quantities ≥ 1 |
| `CartLines.DecrementAbsent` | src/app/services/cart.service.ts:69-77 | decrementing an id that is not in the cart leaves the lines as they are |
| `CartLines.DecrementToZero` | src/app/services/cart.service.ts:69-73 | decrementing a line of quantity 1 equals `remove` of its id: one line fewer, totals down by one unit of it |
| `CartLines.DecrementKeepsLine` | src/app/services/cart.service.ts:69-76 | decrementing a line of quantity ≠ 1 keeps the length and lowers that line's quantity by exactly 1; no other line changes |
| `CartLines.DecrementKeepsLineTotals` | src/app/services/cart.service.ts:69-76 | in that case the totals drop by 1 unit and by that line's unit price |
| `CartLines.DecrementKeepsInvariant` | src/app/services/cart.service.ts:69-77 | decrementing keeps ids distinct and keeps all quantities ≥ 1 (a line that reaches 0 is removed) |
| `CartLines.DistinctIdsCount` | src/app/services/cart.service.ts:44-59 | with distinct ids there are exactly as many lines as ids |
| `CartLines.AddOneUnit` | src/app/services/cart.service.ts:44-58 | one addition raises the quantity held for its id by 1 and for every other id by 0, when the id is already in the cart (whatever quantity the item carries, as the cart view's "+" passes the line itself) or the new item holds one unit |
| `CartLines.AddAllKeepsIds` | src/app/services/cart.service.ts:38-63 | after any run of additions, whatever quantities the items carry, the ids are the old plus the added ones and stay distinct |
| `CartLines.AddAllCounts` | src/app/services/cart.service.ts:38-63 | when every item whose id is new at its step holds one unit (`NewIdsSingleUnit`), each id's quantity grows by the number of additions of that id, whatever later additions of it carry |
| `CartLines.FillEmptyCart` | src/app/services/cart.service.ts:38-63 | filling an empty cart gives one line per distinct id added; when each product first arrives with one unit and later additions of it are any items with that id, each line's quantity is the number of additions of its id |
| `CartLines.ProductPageThenPlusTwice` | src/app/services/cart.service.ts:44-58 | adding a product from its page and then pressing "+" twice (the cart's own line, holding one then two units) leaves a single line of three units |
| `CartStore.SumTotals` | src/app/services/cart.service.ts:99-105 | the summing loop yields Σ quantity × unitPrice and Σ quantity over the lines |
| `CartStore.Cart.constructor` | src/app/services/cart.service.ts:21-32 | loads the stored list when present, otherwise starts empty; then publishes totals that match the lines and stores the list, so `Valid()` holds |
| `CartStore.Cart.PersistCartItems` | src/app/services/cart.service.ts:118-120 | the storage entry becomes the current list; lines and channels are unchanged |
| `CartStore.Cart.ComputeCartTotals` | src/app/services/cart.service.ts:98-116 | publishes exactly one new value per channel, namely Σ quantity × unitPrice and Σ quantity over the unchanged lines, and stores the list |
| `CartStore.Cart.AddToCart` | src/app/services/cart.service.ts:38-63 | the lines become `AddedLines` of the old lines; the totals are then published and the list stored; distinct ids and positive quantities are kept |
| `CartStore.Cart.Remove` | src/app/services/cart.service.ts:83-93 | the lines become `RemovedLines`. For a present id the totals are published and the list stored. For an absent id nothing is published and storage is untouched |
| `CartStore.Cart.DecrementQuantity` | src/app/services/cart.service.ts:69-77 | the lines become `DecrementedLines`. The totals are published and stored exactly when `DecrementPublishes` holds, otherwise nothing is. `Valid()`, distinct ids and positive quantities are kept |
| `CartStore.SameIdsSameIndex` | src/app/services/cart.service.ts:70-73 | after the decrement, `remove` finds the same line, and splicing it out gives the same list as splicing out the original line |
| `ShopFormService.ExpiryMonths` | src/app/services/luv2-shop-form.service.ts:58-65 | the month list from s: empty for s > 12, length 13 − s for s ≤ 13, counting up by one, and holding exactly the months from s to 12 |
| `ShopFormService.ExpiryYears` | src/app/services/luv2-shop-form.service.ts:71-81 | the year list from y: 11 elements, first y, last y+10, counting up by one, and holding exactly the years y to y+10 |
| `ShopFormService.GetCreditCardMonths` | src/app/services/luv2-shop-form.service.ts:58-65 | the loop produces exactly `ExpiryMonths(s)` |
| `ShopFormService.GetCreditCardYears` | src/app/services/luv2-shop-form.service.ts:71-81 | the loop produces exactly `ExpiryYears(y)` |
| `ShopValidators.TrimStartEmpty` | src/app/validators/luv2-shop-validators.ts:15 | trimming the front leaves nothing exactly when every character is white space, and otherwise starts at a visible character |
| `ShopValidators.TrimEndKeepsHead` | src/app/validators/luv2-shop-validators.ts:15 | trimming the end of a string that starts with a visible character keeps that character |
| `ShopValidators.TrimEndDropsTail` | src/app/validators/luv2-shop-validators.ts:15 | trimming the end never lengthens a string and leaves one that does not end in white space |
| `ShopValidators.Trim` | src/app/validators/luv2-shop-validators.ts:15 | `trim()` leaves nothing exactly when the string is all white space; otherwise what is left starts and ends with a visible character |
| `ShopValidators.NotOnlyWhitespace` | src/app/validators/luv2-shop-validators.ts:13-22 | the error exactly when the value is present and all white space (so '' fails); no error exactly when the value is null or has a visible character |
| `ShopValidators.NotOnlyWhitespacePadding` | src/app/validators/luv2-shop-validators.ts:15 | adding leading or trailing white space does not change the verdict |
| `ShopValidators.NotOnlyWhitespaceOfTrim` | src/app/validators/luv2-shop-validators.ts:15 | the verdict on a value equals the verdict on its trimmed form |
| `Checkout.FormValid` | src/app/components/checkout/checkout.component.ts:204 | the form as first shown and the form after a reset are both invalid, so neither passes the submit gate |
| `Checkout.CustomerOf` | src/app/components/checkout/checkout.component.ts:227 | the customer as entered: names of at least two characters and not all white space, and an email of the pattern's shape |
| `Checkout.ResolveAddress` | src/app/components/checkout/checkout.component.ts:229-251 | state and country become the selections' names; street, city and zip code are as entered, each at least two characters and not all white space |
| `Checkout.AssemblePurchase` | src/app/components/checkout/checkout.component.ts:209-255 | one order line per cart line and an Order with the given totals; when those are the cart's sums, the Order's totals equal the sums over the Purchase's own order lines |
| `Checkout.BuildOrderItems` | src/app/components/checkout/checkout.component.ts:215-221 | the order lines have the cart's length, and order line i is `OrderItem(cartItems[i])`, in the same order |
| `Checkout.OrderLinesSumLikeCart` | src/app/components/checkout/checkout.component.ts:215-221 | the order lines add up to the same total price and quantity as the cart lines they copy |
| `Checkout.PurchaseContents` | src/app/components/checkout/checkout.component.ts:209-255 | the Purchase carries the customer as entered, an Order with the component's totals, and one order line per cart line in order, with the line's product id |
| `Checkout.ResolvedAddresses` | src/app/components/checkout/checkout.component.ts:229-251 | both addresses carry `state.name` and `country.name` in place of the selections; street, city and zip code are copied from the form |
| `Checkout.StartMonth` | src/app/components/checkout/checkout.component.ts:382-388 | with the intended lookup the list starts between January and the current month, and later than January only when the current year is selected |
| `Checkout.StartMonthAsWritten` | src/app/components/checkout/checkout.component.ts:374-388 | as written, the group lookup `'creitCard'` finds nothing, so the month list always starts at 1 |
| `Checkout.StartMonthTypoCounterexample` | src/app/components/checkout/checkout.component.ts:374-388 | October 2026 with 2026 selected: the source starts at 1 and offers September, a past month; the intended start is 10 |
| `Checkout.StartMonthOffersNoPastMonth` | src/app/components/checkout/checkout.component.ts:382-388 | with the intended lookup: for the current year the months offered are exactly current month…12; for any other year, 1…12 |
| `Checkout.CheckoutComponent.constructor` | src/app/components/checkout/checkout.component.ts:95-198 | after `ngOnInit`: the blank form; months from the current month; years from the current year; the country list from the service; empty state lists; no orders placed |
| `Checkout.CheckoutComponent.OnSubmit` | src/app/components/checkout/checkout.component.ts:200-271 | invalid form: only marks touched, builds and places nothing, and the cart is unchanged. Valid form: places exactly `AssemblePurchase(form, cart lines, totals)`. On success the cart is reset; on error nothing is reset |
| `Checkout.CheckoutComponent.ResetCart` | src/app/components/checkout/checkout.component.ts:274-282 | empties the lines, publishes 0 on both channels, leaves the stored list as it was, and resets the form (all null, untouched) |
| `Checkout.CheckoutComponent.CopyShippingAddressToBillingAddress` | src/app/components/checkout/checkout.component.ts:353-371 | checked: billing group = shipping group and billing states = shipping states. Unchecked: billing group cleared and billing states empty. Nothing else changes |
| `Checkout.CheckoutComponent.GetStates` | src/app/components/checkout/checkout.component.ts:409-417 | replaces only the named group's state list ('shippingAddress' → shipping, otherwise billing) and sets only that group's state to `data[0]` (null when the list is empty) |
| `Checkout.CheckoutComponent.HandleMonthsAndYears` | src/app/components/checkout/checkout.component.ts:374-396 | the month list becomes [start, …, 12] with start = the current month when the selected expiry year is the current year and 1 otherwise; nothing else changes |

## Left out

- HTTP: the order-submission, product and country/state services are network calls. `placeOrder`'s outcome, the country list and the state list for a country are parameters. `getCountries`, `getStates` and their URLs are not modelled.
- The authentication wrapper over axios and the login/register flows are not part of this model.
- The RxJS machinery is not modelled. Each channel is the sequence of values published on it. Subscription timing is not modelled: the component's totals are read as the cart's last published values.
- `logCartData`, `console.log` and `alert` (including the tracking-number message) are console and UI output.
- Routing is not modelled: `navigateByUrl('/products')` after a reset, and the other components.
- JSON serialisation is not modelled. Storage holds the parsed list, and `JSON.parse(JSON.stringify(…))` copies are identities. A malformed stored string, which makes the source's constructor throw, is not represented.
- Angular's validators are library behaviour. `FormValid` is this model's reading of them: required, minLength(2), notOnlyWhitespace, a 16-digit card number, a 3-digit security code and the email pattern. The form's touched state is one flag: per-control touched and pristine flags are not modelled, including the billing group's own reset.
- Floating point: prices are integer cents, and `toFixed` is not modelled.
- Product fields are modelled as present. The source declares them optional and reads them with non-null assertions.
- Aliasing is not modelled: the cart lines and form values are values.
- `CartStore.Cart.DecrementQuantity`: the argument is taken to be the cart's own line with that id, as the cart view passes it. A separate object with the same id would be decremented in the source while the cart line stays unchanged. That case is not modelled.
- `CartStore.Cart.AddToCart`: later mutation of the caller's object, which the source pushes by reference, is not modelled.
- `Checkout.CheckoutComponent.OnSubmit`: in the source, writing the state and country names into `purchase.shippingAddress` and `purchase.billingAddress` overwrites the address groups' cached `value` objects, which the next submit reads again. After an error response, a second submit with no edit in between therefore finds strings where the selections were. `JSON.parse(JSON.stringify(name)).name` is then `undefined`, and the retried Purchase carries no state or country names. The model keeps the selections and sends the names again, so it does not capture this retry behaviour.
- `Checkout.CheckoutComponent.GetStates`: modelled for the two address groups only. The source skips a name that is not a group, and fails reading `country.code` for the customer and credit-card groups.
- `Checkout.ResolveAddress` and `Checkout.AssemblePurchase` are stated for a valid form only. Only a valid form reaches them, and a null state or country would make the source throw.
- `Checkout.CheckoutComponent.HandleMonthsAndYears` looks up the credit-card group under its own name, not the source's `'creitCard'` (see Findings). An empty expiry year counts as "not the current year": `Number('')` is 0, which is never a calendar year.

## Findings

| source | as written | input that shows it | evidently intended | confidence | as-written member | corrected member |
|---|---|---|---|---|---|---|
| src/app/components/checkout/checkout.component.ts:375 | `get('creitCard')` returns null, so the selected year is `Number(undefined)` (NaN), and the month list always starts at January | today October 2026, expiry year 2026 selected: months 1–12 are offered, including the past months 1–9 | look up `'creditCard'`: start at the current month (10) when the current year is selected | high; not executed | `Checkout.StartMonthAsWritten` (shown by `Checkout.StartMonthTypoCounterexample`) | `Checkout.StartMonth` (proved in `Checkout.StartMonthOffersNoPastMonth`, used by `Checkout.CheckoutComponent.HandleMonthsAndYears`) |
