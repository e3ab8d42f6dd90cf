# loqo cart and checkout, modelled in Dafny

loqo is a SwiftUI shopping app. This project models its cart and checkout flow:

- the home screen's product cards, whose cart and heart buttons toggle a product id in the
  `shoppingList` and `favorites` sets, and whose search field filters the product grid;
- the cart screen, which lists the products whose id is in the cart and prices them
  (subtotal, 13% tax, total). Its minus and plus buttons edit quantities in the product list.
  Its trash button removes a row after confirmation, and its checkout link calls the screen's
  `resetCart`;
- the favourites screen's list, its heart button and its "Add to Bag" button;
- the payment screen's three field checks and its "Confirm Payment" button.

Modules:

- `Catalog` holds the product record, the order-preserving filter behind every list,
  `firstIndex(where:)` and the four seeded products.
- `Selection` holds the set updates.
- `Cart` holds pricing and the quantity buttons.
- `Favorites` holds the favourites list.
- `Search` holds the case-insensitive title search and the fetch request whose predicate it
  sets (class `ProductsRequest`).
- `Session` holds the state the home screen owns (class `ShopState`), with one method per
  button.
- `Payment` holds the validators and the payment form (class `PaymentForm`).

Prices are `real`. The rounding of `Double` and the `%.2f` display are not modelled (see
below). Quantities and ids are `int`.

The cart's minus button reads the tapped row's quantity but changes the first product with
that id. `Cart.MinusKeepsFloor` therefore needs unique ids, and `Cart.MinusFloorNeedsUniqueIds`
shows that duplicate ids can drive a quantity to 0.

Removal only drops the id from `shoppingList` and leaves the product list alone, so a re-added
row comes back with the quantity it had (`Cart.ReAddRestoresRow`, `Session.RemoveThenAddBack`).

The home screen hands its fetch results to the cart and favourites screens as well, so a search
narrows those lists too. `Session.SearchNarrowsCartAndFavorites` states this for any stored
list and any search text. `Session.FavoritesAfterSearchCleared` shows it together with the
stale search predicate below.

## Model

| member | source | states |
|---|---|---|
| Catalog.Filter | loqo/CartView.swift:9-11 | `filter` keeps exactly the elements that satisfy the predicate and never lengthens the list |
| Catalog.FilterConcat | loqo/CartView.swift:9-11 | filtering keeps list order: the filter of a concatenation is the concatenation of the filters |
| Catalog.FilterCommutes | loqo/FavoritesView.swift:26 | two filters give the same list in either order: a list narrowed by a search and then by the favourites equals the favourites narrowed by the search |
| Catalog.FilterSingleton | loqo/CartView.swift:10 | a one-element list is kept exactly when its element is accepted |
| Catalog.HasIdIn | loqo/CartView.swift:10 | the predicate `contains($0.id)` on a set of ids, shared by the cart and favourites filters |
| Catalog.FilterEmptyIff | loqo/CartView.swift:37 | a filtered list is empty exactly when no element satisfies the predicate |
| Catalog.FirstIndex | loqo/CartView.swift:78 | `firstIndex(where: id ==)` gives an in-range index whose id matches with no earlier match, and gives none exactly when no product has the id |
| Catalog.FirstIndexOfUnique | loqo/CartView.swift:90 | with unique ids, the first index of a product's id is that product's own index |
| Catalog.SeedProducts | loqo/DataController.swift:34-37 | the four seeded products have distinct ids |
| Catalog.FetchedSeedsPermuteSeeds | loqo/HomeView.swift:9-12 | the fixture for the fetched results holds the four seeded records, each exactly once |
| Catalog.FetchedSeedsAscending | loqo/HomeView.swift:10 | that fixture is in the order of the ascending title sort: Dress, Pants, Shirt, T-shirt |
| Cart.CartItems | loqo/CartView.swift:9-11 | `cartItems` holds exactly the products whose id is in `shoppingList` |
| Cart.CartItemsConcat | loqo/CartView.swift:9-11 | cart rows keep product-list order |
| Cart.CartItemsSingleton | loqo/CartView.swift:10 | a single product is a cart row exactly when its id is in the cart |
| Cart.CartItemsEmptyIff | loqo/CartView.swift:37-44 | "Your cart is empty" is shown exactly when no product's id is in the cart |
| Cart.LineTotal | loqo/CartView.swift:66 | a row's total is price times quantity; its use in the subtotal is stated by Cart.SubtotalSingleton |
| Cart.Subtotal | loqo/CartView.swift:13-15 | the `reduce(0)` left fold of line totals; its meaning as a sum is stated by Cart.SubtotalConcat, Cart.SubtotalSingleton, Cart.SubtotalNonNegative and Cart.CartSubtotalIsSum |
| Cart.CartSubtotal | loqo/CartView.swift:13-15 | the subtotal of the cart rows; its changes under the buttons are stated by Cart.SubtotalAfterQuantityChange and Cart.SubtotalAfterRemoval |
| Cart.Tax | loqo/CartView.swift:17-19 | the subtotal times 0.13; stated as 13% of the subtotal by Cart.PricingBreakdown |
| Cart.TotalPrice | loqo/CartView.swift:21-23 | the subtotal plus tax; stated as 113% of the subtotal, and at least the subtotal, by Cart.PricingBreakdown |
| Cart.SubtotalNonNegative | loqo/CartView.swift:13-15 | with no negative price or quantity, the subtotal is not negative |
| Cart.SubtotalConcat | loqo/CartView.swift:13-15 | the subtotal fold is additive over concatenation |
| Cart.SubtotalSingleton | loqo/CartView.swift:14 | one row contributes price times quantity |
| Cart.PricingBreakdown | loqo/CartView.swift:7-23 | with non-negative rows, 0 <= subtotal <= total; tax is 13% of the subtotal and the total is 113% of it |
| Cart.EmptyCartPricesZero | loqo/CartView.swift:13-23 | an empty cart prices at 0 subtotal, 0 tax and 0 total |
| Cart.CartSum | loqo/CartView.swift:13-15 | a reference definition of the subtotal: the sum over the whole product list of the line totals of the products in the cart |
| Cart.CartSubtotalIsSum | loqo/CartView.swift:13-15 | the `reduce(0)` fold over the filtered rows equals that sum, for every product list and cart |
| Cart.SumAfterIncrease | loqo/CartView.swift:79 | raising the quantity at one index by `delta` moves the sum by price times `delta` when that product is in the cart, and not at all otherwise |
| Cart.SumAfterSet | loqo/CartView.swift:79 | setting the quantity at one index to q moves the sum by price times (q minus the old quantity) when that product is in the cart, and not at all otherwise |
| Cart.SubtotalAfterIncrease | loqo/CartView.swift:79 | the same for the subtotal: a quantity change of `delta` moves it by price times `delta` exactly for a product in the cart |
| Cart.LineTotalIncrease | loqo/CartView.swift:66 | raising a row's quantity by `delta` raises its line total by price times `delta` |
| Cart.SubtotalAfterQuantityChange | loqo/CartView.swift:13-15 | setting one product's quantity to q changes the subtotal by price times (q minus the old quantity) when that product is in the cart, and not at all otherwise |
| Cart.AdjustFirst | loqo/CartView.swift:78-79 | `products[firstIndex].quantity += delta` changes only the quantity of the first product with the id, and leaves the list unchanged when there is none |
| Cart.MinusTapped | loqo/CartView.swift:76-81 | the minus button keeps the list's length, and changes nothing when the tapped row's quantity is at most 1 or no product has its id |
| Cart.PlusTapped | loqo/CartView.swift:89-93 | the plus button keeps the list's length, changes nothing when no product has the row's id, and changes the list otherwise |
| Cart.PlusTappedAt | loqo/CartView.swift:89-93 | with unique ids, plus on a row writes that row back with quantity one higher and leaves the rest of the list |
| Cart.MinusTappedAt | loqo/CartView.swift:76-81 | with unique ids, minus on a row above quantity 1 writes that row back one lower and leaves the rest of the list |
| Cart.MinusKeepsFloor | loqo/CartView.swift:76-81 | with unique ids and quantities of at least 1, minus keeps every quantity at least 1, lowers the tapped row by one exactly when it was above 1, and changes no other product |
| Cart.MinusFloorNeedsUniqueIds | loqo/CartView.swift:76-81 | with two products sharing an id, minus on the second (quantity 3) drives the first from 1 to 0 |
| Cart.PlusAddsOne | loqo/CartView.swift:89-93 | with unique ids, plus raises the tapped row's quantity by exactly one and changes no other product |
| Cart.PlusRaisesSubtotal | loqo/CartView.swift:89-93 | with unique ids, plus on a row raises the cart subtotal by that row's price when the row is in the cart |
| Cart.MinusLowersSubtotal | loqo/CartView.swift:76-81 | with unique ids, minus on a row above quantity 1 lowers the subtotal by its price when it is in the cart, and otherwise leaves it |
| Cart.SubtotalAfterRemoval | loqo/CartView.swift:174-177 | removing an id from the cart lowers the subtotal by the line totals of the products with that id |
| Cart.RemovalLowersSubtotalByLine | loqo/CartView.swift:174-177 | with unique ids, removing a row lowers the subtotal by exactly that row's line total |
| Cart.ReAddRestoresRow | loqo/FavoritesView.swift:83 | removing an id and inserting it again restores the same cart rows, quantities included |
| Cart.PricingFixture | loqo/CartView.swift:13-23 | cart {Pants 82.00 x1, Dress 70.00 x2} prices at 222.00 subtotal, 28.86 tax and 250.86 total |
| Selection.Toggle | loqo/HomeView.swift:217-221 | the cart and heart buttons flip the tapped id's membership and leave every other id as it was |
| Selection.ToggleTwice | loqo/HomeView.swift:230-235 | two taps on the same button restore the set |
| Selection.ToggleEachParity | loqo/HomeView.swift:215-221 | after any sequence of taps, an id is in the set exactly when it started there XOR it was tapped an odd number of times |
| Selection.Insert | loqo/FavoritesView.swift:83 | "Add to Bag" adds the id, removes nothing, and changes nothing if the id is already there |
| Favorites.FavoriteProducts | loqo/FavoritesView.swift:14-16 | `favoriteProducts` holds exactly the products whose id is a favourite |
| Favorites.FavoriteProductsConcat | loqo/FavoritesView.swift:26 | favourites keep product-list order |
| Favorites.NoFavoritesIff | loqo/FavoritesView.swift:26-30 | "No favorites added yet" is shown exactly when no product's id is a favourite |
| Search.Lower | loqo/HomeView.swift:25 | the `[c]` case folding of one character, over ASCII letters; its use is stated by Search.FoldCase |
| Search.FoldCase | loqo/HomeView.swift:25 | `[c]` folding keeps the length and folds each character on its own |
| Search.FoldCaseIdempotent | loqo/HomeView.swift:25 | folding twice is folding once |
| Search.ContainsIgnoresCase | loqo/HomeView.swift:25 | `CONTAINS[c]` gives the same answer for the folded title and query |
| Search.ContainsIgnoringCase | loqo/HomeView.swift:25 | `CONTAINS[c]`: the folded query occurs in the folded title; stated by Search.ContainsIgnoresCase, Search.VerbatimOccurrenceMatches and Search.NoMatchWithoutFirstCharacter |
| Search.TitleContains | loqo/HomeView.swift:25 | the fetch predicate `title CONTAINS[c] text`, false for a product without a title; its results are stated by Search.ProductsRequest.FilteredProducts |
| Search.VerbatimOccurrenceMatches | loqo/HomeView.swift:25 | a title containing the query verbatim matches it |
| Search.NoMatchWithoutFirstCharacter | loqo/HomeView.swift:25 | a title none of whose characters folds to the query's first character does not match |
| Search.ProductsRequest.constructor | loqo/HomeView.swift:9-12 | the fetch request starts with the stored products and no predicate |
| Search.ProductsRequest.Results | loqo/HomeView.swift:9-12 | the fetched results are always drawn from the stored products |
| Search.ProductsRequest.FilteredProducts | loqo/HomeView.swift:21-29 | non-empty search text installs the predicate, and the results are then exactly the stored products whose title contains the text ignoring case; empty text keeps whatever predicate was installed before |
| Search.ProductsRequest.FilteredProductsClearing | loqo/HomeView.swift:21-29 | as above, but empty text clears the predicate and gives back every stored product |
| Search.PantsContainsPa | loqo/HomeView.swift:25 | the title "Pants" contains "pa" ignoring case |
| Search.OtherSeedTitlesLackPa | loqo/HomeView.swift:25 | the titles "Dress", "Shirt" and "T-shirt" do not contain "pa" in any case |
| Search.SeedSearchPa | loqo/HomeView.swift:25 | over the seeded products in fetched (title) order, "pa" matches only "Pants" |
| Search.StaleSearchAfterClear | loqo/HomeView.swift:21-29 | searching "pa" and then clearing the field still shows only "Pants" |
| Search.ClearedSearchShowsAll | loqo/HomeView.swift:21-29 | with the clearing version, the same two steps show all four seeded products in title order, which is not their seed order |
| Session.SearchNarrowsCartAndFavorites | loqo/HomeView.swift:43-58 | on the search-narrowed fetch results, the cart rows are the cart rows narrowed by the search, in the same order, and likewise the favourites |
| Session.FavoritesAfterSearchCleared | loqo/FavoritesView.swift:26-30 | favourite "Dress", search "pa", clear the search: the favourites screen shows no favourites although "Dress" is one |
| Session.FavoritesAfterSearchClearedFixed | loqo/FavoritesView.swift:26-30 | with the clearing search, the same steps list "Dress" |
| Favorites.SeedFavoriteDress | loqo/FavoritesView.swift:14-16 | over the seeded products in fetched (title) order, favouriting id 2 lists "Dress" alone |
| Session.ShopState.constructor | loqo/HomeView.swift:16-17 | a session starts with no favourites and an empty cart |
| Session.ShopState.ResetCart | loqo/HomeView.swift:31-33 | `resetCart` empties the cart and changes nothing else |
| Session.ShopState.ToggleCart | loqo/HomeView.swift:215-221 | the cart button toggles the id in the cart only |
| Session.ShopState.ToggleFavorite | loqo/FavoritesView.swift:67-72 | the heart button, on either screen, toggles the id in the favourites only |
| Session.ShopState.AddToBag | loqo/FavoritesView.swift:81-86 | "Add to Bag" inserts the id into the cart only |
| Session.ShopState.DecrementQuantity | loqo/CartView.swift:76-81 | the minus button's new product list is the minus update of the old one; the cart and favourites are unchanged |
| Session.ShopState.IncrementQuantity | loqo/CartView.swift:89-93 | the plus button's new product list is the plus update of the old one; the cart and favourites are unchanged |
| Session.ShopState.RemoveConfirmed | loqo/CartView.swift:174-177 | confirming removal drops the picked row's id from the cart (nothing when no row was picked) and leaves the product list, quantities included |
| Session.ShopState.CheckoutTapped | loqo/CartView.swift:150-165 | the checkout link exists exactly when the cart has rows; tapping it empties the cart only when the screen was given the home screen's `resetCart` |
| Session.FavoriteAndCartIndependent | loqo/HomeView.swift:229-235 | un-favouriting a product in the cart keeps it in the cart |
| Session.RemoveKeepsFavorite | loqo/CartView.swift:174-177 | removing a product from the cart keeps it a favourite |
| Session.RemoveThenAddBack | loqo/CartView.swift:174-177 | remove, then "Add to Bag", gives back the same cart set, cart rows and subtotal with the product list untouched |
| Payment.AllNumeric | loqo/PaymentView.swift:76 | `allSatisfy { $0.isNumber }` holds exactly when every character is a digit |
| Payment.AllNumericConcat | loqo/PaymentView.swift:87 | a concatenation is numeric exactly when both parts are |
| Payment.ValidCardNumber | loqo/PaymentView.swift:76 | the card check, exactly 16 characters all numeric; stated by Payment.FirstFailureWins |
| Payment.MatchesExpiryPattern | loqo/PaymentView.swift:81-82 | the expiry regex; equal to the month-range reading by Payment.ExpiryPatternIsMonthRange |
| Payment.ValidCvv | loqo/PaymentView.swift:87 | the CVV check, exactly 3 characters all numeric; stated by Payment.FirstFailureWins |
| Payment.FirstFailure | loqo/PaymentView.swift:75-93 | `validateInputs` as a value, the first failing check's message or none; stated by Payment.FirstFailureWins and Payment.LaterFieldsNotInspected |
| Payment.ExpiryMonthInRange | loqo/PaymentView.swift:81 | a reference reading of `MM/YY`: two digits, a slash and two digits, with the month read as a number from 1 to 12 |
| Payment.ExpiryPatternIsMonthRange | loqo/PaymentView.swift:81-85 | the expiry regex accepts exactly two digits, a slash and two digits with the month from 1 to 12 |
| Payment.FirstFailureWins | loqo/PaymentView.swift:75-93 | validation passes exactly when all three checks pass, and each message is given exactly when its check is the first to fail |
| Payment.LaterFieldsNotInspected | loqo/PaymentView.swift:75-85 | once a check fails, the fields after it do not affect the outcome |
| Payment.SampleCardNumberIsNumeric | loqo/PaymentView.swift:76 | "1234567890123456" is all digits |
| Payment.ValidFormExample | loqo/PaymentView.swift:75-93 | card "1234567890123456", expiry "12/25" and CVV "123" pass |
| Payment.FirstFailureExamples | loqo/PaymentView.swift:75-93 | a short card number or one with a letter, months 13, 00 and "1", and a two-digit CVV each get the right message |
| Payment.PaymentForm.constructor | loqo/PaymentView.swift:9-16 | the form starts with empty fields, no alert and no navigation |
| Payment.PaymentForm.ValidateInputs | loqo/PaymentView.swift:75-93 | the answer is true exactly when no check fails; on failure `alertMessage` is the first failing check's message, on success it is unchanged |
| Payment.PaymentForm.ConfirmPayment | loqo/PaymentView.swift:42-57 | valid input clears the three fields, calls the screen's `resetCart` and navigates; invalid input raises the alert with the first failure's message and changes no field, navigation or cart |

## Left out

- Money is `real`. `Double` rounding and the `%.2f` formatting of prices, line totals, tax and
  total are not modelled.
- `Character.isNumber` accepts every character with a Unicode numeric type, fractions such as
  "½", superscripts and Roman numerals included. The regex class `\d` accepts every Unicode
  decimal digit. The model accepts only the ASCII digits `0`-`9` for both, so a card number
  ending in "½" passes the app's check but not the model's.
- `CONTAINS[c]` folds case over all of Unicode. The model folds ASCII letters only.
- Swift's `count` counts grapheme clusters. The model counts characters.
- The regex `$` also matches before a final newline. The model reads it as end of input, so
  "12/25" followed by a newline is rejected here.
- Session.ShopState.IncrementQuantity: does not model the trap when `Int` overflows on `+= 1`,
  because quantities are unbounded integers.
- `Session.ShopState` keeps the whole product list, and its cart and favourites lists are taken
  unfiltered. In the app, the cart and favourites screens are handed the search-narrowed fetch
  results (loqo/HomeView.swift:43-58, 116-118), so they list only rows matching the installed
  search predicate. That effect is stated separately by `Session.SearchNarrowsCartAndFavorites`
  and `Session.FavoritesAfterSearchCleared`; `ShopState` does not hold the fetch request.
- The mechanics of `NSPredicate` are not modelled, and the model does not sort: the stored
  products are taken in the order the request delivers them. The fixtures over the seeded
  products store them in that order, ascending by title (`Catalog.FetchedSeeds`), with titles
  compared character by character.
- `HomeView`'s `onChange` hook (loqo/HomeView.swift:75-77) copies the predicate that
  `filteredProducts` has just installed back onto the same request. This changes nothing and is
  not modelled separately.
- Which `resetCart` the payment screen is given cannot be seen here, because nothing in the
  modelled files constructs a `PaymentView`. It is a `ResetHook` parameter of
  `ConfirmPayment`.
- `CongratulationsView`'s "Continue Shopping" button (a second `resetCart` call) is not part of
  this model.
- Alerts and navigation are not modelled:
  - which row the trash button picked (`itemToRemove`) is a parameter of `RemoveConfirmed`;
  - the favourites screen's "added to your bag" alert and its "Go to Cart" navigation are left
    out;
  - the navigation path is left out.
- Sign-in, profile, Core Data persistence and seeding are not part of this model, apart from
  the four seeded products. Images, descriptions and categories are not modelled either.

## Findings

| source | as written | input that shows it | evidently intended | confidence | as-written member | corrected member |
|---|---|---|---|---|---|---|
| loqo/HomeView.swift:21-29 | empty search text returns the fetch results without resetting `nsPredicate`, so the last non-empty search stays in force | type "pa", then clear the field: the grid still shows only "Pants" | clearing the search shows every product again | medium, not executed | Search.StaleSearchAfterClear | Search.ProductsRequest.FilteredProductsClearing |
