# Storefront cart and product list, modelled in Dafny

This project models the client-side logic of a small storefront web
application: the shopping cart (a reducer over an ordered list of line
items, its two totals, and the provider object whose state each dispatcher
replaces), the shop page's filter-and-sort pipeline over the product
catalog, and the small derived values shown by the cart page, the product
card and the header badge.

Modules, one per source file or shared concept:

- `Options` (`options.dfy`): the optional value standing for `undefined` and a failed `find`.
- `Catalog` (`catalog.dfy`): the product record, with the fields the core reads.
- `Seqs` (`seqs.dfy`): the order-keeping `filter` and the order-preserving subsequence relation.
- `Decimal` (`decimal.dfy`): decimal rendering of non-negative integers and its inverse.
- `Cart` (`cart_context.dfy`): `CartAction`, `cartReducer`, the totals, and `CartProvider` as the class `CartStore`.
- `Shop` (`shop_page.dfy`): the category and price-bucket filters, the four sort orders, the in-place sort of a fresh copy, the price checkboxes and "Clear all filters".
- `CartPage` (`cart_page.dfy`): shipping lookup, order total, line subtotals, shipping labels and the quantity and remove buttons.
- `ProductCard` (`product_card.dfy`): mock discount, star count, wishlist toggle and "Add to cart".
- `Header` (`header.dfy`): the cart badge.

Numbers: ids and quantities are `int`; prices and ratings are exact `real`s;
the shipping prices, being whole dollars in the source, are `int`, so their
`toFixed(2)` rendering is exactly the numeral followed by `.00` (JavaScript
prints this way below 10^21, which the three prices 0, 15 and -21 are).

The cart invariant ("no two lines share a product id, every quantity is
positive") is proved to hold after every action, but its second half only
under a condition: `action.quantity || 1` turns an absent or zero quantity
into 1 and lets a negative one through, so positivity is preserved when no
add action carries a negative quantity (`Cart.NoNegativeAdd`), and
`Cart.NegativeAddBreaksPositivity` shows the cart it produces otherwise. The
invariant holds unconditionally for every caller in the source: the product
card adds 1, and the detail page keeps its selected quantity at 1 or more.
The uniqueness half needs no condition.

The order total has no lower bound: pick-up's -21 makes the total of a $5
cart -16 (`CartPage.PickupCanMakeTotalNegative`).

## Model

| member | source | states |
|---|---|---|
| `Cart.Reduce` | src/context/CartContext.tsx:14-54 | the reducer, one branch per action kind; each branch's effect is stated by `AddAbsentAppends`, `AddPresentIncrements`, `AddDefaultsToOne`, `RemovePresentDeletes`, `RemoveAbsentIsNoOp`, `UpdateNonPositiveRemoves`, `UpdatePositiveReplaces`, `UpdateAbsentIsNoOp` and `ClearEmpties`, the invariant it keeps by `ReducePreservesValid` |
| `Cart.AddLine` | src/context/CartContext.tsx:17-30 | the add branch once its quantity is defaulted: it raises the existing line when the id is present and appends a line otherwise (`AddPresentIncrements`, `AddAbsentAppends`); its effect on both totals is `AddRaisesTotals` |
| `Cart.EffectiveQuantity` | src/context/CartContext.tsx:20 | the `|| 1` default: an absent quantity or 0 becomes 1, any other quantity is kept, so the result is never 0 and is positive unless a negative quantity was supplied |
| `Cart.AddDefaultsToOne` | src/context/CartContext.tsx:16-30 | an add without a quantity and an add of quantity 0 give the same cart as an add of 1; for an absent product that cart ends in a line of quantity 1 |
| `Cart.IncreaseQuantity` | src/context/CartContext.tsx:23-27 | the `map` raising the lines with the id; what it does to a cart with unique ids is stated by `IncreaseAt` |
| `Cart.IncreaseAt` | src/context/CartContext.tsx:23-27 | with unique ids the `map` raises exactly the one line with that id, in place, by the given amount, and leaves every other line as it was |
| `Cart.SetQuantity` | src/context/CartContext.tsx:41-45 | the `map` setting the matching line's quantity; its effect is stated by `UpdatePositiveReplaces` and `UpdateAbsentIsNoOp` |
| `Cart.NotFor` | src/context/CartContext.tsx:34 | the `filter` test keeping lines of other ids; its effect is stated by `RemovePresentDeletes`, `RemoveAbsentIsNoOp` and `RemoveDropsId` |
| `Cart.Find` | src/context/CartContext.tsx:17-19 | `find` returns a line exactly when some line has that id, and then the first such line |
| `Cart.AddAbsentAppends` | src/context/CartContext.tsx:17-30 | adding a product whose id is absent appends exactly one line (product, effective quantity) at the end |
| `Cart.AddPresentIncrements` | src/context/CartContext.tsx:17-28 | adding a product already present raises only that line's quantity by the effective quantity; length, order and all other lines unchanged |
| `Cart.RemovePresentDeletes` | src/context/CartContext.tsx:33-34 | remove deletes the one line with that id and keeps the others in their order |
| `Cart.RemoveAbsentIsNoOp` | src/context/CartContext.tsx:33-34 | removing an absent id leaves the cart unchanged |
| `Cart.RemoveDropsId` | src/context/CartContext.tsx:33-34 | after remove no line has that id, and the result is an order-preserving subsequence of the cart |
| `Cart.UpdateNonPositiveRemoves` | src/context/CartContext.tsx:37-39 | update with a quantity of 0 or less gives the same cart as remove |
| `Cart.UpdatePositiveReplaces` | src/context/CartContext.tsx:41-45 | update with a positive quantity replaces only the matching line's quantity |
| `Cart.UpdateAbsentIsNoOp` | src/context/CartContext.tsx:36-45 | update never appends: for an absent id it is a no-op whatever the quantity |
| `Cart.ClearEmpties` | src/context/CartContext.tsx:48-49 | clear yields the empty cart |
| `Cart.ReducePreservesUniqueIds` | src/context/CartContext.tsx:14-54 | every action keeps product ids unique |
| `Cart.ReducePreservesAllPositive` | src/context/CartContext.tsx:14-54 | every action keeps quantities positive, provided an add carries no negative quantity |
| `Cart.ReducePreservesValid` | src/context/CartContext.tsx:14-54 | the whole cart invariant is kept under the same proviso |
| `Cart.NegativeAddBreaksPositivity` | src/context/CartContext.tsx:20 | a negative add quantity passes the default and yields a line with a negative quantity |
| `Cart.ReduceAll` | src/context/CartContext.tsx:65 | successive dispatches, applying the reducer to each action in turn; its invariants are stated by `ReduceAllPreservesValid` and `ReduceAllPreservesUniqueIds` |
| `Cart.ReduceAllPreservesValid` | src/context/CartContext.tsx:14-54 | for every sequence of actions without negative adds the invariant holds at the end |
| `Cart.ReduceAllPreservesUniqueIds` | src/context/CartContext.tsx:14-54 | for every sequence of actions ids stay unique |
| `Cart.TotalItems` | src/context/CartContext.tsx:90-92 | the left fold summing quantities; its properties are stated by `TotalsEmpty`, `TotalsAppend`, `TotalItemsAtLeastLines`, `AddRaisesTotals` and `RemoveLowersTotals` |
| `Cart.LinePrice` | src/context/CartContext.tsx:85 | one line's summand, price times quantity; `LinePriceAdd` states that it is additive in the quantity |
| `Cart.LinePriceAdd` | src/context/CartContext.tsx:85 | a line's price with quantity q + n is its price with q plus the price of n units |
| `Cart.TotalPrice` | src/context/CartContext.tsx:83-88 | the left fold summing line prices; its properties are stated by `TotalsEmpty`, `TotalsAppend`, `TotalPriceNonNegative`, `AddRaisesTotals`, `RemoveLowersTotals` and `CartPage.LineSubtotalsAddUp` |
| `Cart.TotalsEmpty` | src/context/CartContext.tsx:83-92 | both totals of the empty cart are 0 |
| `Cart.TotalsAppend` | src/context/CartContext.tsx:83-92 | both left folds add up over concatenation |
| `Cart.TotalItemsAtLeastLines` | src/context/CartContext.tsx:90-92 | with positive quantities the item count is at least the number of lines, and 0 exactly for the empty cart |
| `Cart.TotalPriceNonNegative` | src/context/CartContext.tsx:83-88 | with positive quantities and non-negative prices the price total is non-negative |
| `Cart.AddRaisesTotals` | src/context/CartContext.tsx:16-31 | the add case raises the item count by the quantity added and the price total by that many units of the unit price: the existing line's product price when the id is present, the new product's otherwise |
| `Cart.RemoveLowersTotals` | src/context/CartContext.tsx:33-34 | a remove lowers both totals by exactly the removed line's share |
| `Cart.AddTwiceMerges` | src/context/CartContext.tsx:16-30 | adding P with 2 and then 3 leaves one line for P with quantity 5, and the item count rises by 5 |
| `Cart.CartStore.constructor` | src/context/CartContext.tsx:65 | the provider starts from the empty cart, which satisfies the invariant |
| `Cart.CartStore.AddToCart` | src/context/CartContext.tsx:67-69 | the new items are the reducer applied to an add with the given quantity (default 1); the invariant is kept for non-negative quantities; the item count rises by the effective quantity |
| `Cart.CartStore.RemoveFromCart` | src/context/CartContext.tsx:71-73 | the new items are the reducer applied to a remove; the invariant is kept; no line has that id afterwards |
| `Cart.CartStore.UpdateQuantity` | src/context/CartContext.tsx:75-77 | the new items are the reducer applied to an update; the invariant is kept; no line is added |
| `Cart.CartStore.ClearCart` | src/context/CartContext.tsx:79-81 | the items become empty |
| `Cart.CartStore.GetTotalPrice` | src/context/CartContext.tsx:83-88 | 0 for the empty cart, never negative when quantities are positive and prices non-negative |
| `Cart.CartStore.GetTotalItems` | src/context/CartContext.tsx:90-92 | 0 for the empty cart; with positive quantities at least one per line and 0 exactly when empty |
| `Seqs.Filter` | src/app/page.tsx:62-64 | the result keeps every occurrence of each element that passes the predicate, as many times as the input has it, and no occurrence of one that fails; it is no longer than the input |
| `Seqs.FilterIsSubsequence` | src/app/page.tsx:62-64 | a filter result is an order-preserving subsequence of its input |
| `Shop.CategoryFilterApplies` | src/app/page.tsx:61 | the category filter runs only for a non-empty category other than "all"; stated within `NarrowedMembers` and `NoSelectionKeepsAll` |
| `Shop.ByCategory` | src/app/page.tsx:61-65 | the category step; which products it keeps is stated by `NarrowedMembers`, that it keeps catalog order by `NarrowedIsSubsequence` |
| `Shop.BucketOf` | src/app/page.tsx:68-93 | the five range strings name the five buckets and every other string none; `CheckboxesAreBuckets` and `NarrowedMembers` state it |
| `Shop.InBucket` | src/app/page.tsx:70-91 | the inclusive bucket bounds 0..99.99, 100..199.99, 200..299.99, 300..399.99 and 400 upward; stated within `NarrowedMembers` and `ElectronicsInSecondBucket` |
| `Shop.ByPriceRange` | src/app/page.tsx:68-94 | the price step, a no-op for "" and for an unknown range; stated by `NarrowedMembers` and `NarrowedIsSubsequence` |
| `Shop.Narrowed` | src/app/page.tsx:58-94 | both filter steps in the source's order; its members are stated by `NarrowedMembers`, its order by `NarrowedIsSubsequence` |
| `Shop.NarrowedMembers` | src/app/page.tsx:61-93 | a product survives both filters exactly when it is in the catalog, has the selected category when that filter applies (non-empty and not "all"), and has a price the range admits under inclusive bucket bounds, an unknown range admitting everything |
| `Shop.NarrowedIsSubsequence` | src/app/page.tsx:58-94 | after both filters the list is an order-preserving subsequence of the catalog |
| `Shop.NoSelectionKeepsAll` | src/app/page.tsx:58-94 | with no category and no range selected nothing is filtered out |
| `Shop.ElectronicsInSecondBucket` | src/app/page.tsx:61-79 | "electronics" with "100-199" keeps exactly the electronics priced from 100 to 199.99 |
| `Shop.SortOrderOf` | src/app/page.tsx:97-113 | "price-low", "price-high", "rating" and "name" select a comparator, every other key keeps catalog order; stated by `FilterAndSort` |
| `Shop.LexCompare` | src/app/page.tsx:108 | the title comparator; stated by `LexCompareMeaning`, `LexCompareAntisymmetric` and `LexCompareTransitive` |
| `Shop.Compare` | src/app/page.tsx:97-109 | the four comparator callbacks; stated by `CompareAgrees` and `CompareFlip` |
| `Shop.LexCompareMeaning` | src/app/page.tsx:108 | the title comparator is at most 0 exactly when the first title is a prefix of the second or smaller at the first difference |
| `Shop.LexCompareAntisymmetric` | src/app/page.tsx:108 | swapping the titles negates the comparison |
| `Shop.LexCompareTransitive` | src/app/page.tsx:108 | the title comparator's "at most 0" is transitive |
| `Shop.CompareAgrees` | src/app/page.tsx:97-109 | each comparator is at most 0 exactly when the pair is in the order's sense (prices non-decreasing, prices non-increasing, rating non-increasing, titles ascending) |
| `Shop.CompareFlip` | src/app/page.tsx:97-109 | a positive comparator result means the reversed pair is in order |
| `Shop.InOrderTransitive` | src/app/page.tsx:97-109 | each of the four orders is transitive |
| `Shop.AdjacentToOrdered` | src/app/page.tsx:97-109 | order between neighbours gives order between all pairs |
| `Shop.SortInPlace` | src/app/page.tsx:97-109 | the array ends as a permutation of its old contents, ordered by the chosen key |
| `Shop.FilterAndSort` | src/app/page.tsx:57-116 | the list shown is a permutation of the filtered catalog; ordered by the key for the four sort keys; exactly the filtered list in catalog order for "featured" and any other key |
| `Shop.PriceHighExample` | src/app/page.tsx:101-103 | "price-high" on prices 10, 50, 30 can only give the order 50, 30, 10 |
| `Shop.IsTicked` | src/app/page.tsx:240 | a box is shown ticked exactly when its value is the selected range; stated within `PriceCheckboxTicksOne` |
| `Shop.OnPriceCheckbox` | src/app/page.tsx:241-244 | the checkbox handler; stated by `PriceCheckboxTicksOne` |
| `Shop.ClearAllFilters` | src/app/page.tsx:397-401 | the "Clear all filters" handler; stated by `ClearedFiltersShowCatalog` |
| `Shop.CheckboxesAreBuckets` | src/app/page.tsx:226-232 | every price checkbox except "All Price" names a bucket the filter recognises |
| `Shop.PriceCheckboxTicksOne` | src/app/page.tsx:238-244 | ticking a box selects its range, unticking resets to "", so exactly one box is shown ticked, and category and sort are untouched |
| `Shop.ClearedFiltersShowCatalog` | src/app/page.tsx:397-401 | after "Clear all filters" nothing is filtered and no sort applies, so the list shown is the catalog in catalog order |
| `CartPage.FindOption` | src/app/cart/page.tsx:26 | `find` returns the first option with the selected id (it has that id and every option before it has another), or none exactly when no option has it |
| `CartPage.SelectedShippingCost` | src/app/cart/page.tsx:25-27 | the selected option's price, `|| 0` for a missing one; stated by `ShippingCostTable` |
| `CartPage.OrderTotal` | src/app/cart/page.tsx:29-30 | subtotal plus shipping; stated by `OrderTotalFromLines` and `PickupCanMakeTotalNegative` |
| `CartPage.ShippingCostTable` | src/app/cart/page.tsx:18-27 | free costs 0, express 15, pick-up -21, and an unknown id 0 |
| `CartPage.OrderTotalFromLines` | src/app/cart/page.tsx:29-30 | the total is the sum of line subtotals plus the shipping cost, and just the subtotal for an unknown shipping id |
| `CartPage.LineSubtotalsAddUp` | src/app/cart/page.tsx:183 | the lines' price-times-quantity subtotals add up to the cart's price total |
| `CartPage.PickupCanMakeTotalNegative` | src/app/cart/page.tsx:21-30 | a one-unit $5 cart with pick-up has total -16 |
| `CartPage.MinusButton` | src/app/cart/page.tsx:150-158 | the minus button: no action while disabled, otherwise an update to one less; stated by `MinusKeepsLine` |
| `CartPage.PlusButton` | src/app/cart/page.tsx:162-169 | the plus button's update to one more; stated by `PlusIncrements` |
| `CartPage.RemoveButton` | src/app/cart/page.tsx:137-138 | the remove button's action; stated by `RemoveButtonDeletes` |
| `CartPage.ShowsEmptyCart` | src/app/cart/page.tsx:33 | the empty-cart view test; stated by `EmptyViewWhenNoItems` |
| `CartPage.MinusKeepsLine` | src/app/cart/page.tsx:150-158 | the minus button is disabled exactly at quantity 1; when enabled it lowers only that line by one, keeps every line and the invariant |
| `CartPage.PlusIncrements` | src/app/cart/page.tsx:162-169 | the plus button raises only that line by one, the item count by one, and keeps the invariant |
| `CartPage.RemoveButtonDeletes` | src/app/cart/page.tsx:137-138 | the remove button deletes exactly its own line |
| `CartPage.EmptyViewWhenNoItems` | src/app/cart/page.tsx:33 | with positive quantities the empty-cart view shows exactly when the item count is 0 |
| `CartPage.ShippingPriceLabel` | src/app/cart/page.tsx:216-220 | the shipping price text; stated by `ShippingLabelRoundTrip`, `ShippingLabelSign` and `ShippingOptionLabels` |
| `CartPage.SignedLabelRoundTrip` | src/app/cart/page.tsx:218-220 | a sign followed by the two-decimal rendering of n reads back to n with that sign |
| `CartPage.ShippingLabelRoundTrip` | src/app/cart/page.tsx:216-220 | a shipping price label reads back to exactly the price it shows |
| `CartPage.ShippingLabelSign` | src/app/cart/page.tsx:216-220 | the label is "$0.00" exactly for 0, starts with "+" exactly for positive and "-" exactly for negative prices |
| `CartPage.ShippingOptionLabels` | src/app/cart/page.tsx:216-220 | the three options are labelled "$0.00", "+15.00" and "-21.00" |
| `Decimal.NatToString` | src/components/Header.tsx:63 | JavaScript's printing of a whole number n with 0 <= n < 10^21: the numeral is all digits, non-empty, without leading zero, one digit exactly below 10 |
| `Decimal.ParseNatToString` | src/components/Header.tsx:63 | reading the numeral back gives the number |
| `Decimal.ToFixed2` | src/app/cart/page.tsx:219-220 | `toFixed(2)` of a whole number n with 0 <= n < 10^21 ends in ".00" after a run of digits that reads back to the number; it is "0.00" exactly for 0 and has no leading zero otherwise |
| `ProductCard.JsRemainder` | src/components/ProductCard.tsx:29 | JavaScript's `%`, truncating toward zero; stated within `DiscountEveryThirdId` |
| `ProductCard.HasDiscount` | src/components/ProductCard.tsx:29 | the mock discount test; stated by `DiscountEveryThirdId` |
| `ProductCard.DiscountPercentage` | src/components/ProductCard.tsx:30 | 50 or 0; stated by `DiscountConsistent` |
| `ProductCard.OriginalPrice` | src/components/ProductCard.tsx:31 | the struck-through price; stated by `DiscountConsistent` |
| `ProductCard.DiscountEveryThirdId` | src/components/ProductCard.tsx:29 | with JavaScript's truncating `%`, a product is discounted exactly when its id is a multiple of 3 |
| `ProductCard.DiscountConsistent` | src/components/ProductCard.tsx:29-31 | the price is the original price less the discount percentage; the percentage is 50 when discounted and 0 otherwise; the original price is at least the price for non-negative prices |
| `ProductCard.StarFlags` | src/components/ProductCard.tsx:84-93 | the five star flags; stated by `FilledStarsClamp` |
| `ProductCard.FilledStarsClamp` | src/components/ProductCard.tsx:84-93 | the number of filled stars is floor(rate) clamped to 0..5, and the filled stars come first |
| `ProductCard.ToggleWishlist` | src/components/ProductCard.tsx:23-26 | the wishlist click; stated by `WishlistToggleTwice` |
| `ProductCard.WishlistToggleTwice` | src/components/ProductCard.tsx:23-26 | each click flips the wishlist flag; two clicks restore it |
| `ProductCard.AddOneRaisesCountByOne` | src/components/ProductCard.tsx:18-21 | "Add to cart" raises the item count by exactly 1 and keeps the invariant |
| `ProductCard.HandleAddToCart` | src/components/ProductCard.tsx:18-21 | the handler dispatches an add of quantity 1 to the store; the count rises by 1 and the invariant is kept |
| `Header.BadgeLabel` | src/components/Header.tsx:61-63 | the badge for a count, or none; stated by `BadgeShownWhenPositive`, `BadgeShowsExactCount`, `BadgeHiddenAfterClear` and `BadgeHiddenWhenEmpty` |
| `Header.CartBadge` | src/components/Header.tsx:8-9 | the badge read from the store; stated by `CartBadgeOfStore` |
| `Header.BadgeShownWhenPositive` | src/components/Header.tsx:61-63 | the badge is rendered exactly when the count is positive, and reads "9+" exactly when it is above 9 |
| `Header.BadgeShowsExactCount` | src/components/Header.tsx:63 | for counts 1 to 9 the badge is that count's single digit |
| `Header.BadgeHiddenAfterClear` | src/components/Header.tsx:61 | after clearing the cart the badge is hidden |
| `Header.BadgeHiddenWhenEmpty` | src/components/Header.tsx:61 | with positive quantities the badge is hidden exactly when the cart is empty |
| `Header.CartBadgeOfStore` | src/components/Header.tsx:8-9 | the badge is computed from the store's current item count |

## Left out

- `src/lib/api.ts` is not modelled: HTTP requests, JSON parsing and the `ApiError` wrapping are network I/O; the catalog is an input sequence.
- The data-loading effect of the shop page (asynchronous, parallel fetches with loading and error state) and the product detail page are not part of this model.
- Page layout, build configuration, JSX rendering, CSS, the grid/list view switch, the coupon field and its Apply button, and the Checkout button (no behaviour) are left out.
- React's re-render and dispatch machinery, and the `useCart` guard for a missing provider, are framework concerns; each store method applies the reducer directly.
- Floating point: prices, ratings and totals are exact reals, so rounding in sums and `toFixed(2)` of non-integral amounts (line, subtotal and total displays) are not modelled.
- Quantities are integers: fractional or NaN quantities, which JavaScript would accept, are not modelled.
- The reducer's `default` branch is not modelled: the typed action union cannot reach it.
- Decimal.NatToString, Decimal.ToFixed2: model JavaScript's integer printing only for 0 <= n < 10^21; from 10^21 up JavaScript prints exponent notation (`"1e+21"`), and above 2^53 integers are not exact numbers. Only the badge counts 1 to 9 and the shipping amounts 15 and 21 reach these functions.
- `localeCompare` is modelled as lexicographic order on character codes, not a locale's collation.
- Shop.SortInPlace, Shop.FilterAndSort: state ordering and permutation but not stability, so the order of products with equal keys under the four sort keys is left open; the adjacent-swap insertion sort never moves a product past an equal one, matching the stable `Array.prototype.sort`, but no contract says so.
- The category radio buttons and the sort dropdown only store the chosen string; the model takes those strings as inputs of `Shop.FilterAndSort`.
