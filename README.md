# Food details screen — state logic

A Dafny model of the headless logic behind the food-details screen of a
food-delivery app (`src/pages/FoodDetails/index.tsx`). The screen keeps four
slices of state: the loaded `food` record, the `extras` list with a quantity
per extra, the `isFavorite` flag and `foodQuantity`. Handlers load the food
and normalise its extras, decide from the favorites list whether the food is
a favorite, raise and lower the quantities of extras and of the food, toggle
the favorite, compute the cart total and build the order payload.

The model is one module, `FoodDetails` (`food_details.dfy`):

- the transformations the handlers apply are pure functions with lemmas:
  normalisation of extras, the per-id increment and decrement of an extra,
  the food-quantity floor, the favorites filter, the cart total (the
  source's `map` then `reduce` without a seed, proved equal to a reference
  sum), and the request and order payload builders;
- the four state slices are the fields of the class `FoodDetailsScreen`,
  whose methods are the handlers. Its invariant `Valid()` says that the food
  quantity is at least 1, that no extra quantity is negative, and that the
  `extras` state lists the loaded food's extras (same ids, names and values,
  same order).

Money is modelled as integers (cents). Network calls are replaced by their
success-path effect on the state; the request bodies they would send are
returned as values, and whether a favorite request succeeded is a parameter.

The model follows the code in two places a reader may not expect: a
favorites list that is non-empty but has no matching entry sets the flag to
false, while an empty list leaves the flag at its previous value; and
loading a food does not reset `foodQuantity`. It departs from the code in
one: the total is one integer, where the code returns a number when there
are no extras and a formatted string otherwise.

## Model

| member | source | states |
|---|---|---|
| `FoodDetails.NormaliseExtras` | src/pages/FoodDetails/index.tsx:83-86 | every extra gets quantity 0; ids, names, values, count and order are kept |
| `FoodDetails.LoadedFood` | src/pages/FoodDetails/index.tsx:83-95 | the stored food keeps every field of the fetched record except its extras, which are replaced by the normalised extras (same shape, all quantities 0) |
| `FoodDetails.NormaliseForgetsOnlyQuantities` | src/pages/FoodDetails/index.tsx:83-86 | two fetched extras lists normalise to the same state iff they agree on ids, names, values, count and order: only the quantities are discarded |
| `FoodDetails.IncrementExtras` | src/pages/FoodDetails/index.tsx:117-133 | each entry with the id gains exactly 1; every other entry is unchanged; ids, names, values, length and order are kept; non-negative quantities stay non-negative |
| `FoodDetails.DecrementExtras` | src/pages/FoodDetails/index.tsx:135-151 | each entry with the id and quantity above 0 loses exactly 1; entries at 0 and entries with other ids are unchanged; shape is kept; quantities never become negative |
| `FoodDetails.DecrementUndoesIncrement` | src/pages/FoodDetails/index.tsx:117-151 | on a list with non-negative quantities, decrementing an id right after incrementing it restores the list |
| `FoodDetails.IncrementUndoesDecrement` | src/pages/FoodDetails/index.tsx:117-151 | when every entry with the id is above 0, incrementing after decrementing restores the list |
| `FoodDetails.DecrementAtZeroIsNoOp` | src/pages/FoodDetails/index.tsx:135-151 | decrementing an id whose entries are all at 0 leaves the list unchanged |
| `FoodDetails.IncrementFood` | src/pages/FoodDetails/index.tsx:153-156 | the food quantity grows by exactly 1, with no upper bound |
| `FoodDetails.DecrementFood` | src/pages/FoodDetails/index.tsx:158-161 | a quantity of at least 1 stays at least 1; it drops by exactly 1 when above 1 and is unchanged at 1 |
| `FoodDetails.DecrementUndoesIncrementFood` | src/pages/FoodDetails/index.tsx:153-161 | decrementing after incrementing restores any quantity of at least 1 |
| `FoodDetails.IncrementUndoesDecrementFood` | src/pages/FoodDetails/index.tsx:153-161 | incrementing after decrementing restores the quantity exactly when it was above 1 |
| `FoodDetails.Subtotals` | src/pages/FoodDetails/index.tsx:198-201 | the mapped list has one entry per extra, in order, each equal to that extra's quantity × value |
| `FoodDetails.ReduceAdd` | src/pages/FoodDetails/index.tsx:202-204 | `reduce` without an initial value over a non-empty list is the list's sum |
| `FoodDetails.FoldAddIsSum` | src/pages/FoodDetails/index.tsx:202-204 | the left fold of addition from a seed equals the seed plus the sum |
| `FoodDetails.SubtotalsSum` | src/pages/FoodDetails/index.tsx:198-204 | summing the mapped per-extra prices gives Σ quantity × value |
| `FoodDetails.CartTotal` | src/pages/FoodDetails/index.tsx:193-212 | the total is price × foodQuantity + Σ quantity × value over the extras, and exactly price × foodQuantity with no extras |
| `FoodDetails.ExtrasSumOfZeroQuantities` | src/pages/FoodDetails/index.tsx:198-204 | extras whose quantities are all 0 add nothing to the total |
| `FoodDetails.CartTotalAfterLoad` | src/pages/FoodDetails/index.tsx:193-212 | right after a load the total is price × foodQuantity |
| `FoodDetails.ExtrasSumNonNegative` | src/pages/FoodDetails/index.tsx:198-204 | with non-negative quantities and values the extras' sum is non-negative |
| `FoodDetails.CartTotalNonNegative` | src/pages/FoodDetails/index.tsx:193-212 | with non-negative price, quantities and values the total is non-negative |
| `FoodDetails.IncrementExtrasSum` | src/pages/FoodDetails/index.tsx:117-133 | incrementing an id raises the extras' sum by the unit values of the entries with that id |
| `FoodDetails.DecrementExtrasSum` | src/pages/FoodDetails/index.tsx:135-151 | decrementing an id lowers the extras' sum by the unit values of the entries with that id that were above 0 |
| `FoodDetails.MatchingFavorites` | src/pages/FoodDetails/index.tsx:106-108 | the filter keeps only entries of the list whose id is the route id, and is non-empty iff some entry has that id |
| `FoodDetails.FavoriteAfterLoad` | src/pages/FoodDetails/index.tsx:101-111 | for a non-empty favorites list the flag is true iff some entry has the route id; an empty list leaves the previous flag |
| `FoodDetails.FavoriteOf` | src/pages/FoodDetails/index.tsx:171-189 | the create body is exactly id, name, description, price, category, image_url and thumbnail_url copied from the food |
| `FoodDetails.ToggleRequest` | src/pages/FoodDetails/index.tsx:163-191 | a favorited food is deleted by its id; any other food is created from its snapshot |
| `FoodDetails.FlagAfterToggle` | src/pages/FoodDetails/index.tsx:163-191 | a successful toggle leaves the negation of the flag it started from |
| `FoodDetails.DeleteUsesOnlyId` | src/pages/FoodDetails/index.tsx:165-169 | two foods with the same id produce the same delete request |
| `FoodDetails.CreatedFavoriteIsDetected` | src/pages/FoodDetails/index.tsx:101-191 | any favorites list that contains the created snapshot of a food, wherever it sits, makes the favorite check true for that food |
| `FoodDetails.DeletedFavoriteIsNotDetected` | src/pages/FoodDetails/index.tsx:105-111 | a non-empty favorites list without the food's id makes the favorite check false, whatever the flag was |
| `FoodDetails.OrderOf` | src/pages/FoodDetails/index.tsx:214-239 | the order's product_id is the food id; name, description, category and thumbnail_url are copied; price is the cart total; extras is the whole current list |
| `FoodDetails.FoodDetailsScreen.constructor` | src/pages/FoodDetails/index.tsx:66-69 | initial state: the route id the screen was opened with, no food, no extras, not favorite, quantity 1; the invariant holds |
| `FoodDetails.FoodDetailsScreen.Total` | src/pages/FoodDetails/index.tsx:193-212 | once the food is loaded, the total is its price × foodQuantity + Σ quantity × value over the current extras |
| `FoodDetails.FoodDetailsScreen.LoadFood` | src/pages/FoodDetails/index.tsx:76-99 | food becomes the loaded (normalised) food and extras becomes its extras list; flag and quantity are untouched; the total is price × foodQuantity; the invariant is kept |
| `FoodDetails.FoodDetailsScreen.LoadFavorite` | src/pages/FoodDetails/index.tsx:101-115 | the flag becomes the favorite check of the fetched list against the screen's route id; nothing else changes |
| `FoodDetails.FoodDetailsScreen.IncrementExtra` | src/pages/FoodDetails/index.tsx:117-133 | extras become the per-id increment of the old list; the total rises by the matching unit values; nothing else changes |
| `FoodDetails.FoodDetailsScreen.DecrementExtra` | src/pages/FoodDetails/index.tsx:135-151 | extras become the floored per-id decrement of the old list; the total falls by the matching unit values above 0; nothing else changes |
| `FoodDetails.FoodDetailsScreen.IncrementFoodQuantity` | src/pages/FoodDetails/index.tsx:153-156 | foodQuantity grows by 1; nothing else changes |
| `FoodDetails.FoodDetailsScreen.DecrementFoodQuantity` | src/pages/FoodDetails/index.tsx:158-161 | foodQuantity follows the floor-at-1 decrement; the invariant keeps it at least 1 |
| `FoodDetails.FoodDetailsScreen.ToggleFavorite` | src/pages/FoodDetails/index.tsx:163-191 | the request is the delete-or-create request for the loaded food; on success the flag is negated, otherwise unchanged |
| `FoodDetails.FoodDetailsScreen.FinishOrder` | src/pages/FoodDetails/index.tsx:214-242 | the order carries the food id as product_id, the current total as price and all current extras, so its extras count equals the loaded food's |

## Left out

- HTTP calls (`api.get`, `api.post`, `api.delete`): the client is not part of this model; only their success-path effect on state is modelled, and the outcome of a favorite request is the `succeeded` parameter.
- Asynchronous ordering: the two independent loads, the unguarded in-flight toggle, callbacks landing after the screen is gone, and the functional update `old => old - 1` racing the `foodQuantity > 1` guard are concurrency concerns; handlers here run one at a time.
- `formatValue` and the food's `formattedPrice` field: the currency formatter is not part of this model.
- FoodDetails.CartTotal: returns one integer in both branches; the code returns the number `price * foodQuantity` when there are no extras and the formatted string of the total otherwise, and the formatter is not part of this model.
- FoodDetailsScreen.FinishOrder: the order's price is the integer total itself; the source formats the total, strips `R$`, swaps `,` for `.` and parses it back with `Number`, which depends on the formatter's output and on float parsing.
- FoodDetailsScreen.Total: before the food loads the source multiplies an undefined price (NaN); the model returns None instead.
- FoodDetailsScreen.ToggleFavorite: before the food loads the source would send a request built from undefined fields; the model sends nothing and leaves the flag alone.
- FoodDetailsScreen.FinishOrder: before the food loads the source would post undefined fields; the model returns None.
- Floating-point prices: prices and values are integer cents, so rounding is not modelled.
- Navigation (`navigation.navigate('Orders')`, the header icon registered through `setOptions`, the icon name choice), all rendering and styles, and the unused `AsyncStorage` import.
- The route id is a field of the screen; the food fetched by `LoadFood` is not required to carry it, because the model does not see the request that fetches it.
- Route and record ids are integers compared by value; JavaScript's strict equality between differently typed ids is not modelled.
