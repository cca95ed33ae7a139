/**
 * The headless state logic of the food-details screen: the loaded food
 * record, the list of extras with their quantities, the favorite flag and
 * the ordered quantity of the food itself. Money is modelled in integer
 * cents; network calls are replaced by their success-path effect on state,
 * and the request bodies they would carry are returned as values.
 */
module FoodDetails {

  datatype Option<T> = None | Some(value: T)

  // ---------------------------------------------------------------------
  // Data model
  // ---------------------------------------------------------------------

  /** An optional add-on; `value` is its unit price in cents. */
  datatype Extra = Extra(id: int, name: string, value: int, quantity: int)

  /** A food record as the `foods/{id}` endpoint returns it. */
  datatype Food = Food(
    id: int,
    name: string,
    description: string,
    price: int,
    imageUrl: string,
    category: int,
    thumbnailUrl: string,
    extras: seq<Extra>)

  /** The snapshot of a food sent to, and listed by, the favorites endpoint. */
  datatype FavoriteRecord = FavoriteRecord(
    id: int,
    name: string,
    description: string,
    price: int,
    category: int,
    imageUrl: string,
    thumbnailUrl: string)

  /** The request a favorite toggle issues. */
  datatype FavoriteRequest =
    | DeleteFavorite(foodId: int)
    | CreateFavorite(record: FavoriteRecord)

  /** The body posted to the orders endpoint. */
  datatype OrderPayload = OrderPayload(
    productId: int,
    name: string,
    description: string,
    price: int,
    category: int,
    thumbnailUrl: string,
    extras: seq<Extra>)

  /** Two extras lists agree on everything except the quantities. */
  predicate SameShape(a: seq<Extra>, b: seq<Extra>)
  {
    |a| == |b| &&
    forall i :: 0 <= i < |a| ==>
      a[i].id == b[i].id && a[i].name == b[i].name && a[i].value == b[i].value
  }

  predicate NonNegativeQuantities(extras: seq<Extra>)
  {
    forall i :: 0 <= i < |extras| ==> extras[i].quantity >= 0
  }

  // ---------------------------------------------------------------------
  // Load normalisation
  // ---------------------------------------------------------------------

  /** Every extra of a freshly loaded food starts at quantity 0. */
  function NormaliseExtras(extras: seq<Extra>): (r: seq<Extra>)
    ensures SameShape(extras, r)
    ensures forall i :: 0 <= i < |r| ==> r[i].quantity == 0
  {
    seq(|extras|, i requires 0 <= i < |extras| => extras[i].(quantity := 0))
  }

  /** The food as the screen keeps it after loading: extras normalised. */
  function LoadedFood(selected: Food): (f: Food)
    ensures f.(extras := selected.extras) == selected
    ensures SameShape(selected.extras, f.extras)
    ensures forall i :: 0 <= i < |f.extras| ==> f.extras[i].quantity == 0
  {
    selected.(extras := NormaliseExtras(selected.extras))
  }

  /**
   * The normalised list depends on the fetched extras' ids, names and values
   * and on nothing else: whatever quantities the server sent are discarded.
   */
  lemma NormaliseForgetsOnlyQuantities(a: seq<Extra>, b: seq<Extra>)
    ensures NormaliseExtras(a) == NormaliseExtras(b) <==> SameShape(a, b)
  {
  }

  // ---------------------------------------------------------------------
  // Extra quantities
  // ---------------------------------------------------------------------

  function IncrementExtras(extras: seq<Extra>, id: int): (r: seq<Extra>)
    ensures SameShape(extras, r)
    ensures forall i :: 0 <= i < |r| && extras[i].id != id ==> r[i] == extras[i]
    ensures forall i :: 0 <= i < |r| && extras[i].id == id ==>
      r[i].quantity == extras[i].quantity + 1
    ensures NonNegativeQuantities(extras) ==> NonNegativeQuantities(r)
  {
    seq(|extras|, i requires 0 <= i < |extras| =>
      if extras[i].id == id then extras[i].(quantity := extras[i].quantity + 1)
      else extras[i])
  }

  function DecrementExtras(extras: seq<Extra>, id: int): (r: seq<Extra>)
    ensures SameShape(extras, r)
    ensures forall i :: 0 <= i < |r| && (extras[i].id != id || extras[i].quantity <= 0) ==>
      r[i] == extras[i]
    ensures forall i :: 0 <= i < |r| && extras[i].id == id && extras[i].quantity > 0 ==>
      r[i].quantity == extras[i].quantity - 1
    ensures NonNegativeQuantities(extras) ==> NonNegativeQuantities(r)
  {
    seq(|extras|, i requires 0 <= i < |extras| =>
      if extras[i].id == id && extras[i].quantity > 0
      then extras[i].(quantity := extras[i].quantity - 1)
      else extras[i])
  }

  /** A decrement undoes an increment of the same id on a valid list. */
  lemma DecrementUndoesIncrement(extras: seq<Extra>, id: int)
    requires NonNegativeQuantities(extras)
    ensures DecrementExtras(IncrementExtras(extras, id), id) == extras
  {
  }

  /** An increment undoes a decrement when every matching entry was above zero. */
  lemma IncrementUndoesDecrement(extras: seq<Extra>, id: int)
    requires forall i :: 0 <= i < |extras| && extras[i].id == id ==> extras[i].quantity > 0
    ensures IncrementExtras(DecrementExtras(extras, id), id) == extras
  {
  }

  /** Decrementing an entry already at zero changes nothing. */
  lemma DecrementAtZeroIsNoOp(extras: seq<Extra>, id: int)
    requires forall i :: 0 <= i < |extras| && extras[i].id == id ==> extras[i].quantity == 0
    ensures DecrementExtras(extras, id) == extras
  {
  }

  // ---------------------------------------------------------------------
  // Food quantity
  // ---------------------------------------------------------------------

  function IncrementFood(quantity: int): (r: int)
    ensures r - quantity == 1
  {
    quantity + 1
  }

  /** The food quantity never drops below 1 by decrementing. */
  function DecrementFood(quantity: int): (r: int)
    ensures quantity >= 1 ==> r >= 1
    ensures r == quantity || r == quantity - 1
    ensures r == quantity <==> quantity <= 1
  {
    if quantity > 1 then quantity - 1 else quantity
  }

  lemma DecrementUndoesIncrementFood(quantity: int)
    requires quantity >= 1
    ensures DecrementFood(IncrementFood(quantity)) == quantity
  {
  }

  lemma IncrementUndoesDecrementFood(quantity: int)
    ensures IncrementFood(DecrementFood(quantity)) == quantity <==> quantity > 1
  {
  }

  // ---------------------------------------------------------------------
  // Cart total
  // ---------------------------------------------------------------------

  /** Reference definition: the sum of quantity * value over the extras. */
  function ExtrasSum(extras: seq<Extra>): int
  {
    if extras == [] then 0
    else extras[0].quantity * extras[0].value + ExtrasSum(extras[1..])
  }

  function SeqSum(xs: seq<int>): int
  {
    if xs == [] then 0 else xs[0] + SeqSum(xs[1..])
  }

  /** The per-extra prices, as the total's `map` step computes them. */
  function Subtotals(extras: seq<Extra>): (r: seq<int>)
    ensures |r| == |extras|
    ensures forall i :: 0 <= i < |r| ==> r[i] == extras[i].quantity * extras[i].value
  {
    seq(|extras|, i requires 0 <= i < |extras| => extras[i].quantity * extras[i].value)
  }

  /** A left fold of `+` starting from `acc`. */
  function FoldAdd(acc: int, xs: seq<int>): int
    decreases xs
  {
    if xs == [] then acc else FoldAdd(acc + xs[0], xs[1..])
  }

  /** `reduce` without an initial value: the fold seeded with the first element. */
  function ReduceAdd(xs: seq<int>): (r: int)
    requires |xs| > 0
    ensures r == SeqSum(xs)
  {
    FoldAddIsSum(xs[0], xs[1..]);
    FoldAdd(xs[0], xs[1..])
  }

  lemma {:induction false} FoldAddIsSum(acc: int, xs: seq<int>)
    ensures FoldAdd(acc, xs) == acc + SeqSum(xs)
    decreases xs
  {
    if xs != [] {
      FoldAddIsSum(acc + xs[0], xs[1..]);
    }
  }

  lemma {:induction false} SubtotalsSum(extras: seq<Extra>)
    ensures SeqSum(Subtotals(extras)) == ExtrasSum(extras)
  {
    if extras != [] {
      assert Subtotals(extras)[1..] == Subtotals(extras[1..]);
      SubtotalsSum(extras[1..]);
    }
  }

  /**
   * The total as the screen computes it: the food price times its quantity,
   * plus, when there are extras, the reduced per-extra prices.
   */
  function CartTotal(price: int, quantity: int, extras: seq<Extra>): (r: int)
    ensures r == price * quantity + ExtrasSum(extras)
    ensures extras == [] ==> r == price * quantity
  {
    var foodPrices := price * quantity;
    if |extras| > 0 then
      SubtotalsSum(extras);
      foodPrices + ReduceAdd(Subtotals(extras))
    else
      foodPrices
  }

  lemma {:induction false} ExtrasSumOfZeroQuantities(extras: seq<Extra>)
    requires forall i :: 0 <= i < |extras| ==> extras[i].quantity == 0
    ensures ExtrasSum(extras) == 0
  {
    if extras != [] {
      ExtrasSumOfZeroQuantities(extras[1..]);
    }
  }

  /** Right after loading, the extras contribute nothing to the total. */
  lemma CartTotalAfterLoad(selected: Food, quantity: int)
    ensures var f := LoadedFood(selected);
      CartTotal(f.price, quantity, f.extras) == selected.price * quantity
  {
    ExtrasSumOfZeroQuantities(LoadedFood(selected).extras);
  }

  lemma {:induction false} ExtrasSumNonNegative(extras: seq<Extra>)
    requires NonNegativeQuantities(extras)
    requires forall i :: 0 <= i < |extras| ==> extras[i].value >= 0
    ensures ExtrasSum(extras) >= 0
  {
    if extras != [] {
      ExtrasSumNonNegative(extras[1..]);
    }
  }

  /** With non-negative prices and quantities, the total is non-negative. */
  lemma CartTotalNonNegative(price: int, quantity: int, extras: seq<Extra>)
    requires price >= 0 && quantity >= 0
    requires NonNegativeQuantities(extras)
    requires forall i :: 0 <= i < |extras| ==> extras[i].value >= 0
    ensures CartTotal(price, quantity, extras) >= 0
  {
    ExtrasSumNonNegative(extras);
  }

  /** The sum of the unit values of the extras carrying `id`. */
  function MatchingValue(extras: seq<Extra>, id: int): int
  {
    if extras == [] then 0
    else (if extras[0].id == id then extras[0].value else 0) + MatchingValue(extras[1..], id)
  }

  /** The same sum, restricted to entries whose quantity is above zero. */
  function DecrementableValue(extras: seq<Extra>, id: int): int
  {
    if extras == [] then 0
    else
      var here := if extras[0].id == id && extras[0].quantity > 0 then extras[0].value else 0;
      here + DecrementableValue(extras[1..], id)
  }

  /** Incrementing an extra raises the extras' sum by its unit value. */
  lemma {:induction false} IncrementExtrasSum(extras: seq<Extra>, id: int)
    ensures ExtrasSum(IncrementExtras(extras, id)) == ExtrasSum(extras) + MatchingValue(extras, id)
  {
    if extras != [] {
      var e := extras[0];
      assert IncrementExtras(extras, id)[1..] == IncrementExtras(extras[1..], id);
      assert (e.quantity + 1) * e.value == e.quantity * e.value + e.value;
      IncrementExtrasSum(extras[1..], id);
    }
  }

  /** Decrementing an extra lowers the sum by its unit value, unless it is at zero. */
  lemma {:induction false} DecrementExtrasSum(extras: seq<Extra>, id: int)
    ensures ExtrasSum(DecrementExtras(extras, id)) == ExtrasSum(extras) - DecrementableValue(extras, id)
  {
    if extras != [] {
      var e := extras[0];
      assert DecrementExtras(extras, id)[1..] == DecrementExtras(extras[1..], id);
      assert (e.quantity - 1) * e.value == e.quantity * e.value - e.value;
      DecrementExtrasSum(extras[1..], id);
    }
  }

  // ---------------------------------------------------------------------
  // Favorite detection and toggle
  // ---------------------------------------------------------------------

  /** The favorites whose id is the route id, in their original order. */
  function MatchingFavorites(all: seq<FavoriteRecord>, routeId: int): (r: seq<FavoriteRecord>)
    ensures |r| <= |all|
    ensures forall k :: 0 <= k < |r| ==> r[k].id == routeId && r[k] in all
    ensures |r| > 0 <==> exists i :: 0 <= i < |all| && all[i].id == routeId
  {
    if all == [] then []
    else
      var rest := MatchingFavorites(all[1..], routeId);
      assert forall i :: 1 <= i < |all| ==> all[i] == all[1..][i - 1];
      if all[0].id == routeId then [all[0]] + rest else rest
  }

  /**
   * The favorite flag after the favorites list arrives: a non-empty list
   * decides it by membership, an empty one leaves the previous value.
   */
  function FavoriteAfterLoad(previous: bool, all: seq<FavoriteRecord>, routeId: int): (r: bool)
    ensures |all| > 0 ==> (r <==> exists i :: 0 <= i < |all| && all[i].id == routeId)
    ensures all == [] ==> r == previous
  {
    if |all| > 0 then |MatchingFavorites(all, routeId)| > 0 else previous
  }

  /** The snapshot of a food that a favorite creation sends. */
  function FavoriteOf(food: Food): (r: FavoriteRecord)
    ensures r.id == food.id && r.name == food.name && r.description == food.description
    ensures r.price == food.price && r.category == food.category
    ensures r.imageUrl == food.imageUrl && r.thumbnailUrl == food.thumbnailUrl
  {
    FavoriteRecord(food.id, food.name, food.description, food.price, food.category,
                   food.imageUrl, food.thumbnailUrl)
  }

  /** Favorited foods are deleted by id; the others are created from a snapshot. */
  function ToggleRequest(isFavorite: bool, food: Food): (r: FavoriteRequest)
    ensures r.DeleteFavorite? <==> isFavorite
    ensures r.DeleteFavorite? ==> r.foodId == food.id
    ensures r.CreateFavorite? ==> r.record == FavoriteOf(food)
  {
    if isFavorite then DeleteFavorite(food.id) else CreateFavorite(FavoriteOf(food))
  }

  /** The flag a successful toggle leaves behind. */
  function FlagAfterToggle(isFavorite: bool): (r: bool)
    ensures r == !isFavorite
  {
    if isFavorite then false else true
  }

  /** The delete request depends on nothing of the food but its id. */
  lemma DeleteUsesOnlyId(a: Food, b: Food)
    requires a.id == b.id
    ensures ToggleRequest(true, a) == ToggleRequest(true, b)
  {
  }

  /**
   * Once a created favorite is in the favorites list, loading that list
   * marks the food as favorite again.
   */
  lemma CreatedFavoriteIsDetected(previous: bool, all: seq<FavoriteRecord>, food: Food)
    requires FavoriteOf(food) in all
    ensures FavoriteAfterLoad(previous, all, food.id)
  {
  }

  /** Once the food's favorite is deleted from the list, loading the list does not mark it. */
  lemma DeletedFavoriteIsNotDetected(all: seq<FavoriteRecord>, food: Food)
    requires |all| > 0
    requires forall i :: 0 <= i < |all| ==> all[i].id != food.id
    ensures !FavoriteAfterLoad(true, all, food.id)
  {
  }

  // ---------------------------------------------------------------------
  // Order payload
  // ---------------------------------------------------------------------

  /** The order body: the food's fields, the total as price, all current extras. */
  function OrderOf(food: Food, quantity: int, extras: seq<Extra>): (r: OrderPayload)
    ensures r.productId == food.id
    ensures r.name == food.name && r.description == food.description
    ensures r.category == food.category && r.thumbnailUrl == food.thumbnailUrl
    ensures r.price == food.price * quantity + ExtrasSum(extras)
    ensures r.extras == extras
  {
    OrderPayload(food.id, food.name, food.description, CartTotal(food.price, quantity, extras),
                 food.category, food.thumbnailUrl, extras)
  }

  // ---------------------------------------------------------------------
  // The screen's state
  // ---------------------------------------------------------------------

  class FoodDetailsScreen {
    /** The id the screen was opened with; both loads are keyed by it. */
    const routeId: int
    var food: Option<Food>
    var extras: seq<Extra>
    var isFavorite: bool
    var foodQuantity: int

    /**
     * The food quantity is at least 1, no extra quantity is negative, and
     * the extras state lists the loaded food's extras in the same order.
     */
    ghost predicate Valid()
      reads this
    {
      foodQuantity >= 1 &&
      NonNegativeQuantities(extras) &&
      (food.None? ==> extras == []) &&
      (food.Some? ==> SameShape(food.value.extras, extras))
    }

    constructor (routeId: int)
      ensures Valid() && this.routeId == routeId
      ensures food == None && extras == [] && !isFavorite && foodQuantity == 1
    {
      this.routeId := routeId;
      food := None;
      extras := [];
      isFavorite := false;
      foodQuantity := 1;
    }

    /** The current total, or None before the food has loaded. */
    function Total(): (r: Option<int>)
      reads this
      ensures r.Some? <==> food.Some?
      ensures r.Some? ==> r.value == food.value.price * foodQuantity + ExtrasSum(extras)
    {
      if food.Some? then Some(CartTotal(food.value.price, foodQuantity, extras)) else None
    }

    method LoadFood(selected: Food)
      requires Valid()
      modifies this
      ensures Valid()
      ensures food == Some(LoadedFood(selected)) && extras == food.value.extras
      ensures isFavorite == old(isFavorite) && foodQuantity == old(foodQuantity)
      ensures Total() == Some(selected.price * foodQuantity)
    {
      var loaded := LoadedFood(selected);
      extras := loaded.extras;
      food := Some(loaded);
      CartTotalAfterLoad(selected, foodQuantity);
    }

    method LoadFavorite(all: seq<FavoriteRecord>)
      requires Valid()
      modifies this
      ensures Valid()
      ensures isFavorite == FavoriteAfterLoad(old(isFavorite), all, routeId)
      ensures food == old(food) && extras == old(extras) && foodQuantity == old(foodQuantity)
    {
      if |all| > 0 {
        var favorite := MatchingFavorites(all, routeId);
        isFavorite := |favorite| > 0;
      }
    }

    method IncrementExtra(id: int)
      requires Valid()
      modifies this
      ensures Valid()
      ensures extras == IncrementExtras(old(extras), id)
      ensures food == old(food) && isFavorite == old(isFavorite) && foodQuantity == old(foodQuantity)
      ensures food.Some? ==> Total().value == old(Total().value) + MatchingValue(old(extras), id)
    {
      IncrementExtrasSum(extras, id);
      extras := IncrementExtras(extras, id);
    }

    method DecrementExtra(id: int)
      requires Valid()
      modifies this
      ensures Valid()
      ensures extras == DecrementExtras(old(extras), id)
      ensures food == old(food) && isFavorite == old(isFavorite) && foodQuantity == old(foodQuantity)
      ensures food.Some? ==> Total().value == old(Total().value) - DecrementableValue(old(extras), id)
    {
      DecrementExtrasSum(extras, id);
      extras := DecrementExtras(extras, id);
    }

    method IncrementFoodQuantity()
      requires Valid()
      modifies this
      ensures Valid()
      ensures foodQuantity == IncrementFood(old(foodQuantity))
      ensures food == old(food) && extras == old(extras) && isFavorite == old(isFavorite)
    {
      foodQuantity := foodQuantity + 1;
    }

    method DecrementFoodQuantity()
      requires Valid()
      modifies this
      ensures Valid()
      ensures foodQuantity == DecrementFood(old(foodQuantity))
      ensures food == old(food) && extras == old(extras) && isFavorite == old(isFavorite)
    {
      if foodQuantity > 1 {
        foodQuantity := foodQuantity - 1;
      }
    }

    /**
     * Issues the favorite request for the loaded food; `succeeded` is the
     * outcome of that request. Before the food has loaded nothing is sent.
     */
    method ToggleFavorite(succeeded: bool) returns (request: Option<FavoriteRequest>)
      requires Valid()
      modifies this
      ensures Valid()
      ensures request.Some? <==> food.Some?
      ensures request.Some? ==> request.value == ToggleRequest(old(isFavorite), food.value)
      ensures isFavorite == if request.Some? && succeeded then !old(isFavorite) else old(isFavorite)
      ensures food == old(food) && extras == old(extras) && foodQuantity == old(foodQuantity)
    {
      if food.None? {
        return None;
      }
      request := Some(ToggleRequest(isFavorite, food.value));
      if succeeded {
        isFavorite := FlagAfterToggle(isFavorite);
      }
    }

    /** The order to post, or None before the food has loaded. */
    method FinishOrder() returns (order: Option<OrderPayload>)
      requires Valid()
      ensures order.Some? <==> food.Some?
      ensures order.Some? ==> order.value == OrderOf(food.value, foodQuantity, extras)
      ensures order.Some? ==> order.value.productId == food.value.id
      ensures order.Some? ==> |order.value.extras| == |food.value.extras|
      ensures order.Some? ==> Some(order.value.price) == Total()
    {
      if food.None? {
        return None;
      }
      order := Some(OrderOf(food.value, foodQuantity, extras));
    }
  }
}
