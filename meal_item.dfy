/**
 * `MealItem`: the quantity shown for one meal, read from the list-shaped
 * cart, and the calls its + and - buttons make on the global context.
 */
module MealItem {
  import opened Domain

  /** The displayed quantity: that of the first cart line for the meal, or 0. */
  function Quantity(cart: seq<CartLine>, id: MealId): (q: int)
    ensures HasLine(cart, id) ==> exists i :: 0 <= i < |cart| && cart[i].mealId == id && cart[i].quantity == q
    ensures !HasLine(cart, id) ==> q == 0
  {
    FindLineFinds(cart, id);
    LineQuantity(cart, id)
  }

  /** The first matching line decides: an earlier line for the meal hides any later one. */
  lemma QuantityIsFirstLine(cart: seq<CartLine>, id: MealId, i: nat)
    requires i < |cart| && cart[i].mealId == id
    requires forall j :: 0 <= j < i ==> cart[j].mealId != id
    ensures Quantity(cart, id) == cart[i].quantity
  {
    var k := FindLine(cart, id);
    assert k <= i;
  }

  /** A call a button makes on the global context; `None` is an omitted argument. */
  datatype ContextCall =
    | AddToCartCall(mealId: MealId, quantity: Option<int>)
    | RemoveFromCartCall(mealId: MealId, quantity: Option<int>)
    | NoCall

  /** `incrementQuantity`: always `addToCart(props.id)`, with no quantity. */
  function Increment(id: MealId): (c: ContextCall)
    ensures c.AddToCartCall? && c.mealId == id && c.quantity.None?
  {
    AddToCartCall(id, None)
  }

  /** `decrementQuantity`: `removeFromCart(props.id)` when the quantity shown is positive, otherwise nothing. */
  function Decrement(cart: seq<CartLine>, id: MealId): (c: ContextCall)
    ensures c.RemoveFromCartCall? <==> Quantity(cart, id) > 0
    ensures c.RemoveFromCartCall? ==> c.mealId == id && c.quantity.None?
    ensures !c.RemoveFromCartCall? ==> c == NoCall
  {
    if Quantity(cart, id) > 0 then RemoveFromCartCall(id, None) else NoCall
  }

  /** With no line for the meal, - does nothing. */
  lemma DecrementAtZero(cart: seq<CartLine>, id: MealId)
    requires !HasLine(cart, id)
    ensures Decrement(cart, id) == NoCall
  {
  }
}
