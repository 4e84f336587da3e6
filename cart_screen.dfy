/**
 * `CartScreen`: the items it shows, built by joining the fetched meals with
 * the list-shaped cart, and their total price.
 */
module CartScreen {
  import opened Domain

  /** A fetched meal with its quantity in the cart and the price of that quantity. */
  datatype CartItem = CartItem(meal: Meal, quantity: int, totalPrice: real)

  /** The item for one fetched meal: quantity from the first cart line for it, or 0. */
  function ItemFor(meal: Meal, cart: seq<CartLine>): CartItem
  {
    var quantity := LineQuantity(cart, meal.id);
    CartItem(meal, quantity, quantity as real * meal.price)
  }

  /** One item per fetched meal, in fetched order. */
  function BuildItems(fetched: seq<Meal>, cart: seq<CartLine>): (items: seq<CartItem>)
    ensures |items| == |fetched|
    ensures forall i :: 0 <= i < |fetched| ==>
      && items[i].meal == fetched[i]
      && items[i].quantity == LineQuantity(cart, fetched[i].id)
      && items[i].totalPrice == items[i].quantity as real * fetched[i].price
  {
    if fetched == [] then [] else [ItemFor(fetched[0], cart)] + BuildItems(fetched[1..], cart)
  }

  /** What awaiting `fetchMealsByIds` gave: a value, or that it threw. */
  datatype FetchResult = Fetched(meals: seq<Meal>) | Threw

  /**
   * `fetchCartItems`: no keys in the cart, a throwing fetch or an empty
   * result give no items; otherwise the built items. The number of keys of an
   * array is its length.
   */
  function FetchCartItems(cart: seq<CartLine>, result: FetchResult): (items: seq<CartItem>)
    ensures cart == [] || result.Threw? || (result.Fetched? && result.meals == []) ==> items == []
    ensures cart != [] && result.Fetched? ==> items == BuildItems(result.meals, cart)
  {
    if |cart| > 0 then
      match result
      case Threw => []
      case Fetched(meals) => if |meals| > 0 then BuildItems(meals, cart) else []
    else []
  }

  /** The screen's total: the item totals added up from the left, starting at 0. */
  function TotalPrice(items: seq<CartItem>): real
  {
    if items == [] then 0.0 else TotalPrice(items[..|items| - 1]) + items[|items| - 1].totalPrice
  }

  /** The total of two runs of items is the sum of their totals. */
  lemma {:induction false} TotalPriceAppend(a: seq<CartItem>, b: seq<CartItem>)
    ensures TotalPrice(a + b) == TotalPrice(a) + TotalPrice(b)
    decreases |b|
  {
    if b != [] {
      var b' := b[..|b| - 1];
      assert (a + b)[..|a + b| - 1] == a + b';
      TotalPriceAppend(a, b');
    } else {
      assert a + b == a;
    }
  }

  /** The price of an order: the sum over the fetched meals of quantity times price. */
  function OrderValue(fetched: seq<Meal>, cart: seq<CartLine>): real
  {
    if fetched == [] then 0.0
    else LineQuantity(cart, fetched[0].id) as real * fetched[0].price + OrderValue(fetched[1..], cart)
  }

  /** The screen's total is quantity times price summed over the fetched meals. */
  lemma {:induction false} TotalOfBuiltItems(fetched: seq<Meal>, cart: seq<CartLine>)
    ensures TotalPrice(BuildItems(fetched, cart)) == OrderValue(fetched, cart)
  {
    if fetched != [] {
      var items := BuildItems(fetched, cart);
      assert items == [items[0]] + items[1..];
      TotalPriceAppend([items[0]], items[1..]);
      assert [items[0]][..0] == [];
      TotalOfBuiltItems(fetched[1..], cart);
      assert items[1..] == BuildItems(fetched[1..], cart);
    }
  }

  /** With non-negative prices and quantities the total is non-negative. */
  lemma {:induction false} TotalPriceNonNegative(items: seq<CartItem>)
    requires forall i :: 0 <= i < |items| ==> items[i].totalPrice >= 0.0
    ensures TotalPrice(items) >= 0.0
  {
    if items != [] {
      TotalPriceNonNegative(items[..|items| - 1]);
    }
  }

  /** No items cost nothing. */
  lemma EmptyTotal(cart: seq<CartLine>, result: FetchResult)
    requires cart == [] || result.Threw?
    ensures TotalPrice(FetchCartItems(cart, result)) == 0.0
  {
  }
}
