/**
 * The cart held by `GlobalProvider`. Its `addToCart` treats the cart as a
 * list of `{ meal_id, quantity }` lines, its `removeFromCart` as an object
 * keyed by meal id, and it starts out as the empty object. The model keeps
 * the JavaScript value the `cart` field actually holds, so each operation
 * works on the representation it uses and does what JavaScript does on the
 * other ones.
 */
module GlobalContext {
  import opened Domain
  import CartContext

  /**
   * The value of the `cart` state field:
   * - `Lines`: an array of cart lines,
   * - `Counts`: an object from meal id to count (the initial `{}`),
   * - `Spread`: what `{ ...lines }` makes of an array, an object from the
   *   decimal index of each line to that line.
   */
  datatype CartValue =
    | Lines(lines: seq<CartLine>)
    | Counts(counts: map<MealId, int>)
    | Spread(entries: map<nat, CartLine>)

  /** Every line for the meal gains `quantity`; every other line is kept as it is. */
  function Incremented(lines: seq<CartLine>, mealId: MealId, quantity: int): (r: seq<CartLine>)
    ensures |r| == |lines|
    ensures forall i :: 0 <= i < |lines| ==>
      r[i] == if lines[i].mealId == mealId then lines[i].(quantity := lines[i].quantity + quantity) else lines[i]
  {
    if lines == [] then []
    else
      var head := if lines[0].mealId == mealId then lines[0].(quantity := lines[0].quantity + quantity) else lines[0];
      [head] + Incremented(lines[1..], mealId, quantity)
  }

  /** The new line list of `addToCart`: bump the existing line, or append a new one at the end. */
  function AddedLines(lines: seq<CartLine>, mealId: MealId, quantity: int): seq<CartLine>
  {
    if FindLine(lines, mealId) < |lines| then Incremented(lines, mealId, quantity)
    else lines + [CartLine(mealId, quantity)]
  }

  /** A meal with a line: that line's quantity grows by `quantity`, no line is added and every other line stays. */
  lemma AddToPresentMeal(lines: seq<CartLine>, mealId: MealId, quantity: int)
    requires HasLine(lines, mealId)
    ensures var r := AddedLines(lines, mealId, quantity);
      && |r| == |lines|
      && (forall i :: 0 <= i < |lines| && lines[i].mealId != mealId ==> r[i] == lines[i])
      && (forall i :: 0 <= i < |lines| && lines[i].mealId == mealId ==>
            r[i] == CartLine(mealId, lines[i].quantity + quantity))
  {
    FindLineFinds(lines, mealId);
  }

  /** A meal without a line: exactly one line `{ meal_id, quantity }` is appended. */
  lemma AddToAbsentMeal(lines: seq<CartLine>, mealId: MealId, quantity: int)
    requires !HasLine(lines, mealId)
    ensures AddedLines(lines, mealId, quantity) == lines + [CartLine(mealId, quantity)]
  {
    FindLineFinds(lines, mealId);
  }

  /** Distinct meal ids stay distinct, and the meals keep their order. */
  lemma AddKeepsDistinct(lines: seq<CartLine>, mealId: MealId, quantity: int)
    requires DistinctMeals(lines)
    ensures var r := AddedLines(lines, mealId, quantity);
      && DistinctMeals(r)
      && |r| >= |lines|
      && forall i :: 0 <= i < |lines| ==> r[i].mealId == lines[i].mealId
  {
    FindLineFinds(lines, mealId);
  }

  /** Every line keeps its meal and a positive quantity when a positive quantity is added. */
  lemma AddKeepsPositive(lines: seq<CartLine>, mealId: MealId, quantity: int)
    requires forall i :: 0 <= i < |lines| ==> lines[i].quantity >= 1
    requires quantity >= 1
    ensures var r := AddedLines(lines, mealId, quantity);
      forall i :: 0 <= i < |r| ==> r[i].quantity >= 1
  {
  }

  /** After adding, the quantity looked up for the meal is higher by `quantity`. */
  lemma AddedQuantity(lines: seq<CartLine>, mealId: MealId, quantity: int)
    ensures LineQuantity(AddedLines(lines, mealId, quantity), mealId) == LineQuantity(lines, mealId) + quantity
  {
    var r := AddedLines(lines, mealId, quantity);
    var i := FindLine(lines, mealId);
    if i < |lines| {
      assert r[i].mealId == mealId;
      assert FindLine(r, mealId) == i;
    } else {
      FindLineFinds(lines, mealId);
      assert r[|lines|].mealId == mealId;
      assert FindLine(r, mealId) == |lines|;
    }
  }

  /** Adding to one meal leaves the quantity looked up for every other meal unchanged. */
  lemma AddedQuantityOther(lines: seq<CartLine>, mealId: MealId, quantity: int, other: MealId)
    requires other != mealId
    ensures LineQuantity(AddedLines(lines, mealId, quantity), other) == LineQuantity(lines, other)
  {
    var r := AddedLines(lines, mealId, quantity);
    var o := FindLine(lines, other);
    assert forall j :: 0 <= j < |lines| ==> r[j].mealId == lines[j].mealId;
    if o < |lines| {
      assert r[o].mealId == other;
      assert FindLine(r, other) == o;
    } else if |r| > |lines| {
      assert r[|lines|].mealId == mealId;
      assert FindLine(r, other) == |r|;
    }
  }

  /** `{ ...lines }`: each line under its index. */
  function SpreadLines(lines: seq<CartLine>): (e: map<nat, CartLine>)
    ensures forall i: nat :: i in e <==> i < |lines|
    ensures forall i: nat :: i < |lines| ==> e[i] == lines[i]
  {
    map i: nat | i < |lines| :: lines[i]
  }

  predicate IsDigit(c: char)
  {
    '0' <= c <= '9'
  }

  function DecimalValue(s: string): nat
    requires forall k :: 0 <= k < |s| ==> IsDigit(s[k])
  {
    if s == [] then 0
    else
      assert IsDigit(s[|s| - 1]);
      DecimalValue(s[..|s| - 1]) * 10 + (s[|s| - 1] as int - '0' as int)
  }

  /** The array index a property key names: a canonical decimal ("0", "12", not "012"). */
  function ArrayIndex(key: string): Option<nat>
  {
    if key != [] && (forall k :: 0 <= k < |key| ==> IsDigit(key[k])) && (key[0] != '0' || |key| == 1)
    then Some(DecimalValue(key))
    else None
  }

  /**
   * The new value of `removeFromCart(mealId, quantity)`: on an object of
   * counts, the map-shaped removal; on an array, the array is spread into an
   * object and, since a line compared with a number is never greater,
   * `mealId` is deleted from it.
   */
  function RemovedValue(cart: CartValue, mealId: MealId, quantity: int): CartValue
  {
    match cart
    case Counts(counts) => Counts(CartContext.Removed(counts, mealId, quantity))
    case Lines(lines) => Spread(DeleteIndex(SpreadLines(lines), mealId))
    case Spread(entries) => Spread(DeleteIndex(entries, mealId))
  }

  function DeleteIndex(entries: map<nat, CartLine>, key: string): map<nat, CartLine>
  {
    match ArrayIndex(key)
    case Some(i) => entries - {i}
    case None => entries
  }

  /** On an object of counts, `removeFromCart` decrements or deletes `mealId` and leaves every other key. */
  lemma RemoveFromCounts(counts: map<MealId, int>, mealId: MealId, quantity: int)
    ensures var r := RemovedValue(Counts(counts), mealId, quantity);
      && r.Counts?
      && (mealId in counts && counts[mealId] > quantity ==> r.counts == counts[mealId := counts[mealId] - quantity])
      && (!(mealId in counts && counts[mealId] > quantity) ==> r.counts == counts - {mealId})
  {
    var r := CartContext.Removed(counts, mealId, quantity);
    if mealId in counts && counts[mealId] > quantity {
      assert r.Keys == counts.Keys;
    } else {
      assert r.Keys == counts.Keys - {mealId};
    }
  }

  /**
   * On an array of lines, `removeFromCart` yields an object: every line under
   * its index, except the index `mealId` names when it is a canonical array
   * index. Quantities are never decremented.
   */
  lemma RemoveFromLines(lines: seq<CartLine>, mealId: MealId, quantity: int)
    ensures var r := RemovedValue(Lines(lines), mealId, quantity);
      && r.Spread?
      && (forall i: nat :: i in r.entries <==> i < |lines| && ArrayIndex(mealId) != Some(i))
      && (forall i: nat :: i in r.entries ==> r.entries[i] == lines[i])
  {
  }

  /** The `GlobalProvider` state, restricted to the cart. */
  class GlobalProvider {
    var cart: CartValue

    constructor ()
      ensures cart == Counts(map[])
    {
      cart := Counts(map[]);
    }

    /**
     * `addToCart(mealId, quantity)`. On anything but an array `cart.find` is
     * not a function: the update throws a `TypeError` and the cart stays.
     */
    method AddToCart(mealId: MealId, quantity: int) returns (threw: bool)
      modifies this
      ensures threw <==> !old(cart).Lines?
      ensures old(cart).Lines? ==> cart == Lines(AddedLines(old(cart).lines, mealId, quantity))
      ensures threw ==> cart == old(cart)
    {
      if !cart.Lines? {
        return true;
      }
      var lines := cart.lines;
      var existing := FindLine(lines, mealId);
      if existing < |lines| {
        cart := Lines(Incremented(lines, mealId, quantity));
      } else {
        cart := Lines(lines + [CartLine(mealId, quantity)]);
      }
      threw := false;
    }

    method RemoveFromCart(mealId: MealId, quantity: int := 1)
      modifies this
      ensures cart == RemovedValue(old(cart), mealId, quantity)
    {
      match cart
      case Counts(counts) =>
        var updated := counts;
        if mealId in updated && updated[mealId] > quantity {
          updated := updated[mealId := updated[mealId] - quantity];
        } else {
          updated := updated - {mealId};
        }
        cart := Counts(updated);
      case Lines(lines) =>
        cart := Spread(DeleteIndex(SpreadLines(lines), mealId));
      case Spread(entries) =>
        cart := Spread(DeleteIndex(entries, mealId));
    }

    method ClearCart()
      modifies this
      ensures cart == Counts(map[])
    {
      cart := Counts(map[]);
    }
  }
}
