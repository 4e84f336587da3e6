/** Values shared by the client screens and contexts. */
module Domain {

  datatype Option<T> = None | Some(value: T)

  type MealId = string
  type UserId = string

  /** A meal as the client receives it from `addMealsById`; money is in rupees. */
  datatype Meal = Meal(id: MealId, categoryIds: seq<string>, title: string, price: real,
                       imageUrl: string, stock: int)

  /** One line of a list-shaped cart: `{ meal_id, quantity }`. */
  datatype CartLine = CartLine(mealId: MealId, quantity: int)

  /**
   * Index of the first line for `id`, or `|lines|` when there is none:
   * the line that `find` by meal id returns.
   */
  function FindLine(lines: seq<CartLine>, id: MealId): (i: nat)
    ensures i <= |lines|
    ensures i < |lines| ==> lines[i].mealId == id
    ensures forall j :: 0 <= j < i ==> lines[j].mealId != id
  {
    if lines == [] then 0
    else if lines[0].mealId == id then 0
    else 1 + FindLine(lines[1..], id)
  }

  predicate HasLine(lines: seq<CartLine>, id: MealId)
  {
    exists i :: 0 <= i < |lines| && lines[i].mealId == id
  }

  /** The quantity of the first line for `id`, or 0 when there is none. */
  function LineQuantity(lines: seq<CartLine>, id: MealId): int
  {
    var i := FindLine(lines, id);
    if i < |lines| then lines[i].quantity else 0
  }

  /** A line is found exactly when one exists. */
  lemma FindLineFinds(lines: seq<CartLine>, id: MealId)
    ensures FindLine(lines, id) < |lines| <==> HasLine(lines, id)
  {
    if HasLine(lines, id) {
      var i :| 0 <= i < |lines| && lines[i].mealId == id;
      assert FindLine(lines, id) <= i;
    }
  }

  /** No two lines of the cart are for the same meal. */
  predicate DistinctMeals(lines: seq<CartLine>)
  {
    forall i, j :: 0 <= i < j < |lines| ==> lines[i].mealId != lines[j].mealId
  }

  /** With distinct meals, the quantity looked up is the quantity of the one line for that meal. */
  lemma LineQuantityOfLine(lines: seq<CartLine>, k: nat)
    requires DistinctMeals(lines) && k < |lines|
    ensures LineQuantity(lines, lines[k].mealId) == lines[k].quantity
  {
    var i := FindLine(lines, lines[k].mealId);
    assert i <= k;
  }
}
