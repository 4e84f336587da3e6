/**
 * `cartControls`: `addByMealsId` (look meals up by id) and `saveCart`
 * (upsert the posted items into the `cart` table).
 */
module CartControls {
  import opened Domain
  import opened Http
  import opened JsText
  import opened CartTable

  /** `req.query.mealId` as Express parses it. */
  datatype QueryValue = Absent | Text(text: string) | Values(values: seq<string>) | Nested

  /** A row of the meals-by-id query, with `GROUP_CONCAT(category_id)` possibly NULL. */
  datatype MealRow = MealRow(id: string, title: string, price: real, imageUrl: string, stock: int,
                             categoryIds: Option<string>)

  /** The same row as sent back, with `categoryIds` split into a list. */
  datatype MealJson = MealJson(id: string, title: string, price: real, imageUrl: string, stock: int,
                               categoryIds: seq<string>)

  /** What `db.query` hands its callback. */
  datatype DbResult = DbError | DbRows(rows: seq<MealRow>)

  /**
   * The ids the handler queries for: an array as it is, a non-empty string
   * split on ',' and trimmed; nothing for a missing or empty value or a
   * nested object.
   */
  function QueriedIds(q: QueryValue): (ids: Option<seq<string>>)
    ensures q.Values? ==> ids == Some(q.values)
    ensures q.Text? && q.text != "" ==>
      && ids == Some(SplitTrimmed(q.text))
      && |ids.value| >= 1
      && forall k :: 0 <= k < |ids.value| ==> IsTrimmed(ids.value[k]) && ',' !in ids.value[k]
    ensures q.Absent? || q.Nested? || q == Text("") ==> ids.None?
  {
    match q
    case Values(values) => Some(values)
    case Text(text) => if text == "" then None else Some(SplitTrimmed(text))
    case _ => None
  }

  /** The category ids of a row: none for NULL or the empty string, otherwise the concatenation split on ','. */
  function CategoryIds(concat: Option<string>): (ids: seq<string>)
    ensures concat.None? || concat == Some("") ==> ids == []
    ensures concat.Some? && concat.value != "" ==> |ids| >= 1 && forall k :: 0 <= k < |ids| ==> ',' !in ids[k]
  {
    match concat
    case None => []
    case Some(text) => if text == "" then [] else Split(text, ',')
  }

  /** The split category ids join back into the concatenation the database gave. */
  lemma CategoryIdsRoundTrip(concat: string)
    ensures Join(CategoryIds(Some(concat)), ',') == concat
  {
    JoinSplit(concat, ',');
  }

  function ShapeMeal(row: MealRow): MealJson
  {
    MealJson(row.id, row.title, row.price, row.imageUrl, row.stock, CategoryIds(row.categoryIds))
  }

  /** `results.map(...)`: one meal per row, in row order, everything but the category ids as stored. */
  function ShapeMeals(rows: seq<MealRow>): (meals: seq<MealJson>)
    ensures |meals| == |rows|
    ensures forall i :: 0 <= i < |rows| ==>
      && meals[i].id == rows[i].id && meals[i].title == rows[i].title && meals[i].price == rows[i].price
      && meals[i].imageUrl == rows[i].imageUrl && meals[i].stock == rows[i].stock
      && meals[i].categoryIds == CategoryIds(rows[i].categoryIds)
  {
    if rows == [] then [] else [ShapeMeal(rows[0])] + ShapeMeals(rows[1..])
  }

  /** `addByMealsId`, with the database as `db`, which answers the list of ids queried. */
  function AddByMealsId(q: QueryValue, db: seq<string> -> DbResult): (res: Response<MealJson>)
    ensures q.Absent? || q == Text("") ==> res == Response(400, ErrorBody("No meal ID provided"))
    ensures q.Nested? ==> res == Response(500, ErrorBody("Server error"))
    ensures QueriedIds(q) == Some([]) ==> res == Response(400, ErrorBody("Invalid meal IDs provided"))
    ensures QueriedIds(q).Some? && QueriedIds(q).value != [] ==>
      var answer := db(QueriedIds(q).value);
      && (answer.DbError? ==> res == Response(500, ErrorBody("Error fetching meal")))
      && (answer.DbRows? && answer.rows == [] ==> res == Response(404, ErrorBody("Meal not found")))
      && (answer.DbRows? && answer.rows != [] ==> res == Response(200, ListBody(ShapeMeals(answer.rows))))
  {
    match q
    case Absent => Response(400, ErrorBody("No meal ID provided"))
    case Nested => Response(500, ErrorBody("Server error"))
    case Text(text) =>
      if text == "" then Response(400, ErrorBody("No meal ID provided"))
      else LookUpMeals(SplitTrimmed(text), db)
    case Values(values) => LookUpMeals(values, db)
  }

  function LookUpMeals(ids: seq<string>, db: seq<string> -> DbResult): Response<MealJson>
  {
    if |ids| == 0 then Response(400, ErrorBody("Invalid meal IDs provided"))
    else
      match db(ids)
      case DbError => Response(500, ErrorBody("Error fetching meal"))
      case DbRows(rows) =>
        if |rows| == 0 then Response(404, ErrorBody("Meal not found"))
        else Response(200, ListBody(ShapeMeals(rows)))
  }

  /** Only an empty array gives "Invalid meal IDs provided": a split string always has an id. */
  lemma InvalidIdsOnlyForEmptyArray(q: QueryValue, db: seq<string> -> DbResult)
    ensures AddByMealsId(q, db).body == ErrorBody("Invalid meal IDs provided") <==> q == Values([])
  {
  }

  /** A successful lookup sends back at least one meal. */
  lemma FoundMealsNonEmpty(q: QueryValue, db: seq<string> -> DbResult)
    ensures AddByMealsId(q, db).status == 200 ==>
      AddByMealsId(q, db).body.ListBody? && |AddByMealsId(q, db).body.items| >= 1
  {
  }

  /**
   * `saveCart`: an invalid body is answered 400 with no write; otherwise one
   * upsert per item, all stamped `addedAt`, and 200 only when every insert
   * resolved (500 otherwise, without undoing the inserts that did).
   */
  method SaveCart(table: Table, body: SaveRequest, addedAt: string, fails: nat -> bool) returns (res: Response<()>)
    requires table.Valid()
    modifies table
    ensures table.Valid()
    ensures !ValidRequest(body) ==> res == Response(400, ErrorBody("Invalid input")) && table.rows == old(table.rows)
    ensures ValidRequest(body) ==>
      var items := body.cartItems.items;
      && table.rows == SavedRows(old(table.rows), body.userId.value, items, addedAt, fails)
      && (AllSucceed(|items|, fails) ==> res == Response(200, MessageBody("Cart saved successfully")))
      && (!AllSucceed(|items|, fails) ==> res == Response(500, ErrorBody("Internal Server Error")))
  {
    if !ValidRequest(body) {
      return Response(400, ErrorBody("Invalid input"));
    }
    var allOk := table.UpsertAll(body.userId.value, body.cartItems.items, addedAt, fails);
    if allOk {
      res := Response(200, MessageBody("Cart saved successfully"));
    } else {
      res := Response(500, ErrorBody("Internal Server Error"));
    }
  }
}
