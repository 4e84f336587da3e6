/**
 * `orderControls.saveOrder`: despite its name it writes the posted items
 * into the `cart` table exactly as `saveCart` does. It issues no order id,
 * touches no stock and no wallet: the only state it may change is that table.
 */
module OrderControls {
  import opened Domain
  import opened Http
  import opened CartTable

  method SaveOrder(table: Table, body: SaveRequest, addedAt: string, fails: nat -> bool) returns (res: Response<()>)
    requires table.Valid()
    modifies table
    ensures table.Valid()
    ensures !ValidRequest(body) ==> res == Response(400, ErrorBody("Invalid input")) && table.rows == old(table.rows)
    ensures ValidRequest(body) ==>
      var items := body.cartItems.items;
      && table.rows == SavedRows(old(table.rows), body.userId.value, items, addedAt, fails)
      && (AllSucceed(|items|, fails) ==> res == Response(200, MessageBody("Cart saved successfully")))
      && (!AllSucceed(|items|, fails) ==> res == Response(500, ErrorBody("Internal Server Error")))
  {
    if !ValidRequest(body) {
      return Response(400, ErrorBody("Invalid input"));
    }
    var allOk := table.UpsertAll(body.userId.value, body.cartItems.items, addedAt, fails);
    if allOk {
      res := Response(200, MessageBody("Cart saved successfully"));
    } else {
      res := Response(500, ErrorBody("Internal Server Error"));
    }
  }
}
