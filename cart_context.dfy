/**
 * The map-shaped client cart of `CartContext`: meal id -> count, with add,
 * remove and clear, and the fetch of the cart's meals by id.
 */
module CartContext {
  import opened Domain
  import opened JsText

  const BaseUrl := "http://192.168.0.106:5000/FOOD-ZONE/"

  /** Every count in the cart is at least one. */
  predicate AllPositive(cart: map<MealId, int>)
  {
    forall k :: k in cart ==> cart[k] >= 1
  }

  /** The cart `addToCart(mealId, quantity)` produces: the count of `mealId`, 0 when absent, plus `quantity`. */
  function Added(cart: map<MealId, int>, mealId: MealId, quantity: int): (r: map<MealId, int>)
    ensures mealId in r && r[mealId] == (if mealId in cart then cart[mealId] else 0) + quantity
    ensures forall k :: k != mealId ==> (k in r <==> k in cart)
    ensures forall k :: k != mealId && k in cart ==> r[k] == cart[k]
  {
    cart[mealId := (if mealId in cart then cart[mealId] else 0) + quantity]
  }

  /**
   * The cart `removeFromCart(mealId, quantity)` produces: the count drops by
   * `quantity` when it exceeds it, otherwise the entry goes (an absent
   * entry has no count, and `undefined > quantity` is false).
   */
  function Removed(cart: map<MealId, int>, mealId: MealId, quantity: int): (r: map<MealId, int>)
    ensures mealId in cart && cart[mealId] > quantity ==> mealId in r && r[mealId] == cart[mealId] - quantity
    ensures !(mealId in cart && cart[mealId] > quantity) ==> mealId !in r
    ensures forall k :: k != mealId ==> (k in r <==> k in cart)
    ensures forall k :: k != mealId && k in cart ==> r[k] == cart[k]
    ensures mealId !in cart ==> r == cart
  {
    if mealId in cart && cart[mealId] > quantity then cart[mealId := cart[mealId] - quantity]
    else cart - {mealId}
  }

  /** Adding at least one keeps every count positive. */
  lemma AddKeepsPositive(cart: map<MealId, int>, mealId: MealId, quantity: int)
    requires AllPositive(cart) && quantity >= 1
    ensures AllPositive(Added(cart, mealId, quantity))
  {
  }

  /** Removing any quantity keeps every count positive: a count survives only when it exceeds what is removed. */
  lemma RemoveKeepsPositive(cart: map<MealId, int>, mealId: MealId, quantity: int)
    requires AllPositive(cart)
    ensures AllPositive(Removed(cart, mealId, quantity))
  {
  }

  /** Removing what was just added restores the cart exactly. */
  lemma RemoveUndoesAdd(cart: map<MealId, int>, mealId: MealId, quantity: int)
    requires AllPositive(cart)
    ensures Removed(Added(cart, mealId, quantity), mealId, quantity) == cart
  {
    var r := Removed(Added(cart, mealId, quantity), mealId, quantity);
    assert r.Keys == cart.Keys;
  }

  /** The id argument of `fetchMealsByIds`: a comma-separated string, an array, or anything else. */
  datatype IdsArgument = IdText(text: string) | IdList(ids: seq<string>) | OtherValue

  /** A string is split on ',' and each id trimmed; an array is used as it is; anything else is an error. */
  function NormaliseIds(arg: IdsArgument): (r: Option<seq<string>>)
    ensures arg.OtherValue? <==> r.None?
    ensures arg.IdList? ==> r == Some(arg.ids)
    ensures arg.IdText? ==> r == Some(SplitTrimmed(arg.text))
    ensures arg.IdText? ==>
      && r.Some? && |r.value| >= 1
      && forall k :: 0 <= k < |r.value| ==> IsTrimmed(r.value[k]) && ',' !in r.value[k]
  {
    match arg
    case IdText(text) => Some(SplitTrimmed(text))
    case IdList(ids) => Some(ids)
    case OtherValue => None
  }

  /** One `mealId` query parameter per id, in order. */
  function MealIdParams(ids: seq<string>): (ps: seq<string>)
    ensures |ps| == |ids|
    ensures forall k :: 0 <= k < |ids| ==> ps[k] == "mealId=" + ids[k]
  {
    if ids == [] then [] else ["mealId=" + ids[0]] + MealIdParams(ids[1..])
  }

  /** The query string `mealId=a&mealId=b...` sent to `addMealsById`. */
  function QueryString(ids: seq<string>): string
  {
    Join(MealIdParams(ids), '&')
  }

  /** The query string splits on '&' into one `mealId=<id>` parameter per id, in order. */
  lemma QueryStringParams(ids: seq<string>)
    requires ids != []
    requires forall k :: 0 <= k < |ids| ==> '&' !in ids[k]
    ensures Split(QueryString(ids), '&') == MealIdParams(ids)
  {
    var ps := MealIdParams(ids);
    forall k | 0 <= k < |ps|
      ensures '&' !in ps[k]
    {
      NoAmpersandInParam(ids[k]);
    }
    SplitJoin(ps, '&');
  }

  lemma NoAmpersandInParam(id: string)
    requires '&' !in id
    ensures '&' !in "mealId=" + id
  {
    var p := "mealId=" + id;
    forall i | 0 <= i < |p|
      ensures p[i] != '&'
    {
      if i >= 7 {
        assert p[i] == id[i - 7];
      }
    }
  }

  function RequestUrl(ids: seq<string>): string
  {
    BaseUrl + "addMealsById?" + QueryString(ids)
  }

  /** What `fetch` and `response.json()` give back, or that one of them threw. */
  datatype HttpOutcome = HttpResponse(status: int, data: seq<Meal>) | Thrown

  /** `response.ok` */
  predicate Ok(status: int)
  {
    200 <= status <= 299
  }

  /**
   * `fetchMealsByIds(mealIds)` with the network as `server`, which answers a
   * URL: the meals received, or [] on a bad argument, a failed request, a
   * status outside 2xx or an empty answer.
   */
  function FetchMealsByIds(arg: IdsArgument, server: string -> HttpOutcome): (meals: seq<Meal>)
    ensures arg.OtherValue? ==> meals == []
    ensures arg.OtherValue? || meals == [] || server(RequestUrl(NormaliseIds(arg).value)).HttpResponse?
    ensures meals != [] ==> var answer := server(RequestUrl(NormaliseIds(arg).value));
      Ok(answer.status) && meals == answer.data
    ensures !arg.OtherValue? && server(RequestUrl(NormaliseIds(arg).value)).HttpResponse?
      && Ok(server(RequestUrl(NormaliseIds(arg).value)).status)
      ==> meals == server(RequestUrl(NormaliseIds(arg).value)).data
  {
    match NormaliseIds(arg)
    case None => []
    case Some(ids) =>
      match server(RequestUrl(ids))
      case Thrown => []
      case HttpResponse(status, data) => if !Ok(status) then [] else data
  }

  /** `Object.keys(cart)` in the order JavaScript lists them: each key once. */
  ghost predicate ListsKeys(keyOrder: seq<MealId>, cart: map<MealId, int>)
  {
    && (forall k :: k in cart <==> k in keyOrder)
    && (forall i, j :: 0 <= i < j < |keyOrder| ==> keyOrder[i] != keyOrder[j])
  }

  /** Object keys that are comma-free and trimmed come out of the join-then-split round trip unchanged. */
  lemma GetCartItemsIds(keyOrder: seq<MealId>)
    requires keyOrder != []
    requires forall k :: 0 <= k < |keyOrder| ==> IsTrimmed(keyOrder[k]) && ',' !in keyOrder[k]
    ensures NormaliseIds(IdText(Join(keyOrder, ','))) == Some(keyOrder)
  {
    SplitTrimmedJoin(keyOrder);
  }

  /** The `CartProvider` state: the `cart` field and the operations that replace it. */
  class CartProvider {
    var cart: map<MealId, int>

    constructor ()
      ensures cart == map[]
    {
      cart := map[];
    }

    method AddToCart(mealId: MealId, quantity: int := 1)
      modifies this
      ensures cart == Added(old(cart), mealId, quantity)
    {
      var previous := if mealId in cart then cart[mealId] else 0;
      cart := cart[mealId := previous + quantity];
    }

    /** Copies the cart, then decrements or deletes in the copy. */
    method RemoveFromCart(mealId: MealId, quantity: int := 1)
      modifies this
      ensures cart == Removed(old(cart), mealId, quantity)
    {
      var updated := cart;
      if mealId in updated && updated[mealId] > quantity {
        updated := updated[mealId := updated[mealId] - quantity];
      } else {
        updated := updated - {mealId};
      }
      cart := updated;
    }

    method ClearCart()
      modifies this
      ensures cart == map[]
    {
      cart := map[];
    }

    /**
     * `getCartItems`: an empty cart gives [] without a request; otherwise the
     * keys, joined with ',', go to `fetchMealsByIds`. `requested` is the URL
     * that was fetched, if any.
     */
    method GetCartItems(keyOrder: seq<MealId>, server: string -> HttpOutcome)
      returns (meals: seq<Meal>, requested: Option<string>)
      requires ListsKeys(keyOrder, cart)
      ensures cart == map[] ==> meals == [] && requested == None
      ensures cart != map[] ==>
        && requested == Some(RequestUrl(NormaliseIds(IdText(Join(keyOrder, ','))).value))
        && meals == FetchMealsByIds(IdText(Join(keyOrder, ',')), server)
    {
      if |keyOrder| == 0 {
        assert cart.Keys == {};
        return [], None;
      }
      var text := Join(keyOrder, ',');
      requested := Some(RequestUrl(NormaliseIds(IdText(text)).value));
      meals := FetchMealsByIds(IdText(text), server);
      assert keyOrder[0] in cart;
    }
  }
}
