/**
 * The server's `cart` table and the per-item upsert that `saveCart` and
 * `saveOrder` both issue. An item whose key is new is inserted with all
 * seven columns; an item whose key is already stored overwrites only the
 * title, the price and the time it was added.
 *
 * The table's unique key is taken to be (user_id, meal_id).
 */
module CartTable {
  import opened Domain

  /** One element of the request's `cartItems`. */
  datatype CartItem = CartItem(mealId: string, categoryId: string, title: string, price: real, quantity: int)

  datatype CartKey = CartKey(userId: string, mealId: string)

  datatype CartRow = CartRow(userId: string, mealId: string, categoryId: string, title: string,
                             price: real, quantity: int, addedAt: string)

  function KeyOf(userId: string, item: CartItem): CartKey
  {
    CartKey(userId, item.mealId)
  }

  /** The seven values one insert binds. */
  function RowFor(userId: string, item: CartItem, addedAt: string): CartRow
  {
    CartRow(userId, item.mealId, item.categoryId, item.title, item.price, item.quantity, addedAt)
  }

  /** The table holds each row under its own key. */
  ghost predicate WellKeyed(rows: map<CartKey, CartRow>)
  {
    forall k :: k in rows ==> rows[k].userId == k.userId && rows[k].mealId == k.mealId
  }

  /**
   * One upsert: a new key gets the whole row; an existing key gets the new
   * title, price and added_at and keeps its quantity and category.
   */
  function Upserted(rows: map<CartKey, CartRow>, row: CartRow): (r: map<CartKey, CartRow>)
    ensures CartKey(row.userId, row.mealId) in r
    ensures CartKey(row.userId, row.mealId) !in rows ==> r[CartKey(row.userId, row.mealId)] == row
    ensures CartKey(row.userId, row.mealId) in rows ==>
      var kept := rows[CartKey(row.userId, row.mealId)];
      && r[CartKey(row.userId, row.mealId)].quantity == kept.quantity
      && r[CartKey(row.userId, row.mealId)].categoryId == kept.categoryId
      && r[CartKey(row.userId, row.mealId)] == kept.(title := row.title, price := row.price, addedAt := row.addedAt)
    ensures forall k :: k != CartKey(row.userId, row.mealId) ==> (k in r <==> k in rows)
    ensures forall k :: k != CartKey(row.userId, row.mealId) && k in rows ==> r[k] == rows[k]
  {
    var key := CartKey(row.userId, row.mealId);
    if key in rows then rows[key := rows[key].(title := row.title, price := row.price, addedAt := row.addedAt)]
    else rows[key := row]
  }

  /**
   * The table after the upserts for `items`, applied in order; the insert
   * for item i fails, and writes nothing, when `fails(i)`.
   */
  function SavedRows(rows: map<CartKey, CartRow>, userId: string, items: seq<CartItem>, addedAt: string,
                     fails: nat -> bool): map<CartKey, CartRow>
  {
    if items == [] then rows
    else
      var before := SavedRows(rows, userId, items[..|items| - 1], addedAt, fails);
      if fails(|items| - 1) then before else Upserted(before, RowFor(userId, items[|items| - 1], addedAt))
  }

  /** Every insert of the call succeeded. */
  predicate AllSucceed(n: nat, fails: nat -> bool)
  {
    forall i: nat :: i < n ==> !fails(i)
  }

  /** A key no item names is left exactly as it was. */
  lemma {:induction false} SavedRowsUntouched(rows: map<CartKey, CartRow>, userId: string, items: seq<CartItem>,
                                             addedAt: string, fails: nat -> bool, k: CartKey)
    requires forall i :: 0 <= i < |items| ==> KeyOf(userId, items[i]) != k
    ensures var r := SavedRows(rows, userId, items, addedAt, fails);
      (k in r <==> k in rows) && (k in rows ==> r[k] == rows[k])
  {
    if items != [] {
      SavedRowsUntouched(rows, userId, items[..|items| - 1], addedAt, fails, k);
    }
  }

  /**
   * A row that was already stored keeps its quantity and category, whatever
   * the items say; the table stays well keyed.
   */
  lemma {:induction false} SavedRowsKeepQuantity(rows: map<CartKey, CartRow>, userId: string, items: seq<CartItem>,
                                                addedAt: string, fails: nat -> bool)
    requires WellKeyed(rows)
    ensures var r := SavedRows(rows, userId, items, addedAt, fails);
      && WellKeyed(r)
      && rows.Keys <= r.Keys
      && forall k :: k in rows ==> r[k].quantity == rows[k].quantity && r[k].categoryId == rows[k].categoryId
  {
    if items != [] {
      SavedRowsKeepQuantity(rows, userId, items[..|items| - 1], addedAt, fails);
    }
  }

  /** Every row an insert of the call reached carries the call's one `added_at`. */
  lemma {:induction false} SavedRowsStamp(rows: map<CartKey, CartRow>, userId: string, items: seq<CartItem>,
                                         addedAt: string, fails: nat -> bool)
    ensures var r := SavedRows(rows, userId, items, addedAt, fails);
      forall i :: 0 <= i < |items| && !fails(i) ==>
        KeyOf(userId, items[i]) in r && r[KeyOf(userId, items[i])].addedAt == addedAt
  {
    if items != [] {
      var n := |items| - 1;
      SavedRowsStamp(rows, userId, items[..n], addedAt, fails);
      var before := SavedRows(rows, userId, items[..n], addedAt, fails);
      forall i | 0 <= i < n && !fails(i)
        ensures KeyOf(userId, items[i]) in SavedRows(rows, userId, items, addedAt, fails)
      {
        assert items[..n][i] == items[i];
      }
    }
  }

  /** The keys of the items whose insert succeeded. */
  function WrittenKeys(userId: string, items: seq<CartItem>, fails: nat -> bool): set<CartKey>
  {
    if items == [] then {}
    else
      var n := |items| - 1;
      WrittenKeys(userId, items[..n], fails) + (if fails(n) then {} else {KeyOf(userId, items[n])})
  }

  /** A key is written exactly when some item with that key had a successful insert. */
  lemma {:induction false} WrittenKeysExact(userId: string, items: seq<CartItem>, fails: nat -> bool, k: CartKey)
    ensures k in WrittenKeys(userId, items, fails) <==>
      exists i :: 0 <= i < |items| && !fails(i) && KeyOf(userId, items[i]) == k
  {
    if items != [] {
      var n := |items| - 1;
      var prefix := items[..n];
      WrittenKeysExact(userId, prefix, fails, k);
      assert forall i :: 0 <= i < n ==> prefix[i] == items[i];
      if k in WrittenKeys(userId, prefix, fails) {
        var i :| 0 <= i < n && !fails(i) && KeyOf(userId, prefix[i]) == k;
        assert KeyOf(userId, items[i]) == k;
      }
      if exists i :: 0 <= i < |items| && !fails(i) && KeyOf(userId, items[i]) == k {
        var i :| 0 <= i < |items| && !fails(i) && KeyOf(userId, items[i]) == k;
        if i < n {
          assert KeyOf(userId, prefix[i]) == k;
        }
      }
    }
  }

  /** The keys afterwards: exactly the old ones and those of the items whose insert succeeded. */
  lemma {:induction false} SavedRowsKeys(rows: map<CartKey, CartRow>, userId: string, items: seq<CartItem>,
                                        addedAt: string, fails: nat -> bool)
    ensures SavedRows(rows, userId, items, addedAt, fails).Keys == rows.Keys + WrittenKeys(userId, items, fails)
  {
    if items != [] {
      SavedRowsKeys(rows, userId, items[..|items| - 1], addedAt, fails);
    }
  }

  /**
   * With no key named twice, an item whose insert succeeded is stored as the
   * whole new row when its key was new, and with the item's title and price
   * when it was not.
   */
  lemma {:induction false} SavedRowsContent(rows: map<CartKey, CartRow>, userId: string, items: seq<CartItem>,
                                           addedAt: string, fails: nat -> bool, i: nat)
    requires forall a, b :: 0 <= a < b < |items| ==> items[a].mealId != items[b].mealId
    requires i < |items| && !fails(i)
    ensures var r := SavedRows(rows, userId, items, addedAt, fails);
      var k := KeyOf(userId, items[i]);
      && k in r
      && (k !in rows ==> r[k] == RowFor(userId, items[i], addedAt))
      && (k in rows ==> r[k] == rows[k].(title := items[i].title, price := items[i].price, addedAt := addedAt))
  {
    var n := |items| - 1;
    var k := KeyOf(userId, items[i]);
    SavedRowsStamp(rows, userId, items, addedAt, fails);
    if i == n {
      SavedRowsUntouched(rows, userId, items[..n], addedAt, fails, k);
    } else {
      SavedRowsContent(rows, userId, items[..n], addedAt, fails, i);
      assert items[..n][i] == items[i];
    }
  }

  /** `cartItems` of a request body: an array of items, or some other value. */
  datatype ItemsValue = ItemArray(items: seq<CartItem>) | NotAnArray

  /** `{ user_id, cartItems }`; a missing or null `user_id` is `None`. */
  datatype SaveRequest = SaveRequest(userId: Option<string>, cartItems: ItemsValue)

  /** The guard of both save handlers: a truthy `user_id` and a non-empty array of items. */
  predicate ValidRequest(body: SaveRequest)
  {
    && body.userId.Some? && body.userId.value != ""
    && body.cartItems.ItemArray? && |body.cartItems.items| > 0
  }

  class Table {
    var rows: map<CartKey, CartRow>

    /** Every stored row sits under its own key. */
    ghost predicate Valid()
      reads this
    {
      WellKeyed(rows)
    }

    constructor (rows: map<CartKey, CartRow>)
      requires WellKeyed(rows)
      ensures this.rows == rows && Valid()
    {
      this.rows := rows;
    }

    /** One `db.query` of the upsert that succeeded. */
    method Upsert(row: CartRow)
      requires Valid()
      modifies this
      ensures rows == Upserted(old(rows), row)
      ensures Valid()
    {
      var key := CartKey(row.userId, row.mealId);
      if key in rows {
        rows := rows[key := rows[key].(title := row.title, price := row.price, addedAt := row.addedAt)];
      } else {
        rows := rows[key := row];
      }
    }

    /**
     * One upsert per item, all stamped `addedAt`; a failed insert writes
     * nothing and earlier writes are not undone. `allOk` tells whether every
     * insert resolved (what `Promise.all` waits for).
     */
    method UpsertAll(userId: string, items: seq<CartItem>, addedAt: string, fails: nat -> bool)
      returns (allOk: bool)
      requires Valid()
      modifies this
      ensures Valid()
      ensures rows == SavedRows(old(rows), userId, items, addedAt, fails)
      ensures allOk <==> AllSucceed(|items|, fails)
    {
      ghost var initial := rows;
      allOk := true;
      var i := 0;
      while i < |items|
        invariant 0 <= i <= |items|
        invariant rows == SavedRows(initial, userId, items[..i], addedAt, fails)
        invariant allOk <==> AllSucceed(i, fails)
        invariant Valid()
      {
        ghost var done := items[..i + 1];
        assert done[..i] == items[..i] && done[i] == items[i];
        assert AllSucceed(i + 1, fails) <==> AllSucceed(i, fails) && !fails(i);
        if fails(i) {
          allOk := false;
        } else {
          Upsert(RowFor(userId, items[i], addedAt));
        }
        i := i + 1;
      }
      assert items[..|items|] == items;
    }
  }
}
