# FoodZone cart, wallet and save handlers in Dafny

FoodZone is a campus food-ordering app. A React Native client keeps a cart,
prices it, and pays from an internal wallet. An Express server looks meals up
by id and writes posted cart items into a MySQL `cart` table. This project
models the parts of both that have behaviour to state, and proves properties
of the model:

- **The two client cart stores.**
  - `CartContext` holds a map from meal id to count (a class `CartProvider`
    with a `map` field).
  - `GlobalProvider` holds a cart whose `addToCart` expects a list of
    `{ meal_id, quantity }` lines while `removeFromCart` and the initial value
    treat it as an object. The model keeps the JavaScript value the field
    actually holds (`Lines`, `Counts`, or `Spread`, the object that
    `{ ...array }` yields). On that value each operation does exactly what
    JavaScript would: `addToCart` on an object throws a `TypeError` and
    leaves the cart alone, and `removeFromCart` on a list spreads it into an
    index-keyed object.
- **Id lists and query strings.** A comma-separated id string is split and
  each id trimmed. The request for meals carries `mealId=a&mealId=b`. The
  split, join and trim operations are those of JavaScript, with the exact
  ECMAScript whitespace set.
- **Cart pricing** (`CartScreen`): one item per fetched meal with the quantity
  of the first matching cart line, and the reduce that totals them.
  **`MealItem`**: the displayed quantity and the calls its buttons make.
- **The two wallet screens.** Each is a class whose fields are the screen's
  state flags and balance. The balance goes to the server as a new *total*
  through `addWalletAmount`. The model records that call in the request log
  of `WalletApi.WalletClient`.
- **The Express controllers.** `addByMealsId` parses ids and shapes the rows
  it finds. `saveCart` and `saveOrder` validate the body, then upsert one row
  per item into the `cart` table, modelled as a `map`. On a duplicate key the
  upsert overwrites title, price and added_at and keeps the stored quantity.

Money is `real` (rupees). Quantities are `int`. Ids and user ids are strings.
Network, storage and database calls become parameters: `server` and `db`
answer a request, `fails(i)` says whether the i-th insert is rejected,
`toNumber` is JavaScript's `Number`, and fetched balances are inputs.

Where the system's design description and its code disagree, this model
follows the code. The description speaks of order ids, stock decrements, an
atomic commit and a wallet debit with compensation. None of that is in the
code: `saveOrder` writes rows to the `cart` table exactly as `saveCart`
does, and answers "Cart saved successfully" with no order id. The wallet
debit is a client-side computation of a new total,
`OrderSummary.HandlePsgWalletPayment`.

Recorded, not repaired (each modelled as written):
- `GlobalProvider`'s cart starts as `{}` while its `addToCart` calls `.find`.
- `CartScreen` reads `Object.keys(cart).map(item => item.meal_id)`, whose ids
  are all undefined. Only the number of ids is used in the model.
- `CartScreen` takes `fetchMealsByIds` from a context that does not provide
  it. The model takes the fetch outcome as an input, `Threw` included.
- `MealItem` calls `addToCart(id)`, which here has no default quantity. The
  model returns that call as data, with its quantity `None`.
- `MealItem` computes its quantity with `cart.find` on the `GlobalProvider`
  cart. That cart starts as `{}` and stays an object: `removeFromCart` maps an
  object to an object, and `addToCart` throws on it. So in the app the
  quantity lookup throws on every render. `MealItem.Quantity` is the lookup on
  a list of lines, the shape the code expects.
- The order summary's confirm-back and success-OK handlers clear the
  `CartContext` cart (`CartContext.CartProvider`). `MealItem` and `CartScreen`
  read the other cart, the one in `GlobalProvider`, which those handlers never
  touch.
- `fetchWalletBalance` returns `undefined` when its request fails, and the
  order summary stores that as its balance. The screen would then throw when
  it formats the balance. The payment handler would not stop, because
  `undefined < total` is false: it posts `NaN` as the new wallet total
  (`OrderSummaryScreen.FailedFetchPostsNaN`).

## Model

| member | source | states |
|---|---|---|
| JsText.IndexOf | meals/context/CartContext.js:12 | the first index of the separator, or the length when absent; nothing before it is the separator |
| JsText.Split | meals/context/CartContext.js:12 | `split(sep)` gives at least one piece and no piece holds the separator |
| JsText.Join | meals/context/CartContext.js:89 | `join(sep)` of no pieces is ""; otherwise its length is the pieces' lengths plus one separator between each |
| JsText.SplitJoin | meals/context/CartContext.js:87-89 | splitting a joined non-empty list gives the list back when no piece holds the separator |
| JsText.JoinSplit | meals/server/controllers/cartControls.js:33 | joining the pieces of any split restores the string |
| JsText.TrimStart | meals/context/CartContext.js:12 | leading whitespace is dropped: the result is a suffix, all the dropped characters are whitespace and the result does not start with whitespace |
| JsText.TrimEnd | meals/context/CartContext.js:12 | trailing whitespace is dropped: the result is a prefix, all the dropped characters are whitespace and the result does not end with whitespace |
| JsText.TrimFixes | meals/context/CartContext.js:12 | `trim` gives a trimmed string and changes a string exactly when it is not trimmed |
| JsText.TrimAll | meals/context/CartContext.js:12 | `map(id => id.trim())` trims each element and keeps the length |
| JsText.TrimAllFixes | meals/context/CartContext.js:12 | trimming already-trimmed ids changes nothing |
| JsText.SplitTrimmed | meals/server/controllers/cartControls.js:12 | split-and-trim gives one id per ','-separated piece, each the trimmed piece: at least one, each trimmed and free of ',' |
| JsText.Trim | meals/context/CartContext.js:12 | `trim`; its meaning is stated by `TrimStart`, `TrimEnd` and `TrimFixes`: leading and trailing ECMAScript whitespace dropped, identity on trimmed strings |
| JsText.SplitTrimmedJoin | meals/context/CartContext.js:87-89 | trimmed comma-free ids joined with ',' normalise back to themselves |
| Domain.FindLine | meals/context/globalContext.js:122 | `find` by meal id: the index found is a line of that meal and every earlier line is for another meal |
| Domain.LineQuantity | meals/components/MealItem.js:35-36 | the quantity of the first line for the meal, or 0; stated by `LineQuantityOfLine` and `MealItem.Quantity` |
| Domain.FindLineFinds | meals/context/globalContext.js:122 | `find` finds a line exactly when a line for the meal exists |
| Domain.LineQuantityOfLine | meals/components/MealItem.js:35-36 | with distinct meals, the quantity looked up is that meal's one line's quantity |
| CartContext.Added | meals/context/CartContext.js:60-65 | `addToCart`: the meal's count is its old count, 0 if absent, plus the quantity; every other key and count is unchanged |
| CartContext.Removed | meals/context/CartContext.js:68-78 | `removeFromCart`: subtracts when the count exceeds the quantity, otherwise deletes the key; other keys unchanged; absent meal is a no-op |
| CartContext.AddKeepsPositive | meals/context/CartContext.js:60-65 | all counts ≥ 1 and quantity ≥ 1 keep all counts ≥ 1 after adding |
| CartContext.RemoveKeepsPositive | meals/context/CartContext.js:68-78 | all counts ≥ 1 stay ≥ 1 after removing any quantity |
| CartContext.RemoveUndoesAdd | meals/context/CartContext.js:60-77 | removing right after adding the same quantity restores the cart exactly, when every count is positive |
| CartContext.NormaliseIds | meals/context/CartContext.js:11-18 | a string becomes its ','-separated pieces, each trimmed (at least one id); an array is used as it is; anything else is an error |
| CartContext.MealIdParams | meals/context/CartContext.js:21 | one `mealId=<id>` parameter per id, in order |
| CartContext.QueryString | meals/context/CartContext.js:21 | the parameters joined with '&'; `QueryStringParams` states that this split on '&' gives back exactly the `mealId=<id>` parameters |
| CartContext.RequestUrl | meals/context/CartContext.js:24 | the base URL, `addMealsById?` and the query string; `FetchMealsByIds` states that this is the URL the server is asked |
| CartContext.QueryStringParams | meals/context/CartContext.js:21 | the query string splits on '&' back into exactly the `mealId=<id>` parameters, in order |
| CartContext.NoAmpersandInParam | meals/context/CartContext.js:21 | a parameter holds '&' only if the id does |
| CartContext.FetchMealsByIds | meals/context/CartContext.js:6-50 | a bad argument, a thrown request, a non-2xx status or an empty answer give []; a 2xx answer to the request URL gives exactly its data, and any meals returned came that way |
| CartContext.GetCartItemsIds | meals/context/CartContext.js:86-90 | the ids `getCartItems` joins with ',' reach the query unchanged when they are trimmed and comma-free |
| CartContext.CartProvider.constructor | meals/context/CartContext.js:57 | the cart starts empty |
| CartContext.CartProvider.AddToCart | meals/context/CartContext.js:60-65 | the new cart is `Added(old cart, mealId, quantity)`; the quantity defaults to 1 |
| CartContext.CartProvider.RemoveFromCart | meals/context/CartContext.js:68-78 | the new cart is `Removed(old cart, mealId, quantity)`; the quantity defaults to 1 |
| CartContext.CartProvider.ClearCart | meals/context/CartContext.js:81-83 | the cart becomes the empty map |
| CartContext.CartProvider.GetCartItems | meals/context/CartContext.js:86-90 | an empty cart yields [] and no request; otherwise the keys are joined with ',' and fetched |
| GlobalContext.Incremented | meals/context/globalContext.js:124-128 | the `map`: every line of the meal gains the quantity, every other line is kept, the length is kept |
| GlobalContext.AddedLines | meals/context/globalContext.js:121-132 | the list `addToCart` builds; stated by `AddToPresentMeal`, `AddToAbsentMeal`, `AddKeepsDistinct`, `AddedQuantity` and `AddedQuantityOther` |
| GlobalContext.AddToPresentMeal | meals/context/globalContext.js:122-128 | a meal with a line: the line count is kept, its lines gain the quantity, all other lines are unchanged |
| GlobalContext.AddToAbsentMeal | meals/context/globalContext.js:129-130 | a meal without a line: exactly one line `{meal_id, quantity}` is appended at the end |
| GlobalContext.AddKeepsDistinct | meals/context/globalContext.js:120-133 | distinct meal ids stay distinct after adding, and the existing lines keep their order |
| GlobalContext.AddKeepsPositive | meals/context/globalContext.js:120-133 | positive line quantities stay positive when a positive quantity is added |
| GlobalContext.AddedQuantity | meals/context/globalContext.js:120-133 | after adding, the quantity `MealItem` shows for that meal is higher by the quantity added |
| GlobalContext.AddedQuantityOther | meals/context/globalContext.js:120-133 | adding to one meal leaves the quantity shown for every other meal unchanged |
| GlobalContext.SpreadLines | meals/context/globalContext.js:137 | `{ ...lines }` holds each line under its index and nothing else |
| GlobalContext.RemovedValue | meals/context/globalContext.js:136-144 | the value `removeFromCart` builds; stated by `RemoveFromCounts` for an object of counts and `RemoveFromLines` for an array |
| GlobalContext.RemoveFromLines | meals/context/globalContext.js:136-144 | on an array the result is an object holding every line under its index, minus the index the meal id names when it is a canonical index; no quantity is decremented |
| GlobalContext.RemoveFromCounts | meals/context/globalContext.js:135-145 | on an object of counts, `removeFromCart` decrements when the count exceeds the quantity and otherwise deletes the key; nothing else changes |
| GlobalContext.GlobalProvider.constructor | meals/context/globalContext.js:13 | the cart starts as the empty object |
| GlobalContext.GlobalProvider.AddToCart | meals/context/globalContext.js:120-133 | on a list the new list is `AddedLines`; on anything else it throws and the cart is unchanged |
| GlobalContext.GlobalProvider.RemoveFromCart | meals/context/globalContext.js:135-145 | the new value is `RemovedValue`: counts are decremented or deleted; a list is spread and the key deleted |
| GlobalContext.GlobalProvider.ClearCart | meals/context/globalContext.js:147-149 | the cart becomes the empty object |
| MealItem.Quantity | meals/components/MealItem.js:34-37 | the displayed quantity is that of a line for the meal when one exists, and 0 when none does |
| MealItem.QuantityIsFirstLine | meals/components/MealItem.js:35 | the first line for the meal decides the displayed quantity |
| MealItem.Increment | meals/components/MealItem.js:43-45 | + always calls `addToCart(id)` with no quantity |
| MealItem.Decrement | meals/components/MealItem.js:47-51 | - calls `removeFromCart(id)` with no quantity exactly when the displayed quantity is positive, and otherwise does nothing |
| MealItem.DecrementAtZero | meals/components/MealItem.js:36 | with no line for the meal, - does nothing |
| CartScreen.BuildItems | meals/screens/CartScreen.js:20-27 | one item per fetched meal in fetched order; its quantity is the first matching line's or 0; its total is quantity × price |
| CartScreen.FetchCartItems | meals/screens/CartScreen.js:14-39 | no cart entries, a thrown fetch or an empty result give no items; otherwise the built items |
| CartScreen.TotalPrice | meals/screens/CartScreen.js:43 | the reduce's total; stated by `TotalPriceAppend`, `TotalOfBuiltItems` and `TotalPriceNonNegative` |
| CartScreen.TotalPriceAppend | meals/screens/CartScreen.js:43 | the reduce's total of two runs of items is the sum of their totals |
| CartScreen.TotalOfBuiltItems | meals/screens/CartScreen.js:20-43 | the screen's total equals quantity × price summed over the fetched meals |
| CartScreen.TotalPriceNonNegative | meals/screens/CartScreen.js:43 | non-negative item totals give a non-negative total |
| CartScreen.EmptyTotal | meals/screens/CartScreen.js:29-43 | no cart entries or a thrown fetch give a total of 0 |
| WalletApi.WalletClient.constructor | meals/context/globalContext.js:97 | no wallet request has been sent yet |
| WalletApi.WalletClient.AddWalletAmount | meals/context/globalContext.js:97-108 | the request log gains one request carrying the new total |
| OrderSummaryScreen.LoadedBalance | meals/context/globalContext.js:85-95 | a fetched balance is that number; a failed fetch gives `undefined`, which acts as `NaN` in the payment |
| OrderSummaryScreen.PayFromWallet | meals/screens/OrderSummaryScreen.js:45-54 | insufficient funds exactly when the balance is a number below the total; a paid new total plus the price is the old balance; a `NaN` balance pays and posts `NaN` |
| OrderSummaryScreen.PaymentNeverNegative | meals/screens/OrderSummaryScreen.js:46-49 | a payment from a number leaves balance − total, which is never negative; an exact balance pays down to 0 |
| OrderSummaryScreen.FailedFetchPostsNaN | meals/screens/OrderSummaryScreen.js:23-54 | after a failed balance fetch, paying by wallet goes through and posts `NaN` |
| OrderSummaryScreen.OrderSummary.constructor | meals/screens/OrderSummaryScreen.js:11-15 | all three modals closed, balance the number 0 |
| OrderSummaryScreen.OrderSummary.LoadWalletBalance | meals/screens/OrderSummaryScreen.js:23-26 | what the fetch returned becomes the local balance: the number, or `NaN` for an undefined result |
| OrderSummaryScreen.OrderSummary.OnBackPress | meals/screens/OrderSummaryScreen.js:30-33 | the back button opens the back modal and changes nothing else |
| OrderSummaryScreen.OrderSummary.HandleUpiPayment | meals/screens/OrderSummaryScreen.js:41-43 | UPI payment changes no state |
| OrderSummaryScreen.OrderSummary.HandlePsgWalletPayment | meals/screens/OrderSummaryScreen.js:45-54 | short of funds: only the insufficient-funds flag is raised, no request, balance kept; otherwise balance − total (`NaN` for an undefined balance) is posted as the new total and becomes the balance, and the success flag is raised |
| OrderSummaryScreen.OrderSummary.HandleConfirmBack | meals/screens/OrderSummaryScreen.js:56-60 | closes the back modal, empties the `CartContext` cart, goes to the categories |
| OrderSummaryScreen.OrderSummary.HandleCancelBack | meals/screens/OrderSummaryScreen.js:62-64 | only closes the back modal |
| OrderSummaryScreen.OrderSummary.HandleGoToWalletScreen | meals/screens/OrderSummaryScreen.js:66-69 | closes the insufficient-funds modal and goes to the wallet |
| OrderSummaryScreen.OrderSummary.CloseInsufficientFunds | meals/screens/OrderSummaryScreen.js:130-136 | Cancel only closes the insufficient-funds modal |
| OrderSummaryScreen.OrderSummary.HandleSuccessOk | meals/screens/OrderSummaryScreen.js:160-164 | OK closes the success modal, empties the `CartContext` cart, goes to the categories |
| OrderSummaryScreen.OrderSummary.CloseSuccessModal | meals/screens/OrderSummaryScreen.js:152 | a close request only closes the success modal |
| PsgWalletScreen.AcceptedRecharge | meals/screens/PSGWalletScreen.js:53-57 | an amount is accepted exactly when it is a number in [100, 2000] |
| PsgWalletScreen.RechargeBounds | meals/screens/PSGWalletScreen.js:54 | 100 and 2000 are accepted; 99.99, 2000.01 and NaN are not |
| PsgWalletScreen.PsgWallet.constructor | meals/screens/PSGWalletScreen.js:11-17 | loading, no error, modals closed, empty input, balance 0, no last recharge |
| PsgWalletScreen.PsgWallet.LoadBalance | meals/screens/PSGWalletScreen.js:22-39 | a number becomes the balance and clears the error; NaN sets "Failed to load balance" and keeps the balance; loading ends false on both paths |
| PsgWalletScreen.PsgWallet.HandleRecharge | meals/screens/PSGWalletScreen.js:48-50 | opens the input modal |
| PsgWalletScreen.PsgWallet.CloseRechargeModal | meals/screens/PSGWalletScreen.js:108-123 | the modal's close request (line 108) and its Cancel button (line 123) close the input modal |
| PsgWalletScreen.PsgWallet.SetRechargeAmount | meals/screens/PSGWalletScreen.js:118 | the typed text becomes the input |
| PsgWalletScreen.PsgWallet.HandleSuccessModalClose | meals/screens/PSGWalletScreen.js:73-75 | closes the success modal |
| PsgWalletScreen.PsgWallet.HandleAddAmount | meals/screens/PSGWalletScreen.js:52-71 | a rejected amount changes nothing and posts nothing; an accepted one posts balance + amount as the new total, records the amount, shows success, reloads the balance, closes the modal and clears the input |
| CartTable.Upserted | meals/server/controllers/cartControls.js:62-67 | a new key gets the whole seven-field row; an existing key gets the new title, price and added_at and keeps quantity and category; other keys unchanged |
| CartTable.SavedRows | meals/server/controllers/cartControls.js:58-79 | the table after the upserts of one call; stated by `SavedRowsUntouched`, `SavedRowsKeepQuantity`, `SavedRowsStamp`, `SavedRowsKeys` and `SavedRowsContent` |
| CartTable.SavedRowsUntouched | meals/server/controllers/cartControls.js:58-76 | a key no item names is left exactly as it was |
| CartTable.SavedRowsKeepQuantity | meals/server/controllers/cartControls.js:62-67 | stored rows keep their quantity and category after the whole call, and no stored row disappears |
| CartTable.SavedRowsStamp | meals/server/controllers/cartControls.js:55-69 | every row an insert of one call reached carries that call's single added_at |
| CartTable.WrittenKeysExact | meals/server/controllers/cartControls.js:58-76 | a key is written exactly when some item with that key had a successful insert |
| CartTable.SavedRowsKeys | meals/server/controllers/cartControls.js:58-79 | the keys afterwards are exactly the old keys plus those of items whose insert succeeded |
| CartTable.SavedRowsContent | meals/server/controllers/cartControls.js:62-69 | with distinct meals, a successful item is stored as its full row when new, and with its title, price and added_at over the old row otherwise |
| CartTable.ValidRequest | meals/server/controllers/cartControls.js:50 | a non-empty `user_id` and a non-empty array of items; `SaveCart` and `SaveOrder` state that anything else is answered 400 with no write |
| CartTable.Table.constructor | meals/server/controllers/cartControls.js:63 | the table holds the given rows, each under its own key |
| CartTable.Table.Upsert | meals/server/controllers/cartControls.js:62-74 | one successful upsert turns the rows into `Upserted(old rows, row)` and keeps every row under its own key |
| CartTable.Table.UpsertAll | meals/server/controllers/cartControls.js:58-79 | one upsert per item in order, failed ones writing nothing and none undone; reports whether every insert resolved; the table stays keyed by its rows |
| CartControls.QueriedIds | meals/server/controllers/cartControls.js:6-12 | an array is used as it is; a non-empty string is split on ',' and trimmed into at least one id; a missing or empty value gives no ids |
| CartControls.CategoryIds | meals/server/controllers/cartControls.js:33 | NULL or "" gives []; otherwise at least one comma-free piece |
| CartControls.CategoryIdsRoundTrip | meals/server/controllers/cartControls.js:33 | the split category ids join back into the stored concatenation |
| CartControls.ShapeMeals | meals/server/controllers/cartControls.js:32-35 | one meal per row in row order, all columns kept, category ids split |
| CartControls.LookUpMeals | meals/server/controllers/cartControls.js:14-36 | the query for a parsed id list; `AddByMealsId` states its answers |
| CartControls.AddByMealsId | meals/server/controllers/cartControls.js:4-42 | missing id: 400 "No meal ID provided"; empty list: 400 "Invalid meal IDs provided"; DB error: 500; no rows: 404; otherwise 200 with the shaped rows; a nested query value: 500 "Server error" |
| CartControls.InvalidIdsOnlyForEmptyArray | meals/server/controllers/cartControls.js:12-16 | "Invalid meal IDs provided" happens exactly for an empty array, never for a string |
| CartControls.FoundMealsNonEmpty | meals/server/controllers/cartControls.js:29-36 | a 200 answer always carries at least one meal |
| CartControls.SaveCart | meals/server/controllers/cartControls.js:46-86 | an invalid body gives 400 "Invalid input" and no write; otherwise the table becomes `SavedRows` and the answer is 200 "Cart saved successfully" only when every insert resolved, else 500; the table stays keyed by its rows |
| OrderControls.SaveOrder | meals/server/controllers/orderControls.js:5-44 | the same validation and upserts into the `cart` table; success is "Cart saved successfully" with no order id; the cart table is the only state it may change, and it stays keyed by its rows |

## Left out

- Login, signup, logout, category and meal-by-category fetching in `globalContext`: network-bound, outside the cart and wallet logic.
- `TokenScreen`, `App`, the routing table and the database connection: navigation and wiring only. `routes/route.js` is read only to know which handler serves `/saveOrder` and `/addMealsById`.
- The wallet, meal and login controllers on the server are not part of this model. The wallet therefore appears only as the log of `addWalletAmount` requests, and no server-side balance, stock or order-id logic is modelled.
- `fetch`, `axios`, `AsyncStorage`, `db.query`, `moment()` and React hooks and modals: their results are parameters (`server`, `db`, `fails`, `addedAt`, fetched balances).
- `Promise.all` concurrency: the per-item inserts are applied sequentially, in item order. With two items for the same key, concurrent execution could apply them in either order.
- Float formatting (`toFixed`) and JavaScript floating-point arithmetic: money is an exact `real`.
- JavaScript `Infinity`: a `JsNumber` is NaN or a finite value.
- `CartScreen.TotalPrice`: the `|| 0` guard only maps NaN or undefined totals to 0. Totals in the model are always numbers, so the guard is the identity there.
- `CartTable.ValidRequest`: `user_id` is a string or missing. A numeric `user_id` (0 falsy, any other number truthy) is not modelled.
- `CartTable.Upserted`: the `cart` table's unique key is not given in the code. It is taken to be (user_id, meal_id).
- `MealItem.Increment`: the actual `addToCart` call with an undefined quantity would store `undefined` or `NaN` in the list. The model returns the call as data and does not compute that result.
- `GlobalContext.ArrayIndex`: array-index keys are canonical decimals. The 2^32 − 2 upper limit on JavaScript array indices is not modelled.
- `CartContext.CartProvider.GetCartItems`: the order of `Object.keys` is a parameter. It must list each key once.
- The `catch` in `handleAddAmount` is not modelled. `addWalletAmount` and `loadBalance` swallow their own errors, so nothing in the `try` can throw.
