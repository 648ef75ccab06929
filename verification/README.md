# GrubDash controllers in Dafny

A model of the two request-handling controllers of the GrubDash backend: the orders
controller (`src/orders/orders.controller.js`) and the dishes controller
(`src/dishes/dishes.controller.js`). Each route is an array of Express middleware. Small
validation steps run first, and a handler then reads or changes an in-memory array of
records.

The model is functional:

- **Values.** `Js.JsVal` is a JSON value as a request body delivers it. `Js` also gives the
  pieces of JavaScript the controllers rely on: truthiness, property reads (a read on
  `undefined`/`null` throws), `typeof … == "number"`, `Number.isInteger`, how values print in
  template literals, and the loose equality `==` against a string.
- **Steps.** Each step is a pure function from the request to a `Pipeline.Signal`. The
  signal is `Continue` (`next()`), `Fail(status, message)` (`next({status, message})`) or
  `Crash` (a TypeError the step throws). A step that calls `next` more than once is modelled
  by its first call, because that call decides the response. Its full sequence of calls is
  modelled separately (see Findings).
- **Routes.** Each route is modelled as the existence guard, then `Pipeline.FirstFailure`
  over the remaining steps, then the handler. The result is an `Outcome`: the collection
  after the request and the reply sent. A route that fails leaves the collection as it was.
- **State.** Collections are sequences of immutable records. `res.locals.order` is the index
  found by the guard. An in-place update replaces the element at that index. `nextId()`
  becomes a parameter that must not already be in use.

Where the code does something its messages or names do not suggest, the model follows the code:

- A freshly created order has no `status`. `okToDelete` tests `status !== "pending"`, so such
  an order cannot be deleted: the route answers 400.
  See `OrderFacts.NewOrderCannotBeDeleted`.
- The price check accepts any positive number, integers or not, although its message asks
  for an integer. See `DishFacts.FractionalPriceAccepted`.
- The dish update route checks the id before the fields, and reads `req.body.data.id` with
  no default. A dish update request without `data` therefore throws and gets a server error,
  not a 400. See `DishFacts.UpdateReportsFirstFailure`.
- Orders compare ids loosely (`==`) and dishes strictly (`===`). The model keeps this
  difference. See `DishFacts.NumericIdMatchesOnlyLoosely`.
- Outside the delete route, `destroy` on an id that matches nothing gets index -1 from
  `findIndex`, and `splice(-1, 1)` removes the last order. See `Orders.Destroy`. The route
  cannot reach this case, because `orderExists` runs first.

## Model

| member | source | states |
|---|---|---|
| Js.NatToDecimal | src/orders/orders.controller.js:41 | The index printed in the quantity message is a non-empty string of digits, with no leading zero, that denotes that index. |
| Js.DecimalRoundTrip | src/orders/orders.controller.js:70 | Converting an integer's printed form back to a number gives that integer. This is the conversion `==` applies to a string route id compared with a number. |
| Js.IntLooselyEqualsItsSpelling | src/orders/orders.controller.js:70 | An integer is loosely equal to another integer's decimal spelling exactly when the two integers are equal. Other spellings of the same integer, with leading zeros, a sign or surrounding white space, also match through `Js.StringToInteger`. |
| Pipeline.FirstFailure | src/orders/orders.controller.js:132-153 | A chain of steps continues exactly when every step continues. Otherwise it gives the signal of the first step that does not continue, and later steps do not matter. |
| Store.IndexOf | src/orders/orders.controller.js:7 | The search shared by `find` here and by `findIndex` at line 127 of the same file. Returns nothing exactly when the id does not occur. Otherwise returns the position of its first occurrence. |
| Store.SpliceOne | src/orders/orders.controller.js:128 | `splice(start, 1)` removes exactly the element at `start`, counting back from the end when `start` is negative, and the first element when `start` is below `-length`. It keeps the rest in order and removes nothing past the end. |
| Orders.FindOrder | src/orders/orders.controller.js:7 | Finds no order exactly when no stored order has the route id. Otherwise finds the first stored order that has it. |
| Orders.OrderExists | src/orders/orders.controller.js:5-14 | Passes exactly when some stored order has the route id. Otherwise fails 404 with "Order does not exist: <id>.". |
| Orders.BodyDataHas | src/orders/orders.controller.js:16-25 | Passes exactly when `data[F]` is truthy, with a missing `data` read as `{}`. Otherwise fails 400 "Order must include a F". A `null` data throws. |
| Orders.QuantityRejected | src/orders/orders.controller.js:33-37 | The three-part quantity test rejects exactly the values that are not positive integers. |
| Orders.FirstStop | src/orders/orders.controller.js:33-37 | Finds nothing exactly when every line item has a positive integer quantity. Otherwise returns the smallest index of a line that is missing or has a bad quantity. |
| Orders.DishesOk | src/orders/orders.controller.js:27-46 | Fails 400 "at least one dish" when `dishes` is not a non-empty array. Otherwise reports the smallest bad index in "Dish i must have a quantity…", or throws if that line is null. Passes exactly when every quantity is a positive integer. |
| Orders.CheckReqStatus | src/orders/orders.controller.js:48-64 | A delivered order fails 400 "A delivered order cannot be changed" whatever status is requested. Any other order passes exactly when the requested status is one of the four labels, and otherwise fails with the message that lists them. |
| Orders.IdsMatch | src/orders/orders.controller.js:66-78 | Passes when the body id is falsy. Otherwise passes exactly when the body id `==` the route id, and fails 400 on a mismatch. |
| Orders.OkToDelete | src/orders/orders.controller.js:114-123 | Passes exactly when the status is the string "pending". Otherwise fails 400 "An order cannot be deleted unless it is pending.". |
| Orders.Destroy | src/orders/orders.controller.js:125-130 | Removes exactly the first order with the route id and keeps the others in order. When no order has the id, it removes the last order. |
| Orders.CreateStepsPass | src/orders/orders.controller.js:135-141 | The create steps all continue exactly when deliverTo and mobileNumber are truthy and the dish list is acceptable. |
| Orders.Create | src/orders/orders.controller.js:88-100 | On an acceptable request, appends exactly one order and replies 201 with it. The order has the fresh id, the three copied fields and no status, and earlier orders are kept. Otherwise the collection is unchanged. |
| Orders.UpdateStepsPass | src/orders/orders.controller.js:142-151 | The update steps all continue exactly when the fields are acceptable, the order is not delivered, the status is a label and the ids agree. |
| Orders.Update | src/orders/orders.controller.js:102-112 | An unknown id gets 404. An accepted update overwrites deliverTo, mobileNumber, status and dishes of the found order only, and keeps its id and every other order. A failed update leaves the collection unchanged. |
| Orders.Delete | src/orders/orders.controller.js:114-130 | An unknown id gets 404. A status other than "pending" gets 400 and the collection is unchanged. Otherwise the reply is 204 and exactly the matched order is removed, with the others kept in order. |
| Orders.Read | src/orders/orders.controller.js:84-86 | Replies with the first order that has the route id, or 404. Never changes the collection. |
| Orders.DishesOkCalls | src/orders/orders.controller.js:27-46 | Every call `dishesOk` makes to `next` as written, in order. There is always at least one. |
| Orders.OkToDeleteCalls | src/orders/orders.controller.js:114-123 | Every call `okToDelete` makes to `next` as written, in order. There is always at least one. |
| OrderFacts.CreateReportsFirstFailure | src/orders/orders.controller.js:135-141 | Create reports the first failing check, in the order deliverTo, mobileNumber, dishes, dish list. A null data gets a server error. |
| OrderFacts.UpdateReportsMissingFieldFirst | src/orders/orders.controller.js:143-147 | Update checks deliverTo, mobileNumber, dishes and the dish list in that order, before status and id. |
| OrderFacts.UpdateReportsStatusBeforeId | src/orders/orders.controller.js:148-149 | With valid fields, a delivered order always gets "cannot be changed". A bad status is reported before an id mismatch. |
| OrderFacts.CreateKeepsIdsDistinct | src/orders/orders.controller.js:92-98 | Creating with a fresh id keeps the stored ids distinct. |
| OrderFacts.UpdateKeepsIds | src/orders/orders.controller.js:102-112 | No update changes any stored id. |
| OrderFacts.DeleteKeepsIdsDistinct | src/orders/orders.controller.js:125-130 | Deleting keeps the stored ids distinct. |
| OrderFacts.CreateKeepsOrdersValid | src/orders/orders.controller.js:135-141 | Create keeps every stored order well formed: truthy deliverTo and mobileNumber, an acceptable dish list, and a status that is absent or a label. |
| OrderFacts.UpdateKeepsOrdersValid | src/orders/orders.controller.js:142-151 | Update keeps every stored order well formed. |
| OrderFacts.DeleteKeepsOrdersValid | src/orders/orders.controller.js:152 | Delete keeps every stored order well formed. |
| OrderFacts.DeliveredOrderIsFinal | src/orders/orders.controller.js:53-56 | `delivered` is terminal. No update changes a delivered order, and no delete removes it. |
| OrderFacts.UpdateSetsLabel | src/orders/orders.controller.js:53 | After a successful update the order's status is one of the four labels. |
| OrderFacts.NewOrderCannotBeDeleted | src/orders/orders.controller.js:114-123 | A freshly created order has no status, so deleting it gets 400 and changes nothing. |
| OrderFacts.DeletedOrderIsGone | src/orders/orders.controller.js:125-130 | With distinct ids, reading an order after deleting it gets 404. |
| OrderFacts.CreateThenRead | src/orders/orders.controller.js:88-100 | Reading a just-created order returns the order as created. |
| OrderFacts.UpdateThenRead | src/orders/orders.controller.js:102-112 | Reading an order after updating it returns the new field values and the old id. |
| OrderFacts.DishesOkIsFirstCall | src/orders/orders.controller.js:27-46 | `Orders.DishesOk` is the first call `dishesOk` makes to `next`, for every input. |
| OrderFacts.EmptyDishListSignalsTwice | src/orders/orders.controller.js:29-45 | For every body whose dish list is an empty array, the empty list is reported, and then `next()` is called anyway. |
| OrderFacts.BadQuantitySignalsTwice | src/orders/orders.controller.js:33-45 | For every dish list whose first bad line `i` is not null, the quantity message for `i` is given, and then `next()` is called anyway. |
| OrderFacts.NonArrayDishesSignalsTwice | src/orders/orders.controller.js:29-37 | For every body whose dish list is not an array (missing included), the list is reported, and then `findIndex` throws. |
| OrderFacts.OkToDeleteIsFirstCall | src/orders/orders.controller.js:114-123 | `Orders.OkToDelete` is the first call `okToDelete` makes to `next`, for every order. |
| OrderFacts.RefusedDeleteSignalsTwice | src/orders/orders.controller.js:116-122 | A refused delete is reported, and then `next()` is called anyway. |
| Dishes.FindDish | src/dishes/dishes.controller.js:7 | Finds no dish exactly when no stored dish has the route id (compared strictly). Otherwise finds the first stored dish that has it. |
| Dishes.DishExists | src/dishes/dishes.controller.js:5-14 | Passes exactly when some stored dish has the route id. Otherwise fails 404 with "Dish does not exist: <id>.". |
| Dishes.BodyDataHas | src/dishes/dishes.controller.js:16-34 | For price, passes exactly when the value is a positive number, and otherwise fails 400 with the price message. For other fields, passes exactly when the value is truthy, and otherwise fails 400 "Dish must include a F". A null data throws. |
| Dishes.IdsMatch | src/dishes/dishes.controller.js:57-66 | Passes when the body id is falsy. Otherwise passes exactly when the body id is the route id string itself, and fails 400 on a mismatch. A missing data throws. |
| Dishes.CreateStepsPass | src/dishes/dishes.controller.js:81-87 | The create steps all continue exactly when name, description and image_url are truthy and price is a positive number. |
| Dishes.Create | src/dishes/dishes.controller.js:44-55 | On an acceptable request, appends exactly one dish and replies 201 with it. The dish has the four copied fields and the fresh id, and earlier dishes are kept. Otherwise the collection is unchanged. |
| Dishes.UpdateStepsPass | src/dishes/dishes.controller.js:88-96 | The update steps all continue exactly when the ids agree and the create fields are acceptable. |
| Dishes.Update | src/dishes/dishes.controller.js:68-76 | An unknown id gets 404. An accepted update overwrites the four fields of the found dish only, and keeps its id and every other dish. A failed update leaves the collection unchanged. |
| Dishes.Read | src/dishes/dishes.controller.js:40-42 | Replies with the first dish that has the route id, or 404. Never changes the collection. |
| Dishes.BodyDataHasCalls | src/dishes/dishes.controller.js:16-34 | Every call `bodyDataHas` makes to `next` as written, in order. There is always at least one. |
| DishFacts.CreateReportsFirstFailure | src/dishes/dishes.controller.js:81-87 | Create reports the first failing check, in the order name, description, price, image_url. |
| DishFacts.UpdateReportsFirstFailure | src/dishes/dishes.controller.js:88-96 | Update checks existence, then the id, then name, description, price and image_url. A missing data throws at the id check. |
| DishFacts.FractionalPriceAccepted | src/dishes/dishes.controller.js:19-31 | Every positive non-integer price, such as 2.5, passes the price check. |
| DishFacts.NumericIdMatchesOnlyLoosely | src/dishes/dishes.controller.js:58-61 | A non-zero integer body id that spells the route id passes the orders' `==` check but fails the dishes' `===` check. A body id of 0 is falsy and passes both, since each step then uses the route id. |
| DishFacts.FractionalIdMatchesOnlyLoosely | src/dishes/dishes.controller.js:58-61 | A non-integer body id passes the orders' `==` check against its own spelling, when that spelling has no surrounding white space, but fails the dishes' `===` check. |
| DishFacts.CreateKeepsIdsDistinct | src/dishes/dishes.controller.js:46-53 | Creating with a fresh id keeps the stored ids distinct. |
| DishFacts.UpdateKeepsIds | src/dishes/dishes.controller.js:68-76 | No update changes any stored id, even when the body carries one. |
| DishFacts.CreateKeepsDishesValid | src/dishes/dishes.controller.js:81-87 | Create keeps every stored dish well formed: truthy name, description and image_url, and a positive price. |
| DishFacts.UpdateKeepsDishesValid | src/dishes/dishes.controller.js:88-96 | Update keeps every stored dish well formed. |
| DishFacts.CreateThenRead | src/dishes/dishes.controller.js:44-55 | Reading a just-created dish returns the submitted fields and the new id. |
| DishFacts.UpdateThenRead | src/dishes/dishes.controller.js:68-76 | Reading a dish after updating it returns the new field values and the old id. |
| DishFacts.BodyDataHasIsFirstCall | src/dishes/dishes.controller.js:16-34 | `Dishes.BodyDataHas` is the first call `bodyDataHas` makes to `next`, for every input. |
| DishFacts.PassingFieldSignalsTwice | src/dishes/dishes.controller.js:19-32 | Every field that passes, the price included, is followed by a call to `next` reporting it missing. |
| DishFacts.EveryCheckEndsWithMissing | src/dishes/dishes.controller.js:18-32 | Whenever `data` can be read, the last call `bodyDataHas` makes to `next` reports the field missing, whatever the earlier branches did. |

## Left out

- The `list` handlers (`src/orders/orders.controller.js:80-82`, `src/dishes/dishes.controller.js:36-38`) return the whole collection and change nothing. There is nothing to state about them beyond that.
- Express plumbing is left out: `req`, `res`, `res.locals`, `res.json`, `sendStatus` and route wiring. The application's error handler that turns a thrown error into a server-error response is not part of this model, and `Crash` becomes `ServerError`.
- What Express does after a step's second call to `next` (the "headers already sent" errors) is left out. The routes use each step's first call only.
- `nextId` is not part of this model. A new id is a parameter that must not already be in use.
- The data files that seed the collections are not part of this model. The initial collections are parameters, and stored ids are strings.
- Floating point is left out. A non-integer number is kept only as its printed spelling, with its sign read from a leading '-'. NaN and Infinity are not modelled.
- Js.LooseEqualsString: converts a string to a number only for integers written in decimal (sign, digits, surrounding white space, and blank as 0). Other spellings JavaScript accepts, such as "0x10", "1e1" and "1.0", are taken as not equal to any number. A non-integer body id is equal only to its own spelling. An object body id with its own `toString` or `valueOf` key is compared as "[object Object]".
- Js.IntLooselyEqualsItsSpelling: integers are exact here, while JavaScript numbers are doubles. Above 2^53 in magnitude, `Number(s)` rounds, so JavaScript calls `9007199254740992 == "9007199254740993"` true where the model (`Js.LooseEqualsString`, and through it `Orders.IdsMatch` and `DishFacts.NumericIdMatchesOnlyLoosely`) says false. `Js.IntToDecimal`, and so `Js.ToStr`, print integers from 10^21 on in plain digits, where JavaScript uses exponent notation ("1e+21"). Both differences affect only ids and quantities that large.
- Js.Prop: reads an object's own fields only. A JSON key that shadows an `Object.prototype` member is not treated specially.
- Orders.DishesOkCalls: its own contract says only that there is at least one call. Its first call is stated by `OrderFacts.DishesOkIsFirstCall`, and the sequence for an empty list, a non-array list and a bad quantity by `OrderFacts.EmptyDishListSignalsTwice`, `OrderFacts.NonArrayDishesSignalsTwice` and `OrderFacts.BadQuantitySignalsTwice`. No lemma states the sequence for an accepted list or a null line, where there is only one call.
- Orders.OkToDeleteCalls: its own contract says only that there is at least one call. Its first call is stated by `OrderFacts.OkToDeleteIsFirstCall`, and the sequence for every refused order by `OrderFacts.RefusedDeleteSignalsTwice`.
- Dishes.BodyDataHasCalls: its own contract says only that there is at least one call. Its first call is stated by `DishFacts.BodyDataHasIsFirstCall`, the sequence for every passing field by `DishFacts.PassingFieldSignalsTwice`, and its last call by `DishFacts.EveryCheckEndsWithMissing`.
- Concurrency is left out. Requests are handled one at a time.

## Findings

| source | as written | input that shows it | evidently intended | confidence | as-written member | corrected member |
|---|---|---|---|---|---|---|
| src/orders/orders.controller.js:29-45 | After reporting a missing dish list or a bad quantity, `dishesOk` does not return. It goes on to `findIndex` and then calls `next()`. | `{dishes: []}` gives `next({400})` and then `next()`. `{dishes: "pizza"}` gives `next({400})` and then a TypeError. | Return after the first `next(error)` | high, not executed | Orders.DishesOkCalls, OrderFacts.EmptyDishListSignalsTwice, OrderFacts.NonArrayDishesSignalsTwice, OrderFacts.BadQuantitySignalsTwice | Orders.DishesOk |
| src/orders/orders.controller.js:116-122 | After refusing a non-pending order, `okToDelete` still calls `next()`. | An order with status "preparing" gives `next({400})` and then `next()`. | Call `next()` only in an `else` | high, not executed | Orders.OkToDeleteCalls, OrderFacts.RefusedDeleteSignalsTwice | Orders.OkToDelete |
| src/dishes/dishes.controller.js:29-32 | The final `next({400, "Dish must include a F"})` runs after every branch, including the one that already called `next()`. | `{name: "Pizza"}` checked for `name` gives `next()` and then `next({400})`. | Report "missing" only when no branch has signalled | high, not executed | Dishes.BodyDataHasCalls, DishFacts.PassingFieldSignalsTwice | Dishes.BodyDataHas |
