/**
 The orders controller: its validation steps, its handlers, and the three routes that chain
 them (create, update, delete), plus read.

 A step is modelled by the FIRST signal it gives. `dishesOk` and `okToDelete` go on running
 after reporting an error and signal a second time; that behaviour is modelled separately
 by `DishesOkCalls` and `OkToDeleteCalls`.
 */
module Orders {
  import opened Optional
  import opened Js
  import opened Pipeline
  import Store

  /** A stored order. Apart from the server-assigned id, every field holds whatever JSON value
      the request supplied; a freshly created order has no `status` (Undefined). */
  datatype Order = Order(id: string, deliverTo: JsVal, mobileNumber: JsVal, status: JsVal, dishes: JsVal)

  function Ids(orders: seq<Order>): (ids: seq<string>)
    ensures |ids| == |orders|
    ensures forall i :: 0 <= i < |orders| ==> ids[i] == orders[i].id
  {
    seq(|orders|, i requires 0 <= i < |orders| => orders[i].id)
  }

  // ---------------------------------------------------------------------------
  // Messages

  function MissingField(field: string): string {
    "Order must include a " + field
  }

  const NoDishes := "Order must include at least one dish"

  function BadQuantity(index: nat): string {
    "Dish " + IntToDecimal(index) + " must have a quantity that is an integer greater than 0"
  }

  const DeliveredIsFinal := "A delivered order cannot be changed"

  const BadStatus := "Order must have a status of pending, preparing, out-for-delivery, delivered"

  function IdMismatch(id: JsVal, orderId: string): string {
    "Order id does not match routeid. Dish: " + ToStr(id) + ", Route: " + orderId
  }

  function NotFound(orderId: string): string {
    "Order does not exist: " + orderId + "."
  }

  const NotPending := "An order cannot be deleted unless it is pending."

  // ---------------------------------------------------------------------------
  // orderExists

  /** The order `orderExists` attaches: the first whose id equals the route id. Stored ids are
      strings, so the loose `==` of the lookup is plain string equality. */
  function FindOrder(orders: seq<Order>, orderId: string): (r: Option<nat>)
    ensures r.None? <==> forall i :: 0 <= i < |orders| ==> orders[i].id != orderId
    ensures r.Some? ==> r.value < |orders| && orders[r.value].id == orderId
    ensures r.Some? ==> forall j :: 0 <= j < r.value ==> orders[j].id != orderId
  {
    Store.IndexOf(Ids(orders), orderId)
  }

  function OrderExists(orders: seq<Order>, orderId: string): (r: Signal)
    ensures r.Continue? <==> exists i :: 0 <= i < |orders| && orders[i].id == orderId
    ensures !r.Continue? ==> r == Fail(404, NotFound(orderId))
  {
    if FindOrder(orders, orderId).Some? then Continue else Fail(404, NotFound(orderId))
  }

  // ---------------------------------------------------------------------------
  // bodyDataHas

  /** `bodyDataHas(field)`. A missing `data` defaults to `{}`; a `null` one makes the property
      read throw. */
  function BodyDataHas(field: string, data: JsVal): (r: Signal)
    ensures r.Continue? <==> !data.Null? && Truthy(Prop(data, field))
    ensures data.Null? ==> r == Crash
    ensures !data.Null? && !r.Continue? ==> r == Fail(400, MissingField(field))
  {
    var body := if data.Undefined? then Obj(map[]) else data;
    if body.Null? then Crash
    else if Truthy(Prop(body, field)) then Continue
    else Fail(400, MissingField(field))
  }

  // ---------------------------------------------------------------------------
  // dishesOk

  /** The `findIndex` test on one line item's quantity:
      `!q || q <= 0 || !Number.isInteger(q)`. For a value that is not a number the middle
      comparison is never decisive (`Number.isInteger` already rejects it), so it is taken
      only on numbers. */
  predicate QuantityRejected(q: JsVal)
    ensures QuantityRejected(q) <==> !IsPositiveInteger(q)
  {
    !Truthy(q) || (IsNumber(q) && !IsPositiveNumber(q)) || !q.Int?
  }

  /** A line item `dishesOk` accepts. */
  predicate LineOk(line: JsVal) {
    !Nullish(line) && IsPositiveInteger(Prop(line, "quantity"))
  }

  /** A dish list `dishesOk` accepts: a non-empty array whose every quantity is a positive integer. */
  predicate DishListOk(dishes: JsVal) {
    dishes.Arr? && |dishes.items| > 0 && forall i :: 0 <= i < |dishes.items| ==> LineOk(dishes.items[i])
  }

  /** The line at index `i` is the first one `dishesOk` does not accept. */
  predicate FirstBadLineAt(items: seq<JsVal>, i: int) {
    0 <= i < |items| && !LineOk(items[i]) && forall j :: 0 <= j < i ==> LineOk(items[j])
  }

  /** Where `findIndex` stops: the first line that is undefined or null (reading its quantity
      throws) or whose quantity is rejected. */
  function FirstStop(items: seq<JsVal>): (r: Option<nat>)
    ensures r.None? <==> forall i :: 0 <= i < |items| ==> LineOk(items[i])
    ensures r.Some? ==> FirstBadLineAt(items, r.value)
  {
    if |items| == 0 then None
    else if Nullish(items[0]) || QuantityRejected(Prop(items[0], "quantity")) then Some(0)
    else
      match FirstStop(items[1..])
      case None => None
      case Some(k) => Some(k + 1)
  }

  /** `dishesOk`, by its first signal. */
  function DishesOk(data: JsVal): (r: Signal)
    ensures Nullish(data) ==> r == Crash
    ensures r.Continue? <==> !Nullish(data) && DishListOk(Prop(data, "dishes"))
    ensures !Nullish(data) && !(Prop(data, "dishes").Arr? && |Prop(data, "dishes").items| > 0) ==>
              r == Fail(400, NoDishes)
    ensures !Nullish(data) && Prop(data, "dishes").Arr? ==>
              forall i :: FirstBadLineAt(Prop(data, "dishes").items, i) ==>
                r == if Nullish(Prop(data, "dishes").items[i]) then Crash else Fail(400, BadQuantity(i))
  {
    if Nullish(data) then Crash
    else
      var dishes := Prop(data, "dishes");
      if !dishes.Arr? || |dishes.items| == 0 then Fail(400, NoDishes)
      else
        match FirstStop(dishes.items)
        case None => Continue
        case Some(i) =>
          assert forall k :: FirstBadLineAt(dishes.items, k) ==> k == i;
          if Nullish(dishes.items[i]) then Crash else Fail(400, BadQuantity(i))
  }

  // ---------------------------------------------------------------------------
  // checkReqStatus

  /** The labels of `validStatus`. */
  const Statuses: seq<string> := ["pending", "preparing", "out-for-delivery", "delivered"]

  /** A requested status `validStatus.includes` accepts: one of the four label strings. */
  predicate IsStatusLabel(v: JsVal) {
    v.Str? && v.s in Statuses
  }

  /** `order.status == "delivered"`, compared loosely as the source does. */
  predicate IsDelivered(order: Order) {
    LooseEqualsString(order.status, "delivered")
  }

  /** `checkReqStatus`: a delivered order refuses every change; any other order accepts
      exactly the four labels as its new status. */
  function CheckReqStatus(order: Order, data: JsVal): (r: Signal)
    ensures Nullish(data) ==> r == Crash
    ensures !Nullish(data) && IsDelivered(order) ==> r == Fail(400, DeliveredIsFinal)
    ensures !Nullish(data) && !IsDelivered(order) ==>
              (r.Continue? <==> IsStatusLabel(Prop(data, "status")))
    ensures !Nullish(data) && !IsDelivered(order) && !r.Continue? ==> r == Fail(400, BadStatus)
  {
    if Nullish(data) then Crash
    else
      var requested := Prop(data, "status");
      var status := if Truthy(requested) then requested else Str("");
      if Truthy(status) && !IsDelivered(order) && IsStatusLabel(status) then Continue
      else if IsDelivered(order) then Fail(400, DeliveredIsFinal)
      else Fail(400, BadStatus)
  }

  // ---------------------------------------------------------------------------
  // idsMatch

  /** `idsMatch`: a falsy body id is replaced by the route id; otherwise the body id must be
      loosely equal to the route id. */
  function IdsMatch(orderId: string, data: JsVal): (r: Signal)
    ensures Nullish(data) ==> r == Crash
    ensures !Nullish(data) ==>
              (r.Continue? <==> !Truthy(Prop(data, "id")) || LooseEqualsString(Prop(data, "id"), orderId))
    ensures !Nullish(data) && !r.Continue? ==> r == Fail(400, IdMismatch(Prop(data, "id"), orderId))
  {
    if Nullish(data) then Crash
    else
      var given := Prop(data, "id");
      var id := if Truthy(given) then given else Str(orderId);
      if !LooseEqualsString(id, orderId) then Fail(400, IdMismatch(id, orderId)) else Continue
  }

  // ---------------------------------------------------------------------------
  // okToDelete and destroy

  /** `okToDelete`, by its first signal: only an order whose status is exactly the string
      "pending" may be deleted. */
  function OkToDelete(order: Order): (r: Signal)
    ensures r.Continue? <==> order.status == Str("pending")
    ensures !r.Continue? ==> r == Fail(400, NotPending)
  {
    if order.status != Str("pending") then Fail(400, NotPending) else Continue
  }

  /** `destroy`: splice out the first order whose id equals the route id. When there is none,
      `findIndex` yields -1 and the splice removes the LAST order instead. */
  function Destroy(orders: seq<Order>, orderId: string): (r: seq<Order>)
    ensures FindOrder(orders, orderId).Some? ==>
              var i := FindOrder(orders, orderId).value;
              |r| == |orders| - 1 && r == orders[..i] + orders[i + 1..]
    ensures FindOrder(orders, orderId).None? && |orders| > 0 ==> r == orders[..|orders| - 1]
    ensures |orders| == 0 ==> r == []
  {
    var index := match FindOrder(orders, orderId) case Some(i) => i as int case None => -1;
    Store.SpliceOne(orders, index)
  }

  // ---------------------------------------------------------------------------
  // Handlers

  /** The order `create` builds. */
  function NewOrder(data: JsVal, id: string): Order
    requires !Nullish(data)
  {
    Order(id, Prop(data, "deliverTo"), Prop(data, "mobileNumber"), Undefined, Prop(data, "dishes"))
  }

  /** The order `update` leaves behind: four fields overwritten, the id kept. */
  function Updated(order: Order, data: JsVal): Order
    requires !Nullish(data)
  {
    order.(deliverTo := Prop(data, "deliverTo"), mobileNumber := Prop(data, "mobileNumber"),
           status := Prop(data, "status"), dishes := Prop(data, "dishes"))
  }

  // ---------------------------------------------------------------------------
  // Routes

  /** What the create route accepts. */
  predicate CreateAccepted(data: JsVal) {
    && !Nullish(data)
    && Truthy(Prop(data, "deliverTo"))
    && Truthy(Prop(data, "mobileNumber"))
    && DishListOk(Prop(data, "dishes"))
  }

  /** The create route's steps, in order. */
  function CreateSteps(data: JsVal): seq<Signal> {
    [BodyDataHas("deliverTo", data), BodyDataHas("mobileNumber", data),
     BodyDataHas("dishes", data), DishesOk(data)]
  }

  /** POST /orders. `newId` stands for `nextId()`: any id not already in use. */
  function Create(orders: seq<Order>, data: JsVal, newId: string): (out: Outcome<Order>)
    requires newId !in Ids(orders)
    ensures out.reply.Json? <==> CreateAccepted(data)
    ensures out.reply.Json? ==>
              && out.reply.code == 201
              && out.store == orders + [out.reply.data]
              && out.reply.data.id == newId
              && out.reply.data.deliverTo == Prop(data, "deliverTo")
              && out.reply.data.mobileNumber == Prop(data, "mobileNumber")
              && out.reply.data.dishes == Prop(data, "dishes")
              && out.reply.data.status == Undefined
    ensures !out.reply.Json? ==> out.store == orders && (out.reply.Error? || out.reply.ServerError?)
  {
    var s := FirstFailure(CreateSteps(data));
    CreateStepsPass(data);
    if s.Continue? then
      var order := NewOrder(data, newId);
      Outcome(orders + [order], Json(201, order))
    else
      Outcome(orders, ReplyTo(s))
  }

  /** The create steps all continue exactly when the request is acceptable. */
  lemma CreateStepsPass(data: JsVal)
    ensures FirstFailure(CreateSteps(data)).Continue? <==> CreateAccepted(data)
  {
    var steps := CreateSteps(data);
    if FirstFailure(steps).Continue? {
      assert steps[0].Continue? && steps[1].Continue? && steps[3].Continue?;
    }
    if CreateAccepted(data) {
      assert forall k :: 0 <= k < 4 ==> steps[k].Continue?;
    }
  }

  /** What the update route accepts, once the order has been found. */
  predicate UpdateAccepted(order: Order, orderId: string, data: JsVal) {
    && CreateAccepted(data)
    && !IsDelivered(order)
    && IsStatusLabel(Prop(data, "status"))
    && (!Truthy(Prop(data, "id")) || LooseEqualsString(Prop(data, "id"), orderId))
  }

  /** The update route's steps after `orderExists`, in order. */
  function UpdateSteps(order: Order, orderId: string, data: JsVal): seq<Signal> {
    [BodyDataHas("deliverTo", data), BodyDataHas("mobileNumber", data),
     BodyDataHas("dishes", data), DishesOk(data), CheckReqStatus(order, data), IdsMatch(orderId, data)]
  }

  /** PUT /orders/:orderId */
  function Update(orders: seq<Order>, orderId: string, data: JsVal): (out: Outcome<Order>)
    ensures FindOrder(orders, orderId).None? ==> out == Outcome(orders, Error(404, NotFound(orderId)))
    ensures out.reply.Json? <==>
              FindOrder(orders, orderId).Some?
              && UpdateAccepted(orders[FindOrder(orders, orderId).value], orderId, data)
    ensures out.reply.Json? ==>
              var i := FindOrder(orders, orderId).value;
              && out.reply.code == 200
              && |out.store| == |orders|
              && out.store[i] == out.reply.data
              && out.store[i].id == orders[i].id
              && out.store[i].deliverTo == Prop(data, "deliverTo")
              && out.store[i].mobileNumber == Prop(data, "mobileNumber")
              && out.store[i].status == Prop(data, "status")
              && out.store[i].dishes == Prop(data, "dishes")
              && forall j :: 0 <= j < |orders| && j != i ==> out.store[j] == orders[j]
    ensures !out.reply.Json? ==> out.store == orders && (out.reply.Error? || out.reply.ServerError?)
  {
    match FindOrder(orders, orderId)
    case None => Outcome(orders, Error(404, NotFound(orderId)))
    case Some(i) =>
      var s := FirstFailure(UpdateSteps(orders[i], orderId, data));
      UpdateStepsPass(orders[i], orderId, data);
      if s.Continue? then
        var order := Updated(orders[i], data);
        Outcome(orders[i := order], Json(200, order))
      else
        Outcome(orders, ReplyTo(s))
  }

  /** The update steps all continue exactly when the request is acceptable. */
  lemma UpdateStepsPass(order: Order, orderId: string, data: JsVal)
    ensures FirstFailure(UpdateSteps(order, orderId, data)).Continue? <==> UpdateAccepted(order, orderId, data)
  {
    var steps := UpdateSteps(order, orderId, data);
    var fields := steps[0].Continue? && steps[1].Continue? && steps[2].Continue? && steps[3].Continue?;
    assert fields <==> CreateAccepted(data);
    assert FirstFailure(steps).Continue? <==> fields && steps[4].Continue? && steps[5].Continue? by {
      if fields && steps[4].Continue? && steps[5].Continue? {
        assert forall k :: 0 <= k < 6 ==> steps[k].Continue?;
      }
    }
  }

  /** DELETE /orders/:orderId */
  function Delete(orders: seq<Order>, orderId: string): (out: Outcome<Order>)
    ensures FindOrder(orders, orderId).None? ==> out == Outcome(orders, Error(404, NotFound(orderId)))
    ensures FindOrder(orders, orderId).Some? ==>
              var i := FindOrder(orders, orderId).value;
              if orders[i].status == Str("pending") then
                && out.reply == NoContent
                && |out.store| == |orders| - 1
                && out.store == orders[..i] + orders[i + 1..]
              else
                out == Outcome(orders, Error(400, NotPending))
  {
    match FindOrder(orders, orderId)
    case None => Outcome(orders, Error(404, NotFound(orderId)))
    case Some(i) =>
      var s := OkToDelete(orders[i]);
      if s.Continue? then Outcome(Destroy(orders, orderId), NoContent)
      else Outcome(orders, ReplyTo(s))
  }

  /** GET /orders/:orderId */
  function Read(orders: seq<Order>, orderId: string): (out: Outcome<Order>)
    ensures out.store == orders
    ensures FindOrder(orders, orderId).None? ==> out.reply == Error(404, NotFound(orderId))
    ensures FindOrder(orders, orderId).Some? ==>
              out.reply == Json(200, orders[FindOrder(orders, orderId).value])
  {
    match FindOrder(orders, orderId)
    case None => Outcome(orders, Error(404, NotFound(orderId)))
    case Some(i) => Outcome(orders, Json(200, orders[i]))
  }

  // ---------------------------------------------------------------------------
  // The signals as written

  /** Every signal `dishesOk` gives, in order. It does not return after reporting a missing
      dish list: it goes on to call `findIndex` (which throws when the dishes are not an
      array) and then `next()`; after reporting a bad quantity it also calls `next()`. */
  function DishesOkCalls(data: JsVal): (calls: seq<Signal>)
    ensures |calls| >= 1
  {
    if Nullish(data) then [Crash]
    else
      var dishes := Prop(data, "dishes");
      var first := if !dishes.Arr? || |dishes.items| == 0 then [Fail(400, NoDishes)] else [];
      if !dishes.Arr? then first + [Crash]
      else
        match FirstStop(dishes.items)
        case None => first + [Continue]
        case Some(i) =>
          if Nullish(dishes.items[i]) then first + [Crash]
          else first + [Fail(400, BadQuantity(i)), Continue]
  }

  /** Every signal `okToDelete` gives, in order: after refusing it still calls `next()`. */
  function OkToDeleteCalls(order: Order): (calls: seq<Signal>)
    ensures |calls| >= 1
  {
    if order.status != Str("pending") then [Fail(400, NotPending), Continue] else [Continue]
  }
}
