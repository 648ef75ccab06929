/**
 Properties of the orders routes that relate several requests or quantify over all of them:
 which error a request gets, what the collection keeps, the status state machine, and
 request sequences such as create-then-read.
 */
module OrderFacts {
  import opened Js
  import opened Pipeline
  import opened Orders
  import Store

  // ---------------------------------------------------------------------------
  // Which failure is reported

  /** The create route reports the first failing check in the order deliverTo, mobileNumber,
      dishes, dish list, whatever is wrong further on. */
  lemma {:induction false} CreateReportsFirstFailure(orders: seq<Order>, data: JsVal, newId: string)
    requires newId !in Ids(orders)
    ensures data.Null? ==> Create(orders, data, newId).reply == ServerError
    ensures !data.Null? && !Truthy(Prop(data, "deliverTo")) ==>
              Create(orders, data, newId).reply == Error(400, MissingField("deliverTo"))
    ensures !data.Null? && Truthy(Prop(data, "deliverTo")) && !Truthy(Prop(data, "mobileNumber")) ==>
              Create(orders, data, newId).reply == Error(400, MissingField("mobileNumber"))
    ensures !data.Null? && Truthy(Prop(data, "deliverTo")) && Truthy(Prop(data, "mobileNumber"))
              && !Truthy(Prop(data, "dishes")) ==>
              Create(orders, data, newId).reply == Error(400, MissingField("dishes"))
    ensures !data.Null? && Truthy(Prop(data, "deliverTo")) && Truthy(Prop(data, "mobileNumber"))
              && Truthy(Prop(data, "dishes")) && !DishListOk(Prop(data, "dishes")) ==>
              Create(orders, data, newId).reply == ReplyTo(DishesOk(data))
  {
    var steps := CreateSteps(data);
    if data.Null? {
      assert FailsFirstAt(steps, 0);
    } else if !Truthy(Prop(data, "deliverTo")) {
      assert FailsFirstAt(steps, 0);
    } else if !Truthy(Prop(data, "mobileNumber")) {
      assert FailsFirstAt(steps, 1);
    } else if !Truthy(Prop(data, "dishes")) {
      assert FailsFirstAt(steps, 2);
    } else if !DishListOk(Prop(data, "dishes")) {
      assert FailsFirstAt(steps, 3);
    }
  }

  /** Once the order is found, the update route answers with the first signal of its remaining
      steps that does not continue. */
  lemma UpdateRepliesFirstFailure(orders: seq<Order>, orderId: string, data: JsVal)
    requires FindOrder(orders, orderId).Some?
    ensures var steps := UpdateSteps(orders[FindOrder(orders, orderId).value], orderId, data);
            !FirstFailure(steps).Continue? ==>
              Update(orders, orderId, data).reply == ReplyTo(FirstFailure(steps))
  {

  }

  /** The update route checks the body's fields in the order deliverTo, mobileNumber, dishes,
      dish list, and reports the first that fails, whatever is wrong further on. */
  lemma {:induction false} UpdateReportsMissingFieldFirst(orders: seq<Order>, orderId: string, data: JsVal)
    requires FindOrder(orders, orderId).Some?
    ensures data.Null? ==> Update(orders, orderId, data).reply == ServerError
    ensures !data.Null? && !Truthy(Prop(data, "deliverTo")) ==>
              Update(orders, orderId, data).reply == Error(400, MissingField("deliverTo"))
    ensures !data.Null? && Truthy(Prop(data, "deliverTo")) && !Truthy(Prop(data, "mobileNumber")) ==>
              Update(orders, orderId, data).reply == Error(400, MissingField("mobileNumber"))
    ensures !data.Null? && Truthy(Prop(data, "deliverTo")) && Truthy(Prop(data, "mobileNumber"))
              && !Truthy(Prop(data, "dishes")) ==>
              Update(orders, orderId, data).reply == Error(400, MissingField("dishes"))
    ensures !data.Null? && Truthy(Prop(data, "deliverTo")) && Truthy(Prop(data, "mobileNumber"))
              && Truthy(Prop(data, "dishes")) && !DishListOk(Prop(data, "dishes")) ==>
              Update(orders, orderId, data).reply == ReplyTo(DishesOk(data))
  {
    var order := orders[FindOrder(orders, orderId).value];
    var steps := UpdateSteps(order, orderId, data);
    UpdateRepliesFirstFailure(orders, orderId, data);
    if data.Null? {
      assert FailsFirstAt(steps, 0);
    } else if !Truthy(Prop(data, "deliverTo")) {
      assert FailsFirstAt(steps, 0);
    } else if !Truthy(Prop(data, "mobileNumber")) {
      assert FailsFirstAt(steps, 1);
    } else if !Truthy(Prop(data, "dishes")) {
      assert FailsFirstAt(steps, 2);
    } else if !DishListOk(Prop(data, "dishes")) {
      assert FailsFirstAt(steps, 3);
    }
  }

  /** With well-formed fields, the update route checks the status before the id. A delivered
      order answers "cannot be changed" whatever status or id is asked for. */
  lemma {:induction false} UpdateReportsStatusBeforeId(orders: seq<Order>, orderId: string, data: JsVal)
    requires FindOrder(orders, orderId).Some?
    requires CreateAccepted(data)
    ensures var order := orders[FindOrder(orders, orderId).value];
            IsDelivered(order) ==> Update(orders, orderId, data).reply == Error(400, DeliveredIsFinal)
    ensures var order := orders[FindOrder(orders, orderId).value];
            !IsDelivered(order) && !IsStatusLabel(Prop(data, "status")) ==>
              Update(orders, orderId, data).reply == Error(400, BadStatus)
    ensures var order := orders[FindOrder(orders, orderId).value];
            !IsDelivered(order) && IsStatusLabel(Prop(data, "status"))
            && Truthy(Prop(data, "id")) && !LooseEqualsString(Prop(data, "id"), orderId) ==>
              Update(orders, orderId, data).reply == Error(400, IdMismatch(Prop(data, "id"), orderId))
  {
    var order := orders[FindOrder(orders, orderId).value];
    var steps := UpdateSteps(order, orderId, data);
    UpdateRepliesFirstFailure(orders, orderId, data);
    assert steps[0].Continue? && steps[1].Continue? && steps[2].Continue? && steps[3].Continue?;
    if IsDelivered(order) || !IsStatusLabel(Prop(data, "status")) {
      assert FailsFirstAt(steps, 4);
    } else if Truthy(Prop(data, "id")) && !LooseEqualsString(Prop(data, "id"), orderId) {
      assert FailsFirstAt(steps, 5);
    }
  }

  // ---------------------------------------------------------------------------
  // Ids

  /** Creating with a fresh id keeps the ids distinct. */
  lemma CreateKeepsIdsDistinct(orders: seq<Order>, data: JsVal, newId: string)
    requires newId !in Ids(orders)
    requires Store.Distinct(Ids(orders))
    ensures Store.Distinct(Ids(Create(orders, data, newId).store))
  {

  }

  /** Update never changes any id. */
  lemma UpdateKeepsIds(orders: seq<Order>, orderId: string, data: JsVal)
    ensures Ids(Update(orders, orderId, data).store) == Ids(orders)
  {
  }

  /** Delete keeps the ids distinct. */
  lemma DeleteKeepsIdsDistinct(orders: seq<Order>, orderId: string)
    requires Store.Distinct(Ids(orders))
    ensures Store.Distinct(Ids(Delete(orders, orderId).store))
  {

  }

  // ---------------------------------------------------------------------------
  // Stored orders stay well formed

  /** What every order that went through the routes satisfies. */
  predicate ValidOrder(o: Order) {
    && Truthy(o.deliverTo)
    && Truthy(o.mobileNumber)
    && DishListOk(o.dishes)
    && (o.status == Undefined || IsStatusLabel(o.status))
  }

  predicate AllValid(orders: seq<Order>) {
    forall i :: 0 <= i < |orders| ==> ValidOrder(orders[i])
  }

  /** Create keeps every stored order well formed. */
  lemma CreateKeepsOrdersValid(orders: seq<Order>, data: JsVal, newId: string)
    requires newId !in Ids(orders)
    requires AllValid(orders)
    ensures AllValid(Create(orders, data, newId).store)
  {

  }

  /** Update keeps every stored order well formed. */
  lemma UpdateKeepsOrdersValid(orders: seq<Order>, orderId: string, data: JsVal)
    requires AllValid(orders)
    ensures AllValid(Update(orders, orderId, data).store)
  {

  }

  /** Delete keeps every stored order well formed. */
  lemma DeleteKeepsOrdersValid(orders: seq<Order>, orderId: string)
    requires AllValid(orders)
    ensures AllValid(Delete(orders, orderId).store)
  {

  }

  // ---------------------------------------------------------------------------
  // The status state machine

  /** `delivered` is terminal: no update or delete request changes or removes a delivered
      order. */
  lemma DeliveredOrderIsFinal(orders: seq<Order>, orderId: string, data: JsVal, i: nat)
    requires i < |orders| && IsDelivered(orders[i])
    ensures Update(orders, orderId, data).store[i] == orders[i]
    ensures orders[i] in Delete(orders, orderId).store
  {

  }

  /** A successful update leaves a status that is one of the four labels. */
  lemma UpdateSetsLabel(orders: seq<Order>, orderId: string, data: JsVal)
    requires Update(orders, orderId, data).reply.Json?
    ensures IsStatusLabel(Update(orders, orderId, data).reply.data.status)
  {
  }

  /** A freshly created order has no status, so it cannot be deleted: only an order whose
      status is exactly "pending" can. */
  lemma {:induction false} NewOrderCannotBeDeleted(orders: seq<Order>, data: JsVal, newId: string)
    requires newId !in Ids(orders)
    requires CreateAccepted(data)
    ensures var store := Create(orders, data, newId).store;
            Delete(store, newId) == Outcome(store, Error(400, NotPending))
  {
    var store := Create(orders, data, newId).store;
    assert store[|orders|].id == newId;
    assert forall j :: 0 <= j < |orders| ==> store[j].id == Ids(orders)[j];
    assert FindOrder(store, newId).value == |orders|;
  }

  // ---------------------------------------------------------------------------
  // Request sequences

  /** After a successful delete the order can no longer be read (ids being distinct). */
  lemma DeletedOrderIsGone(orders: seq<Order>, orderId: string)
    requires Store.Distinct(Ids(orders))
    requires Delete(orders, orderId).reply == NoContent
    ensures Read(Delete(orders, orderId).store, orderId).reply == Error(404, NotFound(orderId))
  {

  }

  /** Reading a just-created order returns it as created. */
  lemma {:induction false} CreateThenRead(orders: seq<Order>, data: JsVal, newId: string)
    requires newId !in Ids(orders)
    requires CreateAccepted(data)
    ensures var out := Create(orders, data, newId);
            Read(out.store, newId).reply == Json(200, out.reply.data)
  {
    var store := Create(orders, data, newId).store;
    assert store[|orders|].id == newId;
    assert forall j :: 0 <= j < |orders| ==> store[j].id == Ids(orders)[j];
    assert FindOrder(store, newId).value == |orders|;
  }

  /** Reading an order after a successful update returns the new field values and the old id. */
  lemma UpdateThenRead(orders: seq<Order>, orderId: string, data: JsVal)
    requires Update(orders, orderId, data).reply.Json?
    ensures var out := Update(orders, orderId, data);
            && Read(out.store, orderId).reply == Json(200, out.reply.data)
            && out.reply.data.id == orderId
            && out.reply.data.deliverTo == Prop(data, "deliverTo")
            && out.reply.data.status == Prop(data, "status")
  {

  }

  // ---------------------------------------------------------------------------
  // The steps' first signals against the signals as written

  /** `DishesOk` is the first signal `dishesOk` gives. */
  lemma DishesOkIsFirstCall(data: JsVal)
    ensures DishesOkCalls(data)[0] == DishesOk(data)
  {
  }

  /** An empty dish list is reported, and then `next()` is called anyway. */
  lemma EmptyDishListSignalsTwice(data: JsVal)
    requires !Nullish(data) && Prop(data, "dishes") == Arr([])
    ensures DishesOkCalls(data) == [Fail(400, NoDishes), Continue]
  {
  }

  /** A dish list that is not an array is reported, and then `findIndex` throws. */
  lemma NonArrayDishesSignalsTwice(data: JsVal)
    requires !Nullish(data) && !Prop(data, "dishes").Arr?
    ensures DishesOkCalls(data) == [Fail(400, NoDishes), Crash]
  {
  }

  /** A bad quantity is reported with its index, and then `next()` is called anyway. */
  lemma BadQuantitySignalsTwice(data: JsVal, i: int)
    requires !Nullish(data) && Prop(data, "dishes").Arr?
    requires FirstBadLineAt(Prop(data, "dishes").items, i)
    requires !Nullish(Prop(data, "dishes").items[i])
    ensures DishesOkCalls(data) == [Fail(400, BadQuantity(i)), Continue]
  {
    var items := Prop(data, "dishes").items;
    assert forall k :: FirstBadLineAt(items, k) ==> k == i;
  }

  /** `OkToDelete` is the first signal `okToDelete` gives. */
  lemma OkToDeleteIsFirstCall(order: Order)
    ensures OkToDeleteCalls(order)[0] == OkToDelete(order)
  {
  }

  /** A refused delete is reported, and then `next()` is called anyway. */
  lemma RefusedDeleteSignalsTwice(order: Order)
    requires order.status != Str("pending")
    ensures OkToDeleteCalls(order) == [Fail(400, NotPending), Continue]
  {
  }
}
