/**
 Properties of the dishes routes that relate several requests or quantify over all of them:
 which error a request gets, what the collection keeps, and request sequences such as
 create-then-read.
 */
module DishFacts {
  import opened Js
  import opened Pipeline
  import opened Dishes
  import Orders
  import Store

  // ---------------------------------------------------------------------------
  // Which failure is reported

  /** The create route reports the first failing check in the order name, description,
      price, image_url, whatever is wrong further on. */
  lemma {:induction false} CreateReportsFirstFailure(dishes: seq<Dish>, data: JsVal, newId: string)
    requires newId !in Ids(dishes)
    ensures var reply := Create(dishes, data, newId).reply;
            && (data.Null? ==> reply == ServerError)
            && (!data.Null? && !Truthy(Prop(data, "name")) ==> reply == Error(400, MissingField("name")))
            && (!data.Null? && Truthy(Prop(data, "name")) && !Truthy(Prop(data, "description")) ==>
                  reply == Error(400, MissingField("description")))
            && (!data.Null? && Truthy(Prop(data, "name")) && Truthy(Prop(data, "description"))
                && !IsPositiveNumber(Prop(data, "price")) ==>
                  reply == Error(400, BadPrice))
            && (!data.Null? && Truthy(Prop(data, "name")) && Truthy(Prop(data, "description"))
                && IsPositiveNumber(Prop(data, "price")) && !Truthy(Prop(data, "image_url")) ==>
                  reply == Error(400, MissingField("image_url")))
  {
    var steps := CreateSteps(data);
    if data.Null? || !Truthy(Prop(data, "name")) {
      assert FailsFirstAt(steps, 0);
    } else if !Truthy(Prop(data, "description")) {
      assert FailsFirstAt(steps, 1);
    } else if !IsPositiveNumber(Prop(data, "price")) {
      assert FailsFirstAt(steps, 2);
    } else if !Truthy(Prop(data, "image_url")) {
      assert FailsFirstAt(steps, 3);
    }
  }

  /** The update route reports the first failing check in the order existence, id, name,
      description, price, image_url. Because the id check reads `req.body.data.id` before
      any field check, a request without `data` throws instead of being answered 400. */
  lemma {:induction false} UpdateReportsFirstFailure(dishes: seq<Dish>, dishId: string, data: JsVal)
    requires FindDish(dishes, dishId).Some?
    ensures var reply := Update(dishes, dishId, data).reply;
            && (Nullish(data) ==> reply == ServerError)
            && (!Nullish(data) && Truthy(Prop(data, "id")) && Prop(data, "id") != Str(dishId) ==>
                  reply == Error(400, IdMismatch(Prop(data, "id"), dishId)))
            && (!Nullish(data) && (!Truthy(Prop(data, "id")) || Prop(data, "id") == Str(dishId)) ==>
                  && (!Truthy(Prop(data, "name")) ==> reply == Error(400, MissingField("name")))
                  && (Truthy(Prop(data, "name")) && !Truthy(Prop(data, "description")) ==>
                        reply == Error(400, MissingField("description")))
                  && (Truthy(Prop(data, "name")) && Truthy(Prop(data, "description"))
                      && !IsPositiveNumber(Prop(data, "price")) ==>
                        reply == Error(400, BadPrice))
                  && (Truthy(Prop(data, "name")) && Truthy(Prop(data, "description"))
                      && IsPositiveNumber(Prop(data, "price")) && !Truthy(Prop(data, "image_url")) ==>
                        reply == Error(400, MissingField("image_url"))))
  {
    var steps := UpdateSteps(dishId, data);
    if Nullish(data) || (Truthy(Prop(data, "id")) && Prop(data, "id") != Str(dishId)) {
      assert FailsFirstAt(steps, 0);
    } else if !Truthy(Prop(data, "name")) {
      assert FailsFirstAt(steps, 1);
    } else if !Truthy(Prop(data, "description")) {
      assert FailsFirstAt(steps, 2);
    } else if !IsPositiveNumber(Prop(data, "price")) {
      assert FailsFirstAt(steps, 3);
    } else if !Truthy(Prop(data, "image_url")) {
      assert FailsFirstAt(steps, 4);
    }
  }

  /** The price check lets through any positive number, integer or not: a non-integer price
      passes whenever it is not negative. */
  lemma FractionalPriceAccepted(data: JsVal, t: string)
    requires !data.Null? && Prop(data, "price") == Frac(t) && !(|t| > 0 && t[0] == '-')
    ensures BodyDataHas("price", data) == Continue
  {
  }

  // ---------------------------------------------------------------------------
  // Strict against loose id comparison

  /** A non-zero integer body id that spells the route id passes the orders' loose id check but
      fails the dishes' strict one. (A body id of 0 is falsy, so both steps replace it with the
      route id and pass.) */
  lemma NumericIdMatchesOnlyLoosely(i: int)
    requires i != 0
    ensures var data := Obj(map["id" := Int(i)]);
            && Orders.IdsMatch(IntToDecimal(i), data) == Continue
            && Dishes.IdsMatch(IntToDecimal(i), data) == Fail(400, IdMismatch(Int(i), IntToDecimal(i)))
  {

  }

  /** The same holds for a non-integer body id against its own spelling, when that spelling
      has no surrounding white space for `Number` to trim. */
  lemma FractionalIdMatchesOnlyLoosely(t: string)
    requires |t| > 0 && !IsJsSpace(t[0]) && !IsJsSpace(t[|t| - 1])
    ensures var data := Obj(map["id" := Frac(t)]);
            && Orders.IdsMatch(t, data) == Continue
            && Dishes.IdsMatch(t, data) == Fail(400, IdMismatch(Frac(t), t))
  {
    assert TrimStart(t) == t;
    assert TrimEnd(t) == t;
  }

  // ---------------------------------------------------------------------------
  // Ids

  /** Creating with a fresh id keeps the ids distinct. */
  lemma CreateKeepsIdsDistinct(dishes: seq<Dish>, data: JsVal, newId: string)
    requires newId !in Ids(dishes)
    requires Store.Distinct(Ids(dishes))
    ensures Store.Distinct(Ids(Create(dishes, data, newId).store))
  {

  }

  /** Update never changes any id, even when the body carries one. */
  lemma UpdateKeepsIds(dishes: seq<Dish>, dishId: string, data: JsVal)
    ensures Ids(Update(dishes, dishId, data).store) == Ids(dishes)
  {
  }

  // ---------------------------------------------------------------------------
  // Stored dishes stay well formed

  /** What every dish that went through the routes satisfies. */
  predicate ValidDish(d: Dish) {
    Truthy(d.name) && Truthy(d.description) && IsPositiveNumber(d.price) && Truthy(d.imageUrl)
  }

  predicate AllValid(dishes: seq<Dish>) {
    forall i :: 0 <= i < |dishes| ==> ValidDish(dishes[i])
  }

  /** Create keeps every stored dish well formed. */
  lemma CreateKeepsDishesValid(dishes: seq<Dish>, data: JsVal, newId: string)
    requires newId !in Ids(dishes)
    requires AllValid(dishes)
    ensures AllValid(Create(dishes, data, newId).store)
  {

  }

  /** Update keeps every stored dish well formed. */
  lemma UpdateKeepsDishesValid(dishes: seq<Dish>, dishId: string, data: JsVal)
    requires AllValid(dishes)
    ensures AllValid(Update(dishes, dishId, data).store)
  {

  }

  // ---------------------------------------------------------------------------
  // Request sequences

  /** Reading a just-created dish returns the submitted fields and the new id. */
  lemma {:induction false} CreateThenRead(dishes: seq<Dish>, data: JsVal, newId: string)
    requires newId !in Ids(dishes)
    requires CreateAccepted(data)
    ensures var out := Create(dishes, data, newId);
            Read(out.store, newId).reply == Json(200, Dish(newId, Prop(data, "name"),
              Prop(data, "description"), Prop(data, "price"), Prop(data, "image_url")))
  {
    var store := Create(dishes, data, newId).store;
    assert store[|dishes|].id == newId;
    assert forall j :: 0 <= j < |dishes| ==> store[j].id == Ids(dishes)[j];
    assert FindDish(store, newId).value == |dishes|;
  }

  /** Reading a dish after a successful update returns the new field values and the old id. */
  lemma UpdateThenRead(dishes: seq<Dish>, dishId: string, data: JsVal)
    requires Update(dishes, dishId, data).reply.Json?
    ensures var out := Update(dishes, dishId, data);
            Read(out.store, dishId).reply == Json(200, Dish(dishId, Prop(data, "name"),
              Prop(data, "description"), Prop(data, "price"), Prop(data, "image_url")))
  {

  }

  // ---------------------------------------------------------------------------
  // The step's first signal against the signals as written

  /** `BodyDataHas` is the first signal `bodyDataHas` gives. */
  lemma BodyDataHasIsFirstCall(field: string, data: JsVal)
    ensures BodyDataHasCalls(field, data)[0] == BodyDataHas(field, data)
  {
  }

  /** A field that passes, the price included, is followed by a report that it is missing. */
  lemma PassingFieldSignalsTwice(field: string, data: JsVal)
    requires BodyDataHas(field, data) == Continue
    ensures BodyDataHasCalls(field, data) == [Continue, Fail(400, MissingField(field))]
  {
  }

  /** Whatever the field's value, once `data` can be read the last signal reports the field
      missing. */
  lemma EveryCheckEndsWithMissing(field: string, data: JsVal)
    requires !data.Null?
    ensures var calls := BodyDataHasCalls(field, data);
            calls[|calls| - 1] == Fail(400, MissingField(field))
  {
  }
}
