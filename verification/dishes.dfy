/**
 The dishes controller: its validation steps, its handlers, and the create and update routes
 that chain them, plus read. Dishes are never deleted.

 `bodyDataHas` falls through to a final `next(error)` even after it has called `next()`; the
 step is modelled by its FIRST signal, and `BodyDataHasCalls` models every signal it gives.
 */
module Dishes {
  import opened Optional
  import opened Js
  import opened Pipeline
  import Store

  /** A stored dish. `image_url` in the JSON is `imageUrl` here. */
  datatype Dish = Dish(id: string, name: JsVal, description: JsVal, price: JsVal, imageUrl: JsVal)

  function Ids(dishes: seq<Dish>): (ids: seq<string>)
    ensures |ids| == |dishes|
    ensures forall i :: 0 <= i < |dishes| ==> ids[i] == dishes[i].id
  {
    seq(|dishes|, i requires 0 <= i < |dishes| => dishes[i].id)
  }

  // ---------------------------------------------------------------------------
  // Messages

  function MissingField(field: string): string {
    "Dish must include a " + field
  }

  const BadPrice := "Dish must have a price that is an integer greater than 0"

  function IdMismatch(id: JsVal, dishId: string): string {
    "Dish id does not match routeid. Dish: " + ToStr(id) + ", Route: " + dishId
  }

  function NotFound(dishId: string): string {
    "Dish does not exist: " + dishId + "."
  }

  // ---------------------------------------------------------------------------
  // dishExists

  /** The dish `dishExists` attaches: the first whose id is strictly equal to the route id. */
  function FindDish(dishes: seq<Dish>, dishId: string): (r: Option<nat>)
    ensures r.None? <==> forall i :: 0 <= i < |dishes| ==> dishes[i].id != dishId
    ensures r.Some? ==> r.value < |dishes| && dishes[r.value].id == dishId
    ensures r.Some? ==> forall j :: 0 <= j < r.value ==> dishes[j].id != dishId
  {
    Store.IndexOf(Ids(dishes), dishId)
  }

  function DishExists(dishes: seq<Dish>, dishId: string): (r: Signal)
    ensures r.Continue? <==> exists i :: 0 <= i < |dishes| && dishes[i].id == dishId
    ensures !r.Continue? ==> r == Fail(404, NotFound(dishId))
  {
    if FindDish(dishes, dishId).Some? then Continue else Fail(404, NotFound(dishId))
  }

  // ---------------------------------------------------------------------------
  // bodyDataHas

  /** `bodyDataHas(field)`, by its first signal. The price test comes first:
      `typeof price != "number" || price <= 0` rejects exactly what `IsPositiveNumber` does not
      hold of, so a positive number that is not an integer passes. Then an empty string, and
      any other falsy value, is reported missing. A missing `data` defaults to `{}`; a `null`
      one makes the property read throw. */
  function BodyDataHas(field: string, data: JsVal): (r: Signal)
    ensures data.Null? ==> r == Crash
    ensures !data.Null? && field == "price" ==>
              (r.Continue? <==> IsPositiveNumber(Prop(data, field)))
              && (!r.Continue? ==> r == Fail(400, BadPrice))
    ensures !data.Null? && field != "price" ==>
              (r.Continue? <==> Truthy(Prop(data, field)))
              && (!r.Continue? ==> r == Fail(400, MissingField(field)))
  {
    var body := if data.Undefined? then Obj(map[]) else data;
    if body.Null? then Crash
    else
      var value := Prop(body, field);
      if field == "price" && !IsPositiveNumber(value) then Fail(400, BadPrice)
      else if value.Str? && |value.s| == 0 then Fail(400, MissingField(field))
      else if Truthy(value) then Continue
      else Fail(400, MissingField(field))
  }

  // ---------------------------------------------------------------------------
  // idsMatch

  /** `idsMatch`: a falsy body id is replaced by the route id; otherwise the body id must be
      strictly equal to the route id, so it must be that very string. */
  function IdsMatch(dishId: string, data: JsVal): (r: Signal)
    ensures Nullish(data) ==> r == Crash
    ensures !Nullish(data) ==>
              (r.Continue? <==> !Truthy(Prop(data, "id")) || Prop(data, "id") == Str(dishId))
    ensures !Nullish(data) && !r.Continue? ==> r == Fail(400, IdMismatch(Prop(data, "id"), dishId))
  {
    if Nullish(data) then Crash
    else
      var given := Prop(data, "id");
      var id := if Truthy(given) then given else Str(dishId);
      if id != Str(dishId) then Fail(400, IdMismatch(id, dishId)) else Continue
  }

  // ---------------------------------------------------------------------------
  // Handlers

  /** The dish `create` builds. */
  function NewDish(data: JsVal, id: string): Dish
    requires !data.Null?
  {
    Dish(id, Prop(data, "name"), Prop(data, "description"), Prop(data, "price"), Prop(data, "image_url"))
  }

  /** The dish `update` leaves behind: four fields overwritten; the body's `id` is bound but
      never assigned, so the id is kept. */
  function Updated(dish: Dish, data: JsVal): Dish
    requires !data.Null?
  {
    dish.(name := Prop(data, "name"), description := Prop(data, "description"),
          price := Prop(data, "price"), imageUrl := Prop(data, "image_url"))
  }

  // ---------------------------------------------------------------------------
  // Routes

  /** What the create route accepts. */
  predicate CreateAccepted(data: JsVal) {
    && !Nullish(data)
    && Truthy(Prop(data, "name"))
    && Truthy(Prop(data, "description"))
    && IsPositiveNumber(Prop(data, "price"))
    && Truthy(Prop(data, "image_url"))
  }

  /** The create route's steps, in order. */
  function CreateSteps(data: JsVal): seq<Signal> {
    [BodyDataHas("name", data), BodyDataHas("description", data),
     BodyDataHas("price", data), BodyDataHas("image_url", data)]
  }

  /** The create steps all continue exactly when the request is acceptable. */
  lemma CreateStepsPass(data: JsVal)
    ensures FirstFailure(CreateSteps(data)).Continue? <==> CreateAccepted(data)
  {
  }

  /** POST /dishes. `newId` stands for `nextId()`: any id not already in use. */
  function Create(dishes: seq<Dish>, data: JsVal, newId: string): (out: Outcome<Dish>)
    requires newId !in Ids(dishes)
    ensures out.reply.Json? <==> CreateAccepted(data)
    ensures out.reply.Json? ==>
              && out.reply.code == 201
              && out.store == dishes + [out.reply.data]
              && out.reply.data.id == newId
              && out.reply.data.name == Prop(data, "name")
              && out.reply.data.description == Prop(data, "description")
              && out.reply.data.price == Prop(data, "price")
              && out.reply.data.imageUrl == Prop(data, "image_url")
    ensures !out.reply.Json? ==> out.store == dishes && (out.reply.Error? || out.reply.ServerError?)
  {
    var s := FirstFailure(CreateSteps(data));
    CreateStepsPass(data);
    if s.Continue? then
      var dish := NewDish(data, newId);
      Outcome(dishes + [dish], Json(201, dish))
    else
      Outcome(dishes, ReplyTo(s))
  }

  /** What the update route accepts once the dish has been found. */
  predicate UpdateAccepted(dishId: string, data: JsVal) {
    && CreateAccepted(data)
    && (!Truthy(Prop(data, "id")) || Prop(data, "id") == Str(dishId))
  }

  /** The update route's steps after `dishExists`, in order. */
  function UpdateSteps(dishId: string, data: JsVal): seq<Signal> {
    [IdsMatch(dishId, data), BodyDataHas("name", data), BodyDataHas("description", data),
     BodyDataHas("price", data), BodyDataHas("image_url", data)]
  }

  /** The update steps all continue exactly when the request is acceptable. */
  lemma UpdateStepsPass(dishId: string, data: JsVal)
    ensures FirstFailure(UpdateSteps(dishId, data)).Continue? <==> UpdateAccepted(dishId, data)
  {
    var steps := UpdateSteps(dishId, data);
    if FirstFailure(steps).Continue? {
      assert steps[0].Continue? && steps[1].Continue? && steps[2].Continue?;
      assert steps[3].Continue? && steps[4].Continue?;
    }
    if UpdateAccepted(dishId, data) {
      assert forall k :: 0 <= k < 5 ==> steps[k].Continue?;
    }
  }

  /** PUT /dishes/:dishId */
  function Update(dishes: seq<Dish>, dishId: string, data: JsVal): (out: Outcome<Dish>)
    ensures FindDish(dishes, dishId).None? ==> out == Outcome(dishes, Error(404, NotFound(dishId)))
    ensures out.reply.Json? <==> FindDish(dishes, dishId).Some? && UpdateAccepted(dishId, data)
    ensures out.reply.Json? ==>
              var i := FindDish(dishes, dishId).value;
              && out.reply.code == 200
              && |out.store| == |dishes|
              && out.store[i] == out.reply.data
              && out.store[i].id == dishes[i].id
              && out.store[i].name == Prop(data, "name")
              && out.store[i].description == Prop(data, "description")
              && out.store[i].price == Prop(data, "price")
              && out.store[i].imageUrl == Prop(data, "image_url")
              && forall j :: 0 <= j < |dishes| && j != i ==> out.store[j] == dishes[j]
    ensures !out.reply.Json? ==> out.store == dishes && (out.reply.Error? || out.reply.ServerError?)
  {
    match FindDish(dishes, dishId)
    case None => Outcome(dishes, Error(404, NotFound(dishId)))
    case Some(i) =>
      var s := FirstFailure(UpdateSteps(dishId, data));
      UpdateStepsPass(dishId, data);
      if s.Continue? then
        var dish := Updated(dishes[i], data);
        Outcome(dishes[i := dish], Json(200, dish))
      else
        Outcome(dishes, ReplyTo(s))
  }

  /** GET /dishes/:dishId */
  function Read(dishes: seq<Dish>, dishId: string): (out: Outcome<Dish>)
    ensures out.store == dishes
    ensures FindDish(dishes, dishId).None? ==> out.reply == Error(404, NotFound(dishId))
    ensures FindDish(dishes, dishId).Some? ==>
              out.reply == Json(200, dishes[FindDish(dishes, dishId).value])
  {
    match FindDish(dishes, dishId)
    case None => Outcome(dishes, Error(404, NotFound(dishId)))
    case Some(i) => Outcome(dishes, Json(200, dishes[i]))
  }

  // ---------------------------------------------------------------------------
  // The signals as written

  /** Every signal `bodyDataHas(field)` gives, in order: whichever branch runs, the final
      `next(error)` runs after it. */
  function BodyDataHasCalls(field: string, data: JsVal): (calls: seq<Signal>)
    ensures |calls| >= 1
  {
    var body := if data.Undefined? then Obj(map[]) else data;
    if body.Null? then [Crash]
    else
      var value := Prop(body, field);
      var first :=
        if field == "price" && !IsPositiveNumber(value) then [Fail(400, BadPrice)]
        else if value.Str? && |value.s| == 0 then [Fail(400, MissingField(field))]
        else if Truthy(value) then [Continue]
        else [];
      first + [Fail(400, MissingField(field))]
  }
}
