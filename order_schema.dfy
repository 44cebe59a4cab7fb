/** The orders service's request schemas (service_orders/src/schemas/orderSchema.js). */
module OrderSchema {
  import opened Json
  import opened JoiRules

  const Statuses: set<string> := {"pending", "paid", "shipped", "cancelled"}

  const CreateKeys: set<string> := {"userId", "product", "amount", "status"}
  const UpdateKeys: set<string> := {"product", "amount", "status"}

  /** `orderCreateSchema` accepts these bodies. */
  predicate CreateAccepts(body: Json)
  {
    && body.JObj?
    && DeclaresOnly(body.fields, CreateKeys)
    && "userId" in body.fields && IsInteger(body.fields["userId"])
    && "product" in body.fields && IsStringMin(body.fields["product"], 2)
    && "amount" in body.fields && IsPositive(body.fields["amount"])
    && ("status" in body.fields ==> IsOneOf(body.fields["status"], Statuses))
  }

  /** `orderCreateSchema.validate(body)`: the validated value, with `status`
      defaulted to 'pending', or None for the 400 branch. */
  function ValidateCreate(body: Json): (r: Option<map<string, Json>>)
    ensures r.Some? <==> CreateAccepts(body)
    ensures r.Some? ==> r.value.Keys == body.fields.Keys + {"status"}
    ensures r.Some? ==> forall k :: k in body.fields ==> r.value[k] == body.fields[k]
    ensures r.Some? && "status" !in body.fields ==> r.value["status"] == JStr("pending")
  {
    if !CreateAccepts(body) then None
    else if "status" in body.fields then Some(body.fields)
    else Some(body.fields["status" := JStr("pending")])
  }

  /** `orderUpdateSchema` accepts these bodies: declared fields only, at least one. */
  predicate UpdateAccepts(body: Json)
  {
    && body.JObj?
    && DeclaresOnly(body.fields, UpdateKeys)
    && |body.fields| >= 1
    && ("product" in body.fields ==> IsStringMin(body.fields["product"], 2))
    && ("amount" in body.fields ==> IsPositive(body.fields["amount"]))
    && ("status" in body.fields ==> IsOneOf(body.fields["status"], Statuses))
  }

  /** `orderUpdateSchema.validate(body)`: no default, the body passes unchanged. */
  function ValidateUpdate(body: Json): (r: Option<map<string, Json>>)
    ensures r.Some? <==> UpdateAccepts(body)
    ensures r.Some? ==> r.value == body.fields && |r.value| >= 1
  {
    if UpdateAccepts(body) then Some(body.fields) else None
  }

  /** A validated create is a valid order: owner, product, amount and a status. */
  lemma CreatedOrderIsComplete(body: Json)
    requires ValidateCreate(body).Some?
    ensures var v := ValidateCreate(body).value;
            && IsInteger(v["userId"]) && IsStringMin(v["product"], 2) && IsPositive(v["amount"])
            && "status" in v && IsOneOf(v["status"], Statuses)
  {
  }

  /** Validating a validated value again changes nothing. */
  lemma ValidateCreateIdempotent(body: Json)
    requires ValidateCreate(body).Some?
    ensures ValidateCreate(JObj(ValidateCreate(body).value)) == ValidateCreate(body)
  {
  }

  /** An update never names the owner (nor the key), so it cannot move an order
      to another user. */
  lemma UpdateCannotChangeOwner(body: Json)
    requires ValidateUpdate(body).Some?
    ensures "userId" !in ValidateUpdate(body).value
    ensures "id" !in ValidateUpdate(body).value
  {
  }

  /** An empty update, an unknown key and a status outside the four are refused. */
  lemma UpdateRefusals(status: string)
    requires status !in Statuses
    ensures ValidateUpdate(JObj(map[])).None?
    ensures ValidateUpdate(JObj(map["userId" := JNum(1.0)])).None?
    ensures ValidateUpdate(JObj(map["status" := JStr(status)])).None?
  {
  }
}
