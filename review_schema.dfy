/** The reviews service's request schemas (service_reviews/src/schemas/reviewSchema.js). */
module ReviewSchema {
  import opened Json
  import opened JoiRules

  const CreateKeys: set<string> := {"orderId", "userId", "product", "rating", "comment"}
  const UpdateKeys: set<string> := {"rating", "comment"}

  /** `Joi.number().integer().min(1).max(5)` */
  predicate IsRating(v: Json)
  {
    IsInteger(v) && 1.0 <= v.n <= 5.0
  }

  /** `Joi.string().allow('', null)` */
  predicate IsComment(v: Json)
  {
    v.JStr? || v.JNull?
  }

  predicate CreateAccepts(body: Json)
  {
    && body.JObj?
    && DeclaresOnly(body.fields, CreateKeys)
    && "orderId" in body.fields && IsInteger(body.fields["orderId"])
    && "userId" in body.fields && IsInteger(body.fields["userId"])
    && "product" in body.fields && IsStringMin(body.fields["product"], 2)
    && "rating" in body.fields && IsRating(body.fields["rating"])
    && ("comment" in body.fields ==> IsComment(body.fields["comment"]))
  }

  /** `reviewCreateSchema.validate(body)`: no defaults, so the value is the body. */
  function ValidateCreate(body: Json): (r: Option<map<string, Json>>)
    ensures r.Some? <==> CreateAccepts(body)
    ensures r.Some? ==> r.value == body.fields
  {
    if CreateAccepts(body) then Some(body.fields) else None
  }

  predicate UpdateAccepts(body: Json)
  {
    && body.JObj?
    && DeclaresOnly(body.fields, UpdateKeys)
    && |body.fields| >= 1
    && ("rating" in body.fields ==> IsRating(body.fields["rating"]))
    && ("comment" in body.fields ==> IsComment(body.fields["comment"]))
  }

  function ValidateUpdate(body: Json): (r: Option<map<string, Json>>)
    ensures r.Some? <==> UpdateAccepts(body)
    ensures r.Some? ==> r.value == body.fields && |r.value| >= 1
  {
    if UpdateAccepts(body) then Some(body.fields) else None
  }

  /** The comment may be empty or null, on create and on update alike. */
  lemma CommentMayBeEmptyOrNull(rating: real)
    requires rating == rating.Floor as real && 1.0 <= rating <= 5.0
    ensures ValidateUpdate(JObj(map["comment" := JStr("")])).Some?
    ensures ValidateUpdate(JObj(map["comment" := JNull])).Some?
    ensures ValidateUpdate(JObj(map["rating" := JNum(rating), "comment" := JNull])).Some?
  {
  }

  /** Ratings outside 1..5 and fractional ratings are refused. */
  lemma RatingRefusals(r: real)
    requires r < 1.0 || r > 5.0 || r != r.Floor as real
    ensures ValidateUpdate(JObj(map["rating" := JNum(r)])).None?
  {
  }

  /** An update carries neither the product, the order nor the author, so it
      cannot move a review to another group. */
  lemma UpdateKeepsGroupingKeys(body: Json)
    requires ValidateUpdate(body).Some?
    ensures var v := ValidateUpdate(body).value;
            "product" !in v && "orderId" !in v && "userId" !in v && "id" !in v
  {
  }
}
