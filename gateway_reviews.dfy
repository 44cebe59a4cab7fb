/** The gateway's review routes (api_gateway/src/routes/reviews.js): the two
    probes are relayed uncached, reads go through five key families, and a
    successful mutation deletes five keys. The status of a mutation's reply is decided from the
    `error` field of what the reviews client resolved with. */
module ReviewsRoutes {
  import opened Json
  import opened CacheAside
  import opened Gateway
  import opened Circuit
  import ReviewsClient

  const ReviewsAllKey: string := "gw:reviews:all"

  function ReviewsByProductKey(product: string): string { "gw:reviews:product:" + product }
  function ReviewByIdKey(id: string): string { "gw:reviews:" + id }
  function ReviewByOrderKey(orderId: string): string { "gw:reviews:order:" + orderId }
  function AvgByProductKey(product: string): string { "gw:reviews:avg:" + product }

  const ReviewNotFound: string := "Review not found"
  const DuplicateReview: string := "Review already exists for this order"

  /** Each key function determines its argument. */
  lemma ReviewKeysInjective(a: string, b: string)
    ensures ReviewsByProductKey(a) == ReviewsByProductKey(b) <==> a == b
    ensures ReviewByIdKey(a) == ReviewByIdKey(b) <==> a == b
    ensures ReviewByOrderKey(a) == ReviewByOrderKey(b) <==> a == b
    ensures AvgByProductKey(a) == AvgByProductKey(b) <==> a == b
  {
    if ReviewsByProductKey(a) == ReviewsByProductKey(b) { PrefixCancel("gw:reviews:product:", a, b); }
    if ReviewByIdKey(a) == ReviewByIdKey(b) { PrefixCancel("gw:reviews:", a, b); }
    if ReviewByOrderKey(a) == ReviewByOrderKey(b) { PrefixCancel("gw:reviews:order:", a, b); }
    if AvgByProductKey(a) == AvgByProductKey(b) { PrefixCancel("gw:reviews:avg:", a, b); }
  }

  /** The list, product, order and average families never share a key: their
      prefixes differ right after "gw:reviews:" (or one letter later). */
  lemma ReviewKeyFamiliesDisjoint(p: string, o: string, q: string)
    ensures ReviewsByProductKey(p) != ReviewByOrderKey(o)
    ensures ReviewsByProductKey(p) != AvgByProductKey(q)
    ensures ReviewByOrderKey(o) != AvgByProductKey(q)
    ensures ReviewsAllKey != ReviewsByProductKey(p)
    ensures ReviewsAllKey != ReviewByOrderKey(o)
    ensures ReviewsAllKey != AvgByProductKey(q)
  {
    PrefixesDiffer("gw:reviews:product:", "gw:reviews:order:", 11, p, o);
    PrefixesDiffer("gw:reviews:product:", "gw:reviews:avg:", 11, p, q);
    PrefixesDiffer("gw:reviews:order:", "gw:reviews:avg:", 11, o, q);
    PrefixesDiffer("gw:reviews:all", "gw:reviews:product:", 11, "", p);
    PrefixesDiffer("gw:reviews:all", "gw:reviews:order:", 11, "", o);
    PrefixesDiffer("gw:reviews:all", "gw:reviews:avg:", 12, "", q);
    assert ReviewsAllKey == "gw:reviews:all" + "";
  }

  /** A database id's key is in none of the other families. */
  lemma NumericIdKeyIsSeparate(id: string, p: string, o: string, q: string)
    requires NumericId(id)
    ensures ReviewByIdKey(id) != ReviewsAllKey
    ensures ReviewByIdKey(id) != ReviewsByProductKey(p)
    ensures ReviewByIdKey(id) != ReviewByOrderKey(o)
    ensures ReviewByIdKey(id) != AvgByProductKey(q)
  {
    assert ReviewByIdKey(id)[11] == id[0];
    assert ReviewsAllKey[11] == 'a';
    assert ReviewsByProductKey(p)[11] == 'p';
    assert ReviewByOrderKey(o)[11] == 'o';
    assert AvgByProductKey(q)[11] == 'a';
  }

  // ---------------------------------------------------------------------------
  // Reads.

  /** GET `/reviews` caches under the product key when `product` is truthy. */
  function ListKey(product: Option<string>): (k: string)
    ensures product.Some? && product.value != "" ==> k == ReviewsByProductKey(product.value)
    ensures product.None? || product.value == "" ==> k == ReviewsAllKey
  {
    if product.Some? && product.value != "" then ReviewsByProductKey(product.value) else ReviewsAllKey
  }

  /** The product key is used exactly when the client also sends the product as
      a query, so each cached list holds what its key names. */
  lemma ListKeyMatchesRequest(product: Option<string>)
    ensures ListKey(product) != ReviewsAllKey <==> ReviewsClient.HasProduct(product)
  {
    if product.Some? {
      ReviewKeyFamiliesDisjoint(product.value, "", "");
    }
  }

  method List(cache: Cache, product: Option<string>, answer: Json) returns (reply: Reply)
    modifies cache
    ensures var r := WithCacheSpec(old(cache.entries), ListKey(product), Ok(answer));
            cache.entries == r.entries && r.result.Ok? && reply == Reply(200, r.result.value)
  {
    var result, _ := cache.WithCache(ListKey(product), 30, Ok(answer));
    reply := Reply(200, result.value);
  }

  /** GET `/reviews/:id` and `/reviews/order/:orderId`: 404 exactly for the
      not-found body. */
  method Get(cache: Cache, key: string, answer: Json) returns (reply: Reply)
    modifies cache
    ensures var r := WithCacheSpec(old(cache.entries), key, Ok(answer));
            cache.entries == r.entries && r.result.Ok? && reply == NotFoundOr(r.result.value, ReviewNotFound)
  {
    var result, _ := cache.WithCache(key, 30, Ok(answer));
    reply := NotFoundOr(result.value, ReviewNotFound);
  }

  /** GET `/reviews/<segment>`: `status` and `health` reach the probe routes,
      relayed with 200 and never cached; any other segment is a review id. */
  method GetById(cache: Cache, segment: string, answer: Json) returns (reply: Reply)
    modifies cache
    ensures Route(segment).ById? ==>
              var r := WithCacheSpec(old(cache.entries), ReviewByIdKey(segment), Ok(answer));
              cache.entries == r.entries && r.result.Ok? && reply == NotFoundOr(r.result.value, ReviewNotFound)
    ensures !Route(segment).ById? ==> cache.entries == old(cache.entries) && reply == Reply(200, answer)
  {
    if Route(segment).ById? {
      reply := Get(cache, ReviewByIdKey(segment), answer);
    } else {
      reply := Reply(200, answer);
    }
  }

  method GetByOrder(cache: Cache, orderId: string, answer: Json) returns (reply: Reply)
    modifies cache
    ensures var r := WithCacheSpec(old(cache.entries), ReviewByOrderKey(orderId), Ok(answer));
            cache.entries == r.entries && r.result.Ok? && reply == NotFoundOr(r.result.value, ReviewNotFound)
  {
    reply := Get(cache, ReviewByOrderKey(orderId), answer);
  }

  /** GET `/reviews/product/:product/average`: relayed with 200, never 404. */
  method Average(cache: Cache, product: string, answer: Json) returns (reply: Reply)
    modifies cache
    ensures var r := WithCacheSpec(old(cache.entries), AvgByProductKey(product), Ok(answer));
            cache.entries == r.entries && r.result.Ok? && reply == Reply(200, r.result.value)
  {
    var result, _ := cache.WithCache(AvgByProductKey(product), 30, Ok(answer));
    reply := Reply(200, result.value);
  }

  // ---------------------------------------------------------------------------
  // Mutations.

  /** The five keys a successful mutation deletes, for a review's product,
      order and id. */
  function FiveKeys(product: string, orderId: string, id: string): (keys: seq<string>)
    ensures forall k :: k in keys <==>
              k == ReviewsAllKey || k == ReviewsByProductKey(product) || k == ReviewByOrderKey(orderId)
              || k == ReviewByIdKey(id) || k == AvgByProductKey(product)
  {
    [ReviewsAllKey, ReviewsByProductKey(product), ReviewByOrderKey(orderId), ReviewByIdKey(id), AvgByProductKey(product)]
  }

  /** `v?.error` truthy: the not-found body, the duplicate body or a fallback. */
  predicate Failed(v: Json)
  {
    Truthy(Member(v, "error"))
  }

  /** POST `/reviews`: the duplicate body is 409, any other error 500, neither
      deletes anything; otherwise the keys come from the request's product and
      orderId and the created id, and the reply is 201. Reading `id` of a null
      answer throws. */
  function Post(body: Json, created: Json): (r: Result<Outcome>)
    ensures r.Err? <==> created == JNull
    ensures r.Ok? && ErrorIs(created, DuplicateReview) ==> r.value == Outcome(Reply(409, created), [])
    ensures r.Ok? && !ErrorIs(created, DuplicateReview) && Failed(created) ==> r.value == Outcome(Reply(500, created), [])
    ensures r.Ok? && !Failed(created) ==>
              r.value == Outcome(Reply(201, created),
                FiveKeys(Text(Member(body, "product")), Text(Member(body, "orderId")), Text(Member(created, "id"))))
  {
    if ErrorIs(created, DuplicateReview) then Ok(Outcome(Reply(409, created), []))
    else if Failed(created) then Ok(Outcome(Reply(500, created), []))
    else
      match Prop(created, "id")
      case Err(f) => Err(f)
      case Ok(id) =>
        var product := Text(Member(body, "product"));
        Ok(Outcome(Reply(201, created), FiveKeys(product, Text(Member(body, "orderId")), Text(id))))
  }

  /** PUT `/reviews/:id` and DELETE `/reviews/:id` over the record whose
      top-level `product` and `orderId` name the keys: 404 for the not-found body,
      500 for any other error, otherwise the five keys and 200. */
  function Written(id: string, answer: Json, record: Json): (r: Result<Outcome>)
    ensures r.Err? <==> !Failed(answer) && record == JNull
    ensures r.Ok? && ErrorIs(answer, ReviewNotFound) ==> r.value == Outcome(Reply(404, answer), [])
    ensures r.Ok? && !ErrorIs(answer, ReviewNotFound) && Failed(answer) ==> r.value == Outcome(Reply(500, answer), [])
    ensures r.Ok? && !Failed(answer) ==>
              r.value == Outcome(Reply(200, answer),
                FiveKeys(Text(Member(record, "product")), Text(Member(record, "orderId")), id))
  {
    if ErrorIs(answer, ReviewNotFound) then Ok(Outcome(Reply(404, answer), []))
    else if Failed(answer) then Ok(Outcome(Reply(500, answer), []))
    else
      match Prop(record, "product")
      case Err(f) => Err(f)
      case Ok(product) => Ok(Outcome(Reply(200, answer), FiveKeys(Text(product), Text(Member(record, "orderId")), id)))
  }

  function Put(id: string, updated: Json): (r: Result<Outcome>)
    ensures r.Err? <==> updated == JNull
    ensures r.Ok? && !Failed(updated) ==>
              r.value.invalidated == FiveKeys(Text(Member(updated, "product")), Text(Member(updated, "orderId")), id)
  {
    Written(id, updated, updated)
  }

  /** DELETE as written: the keys are built from `removed.product` and
      `removed.orderId`, top-level fields of the service's answer. */
  function DeleteAsWritten(id: string, removed: Json): (r: Result<Outcome>)
    ensures r.Err? <==> removed == JNull
    ensures r.Ok? && !Failed(removed) ==>
              r.value.invalidated == FiveKeys(Text(Member(removed, "product")), Text(Member(removed, "orderId")), id)
  {
    Written(id, removed, removed)
  }

  /** The record inside the reviews service's delete answer
      `{ message: 'Review deleted', removed }`, or null when it has none. */
  function DeletedRecord(removed: Json): Json
  {
    match Member(removed, "removed")
    case Some(v) => v
    case None => JNull
  }

  /** DELETE with the keys built from the deleted record itself. */
  function Delete(id: string, removed: Json): (r: Result<Outcome>)
    ensures r.Err? <==> !Failed(removed) && DeletedRecord(removed) == JNull
    ensures r.Ok? && !Failed(removed) ==>
              r.value.invalidated ==
                FiveKeys(Text(Member(DeletedRecord(removed), "product")), Text(Member(DeletedRecord(removed), "orderId")), id)
  {
    Written(id, removed, DeletedRecord(removed))
  }

  /** What the reviews service answers to a successful delete. */
  function ServiceDeleteAnswer(record: Json): (v: Json)
    ensures Member(v, "removed") == Some(record)
    ensures Member(v, "product") == None && Member(v, "orderId") == None
    ensures !Failed(v)
  {
    JObj(map["message" := JStr("Review deleted"), "removed" := record])
  }

  /** As written, deleting a review whose product is "p" deletes the product and
      average keys of the product "undefined", and leaves those of "p" cached. */
  lemma DeleteAsWrittenMissesRecordKeys(id: string, record: Json, p: string)
    requires NumericId(id)
    requires Member(record, "product") == Some(JStr(p)) && p != "undefined"
    ensures var r := DeleteAsWritten(id, ServiceDeleteAnswer(record));
            && r.Ok?
            && ReviewsByProductKey("undefined") in r.value.invalidated
            && ReviewByOrderKey("undefined") in r.value.invalidated
            && AvgByProductKey("undefined") in r.value.invalidated
            && ReviewsByProductKey(p) !in r.value.invalidated
            && AvgByProductKey(p) !in r.value.invalidated
  {
    ReviewKeysInjective(p, "undefined");
    ReviewKeyFamiliesDisjoint(p, "undefined", "undefined");
    ReviewKeyFamiliesDisjoint("undefined", "undefined", p);
    NumericIdKeyIsSeparate(id, p, "undefined", p);
    assert DeleteAsWritten(id, ServiceDeleteAnswer(record)).value.invalidated == FiveKeys("undefined", "undefined", id);
  }

  /** With the keys read from the deleted record, every key under which that
      review can be cached is deleted. */
  lemma DeleteClearsRecordKeys(id: string, record: Json)
    requires record != JNull
    ensures var r := Delete(id, ServiceDeleteAnswer(record));
            var p := Text(Member(record, "product"));
            && r.Ok?
            && ReviewsByProductKey(p) in r.value.invalidated
            && AvgByProductKey(p) in r.value.invalidated
            && ReviewByOrderKey(Text(Member(record, "orderId"))) in r.value.invalidated
            && ReviewByIdKey(id) in r.value.invalidated
            && ReviewsAllKey in r.value.invalidated
  {
  }

  /** The service answers a duplicate review with 409, which the circuit counts
      as a failure and replaces with the fallback: the gateway answers 500 and
      its own 409 branch is never taken for that answer. */
  lemma ServiceConflictBecomes500(body: Json, gate: Gate, conflict: Json)
    ensures var created := Fire(ReviewsClient.ReviewsCircuit, gate, Response(409, conflict));
            Post(body, created) == Ok(Outcome(Reply(500, ReviewsClient.Fallback), []))
  {
    assert Member(ReviewsClient.Fallback, "error") == Some(JStr("Reviews service temporarily unavailable"));
  }

  method Create(cache: Cache, body: Json, created: Json) returns (reply: Result<Reply>)
    modifies cache
    ensures Post(body, created).Err? ==> cache.entries == old(cache.entries) && reply == Err(TypeError)
    ensures Post(body, created).Ok? ==>
              cache.entries == Without(old(cache.entries), Post(body, created).value.invalidated)
              && reply == Ok(Post(body, created).value.reply)
  {
    match Post(body, created)
    case Err(f) =>
      reply := Err(f);
    case Ok(o) =>
      var r := Apply(cache, o);
      reply := Ok(r);
  }

  method Update(cache: Cache, id: string, updated: Json) returns (reply: Result<Reply>)
    modifies cache
    ensures Put(id, updated).Err? ==> cache.entries == old(cache.entries) && reply == Err(TypeError)
    ensures Put(id, updated).Ok? ==>
              cache.entries == Without(old(cache.entries), Put(id, updated).value.invalidated)
              && reply == Ok(Put(id, updated).value.reply)
  {
    match Put(id, updated)
    case Err(f) =>
      reply := Err(f);
    case Ok(o) =>
      var r := Apply(cache, o);
      reply := Ok(r);
  }

  /** DELETE `/reviews/:id` as the handler is written. */
  method Remove(cache: Cache, id: string, removed: Json) returns (reply: Result<Reply>)
    modifies cache
    ensures DeleteAsWritten(id, removed).Err? ==> cache.entries == old(cache.entries) && reply == Err(TypeError)
    ensures DeleteAsWritten(id, removed).Ok? ==>
              cache.entries == Without(old(cache.entries), DeleteAsWritten(id, removed).value.invalidated)
              && reply == Ok(DeleteAsWritten(id, removed).value.reply)
  {
    match DeleteAsWritten(id, removed)
    case Err(f) =>
      reply := Err(f);
    case Ok(o) =>
      var r := Apply(cache, o);
      reply := Ok(r);
  }

  /** DELETE `/reviews/:id` with the keys taken from the deleted record. */
  method RemoveCorrected(cache: Cache, id: string, removed: Json) returns (reply: Result<Reply>)
    modifies cache
    ensures Delete(id, removed).Err? ==> cache.entries == old(cache.entries) && reply == Err(TypeError)
    ensures Delete(id, removed).Ok? ==>
              cache.entries == Without(old(cache.entries), Delete(id, removed).value.invalidated)
              && reply == Ok(Delete(id, removed).value.reply)
  {
    match Delete(id, removed)
    case Err(f) =>
      reply := Err(f);
    case Ok(o) =>
      var r := Apply(cache, o);
      reply := Ok(r);
  }
}
