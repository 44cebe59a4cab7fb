/** The reviews service's data layer (service_reviews/src/services/reviewService.js):
    at most one review per order, enforced by a lookup before each insert;
    reads through its own cache; each successful write deletes five keys. */
module ReviewService {
  import opened Json
  import opened CacheAside
  import opened Store
  import opened JoiRules
  import ReviewSchema

  const ReviewsAllKey: string := "reviews:all"

  function ReviewByIdKey(id: string): string { "reviews:" + id }
  function ReviewByOrderKey(orderId: string): string { "reviews:order:" + orderId }
  function AvgByProductKey(product: string): string { "reviews:avg:" + product }
  /** Written inline as a template literal in the service. */
  function ReviewsByProductKey(product: string): string { "reviews:product:" + product }

  const DuplicateReview: string := "Review already exists for this order"

  /** The keys a write deletes, given the id text and the review's order and product. */
  function WriteKeys(id: string, review: Json): (keys: seq<string>)
    ensures forall k :: k in keys <==>
              k == ReviewByIdKey(id) || k == ReviewByOrderKey(Text(Member(review, "orderId"))) || k == ReviewsAllKey
              || k == ReviewsByProductKey(Text(Member(review, "product"))) || k == AvgByProductKey(Text(Member(review, "product")))
  {
    var product := Text(Member(review, "product"));
    [ReviewByIdKey(id), ReviewByOrderKey(Text(Member(review, "orderId"))), ReviewsAllKey,
     ReviewsByProductKey(product), AvgByProductKey(product)]
  }

  // ---------------------------------------------------------------------------
  // The table invariant.

  /** Every review has an order, and no two reviews share one (the column is
      also declared unique, service_reviews/src/models/review.js). */
  predicate OnePerOrder(rows: Rows)
  {
    && (forall i :: 0 <= i < |rows| ==> "orderId" in rows[i].fields)
    && (forall i, j :: 0 <= i < j < |rows| ==> rows[i].fields["orderId"] != rows[j].fields["orderId"])
  }

  /** Every review has a rating in 1..5. */
  predicate Rated(rows: Rows)
  {
    forall i :: 0 <= i < |rows| ==> "rating" in rows[i].fields && ReviewSchema.IsRating(rows[i].fields["rating"])
  }

  lemma InsertKeepsOnePerOrder(rows: Rows, nextId: nat, payload: map<string, Json>)
    requires OnePerOrder(rows) && "orderId" in payload
    requires FindOne(rows, "orderId", payload["orderId"]).None?
    ensures OnePerOrder(Insert(rows, nextId, payload))
  {
    var after := Insert(rows, nextId, payload);
    forall i, j | 0 <= i < j < |after|
      ensures after[i].fields["orderId"] != after[j].fields["orderId"]
    {
      if j == |rows| {
        assert rows[i] in rows;
      }
    }
  }

  /** Inserting an accepted review keeps every rating valid. */
  lemma InsertKeepsRated(rows: Rows, nextId: nat, payload: map<string, Json>)
    requires Rated(rows) && ReviewSchema.CreateAccepts(JObj(payload))
    ensures Rated(Insert(rows, nextId, payload))
  {
    var after := Insert(rows, nextId, payload);
    forall j | 0 <= j < |after|
      ensures "rating" in after[j].fields && ReviewSchema.IsRating(after[j].fields["rating"])
    {
      if j < |rows| { assert after[j] == rows[j]; }
    }
  }

  /** An update that names no order keeps each review's order. */
  lemma PatchKeepsOnePerOrder(rows: Rows, i: nat, payload: map<string, Json>)
    requires OnePerOrder(rows) && i < |rows| && "orderId" !in payload
    ensures OnePerOrder(Patch(rows, i, payload))
  {
    var after := Patch(rows, i, payload);
    assert forall j :: 0 <= j < |rows| ==> after[j].fields["orderId"] == rows[j].fields["orderId"];
  }

  lemma {:induction false} DestroyKeepsOnePerOrder(rows: Rows, i: nat)
    requires OnePerOrder(rows) && i < |rows|
    ensures OnePerOrder(Destroy(rows, i))
  {
    var r := Destroy(rows, i);
    forall a, b | 0 <= a < b < |r|
      ensures r[a].fields["orderId"] != r[b].fields["orderId"]
    {
      var a' := if a < i then a else a + 1;
      var b' := if b < i then b else b + 1;
      assert r[a] == rows[a'] && r[b] == rows[b'];
    }
  }

  /** A validated review update keeps the invariant: it cannot name an order. */
  lemma ValidatedUpdateKeepsOnePerOrder(rows: Rows, i: nat, body: Json)
    requires OnePerOrder(rows) && Rated(rows) && i < |rows|
    requires ReviewSchema.ValidateUpdate(body).Some?
    ensures OnePerOrder(Patch(rows, i, ReviewSchema.ValidateUpdate(body).value))
    ensures Rated(Patch(rows, i, ReviewSchema.ValidateUpdate(body).value))
  {
    ReviewSchema.UpdateKeepsGroupingKeys(body);
    PatchKeepsOnePerOrder(rows, i, ReviewSchema.ValidateUpdate(body).value);
  }

  /** With one review per order, `findOne({ where: { orderId } })` finds the only one. */
  lemma ByOrderIsUnique(rows: Rows, i: nat)
    requires OnePerOrder(rows) && i < |rows|
    ensures FindOne(rows, "orderId", rows[i].fields["orderId"]) == Some(rows[i])
  {
    forall j | 0 <= j < |rows| && j != i
      ensures rows[j].fields["orderId"] != rows[i].fields["orderId"]
    {
      if j < i {
        assert rows[j].fields["orderId"] != rows[i].fields["orderId"];
      } else {
        assert rows[i].fields["orderId"] != rows[j].fields["orderId"];
      }
    }
    var found := FindOne(rows, "orderId", rows[i].fields["orderId"]);
    var j :| 0 <= j < |rows| && rows[j] == found.value;
  }

  /** A removal keeps every remaining rating valid. */
  lemma DestroyKeepsRated(rows: Rows, i: nat)
    requires i < |rows| && Rated(rows)
    ensures Rated(Destroy(rows, i))
  {
    var d := Destroy(rows, i);
    forall j | 0 <= j < |d|
      ensures "rating" in d[j].fields && ReviewSchema.IsRating(d[j].fields["rating"])
    {
      if j >= i { assert d[j] == rows[j + 1]; }
    }
  }

  // ---------------------------------------------------------------------------
  // Reads.

  /** `Review.findOne({ where: { orderId } })` for a text order id. */
  function LookupByOrder(rows: Rows, orderId: string): (r: Result<Json>)
    ensures r.Err? <==> !IsKey(orderId)
    ensures r.Err? ==> r == Err(Pk(orderId).fault)
    ensures r.Ok? ==> r.value == FoundJson(FindOne(rows, "orderId", JNum(ParseNat(orderId) as real)))
  {
    match Pk(orderId)
    case Err(f) => Err(f)
    case Ok(order) => Ok(FoundJson(FindOne(rows, "orderId", JNum(order as real))))
  }

  /** `list(product)`: the product key and its filter when `product` is truthy. */
  function ListKey(product: Option<string>): (k: string)
    ensures product.Some? && product.value != "" ==> k == ReviewsByProductKey(product.value)
    ensures product.None? || product.value == "" ==> k == ReviewsAllKey
  {
    if product.Some? && product.value != "" then ReviewsByProductKey(product.value) else ReviewsAllKey
  }

  function ListProduced(rows: Rows, product: Option<string>): (v: Json)
    ensures product.None? || product.value == "" ==> v == RowsJson(rows)
    ensures product.Some? && product.value != "" ==> v == RowsJson(Where(rows, "product", JStr(product.value)))
  {
    if product.Some? && product.value != "" then RowsJson(Where(rows, "product", JStr(product.value))) else RowsJson(rows)
  }

  // ---------------------------------------------------------------------------
  // The average.

  function RatingOf(r: Row): real
  {
    if "rating" in r.fields && r.fields["rating"].JNum? then r.fields["rating"].n else 0.0
  }

  function SumRatings(rows: Rows): real
    decreases |rows|
  {
    if |rows| == 0 then 0.0 else RatingOf(rows[0]) + SumRatings(rows[1..])
  }

  /** `averageByProduct(product)`: with no reviews the fixed shape
      `{ product, avgRating: null, count: 0 }`; otherwise the mean rating and the
      count of the product's reviews (as an exact value). */
  function Average(rows: Rows, product: string): (v: Json)
    ensures v.JObj? && v.fields.Keys == {"product", "avgRating", "count"}
    ensures v.fields["product"] == JStr(product)
    ensures v.fields["count"] == JNum(|Where(rows, "product", JStr(product))| as real)
    ensures v.fields["avgRating"] == JNull <==> |Where(rows, "product", JStr(product))| == 0
  {
    var matching := Where(rows, "product", JStr(product));
    if |matching| == 0 then
      JObj(map["product" := JStr(product), "avgRating" := JNull, "count" := JNum(0.0)])
    else
      assert matching[0] in matching;
      var mean := SumRatings(matching) / (|matching| as real);
      JObj(map["product" := matching[0].fields["product"], "avgRating" := JNum(mean), "count" := JNum(|matching| as real)])
  }

  lemma {:induction false} SumWithinRatings(rows: Rows)
    requires Rated(rows)
    ensures |rows| as real <= SumRatings(rows) <= 5.0 * |rows| as real
    decreases |rows|
  {
    if |rows| > 0 {
      assert Rated(rows[1..]) by {
        forall i | 0 <= i < |rows[1..]|
          ensures "rating" in rows[1..][i].fields && ReviewSchema.IsRating(rows[1..][i].fields["rating"])
        {
          assert rows[1..][i] == rows[i + 1];
        }
      }
      SumWithinRatings(rows[1..]);
    }
  }

  lemma WhereKeepsRated(rows: Rows, product: string)
    requires Rated(rows)
    ensures Rated(Where(rows, "product", JStr(product)))
  {
    var matching := Where(rows, "product", JStr(product));
    forall i | 0 <= i < |matching|
      ensures "rating" in matching[i].fields && ReviewSchema.IsRating(matching[i].fields["rating"])
    {
      assert matching[i] in matching;
      var j :| 0 <= j < |rows| && rows[j] == matching[i];
    }
  }

  lemma MeanBetween(s: real, n: real)
    requires n > 0.0 && n <= s <= 5.0 * n
    ensures 1.0 <= s / n <= 5.0
  {
  }

  /** The mean of a product's ratings lies between 1 and 5. */
  lemma AverageWithinRatings(rows: Rows, product: string)
    requires Rated(rows)
    requires |Where(rows, "product", JStr(product))| > 0
    ensures var avg := Average(rows, product).fields["avgRating"];
            avg.JNum? && 1.0 <= avg.n <= 5.0
  {
    var matching := Where(rows, "product", JStr(product));
    WhereKeepsRated(rows, product);
    SumWithinRatings(matching);
    MeanBetween(SumRatings(matching), |matching| as real);
    assert Average(rows, product).fields["avgRating"] == JNum(SumRatings(matching) / (|matching| as real));
  }

  class Reviews {
    var rows: Rows
    var nextId: nat
    const cache: Cache

    predicate Valid()
      reads this
    {
      nextId >= 1 && KeysBelow(rows, nextId) && OnePerOrder(rows) && Rated(rows)
    }

    constructor (cache: Cache)
      ensures Valid() && rows == [] && nextId == 1 && this.cache == cache
    {
      rows := [];
      nextId := 1;
      this.cache := cache;
    }

    method List(product: Option<string>) returns (r: Result<Json>)
      modifies cache
      ensures var read := WithCacheSpec(old(cache.entries), ListKey(product), Ok(ListProduced(rows, product)));
              cache.entries == read.entries && r == read.result
    {
      var calls;
      r, calls := cache.WithCache(ListKey(product), 30, Ok(ListProduced(rows, product)));
    }

    method GetById(id: string) returns (r: Result<Json>)
      modifies cache
      ensures var read := WithCacheSpec(old(cache.entries), ReviewByIdKey(id), LookupPk(rows, id));
              cache.entries == read.entries && r == read.result
    {
      var calls;
      r, calls := cache.WithCache(ReviewByIdKey(id), 30, LookupPk(rows, id));
    }

    method GetByOrder(orderId: string) returns (r: Result<Json>)
      modifies cache
      ensures var read := WithCacheSpec(old(cache.entries), ReviewByOrderKey(orderId), LookupByOrder(rows, orderId));
              cache.entries == read.entries && r == read.result
    {
      var calls;
      r, calls := cache.WithCache(ReviewByOrderKey(orderId), 30, LookupByOrder(rows, orderId));
    }

    method AverageByProduct(product: string) returns (r: Result<Json>)
      modifies cache
      ensures var read := WithCacheSpec(old(cache.entries), AvgByProductKey(product), Ok(Average(rows, product)));
              cache.entries == read.entries && r == read.result
    {
      var calls;
      r, calls := cache.WithCache(AvgByProductKey(product), 30, Ok(Average(rows, product)));
    }

    /** `create(payload)` for a validated payload: a review for an order that
        already has one is refused with an error body and nothing changes. */
    method Create(payload: map<string, Json>) returns (created: Json)
      requires Valid() && ReviewSchema.CreateAccepts(JObj(payload))
      modifies this, cache
      ensures Valid()
      ensures FindOne(old(rows), "orderId", payload["orderId"]).Some? ==>
                created == ErrorBody(DuplicateReview) && rows == old(rows) && nextId == old(nextId)
                && cache.entries == old(cache.entries)
      ensures FindOne(old(rows), "orderId", payload["orderId"]).None? ==>
                && rows == Insert(old(rows), old(nextId), payload) && nextId == old(nextId) + 1
                && created == RowJson(Row(old(nextId), payload))
                && cache.entries == Without(old(cache.entries), WriteKeys(Text(Member(created, "id")), created))
    {
      var existing := FindOne(rows, "orderId", payload["orderId"]);
      if existing.Some? {
        return ErrorBody(DuplicateReview);
      }
      InsertKeepsKeysBelow(rows, nextId, payload);
      InsertKeepsOnePerOrder(rows, nextId, payload);
      InsertKeepsRated(rows, nextId, payload);
      var row := Row(nextId, payload);
      rows := Insert(rows, nextId, payload);
      nextId := nextId + 1;
      created := RowJson(row);
      cache.Invalidate(WriteKeys(Text(Member(created, "id")), created));
    }

    /** `update(id, payload)` for a validated payload; the keys are read from
        the updated review. */
    method Update(id: string, payload: map<string, Json>) returns (r: Result<Json>)
      requires Valid() && ReviewSchema.UpdateAccepts(JObj(payload))
      modifies this, cache
      ensures Valid() && nextId == old(nextId)
      ensures !IsKey(id) ==> r == Err(Pk(id).fault) && rows == old(rows) && cache.entries == old(cache.entries)
      ensures IsKey(id) && FindByPk(old(rows), ParseNat(id)).None? ==>
                r == Ok(JNull) && rows == old(rows) && cache.entries == old(cache.entries)
      ensures IsKey(id) && FindByPk(old(rows), ParseNat(id)).Some? ==>
                var i := IndexOf(old(rows), ParseNat(id)).value;
                && rows == Patch(old(rows), i, payload)
                && r == Ok(RowJson(rows[i]))
                && cache.entries == Without(old(cache.entries), WriteKeys(id, RowJson(rows[i])))
    {
      var key := Pk(id);
      if key.Err? {
        return Err(key.fault);
      }
      var found := IndexOf(rows, key.value);
      if found.None? {
        return Ok(JNull);
      }
      var i := found.value;
      PatchKeepsKeysBelow(rows, nextId, i, payload);
      ValidatedUpdateKeepsOnePerOrder(rows, i, JObj(payload));
      rows := Patch(rows, i, payload);
      var review := RowJson(rows[i]);
      cache.Invalidate(WriteKeys(id, review));
      r := Ok(review);
    }

    /** `remove(id)`: the keys come from the review as it was before deletion. */
    method Remove(id: string) returns (r: Result<Json>)
      requires Valid()
      modifies this, cache
      ensures Valid() && nextId == old(nextId)
      ensures !IsKey(id) ==> r == Err(Pk(id).fault) && rows == old(rows) && cache.entries == old(cache.entries)
      ensures IsKey(id) && FindByPk(old(rows), ParseNat(id)).None? ==>
                r == Ok(JNull) && rows == old(rows) && cache.entries == old(cache.entries)
      ensures IsKey(id) && FindByPk(old(rows), ParseNat(id)).Some? ==>
                var i := IndexOf(old(rows), ParseNat(id)).value;
                && rows == Destroy(old(rows), i)
                && r == Ok(RowJson(old(rows)[i]))
                && cache.entries == Without(old(cache.entries), WriteKeys(id, RowJson(old(rows)[i])))
    {
      var key := Pk(id);
      if key.Err? {
        return Err(key.fault);
      }
      var found := IndexOf(rows, key.value);
      if found.None? {
        return Ok(JNull);
      }
      var i := found.value;
      var review := RowJson(rows[i]);
      DestroyKeepsKeysBelow(rows, nextId, i);
      DestroyKeepsOnePerOrder(rows, i);
      DestroyKeepsRated(rows, i);
      rows := Destroy(rows, i);
      cache.Invalidate(WriteKeys(id, review));
      r := Ok(review);
    }
  }
}
