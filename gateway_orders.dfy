/** The gateway's `/orders` routes (api_gateway/src/routes/orders.js): the two
    probes are relayed, reads go through the cache (the list optionally
    filtered by owner), mutations call the orders service and then delete keys. */
module OrdersRoutes {
  import opened Json
  import opened CacheAside
  import opened Gateway

  const OrdersAllKey: string := "gw:orders:all"

  function OrdersByUserKey(userId: string): string
  {
    "gw:orders:user:" + userId
  }

  function OrderByIdKey(id: string): string
  {
    "gw:orders:" + id
  }

  const OrderNotFound: string := "Order not found"

  /** Each key function determines its argument. The by-id space overlaps the
      others only through the ids "all" and "user:…", and a database id is
      neither. */
  lemma OrderKeysInjective(a: string, b: string)
    ensures OrdersByUserKey(a) == OrdersByUserKey(b) <==> a == b
    ensures OrderByIdKey(a) == OrderByIdKey(b) <==> a == b
    ensures OrderByIdKey(a) == OrdersAllKey <==> a == "all"
    ensures OrderByIdKey(a) == OrdersByUserKey(b) <==> a == "user:" + b
  {
    if OrdersByUserKey(a) == OrdersByUserKey(b) {
      PrefixCancel("gw:orders:user:", a, b);
    }
    if OrderByIdKey(a) == OrderByIdKey(b) {
      PrefixCancel("gw:orders:", a, b);
    }
    assert OrdersAllKey == "gw:orders:" + "all";
    if OrderByIdKey(a) == OrdersAllKey {
      PrefixCancel("gw:orders:", a, "all");
    }
    assert OrdersByUserKey(b) == "gw:orders:" + ("user:" + b);
    if OrderByIdKey(a) == OrdersByUserKey(b) {
      PrefixCancel("gw:orders:", a, "user:" + b);
    }
  }

  lemma NumericIdKeysAreSeparate(id: string, userId: string)
    requires NumericId(id)
    ensures OrderByIdKey(id) != OrdersAllKey
    ensures OrderByIdKey(id) != OrdersByUserKey(userId)
  {
    OrderKeysInjective(id, userId);
    NumericIdStartsWithDigit(id, 'a');
    NumericIdStartsWithDigit(id, 'u');
    assert ("user:" + userId)[0] == 'u';
  }

  /** The list key is not a by-user key either. */
  lemma AllKeyIsNotAUserKey(userId: string)
    ensures OrdersByUserKey(userId) != OrdersAllKey
  {
    assert OrdersAllKey == "gw:orders:" + "all";
    assert OrdersByUserKey(userId) == "gw:orders:" + ("user:" + userId);
    if OrdersByUserKey(userId) == OrdersAllKey {
      PrefixCancel("gw:orders:", "user:" + userId, "all");
    }
  }

  // ---------------------------------------------------------------------------
  // Reads.

  /** Which key and which producer GET `/` uses: a truthy `userId` query selects
      the owner's key and filters the list, otherwise the whole list is cached. */
  function ListKey(userId: Option<string>): (k: string)
    ensures userId.Some? && userId.value != "" ==> k == OrdersByUserKey(userId.value)
    ensures userId.None? || userId.value == "" ==> k == OrdersAllKey
  {
    if userId.Some? && userId.value != "" then OrdersByUserKey(userId.value) else OrdersAllKey
  }

  function ListProduced(userId: Option<string>, list: Json): (r: Result<Json>)
    ensures userId.None? || userId.value == "" ==> r == Ok(list)
    ensures userId.Some? && userId.value != "" ==> r == FilterList(list, userId.value)
  {
    if userId.Some? && userId.value != "" then FilterList(list, userId.value) else Ok(list)
  }

  /** For a truthy `userId` the cached value is the owner's subsequence of the
      list; a list the filter cannot run on (the fallback body, an element that
      is null) rejects and leaves the cache as it was. */
  lemma FilteredListIsOwnersSubsequence(entries: Entries, userId: string, list: Json)
    requires userId != "" && OrdersByUserKey(userId) !in entries
    ensures var r := WithCacheSpec(entries, ListKey(Some(userId)), ListProduced(Some(userId), list));
            r.result.Ok? <==> list.JArr? && JNull !in list.items
    ensures var r := WithCacheSpec(entries, ListKey(Some(userId)), ListProduced(Some(userId), list));
            r.result.Ok? ==>
              && r.entries == entries[OrdersByUserKey(userId) := r.result.value]
              && r.result.value.JArr?
              && IsSubsequence(r.result.value.items, list.items)
              && (forall x :: x in r.result.value.items <==> x in list.items && Owns(x, userId))
    ensures var r := WithCacheSpec(entries, ListKey(Some(userId)), ListProduced(Some(userId), list));
            r.result.Err? ==> r.entries == entries && r.result == Err(TypeError)
  {
  }

  /** GET `/`; a rejected producer rejects the handler. */
  method List(cache: Cache, userId: Option<string>, list: Json) returns (reply: Result<Reply>)
    modifies cache
    ensures var r := WithCacheSpec(old(cache.entries), ListKey(userId), ListProduced(userId, list));
            cache.entries == r.entries
            && (r.result.Ok? ==> reply == Ok(Reply(200, r.result.value)))
            && (r.result.Err? ==> reply == Err(r.result.fault))
  {
    var result, _ := cache.WithCache(ListKey(userId), 30, ListProduced(userId, list));
    if result.Ok? {
      reply := Ok(Reply(200, result.value));
    } else {
      reply := Err(result.fault);
    }
  }

  /** GET `/:orderId` for a segment that is not a probe name; a probe is relayed
      with 200 and never cached. */
  method Get(cache: Cache, segment: string, answer: Json) returns (reply: Reply)
    modifies cache
    ensures Route(segment).ById? ==>
              var r := WithCacheSpec(old(cache.entries), OrderByIdKey(segment), Ok(answer));
              cache.entries == r.entries && r.result.Ok? && reply == NotFoundOr(r.result.value, OrderNotFound)
    ensures !Route(segment).ById? ==> cache.entries == old(cache.entries) && reply == Reply(200, answer)
  {
    if Route(segment).ById? {
      var result, _ := cache.WithCache(OrderByIdKey(segment), 30, Ok(answer));
      reply := NotFoundOr(result.value, OrderNotFound);
    } else {
      reply := Reply(200, answer);
    }
  }

  // ---------------------------------------------------------------------------
  // Mutations.

  /** POST `/`: the list key and the key of the owner named in the request body,
      whatever the service answered; `req.body.userId` may be absent, giving the
      key "gw:orders:user:undefined". */
  function Post(body: Json, created: Json): (o: Outcome)
    ensures o.reply == Reply(201, created)
    ensures forall k :: k in o.invalidated <==> k == OrdersAllKey || k == OrdersByUserKey(Text(Member(body, "userId")))
  {
    Outcome(Reply(201, created), [OrdersAllKey, OrdersByUserKey(Text(Member(body, "userId")))])
  }

  /** PUT `/:orderId`: a not-found answer is relayed as 404 and deletes nothing;
      otherwise the list key, this order's key and the key of the owner the
      answer names. Reading `userId` of a null answer throws. */
  function Put(orderId: string, updated: Json): (r: Result<Outcome>)
    ensures r.Err? <==> updated == JNull
    ensures r.Ok? ==> r.value.reply == NotFoundOr(updated, OrderNotFound)
    ensures r.Ok? && ErrorIs(updated, OrderNotFound) ==> r.value.invalidated == []
    ensures r.Ok? && !ErrorIs(updated, OrderNotFound) ==>
              forall k :: k in r.value.invalidated <==>
                k == OrdersAllKey || k == OrderByIdKey(orderId) || k == OrdersByUserKey(Text(Member(updated, "userId")))
  {
    if ErrorIs(updated, OrderNotFound) then Ok(Outcome(Reply(404, updated), []))
    else
      match Prop(updated, "userId")
      case Err(f) => Err(f)
      case Ok(owner) => Ok(Outcome(Reply(200, updated), [OrdersAllKey, OrderByIdKey(orderId), OrdersByUserKey(Text(owner))]))
  }

  /** DELETE `/:orderId`: the list key and this order's key, unconditionally. */
  function Delete(orderId: string, removed: Json): (o: Outcome)
    ensures o.reply == Reply(200, removed)
    ensures forall k :: k in o.invalidated <==> k == OrdersAllKey || k == OrderByIdKey(orderId)
  {
    Outcome(Reply(200, removed), [OrdersAllKey, OrderByIdKey(orderId)])
  }

  /** Deleting an order never deletes any owner's list key, so a cached owner
      list that still shows the order keeps being served. */
  lemma {:induction false} DeleteKeepsOwnerLists(entries: Entries, orderId: string, removed: Json, userId: string, answer: Result<Json>)
    requires NumericId(orderId)
    requires OrdersByUserKey(userId) in entries
    ensures OrdersByUserKey(userId) !in Delete(orderId, removed).invalidated
    ensures WithCacheSpec(Without(entries, Delete(orderId, removed).invalidated), OrdersByUserKey(userId), answer)
              == Read(Without(entries, Delete(orderId, removed).invalidated), Ok(entries[OrdersByUserKey(userId)]), 0)
  {
    NumericIdKeysAreSeparate(orderId, userId);
    AllKeyIsNotAUserKey(userId);
  }

  /** A successful PUT clears the list of the owner the answer names, and that
      owner's next list read is a miss. */
  lemma PutRefreshesOwnerList(entries: Entries, orderId: string, updated: Json, produced: Result<Json>)
    requires updated != JNull && !ErrorIs(updated, OrderNotFound)
    ensures var key := ListKey(Some(Text(Member(updated, "userId"))));
            Text(Member(updated, "userId")) != "" ==>
              WithCacheSpec(Without(entries, Put(orderId, updated).value.invalidated), key, produced).calls == 1
  {
  }

  method Create(cache: Cache, body: Json, created: Json) returns (reply: Reply)
    modifies cache
    ensures cache.entries == Without(old(cache.entries), Post(body, created).invalidated)
    ensures reply == Reply(201, created)
  {
    reply := Apply(cache, Post(body, created));
  }

  /** A null answer rejects the handler before anything is deleted. */
  method Update(cache: Cache, orderId: string, updated: Json) returns (reply: Result<Reply>)
    modifies cache
    ensures Put(orderId, updated).Err? ==> cache.entries == old(cache.entries) && reply == Err(TypeError)
    ensures Put(orderId, updated).Ok? ==>
              cache.entries == Without(old(cache.entries), Put(orderId, updated).value.invalidated)
              && reply == Ok(NotFoundOr(updated, OrderNotFound))
  {
    match Put(orderId, updated)
    case Err(f) =>
      reply := Err(f);
    case Ok(o) =>
      var r := Apply(cache, o);
      reply := Ok(r);
  }

  method Remove(cache: Cache, orderId: string, removed: Json) returns (reply: Reply)
    modifies cache
    ensures cache.entries == Without(old(cache.entries), [OrdersAllKey, OrderByIdKey(orderId)])
    ensures reply == Reply(200, removed)
  {
    reply := Apply(cache, Delete(orderId, removed));
  }
}
