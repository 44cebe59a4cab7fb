/** The gateway's aggregate route `/users/:userId/details`
    (api_gateway/src/routes/aggregate.js): the user and the orders list are
    fetched together, the list is filtered by owner, and the merged value is
    cached under a key that no mutation ever deletes. */
module AggregateRoute {
  import opened Json
  import opened CacheAside
  import opened Gateway
  import opened Circuit
  import UsersClient
  import OrdersClient
  import UsersRoutes
  import OrdersRoutes
  import ReviewsRoutes

  function UserDetailsKey(userId: string): string
  {
    "gw:user-details:" + userId
  }

  /** The producer handed to `withCache`: both calls settle (`Promise.all`),
      the list is filtered, and a not-found user is returned as it is; a filter
      that throws rejects the whole producer, whatever the user was. */
  function Details(userId: string, user: Json, list: Json): (r: Result<Json>)
    ensures r.Err? <==> FilterList(list, userId).Err?
    ensures r.Err? ==> r.fault == TypeError
    ensures r.Ok? && ErrorIs(user, UsersRoutes.UserNotFound) ==> r.value == user
    ensures r.Ok? && !ErrorIs(user, UsersRoutes.UserNotFound) ==>
              r.value == JObj(map["user" := user, "orders" := FilterList(list, userId).value])
  {
    match FilterList(list, userId)
    case Err(f) => Err(f)
    case Ok(orders) =>
      if ErrorIs(user, UsersRoutes.UserNotFound) then Ok(user)
      else Ok(JObj(map["user" := user, "orders" := orders]))
  }

  /** The route: read through the cache, then 404 exactly for the not-found
      user; a rejected producer rejects the handler and stores nothing. */
  method GetDetails(cache: Cache, userId: string, user: Json, list: Json) returns (reply: Result<Reply>)
    modifies cache
    ensures var r := WithCacheSpec(old(cache.entries), UserDetailsKey(userId), Details(userId, user, list));
            cache.entries == r.entries
            && (r.result.Ok? ==> reply == Ok(NotFoundOr(r.result.value, UsersRoutes.UserNotFound)))
            && (r.result.Err? ==> reply == Err(r.result.fault))
  {
    var result, _ := cache.WithCache(UserDetailsKey(userId), 30, Details(userId, user, list));
    if result.Ok? {
      reply := Ok(NotFoundOr(result.value, UsersRoutes.UserNotFound));
    } else {
      reply := Err(result.fault);
    }
  }

  /** The merged orders are the owner's subsequence of the list, the same value
      the orders route caches for that owner. */
  lemma DetailsOrdersAreOwnersOrders(userId: string, user: Json, list: Json)
    requires userId != ""
    requires Details(userId, user, list).Ok? && !ErrorIs(user, UsersRoutes.UserNotFound)
    ensures var d := Details(userId, user, list).value;
            && Member(d, "user") == Some(user)
            && Member(d, "orders") == Some(OrdersRoutes.ListProduced(Some(userId), list).value)
            && list.JArr? && d.fields["orders"].JArr?
            && IsSubsequence(d.fields["orders"].items, list.items)
            && (forall x :: x in d.fields["orders"].items <==> x in list.items && Owns(x, userId))
  {
  }

  /** While the users service is unavailable the user part is the fallback body,
      which is not a not-found: the route answers 200 and caches it. */
  lemma UserOutageIsCachedAs200(entries: Entries, userId: string, gate: Gate, outcome: HttpOutcome, list: Json)
    requires gate != Admitted
    requires UserDetailsKey(userId) !in entries
    requires list.JArr? && JNull !in list.items
    ensures var user := Fire(UsersClient.UsersCircuit, gate, outcome);
            var r := WithCacheSpec(entries, UserDetailsKey(userId), Details(userId, user, list));
            && r.result.Ok?
            && r.entries == entries[UserDetailsKey(userId) := r.result.value]
            && Member(r.result.value, "user") == Some(UsersClient.Fallback)
            && NotFoundOr(r.result.value, UsersRoutes.UserNotFound).status == 200
  {
    assert Member(UsersClient.Fallback, "error") == Some(JStr("Users service temporarily unavailable"));
  }

  /** While the orders service is unavailable its fallback object has no
      `filter`: the producer rejects, nothing is cached, and the user data is
      not served either. */
  lemma OrdersOutageRejects(entries: Entries, userId: string, user: Json, gate: Gate, outcome: HttpOutcome)
    requires gate != Admitted
    requires UserDetailsKey(userId) !in entries
    ensures var list := Fire(OrdersClient.OrdersCircuit, gate, outcome);
            WithCacheSpec(entries, UserDetailsKey(userId), Details(userId, user, list)) == Read(entries, Err(TypeError), 1)
  {
  }

  // ---------------------------------------------------------------------------
  // No mutation deletes a details key.

  /** "gw:user-details:" differs from "gw:users:" at index 7 and from the order
      and review prefixes at index 3. */
  lemma DetailsKeyOutsideFamilies(userId: string, x: string)
    ensures UserDetailsKey(userId) != "gw:users:" + x
    ensures UserDetailsKey(userId) != "gw:orders:" + x
    ensures UserDetailsKey(userId) != "gw:reviews:" + x
  {
    PrefixesDiffer("gw:user-details:", "gw:users:", 7, userId, x);
    PrefixesDiffer("gw:user-details:", "gw:orders:", 3, userId, x);
    PrefixesDiffer("gw:user-details:", "gw:reviews:", 3, userId, x);
  }

  lemma UserMutationsKeepDetails(userId: string, id: string, created: Json, updated: Json, removed: Json)
    ensures UserDetailsKey(userId) !in UsersRoutes.Post(created).invalidated
    ensures UserDetailsKey(userId) !in UsersRoutes.Put(id, updated).invalidated
    ensures UserDetailsKey(userId) !in UsersRoutes.Delete(id, removed).invalidated
  {
    DetailsKeyOutsideFamilies(userId, "all");
    DetailsKeyOutsideFamilies(userId, id);
  }

  lemma OrderMutationsKeepDetails(userId: string, id: string, body: Json, created: Json, updated: Json, removed: Json)
    ensures UserDetailsKey(userId) !in OrdersRoutes.Post(body, created).invalidated
    ensures OrdersRoutes.Put(id, updated).Ok? ==> UserDetailsKey(userId) !in OrdersRoutes.Put(id, updated).value.invalidated
    ensures UserDetailsKey(userId) !in OrdersRoutes.Delete(id, removed).invalidated
  {
    DetailsKeyOutsideFamilies(userId, "all");
    DetailsKeyOutsideFamilies(userId, id);
    var bodyOwner := Text(Member(body, "userId"));
    var answerOwner := Text(Member(updated, "userId"));
    assert OrdersRoutes.OrdersByUserKey(bodyOwner) == "gw:orders:" + ("user:" + bodyOwner);
    assert OrdersRoutes.OrdersByUserKey(answerOwner) == "gw:orders:" + ("user:" + answerOwner);
    DetailsKeyOutsideFamilies(userId, "user:" + bodyOwner);
    DetailsKeyOutsideFamilies(userId, "user:" + answerOwner);
  }

  lemma FiveKeysKeepDetails(userId: string, product: string, orderId: string, id: string)
    ensures UserDetailsKey(userId) !in ReviewsRoutes.FiveKeys(product, orderId, id)
  {
    assert ReviewsRoutes.ReviewsByProductKey(product) == "gw:reviews:" + ("product:" + product);
    assert ReviewsRoutes.ReviewByOrderKey(orderId) == "gw:reviews:" + ("order:" + orderId);
    assert ReviewsRoutes.AvgByProductKey(product) == "gw:reviews:" + ("avg:" + product);
    DetailsKeyOutsideFamilies(userId, "all");
    DetailsKeyOutsideFamilies(userId, "product:" + product);
    DetailsKeyOutsideFamilies(userId, "order:" + orderId);
    DetailsKeyOutsideFamilies(userId, id);
    DetailsKeyOutsideFamilies(userId, "avg:" + product);
  }

  lemma ReviewMutationsKeepDetails(userId: string, id: string, body: Json, created: Json, updated: Json, removed: Json)
    ensures ReviewsRoutes.Post(body, created).Ok? ==> UserDetailsKey(userId) !in ReviewsRoutes.Post(body, created).value.invalidated
    ensures ReviewsRoutes.Put(id, updated).Ok? ==> UserDetailsKey(userId) !in ReviewsRoutes.Put(id, updated).value.invalidated
    ensures ReviewsRoutes.DeleteAsWritten(id, removed).Ok? ==> UserDetailsKey(userId) !in ReviewsRoutes.DeleteAsWritten(id, removed).value.invalidated
    ensures ReviewsRoutes.Delete(id, removed).Ok? ==> UserDetailsKey(userId) !in ReviewsRoutes.Delete(id, removed).value.invalidated
  {
    FiveKeysKeepDetails(userId, Text(Member(body, "product")), Text(Member(body, "orderId")), Text(Member(created, "id")));
    FiveKeysKeepDetails(userId, Text(Member(updated, "product")), Text(Member(updated, "orderId")), id);
    FiveKeysKeepDetails(userId, Text(Member(removed, "product")), Text(Member(removed, "orderId")), id);
    var record := ReviewsRoutes.DeletedRecord(removed);
    FiveKeysKeepDetails(userId, Text(Member(record, "product")), Text(Member(record, "orderId")), id);
  }

  /** Consequently a cached details value outlives an update of the user it
      shows: the next read is still a hit on the old value. */
  lemma DetailsStaleAfterUserUpdate(entries: Entries, userId: string, updated: Json, produced: Result<Json>)
    requires UserDetailsKey(userId) in entries
    ensures var after := Without(entries, UsersRoutes.Put(userId, updated).invalidated);
            WithCacheSpec(after, UserDetailsKey(userId), produced) == Read(after, Ok(entries[UserDetailsKey(userId)]), 0)
  {
    UserMutationsKeepDetails(userId, userId, JNull, updated, JNull);
  }
}
