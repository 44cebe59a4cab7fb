/** What the gateway's route handlers share: the reply they send, the keys a
    mutating handler deletes, the not-found test on a (possibly cached) backend
    answer, and the owner filter applied to the orders list. */
module Gateway {
  import opened Json
  import opened CacheAside

  /** `res.status(status).json(body)`; a bare `res.json(body)` is status 200. */
  datatype Reply = Reply(status: int, body: Json)

  /** What a mutating handler does: the keys it passes to `invalidate`, and the
      reply it sends once they are deleted. */
  datatype Outcome = Outcome(reply: Reply, invalidated: seq<string>)

  /** `if (v?.error === msg) return res.status(404).json(v); return res.json(v);` */
  function NotFoundOr(v: Json, msg: string): (r: Reply)
    ensures r.body == v
    ensures r.status == 404 <==> ErrorIs(v, msg)
    ensures r.status == 200 <==> !ErrorIs(v, msg)
  {
    if ErrorIs(v, msg) then Reply(404, v) else Reply(200, v)
  }

  /** Which handler a GET of `/<segment>` reaches: the `/status` and `/health`
      probes are registered before `/:id`, so those two segments never reach it. */
  datatype GetRoute = StatusProbe | HealthProbe | ById(id: string)

  function Route(segment: string): (r: GetRoute)
    ensures r == ById(segment) <==> segment != "status" && segment != "health"
    ensures r.ById? || r == StatusProbe || r == HealthProbe
    ensures r == StatusProbe <==> segment == "status"
  {
    if segment == "status" then StatusProbe
    else if segment == "health" then HealthProbe
    else ById(segment)
  }

  /** `String(o.userId) === String(userId)` for a non-null element `o`. */
  predicate Owns(o: Json, userId: string)
  {
    Text(Member(o, "userId")) == userId
  }

  /** `items.filter((o) => String(o.userId) === String(userId))`: reading
      `userId` of a null element throws. */
  function FilterOwned(items: seq<Json>, userId: string): (r: Result<seq<Json>>)
    ensures r.Ok? <==> JNull !in items
    ensures r.Err? ==> r.fault == TypeError
    ensures r.Ok? ==> IsSubsequence(r.value, items)
    ensures r.Ok? ==> forall x :: x in r.value <==> x in items && Owns(x, userId)
    decreases |items|
  {
    if |items| == 0 then Ok([])
    else if items[0] == JNull then Err(TypeError)
    else
      match FilterOwned(items[1..], userId)
      case Err(f) => Err(f)
      case Ok(rest) => if Owns(items[0], userId) then Ok([items[0]] + rest) else Ok(rest)
  }

  /** `list.filter(...)` on whatever the orders client resolved with: only an
      array has a `filter` method, so a fallback or not-found object throws. */
  function FilterList(list: Json, userId: string): (r: Result<Json>)
    ensures r.Ok? <==> list.JArr? && JNull !in list.items
    ensures r.Err? ==> r.fault == TypeError
    ensures r.Ok? ==> r.value.JArr? && IsSubsequence(r.value.items, list.items)
    ensures r.Ok? ==> forall x :: x in r.value.items <==> x in list.items && Owns(x, userId)
  {
    if !list.JArr? then Err(TypeError)
    else
      match FilterOwned(list.items, userId)
      case Err(f) => Err(f)
      case Ok(kept) => Ok(JArr(kept))
  }

  /** A list all of whose elements belong to `userId` passes through whole. */
  lemma {:induction false} FilterKeepsOwnedList(items: seq<Json>, userId: string)
    requires forall i :: 0 <= i < |items| ==> items[i] != JNull && Owns(items[i], userId)
    ensures FilterOwned(items, userId) == Ok(items)
    decreases |items|
  {
    if |items| > 0 {
      FilterKeepsOwnedList(items[1..], userId);
      assert [items[0]] + items[1..] == items;
    }
  }

  /** Filtering twice with the same owner is filtering once. */
  lemma {:induction false} FilterIdempotent(items: seq<Json>, userId: string)
    requires FilterOwned(items, userId).Ok?
    ensures FilterOwned(FilterOwned(items, userId).value, userId) == FilterOwned(items, userId)
  {
    var kept := FilterOwned(items, userId).value;
    forall i | 0 <= i < |kept|
      ensures kept[i] != JNull && Owns(kept[i], userId)
    {
      assert kept[i] in kept;
    }
    FilterKeepsOwnedList(kept, userId);
  }

  /** Runs a planned mutation: `await invalidate(keys)`, then the reply. */
  method Apply(cache: Cache, o: Outcome) returns (reply: Reply)
    modifies cache
    ensures cache.entries == Without(old(cache.entries), o.invalidated) && reply == o.reply
  {
    cache.Invalidate(o.invalidated);
    reply := o.reply;
  }
}
