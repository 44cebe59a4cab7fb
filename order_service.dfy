/** The orders service's data layer (service_orders/src/services/orderService.js):
    reads through its own cache (the list optionally by owner), writes to the
    orders table and then deletes the list key, the order's key and the owner's
    list key. */
module OrderService {
  import opened Json
  import opened CacheAside
  import opened Store
  import OrderSchema

  const OrdersAllKey: string := "orders:all"

  function OrdersByUserKey(userId: string): string
  {
    "orders:user:" + userId
  }

  function OrderByIdKey(id: string): string
  {
    "orders:" + id
  }

  /** `invalidateCache(id, userId)`: the list key, then the order's key when `id`
      is truthy, then the owner's list key when `userId` is truthy. */
  function InvalidationKeys(id: Option<Json>, userId: Option<Json>): (keys: seq<string>)
    ensures |keys| >= 1 && keys[0] == OrdersAllKey
    ensures forall k :: k in keys <==>
              k == OrdersAllKey
              || (Truthy(id) && k == OrderByIdKey(Text(id)))
              || (Truthy(userId) && k == OrdersByUserKey(Text(userId)))
  {
    [OrdersAllKey]
    + (if Truthy(id) then [OrderByIdKey(Text(id))] else [])
    + (if Truthy(userId) then [OrdersByUserKey(Text(userId))] else [])
  }

  /** `Order.findAll({ where: { userId } })` for a text owner. */
  function OwnedRows(rows: Rows, userId: string): (r: Result<Json>)
    ensures r.Err? <==> !IsKey(userId)
    ensures r.Err? ==> r == Err(Pk(userId).fault)
    ensures r.Ok? ==> r.value == RowsJson(Where(rows, "userId", JNum(ParseNat(userId) as real)))
  {
    match Pk(userId)
    case Err(f) => Err(f)
    case Ok(owner) => Ok(RowsJson(Where(rows, "userId", JNum(owner as real))))
  }

  /** `listOrders(userId)`: which key, and what the producer yields. */
  function ListKey(userId: Option<string>): (k: string)
    ensures userId.Some? && userId.value != "" ==> k == OrdersByUserKey(userId.value)
    ensures userId.None? || userId.value == "" ==> k == OrdersAllKey
  {
    if userId.Some? && userId.value != "" then OrdersByUserKey(userId.value) else OrdersAllKey
  }

  function ListProduced(rows: Rows, userId: Option<string>): (r: Result<Json>)
    ensures userId.None? || userId.value == "" ==> r == Ok(RowsJson(rows))
    ensures userId.Some? && userId.value != "" ==> r == OwnedRows(rows, userId.value)
  {
    if userId.Some? && userId.value != "" then OwnedRows(rows, userId.value) else Ok(RowsJson(rows))
  }

  /** An owner whose id is 0 is falsy: no write ever deletes that owner's list key. */
  lemma OwnerZeroListNeverCleared(id: Option<Json>)
    requires id.Some? ==> (id.value.JStr? && NumericId(id.value.s)) || (id.value.JNum? && id.value.n >= 0.0)
    ensures OrdersByUserKey("0") !in InvalidationKeys(id, Some(JNum(0.0)))
  {
    assert OrdersByUserKey("0") == "orders:" + "user:0";
    if Truthy(id) {
      var t := Text(id);
      assert t[0] != 'u' by {
        if id.value.JNum? {
          assert t == NumberText(id.value.n);
        }
      }
      if OrderByIdKey(t) == OrdersByUserKey("0") {
        PrefixCancel("orders:", t, "user:0");
      }
    }
  }

  /** A validated update does not touch the owner, so the owner the update
      invalidates for is the one the order had before. */
  lemma UpdateInvalidatesOriginalOwner(rows: Rows, i: nat, id: string, body: Json)
    requires i < |rows| && OrderSchema.ValidateUpdate(body).Some?
    ensures var after := Patch(rows, i, OrderSchema.ValidateUpdate(body).value);
            Member(RowJson(after[i]), "userId") == Member(RowJson(rows[i]), "userId")
  {
    OrderSchema.UpdateCannotChangeOwner(body);
  }

  /** Creating an order for a truthy owner clears that owner's list, and the
      next list read for the owner is a miss that shows the new order. */
  lemma {:induction false} CreateRefreshesOwnerList(entries: Entries, rows: Rows, nextId: nat, payload: map<string, Json>, owner: nat)
    requires nextId >= 1 && 1 <= owner <= MaxInt4
    requires "userId" in payload && payload["userId"] == JNum(owner as real)
    ensures var after := Insert(rows, nextId, payload);
            var keys := InvalidationKeys(Member(RowJson(Row(nextId, payload)), "id"), Member(RowJson(Row(nextId, payload)), "userId"));
            var read := WithCacheSpec(Without(entries, keys), ListKey(Some(NatText(owner))), ListProduced(after, Some(NatText(owner))));
            && read.calls == 1
            && read.result.Ok?
            && RowJson(Row(nextId, payload)) in read.result.value.items
  {
    var row := Row(nextId, payload);
    var after := Insert(rows, nextId, payload);
    assert Text(Some(JNum(owner as real))) == NatText(owner);
    ParseNatText(owner);
    var owned := Where(after, "userId", JNum(owner as real));
    assert row in after;
    assert row in owned;
    var i :| 0 <= i < |owned| && owned[i] == row;
    assert RowsJson(owned).items[i] == RowJson(row);
  }

  class Orders {
    var rows: Rows
    var nextId: nat
    const cache: Cache

    predicate Valid()
      reads this
    {
      nextId >= 1 && KeysBelow(rows, nextId)
    }

    constructor (cache: Cache)
      ensures Valid() && rows == [] && nextId == 1 && this.cache == cache
    {
      rows := [];
      nextId := 1;
      this.cache := cache;
    }

    /** `listOrders(userId)` */
    method ListOrders(userId: Option<string>) returns (r: Result<Json>)
      modifies cache
      ensures var read := WithCacheSpec(old(cache.entries), ListKey(userId), ListProduced(rows, userId));
              cache.entries == read.entries && r == read.result
    {
      var calls;
      r, calls := cache.WithCache(ListKey(userId), 30, ListProduced(rows, userId));
    }

    /** `getOrder(id)` */
    method GetOrder(id: string) returns (r: Result<Json>)
      modifies cache
      ensures var read := WithCacheSpec(old(cache.entries), OrderByIdKey(id), LookupPk(rows, id));
              cache.entries == read.entries && r == read.result
    {
      var calls;
      r, calls := cache.WithCache(OrderByIdKey(id), 30, LookupPk(rows, id));
    }

    /** `createOrder(payload)` */
    method CreateOrder(payload: map<string, Json>) returns (created: Json)
      requires Valid()
      modifies this, cache
      ensures Valid()
      ensures rows == Insert(old(rows), old(nextId), payload) && nextId == old(nextId) + 1
      ensures created == RowJson(Row(old(nextId), payload))
      ensures cache.entries == Without(old(cache.entries), InvalidationKeys(Member(created, "id"), Member(created, "userId")))
    {
      InsertKeepsKeysBelow(rows, nextId, payload);
      var row := Row(nextId, payload);
      rows := Insert(rows, nextId, payload);
      nextId := nextId + 1;
      created := RowJson(row);
      cache.Invalidate(InvalidationKeys(Member(created, "id"), Member(created, "userId")));
    }

    /** `updateOrder(id, payload)`: the owner key is read after the update. */
    method UpdateOrder(id: string, payload: map<string, Json>) returns (r: Result<Json>)
      requires Valid()
      modifies this, cache
      ensures Valid() && nextId == old(nextId)
      ensures !IsKey(id) ==> r == Err(Pk(id).fault) && rows == old(rows) && cache.entries == old(cache.entries)
      ensures IsKey(id) && FindByPk(old(rows), ParseNat(id)).None? ==>
                r == Ok(JNull) && rows == old(rows) && cache.entries == old(cache.entries)
      ensures IsKey(id) && FindByPk(old(rows), ParseNat(id)).Some? ==>
                var i := IndexOf(old(rows), ParseNat(id)).value;
                && rows == Patch(old(rows), i, payload)
                && r == Ok(RowJson(rows[i]))
                && cache.entries == Without(old(cache.entries), InvalidationKeys(Some(JStr(id)), Member(RowJson(rows[i]), "userId")))
    {
      var key := Pk(id);
      if key.Err? {
        return Err(key.fault);
      }
      var found := IndexOf(rows, key.value);
      if found.None? {
        return Ok(JNull);
      }
      var i := found.value;
      PatchKeepsKeysBelow(rows, nextId, i, payload);
      rows := Patch(rows, i, payload);
      var order := RowJson(rows[i]);
      cache.Invalidate(InvalidationKeys(Some(JStr(id)), Member(order, "userId")));
      r := Ok(order);
    }

    /** `deleteOrder(id)`: the owner is captured before the row is destroyed. */
    method DeleteOrder(id: string) returns (r: Result<Json>)
      requires Valid()
      modifies this, cache
      ensures Valid() && nextId == old(nextId)
      ensures !IsKey(id) ==> r == Err(Pk(id).fault) && rows == old(rows) && cache.entries == old(cache.entries)
      ensures IsKey(id) && FindByPk(old(rows), ParseNat(id)).None? ==>
                r == Ok(JNull) && rows == old(rows) && cache.entries == old(cache.entries)
      ensures IsKey(id) && FindByPk(old(rows), ParseNat(id)).Some? ==>
                var i := IndexOf(old(rows), ParseNat(id)).value;
                && rows == Destroy(old(rows), i)
                && FindByPk(rows, ParseNat(id)).None?
                && r == Ok(RowJson(old(rows)[i]))
                && cache.entries == Without(old(cache.entries), InvalidationKeys(Some(JStr(id)), Member(RowJson(old(rows)[i]), "userId")))
    {
      var key := Pk(id);
      if key.Err? {
        return Err(key.fault);
      }
      var found := IndexOf(rows, key.value);
      if found.None? {
        return Ok(JNull);
      }
      var i := found.value;
      var order := RowJson(rows[i]);
      var userId := Member(order, "userId");
      DestroyKeepsKeysBelow(rows, nextId, i);
      rows := Destroy(rows, i);
      cache.Invalidate(InvalidationKeys(Some(JStr(id)), userId));
      r := Ok(order);
    }
  }
}
