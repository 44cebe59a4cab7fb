/** The users service's data layer (service_users/src/services/userService.js):
    reads through its own cache, writes to the users table and then deletes
    the affected keys. */
module UserService {
  import opened Json
  import opened CacheAside
  import opened Store

  const UsersAllKey: string := "users:all"

  function UserByIdKey(id: string): string
  {
    "users:" + id
  }

  /** `invalidateCache(id)`: the list key, and the id's key when `id` is truthy. */
  function InvalidationKeys(id: Option<Json>): (keys: seq<string>)
    ensures |keys| >= 1 && keys[0] == UsersAllKey
    ensures forall k :: k in keys <==> k == UsersAllKey || (Truthy(id) && k == UserByIdKey(Text(id)))
  {
    [UsersAllKey] + if Truthy(id) then [UserByIdKey(Text(id))] else []
  }

  /** A new user's key is truthy, so its creation deletes the key of its id. */
  lemma CreateInvalidatesNewId(nextId: nat)
    requires nextId >= 1
    ensures UserByIdKey(NatText(nextId)) in InvalidationKeys(Some(JNum(nextId as real)))
  {
    assert Text(Some(JNum(nextId as real))) == NatText(nextId);
  }

  /** After a write the next read of that id is a miss that sees the new row. */
  lemma {:induction false} ReadAfterPatchSeesPatch(entries: Entries, rows: Rows, nextId: nat, id: string, payload: map<string, Json>)
    requires KeysBelow(rows, nextId) && IsKey(id)
    requires FindByPk(rows, ParseNat(id)).Some?
    ensures var i := IndexOf(rows, ParseNat(id)).value;
            var after := Patch(rows, i, payload);
            var read := WithCacheSpec(Without(entries, InvalidationKeys(Some(JStr(id)))), UserByIdKey(id), LookupPk(after, id));
            read.calls == 1 && read.result == Ok(RowJson(after[i]))
  {
    var i := IndexOf(rows, ParseNat(id)).value;
    PatchKeepsKeysBelow(rows, nextId, i, payload);
    FindUnique(Patch(rows, i, payload), nextId, i);
  }

  /** A lookup of a missing id caches `null`; creating that user later clears
      it only when the id was written without leading zeros. */
  lemma CachedMissClearedByCreate(entries: Entries, nextId: nat)
    requires nextId >= 1
    ensures UserByIdKey(NatText(nextId)) !in Without(entries, InvalidationKeys(Some(JNum(nextId as real))))
    ensures UserByIdKey("0" + NatText(nextId)) in entries ==>
              UserByIdKey("0" + NatText(nextId)) in Without(entries, InvalidationKeys(Some(JNum(nextId as real))))
  {
    CreateInvalidatesNewId(nextId);
    assert Text(Some(JNum(nextId as real))) == NatText(nextId);
    var s := NatText(nextId);
    assert |UserByIdKey("0" + s)| == |UserByIdKey(s)| + 1;
    assert UserByIdKey("0" + s) == "users:0" + s;
    assert UsersAllKey == "users:a" + "ll";
    PrefixesDiffer("users:0", "users:a", 6, s, "ll");
  }

  class Users {
    var rows: Rows
    var nextId: nat
    const cache: Cache

    predicate Valid()
      reads this
    {
      nextId >= 1 && KeysBelow(rows, nextId)
    }

    constructor (cache: Cache)
      ensures Valid() && rows == [] && nextId == 1 && this.cache == cache
    {
      rows := [];
      nextId := 1;
      this.cache := cache;
    }

    /** `listUsers()` */
    method ListUsers() returns (r: Result<Json>)
      modifies cache
      ensures var read := WithCacheSpec(old(cache.entries), UsersAllKey, Ok(RowsJson(rows)));
              cache.entries == read.entries && r == read.result
    {
      var calls;
      r, calls := cache.WithCache(UsersAllKey, 30, Ok(RowsJson(rows)));
    }

    /** `getUser(id)`: a missing user is cached as `null` like any other value. */
    method GetUser(id: string) returns (r: Result<Json>)
      modifies cache
      ensures var read := WithCacheSpec(old(cache.entries), UserByIdKey(id), LookupPk(rows, id));
              cache.entries == read.entries && r == read.result
    {
      var calls;
      r, calls := cache.WithCache(UserByIdKey(id), 30, LookupPk(rows, id));
    }

    /** `createUser(payload)` */
    method CreateUser(payload: map<string, Json>) returns (created: Json)
      requires Valid()
      modifies this, cache
      ensures Valid()
      ensures rows == Insert(old(rows), old(nextId), payload) && nextId == old(nextId) + 1
      ensures created == RowJson(Row(old(nextId), payload))
      ensures cache.entries == Without(old(cache.entries), InvalidationKeys(Some(JNum(old(nextId) as real))))
    {
      InsertKeepsKeysBelow(rows, nextId, payload);
      var row := Row(nextId, payload);
      rows := Insert(rows, nextId, payload);
      nextId := nextId + 1;
      created := RowJson(row);
      cache.Invalidate(InvalidationKeys(Member(created, "id")));
    }

    /** `updateUser(id, payload)`: `null` and no effect for a missing user. */
    method UpdateUser(id: string, payload: map<string, Json>) returns (r: Result<Json>)
      requires Valid()
      modifies this, cache
      ensures Valid() && nextId == old(nextId)
      ensures !IsKey(id) ==> r == Err(Pk(id).fault) && rows == old(rows) && cache.entries == old(cache.entries)
      ensures IsKey(id) && FindByPk(old(rows), ParseNat(id)).None? ==>
                r == Ok(JNull) && rows == old(rows) && cache.entries == old(cache.entries)
      ensures IsKey(id) && FindByPk(old(rows), ParseNat(id)).Some? ==>
                var i := IndexOf(old(rows), ParseNat(id)).value;
                && rows == Patch(old(rows), i, payload)
                && r == Ok(RowJson(rows[i]))
                && cache.entries == Without(old(cache.entries), InvalidationKeys(Some(JStr(id))))
    {
      var key := Pk(id);
      if key.Err? {
        return Err(key.fault);
      }
      var found := IndexOf(rows, key.value);
      if found.None? {
        return Ok(JNull);
      }
      var i := found.value;
      PatchKeepsKeysBelow(rows, nextId, i, payload);
      rows := Patch(rows, i, payload);
      cache.Invalidate(InvalidationKeys(Some(JStr(id))));
      r := Ok(RowJson(rows[i]));
    }

    /** `deleteUser(id)`: `null` and no effect for a missing user. */
    method DeleteUser(id: string) returns (r: Result<Json>)
      requires Valid()
      modifies this, cache
      ensures Valid() && nextId == old(nextId)
      ensures !IsKey(id) ==> r == Err(Pk(id).fault) && rows == old(rows) && cache.entries == old(cache.entries)
      ensures IsKey(id) && FindByPk(old(rows), ParseNat(id)).None? ==>
                r == Ok(JNull) && rows == old(rows) && cache.entries == old(cache.entries)
      ensures IsKey(id) && FindByPk(old(rows), ParseNat(id)).Some? ==>
                var i := IndexOf(old(rows), ParseNat(id)).value;
                && rows == Destroy(old(rows), i)
                && FindByPk(rows, ParseNat(id)).None?
                && r == Ok(RowJson(old(rows)[i]))
                && cache.entries == Without(old(cache.entries), InvalidationKeys(Some(JStr(id))))
    {
      var key := Pk(id);
      if key.Err? {
        return Err(key.fault);
      }
      var found := IndexOf(rows, key.value);
      if found.None? {
        return Ok(JNull);
      }
      var i := found.value;
      var user := rows[i];
      DestroyKeepsKeysBelow(rows, nextId, i);
      rows := Destroy(rows, i);
      cache.Invalidate(InvalidationKeys(Some(JStr(id))));
      r := Ok(RowJson(user));
    }
  }
}
