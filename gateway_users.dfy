/** The gateway's `/users` routes (api_gateway/src/routes/users.js): reads go
    through the cache, mutations call the users service and then delete a fixed
    set of keys. Each handler takes what the users client resolved with; that
    client never rejects, because its circuit substitutes the fallback body. */
module UsersRoutes {
  import opened Json
  import opened CacheAside
  import opened Gateway

  const UsersAllKey: string := "gw:users:all"

  function UserByIdKey(id: string): string
  {
    "gw:users:" + id
  }

  const UserNotFound: string := "User not found"

  /** The by-id key determines the id, and collides with the list key only for
      the id "all". */
  lemma UserKeysInjective(a: string, b: string)
    ensures UserByIdKey(a) == UserByIdKey(b) <==> a == b
    ensures UserByIdKey(a) == UsersAllKey <==> a == "all"
  {
    if UserByIdKey(a) == UserByIdKey(b) {
      PrefixCancel("gw:users:", a, b);
    }
    if UserByIdKey(a) == UsersAllKey {
      assert UsersAllKey == "gw:users:" + "all";
      PrefixCancel("gw:users:", a, "all");
    }
  }

  /** A database id is never "all", so its key is never the list key. */
  lemma NumericIdNeverHitsListKey(id: string)
    requires NumericId(id)
    ensures UserByIdKey(id) != UsersAllKey
  {
    UserKeysInjective(id, "all");
    NumericIdStartsWithDigit(id, 'a');
  }

  // ---------------------------------------------------------------------------
  // What each mutating handler deletes and answers.

  /** POST `/`: only the list key, whatever the service answered. */
  function Post(created: Json): (o: Outcome)
    ensures o.reply == Reply(201, created)
    ensures forall k :: k in o.invalidated <==> k == UsersAllKey
  {
    Outcome(Reply(201, created), [UsersAllKey])
  }

  /** PUT `/:userId`: a not-found answer is relayed as 404 and deletes nothing;
      anything else deletes the list key and this user's key. */
  function Put(userId: string, updated: Json): (o: Outcome)
    ensures o.reply == NotFoundOr(updated, UserNotFound)
    ensures ErrorIs(updated, UserNotFound) ==> o.invalidated == []
    ensures !ErrorIs(updated, UserNotFound) ==>
              forall k :: k in o.invalidated <==> k == UsersAllKey || k == UserByIdKey(userId)
  {
    if ErrorIs(updated, UserNotFound) then Outcome(Reply(404, updated), [])
    else Outcome(Reply(200, updated), [UsersAllKey, UserByIdKey(userId)])
  }

  /** DELETE `/:userId`: both keys, unconditionally; the answer is relayed with 200. */
  function Delete(userId: string, removed: Json): (o: Outcome)
    ensures o.reply == Reply(200, removed)
    ensures forall k :: k in o.invalidated <==> k == UsersAllKey || k == UserByIdKey(userId)
  {
    Outcome(Reply(200, removed), [UsersAllKey, UserByIdKey(userId)])
  }

  // ---------------------------------------------------------------------------
  // Consequences for what later reads see.

  /** A not-found body cached for an id survives the creation of that user: POST
      deletes only the list key, so the next GET of the id still answers 404. */
  lemma {:induction false} CreatedUserStillNotFound(entries: Entries, id: string, created: Json, answer: Json)
    requires id != "all"
    requires UserByIdKey(id) in entries && ErrorIs(entries[UserByIdKey(id)], UserNotFound)
    ensures var after := Without(entries, Post(created).invalidated);
            var read := WithCacheSpec(after, UserByIdKey(id), Ok(answer));
            read.calls == 0 && read.result.Ok? && NotFoundOr(read.result.value, UserNotFound).status == 404
  {
    UserKeysInjective(id, "all");
  }

  /** After a successful PUT or any DELETE the next GET of that id asks the
      service again and answers from what the service says. */
  lemma AfterWriteUserIsRefetched(entries: Entries, id: string, written: Json, answer: Json)
    requires !ErrorIs(written, UserNotFound)
    ensures var read := WithCacheSpec(Without(entries, Put(id, written).invalidated), UserByIdKey(id), Ok(answer));
            read.calls == 1 && read.result == Ok(answer)
    ensures var read := WithCacheSpec(Without(entries, Delete(id, written).invalidated), UserByIdKey(id), Ok(answer));
            read.calls == 1 && read.result == Ok(answer)
  {
  }

  // ---------------------------------------------------------------------------
  // The handlers.

  /** GET `/`. */
  method List(cache: Cache, answer: Json) returns (reply: Reply)
    modifies cache
    ensures var r := WithCacheSpec(old(cache.entries), UsersAllKey, Ok(answer));
            cache.entries == r.entries && r.result.Ok? && reply == Reply(200, r.result.value)
  {
    var result, _ := cache.WithCache(UsersAllKey, 30, Ok(answer));
    reply := Reply(200, result.value);
  }

  /** GET `/:userId`: 404 exactly when the cached or fetched value is the
      service's not-found body. */
  method Get(cache: Cache, userId: string, answer: Json) returns (reply: Reply)
    modifies cache
    ensures var r := WithCacheSpec(old(cache.entries), UserByIdKey(userId), Ok(answer));
            cache.entries == r.entries && r.result.Ok? && reply == NotFoundOr(r.result.value, UserNotFound)
  {
    var result, _ := cache.WithCache(UserByIdKey(userId), 30, Ok(answer));
    reply := NotFoundOr(result.value, UserNotFound);
  }

  method Create(cache: Cache, created: Json) returns (reply: Reply)
    modifies cache
    ensures cache.entries == Without(old(cache.entries), [UsersAllKey]) && reply == Reply(201, created)
  {
    reply := Apply(cache, Post(created));
  }

  method Update(cache: Cache, userId: string, updated: Json) returns (reply: Reply)
    modifies cache
    ensures cache.entries == Without(old(cache.entries), Put(userId, updated).invalidated)
    ensures reply == NotFoundOr(updated, UserNotFound)
  {
    reply := Apply(cache, Put(userId, updated));
  }

  method Remove(cache: Cache, userId: string, removed: Json) returns (reply: Reply)
    modifies cache
    ensures cache.entries == Without(old(cache.entries), [UsersAllKey, UserByIdKey(userId)])
    ensures reply == Reply(200, removed)
  {
    reply := Apply(cache, Delete(userId, removed));
  }
}
