# Cache-aside gateway and services: a Dafny model

This project models the caching and invalidation core of a small microservice
system. The system has an API gateway in front of three services: users,
orders and reviews. Every component keeps a *cache-aside* store in Redis:

- `withCache(key, ttl, producer)` serves a stored value, or runs the producer
  and stores what it yields;
- `invalidate(keys)` deletes a list of keys.

The model covers four parts.

- **The gateway.**
  - The cache-aside store.
  - The HTTP clients: every operation maps to one request on one shared
    circuit.
  - The circuit action: it accepts a status exactly when it is 2xx or 404.
    Every other status is a breaker failure, as is a request that gets no
    response.
  - The route handlers. Each one derives cache keys from route parameters
    or response fields. On every branch it deletes a stated key set, or
    nothing.
  - The `/users/:id/details` aggregate: a user merged with that user's
    orders, cached as one value.
- **The three services.**
  - Their key functions and their conditional `invalidateCache` key lists.
  - Their CRUD operations, over a store of rows kept in insertion order.
  - The review service's rule of at most one review per order.
  - The exact shape of the review average.
- **The Joi payload schemas** for orders and reviews, as predicates.
- **The migration runner** shared by the orders and reviews services.

State that the source changes in place is modelled as classes that the
methods update:

- the Redis store: `CacheAside.Cache`;
- a service's table and id counter, together with its cache:
  `UserService.Users`, `OrderService.Orders`, `ReviewService.Reviews`;
- the database a migration run works on: `Migrations.Runner`.

Each such method is specified by a pure function of the old state. The
properties are proved about those functions.

Results from elsewhere are parameters of type `Result<Json>` or `Json`:

- a backend's HTTP answer;
- a producer's outcome;
- the outcome of a database call.

A JavaScript rejection is an `Err` carrying a `Fault`:

- `TypeError`, for property access on `null` or `.filter` on a non-array;
- `NoResponse`;
- an HTTP status;
- a database error code.

`v?.k` is `Json.Member`, which yields `None` for `undefined`. Template-literal
rendering is `Json.Text`, so `${undefined}` is the text `"undefined"`.

Facts of the source that the model makes explicit:

- **The catch block's 404 branch in the circuit action is dead.**
  `validateStatus` already accepts 404.
- **The gateway's 409 branch for a duplicate review is dead.**
  - The review service answers the duplicate with HTTP 409.
  - The circuit counts 409 as a failure and substitutes the fallback body.
  - So the gateway answers 500 with the fallback, not 409.
- **Some keys are never invalidated.**
  - The gateway's order DELETE leaves every by-user order list in place.
  - No mutation in the gateway ever deletes `gw:user-details:<id>`.
  - In the order service, `invalidateCache(id, 0)` skips the owner's list key
    because `0` is falsy.
- **Keys are rendered from the route text, while the store parses it.**
  - `"05"` and `"5"` name the same row, but give different cache keys.
  - Creating row 5 clears `users:5` but not `users:05`.
  - `2147483648` is all digits but lies above the int4 range of the id
    columns. A lookup of it rejects with 22003, and nothing is cached.

The breaker itself lives in a library and is represented only by its verdict
(`Circuit.Gate`): admitted, open or timed out.

## Model

| member | source | states |
|---|---|---|
| CacheAside.WithCacheSpec | service_orders/api_gateway/src/services/cacheService.js:3-9 | at most one producer call; the only key that can be written is `key`, and only when the producer yields; every other entry is unchanged |
| CacheAside.Without | service_orders/api_gateway/src/services/cacheService.js:11-13 | no listed key remains; every unlisted entry is kept unchanged; no key is added |
| CacheAside.HitServesStored | service_orders/api_gateway/src/services/cacheService.js:4-5 | a hit returns the stored value, makes no producer call and leaves the store unchanged |
| CacheAside.MissStoresProduced | service_orders/api_gateway/src/services/cacheService.js:6-8 | a miss makes exactly one producer call, and stores and returns its value verbatim, whatever its shape (not-found and fallback bodies included) |
| CacheAside.FailureWritesNothing | service_orders/api_gateway/src/services/cacheService.js:6-7 | a producer that rejects writes nothing, and the rejection propagates |
| CacheAside.AtMostOneProducerCall | service_orders/api_gateway/src/services/cacheService.js:3-9 | two consecutive reads of one key make at most one producer call, unless the first one rejected; after a successful first read, the second is a hit with the same value |
| CacheAside.InvalidateIdempotent | service_orders/api_gateway/src/services/cacheService.js:11-13 | invalidating the same keys twice is the same as invalidating them once |
| CacheAside.InvalidateAbsentIsNoOp | service_orders/api_gateway/src/services/cacheService.js:11-13 | deleting keys that are not stored changes nothing |
| CacheAside.InvalidateOrderIrrelevant | service_orders/api_gateway/src/services/cacheService.js:11-13 | the order and repetition of the keys (the `Promise.all` fan-out) do not matter |
| CacheAside.InvalidateCompose | service_orders/api_gateway/src/services/cacheService.js:11-13 | two invalidations in a row equal one invalidation of both lists |
| CacheAside.ReadAfterInvalidateMisses | service_orders/api_gateway/src/services/cacheService.js:3-13 | after a key is invalidated, the next read runs the producer once and passes on its outcome |
| CacheAside.ReadOfUntouchedKeyHits | service_orders/api_gateway/src/services/cacheService.js:3-13 | a stored key that the invalidation does not name keeps being served without a producer call |
| CacheAside.Cache.WithCache | service_orders/api_gateway/src/services/cacheService.js:3-9 | the new store, the result and the producer-call count are those of `WithCacheSpec` |
| CacheAside.Cache.Invalidate | service_orders/api_gateway/src/services/cacheService.js:11-13 | the per-key delete loop leaves exactly `Without(old store, keys)` |
| Circuit.CreateCircuit | api_gateway/src/lib/circuit.js:4-8 | every breaker has timeout 3000, error threshold 50 % and reset timeout 3000, plus its client's fallback |
| Circuit.Action | api_gateway/src/lib/circuit.js:11-24 | the action resolves exactly for a response with a 2xx or 404 status, and then with that response's body; a transport error rejects with `NoResponse`; any other status rejects with that status |
| Circuit.NotFoundIsNeverAFailure | api_gateway/src/lib/circuit.js:16-22 | a 404 is returned as its body and never counted as a failure |
| Circuit.ClientErrorsAreFailures | api_gateway/src/lib/circuit.js:19-23 | 400, 409, every 5xx and an unreachable backend are breaker failures |
| Circuit.CatchBranchNeverSeesNotFound | api_gateway/src/lib/circuit.js:20-22 | every status that reaches the catch block is not 404, so the catch block's 404 branch is dead |
| Circuit.Fire | api_gateway/src/lib/circuit.js:11-25 | an open or timed-out breaker, and an admitted call that the action rejects, both yield the fallback; an accepted response yields its body |
| UsersClient.RequestFor | api_gateway/src/clients/usersClient.js:10-14 | each operation's verb, URL and body: GET/POST on `/users`; GET/PUT/DELETE on `/users/<id>`; the payload is sent as data exactly for create and update |
| UsersClient.RequestInjective | api_gateway/src/clients/usersClient.js:10-14 | distinct operations send distinct requests |
| OrdersClient.RequestFor | api_gateway/src/clients/ordersClient.js:10-16 | as for users, on `/orders`, plus GETs of `/orders/status` and `/orders/health` |
| OrdersClient.GetByIdShadowsProbes | api_gateway/src/clients/ordersClient.js:11-16 | `getById("status")` and `getById("health")` send exactly the probe requests |
| OrdersClient.RequestInjective | api_gateway/src/clients/ordersClient.js:10-16 | apart from those two ids, distinct operations send distinct requests |
| ReviewsClient.RequestFor | service_orders/api_gateway/src/clients/reviewsClient.js:10-21 | every operation's verb, URL and body: the `?product=` query only for a non-empty product, `/reviews/order/<o>`, `/reviews/product/<enc p>/average`, and the probes |
| ReviewsClient.RequestsDiffer | service_orders/api_gateway/src/clients/reviewsClient.js:10-21 | when the encoder is injective, distinct operations send distinct requests; the exceptions are ids that contain `/` or name a probe, and a listing with an empty product |
| ReviewsClient.EmptyProductListsAll | service_orders/api_gateway/src/clients/reviewsClient.js:10-11 | a listing with the empty product sends the unfiltered request |
| Gateway.NotFoundOr | api_gateway/src/routes/users.js:16-17 | status 404 exactly when the value's `error` is the not-found message, 200 otherwise; the body is the value itself |
| Gateway.FilterOwned | api_gateway/src/routes/orders.js:29 | succeeds exactly when no element is null (otherwise a TypeError); the result is an order-preserving subsequence holding exactly the elements whose `String(userId)` is the query |
| Gateway.FilterList | api_gateway/src/routes/orders.js:28-29 | a list that is not an array, such as the orders fallback object, makes `.filter` throw a TypeError; otherwise the result is as for `FilterOwned` |
| Gateway.FilterKeepsOwnedList | api_gateway/src/routes/orders.js:29 | no owner's element is dropped: a list whose elements all belong to the owner is kept whole |
| Gateway.FilterIdempotent | api_gateway/src/routes/orders.js:29 | filtering an already filtered list changes nothing |
| Gateway.Apply | api_gateway/src/routes/users.js:29-30 | the handler's keys are deleted, then its reply is sent |
| UsersRoutes.UserKeysInjective | api_gateway/src/routes/users.js:6-7 | `gw:users:<id>` determines the id, and equals the list key only for the id `all` |
| UsersRoutes.NumericIdNeverHitsListKey | api_gateway/src/routes/users.js:6-7 | a numeric id's key is never the list key |
| UsersRoutes.Post | api_gateway/src/routes/users.js:20-24 | replies 201 with the created value and deletes only `gw:users:all`, whatever the create returned |
| UsersRoutes.Put | api_gateway/src/routes/users.js:26-31 | a not-found result gives 404 and deletes nothing; otherwise the reply is 200 and exactly {all, byId(param)} are deleted |
| UsersRoutes.Delete | api_gateway/src/routes/users.js:33-37 | always replies 200 and deletes exactly {all, byId(param)}, even for a not-found or fallback result |
| UsersRoutes.CreatedUserStillNotFound | api_gateway/src/routes/users.js:14-24 | a cached not-found for an id survives POST, so that id stays 404 from the cache |
| UsersRoutes.AfterWriteUserIsRefetched | api_gateway/src/routes/users.js:26-37 | after a successful PUT or any DELETE, the next GET of that user refetches from the backend |
| UsersRoutes.List | api_gateway/src/routes/users.js:9-12 | reads through `gw:users:all` and replies 200 with the value |
| UsersRoutes.Get | api_gateway/src/routes/users.js:14-18 | reads through `gw:users:<id>`; the reply is 404 exactly for the not-found body |
| UsersRoutes.Create | api_gateway/src/routes/users.js:20-24 | the store loses exactly `gw:users:all`; the reply is 201 |
| UsersRoutes.Update | api_gateway/src/routes/users.js:26-31 | the store loses exactly `Put`'s keys; the reply is `Put`'s |
| UsersRoutes.Remove | api_gateway/src/routes/users.js:33-37 | the store loses exactly {all, byId}; the reply is 200 |
| OrdersRoutes.OrderKeysInjective | api_gateway/src/routes/orders.js:6-8 | each key function determines its argument; an id key equals the list key only for `all`, and equals a by-user key only for `user:<u>` |
| OrdersRoutes.NumericIdKeysAreSeparate | api_gateway/src/routes/orders.js:6-8 | a numeric order id's key is neither the list key nor any by-user key |
| OrdersRoutes.AllKeyIsNotAUserKey | api_gateway/src/routes/orders.js:6-7 | no by-user key is the list key |
| Gateway.Route | api_gateway/src/routes/orders.js:10-24 | `status` and `health` go to the probe handlers, which are registered first; every other segment reaches the by-id handler (the reviews routes at reviews.js:13-36 are routed the same way) |
| OrdersRoutes.ListKey | api_gateway/src/routes/orders.js:26-34 | a non-empty `userId` query uses `gw:orders:user:<u>`; otherwise the list uses `gw:orders:all` |
| OrdersRoutes.ListProduced | api_gateway/src/routes/orders.js:27-32 | the unfiltered list, or the list filtered by owner |
| OrdersRoutes.FilteredListIsOwnersSubsequence | api_gateway/src/routes/orders.js:27-30 | a miss on the by-user key caches the order-preserving subsequence of exactly the owner's orders; a non-array answer rejects with a TypeError and caches nothing |
| OrdersRoutes.List | api_gateway/src/routes/orders.js:26-34 | the handler reads through `ListKey` with `ListProduced`; a rejection propagates |
| OrdersRoutes.Get | api_gateway/src/routes/orders.js:10-24 | probes bypass the cache; order ids read through `gw:orders:<id>`, with 404 exactly for the not-found body |
| OrdersRoutes.Post | api_gateway/src/routes/orders.js:36-40 | replies 201 and deletes exactly {all, byUser(`${body.userId}`)}, whatever the create returned |
| OrdersRoutes.Put | api_gateway/src/routes/orders.js:42-47 | a null result throws; a not-found result gives 404 and deletes nothing; otherwise exactly {all, byId(param), byUser(`${updated.userId}`)} are deleted |
| OrdersRoutes.Delete | api_gateway/src/routes/orders.js:49-53 | replies 200 and deletes exactly {all, byId(param)} |
| OrdersRoutes.DeleteKeepsOwnerLists | api_gateway/src/routes/orders.js:49-53 | no by-user list is deleted, so a cached owner list keeps serving the deleted order |
| OrdersRoutes.PutRefreshesOwnerList | api_gateway/src/routes/orders.js:42-47 | after a successful PUT, the next read of the updated owner's list is refetched |
| OrdersRoutes.Create | api_gateway/src/routes/orders.js:36-40 | the store loses exactly `Post`'s keys |
| OrdersRoutes.Update | api_gateway/src/routes/orders.js:42-47 | the store loses exactly `Put`'s keys; a TypeError changes nothing |
| OrdersRoutes.Remove | api_gateway/src/routes/orders.js:49-53 | the store loses exactly {all, byId} |
| ReviewsRoutes.ReviewKeysInjective | api_gateway/src/routes/reviews.js:7-11 | each of the product, id, order and average key functions determines its argument |
| ReviewsRoutes.ReviewKeyFamiliesDisjoint | api_gateway/src/routes/reviews.js:7-11 | the list, product, order and average families never share a key |
| ReviewsRoutes.NumericIdKeyIsSeparate | api_gateway/src/routes/reviews.js:7-11 | a numeric review id's key lies outside every other family |
| ReviewsRoutes.ListKey | api_gateway/src/routes/reviews.js:23-30 | a non-empty product uses the product key; otherwise the list uses the all key |
| ReviewsRoutes.ListKeyMatchesRequest | api_gateway/src/routes/reviews.js:23-30 | the product key is used exactly when the client sends a product query |
| ReviewsRoutes.List | api_gateway/src/routes/reviews.js:23-30 | reads through `ListKey` and replies 200 |
| ReviewsRoutes.GetById | api_gateway/src/routes/reviews.js:13-36 | `status` and `health` are relayed with 200 and never cached; any other segment reads through `gw:reviews:<id>`, with 404 exactly for the not-found body |
| ReviewsRoutes.GetByOrder | api_gateway/src/routes/reviews.js:38-42 | reads through `gw:reviews:order:<o>`; 404 exactly for the not-found body |
| ReviewsRoutes.Average | api_gateway/src/routes/reviews.js:44-47 | reads through `gw:reviews:avg:<p>` and replies 200 |
| ReviewsRoutes.FiveKeys | api_gateway/src/routes/reviews.js:57-63 | the key set is exactly {all, product(p), order(o), id(i), avg(p)} |
| ReviewsRoutes.Post | api_gateway/src/routes/reviews.js:49-65 | a null result throws; the duplicate message gives 409; any other truthy error gives 500; neither deletes anything; otherwise 201, deleting the five keys from `body.product`, `body.orderId` and `created.id` |
| ReviewsRoutes.Written | api_gateway/src/routes/reviews.js:67-93 | for PUT and DELETE: not-found gives 404, any other error 500, neither deletes anything; otherwise 200, deleting the five keys built from the record's top-level fields |
| ReviewsRoutes.Put | api_gateway/src/routes/reviews.js:67-79 | the keys come from `updated.product` and `updated.orderId` |
| ReviewsRoutes.DeleteAsWritten | api_gateway/src/routes/reviews.js:81-93 | as written: the keys come from `removed.product` and `removed.orderId` |
| ReviewsRoutes.Delete | api_gateway/src/routes/reviews.js:81-93 | corrected: the keys come from the deleted record nested under `removed` |
| ReviewsRoutes.ServiceDeleteAnswer | service_reviews/src/routes/reviews.js:57 | the service's delete answer carries the record under `removed` and has no top-level `product` or `orderId` |
| ReviewsRoutes.DeleteAsWrittenMissesRecordKeys | api_gateway/src/routes/reviews.js:85-91 | on the service's real answer, the code as written deletes the `undefined` product, order and average keys and misses the record's own |
| ReviewsRoutes.DeleteClearsRecordKeys | api_gateway/src/routes/reviews.js:85-91 | the corrected delete removes all five of the record's keys |
| ReviewsRoutes.ServiceConflictBecomes500 | api_gateway/src/routes/reviews.js:51-56 | the service's 409 reaches the gateway as the fallback, so POST answers 500 and the 409 branch is dead |
| ReviewsRoutes.Create | api_gateway/src/routes/reviews.js:49-65 | the store loses exactly `Post`'s keys; a TypeError changes nothing |
| ReviewsRoutes.Update | api_gateway/src/routes/reviews.js:67-79 | the store loses exactly `Put`'s keys |
| ReviewsRoutes.Remove | api_gateway/src/routes/reviews.js:81-93 | as written: the store loses exactly `DeleteAsWritten`'s keys; a TypeError changes nothing |
| ReviewsRoutes.RemoveCorrected | api_gateway/src/routes/reviews.js:81-93 | corrected: the store loses exactly `Delete`'s keys, the five keys of the deleted record |
| AggregateRoute.Details | api_gateway/src/routes/aggregate.js:11-18 | rejects exactly when the order filter throws; a not-found user is the value itself; otherwise the value is the object {user, orders: filtered list} |
| AggregateRoute.GetDetails | api_gateway/src/routes/aggregate.js:9-22 | reads through `gw:user-details:<id>`; 404 exactly for the not-found body; a rejection propagates and caches nothing |
| AggregateRoute.DetailsOrdersAreOwnersOrders | api_gateway/src/routes/aggregate.js:14-17 | the merged `orders` is the order-preserving subsequence of exactly the user's orders |
| AggregateRoute.UserOutageIsCachedAs200 | api_gateway/src/routes/aggregate.js:11-21 | when the users breaker does not admit the call, {user: fallback, orders} is cached and answered with 200 |
| AggregateRoute.OrdersOutageRejects | api_gateway/src/routes/aggregate.js:12-15 | when the orders breaker does not admit the call, `.filter` on the fallback object throws and nothing is cached |
| AggregateRoute.DetailsKeyOutsideFamilies | api_gateway/src/routes/aggregate.js:7 | `gw:user-details:<id>` is never a users, orders or reviews key |
| AggregateRoute.UserMutationsKeepDetails | api_gateway/src/routes/users.js:20-37 | no user POST, PUT or DELETE deletes a details key |
| AggregateRoute.OrderMutationsKeepDetails | api_gateway/src/routes/orders.js:36-53 | no order POST, PUT or DELETE deletes a details key |
| AggregateRoute.FiveKeysKeepDetails | api_gateway/src/routes/reviews.js:57-63 | the review key sets never contain a details key |
| AggregateRoute.ReviewMutationsKeepDetails | api_gateway/src/routes/reviews.js:49-93 | no review POST, PUT, DELETE as written or corrected DELETE deletes a details key |
| AggregateRoute.DetailsStaleAfterUserUpdate | api_gateway/src/routes/users.js:26-31 | after a user PUT, a cached details entry is still served unchanged |
| Store.Pk | service_users/src/services/userService.js:28 | an id text is accepted as a key exactly when it is all digits and at most 2147483647, the int4 maximum; other text fails with 22P02, a larger number with 22003 |
| Store.Int4Boundary | service_users/src/services/userService.js:28 | `2147483648` is refused with 22003, `2147483647` is a key |
| Store.LookupPk | service_users/src/services/userService.js:28 | `findByPk` on a route parameter, shared by the three services: fails with `Pk`'s error exactly when the text is not an int4 key; otherwise the found row, or null |
| Store.FindByPk | service_users/src/services/userService.js:28 | finds a row holding the key, or reports that no row holds it |
| Store.FindUnique | service_users/src/services/userService.js:38 | when keys are unique, the lookup finds exactly the row holding that key |
| Store.ParseNatText | service_users/src/services/userService.js:28 | parsing the decimal text of n gives back n |
| Store.LeadingZeroNamesSameKey | service_users/src/services/userService.js:5 | `05` and `5` name the same row, yet give different cache keys |
| Store.Insert | service_users/src/services/userService.js:32 | appends exactly one row with the next id and keeps the others |
| Store.Patch | service_users/src/services/userService.js:40 | changes only that row: the payload's fields override, the other fields and the id stay |
| Store.Destroy | service_users/src/services/userService.js:48 | removes exactly that row and keeps the order of the rest |
| Store.InsertKeepsKeysBelow | service_users/src/services/userService.js:32 | ids stay unique and below the counter |
| Store.PatchKeepsKeysBelow | service_users/src/services/userService.js:40 | ids stay unique and below the counter |
| Store.DestroyKeepsKeysBelow | service_users/src/services/userService.js:48 | ids stay unique, and the destroyed id is no longer found |
| Store.Where | service_orders/src/services/orderService.js:27 | an order-preserving subsequence of exactly the rows whose column equals the value |
| Store.FindOne | service_reviews/src/services/reviewService.js:33 | none exactly when no row matches; otherwise a matching row |
| UserService.InvalidationKeys | service_users/src/services/userService.js:17-21 | always `users:all`, plus `users:<id>` exactly when the id is truthy |
| UserService.CreateInvalidatesNewId | service_users/src/services/userService.js:31-35 | create deletes the new id's key |
| UserService.ReadAfterPatchSeesPatch | service_users/src/services/userService.js:37-43 | after an update, the next `getUser` refetches and returns the patched row |
| UserService.CachedMissClearedByCreate | service_users/src/services/userService.js:31-35 | create clears `users:<n>` but keeps a cached `users:0<n>` |
| UserService.Users.ListUsers | service_users/src/services/userService.js:23-25 | reads through `users:all` with all rows |
| UserService.Users.GetUser | service_users/src/services/userService.js:27-29 | reads through `users:<id>` with `LookupPk`, so a rejected text caches nothing |
| UserService.Users.CreateUser | service_users/src/services/userService.js:31-35 | inserts one row and deletes {all, byId(new id)} |
| UserService.Users.UpdateUser | service_users/src/services/userService.js:37-43 | a text that is not an int4 key fails with `Pk`'s error and changes nothing; a missing row gives null with no store or cache change; otherwise only that row is patched and {all, byId} are deleted |
| UserService.Users.DeleteUser | service_users/src/services/userService.js:45-51 | as for update, with the row removed and no longer found |
| OrderService.InvalidationKeys | service_orders/src/services/orderService.js:18-23 | always `orders:all`; `orders:<id>` exactly when the id is truthy; `orders:user:<u>` exactly when the userId is truthy |
| OrderService.OwnedRows | service_orders/src/services/orderService.js:27 | fails with `Pk`'s error (22P02 or 22003) exactly when the query is not an int4 value; otherwise the rows whose `userId` equals it |
| OrderService.ListKey | service_orders/src/services/orderService.js:25-30 | a truthy userId uses the by-user key; otherwise the list uses the all key |
| OrderService.ListProduced | service_orders/src/services/orderService.js:25-30 | the owner's rows, or all rows |
| OrderService.OwnerZeroListNeverCleared | service_orders/src/services/orderService.js:18-23 | an owner with userId 0 never has `orders:user:0` deleted |
| OrderService.UpdateInvalidatesOriginalOwner | service_orders/src/services/orderService.js:45-46 | a validated update keeps the row's owner, so the owner read after the patch is the original one |
| OrderService.CreateRefreshesOwnerList | service_orders/src/services/orderService.js:36-40 | after a create, the owner's list is refetched and includes the new order |
| OrderService.Orders.ListOrders | service_orders/src/services/orderService.js:25-30 | reads through `ListKey` with `ListProduced` |
| OrderService.Orders.GetOrder | service_orders/src/services/orderService.js:32-34 | reads through `orders:<id>` with `LookupPk` |
| OrderService.Orders.CreateOrder | service_orders/src/services/orderService.js:36-40 | inserts one row and deletes {all, byId(id), byUser(userId)} of the created record |
| OrderService.Orders.UpdateOrder | service_orders/src/services/orderService.js:42-48 | a text that is not an int4 key fails with `Pk`'s error and changes nothing; a missing row gives null with no change; otherwise the row is patched and the keys use the owner read after the patch |
| OrderService.Orders.DeleteOrder | service_orders/src/services/orderService.js:50-56 | as for update; the keys use the owner captured before the destroy |
| ReviewService.WriteKeys | service_reviews/src/services/reviewService.js:43-61 | exactly {id, order(orderId), all, product(product), avg(product)} of the review |
| ReviewService.InsertKeepsOnePerOrder | service_reviews/src/services/reviewService.js:36-44 | inserting after the duplicate check keeps at most one review per order |
| ReviewService.PatchKeepsOnePerOrder | service_reviews/src/services/reviewService.js:47-53 | a patch that does not set `orderId` keeps at most one review per order |
| ReviewService.DestroyKeepsOnePerOrder | service_reviews/src/services/reviewService.js:55-63 | a removal keeps at most one review per order |
| ReviewService.InsertKeepsRated | service_reviews/src/services/reviewService.js:42 | inserting a schema-accepted review keeps every rating within 1..5 |
| ReviewService.DestroyKeepsRated | service_reviews/src/services/reviewService.js:60 | a removal keeps every remaining rating within 1..5 |
| ReviewService.ValidatedUpdateKeepsOnePerOrder | service_reviews/src/services/reviewService.js:47-53 | a validated update keeps one review per order and every rating within 1..5 |
| ReviewService.ByOrderIsUnique | service_reviews/src/models/review.js:12 | with one review per order, the lookup by order finds exactly that review |
| ReviewService.LookupByOrder | service_reviews/src/services/reviewService.js:32-34 | fails with `Pk`'s error exactly when the order id is not an int4 value; otherwise the review of that order, or null |
| ReviewService.ListKey | service_reviews/src/services/reviewService.js:21-26 | a truthy product uses `reviews:product:<p>`; otherwise the list uses `reviews:all` |
| ReviewService.ListProduced | service_reviews/src/services/reviewService.js:21-26 | the product's rows, or all rows |
| ReviewService.Average | service_reviews/src/services/reviewService.js:65-80 | the result has exactly the fields product, avgRating and count; count is the number of the product's reviews; avgRating is null exactly when there are none (the fixed empty shape) |
| ReviewService.AverageWithinRatings | service_reviews/src/services/reviewService.js:65-80 | when ratings are valid, the mean rating lies between 1 and 5 |
| ReviewService.Reviews.List | service_reviews/src/services/reviewService.js:21-26 | reads through `ListKey` with `ListProduced` |
| ReviewService.Reviews.GetById | service_reviews/src/services/reviewService.js:28-30 | reads through `reviews:<id>` |
| ReviewService.Reviews.GetByOrder | service_reviews/src/services/reviewService.js:32-34 | reads through `reviews:order:<o>` |
| ReviewService.Reviews.AverageByProduct | service_reviews/src/services/reviewService.js:65-80 | reads through `reviews:avg:<p>` with `Average` |
| ReviewService.Reviews.Create | service_reviews/src/services/reviewService.js:36-45 | a duplicate order returns the error body and changes neither the store nor the cache; otherwise one row is inserted and its five keys are deleted; one review per order is kept |
| ReviewService.Reviews.Update | service_reviews/src/services/reviewService.js:47-53 | a text that is not an int4 key fails with `Pk`'s error and changes nothing; a missing id gives null with no side effects; otherwise the row is patched and its five keys are deleted |
| ReviewService.Reviews.Remove | service_reviews/src/services/reviewService.js:55-63 | as for update, with the keys taken from the record before the removal |
| OrderSchema.ValidateCreate | service_orders/src/schemas/orderSchema.js:3-8 | accepts exactly the bodies meeting the create rules, and adds `status` |
| OrderSchema.ValidateUpdate | service_orders/src/schemas/orderSchema.js:10-14 | accepts exactly the bodies meeting the update rules, with at least one key, unchanged |
| OrderSchema.CreatedOrderIsComplete | service_orders/src/schemas/orderSchema.js:3-7 | a validated order has an integer userId, a product of length at least 2, a positive amount and an allowed status |
| OrderSchema.ValidateCreateIdempotent | service_orders/src/schemas/orderSchema.js:3-8 | validating a validated order again gives the same order |
| OrderSchema.UpdateCannotChangeOwner | service_orders/src/schemas/orderSchema.js:10-14 | a validated update never carries `userId` or `id` |
| OrderSchema.UpdateRefusals | service_orders/src/schemas/orderSchema.js:10-14 | the validator refuses the empty update, an update of `userId` and an unknown status |
| ReviewSchema.ValidateCreate | service_reviews/src/schemas/reviewSchema.js:3-9 | accepts exactly the bodies meeting the create rules, unchanged |
| ReviewSchema.ValidateUpdate | service_reviews/src/schemas/reviewSchema.js:11-14 | accepts exactly the bodies meeting the update rules, with at least one key, unchanged |
| ReviewSchema.CommentMayBeEmptyOrNull | service_reviews/src/schemas/reviewSchema.js:8-13 | the comment may be `''` or null |
| ReviewSchema.RatingRefusals | service_reviews/src/schemas/reviewSchema.js:12 | a rating outside 1..5, or not an integer, is refused |
| ReviewSchema.UpdateKeepsGroupingKeys | service_reviews/src/schemas/reviewSchema.js:11-14 | a validated update never carries product, orderId, userId or id |
| Migrations.CreateTable | service_orders/src/database/migrate.js:10-11 | creates a missing table and leaves an existing one as it is (`CREATE TABLE IF NOT EXISTS`); only a broken connection makes it fail, with its fault |
| Migrations.EnsureTable | service_orders/src/database/migrate.js:47-58 | the table exists afterwards; the only error tolerated is one whose code is 42P07; every other error propagates |
| Migrations.GetApplied | service_orders/src/database/migrate.js:60-71 | the recorded names are returned, or [] exactly for a 42P01 error; every other error propagates |
| Migrations.InsertDone | service_orders/src/database/migrate.js:73-78 | succeeds exactly on a working connection with the table present and the name not yet recorded; appends the name |
| Migrations.Pending | service_orders/src/database/migrate.js:84 | an order-preserving subsequence of exactly the declared migrations whose name is not applied |
| Migrations.NothingPendingWhenAllApplied | service_orders/src/database/migrate.js:84 | once every declared name is applied, nothing is pending |
| Migrations.RunAllRan | service_orders/src/database/migrate.js:86-90 | the migrations that ran form a prefix of `pending`; on success, all of it |
| Migrations.RunAllRows | service_orders/src/database/migrate.js:86-90 | the recorded names are those of a prefix of `pending`; they are all the migrations that ran, except possibly the one whose recording failed; all of `pending` exactly on success |
| Migrations.RunAllShape | service_orders/src/database/migrate.js:86-90 | the two facts above together |
| Migrations.AppliedReadAfterEnsure | service_orders/src/database/migrate.js:82-83 | after a successful ensure on a working connection, the 42P01 branch is not taken |
| Migrations.OnlyPendingRun | service_orders/src/database/migrate.js:84-90 | only declared, not yet applied migrations run, in declared order; an applied one never reruns |
| Migrations.RunsOverPending | service_orders/src/database/migrate.js:80-90 | on a working connection, `migrate()` is the loop over the unapplied migrations |
| Migrations.SecondRunIsNoOp | service_orders/src/database/migrate.js:80-92 | after a successful run, a second run executes nothing and changes nothing |
| Migrations.FailureStopsTheRun | service_orders/src/database/migrate.js:88-89 | a migration whose `up` rejects is not recorded, nothing after it runs, and the run settles with that rejection |
| Migrations.DuplicateNameStopsTheRun | service_orders/src/database/migrate.js:86-90 | a name declared twice: the second `up` runs, its recording fails with 23505, and the run stops with one row written for two `up`s |
| Migrations.Runner.Migrate | service_orders/src/database/migrate.js:80-92 | the new tables, the recorded names, the log of migrations run and the outcome are those of `MigrateSpec` |
| Migrations.Runner.RunPending | service_orders/src/database/migrate.js:86-90 | the loop's final state and outcome are `RunAll`'s |
| Migrations.OrdersFromScratch | service_orders/src/database/migrate.js:5-11 | on an empty database, the runner creates `_migrations_orders` and `Orders` and records `001-create-orders`; run again, it does nothing |
| Migrations.ReviewsFromScratch | service_reviews/src/database/migrate.js:4-10 | the same for `_migrations_reviews`, `Reviews` and `001-create-reviews` |
| Migrations.ReviewsTableCreatedElsewhere | service_reviews/src/database/migrate.js:84-96 | a `Reviews` table created outside the runner is left as it is: the run completes and records `001-create-reviews` |

The reviews service's `migrate.js` repeats the orders runner line for line.
It differs only in its table name and its migration list. Both runners are
therefore `Migrations.Runner`, built with different constants.

## Left out

- The breaker's state machine: the rolling window, the open and half-open
  timing, and the failure counting. It belongs to the breaker library, so
  the model takes only its verdict, `Circuit.Gate`.
- TTL expiry and the clock. `ttlSeconds` is carried as a parameter with no
  effect.
- Redis connection handling, and failures of Redis calls themselves.
- Express routing, axios transport, server start-up and logging. They are
  plumbing around the modelled handlers.
- The service route files, beyond the two facts the gateway depends on:
  - a duplicate review is answered with 409;
  - the delete answer has the shape `{message, removed}`.
- Sequelize itself. The ORM is abstracted as rows kept in insertion order
  (`findAll` is assumed to return that order) with one auto-increment
  counter. Transactions, and the unique constraint under concurrent
  creates, are outside the model.
- An id text is accepted only when it is all digits and within the int4
  range (`Store.Pk`). PostgreSQL also accepts a sign and surrounding
  spaces; those spellings are not modelled.
- UserService.Users.CreateUser, OrderService.Orders.CreateOrder, ReviewService.Reviews.Create: the column checks
  of the INSERT are not modelled. A payload `userId` or `orderId` above
  2147483647, or an `amount` beyond `DECIMAL(10,2)`, is stored as given;
  PostgreSQL would reject it with 22003. The id counter is likewise
  unbounded, while PostgreSQL's serial column stops at 2147483647.
- Numbers are exact reals, not IEEE doubles. Three consequences are not
  captured:
  - JavaScript renders `1e21` and larger integers in exponent form, and
    rounds integers above 2^53. `Json.NumberText` writes every digit.
  - Sequelize returns a `DECIMAL(10,2)` amount as a rounded string. The
    model keeps the number given.
  - Joi's `min(2)` on a string counts UTF-16 code units, while
    `JoiRules.IsStringMin` counts characters. A character outside the
    Basic Multilingual Plane counts as 2 for Joi but as 1 here.
- Timestamps (`createdAt`, `updatedAt`, `runOn`), which Sequelize adds to
  every record.
- `ReviewService.Average`: PostgreSQL's `AVG` and `Number(...)` are
  floating point; the model states the mean as an exact real.
- The users schema. Its `email()` rule is Joi's internal grammar. Joi's
  type coercion and its error messages are also outside the model.
- `encodeURIComponent` is an uninterpreted function `Encoder`.
  `ReviewsClient.RequestsDiffer` assumes only that it is injective.
- The `Promise.all` fan-outs run in sequence. For `invalidate`,
  `CacheAside.InvalidateOrderIrrelevant` shows the order does not matter.
- `Migrations.Runner`: each migration's `up` is modelled as its one
  `createTable` call. Columns and indexes are not modelled.
- Migrations.CreateTable: as in Sequelize's PostgreSQL dialect, the call is
  `CREATE TABLE IF NOT EXISTS`. So an existing table is no error, and
  `ensureMigrationsTable`'s 42P07 branch is taken only for a fault that
  carries that code, such as a concurrent creation.
- Migrations.Runner: a database fault is a connection-wide `outage`, which
  every query of the run meets. A connection that breaks partway through a
  run is not modelled. `Migrations.FailureStopsTheRun` and
  `Migrations.DuplicateNameStopsTheRun` state the loop's failure paths
  directly.
- Environment-variable defaults for the service URLs. The base URL is a
  parameter.

## Findings

| source | as written | input that shows it | evidently intended | confidence | as-written member | corrected member |
|---|---|---|---|---|---|---|
| api_gateway/src/routes/reviews.js:85-91 | the review DELETE builds the product, order and average keys from `removed.product` and `removed.orderId` | a successful service delete answers `{message: 'Review deleted', removed: {product: 'book', orderId: 7, ...}}`; the gateway then deletes `gw:reviews:product:undefined`, `gw:reviews:order:undefined` and `gw:reviews:avg:undefined`, and keeps `gw:reviews:product:book`, `gw:reviews:order:7` and `gw:reviews:avg:book` | take the fields from the nested `removed` record, so the deleted review's listings, order lookup and average are refetched | not executed | ReviewsRoutes.DeleteAsWritten (ReviewsRoutes.DeleteAsWrittenMissesRecordKeys) | ReviewsRoutes.Delete (ReviewsRoutes.DeleteClearsRecordKeys) |
