/** The gateway's three backend clients. Each operation builds exactly one
    request and fires it on its client's single circuit; the circuit's fallback
    is the client's "temporarily unavailable" body. `base` stands for the
    configured service URL. */

module UsersClient {
  import opened Json
  import opened Circuit

  const Fallback: Json := ErrorBody("Users service temporarily unavailable")
  const UsersCircuit: Breaker := CreateCircuit(Fallback)

  datatype Op =
    | List
    | GetById(id: string)
    | Create(payload: Json)
    | Update(id: string, payload: Json)
    | Remove(id: string)

  function RequestFor(base: string, op: Op): (r: Request)
    ensures r.verb == GET <==> op.List? || op.GetById?
    ensures r.verb == POST <==> op.Create?
    ensures r.verb == PUT <==> op.Update?
    ensures r.verb == DELETE <==> op.Remove?
    ensures r.data.Some? <==> op.Create? || op.Update?
    ensures r.data.Some? ==> r.data.value == op.payload
    ensures op.List? || op.Create? ==> r.url == base + "/users"
    ensures op.GetById? || op.Update? || op.Remove? ==> r.url == base + "/users/" + op.id
  {
    match op
    case List => Request(GET, base + "/users", None)
    case GetById(id) => Request(GET, base + "/users/" + id, None)
    case Create(payload) => Request(POST, base + "/users", Some(payload))
    case Update(id, payload) => Request(PUT, base + "/users/" + id, Some(payload))
    case Remove(id) => Request(DELETE, base + "/users/" + id, None)
  }

  /** Distinct operations never produce the same request. */
  lemma {:induction false} RequestInjective(base: string, a: Op, b: Op)
    requires RequestFor(base, a) == RequestFor(base, b)
    ensures a == b
  {
    if a.GetById? && b.GetById? {
      PrefixCancel(base + "/users/", a.id, b.id);
    } else if a.Update? && b.Update? {
      PrefixCancel(base + "/users/", a.id, b.id);
    } else if a.Remove? && b.Remove? {
      PrefixCancel(base + "/users/", a.id, b.id);
    }
  }
}

module OrdersClient {
  import opened Json
  import opened Circuit

  const Fallback: Json := ErrorBody("Orders service temporarily unavailable")
  const OrdersCircuit: Breaker := CreateCircuit(Fallback)

  datatype Op =
    | List
    | GetById(id: string)
    | Create(payload: Json)
    | Update(id: string, payload: Json)
    | Remove(id: string)
    | Status
    | Health

  function RequestFor(base: string, op: Op): (r: Request)
    ensures r.verb == GET <==> op.List? || op.GetById? || op.Status? || op.Health?
    ensures r.verb == POST <==> op.Create?
    ensures r.verb == PUT <==> op.Update?
    ensures r.verb == DELETE <==> op.Remove?
    ensures r.data.Some? <==> op.Create? || op.Update?
    ensures r.data.Some? ==> r.data.value == op.payload
    ensures op.List? || op.Create? ==> r.url == base + "/orders"
    ensures op.GetById? || op.Update? || op.Remove? ==> r.url == base + "/orders/" + op.id
    ensures op.Status? ==> r.url == base + "/orders/status"
    ensures op.Health? ==> r.url == base + "/orders/health"
  {
    match op
    case List => Request(GET, base + "/orders", None)
    case GetById(id) => Request(GET, base + "/orders/" + id, None)
    case Create(payload) => Request(POST, base + "/orders", Some(payload))
    case Update(id, payload) => Request(PUT, base + "/orders/" + id, Some(payload))
    case Remove(id) => Request(DELETE, base + "/orders/" + id, None)
    case Status => Request(GET, base + "/orders/status", None)
    case Health => Request(GET, base + "/orders/health", None)
  }

  /** An id is addressable by `getById` when it is not one of the probe names. */
  predicate Addressable(op: Op)
  {
    op.GetById? ==> op.id != "status" && op.id != "health"
  }

  /** `getById('status')` and `status()` are the very same request. */
  lemma GetByIdShadowsProbes(base: string)
    ensures RequestFor(base, GetById("status")) == RequestFor(base, Status)
    ensures RequestFor(base, GetById("health")) == RequestFor(base, Health)
  {
  }

  /** Apart from those two ids, distinct operations build distinct requests. */
  lemma {:induction false} RequestInjective(base: string, a: Op, b: Op)
    requires Addressable(a) && Addressable(b)
    requires RequestFor(base, a) == RequestFor(base, b)
    ensures a == b
  {
    if a.GetById? && b.GetById? {
      PrefixCancel(base + "/orders/", a.id, b.id);
    } else if a.GetById? && b.Status? {
      PrefixCancel(base + "/orders/", a.id, "status");
    } else if a.GetById? && b.Health? {
      PrefixCancel(base + "/orders/", a.id, "health");
    } else if a.Status? && b.GetById? {
      PrefixCancel(base + "/orders/", "status", b.id);
    } else if a.Health? && b.GetById? {
      PrefixCancel(base + "/orders/", "health", b.id);
    } else if a.Update? && b.Update? {
      PrefixCancel(base + "/orders/", a.id, b.id);
    } else if a.Remove? && b.Remove? {
      PrefixCancel(base + "/orders/", a.id, b.id);
    } else if a.List? != b.List? && RequestFor(base, a).verb == GET {
      assert false;
    } else if a.Status? && b.Health? {
      assert base + "/orders/status" == (base + "/orders/") + "status";
      assert base + "/orders/health" == (base + "/orders/") + "health";
      PrefixCancel(base + "/orders/", "status", "health");
      assert false;
    } else if a.Health? && b.Status? {
      assert base + "/orders/health" == (base + "/orders/") + "health";
      assert base + "/orders/status" == (base + "/orders/") + "status";
      PrefixCancel(base + "/orders/", "health", "status");
      assert false;
    }
  }
}

module ReviewsClient {
  import opened Json
  import opened Circuit

  const Fallback: Json := ErrorBody("Reviews service temporarily unavailable")
  const ReviewsCircuit: Breaker := CreateCircuit(Fallback)

  /** `encodeURIComponent`, left uninterpreted. */
  type Encoder = string -> string

  datatype Op =
    | List(query: Option<string>)
    | GetById(id: string)
    | GetByOrder(orderId: string)
    | Create(payload: Json)
    | Update(id: string, payload: Json)
    | Remove(id: string)
    | AvgByProduct(product: string)
    | Health
    | Status

  /** `product ? ... : ...` on the optional query value. */
  predicate HasProduct(product: Option<string>)
  {
    product.Some? && product.value != ""
  }

  function RequestFor(base: string, enc: Encoder, op: Op): (r: Request)
    ensures r.verb == GET <==> !(op.Create? || op.Update? || op.Remove?)
    ensures r.verb == POST <==> op.Create?
    ensures r.verb == PUT <==> op.Update?
    ensures r.verb == DELETE <==> op.Remove?
    ensures r.data.Some? <==> op.Create? || op.Update?
    ensures r.data.Some? ==> r.data.value == op.payload
    ensures op.List? && HasProduct(op.query) ==> r.url == base + "/reviews?product=" + enc(op.query.value)
    ensures op.List? && !HasProduct(op.query) ==> r.url == base + "/reviews"
    ensures op.GetByOrder? ==> r.url == base + "/reviews/order/" + op.orderId
    ensures op.AvgByProduct? ==> r.url == base + "/reviews/product/" + enc(op.product) + "/average"
    ensures op.GetById? || op.Update? || op.Remove? ==> r.url == base + "/reviews/" + op.id
    ensures op.Create? ==> r.url == base + "/reviews"
    ensures op.Health? ==> r.url == base + "/reviews/health"
    ensures op.Status? ==> r.url == base + "/reviews/status"
  {
    match op
    case List(product) =>
      var url := if HasProduct(product) then base + "/reviews?product=" + enc(product.value) else base + "/reviews";
      Request(GET, url, None)
    case GetById(id) => Request(GET, base + "/reviews/" + id, None)
    case GetByOrder(orderId) => Request(GET, base + "/reviews/order/" + orderId, None)
    case Create(payload) => Request(POST, base + "/reviews", Some(payload))
    case Update(id, payload) => Request(PUT, base + "/reviews/" + id, Some(payload))
    case Remove(id) => Request(DELETE, base + "/reviews/" + id, None)
    case AvgByProduct(product) => Request(GET, base + "/reviews/product/" + enc(product) + "/average", None)
    case Health => Request(GET, base + "/reviews/health", None)
    case Status => Request(GET, base + "/reviews/status", None)
  }

  /** A `getById` id that is one path segment and not a probe name, and a listing
      whose optional product is either absent or non-empty. */
  predicate Plain(op: Op)
  {
    && (op.GetById? ==> '/' !in op.id && op.id != "health" && op.id != "status")
    && (op.List? ==> op.query.None? || HasProduct(op.query))
  }

  /** The part of a GET path after "/reviews/", for the operations that have one. */
  function Tail(enc: Encoder, op: Op): string
    requires op.GetById? || op.GetByOrder? || op.AvgByProduct? || op.Health? || op.Status?
  {
    match op
    case GetById(id) => id
    case GetByOrder(orderId) => "order/" + orderId
    case AvgByProduct(product) => "product/" + enc(product) + "/average"
    case Health => "health"
    case Status => "status"
  }

  lemma UrlHasTail(base: string, enc: Encoder, op: Op)
    requires op.GetById? || op.GetByOrder? || op.AvgByProduct? || op.Health? || op.Status?
    ensures RequestFor(base, enc, op).url == (base + "/reviews") + ("/" + Tail(enc, op))
  {
    match op
    case GetById(id) => JoinAfterRoot(base, "/", id);
    case GetByOrder(orderId) => JoinAfterRoot(base, "/order/", orderId);
    case AvgByProduct(product) => AvgUrlHasTail(base, enc(product));
    case Health => JoinAfterRoot(base, "/health", "");
    case Status => JoinAfterRoot(base, "/status", "");
  }

  /** `base + "/reviews" + p + x`, regrouped after the collection root. */
  lemma JoinAfterRoot(base: string, p: string, x: string)
    requires |p| > 0 && p[0] == '/'
    ensures base + ("/reviews" + p) + x == (base + "/reviews") + ("/" + (p[1..] + x))
    ensures base + ("/reviews" + p) == (base + "/reviews") + ("/" + p[1..])
  {
    assert p == "/" + p[1..];
  }

  lemma AvgUrlHasTail(base: string, e: string)
    ensures base + "/reviews/product/" + e + "/average" == (base + "/reviews") + ("/" + ("product/" + e + "/average"))
  {
    JoinAfterRoot(base, "/product/", e);
    assert base + "/reviews/product/" == base + ("/reviews" + "/product/");
  }

  /** Distinct operations have distinct tails; ids never contain a slash. */
  lemma {:induction false} TailsDiffer(enc: Encoder, a: Op, b: Op)
    requires a.GetById? || a.GetByOrder? || a.AvgByProduct? || a.Health? || a.Status?
    requires b.GetById? || b.GetByOrder? || b.AvgByProduct? || b.Health? || b.Status?
    requires Plain(a) && Plain(b)
    requires forall p, q :: enc(p) == enc(q) ==> p == q
    requires a != b
    ensures Tail(enc, a) != Tail(enc, b)
  {
    if a.GetByOrder? && b.GetByOrder? {
      if Tail(enc, a) == Tail(enc, b) {
        PrefixCancel("order/", a.orderId, b.orderId);
      }
    } else if a.AvgByProduct? && b.AvgByProduct? {
      assert Tail(enc, a) == "product/" + (enc(a.product) + "/average");
      assert Tail(enc, b) == "product/" + (enc(b.product) + "/average");
      if Tail(enc, a) == Tail(enc, b) {
        PrefixCancel("product/", enc(a.product) + "/average", enc(b.product) + "/average");
        SuffixCancel(enc(a.product), enc(b.product), "/average");
      }
    } else if !a.GetById? && !b.GetById? {
      // "order/…", "product/…", "health" and "status" start with distinct letters
      assert Tail(enc, a)[0] == (if a.GetByOrder? then 'o' else if a.AvgByProduct? then 'p' else if a.Health? then 'h' else 's');
      assert Tail(enc, b)[0] == (if b.GetByOrder? then 'o' else if b.AvgByProduct? then 'p' else if b.Health? then 'h' else 's');
    }
  }

  lemma TailedRequestsDiffer(base: string, enc: Encoder, a: Op, b: Op)
    requires a.GetById? || a.GetByOrder? || a.AvgByProduct? || a.Health? || a.Status?
    requires b.GetById? || b.GetByOrder? || b.AvgByProduct? || b.Health? || b.Status?
    requires Plain(a) && Plain(b)
    requires forall p, q :: enc(p) == enc(q) ==> p == q
    requires a != b
    ensures RequestFor(base, enc, a).url != RequestFor(base, enc, b).url
  {
    UrlHasTail(base, enc, a);
    UrlHasTail(base, enc, b);
    TailsDiffer(enc, a, b);
    if RequestFor(base, enc, a).url == RequestFor(base, enc, b).url {
      PrefixCancel(base + "/reviews", "/" + Tail(enc, a), "/" + Tail(enc, b));
      PrefixCancel("/", Tail(enc, a), Tail(enc, b));
    }
  }

  lemma ListRequestsDiffer(base: string, enc: Encoder, a: Op, b: Op)
    requires a.List? && b.List? && Plain(a) && Plain(b)
    requires forall p, q :: enc(p) == enc(q) ==> p == q
    requires a != b
    ensures RequestFor(base, enc, a).url != RequestFor(base, enc, b).url
  {
    var root := base + "/reviews";
    if a.query.Some? && b.query.Some? {
      assert RequestFor(base, enc, a).url == root + ("?product=" + enc(a.query.value));
      assert RequestFor(base, enc, b).url == root + ("?product=" + enc(b.query.value));
      if RequestFor(base, enc, a).url == RequestFor(base, enc, b).url {
        PrefixCancel(root, "?product=" + enc(a.query.value), "?product=" + enc(b.query.value));
        PrefixCancel("?product=", enc(a.query.value), enc(b.query.value));
      }
    }
  }

  lemma ListUrlHasQuery(base: string, enc: Encoder, product: string)
    requires HasProduct(Some(product))
    ensures RequestFor(base, enc, List(Some(product))).url == (base + "/reviews" + "?") + ("product=" + enc(product))
  {
    assert base + "/reviews?product=" == (base + "/reviews" + "?") + "product=";
  }

  /** The query string starts with '?', every longer path with '/'. */
  lemma ListDiffersFromTailed(base: string, enc: Encoder, a: Op, b: Op)
    requires a.List? && Plain(a)
    requires b.GetById? || b.GetByOrder? || b.AvgByProduct? || b.Health? || b.Status?
    ensures RequestFor(base, enc, a).url != RequestFor(base, enc, b).url
  {
    var root := base + "/reviews";
    UrlHasTail(base, enc, b);
    var ub := RequestFor(base, enc, b).url;
    assert ub == (root + "/") + Tail(enc, b);
    if a.query.Some? {
      ListUrlHasQuery(base, enc, a.query.value);
      PrefixesDiffer(root + "?", root + "/", |root|, "product=" + enc(a.query.value), Tail(enc, b));
    } else {
      assert |RequestFor(base, enc, a).url| < |ub|;
    }
  }

  /** Apart from ids that contain a slash or name a probe, distinct operations
      build distinct requests (given that `encodeURIComponent` is injective). */
  lemma {:induction false} RequestsDiffer(base: string, enc: Encoder, a: Op, b: Op)
    requires Plain(a) && Plain(b)
    requires forall p, q :: enc(p) == enc(q) ==> p == q
    requires a != b
    ensures RequestFor(base, enc, a) != RequestFor(base, enc, b)
  {
    var ra, rb := RequestFor(base, enc, a), RequestFor(base, enc, b);
    var tailedA := a.GetById? || a.GetByOrder? || a.AvgByProduct? || a.Health? || a.Status?;
    var tailedB := b.GetById? || b.GetByOrder? || b.AvgByProduct? || b.Health? || b.Status?;
    if ra.verb != rb.verb {
    } else if tailedA && tailedB {
      TailedRequestsDiffer(base, enc, a, b);
    } else if a.List? && b.List? {
      ListRequestsDiffer(base, enc, a, b);
    } else if a.List? && tailedB {
      ListDiffersFromTailed(base, enc, a, b);
    } else if b.List? && tailedA {
      ListDiffersFromTailed(base, enc, b, a);
    } else if (a.Update? && b.Update?) || (a.Remove? && b.Remove?) {
      assert base + "/reviews/" + a.id == (base + "/reviews/") + a.id;
      if ra == rb {
        PrefixCancel(base + "/reviews/", a.id, b.id);
      }
    }
  }

  /** A listing without a product and one with an empty product are the same request. */
  lemma EmptyProductListsAll(base: string, enc: Encoder)
    ensures RequestFor(base, enc, List(Some(""))) == RequestFor(base, enc, List(None))
  {
  }
}
