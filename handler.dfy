/**
 * The `/cache` request handler as a transition from (store, request) to
 * (response, new store). HTTP plumbing is abstracted away: the request
 * arrives with its method, its `key` query parameter (empty when the
 * parameter is absent) and the outcome of decoding its JSON body, and the
 * response is a status code and a body.
 */
module Handler {

  import opened Wrappers
  import opened GoBytes
  import opened CacheStore

  type Items = map<GoString, GoString>

  const MethodGet: string := "GET"
  const MethodPost: string := "POST"

  const StatusOK := 200
  const StatusBadRequest := 400
  const StatusNotFound := 404
  const StatusMethodNotAllowed := 405

  /** The largest value, in bytes, that a POST may store. */
  const MaxValueLength := 512

  /** The body of the response to an oversized value. */
  const ValueTooLong: GoString := AsciiBytes("Value too long")

  /** The `{"key": ..., "value": ...}` object a POST body decodes to. */
  datatype CacheItem = CacheItem(key: GoString, value: GoString)

  /**
   * An inbound request. `verb` is the HTTP method, compared byte for byte
   * with "GET" and "POST". `payload` is the result of decoding the body as a
   * cache item: `None` when decoding failed. It is only consulted for POST.
   */
  datatype Request = Request(verb: string, queryKey: GoString, payload: Option<CacheItem>)

  datatype Response = Response(status: int, body: GoString)

  datatype Outcome = Outcome(response: Response, items: Items)

  /** True of exactly the requests that the handler applies to the store. */
  predicate Writes(req: Request) {
    req.verb == MethodPost && req.payload.Some? && |req.payload.value.value| <= MaxValueLength
  }

  /** The store invariant the handler maintains: no value is longer than 512 bytes. */
  predicate Bounded(items: Items) {
    forall k :: k in items ==> |items[k]| <= MaxValueLength
  }

  /** What one request does: the response it gets and the store it leaves behind. */
  function Transition(items: Items, req: Request): (r: Outcome)
    // GET: a hit answers 200 with the stored value, a miss 404 with no body
    ensures req.verb == MethodGet && req.queryKey in items ==>
              r.response == Response(StatusOK, items[req.queryKey])
    ensures req.verb == MethodGet && req.queryKey !in items ==>
              r.response == Response(StatusNotFound, [])
    // POST: undecodable body, oversized value, accepted write
    ensures req.verb == MethodPost && req.payload.None? ==>
              r.response == Response(StatusBadRequest, [])
    ensures req.verb == MethodPost && req.payload.Some? && |req.payload.value.value| > MaxValueLength ==>
              r.response == Response(StatusBadRequest, ValueTooLong)
    ensures Writes(req) ==> r.response == Response(StatusOK, [])
    // every other method
    ensures req.verb != MethodGet && req.verb != MethodPost ==>
              r.response == Response(StatusMethodNotAllowed, [])
    // the store changes only by an accepted write, which sets exactly one entry
    ensures Writes(req) ==> r.items == items[req.payload.value.key := req.payload.value.value]
    ensures !Writes(req) ==> r.items == items
    ensures items.Keys <= r.items.Keys
    ensures Bounded(items) ==> Bounded(r.items)
    // the only statuses the handler produces
    ensures r.response.status in {StatusOK, StatusBadRequest, StatusNotFound, StatusMethodNotAllowed}
  {
    if req.verb == MethodGet then
      if req.queryKey in items then Outcome(Response(StatusOK, items[req.queryKey]), items)
      else Outcome(Response(StatusNotFound, []), items)
    else if req.verb == MethodPost then
      match req.payload
      case None => Outcome(Response(StatusBadRequest, []), items)
      case Some(item) =>
        if |item.value| > MaxValueLength then Outcome(Response(StatusBadRequest, ValueTooLong), items)
        else Outcome(Response(StatusOK, []), items[item.key := item.value])
    else
      Outcome(Response(StatusMethodNotAllowed, []), items)
  }

  /**
   * The handler itself, working on a shared store object: it reads through
   * `Get`, writes through `Set`, and agrees with `Transition`.
   */
  method Handle(cache: Cache, req: Request) returns (resp: Response)
    modifies cache
    ensures resp == Transition(old(cache.items), req).response
    ensures cache.items == Transition(old(cache.items), req).items
  {
    if req.verb == MethodGet {
      var val, ok := cache.Get(req.queryKey);
      if ok {
        resp := Response(StatusOK, val);
      } else {
        resp := Response(StatusNotFound, []);
      }
    } else if req.verb == MethodPost {
      if req.payload.None? {
        resp := Response(StatusBadRequest, []);
        return;
      }
      var item := req.payload.value;
      if |item.value| > MaxValueLength {
        resp := Response(StatusBadRequest, ValueTooLong);
        return;
      }
      cache.Set(item.key, item.value);
      resp := Response(StatusOK, []);
    } else {
      resp := Response(StatusMethodNotAllowed, []);
    }
  }

  /** An accepted POST is visible to the next GET of the same key. */
  lemma PostThenGet(items: Items, post: Request, get: Request)
    requires Writes(post)
    requires get.verb == MethodGet && get.queryKey == post.payload.value.key
    ensures Transition(Transition(items, post).items, get).response == Response(StatusOK, post.payload.value.value)
  {
  }

  /** A rejected request (of any kind) leaves every later GET answering as before. */
  lemma RejectedKeepsGet(items: Items, req: Request, get: Request)
    requires !Writes(req)
    requires get.verb == MethodGet
    ensures Transition(Transition(items, req).items, get) == Transition(items, get)
  {
  }

  /** The size limit is inclusive: 512 bytes are stored, 513 are refused. */
  lemma ValueLengthBoundary(items: Items, key: GoString, value: GoString, query: GoString)
    requires |value| == MaxValueLength || |value| == MaxValueLength + 1
    ensures var r := Transition(items, Request(MethodPost, query, Some(CacheItem(key, value))));
            if |value| == MaxValueLength
            then r.response == Response(StatusOK, []) && r.items == items[key := value]
            else r.response == Response(StatusBadRequest, ValueTooLong) && r.items == items
  {
  }
}
