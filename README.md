# lighcache: a verified model of the in-memory cache and its `/cache` handler

The modelled program is a small HTTP key/value cache in Go. One `Cache` object holds a map from string keys to string values. It has two operations. `Get` looks up a key and returns `(value, found)`, with the empty string for a missing key. `Set` inserts or overwrites one entry. Nothing is ever deleted.

The `/cache` handler is built on the cache:
- GET reads the `key` query parameter. A hit answers with the value and an implicit 200. A miss answers 404 with no body.
- POST decodes a `{key, value}` object from the body. A decode failure answers 400. A value longer than 512 bytes answers 400 with the body `Value too long` and writes nothing. Any other value is stored, and the answer is 200 with no body.
- Every other method answers 405.

The project has five modules, in five files:

- `GoBytes` (`bytes.dfy`): Go strings as byte sequences (`GoString = seq<byte>`), so that the 512 limit counts bytes as Go's `len` does. It also defines the bytes of the ASCII literal `"Value too long"`.
- `Wrappers` (`wrappers.dfy`): `Option`, used for the outcome of JSON decoding.
- `CacheStore` (`cache.dfy`): class `Cache` with a real `items` map field. `Get` only reads it. `Set` has `modifies this`. Two client methods show the round trip and the overwrite against the object.
- `Handler` (`handler.dfy`): the request and response datatypes. `Transition` maps a store and a request to a response and a new store. `Handle` is the handler as a method over a passed-in `Cache` object, and it is proved equal to `Transition`.
- `Replay` (`replay.dfy`): requests served one after another from the empty store of process start. `LastWrite` is an independent reference definition of "last writer wins", and lemmas proved by induction connect the replayed store to it.

The store is an explicit object passed to `Handle`, not a process-wide singleton. The initial state is the empty map made by the constructor.

## Model

| member | source | states |
|---|---|---|
| `CacheStore.Cache.constructor` | lighcache.go:29-31 | a new store holds no entries |
| `CacheStore.Cache.Get` | lighcache.go:15-20 | `ok` holds exactly when the key is present; then `val` is the stored value, otherwise the empty string (Go's zero value); the store is not modified |
| `CacheStore.Cache.Set` | lighcache.go:22-26 | the new map is the old one with `key` set to `value`; every other entry is kept with its value; the key set only gains `key` |
| `CacheStore.SetThenGet` | lighcache.go:15-26 | after `Set(k, v)`, `Get(k)` returns `(v, true)` |
| `CacheStore.OverwriteThenGet` | lighcache.go:22-26 | after `Set(k, v1)` and then `Set(k, v2)`, `Get(k)` gives `(v2, true)`; a lookup of any other key gives what it gave before |
| `GoBytes.AsciiBytes` | lighcache.go:52 | the bytes of an ASCII literal: one byte per character, each equal to the character's code |
| `Handler.Transition` | lighcache.go:33-60 | GET hit gives 200 and exactly the stored value; GET miss (including the empty key) gives 404 with no body; POST with an undecodable body gives 400 with no body; POST with a value over 512 bytes gives 400 and `Value too long`; an accepted POST (value of at most 512 bytes, any key including the empty one) gives 200 with no body and sets exactly that entry; any other method gives 405; every request other than an accepted POST leaves the store unchanged; no key is ever removed; the 512-byte bound on stored values is preserved; the status is always one of 200, 400, 404 and 405 |
| `Handler.Handle` | lighcache.go:33-60 | the handler working on a shared `Cache` through `Get` and `Set` returns the response `Transition` gives and leaves the store `Transition` gives |
| `Handler.PostThenGet` | lighcache.go:34-56 | an accepted POST of `(k, v)`, followed by a GET of `k`, answers 200 with `v` |
| `Handler.RejectedKeepsGet` | lighcache.go:46-58 | after any request that is not an accepted write (a GET, a bad body, an oversized value, another method), a GET answers exactly as it would have answered before |
| `Handler.ValueLengthBoundary` | lighcache.go:50-56 | a value of exactly 512 bytes is stored with 200; one of 513 bytes is refused with 400 and `Value too long`, and the store is unchanged |
| `Replay.ReplayLastWriterWins` | lighcache.go:22-60 | after any sequence of requests, a key is present exactly when it was present before or was written, and it holds the value of the last accepted write to it (its earlier value if nothing wrote it) |
| `Replay.ReplayKeepsBounded` | lighcache.go:50-55 | if no stored value exceeds 512 bytes beforehand, none does after any sequence of requests |
| `Replay.GetAfterReplay` | lighcache.go:29-40 | starting from the empty store, a GET after any sequence of requests answers 200 with the last value written to its key, or 404 with no body when nothing wrote it; the GET leaves the store as it was |
| `Replay.StoreFromEmptyBounded` | lighcache.go:29-55 | starting from the empty store, no stored value ever exceeds 512 bytes |

## Left out

- The `sync.RWMutex` and its locking (lighcache.go:11, 16-17, 23-24): the model is sequential, one request at a time. Concurrent requests are covered only as some serial order of them. `Replay` covers every such order, and last-writer-wins is stated for the order the lock imposes.
- `net/http` plumbing (`HandleFunc`, `ResponseWriter`, `ListenAndServe`, `log.Fatal`): this is I/O. A response is a returned status and body. The implicit 200 that `w.Write` sends on a GET hit is written out as status 200, even when the stored value is empty.
- JSON decoding (`json.NewDecoder(r.Body).Decode`, lighcache.go:46): this is a library call. Its outcome is an input to the model, either `Some(item)` or `None` for a decode error. Its own rules are not modelled. For example, a body of `null` or `{}` decodes without error to an empty key and value, and so it is stored as `"" -> ""`.
- URL query parsing (`r.URL.Query().Get("key")`, lighcache.go:35): this is a library call. The key arrives as given, and a missing parameter is the empty string.
- Process start (lighcache.go:28-31): this is modelled only as the empty initial map of the `Cache` constructor.
- Routing of other paths: this is the HTTP layer's concern and not part of this model.
