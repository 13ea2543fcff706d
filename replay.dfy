/**
 * Requests served one at a time against one store, from the start of the
 * process on. The store lives as long as the process, so what a GET sees
 * is decided by every earlier request; these lemmas say how.
 */
module Replay {

  import opened Wrappers
  import opened GoBytes
  import opened Handler

  /** The store after serving `reqs` in order, starting from `items`. */
  function Replay(items: Items, reqs: seq<Request>): Items
    decreases |reqs|
  {
    if reqs == [] then items
    else Transition(Replay(items, reqs[..|reqs| - 1]), reqs[|reqs| - 1]).items
  }

  /**
   * Reference definition of last-writer-wins: the value of the last request
   * in `reqs` that the handler accepts as a write to `key`, if any.
   */
  function LastWrite(reqs: seq<Request>, key: GoString): Option<GoString>
    decreases |reqs|
  {
    if reqs == [] then None
    else
      var last := reqs[|reqs| - 1];
      if Writes(last) && last.payload.value.key == key then Some(last.payload.value.value)
      else LastWrite(reqs[..|reqs| - 1], key)
  }

  /**
   * Last writer wins: after any sequence of requests, a key is present
   * exactly when it was present before or some request wrote it, and it
   * holds the last value written, or its old value when nothing wrote it.
   */
  lemma {:induction false} ReplayLastWriterWins(items: Items, reqs: seq<Request>, key: GoString)
    ensures key in Replay(items, reqs) <==> LastWrite(reqs, key).Some? || key in items
    ensures LastWrite(reqs, key).Some? ==> Replay(items, reqs)[key] == LastWrite(reqs, key).value
    ensures LastWrite(reqs, key).None? && key in items ==> Replay(items, reqs)[key] == items[key]
    decreases |reqs|
  {
    if reqs != [] {
      ReplayLastWriterWins(items, reqs[..|reqs| - 1], key);
    }
  }

  /** Starting from a store that respects the 512-byte limit, no request sequence breaks it. */
  lemma {:induction false} ReplayKeepsBounded(items: Items, reqs: seq<Request>)
    requires Bounded(items)
    ensures Bounded(Replay(items, reqs))
    decreases |reqs|
  {
    if reqs != [] {
      ReplayKeepsBounded(items, reqs[..|reqs| - 1]);
    }
  }

  /**
   * From the empty store of process start, a GET answers 200 with the last
   * value written to its key, or 404 with no body when nothing wrote it,
   * and it leaves the store as it found it.
   */
  lemma {:induction false} GetAfterReplay(reqs: seq<Request>, get: Request)
    requires get.verb == MethodGet
    ensures var r := Transition(Replay(map[], reqs), get);
            && r.items == Replay(map[], reqs)
            && r.response == match LastWrite(reqs, get.queryKey)
                             case Some(v) => Response(StatusOK, v)
                             case None => Response(StatusNotFound, [])
  {
    ReplayLastWriterWins(map[], reqs, get.queryKey);
  }

  /** Every stored value came from an accepted write, so none exceeds 512 bytes. */
  lemma {:induction false} StoreFromEmptyBounded(reqs: seq<Request>)
    ensures Bounded(Replay(map[], reqs))
  {
    ReplayKeepsBounded(map[], reqs);
  }
}
