/** Callers of the handler that combine several operations: what a sequence of requests and store
    operations yields, proved from the contracts of the Cache module alone. */
module Scenarios {
  import opened Wrappers
  import Hex
  import KeyValue
  import Http
  import opened Cache

  /** A successful setCache followed, before the TTL elapses, by getCache of the same fingerprint is a hit
      on the response that was stored. */
  method SetThenGet(h: Handler, hash: Hex.uint64, r: SavedResponse, dt: nat)
    returns (setErr: Option<Error>, resp: SavedResponse, ok: bool, getErr: Option<Error>)
    requires h.CodecRoundTrips() && h.marshal(r).Some?
    requires h.expiry == 0 || dt <= h.expiry
    modifies h.redis
    ensures setErr == None
    ensures resp == r && ok && getErr == None
  {
    setErr := h.SetCache(hash, r, false);
    h.redis.Advance(dt);
    resp, ok, getErr := h.GetCache(hash, false);
  }

  /** Read-through: a miss fetches once and stores; a second request with the same fingerprint (the same
      body, or any body that decodes to an equivalent request) made up to `dt` later, within the TTL, is
      served from the store with no further fetch and gets the same reply. */
  method MissThenHit(h: Handler, up: Http.Upstream, body1: string, body2: string, dt: nat,
                     w1: Http.ResponseWriter, w2: Http.ResponseWriter)
    requires h.CodecRoundTrips()
    requires h.Parse(Some(body1)).Some? && h.Parse(Some(body2)).Some?
    requires h.Parse(Some(body1)).value.1 == h.Parse(Some(body2)).value.1
    requires h.Cached(h.Parse(Some(body1)).value.1, false).None?
    requires up.respond(h.Parse(Some(body1)).value.0.url, up.calls).Completed?
    requires h.marshal(Recorded(up.respond(h.Parse(Some(body1)).value.0.url, up.calls))).Some?
    requires h.expiry == 0 || dt <= h.expiry
    requires w1 != w2 && w1.Untouched() && w2.Untouched()
    modifies h.redis, up, w1, w2
    ensures up.calls == old(up.calls) + 1
    ensures w1.Sent() == Served(Recorded(up.respond(h.Parse(Some(body1)).value.0.url, old(up.calls))))
    ensures w2.Sent() == w1.Sent()
  {
    h.HandleRequest(Some(body1), w1, up, false, false);
    h.redis.Advance(dt);
    h.HandleRequest(Some(body2), w2, up, false, false);
  }

  /** Once the TTL has elapsed after a miss, the same request misses again and fetches a second time;
      each client receives what its own fetch returned. */
  method ExpiryRefetches(h: Handler, up: Http.Upstream, body: string, dt: nat,
                         w1: Http.ResponseWriter, w2: Http.ResponseWriter)
    requires h.Parse(Some(body)).Some?
    requires h.Cached(h.Parse(Some(body)).value.1, false).None?
    requires h.expiry > 0 && dt > h.expiry
    requires w1 != w2 && w1.Untouched() && w2.Untouched()
    modifies h.redis, up, w1, w2
    ensures up.calls == old(up.calls) + 2
    ensures var first := up.respond(h.Parse(Some(body)).value.0.url, old(up.calls));
      w1.Sent() == if first.Completed? then Served(Recorded(first)) else ServerError
    ensures var second := up.respond(h.Parse(Some(body)).value.0.url, old(up.calls) + 1);
      w2.Sent() == if second.Completed? then Served(Recorded(second)) else ServerError
  {
    h.HandleRequest(Some(body), w1, up, false, false);
    h.redis.Advance(dt);
    h.HandleRequest(Some(body), w2, up, false, false);
  }

  /** With the store unreachable for both reads and writes, every request whose fetch completes is still
      answered with the fetched response, and the store is untouched. */
  method StoreOutage(h: Handler, up: Http.Upstream, body: string, w: Http.ResponseWriter)
    requires h.Parse(Some(body)).Some?
    requires up.respond(h.Parse(Some(body)).value.0.url, up.calls).Completed?
    requires w.Untouched()
    modifies h.redis, up, w
    ensures up.calls == old(up.calls) + 1
    ensures w.Sent() == Served(Recorded(up.respond(h.Parse(Some(body)).value.0.url, old(up.calls))))
    ensures h.redis.entries == old(h.redis.entries)
  {
    h.HandleRequest(Some(body), w, up, true, true);
  }
}
