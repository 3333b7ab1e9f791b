/** The read-through cache: a Handler holds the store handle and the fixed TTL; each inbound request is
    decoded, fingerprinted, looked up, and on a miss fetched upstream, stored and replied.
    The JSON codec, the request decoder and hashstructure's fingerprint are foreign code; the Handler
    holds them as the functions they compute. */
module Cache {
  import opened Wrappers
  import Hex
  import KeyValue
  import Http

  /** What the client posts: only `url` is recognised. */
  datatype Request = Request(url: string)

  /** A recorded upstream response. */
  datatype SavedResponse = SavedResponse(body: string, contentType: string)

  /** The zero value SavedResponse{} returned with every non-hit. */
  const Zero := SavedResponse("", "")

  /** The causes the Go code wraps into its `error` values. */
  datatype Error =
    | ReadBodyFailed | UnmarshalRequestFailed | HashFailed
    | RetrieveFailed | UnmarshalCacheFailed
    | MarshalFailed | CacheWriteFailed
    | RequestFailed | ReadResponseFailed

  /** The reply writeResponse produces on an untouched writer. */
  function Served(r: SavedResponse): (reply: Http.Reply) {
    Http.Reply(200, Some(r.contentType), r.body)
  }

  /** The reply writeError produces on an untouched writer. */
  const ServerError := Http.Reply(500, None, "")

  /** The response makeRequest records for a completed exchange. */
  function Recorded(x: Http.Exchange): (saved: SavedResponse)
    requires x.Completed?
  {
    SavedResponse(x.body, Http.HeaderGet(x.header, Http.ContentType))
  }

  /** makeRequest: one GET of the URL; a completed exchange is recorded with its body and Content-Type
      header ("" when absent), whatever its status code. */
  method MakeRequest(up: Http.Upstream, request: Request) returns (resp: SavedResponse, err: Option<Error>)
    modifies up
    ensures up.calls == old(up.calls) + 1
    ensures up.respond(request.url, old(up.calls)).ConnectFailed? ==> resp == Zero && err == Some(RequestFailed)
    ensures up.respond(request.url, old(up.calls)).BodyReadFailed? ==> resp == Zero && err == Some(ReadResponseFailed)
    ensures up.respond(request.url, old(up.calls)).Completed? ==> resp == Recorded(up.respond(request.url, old(up.calls))) && err == None
  {
    var x := up.Get(request.url);
    if x.ConnectFailed? {
      return Zero, Some(RequestFailed);
    }
    if x.BodyReadFailed? {
      return Zero, Some(ReadResponseFailed);
    }
    var contentType := Http.HeaderGet(x.header, Http.ContentType);
    resp := SavedResponse(x.body, contentType);
    err := None;
  }

  /** writeResponse: the Content-Type header is set to the saved one, then the body is written. */
  method WriteResponse(response: SavedResponse, w: Http.ResponseWriter)
    modifies w
    ensures w.header == old(w.header)[Http.ContentType := response.contentType]
    ensures w.status == if old(w.status).None? then Some(200) else old(w.status)
    ensures w.body == old(w.body) + response.body
    ensures old(w.Untouched()) ==> w.Sent() == Served(response)
  {
    w.SetHeader(Http.ContentType, response.contentType);
    w.Write(response.body);
  }

  /** writeError: status 500 and nothing else. */
  method WriteError(w: Http.ResponseWriter)
    modifies w
    ensures w.status == if old(w.status).None? then Some(500) else old(w.status)
    ensures w.header == old(w.header) && w.body == old(w.body)
    ensures old(w.Untouched()) ==> w.Sent() == ServerError
  {
    w.WriteHeader(500);
  }

  class Handler {
    /** The TTL every entry is written with. */
    const expiry: nat
    /** The shared store handle. */
    const redis: KeyValue.Store
    /** json.Marshal and json.Unmarshal of a SavedResponse. */
    const marshal: SavedResponse -> Option<string>
    const unmarshal: string -> Option<SavedResponse>
    /** json.Unmarshal of the inbound body into a Request. */
    const decodeRequest: string -> Option<Request>
    /** hashstructure.Hash(request, FormatV2, nil). */
    const fingerprint: Request -> Option<Hex.uint64>

    constructor (expiry: nat, redis: KeyValue.Store,
                 marshal: SavedResponse -> Option<string>, unmarshal: string -> Option<SavedResponse>,
                 decodeRequest: string -> Option<Request>, fingerprint: Request -> Option<Hex.uint64>)
      ensures this.expiry == expiry && this.redis == redis
      ensures this.marshal == marshal && this.unmarshal == unmarshal
      ensures this.decodeRequest == decodeRequest && this.fingerprint == fingerprint
    {
      this.expiry := expiry;
      this.redis := redis;
      this.marshal := marshal;
      this.unmarshal := unmarshal;
      this.decodeRequest := decodeRequest;
      this.fingerprint := fingerprint;
    }

    /** Decoding inverts encoding: the assumption the JSON library is trusted to meet. */
    ghost predicate CodecRoundTrips() {
      forall r :: marshal(r).Some? ==> unmarshal(marshal(r).value) == Some(r)
    }

    /** The saved response a lookup of `hash` finds, if the lookup is a hit. */
    function Cached(hash: Hex.uint64, fault: bool): (hit: Option<SavedResponse>)
      reads redis
    {
      var v := redis.Lookup(Hex.HashToStr(hash));
      if fault || v.None? then None else unmarshal(v.value)
    }

    /** getCache: three disjoint outcomes, a hit, a clean miss on the absent-key signal, or an error
        (a transport failure or an undecodable entry); `ok` never comes with an error. */
    method GetCache(hash: Hex.uint64, fault: bool) returns (resp: SavedResponse, ok: bool, err: Option<Error>)
      ensures var key := Hex.HashToStr(hash);
        && (fault ==> resp == Zero && !ok && err == Some(RetrieveFailed))
        && (!fault && redis.Lookup(key).None? ==> resp == Zero && !ok && err == None)
        && (!fault && redis.Lookup(key).Some? && unmarshal(redis.Lookup(key).value).None? ==>
              resp == Zero && !ok && err == Some(UnmarshalCacheFailed))
        && (!fault && redis.Lookup(key).Some? && unmarshal(redis.Lookup(key).value).Some? ==>
              resp == unmarshal(redis.Lookup(key).value).value && ok && err == None)
      ensures ok <==> Cached(hash, fault).Some?
      ensures ok ==> resp == Cached(hash, fault).value && err == None
      ensures !ok ==> resp == Zero
    {
      var reply := redis.Get(Hex.HashToStr(hash), fault);
      if reply.Nil? {
        return Zero, false, None;
      } else if reply.Failed? {
        return Zero, false, Some(RetrieveFailed);
      }
      var savedResponse := unmarshal(reply.data);
      if savedResponse.None? {
        return Zero, false, Some(UnmarshalCacheFailed);
      }
      return savedResponse.value, true, None;
    }

    /** setCache: writes exactly the entry under `hashToStr(hash)` with the handler's TTL, or reports
        why it could not; every other key is left as it was. */
    method SetCache(hash: Hex.uint64, response: SavedResponse, fault: bool) returns (err: Option<Error>)
      modifies redis
      ensures marshal(response).None? ==> err == Some(MarshalFailed)
      ensures marshal(response).Some? && fault ==> err == Some(CacheWriteFailed)
      ensures err == None <==> marshal(response).Some? && !fault
      ensures redis.entries == if err == None
        then old(redis.entries)[Hex.HashToStr(hash) := KeyValue.Entry(marshal(response).value, KeyValue.ExpiryFor(old(redis.now), expiry))]
        else old(redis.entries)
      ensures forall k :: k != Hex.HashToStr(hash) ==>
        (k in redis.entries <==> k in old(redis.entries)) && (k in redis.entries ==> redis.entries[k] == old(redis.entries)[k])
      ensures redis.now == old(redis.now)
    {
      var data := marshal(response);
      if data.None? {
        return Some(MarshalFailed);
      }
      var ok := redis.Set(Hex.HashToStr(hash), data.value, expiry, fault);
      if !ok {
        return Some(CacheWriteFailed);
      }
      return None;
    }

    /** The request and its fingerprint, when the body was read, decoded and hashed. */
    function Parse(body: Option<string>): (parsed: Option<(Request, Hex.uint64)>) {
      if body.None? then None
      else
        var request := decodeRequest(body.value);
        if request.None? then None
        else
          var hash := fingerprint(request.value);
          if hash.None? then None else Some((request.value, hash.value))
    }

    /** request: decode, fingerprint, look up; on a hit reply from the cache, otherwise fetch, store and
        reply with what was fetched. Any failure before the fetch completes is a 500, except that a
        failed lookup only sends the request upstream, and a failed store is only logged.
        `body` is None when reading the inbound body failed. */
    method HandleRequest(body: Option<string>, w: Http.ResponseWriter, up: Http.Upstream, getFault: bool, setFault: bool)
      requires w.Untouched()
      modifies w, redis, up
      ensures redis.now == old(redis.now)
      // undecodable, or unhashable: 500, no fetch, no store write
      ensures Parse(body).None? ==>
        w.Sent() == ServerError && up.calls == old(up.calls) && redis.entries == old(redis.entries)
      // hit: the cached body and content type, no fetch, no store write
      ensures Parse(body).Some? ==>
        var hit := old(Cached(Parse(body).value.1, getFault));
        hit.Some? ==>
          w.Sent() == Served(hit.value) && up.calls == old(up.calls) && redis.entries == old(redis.entries)
      // clean miss or lookup error: exactly one fetch
      ensures Parse(body).Some? ==>
        var hit := old(Cached(Parse(body).value.1, getFault));
        hit.None? ==> up.calls == old(up.calls) + 1
      // the fetch failed: 500 and no store write
      ensures Parse(body).Some? ==>
        var hit := old(Cached(Parse(body).value.1, getFault));
        var x := up.respond(Parse(body).value.0.url, old(up.calls));
        hit.None? && !x.Completed? ==>
          w.Sent() == ServerError && redis.entries == old(redis.entries)
      // the fetch completed: the fetched response whether or not the store write succeeded
      ensures Parse(body).Some? ==>
        var (request, hash) := Parse(body).value;
        var hit := old(Cached(hash, getFault));
        var x := up.respond(request.url, old(up.calls));
        hit.None? && x.Completed? ==>
          && w.Sent() == Served(Recorded(x))
          && redis.entries == if !setFault && marshal(Recorded(x)).Some?
               then old(redis.entries)[Hex.HashToStr(hash) :=
                      KeyValue.Entry(marshal(Recorded(x)).value, KeyValue.ExpiryFor(old(redis.now), expiry))]
               else old(redis.entries)
    {
      if body.None? {
        WriteError(w);
        return;
      }
      var decoded := decodeRequest(body.value);
      if decoded.None? {
        WriteError(w);
        return;
      }
      var request := decoded.value;
      var hashed := fingerprint(request);
      if hashed.None? {
        WriteError(w);
        return;
      }
      var hash := hashed.value;

      var savedResponse, ok, err := GetCache(hash, getFault);
      if ok {
        WriteResponse(savedResponse, w);
        return;
      }
      // a lookup error is logged and the request goes upstream like a miss

      savedResponse, err := MakeRequest(up, request);
      if err.Some? {
        WriteError(w);
        return;
      }

      err := SetCache(hash, savedResponse, setFault);
      // a store error is logged only

      WriteResponse(savedResponse, w);
    }
  }
}
