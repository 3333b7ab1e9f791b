/** The HTTP side of the handler: the response writer it mutates, the header lookup it uses on the
    upstream response, and the upstream server seen as an oracle that counts the calls made to it. */
module Http {
  import opened Wrappers

  const ContentType := "Content-Type"

  /** What the client receives: status code, the Content-Type header if one was set, and the body. */
  datatype Reply = Reply(status: int, contentType: Option<string>, body: string)

  /** http.ResponseWriter as the handler uses it: a header map, the status once written, the body bytes. */
  class ResponseWriter {
    var header: map<string, string>
    var status: Option<int>
    var body: string

    constructor ()
      ensures Untouched()
    {
      header := map[];
      status := None;
      body := "";
    }

    /** The state in which the server hands a writer to a handler. */
    predicate Untouched()
      reads this
    {
      header == map[] && status == None && body == ""
    }

    /** The reply the client receives, provided every header is set before the first write or status
        (as every path of the handler does); a handler that writes nothing yields 200. */
    function Sent(): (reply: Reply)
      reads this
    {
      Reply(status.GetOr(200), if ContentType in header then Some(header[ContentType]) else None, body)
    }

    /** w.Header().Set(key, value) */
    method SetHeader(key: string, value: string)
      modifies this
      ensures header == old(header)[key := value]
      ensures status == old(status) && body == old(body)
    {
      header := header[key := value];
    }

    /** w.WriteHeader(code): only the first status written takes effect. */
    method WriteHeader(code: int)
      modifies this
      ensures status == if old(status).None? then Some(code) else old(status)
      ensures header == old(header) && body == old(body)
    {
      if status.None? {
        status := Some(code);
      }
    }

    /** w.Write(data): writing before any status implies status 200. */
    method Write(data: string)
      modifies this
      ensures status == if old(status).None? then Some(200) else old(status)
      ensures body == old(body) + data
      ensures header == old(header)
    {
      if status.None? {
        status := Some(200);
      }
      body := body + data;
    }
  }

  /** http.Header.Get on a header map keyed by canonical names: the first value, or "" when there is none. */
  function HeaderGet(h: map<string, seq<string>>, key: string): (value: string)
  {
    if key in h && |h[key]| > 0 then h[key][0] else ""
  }

  /** The result of one GET of a URL: the request could not be issued, the body could not be read,
      or a completed exchange (of any status code) with its headers and body. */
  datatype Exchange = ConnectFailed | BodyReadFailed | Completed(header: map<string, seq<string>>, body: string)

  /** The upstream network: `respond(url, n)` is the exchange a GET of `url` yields when it is the n-th
      GET overall (counting from 0, over all URLs), and `calls` is how many GETs were made; the same URL
      may answer differently on different calls. */
  class Upstream {
    const respond: (string, nat) -> Exchange
    var calls: nat

    constructor (respond: (string, nat) -> Exchange)
      ensures this.respond == respond && calls == 0
    {
      this.respond := respond;
      calls := 0;
    }

    method Get(url: string) returns (x: Exchange)
      modifies this
      ensures x == respond(url, old(calls)) && calls == old(calls) + 1
    {
      x := respond(url, calls);
      calls := calls + 1;
    }
  }
}
