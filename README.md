# request-cache: a verified model of the read-through HTTP cache

The service takes a posted request description (`{"url": ...}`), reduces it to a 64-bit fingerprint,
and looks the fingerprint up, rendered as a lower-case hexadecimal key, in a shared key-value store.
On a hit it replays the recorded body and content type. On a clean miss, and also when the lookup
fails, it performs the GET upstream, records the response under the key with the handler's fixed TTL,
and replies with what it fetched. A store write failure is only logged. Any failure before the fetch
completes, other than a failed lookup, is a bare 500.

The model has five modules:

- `Hex` (hex.dfy): `hashToStr`, that is, `strconv.FormatUint(hash, 16)`, with a reference parser.
  It proves the round trip in both directions, the canonical form (no leading zeros), the length
  bound and injectivity.
- `KeyValue` (store.dfy): the store as a class holding `map<string, Entry>` and a clock. Each entry
  carries its deadline. `Get` distinguishes a value, the absent-key signal and a transport error.
  A transport fault is an input to `Get` and `Set`. A zero TTL means no expiry, as in the go-redis client.
- `Http` (http.dfy): the `ResponseWriter` the handler mutates (header map, status, body), `Header.Get`,
  and the upstream network as an oracle (`respond: (string, nat) -> Exchange`, indexed by URL and by the
  number of GETs made so far) that counts its calls.
- `Cache` (cache.dfy): the `Request` and `SavedResponse` records, `makeRequest`, `writeResponse` and
  `writeError`, and the `Handler` class with `getCache`, `setCache` and `request` (here `HandleRequest`).
  The foreign pieces are `const` function fields of the handler: the JSON codec, the body decoder and
  hashstructure's fingerprint.
- `Scenarios` (scenarios.dfy): callers that chain operations. They cover set-then-get, miss-then-hit
  (which includes equivalent requests sharing a key), TTL expiry causing a refetch, and a full store outage.

The request decoder checks no URL. `main.go:40-45` only checks that `json.Unmarshal` succeeds, so a
body such as `{}` decodes to a request with an empty URL. In the model, `decodeRequest` is an opaque
function, and no URL check is added.

`getCache` reports an undecodable stored entry as an error and not as a miss (`main.go:128-131`).
However, `request` then treats that error exactly like a miss: it refetches and overwrites the corrupt
entry (`main.go:61-73`). `Cache.Handler.HandleRequest` states this behaviour.

## Model

| member | source | states |
|---|---|---|
| `Hex.FormatHex` | main.go:152-154 | the base-16 rendering is non-empty and uses only the characters 0-9 and a-f |
| `Hex.ParseFormat` | main.go:152-154 | parsing the rendering back as base 16 gives the original number |
| `Hex.FormatParse` | main.go:152-154 | every canonical hex string is the rendering of the number it denotes, so the rendering maps the naturals onto the canonical strings exactly |
| `Hex.FormatCanonical` | main.go:152-154 | the rendering is canonical: it starts with '0' exactly when the number is 0 |
| `Hex.FormatLength` | main.go:152-154 | the rendering has at most k digits exactly when n < 16^k, so the leading zeros really are omitted |
| `Hex.FormatInjective` | main.go:152-154 | two numbers with the same rendering are equal |
| `Hex.HashToStr` | main.go:152-154 | the key of a 64-bit fingerprint is canonical, 1 to 16 characters long, and parses back to the fingerprint |
| `Hex.HashToStrInjective` | main.go:152-154 | two fingerprints share a store key exactly when they are equal, so a write for one never touches the key of another |
| `KeyValue.Store.Get` | main.go:120-125 | a fault gives a transport error; otherwise a live entry gives its value and an absent or expired key gives the absent-key signal, never an error |
| `KeyValue.Store.Set` | main.go:144-147 | a successful write replaces exactly the one entry, with the deadline derived from the TTL and the current time; a fault leaves the store unchanged and is reported |
| `KeyValue.LiveUntilExpiry` | main.go:144 | an entry written at time t with TTL ttl is visible at time t' exactly when t' <= t + ttl; a zero TTL never expires |
| `Http.ResponseWriter.SetHeader` | main.go:103 | setting a header changes only that header |
| `Http.ResponseWriter.Write` | main.go:104 | writing appends to the body and fixes the status at 200 if none was written yet |
| `Http.ResponseWriter.WriteHeader` | main.go:114 | only the first status written takes effect |
| `Http.Upstream.Get` | main.go:82 | the n-th GET yields the oracle's exchange for that URL and call number n, and counts one upstream call |
| `Cache.MakeRequest` | main.go:81-100 | one upstream call; a failure to connect or to read the body is an error with the zero response; a completed exchange of any status is recorded with its body and Content-Type header |
| `Cache.WriteResponse` | main.go:102-109 | on an untouched writer the client receives status 200, the saved content type and the saved body |
| `Cache.WriteError` | main.go:111-115 | on an untouched writer the client receives a bare 500 with no content type and no body |
| `Cache.Handler.constructor` | main.go:28-31 | a handler holds the TTL and the store handle it was given |
| `Cache.Handler.GetCache` | main.go:117-134 | three disjoint outcomes under key hashToStr(hash): a transport fault or an undecodable entry gives (zero, false, error); an absent key gives (zero, false, no error); otherwise (decoded entry, true, no error); ok never comes with an error |
| `Cache.Handler.SetCache` | main.go:136-150 | a marshal failure or a store fault is returned as an error and writes nothing; otherwise exactly the entry at hashToStr(hash) is written, with the marshalled response and the handler's TTL, and every other key is unchanged |
| `Cache.Handler.HandleRequest` | main.go:33-79 | an unreadable, undecodable or unhashable body gives a 500 with no fetch and no store write; a hit replies with the cached body and content type, with no fetch and no write; a miss or lookup error makes exactly one fetch; a failed fetch gives a 500 with no write; a completed fetch is replied as fetched, whether or not the store write fails |
| `Scenarios.SetThenGet` | main.go:117-150 | if decoding inverts encoding, a successful setCache followed by getCache of the same fingerprint before the TTL elapses returns (the stored response, true, no error) |
| `Scenarios.MissThenHit` | main.go:33-79 | a miss followed, anywhere within the TTL window, by a request with the same fingerprint makes exactly one upstream call, and both clients receive the same fetched body and content type |
| `Scenarios.ExpiryRefetches` | main.go:53-79 | once the TTL has elapsed after a miss, the same request misses again and makes a second upstream call; each client receives its own fetch's response, or a 500 if that fetch failed |
| `Scenarios.StoreOutage` | main.go:61-78 | with every store read and write failing, a request whose fetch completes still receives the fetched response, and the store is untouched |

## Left out

- `main` and `handleRequests` (main.go:156-182) are left out: process start-up, the hard-coded Redis address and 1-minute TTL, `Ping` and `ListenAndServe` are I/O plumbing. The handler's TTL and store are constructor parameters instead.
- The Redis client is replaced by the abstract `KeyValue.Store`. Expiry uses a model clock (`Advance`) instead of wall-clock time. Negative durations (go-redis's keep-TTL) are not modelled, since the TTL is a `nat`.
- `KeyValue.Store.Set`: a transport fault is taken to write nothing. A real fault after the server applied the write is not modelled.
- `http.Get` and `ioutil.ReadAll` (main.go:82-90) are network I/O. They become the `Http.Upstream` oracle and the `Exchange` outcome. The oracle is indexed by URL and call number, so a refetch may see a different response, but it cannot depend on anything else, such as the clock.
- `Http.HeaderGet` is the model of net/http's `Header.Get`, a foreign call: it returns the first value stored under the key, or `""` when the header is absent or has no values. The content-type promise of main.go:92-97 is stated by `Cache.MakeRequest`.
- Expiry boundary: an entry counts as expired only once the model clock is strictly past its deadline (written time plus TTL), as a Redis server judges it. A read exactly at the deadline is still a hit.
- `hashstructure.Hash` (main.go:47) is a foreign library. It becomes the opaque total function `fingerprint: Request -> Option<uint64>`, so determinism holds by construction, and field-order insensitivity is left to that function.
- `encoding/json` (main.go:41, main.go:128, main.go:137) is foreign. It becomes opaque functions. That decoding inverts encoding is stated as the explicit requirement `CodecRoundTrips` wherever a property needs it.
- Reading the inbound body (main.go:34-38) is I/O. It becomes an `Option<string>` input, with `None` for a failed read.
- Logging, `context.Background()`, and concurrency between handlers (including races on one key) are not sequential logic and are left out. The error values that are only logged are computed but not observable.
- Store reads are not observable in the model. "No lookup when the body does not decode" is therefore stated as "no fetch and no store change".
- The write-error branch of `writeResponse` (main.go:104-107) is left out: `Write` never fails in the model. The bytes-to-string conversion of the upstream body (main.go:95) is also left out, and bodies are `string` throughout.
- `Http.ResponseWriter.Sent` reads the header map at the end, whereas net/http ignores header changes made after the status is written. No path of the handler sets a header after writing, so this does not matter here.
- `http.Header` canonicalization of key spelling is not modelled. The header maps are taken to be keyed by canonical names. Other server-side header behaviour, such as Content-Length and content sniffing, is also left out.
