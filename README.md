# fabio reverse proxy: request handler and header enricher

This project models the core of fabio's `route/proxy.go`, the data plane of a
dynamic HTTP reverse proxy. It covers two pieces of code.

- **`addHeaders`** adds provenance headers to an inbound request. It edits the
  request's header map in place, in four steps:
  1. it sets an optional client-IP header;
  2. it extends `X-Forwarded-For`;
  3. it creates or extends `Forwarded`;
  4. it sets an optional TLS marker header.

  When the remote address has no port, it fails with `cannot parse <addr>`
  before touching anything.
- **`Proxy.ServeHTTP`** is the per-request pipeline. It checks in this order:
  shutdown (503), then route lookup (404), then header enrichment (500).
  Only when all three pass does it forward the request. After forwarding it
  records one sample on the target's timer and one on the global `requests`
  timer.

## Layout

- `wrappers.dfy` (`Wrappers`): `Option` and `Result`.
- `net.dfy` (`Net`): a simplified `net.SplitHostPort`. The split is at the last
  colon, and an address with no colon is an error. The module also proves that
  joining a host and port and splitting again gives them back.
- `http.dfy` (`Http`): the header map (`map<string, seq<string>>`) with Go's
  `Get` (first value or `""`) and `Set` (replace all values with one). It also
  holds the `Request` class, whose `header` field is updated in place.
- `proxy.dfy` (`Route`): the model of `route/proxy.go`. It has:
  - the specification function `Enrich`, built from the four steps;
  - the imperative `AddHeaders`, proved equal to `Enrich` (and to leave the
    headers alone on error);
  - the classes `Timer`, `Target` and `Proxy`, and `Proxy.ServeHTTP`.
- `enrich_properties.dfy` (`EnrichProperties`): lemmas about `Enrich`, one per
  promise of the enricher.
- `proxy_test.dfy` (`ProxyTestCases`): the table of `TestAddHeaders` written as
  lemmas. It also has four client methods that drive `ServeHTTP` to each of its
  terminal outcomes.

Enrichment is deterministic by construction. `AddHeaders` is proved to produce
exactly `Enrich` of its inputs, and `Enrich` is a function.

Some details of the code are easy to misread. The model follows the code:
- `X-Forwarded-For` is extended when its *first value* is non-empty, not merely
  when the key is present.
- `Forwarded` is synthesized when its first value is empty. A key that is
  present but empty counts as absent.
- When `Forwarded` is extended, `; by=<localIP>` goes inside the existing
  element. Section 4 of RFC 7239 would add a new comma-separated element
  instead.
- `Set` keeps only one value. `Forwarded` is always `Set`, so a second
  `Forwarded` value that the request carried is always dropped. A second
  `X-Forwarded-For` value is dropped only when that header is extended, is
  the client-IP header, or is the TLS marker on a TLS connection; otherwise
  all its values are kept
  (`XForwardedForExtended`). `ForwardedExtended` states that the new
  `Forwarded` header has exactly one value.

## Model

| member | source | states |
|---|---|---|
| Http.GetAfterSet | route/proxy.go:71 | `Header.Get` (lines 71 and 76) after `Header.Set` (lines 68, 73, 88, 91): Get returns the new value for the key just set and the old first value for every other key |
| Http.Set | route/proxy.go:88 | `Header.Set` as called at lines 68, 73, 88 and 91: the key then holds exactly the one new value (earlier values are dropped), the key is added if absent, and every other key keeps its values |
| Http.Request.SetHeader | route/proxy.go:68 | `r.Header.Set` in place, at lines 68, 73, 88 and 91: the request's header map becomes Set of the old map |
| Net.LastColon | route/proxy.go:62 | finds the last ':' of the address: it is a colon, no colon follows it, and there is none exactly when no colon occurs |
| Net.SplitHostPort | route/proxy.go:62-65 | fails exactly when the address has no colon; otherwise host + ":" + port is the address and the port holds no colon |
| Net.SplitJoin | route/proxy.go:62 | splitting host + ":" + port (port without colon) gives back host and port |
| Route.ForwardedValue | route/proxy.go:76-87 | the existing Forwarded value is a prefix of the new one; an empty one becomes "for=<ip>; proto=http[s]"; "; by=<localIP>" is appended exactly when localIP is non-empty; the result is never empty |
| Route.Enrich | route/proxy.go:61-95 | enrichment fails exactly when the remote address cannot be split, with "cannot parse " + the address; otherwise it applies, in source order, the steps WithClientIP (67-69), WithXForwardedFor (71-74), WithForwarded (76-88) and WithTLSHeader (90-92), whose effects the EnrichProperties lemmas state |
| Route.AddHeaders | route/proxy.go:61-95 | the in-place edit yields an error exactly when Enrich does and then leaves the header map unchanged; otherwise the map becomes Enrich's result |
| Route.Timer.Update | route/proxy.go:57-58 | UpdateSince records exactly one more sample |
| Route.Proxy.constructor | route/proxy.go:24-33 | NewProxy keeps the four configuration strings and the global requests timer |
| Route.Proxy.ServeHTTP | route/proxy.go:35-59 | exactly one outcome in strict order: shutting down gives 503 "shutting down"; else no target gives 404; else an unsplittable address gives 500 "cannot parse <addr>"; all three leave headers and timers unchanged; otherwise the request is forwarded to the target's URL with the enriched headers and each timer gains exactly one sample |
| EnrichProperties.EnrichFrame | route/proxy.go:61-95 | on success the key set becomes the old keys plus Forwarded, the client-IP header (if configured) and the TLS marker (if configured and on TLS); no key is removed and X-Forwarded-For is never created by its own rule; every key outside those and X-Forwarded-For keeps its values |
| EnrichProperties.ClientIPHeaderSet | route/proxy.go:67-69 | a configured client-IP header holds exactly the remote IP, overwriting any previous values |
| EnrichProperties.ClientIPIntoXForwardedFor | route/proxy.go:67-74 | with X-Forwarded-For as the client-IP header, the result is "<remoteIP>, <localIP>" (or just the remote IP when either is empty) |
| EnrichProperties.XForwardedForExtended | route/proxy.go:71-74 | X-Forwarded-For becomes "<old>, <localIP>" exactly when its first value and localIP are non-empty; otherwise it is exactly as before, absent included |
| EnrichProperties.ForwardedCreated | route/proxy.go:76-88 | without a Forwarded value the header becomes the single value "for=<ip>; proto=http" or "; proto=https" by TLS, followed by "; by=<localIP>" when localIP is set |
| EnrichProperties.ForwardedExtended | route/proxy.go:76-88 | an existing Forwarded value is kept as the prefix of the single new value, with "; by=<localIP>" appended exactly when localIP is set |
| EnrichProperties.ForwardedPresent | route/proxy.go:76-88 | after success Forwarded is present and non-empty |
| EnrichProperties.TLSHeaderOnlyOnTLS | route/proxy.go:90-92 | on TLS the marker header holds exactly the configured value (possibly ""); a non-TLS request neither gains nor changes it, when the marker is not also the client-IP header, X-Forwarded-For or Forwarded |
| ProxyTestCases.RemoteSplits | route/proxy_test.go:27-28 | "1.2.3.4:5555" splits into "1.2.3.4" and "5555" |
| ProxyTestCases.ForwardedValues | route/proxy_test.go:62-88 | the four Forwarded values the test table expects |
| ProxyTestCases.ErrorCase | route/proxy_test.go:20-25 | "1.2.3.4" fails with "cannot parse 1.2.3.4" |
| ProxyTestCases.SetRemoteIPHeader | route/proxy_test.go:27-32 | the client-IP header and Forwarded exactly as the table expects |
| ProxyTestCases.SetRemoteIPHeaderWithLocalIP | route/proxy_test.go:34-39 | as above, with by=5.6.7.8 in Forwarded |
| ProxyTestCases.SetXForwardedFor | route/proxy_test.go:41-46 | X-Forwarded-For as client-IP header gets the remote IP |
| ProxyTestCases.SetXForwardedForWithLocalIP | route/proxy_test.go:48-53 | the client IP is set first and then extended: "1.2.3.4, 5.6.7.8" |
| ProxyTestCases.ExtendXForwardedForWithLocalIP | route/proxy_test.go:55-60 | an existing X-Forwarded-For is extended to "9.9.9.9, 5.6.7.8" |
| ProxyTestCases.SetForwarded | route/proxy_test.go:62-67 | Forwarded is synthesized as "for=1.2.3.4; proto=http" |
| ProxyTestCases.SetForwardedWithLocalIP | route/proxy_test.go:69-74 | synthesized Forwarded with by=5.6.7.8 |
| ProxyTestCases.SetForwardedWithLocalIPAndHTTPS | route/proxy_test.go:76-81 | synthesized Forwarded with proto=https on TLS |
| ProxyTestCases.ExtendForwardedWithLocalIP | route/proxy_test.go:83-88 | an existing Forwarded keeps its for=/proto=/by= and gains "; by=5.6.7.8" |
| ProxyTestCases.SetTLSHeader | route/proxy_test.go:90-95 | the TLS marker is present with the empty value on TLS |
| ProxyTestCases.SetTLSHeaderWithValue | route/proxy_test.go:97-102 | the TLS marker carries the configured value "true" |
| ProxyTestCases.NoTLSHeaderWithoutTLS | route/proxy.go:90-92 | a configured TLS marker is absent on a plain connection |

## Left out

- Full `net.SplitHostPort`: no bracketed IPv6 addresses, no "too many colons"
  error, no checks for stray brackets. The split is at the last colon, and no
  colon means an error.
- `http.Header` key canonicalisation: all keys, including the configured
  header names, are taken to be canonical already. fabio's TestAddHeaders
  (route/proxy_test.go) passes "Client-IP" and finds "Client-Ip"; the model's
  test cases use "Client-Ip".
- `Header.Set` on a nil map, which panics in Go: the model's header is always a
  map.
- `GetTable().lookup(req, trace)` and `ShuttingDown()` are called by
  route/proxy.go but not defined there; their code is not part of this model.
  Their results become the inputs `target` (null for no route) and
  `shuttingDown`. So the model does not show that the lookup is given the
  request's "trace" header value, read before enrichment, nor that the lookup
  is skipped while shutting down: `ServeHTTP`'s contract holds for whatever
  `target` is passed in, so the "no lookup" half of the 503 rule is outside
  the model.
- Forwarding itself (`httputil.NewSingleHostReverseProxy`, the `RoundTripper`
  `tr`, URL and host rewriting, response streaming, the backend's status, and
  the 502 error for a transport failure): network I/O in a library whose
  internals are outside this model. The `Proxied` outcome records the target
  URL and the headers handed to the reverse proxy.
- The reverse proxy's own header edits: `httputil.ReverseProxy` appends the
  client IP to `X-Forwarded-For` (creating it when absent) and drops
  hop-by-hop headers before the request reaches the backend. The model's
  `Proxied` headers are those before these edits.
- go-metrics timers and `time.Now`/`UpdateSince`: wall-clock durations in a
  foreign registry. `Timer` keeps only a sample count. The global `requests`
  timer comes from `GetOrRegisterTimer` on the default registry, so it is a
  constructor parameter.
- `log.Print` and the `ResponseWriter`: the model returns a status and a
  message. `http.Error` would also add a trailing newline and content-type
  headers.
- listen_test.go (graceful shutdown): goroutines, sleeps, sockets and channels.
  Concurrency and timing are outside this sequential model.
- EnrichProperties.ForwardedPresent: holds only when the TLS marker is not
  `Forwarded` itself on a TLS connection. With that configuration the code
  overwrites `Forwarded` with the marker value, which may be "".
  `ClientIPHeaderSet`, `XForwardedForExtended`, `ForwardedCreated`,
  `ForwardedExtended` and the non-TLS half of `TLSHeaderOnlyOnTLS` likewise
  exclude configurations where a configured header
  name is the header they describe. `EnrichFrame`'s key set and frame still
  hold there; the aliased header's value is not stated.
