/**
 * route/proxy.go: the header enricher `addHeaders` and the per-request
 * handler `Proxy.ServeHTTP`.
 */
module Route {
  import opened Wrappers
  import opened Http
  import Net

  const XForwardedFor := "X-Forwarded-For"
  const Forwarded := "Forwarded"

  /** The error addHeaders returns for an address it cannot split. */
  function ParseError(remoteAddr: string): string
  {
    "cannot parse " + remoteAddr
  }

  /** The `proto` parameter of a synthesized Forwarded value. */
  function ProtoClause(tls: bool): string
  {
    if tls then "; proto=https" else "; proto=http"
  }

  /** The Forwarded value synthesized when the request carries none. */
  function ForwardedOrigin(remoteIP: string, tls: bool): string
  {
    "for=" + remoteIP + ProtoClause(tls)
  }

  /** Whether suffix ends s. */
  predicate EndsWith(s: string, suffix: string)
  {
    |suffix| <= |s| && s[|s| - |suffix|..] == suffix
  }

  /**
   * The new Forwarded value, from the current first value `current`. A
   * non-empty current value is kept as a prefix (its for= and proto= are
   * never rewritten); an empty one is replaced by a synthesized
   * for=/proto= pair; "; by=<localIP>" is appended exactly when localIP is
   * non-empty, inside the same element. The result is never empty.
   */
  function ForwardedValue(current: string, remoteIP: string, tls: bool, localIP: string): (fwd: string)
    ensures fwd != ""
    ensures current <= fwd
    ensures current == "" ==> ForwardedOrigin(remoteIP, tls) <= fwd
    ensures localIP == "" ==> fwd == (if current == "" then ForwardedOrigin(remoteIP, tls) else current)
    ensures localIP != "" ==> EndsWith(fwd, "; by=" + localIP)
    ensures localIP != "" ==>
      |fwd| == |if current == "" then ForwardedOrigin(remoteIP, tls) else current| + |"; by=" + localIP|
  {
    var base := if current == "" then ForwardedOrigin(remoteIP, tls) else current;
    if localIP != "" then base + "; by=" + localIP else base
  }

  /** Step 1 of the enrichment: the optional client-IP header. */
  function WithClientIP(h: Header, clientIPHeader: string, remoteIP: string): Header
  {
    if clientIPHeader != "" then Set(h, clientIPHeader, remoteIP) else h
  }

  /** Step 2: X-Forwarded-For is extended, never created. */
  function WithXForwardedFor(h: Header, localIP: string): Header
  {
    var xff := Get(h, XForwardedFor);
    if xff != "" && localIP != "" then Set(h, XForwardedFor, xff + ", " + localIP) else h
  }

  /** Step 3: Forwarded is always (re)written. */
  function WithForwarded(h: Header, remoteIP: string, tls: bool, localIP: string): Header
  {
    Set(h, Forwarded, ForwardedValue(Get(h, Forwarded), remoteIP, tls, localIP))
  }

  /** Step 4: the optional TLS marker, on TLS connections only. */
  function WithTLSHeader(h: Header, tls: bool, tlsHeader: string, tlsHeaderValue: string): Header
  {
    if tlsHeader != "" && tls then Set(h, tlsHeader, tlsHeaderValue) else h
  }

  /** The keys an enrichment may add or change. */
  function Touched(clientIPHeader: string, tls: bool, tlsHeader: string): set<string>
  {
    {XForwardedFor, Forwarded}
    + (if clientIPHeader != "" then {clientIPHeader} else {})
    + (if tlsHeader != "" && tls then {tlsHeader} else {})
  }

  /** The keys an enrichment adds when they are absent. */
  function Added(clientIPHeader: string, tls: bool, tlsHeader: string): set<string>
  {
    {Forwarded}
    + (if clientIPHeader != "" then {clientIPHeader} else {})
    + (if tlsHeader != "" && tls then {tlsHeader} else {})
  }

  /**
   * What addHeaders does to a request's headers, as a function of the remote
   * address, the headers, the TLS flag and the four configuration strings.
   * It fails with "cannot parse <addr>" exactly when the address has no
   * port, and then with that message.
   */
  function Enrich(remoteAddr: string, h: Header, tls: bool,
                  localIP: string, clientIPHeader: string,
                  tlsHeader: string, tlsHeaderValue: string): (r: Result<Header, string>)
    ensures r.Err? <==> ':' !in remoteAddr
    ensures r.Err? ==> r.error == ParseError(remoteAddr)
  {
    match Net.SplitHostPort(remoteAddr)
    case Err(_) => Err(ParseError(remoteAddr))
    case Ok((remoteIP, _)) =>
      var h1 := WithClientIP(h, clientIPHeader, remoteIP);
      var h2 := WithXForwardedFor(h1, localIP);
      var h3 := WithForwarded(h2, remoteIP, tls, localIP);
      Ok(WithTLSHeader(h3, tls, tlsHeader, tlsHeaderValue))
  }

  /**
   * addHeaders: edits r's header map in place, step by step. On error the
   * map is untouched; on success it is what Enrich computes.
   */
  method AddHeaders(r: Request, localIP: string, clientIPHeader: string,
                    tlsHeader: string, tlsHeaderValue: string) returns (err: Option<string>)
    modifies r`header
    ensures var e := Enrich(r.remoteAddr, old(r.header), r.tls, localIP, clientIPHeader, tlsHeader, tlsHeaderValue);
            && (err.Some? <==> e.Err?)
            && (e.Err? ==> err.value == e.error && r.header == old(r.header))
            && (e.Ok? ==> r.header == e.value)
  {
    var split := Net.SplitHostPort(r.remoteAddr);
    if split.Err? {
      return Some(ParseError(r.remoteAddr));
    }
    var remoteIP := split.value.0;
    ghost var h0 := r.header;

    if clientIPHeader != "" {
      r.SetHeader(clientIPHeader, remoteIP);
    }
    assert r.header == WithClientIP(h0, clientIPHeader, remoteIP);
    ghost var h1 := r.header;

    var xff := Get(r.header, XForwardedFor);
    if xff != "" && localIP != "" {
      r.SetHeader(XForwardedFor, xff + ", " + localIP);
    }
    assert r.header == WithXForwardedFor(h1, localIP);
    ghost var h2 := r.header;

    var fwd := Get(r.header, Forwarded);
    if fwd == "" {
      fwd := "for=" + remoteIP;
      if r.tls {
        fwd := fwd + "; proto=https";
      } else {
        fwd := fwd + "; proto=http";
      }
    }
    if localIP != "" {
      fwd := fwd + "; by=" + localIP;
    }
    assert fwd == ForwardedValue(Get(h2, Forwarded), remoteIP, r.tls, localIP);
    r.SetHeader(Forwarded, fwd);
    ghost var h3 := r.header;

    if tlsHeader != "" && r.tls {
      r.SetHeader(tlsHeader, tlsHeaderValue);
    }
    assert r.header == WithTLSHeader(h3, r.tls, tlsHeader, tlsHeaderValue);
    return None;
  }

  /** A go-metrics timer, reduced to the number of samples it has recorded. */
  class Timer {
    var count: nat

    constructor ()
      ensures count == 0
    {
      count := 0;
    }

    /** `UpdateSince(start)`: records one more sample. */
    method Update()
      modifies this
      ensures count == old(count) + 1
    {
      count := count + 1;
    }
  }

  /** A backend: where requests go and the timer of its latencies. */
  class Target {
    const url: string
    const timer: Timer

    constructor (url: string, timer: Timer)
      ensures this.url == url && this.timer == timer
    {
      this.url := url;
      this.timer := timer;
    }
  }

  /** The objects ServeHTTP may update for a looked-up target. */
  function TimerOf(t: Target?): set<object>
  {
    if t == null then {} else {t.timer}
  }

  /** What one request ends in. */
  datatype Outcome =
    | Reply(status: int, body: string)
    | Proxied(url: string, header: Header)

  /** A dynamic reverse proxy and its configuration. */
  class Proxy {
    const localIP: string
    const clientIPHeader: string
    const tlsHeader: string
    const tlsHeaderValue: string
    const requests: Timer

    /** NewProxy; the global "requests" timer comes from the metrics registry. */
    constructor (localIP: string, clientIPHeader: string, tlsHeader: string,
                 tlsHeaderValue: string, requests: Timer)
      ensures this.localIP == localIP && this.clientIPHeader == clientIPHeader
      ensures this.tlsHeader == tlsHeader && this.tlsHeaderValue == tlsHeaderValue
      ensures this.requests == requests
    {
      this.localIP := localIP;
      this.clientIPHeader := clientIPHeader;
      this.tlsHeader := tlsHeader;
      this.tlsHeaderValue := tlsHeaderValue;
      this.requests := requests;
    }

    /**
     * ServeHTTP. `shuttingDown` is the process-wide shutdown flag and
     * `target` what the published routing table's lookup returns for this
     * request and its trace header (null: no route). It rejects with 503
     * while shutting down, answers 404 when the table has no target, 500
     * when the headers cannot be enriched, and
     * otherwise forwards the enriched request to the target and then records
     * one sample on the target's timer and one on the global timer. Only the
     * forwarding outcome changes the headers or a timer.
     */
    method ServeHTTP(req: Request, shuttingDown: bool, target: Target?) returns (o: Outcome)
      modifies req`header, requests, TimerOf(target)
      ensures var e := Enrich(req.remoteAddr, old(req.header), req.tls,
                              localIP, clientIPHeader, tlsHeader, tlsHeaderValue);
              && (shuttingDown ==> o == Reply(503, "shutting down"))
              && (!shuttingDown && target == null ==> o == Reply(404, ""))
              && (!shuttingDown && target != null && e.Err? ==> o == Reply(500, ParseError(req.remoteAddr)))
              && (!shuttingDown && target != null && e.Ok? ==> o == Proxied(target.url, e.value))
              && (o.Reply? ==> req.header == old(req.header) && requests.count == old(requests.count))
              && (o.Reply? && target != null ==> target.timer.count == old(target.timer.count))
              && (o.Proxied? ==> req.header == o.header)
              && (o.Proxied? && target.timer != requests ==>
                    target.timer.count == old(target.timer.count) + 1 && requests.count == old(requests.count) + 1)
              && (o.Proxied? && target.timer == requests ==> requests.count == old(requests.count) + 2)
    {
      if shuttingDown {
        return Reply(503, "shutting down");
      }

      if target == null {
        return Reply(404, "");
      }

      var err := AddHeaders(req, localIP, clientIPHeader, tlsHeader, tlsHeaderValue);
      if err.Some? {
        assert req.header == old(req.header);
        return Reply(500, ParseError(req.remoteAddr));
      }

      o := Proxied(target.url, req.header);
      target.timer.Update();
      requests.Update();
    }
  }
}
