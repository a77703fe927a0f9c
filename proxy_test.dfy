/**
 * The table of fabio's TestAddHeaders (route/proxy_test.go) as lemmas
 * about Route.Enrich. The client-IP header is given in canonical form
 * ("Client-Ip"), the key TestAddHeaders expects to find.
 */
module ProxyTestCases {
  import opened Wrappers
  import opened Http
  import opened Route
  import Net

  const Remote := "1.2.3.4:5555"

  /** The remote address of every successful case splits into 1.2.3.4 and 5555. */
  lemma RemoteSplits()
    ensures Net.SplitHostPort(Remote) == Ok(("1.2.3.4", "5555"))
  {
    assert Remote == "1.2.3.4" + ":" + "5555";
    Net.SplitJoin("1.2.3.4", "5555");
  }

  /** The values the Forwarded header takes in the cases below. */
  lemma ForwardedValues()
    ensures ForwardedValue("", "1.2.3.4", false, "") == "for=1.2.3.4; proto=http"
    ensures ForwardedValue("", "1.2.3.4", false, "5.6.7.8") == "for=1.2.3.4; proto=http; by=5.6.7.8"
    ensures ForwardedValue("", "1.2.3.4", true, "5.6.7.8") == "for=1.2.3.4; proto=https; by=5.6.7.8"
    ensures ForwardedValue("for=9.9.9.9; proto=http; by=8.8.8.8", "1.2.3.4", false, "5.6.7.8")
            == "for=9.9.9.9; proto=http; by=8.8.8.8; by=5.6.7.8"
  {
    assert ForwardedOrigin("1.2.3.4", false) == "for=1.2.3.4; proto=http";
    assert ForwardedOrigin("1.2.3.4", true) == "for=1.2.3.4; proto=https";
    assert "for=1.2.3.4; proto=http" + "; by=" + "5.6.7.8" == "for=1.2.3.4; proto=http; by=5.6.7.8";
    assert "for=1.2.3.4; proto=https" + "; by=" + "5.6.7.8" == "for=1.2.3.4; proto=https; by=5.6.7.8";
    assert "for=9.9.9.9; proto=http; by=8.8.8.8" + "; by=" + "5.6.7.8"
        == "for=9.9.9.9; proto=http; by=8.8.8.8; by=5.6.7.8";
  }

  lemma ErrorCase()
    ensures Enrich("1.2.3.4", map[], false, "", "", "", "") == Err("cannot parse 1.2.3.4")
  {
    assert "1.2.3.4"[1] != ':';
    assert ':' !in "1.2.3.4";
    assert ParseError("1.2.3.4") == "cannot parse 1.2.3.4";
  }

  lemma SetRemoteIPHeader()
    ensures Enrich(Remote, map[], false, "", "Client-Ip", "", "")
            == Ok(map["Client-Ip" := ["1.2.3.4"], "Forwarded" := ["for=1.2.3.4; proto=http"]])
  {
    RemoteSplits();
    ForwardedValues();
  }

  lemma SetRemoteIPHeaderWithLocalIP()
    ensures Enrich(Remote, map[], false, "5.6.7.8", "Client-Ip", "", "")
            == Ok(map["Client-Ip" := ["1.2.3.4"], "Forwarded" := ["for=1.2.3.4; proto=http; by=5.6.7.8"]])
  {
    RemoteSplits();
    ForwardedValues();
  }

  lemma SetXForwardedFor()
    ensures Enrich(Remote, map[], false, "", "X-Forwarded-For", "", "")
            == Ok(map["X-Forwarded-For" := ["1.2.3.4"], "Forwarded" := ["for=1.2.3.4; proto=http"]])
  {
    RemoteSplits();
    ForwardedValues();
  }

  lemma SetXForwardedForWithLocalIP()
    ensures Enrich(Remote, map[], false, "5.6.7.8", "X-Forwarded-For", "", "")
            == Ok(map["X-Forwarded-For" := ["1.2.3.4, 5.6.7.8"], "Forwarded" := ["for=1.2.3.4; proto=http; by=5.6.7.8"]])
  {
    RemoteSplits();
    ForwardedValues();
    assert "1.2.3.4" + ", " + "5.6.7.8" == "1.2.3.4, 5.6.7.8";
    var h1 := map["X-Forwarded-For" := ["1.2.3.4"]];
    assert Get(h1, XForwardedFor) == "1.2.3.4";
    assert WithXForwardedFor(h1, "5.6.7.8") == map["X-Forwarded-For" := ["1.2.3.4, 5.6.7.8"]];
  }

  lemma ExtendXForwardedForWithLocalIP()
    ensures Enrich(Remote, map["X-Forwarded-For" := ["9.9.9.9"]], false, "5.6.7.8", "", "", "")
            == Ok(map["X-Forwarded-For" := ["9.9.9.9, 5.6.7.8"], "Forwarded" := ["for=1.2.3.4; proto=http; by=5.6.7.8"]])
  {
    RemoteSplits();
    ForwardedValues();
    assert "9.9.9.9" + ", " + "5.6.7.8" == "9.9.9.9, 5.6.7.8";
    var h1 := map["X-Forwarded-For" := ["9.9.9.9"]];
    assert Get(h1, XForwardedFor) == "9.9.9.9";
    assert WithXForwardedFor(h1, "5.6.7.8") == map["X-Forwarded-For" := ["9.9.9.9, 5.6.7.8"]];
  }

  lemma SetForwarded()
    ensures Enrich(Remote, map[], false, "", "", "", "")
            == Ok(map["Forwarded" := ["for=1.2.3.4; proto=http"]])
  {
    RemoteSplits();
    ForwardedValues();
  }

  lemma SetForwardedWithLocalIP()
    ensures Enrich(Remote, map[], false, "5.6.7.8", "", "", "")
            == Ok(map["Forwarded" := ["for=1.2.3.4; proto=http; by=5.6.7.8"]])
  {
    RemoteSplits();
    ForwardedValues();
  }

  lemma SetForwardedWithLocalIPAndHTTPS()
    ensures Enrich(Remote, map[], true, "5.6.7.8", "", "", "")
            == Ok(map["Forwarded" := ["for=1.2.3.4; proto=https; by=5.6.7.8"]])
  {
    RemoteSplits();
    ForwardedValues();
  }

  lemma ExtendForwardedWithLocalIP()
    ensures Enrich(Remote, map["Forwarded" := ["for=9.9.9.9; proto=http; by=8.8.8.8"]], false, "5.6.7.8", "", "", "")
            == Ok(map["Forwarded" := ["for=9.9.9.9; proto=http; by=8.8.8.8; by=5.6.7.8"]])
  {
    RemoteSplits();
    ForwardedValues();
    var h := map["Forwarded" := ["for=9.9.9.9; proto=http; by=8.8.8.8"]];
    assert Get(h, Forwarded) == "for=9.9.9.9; proto=http; by=8.8.8.8";
    assert WithForwarded(h, "1.2.3.4", false, "5.6.7.8")
        == map["Forwarded" := ["for=9.9.9.9; proto=http; by=8.8.8.8; by=5.6.7.8"]];
  }

  lemma SetTLSHeader()
    ensures Enrich(Remote, map[], true, "5.6.7.8", "", "Secure", "")
            == Ok(map["Forwarded" := ["for=1.2.3.4; proto=https; by=5.6.7.8"], "Secure" := [""]])
  {
    RemoteSplits();
    ForwardedValues();
  }

  lemma SetTLSHeaderWithValue()
    ensures Enrich(Remote, map[], true, "5.6.7.8", "", "Secure", "true")
            == Ok(map["Forwarded" := ["for=1.2.3.4; proto=https; by=5.6.7.8"], "Secure" := ["true"]])
  {
    RemoteSplits();
    ForwardedValues();
  }

  /** The TLS marker is absent on a plain connection even when configured. */
  lemma NoTLSHeaderWithoutTLS()
    ensures Enrich(Remote, map[], false, "5.6.7.8", "", "Secure", "")
            == Ok(map["Forwarded" := ["for=1.2.3.4; proto=http; by=5.6.7.8"]])
  {
    RemoteSplits();
    ForwardedValues();
  }

  /** While shutting down: 503, headers untouched, no timer sample. */
  method ServeWhileShuttingDown()
  {
    var requests := new Timer();
    var p := new Proxy("5.6.7.8", "", "", "", requests);
    var backendTimer := new Timer();
    var backend := new Target("http://backend", backendTimer);
    var req := new Request(Remote, map[], false);
    var o := p.ServeHTTP(req, true, backend);
    assert o == Reply(503, "shutting down");
    assert req.header == map[] && requests.count == 0 && backend.timer.count == 0;
  }

  /** No route: 404, headers untouched, no timer sample. */
  method ServeWithoutRoute()
  {
    var requests := new Timer();
    var p := new Proxy("5.6.7.8", "", "", "", requests);
    var req := new Request(Remote, map[], false);
    var o := p.ServeHTTP(req, false, null);
    assert o == Reply(404, "");
    assert req.header == map[] && requests.count == 0;
  }

  /** An address without a port: 500 naming it, headers untouched, no timer sample. */
  method ServeMalformedAddress()
  {
    var requests := new Timer();
    var p := new Proxy("5.6.7.8", "", "", "", requests);
    var backendTimer := new Timer();
    var backend := new Target("http://backend", backendTimer);
    var req := new Request("1.2.3.4", map[], false);
    ErrorCase();
    var o := p.ServeHTTP(req, false, backend);
    assert o == Reply(500, "cannot parse 1.2.3.4");
    assert req.header == map[] && requests.count == 0 && backend.timer.count == 0;
  }

  /** Otherwise the enriched request goes to the target and both timers get one sample. */
  method ServeForwarded()
  {
    var requests := new Timer();
    var p := new Proxy("5.6.7.8", "", "", "", requests);
    var backendTimer := new Timer();
    var backend := new Target("http://backend", backendTimer);
    var req := new Request(Remote, map[], false);
    SetForwardedWithLocalIP();
    var o := p.ServeHTTP(req, false, backend);
    assert o == Proxied("http://backend", map["Forwarded" := ["for=1.2.3.4; proto=http; by=5.6.7.8"]]);
    assert requests.count == 1 && backend.timer.count == 1;
  }
}
