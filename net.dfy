/**
 * The part of Go's `net.SplitHostPort` that the proxy relies on, simplified:
 * the port is everything after the LAST colon and the host everything before
 * it; an address without a colon cannot be split.
 */
module Net {
  import opened Wrappers

  /** Position of the last ':' in s, or None when s has no colon. */
  function LastColon(s: string): (r: Option<nat>)
    ensures r.Some? ==> r.value < |s| && s[r.value] == ':'
    ensures r.Some? ==> forall j :: r.value < j < |s| ==> s[j] != ':'
    ensures r.None? <==> ':' !in s
  {
    if s == [] then None
    else if s[|s| - 1] == ':' then Some(|s| - 1)
    else LastColon(s[..|s| - 1])
  }

  /**
   * Splits "host:port" into host and port. Fails, as Go does for a missing
   * port, exactly when the address holds no colon; otherwise the two parts
   * glue back to the address and the port holds no colon.
   */
  function SplitHostPort(hostport: string): (r: Result<(string, string), string>)
    ensures r.Err? <==> ':' !in hostport
    ensures r.Err? ==> r.error == "missing port in address"
    ensures r.Ok? ==> hostport == r.value.0 + ":" + r.value.1 && ':' !in r.value.1
  {
    match LastColon(hostport)
    case None => Err("missing port in address")
    case Some(i) =>
      assert hostport == hostport[..i] + ":" + hostport[i + 1..];
      Ok((hostport[..i], hostport[i + 1..]))
  }

  /** Joining a host and a colon-free port with ':' and splitting again gives both back. */
  lemma SplitJoin(host: string, port: string)
    requires ':' !in port
    ensures SplitHostPort(host + ":" + port) == Ok((host, port))
  {
    var s := host + ":" + port;
    assert s[|host|] == ':';
    assert forall j :: |host| < j < |s| ==> s[j] == port[j - |host| - 1];
    var i := LastColon(s).value;
    assert i == |host|;
    assert s[..i] == host && s[i + 1..] == port;
  }
}
