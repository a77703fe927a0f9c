/**
 * What addHeaders promises about the headers it produces, stated over the
 * specification function Route.Enrich for every input that splits.
 */
module EnrichProperties {
  import opened Http
  import opened Route
  import Net

  /** The host part of an address that splits. */
  function RemoteIP(remoteAddr: string): string
    requires ':' in remoteAddr
  {
    Net.SplitHostPort(remoteAddr).value.0
  }

  /** The headers after a successful enrichment. */
  function Enriched(remoteAddr: string, h: Header, tls: bool, localIP: string,
                    clientIPHeader: string, tlsHeader: string, tlsHeaderValue: string): Header
    requires ':' in remoteAddr
  {
    Enrich(remoteAddr, h, tls, localIP, clientIPHeader, tlsHeader, tlsHeaderValue).value
  }

  /**
   * Frame: a successful enrichment adds Forwarded and the configured
   * headers, removes no key, never creates X-Forwarded-For on its own, and
   * leaves every key outside Touched with exactly the values it had.
   */
  lemma EnrichFrame(remoteAddr: string, h: Header, tls: bool, localIP: string,
                    clientIPHeader: string, tlsHeader: string, tlsHeaderValue: string)
    requires ':' in remoteAddr
    ensures var r := Enriched(remoteAddr, h, tls, localIP, clientIPHeader, tlsHeader, tlsHeaderValue);
            && r.Keys == h.Keys + Added(clientIPHeader, tls, tlsHeader)
            && forall k :: k in h && k !in Touched(clientIPHeader, tls, tlsHeader) ==> r[k] == h[k]
  {
  }

  /** A configured client-IP header ends up holding just the remote IP. */
  lemma ClientIPHeaderSet(remoteAddr: string, h: Header, tls: bool, localIP: string,
                          clientIPHeader: string, tlsHeader: string, tlsHeaderValue: string)
    requires ':' in remoteAddr
    requires clientIPHeader != "" && clientIPHeader != XForwardedFor && clientIPHeader != Forwarded
    requires !(tls && tlsHeader == clientIPHeader)
    ensures Enriched(remoteAddr, h, tls, localIP, clientIPHeader, tlsHeader, tlsHeaderValue)[clientIPHeader]
            == [RemoteIP(remoteAddr)]
  {
  }

  /**
   * With X-Forwarded-For as the client-IP header, the remote IP is written
   * first and then extended by the local IP, whatever the header held before.
   */
  lemma ClientIPIntoXForwardedFor(remoteAddr: string, h: Header, tls: bool, localIP: string,
                                  tlsHeader: string, tlsHeaderValue: string)
    requires ':' in remoteAddr
    requires !(tls && tlsHeader == XForwardedFor)
    ensures var r := Enriched(remoteAddr, h, tls, localIP, XForwardedFor, tlsHeader, tlsHeaderValue);
            && (RemoteIP(remoteAddr) != "" && localIP != "" ==>
                  r[XForwardedFor] == [RemoteIP(remoteAddr) + ", " + localIP])
            && (RemoteIP(remoteAddr) == "" || localIP == "" ==>
                  r[XForwardedFor] == [RemoteIP(remoteAddr)])
  {
  }

  /**
   * X-Forwarded-For changes only when its first value is non-empty and the
   * local IP is set, and then becomes "<old>, <localIP>"; otherwise it is
   * left exactly as it was, absent included.
   */
  lemma XForwardedForExtended(remoteAddr: string, h: Header, tls: bool, localIP: string,
                              clientIPHeader: string, tlsHeader: string, tlsHeaderValue: string)
    requires ':' in remoteAddr
    requires clientIPHeader != XForwardedFor && !(tls && tlsHeader == XForwardedFor)
    ensures var r := Enriched(remoteAddr, h, tls, localIP, clientIPHeader, tlsHeader, tlsHeaderValue);
            && (Get(h, XForwardedFor) != "" && localIP != "" ==>
                  r[XForwardedFor] == [Get(h, XForwardedFor) + ", " + localIP])
            && (Get(h, XForwardedFor) == "" || localIP == "" ==>
                  (XForwardedFor in r <==> XForwardedFor in h)
                  && (XForwardedFor in h ==> r[XForwardedFor] == h[XForwardedFor]))
  {
  }

  /**
   * Without a Forwarded value the result is "for=<ip>; proto=http[s]",
   * followed by "; by=<localIP>" when the local IP is set.
   */
  lemma ForwardedCreated(remoteAddr: string, h: Header, tls: bool, localIP: string,
                         clientIPHeader: string, tlsHeader: string, tlsHeaderValue: string)
    requires ':' in remoteAddr
    requires Get(h, Forwarded) == ""
    requires clientIPHeader != Forwarded && !(tls && tlsHeader == Forwarded)
    ensures var r := Enriched(remoteAddr, h, tls, localIP, clientIPHeader, tlsHeader, tlsHeaderValue);
            var origin := "for=" + RemoteIP(remoteAddr) + (if tls then "; proto=https" else "; proto=http");
            && (localIP == "" ==> r[Forwarded] == [origin])
            && (localIP != "" ==> r[Forwarded] == [origin + "; by=" + localIP])
  {
  }

  /**
   * An existing Forwarded value is kept as the prefix of the single new
   * value (its for= and proto= are never rewritten); "; by=<localIP>" is
   * appended inside the same element exactly when the local IP is set.
   */
  lemma ForwardedExtended(remoteAddr: string, h: Header, tls: bool, localIP: string,
                          clientIPHeader: string, tlsHeader: string, tlsHeaderValue: string)
    requires ':' in remoteAddr
    requires Get(h, Forwarded) != ""
    requires clientIPHeader != Forwarded && !(tls && tlsHeader == Forwarded)
    ensures var r := Enriched(remoteAddr, h, tls, localIP, clientIPHeader, tlsHeader, tlsHeaderValue);
            && |r[Forwarded]| == 1
            && Get(h, Forwarded) <= r[Forwarded][0]
            && (localIP == "" ==> r[Forwarded] == [Get(h, Forwarded)])
            && (localIP != "" ==> r[Forwarded] == [Get(h, Forwarded) + "; by=" + localIP])
  {
  }

  /** After a successful enrichment Forwarded is present and non-empty. */
  lemma ForwardedPresent(remoteAddr: string, h: Header, tls: bool, localIP: string,
                         clientIPHeader: string, tlsHeader: string, tlsHeaderValue: string)
    requires ':' in remoteAddr
    requires !(tls && tlsHeader == Forwarded)
    ensures Get(Enriched(remoteAddr, h, tls, localIP, clientIPHeader, tlsHeader, tlsHeaderValue), Forwarded) != ""
  {
  }

  /**
   * The TLS marker is set to its configured value (possibly "") on a TLS
   * connection, and a non-TLS request never gains it nor sees it changed.
   */
  lemma TLSHeaderOnlyOnTLS(remoteAddr: string, h: Header, tls: bool, localIP: string,
                           clientIPHeader: string, tlsHeader: string, tlsHeaderValue: string)
    requires ':' in remoteAddr
    requires tlsHeader != ""
    ensures var r := Enriched(remoteAddr, h, tls, localIP, clientIPHeader, tlsHeader, tlsHeaderValue);
            && (tls ==> r[tlsHeader] == [tlsHeaderValue])
            && (!tls && tlsHeader !in {clientIPHeader, XForwardedFor, Forwarded} ==>
                  (tlsHeader in r <==> tlsHeader in h) && (tlsHeader in h ==> r[tlsHeader] == h[tlsHeader]))
  {
  }
}
