/**
 * The slice of Go's net/http that the proxy touches: a header map with its
 * `Get` and `Set`, and the request whose header map is edited in place.
 * Keys are assumed to be in canonical form already.
 */
module Http {

  /** Canonical header name to its values, as `http.Header`. */
  type Header = map<string, seq<string>>

  /** First value stored under key, or "" when the key is absent or has no values. */
  function Get(h: Header, key: string): string
  {
    if key in h && h[key] != [] then h[key][0] else ""
  }

  /** Replaces every value under key with the single value v; no other key changes. */
  function Set(h: Header, key: string, v: string): (r: Header)
    ensures r.Keys == h.Keys + {key}
    ensures r[key] == [v] && Get(r, key) == v
    ensures forall k :: k in h && k != key ==> r[k] == h[k]
  {
    h[key := [v]]
  }

  /** After Set, Get returns the new value for that key and the old first value for every other key. */
  lemma GetAfterSet(h: Header, k: string, k2: string, v: string)
    ensures Get(Set(h, k, v), k2) == (if k2 == k then v else Get(h, k2))
  {
  }

  /** An inbound request: its peer address, whether it arrived over TLS, and its headers. */
  class Request {
    const remoteAddr: string
    const tls: bool
    var header: Header

    constructor (remoteAddr: string, header: Header, tls: bool)
      ensures this.remoteAddr == remoteAddr && this.header == header && this.tls == tls
    {
      this.remoteAddr := remoteAddr;
      this.header := header;
      this.tls := tls;
    }

    /** `r.Header.Set(key, v)`: the header map is updated in place. */
    method SetHeader(key: string, v: string)
      modifies this`header
      ensures header == Set(old(header), key, v)
    {
      header := Set(header, key, v);
    }
  }
}
