/** HTTP header multimaps, as far as the proxy copies and filters them (internal/proxy/headers.go).
    Keys are in canonical form, as they come from Go's HTTP server and transport. */
module Headers {

  type Header = map<string, seq<string>>

  function Get(h: Header, k: string): string {
    if k in h && h[k] != [] then h[k][0] else ""
  }

  function Set(h: Header, k: string, v: string): Header {
    h[k := [v]]
  }

  function Del(h: Header, k: string): Header {
    h - {k}
  }

  function Values(h: Header, k: string): seq<string> {
    if k in h then h[k] else []
  }

  function Add(h: Header, k: string, v: string): Header {
    h[k := Values(h, k) + [v]]
  }

  /** hopHeaders. */
  const HOP_HEADERS: set<string> :=
    {"Connection", "Keep-Alive", "Proxy-Authenticate", "Proxy-Authorization", "Te", "Trailers",
     "Transfer-Encoding", "Upgrade"}

  /** What sanitizeResponseHeaders keeps: the end-to-end headers that have a value. */
  function Sanitize(h: Header): Header {
    map k | k in h && k !in HOP_HEADERS && h[k] != [] :: h[k]
  }

  /** What net/http promises of its headers. */
  lemma HeaderLaws(h: Header, k: string, v: string, other: string)
    requires other != k
    ensures Get(h, k) == if k in h && |h[k]| > 0 then h[k][0] else ""
    ensures Set(h, k, v) == h[k := [v]] && Get(Set(h, k, v), k) == v && Get(Set(h, k, v), other) == Get(h, other)
    ensures Values(Add(h, k, v), k) == (if k in h then h[k] else []) + [v] && Values(Add(h, k, v), other) == Values(h, other)
    ensures k !in Del(h, k) && Values(Del(h, k), other) == Values(h, other)
  {
  }

  /** The hop-by-hop headers, and only those, are left out, as are keys without a value. */
  lemma SanitizeKeeps(h: Header, k: string)
    ensures k in Sanitize(h) <==>
              && k in h && h[k] != []
              && k !in {"Connection", "Keep-Alive", "Proxy-Authenticate", "Proxy-Authorization", "Te", "Trailers",
                        "Transfer-Encoding", "Upgrade"}
    ensures k in Sanitize(h) ==> Sanitize(h)[k] == h[k]
  {
  }
}
