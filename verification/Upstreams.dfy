/** Upstream identity: scheme, host and port with the scheme's default (internal/proxy/balancer.go). */
module Upstreams {
  import opened Options
  import opened Text

  datatype Url = Url(scheme: string, host: string, port: string, path: string)

  function PortOf(u: Url): string {
    if u.port != "" then u.port
    else if Lower(u.scheme) == "http" then "80"
    else if Lower(u.scheme) == "https" then "443"
    else ""
  }

  predicate SameUpstream(a: Url, b: Url) {
    Lower(a.scheme) == Lower(b.scheme) && Lower(a.host) == Lower(b.host) && PortOf(a) == PortOf(b)
  }

  /** What makes two URLs the same upstream, in the words of the configuration: scheme and host in
      any case, and the port, where none means 80 for http and 443 for https. */
  predicate Alike(a: Url, b: Url) {
    && EqualFold(a.scheme, b.scheme) && EqualFold(a.host, b.host)
    && (|| a.port == b.port
        || (EqualFold(a.scheme, "http") && {a.port, b.port} == {"", "80"})
        || (EqualFold(a.scheme, "https") && {a.port, b.port} == {"", "443"}))
  }

  lemma SchemeIs(scheme: string)
    ensures Lower(scheme) == "http" <==> EqualFold(scheme, "http")
    ensures Lower(scheme) == "https" <==> EqualFold(scheme, "https")
  {
    LowerIsSmall(scheme, "http");
    LowerIsSmall(scheme, "https");
  }

  lemma SameUpstreamIff(a: Url, b: Url)
    ensures SameUpstream(a, b) <==> Alike(a, b)
  {
    LowerIsFold(a.scheme, b.scheme);
    LowerIsFold(a.host, b.host);
    SchemeIs(a.scheme);
    SchemeIs(b.scheme);
    if Lower(a.scheme) == Lower(b.scheme) {
      PortsAgreeIff(a, b);
    }
  }

  lemma PortsAgreeIff(a: Url, b: Url)
    requires Lower(a.scheme) == Lower(b.scheme)
    ensures PortOf(a) == PortOf(b) <==>
              || a.port == b.port
              || (Lower(a.scheme) == "http" && {a.port, b.port} == {"", "80"})
              || (Lower(a.scheme) == "https" && {a.port, b.port} == {"", "443"})
  {
    var ports := {a.port, b.port};
    assert a.port in ports && b.port in ports;
    assert a.port == "" && b.port == "80" ==> ports == {"", "80"};
    assert a.port == "" && b.port == "443" ==> ports == {"", "443"};
    assert b.port == "" && a.port == "80" ==> ports == {"", "80"};
    assert b.port == "" && a.port == "443" ==> ports == {"", "443"};
    assert ports == {"", "80"} ==> "" in ports && "80" in ports;
    assert ports == {"", "443"} ==> "" in ports && "443" in ports;
  }

  function ResolveFrom(targets: seq<Url>, u: Url, t: nat): (slot: Option<nat>)
    requires t <= |targets|
    ensures slot.Some? ==> t <= slot.value < |targets| && SameUpstream(targets[slot.value], u)
    ensures slot.Some? ==> forall j :: t <= j < slot.value ==> !SameUpstream(targets[j], u)
    ensures slot.None? ==> forall j :: t <= j < |targets| ==> !SameUpstream(targets[j], u)
    decreases |targets| - t
  {
    if t == |targets| then None
    else if SameUpstream(targets[t], u) then Some(t)
    else ResolveFrom(targets, u, t + 1)
  }

  /** The state Acquire works on for a target URL. */
  function Resolve(targets: seq<Url>, u: Url): Option<nat> {
    ResolveFrom(targets, u, 0)
  }

  predicate PairwiseDistinct(targets: seq<Url>) {
    forall i, j :: 0 <= i < j < |targets| ==> !SameUpstream(targets[i], targets[j])
  }

  /** Acquire finds back every picked target if and only if no two targets are the same upstream. */
  lemma ResolveIsIdentityIff(targets: seq<Url>)
    ensures PairwiseDistinct(targets)
            <==> forall t :: 0 <= t < |targets| ==> Resolve(targets, targets[t]) == Some(t)
  {
  }
}
