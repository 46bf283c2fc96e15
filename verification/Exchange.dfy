/** What ServeHTTP and serveUpstream read from a request and write to a client
    (internal/proxy/proxy.go, internal/proxy/headers.go, internal/proxy/requestId.go). */
module Exchange {
  import opened Options
  import opened Headers
  import opened Upstreams
  import opened Lru
  import opened CachePolicy
  import opened Text
  import opened CacheKey
  import opened CacheControl
  import Proxy

  // ----- Requests -----

  datatype Request = Request(verb: string, scheme: string, urlHost: string, path: string, query: string,
                             host: string, header: Header, clientIP: Option<string>, tls: bool)

  predicate IsCacheableRequest(r: Request) {
    var directives := Parse(Headers.Get(r.header, "Cache-Control"));
    && "no-store" !in directives && "no-cache" !in directives
    && (Headers.Get(r.header, "Authorization") != "" ==> "public" in directives)
  }

  predicate ClientNoCache(r: Request) {
    var directives := Parse(Headers.Get(r.header, "Cache-Control"));
    "no-cache" in directives || "no-store" in directives || Lower(Headers.Get(r.header, "Pragma")) == "no-cache"
  }

  predicate Eligible(r: Request) {
    IsCacheableRequest(r) && !ClientNoCache(r)
  }

  function HostOf(u: Url): string {
    if u.port == "" then u.host else u.host + ":" + u.port
  }

  function ForwardedFor(h: Header, ip: Option<string>): Header {
    if ip.None? || ip.value == "" then h
    else if Headers.Get(h, "X-Forwarded-For") == "" then Headers.Set(h, "X-Forwarded-For", ip.value)
    else Headers.Set(h, "X-Forwarded-For", Headers.Get(h, "X-Forwarded-For") + ", " + ip.value)
  }

  function SchemeOf(r: Request): string {
    if r.tls then "https"
    else if Headers.Get(r.header, "X-Forwarded-Proto") != "" then Headers.Get(r.header, "X-Forwarded-Proto")
    else "http"
  }

  /** directRequest. */
  function DirectRequest(r: Request, target: Url): Request {
    var kept := r.(header := r.header - HOP_HEADERS);
    var forwarded := ForwardedFor(kept.header, r.clientIP);
    var proto := Headers.Set(forwarded, "X-Forwarded-Proto", SchemeOf(kept.(header := forwarded)));
    r.(scheme := target.scheme, urlHost := HostOf(target), path := SingleJoiningSlash(target.path, r.path),
       host := HostOf(target), header := Headers.Set(proto, "X-Forwarded-Host", r.host))
  }

  function RequestID(r: Request): string {
    TrimSpace(Headers.Get(r.header, "X-Request-ID"))
  }

  /** ensureRequestID, with the ID it would generate. */
  function EnsureRequestID(r: Request, generated: string): Request {
    if RequestID(r) != "" then r else r.(header := Headers.Set(r.header, "X-Request-ID", generated))
  }

  predicate ForwardingHeader(k: string) {
    k == "X-Forwarded-For" || k == "X-Forwarded-Proto" || k == "X-Forwarded-Host"
  }

  /** The upstream sees the client's host in X-Forwarded-Host, the client's address at the end of
      X-Forwarded-For, the scheme the client used or a proxy before this one reported in
      X-Forwarded-Proto, no hop-by-hop header, and every other header as it came. */
  lemma DirectedHeaders(r: Request, target: Url)
    ensures var h := DirectRequest(r, target).header;
            var hop := {"Connection", "Keep-Alive", "Proxy-Authenticate", "Proxy-Authorization", "Te", "Trailers",
                        "Transfer-Encoding", "Upgrade"};
            && (forall k :: k in hop ==> k !in h)
            && (forall k :: k !in hop && !ForwardingHeader(k) ==> Values(h, k) == Values(r.header, k))
            && Headers.Get(h, "X-Forwarded-Host") == r.host
            && (var reported := Headers.Get(r.header, "X-Forwarded-Proto");
                Headers.Get(h, "X-Forwarded-Proto") == if r.tls then "https" else if reported != "" then reported else "http")
            && (r.clientIP.None? || r.clientIP.value == "" ==>
                  Values(h, "X-Forwarded-For") == Values(r.header, "X-Forwarded-For"))
            && (r.clientIP.Some? && r.clientIP.value != "" ==>
                  var given := Headers.Get(r.header, "X-Forwarded-For");
                  Headers.Get(h, "X-Forwarded-For")
                  == if given == "" then r.clientIP.value else given + ", " + r.clientIP.value)
  {
  }

  /** A client's own ID is kept; without one, or with a blank one, the request gets the generated. */
  lemma RequestIDIsKept(r: Request, generated: string)
    ensures var own, sent := TrimSpace(Headers.Get(r.header, "X-Request-ID")), EnsureRequestID(r, generated);
            && (own != "" ==> sent == r && RequestID(sent) == own)
            && (own == "" ==>
                  sent == r.(header := r.header["X-Request-ID" := [generated]]) && RequestID(sent) == TrimSpace(generated))
  {
  }

  /** What a request's own headers must say for its response to be looked up or kept: nothing
      against it, and nothing that identifies the client unless it is declared public. */
  ghost predicate MayCache(header: Header, ps: seq<Piece>) {
    && !Mentions(ps, "no-store") && !Mentions(ps, "no-cache")
    && !EqualFold(Headers.Get(header, "Pragma"), "no-cache")
    && (Headers.Get(header, "Authorization") == "" || Mentions(ps, "public"))
  }

  lemma EligibleIff(r: Request, ps: seq<Piece>)
    requires Spelled(Headers.Get(r.header, "Cache-Control"), ps)
    ensures Eligible(r) <==> MayCache(r.header, ps)
  {
    var text := Headers.Get(r.header, "Cache-Control");
    ParseInWords(text, ps, "no-store");
    ParseInWords(text, ps, "no-cache");
    ParseInWords(text, ps, "public");
    LowerIsSmall(Headers.Get(r.header, "Pragma"), "no-cache");
  }

  /** Request headers the eligibility decision reads. */
  const DECIDING: set<string> := {"Cache-Control", "Authorization", "Pragma"}

  predicate SameDeciding(g: Header, h: Header) {
    forall k :: k in DECIDING ==> Headers.Get(g, k) == Headers.Get(h, k)
  }

  lemma SetKeepsDeciding(h: Header, k: string, v: string)
    requires k !in DECIDING
    ensures SameDeciding(Headers.Set(h, k, v), h)
  {
  }

  lemma ForwardingKeepsDeciding(h: Header, ip: Option<string>)
    ensures SameDeciding(ForwardedFor(h, ip), h)
  {
    if ip.Some? {
      SetKeepsDeciding(h, "X-Forwarded-For", ip.value);
      SetKeepsDeciding(h, "X-Forwarded-For", Headers.Get(h, "X-Forwarded-For") + ", " + ip.value);
    }
  }

  lemma HopRemovalKeepsDeciding(h: Header)
    ensures SameDeciding(h - HOP_HEADERS, h)
  {
  }

  lemma DirectingKeepsDeciding(r: Request, target: Url)
    ensures SameDeciding(DirectRequest(r, target).header, r.header)
  {
    var kept := r.header - HOP_HEADERS;
    var forwarded := ForwardedFor(kept, r.clientIP);
    var proto := SchemeOf(r.(header := kept).(header := forwarded));
    HopRemovalKeepsDeciding(r.header);
    ForwardingKeepsDeciding(kept, r.clientIP);
    SetKeepsDeciding(forwarded, "X-Forwarded-Proto", proto);
    SetKeepsDeciding(Headers.Set(forwarded, "X-Forwarded-Proto", proto), "X-Forwarded-Host", r.host);
  }

  lemma SameDecision(q: Request, r: Request)
    requires SameDeciding(q.header, r.header)
    ensures Eligible(q) <==> Eligible(r)
  {
    assert "Cache-Control" in DECIDING && "Authorization" in DECIDING && "Pragma" in DECIDING;
  }

  /** Rewriting a request for an upstream, and giving it an ID, do not change the decision. */
  lemma RewritingKeepsEligibility(r: Request, target: Url, generated: string)
    ensures Eligible(DirectRequest(r, target)) <==> Eligible(r)
    ensures Eligible(DirectRequest(EnsureRequestID(r, generated), target)) <==> Eligible(r)
  {
    var identified := EnsureRequestID(r, generated);
    SetKeepsDeciding(r.header, "X-Request-ID", generated);
    DirectingKeepsDeciding(r, target);
    DirectingKeepsDeciding(identified, target);
    SameDecision(DirectRequest(r, target), r);
    SameDecision(DirectRequest(identified, target), identified);
    SameDecision(identified, r);
  }

  function KeyOf(r: Request, host: string, bodyHash: string): string {
    FullKey(Parts(r.verb, r.scheme, host, r.path, r.query, TrimSpace(Headers.Get(r.header, "Accept")),
                  TrimSpace(Headers.Get(r.header, "Accept-Encoding")), bodyHash))
  }

  /** Lines 142-164: the key a request looks up, from a clone rewritten for the previewed target. */
  function LookupKey(cacheOn: bool, r: Request, preview: Option<Url>, bodyHash: string): Option<string> {
    var probe := if preview.Some? then DirectRequest(r, preview.value) else r;
    if cacheOn && Eligible(probe) then Some(KeyOf(probe, r.host, bodyHash)) else None
  }

  lemma OtherHeadersAreKept(r: Request, target: Url, k: string)
    requires k !in HOP_HEADERS && !ForwardingHeader(k)
    ensures Headers.Get(DirectRequest(r, target).header, k) == Headers.Get(r.header, k)
  {
    DirectedHeaders(r, target);
    assert Values(DirectRequest(r, target).header, k) == Values(r.header, k);
  }

  /** What the key of a request is made of when target t is previewed: the target gives its scheme
      and its path, the client the rest. */
  function LookupParts(r: Request, t: Url, bodyHash: string): Parts {
    Parts(r.verb, t.scheme, r.host, SingleJoiningSlash(t.path, r.path), r.query,
          TrimSpace(Headers.Get(r.header, "Accept")), TrimSpace(Headers.Get(r.header, "Accept-Encoding")), bodyHash)
  }

  /** The outbound request goes to the target, under its path. */
  lemma DirectedURL(r: Request, t: Url)
    ensures var probe := DirectRequest(r, t);
            && probe.verb == r.verb && probe.scheme == t.scheme && probe.query == r.query
            && probe.path == SingleJoiningSlash(t.path, r.path)
            && probe.urlHost == probe.host == t.host + (if t.port == "" then "" else ":" + t.port)
            && probe.clientIP == r.clientIP && probe.tls == r.tls
  {
  }

  lemma KeyOfDirected(r: Request, t: Url, bodyHash: string)
    ensures KeyOf(DirectRequest(r, t), r.host, bodyHash) == FullKey(LookupParts(r, t, bodyHash))
  {
    DirectedURL(r, t);
    OtherHeadersAreKept(r, t, "Accept");
    OtherHeadersAreKept(r, t, "Accept-Encoding");
  }

  lemma KeyIsOfLookupParts(r: Request, t: Url, bodyHash: string)
    requires Eligible(r)
    ensures LookupKey(true, r, Some(t), bodyHash) == Some(FullKey(LookupParts(r, t, bodyHash)))
    ensures LookupKey(true, r, None, bodyHash)
            == Some(FullKey(LookupParts(r, t, bodyHash).(scheme := r.scheme, path := r.path)))
  {
    RewritingKeepsEligibility(r, t, "");
    KeyOfDirected(r, t, bodyHash);
  }

  /** The key is built from the client's host so that different upstreams share cached responses;
      they do so if and only if their schemes and the rewritten paths agree. */
  lemma UpstreamsShareKeysIff(r: Request, t: Url, u: Url, bodyHash: string)
    requires Eligible(r) && Separable(LookupParts(r, t, bodyHash)) && Separable(LookupParts(r, u, bodyHash))
    ensures LookupKey(true, r, Some(t), bodyHash) == LookupKey(true, r, Some(u), bodyHash)
            <==> t.scheme == u.scheme && SingleJoiningSlash(t.path, r.path) == SingleJoiningSlash(u.path, r.path)
  {
    KeyIsOfLookupParts(r, t, bodyHash);
    KeyIsOfLookupParts(r, u, bodyHash);
    KeyTellsRequestsApart(LookupParts(r, t, bodyHash), LookupParts(r, u, bodyHash));
  }

  datatype KeyUse = NoStore | Stashed(key: string) | Fallback(key: string)

  /** Lines 312 and 352-358: the key serveUpstream stores under, and where it came from. */
  function StoreKey(cacheOn: bool, outbound: Request, stashed: Option<string>): KeyUse {
    if !(cacheOn && Eligible(outbound)) then NoStore
    else if stashed.Some? && stashed.value != "" then Stashed(stashed.value)
    else Fallback(KeyOf(outbound, outbound.host, ""))
  }

  /** A request that came through ServeHTTP stores under exactly the key it looked up, or neither
      looks up nor stores; the fallback key is never built.  The previewed and the picked target
      need not be the same, nor the preview exist. */
  lemma StoreUsesLookupKey(cacheOn: bool, r: Request, preview: Option<Url>, picked: Url,
                           bodyHash: string, generated: string)
    ensures var looked := LookupKey(cacheOn, r, preview, bodyHash);
            StoreKey(cacheOn, DirectRequest(EnsureRequestID(r, generated), picked), looked)
            == if looked.Some? then Stashed(looked.value) else NoStore
  {
    RewritingKeepsEligibility(r, picked, generated);
    if preview.Some? {
      RewritingKeepsEligibility(r, preview.value, generated);
    }
  }

  // ----- Responses -----

  /** Headers of dst with those of src added (copyHeader); a key without values adds nothing. */
  function Merge(dst: Header, src: Header): (merged: Header)
    ensures forall k :: k in merged <==> k in dst || (k in src && src[k] != [])
    ensures forall k :: k in merged ==> merged[k] == Values(dst, k) + Values(src, k)
  {
    map k | k in dst.Keys + (set x | x in src && src[x] != []) :: Values(dst, k) + Values(src, k)
  }

  lemma MergeNone(dst: Header)
    ensures Merge(dst, map[]) == dst
  {
    forall k | k in dst ensures Values(dst, k) + [] == dst[k] {
    }
  }

  /** Merging one more key of src, all its values at once. */
  lemma MergeOne(dst: Header, src: Header, todo: set<string>, k: string)
    requires k in todo && todo <= src.Keys
    ensures var before := Merge(dst, src - todo);
            Merge(dst, src - (todo - {k}))
            == if src[k] == [] then before else before[k := Values(before, k) + src[k]]
  {
    var before, after := Merge(dst, src - todo), Merge(dst, src - (todo - {k}));
    forall x | x != k ensures x in before <==> x in after {
      assert x in src - todo <==> x in src - (todo - {k});
    }
    assert Values(before, k) == Values(dst, k);
  }

  lemma SanitizeIs(h: Header)
    ensures Merge(map[], h) - HOP_HEADERS == Sanitize(h)
  {
    forall k | k in h ensures [] + h[k] == h[k] {
    }
  }

  /** What the queue's handler sets when QueueWaitHeader is on. */
  datatype QueueInfo = QueueInfo(concurrencyLimit: string, queueLimit: string, depth: string, wait: string)

  const QUEUE_HEADERS: set<string> := {"X-Concurrency-Limit", "X-Queue-Limit", "X-Queue-Depth", "X-Queue-Wait"}

  function WithQueueInfo(h: Header, info: Option<QueueInfo>): Header {
    match info
    case None => h
    case Some(q) =>
      Headers.Set(Headers.Set(Headers.Set(Headers.Set(h, "X-Concurrency-Limit", q.concurrencyLimit),
        "X-Queue-Limit", q.queueLimit), "X-Queue-Depth", q.depth), "X-Queue-Wait", q.wait)
  }

  function AgeSeconds(storedAt: int, now: int): nat {
    if now < storedAt then 0 else (now - storedAt) / SECOND
  }

  /** The header a miss sends, from the writer's header at the start of ServeHTTP. */
  function MissHeader(start: Header, requestID: string, info: Option<QueueInfo>, a: Answer, xCache: string): Header {
    var copied := Merge(WithQueueInfo(Headers.Set(start, "X-Request-ID", requestID), info), Sanitize(a.header));
    var sized := if "Content-Length" in copied then copied
                 else Headers.Set(copied, "Content-Length", Itoa(|a.body|));
    Headers.Set(sized, "X-Cache", xCache)
  }

  function HitRequestID(stored: string, own: string): string {
    if TrimSpace(stored) == "" then own else TrimSpace(stored)
  }

  /** The header a hit sends; `own` is the hitting request's own (ensured) ID. */
  function HitHeader(start: Header, own: string, e: CachedResponse, now: int): Header {
    var copied := Merge(Headers.Set(start, "X-Request-ID", HitRequestID(e.requestID, own)), e.header);
    Headers.Set(Headers.Set(copied, "X-Cache", "HIT"), "Age", Itoa(AgeSeconds(e.storedAt, now)))
  }

  /** The age in whole seconds, none if the clock went back. */
  lemma AgeIs(storedAt: int, now: int)
    ensures var age := AgeSeconds(storedAt, now);
            if now < storedAt then age == 0
            else age * 1_000_000_000 <= now - storedAt < (age + 1) * 1_000_000_000
  {
  }

  /** What a header holds before the upstream's are copied. */
  function BeforeCopy(start: Header, requestID: string, info: Option<QueueInfo>, k: string): seq<string> {
    if k == "X-Request-ID" then [requestID]
    else if info.Some? && k == "X-Concurrency-Limit" then [info.value.concurrencyLimit]
    else if info.Some? && k == "X-Queue-Limit" then [info.value.queueLimit]
    else if info.Some? && k == "X-Queue-Depth" then [info.value.depth]
    else if info.Some? && k == "X-Queue-Wait" then [info.value.wait]
    else Values(start, k)
  }

  lemma BeforeCopyIs(start: Header, requestID: string, info: Option<QueueInfo>, k: string)
    ensures var h := WithQueueInfo(Headers.Set(start, "X-Request-ID", requestID), info);
            Values(h, k) == BeforeCopy(start, requestID, info, k) && (k == "Content-Length" ==> (k in h <==> k in start))
  {
  }

  /** One header of a miss or bypass: what the proxy sets, then what the upstream sent; the length
      of the body only if nobody gave one. */
  lemma MissHeaderIs(start: Header, requestID: string, info: Option<QueueInfo>, a: Answer, xCache: string, k: string)
    ensures var upstream := Values(Sanitize(a.header), k);
            Values(MissHeader(start, requestID, info, a, xCache), k)
            == if k == "X-Cache" then [xCache]
               else if k == "Content-Length" && k !in start && upstream == [] then [Itoa(|a.body|)]
               else BeforeCopy(start, requestID, info, k) + upstream
  {
    BeforeCopyIs(start, requestID, info, k);
    BeforeCopyIs(start, requestID, info, "Content-Length");
    var h := WithQueueInfo(Headers.Set(start, "X-Request-ID", requestID), info);
    assert Values(Merge(h, Sanitize(a.header)), k) == Values(h, k) + Values(Sanitize(a.header), k);
  }

  /** One header of a hit: what the proxy sets, then what was kept of the upstream's. */
  lemma HitHeaderIs(start: Header, own: string, e: CachedResponse, now: int, k: string)
    ensures var sent := Values(HitHeader(start, own, e, now), k);
            && (k == "X-Cache" ==> sent == ["HIT"])
            && (k == "Age" ==> sent == [Itoa(AgeSeconds(e.storedAt, now))])
            && (k == "X-Request-ID" ==>
                  sent == [if TrimSpace(e.requestID) != "" then TrimSpace(e.requestID) else own] + Values(e.header, k))
            && (k !in {"X-Cache", "Age", "X-Request-ID"} ==> sent == Values(start, k) + Values(e.header, k))
  {
  }

  class ResponseWriter {
    var header: Header
    var status: Option<int>
    var body: string

    constructor (header: Header)
      ensures this.header == header && status == None && body == ""
    {
      this.header, status, body := header, None, "";
    }

    /** copyHeader into the writer's header. */
    method CopyHeader(src: Header)
      modifies this`header
      ensures header == Merge(old(header), src)
    {
      var todo := src.Keys;
      assert src - todo == map[];
      MergeNone(header);
      while todo != {}
        invariant todo <= src.Keys
        invariant header == Merge(old(header), src - todo)
        decreases |todo|
      {
        var k :| k in todo;
        MergeOne(old(header), src, todo, k);
        AddAll(k, src[k]);
        todo := todo - {k};
      }
      assert src - {} == src;
    }

    /** copyHeader's inner loop. */
    method AddAll(k: string, values: seq<string>)
      modifies this`header
      ensures header == if values == [] then old(header) else old(header)[k := Values(old(header), k) + values]
    {
      ghost var before := header;
      for i := 0 to |values|
        invariant header == if i == 0 then before else before[k := Values(before, k) + values[..i]]
      {
        assert Values(header, k) + [values[i]] == Values(before, k) + values[..i + 1];
        header := Headers.Add(header, k, values[i]);
      }
      assert values[..|values|] == values;
    }

    method Send(statusCode: int, text: string)
      modifies this`status, this`body
      ensures status == Some(statusCode) && body == text
    {
      status, body := Some(statusCode), text;
    }

    /** Lines 167-190: replay a cached entry. */
    method WriteHit(own: string, e: CachedResponse, now: int)
      modifies this
      ensures header == HitHeader(old(header), own, e, now) && status == Some(e.statusCode) && body == e.body
    {
      var requestID := TrimSpace(e.requestID);
      if requestID == "" {
        requestID := own;
      }
      header := Headers.Set(header, "X-Request-ID", requestID);
      CopyHeader(e.header);
      header := Headers.Set(header, "X-Cache", "HIT");
      header := Headers.Set(header, "Age", Itoa(AgeSeconds(e.storedAt, now)));
      Send(e.statusCode, e.body);
    }

    /** Lines 225-226, queue.go:128-133 and proxy.go:306-326: pass an upstream's answer on. */
    method WriteAnswer(requestID: string, info: Option<QueueInfo>, a: Answer, xCache: string)
      modifies this
      ensures header == MissHeader(old(header), requestID, info, a, xCache) && status == Some(a.status) && body == a.body
    {
      header := Headers.Set(header, "X-Request-ID", requestID);
      if info.Some? {
        header := Headers.Set(header, "X-Concurrency-Limit", info.value.concurrencyLimit);
        header := Headers.Set(header, "X-Queue-Limit", info.value.queueLimit);
        header := Headers.Set(header, "X-Queue-Depth", info.value.depth);
        header := Headers.Set(header, "X-Queue-Wait", info.value.wait);
      }
      var sanitized := SanitizeResponseHeaders(a.header);
      CopyHeader(sanitized);
      if "Content-Length" !in header {
        header := Headers.Set(header, "Content-Length", Itoa(|a.body|));
      }
      header := Headers.Set(header, "X-Cache", xCache);
      Send(a.status, a.body);
    }
  }

  /** sanitizeResponseHeaders: copy value by value, then delete the hop-by-hop headers. */
  method SanitizeResponseHeaders(headers: Header) returns (sanitized: Header)
    ensures sanitized == Sanitize(headers)
  {
    var copy := new ResponseWriter(map[]);
    copy.CopyHeader(headers);
    SanitizeIs(headers);
    sanitized := DeleteHopHeaders(copy.header);
  }

  method DeleteHopHeaders(headers: Header) returns (rest: Header)
    ensures rest == headers - HOP_HEADERS
  {
    rest := headers;
    var todo := HOP_HEADERS;
    while todo != {}
      invariant todo <= HOP_HEADERS
      invariant rest == headers - (HOP_HEADERS - todo)
      decreases |todo|
    {
      var h :| h in todo;
      assert HOP_HEADERS - (todo - {h}) == HOP_HEADERS - todo + {h};
      rest := Headers.Del(rest, h);
      todo := todo - {h};
    }
    assert HOP_HEADERS - todo == HOP_HEADERS;
  }

  /** Headers in which a hit may differ from the miss that stored it. */
  const EXEMPT: set<string> := {"X-Cache", "Age", "Content-Length"} + QUEUE_HEADERS

  predicate SameHeader(g: Header, h: Header, k: string) {
    (k in g <==> k in h) && (k in g ==> g[k] == h[k])
  }

  lemma QueueInfoElsewhere(h: Header, info: Option<QueueInfo>, k: string)
    requires k !in QUEUE_HEADERS
    ensures SameHeader(WithQueueInfo(h, info), h, k)
  {
  }

  lemma MergeAgrees(g: Header, h: Header, src: Header, k: string)
    requires SameHeader(g, h, k)
    ensures SameHeader(Merge(g, src), Merge(h, src), k)
  {
  }

  /** With the same request ID and a copy of the miss's upstream headers, a hit differs from the
      miss in exempt headers only. */
  lemma HeadersAgree(start: Header, requestID: string, own: string, info: Option<QueueInfo>, a: Answer,
                     e: CachedResponse, now: int, k: string)
    requires k !in EXEMPT && e.header == Sanitize(a.header) && HitRequestID(e.requestID, own) == requestID
    ensures SameHeader(MissHeader(start, requestID, info, a, "MISS"), HitHeader(start, own, e, now), k)
  {
  }

  /** The exempt headers.  X-Cache tells hit and miss apart; Age is the entry's age and only on the
      hit; Content-Length agrees when the hit has one, else only the miss adds the body's length. */
  lemma ExemptHeaders(start: Header, requestID: string, own: string, info: Option<QueueInfo>, a: Answer,
                      e: CachedResponse, now: int)
    requires e.header == Sanitize(a.header) && HitRequestID(e.requestID, own) == requestID
    ensures var miss, hit := MissHeader(start, requestID, info, a, "MISS"), HitHeader(start, own, e, now);
            && Values(miss, "X-Cache") == ["MISS"] && Values(hit, "X-Cache") == ["HIT"]
            && Values(hit, "Age") == [Itoa(AgeSeconds(e.storedAt, now))]
            && Values(miss, "Age") == Values(start, "Age") + Values(Sanitize(a.header), "Age")
            && Values(miss, "Content-Length")
               == if "Content-Length" in hit then hit["Content-Length"] else [Itoa(|a.body|)]
  {
    var sent := Headers.Set(start, "X-Request-ID", requestID);
    QueueInfoElsewhere(sent, info, "Content-Length");
    QueueInfoElsewhere(sent, info, "Age");
    MergeAgrees(WithQueueInfo(sent, info), sent, Sanitize(a.header), "Content-Length");
  }

  /** A hit sends the status, body and headers of the miss that stored the entry, X-Request-ID
      included, but for X-Cache, Age, Content-Length and the queue's headers. */
  lemma HitEqualsMiss(start: Header, r: Request, generated: string, info: Option<QueueInfo>, a: Answer,
                      storedAt: int, own: string, now: int)
    requires TrimSpace(generated) == generated != ""
    ensures var requestID := RequestID(EnsureRequestID(r, generated));
            var entry := Proxy.Kept(a, storedAt, requestID);
            && entry.statusCode == a.status && entry.body == a.body
            && forall k :: k !in EXEMPT ==>
                 SameHeader(MissHeader(start, requestID, info, a, "MISS"), HitHeader(start, own, entry, now), k)
  {
    TrimSpaceTwice(Headers.Get(r.header, "X-Request-ID"));
    var requestID := RequestID(EnsureRequestID(r, generated));
    var entry := Proxy.Kept(a, storedAt, requestID);
    forall k | k !in EXEMPT
      ensures SameHeader(MissHeader(start, requestID, info, a, "MISS"), HitHeader(start, own, entry, now), k)
    {
      HeadersAgree(start, requestID, own, info, a, entry, now, k);
    }
  }
}
