/** What several calls of ServeHTTP give their clients (internal/proxy/proxy.go): a response that one
    call stores is what later calls with its key are sent. */
module Replay {
  import opened Options
  import opened Headers
  import opened CachePolicy
  import opened Lru
  import opened Text
  import opened Exchange
  import opened ReverseProxy
  import Proxy

  datatype Call = Call(r: Request, env: Environment)

  /** Every call looks its key up no later than the deadline. */
  predicate InTime(calls: seq<Call>, deadline: int) {
    forall i :: 0 <= i < |calls| ==> calls[i].env.lookedAt <= deadline
  }

  /** The key a call touches besides k. */
  function Aside(key: Option<string>, k: string): set<string> {
    if key.Some? then {key.value} - {k} else {}
  }

  lemma OneMore(others: set<string>, key: Option<string>, k: string)
    ensures |others + Aside(key, k)| <= |others| + 1
  {
    if key.Some? && key.value != k && key.value !in others {
      assert others + Aside(key, k) == others + {key.value};
    } else {
      assert others + Aside(key, k) == others;
    }
  }

  /** A lookup, and the store that may follow it, under the same key. */
  lemma StoreRetains(c: Cache, key: Option<string>, requestID: string, env: Environment, end: Ending, k: string, e: Entry,
                     others: set<string>)
    requires Retained(c, k, e, others) && |others| < c.capacity && Aside(key, k) <= others
    requires end.Forwarded? ==> key != Some(k)
    ensures Retained(Storing(c, key, requestID, env, end), k, e, others)
  {
    if end.Forwarded? && Storable(key, env, end) {
      assert others + ({key.value} - {k}) == others;
      DoRetains(c, SetOp(key.value, Proxy.Kept(end.answer, env.storedAt, requestID),
                         TtlOf(end.answer, env.first, env.second, env.fallback).value, env.now, env.fallback), k, e, others);
    }
  }

  /** A call in time cannot push a fresh entry out, unless too many others are ahead of it, and
      cannot replace it: under its key it finds it. */
  lemma CallRetains(c: Cache, key: Option<string>, requestID: string, env: Environment, end: Ending, k: string, e: Entry,
                    others: set<string>)
    requires FollowsLookup(end, Looked(c, key, env.lookedAt))
    ensures |others + Aside(key, k)| <= |others| + 1
    ensures Retained(c, k, e, others) && |others| + 1 < c.capacity && env.lookedAt <= e.expiresAt ==>
              Retained(CacheAfter(c, key, requestID, env, end), k, e, others + Aside(key, k))
  {
    OneMore(others, key, k);
    if Retained(c, k, e, others) && |others| + 1 < c.capacity && env.lookedAt <= e.expiresAt {
      var found := AfterLookup(c, key, env.lookedAt);
      if key.Some? {
        DoRetains(c, GetOp(key.value, env.lookedAt), k, e, others);
      }
      assert Retained(found, k, e, others + Aside(key, k)) && found.capacity == c.capacity;
      StoreRetains(found, key, requestID, env, end, k, e, others + Aside(key, k));
    }
  }

  lemma FirstStores(before: Cache, key: Option<string>, requestID: string, env: Environment, end: Ending)
    returns (k: string, e: Entry)
    requires WellFormed(before) && before.capacity > 0 && end.Forwarded? && Storable(key, env, end)
    ensures key == Some(k) && e.val == Proxy.Kept(end.answer, env.storedAt, requestID)
    ensures e.expiresAt == env.now + KeptFor(end.answer, env.first, env.second, env.fallback)
    ensures Retained(CacheAfter(before, key, requestID, env, end), k, e, {})
  {
    var found := AfterLookup(before, key, env.lookedAt);
    DoKeepsWellFormed(before, GetOp(key.value, env.lookedAt));
    var op := SetOp(key.value, Proxy.Kept(end.answer, env.storedAt, requestID),
                    TtlOf(end.answer, env.first, env.second, env.fallback).value, env.now, env.fallback);
    SetRetains(found, op);
    k, e := key.value, Stored(op);
  }

  /** The call stored its answer as e, at the front of cache c, and sent it. */
  predicate Leaves(call: Call, end: Ending, key: Option<string>, c: Cache, e: Entry, start: Header, header: Header,
                   status: Option<int>, body: string) {
    var own := RequestID(EnsureRequestID(call.r, call.env.generated));
    && end.Forwarded? && call.env.verdict.Granted? && key.Some? && Retained(c, key.value, e, {})
    && TtlOf(end.answer, call.env.first, call.env.second, call.env.fallback).Some?
    && e.expiresAt == call.env.now + KeptFor(end.answer, call.env.first, call.env.second, call.env.fallback)
    && e.val == Proxy.Kept(end.answer, call.env.storedAt, own)
    && header == MissHeader(start, own, call.env.verdict.info, end.answer, "MISS")
    && status == Some(end.answer.status) && body == end.answer.body
  }

  lemma StoredLeaves(call: Call, reply: Reply, end: Ending, key: Option<string>, before: Cache, start: Header, header: Header,
                     status: Option<int>, body: string) returns (e: Entry)
    requires WellFormed(before) && before.capacity > 0 && end.Forwarded? && end.stored
    requires Follows(end, key, reply, call.env)
    requires Sends(end, start, header, body, RequestID(EnsureRequestID(call.r, call.env.generated)), call.env)
    requires status == Some(StatusOf(end, call.env.clientGone))
    ensures Leaves(call, end, key,
                   CacheAfter(before, key, RequestID(EnsureRequestID(call.r, call.env.generated)), call.env, end),
                   e, start, header, status, body)
  {
    var k;
    k, e := FirstStores(before, key, RequestID(EnsureRequestID(call.r, call.env.generated)), call.env, end);
  }

  /** One call, with a writer of its own. */
  method Serve(p: ReverseProxy, call: Call) returns (end: Ending, ghost key: Option<string>)
    requires p.Valid()
    modifies p.cache, p.cache.lruList, p.cache.lruList.ring, p.balancer
    ensures p.Valid() && p.cache.SameList()
    ensures FollowsLookup(end, Looked(old(p.cache.View()), key, call.env.lookedAt))
    ensures p.cache.View() == CacheAfter(old(p.cache.View()), key,
                                         RequestID(EnsureRequestID(call.r, call.env.generated)), call.env, end)
  {
    var w := new ResponseWriter(map[]);
    ghost var preview;
    end, key, preview := p.ServeHTTP(call.r, w, call.env);
  }

  /** It leaves a fresh entry where it is unless too many others are ahead of it. */
  method ServeOne(p: ReverseProxy, call: Call, ghost k: string, ghost e: Entry, ghost others: set<string>)
    returns (ghost after: set<string>)
    requires p.Valid()
    modifies p.cache, p.cache.lruList, p.cache.lruList.ring, p.balancer
    ensures p.Valid() && p.cache.SameList() && |after| <= |others| + 1
    ensures Retained(old(p.cache.View()), k, e, others) && |others| + 1 < p.cache.maxEntries ==>
              call.env.lookedAt <= e.expiresAt ==> Retained(p.cache.View(), k, e, after)
  {
    ghost var before := p.cache.View();
    var end; ghost var key;
    end, key := Serve(p, call);
    CallRetains(before, key, RequestID(EnsureRequestID(call.r, call.env.generated)), call.env, end, k, e, others);
    after := others + Aside(key, k);
  }

  /** Serves the calls one after the other, each with a writer of its own.  An entry at the front
      of the cache stays for fewer calls than the cache has room for. */
  method ServeAll(p: ReverseProxy, calls: seq<Call>, ghost k: string, ghost e: Entry)
    requires p.Valid()
    modifies p.cache, p.cache.lruList, p.cache.lruList.ring, p.balancer
    ensures p.Valid() && p.cache.SameList()
    ensures Retained(old(p.cache.View()), k, e, {}) && |calls| < p.cache.maxEntries && InTime(calls, e.expiresAt) ==>
              Lookup(p.cache.View().entries, k) == Some(e)
  {
    ghost var kept := Retained(p.cache.View(), k, e, {}) && |calls| < p.cache.maxEntries && InTime(calls, e.expiresAt);
    ghost var others := {};
    for i := 0 to |calls|
      invariant p.Valid() && p.cache.SameList() && |others| <= i
      invariant kept ==> Retained(p.cache.View(), k, e, others)
    {
      others := ServeOne(p, calls[i], k, e, others);
    }
  }

  /** A call; e is the entry it leaves at the front of the cache if it stores its response. */
  method ServeFirst(p: ReverseProxy, call: Call, w: ResponseWriter)
    returns (end: Ending, ghost key: Option<string>, ghost e: Entry)
    requires p.Valid()
    modifies p.cache, p.cache.lruList, p.cache.lruList.ring, p.balancer, w
    ensures p.Valid() && p.cache.SameList()
    ensures end.Forwarded? && end.stored ==>
              Leaves(call, end, key, p.cache.View(), e, old(w.header), w.header, w.status, w.body)
  {
    ghost var before, start := p.cache.View(), w.header;
    ghost var preview;
    p.cache.IsWellFormed();
    end, key, preview := p.ServeHTTP(call.r, w, call.env);
    e := Entry("", CachedResponse(0, map[], "", 0, ""), 0);
    if end.Forwarded? && end.stored {
      e := StoredLeaves(call, p.ReplyTo(call.r, end, call.env), end, key, before, start, w.header, w.status, w.body);
    }
  }

  /** A call that finds e under its key is a hit exactly if e is still fresh, and replays it. */
  method ServeLast(p: ReverseProxy, call: Call, w: ResponseWriter, ghost k: string, ghost e: Entry)
    returns (end: Ending, ghost key: Option<string>)
    requires p.Valid()
    modifies p.cache, p.cache.lruList, p.cache.lruList.ring, p.balancer, w
    ensures p.Valid() && p.cache.SameList()
    ensures Lookup(old(p.cache.View()).entries, k) == Some(e) && key == Some(k) ==>
              Replays(call, end, e, old(w.header), w.header, w.status, w.body)
  {
    ghost var preview;
    end, key, preview := p.ServeHTTP(call.r, w, call.env);
  }

  /** Calls, and one more with key k, when e is at the front of the cache under k. */
  method ServeRest(p: ReverseProxy, between: seq<Call>, last: Call, w: ResponseWriter, ghost k: string, ghost e: Entry)
    returns (end: Ending, ghost key: Option<string>)
    requires p.Valid()
    modifies p.cache, p.cache.lruList, p.cache.lruList.ring, p.balancer, w
    ensures p.Valid() && p.cache.SameList()
    ensures Retained(old(p.cache.View()), k, e, {}) && |between| < p.cache.maxEntries && InTime(between, e.expiresAt) ==>
              key == Some(k) ==> Replays(last, end, e, old(w.header), w.header, w.status, w.body)
  {
    ServeAll(p, between, k, e);
    end, key := ServeLast(p, last, w, k, e);
  }

  /** The call hits exactly if e is still fresh, and then sends it. */
  predicate Replays(call: Call, end: Ending, e: Entry, start: Header, header: Header, status: Option<int>, body: string) {
    && (end.FromCache? <==> call.env.lookedAt <= e.expiresAt)
    && (end.FromCache? ==>
          && header == HitHeader(start, RequestID(EnsureRequestID(call.r, call.env.generated)), e.val, call.env.lookedAt)
          && status == Some(e.val.statusCode) && body == e.val.body)
  }

  /** A hit on what a call left sends what the call sent. */
  lemma HitReplays(call: Call, end: Ending, key: Option<string>, c: Cache, e: Entry, start: Header, header: Header,
                   status: Option<int>, body: string, own: string, now: int)
    requires Leaves(call, end, key, c, e, start, header, status, body)
    requires TrimSpace(call.env.generated) == call.env.generated != ""
    ensures status == Some(e.val.statusCode) && body == e.val.body
    ensures Values(header, "X-Cache") == ["MISS"] && Values(HitHeader(start, own, e.val, now), "X-Cache") == ["HIT"]
    ensures Values(HitHeader(start, own, e.val, now), "Age") == [Itoa(AgeSeconds(call.env.storedAt, now))]
    ensures forall k :: k !in EXEMPT ==> SameHeader(header, HitHeader(start, own, e.val, now), k)
  {
    HitHeaderIs(start, own, e.val, now, "Age");
    HitHeaderIs(start, own, e.val, now, "X-Cache");
    HitEqualsMiss(start, call.r, call.env.generated, call.env.verdict.info, end.answer, call.env.storedAt, own, now);
  }

  /** A call stores its response; other calls follow; one of them has the same key.  If fewer calls
      come in between than the cache has room for, and none looks after the response's lifetime, the
      last call is a hit exactly if it looks within that lifetime too, and then its client is sent
      the status, the body and, but for the exempt ones, the headers the first client was sent,
      X-Request-ID included.  X-Cache tells the two apart, and Age is the response's. */
  method ServeAgain(p: ReverseProxy, first: Call, between: seq<Call>, last: Call, w1: ResponseWriter, w2: ResponseWriter)
    returns (end1: Ending, end2: Ending, ghost key1: Option<string>, ghost key2: Option<string>)
    requires p.Valid() && w1 != w2 && w1.header == w2.header
    requires TrimSpace(first.env.generated) == first.env.generated != ""
    modifies p.cache, p.cache.lruList, p.cache.lruList.ring, p.balancer, w1, w2
    ensures p.Valid()
    ensures end1.Forwarded? && end1.stored ==>
              TtlOf(end1.answer, first.env.first, first.env.second, first.env.fallback).Some?
    ensures end1.Forwarded? && end1.stored && key2 == key1 && |between| < p.cache.maxEntries ==>
              var deadline := first.env.now + KeptFor(end1.answer, first.env.first, first.env.second, first.env.fallback);
              InTime(between, deadline) ==>
                && (end2.FromCache? <==> last.env.lookedAt <= deadline)
                && (end2.FromCache? ==>
                      && w2.status == w1.status && w2.body == w1.body
                      && Values(w1.header, "X-Cache") == ["MISS"] && Values(w2.header, "X-Cache") == ["HIT"]
                      && Values(w2.header, "Age") == [Itoa(AgeSeconds(first.env.storedAt, last.env.lookedAt))]
                      && forall k :: k !in EXEMPT ==> SameHeader(w1.header, w2.header, k))
  {
    ghost var start := w1.header;
    ghost var e;
    end1, key1, e := ServeFirst(p, first, w1);
    ghost var k := if key1.Some? then key1.value else "";
    ghost var stored := p.cache.View();
    end2, key2 := ServeRest(p, between, last, w2, k, e);
    if end1.Forwarded? && end1.stored {
      HitReplays(first, end1, key1, stored, e, start, w1.header, w1.status, w1.body,
                 RequestID(EnsureRequestID(last.r, last.env.generated)), last.env.lookedAt);
    }
  }
}
