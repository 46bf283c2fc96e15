/** One call of ReverseProxy.ServeHTTP (internal/proxy/proxy.go) over the heap cache and the
    least-connections balancer, without interference. */
module ReverseProxy {
  import opened Options
  import opened Headers
  import opened Upstreams
  import opened CachePolicy
  import opened CacheControl
  import opened Lru
  import opened LruHeap
  import LC = LeastConnections
  import opened Exchange
  import Proxy
  import Q = AdmissionQueue

  /** What the queue makes of the call. */
  datatype Verdict = Granted(info: Option<QueueInfo>) | Refused(out: Q.Outcome)

  /** What the upstream answers: a transport error, a body that breaks off, or a response. */
  datatype Reply = NoReply | Unreadable | Complete(status: int, header: Header, body: string)

  /** Everything the call learns from outside: probes, queue, what the upstreams answer to which
      request, clock, the ID and hash it computes, and how texts read as durations and dates. */
  datatype Environment = Environment(previewHealthy: set<nat>, healthy: set<nat>, verdict: Verdict,
                                     reply: Request -> Reply, clientGone: bool, generated: string, bodyHash: string,
                                     lookedAt: int, first: int, second: int, storedAt: int, now: int, fallback: Ttl,
                                     duration: string -> Option<int>, date: string -> Option<int>)

  datatype Ending =
    | Health
    | Disallowed
    | FromCache(entry: Entry)
    | NoUpstream
    | TurnedAway(t: nat, out: Q.Outcome)
    | UpstreamFailed(t: nat, unreadable: bool)
    | Forwarded(t: nat, answer: Answer, stored: bool)

  function StatusOf(end: Ending, clientGone: bool): int {
    match end
    case Health => 200
    case Disallowed => 405
    case FromCache(e) => e.val.statusCode
    case NoUpstream => 503
    case TurnedAway(_, out) => if out.TooManyRequests? then 429 else 503
    case UpstreamFailed(_, unreadable) => if clientGone && !unreadable then 408 else 502
    case Forwarded(_, a, _) => a.status
  }

  /** How a call ends that the queue lets through to target t, with the upstream's reply. */
  function Reached(t: nat, eligible: bool, reply: Reply, env: Environment): Ending {
    match reply
    case NoReply => UpstreamFailed(t, false)
    case Unreadable => UpstreamFailed(t, true)
    case Complete(status, header, body) =>
      var a := ReadAnswer(status, header, body, env.duration, env.date);
      Forwarded(t, a, eligible && TtlOf(a, env.first, env.second, env.fallback).Some?)
  }

  /** Acquire and release on the state Acquire resolves the target to. */
  function Settle(reserved: seq<LC.Counters>, upstreams: seq<Url>, t: nat): seq<LC.Counters>
    requires |reserved| == |upstreams| && t < |upstreams|
  {
    match Resolve(upstreams, upstreams[t])
    case None => reserved
    case Some(slot) => LC.Deactivate(LC.Activate(reserved, slot), slot)
  }

  predicate Picked(end: Ending) {
    end.TurnedAway? || end.UpstreamFailed? || end.Forwarded?
  }

  /** The balancer's counters after the call. */
  function CountersAfter(before: seq<LC.Counters>, upstreams: seq<Url>, end: Ending): seq<LC.Counters>
    requires |before| == |upstreams| && (Picked(end) ==> end.t < |before|)
  {
    if !Picked(end) then before
    else if end.TurnedAway? then LC.Reserve(before, end.t)
    else Settle(LC.Reserve(before, end.t), upstreams, end.t)
  }

  /** There is a key, and the answer may be kept. */
  predicate Storable(key: Option<string>, env: Environment, end: Ending)
    requires end.Forwarded?
  {
    key.Some? && TtlOf(end.answer, env.first, env.second, env.fallback).Some?
  }

  /** The cache after the answer has been stored, if it is. */
  function Storing(before: Cache, key: Option<string>, requestID: string, env: Environment, end: Ending): Cache {
    if end.Forwarded? && Storable(key, env, end) then
      Lru.Do(before, SetOp(key.value, Proxy.Kept(end.answer, env.storedAt, requestID),
                           TtlOf(end.answer, env.first, env.second, env.fallback).value, env.now, env.fallback))
    else before
  }

  /** What the lookup finds; without a key there is none. */
  function Looked(before: Cache, key: Option<string>, now: int): Finding {
    if key.None? then Absent else Find(before, key.value, now)
  }

  function AfterLookup(before: Cache, key: Option<string>, now: int): Cache {
    if key.None? then before else Lru.Get(before, key.value, now)
  }

  /** The cache after the call, given the key it looked up. */
  function CacheAfter(before: Cache, key: Option<string>, requestID: string, env: Environment, end: Ending): Cache {
    Storing(AfterLookup(before, key, env.lookedAt), key, requestID, env, end)
  }

  /** The header a hit or a forwarded answer is sent with. */
  function HeaderAfter(start: Header, requestID: string, env: Environment, end: Ending): Header {
    match end
    case FromCache(e) => HitHeader(start, requestID, e.val, env.lookedAt)
    case Forwarded(_, a, stored) =>
      MissHeader(start, requestID, if env.verdict.Granted? then env.verdict.info else None, a,
                 if stored then "MISS" else "BYPASS")
    case _ => start
  }

  /** What a hit or a forwarded answer sends. */
  predicate Sends(end: Ending, start: Header, header: Header, body: string, requestID: string, env: Environment) {
    && (end.FromCache? || end.Forwarded? ==> header == HeaderAfter(start, requestID, env, end))
    && (end.FromCache? ==> body == end.entry.val.body)
    && (end.Forwarded? ==> body == end.answer.body)
  }

  /** A call is answered from the cache just if it finds a fresh entry, and with that entry. */
  predicate FollowsLookup(end: Ending, found: Finding) {
    (end.FromCache? <==> found.Fresh?) && (end.FromCache? ==> end.entry == found.entry)
  }

  /** With pairwise distinct targets a call that reached its upstream leaves every counter as it
      found it, whatever the exit path; one the queue turned away leaves its target's pending
      count one higher, and changes nothing else. */
  lemma CallSettlesCounters(before: seq<LC.Counters>, upstreams: seq<Url>, end: Ending)
    requires |before| == |upstreams| && PairwiseDistinct(upstreams) && (Picked(end) ==> end.t < |before|)
    ensures var after := CountersAfter(before, upstreams, end);
            if end.TurnedAway?
            then after == before[end.t := before[end.t].(pending := LC.Wrap64(before[end.t].pending + 1))]
            else after == before
  {
  }

  // ----- A call in words -----

  /** An upstream's answer is stored just if the call has a key, its status is one of seven, and no
      directive of its Cache-Control, however spelled, is no-store. */
  ghost predicate StoredRightly(end: Ending, key: Option<string>, reply: Reply)
    requires end.Forwarded? && reply.Complete?
  {
    forall ps :: Spelled(Headers.Get(reply.header, "Cache-Control"), ps) ==>
      (end.stored <==> key.Some? && reply.status in {200, 203, 204, 300, 301, 404, 410} && !Mentions(ps, "no-store"))
  }

  lemma StoredInWords(t: nat, key: Option<string>, reply: Reply, env: Environment)
    requires reply.Complete?
    ensures StoredRightly(Reached(t, key.Some?, reply, env), key, reply)
  {
    var end, text := Reached(t, key.Some?, reply, env), Headers.Get(reply.header, "Cache-Control");
    forall ps | Spelled(text, ps)
      ensures end.stored <==> key.Some? && reply.status in {200, 203, 204, 300, 301, 404, 410} && !Mentions(ps, "no-store")
    {
      TtlFollowsDirectives(ps, reply.status, reply.header, reply.body, env.duration, env.date, env.first, env.second,
                           env.fallback);
    }
  }

  /** What the queue and the upstream made of a call that picked a target. */
  predicate Follows(end: Ending, key: Option<string>, reply: Reply, env: Environment) {
    Picked(end) ==>
      end == if env.verdict.Refused? then TurnedAway(end.t, env.verdict.out) else Reached(end.t, key.Some?, reply, env)
  }

  lemma AnswerInWords(end: Ending, key: Option<string>, reply: Reply, env: Environment, start: Header, header: Header,
                      status: Option<int>, body: string, requestID: string)
    requires status == Some(StatusOf(end, env.clientGone)) && Sends(end, start, header, body, requestID, env)
    requires Follows(end, key, reply, env)
    ensures Picked(end) ==> (end.TurnedAway? <==> env.verdict.Refused?) && (end.Forwarded? ==> reply.Complete?)
    ensures end.Health? ==> status == Some(200)
    ensures end.Disallowed? ==> status == Some(405)
    ensures end.NoUpstream? ==> status == Some(503)
    ensures end.TurnedAway? ==> status == Some(if env.verdict.out == Q.TooManyRequests then 429 else 503)
    ensures end.UpstreamFailed? ==>
              !reply.Complete? && status == Some(if reply.NoReply? && env.clientGone then 408 else 502)
    ensures end.Forwarded? ==> status == Some(reply.status) && body == reply.body
    ensures end.FromCache? ==> status == Some(end.entry.val.statusCode) && body == end.entry.val.body
    ensures end.FromCache? ==> Values(header, "X-Cache") == ["HIT"]
    ensures end.Forwarded? ==> Values(header, "X-Cache") == [if end.stored then "MISS" else "BYPASS"]
  {
  }

  lemma RouteInWords(end: Ending, before: Cache, key: Option<string>, lookedAt: int, states: seq<LC.Counters>,
                     healthChecks: bool, healthy: set<nat>)
    requires FollowsLookup(end, Looked(before, key, lookedAt))
    requires end.NoUpstream? ==> LC.BestOf(states, healthChecks, healthy, true) == None
    requires Picked(end) ==> LC.BestOf(states, healthChecks, healthy, true) == Some(end.t)
    ensures end.FromCache? <==> key.Some? && FreshIn(before, key.value, lookedAt)
    ensures end.NoUpstream? || Picked(end) ==> (end.NoUpstream? <==> NobodyToAsk(|states|, healthChecks, healthy))
  {
    LC.NoBestIff(states, healthChecks, healthy, true);
  }

  /** An entry is resident under the key, and has not expired. */
  predicate FreshIn(c: Cache, key: string, now: int) {
    Lookup(c.entries, key).Some? && now <= Lookup(c.entries, key).value.expiresAt
  }

  /** There are no targets, or all are found unhealthy. */
  predicate NobodyToAsk(n: nat, healthChecks: bool, healthy: set<nat>) {
    n == 0 || (healthChecks && forall u: nat :: u < n ==> u !in healthy)
  }

  lemma KeyInWords(r: Request, eligible: bool, goesOn: bool)
    requires eligible <==> goesOn && Eligible(r)
    ensures forall ps :: Spelled(Headers.Get(r.header, "Cache-Control"), ps) ==> (eligible <==> goesOn && MayCache(r.header, ps))
  {
    forall ps | Spelled(Headers.Get(r.header, "Cache-Control"), ps) ensures eligible <==> goesOn && MayCache(r.header, ps) {
      EligibleIff(r, ps);
    }
  }

  lemma CacheInWords(before: Cache, key: Option<string>, requestID: string, reply: Reply, env: Environment, end: Ending)
    requires Follows(end, key, reply, env)
    ensures !(end.Forwarded? && end.stored) ==>
              CacheAfter(before, key, requestID, env, end)
              == if key.None? then before else Lru.Get(before, key.value, env.lookedAt)
    ensures end.Forwarded? ==> reply.Complete? && StoredRightly(end, key, reply)
  {
    if end.Forwarded? {
      StoredInWords(end.t, key, reply, env);
    }
  }

  class ReverseProxy {
    const cacheOn: bool
    const allowedMethods: Option<set<string>>
    const cache: LruCache
    const balancer: LC.LeastConnectionsBalancer

    ghost predicate Valid()
      reads this, cache, cache.lruList, cache.lruList.ring, balancer
    {
      cache.Valid() && balancer.Valid()
    }

    constructor (cacheOn: bool, allowedMethods: Option<set<string>>, cache: LruCache,
                 balancer: LC.LeastConnectionsBalancer)
      requires cache.Valid() && balancer.Valid()
      ensures Valid() && this.cache == cache && this.balancer == balancer
    {
      this.cacheOn, this.allowedMethods := cacheOn, allowedMethods;
      this.cache, this.balancer := cache, balancer;
    }

    /** The target URL of a pick. */
    function UrlOf(t: Option<nat>): Option<Url>
      requires t.Some? ==> t.value < |balancer.upstreams|
    {
      match t
      case None => None
      case Some(i) => Some(balancer.upstreams[i])
    }

    /** The request the upstream gets when target t is picked. */
    function Outbound(r: Request, t: nat, env: Environment): Request
      requires t < |balancer.upstreams|
    {
      DirectRequest(EnsureRequestID(r, env.generated), balancer.upstreams[t])
    }

    /** What the upstream replies to a call that picked a target. */
    function ReplyTo(r: Request, end: Ending, env: Environment): Reply
      requires Picked(end) ==> end.t < |balancer.upstreams|
    {
      if Picked(end) then env.reply(Outbound(r, end.t, env)) else NoReply
    }

    /** Lines 166-207: answer from the cache if a fresh entry is there. */
    method TryHit(w: ResponseWriter, key: Option<string>, own: string, now: int) returns (found: Finding)
      requires Valid()
      modifies cache, cache.lruList, cache.lruList.ring, w
      ensures Valid() && cache.SameElements()
      ensures cache.View() == AfterLookup(old(cache.View()), key, now)
      ensures found == Looked(old(cache.View()), key, now)
      ensures if found.Fresh?
              then w.header == HitHeader(old(w.header), own, found.entry.val, now)
                && w.status == Some(found.entry.val.statusCode) && w.body == found.entry.val.body
              else w.header == old(w.header) && w.status == old(w.status) && w.body == old(w.body)
    {
      found := LookUp(key, now);
      if found.Fresh? {
        w.WriteHit(own, found.entry.val, now);
      }
    }

    /** Line 167's lookup, if there is a key. */
    method LookUp(key: Option<string>, now: int) returns (found: Finding)
      requires Valid()
      modifies cache, cache.lruList, cache.lruList.ring
      ensures Valid() && cache.SameElements()
      ensures cache.View() == AfterLookup(old(cache.View()), key, now)
      ensures found == Looked(old(cache.View()), key, now)
    {
      if key.None? {
        return Absent;
      }
      found := cache.Get(key.value, now);
    }

    /** Lines 277-326: the round trip, and what the client is sent. */
    method RoundTrip(w: ResponseWriter, t: nat, requestID: string, eligible: bool, outbound: Request, env: Environment)
      returns (end: Ending)
      requires env.verdict.Granted?
      modifies w
      ensures end == Reached(t, eligible, env.reply(outbound), env) && w.status == Some(StatusOf(end, env.clientGone))
      ensures end.Forwarded? ==> w.header == HeaderAfter(old(w.header), requestID, env, end) && w.body == end.answer.body
    {
      var reply := env.reply(outbound);
      match reply {
        case NoReply =>
          w.Send(if env.clientGone then 408 else 502, "");
          end := UpstreamFailed(t, false);
        case Unreadable =>
          w.Send(502, "");
          end := UpstreamFailed(t, true);
        case Complete(_, _, _) =>
          end := PassOn(w, t, requestID, eligible, reply, env);
      }
    }

    /** Lines 306-326, for a complete answer. */
    method PassOn(w: ResponseWriter, t: nat, requestID: string, eligible: bool, reply: Reply, env: Environment)
      returns (end: Ending)
      requires env.verdict.Granted? && reply.Complete?
      modifies w
      ensures end == Reached(t, eligible, reply, env) && w.status == Some(end.answer.status) && w.body == end.answer.body
      ensures w.header == HeaderAfter(old(w.header), requestID, env, end)
    {
      end := Reached(t, eligible, reply, env);
      w.WriteAnswer(requestID, env.verdict.info, end.answer, if end.stored then "MISS" else "BYPASS");
    }

    /** serveUpstream up to line 326, with its deferred release. */
    method Forward(w: ResponseWriter, t: nat, requestID: string, eligible: bool, outbound: Request, env: Environment)
      returns (end: Ending)
      requires Valid() && t < |balancer.upstreams| && env.verdict.Granted?
      modifies balancer, w
      ensures Valid() && cache.View() == old(cache.View())
      ensures balancer.targetStates == Settle(old(balancer.targetStates), balancer.upstreams, t)
      ensures end == Reached(t, eligible, env.reply(outbound), env) && w.status == Some(StatusOf(end, env.clientGone))
      ensures end.Forwarded? ==> w.header == HeaderAfter(old(w.header), requestID, env, end) && w.body == end.answer.body
    {
      var slot := balancer.Acquire(balancer.upstreams[t]);
      end := RoundTrip(w, t, requestID, eligible, outbound, env);
      balancer.Release(slot);
    }

    /** Lines 352-366: store the answer under the stashed key. */
    method StoreAnswer(key: Option<string>, requestID: string, env: Environment, end: Ending)
      requires Valid() && (end.Forwarded? ==> (end.stored <==> Storable(key, env, end)))
      modifies cache, cache.lruList, cache.lruList.ring
      ensures Valid() && cache.SameList() && cache.View() == Storing(old(cache.View()), key, requestID, env, end)
    {
      if end.Forwarded? && end.stored {
        var ttl := TtlOf(end.answer, env.first, env.second, env.fallback).value;
        Keep(key.value, Proxy.Kept(end.answer, env.storedAt, requestID), ttl, env.now, env.fallback);
      }
    }

    method Keep(key: string, response: CachedResponse, ttl: int, now: int, fallback: Ttl)
      requires Valid()
      modifies cache, cache.lruList, cache.lruList.ring
      ensures Valid() && cache.SameList()
      ensures cache.View() == Lru.Do(old(cache.View()), SetOp(key, response, ttl, now, fallback))
    {
      cache.Set(key, response, ttl, now, fallback);
    }

    /** Lines 225, 269-270 and 312: the request rewritten for the picked target, and the decision
        on it. */
    method PrepareOutbound(r: Request, t: nat, env: Environment) returns (outbound: Request, eligible: bool)
      requires t < |balancer.upstreams|
      ensures outbound == Outbound(r, t, env) && (eligible <==> cacheOn && Eligible(r))
    {
      outbound := DirectRequest(EnsureRequestID(r, env.generated), balancer.upstreams[t]);
      RewritingKeepsEligibility(r, balancer.upstreams[t], env.generated);
      eligible := cacheOn && Eligible(outbound);
    }

    /** The queue's verdict on a call that has picked target t, and what follows from it. */
    method Admit(w: ResponseWriter, t: nat, requestID: string, eligible: bool, outbound: Request, env: Environment)
      returns (end: Ending)
      requires Valid() && t < |balancer.upstreams|
      modifies balancer, w
      ensures Valid() && cache.View() == old(cache.View()) && w.status == Some(StatusOf(end, env.clientGone))
      ensures end == if env.verdict.Refused? then TurnedAway(t, env.verdict.out)
                     else Reached(t, eligible, env.reply(outbound), env)
      ensures balancer.targetStates
              == if end.TurnedAway? then old(balancer.targetStates)
                 else Settle(old(balancer.targetStates), balancer.upstreams, t)
      ensures end.Forwarded? ==> w.header == HeaderAfter(old(w.header), requestID, env, end) && w.body == end.answer.body
    {
      if env.verdict.Refused? {
        end := TurnedAway(t, env.verdict.out);
        w.Send(StatusOf(end, env.clientGone), "");
      } else {
        end := Forward(w, t, requestID, eligible, outbound, env);
      }
    }

    /** Line 212, when nothing races with it. */
    method PickTarget(healthy: set<nat>) returns (target: Option<nat>)
      requires Valid()
      modifies balancer
      ensures Valid() && cache.View() == old(cache.View())
      ensures target == LC.BestOf(old(balancer.targetStates), balancer.healthChecksEnabled, healthy, true)
      ensures balancer.targetStates == if target == None then old(balancer.targetStates)
                                       else LC.Reserve(old(balancer.targetStates), target.value)
    {
      var tries;
      target, tries := balancer.Pick(false, healthy, []);
    }

    /** Lines 211-233 and serveUpstream up to line 326, for a call the cache did not answer. */
    method PickAndForward(r: Request, w: ResponseWriter, requestID: string, env: Environment) returns (end: Ending)
      requires Valid()
      modifies balancer, w
      ensures Valid() && cache.View() == old(cache.View()) && w.status == Some(StatusOf(end, env.clientGone))
      ensures end.NoUpstream? || Picked(end)
      ensures LC.BestOf(old(balancer.targetStates), balancer.healthChecksEnabled, env.healthy, true)
              == if Picked(end) then Some(end.t) else None
      ensures Picked(end) ==>
                end == if env.verdict.Refused? then TurnedAway(end.t, env.verdict.out)
                          else Reached(end.t, cacheOn && Eligible(r), ReplyTo(r, end, env), env)
      ensures balancer.targetStates == CountersAfter(old(balancer.targetStates), balancer.upstreams, end)
      ensures end.Forwarded? ==> w.header == HeaderAfter(old(w.header), requestID, env, end) && w.body == end.answer.body
    {
      var picked := PickTarget(env.healthy);
      if picked == None {
        w.Send(503, "no healthy upstream targets");
        return NoUpstream;
      }
      var outbound, eligible := PrepareOutbound(r, picked.value, env);
      end := Admit(w, picked.value, requestID, eligible, outbound, env);
    }

    /** Lines 211-233 and serveUpstream. */
    method GoUpstream(r: Request, w: ResponseWriter, key: Option<string>, requestID: string, env: Environment)
      returns (end: Ending)
      requires Valid() && (key.Some? <==> cacheOn && Eligible(r))
      modifies cache, cache.lruList, cache.lruList.ring, balancer, w
      ensures Valid() && cache.SameList() && w.status == Some(StatusOf(end, env.clientGone))
      ensures end.NoUpstream? || Picked(end)
      ensures LC.BestOf(old(balancer.targetStates), balancer.healthChecksEnabled, env.healthy, true)
              == if Picked(end) then Some(end.t) else None
      ensures Picked(end) ==>
                end == if env.verdict.Refused? then TurnedAway(end.t, env.verdict.out)
                          else Reached(end.t, key.Some?, ReplyTo(r, end, env), env)
      ensures balancer.targetStates == CountersAfter(old(balancer.targetStates), balancer.upstreams, end)
      ensures cache.View() == Storing(old(cache.View()), key, requestID, env, end)
      ensures end.Forwarded? ==>
                w.header == HeaderAfter(old(w.header), requestID, env, end) && w.body == end.answer.body
    {
      end := PickAndForward(r, w, requestID, env);
      StoreAnswer(key, requestID, env, end);
    }

    /** Lines 125-164: preview a target and build the key. */
    method BuildKey(r: Request, env: Environment) returns (key: Option<string>, ghost preview: Option<nat>)
      requires Valid()
      modifies balancer
      ensures Valid() && cache.View() == old(cache.View()) && balancer.targetStates == old(balancer.targetStates)
      ensures preview == LC.BestOf(balancer.targetStates, balancer.healthChecksEnabled, env.previewHealthy, false)
      ensures key == LookupKey(cacheOn, r, UrlOf(preview), env.bodyHash)
      ensures key.Some? <==> cacheOn && Eligible(r)
    {
      var selected, _ := balancer.Pick(true, env.previewHealthy, []);
      preview := selected;
      key := LookupKey(cacheOn, r, UrlOf(selected), env.bodyHash);
      if selected.Some? {
        RewritingKeepsEligibility(r, balancer.upstreams[selected.value], env.generated);
      }
    }

    /** Lines 166-234, for a call that has built its key. */
    method ServeKeyed(r: Request, w: ResponseWriter, key: Option<string>, env: Environment) returns (end: Ending)
      requires Valid() && (key.Some? <==> cacheOn && Eligible(r))
      modifies cache, cache.lruList, cache.lruList.ring, balancer, w
      ensures Valid() && cache.SameList() && w.status == Some(StatusOf(end, env.clientGone))
      ensures !end.Health? && !end.Disallowed? && FollowsLookup(end, Looked(old(cache.View()), key, env.lookedAt))
      ensures end.NoUpstream? ==>
                LC.BestOf(old(balancer.targetStates), balancer.healthChecksEnabled, env.healthy, true) == None
      ensures Picked(end) ==>
                LC.BestOf(old(balancer.targetStates), balancer.healthChecksEnabled, env.healthy, true) == Some(end.t)
      ensures Follows(end, key, ReplyTo(r, end, env), env)
      ensures balancer.targetStates == CountersAfter(old(balancer.targetStates), balancer.upstreams, end)
      ensures cache.View() == CacheAfter(old(cache.View()), key, RequestID(EnsureRequestID(r, env.generated)), env, end)
      ensures Sends(end, old(w.header), w.header, w.body, RequestID(EnsureRequestID(r, env.generated)), env)
    {
      var requestID := RequestID(EnsureRequestID(r, env.generated));
      var found := TryHit(w, key, requestID, env.lookedAt);
      if found.Fresh? {
        end := FromCache(found.entry);
      } else {
        end := GoUpstream(r, w, key, requestID, env);
      }
    }

    /** Lines 125-234, for a call to be proxied.  `key` is the key it looked up and `preview` the
        target previewed for it. */
    method ServeProxied(r: Request, w: ResponseWriter, env: Environment)
      returns (end: Ending, ghost key: Option<string>, ghost preview: Option<nat>)
      requires Valid()
      modifies cache, cache.lruList, cache.lruList.ring, balancer, w
      ensures Valid() && cache.SameList() && w.status == Some(StatusOf(end, env.clientGone))
      ensures preview == LC.BestOf(old(balancer.targetStates), balancer.healthChecksEnabled, env.previewHealthy, false)
      ensures key == LookupKey(cacheOn, r, UrlOf(preview), env.bodyHash)
      ensures key.Some? <==> cacheOn && Eligible(r)
      ensures !end.Health? && !end.Disallowed? && FollowsLookup(end, Looked(old(cache.View()), key, env.lookedAt))
      ensures end.NoUpstream? ==>
                LC.BestOf(old(balancer.targetStates), balancer.healthChecksEnabled, env.healthy, true) == None
      ensures Picked(end) ==>
                LC.BestOf(old(balancer.targetStates), balancer.healthChecksEnabled, env.healthy, true) == Some(end.t)
      ensures Follows(end, key, ReplyTo(r, end, env), env)
      ensures balancer.targetStates == CountersAfter(old(balancer.targetStates), balancer.upstreams, end)
      ensures cache.View() == CacheAfter(old(cache.View()), key, RequestID(EnsureRequestID(r, env.generated)), env, end)
      ensures Sends(end, old(w.header), w.header, w.body, RequestID(EnsureRequestID(r, env.generated)), env)
    {
      var looked, previewed := BuildKey(r, env);
      key, preview := looked, previewed;
      end := ServeKeyed(r, w, looked, env);
    }

    /** One call, in terms of the functions above. */
    method Handle(r: Request, w: ResponseWriter, env: Environment)
      returns (end: Ending, ghost key: Option<string>, ghost preview: Option<nat>)
      requires Valid()
      modifies cache, cache.lruList, cache.lruList.ring, balancer, w
      ensures Valid() && cache.SameList() && w.status == Some(StatusOf(end, env.clientGone))
      ensures end.Health? <==> r.path == "/healthz"
      ensures end.Disallowed? <==> r.path != "/healthz" && allowedMethods.Some? && r.verb !in allowedMethods.value
      ensures end.Health? || end.Disallowed? ==> key == None && preview == None
      ensures !end.Health? && !end.Disallowed? ==>
                && preview == LC.BestOf(old(balancer.targetStates), balancer.healthChecksEnabled, env.previewHealthy, false)
                && key == LookupKey(cacheOn, r, UrlOf(preview), env.bodyHash)
      ensures key.Some? <==> !end.Health? && !end.Disallowed? && cacheOn && Eligible(r)
      ensures FollowsLookup(end, Looked(old(cache.View()), key, env.lookedAt))
      ensures end.NoUpstream? ==>
                LC.BestOf(old(balancer.targetStates), balancer.healthChecksEnabled, env.healthy, true) == None
      ensures Picked(end) ==>
                LC.BestOf(old(balancer.targetStates), balancer.healthChecksEnabled, env.healthy, true) == Some(end.t)
      ensures Follows(end, key, ReplyTo(r, end, env), env)
      ensures balancer.targetStates == CountersAfter(old(balancer.targetStates), balancer.upstreams, end)
      ensures cache.View() == CacheAfter(old(cache.View()), key, RequestID(EnsureRequestID(r, env.generated)), env, end)
      ensures Sends(end, old(w.header), w.header, w.body, RequestID(EnsureRequestID(r, env.generated)), env)
      ensures PairwiseDistinct(balancer.upstreams) && !end.TurnedAway? ==>
                balancer.targetStates == old(balancer.targetStates)
    {
      key, preview := None, None;
      if r.path == "/healthz" {
        w.Send(200, "ok");
        return Health, None, None;
      }
      if allowedMethods.Some? && r.verb !in allowedMethods.value {
        w.Send(405, "method not allowed");
        return Disallowed, None, None;
      }
      ghost var before := balancer.targetStates;
      end, key, preview := ServeProxied(r, w, env);
      if PairwiseDistinct(balancer.upstreams) {
        CallSettlesCounters(before, balancer.upstreams, end);
      }
    }

    /** One call.  Its answer, its key and what it stores are stated without the functions above. */
    method ServeHTTP(r: Request, w: ResponseWriter, env: Environment)
      returns (end: Ending, ghost key: Option<string>, ghost preview: Option<nat>)
      requires Valid()
      modifies cache, cache.lruList, cache.lruList.ring, balancer, w
      ensures Valid() && cache.SameList()
      ensures cache.View() == CacheAfter(old(cache.View()), key, RequestID(EnsureRequestID(r, env.generated)), env, end)
      ensures FollowsLookup(end, Looked(old(cache.View()), key, env.lookedAt))
      ensures Sends(end, old(w.header), w.header, w.body, RequestID(EnsureRequestID(r, env.generated)), env)
      ensures (Picked(end) ==> end.t < |balancer.upstreams|) && Follows(end, key, ReplyTo(r, end, env), env)
      ensures balancer.targetStates == CountersAfter(old(balancer.targetStates), balancer.upstreams, end)
      // Which way the call goes.
      ensures end.Health? <==> r.path == "/healthz"
      ensures end.Disallowed? <==> r.path != "/healthz" && allowedMethods.Some? && r.verb !in allowedMethods.value
      ensures end.FromCache? <==> key.Some? && FreshIn(old(cache.View()), key.value, env.lookedAt)
      ensures end.NoUpstream? || Picked(end) ==>
                (end.NoUpstream? <==> NobodyToAsk(|balancer.upstreams|, balancer.healthChecksEnabled, env.healthy))
      ensures Picked(end) ==>
                LC.BestOf(old(balancer.targetStates), balancer.healthChecksEnabled, env.healthy, true) == Some(end.t)
      ensures Picked(end) ==> end.t < |balancer.upstreams| && (end.TurnedAway? <==> env.verdict.Refused?) && (end.Forwarded? <==> !end.TurnedAway? && ReplyTo(r, end, env).Complete?)
      ensures Picked(end) ==> ReplyTo(r, end, env)
                              == env.reply(DirectRequest(EnsureRequestID(r, env.generated), balancer.upstreams[end.t]))
      // What the client is sent.
      ensures end.Health? ==> w.status == Some(200)
      ensures end.Disallowed? ==> w.status == Some(405)
      ensures end.NoUpstream? ==> w.status == Some(503)
      ensures end.TurnedAway? ==> w.status == Some(if env.verdict.out == Q.TooManyRequests then 429 else 503)
      ensures end.UpstreamFailed? ==>
                w.status == Some(if ReplyTo(r, end, env).NoReply? && env.clientGone then 408 else 502)
      ensures end.Forwarded? ==> w.status == Some(ReplyTo(r, end, env).status) && w.body == ReplyTo(r, end, env).body
      ensures end.FromCache? ==> w.status == Some(end.entry.val.statusCode) && w.body == end.entry.val.body
      ensures end.FromCache? ==> Values(w.header, "X-Cache") == ["HIT"]
      ensures end.Forwarded? ==> Values(w.header, "X-Cache") == [if end.stored then "MISS" else "BYPASS"]
      // What it looks up and what it stores.
      ensures !end.Health? && !end.Disallowed? ==>
                && preview == LC.BestOf(old(balancer.targetStates), balancer.healthChecksEnabled, env.previewHealthy, false)
                && key == LookupKey(cacheOn, r, UrlOf(preview), env.bodyHash)
      ensures forall ps :: Spelled(Headers.Get(r.header, "Cache-Control"), ps) ==>
                (key.Some? <==> !end.Health? && !end.Disallowed? && cacheOn && MayCache(r.header, ps))
      ensures end.Forwarded? ==> StoredRightly(end, key, ReplyTo(r, end, env))
      ensures !(end.Forwarded? && end.stored) ==>
                cache.View() == if key.None? then old(cache.View()) else Lru.Get(old(cache.View()), key.value, env.lookedAt)
      ensures PairwiseDistinct(balancer.upstreams) && !end.TurnedAway? ==>
                balancer.targetStates == old(balancer.targetStates)
    {
      ghost var start, states := w.header, balancer.targetStates;
      ghost var before, requestID := cache.View(), RequestID(EnsureRequestID(r, env.generated));
      end, key, preview := Handle(r, w, env);
      ghost var reply := ReplyTo(r, end, env);
      AnswerInWords(end, key, reply, env, start, w.header, w.status, w.body, requestID);
      KeyInWords(r, key.Some?, !end.Health? && !end.Disallowed? && cacheOn);
      CacheInWords(before, key, requestID, reply, env, end);
      RouteInWords(end, before, key, env.lookedAt, states, balancer.healthChecksEnabled, env.healthy);
    }
  }
}
