/** ServeHTTP and serveUpstream (internal/proxy/proxy.go) for a fixed least-connections balancer
    behind the admission queue, with a cache, under every interleaving.

    Request i is a trip here and the i-th request of the admission queue.  A pick's scan races with
    every counter it reads, so its outcome is a free choice; the compare-and-swap, Acquire's two
    adds and the release are one step each. */
module Proxy {
  import opened Options
  import opened Upstreams
  import opened Headers
  import opened CachePolicy
  import opened Lru
  import Q = AdmissionQueue

  datatype Config = Config(queue: Q.Config, targets: seq<Url>, cacheSize: nat) {
    predicate Valid() { queue.Valid() && cacheSize > 0 }
  }

  datatype Connections = Connections(active: int, pending: int)

  datatype Stage =
    | Arriving                                        // proxy.go:126-164
    | Hit(entry: Entry, seen: int, at: nat)           // 167-206: answered from the cache
    | Picking                                         // balancer.go:134
    | Chosen(t: nat, p: int)                          // 147-148: p loaded, compare-and-swap next
    | NoTarget                                        // proxy.go:213: 503
    | Reserved(t: nat)                                // 233: handed to the queue
    | HalfAcquired(t: nat)                            // balancer.go:168
    | Active(t: nat)                                  // proxy.go:277-304
    | Answered(t: nat, answer: Answer)                // 306-366
    | Leaving(t: nat)                                 // 266: deferred release
    | Left(t: nat)

  /** `key` is the key stashed at 164, if the request is eligible for caching; `reply` what its
      upstream answered. */
  datatype Trip = Trip(key: Option<string>, requestID: string, stage: Stage, reply: Option<Answer>)

  /** A store at 359-365 with the clock readings it used. */
  datatype StoreRecord = StoreRecord(trip: nat, key: string, answer: Answer, first: int, second: int, now: int,
                           fallback: Ttl, entry: Entry)

  datatype State = State(queue: Q.State, trips: seq<Trip>, counters: seq<Connections>, cache: Cache, log: seq<StoreRecord>)

  datatype Action =
    | Arrive(key: Option<string>, requestID: string)
    | Queue(step: Q.Action)
    | Look(i: nat, now: int)                          // 148-209
    | Scan(i: nat, choice: Option<nat>)               // balancer.go:134-147
    | CompareAndSwap(i: nat)                          // 148
    | AcquirePending(i: nat)                          // 167
    | AcquireActive(i: nat)                           // 168
    | RoundTrip(i: nat, reply: Option<Answer>)        // proxy.go:277-304; None on either error
    | Store(i: nat, first: int, second: int, storedAt: int, now: int, fallback: Ttl) // 312-366
    | Release(i: nat)                                 // 266, balancer.go:170

  function Init(cfg: Config): State {
    State(Q.Init(), [], seq(|cfg.targets|, t => Connections(0, 0)), Empty(cfg.cacheSize), [])
  }

  /** The state Acquire works on for a pick of target t. */
  function Slot(cfg: Config, t: nat): nat {
    if t < |cfg.targets| && Resolve(cfg.targets, cfg.targets[t]).Some?
    then Resolve(cfg.targets, cfg.targets[t]).value else t
  }

  predicate Sized(cfg: Config, s: State) {
    |s.trips| == |s.queue.requests| && |s.counters| == |cfg.targets|
  }

  predicate Enabled(cfg: Config, s: State, a: Action) {
    Sized(cfg, s) &&
    match a
    case Arrive(_, _) => true
    case Queue(q) =>
      && !q.Arrive? && Q.Enabled(cfg.queue, s.queue, q)
      && (q.Enter? ==> s.trips[q.i].stage.Reserved?)
      && (q.Finish? ==> s.trips[q.i].stage.Left?)
    case Look(i, _) => i < |s.trips| && s.trips[i].stage.Arriving?
    case Scan(i, choice) =>
      i < |s.trips| && s.trips[i].stage.Picking? && (choice.Some? ==> choice.value < |cfg.targets|)
    case CompareAndSwap(i) => i < |s.trips| && s.trips[i].stage.Chosen? && s.trips[i].stage.t < |cfg.targets|
    case AcquirePending(i) =>
      && i < |s.trips| && s.trips[i].stage.Reserved? && s.queue.requests[i].h.Running?
      && Slot(cfg, s.trips[i].stage.t) < |cfg.targets|
    case AcquireActive(i) =>
      i < |s.trips| && s.trips[i].stage.HalfAcquired? && Slot(cfg, s.trips[i].stage.t) < |cfg.targets|
    case RoundTrip(i, _) => i < |s.trips| && s.trips[i].stage.Active?
    case Store(i, _, _, _, _, _) => i < |s.trips| && s.trips[i].stage.Answered?
    case Release(i) =>
      i < |s.trips| && s.trips[i].stage.Leaving? && Slot(cfg, s.trips[i].stage.t) < |cfg.targets|
  }

  function NextQueue(cfg: Config, s: State, a: Action): Q.State
    requires Enabled(cfg, s, a)
  {
    match a
    case Arrive(_, _) => Q.Apply(cfg.queue, s.queue, Q.Arrive)
    case Queue(q) => Q.Apply(cfg.queue, s.queue, q)
    case _ => s.queue
  }

  /** The finding of a lookup; a request that is not eligible does not look. */
  function LookedUp(s: State, i: nat, now: int): Finding
    requires i < |s.trips|
  {
    match s.trips[i].key
    case None => Absent
    case Some(k) => Find(s.cache, k, now)
  }

  function NextTrip(cfg: Config, s: State, a: Action): Trip
    requires Enabled(cfg, s, a) && !a.Arrive? && !a.Queue?
  {
    var x := s.trips[a.i];
    match a
    case Look(i, now) =>
      var f := LookedUp(s, i, now);
      x.(stage := if f.Fresh? then Hit(f.entry, now, |s.log|) else Picking)
    case Scan(_, choice) =>
      x.(stage := if choice.None? then NoTarget else Chosen(choice.value, s.counters[choice.value].pending))
    case CompareAndSwap(_) =>
      x.(stage := if s.counters[x.stage.t].pending == x.stage.p then Reserved(x.stage.t) else Picking)
    case AcquirePending(_) => x.(stage := HalfAcquired(x.stage.t))
    case AcquireActive(_) => x.(stage := Active(x.stage.t))
    case RoundTrip(_, reply) =>
      x.(stage := if reply.Some? then Answered(x.stage.t, reply.value) else Leaving(x.stage.t), reply := reply)
    case Store(_, _, _, _, _, _) => x.(stage := Leaving(x.stage.t))
    case Release(_) => x.(stage := Left(x.stage.t))
  }

  function NextCounters(cfg: Config, s: State, a: Action): seq<Connections>
    requires Enabled(cfg, s, a)
  {
    match a
    case CompareAndSwap(i) =>
      var t := s.trips[i].stage.t;
      var c := s.counters[t];
      if c.pending == s.trips[i].stage.p then s.counters[t := c.(pending := c.pending + 1)] else s.counters
    case AcquirePending(i) =>
      var j := Slot(cfg, s.trips[i].stage.t);
      s.counters[j := s.counters[j].(pending := s.counters[j].pending - 1)]
    case AcquireActive(i) =>
      var j := Slot(cfg, s.trips[i].stage.t);
      s.counters[j := s.counters[j].(active := s.counters[j].active + 1)]
    case Release(i) =>
      var j := Slot(cfg, s.trips[i].stage.t);
      s.counters[j := s.counters[j].(active := s.counters[j].active - 1)]
    case _ => s.counters
  }

  /** The response serveUpstream stores (proxy.go:359-365). */
  function Kept(a: Answer, storedAt: int, requestID: string): CachedResponse {
    CachedResponse(a.status, Sanitize(a.header), a.body, storedAt, requestID)
  }

  predicate Stores(s: State, a: Action) {
    && a.Store? && a.i < |s.trips| && s.trips[a.i].stage.Answered? && s.trips[a.i].key.Some?
    && TtlOf(s.trips[a.i].stage.answer, a.first, a.second, a.fallback).Some?
  }

  function StoreOp(s: State, a: Action): Op
    requires Stores(s, a)
  {
    var x := s.trips[a.i];
    SetOp(x.key.value, Kept(x.stage.answer, a.storedAt, x.requestID),
          TtlOf(x.stage.answer, a.first, a.second, a.fallback).value, a.now, a.fallback)
  }

  function NextCache(cfg: Config, s: State, a: Action): Cache
    requires Enabled(cfg, s, a)
  {
    if a.Look? && s.trips[a.i].key.Some? then Lru.Do(s.cache, GetOp(s.trips[a.i].key.value, a.now))
    else if Stores(s, a) then Lru.Do(s.cache, StoreOp(s, a))
    else s.cache
  }

  function NextLog(s: State, a: Action): seq<StoreRecord> {
    if !Stores(s, a) then s.log else
    s.log + [StoreRecord(a.i, s.trips[a.i].key.value, s.trips[a.i].stage.answer, a.first, a.second, a.now,
                    a.fallback, Lru.Stored(StoreOp(s, a)))]
  }

  function Apply(cfg: Config, s: State, a: Action): State
    requires Enabled(cfg, s, a)
  {
    State(NextQueue(cfg, s, a),
          match a
          case Arrive(key, requestID) => s.trips + [Trip(key, requestID, Arriving, None)]
          case Queue(_) => s.trips
          case _ => s.trips[a.i := NextTrip(cfg, s, a)],
          NextCounters(cfg, s, a), NextCache(cfg, s, a), NextLog(s, a))
  }

  function Exec(cfg: Config, s: State, acts: seq<Action>): Option<State>
    decreases |acts|
  {
    if acts == [] then Some(s)
    else if Enabled(cfg, s, acts[0]) then Exec(cfg, Apply(cfg, s, acts[0]), acts[1..])
    else None
  }

  predicate Leads(cfg: Config, s: State, acts: seq<Action>, t: State) {
    Exec(cfg, s, acts) == Some(t)
  }
}
