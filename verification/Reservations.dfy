/** Reservations that Acquire takes from another target (internal/proxy/balancer.go): when a pending
    count can fall below zero. */
module Reservations {
  import opened Options
  import opened Upstreams
  import opened Lru
  import opened Proxy
  import opened ProxyRuns
  import LC = LeastConnections
  import Q = AdmissionQueue
  import QR = AdmissionRuns

  // ----- Runs in which picks do not race -----

  predicate Fits(cs: seq<Connections>) {
    forall t :: 0 <= t < |cs| ==>
      && -LC.MAX_INT64 - 1 <= cs[t].active <= LC.MAX_INT64 && -LC.MAX_INT64 - 1 <= cs[t].pending <= LC.MAX_INT64
  }

  /** The counters as the balancer keeps them. */
  function AsStates(cs: seq<Connections>): seq<LC.Counters>
    requires Fits(cs)
  {
    seq(|cs|, t requires 0 <= t < |cs| => LC.Counters(cs[t].active, cs[t].pending))
  }

  /** What the probes say when every target is healthy. */
  function All(n: nat): (healthy: set<nat>)
    ensures forall t: nat :: t in healthy <==> t < n
  {
    if n == 0 then {} else All(n - 1) + {n - 1}
  }

  /** The balancer picks target t from these counters, all targets being healthy. */
  predicate MustPick(healthChecks: bool, cs: seq<Connections>, t: nat) {
    Fits(cs) && LC.IsBest(AsStates(cs), healthChecks, All(|cs|), true, t)
  }

  /** The k-th action is a scan that finds the target the balancer picks, and its
      compare-and-swap comes at once. */
  predicate AloneAt(cfg: Config, healthChecks: bool, acts: seq<Action>, k: nat)
    requires k < |acts| && acts[k].Scan?
  {
    && k + 1 < |acts| && acts[k + 1] == CompareAndSwap(acts[k].i)
    && acts[k].choice.Some? && Exec(cfg, Init(cfg), acts[..k]).Some?
    && MustPick(healthChecks, Exec(cfg, Init(cfg), acts[..k]).value.counters, acts[k].choice.value)
  }

  /** A run from the start in which every pick does what the balancer does when nothing races
      with it and every target is healthy. */
  predicate RunsAlone(cfg: Config, healthChecks: bool, acts: seq<Action>, s: State) {
    && Leads(cfg, Init(cfg), acts, s)
    && forall k :: 0 <= k < |acts| && acts[k].Scan? ==> AloneAt(cfg, healthChecks, acts, k)
  }

  lemma PrefixStaysAlone(cfg: Config, healthChecks: bool, acts: seq<Action>, s: State, more: seq<Action>)
    requires RunsAlone(cfg, healthChecks, acts, s)
    ensures forall k :: 0 <= k < |acts| && acts[k].Scan? ==> AloneAt(cfg, healthChecks, acts + more, k)
  {
    forall k | 0 <= k < |acts| && acts[k].Scan? ensures AloneAt(cfg, healthChecks, acts + more, k) {
      assert AloneAt(cfg, healthChecks, acts, k) && (acts + more)[..k] == acts[..k];
    }
  }

  lemma Leads1(cfg: Config, s: State, a: Action)
    requires Enabled(cfg, s, a)
    ensures Leads(cfg, s, [a], Apply(cfg, s, a))
  {
    assert [a][1..] == [];
  }

  lemma Extend(cfg: Config, healthChecks: bool, acts: seq<Action>, s: State, a: Action, t: State)
    returns (acts': seq<Action>)
    requires RunsAlone(cfg, healthChecks, acts, s) && Enabled(cfg, s, a) && !a.Scan? && t == Apply(cfg, s, a)
    ensures RunsAlone(cfg, healthChecks, acts', t)
  {
    acts' := acts + [a];
    Leads1(cfg, s, a);
    LeadsConcat(cfg, Init(cfg), acts, s, [a], t);
    PrefixStaysAlone(cfg, healthChecks, acts, s, [a]);
  }

  /** A whole pick, scan and swap. */
  lemma ExtendByPick(cfg: Config, healthChecks: bool, acts: seq<Action>, s: State, i: nat, target: nat, mid: State, t: State)
    returns (acts': seq<Action>)
    requires RunsAlone(cfg, healthChecks, acts, s) && MustPick(healthChecks, s.counters, target)
    requires Enabled(cfg, s, Scan(i, Some(target))) && mid == Apply(cfg, s, Scan(i, Some(target)))
    requires Enabled(cfg, mid, CompareAndSwap(i)) && t == Apply(cfg, mid, CompareAndSwap(i))
    ensures RunsAlone(cfg, healthChecks, acts', t)
  {
    var scan, swap := Scan(i, Some(target)), CompareAndSwap(i);
    acts' := acts + [scan] + [swap];
    assert acts' == acts + [scan, swap] && acts'[..|acts|] == acts;
    Leads1(cfg, s, scan);
    Leads1(cfg, mid, swap);
    LeadsConcat(cfg, Init(cfg), acts, s, [scan], mid);
    LeadsConcat(cfg, Init(cfg), acts + [scan], mid, [swap], t);
    PrefixStaysAlone(cfg, healthChecks, acts, s, [scan, swap]);
    assert AloneAt(cfg, healthChecks, acts', |acts|);
  }

  // ----- Picking the targets in turn -----

  /** The counters after targets 0 to k-1 have been picked. */
  function PickedEach(n: nat, k: nat): seq<Connections> {
    seq(n, t => Connections(0, if t < k then 1 else 0))
  }

  /** k requests hold a reservation each, on targets 0 to k-1, and one more is at the given stage. */
  function Picked(cfg: Config, k: nat, more: seq<Stage>): State {
    State(Q.State(seq(k + |more|, i => Q.Fresh()), 0, 0, 0),
          seq(k, i requires 0 <= i < k => Trip(None, "", Reserved(i), None))
          + seq(|more|, i requires 0 <= i < |more| => Trip(None, "", more[i], None)),
          PickedEach(|cfg.targets|, k), Empty(cfg.cacheSize), [])
  }

  /** Target k is next in turn. */
  lemma NextIsBest(n: nat, k: nat, healthChecks: bool)
    requires k < n
    ensures MustPick(healthChecks, PickedEach(n, k), k)
  {
  }

  lemma PickNext(cfg: Config, healthChecks: bool, acts: seq<Action>, k: nat) returns (acts': seq<Action>)
    requires k < |cfg.targets| && RunsAlone(cfg, healthChecks, acts, Picked(cfg, k, [Picking]))
    ensures RunsAlone(cfg, healthChecks, acts', Picked(cfg, k + 1, []))
  {
    NextIsBest(|cfg.targets|, k, healthChecks);
    acts' := ExtendByPick(cfg, healthChecks, acts, Picked(cfg, k, [Picking]), k, k,
                          Picked(cfg, k, [Chosen(k, 0)]), Picked(cfg, k + 1, []));
  }

  /** As many requests as k, one after the other, pick targets 0 to k-1. */
  lemma {:induction false} PickInTurn(cfg: Config, healthChecks: bool, k: nat) returns (acts: seq<Action>)
    requires cfg.Valid() && k <= |cfg.targets|
    ensures RunsAlone(cfg, healthChecks, acts, Picked(cfg, k, []))
  {
    if k == 0 {
      acts := [];
      assert Picked(cfg, 0, []) == Init(cfg);
    } else {
      acts := PickInTurn(cfg, healthChecks, k - 1);
      acts := Extend(cfg, healthChecks, acts, Picked(cfg, k - 1, []), Arrive(None, ""), Picked(cfg, k - 1, [Arriving]));
      acts := Extend(cfg, healthChecks, acts, Picked(cfg, k - 1, [Arriving]), Look(k - 1, 0),
                     Picked(cfg, k - 1, [Picking]));
      acts := PickNext(cfg, healthChecks, acts, k - 1);
    }
  }

  // ----- Serving one of several requests -----

  /** q with request i at r, and the shared counters moved by w, k and d. */
  function At(q: Q.State, i: nat, r: Q.Request, w: nat, k: nat, d: int): Q.State
    requires i < |q.requests|
  {
    Q.State(q.requests[i := r], q.queueWait + w, q.activeSlots + k, q.queueDepth + d)
  }

  /** Request i, live and not cancelled. */
  function Live(h: Q.Handler, g: Q.Acquirer, grants: nat): Q.Request {
    Q.Request(h, g, grants, Q.Live, false, false)
  }

  /** One step of request i. */
  lemma StepAt(cfg: Q.Config, q: Q.State, i: nat, s0: Q.State, qs: seq<Q.Action>, r: Q.Request, w: nat, k: nat, d: int,
               a: Q.Action) returns (qs': seq<Q.Action>)
    requires i < |q.requests| && Q.Leads(cfg, s0, qs, At(q, i, r, w, k, d))
    requires Q.AtPoint(r, a) && !a.Arrive? && a.i == i && Q.ChannelReady(cfg, At(q, i, r, w, k, d), a)
    requires a.Enter? ==> !Q.Full(cfg, At(q, i, r, w, k, d))
    requires w + Q.TokenDelta(a, false) >= 0 && k + Q.SlotDelta(a) >= 0
    ensures qs' == qs + [a]
    ensures Q.Leads(cfg, s0, qs', At(q, i, Q.Advance(r, false, a), w + Q.TokenDelta(a, false), k + Q.SlotDelta(a),
                                     d + Q.DepthDelta(a)))
  {
    var t: Q.State;
    qs', t := QR.Extend(cfg, s0, qs, At(q, i, r, w, k, d), a);
    assert t == At(q, i, Q.Advance(r, false, a), w + Q.TokenDelta(a, false), k + Q.SlotDelta(a), d + Q.DepthDelta(a));
  }

  lemma Queues(cfg: Q.Config, q: Q.State, i: nat) returns (qs: seq<Q.Action>)
    requires i < |q.requests| && q.requests[i] == Q.Fresh() && q.queueWait < cfg.maxQueue
    ensures qs == [Q.Enter(i), Q.CountUp(i), Q.Spawn(i)]
    ensures Q.Leads(cfg, q, qs, At(q, i, Live(Q.Waiting, Q.Selecting, 0), 1, 0, 1))
  {
    assert At(q, i, Q.Fresh(), 0, 0, 0) == q;
    qs := StepAt(cfg, q, i, q, [], Q.Fresh(), 0, 0, 0, Q.Enter(i));
    qs := StepAt(cfg, q, i, q, qs, Live(Q.Admitted, Q.Unborn, 0), 1, 0, 0, Q.CountUp(i));
    qs := StepAt(cfg, q, i, q, qs, Live(Q.Counted, Q.Unborn, 0), 1, 0, 1, Q.Spawn(i));
  }

  lemma IsGranted(cfg: Q.Config, q: Q.State, i: nat) returns (qs: seq<Q.Action>)
    requires i < |q.requests| && q.activeSlots < cfg.maxConcurrent
    ensures qs == [Q.TakeSlot(i), Q.SendGrant(i), Q.TakeGrant(i)]
    ensures Q.Leads(cfg, At(q, i, Live(Q.Waiting, Q.Selecting, 0), 1, 0, 1), qs,
                    At(q, i, Live(Q.Granted, Q.Sent, 0), 1, 1, 1))
  {
    var s0 := At(q, i, Live(Q.Waiting, Q.Selecting, 0), 1, 0, 1);
    qs := StepAt(cfg, q, i, s0, [], Live(Q.Waiting, Q.Selecting, 0), 1, 0, 1, Q.TakeSlot(i));
    qs := StepAt(cfg, q, i, s0, qs, Live(Q.Waiting, Q.Sending, 0), 1, 1, 1, Q.SendGrant(i));
    qs := StepAt(cfg, q, i, s0, qs, Live(Q.Waiting, Q.Sent, 1), 1, 1, 1, Q.TakeGrant(i));
  }

  lemma Starts(cfg: Q.Config, q: Q.State, i: nat) returns (qs: seq<Q.Action>)
    requires i < |q.requests|
    ensures qs == [Q.Dequeue(i), Q.CountDown(i)]
    ensures Q.Leads(cfg, At(q, i, Live(Q.Granted, Q.Sent, 0), 1, 1, 1), qs, At(q, i, Live(Q.Running, Q.Sent, 0), 0, 1, 0))
  {
    var s0 := At(q, i, Live(Q.Granted, Q.Sent, 0), 1, 1, 1);
    qs := StepAt(cfg, q, i, s0, [], Live(Q.Granted, Q.Sent, 0), 1, 1, 1, Q.Dequeue(i));
    qs := StepAt(cfg, q, i, s0, qs, Live(Q.Dequeued, Q.Sent, 0), 0, 1, 1, Q.CountDown(i));
  }

  /** After next.ServeHTTP: the defers of request i. */
  lemma Ends(cfg: Q.Config, q: Q.State, i: nat) returns (qs: seq<Q.Action>)
    requires i < |q.requests|
    ensures qs == [Q.Finish(i), Q.Release(i), Q.Close(i)]
    ensures Q.Leads(cfg, At(q, i, Live(Q.Running, Q.Sent, 0), 0, 1, 0), qs,
                    At(q, i, Live(Q.Returned(Q.Served), Q.Sent, 0).(acquireDone := true), 0, 0, 0))
  {
    var s0 := At(q, i, Live(Q.Running, Q.Sent, 0), 0, 1, 0);
    qs := StepAt(cfg, q, i, s0, [], Live(Q.Running, Q.Sent, 0), 0, 1, 0, Q.Finish(i));
    qs := StepAt(cfg, q, i, s0, qs, Live(Q.Releasing, Q.Sent, 0), 0, 1, 0, Q.Release(i));
    qs := StepAt(cfg, q, i, s0, qs, Live(Q.Closing, Q.Sent, 0), 0, 0, 0, Q.Close(i));
  }

  /** The trips let the queue take this step. */
  predicate Admits(s: State, q: Q.Action) {
    && !q.Arrive?
    && (q.Enter? ==> q.i < |s.trips| && s.trips[q.i].stage.Reserved?)
    && (q.Finish? ==> q.i < |s.trips| && s.trips[q.i].stage.Left?)
  }

  lemma QueueStep(cfg: Config, healthChecks: bool, before: seq<Action>, s: State, q: Q.Action) returns (acts: seq<Action>)
    requires RunsAlone(cfg, healthChecks, before, s) && Sized(cfg, s) && Q.Enabled(cfg.queue, s.queue, q) && Admits(s, q)
    ensures RunsAlone(cfg, healthChecks, acts, s.(queue := Q.Apply(cfg.queue, s.queue, q)))
    ensures |Q.Apply(cfg.queue, s.queue, q).requests| == |s.trips|
  {
    acts := Extend(cfg, healthChecks, before, s, Queue(q), s.(queue := Q.Apply(cfg.queue, s.queue, q)));
  }

  /** Steps of the queue that the trips admit are steps of the proxy. */
  lemma {:induction false} QueueRun(cfg: Config, healthChecks: bool, before: seq<Action>, s: State,
                                    qs: seq<Q.Action>, qt: Q.State) returns (acts: seq<Action>)
    requires RunsAlone(cfg, healthChecks, before, s) && Sized(cfg, s) && Q.Leads(cfg.queue, s.queue, qs, qt)
    requires forall k :: 0 <= k < |qs| ==> Admits(s, qs[k])
    ensures RunsAlone(cfg, healthChecks, acts, s.(queue := qt))
    decreases |qs|
  {
    if qs == [] {
      acts := before;
    } else {
      acts := QueueStep(cfg, healthChecks, before, s, qs[0]);
      acts := QueueRun(cfg, healthChecks, acts, s.(queue := Q.Apply(cfg.queue, s.queue, qs[0])), qs[1..], qt);
    }
  }

  /** Request i has its reservation, and the queue can take it on. */
  predicate CanServe(cfg: Config, s: State, i: nat) {
    && Sized(cfg, s) && i < |s.trips| && s.trips[i].stage.Reserved? && s.queue.requests[i] == Q.Fresh()
    && s.queue.queueWait < cfg.queue.maxQueue && s.queue.activeSlots < cfg.queue.maxConcurrent
    && Slot(cfg, s.trips[i].stage.t) < |cfg.targets|
  }

  /** s with trip i in the given stage of its service, and its slot's counters moved. */
  function Serving(cfg: Config, s: State, i: nat, stage: Stage, pending: int, active: int): State
    requires CanServe(cfg, s, i)
  {
    var j := Slot(cfg, s.trips[i].stage.t);
    s.(queue := At(s.queue, i, Live(Q.Running, Q.Sent, 0), 0, 1, 0),
       trips := s.trips[i := s.trips[i].(stage := stage)],
       counters := s.counters[j := Connections(s.counters[j].active + active, s.counters[j].pending + pending)])
  }

  lemma Waits(cfg: Config, healthChecks: bool, before: seq<Action>, s: State, i: nat) returns (acts: seq<Action>)
    requires CanServe(cfg, s, i) && RunsAlone(cfg, healthChecks, before, s)
    ensures RunsAlone(cfg, healthChecks, acts, s.(queue := At(s.queue, i, Live(Q.Waiting, Q.Selecting, 0), 1, 0, 1)))
  {
    var qs := Queues(cfg.queue, s.queue, i);
    acts := QueueRun(cfg, healthChecks, before, s, qs, At(s.queue, i, Live(Q.Waiting, Q.Selecting, 0), 1, 0, 1));
  }

  lemma Runs(cfg: Config, healthChecks: bool, before: seq<Action>, s: State, i: nat) returns (acts: seq<Action>)
    requires CanServe(cfg, s, i)
    requires RunsAlone(cfg, healthChecks, before, s.(queue := At(s.queue, i, Live(Q.Waiting, Q.Selecting, 0), 1, 0, 1)))
    ensures RunsAlone(cfg, healthChecks, acts, s.(queue := At(s.queue, i, Live(Q.Running, Q.Sent, 0), 0, 1, 0)))
  {
    var q := s.queue;
    var qs := IsGranted(cfg.queue, q, i);
    acts := QueueRun(cfg, healthChecks, before, s.(queue := At(q, i, Live(Q.Waiting, Q.Selecting, 0), 1, 0, 1)), qs,
                     At(q, i, Live(Q.Granted, Q.Sent, 0), 1, 1, 1));
    qs := Starts(cfg.queue, q, i);
    acts := QueueRun(cfg, healthChecks, acts, s.(queue := At(q, i, Live(Q.Granted, Q.Sent, 0), 1, 1, 1)), qs,
                     At(q, i, Live(Q.Running, Q.Sent, 0), 0, 1, 0));
  }

  lemma TakesPending(cfg: Config, healthChecks: bool, before: seq<Action>, s: State, i: nat) returns (acts: seq<Action>)
    requires CanServe(cfg, s, i)
    requires RunsAlone(cfg, healthChecks, before, s.(queue := At(s.queue, i, Live(Q.Running, Q.Sent, 0), 0, 1, 0)))
    ensures RunsAlone(cfg, healthChecks, acts, Serving(cfg, s, i, HalfAcquired(s.trips[i].stage.t), -1, 0))
  {
    acts := Extend(cfg, healthChecks, before, s.(queue := At(s.queue, i, Live(Q.Running, Q.Sent, 0), 0, 1, 0)),
                   AcquirePending(i), Serving(cfg, s, i, HalfAcquired(s.trips[i].stage.t), -1, 0));
  }

  /** The queue hands request i on, and Acquire takes its pending unit. */
  lemma Acquires(cfg: Config, healthChecks: bool, before: seq<Action>, s: State, i: nat) returns (acts: seq<Action>)
    requires RunsAlone(cfg, healthChecks, before, s) && CanServe(cfg, s, i)
    ensures RunsAlone(cfg, healthChecks, acts, Serving(cfg, s, i, HalfAcquired(s.trips[i].stage.t), -1, 0))
  {
    acts := Waits(cfg, healthChecks, before, s, i);
    acts := Runs(cfg, healthChecks, acts, s, i);
    acts := TakesPending(cfg, healthChecks, acts, s, i);
  }

  lemma Connects(cfg: Config, healthChecks: bool, before: seq<Action>, s: State, i: nat) returns (acts: seq<Action>)
    requires CanServe(cfg, s, i)
    requires RunsAlone(cfg, healthChecks, before, Serving(cfg, s, i, HalfAcquired(s.trips[i].stage.t), -1, 0))
    ensures RunsAlone(cfg, healthChecks, acts, Serving(cfg, s, i, Active(s.trips[i].stage.t), -1, 1))
  {
    var t := s.trips[i].stage.t;
    acts := Extend(cfg, healthChecks, before, Serving(cfg, s, i, HalfAcquired(t), -1, 0), AcquireActive(i),
                   Serving(cfg, s, i, Active(t), -1, 1));
  }

  /** The round trip fails. */
  lemma Fails(cfg: Config, healthChecks: bool, before: seq<Action>, s: State, i: nat) returns (acts: seq<Action>)
    requires CanServe(cfg, s, i) && s.trips[i].reply == None
    requires RunsAlone(cfg, healthChecks, before, Serving(cfg, s, i, Active(s.trips[i].stage.t), -1, 1))
    ensures RunsAlone(cfg, healthChecks, acts, Serving(cfg, s, i, Leaving(s.trips[i].stage.t), -1, 1))
  {
    var t := s.trips[i].stage.t;
    acts := Extend(cfg, healthChecks, before, Serving(cfg, s, i, Active(t), -1, 1), RoundTrip(i, None),
                   Serving(cfg, s, i, Leaving(t), -1, 1));
  }

  /** The connection is released: the pending unit stays taken. */
  lemma Releases(cfg: Config, healthChecks: bool, before: seq<Action>, s: State, i: nat) returns (acts: seq<Action>)
    requires CanServe(cfg, s, i)
    requires RunsAlone(cfg, healthChecks, before, Serving(cfg, s, i, Leaving(s.trips[i].stage.t), -1, 1))
    ensures RunsAlone(cfg, healthChecks, acts, Serving(cfg, s, i, Left(s.trips[i].stage.t), -1, 0))
  {
    var t := s.trips[i].stage.t;
    acts := Extend(cfg, healthChecks, before, Serving(cfg, s, i, Leaving(t), -1, 1), Release(i),
                   Serving(cfg, s, i, Left(t), -1, 0));
  }

  /** s after request i has been served on target t's slot. */
  function Served(cfg: Config, s: State, i: nat): State
    requires CanServe(cfg, s, i)
  {
    Serving(cfg, s, i, Left(s.trips[i].stage.t), -1, 0)
    .(queue := At(s.queue, i, Live(Q.Returned(Q.Served), Q.Sent, 0).(acquireDone := true), 0, 0, 0))
  }

  lemma Serves(cfg: Config, healthChecks: bool, before: seq<Action>, s: State, i: nat) returns (acts: seq<Action>)
    requires RunsAlone(cfg, healthChecks, before, s) && CanServe(cfg, s, i) && s.trips[i].reply == None
    ensures RunsAlone(cfg, healthChecks, acts, Served(cfg, s, i))
  {
    acts := Acquires(cfg, healthChecks, before, s, i);
    acts := Connects(cfg, healthChecks, acts, s, i);
    acts := Fails(cfg, healthChecks, acts, s, i);
    acts := Releases(cfg, healthChecks, acts, s, i);
    var qs := Ends(cfg.queue, s.queue, i);
    acts := QueueRun(cfg, healthChecks, acts, Serving(cfg, s, i, Left(s.trips[i].stage.t), -1, 0), qs,
                     Served(cfg, s, i).queue);
  }

  // ----- When pending can go negative -----

  lemma SlotOfSlot(cfg: Config, t: nat)
    requires t < |cfg.targets|
    ensures Slot(cfg, Slot(cfg, t)) == Slot(cfg, t) <= t
  {
  }

  /** Targets j < t are the same upstream.  Requests 0 to t each pick a target in turn; request t
      is served, which takes the reservation of request j; when request j acquires its connection,
      the pending count of target j is one below zero. */
  lemma TakenTwice(cfg: Config, healthChecks: bool, t: nat) returns (acts: seq<Action>, s: State)
    requires cfg.Valid() && t < |cfg.targets| && Slot(cfg, t) < t
    ensures RunsAlone(cfg, healthChecks, acts, s)
    ensures |s.counters| == |cfg.targets| && s.counters[Slot(cfg, t)].pending == -1
  {
    var j := Slot(cfg, t);
    SlotOfSlot(cfg, t);
    acts := PickInTurn(cfg, healthChecks, t + 1);
    var picked := Picked(cfg, t + 1, []);
    acts := Serves(cfg, healthChecks, acts, picked, t);
    var served := Served(cfg, picked, t);
    acts := Acquires(cfg, healthChecks, acts, served, j);
    s := Serving(cfg, served, j, HalfAcquired(j), -1, 0);
  }

  ghost predicate PendingNeverNegative(cfg: Config) {
    forall acts, s, j ::
      Leads(cfg, Init(cfg), acts, s) && 0 <= j < |s.counters| ==> s.counters[j].pending >= 0
  }

  /** Even picks that never race, on targets that are all healthy, drive a pending count below zero. */
  ghost predicate NegativeWithoutRaces(cfg: Config, healthChecks: bool) {
    exists acts, s, j ::
      RunsAlone(cfg, healthChecks, acts, s) && 0 <= j < |s.counters| && s.counters[j].pending < 0
  }

  /** If the configured targets are pairwise distinct as upstreams, no interleaving whatever makes
      a pending count negative; if they are not, requests that pick one after the other suffice,
      with health checks and without. */
  lemma PendingNeverNegativeIff(cfg: Config, healthChecks: bool)
    requires cfg.Valid()
    ensures PendingNeverNegative(cfg) <==> PairwiseDistinct(cfg.targets)
    ensures NegativeWithoutRaces(cfg, healthChecks) <==> !PairwiseDistinct(cfg.targets)
  {
    if PairwiseDistinct(cfg.targets) {
      forall acts, s, j | Leads(cfg, Init(cfg), acts, s) && 0 <= j < |s.counters|
        ensures s.counters[j].pending >= 0
      {
        InitInv(cfg);
        RunKeepsInv(cfg, Init(cfg), acts, s);
        DistinctLaw(cfg, s, j);
      }
    } else {
      ResolveIsIdentityIff(cfg.targets);
      var t :| 0 <= t < |cfg.targets| && Resolve(cfg.targets, cfg.targets[t]) != Some(t);
      SlotExists(cfg, t);
      var acts, s := TakenTwice(cfg, healthChecks, t);
    }
  }
}
