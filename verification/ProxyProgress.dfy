/** Progress of the composed proxy: Pick's retry loop does not livelock, and every request ends
    (internal/proxy/proxy.go, internal/proxy/balancer.go, internal/proxy/queue.go). */
module ProxyProgress {
  import opened Options
  import opened Counting
  import opened Lru
  import opened Proxy
  import opened ProxyRuns
  import Q = AdmissionQueue
  import QR = AdmissionRuns

  // ----- Pick's loop is lock-free -----

  /** Between the load of a pending count and a compare-and-swap that fails, some other request
      reserved on the same target or acquired from it. */
  lemma {:induction false} FailedSwapMeansProgress(cfg: Config, s: State, acts: seq<Action>, u: State, i: nat)
    returns (k: nat, v: State)
    requires Leads(cfg, s, acts, u) && i < |s.trips| && s.trips[i].stage.Chosen? && s.trips[i].stage.t < |s.counters|
    requires forall l :: 0 <= l < |acts| ==> acts[l] != CompareAndSwap(i)
    requires s.counters[s.trips[i].stage.t].pending == s.trips[i].stage.p
    requires s.trips[i].stage.t < |u.counters| && u.counters[s.trips[i].stage.t].pending != s.trips[i].stage.p
    ensures k < |acts| && Leads(cfg, s, acts[..k], v) && Enabled(cfg, v, acts[k])
    ensures (acts[k].CompareAndSwap? || acts[k].AcquirePending?) && acts[k].i != i
    ensures PendingDelta(cfg, v, acts[k], s.trips[i].stage.t) != 0
    decreases |acts|
  {
    var a, t := acts[0], s.trips[i].stage.t;
    CountersMove(cfg, s, a, t);
    if PendingDelta(cfg, s, a, t) != 0 {
      k, v := 0, s;
    } else {
      k, v := FailedSwapMeansProgress(cfg, Apply(cfg, s, a), acts[1..], u, i);
      assert acts[..k + 1][1..] == acts[1..][..k];
      k := k + 1;
    }
  }

  // ----- Every run ends -----

  /** Answered from the cache or for want of a target, turned away by the queue, or served; with
      its goroutine gone. */
  predicate Ended(x: Trip, r: Q.Request) {
    x.stage.Hit? || x.stage.NoTarget? || ((x.stage.Reserved? || x.stage.Left?) && QR.Finished(r))
  }

  /** What trip i can do next, whatever the others do. */
  function NextOf(cfg: Config, s: State, i: nat): Action
    requires |s.trips| == |s.queue.requests| && i < |s.trips| && !Ended(s.trips[i], s.queue.requests[i])
  {
    match s.trips[i].stage
    case Arriving => Look(i, 0)
    case Picking => Scan(i, if cfg.targets == [] then None else Some(0))
    case Chosen(_, _) => CompareAndSwap(i)
    case Reserved(_) =>
      if s.queue.requests[i].h.Running? then AcquirePending(i) else Queue(QR.NextFor(s.queue, i))
    case HalfAcquired(_) => AcquireActive(i)
    case Active(_) => RoundTrip(i, None)
    case Answered(_, _) => Store(i, 0, 0, 0, 0, SIXTY_SECONDS)
    case Leaving(_) => Release(i)
    case Left(_) => Queue(QR.NextFor(s.queue, i))
  }

  lemma NextIsEnabled(cfg: Config, s: State, i: nat)
    requires Linked(cfg, s) && i < |s.trips| && !Ended(s.trips[i], s.queue.requests[i])
    ensures Enabled(cfg, s, NextOf(cfg, s, i)) && !NextOf(cfg, s, i).Arrive?
  {
    var x := s.trips[i].stage;
    assert TripOk(cfg, x, s.queue.requests[i].h);
    if HasTarget(x) {
      SlotExists(cfg, x.t);
    }
    if x.Reserved? || x.Left? {
      QR.NextIsEnabled(cfg.queue, s.queue, i);
    }
  }

  /** How far a trip is from its end among n trips.  A swap that has become stale costs two steps
      more; reserving and acquiring pay for making every other swap stale. */
  function Weight(cs: seq<Connections>, n: nat): Trip -> nat {
    (x: Trip) =>
      match x.stage
      case Arriving => 4 * n + 9
      case Picking => 4 * n + 7
      case Chosen(t, p) => if t < |cs| && cs[t].pending == p then 4 * n + 6 else 4 * n + 8
      case Reserved(_) => 2 * n + 5
      case HalfAcquired(_) => 4
      case Active(_) => 3
      case Answered(_, _) => 2
      case Leaving(_) => 1
      case _ => 0
  }

  function Distance(s: State, n: nat): nat {
    Total(s.queue.requests, QR.Rank) + Total(s.trips, Weight(s.counters, n))
  }

  /** A trip's own step, weighed by the counters it leaves. */
  lemma TravelLowersWeight(cfg: Config, s: State, a: Action, n: nat)
    requires Enabled(cfg, s, a) && !a.Arrive? && !a.Queue?
    ensures var cs := NextCounters(cfg, s, a);
            var before, after := Weight(cs, n)(s.trips[a.i]), Weight(cs, n)(NextTrip(cfg, s, a));
            after + (if PendingMoves(cfg, s, a) then 2 * n else 0) < before
  {
  }

  /** The action changes some pending count. */
  predicate PendingMoves(cfg: Config, s: State, a: Action)
    requires Enabled(cfg, s, a)
  {
    a.AcquirePending? || (a.CompareAndSwap? && s.counters[s.trips[a.i].stage.t].pending == s.trips[a.i].stage.p)
  }

  lemma CountersShiftWeights(cfg: Config, s: State, a: Action, n: nat)
    requires Enabled(cfg, s, a)
    ensures var cs := NextCounters(cfg, s, a);
            Total(s.trips, Weight(cs, n))
            <= Total(s.trips, Weight(s.counters, n)) + (if PendingMoves(cfg, s, a) then 2 * |s.trips| else 0)
  {
    var cs := NextCounters(cfg, s, a);
    var c := if PendingMoves(cfg, s, a) then 2 else 0;
    if c == 0 {
      forall t | 0 <= t < |s.counters| ensures cs[t].pending == s.counters[t].pending {
        CountersMove(cfg, s, a, t);
      }
    }
    TotalWithin(s.trips, Weight(cs, n), Weight(s.counters, n), c);
  }

  lemma TravelShortens(cfg: Config, s: State, a: Action, n: nat)
    requires Enabled(cfg, s, a) && !a.Arrive? && !a.Queue? && |s.trips| <= n
    ensures Total(Apply(cfg, s, a).trips, Weight(Apply(cfg, s, a).counters, n)) < Total(s.trips, Weight(s.counters, n))
  {
    CountersShiftWeights(cfg, s, a, n);
    TravelLowersWeight(cfg, s, a, n);
    TotalUpdate(s.trips, a.i, NextTrip(cfg, s, a), Weight(NextCounters(cfg, s, a), n));
  }

  /** Every step but an arrival brings a system of at most n trips nearer its end. */
  lemma StepShortens(cfg: Config, s: State, a: Action, n: nat)
    requires Linked(cfg, s) && Enabled(cfg, s, a) && |Apply(cfg, s, a).trips| <= n
    ensures Linked(cfg, Apply(cfg, s, a))
    ensures if a.Arrive?
            then |Apply(cfg, s, a).trips| == |s.trips| + 1 && Distance(Apply(cfg, s, a), n) == Distance(s, n) + 4 * n + 27
            else |Apply(cfg, s, a).trips| == |s.trips| && Distance(Apply(cfg, s, a), n) < Distance(s, n)
  {
    StepKeepsLinked(cfg, s, a);
    if a.Arrive? {
      QR.StepLowersRank(cfg.queue, s.queue, Q.Arrive);
      TotalPush(s.trips, Trip(a.key, a.requestID, Arriving, None), Weight(s.counters, n));
    } else if a.Queue? {
      QR.StepLowersRank(cfg.queue, s.queue, a.step);
    } else {
      TravelShortens(cfg, s, a, n);
    }
  }

  lemma {:induction false} TripsOnlyGrow(cfg: Config, s: State, acts: seq<Action>, t: State)
    requires Leads(cfg, s, acts, t)
    ensures |s.trips| <= |t.trips|
    decreases |acts|
  {
    if acts != [] {
      TripsOnlyGrow(cfg, Apply(cfg, s, acts[0]), acts[1..], t);
    }
  }

  /** What n trips have left to do, the arrivals still to come included. */
  function Budget(s: State, n: nat): int {
    Distance(s, n) + (4 * n + 28) * (n - |s.trips|)
  }

  lemma StepSpendsBudget(cfg: Config, s: State, a: Action, n: nat)
    requires Linked(cfg, s) && Enabled(cfg, s, a) && |Apply(cfg, s, a).trips| <= n
    ensures Linked(cfg, Apply(cfg, s, a)) && Budget(Apply(cfg, s, a), n) < Budget(s, n)
  {
    StepShortens(cfg, s, a, n);
    OneFewer(4 * n + 28, n - |s.trips|);
  }

  lemma OneFewer(c: nat, m: int)
    ensures c * (m - 1) + c == c * m
  {
  }

  lemma {:induction false} RunLength(cfg: Config, s: State, acts: seq<Action>, t: State)
    requires Linked(cfg, s) && Leads(cfg, s, acts, t)
    ensures Linked(cfg, t) && |acts| + Budget(t, |t.trips|) <= Budget(s, |t.trips|)
    decreases |acts|
  {
    if acts != [] {
      var s' := Apply(cfg, s, acts[0]);
      TripsOnlyGrow(cfg, s', acts[1..], t);
      StepSpendsBudget(cfg, s, acts[0], |t.trips|);
      RunLength(cfg, s', acts[1..], t);
    }
  }

  predicate AllEnded(s: State) {
    |s.trips| == |s.queue.requests| && forall i :: 0 <= i < |s.trips| ==> Ended(s.trips[i], s.queue.requests[i])
  }

  lemma BudgetEnds(cfg: Config, s: State)
    ensures Budget(Init(cfg), |s.trips|) == (4 * |s.trips| + 28) * |s.trips|
    ensures Budget(s, |s.trips|) >= 0
  {
    assert Distance(Init(cfg), |s.trips|) == 0;
    assert (4 * |s.trips| + 28) * (|s.trips| - |s.trips|) == 0;
  }

  lemma StuckMeansEnded(cfg: Config, s: State)
    requires Linked(cfg, s) && forall a :: Enabled(cfg, s, a) ==> a.Arrive?
    ensures AllEnded(s)
  {
    forall i | 0 <= i < |s.trips| ensures Ended(s.trips[i], s.queue.requests[i]) {
      if !Ended(s.trips[i], s.queue.requests[i]) {
        NextIsEnabled(cfg, s, i);
        assert false;
      }
    }
  }

  /** A run of the proxy over n requests has at most (4n + 28) * n steps, however often its picks
      lose their races, and it can only stop when every request has ended. */
  lemma EveryTripEnds(cfg: Config, acts: seq<Action>, s: State)
    requires cfg.Valid() && Leads(cfg, Init(cfg), acts, s)
    ensures |acts| <= (4 * |s.trips| + 28) * |s.trips|
    ensures (forall a :: Enabled(cfg, s, a) ==> a.Arrive?) ==> AllEnded(s)
  {
    RunLength(cfg, Init(cfg), acts, s);
    BudgetEnds(cfg, s);
    if forall a :: Enabled(cfg, s, a) ==> a.Arrive? {
      StuckMeansEnded(cfg, s);
    }
  }

  /** From every such state all requests can be brought to their end without a new one arriving. */
  lemma {:induction false} CanEnd(cfg: Config, s: State) returns (acts: seq<Action>, t: State)
    requires Linked(cfg, s)
    ensures Leads(cfg, s, acts, t) && AllEnded(t) && |t.trips| == |s.trips|
    decreases Distance(s, |s.trips|)
  {
    if AllEnded(s) {
      acts, t := [], s;
    } else {
      var i :| 0 <= i < |s.trips| && !Ended(s.trips[i], s.queue.requests[i]);
      NextIsEnabled(cfg, s, i);
      var a := NextOf(cfg, s, i);
      assert |Apply(cfg, s, a).trips| == |s.trips|;
      StepShortens(cfg, s, a, |s.trips|);
      var rest;
      rest, t := CanEnd(cfg, Apply(cfg, s, a));
      acts := [a] + rest;
      assert acts[1..] == rest;
    }
  }
}
