/** Connection accounting and cache provenance over whole runs of the proxy. */
module ProxyRuns {
  import opened Options
  import opened Counting
  import opened Upstreams
  import opened Proxy
  import Q = AdmissionQueue
  import QR = AdmissionRuns

  predicate HasTarget(x: Stage) {
    x.Chosen? || x.Reserved? || Taken(x)
  }

  /** Past Acquire's first add. */
  predicate Taken(x: Stage) {
    x.HalfAcquired? || InService(x) || x.Left?
  }

  /** Between Acquire's second add and the release. */
  predicate InService(x: Stage) {
    x.Active? || x.Answered? || x.Leaving?
  }

  /** How far a trip and its queue handler can be apart. */
  predicate InStep(x: Stage, h: Q.Handler) {
    match x
    case Arriving => h.AtDoor?
    case Hit(_, _, _) => h.AtDoor?
    case Picking => h.AtDoor?
    case Chosen(_, _) => h.AtDoor?
    case NoTarget => h.AtDoor?
    case Reserved(_) => !h.Releasing? && !h.Closing? && h != Q.Returned(Q.Served)
    case HalfAcquired(_) => h.Running?
    case Active(_) => h.Running?
    case Answered(_, _) => h.Running?
    case Leaving(_) => h.Running?
    case Left(_) => h.Running? || h.Releasing? || h.Closing? || h == Q.Returned(Q.Served)
  }

  predicate TripOk(cfg: Config, x: Stage, h: Q.Handler) {
    InStep(x, h) && (HasTarget(x) ==> x.t < |cfg.targets|)
  }

  predicate Linked(cfg: Config, s: State) {
    && Sized(cfg, s) && Q.Inv(cfg.queue, s.queue)
    && forall i :: 0 <= i < |s.trips| ==> TripOk(cfg, s.trips[i].stage, s.queue.requests[i].h)
  }

  lemma SlotExists(cfg: Config, t: nat)
    requires t < |cfg.targets|
    ensures Slot(cfg, t) <= t && (PairwiseDistinct(cfg.targets) ==> Slot(cfg, t) == t)
  {
  }

  lemma AdvanceInStep(x: Stage, r: Q.Request, full: bool, q: Q.Action)
    requires Q.RequestOk(r) && Q.AtPoint(r, q) && InStep(x, r.h)
    requires (q.Enter? ==> x.Reserved?) && (q.Finish? ==> x.Left?)
    ensures InStep(x, Q.Advance(r, full, q).h)
  {
  }

  lemma TravelInStep(cfg: Config, s: State, a: Action)
    requires Linked(cfg, s) && Enabled(cfg, s, a) && !a.Arrive? && !a.Queue?
    ensures TripOk(cfg, NextTrip(cfg, s, a).stage, s.queue.requests[a.i].h)
  {
  }

  lemma StepKeepsQueue(cfg: Config, s: State, a: Action)
    requires Linked(cfg, s) && Enabled(cfg, s, a)
    ensures Q.Inv(cfg.queue, NextQueue(cfg, s, a))
  {
    if a.Arrive? {
      Q.StepKeepsInv(cfg.queue, s.queue, Q.Arrive);
    } else if a.Queue? {
      Q.StepKeepsInv(cfg.queue, s.queue, a.step);
    }
  }

  lemma StepKeepsTrip(cfg: Config, s: State, a: Action, i: nat)
    requires Linked(cfg, s) && Enabled(cfg, s, a) && i < |s.trips|
    ensures TripOk(cfg, Apply(cfg, s, a).trips[i].stage, Apply(cfg, s, a).queue.requests[i].h)
  {
    assert TripOk(cfg, s.trips[i].stage, s.queue.requests[i].h);
    if a.Queue? {
      if a.step.i == i {
        AdvanceInStep(s.trips[i].stage, s.queue.requests[i], Q.Full(cfg.queue, s.queue), a.step);
      }
    } else if !a.Arrive? && a.i == i {
      TravelInStep(cfg, s, a);
    }
  }

  lemma StepKeepsLinked(cfg: Config, s: State, a: Action)
    requires Linked(cfg, s) && Enabled(cfg, s, a)
    ensures Linked(cfg, Apply(cfg, s, a))
  {
    StepKeepsQueue(cfg, s, a);
    forall i | 0 <= i < |s.trips|
      ensures TripOk(cfg, Apply(cfg, s, a).trips[i].stage, Apply(cfg, s, a).queue.requests[i].h)
    {
      StepKeepsTrip(cfg, s, a, i);
    }
  }

  // ----- Connection counters -----

  /** Reserved target j by a compare-and-swap. */
  function PickedOn(j: nat): Trip -> nat {
    (x: Trip) => if (x.stage.Reserved? || Taken(x.stage)) && x.stage.t == j then 1 else 0
  }

  /** Acquired, on the state Acquire resolved to. */
  function TakenOn(cfg: Config, j: nat): Trip -> nat {
    (x: Trip) => if Taken(x.stage) && Slot(cfg, x.stage.t) == j then 1 else 0
  }

  function ServedBy(cfg: Config, j: nat): Trip -> nat {
    (x: Trip) => if InService(x.stage) && Slot(cfg, x.stage.t) == j then 1 else 0
  }

  /** The general law: pending counts picks made less picks acquired, active those in service. */
  predicate Balanced(cfg: Config, s: State, j: nat)
    requires j < |s.counters|
  {
    && s.counters[j].pending == Total(s.trips, PickedOn(j)) - Total(s.trips, TakenOn(cfg, j))
    && s.counters[j].active == Total(s.trips, ServedBy(cfg, j))
  }

  predicate Inv(cfg: Config, s: State) {
    Linked(cfg, s) && forall j :: 0 <= j < |s.counters| ==> Balanced(cfg, s, j)
  }

  /** What the action adds to the counters of target j. */
  function PendingDelta(cfg: Config, s: State, a: Action, j: nat): int
    requires Enabled(cfg, s, a)
  {
    if a.CompareAndSwap? && s.trips[a.i].stage.t == j && s.counters[j].pending == s.trips[a.i].stage.p then 1
    else if a.AcquirePending? && Slot(cfg, s.trips[a.i].stage.t) == j then -1
    else 0
  }

  function ActiveDelta(cfg: Config, s: State, a: Action, j: nat): int
    requires Enabled(cfg, s, a)
  {
    if a.AcquireActive? && Slot(cfg, s.trips[a.i].stage.t) == j then 1
    else if a.Release? && Slot(cfg, s.trips[a.i].stage.t) == j then -1
    else 0
  }

  lemma CountersMove(cfg: Config, s: State, a: Action, j: nat)
    requires Enabled(cfg, s, a) && j < |s.counters|
    ensures NextCounters(cfg, s, a)[j].pending == s.counters[j].pending + PendingDelta(cfg, s, a, j)
    ensures NextCounters(cfg, s, a)[j].active == s.counters[j].active + ActiveDelta(cfg, s, a, j)
  {
  }

  lemma TravelIsBooked(cfg: Config, s: State, a: Action, j: nat)
    requires Enabled(cfg, s, a) && !a.Arrive? && !a.Queue?
    ensures PickedOn(j)(NextTrip(cfg, s, a)) - PickedOn(j)(s.trips[a.i])
            - (TakenOn(cfg, j)(NextTrip(cfg, s, a)) - TakenOn(cfg, j)(s.trips[a.i])) == PendingDelta(cfg, s, a, j)
    ensures ServedBy(cfg, j)(NextTrip(cfg, s, a)) - ServedBy(cfg, j)(s.trips[a.i]) == ActiveDelta(cfg, s, a, j)
  {
  }

  lemma TravelKeepsBalanced(cfg: Config, s: State, a: Action, j: nat)
    requires Enabled(cfg, s, a) && !a.Arrive? && !a.Queue? && j < |s.counters| && Balanced(cfg, s, j)
    ensures Balanced(cfg, Apply(cfg, s, a), j)
  {
    var i, x, s' := a.i, NextTrip(cfg, s, a), Apply(cfg, s, a);
    assert s'.trips == s.trips[i := x] && s'.counters == NextCounters(cfg, s, a);
    TravelIsBooked(cfg, s, a, j);
    CountersMove(cfg, s, a, j);
    var picked, taken, served := PickedOn(j), TakenOn(cfg, j), ServedBy(cfg, j);
    TotalUpdate(s.trips, i, x, picked);
    TotalUpdate(s.trips, i, x, taken);
    TotalUpdate(s.trips, i, x, served);
  }

  lemma StepKeepsBalanced(cfg: Config, s: State, a: Action, j: nat)
    requires Enabled(cfg, s, a) && j < |s.counters| && Balanced(cfg, s, j)
    ensures Balanced(cfg, Apply(cfg, s, a), j)
  {
    if a.Arrive? {
      var x := Trip(a.key, a.requestID, Arriving, None);
      TotalPush(s.trips, x, PickedOn(j));
      TotalPush(s.trips, x, TakenOn(cfg, j));
      TotalPush(s.trips, x, ServedBy(cfg, j));
    } else if !a.Queue? {
      TravelKeepsBalanced(cfg, s, a, j);
    }
  }

  lemma StepKeepsInv(cfg: Config, s: State, a: Action)
    requires Inv(cfg, s) && Enabled(cfg, s, a)
    ensures Inv(cfg, Apply(cfg, s, a))
  {
    StepKeepsLinked(cfg, s, a);
    forall j | 0 <= j < |s.counters| ensures Balanced(cfg, Apply(cfg, s, a), j) {
      StepKeepsBalanced(cfg, s, a, j);
    }
  }

  lemma {:induction false} RunKeepsInv(cfg: Config, s: State, acts: seq<Action>, t: State)
    requires Inv(cfg, s) && Leads(cfg, s, acts, t)
    ensures Inv(cfg, t)
    decreases |acts|
  {
    if acts != [] {
      StepKeepsInv(cfg, s, acts[0]);
      RunKeepsInv(cfg, Apply(cfg, s, acts[0]), acts[1..], t);
    }
  }

  lemma InitInv(cfg: Config)
    ensures Inv(cfg, Init(cfg))
  {
    forall j | 0 <= j < |cfg.targets| ensures Balanced(cfg, Init(cfg), j) {
    }
  }

  /** Each trip beside its request in the queue. */
  function Pairs(s: State): seq<(Trip, Q.Request)>
    requires |s.trips| == |s.queue.requests|
  {
    seq(|s.trips|, i requires 0 <= i < |s.trips| => (s.trips[i], s.queue.requests[i]))
  }

  /** A reservation whose request is still with the queue, or on its way to Acquire. */
  function WaitingOn(j: nat): ((Trip, Q.Request)) -> nat {
    (p: (Trip, Q.Request)) => if p.0.stage == Reserved(j) && !p.1.h.Returned? then 1 else 0
  }

  /** A reservation whose request the queue turned away. */
  function TurnedAwayOn(j: nat): ((Trip, Q.Request)) -> nat {
    (p: (Trip, Q.Request)) => if p.0.stage == Reserved(j) && p.1.h.Returned? then 1 else 0
  }

  function ReservedOn(j: nat): Trip -> nat {
    (x: Trip) => if x.stage == Reserved(j) then 1 else 0
  }

  /** Between Acquire and return, on whichever exit path. */
  function ServingOn(j: nat): Trip -> nat {
    (x: Trip) => if InService(x.stage) && x.stage.t == j then 1 else 0
  }

  lemma DistinctLaw(cfg: Config, s: State, j: nat)
    requires Inv(cfg, s) && PairwiseDistinct(cfg.targets) && j < |s.counters|
    ensures s.counters[j].pending == Total(s.trips, ReservedOn(j))
    ensures s.counters[j].active == Total(s.trips, ServingOn(j))
  {
    forall i | 0 <= i < |s.trips|
      ensures PickedOn(j)(s.trips[i]) == TakenOn(cfg, j)(s.trips[i]) + ReservedOn(j)(s.trips[i])
      ensures ServedBy(cfg, j)(s.trips[i]) == ServingOn(j)(s.trips[i])
    {
      var x := s.trips[i].stage;
      assert TripOk(cfg, x, s.queue.requests[i].h);
      if HasTarget(x) {
        SlotExists(cfg, x.t);
      }
    }
    assert Balanced(cfg, s, j);
    TotalSplit(s.trips, PickedOn(j), TakenOn(cfg, j), ReservedOn(j));
    TotalSame(s.trips, s.trips, ServedBy(cfg, j), ServingOn(j));
  }

  lemma ReservedSplit(s: State, j: nat)
    requires |s.trips| == |s.queue.requests|
    ensures Total(s.trips, ReservedOn(j)) == Total(Pairs(s), WaitingOn(j)) + Total(Pairs(s), TurnedAwayOn(j))
  {
    var either := (p: (Trip, Q.Request)) => ReservedOn(j)(p.0);
    TotalSame(s.trips, Pairs(s), ReservedOn(j), either);
    TotalSplit(Pairs(s), either, WaitingOn(j), TurnedAwayOn(j));
  }

  function SumActive(cs: seq<Connections>): int {
    if cs == [] then 0 else SumActive(cs[..|cs| - 1]) + cs[|cs| - 1].active
  }

  function ServedBelow(cfg: Config, n: nat): Trip -> nat {
    (x: Trip) => if InService(x.stage) && Slot(cfg, x.stage.t) < n then 1 else 0
  }

  lemma {:induction false} SumActiveIsServed(cfg: Config, s: State, n: nat)
    requires Inv(cfg, s) && n <= |s.counters|
    ensures SumActive(s.counters[..n]) == Total(s.trips, ServedBelow(cfg, n))
  {
    if n == 0 {
      TotalZero(s.trips, ServedBelow(cfg, 0));
    } else {
      SumActiveIsServed(cfg, s, n - 1);
      assert s.counters[..n][..n - 1] == s.counters[..n - 1];
      assert Balanced(cfg, s, n - 1);
      TotalSplit(s.trips, ServedBelow(cfg, n), ServedBelow(cfg, n - 1), ServedBy(cfg, n - 1));
    }
  }

  lemma ActiveBound(cfg: Config, s: State)
    requires Inv(cfg, s)
    ensures SumActive(s.counters) <= Total(s.queue.requests, Q.InNext) <= cfg.queue.maxConcurrent
  {
    var n := |s.counters|;
    assert s.counters[..n] == s.counters;
    SumActiveIsServed(cfg, s, n);
    TotalDominated(s.trips, s.queue.requests, ServedBelow(cfg, n), Q.InNext);
    TotalDominated(s.queue.requests, s.queue.requests, Q.InNext, Q.HoldsSlot);
  }

  /** For targets that are pairwise distinct upstreams, in every reachable state: a target's active
      count is its requests between Acquire and return; its pending count is its picks still
      waiting plus its picks turned away by the queue; and the active counts sum to no more than
      maxConcurrent. */
  lemma ConnectionAccounting(cfg: Config, acts: seq<Action>, s: State, j: nat)
    requires cfg.Valid() && Leads(cfg, Init(cfg), acts, s) && j < |cfg.targets|
    requires PairwiseDistinct(cfg.targets)
    ensures |s.counters| == |cfg.targets| && |s.trips| == |s.queue.requests|
    ensures s.counters[j].active == Total(s.trips, ServingOn(j))
    ensures s.counters[j].pending == Total(Pairs(s), WaitingOn(j)) + Total(Pairs(s), TurnedAwayOn(j)) >= 0
    ensures SumActive(s.counters) <= cfg.queue.maxConcurrent
  {
    InitInv(cfg);
    RunKeepsInv(cfg, Init(cfg), acts, s);
    DistinctLaw(cfg, s, j);
    ReservedSplit(s, j);
    ActiveBound(cfg, s);
  }

  lemma LostStaysLost(cfg: Config, s: State, a: Action, i: nat, j: nat)
    requires Linked(cfg, s) && Enabled(cfg, s, a) && i < |s.trips|
    requires s.trips[i].stage == Reserved(j) && s.queue.requests[i].h.Returned?
    ensures var t := Apply(cfg, s, a);
            |t.trips| == |t.queue.requests| && i < |t.trips| && t.trips[i] == s.trips[i] && t.queue.requests[i].h.Returned?
  {
  }

  /** A reservation lost to a 429 or 503 is never given back: the leaked share of a target's
      pending count does not fall. */
  lemma LostReservationsNeverFall(cfg: Config, s: State, a: Action, j: nat)
    requires Inv(cfg, s) && Enabled(cfg, s, a)
    ensures |Apply(cfg, s, a).trips| == |Apply(cfg, s, a).queue.requests|
    ensures Total(Pairs(s), TurnedAwayOn(j)) <= Total(Pairs(Apply(cfg, s, a)), TurnedAwayOn(j))
  {
    var t, n := Apply(cfg, s, a), |s.trips|;
    StepKeepsLinked(cfg, s, a);
    assert n <= |t.trips|;
    forall i | 0 <= i < n ensures TurnedAwayOn(j)(Pairs(s)[i]) <= TurnedAwayOn(j)(Pairs(t)[..n][i]) {
      if s.trips[i].stage == Reserved(j) && s.queue.requests[i].h.Returned? {
        LostStaysLost(cfg, s, a, i, j);
      }
    }
    TotalDominated(Pairs(s), Pairs(t)[..n], TurnedAwayOn(j), TurnedAwayOn(j));
    TotalPrefix(Pairs(t), n, TurnedAwayOn(j));
  }

  // ----- Runs built step by step -----

  lemma {:induction false} LeadsConcat(cfg: Config, s: State, first: seq<Action>, mid: State, second: seq<Action>, t: State)
    requires Leads(cfg, s, first, mid) && Leads(cfg, mid, second, t)
    ensures Leads(cfg, s, first + second, t)
    decreases |first|
  {
    if first == [] {
      assert first + second == second;
    } else {
      assert (first + second)[1..] == first[1..] + second;
      LeadsConcat(cfg, Apply(cfg, s, first[0]), first[1..], mid, second, t);
    }
  }

  // ----- The queue inside the proxy -----

  function QueueSteps(acts: seq<Action>): seq<Q.Action> {
    if acts == [] then []
    else (match acts[0]
          case Arrive(_, _) => [Q.Arrive]
          case Queue(q) => [q]
          case _ => []) + QueueSteps(acts[1..])
  }

  /** Every run of the proxy is, seen from the queue, a run of the queue: all that is proved of
      the queue's runs holds inside the proxy. */
  lemma {:induction false} ProjectsToQueue(cfg: Config, s: State, acts: seq<Action>, t: State)
    requires Leads(cfg, s, acts, t)
    ensures Q.Leads(cfg.queue, s.queue, QueueSteps(acts), t.queue)
    decreases |acts|
  {
    if acts != [] {
      var a := acts[0];
      ProjectsToQueue(cfg, Apply(cfg, s, a), acts[1..], t);
      var rest := QueueSteps(acts[1..]);
      if a.Arrive? || a.Queue? {
        var q := if a.Arrive? then Q.Arrive else a.step;
        assert QueueSteps(acts) == [q] + rest && ([q] + rest)[1..] == rest;
      } else {
        assert QueueSteps(acts) == rest;
      }
    }
  }
}
