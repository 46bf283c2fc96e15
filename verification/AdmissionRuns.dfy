/** What every run of the admission queue keeps, loses and reaches. */
module AdmissionRuns {
  import opened Counting
  import opened AdmissionQueue

  // ----- Orphaned slots -----

  /** The second half of a lost race: the handler leaves a request whose goroutine already has
      its slot, or the goroutine takes a slot for a handler that already left. */
  predicate LosesSlotOf(r: Request, a: Action) {
    ((a.SeeCancel? || a.SeeTimeout?) && TookSlot(r)) || (a.TakeSlot? && GaveUp(r.h))
  }

  predicate LosesSlot(s: State, a: Action)
    requires !a.Arrive? ==> a.i < |s.requests|
  {
    !a.Arrive? && LosesSlotOf(s.requests[a.i], a)
  }

  lemma OrphanAdvance(r: Request, full: bool, a: Action)
    requires RequestOk(r) && AtPoint(r, a)
    ensures Orphan(Advance(r, full, a)) == Orphan(r) + if LosesSlotOf(r, a) then 1 else 0
  {
  }

  /** The orphan count changes by exactly one, upwards, on exactly the slot-losing steps. */
  lemma OrphanStep(cfg: Config, s: State, a: Action)
    requires Inv(cfg, s) && Enabled(cfg, s, a)
    ensures Total(Apply(cfg, s, a).requests, Orphan)
            == Total(s.requests, Orphan) + if LosesSlot(s, a) then 1 else 0
  {
    StepTotal(cfg, s, a, Orphan);
    if !a.Arrive? {
      OrphanAdvance(s.requests[a.i], Full(cfg, s), a);
    }
  }

  lemma {:induction false} OrphansNeverFall(cfg: Config, s: State, acts: seq<Action>, t: State)
    requires Inv(cfg, s) && Leads(cfg, s, acts, t)
    ensures Total(s.requests, Orphan) <= Total(t.requests, Orphan) <= cfg.maxConcurrent
    decreases |acts|
  {
    if acts == [] {
      SlotLaw(cfg, s);
    } else {
      OrphanStep(cfg, s, acts[0]);
      StepKeepsInv(cfg, s, acts[0]);
      OrphansNeverFall(cfg, Apply(cfg, s, acts[0]), acts[1..], t);
    }
  }

  /** The handler has consumed a grant. */
  predicate GotService(h: Handler) {
    h.Granted? || h.Dequeued? || h.Running? || h.Releasing? || h.Closing? || h == Returned(Served)
  }

  predicate ServedAt(s: State, i: nat) {
    i < |s.requests| && GotService(s.requests[i].h)
  }

  lemma WedgedStepGrantsNothing(cfg: Config, s: State, a: Action, i: nat)
    requires Inv(cfg, s) && Enabled(cfg, s, a) && Total(s.requests, Orphan) == cfg.maxConcurrent
    requires ServedAt(Apply(cfg, s, a), i)
    ensures ServedAt(s, i)
  {
    if a.TakeGrant? {
      SlotLaw(cfg, s);
      TotalAtLeast(s.requests, a.i, PendingGrant);
    }
  }

  /** Once every slot is orphaned, nobody is granted service again, in any continuation. */
  lemma {:induction false} WedgeIsPermanent(cfg: Config, s: State, acts: seq<Action>, t: State, i: nat)
    requires Inv(cfg, s) && Leads(cfg, s, acts, t)
    requires Total(s.requests, Orphan) == cfg.maxConcurrent
    requires ServedAt(t, i)
    ensures ServedAt(s, i)
    decreases |acts|
  {
    if acts != [] {
      var s' := Apply(cfg, s, acts[0]);
      OrphanStep(cfg, s, acts[0]);
      StepKeepsInv(cfg, s, acts[0]);
      OrphansNeverFall(cfg, s', acts[1..], t);
      WedgeIsPermanent(cfg, s', acts[1..], t, i);
      WedgedStepGrantsNothing(cfg, s, acts[0], i);
    }
  }

  // ----- Progress -----

  function HandlerRank(h: Handler): nat {
    match h
    case AtDoor => 12
    case Admitted => 11
    case Counted => 10
    case Waiting => 9
    case Granted => 8
    case Dequeued => 7
    case Running => 6
    case Releasing => 5
    case Closing => 4
    case GivingUp(_) => 8
    case Draining(_) => 7
    case Uncounting(_) => 6
    case Returned(_) => 0
  }

  function AcquirerRank(g: Acquirer): nat {
    match g
    case Unborn => 3
    case Selecting => 2
    case Sending => 1
    case Sent => 0
    case Abandoned => 0
  }

  function Rank(r: Request): nat {
    HandlerRank(r.h) + AcquirerRank(r.g)
    + (if r.ctx == Live then 1 else 0) + (if r.acquireDone then 0 else 1) + (if r.timerFired then 0 else 1)
  }

  lemma AdvanceLowersRank(r: Request, full: bool, a: Action)
    requires RequestOk(r) && AtPoint(r, a)
    ensures Rank(Advance(r, full, a)) < Rank(r)
  {
  }

  /** Every step but an arrival strictly lowers the summed rank; an arrival adds 18. */
  lemma StepLowersRank(cfg: Config, s: State, a: Action)
    requires Inv(cfg, s) && Enabled(cfg, s, a)
    ensures Inv(cfg, Apply(cfg, s, a))
    ensures var after := Apply(cfg, s, a).requests;
            if a.Arrive? then |after| == |s.requests| + 1 && Total(after, Rank) == Total(s.requests, Rank) + 18
            else |after| == |s.requests| && Total(after, Rank) < Total(s.requests, Rank)
  {
    StepKeepsInv(cfg, s, a);
    StepTotal(cfg, s, a, Rank);
    if !a.Arrive? {
      AdvanceLowersRank(s.requests[a.i], Full(cfg, s), a);
    }
  }

  lemma {:induction false} RunLength(cfg: Config, s: State, acts: seq<Action>, t: State)
    requires Inv(cfg, s) && Leads(cfg, s, acts, t)
    ensures |s.requests| <= |t.requests|
    ensures |acts| + Total(t.requests, Rank) <= Total(s.requests, Rank) + 19 * (|t.requests| - |s.requests|)
    decreases |acts|
  {
    if acts != [] {
      StepLowersRank(cfg, s, acts[0]);
      RunLength(cfg, Apply(cfg, s, acts[0]), acts[1..], t);
    }
  }

  /** Handler returned and goroutine gone. */
  predicate Finished(r: Request) {
    r.h.Returned? && !r.g.Selecting? && !r.g.Sending?
  }

  /** An action of request i's own handler, goroutine or timer that moves it on. */
  function NextFor(s: State, i: nat): Action
    requires i < |s.requests| && !Finished(s.requests[i])
  {
    var r := s.requests[i];
    match r.h
    case AtDoor => Enter(i)
    case Admitted => CountUp(i)
    case Counted => Spawn(i)
    case Waiting =>
      if r.g.Sending? then SendGrant(i)
      else if r.g.Sent? then TakeGrant(i)
      else if r.timerFired then SeeTimeout(i) else TimerFires(i)
    case GivingUp(_) => GiveUp(i)
    case Draining(_) => Drain(i)
    case Uncounting(_) => Uncount(i)
    case Granted => Dequeue(i)
    case Dequeued => CountDown(i)
    case Running => Finish(i)
    case Releasing => Release(i)
    case Closing => Close(i)
    case Returned(_) => if r.g.Sending? then SendGrant(i) else Abandon(i)
  }

  /** The receives at 71, 119 and 125 and the send at 88 find their channel ready; a goroutine whose
      handler has returned can always leave its select; and the end of the request's context can
      always reach the goroutine's. */
  lemma NothingBlocks(cfg: Config, acts: seq<Action>, s: State, i: nat)
    requires cfg.Valid() && Leads(cfg, Init(), acts, s) && i < |s.requests|
    ensures var r := s.requests[i];
            && (r.h.Draining? || r.h.Granted? ==> s.queueWait > 0)
            && (r.h.Releasing? ==> s.activeSlots > 0)
            && (r.g.Sending? ==> r.grants == 0)
            && (r.h.Returned? && r.g.Selecting? ==> Enabled(cfg, s, Abandon(i)))
            && (r.ctx != Live && !r.acquireDone ==> Enabled(cfg, s, Propagate(i)))
  {
    RunKeepsInv(cfg, Init(), acts, s);
    TotalAtLeast(s.requests, i, HoldsToken);
    TotalAtLeast(s.requests, i, HoldsSlot);
  }

  lemma NextIsEnabled(cfg: Config, s: State, i: nat)
    requires Inv(cfg, s) && i < |s.requests| && !Finished(s.requests[i])
    ensures var a := NextFor(s, i); Enabled(cfg, s, a) && !a.Arrive? && a.i == i && !LosesSlot(s, a)
  {
    TotalAtLeast(s.requests, i, HoldsToken);
    TotalAtLeast(s.requests, i, HoldsSlot);
  }

  predicate AllFinished(s: State) {
    forall i :: 0 <= i < |s.requests| ==> Finished(s.requests[i])
  }

  lemma StepKeepsReturned(cfg: Config, s: State, a: Action, i: nat)
    requires Enabled(cfg, s, a) && i < |s.requests| && s.requests[i].h.Returned?
    ensures i < |Apply(cfg, s, a).requests| && Apply(cfg, s, a).requests[i].h == s.requests[i].h
  {
  }

  lemma {:induction false} OutcomeIsFinal(cfg: Config, s: State, acts: seq<Action>, t: State, i: nat)
    requires Leads(cfg, s, acts, t) && i < |s.requests| && s.requests[i].h.Returned?
    ensures i < |t.requests| && t.requests[i].h == s.requests[i].h
    decreases |acts|
  {
    if acts != [] {
      StepKeepsReturned(cfg, s, acts[0], i);
      OutcomeIsFinal(cfg, Apply(cfg, s, acts[0]), acts[1..], t, i);
    }
  }

  /** Every request is answered exactly once.  A run over n requests has at most 19n steps; it
      can only stop when every handler has returned and every goroutine is gone; and what a
      handler has returned never changes. */
  lemma EveryRequestAnswered(cfg: Config, acts: seq<Action>, s: State)
    requires cfg.Valid() && Leads(cfg, Init(), acts, s)
    ensures |acts| <= 19 * |s.requests|
    ensures (forall a :: Enabled(cfg, s, a) ==> a.Arrive?) ==> AllFinished(s)
    ensures forall more, t, i ::
              Leads(cfg, s, more, t) && 0 <= i < |s.requests| && s.requests[i].h.Returned?
              ==> i < |t.requests| && t.requests[i].h == s.requests[i].h
  {
    RunKeepsInv(cfg, Init(), acts, s);
    RunLength(cfg, Init(), acts, s);
    if forall a :: Enabled(cfg, s, a) ==> a.Arrive? {
      forall i | 0 <= i < |s.requests| ensures Finished(s.requests[i]) {
        if !Finished(s.requests[i]) {
          NextIsEnabled(cfg, s, i);
          assert false;
        }
      }
    }
    forall more, t, i | Leads(cfg, s, more, t) && 0 <= i < |s.requests| && s.requests[i].h.Returned?
      ensures i < |t.requests| && t.requests[i].h == s.requests[i].h
    {
      OutcomeIsFinal(cfg, s, more, t, i);
    }
  }

  /** Why a client gets each answer: 503 only after its context ended or its timer fired, and
      200-side service only with a slot that has been given back. */
  lemma OutcomeReasons(cfg: Config, acts: seq<Action>, s: State, i: nat)
    requires cfg.Valid() && Leads(cfg, Init(), acts, s) && i < |s.requests| && s.requests[i].h.Returned?
    ensures var r := s.requests[i];
            match r.h.out
            case TooManyRequests => r.g == Unborn
            case Unavailable(true) => r.ctx == Expired || r.timerFired
            case Unavailable(false) => r.ctx == Cancelled
            case Served => r.g == Sent && r.grants == 0 && HoldsSlot(r) == 0
  {
    RunKeepsInv(cfg, Init(), acts, s);
  }

  /** Letting every request run out, choosing at each turn an action that loses no slot. */
  lemma {:induction false} Quiesce(cfg: Config, s: State) returns (acts: seq<Action>, t: State)
    requires Inv(cfg, s)
    ensures Leads(cfg, s, acts, t) && Inv(cfg, t) && AllFinished(t)
    ensures |t.requests| == |s.requests| && Total(t.requests, Orphan) == Total(s.requests, Orphan)
    decreases Total(s.requests, Rank)
  {
    if AllFinished(s) {
      acts, t := [], s;
    } else {
      var i :| 0 <= i < |s.requests| && !Finished(s.requests[i]);
      NextIsEnabled(cfg, s, i);
      var a := NextFor(s, i);
      OrphanStep(cfg, s, a);
      StepLowersRank(cfg, s, a);
      var rest;
      rest, t := Quiesce(cfg, Apply(cfg, s, a));
      acts := [a] + rest;
      assert acts[1..] == rest;
    }
  }

  // ----- Runs built step by step -----

  lemma Extend(cfg: Config, s: State, acts: seq<Action>, t: State, a: Action) returns (acts': seq<Action>, t': State)
    requires Leads(cfg, s, acts, t) && Enabled(cfg, t, a)
    ensures acts' == acts + [a] && t' == Apply(cfg, t, a) && Leads(cfg, s, acts', t')
  {
    t' := Apply(cfg, t, a);
    assert Leads(cfg, t, [a], t') by { assert [a][1..] == []; }
    LeadsConcat(cfg, s, acts, t, [a], t');
    acts' := acts + [a];
  }

  /** s with one more request r, and the shared counters moved by q, k and d. */
  function With(s: State, r: Request, q: nat, k: nat, d: nat): State {
    State(s.requests + [r], s.queueWait + q, s.activeSlots + k, s.queueDepth + d)
  }

  /** A newcomer that reaches the select at 98 with its goroutine just started. */
  lemma Join(cfg: Config, s: State) returns (acts: seq<Action>, t: State)
    requires s.queueWait < cfg.maxQueue
    ensures t == With(s, Request(Waiting, Selecting, 0, Live, false, false), 1, 0, 1) && Leads(cfg, s, acts, t)
  {
    var n := |s.requests|;
    acts, t := Extend(cfg, s, [], s, Arrive);
    assert t == With(s, Fresh(), 0, 0, 0);
    acts, t := Extend(cfg, s, acts, t, Enter(n));
    assert t == With(s, Fresh().(h := Admitted), 1, 0, 0);
    acts, t := Extend(cfg, s, acts, t, CountUp(n));
    assert t == With(s, Fresh().(h := Counted), 1, 0, 1);
    acts, t := Extend(cfg, s, acts, t, Spawn(n));
  }

  /** The same newcomer after its goroutine has taken a slot. */
  lemma JoinWithSlot(cfg: Config, s: State) returns (acts: seq<Action>, t: State)
    requires s.queueWait < cfg.maxQueue && s.activeSlots < cfg.maxConcurrent
    ensures t == With(s, Request(Waiting, Sent, 1, Live, false, false), 1, 1, 1) && Leads(cfg, s, acts, t)
  {
    var n := |s.requests|;
    acts, t := Join(cfg, s);
    acts, t := Extend(cfg, s, acts, t, TakeSlot(n));
    assert t == With(s, Request(Waiting, Sending, 0, Live, false, false), 1, 1, 1);
    acts, t := Extend(cfg, s, acts, t, SendGrant(n));
  }

  /** A waiting newcomer's timer fires and it starts to leave. */
  lemma GivesUp(cfg: Config, s: State, g: Acquirer, grants: nat, k: nat) returns (acts: seq<Action>, t: State)
    ensures var s0 := With(s, Request(Waiting, g, grants, Live, false, false), 1, k, 1);
            Leads(cfg, s0, acts, t)
            && t == With(s, Request(GivingUp(Unavailable(true)), g, grants, Live, false, true), 1, k, 1)
  {
    var n := |s.requests|;
    var s0 := With(s, Request(Waiting, g, grants, Live, false, false), 1, k, 1);
    acts, t := Extend(cfg, s0, [], s0, TimerFires(n));
    assert t == With(s, Request(Waiting, g, grants, Live, false, true), 1, k, 1);
    acts, t := Extend(cfg, s0, acts, t, SeeTimeout(n));
  }

  /** It gives its queue token back; line 72 is still to run. */
  lemma TimeOut(cfg: Config, s: State, g: Acquirer, grants: nat, k: nat) returns (acts: seq<Action>, t: State)
    ensures var s0 := With(s, Request(Waiting, g, grants, Live, false, false), 1, k, 1);
            Leads(cfg, s0, acts, t)
            && t == With(s, Request(Uncounting(Unavailable(true)), g, grants, Live, true, true), 0, k, 1)
  {
    var n := |s.requests|;
    var s0 := With(s, Request(Waiting, g, grants, Live, false, false), 1, k, 1);
    acts, t := GivesUp(cfg, s, g, grants, k);
    acts, t := Extend(cfg, s0, acts, t, GiveUp(n));
    assert t == With(s, Request(Draining(Unavailable(true)), g, grants, Live, true, true), 1, k, 1);
    acts, t := Extend(cfg, s0, acts, t, Drain(n));
  }

  /** The bound "at most maxQueue + maxConcurrent admitted requests are unreturned" fails for
      every configuration: any number of handlers can stand between lines 71 and 72.  Each is
      still counted in queueDepth, so the depth has no upper bound either. */
  lemma {:induction false} UnreturnedIsUnbounded(cfg: Config, n: nat) returns (acts: seq<Action>, s: State)
    requires cfg.Valid()
    ensures Leads(cfg, Init(), acts, s)
    ensures Total(s.requests, Unreturned) == n == s.queueDepth && s.queueWait == 0 && s.activeSlots == 0
  {
    if n == 0 {
      acts, s := [], Init();
    } else {
      var before, mid := UnreturnedIsUnbounded(cfg, n - 1);
      var join, waiting := Join(cfg, mid);
      var leave, t := TimeOut(cfg, mid, Selecting, 0, 0);
      LeadsConcat(cfg, Init(), before, mid, join, waiting);
      LeadsConcat(cfg, Init(), before + join, waiting, leave, t);
      TotalPush(mid.requests, t.requests[|mid.requests|], Unreturned);
      acts, s := before + join + leave, t;
    }
  }

  /** Under every configuration, any number of slots up to all of them can be orphaned. */
  lemma {:induction false} WedgeIsReachable(cfg: Config, n: nat) returns (acts: seq<Action>, s: State)
    requires cfg.Valid() && n <= cfg.maxConcurrent
    ensures Leads(cfg, Init(), acts, s)
    ensures Total(s.requests, Orphan) == n == s.activeSlots && s.queueWait == 0
  {
    if n == 0 {
      acts, s := [], Init();
    } else {
      var before, mid := WedgeIsReachable(cfg, n - 1);
      var join, waiting := JoinWithSlot(cfg, mid);
      var leave, t := TimeOut(cfg, mid, Sent, 1, 1);
      LeadsConcat(cfg, Init(), before, mid, join, waiting);
      LeadsConcat(cfg, Init(), before + join, waiting, leave, t);
      TotalPush(mid.requests, t.requests[|mid.requests|], Orphan);
      acts, s := before + join + leave, t;
    }
  }

  // ----- Every answer happens -----

  /** A newcomer whose client goes away while it waits. */
  lemma Cancels(cfg: Config, s: State) returns (acts: seq<Action>, t: State)
    requires s.queueWait < cfg.maxQueue
    ensures Leads(cfg, s, acts, t)
    ensures t == With(s, Request(GivingUp(Unavailable(false)), Selecting, 0, Cancelled, false, false), 1, 0, 1)
  {
    var n := |s.requests|;
    acts, t := Join(cfg, s);
    acts, t := Extend(cfg, s, acts, t, ClientGone(n, false));
    assert t == With(s, Request(Waiting, Selecting, 0, Cancelled, false, false), 1, 0, 1);
    acts, t := Extend(cfg, s, acts, t, SeeCancel(n));
  }

  /** n newcomers wait in the queue. */
  lemma {:induction false} Fills(cfg: Config, n: nat) returns (acts: seq<Action>, s: State)
    requires n <= cfg.maxQueue
    ensures Leads(cfg, Init(), acts, s) && s.queueWait == n
  {
    if n == 0 {
      acts, s := [], Init();
    } else {
      var before, mid := Fills(cfg, n - 1);
      var join, t := Join(cfg, mid);
      LeadsConcat(cfg, Init(), before, mid, join, t);
      acts, s := before + join, t;
    }
  }

  /** A newcomer at a full queue. */
  lemma IsRejected(cfg: Config) returns (acts: seq<Action>, s: State, i: nat)
    ensures Leads(cfg, Init(), acts, s) && i < |s.requests| && s.requests[i].h == Returned(TooManyRequests)
  {
    var mid;
    acts, mid := Fills(cfg, cfg.maxQueue);
    i := |mid.requests|;
    acts, s := Extend(cfg, Init(), acts, mid, Arrive);
    assert s == With(mid, Fresh(), 0, 0, 0);
    acts, s := Extend(cfg, Init(), acts, s, Enter(i));
  }

  /** A handler on its way to an answer other than 429. */
  predicate HeadsFor(h: Handler, out: Outcome) {
    if out == Served then GotService(h) else GaveUp(h) && h.out == out
  }

  /** Whatever happens, it keeps that way. */
  lemma StepKeepsHeading(cfg: Config, s: State, a: Action, i: nat, out: Outcome)
    requires Enabled(cfg, s, a) && i < |s.requests| && HeadsFor(s.requests[i].h, out) && out != TooManyRequests
    ensures i < |Apply(cfg, s, a).requests| && HeadsFor(Apply(cfg, s, a).requests[i].h, out)
  {
  }

  lemma {:induction false} RunKeepsHeading(cfg: Config, s: State, acts: seq<Action>, t: State, i: nat, out: Outcome)
    requires Leads(cfg, s, acts, t) && i < |s.requests| && HeadsFor(s.requests[i].h, out) && out != TooManyRequests
    ensures i < |t.requests| && HeadsFor(t.requests[i].h, out)
    decreases |acts|
  {
    if acts != [] {
      StepKeepsHeading(cfg, s, acts[0], i, out);
      RunKeepsHeading(cfg, Apply(cfg, s, acts[0]), acts[1..], t, i, out);
    }
  }

  lemma Arrives(cfg: Config, before: seq<Action>, s: State, i: nat, out: Outcome) returns (acts: seq<Action>, t: State)
    requires cfg.Valid() && Leads(cfg, Init(), before, s) && i < |s.requests|
    requires HeadsFor(s.requests[i].h, out) && out != TooManyRequests
    ensures Leads(cfg, Init(), acts, t) && i < |t.requests| && t.requests[i].h == Returned(out)
  {
    RunKeepsInv(cfg, Init(), before, s);
    var rest;
    rest, t := Quiesce(cfg, s);
    RunKeepsHeading(cfg, s, rest, t, i, out);
    LeadsConcat(cfg, Init(), before, s, rest, t);
    acts := before + rest;
    assert Finished(t.requests[i]);
  }

  /** Under every configuration each of the four answers happens: 429, either 503, and service. */
  lemma EveryAnswerHappens(cfg: Config, out: Outcome) returns (acts: seq<Action>, s: State, i: nat)
    requires cfg.Valid()
    ensures Leads(cfg, Init(), acts, s) && i < |s.requests| && s.requests[i].h == Returned(out)
  {
    i := 0;
    match out
    case TooManyRequests =>
      acts, s, i := IsRejected(cfg);
    case Served =>
      acts, s := ServeNewcomer(cfg, Init());
      acts, s := Arrives(cfg, acts, s, 0, Served);
    case Unavailable(true) =>
      var waiting;
      acts, waiting := Join(cfg, Init());
      var leave;
      leave, s := GivesUp(cfg, Init(), Selecting, 0, 0);
      LeadsConcat(cfg, Init(), acts, waiting, leave, s);
      acts, s := Arrives(cfg, acts + leave, s, 0, out);
    case Unavailable(false) =>
      acts, s := Cancels(cfg, Init());
      acts, s := Arrives(cfg, acts, s, 0, out);
  }

  // ----- Who can still be served -----

  /** A newcomer on an idle queue with a free slot can be served. */
  lemma ServeNewcomer(cfg: Config, s: State) returns (acts: seq<Action>, t: State)
    requires s.queueWait < cfg.maxQueue && s.activeSlots < cfg.maxConcurrent
    ensures Leads(cfg, s, acts, t) && ServedAt(t, |s.requests|)
  {
    acts, t := JoinWithSlot(cfg, s);
    acts, t := Extend(cfg, s, acts, t, TakeGrant(|s.requests|));
  }

  /** Some continuation serves a request that has not arrived yet. */
  ghost predicate CanServeNewcomers(cfg: Config, s: State) {
    exists acts, t, i :: Leads(cfg, s, acts, t) && i >= |s.requests| && ServedAt(t, i)
  }

  /** The limiter can still serve newcomers if and only if some slot is not orphaned. */
  lemma ServiceIffSlotLeft(cfg: Config, acts: seq<Action>, s: State)
    requires cfg.Valid() && Leads(cfg, Init(), acts, s)
    ensures CanServeNewcomers(cfg, s) <==> Total(s.requests, Orphan) < cfg.maxConcurrent
  {
    RunKeepsInv(cfg, Init(), acts, s);
    SlotLaw(cfg, s);
    if Total(s.requests, Orphan) < cfg.maxConcurrent {
      var quiet, t := Quiesce(cfg, s);
      IdleHoldsOnlyOrphans(cfg, t);
      var serve, u := ServeNewcomer(cfg, t);
      LeadsConcat(cfg, s, quiet, t, serve, u);
      assert ServedAt(u, |s.requests|);
    } else if CanServeNewcomers(cfg, s) {
      var more, t, i :| Leads(cfg, s, more, t) && i >= |s.requests| && ServedAt(t, i);
      WedgeIsPermanent(cfg, s, more, t, i);
    }
  }

  lemma IdleHoldsOnlyOrphans(cfg: Config, s: State)
    requires Inv(cfg, s) && AllFinished(s)
    ensures s.queueWait == 0 && s.queueDepth == 0 && s.activeSlots == Total(s.requests, Orphan)
  {
    SlotLaw(cfg, s);
    TotalZero(s.requests, HoldsToken);
    TotalZero(s.requests, InDepth);
    TotalZero(s.requests, Executing);
    TotalZero(s.requests, PendingGrant);
  }
}
