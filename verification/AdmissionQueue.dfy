/** The admission queue of WithQueue (internal/proxy/queue.go) as a transition system.

    Every request is a handler plus an acquisition goroutine, each with its own program
    counter.  One action is one channel operation, one atomic add, one context or timer
    event, or one arm of a select; a select with several ready arms is a free choice. */
module AdmissionQueue {
  import opened Counting
  import opened Options

  /** Capacities after WithQueue has replaced non-positive settings. */
  datatype Config = Config(maxQueue: nat, maxConcurrent: nat) {
    predicate Valid() { maxQueue > 0 && maxConcurrent > 0 }
  }

  function Normalize(maxQueue: int, maxConcurrent: int): (cfg: Config)
    ensures cfg.Valid()
    ensures cfg.maxQueue == maxQueue || (maxQueue <= 0 && cfg.maxQueue == 1024)
    ensures cfg.maxConcurrent == maxConcurrent || (maxConcurrent <= 0 && cfg.maxConcurrent == 128)
  {
    Config(if maxQueue <= 0 then 1024 else maxQueue,
           if maxConcurrent <= 0 then 128 else maxConcurrent)
  }

  /** What the client gets: 429, 503 (with the message failQueue picks), or next's answer. */
  datatype Outcome = TooManyRequests | Unavailable(timedOut: bool) | Served

  /** The request context: live, cancelled by the client, or past its own deadline. */
  datatype Context = Live | Cancelled | Expired

  /** Where the handler is; the comment is the line it executes next. */
  datatype Handler =
    | AtDoor                 // 55: select on queueWaitCh
    | Admitted               // 65: add to queueDepth
    | Counted                // 80-94: contexts, grant channel, goroutine, timer
    | Waiting                // 98: select on context, timer, grant
    | GivingUp(out: Outcome)   // 101/108: cancelAcquire, then failQueue
    | Draining(out: Outcome)   // 71: deferred receive from queueWaitCh
    | Uncounting(out: Outcome) // 72: deferred subtraction from queueDepth
    | Granted                // 119: receive from queueWaitCh
    | Dequeued               // 120: subtract from queueDepth
    | Running                // 138: inside next.ServeHTTP
    | Releasing              // 125: deferred receive from activeSlotsCh
    | Closing                // 81: deferred cancelAcquire
    | Returned(out: Outcome)

  /** Where the acquisition goroutine is. */
  datatype Acquirer =
    | Unborn
    | Selecting              // 86: select on activeSlotsCh and acquireCtx
    | Sending                // 88: holds a slot, sends the grant
    | Sent                   // done, slot taken
    | Abandoned              // done, no slot

  datatype Request = Request(h: Handler, g: Acquirer, grants: nat, ctx: Context,
                             acquireDone: bool, timerFired: bool)

  datatype State = State(requests: seq<Request>, queueWait: nat, activeSlots: nat, queueDepth: int)

  datatype Action =
    | Arrive
    | Enter(i: nat)          // 55-62
    | CountUp(i: nat)        // 65
    | Spawn(i: nat)          // 80-94
    | TakeGrant(i: nat)      // 114
    | SeeCancel(i: nat)      // 99
    | SeeTimeout(i: nat)     // 106
    | GiveUp(i: nat)         // 101/108, 103/111
    | Drain(i: nat)          // 71
    | Uncount(i: nat)        // 72
    | Dequeue(i: nat)        // 119
    | CountDown(i: nat)      // 120
    | Finish(i: nat)         // 138 returns (or panics: the defers run either way)
    | Release(i: nat)        // 125
    | Close(i: nat)          // 81
    | TakeSlot(i: nat)       // 87
    | SendGrant(i: nat)      // 88
    | Abandon(i: nat)        // 89
    | ClientGone(i: nat, expired: bool)
    | Propagate(i: nat)      // reqCtx's end reaches its child acquireCtx
    | TimerFires(i: nat)

  function Fresh(): Request {
    Request(AtDoor, Unborn, 0, Live, false, false)
  }

  function Init(): State {
    State([], 0, 0, 0)
  }

  /** failQueue's choice of message; the status is 503 either way. */
  function FailQueue(ctx: Context): Outcome {
    Unavailable(ctx == Expired)
  }

  /** The request is at the program point the action belongs to. */
  predicate AtPoint(r: Request, a: Action) {
    match a
    case Arrive => false
    case Enter(_) => r.h.AtDoor?
    case CountUp(_) => r.h.Admitted?
    case Spawn(_) => r.h.Counted?
    case TakeGrant(_) => r.h.Waiting? && r.grants > 0
    case SeeCancel(_) => r.h.Waiting? && !r.ctx.Live?
    case SeeTimeout(_) => r.h.Waiting? && r.timerFired
    case GiveUp(_) => r.h.GivingUp?
    case Drain(_) => r.h.Draining?
    case Uncount(_) => r.h.Uncounting?
    case Dequeue(_) => r.h.Granted?
    case CountDown(_) => r.h.Dequeued?
    case Finish(_) => r.h.Running?
    case Release(_) => r.h.Releasing?
    case Close(_) => r.h.Closing?
    case TakeSlot(_) => r.g.Selecting?
    case SendGrant(_) => r.g.Sending? && r.grants < 1
    case Abandon(_) => r.g.Selecting? && r.acquireDone
    case ClientGone(_, _) => r.ctx.Live?
    case Propagate(_) => !r.ctx.Live? && !r.acquireDone
    case TimerFires(_) => r.h.Waiting? && !r.timerFired
  }

  /** The shared channel the action uses is ready: a receive finds a token, a send finds room.
      The send at 56 has a default arm and never waits. */
  predicate ChannelReady(cfg: Config, s: State, a: Action) {
    && (a.Drain? || a.Dequeue? ==> s.queueWait > 0)
    && (a.Release? ==> s.activeSlots > 0)
    && (a.TakeSlot? ==> s.activeSlots < cfg.maxConcurrent)
  }

  predicate Enabled(cfg: Config, s: State, a: Action) {
    a.Arrive? || (a.i < |s.requests| && AtPoint(s.requests[a.i], a) && ChannelReady(cfg, s, a))
  }

  /** What the action does to its own request; `full` tells Enter that queueWaitCh has no room. */
  function Advance(r: Request, full: bool, a: Action): Request
    requires AtPoint(r, a)
  {
    match a
    case Enter(_) => r.(h := if full then Returned(TooManyRequests) else Admitted)
    case CountUp(_) => r.(h := Counted)
    case Spawn(_) => r.(h := Waiting, g := Selecting)
    case TakeGrant(_) => r.(h := Granted, grants := r.grants - 1)
    case SeeCancel(_) => r.(h := GivingUp(FailQueue(r.ctx)))
    case SeeTimeout(_) => r.(h := GivingUp(FailQueue(Expired)))
    case GiveUp(_) => r.(h := Draining(r.h.out), acquireDone := true)
    case Drain(_) => r.(h := Uncounting(r.h.out))
    case Uncount(_) => r.(h := Returned(r.h.out))
    case Dequeue(_) => r.(h := Dequeued)
    case CountDown(_) => r.(h := Running)
    case Finish(_) => r.(h := Releasing)
    case Release(_) => r.(h := Closing)
    case Close(_) => r.(h := Returned(Served), acquireDone := true)
    case TakeSlot(_) => r.(g := Sending)
    case SendGrant(_) => r.(g := Sent, grants := r.grants + 1)
    case Abandon(_) => r.(g := Abandoned)
    case ClientGone(_, expired) => r.(ctx := if expired then Expired else Cancelled)
    case Propagate(_) => r.(acquireDone := true)
    case TimerFires(_) => r.(timerFired := true)
  }

  function TokenDelta(a: Action, full: bool): int {
    if a.Enter? && !full then 1 else if a.Drain? || a.Dequeue? then -1 else 0
  }

  function SlotDelta(a: Action): int {
    if a.TakeSlot? then 1 else if a.Release? then -1 else 0
  }

  function DepthDelta(a: Action): int {
    if a.CountUp? then 1 else if a.Uncount? || a.CountDown? then -1 else 0
  }

  predicate Full(cfg: Config, s: State) {
    s.queueWait >= cfg.maxQueue
  }

  function Apply(cfg: Config, s: State, a: Action): State
    requires Enabled(cfg, s, a)
  {
    if a.Arrive? then s.(requests := s.requests + [Fresh()]) else
    State(s.requests[a.i := Advance(s.requests[a.i], Full(cfg, s), a)],
          s.queueWait + TokenDelta(a, Full(cfg, s)),
          s.activeSlots + SlotDelta(a),
          s.queueDepth + DepthDelta(a))
  }

  // ----- What a request holds -----

  /** A token in queueWaitCh. */
  function HoldsToken(r: Request): nat {
    if r.h.Admitted? || r.h.Counted? || r.h.Waiting? || r.h.GivingUp? || r.h.Draining? || r.h.Granted? then 1 else 0
  }

  /** A unit of queueDepth. */
  function InDepth(r: Request): nat {
    if r.h.Counted? || r.h.Waiting? || r.h.GivingUp? || r.h.Draining? || r.h.Uncounting? || r.h.Granted? || r.h.Dequeued?
    then 1 else 0
  }

  predicate TookSlot(r: Request) {
    r.g.Sending? || r.g.Sent?
  }

  /** A token in activeSlotsCh. */
  function HoldsSlot(r: Request): nat {
    if TookSlot(r) && !r.h.Closing? && r.h != Returned(Served) then 1 else 0
  }

  /** Consumed its grant and has not given the slot back. */
  function Executing(r: Request): nat {
    if r.h.Granted? || r.h.Dequeued? || r.h.Running? || r.h.Releasing? then 1 else 0
  }

  /** A slot taken for a handler that is still waiting. */
  function PendingGrant(r: Request): nat {
    if r.h.Waiting? && TookSlot(r) then 1 else 0
  }

  predicate GaveUp(h: Handler) {
    h.GivingUp? || h.Draining? || h.Uncounting? || (h.Returned? && h.out.Unavailable?)
  }

  /** A slot taken for a handler that left on timeout or cancellation: nothing returns it. */
  function Orphan(r: Request): nat {
    if GaveUp(r.h) && TookSlot(r) then 1 else 0
  }

  function InNext(r: Request): nat {
    if r.h.Running? then 1 else 0
  }

  /** Let into the queue and not yet returned. */
  function Unreturned(r: Request): nat {
    if r.h.AtDoor? || r.h.Returned? then 0 else 1
  }

  /** Holding a slot but no longer a queue token. */
  function PastQueue(r: Request): nat {
    if r.h.Dequeued? || r.h.Running? || r.h.Releasing? then 1 else 0
  }

  /** Unreturned but holding neither a queue token nor a slot of its own. */
  function OffBooks(r: Request): nat {
    if r.h.Uncounting? || r.h.Closing? then 1 else 0
  }

  /** Token sent, depth not yet raised. */
  function NotYetCounted(r: Request): nat {
    if r.h.Admitted? then 1 else 0
  }

  /** Token received back, depth not yet lowered. */
  function NotYetUncounted(r: Request): nat {
    if r.h.Uncounting? || r.h.Dequeued? then 1 else 0
  }

  // ----- The inductive invariant -----

  predicate RequestOk(r: Request) {
    && (r.g.Unborn? <==> r.h.AtDoor? || r.h.Admitted? || r.h.Counted? || r.h == Returned(TooManyRequests))
    && (r.h.GivingUp? || r.h.Draining? || r.h.Uncounting? ==> r.h.out.Unavailable?)
    && (GaveUp(r.h) ==> if r.h.out.timedOut then r.ctx == Expired || r.timerFired else r.ctx == Cancelled)
    && (Executing(r) == 1 || r.h.Closing? || r.h == Returned(Served) ==> r.g.Sent? && r.grants == 0)
    && (r.h.Waiting? || GaveUp(r.h) ==> r.grants == if r.g.Sent? then 1 else 0)
    && (r.g.Unborn? ==> r.grants == 0)
    && (r.g.Abandoned? ==> r.acquireDone)
    && (r.h.Draining? || r.h.Uncounting? || (r.h.Returned? && r.h.out != TooManyRequests) ==> r.acquireDone)
    && (r.acquireDone ==> r.ctx != Live || r.h.Draining? || r.h.Uncounting? || r.h.Returned?)
  }

  predicate Inv(cfg: Config, s: State) {
    && (forall i :: 0 <= i < |s.requests| ==> RequestOk(s.requests[i]))
    && s.queueWait == Total(s.requests, HoldsToken) <= cfg.maxQueue
    && s.activeSlots == Total(s.requests, HoldsSlot) <= cfg.maxConcurrent
    && s.queueDepth == Total(s.requests, InDepth)
  }

  lemma StepTotal(cfg: Config, s: State, a: Action, weight: Request -> nat)
    requires Enabled(cfg, s, a)
    ensures var after := Total(Apply(cfg, s, a).requests, weight);
            if a.Arrive? then after == Total(s.requests, weight) + weight(Fresh())
            else after + weight(s.requests[a.i])
                 == Total(s.requests, weight) + weight(Advance(s.requests[a.i], Full(cfg, s), a))
  {
    if a.Arrive? {
      TotalPush(s.requests, Fresh(), weight);
    } else {
      TotalUpdate(s.requests, a.i, Advance(s.requests[a.i], Full(cfg, s), a), weight);
    }
  }

  lemma AdvanceKeepsRequest(r: Request, full: bool, a: Action)
    requires RequestOk(r) && AtPoint(r, a)
    ensures RequestOk(Advance(r, full, a))
  {
  }

  /** One request's share of each counter moves exactly as the counter does. */
  lemma AdvanceIsBooked(r: Request, full: bool, a: Action)
    requires RequestOk(r) && AtPoint(r, a)
    ensures HoldsToken(Advance(r, full, a)) == HoldsToken(r) + TokenDelta(a, full)
    ensures HoldsSlot(Advance(r, full, a)) == HoldsSlot(r) + SlotDelta(a)
    ensures InDepth(Advance(r, full, a)) == InDepth(r) + DepthDelta(a)
  {
  }

  lemma StepKeepsRequests(cfg: Config, s: State, a: Action)
    requires Inv(cfg, s) && Enabled(cfg, s, a)
    ensures forall i :: 0 <= i < |Apply(cfg, s, a).requests| ==> RequestOk(Apply(cfg, s, a).requests[i])
  {
    if !a.Arrive? {
      AdvanceKeepsRequest(s.requests[a.i], Full(cfg, s), a);
    }
  }

  /** The shared counters stay the totals of what the requests hold. */
  lemma StepIsBooked(cfg: Config, s: State, a: Action)
    requires Inv(cfg, s) && Enabled(cfg, s, a)
    ensures Apply(cfg, s, a).queueWait == Total(Apply(cfg, s, a).requests, HoldsToken)
    ensures Apply(cfg, s, a).activeSlots == Total(Apply(cfg, s, a).requests, HoldsSlot)
    ensures Apply(cfg, s, a).queueDepth == Total(Apply(cfg, s, a).requests, InDepth)
  {
    StepTotal(cfg, s, a, HoldsToken);
    StepTotal(cfg, s, a, HoldsSlot);
    StepTotal(cfg, s, a, InDepth);
    if !a.Arrive? {
      AdvanceIsBooked(s.requests[a.i], Full(cfg, s), a);
    }
  }

  lemma StepKeepsInv(cfg: Config, s: State, a: Action)
    requires Inv(cfg, s) && Enabled(cfg, s, a)
    ensures Inv(cfg, Apply(cfg, s, a))
  {
    StepKeepsRequests(cfg, s, a);
    StepIsBooked(cfg, s, a);
  }

  // ----- Runs -----

  /** The state after performing the actions in order, or None if one of them is not enabled. */
  function Exec(cfg: Config, s: State, acts: seq<Action>): Option<State>
    decreases |acts|
  {
    if acts == [] then Some(s)
    else if Enabled(cfg, s, acts[0]) then Exec(cfg, Apply(cfg, s, acts[0]), acts[1..])
    else None
  }

  predicate Leads(cfg: Config, s: State, acts: seq<Action>, t: State) {
    Exec(cfg, s, acts) == Some(t)
  }

  lemma {:induction false} RunKeepsInv(cfg: Config, s: State, acts: seq<Action>, t: State)
    requires Inv(cfg, s) && Leads(cfg, s, acts, t)
    ensures Inv(cfg, t)
    decreases |acts|
  {
    if acts != [] {
      StepKeepsInv(cfg, s, acts[0]);
      RunKeepsInv(cfg, Apply(cfg, s, acts[0]), acts[1..], t);
    }
  }

  lemma {:induction false} LeadsConcat(cfg: Config, s: State, first: seq<Action>, mid: State, second: seq<Action>, t: State)
    requires Leads(cfg, s, first, mid) && Leads(cfg, mid, second, t)
    ensures Leads(cfg, s, first + second, t)
    decreases |first|
  {
    if first == [] {
      assert first + second == second;
    } else {
      assert (first + second)[1..] == first[1..] + second;
      LeadsConcat(cfg, Apply(cfg, s, first[0]), first[1..], mid, second, t);
    }
  }

  /** In every interleaving of any number of requests: at most maxConcurrent are inside
      next.ServeHTTP, at most maxQueue hold a queue token, and every token in activeSlotsCh is
      accounted for by an executing request, a grant still to be consumed, or an orphan. */
  lemma AdmissionSafety(cfg: Config, acts: seq<Action>, s: State)
    requires cfg.Valid() && Leads(cfg, Init(), acts, s)
    ensures Total(s.requests, InNext) <= cfg.maxConcurrent
    ensures s.queueWait == Total(s.requests, HoldsToken) <= cfg.maxQueue
    ensures s.activeSlots
            == Total(s.requests, Executing) + Total(s.requests, PendingGrant) + Total(s.requests, Orphan)
            <= cfg.maxConcurrent
  {
    RunKeepsInv(cfg, Init(), acts, s);
    SlotLaw(cfg, s);
    TotalDominated(s.requests, s.requests, InNext, Executing);
  }

  lemma SlotLaw(cfg: Config, s: State)
    requires Inv(cfg, s)
    ensures s.activeSlots
            == Total(s.requests, Executing) + Total(s.requests, PendingGrant) + Total(s.requests, Orphan)
  {
    var waitingOrLost := r => PendingGrant(r) + Orphan(r);
    TotalSplit(s.requests, HoldsSlot, Executing, waitingOrLost);
    TotalSplit(s.requests, waitingOrLost, PendingGrant, Orphan);
  }

  /** Admitted requests that have not returned: the books hold maxQueue + maxConcurrent of them,
      plus every handler that has already given up what it held and has defers still to run. */
  lemma UnreturnedLaw(cfg: Config, acts: seq<Action>, s: State)
    requires cfg.Valid() && Leads(cfg, Init(), acts, s)
    ensures Total(s.requests, Unreturned)
            == s.queueWait + Total(s.requests, PastQueue) + Total(s.requests, OffBooks)
    ensures Total(s.requests, Unreturned) <= cfg.maxQueue + cfg.maxConcurrent + Total(s.requests, OffBooks)
  {
    RunKeepsInv(cfg, Init(), acts, s);
    SlotLaw(cfg, s);
    var pastOrOff := r => PastQueue(r) + OffBooks(r);
    TotalSplit(s.requests, Unreturned, HoldsToken, pastOrOff);
    TotalSplit(s.requests, pastOrOff, PastQueue, OffBooks);
    TotalDominated(s.requests, s.requests, PastQueue, Executing);
  }

  /** queueDepth trails the channel by exactly the requests between a channel operation and
      the atomic add that follows it; it is never negative. */
  lemma DepthLaw(cfg: Config, acts: seq<Action>, s: State)
    requires cfg.Valid() && Leads(cfg, Init(), acts, s)
    ensures s.queueDepth >= 0
    ensures s.queueDepth == s.queueWait - Total(s.requests, NotYetCounted) + Total(s.requests, NotYetUncounted)
  {
    RunKeepsInv(cfg, Init(), acts, s);
    var either := r => InDepth(r) + NotYetCounted(r);
    TotalSplit(s.requests, either, InDepth, NotYetCounted);
    TotalSplit(s.requests, either, HoldsToken, NotYetUncounted);
  }
}
