/** The handler that WithQueue returns, over the variables its closure shares. */
module Gate {
  import opened AdmissionQueue
  import opened AdmissionRuns

  /** A step taken by request i's own handler. */
  predicate ByHandler(i: nat, a: Action) {
    && !a.Arrive? && a.i == i
    && !a.TakeSlot? && !a.SendGrant? && !a.Abandon? && !a.ClientGone? && !a.Propagate? && !a.TimerFires?
  }

  /** An arm of the select at line 98 is ready. */
  predicate ArmReady(r: Request) {
    r.grants > 0 || r.timerFired || r.ctx != Live
  }

  class Gate {
    const cfg: Config
    var queueWait: nat         // tokens in queueWaitCh
    var activeSlots: nat       // tokens in activeSlotsCh
    var queueDepth: int
    var requests: seq<Request> // per-call variables: pc, grant channel, contexts, timer
    ghost var trace: seq<Action>

    ghost function View(): State
      reads this
    {
      State(requests, queueWait, activeSlots, queueDepth)
    }

    ghost predicate Valid()
      reads this
    {
      cfg.Valid() && Leads(cfg, Init(), trace, View())
    }

    /** Request i is waiting to execute the given line. */
    ghost predicate AtLine(i: nat, h: Handler)
      reads this
    {
      Valid() && i < |requests| && requests[i].h == h
    }

    constructor (maxQueue: int, maxConcurrent: int)
      ensures Valid() && trace == [] && View() == Init()
      ensures cfg == Normalize(maxQueue, maxConcurrent)
    {
      cfg := Normalize(maxQueue, maxConcurrent);
      queueWait, activeSlots, queueDepth, requests, trace := 0, 0, 0, [], [];
    }

    /** Records that the move from `before` to the present was the action a. */
    ghost method Commit(before: State, a: Action)
      requires cfg.Valid() && Leads(cfg, Init(), trace, before)
      requires Enabled(cfg, before, a) && View() == Apply(cfg, before, a)
      modifies this`trace
      ensures Valid() && trace == old(trace) + [a]
    {
      var acts, t := Extend(cfg, Init(), trace, before, a);
      trace := acts;
    }

    /** A step of another participant: request i's handler stays where it is. */
    method Other(i: nat, a: Action)
      requires Valid() && i < |requests| && Enabled(cfg, View(), a) && !ByHandler(i, a)
      modifies this
      ensures AtLine(i, old(requests[i].h)) && old(trace) <= trace
      ensures ArmReady(old(requests[i])) ==> ArmReady(requests[i])
    {
      ghost var before := View();
      var s := Apply(cfg, State(requests, queueWait, activeSlots, queueDepth), a);
      requests, queueWait, activeSlots, queueDepth := s.requests, s.queueWait, s.activeSlots, s.queueDepth;
      Commit(before, a);
    }

    /** Other handlers, the goroutines, the clients and the timers take the given steps, as far
        as they can. */
    method Interfere(i: nat, acts: seq<Action>)
      requires Valid() && i < |requests|
      modifies this
      ensures AtLine(i, old(requests[i].h)) && old(trace) <= trace
      ensures ArmReady(old(requests[i])) ==> ArmReady(requests[i])
    {
      for k := 0 to |acts|
        invariant AtLine(i, old(requests[i].h)) && old(trace) <= trace
        invariant ArmReady(old(requests[i])) ==> ArmReady(requests[i])
      {
        if Enabled(cfg, State(requests, queueWait, activeSlots, queueDepth), acts[k]) && !ByHandler(i, acts[k]) {
          Other(i, acts[k]);
        }
      }
    }

    method MoveTo(i: nat, h: Handler)
      requires i < |requests|
      modifies this`requests
      ensures requests == old(requests)[i := old(requests)[i].(h := h)]
    {
      requests := requests[i := requests[i].(h := h)];
    }

    /** A call begins. */
    method Arrive() returns (i: nat)
      requires Valid()
      modifies this
      ensures AtLine(i, AtDoor) && i == |old(requests)| && trace == old(trace) + [AdmissionQueue.Arrive]
    {
      ghost var before := View();
      i := |requests|;
      requests := requests + [Fresh()];
      Commit(before, AdmissionQueue.Arrive);
    }

    /** Lines 55-62: try to send on queueWaitCh, else answer 429. */
    method TryEnter(i: nat) returns (admitted: bool)
      requires AtLine(i, AtDoor)
      modifies this
      ensures admitted == (old(queueWait) < cfg.maxQueue)
      ensures AtLine(i, if admitted then Admitted else Returned(TooManyRequests))
      ensures trace == old(trace) + [Enter(i)]
    {
      ghost var before := View();
      admitted := queueWait < cfg.maxQueue;
      if admitted {
        queueWait := queueWait + 1;
        MoveTo(i, Admitted);
      } else {
        MoveTo(i, Returned(TooManyRequests));
      }
      Commit(before, Enter(i));
    }

    /** Line 65: count the request. */
    method CountUp(i: nat)
      requires AtLine(i, Admitted)
      modifies this
      ensures AtLine(i, Counted) && old(trace) <= trace
    {
      ghost var before := View();
      queueDepth := queueDepth + 1;
      MoveTo(i, Counted);
      Commit(before, AdmissionQueue.CountUp(i));
    }

    /** Lines 80-95: start the request's goroutine and its timer. */
    method Spawn(i: nat)
      requires AtLine(i, Counted)
      modifies this
      ensures AtLine(i, Waiting) && old(trace) <= trace
    {
      ghost var before := View();
      requests := requests[i := requests[i].(h := Waiting, g := Selecting)];
      Commit(before, AdmissionQueue.Spawn(i));
    }

    /** Line 98: block until an arm of the select is ready; the timer is the arm of last resort. */
    method Await(i: nat, gap: seq<Action>)
      requires AtLine(i, Waiting)
      modifies this
      ensures AtLine(i, Waiting) && old(trace) <= trace
      ensures ArmReady(requests[i])
    {
      Interfere(i, gap);
      if !ArmReady(requests[i]) {
        ghost var before := View();
        requests := requests[i := requests[i].(timerFired := true)];
        Commit(before, TimerFires(i));
      }
    }

    /** Lines 98-116: any ready arm may be taken. */
    method Select(i: nat)
      requires AtLine(i, Waiting)
      requires ArmReady(requests[i])
      modifies this
      ensures Valid() && i < |requests| && old(trace) <= trace
      ensures requests[i].h == Granted || (requests[i].h.GivingUp? && requests[i].h.out.Unavailable?)
    {
      ghost var before := View();
      var r := requests[i];
      if {
        case r.ctx != Live =>
          MoveTo(i, GivingUp(FailQueue(r.ctx)));
          Commit(before, SeeCancel(i));
        case r.timerFired =>
          MoveTo(i, GivingUp(FailQueue(Expired)));
          Commit(before, SeeTimeout(i));
        case r.grants > 0 =>
          requests := requests[i := r.(h := Granted, grants := r.grants - 1)];
          Commit(before, TakeGrant(i));
      }
    }

    /** Lines 101-112: cancel the acquisition and answer 503. */
    method Refuse(i: nat, out: Outcome)
      requires AtLine(i, GivingUp(out))
      modifies this
      ensures AtLine(i, Draining(out)) && old(trace) <= trace
    {
      ghost var before := View();
      requests := requests[i := requests[i].(h := Draining(out), acquireDone := true)];
      Commit(before, GiveUp(i));
    }

    /** The deferred line 71: give the queue token back. */
    method Drain(i: nat, out: Outcome)
      requires AtLine(i, Draining(out))
      modifies this
      ensures AtLine(i, Uncounting(out)) && old(trace) <= trace
    {
      ghost var before := View();
      NothingBlocks(cfg, trace, before, i);
      queueWait := queueWait - 1;
      MoveTo(i, Uncounting(out));
      Commit(before, AdmissionQueue.Drain(i));
    }

    /** The deferred line 72. */
    method Uncount(i: nat, out: Outcome)
      requires AtLine(i, Uncounting(out))
      modifies this
      ensures AtLine(i, Returned(out)) && old(trace) <= trace
    {
      ghost var before := View();
      queueDepth := queueDepth - 1;
      MoveTo(i, Returned(out));
      Commit(before, AdmissionQueue.Uncount(i));
    }

    /** Line 119: from queued to active. */
    method Dequeue(i: nat)
      requires AtLine(i, Granted)
      modifies this
      ensures AtLine(i, Dequeued) && old(trace) <= trace
    {
      ghost var before := View();
      NothingBlocks(cfg, trace, before, i);
      queueWait := queueWait - 1;
      MoveTo(i, Dequeued);
      Commit(before, AdmissionQueue.Dequeue(i));
    }

    /** Line 120, and on to the call of next.ServeHTTP. */
    method CountDown(i: nat)
      requires AtLine(i, Dequeued)
      modifies this
      ensures AtLine(i, Running) && old(trace) <= trace
    {
      ghost var before := View();
      queueDepth := queueDepth - 1;
      MoveTo(i, Running);
      Commit(before, AdmissionQueue.CountDown(i));
    }

    /** Line 138: next.ServeHTTP returns. */
    method Finish(i: nat)
      requires AtLine(i, Running)
      modifies this
      ensures AtLine(i, Releasing) && old(trace) <= trace
    {
      ghost var before := View();
      MoveTo(i, Releasing);
      Commit(before, AdmissionQueue.Finish(i));
    }

    /** The deferred line 125: free the slot. */
    method Release(i: nat)
      requires AtLine(i, Releasing)
      modifies this
      ensures AtLine(i, Closing) && old(trace) <= trace
    {
      ghost var before := View();
      NothingBlocks(cfg, trace, before, i);
      activeSlots := activeSlots - 1;
      MoveTo(i, Closing);
      Commit(before, AdmissionQueue.Release(i));
    }

    /** The deferred line 81: cancel the acquisition. */
    method Close(i: nat)
      requires AtLine(i, Closing)
      modifies this
      ensures AtLine(i, Returned(Served)) && old(trace) <= trace
    {
      ghost var before := View();
      requests := requests[i := requests[i].(h := Returned(Served), acquireDone := true)];
      Commit(before, AdmissionQueue.Close(i));
    }

    /** Lines 101-112 and the defers, for a request that gave up. */
    method Leave(i: nat, out: Outcome, gaps: nat -> seq<Action>)
      requires AtLine(i, GivingUp(out))
      modifies this
      ensures AtLine(i, Returned(out)) && old(trace) <= trace
    {
      Interfere(i, gaps(5));
      Refuse(i, out);
      Interfere(i, gaps(6));
      Drain(i, out);
      Interfere(i, gaps(7));
      Uncount(i, out);
    }

    /** Lines 119-139 and the defers, for a request that was granted a slot. */
    method Execute(i: nat, gaps: nat -> seq<Action>)
      requires AtLine(i, Granted)
      modifies this
      ensures AtLine(i, Returned(Served)) && old(trace) <= trace
    {
      Interfere(i, gaps(5));
      Dequeue(i);
      Interfere(i, gaps(6));
      CountDown(i);
      Interfere(i, gaps(7));
      Finish(i);
      Interfere(i, gaps(8));
      Release(i);
      Interfere(i, gaps(9));
      Close(i);
    }

    /** Lines 65-116, up to the arm the select takes. */
    method Queue(i: nat, gaps: nat -> seq<Action>)
      requires AtLine(i, Admitted)
      modifies this
      ensures Valid() && i < |requests| && old(trace) <= trace
      ensures requests[i].h == Granted || (requests[i].h.GivingUp? && requests[i].h.out.Unavailable?)
    {
      Interfere(i, gaps(1));
      CountUp(i);
      Interfere(i, gaps(2));
      Spawn(i);
      Await(i, gaps(3));
      Interfere(i, gaps(4));
      Select(i);
    }

    /** Lines 65-139, for a request let into the queue. */
    method ServeAdmitted(i: nat, gaps: nat -> seq<Action>) returns (out: Outcome)
      requires AtLine(i, Admitted)
      modifies this
      ensures AtLine(i, Returned(out)) && out != TooManyRequests && old(trace) <= trace
    {
      Queue(i, gaps);
      if requests[i].h.GivingUp? {
        out := requests[i].h.out;
        Leave(i, out, gaps);
      } else {
        out := Served;
        Execute(i, gaps);
      }
    }

    /** One call of the handler, lines 51-139, with everybody else acting in every gap.  It never
        blocks outside the select, always returns an answer, and every step it takes is a step of
        the transition system, so everything proved of runs holds of it.  `door` is when it comes
        to line 55: the answer is 429 exactly if the queue was full at that moment. */
    method ServeHTTP(gaps: nat -> seq<Action>) returns (i: nat, out: Outcome, ghost door: nat, ghost seen: State)
      requires Valid()
      modifies this
      ensures AtLine(i, Returned(out)) && |old(requests)| <= i && old(trace) <= trace
      ensures |old(trace)| < door < |trace| && trace[door] == Enter(i) && Leads(cfg, Init(), trace[..door], seen)
      ensures out == TooManyRequests <==> Full(cfg, seen)
    {
      i := Arrive();
      Interfere(i, gaps(0));
      door, seen := |trace|, View();
      ghost var reached := trace;
      var admitted := TryEnter(i);
      assert reached == trace[..door];
      if admitted {
        out := ServeAdmitted(i, gaps);
        assert trace[..door] == reached;
      } else {
        out := TooManyRequests;
      }
    }
  }
}
