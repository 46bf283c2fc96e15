/** leastConnectionsBalancer (internal/proxy/balancer.go): two counters a target, and a pick that
    reserves on the least loaded one. */
module LeastConnections {
  import opened Options
  import opened Remainders
  import RoundRobin
  import opened Upstreams

  const MAX_INT64: int := 0x7fff_ffff_ffff_ffff

  type int64 = x: int | -MAX_INT64 - 1 <= x <= MAX_INT64

  /** Two's complement wrap-around of the sum of two int64 values. */
  function Wrap64(x: int): (y: int64)
    requires 0 <= x + TWO_64 && x < TWO_64
  {
    if x > MAX_INT64 then x - TWO_64 else if x < -MAX_INT64 - 1 then x + TWO_64 else x
  }

  /** lcState's counters. */
  datatype Counters = Counters(active: int64, pending: int64)

  function Load(c: Counters, includePending: bool): int64 {
    if includePending then Wrap64(c.active + c.pending) else c.active
  }

  /** The targets a scan considers: all of them, or those whose probe succeeds. */
  predicate Considered(healthChecks: bool, healthy: set<nat>, t: nat) {
    !healthChecks || t in healthy
  }

  /** t is the first of the least loaded eligible targets. */
  predicate IsBest(cs: seq<Counters>, healthChecks: bool, healthy: set<nat>, includePending: bool, t: nat) {
    && t < |cs| && Considered(healthChecks, healthy, t)
    && (forall u :: 0 <= u < |cs| && Considered(healthChecks, healthy, u) ==>
          Load(cs[t], includePending) <= Load(cs[u], includePending))
    && (forall u :: 0 <= u < t && Considered(healthChecks, healthy, u) ==>
          Load(cs[t], includePending) < Load(cs[u], includePending))
  }

  /** The target a scan over the counters ends up with. */
  function BestOf(cs: seq<Counters>, healthChecks: bool, healthy: set<nat>, includePending: bool): (best: Option<nat>)
    ensures best.Some? ==> best.value < |cs|
  {
    if cs == [] then None
    else
      var n := |cs| - 1;
      var best := BestOf(cs[..n], healthChecks, healthy, includePending);
      if !Considered(healthChecks, healthy, n) then best
      else if best == None || Load(cs[n], includePending) < Load(cs[best.value], includePending) then Some(n)
      else best
  }

  /** It is the first of the least loaded targets considered, if there is one. */
  lemma {:induction false} BestOfIs(cs: seq<Counters>, healthChecks: bool, healthy: set<nat>, includePending: bool)
    ensures var best := BestOf(cs, healthChecks, healthy, includePending);
            && (best == None <==> NoneConsidered(|cs|, healthChecks, healthy))
            && (forall t: nat :: best == Some(t) <==> IsBest(cs, healthChecks, healthy, includePending, t))
  {
    var best := BestOf(cs, healthChecks, healthy, includePending);
    if cs != [] {
      BestOfIs(cs[..|cs| - 1], healthChecks, healthy, includePending);
      assert Considered(healthChecks, healthy, |cs| - 1) ==> best != None;
    }
    assert best != None ==> IsBest(cs, healthChecks, healthy, includePending, best.value);
    forall t: nat | IsBest(cs, healthChecks, healthy, includePending, t) ensures best == Some(t) {
      assert best != None;
      BestIsUnique(cs, healthChecks, healthy, includePending, t, best.value);
    }
  }

  lemma BestIsUnique(cs: seq<Counters>, healthChecks: bool, healthy: set<nat>, includePending: bool, t: nat, u: nat)
    requires IsBest(cs, healthChecks, healthy, includePending, t) && IsBest(cs, healthChecks, healthy, includePending, u)
    ensures t == u
  {
  }

  /** Without health checks every scan over some targets finds one. */
  lemma SomeBest(cs: seq<Counters>, healthy: set<nat>, includePending: bool)
    ensures cs != [] ==> BestOf(cs, false, healthy, includePending) != None
  {
  }

  predicate NoneConsidered(n: nat, healthChecks: bool, healthy: set<nat>) {
    forall u :: 0 <= u < n ==> !Considered(healthChecks, healthy, u)
  }

  function Reserve(cs: seq<Counters>, t: nat): seq<Counters>
    requires t < |cs|
  {
    cs[t := cs[t].(pending := Wrap64(cs[t].pending + 1))]
  }

  /** Acquire's two atomic adds. */
  function Activate(cs: seq<Counters>, t: nat): seq<Counters>
    requires t < |cs|
  {
    cs[t := Counters(Wrap64(cs[t].active + 1), Wrap64(cs[t].pending - 1))]
  }

  function Deactivate(cs: seq<Counters>, t: nat): seq<Counters>
    requires t < |cs|
  {
    cs[t := cs[t].(active := Wrap64(cs[t].active - 1))]
  }

  // ----- The same in plain numbers -----

  predicate InRange(x: int) {
    -0x8000_0000_0000_0000 <= x < 0x8000_0000_0000_0000
  }

  /** A preview compares active connections only, a pick the sum of both counters; health counts
      only if it is checked. */
  lemma BestInNumbers(cs: seq<Counters>, healthChecks: bool, healthy: set<nat>, includePending: bool)
    requires forall u :: 0 <= u < |cs| ==> InRange(cs[u].active + cs[u].pending)
    ensures match BestOf(cs, healthChecks, healthy, includePending)
            case None => cs == [] || (healthChecks && forall u: nat :: u < |cs| ==> u !in healthy)
            case Some(t) =>
              && (healthChecks ==> t in healthy)
              && forall u: nat :: u < |cs| && (!healthChecks || u in healthy) ==>
                   if includePending
                   then cs[t].active + cs[t].pending <= cs[u].active + cs[u].pending - (if u < t then 1 else 0)
                   else cs[t].active <= cs[u].active - (if u < t then 1 else 0)
  {
    BestOfIs(cs, healthChecks, healthy, includePending);
    forall u: nat | u < |cs| ensures Considered(healthChecks, healthy, u) <==> !healthChecks || u in healthy {
    }
    assert cs != [] ==> |cs| > 0 && (!healthChecks ==> Considered(healthChecks, healthy, 0));
  }

  /** There is nothing to pick just if there are no targets, or all probes fail. */
  lemma NoBestIff(cs: seq<Counters>, healthChecks: bool, healthy: set<nat>, includePending: bool)
    ensures BestOf(cs, healthChecks, healthy, includePending) == None
            <==> cs == [] || (healthChecks && forall u: nat :: u < |cs| ==> u !in healthy)
  {
    BestOfIs(cs, healthChecks, healthy, includePending);
    forall u: nat | u < |cs| ensures Considered(healthChecks, healthy, u) <==> !healthChecks || u in healthy {
    }
    assert cs != [] ==> |cs| > 0 && (!healthChecks ==> Considered(healthChecks, healthy, 0));
  }

  /** Short of overflow: a pick adds to pending, Acquire moves one from pending to active, and a
      release takes one from active. */
  lemma CountersInNumbers(cs: seq<Counters>, t: nat)
    requires t < |cs|
    ensures InRange(cs[t].pending + 1) ==>
              Reserve(cs, t) == cs[t := Counters(cs[t].active, cs[t].pending + 1)]
    ensures InRange(cs[t].active + 1) && InRange(cs[t].pending - 1) ==>
              Activate(cs, t) == cs[t := Counters(cs[t].active + 1, cs[t].pending - 1)]
    ensures InRange(cs[t].active - 1) ==>
              Deactivate(cs, t) == cs[t := Counters(cs[t].active - 1, cs[t].pending)]
  {
  }

  /** One turn of Pick's loop as others let it be: the probes' verdicts, the counters as the scan
      read them one after the other, and as they were at lines 147 and 148. */
  datatype Attempt = Attempt(healthy: set<nat>, read: seq<Counters>, atLoad: seq<Counters>, atSwap: seq<Counters>)

  predicate Sized(a: Attempt, n: nat) {
    |a.read| == |a.atLoad| == |a.atSwap| == n
  }

  function Undisturbed(healthy: set<nat>, cs: seq<Counters>): Attempt {
    Attempt(healthy, cs, cs, cs)
  }

  /** The k-th turn of a pick that finds the counters at `cs` when it starts. */
  function Turn(healthy: set<nat>, contended: seq<Attempt>, cs: seq<Counters>, k: nat): Attempt {
    if k < |contended| then contended[k]
    else Undisturbed(healthy, if contended == [] then cs else contended[|contended| - 1].atSwap)
  }

  /** Nobody changes the pending count of target t between the load and the swap. */
  predicate Quiet(a: Attempt, t: nat) {
    t < |a.atLoad| && t < |a.atSwap| && a.atLoad[t].pending == a.atSwap[t].pending
  }

  /** Somebody changes the pending count of the best target the attempt read. */
  predicate LosesRace(a: Attempt, healthChecks: bool) {
    var best := BestOf(a.read, healthChecks, a.healthy, true);
    best.Some? && !Quiet(a, best.value)
  }

  /** The attempt ends the loop: with no target if it considered none, else with a reservation on
      the best target it read. */
  predicate EndsWith(a: Attempt, healthChecks: bool, target: Option<nat>, after: seq<Counters>) {
    && target == BestOf(a.read, healthChecks, a.healthy, true)
    && (target == None ==> after == a.read)
    && (target != None ==> Quiet(a, target.value) && after == Reserve(a.atSwap, target.value))
  }

  /** Every target has a port of its own, written out. */
  predicate OwnPorts(upstreams: seq<Url>) {
    forall t, u :: 0 <= t < u < |upstreams| ==>
      upstreams[t].port != "" && upstreams[u].port != "" && upstreams[t].port != upstreams[u].port
  }

  class LeastConnectionsBalancer {
    const upstreams: seq<Url>
    const healthChecksEnabled: bool
    var targetStates: seq<Counters>

    ghost predicate Valid()
      reads this
    {
      |targetStates| == |upstreams|
    }

    constructor (upstreams: seq<Url>, healthChecksEnabled: bool)
      ensures Valid() && this.upstreams == upstreams && this.healthChecksEnabled == healthChecksEnabled
      ensures targetStates == Idle(|upstreams|)
    {
      this.upstreams, this.healthChecksEnabled := upstreams, healthChecksEnabled;
      targetStates := Idle(|upstreams|);
    }

    /** Lines 101-122: the least loaded targets, in order. */
    method FindCandidates(includePending: bool, healthy: set<nat>) returns (cands: seq<nat>)
      requires Valid()
      ensures BestOf(targetStates, healthChecksEnabled, healthy, includePending)
              == if cands == [] then None else Some(cands[0])
    {
      var min := MAX_INT64;
      cands := [];
      for t := 0 to |targetStates|
        invariant BestOf(targetStates[..t], healthChecksEnabled, healthy, includePending)
                  == if cands == [] then None else Some(cands[0])
        invariant min == if cands == [] then MAX_INT64 else Load(targetStates[cands[0]], includePending)
      {
        assert targetStates[..t + 1][..t] == targetStates[..t];
        if healthChecksEnabled && t !in healthy {
          continue;
        }
        var load := Load(targetStates[t], includePending);
        if load < min {
          min := load;
          cands := [t];
        } else if load == min {
          cands := cands + [t];
        }
      }
      assert targetStates[..|targetStates|] == targetStates;
    }

    /** One turn of the loop at lines 133-152. */
    method TryReserve(attempt: Attempt) returns (over: bool, target: Option<nat>)
      requires Valid() && Sized(attempt, |upstreams|)
      modifies this
      ensures Valid()
      ensures !over ==> LosesRace(attempt, healthChecksEnabled) && targetStates == attempt.atSwap
      ensures over ==> EndsWith(attempt, healthChecksEnabled, target, targetStates)
    {
      targetStates := attempt.read;
      var cands := FindCandidates(true, attempt.healthy);
      if cands == [] {
        return true, None;
      }
      var best := cands[0];
      targetStates := attempt.atLoad;
      var p: int := targetStates[best].pending;
      targetStates := attempt.atSwap;
      if targetStates[best].pending != p {
        return false, None;
      }
      targetStates := targetStates[best := targetStates[best].(pending := Wrap64(p + 1))];
      return true, Some(best);
    }

    /** Lines 133-152, under contention: what other picks, Acquires and releases make of the
        counters during the first attempts is given by `contended`; after those, nobody
        interferes.  The loop ends with the attempt after `tries` failed ones, each of which
        failed because somebody else changed the pending count of the target it chose. */
    method ReserveBest(healthy: set<nat>, contended: seq<Attempt>) returns (target: Option<nat>, tries: nat)
      requires Valid() && forall m :: 0 <= m < |contended| ==> Sized(contended[m], |upstreams|)
      modifies this
      ensures Valid() && tries <= |contended|
      ensures forall m :: 0 <= m < tries ==> LosesRace(contended[m], healthChecksEnabled)
      ensures EndsWith(Turn(healthy, contended, old(targetStates), tries), healthChecksEnabled, target, targetStates)
    {
      target, tries := None, 0;
      var over := false;
      while !over
        invariant tries <= |contended| && Valid()
        invariant forall m :: 0 <= m < tries ==> LosesRace(contended[m], healthChecksEnabled)
        invariant !over ==> targetStates == if tries == 0 then old(targetStates) else contended[tries - 1].atSwap
        invariant over ==>
                    EndsWith(Turn(healthy, contended, old(targetStates), tries), healthChecksEnabled, target, targetStates)
        decreases |contended| - tries, !over
      {
        var attempt := Turn(healthy, contended, targetStates, tries);
        over, target := TryReserve(attempt);
        if !over {
          tries := tries + 1;
        }
      }
    }

    /** A preview changes nothing; any other pick reserves once on the best target it read.  The
        fallback at lines 137-142 is dead: without health checks there is always a candidate. */
    method Pick(previewOnly: bool, healthy: set<nat>, contended: seq<Attempt>) returns (target: Option<nat>, tries: nat)
      requires Valid() && forall m :: 0 <= m < |contended| ==> Sized(contended[m], |upstreams|)
      modifies this
      ensures Valid() && tries <= |contended|
      ensures upstreams == [] || (!healthChecksEnabled ==> target != None)
      ensures previewOnly || upstreams == [] ==>
                && targetStates == old(targetStates) && tries == 0
                && target == BestOf(targetStates, healthChecksEnabled, healthy, !previewOnly)
      ensures !previewOnly && upstreams != [] ==>
                && (forall m :: 0 <= m < tries ==> LosesRace(contended[m], healthChecksEnabled))
                && EndsWith(Turn(healthy, contended, old(targetStates), tries), healthChecksEnabled, target, targetStates)
    {
      target, tries := None, 0;
      if |targetStates| == 0 {
        return;
      }
      if previewOnly {
        var cands := FindCandidates(false, healthy);
        target := if cands == [] then None else Some(cands[0]);
      } else {
        target, tries := ReserveBest(healthy, contended);
      }
      SomeBest(old(targetStates), healthy, false);
      SomeBest(Turn(healthy, contended, old(targetStates), tries).read,
               Turn(healthy, contended, old(targetStates), tries).healthy, true);
    }

    /** Acquire finds the first state that is the same upstream. */
    method Acquire(target: Url) returns (slot: Option<nat>)
      requires Valid()
      modifies this
      ensures Valid() && slot == Resolve(upstreams, target)
      ensures slot == None ==> forall t :: 0 <= t < |upstreams| ==> !Alike(upstreams[t], target)
      ensures slot != None ==> slot.value < |upstreams| && Alike(upstreams[slot.value], target)
                               && forall t :: 0 <= t < slot.value ==> !Alike(upstreams[t], target)
      ensures OwnPorts(upstreams) ==> forall t :: 0 <= t < |upstreams| && target == upstreams[t] ==> slot == Some(t)
      ensures targetStates == if slot == None then old(targetStates) else Activate(old(targetStates), slot.value)
    {
      forall t | 0 <= t < |upstreams| ensures SameUpstream(upstreams[t], target) <==> Alike(upstreams[t], target) {
        SameUpstreamIff(upstreams[t], target);
      }
      for t := 0 to |upstreams|
        invariant targetStates == old(targetStates)
        invariant Resolve(upstreams, target) == ResolveFrom(upstreams, target, t)
      {
        if SameUpstream(upstreams[t], target) {
          var c := targetStates[t];
          targetStates := targetStates[t := Counters(Wrap64(c.active + 1), Wrap64(c.pending - 1))];
          return Some(t);
        }
      }
      return None;
    }

    /** The function Acquire returns. */
    method Release(slot: Option<nat>)
      requires Valid() && (slot != None ==> slot.value < |upstreams|)
      modifies this
      ensures Valid()
      ensures targetStates == if slot == None then old(targetStates) else Deactivate(old(targetStates), slot.value)
    {
      if slot != None {
        var c := targetStates[slot.value];
        targetStates := targetStates[slot.value := c.(active := Wrap64(c.active - 1))];
      }
    }
  }

  function Idle(n: nat): seq<Counters> {
    seq(n, i => Counters(0, 0))
  }

  // ----- Greedy balance -----

  function LoadAt(cs: seq<Counters>, t: nat): int
    requires t < |cs|
  {
    Load(cs[t], true)
  }

  /** Every healthy target's load lies between lo and hi, and both are attained. */
  ghost predicate LoadRange(cs: seq<Counters>, healthy: set<nat>, lo: int, hi: int) {
    && (forall t :: t in healthy && t < |cs| ==> lo <= LoadAt(cs, t) <= hi)
    && (exists t :: t in healthy && t < |cs| && LoadAt(cs, t) == lo)
    && (exists t :: t in healthy && t < |cs| && LoadAt(cs, t) == hi)
  }

  lemma LoadAfterReserve(c: Counters)
    requires Load(c, true) < MAX_INT64
    ensures Load(c.(pending := Wrap64(c.pending + 1)), true) == Load(c, true) + 1
  {
  }

  /** One pick raises the least load among the healthy by one, so the new maximum is the larger of
      the old maximum and the old minimum plus one; the minimum does not fall. */
  lemma GreedyPick(cs: seq<Counters>, healthy: set<nat>, lo: int, hi: int, t: nat) returns (lo': int)
    requires LoadRange(cs, healthy, lo, hi) && IsBest(cs, true, healthy, true, t) && hi < MAX_INT64
    ensures LoadAt(cs, t) == lo
    ensures lo <= lo' <= lo + 1
    ensures LoadRange(Reserve(cs, t), healthy, lo', if hi > lo then hi else lo + 1)
  {
    var after := Reserve(cs, t);
    LoadAfterReserve(cs[t]);
    var low :| low in healthy && low < |cs| && LoadAt(cs, low) == lo;
    var high :| high in healthy && high < |cs| && LoadAt(cs, high) == hi;
    assert LoadAt(after, t) == lo + 1;
    assert forall u :: u in healthy && u < |cs| && u != t ==> LoadAt(after, u) == LoadAt(cs, u);
    if u :| u in healthy && u < |cs| && u != t && LoadAt(cs, u) == lo {
      lo' := lo;
      assert LoadAt(after, u) == lo;
    } else {
      lo' := lo + 1;
    }
  }

  /** The states a run of picks goes through, each pick taking a best target. */
  ghost predicate PickRun(states: seq<seq<Counters>>, healthy: set<nat>) {
    forall k :: 0 < k < |states| ==> PickStep(states[k - 1], states[k], healthy)
  }

  ghost predicate PickStep(before: seq<Counters>, after: seq<Counters>, healthy: set<nat>) {
    exists t :: IsBest(before, true, healthy, true, t) && after == Reserve(before, t)
  }

  /** Picks alone keep the healthy targets' loads within one of each other. */
  lemma {:induction false} SpreadStaysWithinOne(states: seq<seq<Counters>>, healthy: set<nat>, lo: int, hi: int)
    returns (lo': int, hi': int)
    requires states != [] && PickRun(states, healthy) && LoadRange(states[0], healthy, lo, hi)
    requires hi <= lo + 1 && hi + |states| <= MAX_INT64
    ensures LoadRange(states[|states| - 1], healthy, lo', hi') && hi' <= lo' + 1 && hi' < hi + |states|
  {
    if |states| == 1 {
      lo', hi' := lo, hi;
    } else {
      var n := |states| - 1;
      assert PickRun(states[..n], healthy);
      var l, h := SpreadStaysWithinOne(states[..n], healthy, lo, hi);
      assert PickStep(states[n - 1], states[n], healthy);
      var t :| IsBest(states[n - 1], true, healthy, true, t) && states[n] == Reserve(states[n - 1], t);
      lo' := GreedyPick(states[n - 1], healthy, l, h, t);
      hi' := if h > l then h else l + 1;
    }
  }

  // ----- Coincidence with round robin -----

  datatype LcOp = PickOp | AcquireOp(t: nat)

  /** The target a pick takes when no probe fails. */
  function Best(cs: seq<Counters>): (t: nat)
    requires cs != []
    ensures IsBest(cs, false, {}, true, t)
  {
    BestOfIs(cs, false, {}, true);
    assert Considered(false, {}, 0);
    BestOf(cs, false, {}, true).value
  }

  function DoOp(cs: seq<Counters>, op: LcOp): (after: seq<Counters>)
    requires cs != []
    ensures |after| == |cs|
  {
    if op.PickOp? then Reserve(cs, Best(cs))
    else if op.t < |cs| then Activate(cs, op.t) else cs
  }

  function RunOps(n: nat, ops: seq<LcOp>): (cs: seq<Counters>)
    requires n > 0
    ensures |cs| == n
  {
    if ops == [] then Idle(n) else DoOp(RunOps(n, ops[..|ops| - 1]), ops[|ops| - 1])
  }

  function PickCount(ops: seq<LcOp>): nat {
    if ops == [] then 0 else PickCount(ops[..|ops| - 1]) + if ops[|ops| - 1].PickOp? then 1 else 0
  }

  /** Target t's share of the first k round-robin tickets. */
  function Share(k: nat, n: nat, t: nat): nat
    requires n > 0
  {
    Quot(k, n) + if t < Rem(k, n) then 1 else 0
  }

  lemma {:induction false} ShareNext(k: nat, n: nat, t: nat)
    requires t < n
    ensures Share(k + 1, n, t) == Share(k, n, t) + if t == Rem(k, n) then 1 else 0
    ensures Share(k, n, t) <= k
    decreases k
  {
    if k >= n {
      ShareNext(k - n, n, t);
      assert k + 1 - n == k - n + 1;
    } else if k + 1 == n {
      assert Rem(n, n) == Rem(0, n) == 0 && Quot(n, n) == 1 + Quot(0, n) == 1;
    }
  }

  predicate SharedOut(cs: seq<Counters>, k: nat) {
    cs != [] && forall t :: 0 <= t < |cs| ==> LoadAt(cs, t) == Share(k, |cs|, t)
  }

  lemma BestOfShares(cs: seq<Counters>, k: nat)
    requires SharedOut(cs, k)
    ensures Best(cs) == Rem(k, |cs|)
  {
    var b, r := Best(cs), Rem(k, |cs|);
    assert Considered(false, {}, r);
    assert LoadAt(cs, b) <= LoadAt(cs, r) == Quot(k, |cs|);
  }

  lemma PickSharesOut(cs: seq<Counters>, k: nat)
    requires SharedOut(cs, k) && k < MAX_INT64
    ensures SharedOut(Reserve(cs, Best(cs)), k + 1)
  {
    BestOfShares(cs, k);
    var after := Reserve(cs, Best(cs));
    forall t | 0 <= t < |cs| ensures LoadAt(after, t) == Share(k + 1, |cs|, t) {
      ShareNext(k, |cs|, t);
      LoadAfterReserve(cs[Best(cs)]);
      assert t == Best(cs) || after[t] == cs[t];
      assert LoadAt(cs, t) == Share(k, |cs|, t);
    }
  }

  /** Acquire moves a unit from pending to active and leaves every load alone. */
  lemma AcquireSharesOut(cs: seq<Counters>, k: nat, t: nat)
    requires SharedOut(cs, k) && t < |cs|
    ensures SharedOut(Activate(cs, t), k)
  {
  }

  lemma {:induction false} LoadsAreShares(n: nat, ops: seq<LcOp>)
    requires n > 0 && PickCount(ops) < MAX_INT64
    ensures SharedOut(RunOps(n, ops), PickCount(ops))
  {
    if ops != [] {
      var before, op := ops[..|ops| - 1], ops[|ops| - 1];
      LoadsAreShares(n, before);
      if op.PickOp? {
        PickSharesOut(RunOps(n, before), PickCount(before));
      } else if op.t < n {
        AcquireSharesOut(RunOps(n, before), PickCount(before), op.t);
      }
    }
  }

  /** When nothing completes, least connections is round robin: from the fresh state, whatever
      Acquires are interleaved, the pick after k picks takes the target of ticket k. */
  lemma CoincidesWithRoundRobin(n: nat, ops: seq<LcOp>)
    requires n > 0 && PickCount(ops) < MAX_INT64
    ensures Some(Best(RunOps(n, ops))) == RoundRobin.Choose(PickCount(ops), n, false, {})
    ensures Best(RunOps(n, ops)) == PickCount(ops) % n
  {
    LoadsAreShares(n, ops);
    BestOfShares(RunOps(n, ops), PickCount(ops));
    DivMod(PickCount(ops), n);
  }
}
