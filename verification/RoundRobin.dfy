/** roundRobinBalancer (internal/proxy/balancer.go): ticket arithmetic over a wrapping uint64. */
module RoundRobin {
  import opened Options
  import opened Remainders

  type uint64 = x: nat | x < TWO_64

  /** The i-th target probed by the pick that drew ticket `start`; the sum wraps before the %. */
  function Candidate(start: nat, i: nat, n: nat): (t: nat)
    requires n > 0
    ensures t < n
  {
    Rem(Rem(start + i, TWO_64), n)
  }

  /** The first candidate whose probe succeeds; `probes` are the verdicts of the pick's own probes,
      one after the other. */
  function Probe(start: nat, n: nat, probes: nat -> bool, i: nat): Option<nat>
    requires n > 0 && i <= n
    decreases n - i
  {
    if i == n then None
    else if probes(i) then Some(Candidate(start, i, n))
    else Probe(start, n, probes, i + 1)
  }

  /** The same while health does not change: a probe succeeds just if its target is healthy. */
  function Scan(start: nat, n: nat, healthy: set<nat>, i: nat): Option<nat>
    requires n > 0 && i <= n
  {
    Probe(start, n, (k: nat) => Candidate(start, k, n) in healthy, i)
  }

  /** What the pick holding ticket `start` returns, for a fixed set of healthy targets. */
  function Choose(start: nat, n: nat, healthChecks: bool, healthy: set<nat>): Option<nat> {
    if n == 0 then None
    else if healthChecks then Scan(start, n, healthy, 0)
    else Some(Rem(start, n))
  }

  class RoundRobinBalancer {
    const targetCount: uint64
    const healthChecksEnabled: bool
    var nextIndex: uint64

    constructor (targetCount: uint64, healthChecksEnabled: bool)
      ensures this.targetCount == targetCount && this.healthChecksEnabled == healthChecksEnabled && nextIndex == 0
    {
      this.targetCount, this.healthChecksEnabled, nextIndex := targetCount, healthChecksEnabled, 0;
    }

    /** With health checks, `first` is the first probe that succeeds; without, and for a preview,
        there are no probes. */
    method Pick(previewOnly: bool, probes: nat -> bool) returns (target: Option<nat>, ghost first: nat)
      modifies this
      ensures nextIndex == if previewOnly || targetCount == 0 then old(nextIndex)
                           else (old(nextIndex) + 1) % 0x1_0000_0000_0000_0000
      ensures targetCount == 0 ==> target == None
      ensures targetCount > 0 && (previewOnly || !healthChecksEnabled) ==> target == Some(old(nextIndex) % targetCount)
      ensures targetCount > 0 && !previewOnly && healthChecksEnabled ==>
                && first <= targetCount && (forall k: nat :: k < first ==> !probes(k)) && (first < targetCount ==> probes(first))
                && target == if first == targetCount then None
                             else Some(((old(nextIndex) + first) % 0x1_0000_0000_0000_0000) % targetCount)
    {
      first := 0;
      if targetCount == 0 {
        return None, first;
      }
      if previewOnly {
        return Some(nextIndex % targetCount), first;
      }
      var startIndex := nextIndex;
      nextIndex := (nextIndex + 1) % TWO_64;
      if !healthChecksEnabled {
        return Some(startIndex % targetCount), first;
      }
      for i := 0 to targetCount
        invariant nextIndex == (startIndex + 1) % TWO_64
        invariant forall k: nat :: k < i ==> !probes(k)
      {
        var candidate := ((startIndex + i) % TWO_64) % targetCount;
        if probes(i) {
          return Some(candidate), i;
        }
      }
      return None, targetCount;
    }
  }

  /** A scan answers nil just if all its probes fail, else the target of its first success. */
  lemma {:induction false} ProbeTakesFirst(start: nat, n: nat, probes: nat -> bool, i: nat) returns (k: nat)
    requires n > 0 && i <= n
    ensures i <= k <= n && (forall j: nat :: i <= j < k ==> !probes(j))
    ensures Probe(start, n, probes, i) == if k < n then Some(Candidate(start, k, n)) else None
    ensures k < n ==> probes(k)
    decreases n - i
  {
    if i == n || probes(i) {
      k := i;
    } else {
      k := ProbeTakesFirst(start, n, probes, i + 1);
    }
  }

  // ----- When the health scan sees every target -----

  lemma {:induction false} ScanIsNone(start: nat, n: nat, healthy: set<nat>, i: nat)
    requires n > 0 && i <= n
    ensures Scan(start, n, healthy, i) == None <==> forall j: nat :: i <= j < n ==> Candidate(start, j, n) !in healthy
    ensures Scan(start, n, healthy, i) != None ==> Scan(start, n, healthy, i).value in healthy
    decreases n - i
  {
    if i < n {
      ScanIsNone(start, n, healthy, i + 1);
    }
  }

  lemma CandidateNoWrap(start: nat, i: nat, n: nat)
    requires n > 0
    ensures start + i < TWO_64 ==> Candidate(start, i, n) == Rem(start + i, n)
    ensures TWO_64 <= start + i < 2 * TWO_64 ==> Candidate(start, i, n) == Rem(start + i - TWO_64, n)
  {
    if start + i >= TWO_64 {
      assert Rem(start + i, TWO_64) == Rem(start + i - TWO_64, TWO_64);
    }
  }

  lemma VisitsAll(start: uint64, n: uint64, t: nat) returns (i: nat)
    requires t < n && (start + n <= TWO_64 || Rem(TWO_64, n) == 0)
    ensures i < n && Candidate(start, i, n) == t
  {
    i := RemReach(start, n, t);
    CandidateNoWrap(start, i, n);
    if start + i >= TWO_64 {
      RemAdd(TWO_64, start + i - TWO_64, n);
      assert TWO_64 + (start + i - TWO_64) == start + i;
    }
  }

  /** A target the scan misses when it wraps and n does not divide 2^64. */
  function Missed(start: uint64, n: uint64): nat
    requires n > 0 && start + n > TWO_64
  {
    var wrapped := start + n - TWO_64;
    if Rem(TWO_64, n) >= wrapped then Rem(TWO_64, n) else wrapped
  }

  lemma MissedNotVisited(start: uint64, n: uint64, i: nat)
    requires n > 0 && start + n > TWO_64 && Rem(TWO_64, n) != 0 && i < n
    ensures Missed(start, n) < n && Candidate(start, i, n) != Missed(start, n)
  {
    var r, t := Rem(TWO_64, n), Missed(start, n);
    CandidateNoWrap(start, i, n);
    if start + i < TWO_64 {
      // Some y with remainder t lies less than n above start + i.
      RemWhole(TWO_64, n);
      var y := TWO_64 - r + t;
      RemAdd(TWO_64 - r, t, n);
      RemApart(start + i, y, n);
    }
  }

  /** "nil means no target is healthy" holds of a pick if and only if its scan does not wrap, or
      the number of targets divides 2^64. */
  lemma NilMeansNoneHealthyIff(start: uint64, n: uint64)
    requires n > 0
    ensures (forall healthy: set<nat> :: Choose(start, n, true, healthy) == None ==> forall t :: 0 <= t < n ==> t !in healthy)
            <==> start + n - 1 < TWO_64 || TWO_64 % n == 0
  {
    DivMod(TWO_64, n);
    if start + n - 1 < TWO_64 || Rem(TWO_64, n) == 0 {
      forall healthy: set<nat>, t | Choose(start, n, true, healthy) == None && 0 <= t < n ensures t !in healthy {
        ScanIsNone(start, n, healthy, 0);
        var i := VisitsAll(start, n, t);
      }
    } else {
      var t := Missed(start, n);
      forall j: nat | j < n ensures Candidate(start, j, n) !in {t} {
        MissedNotVisited(start, n, j);
      }
      ScanIsNone(start, n, {t}, 0);
      MissedNotVisited(start, n, 0);
      assert Choose(start, n, true, {t}) == None && t in {t};
    }
  }

  // ----- Ticket fairness -----

  /** Picks of t among the k tickets from s on, as the wrapping counter hands them out. */
  function Picks(s: nat, k: nat, n: nat, t: nat): nat
    requires n > 0
  {
    if k == 0 then 0
    else Picks(s, k - 1, n, t) + if Choose(Rem(s + k - 1, TWO_64), n, false, {}) == Some(t) then 1 else 0
  }

  /** Whose turn the i-th ticket from s is, if the counter never wrapped. */
  function Turn(s: nat, i: nat, n: nat): nat
    requires n > 0
  {
    Rem(s + i, n)
  }

  function Turns(s: nat, k: nat, n: nat, t: nat): nat
    requires n > 0
  {
    if k == 0 then 0 else Turns(s, k - 1, n, t) + if Turn(s, k - 1, n) == t then 1 else 0
  }

  lemma {:induction false} TurnsConcat(s: nat, a: nat, b: nat, n: nat, t: nat)
    requires n > 0
    ensures Turns(s, a + b, n, t) == Turns(s, a, n, t) + Turns(s + a, b, n, t)
    decreases b
  {
    if b > 0 {
      TurnsConcat(s, a, b - 1, n, t);
      assert a + b - 1 == a + (b - 1) && s + (a + (b - 1)) == s + a + (b - 1);
      assert Turn(s, a + (b - 1), n) == Turn(s + a, b - 1, n);
    }
  }

  lemma {:induction false} NoTurns(s: nat, k: nat, n: nat, t: nat)
    requires n > 0 && forall i: nat :: i < k ==> Turn(s, i, n) != t
    ensures Turns(s, k, n, t) == 0
  {
    if k > 0 {
      NoTurns(s, k - 1, n, t);
    }
  }

  lemma {:induction false} SomeTurn(s: nat, k: nat, n: nat, t: nat, i: nat)
    requires n > 0 && i < k && Turn(s, i, n) == t
    ensures Turns(s, k, n, t) >= 1
  {
    if i < k - 1 {
      SomeTurn(s, k - 1, n, t, i);
    }
  }

  /** Among at most n tickets, t's turn comes at most once. */
  lemma {:induction false} AtMostOneTurn(s: nat, k: nat, n: nat, t: nat)
    requires n > 0 && k <= n
    ensures Turns(s, k, n, t) <= 1
  {
    if k > 0 {
      AtMostOneTurn(s, k - 1, n, t);
      if Turn(s, k - 1, n) == t {
        forall i: nat | i < k - 1 ensures Turn(s, i, n) != t {
          RemApart(s + i, s + (k - 1), n);
        }
        NoTurns(s, k - 1, n, t);
      }
    }
  }

  lemma {:induction false} TurnsAreFair(s: nat, k: nat, n: nat, t: nat)
    requires t < n
    ensures Quot(k, n) <= Turns(s, k, n, t) <= Quot(k, n) + if Rem(k, n) == 0 then 0 else 1
    decreases k
  {
    if k < n {
      AtMostOneTurn(s, k, n, t);
    } else {
      var i := RemReach(s, n, t);
      SomeTurn(s, n, n, t, i);
      AtMostOneTurn(s, n, n, t);
      TurnsConcat(s, n, k - n, n, t);
      TurnsAreFair(s + n, k - n, n, t);
    }
  }

  lemma {:induction false} PicksConcat(s: nat, a: nat, b: nat, n: nat, t: nat)
    requires n > 0
    ensures Picks(s, a + b, n, t) == Picks(s, a, n, t) + Picks(s + a, b, n, t)
    decreases b
  {
    if b > 0 {
      PicksConcat(s, a, b - 1, n, t);
      assert a + b - 1 == a + (b - 1) && s + (a + b) - 1 == s + a + b - 1;
    }
  }

  /** Within a lap of the counter the picks are the turns. */
  lemma {:induction false} PicksAreTurns(s: nat, k: nat, n: nat, t: nat)
    requires n > 0
    ensures s + k <= TWO_64 ==> Picks(s, k, n, t) == Turns(s, k, n, t)
    ensures TWO_64 <= s && s + k <= 2 * TWO_64 ==> Picks(s, k, n, t) == Turns(s - TWO_64, k, n, t)
  {
    if k > 0 {
      PicksAreTurns(s, k - 1, n, t);
      if s + k <= TWO_64 {
        assert Rem(s + k - 1, TWO_64) == s + (k - 1);
      } else if TWO_64 <= s && s + k <= 2 * TWO_64 {
        assert Rem(s + k - 1, TWO_64) == Rem(s + k - 1 - TWO_64, TWO_64) == s - TWO_64 + (k - 1);
      }
    }
  }

  /** Without a wrap of the counter, every target gets floor(k/n) or ceil(k/n) of k consecutive
      tickets. */
  lemma TicketFairness(s: uint64, k: nat, n: nat, t: nat)
    requires t < n && s + k <= TWO_64
    ensures k / n <= Picks(s, k, n, t) <= k / n + if k % n == 0 then 0 else 1
  {
    PicksAreTurns(s, k, n, t);
    TurnsAreFair(s, k, n, t);
    DivMod(k, n);
  }

  lemma PicksAcrossWrap(s: uint64, k: nat, n: nat, t: nat)
    requires t < n && TWO_64 < s + k <= 2 * TWO_64
    ensures var before, after := Quot(TWO_64 - s, n), Quot(s + k - TWO_64, n);
            before + after <= Picks(s, k, n, t) <= before + after + 2
  {
    var a, b := TWO_64 - s, s + k - TWO_64;
    assert k == a + b && s + a == TWO_64;
    PicksConcat(s, a, b, n, t);
    PicksAreTurns(s, a, n, t);
    PicksAreTurns(TWO_64, b, n, t);
    TurnsAreFair(s, a, n, t);
    TurnsAreFair(0, b, n, t);
  }

  /** Across one wrap of the counter the picks of two targets differ by at most two. */
  lemma SpreadAcrossWrap(s: uint64, k: nat, n: nat, t: nat, u: nat)
    requires t < n && u < n && s + k <= 2 * TWO_64
    ensures Picks(s, k, n, t) <= Picks(s, k, n, u) + 2
    ensures s + k <= TWO_64 ==> Picks(s, k, n, t) <= Picks(s, k, n, u) + 1
  {
    if s + k <= TWO_64 {
      TicketFairness(s, k, n, t);
      TicketFairness(s, k, n, u);
    } else {
      PicksAcrossWrap(s, k, n, t);
      PicksAcrossWrap(s, k, n, u);
    }
  }

  /** The spread of two is attained: the last ticket before the wrap and the first after it both
      fall on target 0 of three. */
  lemma SpreadOfTwoHappens()
    ensures Picks(TWO_64 - 1, 2, 3, 0) == 2 && Picks(TWO_64 - 1, 2, 3, 1) == 0
  {
    DivMod(TWO_64 - 1, 3);
    assert Rem(TWO_64, TWO_64) == 0;
    assert Picks(TWO_64 - 1, 1, 3, 0) == 1;
    assert Picks(TWO_64 - 1, 1, 3, 1) == 0;
  }

  // ----- Shares with a fixed set of healthy targets -----

  predicate HealthyBack(t: nat, n: nat, healthy: set<nat>, d: nat)
    requires t < n && d <= n
  {
    Rem(t + n - d, n) in healthy
  }

  /** Distance back from t to the previous healthy target, at most n. */
  function Behind(t: nat, n: nat, healthy: set<nat>, d: nat): (gap: nat)
    requires t < n && 0 < d <= n
    ensures d <= gap <= n
    ensures gap < n ==> HealthyBack(t, n, healthy, gap)
    ensures forall e :: d <= e < gap ==> !HealthyBack(t, n, healthy, e)
    decreases n - d
  {
    if d == n || HealthyBack(t, n, healthy, d) then d else Behind(t, n, healthy, d + 1)
  }

  function Gap(t: nat, n: nat, healthy: set<nat>): nat
    requires t < n
  {
    Behind(t, n, healthy, 1)
  }

  /** Picks of t among k consecutive tickets, health checks on. */
  function Wins(s: nat, k: nat, n: nat, healthy: set<nat>, t: nat): nat
    requires n > 0
  {
    if k == 0 then 0
    else Wins(s, k - 1, n, healthy, t) + if Choose(s + k - 1, n, true, healthy) == Some(t) then 1 else 0
  }

  /** The scan takes the first healthy candidate. */
  lemma {:induction false} ScanTakes(start: nat, n: nat, healthy: set<nat>, i: nat, first: nat)
    requires n > 0 && i <= first < n
    requires Candidate(start, first, n) in healthy
    requires forall j: nat :: i <= j < first ==> Candidate(start, j, n) !in healthy
    ensures Scan(start, n, healthy, i) == Some(Candidate(start, first, n))
    decreases first - i
  {
    if i < first {
      ScanTakes(start, n, healthy, i + 1, first);
    }
  }

  /** The scan takes one of the candidates up to any healthy one. */
  lemma {:induction false} ScanStopsBy(start: nat, n: nat, healthy: set<nat>, i: nat, stop: nat) returns (first: nat)
    requires n > 0 && i <= stop < n && Candidate(start, stop, n) in healthy
    ensures i <= first <= stop && Scan(start, n, healthy, i) == Some(Candidate(start, first, n))
    decreases stop - i
  {
    if Candidate(start, i, n) in healthy {
      first := i;
    } else {
      first := ScanStopsBy(start, n, healthy, i + 1, stop);
    }
  }

  /** The target probed d before ticket x's own, x falling on t. */
  lemma CandidateBack(x: nat, start: nat, d: nat, n: nat)
    requires n > 0 && d <= n <= x && x + n <= TWO_64 && start + d <= x
    ensures Candidate(start, x - d - start, n) == Rem(Rem(x, n) + n - d, n)
  {
    CandidateNoWrap(start, x - d - start, n);
    assert start + (x - d - start) == x - d;
    RemBack(x, d, n);
  }

  lemma UnhealthyBefore(x: nat, e: nat, j: nat, n: nat, healthy: set<nat>, t: nat)
    requires t < n && Rem(x, n) == t && j < e < Gap(t, n, healthy) && n <= x && x + n <= TWO_64
    ensures Candidate(x - e, j, n) !in healthy
  {
    CandidateBack(x, x - e, e - j, n);
    assert x - (e - j) - (x - e) == j;
    assert !HealthyBack(t, n, healthy, e - j);
  }

  lemma TicketsAfterGapWin(x: nat, e: nat, n: nat, healthy: set<nat>, t: nat)
    requires t < n && t in healthy && Rem(x, n) == t && e < Gap(t, n, healthy) && n <= x && x + n <= TWO_64
    ensures Scan(x - e, n, healthy, 0) == Some(t)
  {
    var start := x - e;
    CandidateBack(x, start, 0, n);
    assert Rem(t + n, n) == t;
    forall j: nat | j < e ensures Candidate(start, j, n) !in healthy {
      UnhealthyBefore(x, e, j, n, healthy, t);
    }
    ScanTakes(start, n, healthy, 0, e);
  }

  lemma TicketsBeforeGapLose(x: nat, e: nat, n: nat, healthy: set<nat>, t: nat)
    requires t < n && Rem(x, n) == t && Gap(t, n, healthy) <= e < n <= x && x + n <= TWO_64
    ensures Scan(x - e, n, healthy, 0) != Some(t)
  {
    var gap, start := Gap(t, n, healthy), x - e;
    CandidateBack(x, start, gap, n);
    var first := ScanStopsBy(start, n, healthy, 0, e - gap);
    CandidateNoWrap(start, first, n);
    RemApart(start + first, x, n);
  }

  /** Counting back from a ticket x that falls on t: the e-th earlier ticket is t's if and only
      if it comes after the previous healthy target. */
  lemma EarlierTicketWins(x: nat, e: nat, n: nat, healthy: set<nat>, t: nat)
    requires t < n && t in healthy && Rem(x, n) == t && e < n <= x && x + n <= TWO_64
    ensures Choose(x - e, n, true, healthy) == Some(t) <==> e < Gap(t, n, healthy)
  {
    if e < Gap(t, n, healthy) {
      TicketsAfterGapWin(x, e, n, healthy, t);
    } else {
      TicketsBeforeGapLose(x, e, n, healthy, t);
    }
  }

  lemma WinsFirst(s: nat, n: nat, healthy: set<nat>, t: nat)
    requires n > 0
    ensures Wins(s, 1, n, healthy, t) == if Choose(s, n, true, healthy) == Some(t) then 1 else 0
  {
    assert Wins(s, 0, n, healthy, t) == 0;
  }

  lemma {:induction false} WinsConcat(s: nat, a: nat, b: nat, n: nat, healthy: set<nat>, t: nat)
    requires n > 0
    ensures Wins(s, a + b, n, healthy, t) == Wins(s, a, n, healthy, t) + Wins(s + a, b, n, healthy, t)
    decreases b
  {
    if b > 0 {
      WinsConcat(s, a, b - 1, n, healthy, t);
      assert a + b - 1 == a + (b - 1) && s + (a + b) - 1 == s + a + b - 1;
    }
  }

  /** Over the last k of the n tickets ending at x, t wins min(k, Gap(t)). */
  lemma {:induction false} WinsUpTo(x: nat, k: nat, n: nat, healthy: set<nat>, t: nat)
    requires t < n && t in healthy && Rem(x, n) == t && k <= n <= x && x + n <= TWO_64
    ensures Wins(x + 1 - k, k, n, healthy, t)
            == if k < Gap(t, n, healthy) then k else Gap(t, n, healthy)
  {
    if k > 0 {
      WinsUpTo(x, k - 1, n, healthy, t);
      EarlierTicketWins(x, k - 1, n, healthy, t);
      WinsConcat(x + 1 - k, 1, k - 1, n, healthy, t);
      WinsFirst(x + 1 - k, n, healthy, t);
      assert x + 1 - k == x - (k - 1) && x + 1 - k + 1 == x + 1 - (k - 1) && 1 + (k - 1) == k;
    }
  }

  lemma {:induction false} ScanIsPeriodic(s: nat, n: nat, healthy: set<nat>, i: nat)
    requires n > 0 && i <= n && s + n + n <= TWO_64
    ensures Scan(s + n, n, healthy, i) == Scan(s, n, healthy, i)
    decreases n - i
  {
    if i < n {
      CandidateNoWrap(s, i, n);
      CandidateNoWrap(s + n, i, n);
      assert s + n + i - n == s + i;
      ScanIsPeriodic(s, n, healthy, i + 1);
    }
  }

  /** Sliding a window of n tickets does not change who wins how often. */
  lemma {:induction false} WinsSlide(s: nat, d: nat, n: nat, healthy: set<nat>, t: nat)
    requires n > 0 && s + d + n + n <= TWO_64
    ensures Wins(s + d, n, n, healthy, t) == Wins(s, n, n, healthy, t)
    decreases d
  {
    if d > 0 {
      WinsSlide(s, d - 1, n, healthy, t);
      var u := s + (d - 1);
      WinsConcat(u, 1, n, n, healthy, t);
      WinsConcat(u, n, 1, n, healthy, t);
      WinsFirst(u, n, healthy, t);
      WinsFirst(u + n, n, healthy, t);
      ScanIsPeriodic(u, n, healthy, 0);
      assert 1 + n == n + 1 && u + 1 == s + d;
    }
  }

  lemma {:induction false} NeverWins(s: nat, k: nat, n: nat, healthy: set<nat>, t: nat)
    requires n > 0 && t !in healthy
    ensures Wins(s, k, n, healthy, t) == 0
  {
    if k > 0 {
      NeverWins(s, k - 1, n, healthy, t);
      ScanIsNone(s + k - 1, n, healthy, 0);
    }
  }

  /** In any n consecutive picks each healthy target is chosen exactly as many times as its cyclic
      distance from the previous healthy target, and an unhealthy one never.  The counter must not
      wrap in the window or its scans; that there are at most 2^62 targets is no restriction. */
  lemma ExactHealthyShares(s: nat, n: nat, healthy: set<nat>, t: nat)
    requires t < n && s + n + n <= TWO_64 && 4 * n <= TWO_64
    ensures Wins(s, n, n, healthy, t) == if t in healthy then Gap(t, n, healthy) else 0
  {
    if t !in healthy {
      NeverWins(s, n, n, healthy, t);
    } else if s < n {
      var i := RemReach(s + n, n, t);
      var x := s + n + i;
      WinsUpTo(x, n, n, healthy, t);
      WinsSlide(s, i + 1, n, healthy, t);
      assert x + 1 - n == s + (i + 1);
    } else {
      var i := RemReach(s, n, t);
      var x := s + i;
      WinsUpTo(x, n, n, healthy, t);
      WinsSlide(x + 1 - n, n - 1 - i, n, healthy, t);
      assert x + 1 - n + (n - 1 - i) == s;
    }
  }

  // ----- The balancer itself, call after call -----

  /** Candidate in machine arithmetic. */
  lemma CandidateIs(start: nat, k: nat, n: nat)
    requires n > 0
    ensures Candidate(start, k, n) == ((start + k) % 0x1_0000_0000_0000_0000) % n
  {
    DivMod(start + k, TWO_64);
    DivMod((start + k) % TWO_64, n);
  }

  /** Pick's answer in terms of Choose. */
  lemma PickIsChoose(start: nat, n: nat, healthy: set<nat>, probes: nat -> bool, first: nat)
    requires n > 0 && first <= n
    requires forall k: nat :: k < n ==> (probes(k) <==> Candidate(start, k, n) in healthy)
    requires (forall k: nat :: k < first ==> !probes(k)) && (first < n ==> probes(first))
    ensures Choose(start, n, true, healthy) == if first == n then None else Some(Candidate(start, first, n))
  {
    forall k: nat | k < first ensures Candidate(start, k, n) !in healthy {
      assert !probes(k);
    }
    ScanIsNone(start, n, healthy, 0);
    if first < n {
      ScanTakes(start, n, healthy, 0, first);
    }
  }

  /** One call of Pick without health checks. */
  method PickBlind(b: RoundRobinBalancer) returns (target: Option<nat>)
    requires b.targetCount > 0 && !b.healthChecksEnabled
    modifies b
    ensures target == Choose(old(b.nextIndex), b.targetCount, false, {}) && b.nextIndex == Rem(old(b.nextIndex) + 1, TWO_64)
  {
    DivMod(b.nextIndex, b.targetCount);
    DivMod(b.nextIndex + 1, TWO_64);
    ghost var first;
    target, first := b.Pick(false, _ => false);
  }

  /** Calls Pick k times without health checks: if the counter does not wrap, each target answers
      floor(k/n) or ceil(k/n) of them. */
  method PickTimes(b: RoundRobinBalancer, k: nat) returns (targets: seq<Option<nat>>)
    requires b.targetCount > 0 && !b.healthChecksEnabled && b.nextIndex + k <= 0x1_0000_0000_0000_0000
    modifies b
    ensures |targets| == k
    ensures forall t: nat :: t < b.targetCount ==>
              k / b.targetCount <= multiset(targets)[Some(t)] <= k / b.targetCount + if k % b.targetCount == 0 then 0 else 1
  {
    targets := [];
    var start, n := b.nextIndex, b.targetCount;
    for i := 0 to k
      invariant |targets| == i && b.nextIndex == Rem(start + i, TWO_64)
      invariant forall t: nat :: t < n ==> multiset(targets)[Some(t)] == Picks(start, i, n, t)
    {
      RemAdd(start + i, 1, TWO_64);
      var target := PickBlind(b);
      targets := targets + [target];
    }
    forall t: nat | t < n
      ensures k / n <= multiset(targets)[Some(t)] <= k / n + if k % n == 0 then 0 else 1
    {
      TicketFairness(start, k, n, t);
    }
  }

  /** One call of Pick with health checks while health does not change. */
  method PickHealthy(b: RoundRobinBalancer, healthy: set<nat>) returns (target: Option<nat>)
    requires b.targetCount > 0 && b.healthChecksEnabled && b.nextIndex + 1 < 0x1_0000_0000_0000_0000
    modifies b
    ensures target == Choose(old(b.nextIndex), b.targetCount, true, healthy) && b.nextIndex == old(b.nextIndex) + 1
  {
    var start, n := b.nextIndex, b.targetCount;
    var probes := (k: nat) => Candidate(start, k, n) in healthy;
    ghost var first;
    target, first := b.Pick(false, probes);
    CandidateIs(start, first, n);
    PickIsChoose(start, n, healthy, probes, first);
  }

  /** Calls Pick n times with health checks while health does not change: if no scan wraps, each
      healthy target answers its cyclic distance from the previous healthy one, another never. */
  method PickRound(b: RoundRobinBalancer, healthy: set<nat>) returns (targets: seq<Option<nat>>)
    requires b.targetCount > 0 && b.healthChecksEnabled && 4 * b.targetCount <= 0x1_0000_0000_0000_0000
    requires b.nextIndex + 2 * b.targetCount <= 0x1_0000_0000_0000_0000
    modifies b
    ensures |targets| == b.targetCount
    ensures forall t: nat :: t < b.targetCount ==>
              multiset(targets)[Some(t)] == if t in healthy then Gap(t, b.targetCount, healthy) else 0
  {
    targets := [];
    var start, n := b.nextIndex, b.targetCount;
    for i := 0 to n
      invariant |targets| == i && b.nextIndex == start + i
      invariant forall t: nat :: t < n ==> multiset(targets)[Some(t)] == Wins(start, i, n, healthy, t)
    {
      var target := PickHealthy(b, healthy);
      targets := targets + [target];
    }
    forall t: nat | t < n
      ensures multiset(targets)[Some(t)] == if t in healthy then Gap(t, n, healthy) else 0
    {
      ExactHealthyShares(start, n, healthy, t);
    }
  }
}
