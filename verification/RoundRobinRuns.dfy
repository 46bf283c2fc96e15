/** Any number of concurrent round-robin picks (internal/proxy/balancer.go): the atomic increment
    of each is one step, and what it does with its ticket is its own affair. */
module RoundRobinRuns {
  import opened Counting
  import opened Options
  import opened Remainders
  import opened RoundRobin

  /** The targets, and the probes' verdict on them. */
  datatype Config = Config(n: nat, healthChecks: bool, healthy: set<nat>)

  /** One call of Pick(false): before line 49, between 49 and its return, and after. */
  datatype Picker = Called | Drawn(ticket: uint64) | Done(target: Option<nat>)

  datatype State = State(nextIndex: uint64, pickers: seq<Picker>)

  datatype Action = Call | Draw(i: nat) | Return(i: nat)

  predicate Enabled(s: State, a: Action) {
    match a
    case Call => true
    case Draw(i) => i < |s.pickers| && s.pickers[i].Called?
    case Return(i) => i < |s.pickers| && s.pickers[i].Drawn?
  }

  function ChosenBy(cfg: Config, ticket: nat): Option<nat> {
    Choose(ticket, cfg.n, cfg.healthChecks, cfg.healthy)
  }

  function Apply(cfg: Config, s: State, a: Action): State
    requires Enabled(s, a)
  {
    match a
    case Call => s.(pickers := s.pickers + [Called])
    case Draw(i) => State(Rem(s.nextIndex + 1, TWO_64), s.pickers[i := Drawn(s.nextIndex)])
    case Return(i) => s.(pickers := s.pickers[i := Done(ChosenBy(cfg, s.pickers[i].ticket))])
  }

  predicate Leads(cfg: Config, s: State, acts: seq<Action>, t: State)
    decreases |acts|
  {
    if acts == [] then s == t else Enabled(s, acts[0]) && Leads(cfg, Apply(cfg, s, acts[0]), acts[1..], t)
  }

  /** Has its ticket. */
  function Ticketed(p: Picker): nat {
    if p.Called? then 0 else 1
  }

  /** Has returned target t, or will. */
  function Takes(cfg: Config, t: nat): Picker -> nat {
    (p: Picker) => if (p.Drawn? && ChosenBy(cfg, p.ticket) == Some(t)) || p == Done(Some(t)) then 1 else 0
  }

  /** How many of the k tickets from s on choose t. */
  function Given(cfg: Config, s: nat, k: nat, t: nat): nat {
    if k == 0 then 0
    else Given(cfg, s, k - 1, t) + if ChosenBy(cfg, Rem(s + k - 1, TWO_64)) == Some(t) then 1 else 0
  }

  /** Started from s, the picks so far hold consecutive tickets, one each. */
  ghost predicate Inv(cfg: Config, s: nat, u: State) {
    && u.nextIndex == Rem(s + Total(u.pickers, Ticketed), TWO_64)
    && forall t :: Total(u.pickers, Takes(cfg, t)) == Given(cfg, s, Total(u.pickers, Ticketed), t)
  }

  lemma RemNext(x: nat)
    ensures Rem(Rem(x, TWO_64) + 1, TWO_64) == Rem(x + 1, TWO_64)
  {
    RemAdd(x, 1, TWO_64);
  }

  /** A draw takes the ticket the counter shows and moves the counter on. */
  lemma StepKeepsCounter(cfg: Config, s: nat, u: State, a: Action)
    requires Inv(cfg, s, u) && Enabled(u, a)
    ensures var v := Apply(cfg, u, a);
            && Total(v.pickers, Ticketed) == Total(u.pickers, Ticketed) + (if a.Draw? then 1 else 0)
            && v.nextIndex == Rem(s + Total(v.pickers, Ticketed), TWO_64)
  {
    RemNext(s + Total(u.pickers, Ticketed));
    if a.Call? {
      TotalPush(u.pickers, Called, Ticketed);
    } else {
      TotalUpdate(u.pickers, a.i, Apply(cfg, u, a).pickers[a.i], Ticketed);
    }
  }

  lemma StepKeepsTakes(cfg: Config, s: nat, u: State, a: Action, t: nat)
    requires Inv(cfg, s, u) && Enabled(u, a)
    ensures var v := Apply(cfg, u, a);
            Total(v.pickers, Takes(cfg, t)) == Given(cfg, s, Total(v.pickers, Ticketed), t)
  {
    StepKeepsCounter(cfg, s, u, a);
    assert Total(u.pickers, Takes(cfg, t)) == Given(cfg, s, Total(u.pickers, Ticketed), t);
    if a.Call? {
      TotalPush(u.pickers, Called, Takes(cfg, t));
    } else {
      TotalUpdate(u.pickers, a.i, Apply(cfg, u, a).pickers[a.i], Takes(cfg, t));
    }
  }

  lemma StepKeepsInv(cfg: Config, s: nat, u: State, a: Action)
    requires Inv(cfg, s, u) && Enabled(u, a)
    ensures Inv(cfg, s, Apply(cfg, u, a))
  {
    StepKeepsCounter(cfg, s, u, a);
    forall t ensures Total(Apply(cfg, u, a).pickers, Takes(cfg, t))
                     == Given(cfg, s, Total(Apply(cfg, u, a).pickers, Ticketed), t) {
      StepKeepsTakes(cfg, s, u, a, t);
    }
  }

  lemma {:induction false} RunKeepsInv(cfg: Config, s: nat, u: State, acts: seq<Action>, v: State)
    requires Inv(cfg, s, u) && Leads(cfg, u, acts, v)
    ensures Inv(cfg, s, v)
    decreases |acts|
  {
    if acts != [] {
      StepKeepsInv(cfg, s, u, acts[0]);
      RunKeepsInv(cfg, s, Apply(cfg, u, acts[0]), acts[1..], v);
    }
  }

  lemma {:induction false} GivenIsPicks(cfg: Config, s: nat, k: nat, t: nat)
    requires cfg.n > 0 && !cfg.healthChecks
    ensures Given(cfg, s, k, t) == Picks(s, k, cfg.n, t)
  {
    if k > 0 {
      GivenIsPicks(cfg, s, k - 1, t);
    }
  }

  lemma {:induction false} GivenIsWins(cfg: Config, s: nat, k: nat, t: nat)
    requires cfg.n > 0 && cfg.healthChecks && s + k <= TWO_64
    ensures Given(cfg, s, k, t) == Wins(s, k, cfg.n, cfg.healthy, t)
  {
    if k > 0 {
      GivenIsWins(cfg, s, k - 1, t);
    }
  }

  /** However concurrent picks interleave, those that have drawn a ticket share out consecutive
      tickets: without health checks and a wrap, of k picks each target gets floor(k/n) or
      ceil(k/n); of n picks with health checks, each healthy one exactly its cyclic distance from
      the previous healthy one, and an unhealthy one none. */
  lemma ConcurrentShares(cfg: Config, s: uint64, acts: seq<Action>, u: State, t: nat)
    requires t < cfg.n && Leads(cfg, State(s, []), acts, u)
    ensures var k, picks := Total(u.pickers, Ticketed), Total(u.pickers, Takes(cfg, t));
            && (!cfg.healthChecks && s + k <= TWO_64 ==>
                  k / cfg.n <= picks <= k / cfg.n + if k % cfg.n == 0 then 0 else 1)
            && (cfg.healthChecks && k == cfg.n && s + k + k <= TWO_64 && 4 * k <= TWO_64 ==>
                  picks == if t in cfg.healthy then Gap(t, cfg.n, cfg.healthy) else 0)
  {
    RunKeepsInv(cfg, s, State(s, []), acts, u);
    var k := Total(u.pickers, Ticketed);
    if !cfg.healthChecks && s + k <= TWO_64 {
      GivenIsPicks(cfg, s, k, t);
      TicketFairness(s, k, cfg.n, t);
    } else if cfg.healthChecks && k == cfg.n && s + k + k <= TWO_64 && 4 * k <= TWO_64 {
      GivenIsWins(cfg, s, k, t);
      ExactHealthyShares(s, k, cfg.healthy, t);
    }
  }

  /** Across one wrap of the counter two targets' picks differ by at most two. */
  lemma ConcurrentSpread(cfg: Config, s: uint64, acts: seq<Action>, u: State, t: nat, other: nat)
    requires t < cfg.n && other < cfg.n && !cfg.healthChecks && Leads(cfg, State(s, []), acts, u)
    requires s + Total(u.pickers, Ticketed) <= 2 * TWO_64
    ensures Total(u.pickers, Takes(cfg, t)) <= Total(u.pickers, Takes(cfg, other)) + 2
  {
    RunKeepsInv(cfg, s, State(s, []), acts, u);
    var k := Total(u.pickers, Ticketed);
    GivenIsPicks(cfg, s, k, t);
    GivenIsPicks(cfg, s, k, other);
    SpreadAcrossWrap(s, k, cfg.n, t, other);
  }
}
