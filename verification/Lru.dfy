/** lruCache (internal/proxy/cache.go) as a recency sequence, most recently used first, and what
    holds along every trace of its operations. */
module Lru {
  import opened Headers
  import opened Options

  datatype CachedResponse = CachedResponse(statusCode: int, header: Header, body: string, storedAt: int, requestID: string)

  /** A list element: its key, the response, and the expiry Set computed for it. */
  datatype Entry = Entry(key: string, val: CachedResponse, expiresAt: int)

  datatype Stats = Stats(entries: nat, hits: nat, misses: nat, stores: nat, evictions: nat)

  datatype Cache = Cache(entries: seq<Entry>, capacity: nat, stats: Stats)

  /** What Get reports: nothing, a usable response, or one past its expiry. */
  datatype Finding = Absent | Fresh(entry: Entry) | Stale(entry: Entry)

  /** A default lifetime, in nanoseconds: SetDefaultCacheTTL only ever stores positive durations. */
  type Ttl = d: int | d > 0 witness 1

  /** The clock and every duration count nanoseconds, as time.Duration does. */
  const SECOND: nat := 1_000_000_000

  const SIXTY_SECONDS: Ttl := 60 * SECOND

  /** What SetDefaultCacheTTL stores. */
  function DefaultTtl(d: int): (r: Ttl)
    ensures d > 0 ==> r == d
    ensures d <= 0 ==> r == 60_000_000_000
  {
    if d <= 0 then SIXTY_SECONDS else d
  }

  function Effective(ttl: int, fallback: Ttl): Ttl {
    if ttl <= 0 then fallback else ttl
  }

  function Empty(capacity: nat): Cache {
    Cache([], capacity, Stats(0, 0, 0, 0, 0))
  }

  /** NewLRUCache's replacement of a non-positive size. */
  function Capacity(maxEntries: int): (n: nat)
    ensures n > 0 && (maxEntries > 0 ==> n == maxEntries) && (maxEntries <= 0 ==> n == 1024)
  {
    if maxEntries <= 0 then 1024 else maxEntries
  }

  function Lookup(es: seq<Entry>, k: string): Option<Entry> {
    if es == [] then None else if es[0].key == k then Some(es[0]) else Lookup(es[1..], k)
  }

  predicate Has(es: seq<Entry>, k: string) {
    Lookup(es, k).Some?
  }

  function Without(es: seq<Entry>, k: string): seq<Entry> {
    if es == [] then [] else if es[0].key == k then Without(es[1..], k) else [es[0]] + Without(es[1..], k)
  }

  function Find(c: Cache, k: string, now: int): Finding {
    match Lookup(c.entries, k)
    case None => Absent
    case Some(e) => if now > e.expiresAt then Stale(e) else Fresh(e)
  }

  function Get(c: Cache, k: string, now: int): Cache {
    match Lookup(c.entries, k)
    case None => c.(stats := c.stats.(misses := c.stats.misses + 1))
    case Some(e) =>
      Cache([e] + Without(c.entries, k), c.capacity,
            if now > e.expiresAt then c.stats else c.stats.(hits := c.stats.hits + 1))
  }

  function Truncate(es: seq<Entry>, n: nat): seq<Entry> {
    if |es| > n then es[..|es| - 1] else es
  }

  function Set(c: Cache, e: Entry): Cache {
    if Has(c.entries, e.key) then
      var es := [e] + Without(c.entries, e.key);
      Cache(es, c.capacity, c.stats.(entries := |es|))
    else
      var es := Truncate([e] + c.entries, c.capacity);
      Cache(es, c.capacity, c.stats.(entries := |es|, stores := c.stats.stores + 1,
                                     evictions := c.stats.evictions + (|c.entries| + 1 - |es|)))
  }

  function Delete(c: Cache, k: string): Cache {
    if Has(c.entries, k) then
      var es := Without(c.entries, k);
      Cache(es, c.capacity, c.stats.(entries := |es|, evictions := c.stats.evictions + 1))
    else c
  }

  function Purge(c: Cache): Cache {
    Cache([], c.capacity, c.stats.(entries := 0))
  }

  // ----- Traces -----

  datatype Op =
    | GetOp(key: string, now: int)
    | SetOp(key: string, val: CachedResponse, ttl: int, now: int, fallback: Ttl)
    | DeleteOp(key: string)
    | PurgeOp

  function Stored(op: Op): Entry
    requires op.SetOp?
  {
    Entry(op.key, op.val, op.now + Effective(op.ttl, op.fallback))
  }

  function Do(c: Cache, op: Op): Cache {
    match op
    case GetOp(k, now) => Get(c, k, now)
    case SetOp(_, _, _, _, _) => Set(c, Stored(op))
    case DeleteOp(k) => Delete(c, k)
    case PurgeOp => Purge(c)
  }

  function Run(c: Cache, ops: seq<Op>): Cache {
    if ops == [] then c else Do(Run(c, ops[..|ops| - 1]), ops[|ops| - 1])
  }

  // ----- Facts about sequences of entries -----

  predicate Distinct(es: seq<Entry>) {
    forall i, j :: 0 <= i < j < |es| ==> es[i].key != es[j].key
  }

  lemma {:induction false} LookupIs(es: seq<Entry>, k: string)
    ensures Lookup(es, k).Some? ==> Lookup(es, k).value in es && Lookup(es, k).value.key == k
    ensures Lookup(es, k).None? ==> forall i :: 0 <= i < |es| ==> es[i].key != k
  {
    if es != [] && es[0].key != k {
      LookupIs(es[1..], k);
    }
  }

  lemma {:induction false} WithoutElements(es: seq<Entry>, k: string)
    ensures forall e :: e in Without(es, k) <==> e in es && e.key != k
    ensures Distinct(es) ==> Distinct(Without(es, k))
  {
    if es != [] {
      WithoutElements(es[1..], k);
    }
  }

  lemma {:induction false} WithoutSize(es: seq<Entry>, k: string)
    ensures |Without(es, k)| <= |es|
    ensures !Has(es, k) ==> Without(es, k) == es
    ensures Distinct(es) && Has(es, k) ==> |Without(es, k)| == |es| - 1
  {
    if es != [] {
      WithoutSize(es[1..], k);
      LookupIs(es[1..], k);
    }
  }

  lemma WithoutIs(es: seq<Entry>, k: string)
    ensures Distinct(es) ==> Distinct(Without(es, k))
    ensures forall e :: e in Without(es, k) <==> e in es && e.key != k
    ensures |Without(es, k)| <= |es|
    ensures !Has(es, k) ==> Without(es, k) == es
    ensures Distinct(es) && Has(es, k) ==> |Without(es, k)| == |es| - 1
  {
    WithoutElements(es, k);
    WithoutSize(es, k);
  }

  lemma {:induction false} LookupWithout(es: seq<Entry>, k: string, other: string)
    ensures Lookup(Without(es, k), other) == if other == k then None else Lookup(es, other)
  {
    if es != [] {
      LookupWithout(es[1..], k, other);
    }
  }

  lemma {:induction false} LookupDropLast(es: seq<Entry>, k: string)
    requires es != []
    ensures Has(es[..|es| - 1], k) ==> Lookup(es[..|es| - 1], k) == Lookup(es, k)
    ensures !Has(es[..|es| - 1], k) ==> Lookup(es, k) == if es[|es| - 1].key == k then Some(es[|es| - 1]) else None
  {
    if |es| > 1 && es[0].key != k {
      LookupDropLast(es[1..], k);
      assert es[..|es| - 1][1..] == es[1..][..|es| - 2];
    }
  }

  predicate WellFormed(c: Cache) {
    Distinct(c.entries) && |c.entries| <= c.capacity && c.stats.entries == |c.entries|
  }

  lemma DoKeepsWellFormed(c: Cache, op: Op)
    requires WellFormed(c) && c.capacity > 0
    ensures WellFormed(Do(c, op)) && Do(c, op).capacity == c.capacity
  {
    if !op.PurgeOp? {
      LookupIs(c.entries, op.key);
      WithoutIs(c.entries, op.key);
    }
  }

  lemma {:induction false} RunKeepsWellFormed(c: Cache, ops: seq<Op>)
    requires WellFormed(c) && c.capacity > 0
    ensures WellFormed(Run(c, ops)) && Run(c, ops).capacity == c.capacity
  {
    if ops != [] {
      RunKeepsWellFormed(c, ops[..|ops| - 1]);
      DoKeepsWellFormed(Run(c, ops[..|ops| - 1]), ops[|ops| - 1]);
    }
  }

  // ----- Counters -----

  function Gets(ops: seq<Op>): nat {
    if ops == [] then 0 else Gets(ops[..|ops| - 1]) + if ops[|ops| - 1].GetOp? then 1 else 0
  }

  /** How many Gets of the trace found a thing of the given kind. */
  function Found(c: Cache, ops: seq<Op>, kind: Finding -> bool): nat {
    if ops == [] then 0 else
    var op := ops[|ops| - 1];
    Found(c, ops[..|ops| - 1], kind)
    + if op.GetOp? && kind(Find(Run(c, ops[..|ops| - 1]), op.key, op.now)) then 1 else 0
  }

  function Purged(c: Cache, ops: seq<Op>): nat {
    if ops == [] then 0 else
    Purged(c, ops[..|ops| - 1]) + if ops[|ops| - 1].PurgeOp? then |Run(c, ops[..|ops| - 1]).entries| else 0
  }

  /** Every stored entry is still there, was evicted (a Delete counts as an eviction), or went in
      a Purge.  Every Get that finds a fresh entry is a hit, every one that finds nothing a miss;
      one that finds an expired entry is neither. */
  lemma {:induction false} CounterConservation(capacity: nat, ops: seq<Op>)
    requires capacity > 0
    ensures var s := Run(Empty(capacity), ops).stats;
            && s.stores == s.entries + s.evictions + Purged(Empty(capacity), ops)
            && s.hits == Found(Empty(capacity), ops, (f: Finding) => f.Fresh?)
            && s.misses == Found(Empty(capacity), ops, (f: Finding) => f.Absent?)
            && Gets(ops) == s.hits + s.misses + Found(Empty(capacity), ops, (f: Finding) => f.Stale?)
  {
    if ops != [] {
      CounterConservation(capacity, ops[..|ops| - 1]);
      RunKeepsWellFormed(Empty(capacity), ops[..|ops| - 1]);
      if !ops[|ops| - 1].PurgeOp? {
        WithoutIs(Run(Empty(capacity), ops[..|ops| - 1]).entries, ops[|ops| - 1].key);
      }
    }
  }

  // ----- Provenance and freshness -----

  predicate Forgets(op: Op, k: string) {
    op.PurgeOp? || (op.DeleteOp? && op.key == k)
  }

  /** What the trace last stored under k and has not removed since. */
  function LastStore(ops: seq<Op>, k: string): Option<Entry> {
    if ops == [] then None else
    var op := ops[|ops| - 1];
    if op.SetOp? && op.key == k then Some(Stored(op))
    else if Forgets(op, k) then None
    else LastStore(ops[..|ops| - 1], k)
  }

  lemma DoLookup(c: Cache, op: Op, k: string)
    ensures var after := Lookup(Do(c, op).entries, k);
            after.Some? ==>
            !Forgets(op, k) && after == if op.SetOp? && op.key == k then Some(Stored(op)) else Lookup(c.entries, k)
  {
    if op.SetOp? && !Has(c.entries, op.key) {
      LookupDropLast([Stored(op)] + c.entries, k);
      assert ([Stored(op)] + c.entries)[1..] == c.entries;
    } else if !op.PurgeOp? {
      LookupWithout(c.entries, op.key, k);
      LookupIs(c.entries, op.key);
    }
  }

  lemma {:induction false} ResidentIsLastStore(capacity: nat, ops: seq<Op>, k: string)
    ensures Has(Run(Empty(capacity), ops).entries, k) ==> Lookup(Run(Empty(capacity), ops).entries, k) == LastStore(ops, k)
  {
    if ops != [] {
      ResidentIsLastStore(capacity, ops[..|ops| - 1], k);
      DoLookup(Run(Empty(capacity), ops[..|ops| - 1]), ops[|ops| - 1], k);
    }
  }

  /** The j-th operation stored e, and nothing since has replaced or removed it. */
  predicate StoredLastAt(ops: seq<Op>, k: string, e: Entry, j: nat) {
    && j < |ops| && ops[j].SetOp? && ops[j].key == k && Stored(ops[j]) == e
    && forall l :: j < l < |ops| ==> !Forgets(ops[l], k) && !(ops[l].SetOp? && ops[l].key == k)
  }

  lemma {:induction false} LastStoreAt(ops: seq<Op>, k: string) returns (j: nat)
    requires LastStore(ops, k).Some?
    ensures StoredLastAt(ops, k, LastStore(ops, k).value, j)
  {
    j := |ops| - 1;
    if !(ops[j].SetOp? && ops[j].key == k) {
      j := LastStoreAt(ops[..|ops| - 1], k);
    }
  }

  /** Every hit replays the last response stored under its key, within its effective lifetime;
      every stale find is that response past its lifetime.  No assumption on the clock. */
  lemma FoundIsLastStored(capacity: nat, ops: seq<Op>, k: string, now: int) returns (j: nat)
    requires Find(Run(Empty(capacity), ops), k, now) != Absent
    ensures var f := Find(Run(Empty(capacity), ops), k, now);
            && StoredLastAt(ops, k, f.entry, j) && f.entry.val == ops[j].val
            && (f.Fresh? <==> now <= ops[j].now + Effective(ops[j].ttl, ops[j].fallback))
  {
    ResidentIsLastStore(capacity, ops, k);
    j := LastStoreAt(ops, k);
  }

  // ----- Retention -----

  /** The keys in front of k. */
  function Ahead(es: seq<Entry>, k: string): set<string> {
    if es == [] || es[0].key == k then {} else {es[0].key} + Ahead(es[1..], k)
  }

  function Touches(c: Cache, op: Op): set<string> {
    if op.SetOp? || (op.GetOp? && Has(c.entries, op.key)) then {op.key} else {}
  }

  /** The keys other than k that the trace stores or finds; a stale find counts. */
  function TouchedOthers(c: Cache, ops: seq<Op>, k: string): set<string> {
    if ops == [] then {} else
    TouchedOthers(c, ops[..|ops| - 1], k) + (Touches(Run(c, ops[..|ops| - 1]), ops[|ops| - 1]) - {k})
  }

  lemma {:induction false} AheadIs(es: seq<Entry>, k: string)
    requires Distinct(es)
    ensures forall x :: x in Ahead(es, k) ==> x != k && Has(es, x)
    ensures |Ahead(es, k)| <= |es|
    ensures Has(es, k) ==> |Ahead(es, k)| < |es|
  {
    if es != [] && es[0].key != k {
      AheadIs(es[1..], k);
    }
  }

  lemma {:induction false} AheadWithout(es: seq<Entry>, k: string, other: string)
    requires other != k
    ensures Ahead(Without(es, other), k) == Ahead(es, k) - {other}
  {
    if es != [] && es[0].key != k {
      AheadWithout(es[1..], k, other);
    }
  }

  lemma {:induction false} AheadDropLast(es: seq<Entry>, k: string)
    requires es != [] && Distinct(es) && Has(es, k)
    ensures Has(es[..|es| - 1], k) ==> Ahead(es[..|es| - 1], k) == Ahead(es, k)
    ensures !Has(es[..|es| - 1], k) ==> |Ahead(es, k)| == |es| - 1
  {
    if es[0].key != k {
      assert Has(es[1..], k);
      AheadDropLast(es[1..], k);
      AheadIs(es[1..], k);
      LookupIs(es[1..], es[0].key);
      assert es[..|es| - 1][1..] == es[1..][..|es| - 2];
      assert es[0].key !in Ahead(es[1..], k);
    }
  }

  lemma AheadAfterMove(es: seq<Entry>, e: Entry, k: string)
    requires Has(es, k) && e.key != k
    ensures var moved := [e] + Without(es, e.key);
            Has(moved, k) && Ahead(moved, k) == Ahead(es, k) + {e.key}
  {
    AheadWithout(es, k, e.key);
    LookupWithout(es, e.key, k);
    assert ([e] + Without(es, e.key))[1..] == Without(es, e.key);
  }

  lemma PushIs(es: seq<Entry>, e: Entry, k: string)
    requires Distinct(es) && Has(es, k) && !Has(es, e.key)
    ensures Distinct([e] + es) && Has([e] + es, k) && Ahead([e] + es, k) == Ahead(es, k) + {e.key}
  {
    assert ([e] + es)[1..] == es;
    LookupIs(es, e.key);
    LookupIs(es, k);
  }

  lemma AheadAfterPush(es: seq<Entry>, e: Entry, k: string, capacity: nat)
    requires Distinct(es) && |es| <= capacity && Has(es, k) && !Has(es, e.key)
    ensures var pushed := Truncate([e] + es, capacity);
            if Has(pushed, k) then Ahead(pushed, k) == Ahead(es, k) + {e.key}
            else |Ahead(es, k) + {e.key}| == capacity
  {
    PushIs(es, e, k);
    AheadDropLast([e] + es, k);
  }

  lemma AheadAfter(c: Cache, op: Op, k: string)
    requires WellFormed(c) && Has(c.entries, k) && !Forgets(op, k)
    ensures var d := Do(c, op); var ahead := Ahead(c.entries, k) + (Touches(c, op) - {k});
            if Has(d.entries, k)
            then Ahead(d.entries, k) <= ahead
              && ((op.GetOp? || op.SetOp?) && op.key != k ==> Ahead(d.entries, k) == ahead)
            else |ahead| == c.capacity
  {
    LookupIs(c.entries, op.key);
    if op.key == k {
      assert Do(c, op).entries[0].key == k;
    } else if op.SetOp? {
      assert Touches(c, op) - {k} == {op.key};
      if Has(c.entries, op.key) {
        AheadAfterMove(c.entries, Stored(op), k);
      } else {
        AheadAfterPush(c.entries, Stored(op), k, c.capacity);
      }
    } else if op.GetOp? {
      if Has(c.entries, op.key) {
        assert Touches(c, op) - {k} == {op.key};
        AheadAfterMove(c.entries, Lookup(c.entries, op.key).value, k);
      }
    } else {
      AheadWithout(c.entries, k, op.key);
      LookupWithout(c.entries, op.key, k);
    }
  }

  lemma SubsetSize<T>(a: set<T>, b: set<T>)
    requires a <= b
    ensures |a| <= |b|
  {
    if a != {} {
      var x :| x in a;
      SubsetSize(a - {x}, b - {x});
    }
  }

  /** A key just touched stays until at least `capacity` distinct other keys have been touched,
      unless it is deleted or the cache purged. */
  lemma {:induction false} Retention(c: Cache, ops: seq<Op>, k: string)
    requires WellFormed(c) && c.capacity > 0 && c.entries != [] && c.entries[0].key == k
    requires forall i :: 0 <= i < |ops| ==> !Forgets(ops[i], k)
    requires |TouchedOthers(c, ops, k)| < c.capacity
    ensures Has(Run(c, ops).entries, k)
    ensures Ahead(Run(c, ops).entries, k) <= TouchedOthers(c, ops, k)
  {
    if ops != [] {
      var prefix, op := ops[..|ops| - 1], ops[|ops| - 1];
      SubsetSize(TouchedOthers(c, prefix, k), TouchedOthers(c, ops, k));
      Retention(c, prefix, k);
      RunKeepsWellFormed(c, prefix);
      var mid := Run(c, prefix);
      AheadAfter(mid, op, k);
      SubsetSize(Ahead(mid.entries, k) + (Touches(mid, op) - {k}), TouchedOthers(c, ops, k));
    }
  }

  /** Along Gets and Sets of other keys the count is exact: k is resident if and only if fewer
      than `capacity` distinct other keys have been touched since k was. */
  lemma {:induction false} RetentionExact(c: Cache, ops: seq<Op>, k: string)
    requires WellFormed(c) && c.capacity > 0 && c.entries != [] && c.entries[0].key == k
    requires forall i :: 0 <= i < |ops| ==> (ops[i].GetOp? || ops[i].SetOp?) && ops[i].key != k
    ensures Has(Run(c, ops).entries, k) <==> |TouchedOthers(c, ops, k)| < c.capacity
    ensures Has(Run(c, ops).entries, k) ==> Ahead(Run(c, ops).entries, k) == TouchedOthers(c, ops, k)
  {
    if ops != [] {
      var prefix, op := ops[..|ops| - 1], ops[|ops| - 1];
      RetentionExact(c, prefix, k);
      RunKeepsWellFormed(c, ops);
      RunKeepsWellFormed(c, prefix);
      var mid := Run(c, prefix);
      SubsetSize(TouchedOthers(c, prefix, k), TouchedOthers(c, ops, k));
      DoLookup(mid, op, k);
      if Has(mid.entries, k) {
        AheadAfter(mid, op, k);
        AheadIs(Run(c, ops).entries, k);
      }
    }
  }

  /** e is resident under k, and only keys of `others` are ahead of it. */
  predicate Retained(c: Cache, k: string, e: Entry, others: set<string>) {
    WellFormed(c) && c.capacity > 0 && Lookup(c.entries, k) == Some(e) && Ahead(c.entries, k) <= others
  }

  lemma SetRetains(c: Cache, op: Op)
    requires WellFormed(c) && c.capacity > 0 && op.SetOp?
    ensures Retained(Do(c, op), op.key, Stored(op), {})
  {
    DoKeepsWellFormed(c, op);
    assert Do(c, op).entries[0] == Stored(op);
  }

  /** One operation on another key, or a Get of k, keeps k while fewer than `capacity` others are
      ahead of it. */
  lemma DoRetains(c: Cache, op: Op, k: string, e: Entry, others: set<string>)
    requires Retained(c, k, e, others) && (op.GetOp? || (op.SetOp? && op.key != k))
    requires |others + ({op.key} - {k})| < c.capacity
    ensures Retained(Do(c, op), k, e, others + ({op.key} - {k}))
  {
    DoKeepsWellFormed(c, op);
    AheadAfter(c, op, k);
    SubsetSize(Ahead(c.entries, k) + (Touches(c, op) - {k}), others + ({op.key} - {k}));
    DoLookup(c, op, k);
  }

  // ----- Inclusion -----

  /** a is b with some elements left out, order kept. */
  predicate Subsequence(a: seq<Entry>, b: seq<Entry>) {
    a == [] || (b != [] && ((a[0] == b[0] && Subsequence(a[1..], b[1..])) || Subsequence(a, b[1..])))
  }

  lemma {:induction false} SubsequenceIs(a: seq<Entry>, b: seq<Entry>)
    requires Subsequence(a, b)
    ensures |a| <= |b|
    ensures forall e :: e in a ==> e in b
  {
    if a != [] {
      if Subsequence(a, b[1..]) {
        SubsequenceIs(a, b[1..]);
      } else {
        SubsequenceIs(a[1..], b[1..]);
        assert a == [b[0]] + a[1..] && b == [b[0]] + b[1..];
      }
    }
  }

  lemma {:induction false} SubsequenceTail(a: seq<Entry>, b: seq<Entry>)
    requires a != [] && Subsequence(a, b)
    ensures Subsequence(a[1..], b)
  {
    if Subsequence(a, b[1..]) {
      SubsequenceTail(a, b[1..]);
    }
  }

  lemma {:induction false} SubsequenceLookup(a: seq<Entry>, b: seq<Entry>, k: string)
    requires Subsequence(a, b) && Distinct(b) && Has(a, k)
    ensures Lookup(b, k) == Lookup(a, k)
  {
    if Subsequence(a, b[1..]) {
      SubsequenceIs(a, b[1..]);
      LookupIs(a, k);
      SubsequenceLookup(a, b[1..], k);
    } else if a[0].key != k {
      SubsequenceLookup(a[1..], b[1..], k);
    }
  }

  lemma {:induction false} SubsequenceWithout(a: seq<Entry>, b: seq<Entry>, k: string)
    requires Subsequence(a, b)
    ensures Subsequence(Without(a, k), Without(b, k))
  {
    if a != [] {
      if Subsequence(a, b[1..]) {
        SubsequenceWithout(a, b[1..], k);
        if b[0].key != k {
          assert Without(b, k)[1..] == Without(b[1..], k);
        }
      } else {
        SubsequenceWithout(a[1..], b[1..], k);
        if b[0].key != k {
          assert Without(b, k)[1..] == Without(b[1..], k);
          assert Without(a, k)[1..] == Without(a[1..], k);
        }
      }
    }
  }

  lemma {:induction false} SubsequenceDropLast(a: seq<Entry>, b: seq<Entry>)
    requires a != [] && Subsequence(a, b)
    ensures Subsequence(a[..|a| - 1], b[..|b| - 1]) && Subsequence(a[..|a| - 1], b)
  {
    if |a| > 1 {
      if Subsequence(a, b[1..]) {
        SubsequenceDropLast(a, b[1..]);
        assert b[..|b| - 1][1..] == b[1..][..|b| - 2];
      } else {
        SubsequenceDropLast(a[1..], b[1..]);
        assert b[..|b| - 1][1..] == b[1..][..|b| - 2];
        assert a[..|a| - 1][1..] == a[1..][..|a| - 2];
      }
    }
  }

  lemma SubsequencePush(e: Entry, a: seq<Entry>, b: seq<Entry>)
    requires Subsequence(a, b)
    ensures Subsequence([e] + a, [e] + b)
  {
    assert ([e] + a)[1..] == a && ([e] + b)[1..] == b;
  }

  /** The smaller cache's list is contained in the larger's, and the larger is ahead of it by no
      more than the difference in capacity. */
  predicate Included(small: Cache, large: Cache) {
    && WellFormed(small) && WellFormed(large)
    && Subsequence(small.entries, large.entries)
    && |large.entries| - |small.entries| <= large.capacity - small.capacity
    && small.stats.hits <= large.stats.hits && small.stats.misses >= large.stats.misses
  }

  lemma MoveKeepsSubsequence(a: seq<Entry>, b: seq<Entry>, e: Entry)
    requires Subsequence(a, b)
    ensures Subsequence([e] + Without(a, e.key), [e] + Without(b, e.key))
  {
    SubsequenceWithout(a, b, e.key);
    SubsequencePush(e, Without(a, e.key), Without(b, e.key));
  }

  /** The key is new to the smaller cache: it pushes, and drops its last entry if full. */
  lemma PushKeepsSubsequence(a: seq<Entry>, b: seq<Entry>, e: Entry, n: nat, m: nat)
    requires Subsequence(a, b) && Distinct(b) && !Has(a, e.key)
    requires |a| <= n && |b| <= m && |b| - |a| <= m - n
    ensures Has(b, e.key) ==> Subsequence(Truncate([e] + a, n), [e] + Without(b, e.key))
    ensures !Has(b, e.key) ==> Subsequence(Truncate([e] + a, n), Truncate([e] + b, m))
  {
    WithoutSize(a, e.key);
    if Has(b, e.key) {
      MoveKeepsSubsequence(a, b, e);
      SubsequenceDropLast([e] + a, [e] + Without(b, e.key));
    } else {
      SubsequencePush(e, a, b);
      SubsequenceDropLast([e] + a, [e] + b);
    }
  }

  lemma SetKeepsIncluded(small: Cache, large: Cache, e: Entry)
    requires Included(small, large) && 0 < small.capacity <= large.capacity
    ensures Subsequence(Set(small, e).entries, Set(large, e).entries)
    ensures |Set(large, e).entries| - |Set(small, e).entries| <= large.capacity - small.capacity
  {
    var a, b, k := small.entries, large.entries, e.key;
    WithoutSize(a, k);
    WithoutSize(b, k);
    if Has(a, k) {
      SubsequenceLookup(a, b, k);
      MoveKeepsSubsequence(a, b, e);
    } else {
      PushKeepsSubsequence(a, b, e, small.capacity, large.capacity);
    }
  }

  lemma DoKeepsIncluded(small: Cache, large: Cache, op: Op)
    requires Included(small, large) && 0 < small.capacity <= large.capacity
    ensures Included(Do(small, op), Do(large, op))
  {
    DoKeepsWellFormed(small, op);
    DoKeepsWellFormed(large, op);
    if op.SetOp? {
      SetKeepsIncluded(small, large, Stored(op));
    } else if !op.PurgeOp? {
      var a, b, k := small.entries, large.entries, op.key;
      WithoutIs(a, k);
      WithoutIs(b, k);
      SubsequenceWithout(a, b, k);
      if Has(a, k) {
        SubsequenceLookup(a, b, k);
        SubsequencePush(Lookup(a, k).value, Without(a, k), Without(b, k));
      } else if Has(b, k) && op.GetOp? {
        assert ([Lookup(b, k).value] + Without(b, k))[1..] == Without(b, k);
      }
    }
  }

  /** A larger cache never loses a lookup.  On any one trace the smaller cache's list is an
      order-preserving subsequence of the larger's, with the same responses and expiries, so
      whatever the smaller finds the larger finds too. */
  lemma {:induction false} LargerCacheIncludesSmaller(n: nat, m: nat, ops: seq<Op>)
    requires 0 < n <= m
    ensures Included(Run(Empty(n), ops), Run(Empty(m), ops))
    ensures forall k, now :: Find(Run(Empty(n), ops), k, now) != Absent
                             ==> Find(Run(Empty(m), ops), k, now) == Find(Run(Empty(n), ops), k, now)
  {
    if ops != [] {
      LargerCacheIncludesSmaller(n, m, ops[..|ops| - 1]);
      RunKeepsWellFormed(Empty(n), ops[..|ops| - 1]);
      RunKeepsWellFormed(Empty(m), ops[..|ops| - 1]);
      DoKeepsIncluded(Run(Empty(n), ops[..|ops| - 1]), Run(Empty(m), ops[..|ops| - 1]), ops[|ops| - 1]);
    }
    var small, large := Run(Empty(n), ops), Run(Empty(m), ops);
    forall k, now | Find(small, k, now) != Absent ensures Find(large, k, now) == Find(small, k, now) {
      SubsequenceLookup(small.entries, large.entries, k);
    }
  }
}
