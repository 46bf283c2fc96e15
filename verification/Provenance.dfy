/** Where a cache hit comes from, over whole runs of the proxy. */
module Provenance {
  import opened Options
  import opened CachePolicy
  import opened Headers
  import opened Lru
  import opened Proxy

  /** The last record stored under a key. */
  function LastRecord(log: seq<StoreRecord>, k: string): Option<StoreRecord> {
    if log == [] then None
    else if log[|log| - 1].key == k then Some(log[|log| - 1])
    else LastRecord(log[..|log| - 1], k)
  }

  /** The j-th record is the last one under k. */
  predicate IsLastRecord(log: seq<StoreRecord>, k: string, j: nat) {
    j < |log| && log[j].key == k && forall l :: j < l < |log| ==> log[l].key != k
  }

  lemma {:induction false} LastRecordAt(log: seq<StoreRecord>, k: string) returns (j: nat)
    requires LastRecord(log, k).Some?
    ensures IsLastRecord(log, k, j) && LastRecord(log, k) == Some(log[j])
  {
    j := |log| - 1;
    if log[j].key != k {
      j := LastRecordAt(log[..|log| - 1], k);
    }
  }

  /** The record is a store of what its trip's upstream answered, under its trip's key. */
  ghost predicate Genuine(s: State, r: StoreRecord) {
    && r.trip < |s.trips| && s.trips[r.trip].reply == Some(r.answer) && s.trips[r.trip].key == Some(r.key)
    && TtlOf(r.answer, r.first, r.second, r.fallback).Some?
    && r.entry.key == r.key
    && r.entry.expiresAt == r.now + KeptFor(r.answer, r.first, r.second, r.fallback)
    && exists storedAt :: r.entry.val == Kept(r.answer, storedAt, s.trips[r.trip].requestID)
  }

  /** The cached entries are the last records of their keys. */
  ghost predicate Recorded(s: State) {
    forall k :: Has(s.cache.entries, k) ==>
      LastRecord(s.log, k).Some? && Lookup(s.cache.entries, k) == Some(LastRecord(s.log, k).value.entry)
  }

  /** A hit replayed the record that was last under its key when it looked, before it expired. */
  predicate HitOk(s: State, x: Trip) {
    x.stage.Hit? ==>
      && x.key.Some? && x.stage.at <= |s.log| && x.stage.seen <= x.stage.entry.expiresAt
      && LastRecord(s.log[..x.stage.at], x.key.value).Some?
      && LastRecord(s.log[..x.stage.at], x.key.value).value.entry == x.stage.entry
  }

  /** Only trips whose upstream answered carry a reply, and an answered trip carries its own. */
  predicate ReplyOk(x: Trip) {
    && (x.reply.Some? ==> x.stage.Answered? || x.stage.Leaving? || x.stage.Left?)
    && (x.stage.Answered? ==> x.reply == Some(x.stage.answer))
  }

  ghost predicate Inv(cfg: Config, s: State) {
    && Recorded(s)
    && (forall i :: 0 <= i < |s.trips| ==> HitOk(s, s.trips[i]) && ReplyOk(s.trips[i]))
    && (forall j :: 0 <= j < |s.log| ==> Genuine(s, s.log[j]))
  }

  lemma StepKeepsRecorded(cfg: Config, s: State, a: Action)
    requires Recorded(s) && Enabled(cfg, s, a)
    ensures Recorded(Apply(cfg, s, a))
  {
    var t := Apply(cfg, s, a);
    forall k | Has(t.cache.entries, k)
      ensures LastRecord(t.log, k).Some? && Lookup(t.cache.entries, k) == Some(LastRecord(t.log, k).value.entry)
    {
      if Stores(s, a) {
        DoLookup(s.cache, StoreOp(s, a), k);
        assert t.log[..|t.log| - 1] == s.log;
      } else if a.Look? && s.trips[a.i].key.Some? {
        DoLookup(s.cache, GetOp(s.trips[a.i].key.value, a.now), k);
      }
    }
  }

  /** Trips keep their key and request ID, and a reply once given. */
  lemma StepKeepsTrip(cfg: Config, s: State, a: Action, i: nat)
    requires Enabled(cfg, s, a) && i < |s.trips| && ReplyOk(s.trips[i])
    ensures var t := Apply(cfg, s, a);
            i < |t.trips| && t.trips[i].key == s.trips[i].key && t.trips[i].requestID == s.trips[i].requestID
            && (s.trips[i].reply.Some? ==> t.trips[i].reply == s.trips[i].reply)
            && ReplyOk(t.trips[i])
  {
  }

  lemma StepKeepsHits(cfg: Config, s: State, a: Action, i: nat)
    requires Enabled(cfg, s, a) && Recorded(s) && i < |s.trips| && HitOk(s, s.trips[i])
    ensures var t := Apply(cfg, s, a); i < |t.trips| && HitOk(t, t.trips[i])
  {
    var t := Apply(cfg, s, a);
    assert s.log == t.log[..|s.log|];
    if s.trips[i].stage.Hit? {
      var at := s.trips[i].stage.at;
      assert t.log[..at] == s.log[..at];
    } else if t.trips[i].stage.Hit? {
      var k := s.trips[i].key.value;
      assert t.log[..|s.log|] == s.log;
      LookupIs(s.cache.entries, k);
    }
  }

  lemma StepKeepsGenuine(cfg: Config, s: State, a: Action, j: nat)
    requires Inv(cfg, s) && Enabled(cfg, s, a) && j < |NextLog(s, a)|
    ensures Genuine(Apply(cfg, s, a), NextLog(s, a)[j])
  {
  }

  lemma StepKeepsInv(cfg: Config, s: State, a: Action)
    requires Inv(cfg, s) && Enabled(cfg, s, a)
    ensures Inv(cfg, Apply(cfg, s, a))
  {
    var t := Apply(cfg, s, a);
    StepKeepsRecorded(cfg, s, a);
    forall i | 0 <= i < |t.trips| ensures HitOk(t, t.trips[i]) && ReplyOk(t.trips[i]) {
      if i < |s.trips| {
        StepKeepsHits(cfg, s, a, i);
        StepKeepsTrip(cfg, s, a, i);
      }
    }
    forall j | 0 <= j < |t.log| ensures Genuine(t, t.log[j]) {
      StepKeepsGenuine(cfg, s, a, j);
    }
  }

  lemma {:induction false} RunKeepsInv(cfg: Config, s: State, acts: seq<Action>, t: State)
    requires Inv(cfg, s) && Leads(cfg, s, acts, t)
    ensures Inv(cfg, t)
    decreases |acts|
  {
    if acts != [] {
      StepKeepsInv(cfg, s, acts[0]);
      RunKeepsInv(cfg, Apply(cfg, s, acts[0]), acts[1..], t);
    }
  }

  /** Every hit, in every run, replays what an upstream earlier answered to a request with the same
      key: the last response stored under that key before the lookup.  It is served no later than
      the time of that store plus the response's effective lifetime. */
  lemma HitProvenance(cfg: Config, acts: seq<Action>, s: State, i: nat) returns (j: nat)
    requires Leads(cfg, Init(cfg), acts, s) && i < |s.trips| && s.trips[i].stage.Hit?
    ensures var x := s.trips[i];
            && x.key.Some? && x.stage.at <= |s.log| && IsLastRecord(s.log[..x.stage.at], x.key.value, j)
            && var r := s.log[j];
               && r.trip < |s.trips| && s.trips[r.trip].key == x.key && s.trips[r.trip].reply == Some(r.answer)
               && (exists storedAt :: x.stage.entry.val == Kept(r.answer, storedAt, s.trips[r.trip].requestID))
               && TtlOf(r.answer, r.first, r.second, r.fallback).Some?
               && x.stage.seen <= r.now + KeptFor(r.answer, r.first, r.second, r.fallback)
  {
    assert Recorded(Init(cfg));
    RunKeepsInv(cfg, Init(cfg), acts, s);
    var x := s.trips[i];
    assert HitOk(s, x);
    j := LastRecordAt(s.log[..x.stage.at], x.key.value);
    assert Genuine(s, s.log[j]);
  }

  // ----- What a lookup and a store do -----

  /** A request is answered from the cache exactly if its key is resident and not expired. */
  lemma LookHitsIff(cfg: Config, s: State, i: nat, now: int)
    requires Enabled(cfg, s, Look(i, now))
    ensures var found := if s.trips[i].key.Some? then Lookup(s.cache.entries, s.trips[i].key.value) else None;
            Apply(cfg, s, Look(i, now)).trips[i].stage
            == if found.Some? && now <= found.value.expiresAt then Hit(found.value, now, |s.log|) else Picking
  {
  }

  /** A round trip that fails lets the connection go; one that succeeds brings the answer along. */
  lemma RoundTripTakesReply(cfg: Config, s: State, i: nat, reply: Option<Answer>)
    requires Enabled(cfg, s, RoundTrip(i, reply))
    ensures var x, y := s.trips[i], Apply(cfg, s, RoundTrip(i, reply)).trips[i];
            && y.key == x.key && y.requestID == x.requestID && y.reply == reply
            && y.stage == (match reply case None => Leaving(x.stage.t) case Some(a) => Answered(x.stage.t, a))
  {
  }

  lemma {:induction false} CapacityStays(cfg: Config, s: State, acts: seq<Action>, t: State)
    requires Leads(cfg, s, acts, t)
    ensures t.cache.capacity == s.cache.capacity
    decreases |acts|
  {
    if acts != [] {
      assert Apply(cfg, s, acts[0]).cache.capacity == s.cache.capacity;
      CapacityStays(cfg, Apply(cfg, s, acts[0]), acts[1..], t);
    }
  }

  /** An answer is kept exactly if its request has a key and it may be kept; it is then what the
      next lookup of that key finds. */
  lemma StoreKeepsIff(cfg: Config, acts: seq<Action>, s: State, a: Action)
    requires cfg.Valid() && Leads(cfg, Init(cfg), acts, s) && Enabled(cfg, s, a) && a.Store?
    ensures var x, t := s.trips[a.i], Apply(cfg, s, a);
            if x.key.Some? && TtlOf(x.stage.answer, a.first, a.second, a.fallback).Some?
            then Lookup(t.cache.entries, x.key.value)
                 == Some(Entry(x.key.value,
                               CachedResponse(x.stage.answer.status, Sanitize(x.stage.answer.header), x.stage.answer.body,
                                              a.storedAt, x.requestID),
                               a.now + KeptFor(x.stage.answer, a.first, a.second, a.fallback)))
                 && |t.log| == |s.log| + 1
            else t.cache == s.cache && t.log == s.log
  {
    CapacityStays(cfg, Init(cfg), acts, s);
    if Stores(s, a) {
      assert Apply(cfg, s, a).cache.entries[0] == Stored(StoreOp(s, a));
    }
  }
}
