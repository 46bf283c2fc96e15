/** container/list's ring of elements around a sentinel, and the lruCache built on it
    (internal/proxy/cache.go), refining the recency sequence of module Lru. */
module LruHeap {
  import opened Lru
  import opened Options

  /** list.Element holding an *lruEntry. */
  class Element {
    var value: Entry
    var next: Element?
    var prev: Element?

    constructor (value: Entry)
      ensures this.value == value
    {
      this.value := value;
      next, prev := null, null;
    }
  }

  lemma SameMembers<T>(s: seq<T>, k: nat)
    requires 0 < k < |s|
    ensures var moved := [s[0], s[k]] + (s[..k] + s[k + 1..])[1..];
            forall x :: x in moved <==> x in s
  {
    assert (s[..k] + s[k + 1..])[1..] == s[1..k] + s[k + 1..];
    assert s == [s[0]] + s[1..k] + [s[k]] + s[k + 1..];
  }

  /** list.List: `ring` is the sentinel root followed by the elements, front to back. */
  class List {
    const root: Element
    var len: nat
    ghost var ring: seq<Element>

    /** Element j follows element i around a ring of n. */
    static predicate Follows(i: int, j: int, n: int) {
      0 <= i < n && j == if i + 1 == n then 0 else i + 1
    }

    ghost predicate Linked()
      reads this, ring
    {
      && |ring| > 0 && ring[0] == root
      && (forall i, j :: 0 <= i < j < |ring| ==> ring[i] != ring[j])
      && (forall i, j :: Follows(i, j, |ring|) ==> ring[i].next == ring[j] && ring[j].prev == ring[i])
    }

    ghost predicate Valid()
      reads this, ring
    {
      Linked() && len == |ring| - 1
    }

    /** The values, front to back. */
    ghost function Values(): (es: seq<Entry>)
      requires |ring| > 0
      reads this, ring
      ensures |es| == |ring| - 1
      ensures forall i :: 0 <= i < |es| ==> es[i] == ring[i + 1].value
    {
      seq(|ring| - 1, i requires 0 <= i < |ring| - 1 reads this, ring => ring[i + 1].value)
    }

    constructor ()
      ensures Valid() && ring == [root] && fresh(root)
    {
      var sentinel := new Element(Entry("", CachedResponse(0, map[], "", 0, ""), 0));
      root := sentinel;
      len := 0;
      ring := [sentinel];
      new;
      root.next := root;
      root.prev := root;
    }

    /** Joins the neighbours of the element at position k; the element itself is left alone. */
    method Unlink(e: Element, ghost k: nat)
      requires Linked() && 0 < k < |ring| && ring[k] == e
      modifies this`ring, ring
      ensures Linked() && ring == old(ring)[..k] + old(ring)[k + 1..]
      ensures forall x :: x in old(ring) ==> x.value == old(x.value)
    {
      ghost var n := |ring|;
      assert Follows(k - 1, k, n) && Follows(k, if k + 1 == n then 0 else k + 1, n);
      e.prev.next := e.next;
      e.next.prev := e.prev;
      ring := ring[..k] + ring[k + 1..];
      forall i, j | Follows(i, j, |ring|) ensures ring[i].next == ring[j] && ring[j].prev == ring[i] {
        assert i != k - 1 ==> Follows(if i < k then i else i + 1, if j == 0 then 0 else if j < k then j else j + 1, n);
      }
    }

    /** Puts a detached element right after the root. */
    method LinkFront(e: Element)
      requires Linked() && e !in ring
      modifies this`ring, ring, e`next, e`prev
      ensures Linked() && ring == [root, e] + old(ring)[1..]
      ensures forall x :: x in ring ==> x.value == old(x.value)
    {
      ghost var n := |ring|;
      assert Follows(0, if n == 1 then 0 else 1, n);
      e.prev := root;
      e.next := root.next;
      e.prev.next := e;
      e.next.prev := e;
      ghost var before := ring;
      ring := [root, e] + ring[1..];
      forall i, j | Follows(i, j, |ring|) ensures ring[i].next == ring[j] && ring[j].prev == ring[i] {
        if i >= 2 {
          assert Follows(i - 1, if j == 0 then 0 else j - 1, n);
          assert before[i - 1] == ring[i];
        }
      }
    }

    method PushFront(value: Entry) returns (e: Element)
      requires Valid()
      modifies this, ring
      ensures Valid() && fresh(e) && e.value == value
      ensures forall x :: x in ring <==> x in old(ring) || x == e
      ensures forall x :: x in old(ring) ==> x.value == old(x.value)
      ensures Values() == [value] + old(Values())
    {
      e := new Element(value);
      LinkFront(e);
      len := len + 1;
    }

    /** list.move to just after the root. */
    method Move(e: Element, ghost k: nat)
      requires Linked() && 0 < k < |ring| && ring[k] == e
      modifies this`ring, ring
      ensures Linked() && ring == [root, e] + (old(ring)[..k] + old(ring)[k + 1..])[1..]
      ensures forall x :: x in old(ring) ==> x.value == old(x.value)
    {
      Unlink(e, k);
      LinkFront(e);
    }

    /** What moving does to the values. */
    method MoveValue(e: Element, ghost k: nat)
      requires Linked() && 0 < k < |ring| && ring[k] == e
      modifies this`ring, ring
      ensures Linked() && ring == [root, e] + (old(ring)[..k] + old(ring)[k + 1..])[1..]
      ensures forall x :: x in old(ring) ==> x.value == old(x.value)
      ensures Values() == [old(e.value)] + (old(Values())[..k - 1] + old(Values())[k..])
    {
      Move(e, k);
    }

    method MoveToFront(e: Element, ghost k: nat)
      requires Valid() && 0 < k < |ring| && ring[k] == e
      modifies this, ring
      ensures Valid() && (forall x :: x in ring <==> x in old(ring))
      ensures forall x :: x in ring ==> x.value == old(x.value)
      ensures Values() == [old(e.value)] + (old(Values())[..k - 1] + old(Values())[k..])
    {
      assert Follows(0, 1, |ring|);
      if root.next != e {
        SameMembers(ring, k);
        MoveValue(e, k);
      }
    }

    method Remove(e: Element, ghost k: nat)
      requires Valid() && 0 < k < |ring| && ring[k] == e
      modifies this, ring
      ensures Valid() && (forall x :: x in ring <==> x in old(ring) && x != e)
      ensures forall x :: x in old(ring) ==> x.value == old(x.value)
      ensures Values() == old(Values())[..k - 1] + old(Values())[k..]
    {
      Unlink(e, k);
      e.next := null;
      e.prev := null;
      len := len - 1;
    }

    method Back() returns (e: Element?)
      requires Valid()
      ensures e == if |ring| == 1 then null else ring[|ring| - 1]
    {
      assert Follows(|ring| - 1, 0, |ring|);
      if len == 0 {
        return null;
      }
      return root.prev;
    }
  }

  lemma {:induction false} AtPosition(es: seq<Entry>, p: nat)
    requires Distinct(es) && p < |es|
    ensures Lookup(es, es[p].key) == Some(es[p])
    ensures Without(es, es[p].key) == es[..p] + es[p + 1..]
  {
    if p == 0 {
      LookupIs(es[1..], es[0].key);
      WithoutIs(es[1..], es[0].key);
      assert forall i :: 0 <= i < |es[1..]| ==> es[1..][i].key != es[0].key;
      assert es[1..] == es[..0] + es[1..];
    } else {
      AtPosition(es[1..], p - 1);
      assert es[..p] + es[p + 1..] == [es[0]] + (es[1..][..p - 1] + es[1..][p..]);
    }
  }

  class LruCache {
    var lruList: List
    var items: map<string, Element>
    const maxEntries: nat
    var stats: Stats

    /** The map's keys are the list's keys, and each leads to its own element. */
    ghost predicate Indexed()
      reads this, lruList, lruList.ring
    {
      && (forall e :: e in lruList.ring && e != lruList.root ==> e.value.key in items && items[e.value.key] == e)
      && (forall k :: k in items ==>
            items[k] in lruList.ring && items[k] != lruList.root && items[k].value.key == k)
    }

    /** Valid but for the recorded number of entries. */
    ghost predicate Countable()
      reads this, lruList, lruList.ring
    {
      lruList.Valid() && Indexed() && lruList.len <= maxEntries && maxEntries > 0
    }

    ghost predicate Valid()
      reads this, lruList, lruList.ring
    {
      Countable() && stats.entries == lruList.len
    }

    /** The list's values, front to back. */
    ghost function Entries(): seq<Entry>
      requires lruList.Valid()
      reads this, lruList, lruList.ring
    {
      lruList.Values()
    }

    /** The recency sequence this heap structure stands for. */
    ghost function View(): Cache
      requires lruList.Valid()
      reads this, lruList, lruList.ring
    {
      Cache(Entries(), maxEntries, stats)
    }

    /** The elements are the old ones and newly allocated ones, on the same list. */
    twostate predicate SameList()
      reads this, lruList
    {
      && lruList == old(lruList)
      && forall i :: 0 <= i < |lruList.ring| ==> lruList.ring[i] in old(lruList.ring) || fresh(lruList.ring[i])
    }

    /** No element is new. */
    twostate predicate SameElements()
      reads this, lruList
    {
      lruList == old(lruList) && forall i :: 0 <= i < |lruList.ring| ==> lruList.ring[i] in old(lruList.ring)
    }

    lemma KeysAreDistinct()
      requires lruList.Valid() && Indexed()
      ensures Distinct(Entries())
    {
    }

    lemma IsWellFormed()
      requires Valid()
      ensures WellFormed(View())
    {
      KeysAreDistinct();
    }

    /** A key's place in the ring, and what taking it out does to the sequence. */
    lemma Position(k: string) returns (p: nat)
      requires lruList.Valid() && Indexed() && k in items
      ensures 0 < p < |lruList.ring| && lruList.ring[p] == items[k]
      ensures Lookup(Entries(), k) == Some(items[k].value)
      ensures Without(Entries(), k) == Entries()[..p - 1] + Entries()[p..]
    {
      p :| 0 <= p < |lruList.ring| && lruList.ring[p] == items[k];
      KeysAreDistinct();
      AtPosition(Entries(), p - 1);
    }

    lemma NotFound(k: string)
      requires lruList.Valid() && Indexed() && k !in items
      ensures Lookup(Entries(), k) == None
    {
      LookupIs(Entries(), k);
    }

    constructor (maxEntries: int)
      ensures Valid() && fresh(lruList) && (forall x :: x in lruList.ring ==> fresh(x))
      ensures View() == Empty(Capacity(maxEntries))
    {
      lruList := new List();
      items := map[];
      this.maxEntries := Capacity(maxEntries);
      stats := Stats(0, 0, 0, 0, 0);
    }

    method Get(cacheKey: string, now: int) returns (found: Finding)
      requires Valid()
      modifies this, lruList, lruList.ring
      ensures Valid() && SameElements()
      ensures View() == Lru.Get(old(View()), cacheKey, now)
      ensures found == Find(old(View()), cacheKey, now)
    {
      if cacheKey in items {
        var entry := Touch(cacheKey);
        if now > entry.expiresAt {
          return Stale(entry);
        }
        Record(stats.(hits := stats.hits + 1));
        return Fresh(entry);
      }
      NotFound(cacheKey);
      Record(stats.(misses := stats.misses + 1));
      return Absent;
    }

    /** New statistics for an unchanged list. */
    method Record(counted: Stats)
      requires Countable() && counted.entries == lruList.len
      modifies this`stats
      ensures Valid() && View() == Cache(old(Entries()), maxEntries, counted)
    {
      stats := counted;
    }

    /** Lines 110-114: mark a resident key as most recently used. */
    method Touch(cacheKey: string) returns (entry: Entry)
      requires Valid() && cacheKey in items
      modifies lruList, lruList.ring
      ensures Valid() && SameElements()
      ensures Lookup(old(Entries()), cacheKey) == Some(entry)
      ensures Entries() == [entry] + Without(old(Entries()), cacheKey)
    {
      var element := items[cacheKey];
      ghost var p := Position(cacheKey);
      lruList.MoveToFront(element, p);
      entry := element.value;
    }

    method Set(cacheKey: string, response: CachedResponse, ttl: int, now: int, fallback: Ttl)
      requires Valid()
      modifies this, lruList, lruList.ring
      ensures Valid() && SameList()
      ensures View() == Lru.Set(old(View()), Entry(cacheKey, response, now + Effective(ttl, fallback)))
    {
      var ttl' := if ttl <= 0 then fallback else ttl;
      var value := Entry(cacheKey, response, now + ttl');
      Put(value);
      Record(stats.(entries := lruList.len));
    }

    /** Lines 140-155: everything Set does but for the number of entries. */
    method Put(value: Entry)
      requires Valid()
      modifies this, lruList, lruList.ring
      ensures Countable() && SameList()
      ensures Cache(Entries(), maxEntries, stats.(entries := lruList.len)) == Lru.Set(old(View()), value)
    {
      if value.key in items {
        Update(value);
      } else {
        Insert(value);
      }
    }


    /** Set's branch for a key that is present. */
    method Update(value: Entry)
      requires Valid() && value.key in items
      modifies this, lruList, lruList.ring
      ensures Valid() && SameList()
      ensures Cache(Entries(), maxEntries, stats.(entries := lruList.len)) == Lru.Set(old(View()), value)
    {
      var element := items[value.key];
      ghost var p := Position(value.key);
      ghost var es := Entries();
      element.value := value;
      assert Entries()[..p - 1] == es[..p - 1] && Entries()[p..] == es[p..];
      lruList.MoveToFront(element, p);
    }

    /** Lines 147-149: a new element at the front, and its map entry. */
    method Push(value: Entry)
      requires Valid() && value.key !in items
      modifies this, lruList, lruList.ring
      ensures lruList.Valid() && Indexed() && lruList.len == old(lruList.len) + 1 && SameList()
      ensures Entries() == [value] + old(Entries())
      ensures stats == old(stats).(stores := old(stats).stores + 1)
    {
      var element := lruList.PushFront(value);
      items := items[value.key := element];
      stats := stats.(stores := stats.stores + 1);
    }

    /** Set's branch for a new key: push, then evict the oldest if over capacity. */
    method Insert(value: Entry)
      requires Valid() && value.key !in items
      modifies this, lruList, lruList.ring
      ensures lruList.Valid() && Indexed() && lruList.len <= maxEntries && SameList()
      ensures Cache(Entries(), maxEntries, stats.(entries := lruList.len)) == Lru.Set(old(View()), value)
    {
      NotFound(value.key);
      Push(value);
      Evict();
    }

    /** Lines 152-154: drop the least recently used element if over capacity. */
    method Evict()
      requires lruList.Valid() && Indexed() && lruList.len <= maxEntries + 1
      modifies this, lruList, lruList.ring
      ensures lruList.Valid() && Indexed() && lruList.len <= maxEntries && SameList()
      ensures Entries() == Truncate(old(Entries()), maxEntries)
      ensures stats == old(stats).(evictions := old(stats).evictions + (|old(Entries())| - |Entries()|))
    {
      if lruList.len > maxEntries {
        RemoveOldest();
      }
    }

    method RemoveOldest()
      requires lruList.Valid() && Indexed() && lruList.len > 0
      modifies this, lruList, lruList.ring
      ensures lruList.Valid() && Indexed() && lruList.len == old(lruList.len) - 1 && SameList()
      ensures Entries() == old(Entries())[..old(lruList.len) - 1]
      ensures stats == old(stats).(evictions := old(stats).evictions + 1)
    {
      var element := lruList.Back();
      RemoveElement(element, |lruList.ring| - 1);
    }

    method RemoveElement(element: Element, ghost p: nat)
      requires lruList.Valid() && Indexed() && 0 < p < |lruList.ring| && lruList.ring[p] == element
      modifies this, lruList, lruList.ring
      ensures lruList.Valid() && Indexed() && lruList.len == old(lruList.len) - 1 && SameList()
      ensures Entries() == old(Entries())[..p - 1] + old(Entries())[p..]
      ensures stats == old(stats).(evictions := old(stats).evictions + 1)
    {
      lruList.Remove(element, p);
      items := items - {element.value.key};
      stats := stats.(evictions := stats.evictions + 1);
    }

    method Delete(cacheKey: string)
      requires Valid()
      modifies this, lruList, lruList.ring
      ensures Valid() && SameList()
      ensures View() == Lru.Delete(old(View()), cacheKey)
    {
      if cacheKey in items {
        ghost var p := Position(cacheKey);
        RemoveElement(items[cacheKey], p);
        stats := stats.(entries := lruList.len);
      } else {
        NotFound(cacheKey);
      }
    }

    method Purge()
      requires Valid()
      modifies this
      ensures Valid() && fresh(lruList) && (forall x :: x in lruList.ring ==> fresh(x))
      ensures View() == Lru.Purge(old(View()))
    {
      lruList := new List();
      items := map[];
      stats := stats.(entries := 0);
    }
  }
}
