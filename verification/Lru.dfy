/** The least-recently-used cache, against the history of its operations. */
module Lru {
  import opened Common

  /** What makes a key recent: being stored, or being found. */
  datatype Event<K, V> = Put(key: K, value: V) | Hit(key: K)

  /** The value last stored for a key. */
  function Latest<K(==), V>(events: seq<Event<K, V>>, k: K): Option<V> {
    if events == [] then None
    else
      var e := events[|events| - 1];
      if e.Put? && e.key == k then Some(e.value) else Latest(events[..|events| - 1], k)
  }

  /** The keys of a history outside `seen`, most recent first, each once, with its latest value. */
  function Recent<K(==), V>(events: seq<Event<K, V>>, seen: set<K>): seq<(K, V)> {
    if events == [] then []
    else
      var k, before := events[|events| - 1].key, events[..|events| - 1];
      if k in seen then Recent(before, seen)
      else
        var v := Latest(events, k);
        (if v.Some? then [(k, v.value)] else []) + Recent(before, seen + {k})
  }

  ghost function KeySet<K, V>(es: seq<(K, V)>): set<K> {
    set e | e in es :: e.0
  }

  ghost predicate Distinct<K, V>(es: seq<(K, V)>) {
    forall i, j :: 0 <= i < j < |es| ==> es[i].0 != es[j].0
  }

  /** `erase` of the element an index entry points to. */
  function Without<K(==), V>(es: seq<(K, V)>, k: K): seq<(K, V)> {
    if es == [] then [] else if es[0].0 == k then Without(es[1..], k) else [es[0]] + Without(es[1..], k)
  }

  function Take<T>(s: seq<T>, n: nat): seq<T> { s[..Min(n, |s|)] }

  // ---------------------------------------------------------------- facts on lists

  lemma {:induction false} WithoutMeans<K, V>(es: seq<(K, V)>, k: K)
    requires Distinct(es)
    ensures var out := Without(es, k);
            && Distinct(out)
            && (forall i :: 0 <= i < |out| ==> out[i] in es && out[i].0 != k)
            && (forall i :: 0 <= i < |es| && es[i].0 != k ==> es[i] in out)
  {
    if es != [] {
      var rest := es[1..];
      WithoutMeans(rest, k);
      var below := Without(rest, k);
      forall i | 0 <= i < |below|
        ensures below[i] in es && below[i].0 != es[0].0
      {
        assert below[i] in rest;
      }
      if es[0].0 != k {
        assert Without(es, k) == [es[0]] + below;
      }
      forall i | 0 <= i < |es| && es[i].0 != k
        ensures es[i] in Without(es, k)
      {
        if i > 0 { assert es[i] == rest[i - 1]; }
      }
    }
  }

  /** Moving a key to the front, with a new value. */
  lemma MoveToFront<K, V>(es: seq<(K, V)>, k: K, v: V)
    requires Distinct(es)
    ensures var full := [(k, v)] + Without(es, k);
            && Distinct(full) && KeySet(full) == KeySet(es) + {k}
            && (forall e :: e in full ==> e == (k, v) || (e in es && e.0 != k))
            && ((k, v) in es ==> forall e :: e in full <==> e in es)
  {
    WithoutMeans(es, k);
    hide Without;
    var out := Without(es, k);
    var full := [(k, v)] + out;
    forall e | e in full
      ensures e == (k, v) || (e in es && e.0 != k)
    {
      var i :| 0 <= i < |full| && full[i] == e;
      if i > 0 { assert e == out[i - 1]; }
    }
    forall e | e in es && e.0 != k
      ensures e in full
    {
      var i :| 0 <= i < |es| && es[i] == e;
    }
    assert full[0].0 == k;
    forall x | x in KeySet(es) + {k}
      ensures x in KeySet(full)
    {
      if x != k {
        var e :| e in es && e.0 == x;
        assert e in full;
      }
    }
  }

  lemma {:induction false} WithoutAbsent<K, V>(es: seq<(K, V)>, k: K)
    requires forall i :: 0 <= i < |es| ==> es[i].0 != k
    ensures Without(es, k) == es
  {
    if es != [] { WithoutAbsent(es[1..], k); }
  }

  /** Dropping a key commutes with cutting, up to the place the key leaves free. */
  lemma {:induction false} TakeWithout<K, V>(es: seq<(K, V)>, k: K, n: nat)
    requires Distinct(es)
    ensures Take(Without(Take(es, n + 1), k), n) == Take(Without(es, k), n)
  {
    if es != [] && n > 0 {
      var rest := es[1..];
      assert Take(es, n + 1) == [es[0]] + Take(rest, n);
      assert ([es[0]] + Take(rest, n))[1..] == Take(rest, n);
      if es[0].0 == k {
        WithoutAbsent(rest, k);
        WithoutAbsent(Take(rest, n), k);
        assert Take(Take(rest, n), n) == Take(rest, n);
      } else {
        TakeWithout(rest, k, n - 1);
        var a, b := Without(Take(rest, n), k), Without(rest, k);
        assert Take([es[0]] + a, n) == [es[0]] + Take(a, n - 1);
        assert Take([es[0]] + b, n) == [es[0]] + Take(b, n - 1);
      }
    }
  }

  lemma {:induction false} RecentWithout<K, V>(events: seq<Event<K, V>>, seen: set<K>, k: K)
    ensures Recent(events, seen + {k}) == Without(Recent(events, seen), k)
  {
    if events != [] {
      var e, before := events[|events| - 1], events[..|events| - 1];
      var v := Latest(events, e.key);
      var rest := Recent(before, seen + {e.key});
      assert [] + rest == rest;
      if e.key in seen {
        RecentWithout(before, seen, k);
      } else if e.key == k {
        RecentWithout(before, seen + {k}, k);
        assert seen + {k} + {k} == seen + {k};
        assert Without(rest, k) == rest;
        if v.Some? { assert ([(k, v.value)] + rest)[1..] == rest; }
      } else {
        RecentWithout(before, seen + {e.key}, k);
        assert seen + {k} + {e.key} == seen + {e.key} + {k};
        if v.Some? { assert ([(e.key, v.value)] + rest)[1..] == rest; }
      }
    }
  }

  lemma {:induction false} RecentDistinct<K, V>(events: seq<Event<K, V>>, seen: set<K>)
    ensures Distinct(Recent(events, seen))
    ensures forall e :: e in Recent(events, seen) ==> e.0 !in seen
  {
    if events != [] {
      var k, before := events[|events| - 1].key, events[..|events| - 1];
      RecentDistinct(before, seen);
      RecentDistinct(before, seen + {k});
    }
  }

  /** A new event moves its key to the front. */
  lemma RecentSnoc<K, V>(events: seq<Event<K, V>>, e: Event<K, V>)
    requires e.Put? || Latest(events, e.key).Some?
    ensures var v := if e.Put? then e.value else Latest(events, e.key).value;
            Recent(events + [e], {}) == [(e.key, v)] + Without(Recent(events, {}), e.key)
  {
    assert (events + [e])[..|events|] == events;
    RecentWithout(events, {}, e.key);
    assert {} + {e.key} == {e.key};
  }

  lemma {:induction false} RecentHasValue<K, V>(events: seq<Event<K, V>>, seen: set<K>, k: K, v: V)
    requires (k, v) in Recent(events, seen)
    ensures Latest(events, k) == Some(v)
  {
    var e, before := events[|events| - 1], events[..|events| - 1];
    RecentDistinct(before, seen + {e.key});
    if e.key in seen {
      RecentDistinct(before, seen);
      RecentHasValue(before, seen, k, v);
    } else if (k, v) in Recent(before, seen + {e.key}) {
      RecentHasValue(before, seen + {e.key}, k, v);
    }
  }

  /** The cached list after an event, from the cached list before it. */
  lemma CacheStep<K, V>(events: seq<Event<K, V>>, e: Event<K, V>, capacity: nat, v: V)
    requires if e.Put? then v == e.value else Latest(events, e.key) == Some(v)
    ensures var cached := Take(Recent(events, {}), capacity);
            Take(Recent(events + [e], {}), capacity) == Take([(e.key, v)] + Without(cached, e.key), capacity)
  {
    hide Recent, Latest, Without, Distinct, Take;
    RecentSnoc(events, e);
    RecentDistinct(events, {});
    FrontTaken(Recent(events, {}), e.key, v, capacity);
  }

  lemma FrontTaken<K, V>(all: seq<(K, V)>, k: K, v: V, capacity: nat)
    requires Distinct(all)
    ensures Take([(k, v)] + Without(all, k), capacity) == Take([(k, v)] + Without(Take(all, capacity), k), capacity)
  {
    if capacity > 0 {
      hide Without, Distinct, Take;
      TakeWithout(all, k, capacity - 1);
      TakeCons((k, v), Without(Take(all, capacity), k), capacity);
      TakeCons((k, v), Without(all, k), capacity);
    }
  }

  lemma TakeCons<T>(x: T, s: seq<T>, n: nat)
    requires n > 0
    ensures Take([x] + s, n) == [x] + Take(s, n - 1)
  {
  }

  // ----------------------------------------------------------------------- the cache

  class LruCache<K(==), V> {
    const capacity: nat
    var entries: seq<(K, V)>
    var index: set<K>
    ghost var events: seq<Event<K, V>>

    /** The list is exactly the `capacity` most recent keys of the history with
        their latest values, without repetition, and the index has the same keys. */
    ghost predicate Valid()
      reads this
    {
      && entries == Take(Recent(events, {}), capacity)
      && Distinct(entries) && index == KeySet(entries) && |entries| <= capacity
    }

    constructor (capacity: nat)
      ensures Valid() && this.capacity == capacity && events == [] && entries == []
    {
      this.capacity := capacity;
      entries, index := [], {};
      events := [];
    }

    method Put(k: K, v: V)
      requires Valid()
      modifies this
      ensures Valid() && events == old(events) + [Event.Put(k, v)]
      ensures forall e :: e in entries ==> e == (k, v) || e in old(entries)
    {
      CacheStep(events, Event.Put(k, v), capacity, v);
      MoveToFront(entries, k, v);
      AbsentKey(entries, k);
      hide Recent, Without, Latest, KeySet, Distinct;
      if k in index {
        entries := Without(entries, k);
        index := index - {k};
      }
      entries := [(k, v)] + entries;
      index := index + {k};
      assert index == KeySet(entries);
      events := events + [Event.Put(k, v)];
      Evict();
    }

    /** The loop at the end of `put`: drop from the back while there are too many keys. */
    method Evict()
      requires Distinct(entries) && index == KeySet(entries)
      modifies this
      ensures entries == Take(old(entries), capacity) && events == old(events)
      ensures Distinct(entries) && index == KeySet(entries)
    {
      hide KeySet, Distinct;
      ghost var full := entries;
      CountKeys(full);
      while |index| > capacity
        invariant |entries| <= |full| && entries == full[..|entries|]
        invariant Distinct(entries) && index == KeySet(entries) && |index| == |entries|
        invariant |entries| >= Min(capacity, |full|) && events == old(events)
        decreases |entries|
      {
        DropLast(entries);
        index := index - {entries[|entries| - 1].0};
        entries := entries[..|entries| - 1];
      }
    }

    method Get(k: K) returns (r: Option<V>)
      requires Valid()
      modifies this
      ensures Valid()
      ensures r.Some? <==> k in old(index)
      ensures r.Some? ==> (k, r.value) in old(entries) && events == old(events) + [Hit(k)]
      ensures r.None? ==> events == old(events) && entries == old(entries)
      ensures forall e :: e in entries <==> e in old(entries)
    {
      if k !in index {
        return None;
      }
      var v := Lookup(entries, k);
      ghost var full := [(k, v)] + Without(entries, k);
      RecentHasValue(events, {}, k, v);
      CacheStep(events, Hit(k), capacity, v);
      MoveToFront(entries, k, v);
      SameLength(entries, full, k);
      hide Recent, Without, Latest;
      entries := [(k, v)] + Without(entries, k);
      events := events + [Hit(k)];
      r := Some(v);
    }

    method Size() returns (n: nat)
      requires Valid()
      ensures n == |entries| <= capacity
    {
      CountKeys(entries);
      n := |index|;
    }
  }

  function Lookup<K(==), V>(es: seq<(K, V)>, k: K): (v: V)
    requires k in KeySet(es)
    ensures (k, v) in es
  {
    if es[0].0 == k then es[0].1
    else
      assert es == [es[0]] + es[1..];
      Lookup(es[1..], k)
  }

  lemma {:induction false} CountKeys<K, V>(es: seq<(K, V)>)
    requires Distinct(es)
    ensures |KeySet(es)| == |es|
  {
    if es != [] {
      CountKeys(es[1..]);
      assert es == [es[0]] + es[1..];
      assert KeySet(es) == {es[0].0} + KeySet(es[1..]);
      assert es[0].0 !in KeySet(es[1..]);
    }
  }

  lemma AbsentKey<K, V>(es: seq<(K, V)>, k: K)
    ensures k !in KeySet(es) ==> Without(es, k) == es
  {
    if k !in KeySet(es) {
      assert forall i :: 0 <= i < |es| ==> es[i].0 in KeySet(es);
      WithoutAbsent(es, k);
    }
  }

  lemma SameLength<K, V>(es: seq<(K, V)>, full: seq<(K, V)>, k: K)
    requires Distinct(es) && Distinct(full) && k in KeySet(es) && KeySet(full) == KeySet(es) + {k}
    ensures KeySet(full) == KeySet(es) && |full| == |es|
  {
    hide Distinct;
    CountKeys(es);
    CountKeys(full);
    assert KeySet(full) == KeySet(es);
  }

  lemma DropLast<K, V>(es: seq<(K, V)>)
    requires es != [] && Distinct(es)
    ensures KeySet(es[..|es| - 1]) == KeySet(es) - {es[|es| - 1].0}
    ensures |KeySet(es[..|es| - 1])| == |es| - 1 && Distinct(es[..|es| - 1])
  {
    var front := es[..|es| - 1];
    assert es == front + [es[|es| - 1]];
    CountKeys(front);
  }
}
