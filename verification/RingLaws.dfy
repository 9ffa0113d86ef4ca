/** What placement on the ring guarantees. */
module RingLaws {
  import opened Common
  import opened HashRing

  // ------------------------------------------------------------------ termination

  /** The slots visited in `k` steps, over as many turns as that takes. */
  function Visited(w: Ring, k: nat): Ring
    requires w != []
  {
    if k <= |w| then w[..k] else w + Visited(w, k - |w|)
  }

  /** The loop of `locate` goes round again after `k` steps. */
  ghost predicate LoopGoesOn(r: Ring, h: nat, replicas: nat, k: nat)
    requires r != [] && |Clockwise(r, h)| == |r|
  {
    var out := FirstHealthy(Visited(Clockwise(r, h), k), {});
    |out| < replicas && |NodeIds(out)| < |Ids(r)|
  }

  lemma {:induction false} VisitedIn(w: Ring, k: nat)
    requires w != []
    ensures HealthyIds(Visited(w, k)) <= HealthyIds(w)
    decreases k
  {
    if k > |w| {
      VisitedIn(w, k - |w|);
    }
  }

  /** The walk stops at all exactly when enough healthy ids exist, and then within one turn. */
  lemma WalkStops(r: Ring, h: nat, replicas: nat)
    requires r != [] && replicas > 0
    ensures |Clockwise(r, h)| == |r|
    ensures WalkEnds(r, replicas) ==> !LoopGoesOn(r, h, replicas, |r|)
    ensures !WalkEnds(r, replicas) ==> forall k: nat :: LoopGoesOn(r, h, replicas, k)
  {
    var w := Clockwise(r, h);
    WalkBegins(r, h);
    ClockwiseKeeps(r, h);
    hide FirstHealthy, Clockwise, NodeIds, Ids, HealthyIds;
    if WalkEnds(r, replicas) {
      assert Visited(w, |r|) == w[..|w|] == w;
      FirstHealthyIds(w, {});
      assert HealthyIds(w) - {} == HealthyIds(w);
    } else {
      forall k: nat
        ensures LoopGoesOn(r, h, replicas, k)
      {
        FirstHealthyIds(Visited(w, k), {});
        assert HealthyIds(Visited(w, k)) - {} == HealthyIds(Visited(w, k));
        VisitedIn(w, k);
        SubsetCard(HealthyIds(Visited(w, k)), HealthyIds(w));
      }
    }
  }

  // --------------------------------------------------------------------- placement

  lemma HealthySubset(r: Ring)
    ensures HealthyIds(r) <= Ids(r) && |HealthyIds(r)| <= |Ids(r)|
  {
    SubsetCard(HealthyIds(r), Ids(r));
  }

  /** Replicas are distinct healthy members, as many as asked for while ids last. */
  lemma LocatedMeans(r: Ring, h: nat, replicas: int)
    requires WalkEnds(r, replicas)
    ensures var out := Located(r, h, replicas);
            && DistinctIds(out)
            && |out| == (if replicas <= 0 then 0 else Min(replicas, |Ids(r)|))
            && NodeIds(out) <= HealthyIds(r)
            && forall n :: n in out ==> n.healthy && exists s :: s in r && s.node == n
  {
    if replicas <= 0 { return; }
    var w := Clockwise(r, h);
    ClockwiseKeeps(r, h);
    FirstHealthyIds(w, {});
    FirstHealthyDistinct(w, {});
    HealthySubset(r);
    hide FirstHealthy, Clockwise, Ids, HealthyIds;
    assert HealthyIds(w) - {} == HealthyIds(w);
    var all := FirstHealthy(w, {});
    forall n | n in Located(r, h, replicas)
      ensures n.healthy && (exists s :: s in r && s.node == n) && n.id in HealthyIds(r)
    {
      assert n in all;
      FirstHealthyFrom(w, {}, n);
      assert n.id in NodeIds(all);
    }
  }

  /** Asking for one more replica only adds one at the end. */
  lemma LocatedGrows(r: Ring, h: nat, replicas: nat)
    ensures Located(r, h, replicas) <= Located(r, h, replicas + 1)
  {
    hide FirstHealthy, Clockwise, Ids;
  }

  /** When the members fit in the replication factor, every healthy member is a replica. */
  lemma LocatedIsEverybody(r: Ring, h: nat, replicas: nat)
    requires |Ids(r)| <= replicas
    ensures NodeIds(Located(r, h, replicas)) == HealthyIds(r)
  {
    var w := Clockwise(r, h);
    ClockwiseKeeps(r, h);
    FirstHealthyIds(w, {});
    HealthySubset(r);
    hide FirstHealthy, Clockwise, Ids, HealthyIds, NodeIds;
    assert HealthyIds(w) - {} == HealthyIds(w);
    var all := FirstHealthy(w, {});
    if replicas > 0 {
      assert all[..|all|] == all;
    } else {
      assert HealthyIds(r) == {} && all == [];
    }
  }

  // ------------------------------------------------------------- minimal disruption

  lemma {:induction false} WithoutConcat(a: Ring, b: Ring, x: string)
    ensures Without(a + b, x) == Without(a, x) + Without(b, x)
  {
    if a == [] {
      assert a + b == b;
    } else {
      assert (a + b)[1..] == a[1..] + b;
      WithoutConcat(a[1..], b, x);
    }
  }

  lemma {:induction false} WithoutMeans(r: Ring, x: string)
    ensures forall s :: s in Without(r, x) <==> s in r && s.node.id != x
  {
    if r != [] {
      WithoutMeans(r[1..], x);
      assert r == [r[0]] + r[1..];
    }
  }

  lemma {:induction false} LowerBoundAt(a: Ring, b: Ring, h: nat)
    requires forall s :: s in a ==> s.pos < h
    requires forall s :: s in b ==> s.pos >= h
    ensures LowerBound(a + b, h) == |a|
  {
    if a == [] {
      assert a + b == b;
      if b != [] { assert b[0] in b; }
    } else {
      assert a[0] in a;
      assert (a + b)[1..] == a[1..] + b;
      LowerBoundAt(a[1..], b, h);
    }
  }

  lemma SplitAtHash(r: Ring, h: nat)
    requires Ordered(r)
    ensures var i := LowerBound(r, h);
            && r == r[..i] + r[i..]
            && (forall s :: s in r[..i] ==> s.pos < h)
            && (forall s :: s in r[i..] ==> s.pos >= h)
  {
    hide Ordered, LowerBound;
    var i := LowerBound(r, h);
    BelowHash(r, h);
    AboveHash(r, h);
    assert r == r[..i] + r[i..];
  }

  lemma BelowHash(r: Ring, h: nat)
    ensures forall s :: s in r[..LowerBound(r, h)] ==> s.pos < h
  {
    hide LowerBound;
    var i := LowerBound(r, h);
    forall s | s in r[..i]
      ensures s.pos < h
    {
      var k :| 0 <= k < i && r[..i][k] == s;
      assert r[k] == s;
    }
  }

  lemma AboveHash(r: Ring, h: nat)
    requires Ordered(r)
    ensures forall s :: s in r[LowerBound(r, h)..] ==> s.pos >= h
  {
    hide LowerBound;
    var i := LowerBound(r, h);
    forall s | s in r[i..]
      ensures s.pos >= h
    {
      var k :| 0 <= k < |r[i..]| && r[i..][k] == s;
      assert r[i + k] == s && r[i].pos >= h;
    }
  }

  lemma WithoutClockwise(r: Ring, h: nat, x: string)
    requires Ordered(r)
    ensures Clockwise(Without(r, x), h) == Without(Clockwise(r, h), x)
  {
    hide Ordered, Without;
    SplitAtHash(r, h);
    var i := LowerBound(r, h);
    var a, b := r[..i], r[i..];
    WithoutMeans(a, x);
    WithoutMeans(b, x);
    WithoutConcat(a, b, x);
    WithoutConcat(b, a, x);
    var a', b' := Without(a, x), Without(b, x);
    LowerBoundAt(a', b', h);
    hide LowerBound;
    assert (a' + b')[|a'|..] == b' && (a' + b')[..|a'|] == a';
  }

  function Drop(ns: seq<StorageNode>, x: string): seq<StorageNode> {
    if ns == [] then []
    else if ns[0].id == x then Drop(ns[1..], x)
    else [ns[0]] + Drop(ns[1..], x)
  }

  lemma {:induction false} SeenElsewhere(w: Ring, seen: set<string>, x: string)
    requires forall s :: s in w ==> s.node.id != x
    ensures FirstHealthy(w, seen + {x}) == FirstHealthy(w, seen)
  {
    if w != [] {
      assert w[0] in w;
      var id := w[0].node.id;
      assert seen + {x} + {id} == seen + {id} + {x};
      SeenElsewhere(w[1..], seen, x);
      SeenElsewhere(w[1..], seen + {id}, x);
    }
  }

  lemma {:induction false} FirstHealthyWithout(w: Ring, seen: set<string>, x: string)
    ensures FirstHealthy(Without(w, x), seen) == Drop(FirstHealthy(w, seen), x)
  {
    if w != [] {
      var id, rest := w[0].node.id, w[1..];
      if w[0].node.healthy && id !in seen {
        var ns := FirstHealthy(rest, seen + {id});
        assert ([w[0].node] + ns)[1..] == ns;
        FirstHealthyWithout(rest, seen + {id}, x);
        if id == x {
          WithoutMeans(rest, x);
          SeenElsewhere(Without(rest, x), seen, x);
        } else {
          assert ([w[0]] + Without(rest, x))[1..] == Without(rest, x);
        }
      } else {
        FirstHealthyWithout(rest, seen, x);
        if id != x {
          assert ([w[0]] + Without(rest, x))[1..] == Without(rest, x);
        }
      }
    }
  }

  /** Of a list of distinct nodes, dropping `x` from one more than needed loses nothing. */
  lemma {:induction false} DropThenTake(ns: seq<StorageNode>, x: string, k: nat)
    requires DistinctIds(ns) && k < |ns|
    ensures k <= |Drop(ns[..k + 1], x)| && k <= |Drop(ns, x)|
    ensures Drop(ns[..k + 1], x)[..k] == Drop(ns, x)[..k]
  {
    if k > 0 {
      var rest := ns[1..];
      assert ns[..k + 1][1..] == rest[..k];
      if ns[0].id == x {
        DropAbsent(rest, x);
        DropAbsent(rest[..k], x);
      } else {
        DropThenTake(rest, x, k - 1);
        assert rest[..(k - 1) + 1] == rest[..k];
        var a, b := Drop(rest[..k], x), Drop(rest, x);
        assert ([ns[0]] + a)[..k] == [ns[0]] + a[..k - 1];
        assert ([ns[0]] + b)[..k] == [ns[0]] + b[..k - 1];
      }
    }
  }

  lemma {:induction false} DropAbsent(ns: seq<StorageNode>, x: string)
    requires forall i :: 0 <= i < |ns| ==> ns[i].id != x
    ensures Drop(ns, x) == ns
  {
    if ns != [] { DropAbsent(ns[1..], x); }
  }

  lemma WithoutIds(r: Ring, x: string)
    ensures Ids(Without(r, x)) == Ids(r) - {x} && HealthyIds(Without(r, x)) == HealthyIds(r) - {x}
  {
    WithoutMeans(r, x);
    hide Without;
    forall id | id in Ids(r) - {x}
      ensures id in Ids(Without(r, x))
    {
      var s :| s in r && s.node.id == id;
      assert s in Without(r, x);
    }
    forall id | id in HealthyIds(r) - {x}
      ensures id in HealthyIds(Without(r, x))
    {
      var s :| s in r && s.node.healthy && s.node.id == id;
      assert s in Without(r, x);
    }
  }

  lemma RemoveCard(s: set<string>, x: string)
    ensures |s - {x}| == if x in s then |s| - 1 else |s|
  {
    if x !in s { assert s - {x} == s; }
  }

  /** The list law behind minimal disruption: `ids` counts the ids before, `ids'` after. */
  lemma DropLaw(all: seq<StorageNode>, x: string, k: nat, ids: nat, ids': nat)
    requires DistinctIds(all) && |all| <= ids
    requires k + 1 <= |all| || ids <= |all|
    requires k <= |Drop(all, x)| || ids' <= |Drop(all, x)|
    requires |Drop(all, x)| <= ids' && ids <= ids' + 1
    ensures var before := Drop(all[..Min(Min(k + 1, ids), |all|)], x);
            Drop(all, x)[..Min(Min(k, ids'), |Drop(all, x)|)] == before[..Min(k, |before|)]
  {
    hide DistinctIds, Drop;
    if k + 1 <= |all| {
      DropThenTake(all, x, k);
      assert k <= ids';
    } else {
      assert all[..|all|] == all;
    }
  }

  /** Minimal disruption: after a node leaves, the replicas of a key are the old ones,
      asked for one more, with the node left out. */
  lemma MinimalDisruption(r: Ring, h: nat, x: string, replicas: nat)
    requires Ordered(r) && WalkEnds(r, replicas + 1) && WalkEnds(Without(r, x), replicas)
    ensures var before := Drop(Located(r, h, replicas + 1), x);
            Located(Without(r, x), h, replicas) == before[..Min(replicas, |before|)]
  {
    hide FirstHealthy, Clockwise, Ids, HealthyIds, Without, DistinctIds, Drop, Ordered;
    var all := FirstHealthy(Clockwise(r, h), {});
    WithoutClockwise(r, h, x);
    FirstHealthyWithout(Clockwise(r, h), {}, x);
    FirstHealthyDistinct(Clockwise(r, h), {});
    WalkFinds(r, h);
    WalkFinds(Without(r, x), h);
    WithoutIds(r, x);
    RemoveCard(Ids(r), x);
    RemoveCard(HealthyIds(r), x);
    HealthySubset(r);
    HealthySubset(Without(r, x));
    if replicas > 0 {
      DropLaw(all, x, replicas, |Ids(r)|, |Ids(Without(r, x))|);
    }
  }

  // ------------------------------------------------------------------ nearest clockwise

  /** Going clockwise from `h`, point `p` comes before point `q`. */
  predicate Sooner(h: nat, p: nat, q: nat) {
    if p >= h then q < h || p < q else p < q < h
  }

  /** Where step `i` of the walk is on the ring. */
  function Turned(r: Ring, b: nat, i: nat): nat
    requires b <= |r| && i < |r|
  {
    if b + i < |r| then b + i else b + i - |r|
  }

  lemma ClockwiseAt(r: Ring, h: nat, i: nat)
    requires i < |r|
    ensures |Clockwise(r, h)| == |r| && Clockwise(r, h)[i] == r[Turned(r, LowerBound(r, h), i)]
  {
    hide LowerBound;
  }

  lemma WalkInOrder(r: Ring, h: nat, i: nat, j: nat)
    requires Ordered(r) && i < j < |r|
    ensures |Clockwise(r, h)| == |r| && Sooner(h, Clockwise(r, h)[i].pos, Clockwise(r, h)[j].pos)
  {
    hide LowerBound, Clockwise;
    var b := LowerBound(r, h);
    BoundSplits(r, h);
    ClockwiseAt(r, h, i);
    ClockwiseAt(r, h, j);
    var x, y := Turned(r, b, i), Turned(r, b, j);
    assert r[x].pos >= h <==> b <= x;
    assert r[y].pos >= h <==> b <= y;
    assert x < y ==> r[x].pos < r[y].pos;
  }

  /** Where the walk finds its next node, and what it has passed over until then. */
  lemma {:induction false} FoundAt(w: Ring, seen: set<string>, j: nat) returns (k: nat)
    requires j < |FirstHealthy(w, seen)|
    ensures k < |w| && w[k].node == FirstHealthy(w, seen)[j]
    ensures forall i :: 0 <= i < k && w[i].node.healthy ==> w[i].node.id in seen + NodeIds(FirstHealthy(w, seen)[..j])
  {
    var all := FirstHealthy(w, seen);
    if w[0].node.healthy && w[0].node.id !in seen {
      if j == 0 {
        k := 0;
      } else {
        var id := w[0].node.id;
        var rest := FoundAt(w[1..], seen + {id}, j - 1);
        k := rest + 1;
        assert all[..j] == [w[0].node] + FirstHealthy(w[1..], seen + {id})[..j - 1];
        NodeIdsCons(w[0].node, FirstHealthy(w[1..], seen + {id})[..j - 1]);
      }
    } else {
      var rest := FoundAt(w[1..], seen, j);
      k := rest + 1;
    }
  }

  /** Each replica owns the nearest point clockwise of the key among those of healthy nodes that are
      not replicas already. */
  lemma LocatedNearest(r: Ring, h: nat, replicas: int, j: nat) returns (s: Slot)
    requires Ordered(r) && j < |Located(r, h, replicas)|
    ensures s in r && s.node == Located(r, h, replicas)[j]
    ensures forall t :: t in r && t.node.healthy && t.node.id !in NodeIds(Located(r, h, replicas)[..j]) ==>
              t == s || Sooner(h, s.pos, t.pos)
  {
    var w := Clockwise(r, h);
    var all := FirstHealthy(w, {});
    var k := FoundAt(w, {}, j);
    s := w[k];
    assert Located(r, h, replicas)[..j] == all[..j];
    hide FirstHealthy, Ordered, Sooner, Ids, NodeIds;
    ClockwiseKeeps(r, h);
    forall t | t in r && t.node.healthy && t.node.id !in NodeIds(all[..j])
      ensures t == s || Sooner(h, s.pos, t.pos)
    {
      var i :| 0 <= i < |w| && w[i] == t;
      if k < i { WalkInOrder(r, h, k, i); }
    }
  }
}
