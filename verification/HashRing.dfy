/** The consistent-hash ring: virtual nodes on a circle, and the clockwise walk
    that picks replicas. */
module HashRing {
  import opened Common

  datatype StorageNode = StorageNode(id: string, address: string, healthy: bool)

  /** One virtual node. */
  datatype Slot = Slot(pos: nat, node: StorageNode)

  /** The ordered map from hash to node, as its sequence of entries. */
  type Ring = seq<Slot>

  ghost predicate Ordered(r: Ring) {
    forall i, j :: 0 <= i < j < |r| ==> r[i].pos < r[j].pos
  }

  function Ids(r: Ring): set<string> {
    set s | s in r :: s.node.id
  }

  function HealthyIds(r: Ring): set<string> {
    set s | s in r && s.node.healthy :: s.node.id
  }

  // ---------------------------------------------------------------- changing the ring

  function LowerBound(r: Ring, h: nat): (i: nat)
    ensures i <= |r|
    ensures forall k :: 0 <= k < i ==> r[k].pos < h
    ensures i < |r| ==> r[i].pos >= h
  {
    if r == [] || r[0].pos >= h then 0 else 1 + LowerBound(r[1..], h)
  }

  /** `ring_[pos] = node`. */
  function Insert(r: Ring, pos: nat, node: StorageNode): (r': Ring)
  {
    var i := LowerBound(r, pos);
    if i < |r| && r[i].pos == pos then r[i := Slot(pos, node)]
    else r[..i] + [Slot(pos, node)] + r[i..]
  }

  /** Past the lower bound there are only greater positions, except perhaps at the bound. */
  lemma BoundSplits(r: Ring, pos: nat)
    requires Ordered(r)
    ensures var i := LowerBound(r, pos);
            && (forall k :: 0 <= k < i ==> r[k].pos < pos)
            && (forall k :: i < k < |r| ==> r[k].pos > pos)
  {
  }

  lemma ReplaceMeans(r: Ring, i: nat, x: Slot)
    requires Ordered(r) && i < |r| && r[i].pos == x.pos
    ensures Ordered(r[i := x]) && forall s :: s in r[i := x] <==> s == x || (s in r && s.pos != x.pos)
  {
    var r' := r[i := x];
    assert r'[i] == x;
    forall s | s in r && s.pos != x.pos
      ensures s in r'
    {
      var k :| 0 <= k < |r| && r[k] == s;
      assert r'[k] == s;
    }
  }

  lemma AddOrdered(r: Ring, i: nat, x: Slot)
    requires Ordered(r) && i <= |r|
    requires (forall k :: 0 <= k < i ==> r[k].pos < x.pos) && (forall k :: i <= k < |r| ==> r[k].pos > x.pos)
    ensures Ordered(r[..i] + [x] + r[i..])
  {
    var r' := r[..i] + [x] + r[i..];
    forall j, k | 0 <= j < k < |r'|
      ensures r'[j].pos < r'[k].pos
    {
      SlotAfterAdding(r, i, x, j);
      SlotAfterAdding(r, i, x, k);
    }
  }

  lemma SlotAfterAdding(r: Ring, i: nat, x: Slot, k: nat)
    requires i <= |r| && k <= |r|
    ensures (r[..i] + [x] + r[i..])[k] == if k < i then r[k] else if k == i then x else r[k - 1]
  {
  }

  lemma AddMembers(r: Ring, i: nat, x: Slot)
    requires i <= |r| && forall s :: s in r ==> s.pos != x.pos
    ensures forall s :: s in r[..i] + [x] + r[i..] <==> s == x || (s in r && s.pos != x.pos)
  {
    assert r == r[..i] + r[i..];
  }

  lemma InsertMeans(r: Ring, pos: nat, node: StorageNode)
    requires Ordered(r)
    ensures Ordered(Insert(r, pos, node))
    ensures forall s :: s in Insert(r, pos, node) <==> s == Slot(pos, node) || (s in r && s.pos != pos)
  {
    hide Ordered, LowerBound;
    var i := LowerBound(r, pos);
    BoundSplits(r, pos);
    if i < |r| && r[i].pos == pos {
      ReplaceMeans(r, i, Slot(pos, node));
    } else {
      AddOrdered(r, i, Slot(pos, node));
      AddMembers(r, i, Slot(pos, node));
    }
  }

  function VirtualName(id: string, i: nat): string {
    id + "#" + Decimal(i)
  }

  /** `count` virtual nodes, numbered from `from`. */
  function AddSlots(r: Ring, hash: string -> nat, node: StorageNode, from: nat, count: nat): Ring
    decreases count
  {
    if count == 0 then r
    else AddSlots(Insert(r, hash(VirtualName(node.id, from)), node), hash, node, from + 1, count - 1)
  }

  function Without(r: Ring, id: string): Ring {
    if r == [] then []
    else if r[0].node.id == id then Without(r[1..], id)
    else [r[0]] + Without(r[1..], id)
  }

  // ------------------------------------------------------------------------ the walk

  /** The ring read clockwise from `h`, once around. */
  function Clockwise(r: Ring, h: nat): Ring {
    var i := LowerBound(r, h);
    r[i..] + r[..i]
  }

  /** The healthy nodes of a walk, each at its first appearance. */
  function FirstHealthy(w: Ring, seen: set<string>): seq<StorageNode> {
    if w == [] then []
    else if w[0].node.healthy && w[0].node.id !in seen
    then [w[0].node] + FirstHealthy(w[1..], seen + {w[0].node.id})
    else FirstHealthy(w[1..], seen)
  }

  /** The walk can stop: as many healthy ids exist as the loop waits for. */
  predicate WalkEnds(r: Ring, replicas: int) {
    replicas > 0 ==> replicas <= |HealthyIds(r)| || |Ids(r)| <= |HealthyIds(r)|
  }

  /** What `locate` means: the first `replicas` distinct healthy nodes clockwise of
      the key, or all of them if there are fewer ids. */
  function Located(r: Ring, h: nat, replicas: int): seq<StorageNode>
  {
    if replicas <= 0 then []
    else
      var all := FirstHealthy(Clockwise(r, h), {});
      all[..Min(Min(replicas, |Ids(r)|), |all|)]
  }

  function NodeIds(ns: seq<StorageNode>): set<string> {
    set n | n in ns :: n.id
  }

  ghost predicate DistinctIds(ns: seq<StorageNode>) {
    forall i, j :: 0 <= i < j < |ns| ==> ns[i].id != ns[j].id
  }

  lemma {:induction false} FirstHealthyConcat(a: Ring, b: Ring, seen: set<string>)
    ensures FirstHealthy(a + b, seen)
         == FirstHealthy(a, seen) + FirstHealthy(b, seen + NodeIds(FirstHealthy(a, seen)))
  {
    if a == [] {
      assert a + b == b;
      assert seen + NodeIds([]) == seen;
    } else {
      assert (a + b)[1..] == a[1..] + b;
      var id := a[0].node.id;
      if a[0].node.healthy && id !in seen {
        FirstHealthyConcat(a[1..], b, seen + {id});
        var rest := FirstHealthy(a[1..], seen + {id});
        assert NodeIds([a[0].node] + rest) == {id} + NodeIds(rest);
        assert seen + {id} + NodeIds(rest) == seen + NodeIds([a[0].node] + rest);
      } else {
        FirstHealthyConcat(a[1..], b, seen);
      }
    }
  }

  lemma HealthyIdsSplit(w: Ring)
    requires w != []
    ensures HealthyIds(w) == (if w[0].node.healthy then {w[0].node.id} else {}) + HealthyIds(w[1..])
    ensures Ids(w) == {w[0].node.id} + Ids(w[1..])
  {
    assert w == [w[0]] + w[1..];
  }

  lemma NodeIdsCons(n: StorageNode, ns: seq<StorageNode>)
    ensures NodeIds([n] + ns) == {n.id} + NodeIds(ns)
  {
  }

  /** The walk names every healthy id outside `seen`, once. */
  lemma {:induction false} FirstHealthyIds(w: Ring, seen: set<string>)
    ensures var ns := FirstHealthy(w, seen);
            NodeIds(ns) == HealthyIds(w) - seen && |ns| == |HealthyIds(w) - seen|
  {
    if w == [] {
      assert HealthyIds(w) - seen == {};
      return;
    }
    HealthyIdsSplit(w);
    var id, rest := w[0].node.id, w[1..];
    hide HealthyIds, NodeIds;
    if w[0].node.healthy && id !in seen {
      FirstHealthyIds(rest, seen + {id});
      NodeIdsCons(w[0].node, FirstHealthy(rest, seen + {id}));
      SplitOff(HealthyIds(w), HealthyIds(rest), seen, id);
    } else {
      FirstHealthyIds(rest, seen);
      assert HealthyIds(w) - seen == HealthyIds(rest) - seen;
    }
  }

  lemma SplitOff(all: set<string>, rest: set<string>, seen: set<string>, id: string)
    requires all == {id} + rest && id !in seen
    ensures all - seen == {id} + (rest - (seen + {id})) && |all - seen| == 1 + |rest - (seen + {id})|
  {
    var x := rest - (seen + {id});
    assert all - seen == {id} + x;
    assert |{id} + x| == 1 + |x|;
  }

  lemma {:induction false} FirstHealthyDistinct(w: Ring, seen: set<string>)
    ensures DistinctIds(FirstHealthy(w, seen))
  {
    if w != [] {
      var id, rest := w[0].node.id, w[1..];
      if w[0].node.healthy && id !in seen {
        FirstHealthyDistinct(rest, seen + {id});
        FirstHealthyIds(rest, seen + {id});
        var ns := FirstHealthy(rest, seen + {id});
        hide FirstHealthy, HealthyIds;
        assert forall n :: n in ns ==> n.id in NodeIds(ns);
      } else {
        FirstHealthyDistinct(rest, seen);
      }
    }
  }

  /** It names only healthy nodes of the walk itself. */
  lemma {:induction false} FirstHealthyFrom(w: Ring, seen: set<string>, n: StorageNode)
    requires n in FirstHealthy(w, seen)
    ensures n.healthy && exists s :: s in w && s.node == n
  {
    var id, rest := w[0].node.id, w[1..];
    if w[0].node.healthy && id !in seen {
      if n == w[0].node {
        assert w[0] in w;
      } else {
        assert n in FirstHealthy(rest, seen + {id});
        FirstHealthyFrom(rest, seen + {id}, n);
      }
    } else {
      FirstHealthyFrom(rest, seen, n);
    }
  }

  lemma ClockwiseKeeps(r: Ring, h: nat)
    ensures forall s :: s in Clockwise(r, h) <==> s in r
    ensures Ids(Clockwise(r, h)) == Ids(r) && HealthyIds(Clockwise(r, h)) == HealthyIds(r)
  {
    var i := LowerBound(r, h);
    assert r == r[..i] + r[i..];
  }

  lemma WalkFinds(r: Ring, h: nat)
    ensures |FirstHealthy(Clockwise(r, h), {})| == |HealthyIds(r)|
  {
    ClockwiseKeeps(r, h);
    FirstHealthyIds(Clockwise(r, h), {});
    assert HealthyIds(Clockwise(r, h)) - {} == HealthyIds(r);
  }

  /** What one slot adds to a walk that has named `seen`. */
  function Picked(s: Slot, seen: set<string>): seq<StorageNode> {
    if s.node.healthy && s.node.id !in seen then [s.node] else []
  }

  lemma OneSlot(s: Slot, seen: set<string>)
    ensures FirstHealthy([s], seen) == Picked(s, seen)
  {
    assert [s][1..] == [];
  }

  lemma WalkConcat(a: Ring, b: Ring)
    ensures FirstHealthy(a + b, {}) == FirstHealthy(a, {}) + FirstHealthy(b, NodeIds(FirstHealthy(a, {})))
  {
    FirstHealthyConcat(a, b, {});
    hide FirstHealthy, NodeIds;
    assert {} + NodeIds(FirstHealthy(a, {})) == NodeIds(FirstHealthy(a, {}));
  }

  /** One step of the walk. */
  lemma WalkStep(w: Ring, k: nat)
    requires k < |w|
    ensures var out := FirstHealthy(w[..k], {});
            FirstHealthy(w[..k + 1], {}) == out + Picked(w[k], NodeIds(out))
  {
    hide FirstHealthy, NodeIds, Picked;
    var a, b := w[..k], [w[k]];
    WalkConcat(a, b);
    OneSlot(w[k], NodeIds(FirstHealthy(a, {})));
    assert w[..k + 1] == a + b;
  }

  lemma WalkPrefix(w: Ring, k: nat)
    requires k <= |w|
    ensures FirstHealthy(w[..k], {}) <= FirstHealthy(w, {})
  {
    hide FirstHealthy, NodeIds;
    var a, b := w[..k], w[k..];
    WalkConcat(a, b);
    assert w == a + b;
  }

  lemma NodeIdsSnoc(ns: seq<StorageNode>, n: StorageNode)
    ensures NodeIds(ns + [n]) == NodeIds(ns) + {n.id}
  {
  }

  lemma IdsSnoc(r: Ring, s: Slot)
    ensures Ids(r + [s]) == Ids(r) + {s.node.id}
  {
  }

  lemma NoIds(r: Ring)
    ensures NodeIds([]) == {} && Ids(r[..0]) == {} && FromRing([], r)
  {
  }

  ghost predicate FromRing(ns: seq<StorageNode>, r: Ring) {
    forall n :: n in ns ==> exists s :: s in r && s.node == n
  }

  lemma FromRingSnoc(ns: seq<StorageNode>, r: Ring, i: nat)
    requires FromRing(ns, r) && i < |r|
    ensures FromRing(ns + [r[i].node], r)
  {
    assert r[i] in r;
  }

  /** Where the iterator stands after `k` steps of the walk. */
  function Cursor(r: Ring, h: nat, k: nat): (i: nat)
    requires k < |r|
    ensures i < |r| && r[i] == Clockwise(r, h)[k]
  {
    var i := LowerBound(r, h) + k;
    if i < |r| then i else i - |r|
  }

  class ConsistentHashRing {
    const virtualNodes: nat
    const hash: string -> nat
    var ring: Ring

    constructor (virtualNodes: nat, hash: string -> nat)
      ensures this.virtualNodes == virtualNodes && this.hash == hash && ring == [] && Ordered(ring)
    {
      this.virtualNodes := virtualNodes;
      this.hash := hash;
      ring := [];
    }

    method AddNode(node: StorageNode)
      requires Ordered(ring)
      modifies this
      ensures Ordered(ring)
      ensures ring == AddSlots(old(ring), hash, node, 0, virtualNodes)
    {
      hide Ordered, Insert, VirtualName;
      for i := 0 to virtualNodes
        invariant Ordered(ring)
        invariant AddSlots(ring, hash, node, i, virtualNodes - i) == AddSlots(old(ring), hash, node, 0, virtualNodes)
      {
        var pos := hash(VirtualName(node.id, i));
        InsertMeans(ring, pos, node);
        ring := Insert(ring, pos, node);
      }
    }

    /** The erase loop over the ordered map. */
    method RemoveNode(id: string)
      modifies this
      ensures ring == Without(old(ring), id)
    {
      var it := 0;
      assert ring[..0] + Without(ring[0..], id) == Without(ring, id);
      while it < |ring|
        invariant 0 <= it <= |ring|
        invariant ring[..it] + Without(ring[it..], id) == Without(old(ring), id)
        decreases |ring| - it
      {
        ghost var rest := ring[it..];
        if ring[it].node.id == id {
          ghost var before := ring[..it];
          ring := ring[..it] + ring[it + 1..];
          assert ring[..it] == before && ring[it..] == rest[1..];
        } else {
          it := it + 1;
          assert ring[..it] == ring[..it - 1] + [rest[0]] && ring[it..] == rest[1..];
        }
      }
      assert ring[..|ring|] == ring;
    }

    /** The distinct nodes of the ring, in ring order. */
    method Nodes() returns (out: seq<StorageNode>)
      ensures |out| == |Ids(ring)| && NodeIds(out) == Ids(ring) && FromRing(out, ring)
    {
      hide Ids, NodeIds, FromRing;
      NoIds(ring);
      out := [];
      var seen: set<string> := {};
      for i := 0 to |ring|
        invariant seen == Ids(ring[..i]) == NodeIds(out)
        invariant |out| == |seen| && FromRing(out, ring)
      {
        var node := ring[i].node;
        assert ring[..i + 1] == ring[..i] + [ring[i]];
        IdsSnoc(ring[..i], ring[i]);
        if node.id !in seen {
          seen := seen + {node.id};
          NodeIdsSnoc(out, node);
          FromRingSnoc(out, ring, i);
          out := out + [node];
        } else {
          assert seen + {node.id} == seen;
        }
      }
      assert ring[..|ring|] == ring;
    }

    /** The clockwise walk. The program loops for ever when `WalkEnds` fails, see `WalkStops`. */
    method Locate(key: string, replicas: int) returns (out: seq<StorageNode>)
      requires WalkEnds(ring, replicas)
      ensures out == Located(ring, hash(key), replicas)
    {
      hide FirstHealthy, Clockwise, LowerBound, Ids, NodeIds, HealthyIds;
      out := [];
      var h := hash(key);
      if ring == [] || replicas <= 0 {
        if ring == [] { EmptyRing(ring, h); }
        return;
      }
      var seen: set<string> := {};
      var it := LowerBound(ring, h);
      if it == |ring| { it := 0; }
      var known := Nodes();
      ghost var w := Clockwise(ring, h);
      ghost var all := FirstHealthy(w, {});
      ghost var steps := 0;
      WalkFinds(ring, h);
      WalkBegins(ring, h);
      WalkPrefix(w, 0);
      while |out| < replicas && |seen| < |known|
        invariant 0 <= steps <= |w| == |ring|
        invariant steps < |ring| ==> it == Cursor(ring, h, steps)
        invariant out == FirstHealthy(w[..steps], {}) && out <= all
        invariant seen == NodeIds(out) && |seen| == |out|
        invariant |out| <= replicas && |out| <= |known|
        decreases |w| - steps
      {
        assert w[..|w|] == w;
        assert steps < |w|;
        WalkStep(w, steps);
        WalkPrefix(w, steps + 1);
        CursorStep(ring, h, steps);
        if ring[it].node.healthy && ring[it].node.id !in seen {
          NodeIdsSnoc(out, ring[it].node);
          out := out + [ring[it].node];
          seen := seen + {ring[it].node.id};
        }
        it := it + 1;
        if it == |ring| { it := 0; }
        steps := steps + 1;
      }
    }
  }

  lemma EmptyRing(r: Ring, h: nat)
    requires r == []
    ensures FirstHealthy(Clockwise(r, h), {}) == []
  {
  }

  lemma WalkBegins(r: Ring, h: nat)
    requires r != []
    ensures |Clockwise(r, h)| == |r|
    ensures FirstHealthy(Clockwise(r, h)[..0], {}) == [] && NodeIds([]) == {}
    ensures Cursor(r, h, 0) == if LowerBound(r, h) == |r| then 0 else LowerBound(r, h)
  {
  }

  lemma CursorStep(r: Ring, h: nat, k: nat)
    requires k < |r|
    ensures k + 1 < |r| ==>
              Cursor(r, h, k + 1) == if Cursor(r, h, k) + 1 == |r| then 0 else Cursor(r, h, k) + 1
  {
  }
}
