/** Membership, and the replica plan computed from it: the plan depends on the
    members alone, not on the order in which they are put on the ring. */
module Placement {
  import opened Common
  import opened HashRing
  import opened RingLaws

  /** Virtual nodes per member, the default of the ring. */
  const VIRTUAL_NODES: nat := 128

  type Members = map<string, StorageNode>

  /** A membership table: entries are filed under their own id. */
  ghost predicate Filed(members: Members) {
    forall id :: id in members ==> members[id].id == id
  }

  ghost predicate AllHealthy(members: Members) {
    forall id :: id in members ==> members[id].healthy
  }

  // ----------------------------------------------------------------- virtual names

  lemma {:induction false} DecimalInjective(i: nat, j: nat)
    requires Decimal(i) == Decimal(j)
    ensures i == j
  {
    ValueOfDecimal(i);
    ValueOfDecimal(j);
  }

  /** The last mark of a virtual name is the one before its number. */
  lemma LastMark(id: string, i: nat)
    ensures var s := VirtualName(id, i);
            forall k :: |id| < k < |s| ==> s[k] != '#'
  {
    var s, d := VirtualName(id, i), Decimal(i);
    hide Decimal;
    assert forall k :: |id| < k < |s| ==> s[k] == d[k - |id| - 1];
  }

  lemma NameParts(id: string, i: nat)
    ensures var s := VirtualName(id, i);
            |id| < |s| && s[|id|] == '#' && s[..|id|] == id && s[|id| + 1..] == Decimal(i)
  {
    hide Decimal;
  }

  /** Virtual names never clash, whatever characters ids are made of. */
  lemma VirtualNamesDiffer(a: string, i: nat, b: string, j: nat)
    requires VirtualName(a, i) == VirtualName(b, j)
    ensures a == b && i == j
  {
    hide VirtualName, Decimal;
    NameParts(a, i);
    NameParts(b, j);
    LastMark(a, i);
    LastMark(b, j);
    DecimalInjective(i, j);
  }

  /** Virtual nodes of different members never fall on the same point of the circle. */
  ghost predicate CollisionFree(hash: string -> nat, ids: set<string>) {
    forall a, b, i: nat, j: nat ::
      (a in ids && b in ids && i < VIRTUAL_NODES && j < VIRTUAL_NODES
       && hash(VirtualName(a, i)) == hash(VirtualName(b, j))) ==> a == b
  }

  /** A hash without collisions places virtual nodes without collisions, for any members. */
  lemma InjectiveHashPlaces(hash: string -> nat, ids: set<string>)
    requires forall x, y :: hash(x) == hash(y) ==> x == y
    ensures CollisionFree(hash, ids)
  {
    hide VirtualName;
    forall a, b, i: nat, j: nat | hash(VirtualName(a, i)) == hash(VirtualName(b, j))
      ensures a == b && i == j
    {
      VirtualNamesDiffer(a, i, b, j);
    }
  }

  // ------------------------------------------------------------- the ring of a set

  /** `s` is the slot of one of the first `count` virtual nodes of `n`. */
  ghost predicate SlotOf(s: Slot, n: StorageNode, hash: string -> nat, count: nat) {
    exists i: nat :: i < count && s == Slot(hash(VirtualName(n.id, i)), n)
  }

  /** `r` is the ring that holds exactly the virtual nodes of `members`. */
  ghost predicate RingOf(r: Ring, members: set<StorageNode>, hash: string -> nat) {
    && Ordered(r)
    && (forall s :: s in r ==> exists n :: n in members && SlotOf(s, n, hash, VIRTUAL_NODES))
    && (forall s, n :: n in members && SlotOf(s, n, hash, VIRTUAL_NODES) ==> s in r)
  }

  lemma {:induction false} OrderedUnique(r: Ring, r': Ring)
    requires Ordered(r) && Ordered(r') && forall s :: s in r <==> s in r'
    ensures r == r'
  {
    assert |r| > 0 ==> r[0] in r;
    assert |r'| > 0 ==> r'[0] in r';
    if r != [] {
      assert r[0] == r'[0];
      forall s
        ensures s in r[1..] <==> s in r'[1..]
      {
        assert s in r <==> s == r[0] || s in r[1..];
        assert s in r' <==> s == r'[0] || s in r'[1..];
      }
      OrderedUnique(r[1..], r'[1..]);
    }
  }

  /** A set of members has one ring. */
  lemma RingUnique(r: Ring, r': Ring, members: set<StorageNode>, hash: string -> nat)
    requires RingOf(r, members, hash) && RingOf(r', members, hash)
    ensures r == r'
  {
    hide SlotOf, Ordered;
    forall s
      ensures s in r <==> s in r'
    {
    }
    OrderedUnique(r, r');
  }

  /** The slots of `n` with number in `[from, from + count)`. */
  ghost predicate NewSlot(s: Slot, n: StorageNode, hash: string -> nat, from: nat, count: nat) {
    exists i: nat :: from <= i < from + count && s == Slot(hash(VirtualName(n.id, i)), n)
  }

  ghost predicate NewPos(pos: nat, n: StorageNode, hash: string -> nat, from: nat, count: nat) {
    exists i: nat :: from <= i < from + count && pos == hash(VirtualName(n.id, i))
  }

  lemma {:induction false} AddSlotsMeans(r: Ring, hash: string -> nat, n: StorageNode, from: nat, count: nat)
    requires Ordered(r)
    ensures var r' := AddSlots(r, hash, n, from, count);
            && Ordered(r')
            && forall s :: s in r' <==> NewSlot(s, n, hash, from, count)
                                        || (s in r && !NewPos(s.pos, n, hash, from, count))
    decreases count
  {
    hide Ordered, VirtualName, Insert;
    if count > 0 {
      hide NewSlot, NewPos;
      var pos := hash(VirtualName(n.id, from));
      InsertMeans(r, pos, n);
      var r1 := Insert(r, pos, n);
      AddSlotsMeans(r1, hash, n, from + 1, count - 1);
      forall s
        ensures s in AddSlots(r, hash, n, from, count) <==>
                NewSlot(s, n, hash, from, count) || (s in r && !NewPos(s.pos, n, hash, from, count))
      {
        OneMoreSlot(s, hash, n, from, count);
        assert s in r1 <==> s == Slot(pos, n) || (s in r && s.pos != pos);
      }
    }
  }

  lemma OneMoreSlot(s: Slot, hash: string -> nat, n: StorageNode, from: nat, count: nat)
    requires count > 0
    ensures NewSlot(s, n, hash, from, count) <==>
            s == Slot(hash(VirtualName(n.id, from)), n) || NewSlot(s, n, hash, from + 1, count - 1)
    ensures NewPos(s.pos, n, hash, from, count) <==>
            s.pos == hash(VirtualName(n.id, from)) || NewPos(s.pos, n, hash, from + 1, count - 1)
    ensures s.node == n && NewPos(s.pos, n, hash, from, count) ==> NewSlot(s, n, hash, from, count)
  {
    hide VirtualName;
    if NewSlot(s, n, hash, from, count) && s != Slot(hash(VirtualName(n.id, from)), n) {
      var i: nat :| from <= i < from + count && s == Slot(hash(VirtualName(n.id, i)), n);
      assert from + 1 <= i < from + 1 + (count - 1);
    }
    if NewSlot(s, n, hash, from + 1, count - 1) {
      var i: nat :| from + 1 <= i < from + 1 + (count - 1) && s == Slot(hash(VirtualName(n.id, i)), n);
      assert from <= i < from + count;
    }
    if NewPos(s.pos, n, hash, from, count) && s.pos != hash(VirtualName(n.id, from)) {
      var i: nat :| from <= i < from + count && s.pos == hash(VirtualName(n.id, i));
      assert from + 1 <= i < from + 1 + (count - 1);
    }
    if NewPos(s.pos, n, hash, from + 1, count - 1) {
      var i: nat :| from + 1 <= i < from + 1 + (count - 1) && s.pos == hash(VirtualName(n.id, i));
      assert from <= i < from + count;
    }
    if s.node == n && NewPos(s.pos, n, hash, from, count) {
      var i: nat :| from <= i < from + count && s.pos == hash(VirtualName(n.id, i));
      assert s == Slot(hash(VirtualName(n.id, i)), n);
    }
  }

  lemma RingOfNobody(hash: string -> nat)
    ensures RingOf([], {}, hash)
  {
  }

  lemma SlotKept(r: Ring, members: set<StorageNode>, n: StorageNode, hash: string -> nat, ids: set<string>, s: Slot,
                 m: StorageNode)
    requires RingOf(r, members, hash) && CollisionFree(hash, ids)
    requires n.id in ids && m in members && m.id in ids && m.id != n.id && SlotOf(s, m, hash, VIRTUAL_NODES)
    ensures s in r && !NewPos(s.pos, n, hash, 0, VIRTUAL_NODES)
  {
    hide VirtualName, Ordered;
    var i: nat :| i < VIRTUAL_NODES && s == Slot(hash(VirtualName(m.id, i)), m);
    forall j: nat | j < VIRTUAL_NODES
      ensures s.pos != hash(VirtualName(n.id, j))
    {
    }
  }

  lemma NewSlotOf(s: Slot, n: StorageNode, hash: string -> nat)
    ensures NewSlot(s, n, hash, 0, VIRTUAL_NODES) <==> SlotOf(s, n, hash, VIRTUAL_NODES)
  {
    hide VirtualName;
    if SlotOf(s, n, hash, VIRTUAL_NODES) {
      var i: nat :| i < VIRTUAL_NODES && s == Slot(hash(VirtualName(n.id, i)), n);
      assert 0 <= i < 0 + VIRTUAL_NODES;
    }
  }

  lemma NewRingHas(r: Ring, members: set<StorageNode>, n: StorageNode, hash: string -> nat, ids: set<string>,
                   s: Slot, m: StorageNode)
    requires RingOf(r, members, hash) && CollisionFree(hash, ids) && n.id in ids
    requires m == n || (m in members && m.id in ids && m.id != n.id)
    requires SlotOf(s, m, hash, VIRTUAL_NODES)
    ensures s in AddSlots(r, hash, n, 0, VIRTUAL_NODES)
  {
    AddSlotsMeans(r, hash, n, 0, VIRTUAL_NODES);
    hide *;
    if m == n {
      NewSlotOf(s, n, hash);
    } else {
      SlotKept(r, members, n, hash, ids, s, m);
    }
  }

  ghost predicate OfMember(s: Slot, members: set<StorageNode>, hash: string -> nat) {
    exists n :: n in members && SlotOf(s, n, hash, VIRTUAL_NODES)
  }

  lemma NewRingOnly(r: Ring, members: set<StorageNode>, n: StorageNode, hash: string -> nat, s: Slot)
    requires RingOf(r, members, hash) && s in AddSlots(r, hash, n, 0, VIRTUAL_NODES)
    ensures OfMember(s, members + {n}, hash)
  {
    AddSlotsMeans(r, hash, n, 0, VIRTUAL_NODES);
    hide AddSlots, VirtualName, Ordered, SlotOf, NewSlot, NewPos;
    NewSlotOf(s, n, hash);
    if NewSlot(s, n, hash, 0, VIRTUAL_NODES) {
      assert n in members + {n};
    } else {
      var m :| m in members && SlotOf(s, m, hash, VIRTUAL_NODES);
      assert m in members + {n};
    }
  }

  /** Adding a member to the ring of a set gives the ring of the larger set. */
  lemma RingOfMore(r: Ring, members: set<StorageNode>, n: StorageNode, hash: string -> nat, ids: set<string>)
    requires RingOf(r, members, hash) && CollisionFree(hash, ids)
    requires n.id in ids && forall m :: m in members ==> m.id in ids && m.id != n.id
    ensures RingOf(AddSlots(r, hash, n, 0, VIRTUAL_NODES), members + {n}, hash)
  {
    hide *;
    var r' := AddSlots(r, hash, n, 0, VIRTUAL_NODES);
    StillOrdered(r, members, n, hash);
    forall s, m | m in members + {n} && SlotOf(s, m, hash, VIRTUAL_NODES)
      ensures s in r'
    {
      assert m == n || m in members;
      NewRingHas(r, members, n, hash, ids, s, m);
    }
    forall s | s in r'
      ensures OfMember(s, members + {n}, hash)
    {
      NewRingOnly(r, members, n, hash, s);
    }
    RingMade(r', members + {n}, hash);
  }

  lemma StillOrdered(r: Ring, members: set<StorageNode>, n: StorageNode, hash: string -> nat)
    requires RingOf(r, members, hash)
    ensures Ordered(AddSlots(r, hash, n, 0, VIRTUAL_NODES))
  {
    AddSlotsMeans(r, hash, n, 0, VIRTUAL_NODES);
    hide *;
  }

  lemma RingMade(r: Ring, members: set<StorageNode>, hash: string -> nat)
    requires Ordered(r)
    requires forall s :: s in r ==> OfMember(s, members, hash)
    requires forall s, n :: n in members && SlotOf(s, n, hash, VIRTUAL_NODES) ==> s in r
    ensures RingOf(r, members, hash)
  {
    hide Ordered, SlotOf;
  }

  /** The ids on the ring of a set are the ids of the set. */
  lemma RingOfIds(r: Ring, members: set<StorageNode>, hash: string -> nat)
    requires RingOf(r, members, hash)
    ensures forall s :: s in r ==> s.node in members
    ensures forall n :: n in members ==> exists s :: s in r && s.node == n
  {
    hide Ordered;
    forall n | n in members
      ensures exists s :: s in r && s.node == n
    {
      var s := Slot(hash(VirtualName(n.id, 0)), n);
      assert SlotOf(s, n, hash, VIRTUAL_NODES);
      assert s in r;
    }
  }

  // ------------------------------------------------------------ rings built in order

  /** The ring after adding the nodes one after the other. */
  function Built(nodes: seq<StorageNode>, hash: string -> nat): Ring {
    if nodes == [] then []
    else AddSlots(Built(nodes[..|nodes| - 1], hash), hash, nodes[|nodes| - 1], 0, VIRTUAL_NODES)
  }

  ghost function NodeSet(nodes: seq<StorageNode>): set<StorageNode> {
    set n | n in nodes
  }

  /** `nodes` names every member once. */
  ghost predicate Lists(nodes: seq<StorageNode>, members: Members) {
    DistinctIds(nodes) && forall n :: n in nodes <==> n.id in members && members[n.id] == n
  }

  /** Every slot on the ring belongs to a listed node. */
  lemma {:induction false} BuiltOnly(nodes: seq<StorageNode>, hash: string -> nat)
    ensures Ordered(Built(nodes, hash)) && forall s :: s in Built(nodes, hash) ==> s.node in nodes
  {
    if nodes != [] {
      var m := |nodes| - 1;
      BuiltOnly(nodes[..m], hash);
      AddSlotsMeans(Built(nodes[..m], hash), hash, nodes[m], 0, VIRTUAL_NODES);
      hide AddSlots, VirtualName, Ordered;
      assert forall n :: n in nodes[..m] ==> n in nodes;
    }
  }

  lemma NodeSetSnoc(nodes: seq<StorageNode>)
    requires nodes != []
    ensures NodeSet(nodes) == NodeSet(nodes[..|nodes| - 1]) + {nodes[|nodes| - 1]}
  {
    assert nodes == nodes[..|nodes| - 1] + [nodes[|nodes| - 1]];
  }

  /** Without collisions every order builds the one ring of the set. */
  lemma {:induction false} BuiltRing(nodes: seq<StorageNode>, hash: string -> nat, ids: set<string>)
    requires DistinctIds(nodes) && CollisionFree(hash, ids) && forall n :: n in nodes ==> n.id in ids
    ensures RingOf(Built(nodes, hash), NodeSet(nodes), hash)
  {
    if nodes == [] {
      RingOfNobody(hash);
    } else {
      var before, n := nodes[..|nodes| - 1], nodes[|nodes| - 1];
      assert forall m :: m in before ==> m in nodes && m.id != n.id;
      assert n in nodes;
      BuiltRing(before, hash, ids);
      NodeSetSnoc(nodes);
      hide RingOf, CollisionFree, AddSlots;
      RingOfMore(Built(before, hash), NodeSet(before), n, hash, ids);
    }
  }

  // --------------------------------------------------------------------- the plan

  /** A plan: the replicas on the ring that some listing of the members builds. */
  ghost predicate PlanFor(members: Members, hash: string -> nat, key: string, replicas: int,
                          targets: seq<StorageNode>) {
    exists nodes :: Lists(nodes, members) && targets == Located(Built(nodes, hash), hash(key), replicas)
  }

  /** There is a plan for any chunk. */
  lemma SomePlan(members: Members, hash: string -> nat, key: string, replicas: int) returns (plan: seq<StorageNode>)
    requires Filed(members)
    ensures PlanFor(members, hash, key, replicas, plan)
  {
    var nodes := SomeListing(members);
    plan := Located(Built(nodes, hash), hash(key), replicas);
  }

  lemma LocatedIn(r: Ring, h: nat, replicas: int)
    ensures DistinctIds(Located(r, h, replicas))
    ensures forall n :: n in Located(r, h, replicas) ==> exists s :: s in r && s.node == n
  {
    var w := Clockwise(r, h);
    FirstHealthyDistinct(w, {});
    ClockwiseKeeps(r, h);
    hide FirstHealthy, Clockwise, Ids;
    forall n | n in Located(r, h, replicas)
      ensures exists s :: s in r && s.node == n
    {
      FirstHealthyFrom(w, {}, n);
    }
  }

  lemma PlanDistinct(members: Members, hash: string -> nat, key: string, replicas: int, plan: seq<StorageNode>)
    requires PlanFor(members, hash, key, replicas, plan)
    ensures DistinctIds(plan)
  {
    hide Located, Built;
    var nodes :| Lists(nodes, members) && plan == Located(Built(nodes, hash), hash(key), replicas);
    LocatedIn(Built(nodes, hash), hash(key), replicas);
  }

  /** Targets are members. */
  lemma PlanMembers(members: Members, hash: string -> nat, key: string, replicas: int, plan: seq<StorageNode>)
    requires PlanFor(members, hash, key, replicas, plan)
    ensures forall t :: t in plan ==> t.id in members && members[t.id] == t
  {
    hide Located, Built, DistinctIds, Ordered;
    var nodes :| Lists(nodes, members) && plan == Located(Built(nodes, hash), hash(key), replicas);
    LocatedIn(Built(nodes, hash), hash(key), replicas);
    BuiltOnly(nodes, hash);
    forall t | t in plan
      ensures t in nodes
    {
      var s :| s in Built(nodes, hash) && s.node == t;
    }
  }

  /** The walk ends whatever the order of the members; see `WalkStops` for when it does not. */
  ghost predicate PlansEnd(members: Members, hash: string -> nat, replicas: int) {
    forall nodes :: Lists(nodes, members) ==> WalkEnds(Built(nodes, hash), replicas)
  }

  lemma HealthyPlansEnd(members: Members, hash: string -> nat, replicas: int)
    requires AllHealthy(members)
    ensures PlansEnd(members, hash, replicas)
  {
    hide Built, DistinctIds, Ordered;
    forall nodes | Lists(nodes, members)
      ensures WalkEnds(Built(nodes, hash), replicas)
    {
      BuiltOnly(nodes, hash);
      assert HealthyIds(Built(nodes, hash)) == Ids(Built(nodes, hash));
    }
  }

  /** Build the ring of the listed nodes and locate. */
  method PlanTargets(nodes: seq<StorageNode>, hash: string -> nat, key: string, replicas: int)
    returns (targets: seq<StorageNode>)
    requires WalkEnds(Built(nodes, hash), replicas)
    ensures targets == Located(Built(nodes, hash), hash(key), replicas)
  {
    hide AddSlots, Ordered, Located, WalkEnds;
    var ring := new ConsistentHashRing(VIRTUAL_NODES, hash);
    for i := 0 to |nodes|
      invariant ring.virtualNodes == VIRTUAL_NODES && ring.hash == hash
      invariant fresh(ring) && Ordered(ring.ring) && ring.ring == Built(nodes[..i], hash)
    {
      assert nodes[..i + 1][..i] == nodes[..i];
      ring.AddNode(nodes[i]);
    }
    assert nodes[..|nodes|] == nodes;
    targets := ring.Locate(key, replicas);
  }

  lemma SameNodeSet(a: seq<StorageNode>, b: seq<StorageNode>, members: Members)
    requires Lists(a, members) && Lists(b, members)
    ensures NodeSet(a) == NodeSet(b)
  {
    hide DistinctIds;
    forall n
      ensures n in NodeSet(a) <==> n in NodeSet(b)
    {
    }
  }

  /** Any two listings build the same ring. */
  lemma SameRing(a: seq<StorageNode>, b: seq<StorageNode>, members: Members, hash: string -> nat)
    requires CollisionFree(hash, members.Keys) && Lists(a, members) && Lists(b, members)
    ensures Built(a, hash) == Built(b, hash)
  {
    hide RingOf, CollisionFree, Built, DistinctIds;
    BuiltRing(a, hash, members.Keys);
    BuiltRing(b, hash, members.Keys);
    SameNodeSet(a, b, members);
    RingUnique(Built(a, hash), Built(b, hash), NodeSet(a), hash);
  }

  /** Two plans for the same key and members are the same plan. */
  lemma PlanDeterministic(members: Members, hash: string -> nat, key: string, replicas: int,
                          a: seq<StorageNode>, b: seq<StorageNode>)
    requires CollisionFree(hash, members.Keys)
    requires PlanFor(members, hash, key, replicas, a) && PlanFor(members, hash, key, replicas, b)
    ensures a == b
  {
    hide RingOf, CollisionFree, Located, Built, Lists;
    var x :| Lists(x, members) && a == Located(Built(x, hash), hash(key), replicas);
    var y :| Lists(y, members) && b == Located(Built(y, hash), hash(key), replicas);
    SameRing(x, y, members, hash);
  }

  /** The ring that a plan was read from has exactly the members' ids. */
  lemma PlanRing(members: Members, hash: string -> nat, key: string, replicas: int, targets: seq<StorageNode>)
    returns (r: Ring)
    requires Filed(members) && AllHealthy(members) && CollisionFree(hash, members.Keys)
    requires PlanFor(members, hash, key, replicas, targets)
    ensures targets == Located(r, hash(key), replicas) && Ids(r) == HealthyIds(r) == members.Keys
    ensures WalkEnds(r, replicas)
  {
    hide CollisionFree, Located, RingOf, Built, DistinctIds, Ids, HealthyIds;
    var nodes :| Lists(nodes, members) && targets == Located(Built(nodes, hash), hash(key), replicas);
    r := Built(nodes, hash);
    BuiltRing(nodes, hash, members.Keys);
    ListedValues(nodes, members);
    RingOfMembers(r, members, hash);
  }

  lemma ListedValues(nodes: seq<StorageNode>, members: Members)
    requires Filed(members) && Lists(nodes, members)
    ensures NodeSet(nodes) == members.Values
  {
    hide DistinctIds;
    forall n | n in members.Values
      ensures n in nodes
    {
      var id :| id in members && members[id] == n;
    }
  }

  /** When the members fit in the replication factor, the plan is all of them. */
  lemma PlanIsEverybody(members: Members, hash: string -> nat, key: string, replicas: nat, targets: seq<StorageNode>)
    requires Filed(members) && AllHealthy(members) && CollisionFree(hash, members.Keys) && |members| <= replicas
    requires PlanFor(members, hash, key, replicas, targets)
    ensures NodeIds(targets) == members.Keys && |targets| == |members|
  {
    hide CollisionFree, Located, PlanFor, Ids, HealthyIds, NodeIds, WalkEnds, Filed, AllHealthy;
    var r := PlanRing(members, hash, key, replicas, targets);
    assert |members.Keys| == |members|;
    LocatedIsEverybody(r, hash(key), replicas);
    LocatedMeans(r, hash(key), replicas);
  }

  /** A plan names as many nodes as were asked for, while members last. */
  lemma PlanSize(members: Members, hash: string -> nat, key: string, replicas: int, targets: seq<StorageNode>)
    requires Filed(members) && AllHealthy(members) && CollisionFree(hash, members.Keys)
    requires PlanFor(members, hash, key, replicas, targets)
    ensures |targets| == if replicas <= 0 then 0 else Min(replicas, |members|)
  {
    hide CollisionFree, Located, PlanFor, Ids, HealthyIds, NodeIds, WalkEnds, Filed, AllHealthy;
    var r := PlanRing(members, hash, key, replicas, targets);
    assert |members.Keys| == |members|;
    LocatedMeans(r, hash(key), replicas);
  }

  lemma RingOfMembers(r: Ring, members: Members, hash: string -> nat)
    requires Filed(members) && AllHealthy(members) && RingOf(r, members.Values, hash)
    ensures Ids(r) == members.Keys && HealthyIds(r) == members.Keys
  {
    RingOfIds(r, members.Values, hash);
    hide RingOf;
    forall id | id in members
      ensures id in HealthyIds(r)
    {
      assert members[id] in members.Values;
      var s: Slot :| s in r && s.node == members[id];
    }
  }

  // ----------------------------------------------------------- when the order matters

  /** Every listing of the members gives every key the same replicas. */
  ghost predicate OrderFree(members: Members, hash: string -> nat) {
    forall a, b, key, replicas: int ::
      Lists(a, members) && Lists(b, members) ==>
        Located(Built(a, hash), hash(key), replicas) == Located(Built(b, hash), hash(key), replicas)
  }

  /** A healthy slot at the key's own point is the first replica. */
  lemma FirstAt(r: Ring, x: Slot)
    requires Ordered(r) && x in r && x.node.healthy
    ensures Located(r, x.pos, 1) == [x.node]
  {
    var i := LowerBound(r, x.pos);
    assert i < |r| && r[i] == x;
    var w := Clockwise(r, x.pos);
    assert w[0] == x;
    assert x.node.id in Ids(r);
    assert |Ids(r)| >= 1;
    assert FirstHealthy(w, {}) == [x.node] + FirstHealthy(w[1..], {} + {x.node.id});
  }

  /** The node added last owns all its points. */
  lemma LastWins(nodes: seq<StorageNode>, n: StorageNode, hash: string -> nat, i: nat)
    requires i < VIRTUAL_NODES && n.healthy
    ensures Located(Built(nodes + [n], hash), hash(VirtualName(n.id, i)), 1) == [n]
  {
    var x := Slot(hash(VirtualName(n.id, i)), n);
    BuiltOnly(nodes, hash);
    AddSlotsMeans(Built(nodes, hash), hash, n, 0, VIRTUAL_NODES);
    assert (nodes + [n])[..|nodes|] == nodes;
    hide AddSlots, VirtualName, Ordered, Located, NewPos;
    assert NewSlot(x, n, hash, 0, VIRTUAL_NODES);
    FirstAt(Built(nodes + [n], hash), x);
  }

  lemma {:induction false} SomeListing(members: Members) returns (nodes: seq<StorageNode>)
    requires Filed(members)
    ensures Lists(nodes, members)
    decreases |members|
  {
    if members == map[] {
      nodes := [];
    } else {
      var id :| id in members;
      nodes := ListingWithLast(members, id);
    }
  }

  lemma {:induction false} ListingWithLast(members: Members, id: string) returns (nodes: seq<StorageNode>)
    requires Filed(members) && id in members
    ensures Lists(nodes, members) && nodes != [] && nodes[|nodes| - 1] == members[id]
    decreases |members|, 0
  {
    assert |members - {id}| < |members| by { FewerMembers(members, id); }
    var rest := SomeListing(members - {id});
    nodes := rest + [members[id]];
    forall n
      ensures n in nodes <==> n.id in members && members[n.id] == n
    {
      assert n in nodes <==> n in rest || n == members[id];
    }
  }

  lemma FewerMembers(members: Members, id: string)
    requires id in members
    ensures |members - {id}| < |members|
  {
    assert (members - {id}).Keys == members.Keys - {id};
    assert |(members - {id}).Keys| == |members - {id}| && |members.Keys| == |members|;
  }

  /** Two members that collide: whoever is added last is the first replica of that point. */
  lemma OrderMatters(members: Members, hash: string -> nat, a: string, i: nat, b: string, j: nat)
    returns (x: seq<StorageNode>, y: seq<StorageNode>)
    requires Filed(members) && AllHealthy(members) && a in members && b in members && a != b
    requires i < VIRTUAL_NODES && j < VIRTUAL_NODES && hash(VirtualName(a, i)) == hash(VirtualName(b, j))
    ensures Lists(x, members) && Lists(y, members)
    ensures Located(Built(x, hash), hash(VirtualName(a, i)), 1) == [members[a]]
    ensures Located(Built(y, hash), hash(VirtualName(a, i)), 1) == [members[b]]
    ensures members[a] != members[b]
  {
    hide Lists, Located, Built, VirtualName;
    x := ListingWithLast(members, a);
    y := ListingWithLast(members, b);
    assert x == x[..|x| - 1] + [members[a]] && y == y[..|y| - 1] + [members[b]];
    LastWins(x[..|x| - 1], members[a], hash, i);
    LastWins(y[..|y| - 1], members[b], hash, j);
  }

  /** Placement is independent of the order exactly when different members never collide. */
  lemma OrderFreeExactly(members: Members, hash: string -> nat)
    requires Filed(members) && AllHealthy(members)
    ensures OrderFree(members, hash) <==> CollisionFree(hash, members.Keys)
  {
    hide Lists, Located, Built, VirtualName;
    if CollisionFree(hash, members.Keys) {
      forall a, b | Lists(a, members) && Lists(b, members)
        ensures Built(a, hash) == Built(b, hash)
      {
        SameRing(a, b, members, hash);
      }
    } else {
      var a, b, i: nat, j: nat :|
        a in members.Keys && b in members.Keys && i < VIRTUAL_NODES && j < VIRTUAL_NODES
        && hash(VirtualName(a, i)) == hash(VirtualName(b, j)) && a != b;
      var x, y := OrderMatters(members, hash, a, i, b, j);
    }
  }

  class ClusterState {
    const hash: string -> nat
    var nodes: Members

    constructor (hash: string -> nat)
      ensures this.hash == hash && nodes == map[]
    {
      this.hash := hash;
      nodes := map[];
    }

    method Heartbeat(node: StorageNode)
      requires Filed(nodes)
      modifies this
      ensures Filed(nodes) && nodes == old(nodes)[node.id := node]
    {
      nodes := nodes[node.id := node];
    }

    /** The known nodes, once each, in no particular order. */
    method KnownNodes() returns (out: seq<StorageNode>)
      requires Filed(nodes)
      ensures |out| == |nodes| && Lists(out, nodes)
    {
      out := [];
      var todo := nodes.Keys;
      while todo != {}
        invariant todo <= nodes.Keys && |out| + |todo| == |nodes.Keys| && DistinctIds(out)
        invariant forall n :: n in out <==> n.id in nodes && n.id !in todo && nodes[n.id] == n
      {
        var id :| id in todo;
        ghost var before := out;
        out := out + [nodes[id]];
        todo := todo - {id};
        assert forall n :: n in out <==> n in before || n == nodes[id];
      }
      assert |nodes.Keys| == |nodes|;
    }

    method WritePlan(chunk: string, replicas: int) returns (targets: seq<StorageNode>)
      requires Filed(nodes) && PlansEnd(nodes, hash, replicas)
      ensures PlanFor(nodes, hash, chunk, replicas, targets)
    {
      hide Built, Located, WalkEnds;
      var known := KnownNodes();
      targets := PlanTargets(known, hash, chunk, replicas);
    }
  }
}
