/** Who the members are once a coordinator has announced itself and its seeds, and what that
    gives a cluster in which everybody is up. */
module Membership {
  import opened Common
  import opened HashRing
  import opened Placement
  import opened ChunkStore
  import opened ServiceModel
  import opened ObjectModel

  /** The ids a configuration names. */
  function ConfiguredIds(cfg: Config): set<string> {
    {cfg.self.id} + NodeIds(cfg.seeds)
  }

  /** No later node of the list has the same id. */
  ghost predicate LastListed(nodes: seq<StorageNode>, i: nat)
    requires i < |nodes|
  {
    forall j :: i < j < |nodes| ==> nodes[j].id != nodes[i].id
  }

  lemma {:induction false} AddedLast(members: Members, nodes: seq<StorageNode>, i: nat)
    requires i < |nodes| && LastListed(nodes, i)
    ensures nodes[i].id in AddAll(members, nodes) && AddAll(members, nodes)[nodes[i].id] == nodes[i]
    decreases |nodes|
  {
    var first, rest := nodes[0], nodes[1..];
    var members' := members[first.id := first];
    if i > 0 {
      AddedLast(members', rest, i - 1);
    } else {
      assert first.id !in NodeIds(rest);
      AddAllMeans(members', members', rest);
    }
  }

  /** Announcing adds self and every seed and nobody else; of several seeds with one id the last
      listed counts, before self; all other entries stay. */
  lemma RefreshedMeans(cfg: Config, members: Members)
    ensures Refreshed(cfg, members).Keys == members.Keys + ConfiguredIds(cfg)
    ensures forall i :: 0 <= i < |cfg.seeds| && LastListed(cfg.seeds, i) ==>
              Refreshed(cfg, members)[cfg.seeds[i].id] == cfg.seeds[i]
    ensures cfg.self.id !in NodeIds(cfg.seeds) ==> Refreshed(cfg, members)[cfg.self.id] == cfg.self
    ensures forall id :: id in members && id !in ConfiguredIds(cfg) ==> Refreshed(cfg, members)[id] == members[id]
  {
    var a := members[cfg.self.id := cfg.self];
    AddAllMeans(a, a, cfg.seeds);
    hide AddAll, NodeIds;
    forall i | 0 <= i < |cfg.seeds| && LastListed(cfg.seeds, i)
      ensures cfg.seeds[i].id in Refreshed(cfg, members) && Refreshed(cfg, members)[cfg.seeds[i].id] == cfg.seeds[i]
    {
      AddedLast(a, cfg.seeds, i);
    }
  }

  lemma {:induction false} AddedFrom(members: Members, nodes: seq<StorageNode>, id: string)
    requires id in AddAll(members, nodes)
    ensures AddAll(members, nodes)[id] in nodes || (id in members && AddAll(members, nodes)[id] == members[id])
    ensures Filed(members) ==> Filed(AddAll(members, nodes))
    decreases |nodes|
  {
    if nodes != [] {
      AddedFrom(members[nodes[0].id := nodes[0]], nodes[1..], id);
    }
  }

  /** From an empty table the members are self and seeds. */
  lemma FirstMembers(cfg: Config, id: string)
    requires id in Refreshed(cfg, map[])
    ensures Filed(Refreshed(cfg, map[]))
    ensures Refreshed(cfg, map[])[id] == cfg.self || Refreshed(cfg, map[])[id] in cfg.seeds
  {
    AddedFrom(map[cfg.self.id := cfg.self], cfg.seeds, id);
  }

  lemma FirstSettled(cfg: Config)
    requires Proper(cfg)
    ensures Settled(cfg, Refreshed(cfg, map[]))
    ensures Refreshed(cfg, map[]).Keys == ConfiguredIds(cfg) && |Refreshed(cfg, map[])| == |ConfiguredIds(cfg)|
  {
    RefreshedTwice(cfg, map[]);
    RefreshedMeans(cfg, map[]);
    hide Refreshed, ConfiguredIds;
    var m := Refreshed(cfg, map[]);
    forall id | id in m
      ensures Filed(m) && m[id].healthy
    {
      FirstMembers(cfg, id);
    }
    assert |m.Keys| == |m|;
  }

  // ----------------------------------------------------------------------- everybody up

  /** Every configured node answers and the local disk can be written. */
  ghost predicate AllUp(cfg: Config, w: World) {
    w.diskOk && cfg.self.address in w.up && forall n :: n in cfg.seeds ==> n.address in w.up
  }

  lemma AllUpIsSmooth(cfg: Config, w: World)
    requires Proper(cfg) && AllUp(cfg, w) && CollisionFree(cfg.hash, ConfiguredIds(cfg))
    ensures Smooth(cfg, Refreshed(cfg, map[]), w)
  {
    FirstSettled(cfg);
    hide Refreshed, ConfiguredIds, CollisionFree;
    forall id | id in Refreshed(cfg, map[])
      ensures Refreshed(cfg, map[])[id].address in w.up
    {
      FirstMembers(cfg, id);
    }
  }

  /** A put starts by announcing, so it may as well find that done. */
  lemma PutAnnounces(cfg: Config, s: State, bytes: Bytes, w: World, s': State, r: Result<ChunkRef>,
                     plan: seq<StorageNode>, acked: set<string>)
    requires PutBy(cfg, s, bytes, w, s', r, plan, acked)
    ensures PutBy(cfg, s.(members := Refreshed(cfg, s.members)), bytes, w, s', r, plan, acked)
  {
    RefreshedTwice(cfg, s.members);
    hide Refreshed, PlanFor, Extends, OnlyNew, OtherIds, MissedHints;
  }

  /** A quorum that the configured ids and the replication factor can meet. */
  predicate Meets(cfg: Config, quorum: int) {
    quorum <= 1 || (quorum <= cfg.replication && quorum <= |ConfiguredIds(cfg)|)
  }

  /** With everybody up the first put succeeds whenever the configuration allows it to. */
  lemma FirstPutSucceeds(cfg: Config, s: State, bytes: Bytes, w: World, s': State, r: Result<ChunkRef>,
                         plan: seq<StorageNode>, acked: set<string>)
    requires PutBy(cfg, s, bytes, w, s', r, plan, acked) && s.members == map[]
    requires Proper(cfg) && AllUp(cfg, w) && CollisionFree(cfg.hash, ConfiguredIds(cfg))
    requires Meets(cfg, cfg.writeQuorum)
    ensures r == Ok(ChunkRef(cfg.sha(bytes), |bytes|))
  {
    hide PutBy, Refreshed, CollisionFree, Settled, Proper, AllUp, ConfiguredIds, Smooth;
    var s1 := s.(members := Refreshed(cfg, s.members));
    PutAnnounces(cfg, s, bytes, w, s', r, plan, acked);
    FirstSettled(cfg);
    AllUpIsSmooth(cfg, w);
    CalmPutSucceeds(cfg, s1, bytes, w, s', r, plan, acked);
    PutGrows(cfg, s1, bytes, w, s', r, plan, acked);
  }

  lemma SeedIsTarget(cfg: Config, plan: seq<StorageNode>, c: string, i: nat)
    requires Proper(cfg) && CollisionFree(cfg.hash, ConfiguredIds(cfg)) && |ConfiguredIds(cfg)| <= cfg.replication
    requires PlanFor(Refreshed(cfg, map[]), cfg.hash, c, cfg.replication, plan)
    requires i < |cfg.seeds| && LastListed(cfg.seeds, i)
    ensures cfg.seeds[i] in plan
  {
    hide Refreshed, CollisionFree, PlanFor, ConfiguredIds, Proper, LastListed, Filed, AllHealthy;
    var m, t := Refreshed(cfg, map[]), cfg.seeds[i];
    EverybodyPlanned(cfg, c, plan);
    PlanMembers(m, cfg.hash, c, cfg.replication, plan);
    RefreshedMeans(cfg, map[]);
    Configured(cfg);
    assert t.id in NodeIds(plan);
  }

  lemma Configured(cfg: Config)
    ensures cfg.self.id in ConfiguredIds(cfg) && forall n :: n in cfg.seeds ==> n.id in ConfiguredIds(cfg)
  {
  }

  /** With everybody up and room for all in the replication factor, the first put plans for self
      and every seed and leaves the chunk on each. */
  lemma FirstPutReachesSeeds(cfg: Config, s: State, bytes: Bytes, w: World, s': State, r: Result<ChunkRef>,
                             plan: seq<StorageNode>, acked: set<string>)
    requires PutBy(cfg, s, bytes, w, s', r, plan, acked) && s.members == map[]
    requires Proper(cfg) && AllUp(cfg, w) && CollisionFree(cfg.hash, ConfiguredIds(cfg))
    requires |ConfiguredIds(cfg)| <= cfg.replication
    ensures NodeIds(plan) == ConfiguredIds(cfg) && cfg.sha(bytes) in s'.disk
    ensures forall i :: 0 <= i < |cfg.seeds| && LastListed(cfg.seeds, i) ==>
              cfg.seeds[i] in plan && Has(cfg, s'.disk, s'.peers, cfg.seeds[i], cfg.sha(bytes))
    ensures r.Ok? <==> cfg.writeQuorum <= |ConfiguredIds(cfg)|
  {
    hide Refreshed, CollisionFree, Settled, Proper, AllUp, ConfiguredIds, LastListed, PlanFor, Placed, Smooth;
    hide PutBy;
    var c, m := cfg.sha(bytes), Refreshed(cfg, map[]);
    var s1 := s.(members := m);
    PutAnnounces(cfg, s, bytes, w, s', r, plan, acked);
    FirstSettled(cfg);
    AllUpIsSmooth(cfg, w);
    PutPlaces(cfg, s1, bytes, w, s', r, plan, acked);
    PutGrows(cfg, s1, bytes, w, s', r, plan, acked);
    EverybodyPlanned(cfg, c, plan);
    PlacedOn(cfg, s', c, plan);
    Configured(cfg);
    OthersCount(cfg, plan);
    forall i | 0 <= i < |cfg.seeds| && LastListed(cfg.seeds, i)
      ensures cfg.seeds[i] in plan
    {
      SeedIsTarget(cfg, plan, c, i);
    }
  }

  lemma EverybodyPlanned(cfg: Config, c: string, plan: seq<StorageNode>)
    requires Proper(cfg) && CollisionFree(cfg.hash, ConfiguredIds(cfg)) && |ConfiguredIds(cfg)| <= cfg.replication
    requires PlanFor(Refreshed(cfg, map[]), cfg.hash, c, cfg.replication, plan)
    ensures NodeIds(plan) == ConfiguredIds(cfg)
  {
    hide Refreshed, CollisionFree, PlanFor, ConfiguredIds, Proper, Filed, AllHealthy;
    FirstSettled(cfg);
    PlanIsEverybody(Refreshed(cfg, map[]), cfg.hash, c, cfg.replication, plan);
  }

  lemma PlacedOn(cfg: Config, s: State, c: string, plan: seq<StorageNode>)
    requires Placed(cfg, s, c) && PlanFor(s.members, cfg.hash, c, cfg.replication, plan)
    ensures forall t :: t in plan ==> Has(cfg, s.disk, s.peers, t, c)
  {
    hide PlanFor;
  }

  lemma OthersCount(cfg: Config, plan: seq<StorageNode>)
    requires cfg.self.id in NodeIds(plan)
    ensures |NodeIds(plan)| == 1 + |OtherIds(cfg, plan)|
  {
    assert NodeIds(plan) == {cfg.self.id} + OtherIds(cfg, plan);
  }
}
