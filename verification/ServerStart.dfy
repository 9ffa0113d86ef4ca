/** A server started from its configuration, with every configured node up: what it answers is
    what a plain map answers, and every seed ends up with every chunk. */
module ServerStart {
  import opened HashRing
  import opened Placement
  import opened ChunkStore
  import opened ServiceModel
  import opened Metadata
  import opened ObjectModel
  import opened Membership
  import opened ObjectSpec
  import opened ObjectServer

  /** Nothing fails: the configured nodes, the log file and the database all answer. */
  ghost predicate AllWell(cfg: Config, envs: seq<Env>) {
    forall i :: 0 <= i < |envs| ==> AllUp(cfg, envs[i].net) && envs[i].walOk && envs[i].dbOk
  }

  /** A configuration whose quorums can be met, with no colliding virtual nodes. */
  ghost predicate Workable(cfg: Config) {
    && Proper(cfg) && CollisionFree(cfg.hash, ConfiguredIds(cfg))
    && Meets(cfg, cfg.writeQuorum) && Meets(cfg, cfg.readQuorum)
  }

  lemma StartsFaultless(cfg: Config, envs: seq<Env>)
    requires Workable(cfg) && AllWell(cfg, envs)
    ensures var m := Refreshed(cfg, map[]);
            && WritesFit(cfg, m) && (cfg.readQuorum <= 1 || ReadsFit(cfg, m))
            && forall i :: 0 <= i < |envs| ==> Faultless(cfg, m, envs[i])
  {
    hide Refreshed, ConfiguredIds, CollisionFree, Proper, AllUp, Settled, Smooth;
    FirstSettled(cfg);
    forall i | 0 <= i < |envs|
      ensures Faultless(cfg, Refreshed(cfg, map[]), envs[i])
    {
      AllUpIsSmooth(cfg, envs[i].net);
    }
  }

  // ---------------------------------------------------------------------- the plain map

  /** The map that the requests alone describe. */
  function Plain(qs: seq<Request>): Model {
    if qs == [] then map[]
    else
      var m, q := Plain(qs[..|qs| - 1]), qs[|qs| - 1];
      match q
      case Put(bucket, key, body) => if bucket == "" || key == "" then m else m[(bucket, key) := body]
      case Get(_, _) => m
      case Delete(bucket, key) => m - {(bucket, key)}
  }

  /** Every answer so far is exactly right, and says truly whether the request took effect. */
  ghost predicate Answered(qs: seq<Request>, done: seq<bool>, answers: seq<Response>) {
    && |qs| == |done| == |answers|
    && forall i :: 0 <= i < |qs| ==>
         && Right(After(map[], qs[..i], done[..i]), qs[i], answers[i], done[i], true)
         && Exact(After(map[], qs[..i], done[..i]), qs[i], answers[i])
  }

  lemma {:induction false} AnsweredIsPlain(qs: seq<Request>, done: seq<bool>, answers: seq<Response>, n: nat)
    requires Answered(qs, done, answers) && n <= |qs|
    ensures After(map[], qs[..n], done[..n]) == Plain(qs[..n])
  {
    if n > 0 {
      AnsweredIsPlain(qs, done, answers, n - 1);
      assert qs[..n][..n - 1] == qs[..n - 1] && done[..n][..n - 1] == done[..n - 1];
      assert qs[..n][n - 1] == qs[n - 1];
    }
  }

  lemma AllAnswered(cfg: Config, qs: seq<Request>, envs: seq<Env>, done: seq<bool>, answers: seq<Response>)
    requires AllWell(cfg, envs) && |qs| == |envs| == |done| == |answers|
    requires forall i :: 0 <= i < |qs| ==>
               && Right(After(map[], qs[..i], done[..i]), qs[i], answers[i], done[i], envs[i].dbOk)
               && Exact(After(map[], qs[..i], done[..i]), qs[i], answers[i])
    ensures After(map[], qs, done) == Plain(qs)
    ensures forall i :: 0 <= i < |qs| ==> Exact(Plain(qs[..i]), qs[i], answers[i])
  {
    hide Right, Exact, After, Plain, AllUp;
    assert Answered(qs, done, answers);
    forall i | 0 <= i < |qs|
      ensures Exact(Plain(qs[..i]), qs[i], answers[i])
    {
      AnsweredIsPlain(qs, done, answers, i);
    }
    AnsweredIsPlain(qs, done, answers, |qs|);
    assert qs[..|qs|] == qs && done[..|qs|] == done;
  }

  // --------------------------------------------------------------------------- the seeds

  /** Self has the chunk, and so does every seed, at the address last listed for its id. */
  ghost predicate OnEverySeed(cfg: Config, s: State, c: string) {
    && Has(cfg, s.disk, s.peers, cfg.self, c)
    && forall i :: 0 <= i < |cfg.seeds| && LastListed(cfg.seeds, i) ==> Has(cfg, s.disk, s.peers, cfg.seeds[i], c)
  }

  /** What is on all its targets is on every seed, if there is room for all. */
  lemma PlacedOnSeeds(cfg: Config, s: State, c: string)
    requires Proper(cfg) && CollisionFree(cfg.hash, ConfiguredIds(cfg)) && |ConfiguredIds(cfg)| <= cfg.replication
    requires s.members == Refreshed(cfg, map[]) && Placed(cfg, s, c)
    ensures OnEverySeed(cfg, s, c)
  {
    hide Refreshed, ConfiguredIds, CollisionFree, Proper, LastListed, Has, PlanFor, Placed;
    FirstSettled(cfg);
    var plan := SomePlan(s.members, cfg.hash, c, cfg.replication);
    EverybodyPlanned(cfg, c, plan);
    Configured(cfg);
    var t :| t in plan && t.id == cfg.self.id;
    PlacedOn(cfg, s, c, plan);
    SelfHas(cfg, s, t, c);
    forall i | 0 <= i < |cfg.seeds| && LastListed(cfg.seeds, i)
      ensures Has(cfg, s.disk, s.peers, cfg.seeds[i], c)
    {
      SeedIsTarget(cfg, plan, c, i);
    }
  }

  lemma SelfHas(cfg: Config, s: State, t: StorageNode, c: string)
    requires t.id == cfg.self.id && Has(cfg, s.disk, s.peers, t, c)
    ensures Has(cfg, s.disk, s.peers, cfg.self, c)
  {
  }

  /** Every object in the map is there as chunks, each on every seed. */
  ghost predicate Everywhere(cfg: Config, v: View) {
    forall k :: k in v.model ==>
                  && k in v.lists && Written(cfg.sha, v.lists[k], v.model[k])
                  && forall i :: 0 <= i < |v.lists[k]| ==> OnEverySeed(cfg, v.s, v.lists[k][i].checksum)
  }

  lemma InOrderEverywhere(cfg: Config, v: View)
    requires Proper(cfg) && CollisionFree(cfg.hash, ConfiguredIds(cfg)) && |ConfiguredIds(cfg)| <= cfg.replication
    requires Consistent(cfg, v) && InOrder(cfg, v) && v.s.members == Refreshed(cfg, map[])
    ensures Everywhere(cfg, v)
  {
    hide Refreshed, ConfiguredIds, CollisionFree, Proper, Placed, OnEverySeed, Written, Settled, Represents;
    forall k | k in v.model
      ensures k in v.lists && Written(cfg.sha, v.lists[k], v.model[k])
      ensures forall i :: 0 <= i < |v.lists[k]| ==> OnEverySeed(cfg, v.s, v.lists[k][i].checksum)
    {
      KeyInOrder(cfg, v, k);
      forall i | 0 <= i < |v.lists[k]|
        ensures OnEverySeed(cfg, v.s, v.lists[k][i].checksum)
      {
        PlacedOnSeeds(cfg, v.s, v.lists[k][i].checksum);
      }
    }
  }

  lemma KeyInOrder(cfg: Config, v: View, k: Key)
    requires Consistent(cfg, v) && InOrder(cfg, v) && k in v.model
    ensures k in v.lists && Written(cfg.sha, v.lists[k], v.model[k]) && AllPlaced(cfg, v.s, v.lists[k])
  {
    hide Settled, Represents, Written, AllPlaced;
    assert k in v.backed && k in v.full;
  }

  lemma WorkableEverywhere(cfg: Config, v: View)
    requires Workable(cfg) && |ConfiguredIds(cfg)| <= cfg.replication
    requires Consistent(cfg, v) && InOrder(cfg, v) && v.s.members == Refreshed(cfg, map[])
    ensures Everywhere(cfg, v)
  {
    hide Refreshed, ConfiguredIds, CollisionFree, Proper, Everywhere, Consistent, InOrder;
    InOrderEverywhere(cfg, v);
  }

  // ---------------------------------------------------------------------- the whole server

  /** A new server, and requests served by it one after the other. */
  method StartAndServe(cfg: Config, chunkSize: nat, cacheBytes: nat, walHash: string -> string,
                       requests: seq<Request>, envs: seq<Env>)
    returns (server: Server, answers: seq<Response>)
    requires Proper(cfg) && Injective(cfg.sha) && |envs| == |requests|
    ensures fresh(server) && server.Valid() && server.chunks.cfg == cfg && |answers| == |requests|
    ensures Workable(cfg) && AllWell(cfg, envs) ==>
              && server.model == Plain(requests)
              && forall i :: 0 <= i < |requests| ==> Exact(Plain(requests[..i]), requests[i], answers[i])
    ensures Workable(cfg) && AllWell(cfg, envs) && |ConfiguredIds(cfg)| <= cfg.replication ==>
              Everywhere(cfg, server.Now())
  {
    hide Workable, AllWell, Everywhere, InOrder, Faultless, Right, Exact, After, Refreshed, WritesFit, ReadsFit;
    hide Injective, Consistent, Plain, Meets;
    server := new Server(cfg, chunkSize, cacheBytes, walHash);
    ghost var done;
    if Workable(cfg) && AllWell(cfg, envs) {
      StartsFaultless(cfg, envs);
    }
    answers, done := server.Serve(requests, envs);
    if Workable(cfg) && AllWell(cfg, envs) {
      AllAnswered(cfg, requests, envs, done, answers);
      if |ConfiguredIds(cfg)| <= cfg.replication {
        WorkableEverywhere(cfg, server.Now());
      }
    }
  }
}
