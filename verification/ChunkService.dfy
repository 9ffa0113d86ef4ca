/** The replicated chunk service and the peers it talks to. */
module ChunkService {
  import opened Common
  import opened HashRing
  import opened Placement
  import opened ChunkStore
  import opened Handoff
  import opened ServiceModel

  /** All peers: the client's three RPCs and the handlers that serve them. A call to an
      address outside `up` may be lost before or after it takes effect. */
  class PeerNodes {
    const sha: Bytes -> string
    var chunks: Peers

    ghost predicate Valid()
      reads this
    {
      PeersIntact(sha, chunks)
    }

    constructor (sha: Bytes -> string)
      ensures Valid() && this.sha == sha && chunks == map[]
    {
      this.sha := sha;
      chunks := map[];
    }

    method PutChunk(node: StorageNode, ref: ChunkRef, bytes: Bytes, up: set<string>) returns (ok: bool)
      requires Valid()
      modifies this
      ensures Valid() && Adds(old(chunks), chunks, (node.address, sha(bytes)))
      ensures ok ==> ref.checksum == sha(bytes) && (node.address, ref.checksum) in chunks
      ensures node.address in up && ref.checksum == sha(bytes) ==> ok
    {
      var arrives, answered := *, *;
      if node.address !in up && !arrives {
        return false;
      }
      var k := (node.address, sha(bytes));
      if k !in chunks {
        chunks := chunks[k := bytes];
      }
      if sha(bytes) != ref.checksum {
        return false;
      }
      ok := node.address in up || answered;
    }

    /** A peer checks what it reads from disk, and may also answer from its cache. */
    method GetChunk(node: StorageNode, c: string, up: set<string>) returns (r: Result<Bytes>)
      requires Valid()
      ensures r.Ok? ==> sha(r.value) == c
      ensures node.address in up && (node.address, c) in chunks ==> r.Ok?
      ensures r.Err? ==> r.code == NotFound || r.code == Unavailable
    {
      if node.address in up && (node.address, c) in chunks {
        return Ok(chunks[(node.address, c)]);
      }
      var cached: Bytes := *;
      var arrives: bool := *;
      if arrives {
        r := if sha(cached) == c then Ok(cached) else Err(NotFound);
      } else {
        r := Err(Unavailable);
      }
    }

    method DeleteChunk(node: StorageNode, c: string, up: set<string>) returns (ok: bool)
      requires Valid()
      modifies this
      ensures Valid() && Extends(chunks, old(chunks))
      ensures forall k :: k in old(chunks) && k != (node.address, c) ==> k in chunks
      ensures ok ==> (node.address, c) !in chunks
      ensures node.address in up ==> ok
    {
      var arrives, answered := *, *;
      if node.address !in up && !arrives {
        return false;
      }
      chunks := chunks - {(node.address, c)};
      ok := node.address in up || answered;
    }
  }

  class DistributedChunkService {
    const cfg: Config
    const cluster: ClusterState
    const local: Store
    const peers: PeerNodes
    const handoff: HintedHandoffQueue

    ghost predicate Valid()
      reads cluster, local, local.cache, peers, handoff
    {
      && Proper(cfg) && cluster.hash == cfg.hash && local.sha == cfg.sha && peers.sha == cfg.sha
      && Filed(cluster.nodes) && AllHealthy(cluster.nodes)
      && local.Valid() && peers.Valid() && Whole(handoff.file)
    }

    ghost function Snap(): State
      reads cluster, local, peers, handoff
    {
      State(cluster.nodes, local.disk, peers.chunks, LoadFile(handoff.file))
    }

    constructor (cfg: Config, cacheBytes: nat)
      requires Proper(cfg)
      ensures Valid() && this.cfg == cfg && Snap() == State(map[], map[], map[], [])
      ensures fresh(cluster) && fresh(local) && fresh(local.cache) && fresh(peers) && fresh(handoff)
    {
      this.cfg := cfg;
      cluster := new ClusterState(cfg.hash);
      local := new Store(cfg.sha, cacheBytes);
      peers := new PeerNodes(cfg.sha);
      handoff := new HintedHandoffQueue();
    }

    method RefreshSeedMembers()
      requires Proper(cfg) && Filed(cluster.nodes) && AllHealthy(cluster.nodes)
      modifies cluster
      ensures Filed(cluster.nodes) && AllHealthy(cluster.nodes)
      ensures cluster.nodes == Refreshed(cfg, old(cluster.nodes))
    {
      cluster.Heartbeat(cfg.self);
      for i := 0 to |cfg.seeds|
        invariant Filed(cluster.nodes) && AllHealthy(cluster.nodes)
        invariant AddAll(cluster.nodes, cfg.seeds[i..]) == Refreshed(cfg, old(cluster.nodes))
      {
        assert cfg.seeds[i..][1..] == cfg.seeds[i + 1..];
        cluster.Heartbeat(cfg.seeds[i]);
      }
    }

    method Put(bytes: Bytes, w: World)
      returns (r: Result<ChunkRef>, ghost plan: seq<StorageNode>, ghost acked: set<string>)
      requires Valid()
      modifies cluster, local, local.cache, peers, handoff
      ensures Valid()
      ensures PutBy(cfg, old(Snap()), bytes, w, Snap(), r, plan, acked)
    {
      hide SentTo, Filed, AllHealthy, Whole, LoadFile, PlanFor, PlansEnd, Refreshed, Proper;
      plan, acked := [], {};
      ghost var s := Snap();
      RefreshSeedMembers();
      var writable: bool := *;
      var localRef := local.Put(bytes, w.diskOk || writable);
      if localRef.Err? {
        return Err(localRef.code), plan, acked;
      }
      HealthyPlansEnd(cluster.nodes, cfg.hash, cfg.replication);
      var targets := cluster.WritePlan(localRef.value.checksum, cfg.replication);
      plan := targets;
      PlanDistinct(cluster.nodes, cfg.hash, localRef.value.checksum, cfg.replication, plan);
      var acknowledgements;
      acknowledgements, acked := Send(s, localRef.value, bytes, targets, w);
      r := if acknowledgements < cfg.writeQuorum then Err(Unavailable) else Ok(localRef.value);
    }

    /** The loop of `put` over the targets. */
    method Send(ghost s: State, ref: ChunkRef, bytes: Bytes, targets: seq<StorageNode>, w: World)
      returns (acknowledgements: nat, ghost acked: set<string>)
      requires peers.Valid() && Whole(handoff.file) && DistinctIds(targets) && ref.checksum == peers.sha(bytes)
      requires s.peers == peers.chunks && s.queue == LoadFile(handoff.file)
      modifies peers, handoff
      ensures peers.Valid() && Whole(handoff.file) && acknowledgements == 1 + |acked|
      ensures SentTo(cfg, s, ref, w, targets, acked, peers.chunks, LoadFile(handoff.file))
    {
      hide SentTo, Whole, LoadFile, Reloaded, Adds, PeersIntact;
      acked := {};
      acknowledgements := 1;
      NothingSent(cfg, s, ref, w);
      assert targets[..0] == [];
      for i := 0 to |targets|
        invariant peers.Valid() && Whole(handoff.file)
        invariant SentTo(cfg, s, ref, w, targets[..i], acked, peers.chunks, LoadFile(handoff.file))
        invariant acknowledgements == 1 + |acked|
      {
        var node := targets[i];
        PlanPrefix(targets, i);
        ghost var before := peers.chunks;
        ghost var queue := LoadFile(handoff.file);
        if node.id == cfg.self.id {
          SentSelf(cfg, s, ref, w, targets[..i], node, acked, before, queue);
          continue;
        }
        var ok := peers.PutChunk(node, ref, bytes, w.up);
        if ok {
          SentAcked(cfg, s, ref, w, targets[..i], node, acked, before, peers.chunks, queue);
          acked := acked + {node.id};
          acknowledgements := acknowledgements + 1;
        } else {
          ghost var file := handoff.file;
          var queueOk: bool := *;
          var queued := handoff.Enqueue(node, ref, w.queueOk || queueOk);
          Enqueued(file, handoff.file, HintOf(node, ref), queued);
          SentMissed(cfg, s, ref, w, targets[..i], node, acked, before, peers.chunks, queue, LoadFile(handoff.file));
        }
      }
      assert targets[..|targets|] == targets;
    }

    /** Quorum read with read repair. */
    method Get(c: string, w: World)
      returns (r: Result<Bytes>, ghost plan: seq<StorageNode>, ghost asked: nat, ghost answered: set<string>)
      requires Valid()
      modifies cluster, local, local.cache, peers
      ensures Valid()
      ensures GetBy(cfg, old(Snap()), c, w, Snap(), r, plan, asked, answered)
    {
      hide Filed, AllHealthy, Whole, LoadFile, PlanFor, PlansEnd, Refreshed, Proper, PeersIntact, AskedAll, DistinctIds;
      hide Answering, GetBy;
      ghost var s := Snap();
      RefreshSeedMembers();
      HealthyPlansEnd(cluster.nodes, cfg.hash, cfg.replication);
      var targets := cluster.WritePlan(c, cfg.replication);
      plan := targets;
      PlanDistinct(cluster.nodes, cfg.hash, c, cfg.replication, plan);
      var value, failedReplicas, lastError;
      value, failedReplicas, lastError, asked, answered := Ask(s, c, targets, w);
      if value.Some? {
        Repair(s, c, value.value, failedReplicas, w);
        Repaired(cfg, s, c, w, Snap(), value.value, plan, asked, answered, failedReplicas);
        return Ok(value.value), plan, asked, answered;
      }
      TooFew(cfg, s, w, c, targets, answered, failedReplicas);
      asked, answered := 0, {};
      var own := local.Get(c);
      if own.Ok? && cfg.readQuorum <= 1 {
        r := Ok(own.value);
      } else {
        r := Err(if lastError == NotFound then Unavailable else lastError);
      }
      FellBack(cfg, s, c, w, Snap(), r, plan);
    }

    /** The loop of `get`: ask the targets in turn until enough have answered. */
    method Ask(ghost s: State, c: string, targets: seq<StorageNode>, w: World)
      returns (value: Option<Bytes>, failed: seq<StorageNode>, lastError: Code,
               ghost asked: nat, ghost answered: set<string>)
      requires local.Valid() && peers.Valid() && local.sha == peers.sha == cfg.sha && DistinctIds(targets)
      requires s.peers == peers.chunks && s.disk == local.disk
      modifies local.cache
      ensures local.Valid() && asked <= |targets| && lastError != Invalid
      ensures AskedAll(cfg, s, w, c, targets[..asked], answered, failed)
      ensures value.Some? ==> && cfg.sha(value.value) == c && |answered| == Enough(cfg)
                              && asked > 0 && targets[asked - 1].id in answered
      ensures value.None? ==> targets[..asked] == targets && (|answered| == 0 || |answered| < cfg.readQuorum)
    {
      hide PeersIntact, AskedAll, NodeIds, Answers, DistinctIds, Store.Valid;
      failed, lastError, answered := [], NotFound, {};
      var responses := 0;
      NobodyAsked(cfg, s, w, c);
      assert targets[..0] == [];
      for i := 0 to |targets|
        invariant local.Valid() && responses == |answered| && lastError != Invalid
        invariant responses == 0 || responses < cfg.readQuorum
        invariant AskedAll(cfg, s, w, c, targets[..i], answered, failed)
      {
        var node := targets[i];
        PlanPrefix(targets, i);
        var data;
        if node.id == cfg.self.id {
          data := local.Get(c);
        } else {
          data := peers.GetChunk(node, c, w.up);
        }
        SureAnswer(cfg, s, w, node, c);
        if data.Ok? {
          OneAnswered(cfg, s, w, c, targets[..i], node, answered, failed);
          responses := responses + 1;
          answered := answered + {node.id};
          if responses >= cfg.readQuorum {
            return Some(data.value), failed, lastError, i + 1, answered;
          }
        } else {
          OneFailed(cfg, s, w, c, targets[..i], node, answered, failed);
          failed := failed + [node];
          lastError := data.code;
        }
      }
      assert targets[..|targets|] == targets;
      value, asked := None, |targets|;
    }

    /** Read repair: the value goes to the replicas that failed to answer. */
    method Repair(ghost s: State, c: string, value: Bytes, failed: seq<StorageNode>, w: World)
      requires local.Valid() && peers.Valid() && local.sha == peers.sha == cfg.sha && cfg.sha(value) == c
      requires s.peers == peers.chunks && s.disk == local.disk
      modifies local, local.cache, peers
      ensures local.Valid() && peers.Valid()
      ensures RepairedOnly(cfg, s, failed, local.disk, peers.chunks, c)
      ensures forall t :: t in failed && Writable(cfg, w, t) ==> Has(cfg, local.disk, peers.chunks, t, c)
    {
      hide RepairedOnly, Adds, Extends, Has, Writable, PeersIntact;
      NothingRepaired(cfg, s, c);
      assert failed[..0] == [];
      for i := 0 to |failed|
        invariant local.Valid() && peers.Valid()
        invariant RepairedOnly(cfg, s, failed[..i], local.disk, peers.chunks, c)
        invariant forall t :: t in failed[..i] && Writable(cfg, w, t) ==> Has(cfg, local.disk, peers.chunks, t, c)
      {
        var t := failed[i];
        ghost var before, disk := peers.chunks, local.disk;
        assert failed[..i + 1] == failed[..i] + [t];
        var ok, writable := false, *;
        if t.id == cfg.self.id {
          var put := local.Put(value, w.diskOk || writable);
          ok := put.Ok?;
          RepairedSelf(cfg, s, failed[..i], t, disk, local.disk, peers.chunks, value, ok);
        } else {
          ok := peers.PutChunk(t, ChunkRef(c, |value|), value, w.up);
          RepairedPeer(cfg, s, failed[..i], t, local.disk, before, peers.chunks, c);
        }
        OneRepaired(cfg, w, t, c, ok, disk, local.disk, before, peers.chunks, failed[..i]);
      }
      assert failed[..|failed|] == failed;
    }

    /** Deletes an unreferenced chunk everywhere it was placed. */
    method Remove(c: string, references: int, w: World)
      returns (r: Result<()>, ghost plan: seq<StorageNode>, ghost removed: set<string>)
      requires Valid()
      modifies cluster, local, peers
      ensures Valid()
      ensures RemoveBy(cfg, old(Snap()), c, references, w, Snap(), r, plan, removed)
    {
      plan, removed := [], {};
      if references > 0 {
        return Ok(()), plan, removed;
      }
      hide Filed, AllHealthy, Whole, LoadFile, PlanFor, PlansEnd, Refreshed, Proper, PeersIntact, RemovedFrom;
      ghost var s := Snap();
      RefreshSeedMembers();
      HealthyPlansEnd(cluster.nodes, cfg.hash, cfg.replication);
      var targets := cluster.WritePlan(c, cfg.replication);
      plan := targets;
      PlanDistinct(cluster.nodes, cfg.hash, c, cfg.replication, plan);
      var acknowledgements;
      acknowledgements, removed := Delete(s, c, targets, w);
      if acknowledgements < cfg.writeQuorum && acknowledgements < |targets| {
        r := Err(Unavailable);
      } else {
        r := Ok(());
      }
    }

    /** The loop of `remove` over the targets. */
    method Delete(ghost s: State, c: string, targets: seq<StorageNode>, w: World)
      returns (acknowledgements: nat, ghost removed: set<string>)
      requires local.Valid() && peers.Valid() && DistinctIds(targets)
      requires s.peers == peers.chunks && s.disk == local.disk
      modifies local, peers
      ensures local.Valid() && peers.Valid() && acknowledgements == |removed|
      ensures RemovedFrom(cfg, s, c, w, targets, removed, local.disk, peers.chunks)
    {
      hide PeersIntact, RemovedFrom, NodeIds, Extends;
      acknowledgements, removed := 0, {};
      NothingRemoved(cfg, s, c, w);
      assert targets[..0] == [];
      for i := 0 to |targets|
        invariant local.Valid() && peers.Valid() && acknowledgements == |removed|
        invariant RemovedFrom(cfg, s, c, w, targets[..i], removed, local.disk, peers.chunks)
      {
        var node := targets[i];
        PlanPrefix(targets, i);
        ghost var disk, before := local.disk, peers.chunks;
        var ok;
        if node.id == cfg.self.id {
          var removable: bool := *;
          var gone := local.RemoveIfUnreferenced(c, 0, w.diskOk || removable);
          ok := gone.Ok?;
        } else {
          ok := peers.DeleteChunk(node, c, w.up);
        }
        OneRemoved(cfg, s, c, w, targets[..i], node, removed, ok, disk, local.disk, before, peers.chunks);
        if ok {
          acknowledgements := acknowledgements + 1;
          removed := removed + {node.id};
        }
      }
      assert targets[..|targets|] == targets;
    }

    /** Sends the queued chunks again; what could not be sent stays queued. */
    method ReplayHintedHandoff(w: World) returns (r: Result<nat>, ghost kept: seq<bool>)
      requires Valid()
      modifies local.cache, peers, handoff
      ensures Valid()
      ensures ReplayBy(cfg, old(Snap()), w, Snap(), r, kept)
    {
      hide Filed, AllHealthy, Whole, LoadFile, Reloaded, Proper, PeersIntact, Tried, Unmarked;
      ghost var s := Snap();
      var hints := handoff.Load();
      var remaining, delivered;
      remaining, delivered, kept := Resend(s, hints, w);
      LoadedReload(handoff.file);
      CleanSelection(hints, remaining);
      PrintIsWhole(remaining);
      ReloadedMeans(remaining);
      var writable: bool := *;
      var replaced := handoff.Replace(remaining, w.queueOk || writable);
      r := if replaced then Ok(delivered) else Err(Internal);
    }

    /** The loop of the replay. */
    method Resend(ghost s: State, hints: seq<Hint>, w: World)
      returns (remaining: seq<Hint>, delivered: nat, ghost kept: seq<bool>)
      requires local.Valid() && peers.Valid() && local.sha == peers.sha == cfg.sha
      requires s.peers == peers.chunks && s.disk == local.disk
      modifies local.cache, peers
      ensures local.Valid() && peers.Valid() && Tried(cfg, s, w, hints, kept, peers.chunks)
      ensures |kept| == |hints| && remaining == Keep(hints, kept) && delivered == Unmarked(kept)
    {
      hide PeersIntact, Tried, Keep, Unmarked, Adds;
      remaining, delivered, kept := [], 0, [];
      NothingTried(cfg, s, w);
      assert hints[..0] == [];
      for i := 0 to |hints|
        invariant local.Valid() && peers.Valid()
        invariant Tried(cfg, s, w, hints[..i], kept, peers.chunks)
        invariant |kept| == i && remaining == Keep(hints[..i], kept) && delivered == Unmarked(kept)
      {
        var h := hints[i];
        assert hints[..i + 1] == hints[..i] + [h];
        ghost var before := peers.chunks;
        var bytes := local.Get(h.checksum);
        var sent := false;
        if bytes.Ok? {
          sent := peers.PutChunk(StorageNode(h.id, h.address, true), ChunkRef(h.checksum, h.size), bytes.value, w.up);
        } else {
          NothingAdded(before, (h.address, h.checksum));
        }
        OneTried(cfg, s, w, hints[..i], h, kept, before, peers.chunks, !sent);
        if sent {
          delivered := delivered + 1;
        } else {
          remaining := remaining + [h];
        }
        kept := kept + [!sent];
      }
      assert hints[..|hints|] == hints;
    }
  }

  // ----------------------------------------------------------------- the steps of a get

  /** After asking `ts`: everybody answered or is on the failed list, and nobody on
      that list was sure to answer. */
  ghost predicate AskedAll(cfg: Config, s: State, w: World, c: string, ts: seq<StorageNode>, answered: set<string>,
                           failed: seq<StorageNode>)
  {
    && answered <= NodeIds(ts)
    && (forall t :: t in ts ==> t.id in answered || t in failed) && (forall t :: t in failed ==> t in ts)
    && (forall t :: t in ts && Answers(cfg, s, w, t, c) ==> t.id in answered)
  }

  lemma SureAnswer(cfg: Config, s: State, w: World, t: StorageNode, c: string)
    ensures Answers(cfg, s, w, t, c)
        <==> if t.id == cfg.self.id then c in s.disk && cfg.sha(s.disk[c]) == c
             else t.address in w.up && (t.address, c) in s.peers
  {
  }

  lemma NobodyAsked(cfg: Config, s: State, w: World, c: string)
    ensures AskedAll(cfg, s, w, c, [], {}, [])
  {
  }

  lemma OneAnswered(cfg: Config, s: State, w: World, c: string, ts: seq<StorageNode>, t: StorageNode,
                    answered: set<string>, failed: seq<StorageNode>)
    requires AskedAll(cfg, s, w, c, ts, answered, failed) && t.id !in NodeIds(ts)
    ensures AskedAll(cfg, s, w, c, ts + [t], answered + {t.id}, failed) && |answered + {t.id}| == |answered| + 1
  {
    hide Answers;
    assert t.id !in answered;
  }

  lemma OneFailed(cfg: Config, s: State, w: World, c: string, ts: seq<StorageNode>, t: StorageNode,
                  answered: set<string>, failed: seq<StorageNode>)
    requires AskedAll(cfg, s, w, c, ts, answered, failed) && !Answers(cfg, s, w, t, c)
    ensures AskedAll(cfg, s, w, c, ts + [t], answered, failed + [t])
  {
    hide Answers;
  }

  lemma TooFew(cfg: Config, s: State, w: World, c: string, plan: seq<StorageNode>, answered: set<string>,
               failed: seq<StorageNode>)
    requires AskedAll(cfg, s, w, c, plan, answered, failed)
    requires |answered| == 0 || |answered| < cfg.readQuorum
    ensures Answering(cfg, s, w, plan, c) == {} || |Answering(cfg, s, w, plan, c)| < cfg.readQuorum
  {
    hide Answers;
    var sure := Answering(cfg, s, w, plan, c);
    assert sure <= answered;
    SubsetCard(sure, answered);
  }

  lemma NothingAdded(a: Peers, at: (string, string))
    ensures Adds(a, a, at)
  {
  }

  /** Repair went to nodes of `failed` only, and only added. */
  ghost predicate RepairedOnly(cfg: Config, s: State, failed: seq<StorageNode>, disk: map<string, Bytes>,
                               peers: Peers, c: string) {
    && Extends(s.peers, peers) && OnlyNew(cfg, failed, s.peers, peers, c)
    && DiskGrows(cfg, s.disk, disk, c) && (disk == s.disk || cfg.self.id in NodeIds(failed))
  }

  lemma NothingRepaired(cfg: Config, s: State, c: string)
    ensures RepairedOnly(cfg, s, [], s.disk, s.peers, c)
  {
  }

  lemma RepairedSelf(cfg: Config, s: State, failed: seq<StorageNode>, t: StorageNode,
                     disk: map<string, Bytes>, disk': map<string, Bytes>, peers: Peers, value: Bytes, ok: bool)
    requires RepairedOnly(cfg, s, failed, disk, peers, cfg.sha(value)) && t.id == cfg.self.id
    requires disk' == if ok && cfg.sha(value) !in disk then disk[cfg.sha(value) := value] else disk
    ensures RepairedOnly(cfg, s, failed + [t], disk', peers, cfg.sha(value)) && disk.Keys <= disk'.Keys
    ensures Extends(peers, peers)
  {
    NodeIdsSnoc(failed, t);
    OnlyNewMore(cfg, failed, t, s.peers, peers, cfg.sha(value));
    hide OnlyNew, NodeIds;
  }

  lemma RepairedPeer(cfg: Config, s: State, failed: seq<StorageNode>, t: StorageNode,
                     disk: map<string, Bytes>, peers: Peers, peers': Peers, c: string)
    requires RepairedOnly(cfg, s, failed, disk, peers, c) && t.id != cfg.self.id && Adds(peers, peers', (t.address, c))
    ensures RepairedOnly(cfg, s, failed + [t], disk, peers', c) && Extends(peers, peers')
  {
    NodeIdsSnoc(failed, t);
    Grown(cfg, failed, t, s.peers, peers, peers', c);
    hide OnlyNew, NodeIds;
  }

  lemma OneRepaired(cfg: Config, w: World, t: StorageNode, c: string, ok: bool, disk: map<string, Bytes>,
                    disk': map<string, Bytes>,
                    peers: Peers, peers': Peers, earlier: seq<StorageNode>)
    requires disk.Keys <= disk'.Keys && Extends(peers, peers')
    requires if t.id == cfg.self.id then (w.diskOk ==> ok) && (ok ==> c in disk')
             else (t.address in w.up ==> ok) && (ok ==> (t.address, c) in peers')
    requires forall x :: x in earlier && Writable(cfg, w, x) ==> Has(cfg, disk, peers, x, c)
    ensures forall x :: x in earlier + [t] && Writable(cfg, w, x) ==> Has(cfg, disk', peers', x, c)
  {
  }

  lemma Repaired(cfg: Config, s: State, c: string, w: World, s': State, value: Bytes, plan: seq<StorageNode>,
                 asked: nat, answered: set<string>, failed: seq<StorageNode>)
    requires s'.members == Refreshed(cfg, s.members) && PlanFor(s'.members, cfg.hash, c, cfg.replication, plan)
    requires s'.queue == s.queue && cfg.sha(value) == c && asked <= |plan|
    requires AskedAll(cfg, s, w, c, plan[..asked], answered, failed) && |answered| == Enough(cfg)
    requires asked > 0 && plan[asked - 1].id in answered
    requires RepairedOnly(cfg, s, failed, s'.disk, s'.peers, c)
    requires forall t :: t in failed && Writable(cfg, w, t) ==> Has(cfg, s'.disk, s'.peers, t, c)
    ensures GetBy(cfg, s, c, w, s', Ok(value), plan, asked, answered)
  {
    hide PlanFor, Refreshed, Extends, OnlyNew, DiskGrows, Answers, Answering, Has, Writable, NodeIds, Enough, AskedAll;
    AskedOrRepaired(cfg, s, c, w, s', plan[..asked], answered, failed);
    AmongPlan(cfg, s.peers, s'.peers, plan, asked, failed, c);
  }

  lemma AskedOrRepaired(cfg: Config, s: State, c: string, w: World, s': State, ts: seq<StorageNode>,
                        answered: set<string>, failed: seq<StorageNode>)
    requires AskedAll(cfg, s, w, c, ts, answered, failed)
    requires forall t :: t in failed && Writable(cfg, w, t) ==> Has(cfg, s'.disk, s'.peers, t, c)
    ensures answered <= NodeIds(ts) && (forall t :: t in failed ==> t in ts)
    ensures forall t :: t in ts && Answers(cfg, s, w, t, c) ==> t.id in answered
    ensures forall t :: t in ts && Writable(cfg, w, t) ==> t.id in answered || Has(cfg, s'.disk, s'.peers, t, c)
  {
    hide Answers, Has, Writable;
  }

  lemma AmongPlan(cfg: Config, a: Peers, b: Peers, plan: seq<StorageNode>, asked: nat, failed: seq<StorageNode>,
                  c: string)
    requires asked <= |plan| && (forall t :: t in failed ==> t in plan[..asked]) && OnlyNew(cfg, failed, a, b, c)
    ensures OnlyNew(cfg, plan[..asked], a, b, c) && NodeIds(failed) <= NodeIds(plan[..asked])
  {
    forall address | OtherAt(cfg, failed, address)
      ensures OtherAt(cfg, plan[..asked], address)
    {
      var t :| t in failed && t.id != cfg.self.id && t.address == address;
    }
  }

  lemma FellBack(cfg: Config, s: State, c: string, w: World, s': State, r: Result<Bytes>, plan: seq<StorageNode>)
    requires s' == s.(members := Refreshed(cfg, s.members)) && PlanFor(s'.members, cfg.hash, c, cfg.replication, plan)
    requires Answering(cfg, s, w, plan, c) == {} || |Answering(cfg, s, w, plan, c)| < cfg.readQuorum
    requires if r.Ok? then cfg.sha(r.value) == c && cfg.readQuorum <= 1
             else (r.code == Unavailable || r.code == Internal) && (cfg.readQuorum <= 1 ==> !LocalHolds(cfg, s.disk, c))
    ensures GetBy(cfg, s, c, w, s', r, plan, 0, {})
  {
    hide PlanFor, Refreshed, Answering;
    NothingRepaired(cfg, s, c);
  }

  // ---------------------------------------------------------------- the steps of a put

  lemma PlanPrefix(plan: seq<StorageNode>, i: nat)
    requires i < |plan|
    ensures plan[..i + 1] == plan[..i] + [plan[i]]
    ensures DistinctIds(plan) ==> plan[i].id !in NodeIds(plan[..i])
  {
  }

  lemma NothingSent(cfg: Config, s: State, ref: ChunkRef, w: World)
    ensures SentTo(cfg, s, ref, w, [], {}, s.peers, s.queue)
  {
    assert Print([]) == "";
    NothingToLoad();
  }

  lemma {:induction false} MissedIgnores(cfg: Config, ts: seq<StorageNode>, acked: set<string>, ref: ChunkRef,
                                         id: string)
    requires id !in NodeIds(ts)
    ensures MissedHints(cfg, ts, acked + {id}, ref) == MissedHints(cfg, ts, acked, ref)
  {
    if ts != [] {
      MissedIgnores(cfg, ts[..|ts| - 1], acked, ref, id);
      assert ts[|ts| - 1] in ts;
    }
  }

  lemma MissedSnoc(cfg: Config, ts: seq<StorageNode>, t: StorageNode, acked: set<string>, ref: ChunkRef)
    ensures MissedHints(cfg, ts + [t], acked, ref)
         == MissedHints(cfg, ts, acked, ref) + if t.id != cfg.self.id && t.id !in acked then [HintOf(t, ref)] else []
  {
    assert (ts + [t])[..|ts|] == ts;
  }

  lemma OnlyNewMore(cfg: Config, ts: seq<StorageNode>, t: StorageNode, a: Peers, b: Peers, c: string)
    requires OnlyNew(cfg, ts, a, b, c)
    ensures OnlyNew(cfg, ts + [t], a, b, c)
  {
    forall address | OtherAt(cfg, ts, address)
      ensures OtherAt(cfg, ts + [t], address)
    {
      var x :| x in ts && x.id != cfg.self.id && x.address == address;
      assert x in ts + [t];
    }
  }

  lemma Grown(cfg: Config, ts: seq<StorageNode>, t: StorageNode, a: Peers, b: Peers, d: Peers, c: string)
    requires Extends(a, b) && OnlyNew(cfg, ts, a, b, c) && Adds(b, d, (t.address, c)) && t.id != cfg.self.id
    ensures Extends(a, d) && OnlyNew(cfg, ts + [t], a, d, c)
  {
    OnlyNewMore(cfg, ts, t, a, b, c);
    assert OtherAt(cfg, ts + [t], t.address) by { assert t in ts + [t]; }
    hide OtherAt;
  }

  lemma SentSelf(cfg: Config, s: State, ref: ChunkRef, w: World, ts: seq<StorageNode>, t: StorageNode,
                 acked: set<string>, peers: Peers, queue: seq<Hint>)
    requires SentTo(cfg, s, ref, w, ts, acked, peers, queue) && t.id == cfg.self.id
    ensures SentTo(cfg, s, ref, w, ts + [t], acked, peers, queue)
  {
    OnlyNewMore(cfg, ts, t, s.peers, peers, ref.checksum);
    hide Extends, OnlyNew, Reloaded, MissedHints;
    MissedSnoc(cfg, ts, t, acked, ref);
    assert MissedHints(cfg, ts, acked, ref) + [] == MissedHints(cfg, ts, acked, ref);
    assert OtherIds(cfg, ts) <= OtherIds(cfg, ts + [t]);
  }

  lemma SentAcked(cfg: Config, s: State, ref: ChunkRef, w: World, ts: seq<StorageNode>, t: StorageNode,
                  acked: set<string>, peers: Peers, peers': Peers, queue: seq<Hint>)
    requires SentTo(cfg, s, ref, w, ts, acked, peers, queue) && t.id != cfg.self.id && t.id !in NodeIds(ts)
    requires Adds(peers, peers', (t.address, ref.checksum)) && (t.address, ref.checksum) in peers'
    ensures SentTo(cfg, s, ref, w, ts + [t], acked + {t.id}, peers', queue)
    ensures |acked + {t.id}| == |acked| + 1
  {
    Grown(cfg, ts, t, s.peers, peers, peers', ref.checksum);
    MissedIgnores(cfg, ts, acked, ref, t.id);
    MissedSnoc(cfg, ts, t, acked + {t.id}, ref);
    hide Reloaded, MissedHints, OnlyNew;
    assert MissedHints(cfg, ts, acked, ref) + [] == MissedHints(cfg, ts, acked, ref);
    assert t.id !in acked;
    forall x | x in ts && x.id in acked + {t.id}
      ensures (x.address, ref.checksum) in peers'
    {
      assert x.id in NodeIds(ts);
    }
  }

  lemma SentMissed(cfg: Config, s: State, ref: ChunkRef, w: World, ts: seq<StorageNode>, t: StorageNode,
                   acked: set<string>, peers: Peers, peers': Peers, queue: seq<Hint>, queue': seq<Hint>)
    requires SentTo(cfg, s, ref, w, ts, acked, peers, queue)
    requires t.id != cfg.self.id && t.id !in NodeIds(ts) && t.address !in w.up
    requires Adds(peers, peers', (t.address, ref.checksum))
    requires queue <= queue' && (w.queueOk ==> queue' == queue + Reloaded([HintOf(t, ref)]))
    ensures SentTo(cfg, s, ref, w, ts + [t], acked, peers', queue')
  {
    NotYetAcked(cfg, ts, t, acked);
    Grown(cfg, ts, t, s.peers, peers, peers', ref.checksum);
    StillThere(ts, t, acked, peers, peers', ref.checksum);
    hide Reloaded, MissedHints, OnlyNew, Extends, NodeIds, OtherIds;
    QueueGrows(cfg, ts, t, acked, ref, w.queueOk, s.queue, queue, queue');
    forall x | x in ts + [t] && x.id != cfg.self.id && x.address in w.up
      ensures x.id in acked
    {
      assert x in ts;
    }
  }

  lemma QueueGrows(cfg: Config, ts: seq<StorageNode>, t: StorageNode, acked: set<string>, ref: ChunkRef, queueOk: bool,
                   first: seq<Hint>, queue: seq<Hint>, queue': seq<Hint>)
    requires t.id != cfg.self.id && t.id !in acked && first <= queue <= queue'
    requires queueOk ==>
               && queue == first + Reloaded(MissedHints(cfg, ts, acked, ref))
               && queue' == queue + Reloaded([HintOf(t, ref)])
    ensures first <= queue' && (queueOk ==> queue' == first + Reloaded(MissedHints(cfg, ts + [t], acked, ref)))
  {
    hide Reloaded, MissedHints;
    MissedSnoc(cfg, ts, t, acked, ref);
    ReloadedSnoc(MissedHints(cfg, ts, acked, ref), HintOf(t, ref));
  }

  lemma NotYetAcked(cfg: Config, ts: seq<StorageNode>, t: StorageNode, acked: set<string>)
    requires acked <= OtherIds(cfg, ts) && t.id !in NodeIds(ts)
    ensures t.id !in acked && acked <= OtherIds(cfg, ts + [t])
  {
  }

  lemma StillThere(ts: seq<StorageNode>, t: StorageNode, acked: set<string>, peers: Peers, peers': Peers, c: string)
    requires t.id !in acked && Extends(peers, peers')
    requires forall x :: x in ts && x.id in acked ==> (x.address, c) in peers
    ensures forall x :: x in ts + [t] && x.id in acked ==> (x.address, c) in peers'
  {
  }

  lemma Enqueued(file: string, file': string, h: Hint, queued: bool)
    requires Whole(file) && file' == if queued then file + Print([h]) else file
    ensures Whole(file') && LoadFile(file') == LoadFile(file) + if queued then Reloaded([h]) else []
  {
    PrintIsWhole([h]);
    hide LoadFile, Print;
    LoadAppend(file, Print([h]));
  }

  // -------------------------------------------------------- the steps of remove and replay

  lemma NothingRemoved(cfg: Config, s: State, c: string, w: World)
    ensures RemovedFrom(cfg, s, c, w, [], {}, s.disk, s.peers)
  {
  }

  lemma OneRemoved(cfg: Config, s: State, c: string, w: World, ts: seq<StorageNode>, t: StorageNode,
                   removed: set<string>, ok: bool,
                   disk: map<string, Bytes>, disk': map<string, Bytes>, peers: Peers, peers': Peers)
    requires RemovedFrom(cfg, s, c, w, ts, removed, disk, peers) && t.id !in NodeIds(ts)
    requires if t.id == cfg.self.id then peers' == peers && (disk' == disk || disk' == disk - {c})
             else
               && disk' == disk && Extends(peers', peers)
               && forall k :: k in peers && k != (t.address, c) ==> k in peers'
    requires ok ==> !Has(cfg, disk', peers', t, c)
    requires Writable(cfg, w, t) ==> ok
    ensures RemovedFrom(cfg, s, c, w, ts + [t], if ok then removed + {t.id} else removed, disk', peers')
    ensures ok ==> |removed + {t.id}| == |removed| + 1
  {
    var removed' := if ok then removed + {t.id} else removed;
    NodeIdsSnoc(ts, t);
    RemovedThere(cfg, s, c, ts, t, disk, disk', peers, peers');
    StillRemoved(cfg, c, ts, t, removed, removed', disk, disk', peers, peers');
    hide Writable, Has, NodeIds, Extends, OtherAt;
  }

  /** Only the nodes asked so far lost the chunk. */
  lemma RemovedThere(cfg: Config, s: State, c: string, ts: seq<StorageNode>, t: StorageNode,
                     disk: map<string, Bytes>, disk': map<string, Bytes>, peers: Peers, peers': Peers)
    requires if t.id == cfg.self.id then peers' == peers && (disk' == disk || disk' == disk - {c})
             else
               && disk' == disk && Extends(peers', peers)
               && forall k :: k in peers && k != (t.address, c) ==> k in peers'
    requires disk == s.disk || (cfg.self.id in NodeIds(ts) && disk == s.disk - {c})
    requires Extends(peers, s.peers)
    requires forall k :: k in s.peers && k !in peers ==> k.1 == c && OtherAt(cfg, ts, k.0)
    ensures disk' == s.disk || (cfg.self.id in NodeIds(ts + [t]) && disk' == s.disk - {c})
    ensures Extends(peers', s.peers)
    ensures forall k :: k in s.peers && k !in peers' ==> k.1 == c && OtherAt(cfg, ts + [t], k.0)
  {
    forall k | k in s.peers && k !in peers'
      ensures k.1 == c && OtherAt(cfg, ts + [t], k.0)
    {
      if k !in peers {
        var x :| x in ts && x.id != cfg.self.id && x.address == k.0;
        assert x in ts + [t];
      } else {
        assert k == (t.address, c) && t in ts + [t];
      }
    }
    assert s.disk - {c} - {c} == s.disk - {c};
  }

  lemma StillRemoved(cfg: Config, c: string, ts: seq<StorageNode>, t: StorageNode, removed: set<string>,
                     removed': set<string>,
                     disk: map<string, Bytes>, disk': map<string, Bytes>, peers: Peers, peers': Peers)
    requires t.id !in NodeIds(ts) && disk'.Keys <= disk.Keys && peers'.Keys <= peers.Keys
    requires removed <= removed' <= removed + {t.id} && (t.id in removed' ==> !Has(cfg, disk', peers', t, c))
    requires removed <= NodeIds(ts) && forall x :: x in ts && x.id in removed ==> !Has(cfg, disk, peers, x, c)
    ensures forall x :: x in ts + [t] && x.id in removed' ==> !Has(cfg, disk', peers', x, c)
  {
    assert forall x :: x in ts ==> x.id in NodeIds(ts);
  }

  lemma NothingTried(cfg: Config, s: State, w: World)
    ensures Tried(cfg, s, w, [], [], s.peers) && Keep([], []) == [] && Unmarked([]) == 0
  {
  }

  lemma OneTried(cfg: Config, s: State, w: World, hs: seq<Hint>, h: Hint, kept: seq<bool>, peers: Peers,
                 peers': Peers, keep: bool)
    requires Tried(cfg, s, w, hs, kept, peers) && Adds(peers, peers', (h.address, h.checksum))
    requires if keep then h.address !in w.up || !LocalHolds(cfg, s.disk, h.checksum)
             else (h.address, h.checksum) in peers'
    ensures Tried(cfg, s, w, hs + [h], kept + [keep], peers')
    ensures Keep(hs + [h], kept + [keep]) == Keep(hs, kept) + if keep then [h] else []
    ensures Unmarked(kept + [keep]) == Unmarked(kept) + if keep then 0 else 1
  {
    hide LocalHolds;
    forall k | HintedAt(hs, k) || k == (h.address, h.checksum)
      ensures HintedAt(hs + [h], k)
    {
      if HintedAt(hs, k) {
        var x :| x in hs && k == (x.address, x.checksum);
        assert x in hs + [h];
      } else {
        assert h in hs + [h];
      }
    }
    hide HintedAt;
    assert (hs + [h])[..|hs|] == hs && (kept + [keep])[..|hs|] == kept;
  }

  lemma ReloadedMeans(hs: seq<Hint>)
    ensures LoadFile(Print(hs)) == Reloaded(hs)
  {
  }
}
