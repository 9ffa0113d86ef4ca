/** What the coordinator's tables and chunks say about objects, and how that survives
    the chunk operations behind each request. */
module ObjectModel {
  import opened Common
  import opened HashRing
  import opened Placement
  import opened ChunkStore
  import opened Handoff
  import opened ServiceModel
  import opened Metadata

  /** The plain map that the object store is to be. */
  type Model = map<Key, Bytes>

  /** The chunk list names these parts, in order. */
  ghost predicate Spells(sha: Bytes -> string, refs: seq<ChunkRef>, parts: seq<Bytes>) {
    && |refs| == |parts|
    && forall i :: 0 <= i < |parts| ==> refs[i] == ChunkRef(sha(parts[i]), |parts[i]|)
  }

  /** The chunk list was written from this body. */
  ghost predicate Written(sha: Bytes -> string, refs: seq<ChunkRef>, body: Bytes) {
    exists parts :: Spells(sha, refs, parts) && Flatten(parts) == body
  }

  /** The object rows are those of the map. */
  ghost predicate Represents(sha: Bytes -> string, objects: Objects, model: Model) {
    && objects.Keys == model.Keys
    && forall k :: k in model ==> objects[k] == ObjectRow(|model[k]|, sha(model[k]))
  }

  ghost predicate Stored(refs: seq<ChunkRef>, disk: map<string, Bytes>) {
    forall i :: 0 <= i < |refs| ==> refs[i].checksum in disk
  }

  /** The objects in `backed` have all their chunk rows, and the chunks are on the local disk. */
  ghost predicate Backed(sha: Bytes -> string, lists: ChunkLists, model: Model, backed: set<Key>,
                         disk: map<string, Bytes>) {
    forall k :: k in backed ==>
                  k in lists && k in model && Written(sha, lists[k], model[k]) && Stored(lists[k], disk)
  }

  // -------------------------------------------------------------------- full placement

  /** Announcing self and seeds again changes nothing. */
  ghost predicate Settled(cfg: Config, members: Members) {
    && Filed(members) && AllHealthy(members)
    && Refreshed(cfg, members) == members
  }

  /** No fault during the call: every member answers and the disk can be written. */
  ghost predicate Calm(members: Members, w: World) {
    w.diskOk && forall id :: id in members ==> members[id].address in w.up
  }

  /** No fault and no colliding virtual nodes: placement is what it should be. */
  ghost predicate Smooth(cfg: Config, members: Members, w: World) {
    Calm(members, w) && CollisionFree(cfg.hash, members.Keys)
  }

  /** The write quorum can be met by the members there are. */
  ghost predicate WritesFit(cfg: Config, members: Members) {
    cfg.writeQuorum <= 1 || (cfg.writeQuorum <= cfg.replication && cfg.writeQuorum <= |members|)
  }

  ghost predicate ReadsFit(cfg: Config, members: Members) {
    cfg.readQuorum <= cfg.replication && cfg.readQuorum <= |members|
  }

  /** Every target of the chunk has it. */
  ghost predicate Placed(cfg: Config, s: State, c: string) {
    forall plan, t :: PlanFor(s.members, cfg.hash, c, cfg.replication, plan) && t in plan ==>
                        Has(cfg, s.disk, s.peers, t, c)
  }

  /** No target of the chunk has it. */
  ghost predicate Gone(cfg: Config, s: State, c: string) {
    forall plan, t :: PlanFor(s.members, cfg.hash, c, cfg.replication, plan) && t in plan ==>
                        !Has(cfg, s.disk, s.peers, t, c)
  }

  ghost predicate AllPlaced(cfg: Config, s: State, refs: seq<ChunkRef>) {
    forall i :: 0 <= i < |refs| ==> Placed(cfg, s, refs[i].checksum)
  }

  /** The objects in `full` are on all their replicas. */
  ghost predicate FullyPlaced(cfg: Config, s: State, lists: ChunkLists, full: set<Key>) {
    forall k :: k in full ==> k in lists && AllPlaced(cfg, s, lists[k])
  }

  /** `s'` has every copy that `s` has. */
  ghost predicate Grew(cfg: Config, s: State, s': State) {
    && s'.members == s.members && Extends(s.disk, s'.disk) && Extends(s.peers, s'.peers)
    && (Intact(cfg.sha, s.disk) ==> Intact(cfg.sha, s'.disk))
  }

  lemma GrewTwice(cfg: Config, a: State, b: State, d: State)
    requires Grew(cfg, a, b) && Grew(cfg, b, d)
    ensures Grew(cfg, a, d)
  {
    hide Intact;
  }

  lemma PlacedGrows(cfg: Config, s: State, s': State, c: string)
    requires Grew(cfg, s, s') && Placed(cfg, s, c)
    ensures Placed(cfg, s', c)
  {
    hide PlanFor, Intact;
    forall plan, t | PlanFor(s'.members, cfg.hash, c, cfg.replication, plan) && t in plan
      ensures Has(cfg, s'.disk, s'.peers, t, c)
    {
      assert Has(cfg, s.disk, s.peers, t, c);
    }
  }

  lemma AllPlacedGrows(cfg: Config, s: State, s': State, refs: seq<ChunkRef>)
    requires Grew(cfg, s, s') && AllPlaced(cfg, s, refs)
    ensures AllPlaced(cfg, s', refs)
  {
    hide Placed, Grew;
    forall i | 0 <= i < |refs|
      ensures Placed(cfg, s', refs[i].checksum)
    {
      PlacedGrows(cfg, s, s', refs[i].checksum);
    }
  }

  /** Growth endangers no object. */
  lemma GrowthIsSafe(cfg: Config, s: State, s': State, lists: ChunkLists, model: Model,
                     backed: set<Key>, full: set<Key>)
    requires Grew(cfg, s, s') && Backed(cfg.sha, lists, model, backed, s.disk) && FullyPlaced(cfg, s, lists, full)
    ensures Backed(cfg.sha, lists, model, backed, s'.disk) && FullyPlaced(cfg, s', lists, full)
  {
    hide Written;
    forall k | k in full
      ensures AllPlaced(cfg, s', lists[k])
    {
      hide AllPlaced, Grew;
      AllPlacedGrows(cfg, s, s', lists[k]);
    }
  }

  // ------------------------------------------------------------------------- membership

  lemma {:induction false} AddAllMeans(a: Members, b: Members, nodes: seq<StorageNode>)
    ensures AddAll(a, nodes).Keys == a.Keys + NodeIds(nodes)
    ensures forall id :: id in NodeIds(nodes) ==> id in AddAll(b, nodes) && AddAll(a, nodes)[id] == AddAll(b, nodes)[id]
    ensures forall id :: id in a && id !in NodeIds(nodes) ==> AddAll(a, nodes)[id] == a[id]
    decreases |nodes|
  {
    if nodes != [] {
      var n, rest := nodes[0], nodes[1..];
      NodeIdsCons(n, rest);
      assert nodes == [n] + rest;
      AddAllMeans(a[n.id := n], b[n.id := n], rest);
      AddAllMeans(b[n.id := n], a[n.id := n], rest);
      hide NodeIds;
    }
  }

  /** One announcement settles the membership. */
  lemma RefreshedTwice(cfg: Config, members: Members)
    ensures Refreshed(cfg, Refreshed(cfg, members)) == Refreshed(cfg, members)
  {
    var a := members[cfg.self.id := cfg.self];
    var m := AddAll(a, cfg.seeds);
    var b := m[cfg.self.id := cfg.self];
    AddAllMeans(a, b, cfg.seeds);
    AddAllMeans(b, a, cfg.seeds);
    hide AddAll, NodeIds;
    assert AddAll(b, cfg.seeds) == m;
  }

  // ------------------------------------------------------------------- one chunk stored

  lemma PutGrows(cfg: Config, s: State, bytes: Bytes, w: World, s': State, r: Result<ChunkRef>,
                 plan: seq<StorageNode>, acked: set<string>)
    requires PutBy(cfg, s, bytes, w, s', r, plan, acked) && Settled(cfg, s.members)
    ensures Grew(cfg, s, s')
    ensures r.Ok? ==> r.value == ChunkRef(cfg.sha(bytes), |bytes|) && r.value.checksum in s'.disk
    ensures r.Err? ==> r.code != NotFound && r.code != Invalid
  {
    hide PlanFor, Refreshed, Reloaded, OtherIds, OnlyNew, Filed, AllHealthy;
  }

  lemma PutPlaces(cfg: Config, s: State, bytes: Bytes, w: World, s': State, r: Result<ChunkRef>,
                  plan: seq<StorageNode>, acked: set<string>)
    requires PutBy(cfg, s, bytes, w, s', r, plan, acked) && Settled(cfg, s.members)
    requires Smooth(cfg, s.members, w)
    ensures Placed(cfg, s', cfg.sha(bytes)) && acked == OtherIds(cfg, plan)
    ensures PlanFor(s.members, cfg.hash, cfg.sha(bytes), cfg.replication, plan)
    ensures r.Ok? <==> 1 + |acked| >= cfg.writeQuorum
  {
    var c := cfg.sha(bytes);
    PlanMembers(s.members, cfg.hash, c, cfg.replication, plan);
    hide PlanFor, Refreshed, Reloaded, OnlyNew, Filed, AllHealthy, CollisionFree, Extends;
    assert c in s'.disk;
    forall other, t | PlanFor(s'.members, cfg.hash, c, cfg.replication, other) && t in other
      ensures Has(cfg, s'.disk, s'.peers, t, c)
    {
      PlanDeterministic(s.members, cfg.hash, c, cfg.replication, other, plan);
      if t.id != cfg.self.id {
        assert t.id in s.members && s.members[t.id] == t;
      }
    }
    forall id | id in OtherIds(cfg, plan)
      ensures id in acked
    {
      var t :| t in plan && t.id != cfg.self.id && t.id == id;
    }
  }

  lemma {:induction false} AlmostAllOthers(cfg: Config, plan: seq<StorageNode>)
    requires DistinctIds(plan)
    ensures |OtherIds(cfg, plan)| >= |plan| - 1
    ensures (forall t :: t in plan ==> t.id != cfg.self.id) ==> |OtherIds(cfg, plan)| == |plan|
  {
    if plan != [] {
      var n := |plan| - 1;
      var before, t := plan[..n], plan[n];
      assert plan == before + [t];
      AlmostAllOthers(cfg, before);
      var ids := OtherIds(cfg, before);
      assert t.id !in ids;
      if t.id == cfg.self.id {
        assert OtherIds(cfg, plan) == ids;
      } else {
        assert OtherIds(cfg, plan) == ids + {t.id};
      }
    }
  }

  /** Without faults a put succeeds whenever the quorum fits the members. */
  lemma CalmPutSucceeds(cfg: Config, s: State, bytes: Bytes, w: World, s': State, r: Result<ChunkRef>,
                        plan: seq<StorageNode>, acked: set<string>)
    requires PutBy(cfg, s, bytes, w, s', r, plan, acked) && Settled(cfg, s.members)
    requires Smooth(cfg, s.members, w)
    requires WritesFit(cfg, s.members)
    ensures r.Ok?
  {
    PutPlaces(cfg, s, bytes, w, s', r, plan, acked);
    hide PutBy, PlanFor, Refreshed, Placed, CollisionFree, Calm, Filed, AllHealthy;
    PlanSize(s.members, cfg.hash, cfg.sha(bytes), cfg.replication, plan);
    PlanDistinct(s.members, cfg.hash, cfg.sha(bytes), cfg.replication, plan);
    AlmostAllOthers(cfg, plan);
  }

  // --------------------------------------------------------------------- one chunk read

  /** The quorum that the chunk's read needs can be met. */
  ghost predicate SureRead(cfg: Config, s: State, w: World, c: string) {
    && CollisionFree(cfg.hash, s.members.Keys) && Intact(cfg.sha, s.disk) && c in s.disk
    && (cfg.readQuorum <= 1
        || (Calm(s.members, w) && Placed(cfg, s, c) && ReadsFit(cfg, s.members)))
  }

  lemma GetGrows(cfg: Config, s: State, c: string, w: World, s': State, r: Result<Bytes>, plan: seq<StorageNode>,
                 asked: nat, answered: set<string>)
    requires GetBy(cfg, s, c, w, s', r, plan, asked, answered) && Settled(cfg, s.members)
    ensures Grew(cfg, s, s')
    ensures if r.Ok? then cfg.sha(r.value) == c else r.code == Unavailable || r.code == Internal
  {
    hide PlanFor, Refreshed, OnlyNew, Filed, AllHealthy, Answering, NodeIds;
  }

  lemma {:induction false} IdCount(plan: seq<StorageNode>)
    requires DistinctIds(plan)
    ensures |NodeIds(plan)| == |plan|
  {
    if plan != [] {
      var n := |plan| - 1;
      assert plan == plan[..n] + [plan[n]];
      IdCount(plan[..n]);
      NodeIdsSnoc(plan[..n], plan[n]);
      assert plan[n].id !in NodeIds(plan[..n]);
    }
  }

  lemma EverybodyAnswers(cfg: Config, s: State, w: World, plan: seq<StorageNode>, c: string)
    requires PlanFor(s.members, cfg.hash, c, cfg.replication, plan)
    requires Calm(s.members, w) && Placed(cfg, s, c) && LocalHolds(cfg, s.disk, c)
    ensures Answering(cfg, s, w, plan, c) == NodeIds(plan)
  {
    PlanMembers(s.members, cfg.hash, c, cfg.replication, plan);
    hide PlanFor, LocalHolds;
    forall t | t in plan
      ensures Answers(cfg, s, w, t, c)
    {
      assert Has(cfg, s.disk, s.peers, t, c);
    }
  }

  lemma SureReadSucceeds(cfg: Config, s: State, c: string, w: World, s': State, r: Result<Bytes>,
                         plan: seq<StorageNode>, asked: nat, answered: set<string>)
    requires GetBy(cfg, s, c, w, s', r, plan, asked, answered) && Settled(cfg, s.members) && SureRead(cfg, s, w, c)
    ensures r.Ok?
  {
    assert LocalHolds(cfg, s.disk, c);
    if cfg.readQuorum > 1 {
      assert PlanFor(s.members, cfg.hash, c, cfg.replication, plan);
      PlanDistinct(s.members, cfg.hash, c, cfg.replication, plan);
      hide PlanFor, Refreshed, CollisionFree, Placed, Calm, Filed, AllHealthy, Answering, Extends, OnlyNew;
      hide DiskGrows, NodeIds, LocalHolds;
      PlanSize(s.members, cfg.hash, c, cfg.replication, plan);
      EverybodyAnswers(cfg, s, w, plan, c);
      IdCount(plan);
    }
  }

  /** The handler's own check on the size of the plan passes. */
  lemma SureReadPlan(cfg: Config, s: State, c: string, w: World, plan: seq<StorageNode>)
    requires PlanFor(s.members, cfg.hash, c, cfg.replication, plan) && Settled(cfg, s.members) && SureRead(cfg, s, w, c)
    ensures |plan| >= cfg.readQuorum || |plan| >= cfg.replication
  {
    hide PlanFor, CollisionFree, Placed, Calm, Filed, AllHealthy, Intact;
    PlanSize(s.members, cfg.hash, c, cfg.replication, plan);
    SelfMember(cfg, s.members);
  }

  lemma SelfMember(cfg: Config, members: Members)
    requires Refreshed(cfg, members) == members
    ensures |members| >= 1
  {
    AddAllMeans(members[cfg.self.id := cfg.self], map[], cfg.seeds);
    assert cfg.self.id in members.Keys;
    assert |members.Keys| == |members|;
  }

  lemma SureReadGrows(cfg: Config, s: State, s': State, w: World, c: string)
    requires SureRead(cfg, s, w, c) && Grew(cfg, s, s')
    ensures SureRead(cfg, s', w, c)
  {
    hide CollisionFree, Placed, Calm, Intact;
    if Placed(cfg, s, c) { PlacedGrows(cfg, s, s', c); }
  }

  /** Chunks with the right hashes are the parts that were stored. */
  lemma Reassembled(sha: Bytes -> string, refs: seq<ChunkRef>, parts: seq<Bytes>, found: seq<Bytes>)
    requires Injective(sha) && Spells(sha, refs, parts) && |found| == |refs|
    requires forall i :: 0 <= i < |found| ==> sha(found[i]) == refs[i].checksum
    ensures found == parts
  {
    forall i | 0 <= i < |found|
      ensures found[i] == parts[i]
    {
      assert sha(found[i]) == sha(parts[i]);
    }
  }

  // -------------------------------------------------------------------- one chunk deleted

  /** No copy of the chunk, on any node, was added, changed or removed. */
  ghost predicate Untouched(s: State, s': State, c: string) {
    && (c in s.disk <==> c in s'.disk) && (c in s.disk ==> s'.disk[c] == s.disk[c])
    && forall k: (string, string) :: k.1 == c ==> (k in s.peers <==> k in s'.peers)
  }

  /** Chunks only disappear, and of those that chunk rows name only ones in `except`. */
  ghost predicate LiveUntouched(s: State, s': State, lists: ChunkLists, except: set<string>) {
    && s'.members == s.members
    && (forall c :: Referenced(lists, c) && c !in except ==> Untouched(s, s', c))
    && (forall c :: c in s'.disk ==> c in s.disk && s'.disk[c] == s.disk[c])
    && (forall k :: k in s'.peers ==> k in s.peers)
  }

  lemma RemovalSpares(cfg: Config, s: State, c: string, references: int, w: World, s': State, r: Result<()>,
                      plan: seq<StorageNode>, removed: set<string>, lists: ChunkLists, except: set<string>)
    requires RemoveBy(cfg, s, c, references, w, s', r, plan, removed) && Settled(cfg, s.members)
    requires references <= 0 ==> !Referenced(lists, c) || c in except
    ensures LiveUntouched(s, s', lists, except)
  {
    hide PlanFor, Refreshed, Filed, AllHealthy, Referenced, NodeIds;
  }

  lemma RemovalCollects(cfg: Config, s: State, c: string, references: int, w: World, s': State, r: Result<()>,
                        plan: seq<StorageNode>, removed: set<string>)
    requires RemoveBy(cfg, s, c, references, w, s', r, plan, removed) && Settled(cfg, s.members) && references <= 0
    requires Smooth(cfg, s.members, w)
    ensures Gone(cfg, s', c)
  {
    PlanMembers(s.members, cfg.hash, c, cfg.replication, plan);
    hide PlanFor, Refreshed, Filed, AllHealthy, CollisionFree, Extends, NodeIds;
    forall other, t | PlanFor(s'.members, cfg.hash, c, cfg.replication, other) && t in other
      ensures !Has(cfg, s'.disk, s'.peers, t, c)
    {
      PlanDeterministic(s.members, cfg.hash, c, cfg.replication, other, plan);
      assert Writable(cfg, w, t);
    }
  }

  lemma SparedTwice(a: State, b: State, d: State, lists: ChunkLists, except: set<string>)
    requires LiveUntouched(a, b, lists, except) && LiveUntouched(b, d, lists, except)
    ensures LiveUntouched(a, d, lists, except)
  {
    hide Referenced;
  }

  lemma SparedButMore(s: State, s': State, lists: ChunkLists, except: set<string>, except': set<string>)
    requires LiveUntouched(s, s', lists, except) && except <= except'
    ensures LiveUntouched(s, s', lists, except')
  {
    hide Referenced, Untouched;
  }

  lemma StaysGone(cfg: Config, s: State, s': State, lists: ChunkLists, except: set<string>, c: string)
    requires Gone(cfg, s, c) && LiveUntouched(s, s', lists, except)
    ensures Gone(cfg, s', c)
  {
    hide PlanFor, Referenced, Untouched;
    forall plan, t | PlanFor(s'.members, cfg.hash, c, cfg.replication, plan) && t in plan
      ensures !Has(cfg, s'.disk, s'.peers, t, c)
    {
      assert !Has(cfg, s.disk, s.peers, t, c);
    }
  }

  lemma PlacedSpared(cfg: Config, s: State, s': State, c: string)
    requires Placed(cfg, s, c) && Untouched(s, s', c) && s'.members == s.members
    ensures Placed(cfg, s', c)
  {
    hide PlanFor;
    forall plan, t | PlanFor(s'.members, cfg.hash, c, cfg.replication, plan) && t in plan
      ensures Has(cfg, s'.disk, s'.peers, t, c)
    {
      assert Has(cfg, s.disk, s.peers, t, c);
    }
  }

  lemma NamedIsReferenced(lists: ChunkLists, k: Key, i: nat)
    requires k in lists && i < |lists[k]|
    ensures Referenced(lists, lists[k][i].checksum)
  {
  }

  /** The objects that use none of the chunks `hit`. */
  ghost function Unhurt(lists: ChunkLists, keys: set<Key>, hit: set<string>): set<Key> {
    set k | k in keys && k in lists && Avoids(lists[k], hit)
  }

  ghost predicate Avoids(refs: seq<ChunkRef>, hit: set<string>) {
    forall i :: 0 <= i < |refs| ==> refs[i].checksum !in hit
  }

  /** Deletion endangers no remaining object that avoids the chunks in `except`. */
  lemma DeletionIsSafe(cfg: Config, s: State, s': State, lists: ChunkLists, model: Model, backed: set<Key>,
                       full: set<Key>, except: set<string>)
    requires LiveUntouched(s, s', lists, except)
    requires Backed(cfg.sha, lists, model, backed, s.disk) && FullyPlaced(cfg, s, lists, full)
    ensures Backed(cfg.sha, lists, model, Unhurt(lists, backed, except), s'.disk)
    ensures FullyPlaced(cfg, s', lists, Unhurt(lists, full, except))
  {
    hide Placed, Referenced, LiveUntouched, Untouched, Written;
    forall k, i | k in lists && Avoids(lists[k], except) && 0 <= i < |lists[k]|
      ensures Untouched(s, s', lists[k][i].checksum) && s'.members == s.members
    {
      ChunkUntouched(s, s', lists, except, k, i);
    }
    forall k, i | k in Unhurt(lists, full, except) && 0 <= i < |lists[k]|
      ensures Placed(cfg, s', lists[k][i].checksum)
    {
      assert AllPlaced(cfg, s, lists[k]);
      PlacedSpared(cfg, s, s', lists[k][i].checksum);
    }
    forall k, i | k in Unhurt(lists, backed, except) && 0 <= i < |lists[k]|
      ensures lists[k][i].checksum in s'.disk
    {
      assert Stored(lists[k], s.disk);
      UntouchedStays(s, s', lists[k][i].checksum);
    }
  }

  lemma UntouchedStays(s: State, s': State, c: string)
    requires Untouched(s, s', c) && c in s.disk
    ensures c in s'.disk
  {
  }

  lemma ChunkUntouched(s: State, s': State, lists: ChunkLists, except: set<string>, k: Key, i: nat)
    requires LiveUntouched(s, s', lists, except) && k in lists && i < |lists[k]|
    requires lists[k][i].checksum !in except
    ensures Untouched(s, s', lists[k][i].checksum) && s'.members == s.members
  {
    hide Untouched;
    NamedIsReferenced(lists, k, i);
  }

  // --------------------------------------------------------- when a removal is harmless

  /** Whatever fails, removing `c` with this count touches no copy of a live chunk. */
  ghost predicate AlwaysSpares(cfg: Config, s: State, c: string, references: int, lists: ChunkLists) {
    forall w, s', r, plan, removed ::
      RemoveBy(cfg, s, c, references, w, s', r, plan, removed) ==> LiveUntouched(s, s', lists, {})
  }

  /** The removal that reaches every target. */
  lemma FullRemoval(cfg: Config, s: State, c: string, references: int, plan: seq<StorageNode>, t: StorageNode)
    returns (w: World, s': State, r: Result<()>, removed: set<string>)
    requires Settled(cfg, s.members) && references <= 0 && t in plan && Has(cfg, s.disk, s.peers, t, c)
    requires PlanFor(s.members, cfg.hash, c, cfg.replication, plan)
    ensures RemoveBy(cfg, s, c, references, w, s', r, plan, removed) && !Has(cfg, s'.disk, s'.peers, t, c)
  {
    PlanDistinct(s.members, cfg.hash, c, cfg.replication, plan);
    IdCount(plan);
    hide PlanFor, Refreshed, Filed, AllHealthy;
    w := World({}, false, false);
    removed := NodeIds(plan);
    s' := s.(disk := if cfg.self.id in removed then s.disk - {c} else s.disk,
             peers := s.peers - OtherCopies(cfg, plan, c));
    r := Ok(());
    FullyRemoved(cfg, s, c, w, plan, s');
    assert t.id in removed;
  }

  function OtherCopies(cfg: Config, plan: seq<StorageNode>, c: string): set<(string, string)> {
    set x | x in plan && x.id != cfg.self.id :: (x.address, c)
  }

  lemma FullyRemoved(cfg: Config, s: State, c: string, w: World, plan: seq<StorageNode>, s': State)
    requires s'.disk == (if cfg.self.id in NodeIds(plan) then s.disk - {c} else s.disk)
    requires s'.peers == s.peers - OtherCopies(cfg, plan, c)
    ensures RemovedFrom(cfg, s, c, w, plan, NodeIds(plan), s'.disk, s'.peers)
  {
  }

  /** Removing a chunk that no target has changes nothing of it. */
  lemma NothingThere(cfg: Config, s: State, c: string, references: int, w: World, s': State, r: Result<()>,
                     plan: seq<StorageNode>, removed: set<string>, lists: ChunkLists)
    requires RemoveBy(cfg, s, c, references, w, s', r, plan, removed) && Settled(cfg, s.members) && Gone(cfg, s, c)
    ensures LiveUntouched(s, s', lists, {})
  {
    hide PlanFor, Refreshed, Filed, AllHealthy, Referenced;
    if references <= 0 {
      assert forall t :: t in plan ==> !Has(cfg, s.disk, s.peers, t, c);
    }
  }

  /** Garbage collection is safe exactly when the count was positive, or the chunk is in no
      live object, or no target has it: a wrong zero is not survived. */
  lemma RemovalSparesExactly(cfg: Config, s: State, c: string, references: int, lists: ChunkLists)
    requires Settled(cfg, s.members)
    ensures AlwaysSpares(cfg, s, c, references, lists)
       <==> references > 0 || !Referenced(lists, c) || Gone(cfg, s, c)
  {
    hide PlanFor, Settled, Referenced, RemoveBy, LiveUntouched, Has;
    if references > 0 || !Referenced(lists, c) {
      forall w, s', r, plan, removed | RemoveBy(cfg, s, c, references, w, s', r, plan, removed)
        ensures LiveUntouched(s, s', lists, {})
      {
        RemovalSpares(cfg, s, c, references, w, s', r, plan, removed, lists, {});
      }
    } else if Gone(cfg, s, c) {
      forall w, s', r, plan, removed | RemoveBy(cfg, s, c, references, w, s', r, plan, removed)
        ensures LiveUntouched(s, s', lists, {})
      {
        NothingThere(cfg, s, c, references, w, s', r, plan, removed, lists);
      }
    } else {
      var plan, t :| PlanFor(s.members, cfg.hash, c, cfg.replication, plan) && t in plan
                     && Has(cfg, s.disk, s.peers, t, c);
      var w, s', r, removed := FullRemoval(cfg, s, c, references, plan, t);
      CopyLost(cfg, s, s', lists, t, c);
    }
  }

  lemma CopyLost(cfg: Config, s: State, s': State, lists: ChunkLists, t: StorageNode, c: string)
    requires Has(cfg, s.disk, s.peers, t, c) && !Has(cfg, s'.disk, s'.peers, t, c) && Referenced(lists, c)
    ensures !LiveUntouched(s, s', lists, {})
  {
    hide Referenced;
  }

  /** Removing a chunk by its reported count is harmless exactly when the count query was
      answered, or no chunk row names the chunk, or no target has it. */
  lemma ReportedCountSparesExactly(cfg: Config, s: State, rows: Rows, lists: ChunkLists, c: string, answered: bool)
    requires Settled(cfg, s.members) && Stores(rows, lists)
    ensures AlwaysSpares(cfg, s, c, Reported(rows, c, answered), lists)
       <==> answered || !Referenced(lists, c) || Gone(cfg, s, c)
  {
    hide Settled, Stores, AlwaysSpares, Referenced, Gone, Reported;
    ZeroReportedExactly(rows, lists, c, answered);
    RemovalSparesExactly(cfg, s, c, Reported(rows, c, answered), lists);
  }

  // -------------------------------------------------------------------- what stays behind

  /** Nothing but chunks named in `names` was touched. */
  ghost predicate OnlyTouched(s: State, s': State, names: set<string>) {
    s'.members == s.members && forall c :: c !in names ==> Untouched(s, s', c)
  }

  lemma TouchedNothing(s: State, names: set<string>)
    ensures OnlyTouched(s, s, names)
  {
  }

  lemma TouchedThrough(a: State, b: State, d: State, names: set<string>, more: set<string>)
    requires OnlyTouched(a, b, names) && OnlyTouched(b, d, more)
    ensures OnlyTouched(a, d, names + more)
  {
    forall c | c !in names + more
      ensures Untouched(a, d, c)
    {
      assert Untouched(a, b, c) && Untouched(b, d, c);
    }
  }

  lemma TouchedAtMost(s: State, s': State, names: set<string>, more: set<string>)
    requires OnlyTouched(s, s', names) && names <= more
    ensures OnlyTouched(s, s', more)
  {
    hide Untouched;
  }

  lemma PutTouches(cfg: Config, s: State, bytes: Bytes, w: World, s': State, r: Result<ChunkRef>,
                   plan: seq<StorageNode>, acked: set<string>)
    requires PutBy(cfg, s, bytes, w, s', r, plan, acked) && Settled(cfg, s.members)
    ensures OnlyTouched(s, s', {cfg.sha(bytes)})
  {
    hide PlanFor, Refreshed, Reloaded, OtherIds, OtherAt, Filed, AllHealthy;
  }

  lemma GetTouches(cfg: Config, s: State, c: string, w: World, s': State, r: Result<Bytes>,
                   plan: seq<StorageNode>, asked: nat, answered: set<string>)
    requires GetBy(cfg, s, c, w, s', r, plan, asked, answered) && Settled(cfg, s.members)
    ensures OnlyTouched(s, s', {c})
  {
    hide PlanFor, Refreshed, OtherAt, Filed, AllHealthy, Answering, NodeIds;
  }

  lemma RemoveTouches(cfg: Config, s: State, c: string, references: int, w: World, s': State, r: Result<()>,
                      plan: seq<StorageNode>, removed: set<string>)
    requires RemoveBy(cfg, s, c, references, w, s', r, plan, removed) && Settled(cfg, s.members)
    ensures OnlyTouched(s, s', {c})
  {
    hide PlanFor, Refreshed, OtherAt, Filed, AllHealthy, NodeIds;
  }

  function Names(refs: seq<ChunkRef>): set<string> {
    set ref | ref in refs :: ref.checksum
  }

  /** A chunk that no row names is on all its targets if it was left behind, else on none. */
  ghost predicate Tidy(cfg: Config, s: State, lists: ChunkLists, litter: set<string>) {
    forall c :: !Referenced(lists, c) ==> if c in litter then Placed(cfg, s, c) else Gone(cfg, s, c)
  }

  ghost predicate AllReferencedPlaced(cfg: Config, s: State, lists: ChunkLists) {
    forall c :: Referenced(lists, c) ==> Placed(cfg, s, c)
  }

  lemma EveryListPlaced(cfg: Config, s: State, lists: ChunkLists, full: set<Key>)
    requires FullyPlaced(cfg, s, lists, full) && lists.Keys <= full
    ensures AllReferencedPlaced(cfg, s, lists)
  {
    hide Placed;
    forall c | Referenced(lists, c)
      ensures Placed(cfg, s, c)
    {
      var k, i :| k in lists && 0 <= i < |lists[k]| && lists[k][i].checksum == c;
      assert AllPlaced(cfg, s, lists[k]);
    }
  }

  lemma GoneUntouched(cfg: Config, s: State, s': State, c: string)
    requires Gone(cfg, s, c) && Untouched(s, s', c) && s'.members == s.members
    ensures Gone(cfg, s', c)
  {
    hide PlanFor;
    forall plan, t | PlanFor(s'.members, cfg.hash, c, cfg.replication, plan) && t in plan
      ensures !Has(cfg, s'.disk, s'.peers, t, c)
    {
      assert !Has(cfg, s.disk, s.peers, t, c);
    }
  }

  /** The status of an untouched chunk carries over. */
  lemma StatusStays(cfg: Config, s: State, s': State, names: set<string>, c: string)
    requires OnlyTouched(s, s', names) && c !in names
    ensures (Placed(cfg, s, c) ==> Placed(cfg, s', c)) && (Gone(cfg, s, c) ==> Gone(cfg, s', c))
  {
    hide Placed, Gone;
    if Placed(cfg, s, c) { PlacedSpared(cfg, s, s', c); }
    if Gone(cfg, s, c) { GoneUntouched(cfg, s, s', c); }
  }

  lemma NamedIn(lists: ChunkLists, k: Key, c: string)
    requires k in lists && c in Names(lists[k])
    ensures Referenced(lists, c)
  {
    var ref :| ref in lists[k] && ref.checksum == c;
    var i :| 0 <= i < |lists[k]| && lists[k][i] == ref;
  }

  /** A name that a change of one list removes was in that list. */
  lemma ReferencedElsewhere(lists: ChunkLists, lists': ChunkLists, k: Key, c: string)
    requires Referenced(lists, c)
    requires forall x :: x in lists && x != k ==> x in lists' && lists'[x] == lists[x]
    ensures Referenced(lists', c) || (k in lists && c in Names(lists[k]))
  {
    var x, i :| x in lists && 0 <= i < |lists[x]| && lists[x][i].checksum == c;
    if x == k {
      assert lists[k][i] in lists[k];
    } else {
      assert lists'[x][i].checksum == c;
    }
  }

  /** An overwriting PUT leaves the old chunks behind. */
  lemma TidyAfterPut(cfg: Config, s: State, s': State, lists: ChunkLists, k: Key, refs: seq<ChunkRef>,
                    litter: set<string>)
    requires Tidy(cfg, s, lists, litter) && AllReferencedPlaced(cfg, s, lists)
    requires Grew(cfg, s, s') && OnlyTouched(s, s', Names(refs))
    ensures Tidy(cfg, s', lists[k := refs], litter + Names(ListOf(lists, k)))
  {
    hide Referenced, Placed, Gone, Grew, OnlyTouched, Names;
    forall c | !Referenced(lists[k := refs], c)
      ensures if c in litter + Names(ListOf(lists, k)) then Placed(cfg, s', c) else Gone(cfg, s', c)
    {
      if c in Names(refs) { NamedIn(lists[k := refs], k, c); }
      StatusStays(cfg, s, s', Names(refs), c);
      if Referenced(lists, c) {
        ReferencedElsewhere(lists, lists[k := refs], k, c);
      } else if k in lists && c in Names(lists[k]) {
        NamedIn(lists, k, c);
      }
      NoNames();
    }
  }

  lemma NoNames()
    ensures Names([]) == {}
  {
  }

  /** A GET touches only chunks that are named. */
  lemma TidyAfterGet(cfg: Config, s: State, s': State, lists: ChunkLists, k: Key, refs: seq<ChunkRef>,
                    litter: set<string>)
    requires Tidy(cfg, s, lists, litter) && OnlyTouched(s, s', Names(refs))
    requires refs <= ListOf(lists, k)
    ensures Tidy(cfg, s', lists, litter)
  {
    NamesOfPrefix(ListOf(lists, k), refs);
    hide Referenced, Placed, Gone, OnlyTouched, Names;
    forall c | !Referenced(lists, c)
      ensures if c in litter then Placed(cfg, s', c) else Gone(cfg, s', c)
    {
      NoNames();
      if c in Names(refs) { NamedIn(lists, k, c); }
      StatusStays(cfg, s, s', Names(refs), c);
    }
  }

  lemma NamesOfPrefix(refs: seq<ChunkRef>, some: seq<ChunkRef>)
    requires some <= refs
    ensures Names(some) <= Names(refs)
  {
  }

  /** The chunks of the list that no row names are on none of their replicas. */
  ghost predicate Collected(cfg: Config, s: State, lists: ChunkLists, refs: seq<ChunkRef>) {
    forall i :: 0 <= i < |refs| && !Referenced(lists, refs[i].checksum) ==> Gone(cfg, s, refs[i].checksum)
  }

  lemma CollectedName(cfg: Config, s: State, lists: ChunkLists, refs: seq<ChunkRef>, c: string)
    requires Collected(cfg, s, lists, refs) && c in Names(refs) && !Referenced(lists, c)
    ensures Gone(cfg, s, c)
  {
    hide Referenced, Gone;
    var ref :| ref in refs && ref.checksum == c;
    var i :| 0 <= i < |refs| && refs[i] == ref;
  }

  /** A DELETE collects what it names, also if an earlier PUT had left it behind. */
  lemma TidyAfterDelete(cfg: Config, s: State, s': State, lists: ChunkLists, k: Key, litter: set<string>)
    requires Tidy(cfg, s, lists, litter) && k in lists
    requires OnlyTouched(s, s', Names(lists[k])) && Collected(cfg, s', lists - {k}, lists[k])
    ensures Tidy(cfg, s', lists - {k}, litter - Names(lists[k]))
  {
    hide Referenced, Placed, Gone, OnlyTouched, Names, Collected;
    forall c | !Referenced(lists - {k}, c)
      ensures if c in litter - Names(lists[k]) then Placed(cfg, s', c) else Gone(cfg, s', c)
    {
      if c in Names(lists[k]) {
        CollectedName(cfg, s', lists - {k}, lists[k], c);
      } else {
        if Referenced(lists, c) { ReferencedElsewhere(lists, lists - {k}, k, c); }
        StatusStays(cfg, s, s', Names(lists[k]), c);
      }
    }
  }
}
