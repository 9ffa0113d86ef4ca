/** The replicated chunk service as steps on a state: what each call may do to the
    coordinator's disk, the peers and the hint queue, whatever RPCs fail. */
module ServiceModel {
  import opened Common
  import opened HashRing
  import opened Placement
  import opened ChunkStore
  import opened Handoff

  datatype Config = Config(
    self: StorageNode,
    seeds: seq<StorageNode>,
    replication: int,
    writeQuorum: int,
    readQuorum: int,
    hash: string -> nat,
    sha: Bytes -> string)

  /** What one call can rely on: the addresses that answer, and whether local files
      can be written. Everything else may work or fail, call by call. */
  datatype World = World(up: set<string>, diskOk: bool, queueOk: bool)

  /** The chunks on the peers' disks, by address and checksum. */
  type Peers = map<(string, string), Bytes>

  /** `queue` is what the handoff file reads back as. */
  datatype State = State(members: Members, disk: map<string, Bytes>, peers: Peers, queue: seq<Hint>)

  /** Nodes are configured as healthy. */
  ghost predicate Proper(cfg: Config) {
    cfg.self.healthy && forall n :: n in cfg.seeds ==> n.healthy
  }

  function AddAll(members: Members, nodes: seq<StorageNode>): Members
    decreases |nodes|
  {
    if nodes == [] then members else AddAll(members[nodes[0].id := nodes[0]], nodes[1..])
  }

  /** Membership after the coordinator has announced itself and its seeds. */
  function Refreshed(cfg: Config, members: Members): Members {
    AddAll(members[cfg.self.id := cfg.self], cfg.seeds)
  }

  // ------------------------------------------------------------------ who has a chunk

  ghost predicate Intact(sha: Bytes -> string, disk: map<string, Bytes>) {
    forall c :: c in disk ==> sha(disk[c]) == c
  }

  ghost predicate PeersIntact(sha: Bytes -> string, peers: Peers) {
    forall k :: k in peers ==> sha(peers[k]) == k.1
  }

  ghost predicate LocalHolds(cfg: Config, disk: map<string, Bytes>, c: string) {
    c in disk && cfg.sha(disk[c]) == c
  }

  /** A file for the chunk is on the node's disk. */
  ghost predicate Has(cfg: Config, disk: map<string, Bytes>, peers: Peers, t: StorageNode, c: string) {
    if t.id == cfg.self.id then c in disk else (t.address, c) in peers
  }

  /** The node is sure to answer a read. */
  ghost predicate Answers(cfg: Config, s: State, w: World, t: StorageNode, c: string) {
    if t.id == cfg.self.id then LocalHolds(cfg, s.disk, c) else t.address in w.up && (t.address, c) in s.peers
  }

  /** The node is sure to take a write. */
  ghost predicate Writable(cfg: Config, w: World, t: StorageNode) {
    if t.id == cfg.self.id then w.diskOk else t.address in w.up
  }

  ghost function Answering(cfg: Config, s: State, w: World, plan: seq<StorageNode>, c: string): set<string> {
    set t | t in plan && Answers(cfg, s, w, t, c) :: t.id
  }

  function OtherIds(cfg: Config, plan: seq<StorageNode>): set<string> {
    set t | t in plan && t.id != cfg.self.id :: t.id
  }

  // ------------------------------------------------------------------------ growing

  ghost predicate Extends<K, V>(a: map<K, V>, b: map<K, V>) {
    forall k :: k in a ==> k in b && b[k] == a[k]
  }

  /** One of the nodes is another one at this address. */
  ghost predicate OtherAt(cfg: Config, ts: seq<StorageNode>, address: string) {
    exists t :: t in ts && t.id != cfg.self.id && t.address == address
  }

  /** Nothing but the chunk `c` at other nodes of `ts` is new. */
  ghost predicate OnlyNew(cfg: Config, ts: seq<StorageNode>, a: Peers, b: Peers, c: string) {
    forall k :: k in b ==> k in a || (k.1 == c && OtherAt(cfg, ts, k.0))
  }

  /** At most the copy `at` was added. */
  ghost predicate Adds(a: Peers, b: Peers, at: (string, string)) {
    Extends(a, b) && forall k :: k in b ==> k in a || k == at
  }

  ghost predicate DiskGrows(cfg: Config, a: map<string, Bytes>, b: map<string, Bytes>, c: string) {
    b == a || (c !in a && LocalHolds(cfg, b, c) && b == a[c := b[c]])
  }

  // -------------------------------------------------------------------------- put

  function HintOf(t: StorageNode, ref: ChunkRef): Hint {
    Hint(t.id, t.address, ref.checksum, ref.size)
  }

  /** The hints for the other targets that did not acknowledge, in plan order. */
  function MissedHints(cfg: Config, plan: seq<StorageNode>, acked: set<string>, ref: ChunkRef): seq<Hint> {
    if plan == [] then []
    else
      var t := plan[|plan| - 1];
      MissedHints(cfg, plan[..|plan| - 1], acked, ref)
      + if t.id != cfg.self.id && t.id !in acked then [HintOf(t, ref)] else []
  }

  /** The chunk was sent to the targets `ts`, and those named in `acked` confirmed. */
  ghost predicate SentTo(cfg: Config, s: State, ref: ChunkRef, w: World, ts: seq<StorageNode>, acked: set<string>,
                         peers: Peers, queue: seq<Hint>)
  {
    && Extends(s.peers, peers) && OnlyNew(cfg, ts, s.peers, peers, ref.checksum)
    && acked <= OtherIds(cfg, ts)
    && (forall t :: t in ts && t.id in acked ==> (t.address, ref.checksum) in peers)
    && (forall t :: t in ts && t.id != cfg.self.id && t.address in w.up ==> t.id in acked)
    && s.queue <= queue
    && (w.queueOk ==> queue == s.queue + Reloaded(MissedHints(cfg, ts, acked, ref)))
  }

  ghost predicate PutBy(cfg: Config, s: State, bytes: Bytes, w: World, s': State, r: Result<ChunkRef>,
                        plan: seq<StorageNode>, acked: set<string>)
  {
    var ref := ChunkRef(cfg.sha(bytes), |bytes|);
    && s'.members == Refreshed(cfg, s.members)
    && if ref.checksum !in s'.disk then
         !w.diskOk && r == Err(Internal) && s' == s.(members := s'.members)
       else
         && s'.disk == (if ref.checksum in s.disk then s.disk else s.disk[ref.checksum := bytes])
         && PlanFor(s'.members, cfg.hash, ref.checksum, cfg.replication, plan)
         && SentTo(cfg, s, ref, w, plan, acked, s'.peers, s'.queue)
         && r == if 1 + |acked| >= cfg.writeQuorum then Ok(ref) else Err(Unavailable)
  }

  // -------------------------------------------------------------------------- get

  /** The answers a read waits for: one at least. */
  function Enough(cfg: Config): int {
    if cfg.readQuorum <= 1 then 1 else cfg.readQuorum
  }

  /** A read asked the first `asked` targets and `answered` of them replied; or it
      fell back to the local copy, with `asked` zero. */
  ghost predicate GetBy(cfg: Config, s: State, c: string, w: World, s': State, r: Result<Bytes>,
                        plan: seq<StorageNode>, asked: nat, answered: set<string>)
  {
    && s'.members == Refreshed(cfg, s.members)
    && PlanFor(s'.members, cfg.hash, c, cfg.replication, plan)
    && asked <= |plan| && answered <= NodeIds(plan[..asked])
    && s'.queue == s.queue && Extends(s.peers, s'.peers) && OnlyNew(cfg, plan[..asked], s.peers, s'.peers, c)
    && DiskGrows(cfg, s.disk, s'.disk, c) && (s'.disk == s.disk || cfg.self.id in NodeIds(plan[..asked]))
    && (r.Ok? ==> cfg.sha(r.value) == c) && (r.Err? ==> r.code == Unavailable || r.code == Internal)
    // when it must succeed
    && (Answering(cfg, s, w, plan, c) != {} && |Answering(cfg, s, w, plan, c)| >= cfg.readQuorum ==> asked > 0)
    && (cfg.readQuorum <= 1 && LocalHolds(cfg, s.disk, c) ==> r.Ok?)
    // when it may succeed, where it stops, and what read repair then leaves behind
    && (r.Ok? ==> asked > 0 || cfg.readQuorum <= 1)
    && (asked > 0 ==> r.Ok? && plan[asked - 1].id in answered && |answered| == Enough(cfg))
    && (forall t :: t in plan[..asked] && Answers(cfg, s, w, t, c) ==> t.id in answered)
    && (r.Ok? ==> forall t :: t in plan[..asked] && Writable(cfg, w, t) ==>
                    t.id in answered || Has(cfg, s'.disk, s'.peers, t, c))
  }

  // ------------------------------------------------------------------------ remove

  /** The chunk `c`, and nothing else, was deleted from some nodes of `ts`; those named
      in `removed` confirmed. */
  ghost predicate RemovedFrom(cfg: Config, s: State, c: string, w: World, ts: seq<StorageNode>, removed: set<string>,
                              disk: map<string, Bytes>, peers: Peers)
  {
    && (disk == s.disk || (cfg.self.id in NodeIds(ts) && disk == s.disk - {c}))
    && Extends(peers, s.peers)
    && (forall k :: k in s.peers && k !in peers ==> k.1 == c && OtherAt(cfg, ts, k.0))
    && removed <= NodeIds(ts)
    && (forall t :: t in ts && t.id in removed ==> !Has(cfg, disk, peers, t, c))
    && (forall t :: t in ts && Writable(cfg, w, t) ==> t.id in removed)
  }

  ghost predicate RemoveBy(cfg: Config, s: State, c: string, references: int, w: World, s': State, r: Result<()>,
                           plan: seq<StorageNode>, removed: set<string>)
  {
    if references > 0 then s' == s && r.Ok?
    else
      && s'.members == Refreshed(cfg, s.members)
      && PlanFor(s'.members, cfg.hash, c, cfg.replication, plan)
      && RemovedFrom(cfg, s, c, w, plan, removed, s'.disk, s'.peers) && s'.queue == s.queue
      && r == if |removed| >= cfg.writeQuorum || |removed| >= |plan| then Ok(()) else Err(Unavailable)
  }

  // ------------------------------------------------------------------------ replay

  /** The hints marked in `kept`, in order. */
  function Keep(hs: seq<Hint>, kept: seq<bool>): (out: seq<Hint>)
    requires |kept| == |hs|
    ensures forall h :: h in out ==> h in hs
  {
    if hs == [] then []
    else Keep(hs[..|hs| - 1], kept[..|hs| - 1]) + if kept[|hs| - 1] then [hs[|hs| - 1]] else []
  }

  function Unmarked(kept: seq<bool>): nat {
    if kept == [] then 0 else Unmarked(kept[..|kept| - 1]) + if kept[|kept| - 1] then 0 else 1
  }

  ghost predicate Delivered(peers: Peers, h: Hint) { (h.address, h.checksum) in peers }

  ghost predicate HintedAt(hs: seq<Hint>, k: (string, string)) {
    exists h :: h in hs && k == (h.address, h.checksum)
  }

  /** Hints `hs` were tried; those not in `kept` arrived. */
  ghost predicate Tried(cfg: Config, s: State, w: World, hs: seq<Hint>, kept: seq<bool>, peers: Peers) {
    && |kept| == |hs| && Extends(s.peers, peers)
    && (forall k :: k in peers ==> k in s.peers || HintedAt(hs, k))
    && (forall i :: 0 <= i < |hs| && !kept[i] ==> Delivered(peers, hs[i]))
    && (forall i :: 0 <= i < |hs| && kept[i] ==> hs[i].address !in w.up || !LocalHolds(cfg, s.disk, hs[i].checksum))
  }

  ghost predicate ReplayBy(cfg: Config, s: State, w: World, s': State, r: Result<nat>, kept: seq<bool>) {
    && s'.members == s.members && s'.disk == s.disk
    && Tried(cfg, s, w, s.queue, kept, s'.peers)
    && (w.queueOk ==> r.Ok?)
    && if r.Ok? then r.value == Unmarked(kept) && s'.queue == Keep(s.queue, kept)
       else r == Err(Internal) && s'.queue == s.queue
  }
}
