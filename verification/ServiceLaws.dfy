/** Laws of the chunk service over whole runs: quorum reads see quorum writes, hints
    cover every replica that a write missed, and repair never loses a copy. */
module ServiceLaws {
  import opened Common
  import opened HashRing
  import opened Placement
  import opened ChunkStore
  import opened Handoff
  import opened ServiceModel

  datatype Event =
    | Put(bytes: Bytes, w: World, ref: Result<ChunkRef>, plan: seq<StorageNode>, acked: set<string>)
    | Get(c: string, w: World, data: Result<Bytes>, plan: seq<StorageNode>, asked: nat, answered: set<string>)
    | Replay(w: World, delivered: Result<nat>, kept: seq<bool>)
    | Remove(c: string, references: int, w: World, done: Result<()>, plan: seq<StorageNode>, removed: set<string>)
    | Heartbeat(node: StorageNode)

  ghost predicate Step(cfg: Config, s: State, e: Event, s': State) {
    match e
    case Put(bytes, w, ref, plan, acked) => PutBy(cfg, s, bytes, w, s', ref, plan, acked)
    case Get(c, w, data, plan, asked, answered) => GetBy(cfg, s, c, w, s', data, plan, asked, answered)
    case Replay(w, delivered, kept) => ReplayBy(cfg, s, w, s', delivered, kept)
    case Remove(c, references, w, done, plan, removed) => RemoveBy(cfg, s, c, references, w, s', done, plan, removed)
    case Heartbeat(node) => s' == s.(members := s.members[node.id := node])
  }

  /** Requests served one after the other. */
  ghost predicate Run(cfg: Config, states: seq<State>, events: seq<Event>) {
    && |states| == |events| + 1
    && forall i :: 0 <= i < |events| ==> Step(cfg, states[i], events[i], states[i + 1])
  }

  /** The event may delete a chunk. */
  predicate Deletes(e: Event) { e.Remove? && e.references <= 0 }

  ghost predicate Undeleted(events: seq<Event>, i: nat, j: nat)
    requires i <= j <= |events|
  {
    forall k :: i <= k < j ==> !Deletes(events[k])
  }

  lemma RunSteps(cfg: Config, states: seq<State>, events: seq<Event>, i: nat, j: nat)
    requires Run(cfg, states, events) && i < j <= |events|
    ensures |states| == |events| + 1 && Step(cfg, states[i], events[i], states[i + 1])
    ensures j < |events| ==> Step(cfg, states[j], events[j], states[j + 1])
    ensures Undeleted(events, i, j) ==> !Deletes(events[i]) && Undeleted(events, i + 1, j)
  {
    hide Step;
  }

  // -------------------------------------------------------------- copies only accumulate

  /** A step that deletes nothing leaves every copy, on every node, as it was. */
  lemma CopiesKept(cfg: Config, s: State, e: Event, s': State)
    requires Step(cfg, s, e, s') && !Deletes(e)
    ensures Extends(s.disk, s'.disk) && Extends(s.peers, s'.peers)
  {
    hide PlanFor, Answering, Refreshed, Reloaded, NodeIds, OnlyNew;
  }

  lemma {:induction false} CopiesAccumulate(cfg: Config, states: seq<State>, events: seq<Event>, i: nat, j: nat)
    requires Run(cfg, states, events) && i <= j <= |events| && Undeleted(events, i, j)
    ensures Extends(states[i].disk, states[j].disk) && Extends(states[i].peers, states[j].peers)
    decreases j - i
  {
    hide *;
    RunLength(cfg, states, events);
    if i < j {
      RunSteps(cfg, states, events, i, j);
      CopiesKept(cfg, states[i], events[i], states[i + 1]);
      CopiesAccumulate(cfg, states, events, i + 1, j);
      ExtendsThrough(states[i].disk, states[i + 1].disk, states[j].disk);
      ExtendsThrough(states[i].peers, states[i + 1].peers, states[j].peers);
    } else {
      ExtendsItself(states[i].disk);
      ExtendsItself(states[i].peers);
    }
  }

  lemma RunLength(cfg: Config, states: seq<State>, events: seq<Event>)
    requires Run(cfg, states, events)
    ensures |states| == |events| + 1
  {
  }

  lemma ExtendsItself<K, V>(a: map<K, V>)
    ensures Extends(a, a)
  {
  }

  lemma ExtendsThrough<K, V>(a: map<K, V>, b: map<K, V>, c: map<K, V>)
    requires Extends(a, b) && Extends(b, c)
    ensures Extends(a, c)
  {
  }

  ghost function Holders(cfg: Config, s: State, plan: seq<StorageNode>, c: string): set<string> {
    set t | t in plan && Has(cfg, s.disk, s.peers, t, c) :: t.id
  }

  /** Read repair included: without deletions the holders of a chunk never become fewer. */
  lemma HoldersNeverDrop(cfg: Config, states: seq<State>, events: seq<Event>, i: nat, j: nat, plan: seq<StorageNode>,
                         c: string)
    requires Run(cfg, states, events) && i <= j <= |events| && Undeleted(events, i, j)
    ensures Holders(cfg, states[i], plan, c) <= Holders(cfg, states[j], plan, c)
    ensures |Holders(cfg, states[i], plan, c)| <= |Holders(cfg, states[j], plan, c)|
  {
    CopiesAccumulate(cfg, states, events, i, j);
    hide Run, Undeleted;
    var a, b := Holders(cfg, states[i], plan, c), Holders(cfg, states[j], plan, c);
    assert a <= b;
    SubsetCard(a, b);
  }

  // --------------------------------------------------------------------- write quorums

  /** The coordinator is one of the targets. */
  predicate SelfPlanned(cfg: Config, plan: seq<StorageNode>) {
    cfg.self.id in NodeIds(plan)
  }

  /** The targets known to hold the chunk after a put acknowledged by `acked`. */
  function Confirmed(cfg: Config, plan: seq<StorageNode>, acked: set<string>): set<string> {
    acked + if SelfPlanned(cfg, plan) then {cfg.self.id} else {}
  }

  lemma ConfirmedHold(cfg: Config, s: State, e: Event, s': State)
    requires Step(cfg, s, e, s') && e.Put? && e.ref.Ok?
    ensures e.ref.value == ChunkRef(cfg.sha(e.bytes), |e.bytes|)
    ensures PlanFor(s'.members, cfg.hash, e.ref.value.checksum, cfg.replication, e.plan)
    ensures Confirmed(cfg, e.plan, e.acked) <= Holders(cfg, s', e.plan, e.ref.value.checksum)
    ensures e.acked <= OtherIds(cfg, e.plan) && 1 + |e.acked| >= cfg.writeQuorum
    ensures e.ref.value.checksum in s'.disk
    ensures Intact(cfg.sha, s.disk) ==> LocalHolds(cfg, s'.disk, e.ref.value.checksum)
  {
    hide PlanFor, Refreshed, Reloaded, OnlyNew, Extends;
    var c := e.ref.value.checksum;
    forall id | id in Confirmed(cfg, e.plan, e.acked)
      ensures id in Holders(cfg, s', e.plan, c)
    {
      if id in e.acked {
        var t :| t in e.plan && t.id != cfg.self.id && t.id == id;
        assert Has(cfg, s'.disk, s'.peers, t, c);
      } else {
        var t :| t in e.plan && t.id == cfg.self.id;
        assert Has(cfg, s'.disk, s'.peers, t, c);
      }
    }
  }

  lemma ConfirmedCount(cfg: Config, plan: seq<StorageNode>, acked: set<string>)
    requires acked <= OtherIds(cfg, plan)
    ensures |Confirmed(cfg, plan, acked)| == |acked| + if SelfPlanned(cfg, plan) then 1 else 0
  {
    assert cfg.self.id !in acked;
  }

  /** A successful put leaves the chunk on at least `writeQuorum` distinct targets if the
      coordinator is one of them, and on one fewer if it is not. */
  lemma QuorumWrite(cfg: Config, s: State, e: Event, s': State)
    requires Step(cfg, s, e, s') && e.Put? && e.ref.Ok?
    ensures |Holders(cfg, s', e.plan, e.ref.value.checksum)|
         >= cfg.writeQuorum - if SelfPlanned(cfg, e.plan) then 0 else 1
  {
    hide Step, SelfPlanned, Holders;
    ConfirmedHold(cfg, s, e, s');
    ConfirmedCount(cfg, e.plan, e.acked);
    SubsetCard(Confirmed(cfg, e.plan, e.acked), Holders(cfg, s', e.plan, e.ref.value.checksum));
  }

  lemma {:induction false} SubsetOfSize(s: set<string>, k: nat) returns (t: set<string>)
    requires k <= |s|
    ensures t <= s && |t| == k
  {
    if k == 0 {
      t := {};
    } else {
      var x :| x in s;
      var rest := SubsetOfSize(s - {x}, k - 1);
      t := rest + {x};
    }
  }

  lemma {:induction false} OtherCount(cfg: Config, plan: seq<StorageNode>)
    requires DistinctIds(plan) && !SelfPlanned(cfg, plan)
    ensures |OtherIds(cfg, plan)| == |plan|
  {
    if plan != [] {
      var n := |plan| - 1;
      var before, t := plan[..n], plan[n];
      assert t in plan;
      assert !SelfPlanned(cfg, before);
      OtherCount(cfg, before);
      assert OtherIds(cfg, plan) == OtherIds(cfg, before) + {t.id};
      assert t.id !in OtherIds(cfg, before);
    }
  }

  lemma {:induction false} OthersBound(cfg: Config, plan: seq<StorageNode>)
    ensures |OtherIds(cfg, plan)| <= |plan|
  {
    if plan != [] {
      var n := |plan| - 1;
      OthersBound(cfg, plan[..n]);
      var before := OtherIds(cfg, plan[..n]);
      assert OtherIds(cfg, plan) <= before + {plan[n].id};
      SubsetCard(OtherIds(cfg, plan), before + {plan[n].id});
    }
  }

  /** Every successful put of these bytes, planned like this, leaves `writeQuorum` targets
      holding the chunk. */
  ghost predicate AlwaysEnough(cfg: Config, members: Members, bytes: Bytes, plan: seq<StorageNode>) {
    forall s, e, s' ::
      Step(cfg, s, e, s') && s.members == members && e.Put? && e.bytes == bytes && e.plan == plan && e.ref.Ok? ==>
        |Holders(cfg, s', plan, cfg.sha(bytes))| >= cfg.writeQuorum
  }

  /** A set of other targets that has every target sharing an address with one of its own:
      a set that can be exactly the holders. */
  ghost predicate Closed(cfg: Config, plan: seq<StorageNode>, ids: set<string>) {
    && ids <= OtherIds(cfg, plan)
    && forall t, u ::
         t in plan && u in plan && t.id in ids && u.id != cfg.self.id && t.address == u.address ==> u.id in ids
  }

  /** The peers after a put that only `acked` received. */
  function Received(plan: seq<StorageNode>, acked: set<string>, c: string, bytes: Bytes): Peers {
    map k | k in AckedCopies(plan, acked, c) :: bytes
  }

  function AckedCopies(plan: seq<StorageNode>, acked: set<string>, c: string): set<(string, string)> {
    set t | t in plan && t.id in acked :: (t.address, c)
  }

  lemma SentOnlyTo(cfg: Config, s: State, ref: ChunkRef, w: World, plan: seq<StorageNode>, acked: set<string>,
                   bytes: Bytes)
    requires s.peers == map[] && s.queue == [] && w.up == {} && acked <= OtherIds(cfg, plan)
    ensures SentTo(cfg, s, ref, w, plan, acked, Received(plan, acked, ref.checksum, bytes),
                   Reloaded(MissedHints(cfg, plan, acked, ref)))
  {
    hide Reloaded, MissedHints;
  }

  /** A put acknowledged by `acked` alone, everything else failing. */
  lemma PutAckedBy(cfg: Config, members: Members, bytes: Bytes, plan: seq<StorageNode>, acked: set<string>)
    returns (s: State, e: Event, s': State)
    requires PlanFor(Refreshed(cfg, members), cfg.hash, cfg.sha(bytes), cfg.replication, plan)
    requires acked <= OtherIds(cfg, plan) && 1 + |acked| >= cfg.writeQuorum
    ensures Step(cfg, s, e, s') && s.members == members && e.Put? && e.bytes == bytes && e.plan == plan && e.ref.Ok?
    ensures s'.peers == Received(plan, acked, cfg.sha(bytes), bytes)
  {
    hide PlanFor, Refreshed, Reloaded, MissedHints, SentTo, Received, OtherIds;
    var ref, w := ChunkRef(cfg.sha(bytes), |bytes|), World({}, true, true);
    s := State(members, map[], map[], []);
    s' := State(Refreshed(cfg, members), map[ref.checksum := bytes], Received(plan, acked, ref.checksum, bytes),
                Reloaded(MissedHints(cfg, plan, acked, ref)));
    e := Put(bytes, w, Ok(ref), plan, acked);
    SentOnlyTo(cfg, s, ref, w, plan, acked, bytes);
  }

  lemma ReceivedHolders(cfg: Config, s: State, plan: seq<StorageNode>, acked: set<string>, c: string, bytes: Bytes)
    requires !SelfPlanned(cfg, plan) && Closed(cfg, plan, acked) && s.peers == Received(plan, acked, c, bytes)
    ensures Holders(cfg, s, plan, c) <= acked
  {
    forall t | t in plan && Has(cfg, s.disk, s.peers, t, c)
      ensures t.id in acked
    {
      assert t.id in NodeIds(plan);
      var u :| u in plan && u.id in acked && (u.address, c) == (t.address, c);
    }
  }

  lemma ClosedHolders(cfg: Config, s: State, plan: seq<StorageNode>, c: string)
    requires !SelfPlanned(cfg, plan) && DistinctIds(plan)
    ensures Closed(cfg, plan, Holders(cfg, s, plan, c))
  {
    assert forall t :: t in plan ==> t.id in NodeIds(plan);
    var ids := Holders(cfg, s, plan, c);
    forall t, u | t in plan && u in plan && t.id in ids && u.id != cfg.self.id && t.address == u.address
      ensures u.id in ids
    {
      HolderHas(cfg, s, plan, c, t);
      assert Has(cfg, s.disk, s.peers, u, c);
    }
  }

  lemma HolderHas(cfg: Config, s: State, plan: seq<StorageNode>, c: string, t: StorageNode)
    requires DistinctIds(plan) && t in plan && t.id in Holders(cfg, s, plan, c)
    ensures Has(cfg, s.disk, s.peers, t, c)
  {
    var u :| u in plan && Has(cfg, s.disk, s.peers, u, c) && u.id == t.id;
    assert u == t;
  }

  /** A successful put that leaves too few holders leaves a closed set of them. */
  lemma TooFewAreClosed(cfg: Config, s: State, e: Event, s': State)
    requires Step(cfg, s, e, s') && e.Put? && e.ref.Ok? && !SelfPlanned(cfg, e.plan)
    requires |Holders(cfg, s', e.plan, e.ref.value.checksum)| < cfg.writeQuorum
    ensures var ids := Holders(cfg, s', e.plan, e.ref.value.checksum);
            Closed(cfg, e.plan, ids) && |ids| == cfg.writeQuorum - 1
  {
    hide Step, SelfPlanned, Holders, Closed, PlanFor, OtherIds;
    var c := e.ref.value.checksum;
    ConfirmedHold(cfg, s, e, s');
    SubsetCard(e.acked, Holders(cfg, s', e.plan, c));
    PlanDistinct(s'.members, cfg.hash, c, cfg.replication, e.plan);
    ClosedHolders(cfg, s', e.plan, c);
  }

  /** Counting the local write as an acknowledgement is sound exactly when the coordinator is
      a target, the quorum asks for nothing, or no set of `writeQuorum - 1` targets can be
      all that holds the chunk. */
  lemma SelfCountsExactly(cfg: Config, members: Members, bytes: Bytes, plan: seq<StorageNode>)
    requires PlanFor(Refreshed(cfg, members), cfg.hash, cfg.sha(bytes), cfg.replication, plan)
    ensures AlwaysEnough(cfg, members, bytes, plan)
       <==> || SelfPlanned(cfg, plan) || cfg.writeQuorum <= 0
            || !exists ids :: Closed(cfg, plan, ids) && |ids| == cfg.writeQuorum - 1
  {
    hide Step, SelfPlanned, Holders, PlanFor, OtherIds, Refreshed;
    var c := cfg.sha(bytes);
    if ids :| !SelfPlanned(cfg, plan) && cfg.writeQuorum > 0 && Closed(cfg, plan, ids) && |ids| == cfg.writeQuorum - 1 {
      var s, e, s' := PutAckedBy(cfg, members, bytes, plan, ids);
      ReceivedHolders(cfg, s', plan, ids, c, bytes);
      SubsetCard(Holders(cfg, s', plan, c), ids);
    } else {
      hide Closed;
      forall s, e, s' |
        Step(cfg, s, e, s') && s.members == members && e.Put? && e.bytes == bytes && e.plan == plan && e.ref.Ok?
        ensures |Holders(cfg, s', plan, c)| >= cfg.writeQuorum
      {
        ConfirmedHold(cfg, s, e, s');
        QuorumWrite(cfg, s, e, s');
        if !SelfPlanned(cfg, plan) && |Holders(cfg, s', plan, c)| < cfg.writeQuorum {
          TooFewAreClosed(cfg, s, e, s');
        }
      }
    }
  }

  ghost predicate DistinctAddresses(cfg: Config, plan: seq<StorageNode>) {
    forall t, u ::
      t in plan && u in plan && t.id != cfg.self.id && u.id != cfg.self.id && t.address == u.address ==>
        t.id == u.id
  }

  /** With every target at its own address: exactly when the coordinator is a target, or the
      quorum asks for nothing or for more than all targets and the coordinator. */
  lemma SelfCountsApart(cfg: Config, members: Members, bytes: Bytes, plan: seq<StorageNode>)
    requires PlanFor(Refreshed(cfg, members), cfg.hash, cfg.sha(bytes), cfg.replication, plan)
    requires DistinctAddresses(cfg, plan)
    ensures AlwaysEnough(cfg, members, bytes, plan)
       <==> SelfPlanned(cfg, plan) || cfg.writeQuorum <= 0 || cfg.writeQuorum > |plan| + 1
  {
    hide AlwaysEnough, SelfPlanned, Refreshed, PlanFor, OtherIds;
    SelfCountsExactly(cfg, members, bytes, plan);
    PlanDistinct(Refreshed(cfg, members), cfg.hash, cfg.sha(bytes), cfg.replication, plan);
    OthersBound(cfg, plan);
    if !SelfPlanned(cfg, plan) && cfg.writeQuorum > 0 {
      OtherCount(cfg, plan);
      if cfg.writeQuorum <= |plan| + 1 {
        var ids := SubsetOfSize(OtherIds(cfg, plan), cfg.writeQuorum - 1);
        AllClosed(cfg, plan, ids);
      } else {
        forall ids | Closed(cfg, plan, ids)
          ensures |ids| != cfg.writeQuorum - 1
        {
          SubsetCard(ids, OtherIds(cfg, plan));
        }
      }
    }
  }

  lemma AllClosed(cfg: Config, plan: seq<StorageNode>, ids: set<string>)
    requires DistinctAddresses(cfg, plan) && ids <= OtherIds(cfg, plan)
    ensures Closed(cfg, plan, ids)
  {
  }

  // --------------------------------------------------------------- read after write

  lemma {:induction false} AddAllKeeps(members: Members, nodes: seq<StorageNode>)
    ensures members.Keys <= AddAll(members, nodes).Keys
    decreases |nodes|
  {
    if nodes != [] {
      AddAllKeeps(members[nodes[0].id := nodes[0]], nodes[1..]);
    }
  }

  lemma SelfIsMember(cfg: Config, members: Members)
    ensures cfg.self.id in Refreshed(cfg, members)
  {
    AddAllKeeps(members[cfg.self.id := cfg.self], cfg.seeds);
  }

  /** When the members fit in the replication factor the coordinator is always a target. */
  lemma SelfAlwaysPlanned(cfg: Config, s: State, e: Event, s': State)
    requires Step(cfg, s, e, s') && e.Put? && e.ref.Ok?
    requires Filed(s'.members) && AllHealthy(s'.members) && CollisionFree(cfg.hash, s'.members.Keys)
    requires |s'.members| <= cfg.replication
    ensures SelfPlanned(cfg, e.plan)
  {
    hide Filed, AllHealthy, CollisionFree, PlanFor, Refreshed, SentTo, NodeIds;
    SelfIsMember(cfg, s.members);
    PlanIsEverybody(s'.members, cfg.hash, e.ref.value.checksum, cfg.replication, e.plan);
  }

  /** The read can reach every node that held the chunk. */
  ghost predicate Reaches(cfg: Config, s: State, w: World, plan: seq<StorageNode>, c: string) {
    forall t :: t in plan && t.id != cfg.self.id && (t.address, c) in s.peers ==> t.address in w.up
  }

  lemma HoldersAnswer(cfg: Config, s: State, s': State, w: World, plan: seq<StorageNode>, c: string)
    requires Reaches(cfg, s, w, plan, c) && Extends(s.peers, s'.peers) && LocalHolds(cfg, s'.disk, c)
    ensures Holders(cfg, s, plan, c) <= Answering(cfg, s', w, plan, c)
  {
    hide LocalHolds;
    forall id | id in Holders(cfg, s, plan, c)
      ensures id in Answering(cfg, s', w, plan, c)
    {
      var t :| t in plan && Has(cfg, s.disk, s.peers, t, c) && t.id == id;
      assert Answers(cfg, s', w, t, c);
    }
  }

  /** A chunk written at `i` is read back at `j` with the bytes that were written, whatever
      puts, reads, replays and failures came between, as long as nothing was deleted, the
      membership stayed, the read reaches the holders, and the read quorum is no larger
      than the number of holders the write guarantees. */
  lemma ReadAfterWrite(cfg: Config, states: seq<State>, events: seq<Event>, i: nat, j: nat)
    requires Run(cfg, states, events) && i < j < |events| && Undeleted(events, i, j)
    requires events[i].Put? && events[i].ref.Ok? && Intact(cfg.sha, states[i].disk)
    requires events[j].Get? && events[j].c == cfg.sha(events[i].bytes)
    requires states[i + 1].members == states[j + 1].members && CollisionFree(cfg.hash, states[j + 1].members.Keys)
    requires Reaches(cfg, states[i + 1], events[j].w, events[i].plan, events[j].c)
    requires cfg.readQuorum <= cfg.writeQuorum - if SelfPlanned(cfg, events[i].plan) then 0 else 1
    ensures events[j].data.Ok? && cfg.sha(events[j].data.value) == cfg.sha(events[i].bytes)
    ensures Injective(cfg.sha) ==> events[j].data == Ok(events[i].bytes)
  {
    hide *;
    RunSteps(cfg, states, events, i, j);
    CopiesAccumulate(cfg, states, events, i + 1, j);
    ReadSeesWrite(cfg, states[i], events[i], states[i + 1], states[j], events[j], states[j + 1]);
    if Injective(cfg.sha) { SameBytes(cfg.sha, events[i].bytes, events[j].data.value); }
  }

  lemma ExtendsHolds(cfg: Config, a: map<string, Bytes>, b: map<string, Bytes>, c: string)
    requires Extends(a, b) && LocalHolds(cfg, a, c)
    ensures LocalHolds(cfg, b, c)
  {
  }

  /** A put step and a later get step, with copies only added between them. */
  lemma ReadSeesWrite(cfg: Config, s: State, e: Event, s': State, r: State, g: Event, r': State)
    requires Step(cfg, s, e, s') && e.Put? && e.ref.Ok? && Intact(cfg.sha, s.disk)
    requires Step(cfg, r, g, r') && g.Get? && g.c == cfg.sha(e.bytes)
    requires Extends(s'.disk, r.disk) && Extends(s'.peers, r.peers)
    requires s'.members == r'.members && CollisionFree(cfg.hash, r'.members.Keys)
    requires Reaches(cfg, s', g.w, e.plan, g.c)
    requires cfg.readQuorum <= cfg.writeQuorum - if SelfPlanned(cfg, e.plan) then 0 else 1
    ensures g.data.Ok? && cfg.sha(g.data.value) == cfg.sha(e.bytes)
  {
    hide *;
    ConfirmedHold(cfg, s, e, s');
    QuorumWrite(cfg, s, e, s');
    GetFacts(cfg, r, g, r');
    PlanDeterministic(r'.members, cfg.hash, g.c, cfg.replication, e.plan, g.plan);
    ExtendsHolds(cfg, s'.disk, r.disk, g.c);
    HoldersAnswer(cfg, s', r, g.w, e.plan, g.c);
    SubsetCard(Holders(cfg, s', e.plan, g.c), Answering(cfg, r, g.w, e.plan, g.c));
  }

  lemma GetFacts(cfg: Config, s: State, e: Event, s': State)
    requires Step(cfg, s, e, s') && e.Get?
    ensures PlanFor(s'.members, cfg.hash, e.c, cfg.replication, e.plan)
    ensures e.data.Ok? ==> cfg.sha(e.data.value) == e.c
    ensures var n := |Answering(cfg, s, e.w, e.plan, e.c)|;
            n >= cfg.readQuorum && n > 0 ==> e.data.Ok?
    ensures cfg.readQuorum <= 1 && LocalHolds(cfg, s.disk, e.c) ==> e.data.Ok?
  {
    hide PlanFor, Answering, Refreshed, Extends, OnlyNew, DiskGrows, NodeIds;
  }

  /** The usual deployment: all known nodes are replicas, and read quorum <= write quorum. */
  lemma QuorumReadAfterWrite(cfg: Config, states: seq<State>, events: seq<Event>, i: nat, j: nat)
    requires Run(cfg, states, events) && i < j < |events| && Undeleted(events, i, j)
    requires events[i].Put? && events[i].ref.Ok? && Intact(cfg.sha, states[i].disk)
    requires events[j].Get? && events[j].c == cfg.sha(events[i].bytes)
    requires var m := states[i + 1].members;
             && states[j + 1].members == m && Filed(m) && AllHealthy(m) && CollisionFree(cfg.hash, m.Keys)
             && |m| <= cfg.replication
    requires Reaches(cfg, states[i + 1], events[j].w, events[i].plan, events[j].c)
    requires cfg.readQuorum <= cfg.writeQuorum
    ensures |Holders(cfg, states[j], events[i].plan, events[j].c)| >= cfg.writeQuorum
    ensures events[j].data.Ok? && cfg.sha(events[j].data.value) == cfg.sha(events[i].bytes)
    ensures Injective(cfg.sha) ==> events[j].data == Ok(events[i].bytes)
  {
    hide *;
    RunSteps(cfg, states, events, i, j);
    SelfAlwaysPlanned(cfg, states[i], events[i], states[i + 1]);
    QuorumWrite(cfg, states[i], events[i], states[i + 1]);
    ConfirmedHold(cfg, states[i], events[i], states[i + 1]);
    HoldersNeverDrop(cfg, states, events, i + 1, j, events[i].plan, events[j].c);
    ReadAfterWrite(cfg, states, events, i, j);
  }

  // --------------------------------------------------------------------- hinted handoff

  /** The target holds the chunk, or a hint for it is queued. */
  predicate Covered(s: State, t: StorageNode, ref: ChunkRef) {
    (t.address, ref.checksum) in s.peers || HintOf(t, ref) in s.queue
  }

  lemma {:induction false} Missed(cfg: Config, plan: seq<StorageNode>, acked: set<string>, ref: ChunkRef,
                                  t: StorageNode)
    requires t in plan && t.id != cfg.self.id && t.id !in acked
    ensures HintOf(t, ref) in MissedHints(cfg, plan, acked, ref)
  {
    var n := |plan| - 1;
    if t != plan[n] {
      assert plan == plan[..n] + [plan[n]];
      Missed(cfg, plan[..n], acked, ref, t);
    }
  }

  /** A put covers all its other targets, also when it fails for lack of a quorum. */
  lemma PutCovers(cfg: Config, s: State, e: Event, s': State, t: StorageNode)
    requires Step(cfg, s, e, s') && e.Put? && e.w.queueOk && cfg.sha(e.bytes) in s'.disk
    requires t in e.plan && t.id != cfg.self.id && Clean(HintOf(t, ChunkRef(cfg.sha(e.bytes), |e.bytes|)))
    ensures Covered(s', t, ChunkRef(cfg.sha(e.bytes), |e.bytes|))
  {
    hide PlanFor, Refreshed, Reloaded, Clean, OnlyNew, Extends, OtherIds;
    var ref := ChunkRef(cfg.sha(e.bytes), |e.bytes|);
    if t.id !in e.acked {
      Missed(cfg, e.plan, e.acked, ref, t);
      CleanReloads(MissedHints(cfg, e.plan, e.acked, ref), HintOf(t, ref));
    }
  }

  lemma {:induction false} KeptOrDelivered(hs: seq<Hint>, kept: seq<bool>, h: Hint)
    requires |kept| == |hs| && h in hs
    ensures h in Keep(hs, kept) || exists i :: 0 <= i < |hs| && hs[i] == h && !kept[i]
  {
    var n := |hs| - 1;
    if h != hs[n] {
      assert hs == hs[..n] + [hs[n]];
      KeptOrDelivered(hs[..n], kept[..n], h);
    }
  }

  lemma ReplayCovers(cfg: Config, s: State, e: Event, s': State, t: StorageNode, ref: ChunkRef)
    requires Step(cfg, s, e, s') && e.Replay? && HintOf(t, ref) in s.queue
    ensures Covered(s', t, ref)
  {
    hide Keep, Unmarked, LocalHolds;
    KeptOrDelivered(s.queue, e.kept, HintOf(t, ref));
  }

  lemma CoverageStep(cfg: Config, s: State, e: Event, s': State, t: StorageNode, ref: ChunkRef)
    requires Step(cfg, s, e, s') && !Deletes(e) && Covered(s, t, ref)
    ensures Covered(s', t, ref)
  {
    CopiesKept(cfg, s, e, s');
    if e.Replay? {
      hide Step;
      if HintOf(t, ref) in s.queue { ReplayCovers(cfg, s, e, s', t, ref); }
    } else {
      assert (t.address, ref.checksum) in s.peers ==> (t.address, ref.checksum) in s'.peers;
      hide PlanFor, Refreshed, Reloaded, OnlyNew, OtherIds, Answering, DiskGrows, Extends, NodeIds;
    }
  }

  lemma {:induction false} CoverageLasts(cfg: Config, states: seq<State>, events: seq<Event>, i: nat, j: nat,
                                         t: StorageNode, ref: ChunkRef)
    requires Run(cfg, states, events) && i <= j <= |events| && Undeleted(events, i, j) && Covered(states[i], t, ref)
    ensures Covered(states[j], t, ref)
    decreases j - i
  {
    hide *;
    if i < j {
      RunSteps(cfg, states, events, i, j);
      CoverageStep(cfg, states[i], events[i], states[i + 1], t, ref);
      CoverageLasts(cfg, states, events, i + 1, j, t, ref);
    }
  }

  /** In every run without deletions: from a put on, every other target it planned holds
      the chunk or has a hint for it, provided the queue could be written and its words
      can be read back. Later membership changes, failures and lost RPCs do not matter. */
  lemma HandoffCoverage(cfg: Config, states: seq<State>, events: seq<Event>, i: nat, j: nat, t: StorageNode)
    requires Run(cfg, states, events) && i < j <= |events| && Undeleted(events, i + 1, j)
    requires events[i].Put? && events[i].w.queueOk && cfg.sha(events[i].bytes) in states[i + 1].disk
    requires t in events[i].plan && t.id != cfg.self.id
    requires Clean(HintOf(t, ChunkRef(cfg.sha(events[i].bytes), |events[i].bytes|)))
    ensures Covered(states[j], t, ChunkRef(cfg.sha(events[i].bytes), |events[i].bytes|))
  {
    hide *;
    RunSteps(cfg, states, events, i, j);
    PutCovers(cfg, states[i], events[i], states[i + 1], t);
    CoverageLasts(cfg, states, events, i + 1, j, t, ChunkRef(cfg.sha(events[i].bytes), |events[i].bytes|));
  }

  lemma {:induction false} KeepCount(hs: seq<Hint>, kept: seq<bool>)
    requires |kept| == |hs|
    ensures Unmarked(kept) + |Keep(hs, kept)| == |hs|
  {
    if hs != [] {
      KeepCount(hs[..|hs| - 1], kept[..|hs| - 1]);
    }
  }

  lemma {:induction false} KeepNone(hs: seq<Hint>, kept: seq<bool>)
    requires |kept| == |hs| && forall i :: 0 <= i < |kept| ==> !kept[i]
    ensures Keep(hs, kept) == []
  {
    if hs != [] {
      KeepNone(hs[..|hs| - 1], kept[..|hs| - 1]);
    }
  }

  /** A replay loses no hint: what it delivered and what it kept add up, and when every
      hinted node is up and every hinted chunk is still here, everything is delivered. */
  lemma ReplayConserves(cfg: Config, s: State, e: Event, s': State)
    requires Step(cfg, s, e, s') && e.Replay?
    ensures e.delivered.Ok? ==> e.delivered.value + |s'.queue| == |s.queue|
    ensures e.delivered.Err? ==> s'.queue == s.queue
    ensures e.w.queueOk && (forall h :: h in s.queue ==> h.address in e.w.up && LocalHolds(cfg, s.disk, h.checksum)) ==>
              e.delivered == Ok(|s.queue|) && s'.queue == [] && forall h :: h in s.queue ==> Delivered(s'.peers, h)
  {
    KeepCount(s.queue, e.kept);
    hide LocalHolds, Keep, Unmarked, Extends;
    if e.w.queueOk && forall h :: h in s.queue ==> h.address in e.w.up && LocalHolds(cfg, s.disk, h.checksum) {
      forall i | 0 <= i < |e.kept|
        ensures !e.kept[i]
      {
        assert s.queue[i] in s.queue;
      }
      KeepNone(s.queue, e.kept);
    }
  }

  // --------------------------------------------------------------------- where reads stop

  /** A read asks no further than the quorum: if enough of the first `k` targets are sure to answer,
      it succeeds without the others, and repairs none of them. */
  lemma ReadStops(cfg: Config, s: State, e: Event, s': State, k: nat)
    requires Step(cfg, s, e, s') && e.Get? && k <= |e.plan|
    requires |Answering(cfg, s, e.w, e.plan[..k], e.c)| >= Enough(cfg)
    ensures e.data.Ok? && 0 < e.asked <= k
    ensures OnlyNew(cfg, e.plan[..k], s.peers, s'.peers, e.c)
  {
    hide *;
    GetStep(cfg, s, e, s');
    AnsweringGrows(cfg, s, e.w, e.plan, k, |e.plan|, e.c);
    assert e.plan[..|e.plan|] == e.plan;
    if k < e.asked {
      AnsweringGrows(cfg, s, e.w, e.plan, k, e.asked - 1, e.c);
      FewAnswers(cfg, s, e, s');
    } else {
      OnlyNewGrows(cfg, e.plan, e.asked, k, s.peers, s'.peers, e.c);
    }
  }

  lemma GetStep(cfg: Config, s: State, e: Event, s': State)
    requires Step(cfg, s, e, s') && e.Get?
    ensures e.asked <= |e.plan| && (e.asked > 0 ==> e.data.Ok?)
    ensures |Answering(cfg, s, e.w, e.plan, e.c)| >= Enough(cfg) ==> e.asked > 0
    ensures OnlyNew(cfg, e.plan[..e.asked], s.peers, s'.peers, e.c)
  {
    hide PlanFor, Refreshed, Extends, OnlyNew, DiskGrows, Answers, Answering, Has, Writable, NodeIds;
  }

  lemma AnsweringGrows(cfg: Config, s: State, w: World, plan: seq<StorageNode>, k: nat, n: nat, c: string)
    requires k <= n <= |plan|
    ensures |Answering(cfg, s, w, plan[..k], c)| <= |Answering(cfg, s, w, plan[..n], c)|
  {
    hide Answers;
    SubsetCard(Answering(cfg, s, w, plan[..k], c), Answering(cfg, s, w, plan[..n], c));
  }

  /** Before the last target asked, too few were sure to answer. */
  lemma FewAnswers(cfg: Config, s: State, e: Event, s': State)
    requires Step(cfg, s, e, s') && e.Get? && e.asked > 0
    ensures e.asked <= |e.plan| && |Answering(cfg, s, e.w, e.plan[..e.asked - 1], e.c)| < Enough(cfg)
  {
    var n := e.asked;
    PlanDistinct(s'.members, cfg.hash, e.c, cfg.replication, e.plan);
    hide Answers, PlanFor, Refreshed, DiskGrows, Extends, OnlyNew, NodeIds;
    var sure, last := Answering(cfg, s, e.w, e.plan[..n - 1], e.c), e.plan[n - 1].id;
    assert last !in sure;
    assert sure <= e.answered - {last};
    SubsetCard(sure, e.answered - {last});
  }

  lemma OnlyNewGrows(cfg: Config, plan: seq<StorageNode>, n: nat, k: nat, a: Peers, b: Peers, c: string)
    requires n <= k <= |plan| && OnlyNew(cfg, plan[..n], a, b, c)
    ensures OnlyNew(cfg, plan[..k], a, b, c)
  {
    forall address | OtherAt(cfg, plan[..n], address)
      ensures OtherAt(cfg, plan[..k], address)
    {
      var t :| t in plan[..n] && t.id != cfg.self.id && t.address == address;
      assert t in plan[..k];
    }
  }

  // ------------------------------------------------------------------- removal quorums

  /** The targets without the chunk. */
  ghost function Rid(cfg: Config, s: State, plan: seq<StorageNode>, c: string): set<string> {
    set t | t in plan && !Has(cfg, s.disk, s.peers, t, c) :: t.id
  }

  /** The targets sure to carry out a deletion. */
  ghost function Reachable(cfg: Config, w: World, plan: seq<StorageNode>): set<string> {
    set t | t in plan && Writable(cfg, w, t) :: t.id
  }

  lemma RemovedBetween(cfg: Config, s: State, e: Event, s': State)
    requires Step(cfg, s, e, s') && e.Remove? && e.references <= 0
    ensures Reachable(cfg, e.w, e.plan) <= e.removed <= Rid(cfg, s', e.plan, e.c)
    ensures if |e.removed| >= cfg.writeQuorum || |e.removed| >= |e.plan| then e.done.Ok? else e.done == Err(Unavailable)
  {
    hide PlanFor, Refreshed, Extends, Has, Writable;
  }

  /** A removal that is reported done has taken the chunk off a write quorum of targets, or off all of
      them if they are fewer; one that is refused did not reach that many. */
  lemma RemovalAnswers(cfg: Config, s: State, e: Event, s': State)
    requires Step(cfg, s, e, s') && e.Remove? && e.references <= 0
    ensures var quorum := if cfg.writeQuorum <= |e.plan| then cfg.writeQuorum else |e.plan|;
            && (e.done.Ok? ==> |Rid(cfg, s', e.plan, e.c)| >= quorum)
            && (e.done.Err? ==> e.done.code == Unavailable && |Reachable(cfg, e.w, e.plan)| < quorum)
  {
    hide *;
    RemovedBetween(cfg, s, e, s');
    SubsetCard(e.removed, Rid(cfg, s', e.plan, e.c));
    SubsetCard(Reachable(cfg, e.w, e.plan), e.removed);
  }
}
