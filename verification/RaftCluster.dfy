/** A cluster of Raft nodes as a transition system. RPCs are atomic, as the
    callers of the state machine drive them, but any reply may be lost. */
module RaftCluster {
  import opened RaftNode

  /** `requests` holds every vote request ever issued: each can be delivered
      late and again. `counted[c]` is the set of voters whose grant was
      delivered to `c` in its current candidacy, `c` itself included. */
  datatype Cluster = Cluster(
    nodes: map<NodeId, Node>,
    requests: set<VoteRequest>,
    counted: map<NodeId, set<NodeId>>)

  datatype Step =
    | Elect(candidate: NodeId)
    | Vote(req: VoteRequest, voter: NodeId, heard: bool)
    | Client(leader: NodeId, command: string)
    | Replicate(leader: NodeId, follower: NodeId, heard: bool)
    | Configure(node: NodeId, peers: seq<NodeId>)
    | BootAlone(node: NodeId)

  function Init(ids: set<NodeId>): Cluster {
    Cluster(map i | i in ids :: InitNode(i), {}, map i | i in ids :: {})
  }

  function Size(s: Cluster): nat { |s.nodes| }

  predicate Majority(nodes: map<NodeId, Node>, q: set<NodeId>) {
    q <= nodes.Keys && |q| > |nodes| / 2
  }

  /** A grant may reach its candidate only for the candidacy it was asked for,
      and once per voter: `observe_vote` itself checks neither. */
  predicate MayDeliverVote(s: Cluster, req: VoteRequest, voter: NodeId, resp: VoteResponse)
    requires req.candidate in s.nodes && req.candidate in s.counted
  {
    var c := s.nodes[req.candidate];
    resp.granted && resp.term <= c.term ==> req.term == c.term && voter !in s.counted[req.candidate]
  }

  /** What every step needs of the state, and keeps: ids are keys, requests name
      members, and vector positions and log indexes agree. */
  ghost predicate WellFormed(s: Cluster) {
    && s.counted.Keys == s.nodes.Keys
    && (forall r :: r in s.requests ==> r.candidate in s.nodes)
    && (forall i :: i in s.nodes ==> s.nodes[i].id == i && Indexed(s.nodes[i].log))
  }

  ghost predicate Enabled(s: Cluster, step: Step)
    requires WellFormed(s)
  {
    match step
    case Elect(c) => c in s.nodes
    case Vote(req, v, heard) =>
      && req in s.requests && v in s.nodes
      && (heard ==> MayDeliverVote(s, req, v, RequestVote(s.nodes[v], req).1))
    case Client(l, _) => l in s.nodes
    case Replicate(l, f, heard) =>
      && l in s.nodes && f in s.nodes && l != f
      && s.nodes[l].role.Leader?
    case Configure(i, _) => i in s.nodes
    case BootAlone(i) => i in s.nodes && Size(s) == 1
  }

  ghost function With(s: Cluster, i: NodeId, n: Node): (s': Cluster)
    requires WellFormed(s) && i in s.nodes && n.id == i && Indexed(n.log)
    ensures WellFormed(s') && s'.nodes.Keys == s.nodes.Keys
  {
    s.(nodes := s.nodes[i := n])
  }

  function Tail(log: seq<Entry>, prev: nat): seq<Entry> {
    if prev < |log| then log[prev..] else []
  }

  /** An append request carries the whole rest of the sender's log. */
  lemma SentEntries(n: Node, f: NodeId)
    requires Indexed(n.log)
    ensures var req := MakeAppendEntries(n, f);
            && req.entries == Tail(n.log, req.prevIndex)
            && forall e :: e in req.entries ==> e.index > 0
  {
    EntriesFromIsSuffix(n.log, NextIndex(n, f));
  }

  /** Accepting such a request leaves the log alone or replaces its tail by the sender's. */
  lemma AcceptedLog(n: Node, req: AppendRequest, sender: seq<Entry>)
    requires Indexed(n.log) && Indexed(sender)
    requires req.entries == Tail(sender, req.prevIndex)
    ensures forall e :: e in req.entries ==> e.index > 0
    ensures PrevMatches(n.log, req) ==> req.prevIndex <= |n.log|
    ensures var n' := AppendEntries(n, req).0;
            && Indexed(n'.log)
            && n'.log == if req.term < n.term || !PrevMatches(n.log, req) || req.entries == [] then n.log
                         else n.log[..req.prevIndex] + req.entries
  {
    assert forall e :: e in req.entries ==> e in sender;
    if PrevMatches(n.log, req) {
      SpliceReplacesTail(n.log, req.entries, req.prevIndex);
    }
  }

  /** The reply of `v` reaches candidate `c`. */
  ghost function Hear(s: Cluster, c: NodeId, v: NodeId, resp: VoteResponse): (s': Cluster)
    requires WellFormed(s) && c in s.nodes
    ensures WellFormed(s') && s'.nodes.Keys == s.nodes.Keys
  {
    var s1 := With(s, c, ObserveVote(s.nodes[c], resp, Size(s)));
    if resp.granted && resp.term == s.nodes[c].term
    then s1.(counted := s1.counted[c := s1.counted[c] + {v}])
    else s1
  }

  ghost function ApplyVote(s: Cluster, req: VoteRequest, v: NodeId, heard: bool): (s': Cluster)
    requires WellFormed(s) && Enabled(s, Vote(req, v, heard))
    ensures WellFormed(s') && s'.nodes.Keys == s.nodes.Keys
  {
    var (n, resp) := RequestVote(s.nodes[v], req);
    var s1 := With(s, v, n);
    if heard then Hear(s1, req.candidate, v, resp) else s1
  }

  ghost function ApplyReplicate(s: Cluster, l: NodeId, f: NodeId, heard: bool): (s': Cluster)
    requires WellFormed(s) && Enabled(s, Replicate(l, f, heard))
    ensures WellFormed(s') && s'.nodes.Keys == s.nodes.Keys
  {
    var leader := s.nodes[l];
    var req := MakeAppendEntries(leader, f);
    SentEntries(leader, f);
    AcceptedLog(s.nodes[f], req, leader.log);
    var (n, resp) := AppendEntries(s.nodes[f], req);
    var s1 := With(s, f, n);
    if !heard then s1
    else With(s1, l, ObserveAppendResponse(leader, f, resp, Size(s)))
  }

  ghost function Apply(s: Cluster, step: Step): (s': Cluster)
    requires WellFormed(s) && Enabled(s, step)
    ensures WellFormed(s') && s'.nodes.Keys == s.nodes.Keys
  {
    match step
    case Elect(c) =>
      var (n, req) := StartElection(s.nodes[c]);
      Cluster(s.nodes[c := n], s.requests + {req}, s.counted[c := {c}])
    case Vote(req, v, heard) => ApplyVote(s, req, v, heard)
    case Client(l, cmd) => With(s, l, AppendClientCommand(s.nodes[l], cmd).0)
    case Replicate(l, f, heard) => ApplyReplicate(s, l, f, heard)
    case Configure(i, peers) => With(s, i, ConfigureCluster(s.nodes[i], peers))
    case BootAlone(i) =>
      With(s, i, BecomeLeaderForSingleNode(s.nodes[i])).(counted := s.counted[i := {i}])
  }

  /** A run: a sequence of states, each following from the one before by an enabled step. */
  ghost predicate Run(ids: set<NodeId>, states: seq<Cluster>, steps: seq<Step>) {
    && |states| == |steps| + 1
    && states[0] == Init(ids)
    && (forall i :: 0 <= i < |steps| ==> WellFormed(states[i]) && Enabled(states[i], steps[i]))
    && (forall i :: 0 <= i < |steps| ==> states[i + 1] == Apply(states[i], steps[i]))
  }
}
