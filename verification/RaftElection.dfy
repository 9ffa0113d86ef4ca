/** How votes are given and elections won: exactly when a vote is granted, and that a candidate
    whose log is at least as far along as those of a majority of willing voters comes to lead. */
module RaftElection {
  import opened Common
  import opened RaftNode
  import opened RaftCluster
  import opened RaftHistory
  import opened RaftInvariance

  // -------------------------------------------------------------------- giving a vote

  /** `a` is at least as far along as `b`: by the term of the last entry, then by length. */
  predicate AtLeast(a: seq<Entry>, b: seq<Entry>) {
    b == []
    || (a != [] && (a[|a| - 1].term > b[|b| - 1].term || (a[|a| - 1].term == b[|b| - 1].term && |a| >= |b|)))
  }

  /** The node's vote in term `t` is not given to anybody but `c`. */
  predicate Free(n: Node, c: NodeId, t: nat) {
    n.term < t || (n.term == t && (n.votedFor.None? || n.votedFor == Some(c)))
  }

  /** The request that `n` sends when it stands in its present term. */
  function Asking(n: Node): VoteRequest {
    VoteRequest(n.id, n.term, |n.log|, if n.log == [] then 0 else n.log[|n.log| - 1].term)
  }

  /** A vote is granted exactly when it is free and the candidate's log is at least as far along
      as the voter's; and what becomes of the voter. */
  lemma GrantedExactly(v: Node, c: Node)
    requires Indexed(v.log) && Indexed(c.log)
    ensures var (v', resp) := RequestVote(v, Asking(c));
            && (resp.granted <==> Free(v, c.id, c.term) && AtLeast(c.log, v.log))
            && resp.term == v'.term == (if c.term > v.term then c.term else v.term)
            && v'.votedFor == (if resp.granted then Some(c.id) else if c.term > v.term then None else v.votedFor)
            && v' == v.(term := v'.term, votedFor := v'.votedFor, role := if c.term > v.term then Follower else v.role)
  {
  }

  /** Standing: a new term, one's own vote, and a request for one's own log. */
  lemma StandingAsks(n: Node)
    requires Indexed(n.log)
    ensures var (n', req) := StartElection(n);
            && n' == n.(role := Candidate, term := n.term + 1, votedFor := Some(n.id), votes := 1)
            && req == Asking(n')
  {
  }

  /** The comparison is total: of two nodes whose votes are free, one grants the other. */
  lemma OneGrants(a: Node, b: Node)
    requires Indexed(a.log) && Indexed(b.log) && Free(a, b.id, b.term) && Free(b, a.id, a.term)
    ensures RequestVote(a, Asking(b)).1.granted || RequestVote(b, Asking(a)).1.granted
  {
    hide RequestVote;
    GrantedExactly(a, b);
    GrantedExactly(b, a);
  }

  /** A candidate with the voter's own log is granted its free vote. */
  lemma OwnLogGranted(v: Node, c: Node)
    requires Indexed(v.log) && c.log == v.log && Free(v, c.id, c.term)
    ensures RequestVote(v, Asking(c)).1.granted
  {
    hide RequestVote;
    GrantedExactly(v, c);
  }

  /** A vote binds: after a grant, nobody else is granted in that term, and the same candidate is. */
  lemma VoteBinds(v: Node, c: Node, d: Node)
    requires Indexed(v.log) && Indexed(c.log) && Indexed(d.log) && RequestVote(v, Asking(c)).1.granted
    ensures var v' := RequestVote(v, Asking(c)).0;
            && RequestVote(v', Asking(c)).1 == VoteResponse(c.term, true)
            && (d.id != c.id && d.term == c.term ==> RequestVote(v', Asking(d)).1 == VoteResponse(c.term, false))
  {
    hide RequestVote;
    GrantedExactly(v, c);
    var v' := RequestVote(v, Asking(c)).0;
    GrantedExactly(v', c);
    GrantedExactly(v', d);
  }

  /** A follower that has accepted a leader's term grants nobody else a vote in that term. */
  lemma FollowerIsBound(v: Node, req: AppendRequest, d: Node)
    requires Indexed(d.log) && req.term >= v.term && (forall e :: e in req.entries ==> e.index > 0)
    requires Indexed(AppendEntries(v, req).0.log)
    ensures var v' := AppendEntries(v, req).0;
            && v'.role.Follower? && v'.term == req.term
            && (d.term == req.term && d.id != req.leader ==>
                  RequestVote(v', Asking(d)).1 == VoteResponse(req.term, false))
  {
    GrantedExactly(AppendEntries(v, req).0, d);
    hide RequestVote, Splice;
  }

  // ------------------------------------------------------------------ outdated nodes

  /** A candidate or leader that hears of a later term gives up. */
  lemma LaterTermStepsDown(n: Node, f: NodeId, t: nat, granted: bool, success: bool, clusterSize: nat)
    requires t > n.term && Indexed(n.log)
    ensures var down := n.(term := t, role := Follower, votedFor := None);
            && ObserveVote(n, VoteResponse(t, granted), clusterSize) == down
            && ObserveAppendResponse(n, f, AppendResponse(t, success), clusterSize) == down
  {
  }

  /** A request of an earlier term is refused, changes nothing, and the answer names the later term. */
  lemma EarlierTermRefused(v: Node, req: AppendRequest, ask: VoteRequest)
    requires forall e :: e in req.entries ==> e.index > 0
    ensures req.term < v.term ==> AppendEntries(v, req) == (v, AppendResponse(v.term, false))
    ensures ask.term < v.term ==> RequestVote(v, ask) == (v, VoteResponse(v.term, false))
  {
  }

  /** A new leader counts nothing as replicated, and takes every peer to be at its own end. */
  lemma NewLeader(n: Node, resp: VoteResponse, clusterSize: nat, p: NodeId)
    requires Indexed(n.log) && n.role.Candidate? && ObserveVote(n, resp, clusterSize).role.Leader?
    ensures var l := ObserveVote(n, resp, clusterSize);
            && l.next.Keys == n.next.Keys && l.matched.Keys == n.matched.Keys
            && l.id == n.id && l.term == n.term && l.log == n.log && l.commit == n.commit
            && (p in l.matched ==> l.matched[p] == 0) && NextIndex(l, p) == |n.log| + 1
  {
    IndexedLast(n.log);
    hide Indexed, LastIndex;
  }

  /** So it probes: its first request to a peer carries no entries and asks about its last one. */
  lemma NewLeaderProbes(n: Node, resp: VoteResponse, clusterSize: nat, p: NodeId)
    requires Indexed(n.log) && n.role.Candidate? && ObserveVote(n, resp, clusterSize).role.Leader?
    ensures var req := MakeAppendEntries(ObserveVote(n, resp, clusterSize), p);
            && req.leader == n.id && req.term == n.term && req.leaderCommit == n.commit
            && req.prevIndex == |n.log| && req.entries == []
            && (n.log != [] ==> req.prevTerm == n.log[|n.log| - 1].term)
  {
    NewLeader(n, resp, clusterSize, p);
    hide ObserveVote, Indexed, EntriesFrom, NextIndex;
    EntriesFromIsSuffix(n.log, |n.log| + 1);
  }

  /** Configured peers start at the end of the log with nothing matched; others keep their marks. */
  lemma ConfiguredPeers(n: Node, peers: seq<NodeId>, p: NodeId)
    requires Indexed(n.log)
    ensures var n' := ConfigureCluster(n, peers);
            && n' == n.(next := n'.next, matched := n'.matched)
            && (p in peers ==> p in n'.next && p in n'.matched && n'.next[p] == |n.log| + 1 && n'.matched[p] == 0)
            && (p !in peers ==> (p in n'.next <==> p in n.next) && (p in n'.matched <==> p in n.matched))
            && (p !in peers && p in n.next ==> n'.next[p] == n.next[p])
            && (p !in peers && p in n.matched ==> n'.matched[p] == n.matched[p])
  {
    IndexedLast(n.log);
  }

  /** A single node makes itself leader of a new term. */
  lemma AloneLeads(n: Node)
    ensures var l := BecomeLeaderForSingleNode(n);
            l.role.Leader? && l.term == n.term + 1 && l.votedFor == Some(n.id) && l.log == n.log && l.commit == n.commit
  {
  }

  // ------------------------------------------------------------------ building runs

  lemma RunExtend(ids: set<NodeId>, states: seq<Cluster>, steps: seq<Step>, step: Step)
    requires Run(ids, states, steps) && WellFormed(states[|steps|]) && Enabled(states[|steps|], step)
    ensures Run(ids, states + [Apply(states[|steps|], step)], steps + [step])
  {
    hide Apply, WellFormed, Enabled;
    var states', steps' := states + [Apply(states[|steps|], step)], steps + [step];
    forall i | 0 <= i < |steps'|
      ensures WellFormed(states'[i]) && Enabled(states'[i], steps'[i]) && states'[i + 1] == Apply(states'[i], steps'[i])
    {
      if i < |steps| { assert WellFormed(states[i]) && Enabled(states[i], steps[i]); }
    }
  }

  lemma InitState(ids: set<NodeId>)
    ensures WellFormed(Init(ids)) && Init(ids).nodes.Keys == ids
    ensures forall i :: i in ids ==> Init(ids).nodes[i] == InitNode(i)
    ensures Run(ids, [Init(ids)], [])
  {
  }

  lemma ElectFor(s: Cluster, c: NodeId) returns (s': Cluster)
    requires WellFormed(s) && c in s.nodes
    ensures Enabled(s, Elect(c)) && s' == Apply(s, Elect(c)) && WellFormed(s')
    ensures var n := s.nodes[c];
            s'.nodes == s.nodes[c := n.(role := Candidate, term := n.term + 1, votedFor := Some(c), votes := 1)]
    ensures Asking(s'.nodes[c]) in s'.requests && s.requests <= s'.requests
    ensures s'.counted[c] == {c}
  {
    StandingAsks(s.nodes[c]);
    hide Indexed, Asking;
    s' := Apply(s, Elect(c));
  }

  /** A candidate whose request is out. */
  ghost predicate Campaigning(s: Cluster, c: NodeId) {
    && WellFormed(s) && c in s.nodes && s.nodes[c].role.Candidate? && Asking(s.nodes[c]) in s.requests
  }

  /** The node will grant `c` its vote: it is in an earlier term and no further along. */
  predicate Willing(n: Node, c: Node) { n.term < c.term && AtLeast(c.log, n.log) }

  /** The nodes that matter after `c` was granted the vote of `v`. */
  ghost predicate Granted(s: Cluster, c: NodeId, v: NodeId, s': Cluster) {
    && WellFormed(s') && s'.nodes.Keys == s.nodes.Keys && c in s.nodes && v in s.nodes
    && (forall i :: i in s.nodes && i != c && i != v ==> s'.nodes[i] == s.nodes[i])
    && s'.nodes[v].log == s.nodes[v].log && s'.nodes[v].term == s.nodes[c].term && s'.nodes[v].votedFor == Some(c)
    && s'.nodes[v].commit == s.nodes[v].commit
    && s'.nodes[c].id == c && s'.nodes[c].term == s.nodes[c].term && s'.nodes[c].log == s.nodes[c].log
    && s'.nodes[c].commit == s.nodes[c].commit && s'.nodes[c].votes == s.nodes[c].votes + 1
    && s'.nodes[c].role == (if s.nodes[c].votes + 1 > Size(s) / 2 then Leader else Candidate)
    && s'.requests == s.requests
  }

  lemma CandidateHears(s: Cluster, c: NodeId, v: NodeId)
    requires WellFormed(s) && c in s.nodes && v in s.nodes && s.nodes[c].role.Candidate?
    ensures var n, s' := s.nodes[c], Hear(s, c, v, VoteResponse(s.nodes[c].term, true));
            && s'.nodes == s.nodes[c := s'.nodes[c]] && s'.requests == s.requests
            && s'.nodes[c].id == c && s'.nodes[c].term == n.term && s'.nodes[c].log == n.log
            && s'.nodes[c].commit == n.commit && s'.nodes[c].votes == n.votes + 1
            && s'.nodes[c].role == (if n.votes + 1 > Size(s) / 2 then Leader else Candidate)
            && s'.counted == s.counted[c := s.counted[c] + {v}]
  {
    hide Indexed;
  }

  lemma FormedNode(s: Cluster, i: NodeId)
    requires WellFormed(s) && i in s.nodes
    ensures s.nodes[i].id == i && Indexed(s.nodes[i].log)
  {
    hide Indexed;
  }

  lemma HearGrant(s: Cluster, c: NodeId, v: NodeId)
    requires Campaigning(s, c) && v in s.nodes && v != c
    requires Free(s.nodes[v], c, s.nodes[c].term) && AtLeast(s.nodes[c].log, s.nodes[v].log)
    ensures var req := Asking(s.nodes[c]);
            var (n, resp) := RequestVote(s.nodes[v], req);
            && req.candidate == c && req.term == s.nodes[c].term
            && resp == VoteResponse(req.term, true) && n.id == v && Indexed(n.log)
            && Granted(s, c, v, Hear(With(s, v, n), c, v, resp))
            && Hear(With(s, v, n), c, v, resp).counted == s.counted[c := s.counted[c] + {v}]
  {
    hide Indexed, RequestVote, Hear, Free, AtLeast, WellFormed;
    FormedNode(s, c);
    FormedNode(s, v);
    GrantedExactly(s.nodes[v], s.nodes[c]);
    GrantedTerm(s.nodes[v], c, s.nodes[c].term);
    var n := RequestVote(s.nodes[v], Asking(s.nodes[c])).0;
    var s1 := With(s, v, n);
    SizeSame(s, s1);
    CandidateHears(s1, c, v);
  }

  lemma GrantedTerm(n: Node, c: NodeId, t: nat)
    requires Free(n, c, t)
    ensures n.term <= t
  {
  }

  lemma VoteGranted(s: Cluster, c: NodeId, v: NodeId) returns (step: Step)
    requires Campaigning(s, c) && v in s.nodes && v != c && Willing(s.nodes[v], s.nodes[c]) && v !in s.counted[c]
    ensures Enabled(s, step) && Granted(s, c, v, Apply(s, step))
    ensures Apply(s, step).counted == s.counted[c := s.counted[c] + {v}]
  {
    hide Indexed, Granted, Hear, RequestVote, AtLeast, Asking;
    HearGrant(s, c, v);
    step := Vote(Asking(s.nodes[c]), v, true);
  }

  /** Every voter is willing and not yet counted. */
  ghost predicate Electorate(s: Cluster, c: NodeId, voters: set<NodeId>) {
    && c in s.nodes && c in s.counted && c !in voters && voters <= s.nodes.Keys
    && forall v :: v in voters ==> Willing(s.nodes[v], s.nodes[c]) && v !in s.counted[c]
  }

  /** A candidate whose log is at least as far along as those of willing voters who make up a
      majority with it gathers their votes until it leads. */
  lemma {:induction false} Campaign(ids: set<NodeId>, states: seq<Cluster>, steps: seq<Step>, c: NodeId,
                                    voters: set<NodeId>)
    returns (states': seq<Cluster>, steps': seq<Step>)
    requires Run(ids, states, steps) && |states| == |steps| + 1 && states[|steps|].nodes.Keys == ids
    requires var s := states[|steps|];
             && Campaigning(s, c) && Electorate(s, c, voters)
             && s.nodes[c].votes <= |ids| / 2 < s.nodes[c].votes + |voters|
    ensures Run(ids, states', steps') && |states'| == |steps'| + 1 && states <= states' && steps <= steps'
    ensures Won(ids, states[|steps|], c, voters, states'[|steps'|])
    decreases |voters|
  {
    hide Run, Apply, Enabled, WellFormed, Granted, Willing, Asking;
    var s := states[|steps|];
    assert |voters| > 0;
    var v :| v in voters;
    var step := VoteGranted(s, c, v);
    RunExtend(ids, states, steps, step);
    var s1 := Apply(s, step);
    states', steps' := states + [s1], steps + [step];
    assert Size(s) == |ids| by { assert |s.nodes.Keys| == |ids|; }
    OneVote(ids, s, c, v, voters, s1);
    if s.nodes[c].votes + 1 <= |ids| / 2 {
      var states1, steps1 := states', steps';
      states', steps' := Campaign(ids, states1, steps1, c, voters - {v});
      WonLater(ids, s, s1, c, v, voters, states'[|steps'|]);
    }
  }

  /** `c` leads its term; logs stay, and nobody but the voters and `c` was touched. */
  ghost predicate Won(ids: set<NodeId>, s: Cluster, c: NodeId, voters: set<NodeId>, s': Cluster) {
    && WellFormed(s') && s'.nodes.Keys == s.nodes.Keys == ids && c in ids && voters <= ids
    && s'.nodes[c].role.Leader? && s'.nodes[c].term == s.nodes[c].term
    && LogsStay(s, s') && OthersStay(s, c, voters, s') && VotersFollow(s, c, voters, s')
  }

  ghost predicate LogsStay(s: Cluster, s': Cluster)
    requires s'.nodes.Keys == s.nodes.Keys
  {
    forall i :: i in s.nodes ==> s'.nodes[i].commit == s.nodes[i].commit && s'.nodes[i].log == s.nodes[i].log
  }

  ghost predicate OthersStay(s: Cluster, c: NodeId, voters: set<NodeId>, s': Cluster)
    requires s'.nodes.Keys == s.nodes.Keys
  {
    forall i :: i in s.nodes && i != c && i !in voters ==> s'.nodes[i] == s.nodes[i]
  }

  ghost predicate VotersFollow(s: Cluster, c: NodeId, voters: set<NodeId>, s': Cluster)
    requires s'.nodes.Keys == s.nodes.Keys && c in s.nodes
  {
    forall i :: i in voters && i in s.nodes ==> s'.nodes[i].term <= s.nodes[c].term
  }

  lemma OneVote(ids: set<NodeId>, s: Cluster, c: NodeId, v: NodeId, voters: set<NodeId>, s': Cluster)
    requires Campaigning(s, c) && Granted(s, c, v, s') && s.nodes.Keys == ids && Size(s) == |ids|
    requires v in voters && Electorate(s, c, voters) && s'.counted == s.counted[c := s.counted[c] + {v}]
    ensures s.nodes[c].votes + 1 > |ids| / 2 ==> Won(ids, s, c, voters, s')
    ensures s.nodes[c].votes + 1 <= |ids| / 2 ==>
              && Campaigning(s', c) && s'.nodes[c].votes == s.nodes[c].votes + 1 && |voters - {v}| == |voters| - 1
              && Electorate(s', c, voters - {v})
  {
    if s.nodes[c].votes + 1 <= |ids| / 2 {
      FormedNode(s, c);
      hide WellFormed, AtLeast;
      assert Asking(s'.nodes[c]) == Asking(s.nodes[c]);
    } else {
      OneVoteWon(ids, s, c, v, voters, s');
    }
  }

  lemma OneVoteWon(ids: set<NodeId>, s: Cluster, c: NodeId, v: NodeId, voters: set<NodeId>, s': Cluster)
    requires Granted(s, c, v, s') && s.nodes.Keys == ids && Size(s) == |ids| && s.nodes[c].votes + 1 > |ids| / 2
    requires v in voters && Electorate(s, c, voters)
    ensures Won(ids, s, c, voters, s')
  {
    hide WellFormed, AtLeast;
  }

  lemma WonLater(ids: set<NodeId>, s: Cluster, s1: Cluster, c: NodeId, v: NodeId, voters: set<NodeId>, s': Cluster)
    requires Granted(s, c, v, s1) && v in voters && c !in voters && Won(ids, s1, c, voters - {v}, s')
    ensures Won(ids, s, c, voters, s')
  {
    hide WellFormed, LogsStay, OthersStay, VotersFollow;
    WonStays(ids, s, s1, c, v, voters, s');
  }

  lemma WonStays(ids: set<NodeId>, s: Cluster, s1: Cluster, c: NodeId, v: NodeId, voters: set<NodeId>, s': Cluster)
    requires Granted(s, c, v, s1) && v in voters && c !in voters && s'.nodes.Keys == s1.nodes.Keys == ids
    requires LogsStay(s1, s') && OthersStay(s1, c, voters - {v}, s') && VotersFollow(s1, c, voters - {v}, s')
    ensures LogsStay(s, s') && OthersStay(s, c, voters, s')
    ensures voters <= ids ==> VotersFollow(s, c, voters, s')
  {
    hide WellFormed;
    forall i | i in s.nodes
      ensures s'.nodes[i].commit == s.nodes[i].commit && s'.nodes[i].log == s.nodes[i].log
    {
      assert s1.nodes[i].commit == s.nodes[i].commit && s1.nodes[i].log == s.nodes[i].log;
    }
    assert s'.nodes[v] == s1.nodes[v];
    forall i | i in voters && i in s.nodes
      ensures s'.nodes[i].term <= s.nodes[c].term
    {
      assert i == v || i in voters - {v};
    }
  }

  /** `c` has become a candidate of a new term; nobody else was touched. */
  ghost predicate Stood(s: Cluster, c: NodeId, s': Cluster) {
    && Campaigning(s', c) && s'.nodes.Keys == s.nodes.Keys && c in s.nodes
    && s'.counted[c] == {c} && s'.nodes[c].votes == 1
    && s'.nodes[c].term == s.nodes[c].term + 1 && s'.nodes[c].commit == s.nodes[c].commit
    && s'.nodes[c].log == s.nodes[c].log
    && (forall i :: i in s.nodes && i != c ==> s'.nodes[i] == s.nodes[i])
  }

  lemma ElectIn(ids: set<NodeId>, states: seq<Cluster>, steps: seq<Step>, c: NodeId)
    returns (states': seq<Cluster>, steps': seq<Step>)
    requires Run(ids, states, steps) && |states| == |steps| + 1 && WellFormed(states[|steps|])
    requires c in states[|steps|].nodes
    ensures Run(ids, states', steps') && |states'| == |steps'| + 1 && states <= states' && steps <= steps'
    ensures Stood(states[|steps|], c, states'[|steps'|])
  {
    hide Run, Apply, WellFormed, Enabled, Asking;
    var s' := ElectFor(states[|steps|], c);
    RunExtend(ids, states, steps, Elect(c));
    states', steps' := states + [s'], steps + [Elect(c)];
  }

  /** `c` has started a new term and leads it, elected by `voters`; logs stay. */
  ghost predicate Led(ids: set<NodeId>, s: Cluster, c: NodeId, voters: set<NodeId>, s': Cluster) {
    && WellFormed(s') && s'.nodes.Keys == s.nodes.Keys == ids && c in ids && voters <= ids
    && s'.nodes[c].role.Leader? && s'.nodes[c].term == s.nodes[c].term + 1
    && (forall i :: i in ids ==> s'.nodes[i].commit == s.nodes[i].commit && s'.nodes[i].log == s.nodes[i].log)
    && (forall i :: i in ids && i != c && i !in voters ==> s'.nodes[i] == s.nodes[i])
    && (forall i :: i in voters ==> s'.nodes[i].term <= s.nodes[c].term + 1)
  }

  /** From any state of any run: a node in a term as late as those of the voters, and with a log
      as far along as theirs, can be made leader of the next term if they are enough. */
  lemma Lead(ids: set<NodeId>, states: seq<Cluster>, steps: seq<Step>, c: NodeId, voters: set<NodeId>)
    returns (states': seq<Cluster>, steps': seq<Step>)
    requires Run(ids, states, steps) && |states| == |steps| + 1
    requires var s := states[|steps|];
             && WellFormed(s) && s.nodes.Keys == ids && c in ids && voters <= ids && c !in voters
             && forall v :: v in voters ==>
                  s.nodes[v].term <= s.nodes[c].term && AtLeast(s.nodes[c].log, s.nodes[v].log)
    requires 1 <= |ids| / 2 < 1 + |voters|
    ensures Run(ids, states', steps') && |states'| == |steps'| + 1 && states <= states' && steps <= steps'
    ensures Led(ids, states[|steps|], c, voters, states'[|steps'|])
  {
    hide Run, WellFormed, AtLeast, Campaigning;
    var states1, steps1 := ElectIn(ids, states, steps, c);
    StoodElectorate(states[|steps|], c, states1[|steps1|], voters);
    states', steps' := Campaign(ids, states1, steps1, c, voters);
    WonIsLed(ids, states[|steps|], states1[|steps1|], c, voters, states'[|steps'|]);
  }

  lemma StoodElectorate(s: Cluster, c: NodeId, s': Cluster, voters: set<NodeId>)
    requires Stood(s, c, s') && c !in voters && voters <= s.nodes.Keys
    requires forall v :: v in voters ==> s.nodes[v].term <= s.nodes[c].term && AtLeast(s.nodes[c].log, s.nodes[v].log)
    ensures Electorate(s', c, voters)
  {
    hide AtLeast, Indexed;
  }

  lemma WonIsLed(ids: set<NodeId>, s: Cluster, s1: Cluster, c: NodeId, voters: set<NodeId>, s': Cluster)
    requires Stood(s, c, s1) && Won(ids, s1, c, voters, s')
    ensures Led(ids, s, c, voters, s')
  {
    hide WellFormed, Campaigning;
  }
}
