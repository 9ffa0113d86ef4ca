/** Commands appended by clients are counted as committed at once. How much that is worth:
    nobody else holds the entry at that moment, and later leaders are sure to hold it
    exactly in clusters of at most two nodes. */
module RaftClient {
  import opened Common
  import opened RaftNode
  import opened RaftCluster
  import opened RaftHistory
  import opened RaftInvariance
  import opened RaftSafety
  import opened RaftCommit
  import opened RaftElection

  /** Nobody but the leader can hold a position past the end of its log in its own term. */
  lemma NobodyAhead(s: Cluster, h: History, l: NodeId, q: NodeId)
    requires Inv(s, h) && l in s.nodes && s.nodes[l].role.Leader? && q in s.nodes
    ensures !Has(s.nodes[q].log, s.nodes[l].term, |s.nodes[l].log|)
  {
    hide WellFormed, TermLogInv, BallotsInv, FreshInv, CountInv, RequestsInv, ElectionsInv, AcksInv, VotesInv, MatchInv,
      Indexed, Sorted, TermsUpTo;
    LeaderOfTerm(s.nodes, h, l);
    NodeLog(s.nodes, h, q);
    if Has(s.nodes[q].log, s.nodes[l].term, |s.nodes[l].log|) {
      CanonicalAt(s.nodes[q].log, h.termLog, s.nodes[l].term, |s.nodes[l].log|);
      assert false;
    }
  }

  /** A client append commits at once; in every run its index is then held by the
      leader alone, so it is backed by a majority exactly in a cluster of one. */
  lemma ClientCommitBacked(ids: set<NodeId>, states: seq<Cluster>, steps: seq<Step>, l: NodeId, command: string)
    requires Run(ids, states, steps) && |steps| > 0 && steps[|steps| - 1] == Client(l, command)
    requires states[|steps| - 1].nodes[l].role.Leader?
    ensures var s := states[|steps|];
            var n := s.nodes[l];
            var holders := set q | q in s.nodes && Has(s.nodes[q].log, n.term, n.commit - 1);
            && n.commit == |n.log| && holders == {l}
            && (Majority(s.nodes, holders) <==> |ids| == 1)
  {
    hide Run, Inv, Indexed, WellFormed, Has, Seen, AckedIn;
    var last := |steps| - 1;
    RunStep(ids, states, steps, last);
    var s0, s := states[last], states[|steps|];
    ClientState(s0, l, command);
    RunPrefix(ids, states, steps, last);
    var h := RunHistory(ids, states[..last + 1], steps[..last]);
    assert states[..last + 1][last] == s0;
    var n := s.nodes[l];
    forall q | q in s.nodes && q != l
      ensures !Has(s.nodes[q].log, n.term, n.commit - 1)
    {
      NobodyAhead(s0, h, l, q);
    }
    assert (set q | q in s.nodes && Has(s.nodes[q].log, n.term, n.commit - 1)) == {l};
    assert |s.nodes.Keys| == |ids|;
    SubsetCard({l}, ids);
  }

  lemma ClientState(s: Cluster, l: NodeId, command: string)
    requires WellFormed(s) && Enabled(s, Client(l, command)) && s.nodes[l].role.Leader?
    ensures var s' := Apply(s, Client(l, command));
            var n, n' := s.nodes[l], s'.nodes[l];
            && s'.nodes == s.nodes[l := n'] && n'.term == n.term && WellFormed(s')
            && n'.commit == |n'.log| == |n.log| + 1 && Has(n'.log, n.term, |n.log|)
  {
    IndexedLast(s.nodes[l].log);
    hide Indexed;
  }

  // ---------------------------------------------------- when a client commit is kept

  /** Step `m` is a client append that leader `l` accepts, and so commits. */
  ghost predicate ClientCommit(states: seq<Cluster>, steps: seq<Step>, m: nat, l: NodeId) {
    && |states| == |steps| + 1 && m < |steps| && steps[m].Client? && steps[m].leader == l
    && l in states[m].nodes && l in states[m + 1].nodes && states[m].nodes[l].role.Leader?
  }

  ghost predicate LaterLeader(states: seq<Cluster>, i: nat, leader: NodeId, t: nat) {
    && i < |states| && leader in states[i].nodes
    && states[i].nodes[leader].role.Leader? && states[i].nodes[leader].term > t
  }

  /** The log holds everything that `n` has committed. */
  predicate Keeps(log: seq<Entry>, n: Node) {
    n.commit <= |n.log| && n.commit <= |log| && log[..n.commit] == n.log[..n.commit]
  }

  /** In every run, whatever a client append commits is in the log of every leader of a
      later term, at whatever moment. */
  ghost predicate ClientCommitsKept(ids: set<NodeId>) {
    forall states: seq<Cluster>, steps: seq<Step>, m: nat, l: NodeId, i: nat, leader: NodeId ::
      Run(ids, states, steps) && ClientCommit(states, steps, m, l)
      && LaterLeader(states, i, leader, states[m + 1].nodes[l].term) ==>
        Keeps(states[i].nodes[leader].log, states[m + 1].nodes[l])
  }

  /** With at most two nodes the leader alone meets every majority. */
  lemma AloneBlocks(ids: set<NodeId>, l: NodeId)
    requires l in ids && |ids| <= 2
    ensures Blocks(ids, {l})
  {
    forall m: set<NodeId> | m <= ids && |m| > |ids| / 2
      ensures m * {l} != {}
    {
      if l !in m {
        SubsetCard(m, ids - {l});
        assert false;
      }
      assert l in m * {l};
    }
  }

  lemma ClientCommitAcked(ids: set<NodeId>, states: seq<Cluster>, steps: seq<Step>, m: nat, l: NodeId)
    requires Run(ids, states, steps) && ClientCommit(states, steps, m, l)
    ensures var n := states[m + 1].nodes[l];
            n.commit == |n.log| > 0 && Has(n.log, n.term, n.commit - 1) && AllAcked(states, {l}, n.term, n.commit - 1)
  {
    hide Run, Apply, WellFormed, Enabled;
    RunStep(ids, states, steps, m);
    ClientState(states[m], l, steps[m].command);
    assert states[m + 1].nodes[l].term == states[m].nodes[l].term;
  }

  lemma SmallClusterKeeps(ids: set<NodeId>, states: seq<Cluster>, steps: seq<Step>, m: nat, l: NodeId, i: nat,
                          leader: NodeId)
    requires Run(ids, states, steps) && ClientCommit(states, steps, m, l) && |ids| <= 2
    requires LaterLeader(states, i, leader, states[m + 1].nodes[l].term)
    ensures Keeps(states[i].nodes[leader].log, states[m + 1].nodes[l])
  {
    hide Run, Blocks, AllAcked, Has, Seen, Inv, AckedIn;
    var n := states[m + 1].nodes[l];
    ClientCommitAcked(ids, states, steps, m, l);
    var h := RunHistory(ids, states, steps);
    AloneBlocks(ids, l);
    BlockingCompleteness(ids, states, steps, {l}, n.term, n.commit - 1, i, leader, m + 1, l);
    HasAt(states[i].nodes[leader].log, n.term, n.commit - 1);
  }

  lemma HasAt(log: seq<Entry>, t: nat, k: nat)
    requires Has(log, t, k)
    ensures k < |log|
  {
  }

  // ------------------------------------------------------------- how a commit is lost

  lemma MayAsk(s: Cluster, l: NodeId, command: string)
    requires WellFormed(s) && l in s.nodes
    ensures Enabled(s, Client(l, command))
  {
    hide WellFormed;
  }

  /** Index 1 is committed by `a`, in term 1, and known to nobody else. */
  ghost predicate OneCommit(ids: set<NodeId>, a: NodeId, s: Cluster) {
    && WellFormed(s) && s.nodes.Keys == ids && a in ids
    && s.nodes[a].term == 1 && s.nodes[a].commit == |s.nodes[a].log| == 1
    && (forall i :: i in ids && i != a ==> s.nodes[i].term <= 1 && s.nodes[i].log == [] && s.nodes[i].commit == 0)
  }

  lemma LedThenCommits(ids: set<NodeId>, a: NodeId, s: Cluster, s': Cluster)
    requires a in ids && Led(ids, Init(ids), a, ids - {a}, s)
    requires WellFormed(s') && a in s'.nodes && s'.nodes == s.nodes[a := s'.nodes[a]]
    requires s'.nodes[a].term == s.nodes[a].term && s'.nodes[a].commit == |s'.nodes[a].log| == |s.nodes[a].log| + 1
    ensures OneCommit(ids, a, s')
  {
    hide WellFormed;
  }

  /** `a` wins term 1 and logs one command, which it counts as committed. */
  lemma FirstCommit(ids: set<NodeId>, a: NodeId) returns (states: seq<Cluster>, steps: seq<Step>, m: nat)
    requires a in ids && |ids| >= 2
    ensures Run(ids, states, steps) && |states| == |steps| + 1 && |steps| == m + 1 && ClientCommit(states, steps, m, a)
    ensures OneCommit(ids, a, states[m + 1])
  {
    hide Run, Apply, WellFormed, Enabled, Init, Led, OneCommit;
    InitState(ids);
    var states1, steps1 := Lead(ids, [Init(ids)], [], a, ids - {a});
    var s := states1[|steps1|];
    LedLeads(ids, Init(ids), a, ids - {a}, s);
    MayAsk(s, a, "x");
    ClientState(s, a, "x");
    RunExtend(ids, states1, steps1, Client(a, "x"));
    states, steps, m := states1 + [Apply(s, Client(a, "x"))], steps1 + [Client(a, "x")], |steps1|;
    LedThenCommits(ids, a, s, states[m + 1]);
  }

  lemma LedLeads(ids: set<NodeId>, s: Cluster, c: NodeId, voters: set<NodeId>, s': Cluster)
    requires Led(ids, s, c, voters, s')
    ensures WellFormed(s') && c in s'.nodes && s'.nodes[c].role.Leader?
  {
    hide WellFormed;
  }

  lemma CommitStays(states: seq<Cluster>, steps: seq<Step>, m: nat, l: NodeId, states': seq<Cluster>, steps': seq<Step>)
    requires ClientCommit(states, steps, m, l) && states <= states' && steps <= steps' && |states'| == |steps'| + 1
    ensures ClientCommit(states', steps', m, l) && states'[m + 1] == states[m + 1]
  {
  }

  /** `a` has committed index 1 and `c` leads a later term with an empty log. */
  ghost predicate Lost(ids: set<NodeId>, a: NodeId, c: NodeId, s: Cluster) {
    && WellFormed(s) && s.nodes.Keys == ids && a in ids && c in ids
    && s.nodes[a].commit == |s.nodes[a].log| == 1
    && s.nodes[c].role.Leader? && s.nodes[c].term > s.nodes[a].term
    && s.nodes[c].log == [] && s.nodes[c].commit == 0
  }

  /** With three nodes or more: `a` commits index 1, and then `c` leads a later term with an
      empty log, elected by everybody but `a`. */
  lemma LossRun(ids: set<NodeId>, a: NodeId, c: NodeId) returns (states: seq<Cluster>, steps: seq<Step>, m: nat)
    requires a in ids && c in ids && a != c && |ids| >= 3
    ensures Run(ids, states, steps) && |states| == |steps| + 1 && ClientCommit(states, steps, m, a)
    ensures var s := states[|steps|];
            Lost(ids, a, c, s) && a in states[m + 1].nodes && s.nodes[a] == states[m + 1].nodes[a]
  {
    hide Run, OneCommit, ClientCommit, Lost;
    var states0, steps0;
    states0, steps0, m := FirstCommit(ids, a);
    states, steps := SecondElection(ids, states0, steps0, a, c);
    CommitStays(states0, steps0, m, a, states, steps);
  }

  /** After one commit by `a`: `c` stands twice, so as to pass term 1, and is elected. */
  lemma SecondElection(ids: set<NodeId>, states: seq<Cluster>, steps: seq<Step>, a: NodeId, c: NodeId)
    returns (states': seq<Cluster>, steps': seq<Step>)
    requires a in ids && c in ids && a != c && |ids| >= 3
    requires Run(ids, states, steps) && |states| == |steps| + 1 && OneCommit(ids, a, states[|steps|])
    ensures Run(ids, states', steps') && |states'| == |steps'| + 1 && states <= states' && steps <= steps'
    ensures Lost(ids, a, c, states'[|steps'|]) && a in states[|steps|].nodes
    ensures states'[|steps'|].nodes[a] == states[|steps|].nodes[a]
  {
    hide *;
    CommitFacts(ids, a, c, states[|steps|]);
    var states1, steps1 := ElectIn(ids, states, steps, c);
    var voters := OtherVoters(ids, a, c);
    ReadyToLead(ids, a, c, states[|steps|], states1[|steps1|], voters);
    states', steps' := Lead(ids, states1, steps1, c, voters);
    LedPast(ids, a, c, states[|steps|], states1[|steps1|], states'[|steps'|], voters);
  }

  lemma CommitFacts(ids: set<NodeId>, a: NodeId, c: NodeId, s: Cluster)
    requires OneCommit(ids, a, s) && c in ids && c != a
    ensures WellFormed(s) && a in s.nodes && c in s.nodes && s.nodes[c].log == []
  {
    hide WellFormed;
  }

  lemma OtherVoters(ids: set<NodeId>, a: NodeId, c: NodeId) returns (voters: set<NodeId>)
    requires a in ids && c in ids && a != c && |ids| >= 3
    ensures voters == ids - {a, c} && 1 <= |ids| / 2 < 1 + |voters|
  {
    voters := ids - {a, c};
    assert ids == voters + {a, c};
  }

  lemma ReadyToLead(ids: set<NodeId>, a: NodeId, c: NodeId, s: Cluster, s': Cluster, voters: set<NodeId>)
    requires OneCommit(ids, a, s) && c in ids && c != a && Stood(s, c, s') && voters == ids - {a, c}
    ensures WellFormed(s') && s'.nodes.Keys == ids && c !in voters && voters <= ids && s'.nodes[c].log == []
    ensures forall v :: v in voters ==>
              s'.nodes[v].term <= s'.nodes[c].term && AtLeast(s'.nodes[c].log, s'.nodes[v].log)
  {
    hide WellFormed;
  }

  lemma LedPast(ids: set<NodeId>, a: NodeId, c: NodeId, s0: Cluster, s1: Cluster, s: Cluster, voters: set<NodeId>)
    requires OneCommit(ids, a, s0) && c in ids && a != c && voters == ids - {a, c}
    requires Stood(s0, c, s1) && Led(ids, s1, c, voters, s)
    ensures Lost(ids, a, c, s) && s.nodes[a] == s0.nodes[a]
  {
    hide WellFormed;
  }

  lemma LargeClusterLoses(ids: set<NodeId>)
    requires |ids| >= 3
    ensures !ClientCommitsKept(ids)
  {
    hide Run, WellFormed;
    var a :| a in ids;
    assert |ids - {a}| >= 2;
    var c :| c in ids - {a};
    var states, steps, m := LossRun(ids, a, c);
    assert LaterLeader(states, |steps|, c, states[m + 1].nodes[a].term);
    assert !Keeps(states[|steps|].nodes[c].log, states[m + 1].nodes[a]);
  }

  /** Exactly the clusters of one or two nodes keep what client appends commit. */
  lemma ClientCommitsKeptExactly(ids: set<NodeId>)
    requires ids != {}
    ensures ClientCommitsKept(ids) <==> |ids| <= 2
  {
    hide Run, Keeps;
    if |ids| <= 2 {
      forall states: seq<Cluster>, steps: seq<Step>, m: nat, l: NodeId, i: nat, leader: NodeId |
        Run(ids, states, steps) && ClientCommit(states, steps, m, l)
        && LaterLeader(states, i, leader, states[m + 1].nodes[l].term)
        ensures Keeps(states[i].nodes[leader].log, states[m + 1].nodes[l])
      {
        SmallClusterKeeps(ids, states, steps, m, l, i, leader);
      }
    } else {
      LargeClusterLoses(ids);
    }
  }

  /** A commit index can fall: when `c` then reaches `a`, the empty request is accepted and `a`
      goes back from commit index 1 to 0, its log unchanged. */
  lemma CommitIndexFalls(ids: set<NodeId>, a: NodeId, c: NodeId) returns (states: seq<Cluster>, steps: seq<Step>)
    requires a in ids && c in ids && a != c && |ids| >= 3
    ensures Run(ids, states, steps) && |states| == |steps| + 1
    ensures |steps| > 0 && steps[|steps| - 1] == Replicate(c, a, true)
    ensures var s, s' := states[|steps| - 1], states[|steps|];
            && a in s.nodes && a in s'.nodes && s.nodes[a].commit == 1 && s'.nodes[a].commit == 0
            && s'.nodes[a].log == s.nodes[a].log && |s.nodes[a].log| == 1
  {
    hide Run, Inv, Seen, Apply, LogsMatch, AckedIn, AppendEntries, MakeAppendEntries;
    var m;
    states, steps, m := LossRun(ids, a, c);
    var s := states[|steps|];
    RunExtend(ids, states, steps, Replicate(c, a, true));
    FollowerState(s, c, a, true);
    var s' := Apply(s, Replicate(c, a, true));
    var h := RunHistory(ids, states, steps);
    var h0 := SeenStage(s, h);
    LeaderFacts(s, h0, c, a);
    EmptyRound(s.nodes[c], s.nodes[a]);
    states, steps := states + [s'], steps + [Replicate(c, a, true)];
  }

  lemma EmptyRound(l: Node, f: Node)
    requires l.log == [] && l.commit == 0 && l.term > f.term
    requires forall e :: e in MakeAppendEntries(l, f.id).entries ==> e.index > 0
    ensures NextIndex(l, f.id) <= 1 ==> AppendEntries(f, MakeAppendEntries(l, f.id)).0.commit == 0
    ensures NextIndex(l, f.id) <= 1 ==> AppendEntries(f, MakeAppendEntries(l, f.id)).0.log == f.log
  {
  }
}
