/** What the replication indexes and the two ways of moving the commit index are worth. */
module RaftCommit {
  import opened Common
  import opened RaftNode
  import opened RaftCluster
  import opened RaftHistory
  import opened RaftInvariance
  import opened RaftSafety

  lemma {:induction false} RunPrefix(ids: set<NodeId>, states: seq<Cluster>, steps: seq<Step>, m: nat)
    requires Run(ids, states, steps) && m <= |steps|
    ensures Run(ids, states[..m + 1], steps[..m])
  {
    hide Apply, WellFormed, Enabled;
    forall i | 0 <= i < m
      ensures WellFormed(states[..m + 1][i]) && Enabled(states[..m + 1][i], steps[..m][i])
      ensures states[..m + 1][i + 1] == Apply(states[..m + 1][i], steps[..m][i])
    {
    }
  }

  lemma RunStep(ids: set<NodeId>, states: seq<Cluster>, steps: seq<Step>, i: nat)
    requires Run(ids, states, steps) && i < |steps|
    ensures |states| == |steps| + 1 && WellFormed(states[i]) && Enabled(states[i], steps[i])
    ensures states[i + 1] == Apply(states[i], steps[i])
  {
    hide Apply, WellFormed, Enabled;
  }

  lemma StoredLonger(ids: set<NodeId>, states: seq<Cluster>, m: nat, t: nat, k: nat)
    requires m <= |states| && Stored(ids, states[..m], t, k)
    ensures Stored(ids, states, t, k)
  {
    var q :| StoredOn(ids, states[..m], t, k, q);
    forall v | v in q
      ensures AckedIn(states, v, t, k)
    {
      assert AckedIn(states[..m], v, t, k);
      var i :| 0 <= i < |states[..m]| && v in states[..m][i].nodes
               && states[..m][i].nodes[v].term == t && Has(states[..m][i].nodes[v].log, t, k);
      assert states[..m][i] == states[i];
    }
    assert StoredOn(ids, states, t, k, q);
  }

  // ---------------------------------------------------------------- match indexes

  lemma MatchFact(s: Cluster, h: History, l: NodeId, p: NodeId)
    requires Inv(s, h) && l in s.nodes && s.nodes[l].role.Leader? && p in s.nodes[l].matched
    ensures MatchOk(s.nodes, h.acks, l, p, s.nodes[l].matched[p])
  {
    hide WellFormed, LogsInv, TermLogInv, LeadersInv, BallotsInv, FreshInv, CountInv, RequestsInv, ElectionsInv,
      AcksInv, VotesInv, MatchOk;
  }

  /** In every state of every run, a peer still in the leader's term holds the
      leader's log up to the leader's match index for it. */
  lemma MatchIndexSound(ids: set<NodeId>, states: seq<Cluster>, steps: seq<Step>, i: nat, l: NodeId, p: NodeId)
    requires Run(ids, states, steps) && i < |states|
    requires l in states[i].nodes && states[i].nodes[l].role.Leader? && p in states[i].nodes[l].matched
    requires p in states[i].nodes && states[i].nodes[p].term == states[i].nodes[l].term
    ensures var m := states[i].nodes[l].matched[p];
            && m <= |states[i].nodes[l].log| && m <= |states[i].nodes[p].log|
            && states[i].nodes[p].log[..m] == states[i].nodes[l].log[..m]
  {
    hide Run, Inv, Extends;
    var h := RunHistory(ids, states, steps);
    assert Seen(states[i], h);
    var h0 :| Inv(states[i], h0) && Extends(h0, h);
    MatchFact(states[i], h0, l, p);
  }

  // ---------------------------------------------------------------- the commit loop

  /** The last step of a run is a heard replication round that moves the leader's commit index up. */
  ghost predicate CommitsByReplication(states: seq<Cluster>, steps: seq<Step>, l: NodeId) {
    && |steps| > 0 && |states| == |steps| + 1
    && steps[|steps| - 1].Replicate? && steps[|steps| - 1].heard && steps[|steps| - 1].leader == l
    && l in states[|steps| - 1].nodes && l in states[|steps|].nodes
    && states[|steps|].nodes[l].commit > states[|steps| - 1].nodes[l].commit
  }

  /** A reply that raises the commit index leaves the leader leading, and the
      recorded matches of a majority reach the new index, in the leader's term. */
  lemma ReplyCommit(n: Node, f: NodeId, resp: AppendResponse, clusterSize: nat)
    requires Indexed(n.log) && n.role.Leader?
    requires ObserveAppendResponse(n, f, resp, clusterSize).commit > n.commit
    ensures var n' := ObserveAppendResponse(n, f, resp, clusterSize);
            && n'.role.Leader? && n'.term == n.term
            && 0 < n'.commit <= |n'.log| && n'.log[n'.commit - 1].term == n'.term
            && 1 + |Replicas(n'.matched, n'.commit)| > clusterSize / 2
  {
    hide Replicas;
    IndexedLast(n.log);
  }

  lemma RoundCommit(s: Cluster, l: NodeId, f: NodeId)
    requires WellFormed(s) && Enabled(s, Replicate(l, f, true))
    requires Apply(s, Replicate(l, f, true)).nodes[l].commit > s.nodes[l].commit
    ensures var n := Apply(s, Replicate(l, f, true)).nodes[l];
            && n.role.Leader? && n.term == s.nodes[l].term
            && 0 < n.commit <= |n.log| && n.log[n.commit - 1].term == n.term
            && 1 + |Replicas(n.matched, n.commit)| > Size(s) / 2
  {
    var leader := s.nodes[l];
    SentEntries(leader, f);
    hide Indexed, Splice, ObserveAppendResponse, Replicas, MakeAppendEntries;
    var resp := AppendEntries(s.nodes[f], MakeAppendEntries(leader, f)).1;
    ReplyCommit(leader, f, resp, Size(s));
  }

  lemma ReplicasAcked(s: Cluster, h: History, l: NodeId, c: nat)
    requires WellFormed(s) && Inv(s, h) && l in s.nodes && s.nodes[l].role.Leader?
    requires 0 < c <= |s.nodes[l].log| && s.nodes[l].log[c - 1].term == s.nodes[l].term
    ensures var q := {l} + Replicas(s.nodes[l].matched, c);
            && q <= s.nodes.Keys && AckedBy(h, q, s.nodes[l].term, c - 1)
            && |q| == 1 + |Replicas(s.nodes[l].matched, c)|
  {
    hide Inv, Indexed, WellFormed;
    var n := s.nodes[l];
    forall p | p in Replicas(n.matched, c)
      ensures p in s.nodes && p != l && (p, n.term, c - 1) in h.acks
    {
      MatchFact(s, h, l, p);
    }
    OwnAck(s, h, l, c - 1);
  }

  lemma OwnAck(s: Cluster, h: History, l: NodeId, k: nat)
    requires Inv(s, h) && l in s.nodes && Has(s.nodes[l].log, s.nodes[l].term, k)
    ensures (l, s.nodes[l].term, k) in h.acks
  {
    hide WellFormed, LogsInv, TermLogInv, LeadersInv, BallotsInv, FreshInv, CountInv, RequestsInv, ElectionsInv,
      VotesInv, MatchInv, Lost;
    assert (l, s.nodes[l].term, k) in AcksOf(l, s.nodes[l]);
  }

  /** Whatever the commit loop commits is, at that moment, stored on a majority. */
  lemma CommitLoopStores(ids: set<NodeId>, states: seq<Cluster>, steps: seq<Step>, l: NodeId)
    requires Run(ids, states, steps) && CommitsByReplication(states, steps, l)
    ensures var n := states[|steps|].nodes[l];
            && 0 < n.commit <= |n.log| && n.log[n.commit - 1].term == n.term
            && Stored(ids, states, n.term, n.commit - 1)
  {
    hide Run, Inv, Apply, Replicas, WellFormed, Enabled, Has, StoredOn, AckedIn, AckedBy, Seen;
    var last := |steps| - 1;
    RunStep(ids, states, steps, last);
    RoundCommit(states[last], l, steps[last].follower);
    var h := RunHistory(ids, states, steps);
    var s := states[|steps|];
    var n := s.nodes[l];
    LastState(s, h);
    ReplicasAcked(s, h, l, n.commit);
    var q := {l} + Replicas(n.matched, n.commit);
    SizeSame(states[last], s);
    assert |s.nodes.Keys| == |ids|;
    AckedStored(ids, states, h, n.term, n.commit - 1, q);
  }

  lemma LastState(s: Cluster, h: History)
    requires Inv(s, h)
    ensures WellFormed(s)
  {
    InvParts(s, h);
  }

  lemma AckedStored(ids: set<NodeId>, states: seq<Cluster>, h: History, t: nat, k: nat, q: set<NodeId>)
    requires q <= ids && |q| > |ids| / 2 && AckedBy(h, q, t, k)
    requires forall v, t, k :: (v, t, k) in h.acks ==> AckedIn(states, v, t, k)
    ensures Stored(ids, states, t, k)
  {
    hide AckedIn;
    assert StoredOn(ids, states, t, k, q);
  }

  /** So an index committed by replication at any step stays: every leader of a
      later term, at any moment of the run, holds the committed log prefix. */
  lemma CommitLoopSafe(ids: set<NodeId>, states: seq<Cluster>, steps: seq<Step>, m: nat, l: NodeId, i: nat,
                       leader: NodeId)
    requires Run(ids, states, steps) && m < |steps|
    requires CommitsByReplication(states[..m + 2], steps[..m + 1], l)
    requires i < |states| && leader in states[i].nodes && states[i].nodes[leader].role.Leader?
    requires states[i].nodes[leader].term > states[m + 1].nodes[l].term
    ensures var n := states[m + 1].nodes[l];
            && n.commit <= |n.log| && n.commit <= |states[i].nodes[leader].log|
            && states[i].nodes[leader].log[..n.commit] == n.log[..n.commit]
  {
    hide Run, Stored, Apply;
    RunStep(ids, states, steps, m);
    RunPrefix(ids, states, steps, m + 1);
    CommitLoopStores(ids, states[..m + 2], steps[..m + 1], l);
    var n := states[m + 1].nodes[l];
    assert states[..m + 2][m + 1] == states[m + 1];
    StoredLonger(ids, states, m + 2, n.term, n.commit - 1);
    LeaderCompleteness(ids, states, steps, n.term, n.commit - 1, i, leader, m + 1, l);
  }

  // ------------------------------------------------------- the client-append commit

  /** A follower takes over its leader's commit index, which may be lower than its own, and
      agrees with the leader on everything below it; a refusing follower keeps its own. */
  lemma FollowerAdoptsCommit(ids: set<NodeId>, states: seq<Cluster>, steps: seq<Step>, i: nat, l: NodeId, f: NodeId,
                             heard: bool)
    requires Run(ids, states, steps) && i < |steps| && steps[i] == Replicate(l, f, heard)
    requires l in states[i].nodes && f in states[i].nodes && f in states[i + 1].nodes
    ensures var leader, before, after := states[i].nodes[l], states[i].nodes[f], states[i + 1].nodes[f];
            var accepts := leader.term >= before.term && PrevMatches(before.log, MakeAppendEntries(leader, f));
            && (accepts ==> after.commit == leader.commit <= |leader.log| && leader.log <= after.log)
            && (!accepts ==> after.commit == before.commit && after.log == before.log)
            && (after.commit < before.commit <==> accepts && leader.commit < before.commit)
  {
    hide Run, Inv, Apply, WellFormed, Enabled, Seen, Has, AckedIn;
    RunStep(ids, states, steps, i);
    var h := RunHistory(ids, states, steps);
    var h0 := SeenStage(states[i], h);
    ReplicateOnFollower(states[i], h0, l, f, heard);
  }

  lemma SeenStage(s: Cluster, h: History) returns (h0: History)
    requires Seen(s, h)
    ensures Inv(s, h0)
  {
    hide Inv, Extends;
    h0 :| Inv(s, h0) && Extends(h0, h);
  }

  lemma ReplicateOnFollower(s: Cluster, h: History, l: NodeId, f: NodeId, heard: bool)
    requires WellFormed(s) && Enabled(s, Replicate(l, f, heard)) && Inv(s, h)
    ensures f in Apply(s, Replicate(l, f, heard)).nodes
    ensures var leader, before, after := s.nodes[l], s.nodes[f], Apply(s, Replicate(l, f, heard)).nodes[f];
            var accepts := leader.term >= before.term && PrevMatches(before.log, MakeAppendEntries(leader, f));
            && (accepts ==> after.commit == leader.commit <= |leader.log| && leader.log <= after.log)
            && (!accepts ==> after.commit == before.commit && after.log == before.log)
  {
    hide Inv, Apply, LogsMatch, AppendEntries, MakeAppendEntries, PrevMatches;
    LeaderFacts(s, h, l, f);
    AppendCommit(s.nodes[l], f, s.nodes[f]);
    FollowerState(s, l, f, heard);
  }

  lemma FollowerState(s: Cluster, l: NodeId, f: NodeId, heard: bool)
    requires WellFormed(s) && Enabled(s, Replicate(l, f, heard))
    ensures forall e :: e in MakeAppendEntries(s.nodes[l], f).entries ==> e.index > 0
    ensures f in Apply(s, Replicate(l, f, heard)).nodes
    ensures Apply(s, Replicate(l, f, heard)).nodes[f] == AppendEntries(s.nodes[f], MakeAppendEntries(s.nodes[l], f)).0
  {
    SentEntries(s.nodes[l], f);
    AcceptedLog(s.nodes[f], MakeAppendEntries(s.nodes[l], f), s.nodes[l].log);
    hide Indexed, AppendEntries, MakeAppendEntries, ObserveAppendResponse;
  }

  lemma AppendCommit(leader: Node, f: NodeId, n: Node)
    requires Indexed(leader.log) && Indexed(n.log) && LogsMatch(leader.log, n.log)
    requires NextIndex(leader, f) <= |leader.log| + 1 && leader.commit <= |leader.log|
    ensures forall e :: e in MakeAppendEntries(leader, f).entries ==> e.index > 0
    ensures var n' := AppendEntries(n, MakeAppendEntries(leader, f)).0;
            if leader.term >= n.term && PrevMatches(n.log, MakeAppendEntries(leader, f))
            then n'.commit == leader.commit && leader.log <= n'.log
            else n'.commit == n.commit && n'.log == n.log
  {
    AppendOutcome(leader, f, n);
    IndexedLast(AppendEntries(n, MakeAppendEntries(leader, f)).0.log);
    hide Indexed, LogsMatch, Splice, EntriesFrom, LastIndex;
  }

  // ------------------------------------------------------------------------- progress

  /** A success that completes a strict majority for an entry of the leader's term commits it. */
  lemma MajorityCommits(n: Node, follower: NodeId, resp: AppendResponse, clusterSize: nat, index: nat,
                        holders: set<NodeId>)
    requires Indexed(n.log) && n.role.Leader? && resp.term <= n.term && resp.success
    requires 0 < index <= |n.log| && n.log[index - 1].term == n.term
    requires forall p :: p in holders ==> p == follower || (p in n.matched && n.matched[p] >= index)
    requires 2 * (1 + |holders|) > clusterSize
    ensures ObserveAppendResponse(n, follower, resp, clusterSize).commit >= index
  {
    var last := LastIndex(n.log);
    var m := n.(matched := n.matched[follower := last], next := n.next[follower := last + 1]);
    IndexedLast(n.log);
    SubsetCard(holders, Replicas(m.matched, index));
    assert n.commit < index ==> Committable(m, index, clusterSize);
  }
}
