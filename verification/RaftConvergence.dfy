/** A leader left alone with one follower brings it up to date. */
module RaftConvergence {
  import opened RaftNode
  import opened RaftCluster
  import opened RaftHistory
  import opened RaftInvariance
  import opened RaftSafety

  /** What the cluster invariant gives of a leader and a follower no newer than it. */
  ghost predicate Ready(l: Node, f: Node) {
    && l.role.Leader? && f.term <= l.term
    && Indexed(l.log) && Indexed(f.log) && LogsMatch(l.log, f.log)
    && NextIndex(l, f.id) <= |l.log| + 1
  }

  ghost function Reply(l: Node, f: Node): (r: (Node, AppendResponse))
    requires Ready(l, f)
  {
    AppendOutcome(l, f.id, f);
    AppendEntries(f, MakeAppendEntries(l, f.id))
  }

  /** One make / append / observe round between the two. */
  ghost function Round(l: Node, f: Node, clusterSize: nat): (r: (Node, Node))
    requires Ready(l, f)
    ensures Ready(r.0, r.1) && r.0.log == l.log && r.1.id == f.id
  {
    AppendOutcome(l, f.id, f);
    var (f', resp) := Reply(l, f);
    IndexedLast(l.log);
    MatchKept(l.log, f.log, f'.log);
    (ObserveAppendResponse(l, f.id, resp, clusterSize), f')
  }

  lemma MatchKept(l: seq<Entry>, f: seq<Entry>, f': seq<Entry>)
    requires LogsMatch(l, f) && (f' == f || f' == l)
    ensures LogsMatch(l, f')
  {
  }

  /** The two nodes after `k` rounds. */
  ghost function After(l: Node, f: Node, clusterSize: nat, k: nat): (r: (Node, Node))
    requires Ready(l, f)
    ensures Ready(r.0, r.1) && r.0.log == l.log && r.1.id == f.id
    decreases k
  {
    if k == 0 then (l, f)
    else
      var (l', f') := Round(l, f, clusterSize);
      After(l', f', clusterSize, k - 1)
  }

  /** Enough rounds: the follower's next index, or two for a follower that was never configured. */
  function RoundBound(l: Node, f: NodeId): (r: nat)
    ensures r > 0
  {
    if f in l.next then (if l.next[f] <= 1 then 1 else l.next[f]) else 2
  }

  /** The first `r - 1` rounds fail and leave the follower's log alone, the `r`th succeeds. */
  ghost predicate FirstSuccess(l: Node, f: Node, clusterSize: nat, r: nat)
    requires Ready(l, f) && r > 0
  {
    && (forall j :: 0 <= j < r - 1 ==>
                      var (lj, fj) := After(l, f, clusterSize, j);
                      !Reply(lj, fj).1.success && fj.log == f.log)
    && var (l0, f0) := After(l, f, clusterSize, r - 1);
       Reply(l0, f0).1.success && f0.log == f.log
  }

  lemma FailedRound(l: Node, f: Node, clusterSize: nat)
    requires Ready(l, f) && !Reply(l, f).1.success
    ensures RoundBound(l, f.id) > 1
    ensures var (l', f') := Round(l, f, clusterSize);
            RoundBound(l', f.id) < RoundBound(l, f.id) && f'.log == f.log
  {
    AppendOutcome(l, f.id, f);
    hide Indexed, LogsMatch, Splice, EntriesFrom;
  }

  lemma AfterShift(l: Node, f: Node, clusterSize: nat, k: nat)
    requires Ready(l, f)
    ensures var (l', f') := Round(l, f, clusterSize);
            After(l, f, clusterSize, k + 1) == After(l', f', clusterSize, k)
  {
  }

  lemma FirstSuccessShift(l: Node, f: Node, clusterSize: nat, r: nat)
    requires Ready(l, f) && !Reply(l, f).1.success && r > 0
    requires var (l', f') := Round(l, f, clusterSize);
             f'.log == f.log && FirstSuccess(l', f', clusterSize, r)
    ensures FirstSuccess(l, f, clusterSize, r + 1)
  {
    hide Ready, Round, Reply;
    var (l', f') := Round(l, f, clusterSize);
    forall j | 0 <= j < r
      ensures var (lj, fj) := After(l, f, clusterSize, j);
              !Reply(lj, fj).1.success && fj.log == f.log
    {
      if j > 0 {
        AfterShift(l, f, clusterSize, j - 1);
        assert !Reply(After(l', f', clusterSize, j - 1).0, After(l', f', clusterSize, j - 1).1).1.success;
      }
    }
    AfterShift(l, f, clusterSize, r - 1);
  }

  /** The state after a successful round, started from leader `l0`. */
  ghost predicate CaughtUp(l0: Node, l1: Node, f1: Node) {
    && l0.log <= f1.log
    && (MakeAppendEntries(l0, f1.id).entries != [] ==> f1.log == l0.log)
    && f1.term == l0.term
    && f1.id in l1.matched && l1.matched[f1.id] == |l0.log|
    && f1.id in l1.next && l1.next[f1.id] == |l0.log| + 1
  }

  lemma SuccessfulRound(l: Node, f: Node, clusterSize: nat)
    requires Ready(l, f) && Reply(l, f).1.success
    ensures var (l1, f1) := Round(l, f, clusterSize);
            CaughtUp(l, l1, f1)
  {
    AppendOutcome(l, f.id, f);
    IndexedLast(l.log);
    hide Indexed, LogsMatch, Splice, EntriesFrom;
  }

  /** Convergence: within the bound some round succeeds, for the first time, and
      from then the leader's log is a prefix of the follower's - equal to it when that
      round sent entries - and the leader records exactly that. */
  lemma {:induction false} Converges(l: Node, f: Node, clusterSize: nat) returns (r: nat)
    requires Ready(l, f)
    ensures 0 < r <= RoundBound(l, f.id) && FirstSuccess(l, f, clusterSize, r)
    ensures var (l0, f0) := After(l, f, clusterSize, r - 1);
            var (l1, f1) := After(l, f, clusterSize, r);
            (l1, f1) == Round(l0, f0, clusterSize) && l0.log == l.log && CaughtUp(l0, l1, f1)
    decreases RoundBound(l, f.id)
  {
    hide Ready, Round, Reply, RoundBound, CaughtUp;
    if Reply(l, f).1.success {
      r := 1;
      SuccessfulRound(l, f, clusterSize);
      AfterShift(l, f, clusterSize, 0);
    } else {
      FailedRound(l, f, clusterSize);
      var (l', f') := Round(l, f, clusterSize);
      var r' := Converges(l', f', clusterSize);
      r := r' + 1;
      FirstSuccessShift(l, f, clusterSize, r');
      AfterShift(l, f, clusterSize, r' - 1);
      AfterShift(l, f, clusterSize, r');
    }
  }

  /** In every run, a leader and any follower not ahead of its term are ready for this. */
  lemma ReadyInEveryRun(ids: set<NodeId>, states: seq<Cluster>, steps: seq<Step>, i: nat, l: NodeId, f: NodeId)
    requires Run(ids, states, steps) && i < |states|
    requires l in states[i].nodes && f in states[i].nodes && states[i].nodes[l].role.Leader?
    requires states[i].nodes[f].term <= states[i].nodes[l].term
    ensures Ready(states[i].nodes[l], states[i].nodes[f])
  {
    hide Run, Inv, Extends, LogsMatch;
    var h := RunHistory(ids, states, steps);
    assert Seen(states[i], h);
    var h0 :| Inv(states[i], h0) && Extends(h0, h);
    InvParts(states[i], h0);
    LeaderFacts(states[i], h0, l, f);
  }
}
