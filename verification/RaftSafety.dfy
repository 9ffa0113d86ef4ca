/** Safety of every run: election safety, log matching, leader completeness and
    agreement on stored entries. */
module RaftSafety {
  import opened Common
  import opened RaftNode
  import opened RaftCluster
  import opened RaftHistory
  import opened RaftInvariance

  /** At some moment of the run, node `q` was in term `t` and held an entry of term `t` at position `k`. */
  ghost predicate AckedIn(states: seq<Cluster>, q: NodeId, t: nat, k: nat) {
    exists i :: 0 <= i < |states| && q in states[i].nodes
                && states[i].nodes[q].term == t && Has(states[i].nodes[q].log, t, k)
  }

  /** A strict majority acknowledged the entry, each member at a moment of its own. */
  ghost predicate Stored(ids: set<NodeId>, states: seq<Cluster>, t: nat, k: nat) {
    exists q: set<NodeId> :: StoredOn(ids, states, t, k, q)
  }

  ghost predicate StoredOn(ids: set<NodeId>, states: seq<Cluster>, t: nat, k: nat, q: set<NodeId>) {
    q <= ids && |q| > |ids| / 2 && forall v :: v in q ==> AckedIn(states, v, t, k)
  }

  /** A state that some stage of history `h` explains. */
  ghost predicate Seen(s: Cluster, h: History) {
    exists h0 :: Inv(s, h0) && Extends(h0, h)
  }

  /** The history of a run: it explains every state, and holds no invented acknowledgement. */
  lemma {:induction false} RunHistory(ids: set<NodeId>, states: seq<Cluster>, steps: seq<Step>) returns (h: History)
    requires Run(ids, states, steps)
    ensures |states| == |steps| + 1 && Inv(states[|states| - 1], h)
    ensures forall i :: 0 <= i < |states| ==> Seen(states[i], h) && states[i].nodes.Keys == ids
    ensures forall v, t, k :: (v, t, k) in h.acks ==> AckedIn(states, v, t, k)
    decreases |steps|
  {
    hide Inv, Extends, Apply, AcksOf, WellFormed;
    if steps == [] {
      h := NoHistory;
      InitInv(ids);
      ExtendsReflexive(h);
      assert Seen(states[0], h);
    } else {
      var last := |steps| - 1;
      var h0 := RunHistory(ids, states[..|steps|], steps[..last]);
      h := StepKeeps(states[last], h0, steps[last]);
      ExtendsReflexive(h);
      forall i | 0 <= i < |states|
        ensures Seen(states[i], h) && states[i].nodes.Keys == ids
      {
        if i < |steps| {
          var h1 :| Inv(states[..|steps|][i], h1) && Extends(h1, h0);
          ExtendsTransitive(h1, h0, h);
        }
      }
      forall v, t, k | (v, t, k) in h.acks
        ensures AckedIn(states, v, t, k)
      {
        if (v, t, k) in h0.acks {
          AckedLonger(states, v, t, k);
        } else {
          var i :| i in states[|steps|].nodes && (v, t, k) in AcksOf(i, states[|steps|].nodes[i]);
          AckWitness(states, i, v, t, k);
        }
      }
    }
  }

  lemma AckedLonger(states: seq<Cluster>, v: NodeId, t: nat, k: nat)
    requires |states| > 0 && AckedIn(states[..|states| - 1], v, t, k)
    ensures AckedIn(states, v, t, k)
  {
    var s := states[..|states| - 1];
    var i :| 0 <= i < |s| && v in s[i].nodes && s[i].nodes[v].term == t && Has(s[i].nodes[v].log, t, k);
    assert s[i] == states[i];
  }

  lemma AckWitness(states: seq<Cluster>, i: NodeId, v: NodeId, t: nat, k: nat)
    requires |states| > 0 && i in states[|states| - 1].nodes
    requires (v, t, k) in AcksOf(i, states[|states| - 1].nodes[i])
    ensures AckedIn(states, v, t, k)
  {
    var s := states[|states| - 1];
    assert v in s.nodes && s.nodes[v].term == t && Has(s.nodes[v].log, t, k);
  }

  // ------------------------------------------------------- what a seen state tells

  lemma SeenNode(s: Cluster, h: History, i: NodeId)
    requires Seen(s, h) && i in s.nodes
    ensures Indexed(s.nodes[i].log) && Sorted(s.nodes[i].log) && TermsUpTo(s.nodes[i].log, s.nodes[i].term)
    ensures Canonical(s.nodes[i].log, h.termLog)
    ensures s.nodes[i].commit <= |s.nodes[i].log|
    ensures AcksOf(i, s.nodes[i]) <= h.acks
  {
    var h0 :| Inv(s, h0) && Extends(h0, h);
    hide TermLogInv, LeadersInv, BallotsInv, FreshInv, CountInv, RequestsInv, ElectionsInv, VotesInv, MatchInv,
      Extends, Canonical, Indexed, Sorted, TermsUpTo, AcksOf, Lost;
    NodeLog(s.nodes, h0, i);
    CanonicalExtends(s.nodes[i].log, h0, h);
    AcksGrow(h0, h);
  }

  lemma AcksGrow(h: History, h': History)
    requires Extends(h, h')
    ensures h.acks <= h'.acks
  {
  }

  lemma SeenLeader(s: Cluster, h: History, l: NodeId)
    requires Seen(s, h) && l in s.nodes && s.nodes[l].role.Leader?
    ensures s.nodes[l].term in h.elections && h.elections[s.nodes[l].term].leader == l
    ensures h.elections[s.nodes[l].term].log <= s.nodes[l].log
  {
    var h0 :| Inv(s, h0) && Extends(h0, h);
    hide LogsInv, BallotsInv, FreshInv, CountInv, RequestsInv, ElectionsInv, AcksInv, VotesInv, MatchInv, WellFormed;
    LeaderOfTerm(s.nodes, h0, l);
  }

  // -------------------------------------------------------------- election safety

  /** No two nodes ever lead the same term, at whatever moments of the run. */
  lemma ElectionSafety(ids: set<NodeId>, states: seq<Cluster>, steps: seq<Step>, i: nat, a: NodeId, j: nat, b: NodeId)
    requires Run(ids, states, steps) && i < |states| && j < |states|
    requires a in states[i].nodes && states[i].nodes[a].role.Leader?
    requires b in states[j].nodes && states[j].nodes[b].role.Leader?
    requires states[i].nodes[a].term == states[j].nodes[b].term
    ensures a == b
  {
    hide Run, Seen, Inv;
    var h := RunHistory(ids, states, steps);
    SeenLeader(states[i], h, a);
    SeenLeader(states[j], h, b);
  }

  // ----------------------------------------------------------------- log matching

  /** Logs are well formed in every state, and any two logs of a run - of any two
      nodes, at any two moments - that agree on the term of a position agree on
      everything up to it. */
  lemma LogMatching(ids: set<NodeId>, states: seq<Cluster>, steps: seq<Step>, i: nat, a: NodeId, j: nat, b: NodeId)
    requires Run(ids, states, steps) && i < |states| && j < |states|
    requires a in states[i].nodes && b in states[j].nodes
    ensures LogsMatch(states[i].nodes[a].log, states[j].nodes[b].log)
    ensures var n := states[i].nodes[a];
            Indexed(n.log) && Sorted(n.log) && TermsUpTo(n.log, n.term) && n.commit <= |n.log|
  {
    hide Run, Seen, Inv, Canonical, LogsMatch, Indexed, Sorted, TermsUpTo;
    var h := RunHistory(ids, states, steps);
    SeenNode(states[i], h, a);
    SeenNode(states[j], h, b);
    CanonicalLogsMatch(states[i].nodes[a].log, states[j].nodes[b].log, h.termLog);
  }

  // ----------------------------------------------------------- leader completeness

  ghost predicate AckedBy(h: History, q: set<NodeId>, t: nat, k: nat) {
    forall v :: v in q ==> (v, t, k) in h.acks
  }

  /** A log at least as fresh as one that has the entry has it too, if every
      leader elected in between had it. */
  lemma FresherHas(h: History, a: seq<Entry>, b: seq<Entry>, t: nat, k: nat, u: nat)
    requires TermLogInv(h) && LogOk(a, h.termLog) && LogOk(b, h.termLog)
    requires forall w :: w in h.termLog ==> Sorted(h.termLog[w])
    requires FreshLog(a, b) && Has(b, t, k)
    requires forall i :: 0 <= i < |a| ==> a[i].term < u
    requires forall w :: w in h.elections && t < w < u ==> Has(h.elections[w].log, t, k)
    ensures Has(a, t, k)
  {
    var lb := b[|b| - 1].term;
    assert t <= lb;
    assert lb in h.termLog && lb > 0;
    assert a != [];
    var la := a[|a| - 1].term;
    assert a[..|a|] == a && b[..|b|] == b;
    assert a == h.termLog[la][..|a|];
    if la == lb {
      assert b == h.termLog[lb][..|b|];
      assert a[k] == b[k];
    } else {
      assert Has(h.elections[la].log, t, k);
      assert h.termLog[la][k].term == t;
      assert h.termLog[la][|a| - 1].term == la;
      assert k < |a|;
    }
  }

  /** The set has a member in common with every majority. */
  ghost predicate Blocks(ids: set<NodeId>, q: set<NodeId>) {
    forall m: set<NodeId> :: m <= ids && |m| > |ids| / 2 ==> m * q != {}
  }

  lemma MajorityBlocks(ids: set<NodeId>, q: set<NodeId>)
    requires q <= ids && |q| > |ids| / 2
    ensures Blocks(ids, q)
  {
    forall m: set<NodeId> | m <= ids && |m| > |ids| / 2
      ensures m * q != {}
    {
      if m * q == {} {
        assert |m + q| == |m| + |q|;
        SubsetCard(m + q, ids);
        assert false;
      }
    }
  }

  /** Every leader of a later term was elected with an entry that a blocking set
      acknowledged, by induction over the elections in between. */
  lemma {:induction false} ElectedWith(s: Cluster, h: History, q: set<NodeId>, t: nat, k: nat, u: nat)
    requires Inv(s, h) && Blocks(s.nodes.Keys, q) && AckedBy(h, q, t, k)
    requires u in h.elections && t < u
    ensures Has(h.elections[u].log, t, k)
    decreases u
  {
    hide Blocks;
    ElectionFacts(s, h, u);
    forall w | w in h.elections && t < w < u
      ensures Has(h.elections[w].log, t, k)
    {
      ElectedWith(s, h, q, t, k, w);
    }
    var v := Blocker(s.nodes, q, h.elections[u].quorum);
    hide Inv, FreshLog, LogOk, TermLogInv, Sorted, Majority;
    FresherHas(h, h.elections[u].log, h.ballots[(u, v)].log, t, k, u);
  }

  lemma Blocker(ns: Nodes, q: set<NodeId>, m: set<NodeId>) returns (v: NodeId)
    requires Blocks(ns.Keys, q) && Majority(ns, m)
    ensures v in q && v in m
  {
    assert |ns.Keys| == |ns|;
    assert m * q != {};
    v :| v in m * q;
  }

  /** What the invariant says of one election. */
  lemma ElectionFacts(s: Cluster, h: History, u: nat)
    requires Inv(s, h) && u in h.elections
    ensures Majority(s.nodes, h.elections[u].quorum)
    ensures TermLogInv(h) && VotesInv(h)
    ensures forall w :: w in h.termLog ==> Sorted(h.termLog[w])
    ensures LogOk(h.elections[u].log, h.termLog)
    ensures forall i :: 0 <= i < |h.elections[u].log| ==> h.elections[u].log[i].term < u
    ensures forall v :: v in h.elections[u].quorum ==>
                          && (u, v) in h.ballots && LogOk(h.ballots[(u, v)].log, h.termLog)
                          && FreshLog(h.elections[u].log, h.ballots[(u, v)].log)
  {
    hide WellFormed, LeadersInv, BallotsInv, FreshInv, CountInv, RequestsInv, AcksInv, VotesInv, MatchInv,
      Majority, FreshLog, Canonical, Indexed;
    assert LogOk(h.termLog[u], h.termLog);
    var full, won := h.termLog[u], h.elections[u].log;
    assert won == full[..|won|];
    PrefixLogOk(full, |won|, h.termLog);
  }

  lemma PrefixLogOk(log: seq<Entry>, m: nat, termLog: map<nat, seq<Entry>>)
    requires LogOk(log, termLog) && m <= |log|
    ensures LogOk(log[..m], termLog)
  {
    var p := log[..m];
    forall k | 0 <= k < |p|
      ensures p[k].term in termLog && k < |termLog[p[k].term]| && p[..k + 1] == termLog[p[k].term][..k + 1]
    {
      assert p[..k + 1] == log[..k + 1];
    }
  }

  ghost predicate AllAcked(states: seq<Cluster>, q: set<NodeId>, t: nat, k: nat) {
    forall v :: v in q ==> AckedIn(states, v, t, k)
  }

  /** Acknowledgements seen in a run are in its history. */
  lemma AcksRecorded(states: seq<Cluster>, h: History, q: set<NodeId>, t: nat, k: nat)
    requires AllAcked(states, q, t, k)
    requires forall i :: 0 <= i < |states| ==> Seen(states[i], h)
    ensures AckedBy(h, q, t, k)
  {
    hide Seen;
    forall v | v in q
      ensures (v, t, k) in h.acks
    {
      assert AckedIn(states, v, t, k);
      var i :| 0 <= i < |states| && v in states[i].nodes
               && states[i].nodes[v].term == t && Has(states[i].nodes[v].log, t, k);
      SeenNode(states[i], h, v);
      assert (v, t, k) in AcksOf(v, states[i].nodes[v]);
    }
  }

  lemma StoredBlocks(ids: set<NodeId>, states: seq<Cluster>, t: nat, k: nat) returns (q: set<NodeId>)
    requires Stored(ids, states, t, k)
    ensures Blocks(ids, q) && AllAcked(states, q, t, k)
  {
    hide AckedIn;
    q :| StoredOn(ids, states, t, k, q);
    MajorityBlocks(ids, q);
  }

  /** Two positions with the same term carry the same prefix, across the run. */
  lemma SamePrefix(a: seq<Entry>, b: seq<Entry>, termLog: map<nat, seq<Entry>>, t: nat, k: nat)
    requires Canonical(a, termLog) && Canonical(b, termLog) && Has(a, t, k) && Has(b, t, k)
    ensures a[..k + 1] == b[..k + 1]
  {
  }

  /** Leader completeness in its general form: once a set that meets every majority has
      acknowledged an entry of term `t` in term `t`, every leader of a later term - seen
      at any moment of the run - holds that entry, and everything before it, at the same
      positions. */
  lemma BlockingCompleteness(ids: set<NodeId>, states: seq<Cluster>, steps: seq<Step>, q: set<NodeId>, t: nat, k: nat,
                             i: nat, leader: NodeId, j: nat, holder: NodeId)
    requires Run(ids, states, steps) && i < |states| && j < |states|
    requires Blocks(ids, q) && AllAcked(states, q, t, k)
    requires leader in states[i].nodes && states[i].nodes[leader].role.Leader? && states[i].nodes[leader].term > t
    requires holder in states[j].nodes && Has(states[j].nodes[holder].log, t, k)
    ensures Has(states[i].nodes[leader].log, t, k)
    ensures states[i].nodes[leader].log[..k + 1] == states[j].nodes[holder].log[..k + 1]
  {
    hide Run, Seen, Inv, Blocks, AllAcked, AckedBy, Canonical, Indexed, Sorted, TermsUpTo, AcksOf;
    var h := RunHistory(ids, states, steps);
    AcksRecorded(states, h, q, t, k);
    var s := states[|states| - 1];
    SeenLeader(states[i], h, leader);
    ElectedWith(s, h, q, t, k, states[i].nodes[leader].term);
    HasLonger(h.elections[states[i].nodes[leader].term].log, states[i].nodes[leader].log, t, k);
    SeenNode(states[i], h, leader);
    SeenNode(states[j], h, holder);
    SamePrefix(states[i].nodes[leader].log, states[j].nodes[holder].log, h.termLog, t, k);
  }

  /** Leader completeness for entries that a majority acknowledged. */
  lemma LeaderCompleteness(ids: set<NodeId>, states: seq<Cluster>, steps: seq<Step>, t: nat, k: nat,
                           i: nat, leader: NodeId, j: nat, holder: NodeId)
    requires Run(ids, states, steps) && Stored(ids, states, t, k) && i < |states| && j < |states|
    requires leader in states[i].nodes && states[i].nodes[leader].role.Leader? && states[i].nodes[leader].term > t
    requires holder in states[j].nodes && Has(states[j].nodes[holder].log, t, k)
    ensures Has(states[i].nodes[leader].log, t, k)
    ensures states[i].nodes[leader].log[..k + 1] == states[j].nodes[holder].log[..k + 1]
  {
    hide Run, Stored, Blocks, AllAcked;
    var q := StoredBlocks(ids, states, t, k);
    BlockingCompleteness(ids, states, steps, q, t, k, i, leader, j, holder);
  }

  // ------------------------------------------------------------------- agreement

  lemma LaterTermLog(s: Cluster, h: History, t: nat, k: nat, u: nat)
    requires Inv(s, h) && u in h.elections && Has(h.elections[u].log, t, k)
    ensures t in h.termLog && k < |h.termLog[t]| && k < |h.termLog[u]|
    ensures h.termLog[u][..k + 1] == h.termLog[t][..k + 1]
  {
    ElectionFacts(s, h, u);
    hide Inv, VotesInv;
    var won := h.elections[u].log;
    assert won[..k + 1] == h.termLog[t][..k + 1];
    assert h.termLog[u][..k + 1] == won[..k + 1];
  }

  lemma CanonicalAt(log: seq<Entry>, termLog: map<nat, seq<Entry>>, t: nat, k: nat)
    requires Canonical(log, termLog) && Has(log, t, k)
    ensures t in termLog && k < |termLog[t]| && log[..k + 1] == termLog[t][..k + 1]
  {
  }

  lemma AgreeUpTo(a: seq<Entry>, b: seq<Entry>, c: seq<Entry>, d: seq<Entry>, j: nat, k: nat)
    requires j < |a| && j < |c| && k < |b| && k < |d| && j < |d|
    requires a[..j + 1] == c[..j + 1] && b[..k + 1] == d[..k + 1] && d[..j + 1] == c[..j + 1]
    ensures a[..Min(j, k) + 1] == b[..Min(j, k) + 1]
  {
    var m := Min(j, k) + 1;
    assert a[..m] == a[..j + 1][..m] && c[..m] == c[..j + 1][..m] && d[..m] == d[..j + 1][..m];
    assert b[..m] == b[..k + 1][..m] && d[..m] == d[..k + 1][..m];
  }

  /** The two logs agree on every position up to `k`. */
  predicate Agree(a: seq<Entry>, b: seq<Entry>, k: nat) {
    k < |a| && k < |b| && a[..k + 1] == b[..k + 1]
  }

  lemma AgreementOrdered(ids: set<NodeId>, states: seq<Cluster>, s: Cluster, h: History,
                         a: seq<Entry>, t: nat, j: nat, b: seq<Entry>, u: nat, k: nat)
    requires Inv(s, h) && s.nodes.Keys == ids
    requires forall i :: 0 <= i < |states| ==> Seen(states[i], h)
    requires Stored(ids, states, t, j) && t <= u && u in h.elections
    requires Canonical(a, h.termLog) && Has(a, t, j) && Canonical(b, h.termLog) && Has(b, u, k)
    ensures Agree(a, b, Min(j, k))
  {
    hide Seen, Inv, Stored, AckedBy, AllAcked, Blocks, Canonical;
    CanonicalAt(a, h.termLog, t, j);
    CanonicalAt(b, h.termLog, u, k);
    if t < u {
      var q := StoredBlocks(ids, states, t, j);
      AcksRecorded(states, h, q, t, j);
      ElectedWith(s, h, q, t, j, u);
      LaterTermLog(s, h, t, j, u);
    }
    AgreeUpTo(a, b, h.termLog[t], h.termLog[u], j, k);
  }

  lemma TermElected(s: Cluster, h: History, log: seq<Entry>, t: nat, k: nat)
    requires Inv(s, h) && Canonical(log, h.termLog) && Has(log, t, k)
    ensures t in h.elections
  {
    hide WellFormed, LogsInv, LeadersInv, BallotsInv, FreshInv, CountInv, RequestsInv, ElectionsInv, AcksInv, VotesInv,
      MatchInv;
  }

  /** Agreement: logs that hold two stored entries, at any nodes and moments,
      agree on every position up to the earlier of the two. */
  lemma StoredEntriesAgree(ids: set<NodeId>, states: seq<Cluster>, steps: seq<Step>,
                           t: nat, j: nat, x: nat, a: NodeId, u: nat, k: nat, y: nat, b: NodeId)
    requires Run(ids, states, steps) && Stored(ids, states, t, j) && Stored(ids, states, u, k)
    requires x < |states| && y < |states| && a in states[x].nodes && b in states[y].nodes
    requires Has(states[x].nodes[a].log, t, j) && Has(states[y].nodes[b].log, u, k)
    ensures states[x].nodes[a].log[..Min(j, k) + 1] == states[y].nodes[b].log[..Min(j, k) + 1]
  {
    hide Run, Seen, Inv, Stored, AckedBy, Canonical, Indexed, Sorted, TermsUpTo, AcksOf;
    var h := RunHistory(ids, states, steps);
    SeenNode(states[x], h, a);
    SeenNode(states[y], h, b);
    var s := states[|states| - 1];
    TermElected(s, h, states[x].nodes[a].log, t, j);
    TermElected(s, h, states[y].nodes[b].log, u, k);
    if t <= u {
      AgreementOrdered(ids, states, s, h, states[x].nodes[a].log, t, j, states[y].nodes[b].log, u, k);
    } else {
      AgreementOrdered(ids, states, s, h, states[y].nodes[b].log, u, k, states[x].nodes[a].log, t, j);
    }
  }
}
