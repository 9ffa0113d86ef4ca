/** What the node leaves to its callers: grants must be heard once per voter, and append
    requests must not arrive late. */
module RaftDelivery {
  import opened Common
  import opened RaftNode
  import opened RaftCluster
  import opened RaftHistory
  import opened RaftInvariance
  import opened RaftSafety
  import opened RaftElection

  // ------------------------------------------------------------------ repeated grants

  /** The delivery rule without its last part: a grant is heard for the candidacy it was asked
      for and from another node, but perhaps not for the first time. */
  ghost predicate MayHearAgain(s: Cluster, req: VoteRequest, v: NodeId, resp: VoteResponse)
    requires req.candidate in s.nodes
  {
    var c := s.nodes[req.candidate];
    resp.granted && resp.term <= c.term ==> req.term == c.term && v != req.candidate
  }

  /** A vote round trip that is heard by this rule. */
  ghost predicate Redelivers(s: Cluster, req: VoteRequest, v: NodeId, s': Cluster) {
    && WellFormed(s) && req in s.requests && v in s.nodes
    && var (n, resp) := RequestVote(s.nodes[v], req);
       && MayHearAgain(s, req, v, resp)
       && s' == Hear(With(s, v, n), req.candidate, v, resp)
  }

  ghost predicate LooseStep(s: Cluster, s': Cluster) {
    && WellFormed(s)
    && ((exists step :: Enabled(s, step) && s' == Apply(s, step)) || exists req, v :: Redelivers(s, req, v, s'))
  }

  /** A run in which grants may also be heard again. */
  ghost predicate LooseRun(ids: set<NodeId>, states: seq<Cluster>) {
    && |states| > 0 && states[0] == Init(ids)
    && forall i :: 0 <= i < |states| - 1 ==> LooseStep(states[i], states[i + 1])
  }

  lemma LooseExtend(ids: set<NodeId>, states: seq<Cluster>, s': Cluster)
    requires LooseRun(ids, states) && LooseStep(states[|states| - 1], s')
    ensures LooseRun(ids, states + [s'])
  {
    hide LooseStep;
    var states' := states + [s'];
    forall i | 0 <= i < |states'| - 1
      ensures LooseStep(states'[i], states'[i + 1])
    {
      if i < |states| - 1 { assert LooseStep(states[i], states[i + 1]); }
    }
  }

  /** The node grants the candidate's request, now and again. */
  predicate Supports(n: Node, c: Node) {
    AtLeast(c.log, n.log) && (n.term < c.term || (n.term == c.term && n.votedFor == Some(c.id)))
  }

  lemma GrantAgain(s: Cluster, c: NodeId, v: NodeId) returns (s': Cluster)
    requires Campaigning(s, c) && v in s.nodes && v != c && Supports(s.nodes[v], s.nodes[c])
    ensures LooseStep(s, s') && Granted(s, c, v, s')
  {
    hide Granted, Hear, RequestVote, WellFormed, LooseStep, AtLeast, Asking;
    FormedNode(s, c);
    HearGrant(s, c, v);
    var (n, resp) := RequestVote(s.nodes[v], Asking(s.nodes[c]));
    s' := Hear(With(s, v, n), c, v, resp);
    HeardAgain(s, c, v, s');
  }

  lemma HeardAgain(s: Cluster, c: NodeId, v: NodeId, s': Cluster)
    requires Campaigning(s, c) && v in s.nodes && v != c
    requires var req := Asking(s.nodes[c]);
             var (n, resp) := RequestVote(s.nodes[v], req);
             && req.candidate == c && req.term == s.nodes[c].term
             && n.id == v && Indexed(n.log) && s' == Hear(With(s, v, n), c, v, resp)
    ensures LooseStep(s, s')
  {
    hide Hear, RequestVote, WellFormed, Indexed, Apply, Enabled, Asking;
    assert Redelivers(s, Asking(s.nodes[c]), v, s');
  }

  /** `c` leads its term; only it and `v` were touched. */
  ghost predicate LedBy(s: Cluster, c: NodeId, v: NodeId, s': Cluster) {
    && WellFormed(s') && s'.nodes.Keys == s.nodes.Keys && c in s.nodes
    && s'.nodes[c].role.Leader? && s'.nodes[c].term == s.nodes[c].term && s'.requests == s.requests
    && forall i :: i in s.nodes && i != c && i != v ==> s'.nodes[i] == s.nodes[i]
  }

  /** One voter's grant, heard often enough, makes a leader. */
  lemma {:induction false} RepeatGrants(ids: set<NodeId>, states: seq<Cluster>, c: NodeId, v: NodeId)
    returns (states': seq<Cluster>)
    requires LooseRun(ids, states) && |states| > 0
    requires var s := states[|states| - 1];
             && Campaigning(s, c) && v in s.nodes && v != c && Supports(s.nodes[v], s.nodes[c])
             && s.nodes[c].votes <= Size(s) / 2
    ensures LooseRun(ids, states') && |states'| > 0
    ensures LedBy(states[|states| - 1], c, v, states'[|states'| - 1])
    decreases Size(states[|states| - 1]) / 2 - states[|states| - 1].nodes[c].votes
  {
    hide LooseRun, LooseStep, WellFormed;
    var s := states[|states| - 1];
    var s1 := GrantAgain(s, c, v);
    LooseExtend(ids, states, s1);
    states' := states + [s1];
    SameSize(s, s1);
    if s.nodes[c].votes + 1 <= Size(s) / 2 {
      SameId(s, s1, c);
      states' := RepeatGrants(ids, states', c, v);
    }
  }

  lemma SameSize(s: Cluster, s': Cluster)
    requires s'.nodes.Keys == s.nodes.Keys
    ensures Size(s') == Size(s)
  {
    assert |s'.nodes| == |s'.nodes.Keys| && |s.nodes| == |s.nodes.Keys|;
  }

  lemma SameId(s: Cluster, s': Cluster, c: NodeId)
    requires WellFormed(s) && WellFormed(s') && c in s.nodes && c in s'.nodes
    ensures s.nodes[c].id == s'.nodes[c].id == c
  {
  }

  lemma LooseElect(ids: set<NodeId>, states: seq<Cluster>, c: NodeId) returns (s': Cluster)
    requires LooseRun(ids, states) && |states| > 0 && WellFormed(states[|states| - 1])
    requires c in states[|states| - 1].nodes && states[|states| - 1].nodes[c] == InitNode(c)
    ensures LooseRun(ids, states + [s']) && Campaigning(s', c)
    ensures var s := states[|states| - 1];
            && s'.nodes == s.nodes[c := s'.nodes[c]] && s.requests <= s'.requests
            && s'.nodes[c].term == 1 && s'.nodes[c].votes == 1 && s'.nodes[c].id == c
  {
    hide LooseRun, Apply, WellFormed, Enabled;
    s' := ElectFor(states[|states| - 1], c);
    assert LooseStep(states[|states| - 1], s');
    LooseExtend(ids, states, s');
  }

  /** In every cluster of four nodes or more, hearing grants again lets two nodes lead term 1
      at the same moment. */
  lemma RepeatedGrantsElectTwo(ids: set<NodeId>, a: NodeId, b: NodeId, c: NodeId, d: NodeId)
    returns (states: seq<Cluster>)
    requires {a, b, c, d} <= ids && |{a, b, c, d}| == 4
    ensures LooseRun(ids, states) && |states| > 0
    ensures var s := states[|states| - 1];
            && a in s.nodes && c in s.nodes && a != c
            && s.nodes[a].role.Leader? && s.nodes[c].role.Leader? && s.nodes[a].term == s.nodes[c].term == 1
  {
    hide LooseRun, WellFormed, Campaigning;
    AllDiffer(a, b, c, d);
    SubsetCard({a, b, c, d}, ids);
    states := TwoCandidates(ids, a, c);
    var s := states[|states| - 1];
    states := RepeatGrants(ids, states, a, b);
    StillCampaigning(ids, s, a, b, c, states[|states| - 1]);
    states := RepeatGrants(ids, states, c, d);
  }

  /** Both are candidates of term 1, and nobody else has moved. */
  ghost predicate Rivals(ids: set<NodeId>, a: NodeId, c: NodeId, s: Cluster) {
    && Campaigning(s, a) && Campaigning(s, c) && s.nodes.Keys == ids && a in ids && c in ids && Size(s) == |ids|
    && s.nodes[a].term == s.nodes[c].term == 1 && s.nodes[a].votes == s.nodes[c].votes == 1
    && s.nodes[a].id == a && s.nodes[c].id == c
    && forall i :: i in ids && i != a && i != c ==> s.nodes[i] == InitNode(i)
  }

  lemma TwoCandidates(ids: set<NodeId>, a: NodeId, c: NodeId) returns (states: seq<Cluster>)
    requires a in ids && c in ids && a != c
    ensures LooseRun(ids, states) && |states| > 0 && Rivals(ids, a, c, states[|states| - 1])
  {
    hide LooseRun, WellFormed, Init;
    InitState(ids);
    LooseInit(ids);
    states := [Init(ids)];
    var s1 := LooseElect(ids, states, a);
    states := states + [s1];
    var s2 := LooseElect(ids, states, c);
    states := states + [s2];
    SameSize(Init(ids), s2);
    assert Size(s2) == |ids| by { assert |s2.nodes.Keys| == |s2.nodes|; }
  }

  lemma StillCampaigning(ids: set<NodeId>, s: Cluster, a: NodeId, b: NodeId, c: NodeId, s': Cluster)
    requires Rivals(ids, a, c, s) && LedBy(s, a, b, s') && c != a && c != b
    ensures Campaigning(s', c) && s'.nodes[c] == s.nodes[c] && Size(s') == |ids|
  {
    hide WellFormed;
    SameSize(s, s');
  }

  lemma LooseInit(ids: set<NodeId>)
    ensures LooseRun(ids, [Init(ids)])
  {
  }

  lemma AllDiffer(a: NodeId, b: NodeId, c: NodeId, d: NodeId)
    requires |{a, b, c, d}| == 4
    ensures a != b && a != c && a != d && b != c && b != d && c != d
  {
    if a == b || a == c || b == c {
      SubsetCard({a, b, c, d}, if a == b then {a, c, d} else if a == c then {a, b, d} else {a, b, d});
    } else if d == a || d == b || d == c {
      SubsetCard({a, b, c, d}, {a, b, c});
    }
  }

  // ------------------------------------------------ when hearing grants again is harmless

  /** No two nodes lead the same term, at whatever moments of whatever loose run. */
  ghost predicate OneLeaderPerTerm(ids: set<NodeId>) {
    forall states: seq<Cluster>, i: nat, a: NodeId, j: nat, b: NodeId ::
      LooseRun(ids, states) && Leads(states, i, a) && Leads(states, j, b)
      && states[i].nodes[a].term == states[j].nodes[b].term ==>
        a == b
  }

  ghost predicate Leads(states: seq<Cluster>, i: nat, a: NodeId) {
    i < |states| && a in states[i].nodes && states[i].nodes[a].role.Leader?
  }

  lemma AgainFits(s: Cluster, req: VoteRequest, v: NodeId)
    requires WellFormed(s) && req in s.requests && v in s.nodes && Size(s) <= 3
    requires MayHearAgain(s, req, v, RequestVote(s.nodes[v], req).1)
    ensures Fits(s, req, v)
  {
    hide Fresh, Indexed;
  }

  /** In a cluster of at most three every loose step keeps the invariant. */
  lemma LooseKeeps(s: Cluster, h: History, s': Cluster) returns (h': History)
    requires LooseStep(s, s') && Inv(s, h) && Size(s) <= 3
    ensures Inv(s', h') && Extends(h, h') && s'.nodes.Keys == s.nodes.Keys
  {
    hide Inv, Extends, Apply, Enabled, Redelivers, AcksWitnessed;
    if step :| Enabled(s, step) && s' == Apply(s, step) {
      h' := StepKeeps(s, h, step);
    } else {
      var req, v :| Redelivers(s, req, v, s');
      h' := RedeliveryKeeps(s, h, req, v, s');
    }
  }

  lemma RedeliveryKeeps(s: Cluster, h: History, req: VoteRequest, v: NodeId, s': Cluster) returns (h': History)
    requires Redelivers(s, req, v, s') && Inv(s, h) && Size(s) <= 3
    ensures Inv(s', h') && Extends(h, h') && s'.nodes.Keys == s.nodes.Keys
  {
    hide Inv, Extends, Indexed, Fresh, Fits;
    AgainFits(s, req, v);
    h' := HeardKeeps(s, h, req, v);
  }

  /** A loose run of a small cluster has a history that explains all its states. */
  lemma {:induction false} LooseHistory(ids: set<NodeId>, states: seq<Cluster>) returns (h: History)
    requires LooseRun(ids, states) && |ids| <= 3
    ensures |states| > 0 && Inv(states[|states| - 1], h) && states[|states| - 1].nodes.Keys == ids
    ensures forall i :: 0 <= i < |states| ==> Seen(states[i], h)
    decreases |states|
  {
    hide Inv, Extends, LooseStep;
    var m := |states| - 1;
    if m == 0 {
      h := NoHistory;
      InitInv(ids);
      ExtendsReflexive(h);
    } else {
      var before := states[..m];
      var h0 := LooseHistory(ids, before);
      assert LooseStep(states[m - 1], states[m]);
      assert |states[m - 1].nodes.Keys| == |ids|;
      h := LooseKeeps(states[m - 1], h0, states[m]);
      ExtendsReflexive(h);
      forall i | 0 <= i < m
        ensures Seen(states[i], h)
      {
        assert Seen(before[i], h0);
        var h1 :| Inv(before[i], h1) && Extends(h1, h0);
        ExtendsTransitive(h1, h0, h);
      }
    }
  }

  lemma SmallClusterSafe(ids: set<NodeId>, states: seq<Cluster>, i: nat, a: NodeId, j: nat, b: NodeId)
    requires LooseRun(ids, states) && |ids| <= 3 && Leads(states, i, a) && Leads(states, j, b)
    requires states[i].nodes[a].term == states[j].nodes[b].term
    ensures a == b
  {
    hide LooseRun, Seen, Inv;
    var h := LooseHistory(ids, states);
    SeenLeader(states[i], h, a);
    SeenLeader(states[j], h, b);
  }

  lemma FourOf(ids: set<NodeId>) returns (a: NodeId, b: NodeId, c: NodeId, d: NodeId)
    requires |ids| >= 4
    ensures {a, b, c, d} <= ids && |{a, b, c, d}| == 4
  {
    a :| a in ids;
    assert |ids - {a}| >= 3;
    b :| b in ids - {a};
    assert |ids - {a} - {b}| >= 2;
    c :| c in ids - {a} - {b};
    assert |ids - {a} - {b} - {c}| >= 1;
    d :| d in ids - {a} - {b} - {c};
    assert {a, b, c, d} == {a, b, c} + {d} && {a, b, c} == {a, b} + {c};
  }

  /** Election safety survives hearing grants again exactly in clusters of at most three. */
  lemma RepeatedGrantsSafeExactly(ids: set<NodeId>)
    ensures OneLeaderPerTerm(ids) <==> |ids| <= 3
  {
    hide LooseRun;
    if |ids| <= 3 {
      forall states: seq<Cluster>, i: nat, a: NodeId, j: nat, b: NodeId |
        LooseRun(ids, states) && Leads(states, i, a) && Leads(states, j, b)
        && states[i].nodes[a].term == states[j].nodes[b].term
        ensures a == b
      {
        SmallClusterSafe(ids, states, i, a, j, b);
      }
    } else {
      var a, b, c, d := FourOf(ids);
      var states := RepeatedGrantsElectTwo(ids, a, b, c, d);
      assert Leads(states, |states| - 1, a) && Leads(states, |states| - 1, c);
    }
  }

  // ------------------------------------------------------------------- late requests

  /** Why a replication round must be atomic: an append request built when the
      leader's log was `log[..m]` and delivered to a follower that already holds all of
      `log` leaves it whole exactly when nothing newer than `m` exists or
      nothing was sent. */
  lemma LateAppendTruncates(leader: Node, f: NodeId, m: nat, n: Node)
    requires Indexed(leader.log) && n.log == leader.log && n.term <= leader.term && m <= |leader.log|
    requires f in leader.next && 1 <= leader.next[f] <= m + 1
    ensures forall e :: e in MakeAppendEntries(leader.(log := leader.log[..m]), f).entries ==> e.index > 0
    ensures var req := MakeAppendEntries(leader.(log := leader.log[..m]), f);
            var n' := AppendEntries(n, req).0;
            && (n'.log == leader.log <==> m == |leader.log| || leader.next[f] == m + 1)
            && (n'.log == leader.log || n'.log == leader.log[..m])
  {
    var before := leader.(log := leader.log[..m]);
    SentEntries(before, f);
    var req := MakeAppendEntries(before, f);
    AcceptedLog(n, req, before.log);
    CutAndRejoin(leader.log, req.prevIndex, m);
    hide Indexed, Splice, EntriesFrom, LastIndex, AppendEntries;
  }

  lemma CutAndRejoin(log: seq<Entry>, p: nat, m: nat)
    requires p <= m <= |log|
    ensures log[..p] + log[..m][p..] == log[..m]
    ensures log[..m] == log <==> m == |log|
    ensures p == m <==> Tail(log[..m], p) == []
  {
  }
}
