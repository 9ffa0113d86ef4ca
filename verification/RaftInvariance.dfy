/** Every step of the cluster keeps the invariant, with a longer history. */
module RaftInvariance {
  import opened Common
  import opened RaftNode
  import opened RaftCluster
  import opened RaftHistory

  /** Two logs that agree on the term of a position agree up to that position. */
  ghost predicate LogsMatch(a: seq<Entry>, b: seq<Entry>) {
    forall k :: 0 <= k < |a| && k < |b| && a[k].term == b[k].term ==> a[..k + 1] == b[..k + 1]
  }

  lemma CanonicalLogsMatch(a: seq<Entry>, b: seq<Entry>, termLog: map<nat, seq<Entry>>)
    requires Canonical(a, termLog) && Canonical(b, termLog)
    ensures LogsMatch(a, b)
  {
  }

  /** One append request from `leader`, received by `n`: on success the whole
      leader log is a prefix of the receiver's log, and equal to it if entries
      were sent; otherwise the receiver's log is untouched. */
  lemma AppendOutcome(leader: Node, f: NodeId, n: Node)
    requires Indexed(leader.log) && Indexed(n.log) && LogsMatch(leader.log, n.log)
    requires NextIndex(leader, f) <= |leader.log| + 1
    ensures forall e :: e in MakeAppendEntries(leader, f).entries ==> e.index > 0
    ensures var req := MakeAppendEntries(leader, f);
            var (n', resp) := AppendEntries(n, req);
            && Indexed(n'.log)
            && (if resp.success
                then n.term <= leader.term && leader.log <= n'.log && (req.entries != [] ==> n'.log == leader.log)
                     && n'.log in {n.log, leader.log}
                else n'.log == n.log)
            && (resp.success <==> leader.term >= n.term && PrevMatches(n.log, req))
  {
    SentEntries(leader, f);
    IndexedLast(leader.log);
    var req := MakeAppendEntries(leader, f);
    AcceptedLog(n, req, leader.log);
    hide LogsMatch, Indexed, Splice, EntriesFrom, LastIndex;
    if PrevMatches(n.log, req) {
      SharedPrefix(leader.log, n.log, req.prevIndex);
    }
  }

  lemma SharedPrefix(a: seq<Entry>, b: seq<Entry>, p: nat)
    requires LogsMatch(a, b) && p <= |a| && p <= |b| && (p > 0 ==> a[p - 1].term == b[p - 1].term)
    ensures b[..p] == a[..p] && b[..p] + Tail(a, p) == a
  {
    if p > 0 {
      assert a[..(p - 1) + 1] == b[..(p - 1) + 1];
    }
    assert a == a[..p] + a[p..];
  }

  // --------------------------------------------------------------- bookkeeping

  lemma BookkeepMatch(ns: Nodes, acks: set<(NodeId, nat, nat)>, i: NodeId, n': Node)
    requires i in ns && n' == ns[i].(next := n'.next, matched := n'.matched, commit := n'.commit)
    requires n'.role.Leader? ==> forall p :: p in n'.matched ==> MatchOk(ns, acks, i, p, n'.matched[p])
    requires n'.role.Leader? ==> forall p :: p in n'.next ==> n'.next[p] <= |n'.log| + 1
    requires MatchInv(ns, acks)
    ensures MatchInv(ns[i := n'], acks)
  {
    var ns' := ns[i := n'];
    forall l, p | l in ns' && ns'[l].role.Leader? && p in ns'[l].matched
      ensures MatchOk(ns', acks, l, p, ns'[l].matched[p])
    {
      assert MatchOk(ns, acks, l, p, ns'[l].matched[p]);
    }
  }

  /** Only the replication indexes and the commit index of one node change. */
  lemma BookkeepKeeps(s: Cluster, h: History, i: NodeId, n': Node)
    requires WellFormed(s) && i in s.nodes
    requires n' == s.nodes[i].(next := n'.next, matched := n'.matched, commit := n'.commit) && n'.commit <= |n'.log|
    requires n'.role.Leader? ==> forall p :: p in n'.matched ==> MatchOk(s.nodes, h.acks, i, p, n'.matched[p])
    requires n'.role.Leader? ==> forall p :: p in n'.next ==> n'.next[p] <= |n'.log| + 1
    requires Inv(s, h)
    ensures Inv(With(s, i, n'), h)
  {
    hide LogsInv, TermLogInv, LeadersInv, BallotsInv, FreshInv, CountInv, RequestsInv, ElectionsInv, AcksInv, VotesInv,
      MatchInv, Indexed, MatchOk;
    NodeLog(s.nodes, h, i);
    QuietLogs(s.nodes, h, i, n');
    QuietLeaders(s.nodes, h, i, n');
    QuietBallots(s.nodes, h, i, n');
    QuietCandidates(s, h, i, n');
    SameElections(s.nodes, h, i, n');
    QuietAcks(s.nodes, h, i, n');
    BookkeepMatch(s.nodes, h.acks, i, n');
  }

  // ---------------------------------------------------------------- replication

  /** What the invariant says of a leader and one of its peers. */
  lemma LeaderFacts(s: Cluster, h: History, l: NodeId, f: NodeId)
    requires WellFormed(s) && l in s.nodes && f in s.nodes && s.nodes[l].role.Leader? && Inv(s, h)
    ensures LogsMatch(s.nodes[l].log, s.nodes[f].log)
    ensures NextIndex(s.nodes[l], f) <= |s.nodes[l].log| + 1
    ensures s.nodes[f].commit <= |s.nodes[f].log| && s.nodes[l].commit <= |s.nodes[l].log|
  {
    hide TermLogInv, LeadersInv, BallotsInv, FreshInv, CountInv, RequestsInv, ElectionsInv, AcksInv, VotesInv;
    hide Canonical;
    NodeLog(s.nodes, h, l);
    NodeLog(s.nodes, h, f);
    CanonicalLogsMatch(s.nodes[l].log, s.nodes[f].log, h.termLog);
    IndexedLast(s.nodes[l].log);
  }

  /** The receiving half of a replication round. */
  lemma AppendKeeps(s: Cluster, h: History, l: NodeId, f: NodeId) returns (h': History)
    requires WellFormed(s) && Enabled(s, Replicate(l, f, false)) && Inv(s, h)
    ensures var s' := ApplyReplicate(s, l, f, false);
            && Inv(s', h') && Extends(h, h')
            && s'.nodes[l] == s.nodes[l]
    ensures forall e :: e in MakeAppendEntries(s.nodes[l], f).entries ==> e.index > 0
    ensures var resp := AppendEntries(s.nodes[f], MakeAppendEntries(s.nodes[l], f)).1;
            var s' := ApplyReplicate(s, l, f, false);
            resp.success ==>
              && s'.nodes[f].term == s.nodes[l].term && s.nodes[l].log <= s'.nodes[f].log
              && AcksOf(f, s'.nodes[f]) <= h'.acks
    ensures h'.acks == h.acks || h'.acks == h.acks + AcksOf(f, ApplyReplicate(s, l, f, false).nodes[f])
  {
    hide Inv, Extends, Indexed, AcksOf, LogsMatch;
    var leader, n := s.nodes[l], s.nodes[f];
    LeaderFacts(s, h, l, f);
    AppendOutcome(leader, f, n);
    var req := MakeAppendEntries(leader, f);
    var (n', resp) := AppendEntries(n, req);
    IndexedLast(n'.log);
    if req.term < n.term {
      assert s.nodes[f := n] == s.nodes;
      ExtendsReflexive(h);
      h' := h;
    } else {
      h' := Acked(h, n');
      AcceptKeeps(s, h, f, l, n');
    }
  }

  lemma RoundMatchOk(ns: Nodes, acks: set<(NodeId, nat, nat)>, l: NodeId, f: NodeId, n': Node)
    requires l in ns && f in ns && l != f && ns[f].id == f
    requires n'.log == ns[l].log && n'.term == ns[l].term && n'.matched == ns[l].matched[f := |n'.log|]
    requires ns[f].term == ns[l].term && ns[l].log <= ns[f].log && AcksOf(f, ns[f]) <= acks
    requires MatchInv(ns, acks) && ns[l].role.Leader?
    ensures forall p :: p in n'.matched ==> MatchOk(ns, acks, l, p, n'.matched[p])
  {
    forall p | p in n'.matched
      ensures MatchOk(ns, acks, l, p, n'.matched[p])
    {
      if p == f {
        forall k | 0 <= k < |n'.log| && n'.log[k].term == n'.term
          ensures (f, n'.term, k) in acks
        {
          assert (f, n'.term, k) in AcksOf(f, ns[f]);
        }
      } else {
        assert MatchOk(ns, acks, l, p, ns[l].matched[p]);
      }
    }
  }

  lemma LeaderNext(ns: Nodes, acks: set<(NodeId, nat, nat)>, l: NodeId)
    requires MatchInv(ns, acks) && l in ns && ns[l].role.Leader?
    ensures forall p :: p in ns[l].next ==> ns[l].next[p] <= |ns[l].log| + 1
    ensures forall p :: p in ns[l].matched ==> MatchOk(ns, acks, l, p, ns[l].matched[p])
  {
  }

  lemma InvParts(s: Cluster, h: History)
    requires Inv(s, h)
    ensures WellFormed(s) && MatchInv(s.nodes, h.acks) && BallotsInv(s.nodes, h) && LeadersInv(s.nodes, h)
            && RequestsInv(s) && CountInv(s, h) && CommitInv(s.nodes)
  {
    hide LogsInv, TermLogInv, LeadersInv, BallotsInv, FreshInv, CountInv, RequestsInv, ElectionsInv, AcksInv, VotesInv,
      MatchInv, WellFormed, CommitInv;
  }

  /** The leader hears the reply. */
  lemma ObserveAppendKeeps(s: Cluster, h: History, l: NodeId, f: NodeId, resp: AppendResponse)
    requires WellFormed(s) && l in s.nodes && f in s.nodes && l != f && s.nodes[l].role.Leader? && Inv(s, h)
    requires resp.success ==>
               && s.nodes[f].term == s.nodes[l].term && s.nodes[l].log <= s.nodes[f].log
               && AcksOf(f, s.nodes[f]) <= h.acks
    ensures Inv(With(s, l, ObserveAppendResponse(s.nodes[l], f, resp, Size(s))), h)
  {
    hide Inv, Indexed, MatchInv, MatchOk, AcksOf, Committable, LeadersInv, BallotsInv, RequestsInv, CountInv;
    var n := s.nodes[l];
    var n' := ObserveAppendResponse(n, f, resp, Size(s));
    InvParts(s, h);
    LeaderNext(s.nodes, h.acks, l);
    IndexedLast(n.log);
    if resp.term > n.term {
      StepDownKeeps(s, h, l, resp.term);
    } else {
      if resp.success {
        assert n'.matched == n.matched[f := |n.log|];
        RoundMatchOk(s.nodes, h.acks, l, f, n');
        CommitBound(n.(matched := n'.matched, next := n'.next), Size(s));
      }
      BookkeepKeeps(s, h, l, n');
    }
  }

  lemma CommitBound(n: Node, clusterSize: nat)
    requires n.commit <= |n.log|
    ensures CommitSearch(n, clusterSize, |n.log|) <= |n.log|
  {
  }

  lemma ReplicateKeeps(s: Cluster, h: History, l: NodeId, f: NodeId, heard: bool) returns (h': History)
    requires WellFormed(s) && Enabled(s, Replicate(l, f, heard)) && Inv(s, h)
    ensures Inv(Apply(s, Replicate(l, f, heard)), h') && Extends(h, h')
    ensures h'.acks == h.acks || h'.acks == h.acks + AcksOf(f, Apply(s, Replicate(l, f, heard)).nodes[f])
  {
    hide Inv, Extends, Indexed, AcksOf;
    h' := AppendKeeps(s, h, l, f);
    if heard {
      var s1 := ApplyReplicate(s, l, f, false);
      var resp := AppendEntries(s.nodes[f], MakeAppendEntries(s.nodes[l], f)).1;
      ObserveAppendKeeps(s1, h', l, f, resp);
      assert Size(s1) == Size(s) by { assert s1.nodes.Keys == s.nodes.Keys; assert |s1.nodes.Keys| == |s.nodes.Keys|; }
    }
  }

  // --------------------------------------------------------------------- voting

  lemma GrantFacts(s: Cluster, h: History, v: NodeId, req: VoteRequest)
    requires WellFormed(s) && v in s.nodes && req in s.requests && s.nodes[v].term == req.term
    requires BallotsInv(s.nodes, h) && RequestsInv(s)
    requires s.nodes[v].votedFor.None? || s.nodes[v].votedFor.value == req.candidate
    requires Fresh(req, s.nodes[v].log)
    ensures KeepsVote(h, s.nodes[v], s.nodes[v].(votedFor := Some(req.candidate)))
    ensures 0 < req.term <= s.nodes[req.candidate].term
    ensures s.nodes[req.candidate].term == req.term && s.nodes[req.candidate].role.Candidate? ==>
              FreshLog(s.nodes[req.candidate].log, s.nodes[v].log)
  {
    IndexedLast(s.nodes[v].log);
    hide Indexed;
  }

  /** The voter's half of a vote. If it grants, its ballot in the history names a
      candidate that is still standing. */
  lemma RequestVoteKeeps(s: Cluster, h: History, v: NodeId, req: VoteRequest) returns (h': History)
    requires WellFormed(s) && Enabled(s, Vote(req, v, false)) && Inv(s, h)
    ensures var (n, resp) := RequestVote(s.nodes[v], req);
            var s' := With(s, v, n);
            && Inv(s', h') && Extends(h, h') && h'.acks == h.acks
            && (resp.granted && s'.nodes[req.candidate].term == req.term && s'.nodes[req.candidate].role.Candidate? ==>
                  && resp.term == req.term
                  && (req.term, v) in h'.ballots && h'.ballots[(req.term, v)].candidate == req.candidate)
  {
    hide Inv, Extends, Indexed, BallotsInv, RequestsInv, LeadersInv, CountInv, MatchInv, Fresh, FreshLog;
    var (n, resp) := RequestVote(s.nodes[v], req);
    InvParts(s, h);
    ExtendsReflexive(h);
    h' := h;
    if req.term < s.nodes[v].term {
      assert s.nodes[v := n] == s.nodes;
      return;
    }
    var s1 := s;
    if req.term > s.nodes[v].term {
      StepDownKeeps(s, h, v, req.term);
      s1 := With(s, v, StepDown(s.nodes[v], req.term));
    }
    InvParts(s1, h);
    assert s1.nodes[v := n] == s.nodes[v := n];
    if resp.granted {
      GrantFacts(s1, h, v, req);
      CommitAt(s1.nodes, v);
      QuietKeeps(s1, h, v, n);
      var s2 := With(s1, v, n);
      GrantAfter(s1, v, n, req);
      h' := CastBallot(h, n, req.candidate);
      BallotKeeps(s2, h, v, req.candidate);
      InvParts(s2, h');
      BallotStands(s2, h', v, req.candidate, req.term);
    } else {
      assert s1.nodes[v := n] == s1.nodes;
    }
  }

  lemma CommitAt(ns: Nodes, i: NodeId)
    requires CommitInv(ns) && i in ns
    ensures ns[i].commit <= |ns[i].log|
  {
  }

  /** Granting changes no term, role or log. */
  lemma GrantAfter(s: Cluster, v: NodeId, n: Node, req: VoteRequest)
    requires WellFormed(s) && v in s.nodes && req in s.requests
    requires n == s.nodes[v].(votedFor := Some(req.candidate))
    ensures var c, c' := s.nodes[req.candidate], With(s, v, n).nodes[req.candidate];
            c'.term == c.term && c'.role == c.role && c'.log == c.log
  {
  }

  /** A voter that names `c` has its ballot for `c`, unless `c` already leads the term. */
  lemma BallotStands(s: Cluster, h: History, v: NodeId, c: NodeId, t: nat)
    requires BallotsInv(s.nodes, h) && LeadersInv(s.nodes, h)
    requires v in s.nodes && c in s.nodes && s.nodes[v].term == t && s.nodes[v].votedFor == Some(c)
    requires (t, v) in h.ballots
    ensures s.nodes[c].term == t && s.nodes[c].role.Candidate? ==> h.ballots[(t, v)].candidate == c
  {
  }

  /** The set of counted voters of a node that is not standing carries no meaning. */
  lemma CountedFree(s: Cluster, h: History, c: NodeId, voters: set<NodeId>)
    requires WellFormed(s) && c in s.nodes && !s.nodes[c].role.Candidate? && Inv(s, h)
    ensures Inv(s.(counted := s.counted[c := voters]), h)
  {
    CountedFreeParts(s, h, c, voters);
    hide LogsInv, TermLogInv, LeadersInv, BallotsInv, FreshInv, CountInv, RequestsInv, ElectionsInv, AcksInv, VotesInv,
      MatchInv, Indexed;
  }

  lemma CountedFreeParts(s: Cluster, h: History, c: NodeId, voters: set<NodeId>)
    requires c in s.nodes && !s.nodes[c].role.Candidate? && CountInv(s, h) && RequestsInv(s)
    ensures CountInv(s.(counted := s.counted[c := voters]), h)
    ensures RequestsInv(s.(counted := s.counted[c := voters]))
  {
  }

  lemma CountedMajority(s: Cluster, h: History, c: NodeId)
    requires WellFormed(s) && CountInv(s, h) && c in s.nodes && s.nodes[c].role.Candidate?
    requires s.nodes[c].votes > Size(s) / 2
    ensures Majority(s.nodes, s.counted[c])
  {
    hide Indexed;
    assert CountedOk(s, h, c);
  }

  ghost predicate FitsCandidacy(s: Cluster, h: History, v: NodeId, c: NodeId, resp: VoteResponse)
    requires WellFormed(s) && c in s.nodes
  {
    && resp.term == s.nodes[c].term && MayCount(s, c, v)
    && (resp.term, v) in h.ballots && h.ballots[(resp.term, v)].candidate == c
  }

  ghost function MaybeCounted(s: Cluster, c: NodeId, v: NodeId, resp: VoteResponse): (s': Cluster)
    requires WellFormed(s) && c in s.nodes
    ensures WellFormed(s') && s'.nodes.Keys == s.nodes.Keys && c in s'.counted
  {
    if resp.granted then Counted(s, c, v) else s
  }

  /** Hearing a reply is counting it, then taking the lead on a majority. */
  lemma HearState(s: Cluster, v: NodeId, c: NodeId, resp: VoteResponse)
    requires WellFormed(s) && c in s.nodes && s.nodes[c].role.Candidate? && resp.term <= s.nodes[c].term
    requires resp.granted ==> resp.term == s.nodes[c].term
    ensures var s1 := MaybeCounted(s, c, v, resp);
            Hear(s, c, v, resp) ==
            if s1.nodes[c].votes > Size(s) / 2 then With(s1, c, TakeLead(s1.nodes[c])) else s1
  {
    hide WellFormed, Indexed, TakeLead;
    var n := s.nodes[c];
    var n1 := if resp.granted then n.(votes := n.votes + 1) else n;
    var s1 := MaybeCounted(s, c, v, resp);
    assert s1.nodes == s.nodes[c := n1] by { assert s.nodes[c := n] == s.nodes; }
    assert s1.nodes[c] == n1;
    if n1.votes > Size(s) / 2 {
      assert ObserveVote(n, resp, Size(s)) == TakeLead(n1);
      assert s.nodes[c := TakeLead(n1)] == s1.nodes[c := TakeLead(n1)];
    } else {
      assert ObserveVote(n, resp, Size(s)) == n1;
    }
  }

  /** A standing candidate hears a reply of its own term, and may win the election. */
  lemma HearKeepsCandidate(s: Cluster, h: History, v: NodeId, c: NodeId, resp: VoteResponse) returns (h': History)
    requires WellFormed(s) && c in s.nodes && v in s.nodes && Inv(s, h)
    requires s.nodes[c].role.Candidate? && resp.term <= s.nodes[c].term
    requires resp.granted ==> FitsCandidacy(s, h, v, c, resp)
    ensures Inv(Hear(s, c, v, resp), h') && Extends(h, h') && h'.acks == h.acks
  {
    hide Inv, Extends, WellFormed, BallotsInv, RequestsInv, LeadersInv, CountInv, MatchInv, CommitInv;
    hide Majority, Hear, TakeLead;
    HearState(s, v, c, resp);
    var s1 := MaybeCounted(s, c, v, resp);
    if resp.granted {
      CountKeeps(s, h, c, v);
    }
    SizeSame(s, s1);
    var n1 := s1.nodes[c];
    InvParts(s1, h);
    if n1.votes > Size(s) / 2 {
      CountedMajority(s1, h, c);
      ElectedKeeps(s1, h, c, n1.votes);
      h' := Elected(h, s1, c);
      assert n1 == n1.(votes := n1.votes);
    } else {
      h' := h;
      ExtendsReflexive(h);
    }
  }

  /** The candidate's half of a vote. */
  lemma HearKeeps(s: Cluster, h: History, v: NodeId, c: NodeId, resp: VoteResponse) returns (h': History)
    requires WellFormed(s) && c in s.nodes && v in s.nodes && Inv(s, h)
    requires resp.granted && resp.term <= s.nodes[c].term && s.nodes[c].role.Candidate? ==>
               FitsCandidacy(s, h, v, c, resp)
    ensures Inv(Hear(s, c, v, resp), h') && Extends(h, h') && h'.acks == h.acks
  {
    hide Inv, Extends, Indexed;
    var n := s.nodes[c];
    h' := h;
    ExtendsReflexive(h);
    if resp.term > n.term {
      StepDownKeeps(s, h, c, resp.term);
    } else if n.role.Candidate? {
      h' := HearKeepsCandidate(s, h, v, c, resp);
    } else {
      assert s.nodes[c := n] == s.nodes;
      CountedFree(s, h, c, s.counted[c] + {v});
    }
  }

  lemma SizeSame(s: Cluster, s': Cluster)
    requires s'.nodes.Keys == s.nodes.Keys
    ensures Size(s') == Size(s)
  {
    assert |s'.nodes.Keys| == |s.nodes.Keys|;
  }

  /** A vote round trip whose reply is heard, under the weaker rule that the grant may be counted. */
  lemma HeardKeeps(s: Cluster, h: History, req: VoteRequest, v: NodeId) returns (h': History)
    requires WellFormed(s) && req in s.requests && v in s.nodes && Inv(s, h)
    requires Fits(s, req, v)
    ensures var (n, resp) := RequestVote(s.nodes[v], req);
            Inv(Hear(With(s, v, n), req.candidate, v, resp), h')
    ensures Extends(h, h') && h'.acks == h.acks
  {
    hide Inv, Extends, Indexed, Fresh;
    var h1 := RequestVoteKeeps(s, h, v, req);
    var (n, resp) := RequestVote(s.nodes[v], req);
    var s1 := With(s, v, n);
    SizeSame(s, s1);
    h' := HearKeeps(s1, h1, v, req.candidate, resp);
    ExtendsTransitive(h, h1, h');
  }

  /** The reply, if it is a grant to a standing candidate, is for this candidacy and may be counted. */
  ghost predicate Fits(s: Cluster, req: VoteRequest, v: NodeId)
    requires WellFormed(s) && req in s.requests && v in s.nodes
  {
    var (n, resp) := RequestVote(s.nodes[v], req);
    var c := With(s, v, n).nodes[req.candidate];
    resp.granted && resp.term <= c.term && c.role.Candidate? ==>
      c.term == req.term && resp.term == req.term && MayCount(s, req.candidate, v)
  }

  lemma VoteKeeps(s: Cluster, h: History, req: VoteRequest, v: NodeId, heard: bool) returns (h': History)
    requires WellFormed(s) && Enabled(s, Vote(req, v, heard)) && Inv(s, h)
    ensures Inv(Apply(s, Vote(req, v, heard)), h') && Extends(h, h') && h'.acks == h.acks
  {
    if heard { ReplyFits(s, req, v); }
    hide Inv, Extends, Indexed, Fresh, Fits;
    if heard {
      h' := HeardKeeps(s, h, req, v);
    } else {
      h' := RequestVoteKeeps(s, h, v, req);
    }
  }

  /** The delivery rule, restated at the moment the reply arrives. */
  lemma ReplyFits(s: Cluster, req: VoteRequest, v: NodeId)
    requires WellFormed(s) && Enabled(s, Vote(req, v, true))
    ensures Fits(s, req, v)
  {
    hide Fresh, Indexed;
  }

  // --------------------------------------------------------------- the other steps

  lemma ConfigureKeeps(s: Cluster, h: History, i: NodeId, peers: seq<NodeId>)
    requires WellFormed(s) && Enabled(s, Configure(i, peers)) && Inv(s, h)
    ensures Inv(Apply(s, Configure(i, peers)), h)
  {
    hide Inv, Indexed, BallotsInv, RequestsInv, LeadersInv, CountInv, MatchInv;
    InvParts(s, h);
    CommitAt(s.nodes, i);
    IndexedLast(s.nodes[i].log);
    if s.nodes[i].role.Leader? {
      LeaderNext(s.nodes, h.acks, i);
    }
    BookkeepKeeps(s, h, i, ConfigureCluster(s.nodes[i], peers));
  }

  lemma BootAloneKeeps(s: Cluster, h: History, i: NodeId) returns (h': History)
    requires WellFormed(s) && Enabled(s, BootAlone(i)) && Inv(s, h)
    ensures Inv(Apply(s, BootAlone(i)), h') && Extends(h, h') && h'.acks == h.acks
  {
    hide Inv, Extends, Indexed, Apply;
    BootAloneElects(s, i);
    var h1 := ElectKeeps(s, h, i);
    var s1 := Apply(s, Elect(i));
    SizeSame(s, s1);
    var lead := TakeLead(s1.nodes[i].(votes := 2));
    ElectedKeeps(s1, h1, i, 2);
    h' := Elected(h1, s1, i);
    ExtendsTransitive(h, h1, h');
    DropRequests(With(s1, i, lead), h', s.requests);
    BootAloneState(s, i);
  }

  lemma BootAloneElects(s: Cluster, i: NodeId)
    requires WellFormed(s) && Enabled(s, BootAlone(i))
    ensures Enabled(s, Elect(i))
    ensures var s1 := Apply(s, Elect(i));
            s1.nodes[i].role.Candidate? && s1.counted[i] == {i} && Majority(s1.nodes, {i}) && s1.nodes[i].id == i
            && s.requests <= s1.requests
  {
    hide Indexed;
    SizeSame(s, Apply(s, Elect(i)));
  }

  /** Booting alone is starting an election and winning it, without a request. */
  lemma BootAloneState(s: Cluster, i: NodeId)
    requires WellFormed(s) && Enabled(s, BootAlone(i))
    ensures var s1 := Apply(s, Elect(i));
            Apply(s, BootAlone(i)) == With(s1, i, TakeLead(s1.nodes[i].(votes := 2))).(requests := s.requests)
  {
    hide Indexed;
    var n := s.nodes[i];
    var m := StartElection(n).0;
    assert BecomeLeaderForSingleNode(n) == TakeLead(m.(votes := 2));
    assert s.nodes[i := m][i := TakeLead(m.(votes := 2))] == s.nodes[i := TakeLead(m.(votes := 2))];
  }

  /** Forgetting requests costs nothing. */
  lemma DropRequests(s: Cluster, h: History, requests: set<VoteRequest>)
    requires Inv(s, h) && requests <= s.requests
    ensures Inv(s.(requests := requests), h)
  {
    DropRequestsParts(s, h, requests);
    hide LogsInv, TermLogInv, LeadersInv, BallotsInv, FreshInv, CountInv, RequestsInv, ElectionsInv, AcksInv, VotesInv,
      MatchInv, Indexed;
  }

  lemma DropRequestsParts(s: Cluster, h: History, requests: set<VoteRequest>)
    requires CountInv(s, h) && RequestsInv(s) && requests <= s.requests
    ensures CountInv(s.(requests := requests), h) && RequestsInv(s.(requests := requests))
  {
  }

  /** Acknowledgements enter the history only when a node really holds the entry. */
  ghost predicate AcksWitnessed(h: History, h': History, s': Cluster) {
    forall a :: a in h'.acks && a !in h.acks ==> exists i :: i in s'.nodes && a in AcksOf(i, s'.nodes[i])
  }

  /** Every enabled step keeps the invariant and only adds to the history. */
  lemma StepKeeps(s: Cluster, h: History, step: Step) returns (h': History)
    requires WellFormed(s) && Enabled(s, step) && Inv(s, h)
    ensures Inv(Apply(s, step), h') && Extends(h, h') && AcksWitnessed(h, h', Apply(s, step))
  {
    hide Inv, Extends, Apply, Indexed, AcksOf;
    match step
    case Elect(c) => h' := ElectKeeps(s, h, c);
    case Vote(req, v, heard) => h' := VoteKeeps(s, h, req, v, heard);
    case Client(l, cmd) => h' := ClientKeeps(s, h, l, cmd);
    case Replicate(l, f, heard) => h' := ReplicateKeeps(s, h, l, f, heard);
    case Configure(i, peers) => h' := h; ExtendsReflexive(h); ConfigureKeeps(s, h, i, peers);
    case BootAlone(i) => h' := BootAloneKeeps(s, h, i);
  }
}
