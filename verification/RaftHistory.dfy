/** What a run leaves behind that the nodes forget - ballots, elections, the log of
    each term's leader, acknowledgements - and the invariant that ties this
    history to the nodes. */
module RaftHistory {
  import opened Common
  import opened RaftNode
  import opened RaftCluster

  /** A voter's first grant in a term, with the voter's log at that moment. */
  datatype Ballot = Ballot(candidate: NodeId, log: seq<Entry>)

  /** An election won: the winner, the voters counted, and the winner's log at that moment. */
  datatype Election = Election(leader: NodeId, quorum: set<NodeId>, log: seq<Entry>)

  /** `termLog[t]` is the log of term `t`'s leader, as long as it ever was while
      leading. `(v, t, k) in acks` says that `v`, while in term `t`, held an entry
      of term `t` at position `k`. */
  datatype History = History(
    ballots: map<(nat, NodeId), Ballot>,
    elections: map<nat, Election>,
    termLog: map<nat, seq<Entry>>,
    acks: set<(NodeId, nat, nat)>)

  type Nodes = map<NodeId, Node>

  const NoHistory := History(map[], map[], map[], {})

  // ------------------------------------------------------------------- on logs

  predicate Has(log: seq<Entry>, t: nat, k: nat) {
    k < |log| && log[k].term == t
  }

  ghost predicate Sorted(log: seq<Entry>) {
    forall j, k :: 0 <= j <= k < |log| ==> log[j].term <= log[k].term
  }

  ghost predicate TermsUpTo(log: seq<Entry>, t: nat) {
    forall k :: 0 <= k < |log| ==> log[k].term <= t
  }

  /** Every prefix that ends in an entry of term `t` is a prefix of term `t`'s leader log. */
  ghost predicate Canonical(log: seq<Entry>, termLog: map<nat, seq<Entry>>) {
    forall k :: 0 <= k < |log| ==>
                  && log[k].term in termLog
                  && k < |termLog[log[k].term]|
                  && log[..k + 1] == termLog[log[k].term][..k + 1]
  }

  ghost predicate LogOk(log: seq<Entry>, termLog: map<nat, seq<Entry>>) {
    Indexed(log) && Sorted(log) && Canonical(log, termLog)
  }

  predicate FreshLog(a: seq<Entry>, b: seq<Entry>) {
    LastTerm(a) > LastTerm(b) || (LastTerm(a) == LastTerm(b) && |a| >= |b|)
  }

  function AcksOf(i: NodeId, n: Node): set<(NodeId, nat, nat)> {
    set k | 0 <= k < |n.log| && n.log[k].term == n.term :: (i, n.term, k)
  }

  // ------------------------------------------------------------- the invariant

  ghost predicate LogsInv(ns: Nodes, h: History) {
    && (forall i :: i in ns ==> LogOk(ns[i].log, h.termLog) && TermsUpTo(ns[i].log, ns[i].term))
    && (forall t :: t in h.termLog ==> LogOk(h.termLog[t], h.termLog) && TermsUpTo(h.termLog[t], t))
    && (forall b :: b in h.ballots ==> LogOk(h.ballots[b].log, h.termLog))
  }

  /** A term's leader log is the log it won with, of earlier terms, then entries of its own. */
  ghost predicate TermLogInv(h: History) {
    && h.termLog.Keys == h.elections.Keys
    && (forall t :: t in h.elections ==>
                      && t > 0
                      && h.elections[t].log <= h.termLog[t]
                      && (forall k :: 0 <= k < |h.elections[t].log| ==> h.termLog[t][k].term < t)
                      && (forall k :: |h.elections[t].log| <= k < |h.termLog[t]| ==> h.termLog[t][k].term == t))
  }

  ghost predicate LeadersInv(ns: Nodes, h: History) {
    && (forall i :: i in ns && ns[i].role.Leader? ==>
                      && ns[i].term in h.elections
                      && h.elections[ns[i].term].leader == i
                      && ns[i].term in h.termLog
                      && h.termLog[ns[i].term] == ns[i].log)
    && (forall t :: t in h.elections ==>
                      var c := h.elections[t].leader;
                      && c in ns
                      && (ns[c].term > t || (ns[c].term == t && ns[c].role.Leader?)))
  }

  ghost predicate BallotsInv(ns: Nodes, h: History) {
    && (forall t, v :: (t, v) in h.ballots ==>
                         && t > 0 && v in ns && t <= ns[v].term
                         && h.ballots[(t, v)].candidate in ns
                         && t <= ns[h.ballots[(t, v)].candidate].term)
    && (forall v :: v in ns && (ns[v].term, v) in h.ballots ==>
                      var t, n := ns[v].term, ns[v];
                      && n.votedFor.Some?
                      && (h.ballots[(t, v)].candidate == n.votedFor.value
                          || (t in h.elections && h.elections[t].leader == n.votedFor.value)))
  }

  /** A standing candidate's log is at least as fresh as its voters' logs were. */
  ghost predicate FreshInv(ns: Nodes, h: History) {
    forall t, v :: (t, v) in h.ballots && h.ballots[(t, v)].candidate in ns ==>
                     var c := ns[h.ballots[(t, v)].candidate];
                     c.term == t && c.role.Candidate? ==> FreshLog(c.log, h.ballots[(t, v)].log)
  }

  /** A candidate's vote count stands for distinct voters - or, in a cluster of at most
      three, for at least one voter besides itself, which is a majority there. */
  predicate Backed(votes: nat, voters: set<NodeId>, size: nat) {
    votes <= |voters| || (size <= 3 && |voters| >= 2)
  }

  ghost predicate CountInv(s: Cluster, h: History)
  {
    forall c :: c in s.nodes && s.nodes[c].role.Candidate? ==>
                  && c in s.counted && c in s.counted[c]
                  && Backed(s.nodes[c].votes, s.counted[c], Size(s))
                  && CountedOk(s, h, c)
  }

  /** The grant of `v` may be counted for `c`: it is new, or the cluster is so small that
      counting it again does no harm. */
  predicate MayCount(s: Cluster, c: NodeId, v: NodeId)
    requires c in s.counted
  {
    v !in s.counted[c] || (v != c && Size(s) <= 3)
  }

  ghost predicate RequestsInv(s: Cluster) {
    forall r :: r in s.requests && r.candidate in s.nodes ==>
                  var c := s.nodes[r.candidate];
                  && 0 < r.term <= c.term
                  && (r.term == c.term && c.role.Candidate? ==>
                        r.lastIndex == |c.log| && r.lastTerm == LastTerm(c.log))
  }

  ghost predicate CountedOk(s: Cluster, h: History, c: NodeId)
    requires c in s.nodes && c in s.counted
  {
    forall v :: v in s.counted[c] ==>
                  && v in s.nodes
                  && (s.nodes[c].term, v) in h.ballots
                  && h.ballots[(s.nodes[c].term, v)].candidate == c
  }

  ghost predicate ElectionsInv(ns: Nodes, h: History) {
    forall t :: t in h.elections ==>
                  && Majority(ns, h.elections[t].quorum)
                  && forall v :: v in h.elections[t].quorum ==>
                                   && (t, v) in h.ballots
                                   && h.ballots[(t, v)].candidate == h.elections[t].leader
                                   && FreshLog(h.elections[t].log, h.ballots[(t, v)].log)
  }

  /** Between term `t` and term `u` some leader was elected without entry `(t, k)`. */
  ghost predicate Lost(elections: map<nat, Election>, t: nat, k: nat, u: nat) {
    exists w :: w in elections && t < w < u && !Has(elections[w].log, t, k)
  }

  ghost predicate AcksInv(ns: Nodes, h: History) {
    && (forall i :: i in ns ==> AcksOf(i, ns[i]) <= h.acks)
    && (forall v, t, k :: (v, t, k) in h.acks ==>
                            && v in ns && t <= ns[v].term
                            && t in h.termLog && Has(h.termLog[t], t, k)
                            && (Has(ns[v].log, t, k) || Lost(h.elections, t, k, ns[v].term + 1)))
  }

  /** What a voter acknowledged before it voted was still there when it voted, or already lost. */
  ghost predicate VotesInv(h: History) {
    forall v, t, k, u :: (v, t, k) in h.acks && (u, v) in h.ballots && t < u
                         && (u in h.elections ==> v in h.elections[u].quorum)
                         ==> Has(h.ballots[(u, v)].log, t, k) || Lost(h.elections, t, k, u)
  }

  /** A peer `p` of leader `l` whose match index is `m`. */
  ghost predicate MatchOk(ns: Nodes, acks: set<(NodeId, nat, nat)>, l: NodeId, p: NodeId, m: nat)
    requires l in ns
  {
    var n := ns[l];
    && m <= |n.log|
    && (m > 0 ==>
          && p in ns && p != l && ns[p].term >= n.term
          && (ns[p].term == n.term ==> m <= |ns[p].log| && ns[p].log[..m] == n.log[..m])
          && (forall k :: 0 <= k < m && n.log[k].term == n.term ==> (p, n.term, k) in acks))
  }

  ghost predicate MatchInv(ns: Nodes, acks: set<(NodeId, nat, nat)>) {
    forall l :: l in ns && ns[l].role.Leader? ==>
                  && (forall p :: p in ns[l].matched ==> MatchOk(ns, acks, l, p, ns[l].matched[p]))
                  && (forall p :: p in ns[l].next ==> ns[l].next[p] <= |ns[l].log| + 1)
  }

  ghost predicate CommitInv(ns: Nodes) {
    forall i :: i in ns ==> ns[i].commit <= |ns[i].log|
  }

  ghost predicate Inv(s: Cluster, h: History) {
    && WellFormed(s)
    && LogsInv(s.nodes, h)
    && TermLogInv(h)
    && LeadersInv(s.nodes, h)
    && BallotsInv(s.nodes, h)
    && FreshInv(s.nodes, h)
    && CountInv(s, h)
    && RequestsInv(s)
    && ElectionsInv(s.nodes, h)
    && AcksInv(s.nodes, h)
    && VotesInv(h)
    && MatchInv(s.nodes, h.acks)
    && CommitInv(s.nodes)
  }

  /** Later history keeps earlier history. */
  ghost predicate Extends(h: History, h': History) {
    && (forall b :: b in h.ballots ==> b in h'.ballots && h'.ballots[b] == h.ballots[b])
    && (forall t :: t in h.elections ==> t in h'.elections && h'.elections[t] == h.elections[t])
    && (forall t :: t in h.termLog ==> t in h'.termLog && h.termLog[t] <= h'.termLog[t])
    && h.acks <= h'.acks
  }

  lemma InitInv(ids: set<NodeId>)
    ensures Inv(Init(ids), NoHistory)
  {
  }

  lemma ExtendsReflexive(h: History)
    ensures Extends(h, h)
  {
  }

  lemma ExtendsTransitive(a: History, b: History, c: History)
    requires Extends(a, b) && Extends(b, c)
    ensures Extends(a, c)
  {
  }

  lemma CanonicalExtends(log: seq<Entry>, h: History, h': History)
    requires Canonical(log, h.termLog) && Extends(h, h')
    ensures Canonical(log, h'.termLog)
  {
    forall k | 0 <= k < |log|
      ensures log[k].term in h'.termLog && k < |h'.termLog[log[k].term]|
              && log[..k + 1] == h'.termLog[log[k].term][..k + 1]
    {
      var t := log[k].term;
      assert h'.termLog[t][..k + 1] == h.termLog[t][..k + 1];
    }
  }

  // ------------------------------------------------- changes that leave a log alone

  /** A change that keeps the log, never lowers the term, and neither gains nor
      loses leadership within a term. */
  ghost predicate Quiet(n: Node, n': Node) {
    && n'.id == n.id && n'.log == n.log && n'.commit <= |n.log|
    && n'.term >= n.term
    && (n'.role.Leader? <==> n.role.Leader? && n'.term == n.term)
  }

  lemma QuietLogs(ns: Nodes, h: History, i: NodeId, n': Node)
    requires i in ns && Quiet(ns[i], n')
    requires LogsInv(ns, h)
    ensures LogsInv(ns[i := n'], h)
  {
    hide LogOk;
  }

  lemma QuietLeaders(ns: Nodes, h: History, i: NodeId, n': Node)
    requires i in ns && Quiet(ns[i], n')
    requires LeadersInv(ns, h)
    ensures LeadersInv(ns[i := n'], h)
  {
  }

  lemma SameElections(ns: Nodes, h: History, i: NodeId, n': Node)
    requires i in ns
    requires ElectionsInv(ns, h)
    ensures ElectionsInv(ns[i := n'], h)
  {
    hide FreshLog;
    assert ns[i := n'].Keys == ns.Keys;
    assert |ns[i := n'].Keys| == |ns.Keys|;
  }

  lemma LostMonotone(elections: map<nat, Election>, t: nat, k: nat, u: nat, u': nat)
    requires Lost(elections, t, k, u) && u <= u'
    ensures Lost(elections, t, k, u')
  {
    var w :| w in elections && t < w < u && !Has(elections[w].log, t, k);
    assert t < w < u';
  }

  lemma QuietAcks(ns: Nodes, h: History, i: NodeId, n': Node)
    requires i in ns && Quiet(ns[i], n')
    requires AcksInv(ns, h)
    requires TermsUpTo(ns[i].log, ns[i].term)
    ensures AcksInv(ns[i := n'], h)
  {
    hide Lost;
    var ns' := ns[i := n'];
    forall v, t, k | (v, t, k) in h.acks
      ensures Has(ns'[v].log, t, k) || Lost(h.elections, t, k, ns'[v].term + 1)
    {
      if !Has(ns[v].log, t, k) {
        LostMonotone(h.elections, t, k, ns[v].term + 1, ns'[v].term + 1);
      }
    }
    if n'.term > ns[i].term {
      assert AcksOf(i, n') == {};
    } else {
      assert AcksOf(i, n') == AcksOf(i, ns[i]);
    }
  }

  lemma QuietMatch(ns: Nodes, acks: set<(NodeId, nat, nat)>, i: NodeId, n': Node)
    requires i in ns && Quiet(ns[i], n')
    requires n'.role.Leader? ==> n'.matched == ns[i].matched && n'.next == ns[i].next
    requires MatchInv(ns, acks)
    ensures MatchInv(ns[i := n'], acks)
  {
    var ns' := ns[i := n'];
    forall l, p | l in ns' && ns'[l].role.Leader? && p in ns'[l].matched
      ensures MatchOk(ns', acks, l, p, ns'[l].matched[p])
    {
      assert MatchOk(ns, acks, l, p, ns[l].matched[p]);
    }
  }

  /** Within a term a cast vote stays, unless it now names the term's leader. */
  ghost predicate KeepsVote(h: History, n: Node, n': Node) {
    n'.term == n.term && n'.votedFor != n.votedFor ==>
      || (n.term, n.id) !in h.ballots
      || (n'.votedFor.Some? && n.term in h.elections && h.elections[n.term].leader == n'.votedFor.value)
  }

  /** No candidacy begins and no vote is counted. */
  ghost predicate KeepsCandidacy(n: Node, n': Node) {
    n'.role.Candidate? ==> n.role.Candidate? && n'.term == n.term && n'.votes == n.votes
  }

  lemma QuietBallots(ns: Nodes, h: History, i: NodeId, n': Node)
    requires i in ns && ns[i].id == i
    requires n'.term >= ns[i].term && KeepsVote(h, ns[i], n')
    requires BallotsInv(ns, h)
    ensures BallotsInv(ns[i := n'], h)
  {
  }

  lemma QuietCandidates(s: Cluster, h: History, i: NodeId, n': Node)
    requires WellFormed(s) && i in s.nodes && n'.id == i && Indexed(n'.log)
    requires n'.term >= s.nodes[i].term && KeepsCandidacy(s.nodes[i], n')
    requires n'.role.Candidate? ==> n'.log == s.nodes[i].log
    requires FreshInv(s.nodes, h) && CountInv(s, h) && RequestsInv(s)
    ensures FreshInv(With(s, i, n').nodes, h) && CountInv(With(s, i, n'), h) && RequestsInv(With(s, i, n'))
  {
    hide Indexed, FreshLog;
  }

  lemma NodeLog(ns: Nodes, h: History, i: NodeId)
    requires LogsInv(ns, h) && i in ns
    ensures LogOk(ns[i].log, h.termLog) && TermsUpTo(ns[i].log, ns[i].term)
  {
  }

  lemma QuietKeeps(s: Cluster, h: History, i: NodeId, n': Node)
    requires Inv(s, h) && i in s.nodes && Quiet(s.nodes[i], n') && KeepsVote(h, s.nodes[i], n')
    requires KeepsCandidacy(s.nodes[i], n')
    requires n'.role.Leader? ==> n'.matched == s.nodes[i].matched && n'.next == s.nodes[i].next
    ensures Inv(With(s, i, n'), h)
  {
    hide LogsInv, TermLogInv, LeadersInv, BallotsInv, FreshInv, CountInv, RequestsInv, ElectionsInv, AcksInv, VotesInv,
      MatchInv, Indexed;
    NodeLog(s.nodes, h, i);
    QuietLogs(s.nodes, h, i, n');
    QuietLeaders(s.nodes, h, i, n');
    QuietBallots(s.nodes, h, i, n');
    QuietCandidates(s, h, i, n');
    SameElections(s.nodes, h, i, n');
    QuietAcks(s.nodes, h, i, n');
    QuietMatch(s.nodes, h.acks, i, n');
  }

  // ------------------------------------------------------- one change of one node

  /** A node learns of a higher term. */
  lemma StepDownKeeps(s: Cluster, h: History, i: NodeId, term: nat)
    requires Inv(s, h) && i in s.nodes && term > s.nodes[i].term
    ensures Inv(With(s, i, StepDown(s.nodes[i], term)), h)
  {
    assert s.nodes[i].commit <= |s.nodes[i].log|;
    hide Inv;
    QuietKeeps(s, h, i, StepDown(s.nodes[i], term));
  }

  // ---------------------------------------------------------------------- ballots

  ghost function CastBallot(h: History, n: Node, c: NodeId): History {
    if (n.term, n.id) in h.ballots then h
    else h.(ballots := h.ballots[(n.term, n.id) := Ballot(c, n.log)])
  }

  lemma BallotKeepsVotes(ns: Nodes, h: History, v: NodeId, c: NodeId)
    requires v in ns && ns[v].id == v && (ns[v].term, v) !in h.ballots
    requires AcksInv(ns, h) && VotesInv(h)
    requires forall t :: t in h.elections && v in h.elections[t].quorum ==> (t, v) in h.ballots
    ensures VotesInv(CastBallot(h, ns[v], c))
  {
    var h' := CastBallot(h, ns[v], c);
    var n := ns[v];
    forall w, t, k, u | (w, t, k) in h'.acks && (u, w) in h'.ballots && t < u
                        && (u in h'.elections ==> w in h'.elections[u].quorum)
      ensures Has(h'.ballots[(u, w)].log, t, k) || Lost(h'.elections, t, k, u)
    {
      if (u, w) in h.ballots {
        assert Has(h.ballots[(u, w)].log, t, k) || Lost(h.elections, t, k, u);
      } else if !Has(n.log, t, k) {
        var x :| x in h.elections && t < x < n.term + 1 && !Has(h.elections[x].log, t, k);
        assert x != u;
      }
    }
  }

  lemma BallotKeepsRest(s: Cluster, h: History, v: NodeId, c: NodeId)
    requires WellFormed(s) && v in s.nodes && c in s.nodes && (s.nodes[v].term, v) !in h.ballots
    requires s.nodes[v].votedFor == Some(c) && 0 < s.nodes[v].term <= s.nodes[c].term
    requires s.nodes[c].term == s.nodes[v].term && s.nodes[c].role.Candidate? ==>
               FreshLog(s.nodes[c].log, s.nodes[v].log)
    requires LogsInv(s.nodes, h) && BallotsInv(s.nodes, h) && FreshInv(s.nodes, h) && CountInv(s, h)
    ensures var h' := CastBallot(h, s.nodes[v], c);
            LogsInv(s.nodes, h') && BallotsInv(s.nodes, h') && FreshInv(s.nodes, h') && CountInv(s, h')
  {
    hide LogsInv, BallotsInv, FreshInv, CountInv, FreshLog, Indexed;
    BallotKeepsBallots(s.nodes, h, v, c);
    BallotKeepsFresh(s.nodes, h, v, c);
    BallotKeepsLogged(s.nodes, h, v, c);
    BallotKeepsCount(s, h, v, c);
  }

  lemma BallotKeepsLogged(ns: Nodes, h: History, v: NodeId, c: NodeId)
    requires v in ns && LogsInv(ns, h)
    ensures LogsInv(ns, CastBallot(h, ns[v], c))
  {
    hide LogOk, Indexed;
  }

  lemma BallotKeepsBallots(ns: Nodes, h: History, v: NodeId, c: NodeId)
    requires v in ns && ns[v].id == v && c in ns && (ns[v].term, v) !in h.ballots && BallotsInv(ns, h)
    requires ns[v].votedFor == Some(c) && 0 < ns[v].term <= ns[c].term
    ensures BallotsInv(ns, CastBallot(h, ns[v], c))
  {
  }

  lemma BallotKeepsFresh(ns: Nodes, h: History, v: NodeId, c: NodeId)
    requires v in ns && ns[v].id == v && c in ns && (ns[v].term, v) !in h.ballots && FreshInv(ns, h)
    requires ns[c].term == ns[v].term && ns[c].role.Candidate? ==> FreshLog(ns[c].log, ns[v].log)
    ensures FreshInv(ns, CastBallot(h, ns[v], c))
  {
    hide FreshLog;
  }

  lemma BallotKeepsCount(s: Cluster, h: History, v: NodeId, c: NodeId)
    requires v in s.nodes && s.nodes[v].id == v && (s.nodes[v].term, v) !in h.ballots && CountInv(s, h)
    ensures CountInv(s, CastBallot(h, s.nodes[v], c))
  {
    hide Backed;
  }

  lemma BallotKeepsHistory(ns: Nodes, h: History, v: NodeId, c: NodeId)
    requires v in ns
    requires TermLogInv(h) && LeadersInv(ns, h) && ElectionsInv(ns, h) && AcksInv(ns, h)
    ensures var h' := CastBallot(h, ns[v], c);
            && TermLogInv(h') && LeadersInv(ns, h') && ElectionsInv(ns, h') && AcksInv(ns, h')
            && Extends(h, h')
  {
    hide TermLogInv, LeadersInv, ElectionsInv, AcksInv;
    BallotKeepsLogs(ns, h, v, c);
    BallotKeepsElections(ns, h, v, c);
  }

  lemma BallotKeepsLogs(ns: Nodes, h: History, v: NodeId, c: NodeId)
    requires v in ns && TermLogInv(h) && LeadersInv(ns, h) && AcksInv(ns, h)
    ensures var h' := CastBallot(h, ns[v], c);
            TermLogInv(h') && LeadersInv(ns, h') && AcksInv(ns, h')
  {
    hide FreshLog, Majority, Has, Lost, AcksOf;
  }

  lemma BallotKeepsElections(ns: Nodes, h: History, v: NodeId, c: NodeId)
    requires v in ns && ElectionsInv(ns, h)
    ensures ElectionsInv(ns, CastBallot(h, ns[v], c))
  {
    hide FreshLog, Majority;
  }

  /** A ballot enters the history once its voter's record names the candidate. */
  lemma BallotKeeps(s: Cluster, h: History, v: NodeId, c: NodeId)
    requires Inv(s, h) && v in s.nodes && c in s.nodes
    requires s.nodes[v].votedFor == Some(c) && 0 < s.nodes[v].term <= s.nodes[c].term
    requires s.nodes[c].term == s.nodes[v].term && s.nodes[c].role.Candidate? ==>
               FreshLog(s.nodes[c].log, s.nodes[v].log)
    ensures Inv(s, CastBallot(h, s.nodes[v], c)) && Extends(h, CastBallot(h, s.nodes[v], c))
  {
    assert forall t :: t in h.elections && v in h.elections[t].quorum ==> (t, v) in h.ballots;
    hide LogsInv, TermLogInv, LeadersInv, BallotsInv, FreshInv, CountInv, RequestsInv, ElectionsInv, AcksInv, VotesInv,
      MatchInv, Indexed, FreshLog;
    if (s.nodes[v].term, v) !in h.ballots {
      BallotKeepsVotes(s.nodes, h, v, c);
      BallotKeepsRest(s, h, v, c);
      BallotKeepsHistory(s.nodes, h, v, c);
    } else {
      ExtendsReflexive(h);
    }
  }

  // --------------------------------------------------------------- candidacies

  lemma CandidacyVotes(s: Cluster, h: History, c: NodeId)
    requires WellFormed(s) && c in s.nodes && s.nodes[c].term > 0
    requires FreshInv(s.nodes, h) && CountInv(s, h) && RequestsInv(s)
    requires (s.nodes[c].term, c) in h.ballots && h.ballots[(s.nodes[c].term, c)] == Ballot(c, s.nodes[c].log)
    requires forall v :: (s.nodes[c].term, v) in h.ballots && h.ballots[(s.nodes[c].term, v)].candidate == c ==> v == c
    requires forall r :: r in s.requests && r.candidate == c ==> r.term < s.nodes[c].term
    ensures var n := s.nodes[c];
            var n' := n.(role := Candidate, votes := 1);
            var req := VoteRequest(c, n.term, LastIndex(n.log), LastTerm(n.log));
            var s' := Cluster(s.nodes[c := n'], s.requests + {req}, s.counted[c := {c}]);
            WellFormed(s') && FreshInv(s'.nodes, h) && CountInv(s', h) && RequestsInv(s')
  {
    hide FreshLog;
    var n := s.nodes[c];
    assert LastIndex(n.log) == |n.log|;
    assert FreshLog(n.log, n.log) by { FreshLogReflexive(n.log); }
  }

  lemma FreshLogReflexive(log: seq<Entry>)
    ensures FreshLog(log, log)
  {
  }

  /** A node becomes a candidate, having voted for itself in a new term. */
  lemma CandidacyKeeps(s: Cluster, h: History, c: NodeId)
    requires Inv(s, h) && c in s.nodes && s.nodes[c].role.Follower? && s.nodes[c].term > 0
    requires (s.nodes[c].term, c) in h.ballots && h.ballots[(s.nodes[c].term, c)] == Ballot(c, s.nodes[c].log)
    requires forall v :: (s.nodes[c].term, v) in h.ballots && h.ballots[(s.nodes[c].term, v)].candidate == c ==> v == c
    requires forall r :: r in s.requests && r.candidate == c ==> r.term < s.nodes[c].term
    ensures var n := s.nodes[c];
            var n' := n.(role := Candidate, votes := 1);
            Inv(Cluster(s.nodes[c := n'], s.requests + {VoteRequest(c, n.term, LastIndex(n.log), LastTerm(n.log))},
                        s.counted[c := {c}]), h)
  {
    hide LogsInv, TermLogInv, LeadersInv, BallotsInv, FreshInv, CountInv, RequestsInv, ElectionsInv, AcksInv, VotesInv,
      MatchInv, Indexed;
    var n' := s.nodes[c].(role := Candidate, votes := 1);
    CandidacyVotes(s, h, c);
    hide WellFormed;
    NodeLog(s.nodes, h, c);
    QuietLogs(s.nodes, h, c, n');
    QuietLeaders(s.nodes, h, c, n');
    QuietBallots(s.nodes, h, c, n');
    SameElections(s.nodes, h, c, n');
    QuietAcks(s.nodes, h, c, n');
    QuietMatch(s.nodes, h.acks, c, n');
  }

  /** No vote was cast and no request sent for a candidacy that has not begun. */
  lemma NewCandidacy(s: Cluster, h: History, c: NodeId)
    requires Inv(s, h) && c in s.nodes
    ensures s.nodes[c].commit <= |s.nodes[c].log|
    ensures forall t, v :: t == s.nodes[c].term + 1 && (t, v) in h.ballots ==>
                             v != c && h.ballots[(t, v)].candidate != c
    ensures forall r :: r in s.requests && r.candidate == c ==> r.term < s.nodes[c].term + 1
  {
    hide LogsInv, TermLogInv, LeadersInv, FreshInv, CountInv, ElectionsInv, AcksInv, VotesInv, MatchInv, Indexed;
  }

  /** Starting an election: a new term, a vote for oneself, a candidacy. */
  lemma ElectKeeps(s: Cluster, h: History, c: NodeId) returns (h': History)
    requires Inv(s, h) && WellFormed(s) && Enabled(s, Elect(c))
    ensures Inv(Apply(s, Elect(c)), h') && Extends(h, h') && h'.acks == h.acks
  {
    hide Inv, Extends, Indexed;
    var n := s.nodes[c];
    NewCandidacy(s, h, c);
    StepDownKeeps(s, h, c, n.term + 1);
    var n1 := StepDown(n, n.term + 1);
    var s1 := With(s, c, n1);
    var n2 := n1.(votedFor := Some(c));
    QuietKeeps(s1, h, c, n2);
    var s2 := With(s1, c, n2);
    BallotKeeps(s2, h, c, c);
    h' := CastBallot(h, n2, c);
    CandidacyKeeps(s2, h', c);
    var n3 := n2.(role := Candidate, votes := 1);
    assert s.nodes[c := n3] == s2.nodes[c := n3];
  }

  ghost function Counted(s: Cluster, c: NodeId, v: NodeId): (s': Cluster)
    requires WellFormed(s) && c in s.nodes
    ensures WellFormed(s')
  {
    With(s, c, s.nodes[c].(votes := s.nodes[c].votes + 1)).(counted := s.counted[c := s.counted[c] + {v}])
  }

  lemma CountVotes(s: Cluster, h: History, c: NodeId, v: NodeId)
    requires WellFormed(s) && c in s.nodes && s.nodes[c].role.Candidate?
    requires v in s.nodes && MayCount(s, c, v)
    requires (s.nodes[c].term, v) in h.ballots && h.ballots[(s.nodes[c].term, v)].candidate == c
    requires FreshInv(s.nodes, h) && CountInv(s, h) && RequestsInv(s)
    ensures var s' := Counted(s, c, v);
            FreshInv(s'.nodes, h) && CountInv(s', h) && RequestsInv(s')
  {
    CountFresh(s, h, c, v);
    CountCounted(s, h, c, v);
    hide FreshInv, CountInv, Indexed;
  }

  lemma CountFresh(s: Cluster, h: History, c: NodeId, v: NodeId)
    requires WellFormed(s) && c in s.nodes && FreshInv(s.nodes, h)
    ensures FreshInv(Counted(s, c, v).nodes, h)
  {
    hide FreshLog, Indexed;
  }

  lemma CountCounted(s: Cluster, h: History, c: NodeId, v: NodeId)
    requires WellFormed(s) && c in s.nodes && s.nodes[c].role.Candidate? && v in s.nodes && MayCount(s, c, v)
    requires (s.nodes[c].term, v) in h.ballots && h.ballots[(s.nodes[c].term, v)].candidate == c && CountInv(s, h)
    ensures CountInv(Counted(s, c, v), h)
  {
    hide FreshLog, Indexed;
    StillBacked(s.nodes[c].votes, s.counted[c], c, v, Size(s));
    assert |Counted(s, c, v).nodes.Keys| == |s.nodes.Keys|;
    hide Backed;
  }

  lemma StillBacked(votes: nat, voters: set<NodeId>, c: NodeId, v: NodeId, size: nat)
    requires Backed(votes, voters, size) && c in voters && (v !in voters || (v != c && size <= 3))
    ensures Backed(votes + 1, voters + {v}, size)
  {
    if v in voters { SubsetCard({c, v}, voters); }
    assert v in voters ==> voters + {v} == voters;
  }

  /** A delivered grant is counted. */
  lemma CountKeeps(s: Cluster, h: History, c: NodeId, v: NodeId)
    requires WellFormed(s) && c in s.nodes && s.nodes[c].role.Candidate?
    requires v in s.nodes && MayCount(s, c, v)
    requires (s.nodes[c].term, v) in h.ballots && h.ballots[(s.nodes[c].term, v)].candidate == c
    requires Inv(s, h)
    ensures Inv(Counted(s, c, v), h)
  {
    hide LogsInv, TermLogInv, LeadersInv, BallotsInv, FreshInv, CountInv, RequestsInv, ElectionsInv, AcksInv, VotesInv,
      MatchInv, Indexed;
    assert s.nodes[c].id == c;
    hide WellFormed;
    var n' := s.nodes[c].(votes := s.nodes[c].votes + 1);
    assert Counted(s, c, v).nodes == s.nodes[c := n'];
    NodeLog(s.nodes, h, c);
    QuietLogs(s.nodes, h, c, n');
    QuietLeaders(s.nodes, h, c, n');
    QuietBallots(s.nodes, h, c, n');
    SameElections(s.nodes, h, c, n');
    QuietAcks(s.nodes, h, c, n');
    QuietMatch(s.nodes, h.acks, c, n');
    CountVotes(s, h, c, v);
  }

  // ----------------------------------------------------------------- elections

  /** Two majorities share a member. */
  lemma MajoritiesMeet(ns: Nodes, a: set<NodeId>, b: set<NodeId>) returns (v: NodeId)
    requires Majority(ns, a) && Majority(ns, b)
    ensures v in a && v in b
  {
    if a * b == {} {
      assert |a + b| == |a| + |b|;
      SubsetCard(a + b, ns.Keys);
      assert false;
    }
    v :| v in a * b;
  }

  ghost function Elected(h: History, s: Cluster, c: NodeId): History
    requires c in s.nodes && c in s.counted
  {
    var n := s.nodes[c];
    h.(elections := h.elections[n.term := Election(c, s.counted[c], n.log)],
       termLog := h.termLog[n.term := n.log])
  }

  /** Nobody has won a term in which a candidate just gathered a majority. */
  lemma NoLeaderYet(s: Cluster, h: History, c: NodeId)
    requires c in s.nodes && c in s.counted && s.nodes[c].role.Candidate? && Majority(s.nodes, s.counted[c])
    requires LeadersInv(s.nodes, h) && ElectionsInv(s.nodes, h) && CountedOk(s, h, c)
    ensures s.nodes[c].term !in h.elections
  {
    hide FreshLog;
    var t := s.nodes[c].term;
    if t in h.elections {
      var v := MajoritiesMeet(s.nodes, s.counted[c], h.elections[t].quorum);
      assert false;
    }
  }

  lemma LogOkExtends(log: seq<Entry>, h: History, h': History)
    requires LogOk(log, h.termLog) && Extends(h, h')
    ensures LogOk(log, h'.termLog)
  {
    CanonicalExtends(log, h, h');
  }

  lemma LogsExtend(ns: Nodes, h: History, h': History)
    requires LogsInv(ns, h) && Extends(h, h') && h'.ballots == h.ballots
    ensures forall i :: i in ns ==> LogOk(ns[i].log, h'.termLog) && TermsUpTo(ns[i].log, ns[i].term)
    ensures forall t :: t in h.termLog ==> LogOk(h.termLog[t], h'.termLog) && TermsUpTo(h.termLog[t], t)
    ensures forall b :: b in h'.ballots ==> LogOk(h'.ballots[b].log, h'.termLog)
  {
    hide LogOk, Extends;
    forall i | i in ns ensures LogOk(ns[i].log, h'.termLog) { LogOkExtends(ns[i].log, h, h'); }
    forall t | t in h.termLog ensures LogOk(h.termLog[t], h'.termLog) { LogOkExtends(h.termLog[t], h, h'); }
    forall b | b in h'.ballots ensures LogOk(h'.ballots[b].log, h'.termLog) { LogOkExtends(h.ballots[b].log, h, h'); }
  }

  lemma LostExtends(h: History, h': History, t: nat, k: nat, u: nat)
    requires Lost(h.elections, t, k, u) && Extends(h, h')
    ensures Lost(h'.elections, t, k, u)
  {
    var w :| w in h.elections && t < w < u && !Has(h.elections[w].log, t, k);
    assert w in h'.elections && t < w < u;
  }

  /** Acknowledgements survive a longer history in which no node changes log or term. */
  lemma AcksExtend(ns: Nodes, h: History, h': History)
    requires AcksInv(ns, h) && VotesInv(h) && Extends(h, h')
    requires h'.acks == h.acks && h'.ballots == h.ballots
    ensures AcksInv(ns, h') && VotesInv(h')
  {
    hide Lost;
    forall v, t, k | (v, t, k) in h'.acks
      ensures Has(ns[v].log, t, k) || Lost(h'.elections, t, k, ns[v].term + 1)
    {
      if !Has(ns[v].log, t, k) { LostExtends(h, h', t, k, ns[v].term + 1); }
    }
    forall v, t, k, u | (v, t, k) in h'.acks && (u, v) in h'.ballots && t < u
                        && (u in h'.elections ==> v in h'.elections[u].quorum)
      ensures Has(h'.ballots[(u, v)].log, t, k) || Lost(h'.elections, t, k, u)
    {
      if !Has(h'.ballots[(u, v)].log, t, k) { LostExtends(h, h', t, k, u); }
    }
  }

  lemma ElectedTermLog(s: Cluster, h: History, c: NodeId)
    requires c in s.nodes && c in s.counted && s.nodes[c].term !in h.elections && s.nodes[c].term > 0
    requires TermLogInv(h) && LogOk(s.nodes[c].log, h.termLog) && TermsUpTo(s.nodes[c].log, s.nodes[c].term)
    ensures TermLogInv(Elected(h, s, c)) && Extends(h, Elected(h, s, c))
  {
    hide LogOk, TermsUpTo;
    TermsBelow(h, s.nodes[c].log, s.nodes[c].term);
  }

  /** A term without a leader has no entries. */
  lemma TermsBelow(h: History, log: seq<Entry>, t: nat)
    requires h.termLog.Keys == h.elections.Keys && t !in h.elections && LogOk(log, h.termLog) && TermsUpTo(log, t)
    ensures forall k :: 0 <= k < |log| ==> log[k].term < t
  {
    hide Indexed, Sorted;
    forall k | 0 <= k < |log|
      ensures log[k].term < t
    {
      assert log[k].term in h.termLog;
    }
  }

  ghost predicate SameButRole(n: Node, n': Node) {
    n'.id == n.id && n'.log == n.log && n'.term == n.term && n'.votedFor == n.votedFor && n'.commit == n.commit
  }

  lemma ElectedLeaders(s: Cluster, h: History, c: NodeId, n': Node)
    requires c in s.nodes && c in s.counted && s.nodes[c].term !in h.elections
    requires SameButRole(s.nodes[c], n') && n'.role.Leader? && s.nodes[c].role.Candidate?
    requires LeadersInv(s.nodes, h)
    ensures LeadersInv(s.nodes[c := n'], Elected(h, s, c))
  {
  }

  lemma ElectedElections(s: Cluster, h: History, c: NodeId, n': Node)
    requires c in s.nodes && c in s.counted && s.nodes[c].term !in h.elections
    requires Majority(s.nodes, s.counted[c]) && CountedOk(s, h, c) && s.nodes[c].role.Candidate?
    requires ElectionsInv(s.nodes, h) && FreshInv(s.nodes, h)
    ensures ElectionsInv(s.nodes[c := n'], Elected(h, s, c))
  {
    hide FreshLog;
    assert ElectionsInv(s.nodes, Elected(h, s, c));
    SameElections(s.nodes, Elected(h, s, c), c, n');
  }

  lemma ElectedVotes(s: Cluster, h: History, c: NodeId, n': Node)
    requires WellFormed(s) && c in s.nodes && s.nodes[c].term !in h.elections
    requires SameButRole(s.nodes[c], n') && n'.role.Leader?
    requires BallotsInv(s.nodes, h) && FreshInv(s.nodes, h) && CountInv(s, h) && RequestsInv(s)
    ensures var s', h' := With(s, c, n'), Elected(h, s, c);
            BallotsInv(s'.nodes, h') && FreshInv(s'.nodes, h') && CountInv(s', h') && RequestsInv(s')
  {
    hide FreshLog, Indexed;
  }

  lemma ElectedMatch(ns: Nodes, acks: set<(NodeId, nat, nat)>, c: NodeId, n': Node)
    requires c in ns && SameButRole(ns[c], n') && n'.role.Leader?
    requires forall p :: p in n'.matched ==> n'.matched[p] == 0
    requires forall p :: p in n'.next ==> n'.next[p] == |n'.log| + 1
    requires MatchInv(ns, acks)
    ensures MatchInv(ns[c := n'], acks)
  {
    var ns' := ns[c := n'];
    forall l, p | l in ns' && ns'[l].role.Leader? && p in ns'[l].matched
      ensures MatchOk(ns', acks, l, p, ns'[l].matched[p])
    {
      if l != c { assert MatchOk(ns, acks, l, p, ns[l].matched[p]); }
    }
  }

  lemma SameAcks(ns: Nodes, h: History, c: NodeId, n': Node)
    requires c in ns && SameButRole(ns[c], n') && AcksInv(ns, h)
    ensures AcksInv(ns[c := n'], h)
  {
    hide Lost, Has;
    assert AcksOf(c, n') == AcksOf(c, ns[c]);
  }

  /** A candidate that counted a majority takes the lead. */
  lemma ElectedKeeps(s: Cluster, h: History, c: NodeId, votes: nat)
    requires WellFormed(s) && c in s.nodes && s.nodes[c].role.Candidate? && Majority(s.nodes, s.counted[c])
    requires Inv(s, h)
    ensures Inv(With(s, c, TakeLead(s.nodes[c].(votes := votes))), Elected(h, s, c))
    ensures Extends(h, Elected(h, s, c))
  {
    hide LogsInv, TermLogInv, LeadersInv, BallotsInv, FreshInv, CountInv, RequestsInv, ElectionsInv, AcksInv, VotesInv,
      MatchInv, CountedOk, Extends, LogOk, Majority, Indexed, LastIndex;
    CandidateFacts(s, h, c);
    var n' := TakeLead(s.nodes[c].(votes := votes));
    IndexedLast(s.nodes[c].log);
    var h' := Elected(h, s, c);
    NoLeaderYet(s, h, c);
    NodeLog(s.nodes, h, c);
    ElectedTermLog(s, h, c);
    ElectedLogs(s, h, c, n');
    ElectedLeaders(s, h, c, n');
    ElectedElections(s, h, c, n');
    ElectedVotes(s, h, c, n');
    AcksExtend(s.nodes, h, h');
    SameAcks(s.nodes, h', c, n');
    ElectedMatch(s.nodes, h.acks, c, n');
  }

  lemma IndexedLast(log: seq<Entry>)
    requires Indexed(log)
    ensures LastIndex(log) == |log|
  {
  }

  lemma CandidateFacts(s: Cluster, h: History, c: NodeId)
    requires WellFormed(s) && c in s.nodes && s.nodes[c].role.Candidate? && Majority(s.nodes, s.counted[c])
    requires CountInv(s, h) && BallotsInv(s.nodes, h)
    ensures CountedOk(s, h, c) && s.nodes[c].term > 0
  {
    hide Indexed;
    assert s.counted[c] != {};
    var v :| v in s.counted[c];
    assert (s.nodes[c].term, v) in h.ballots;
  }

  lemma ElectedLogs(s: Cluster, h: History, c: NodeId, n': Node)
    requires c in s.nodes && c in s.counted && SameButRole(s.nodes[c], n')
    requires LogsInv(s.nodes, h) && Extends(h, Elected(h, s, c))
    ensures LogsInv(s.nodes[c := n'], Elected(h, s, c))
  {
    LogsExtend(s.nodes, h, Elected(h, s, c));
    hide LogOk, Extends;
  }

  // ------------------------------------------------------------ growing the log

  ghost function Acked(h: History, n: Node): History {
    h.(acks := h.acks + AcksOf(n.id, n))
  }

  /** Acknowledgements of the current term cannot precede a vote already cast. */
  lemma AckKeepsVotes(ns: Nodes, h: History, i: NodeId, n': Node)
    requires i in ns && n'.id == i && n'.term >= ns[i].term
    requires VotesInv(h) && BallotsInv(ns, h)
    ensures VotesInv(Acked(h, n'))
  {
    hide Lost, Has;
    var h' := Acked(h, n');
    forall v, t, k, u | (v, t, k) in h'.acks && (u, v) in h'.ballots && t < u
                        && (u in h'.elections ==> v in h'.elections[u].quorum)
      ensures Has(h'.ballots[(u, v)].log, t, k) || Lost(h'.elections, t, k, u)
    {
      if (v, t, k) !in h.acks {
        assert false;
      }
    }
  }

  ghost function Logged(h: History, n: Node): History {
    Acked(h.(termLog := h.termLog[n.term := n.log]), n)
  }

  lemma ClientLogs(ns: Nodes, h: History, l: NodeId, n': Node, e: Entry)
    requires l in ns && ns[l].role.Leader? && e.index == |ns[l].log| + 1 && e.term == ns[l].term
    requires n' == ns[l].(log := ns[l].log + [e], commit := n'.commit)
    requires LogsInv(ns, h) && LeadersInv(ns, h)
    ensures Extends(h, Logged(h, n')) && LogsInv(ns[l := n'], Logged(h, n')) && Indexed(n'.log)
  {
    var h' := Logged(h, n');
    var n := ns[l];
    hide Canonical, Indexed, Sorted, AcksOf;
    assert h.termLog[n.term] == n.log;
    LogsExtend(ns, h, h');
    NodeLog(ns, h, l);
    ClientLogOk(n.log, e, h.termLog);
  }

  lemma ClientLogOk(log: seq<Entry>, e: Entry, termLog: map<nat, seq<Entry>>)
    requires LogOk(log, termLog) && TermsUpTo(log, e.term) && e.index == |log| + 1
    requires e.term in termLog && termLog[e.term] == log
    ensures LogOk(log + [e], termLog[e.term := log + [e]]) && TermsUpTo(log + [e], e.term)
  {
    var log', termLog' := log + [e], termLog[e.term := log + [e]];
    forall k | 0 <= k < |log'|
      ensures log'[k].term in termLog' && k < |termLog'[log'[k].term]|
              && log'[..k + 1] == termLog'[log'[k].term][..k + 1]
    {
      if k < |log| {
        assert log[..k + 1] == termLog[log[k].term][..k + 1];
        assert log'[..k + 1] == log[..k + 1];
      }
    }
  }

  lemma ClientTermLog(h: History, n: Node, n': Node, e: Entry)
    requires n.term in h.elections && e.term == n.term
    requires n' == n.(log := n.log + [e], commit := n'.commit)
    requires TermLogInv(h) && h.termLog[n.term] == n.log
    ensures TermLogInv(Logged(h, n'))
  {
    hide AcksOf;
  }

  lemma ClientLeaders(ns: Nodes, h: History, l: NodeId, n': Node)
    requires l in ns && ns[l].role.Leader?
    requires n' == ns[l].(log := n'.log, commit := n'.commit)
    requires LeadersInv(ns, h)
    ensures LeadersInv(ns[l := n'], Logged(h, n'))
  {
    hide AcksOf;
  }

  lemma HasLonger(a: seq<Entry>, b: seq<Entry>, t: nat, k: nat)
    requires Has(a, t, k) && a <= b
    ensures Has(b, t, k)
  {
  }

  lemma ClientAcks(ns: Nodes, h: History, l: NodeId, n': Node, e: Entry)
    requires l in ns && ns[l].id == l && ns[l].term in h.termLog && h.termLog[ns[l].term] == ns[l].log
    requires n' == ns[l].(log := ns[l].log + [e], commit := n'.commit)
    requires AcksInv(ns, h)
    ensures AcksInv(ns[l := n'], Logged(h, n'))
  {
    var h', ns' := Logged(h, n'), ns[l := n'];
    forall v, t, k | (v, t, k) in h'.acks
      ensures && v in ns' && t <= ns'[v].term && t in h'.termLog && Has(h'.termLog[t], t, k)
              && (Has(ns'[v].log, t, k) || Lost(h'.elections, t, k, ns'[v].term + 1))
    {
      if (v, t, k) !in h.acks {
        assert (v, t, k) in AcksOf(l, n');
      } else {
        hide Has, Lost, AcksOf;
        if t == n'.term { HasLonger(h.termLog[t], n'.log, t, k); }
        if v == l && Has(ns[l].log, t, k) { HasLonger(ns[l].log, n'.log, t, k); }
      }
    }
    hide Has, Lost, AcksOf;
  }

  lemma ClientMatch(ns: Nodes, h: History, l: NodeId, n': Node, e: Entry)
    requires l in ns && ns[l].role.Leader?
    requires n' == ns[l].(log := ns[l].log + [e], commit := n'.commit)
    requires MatchInv(ns, h.acks) && LeadersInv(ns, h)
    ensures MatchInv(ns[l := n'], Logged(h, n').acks)
  {
    hide AcksOf;
    var ns' := ns[l := n'];
    forall i, p | i in ns' && ns'[i].role.Leader? && p in ns'[i].matched
      ensures MatchOk(ns', Logged(h, n').acks, i, p, ns'[i].matched[p])
    {
      var m := ns[i].matched[p];
      assert MatchOk(ns, h.acks, i, p, m);
      if i == l { assert n'.log[..m] == ns[l].log[..m]; }
    }
  }

  /** The leader logs a command. */
  lemma ClientKeeps(s: Cluster, h: History, l: NodeId, command: string) returns (h': History)
    requires WellFormed(s) && Enabled(s, Client(l, command)) && Inv(s, h)
    ensures Inv(Apply(s, Client(l, command)), h') && Extends(h, h')
    ensures h'.acks == h.acks || h'.acks == h.acks + AcksOf(l, Apply(s, Client(l, command)).nodes[l])
  {
    hide LogsInv, TermLogInv, LeadersInv, BallotsInv, FreshInv, CountInv, RequestsInv, ElectionsInv, AcksInv, VotesInv,
      MatchInv, Extends, Indexed, LastIndex, AcksOf;
    var n := s.nodes[l];
    if !n.role.Leader? {
      ExtendsReflexive(h);
      assert s.nodes[l := n] == s.nodes;
      return h;
    }
    var e := ClientEntry(n, command);
    var n' := AppendClientCommand(n, command).0;
    IndexedLast(n.log);
    h' := Logged(h, n');
    var ns' := s.nodes[l := n'];
    ClientLogs(s.nodes, h, l, n', e);
    LeaderOfTerm(s.nodes, h, l);
    ClientTermLog(h, n, n', e);
    ClientLeaders(s.nodes, h, l, n');
    ClientAcks(s.nodes, h, l, n', e);
    ClientMatch(s.nodes, h, l, n', e);
    ClientVotes(s, h, l, n');
    AckKeepsVotes(s.nodes, h, l, n');
    assert Apply(s, Client(l, command)) == With(s, l, n');
    SameVotesInv(Acked(h, n'), h');
  }

  lemma SameVotesInv(h: History, h': History)
    requires VotesInv(h) && h'.acks == h.acks && h'.ballots == h.ballots && h'.elections == h.elections
    ensures VotesInv(h')
  {
    hide Lost, Has;
  }

  lemma ClientVotes(s: Cluster, h: History, l: NodeId, n': Node)
    requires WellFormed(s) && l in s.nodes && s.nodes[l].role.Leader?
    requires n' == s.nodes[l].(log := n'.log, commit := n'.commit) && Indexed(n'.log)
    requires BallotsInv(s.nodes, h) && FreshInv(s.nodes, h) && CountInv(s, h)
    requires RequestsInv(s) && ElectionsInv(s.nodes, h)
    ensures var s', h' := With(s, l, n'), Logged(h, n');
            && BallotsInv(s'.nodes, h') && FreshInv(s'.nodes, h') && CountInv(s', h') && RequestsInv(s')
            && ElectionsInv(s'.nodes, h')
  {
    hide BallotsInv, FreshInv, CountInv, RequestsInv, ElectionsInv, AcksOf, Indexed;
    QuietBallots(s.nodes, h, l, n');
    QuietCandidates(s, h, l, n');
    SameElections(s.nodes, h, l, n');
    VotesAside(With(s, l, n'), h, Logged(h, n'));
  }

  // ------------------------------------------------------- accepting a leader's log

  /** What a follower may become on a request of leader `l`: a follower of the
      leader's term, with its own log or the leader's. */
  ghost predicate Accepts(ns: Nodes, f: NodeId, l: NodeId, n': Node)
    requires f in ns && l in ns
  {
    var n, leader := ns[f], ns[l];
    && l != f && leader.role.Leader? && n.term <= leader.term
    && n'.id == f && n'.role.Follower? && n'.term == leader.term && n'.votedFor == Some(l)
    && n'.commit <= |n'.log|
    && (n'.log == n.log || n'.log == leader.log)
  }

  lemma AcceptLogs(ns: Nodes, h: History, f: NodeId, l: NodeId, n': Node)
    requires f in ns && l in ns && Accepts(ns, f, l, n')
    requires LogsInv(ns, h) && LeadersInv(ns, h)
    ensures LogsInv(ns[f := n'], Acked(h, n')) && LeadersInv(ns[f := n'], Acked(h, n'))
  {
    hide LogOk, AcksOf;
  }

  lemma AcceptAcks(ns: Nodes, h: History, f: NodeId, l: NodeId, n': Node)
    requires f in ns && l in ns && Accepts(ns, f, l, n')
    requires AcksInv(ns, h) && TermLogInv(h) && LeadersInv(ns, h)
    requires Canonical(n'.log, h.termLog)
    ensures AcksInv(ns[f := n'], Acked(h, n'))
  {
    var h', ns' := Acked(h, n'), ns[f := n'];
    var T := n'.term;
    hide Canonical;
    forall v, t, k | (v, t, k) in h'.acks
      ensures && v in ns' && t <= ns'[v].term && t in h'.termLog && Has(h'.termLog[t], t, k)
              && (Has(ns'[v].log, t, k) || Lost(h'.elections, t, k, ns'[v].term + 1))
    {
      if (v, t, k) in h.acks {
        if v == f {
          AcceptOldAck(ns, h, f, l, n', t, k);
        }
      } else {
        assert (v, t, k) in AcksOf(f, n');
        CanonicalHas(n'.log, h.termLog, k);
      }
    }
  }

  lemma CanonicalHas(log: seq<Entry>, termLog: map<nat, seq<Entry>>, k: nat)
    requires Canonical(log, termLog) && k < |log|
    ensures log[k].term in termLog && Has(termLog[log[k].term], log[k].term, k)
  {
    var t := log[k].term;
    assert log[..k + 1][k] == termLog[t][..k + 1][k];
  }

  /** An entry acknowledged earlier is in the accepted log, or the accepted
      log's own leader is one that was elected without it. */
  lemma AcceptOldAck(ns: Nodes, h: History, f: NodeId, l: NodeId, n': Node, t: nat, k: nat)
    requires f in ns && l in ns && Accepts(ns, f, l, n')
    requires AcksInv(ns, h) && TermLogInv(h) && LeadersInv(ns, h) && (f, t, k) in h.acks
    ensures Has(n'.log, t, k) || Lost(h.elections, t, k, n'.term + 1)
  {
    var T := n'.term;
    assert h.termLog[T] == ns[l].log;
    if Has(ns[f].log, t, k) {
      if n'.log != ns[f].log && t < T && !Has(h.elections[T].log, t, k) {
        assert T in h.elections && t < T < n'.term + 1;
      }
    } else {
      LostMonotone(h.elections, t, k, ns[f].term + 1, n'.term + 1);
    }
  }

  lemma AcceptMatch(ns: Nodes, h: History, f: NodeId, l: NodeId, n': Node)
    requires f in ns && l in ns && Accepts(ns, f, l, n')
    requires MatchInv(ns, h.acks) && LeadersInv(ns, h)
    ensures MatchInv(ns[f := n'], Acked(h, n').acks)
  {
    hide AcksOf;
    var ns' := ns[f := n'];
    forall i, p | i in ns' && ns'[i].role.Leader? && p in ns'[i].matched
      ensures MatchOk(ns', Acked(h, n').acks, i, p, ns'[i].matched[p])
    {
      assert MatchOk(ns, h.acks, i, p, ns[i].matched[p]);
    }
  }

  lemma AcceptKeeps(s: Cluster, h: History, f: NodeId, l: NodeId, n': Node)
    requires WellFormed(s) && f in s.nodes && l in s.nodes && Accepts(s.nodes, f, l, n') && Indexed(n'.log)
    requires Inv(s, h)
    ensures Inv(With(s, f, n'), Acked(h, n')) && Extends(h, Acked(h, n'))
  {
    hide LogsInv, TermLogInv, LeadersInv, BallotsInv, FreshInv, CountInv, RequestsInv, ElectionsInv, AcksInv, VotesInv,
      MatchInv, Indexed, LogOk, AcksOf;
    var h' := Acked(h, n');
    AcceptLogs(s.nodes, h, f, l, n');
    AcceptCanonical(s.nodes, h, f, l, n');
    AcceptAcks(s.nodes, h, f, l, n');
    AcceptMatch(s.nodes, h, f, l, n');
    AckKeepsVotes(s.nodes, h, f, n');
    SameTermLog(h, h');
    AcceptVotes(s, h, f, l, n');
  }

  lemma SameTermLog(h: History, h': History)
    requires TermLogInv(h) && h'.termLog == h.termLog && h'.elections == h.elections
    ensures TermLogInv(h')
  {
  }

  lemma AcceptCanonical(ns: Nodes, h: History, f: NodeId, l: NodeId, n': Node)
    requires f in ns && l in ns && Accepts(ns, f, l, n') && LogsInv(ns, h)
    ensures Canonical(n'.log, h.termLog)
  {
    hide Canonical;
  }

  lemma AcceptVotes(s: Cluster, h: History, f: NodeId, l: NodeId, n': Node)
    requires WellFormed(s) && f in s.nodes && l in s.nodes && Accepts(s.nodes, f, l, n') && Indexed(n'.log)
    requires BallotsInv(s.nodes, h) && FreshInv(s.nodes, h) && CountInv(s, h) && RequestsInv(s)
    requires ElectionsInv(s.nodes, h) && LeadersInv(s.nodes, h)
    ensures var s', h' := With(s, f, n'), Acked(h, n');
            && BallotsInv(s'.nodes, h') && FreshInv(s'.nodes, h') && CountInv(s', h') && RequestsInv(s')
            && ElectionsInv(s'.nodes, h')
  {
    LeaderOfTerm(s.nodes, h, l);
    hide LeadersInv, ElectionsInv, BallotsInv, FreshInv, CountInv, RequestsInv, AcksOf, Indexed;
    QuietBallots(s.nodes, h, f, n');
    QuietCandidates(s, h, f, n');
    SameElections(s.nodes, h, f, n');
    VotesAside(With(s, f, n'), h, Acked(h, n'));
  }

  /** The voting part of the invariant looks only at ballots and elections. */
  lemma VotesAside(s: Cluster, h: History, h': History)
    requires h'.ballots == h.ballots && h'.elections == h.elections
    requires BallotsInv(s.nodes, h) && FreshInv(s.nodes, h) && CountInv(s, h) && ElectionsInv(s.nodes, h)
    ensures BallotsInv(s.nodes, h') && FreshInv(s.nodes, h') && CountInv(s, h') && ElectionsInv(s.nodes, h')
  {
    hide FreshLog, Majority;
  }

  lemma LeaderOfTerm(ns: Nodes, h: History, l: NodeId)
    requires LeadersInv(ns, h) && l in ns && ns[l].role.Leader?
    ensures ns[l].term in h.elections && h.elections[ns[l].term].leader == l
    ensures ns[l].term in h.termLog && h.termLog[ns[l].term] == ns[l].log
  {
  }
}
