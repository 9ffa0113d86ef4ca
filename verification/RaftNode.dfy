/** One Raft node: its messages, and the effect of every operation as a function on
    the node's state. */
module RaftNode {
  import opened Common

  type NodeId = string

  datatype Role = Follower | Candidate | Leader

  datatype Entry = Entry(index: nat, term: nat, command: string)

  datatype VoteRequest = VoteRequest(candidate: NodeId, term: nat, lastIndex: nat, lastTerm: nat)

  datatype VoteResponse = VoteResponse(term: nat, granted: bool)

  datatype AppendRequest = AppendRequest(
    leader: NodeId, term: nat, prevIndex: nat, prevTerm: nat, leaderCommit: nat, entries: seq<Entry>)

  datatype AppendResponse = AppendResponse(term: nat, success: bool)

  /** The state of one node, as a value. */
  datatype Node = Node(
    id: NodeId,
    role: Role,
    term: nat,
    votedFor: Option<NodeId>,
    log: seq<Entry>,
    commit: nat,
    votes: nat,
    next: map<NodeId, nat>,
    matched: map<NodeId, nat>)

  function InitNode(id: NodeId): Node {
    Node(id, Follower, 0, None, [], 0, 0, map[], map[])
  }

  function LastIndex(log: seq<Entry>): nat {
    if log == [] then 0 else log[|log| - 1].index
  }

  function LastTerm(log: seq<Entry>): nat {
    if log == [] then 0 else log[|log| - 1].term
  }

  /** Entry number `k` of the vector carries the log index `k + 1`. */
  ghost predicate Indexed(log: seq<Entry>) {
    forall k :: 0 <= k < |log| ==> log[k].index == k + 1
  }

  // ---------------------------------------------------------------- elections

  function StepDown(n: Node, term: nat): Node {
    n.(term := term, role := Follower, votedFor := None)
  }

  function StartElection(n: Node): (Node, VoteRequest) {
    (n.(role := Candidate, term := n.term + 1, votedFor := Some(n.id), votes := 1),
     VoteRequest(n.id, n.term + 1, LastIndex(n.log), LastTerm(n.log)))
  }

  predicate Fresh(req: VoteRequest, log: seq<Entry>) {
    req.lastTerm > LastTerm(log) || (req.lastTerm == LastTerm(log) && req.lastIndex >= LastIndex(log))
  }

  function RequestVote(n: Node, req: VoteRequest): (r: (Node, VoteResponse))
    ensures r.0.id == n.id && r.0.log == n.log && r.0.term >= n.term
  {
    if req.term < n.term then (n, VoteResponse(n.term, false))
    else
      var m := if req.term > n.term then StepDown(n, req.term) else n;
      var grant := (m.votedFor.None? || m.votedFor.value == req.candidate) && Fresh(req, m.log);
      (if grant then m.(votedFor := Some(req.candidate)) else m, VoteResponse(m.term, grant))
  }

  function TakeLead(n: Node): Node {
    n.(role := Leader,
       next := map p | p in n.next :: LastIndex(n.log) + 1,
       matched := map p | p in n.matched :: 0)
  }

  function ObserveVote(n: Node, resp: VoteResponse, clusterSize: nat): (r: Node)
    ensures r.id == n.id && r.log == n.log && r.term >= n.term
  {
    if resp.term > n.term then StepDown(n, resp.term)
    else
      var m := if n.role.Candidate? && resp.granted then n.(votes := n.votes + 1) else n;
      if m.role.Candidate? && m.votes > clusterSize / 2 then TakeLead(m) else m
  }

  function BecomeLeaderForSingleNode(n: Node): Node {
    var m := StartElection(n).0;
    ObserveVote(m, VoteResponse(m.term, true), 1)
  }

  // -------------------------------------------------------------- replication

  /** The resize-and-push loop: an entry at or below the log's end first cuts the log there. */
  function Splice(log: seq<Entry>, entries: seq<Entry>): seq<Entry>
    requires forall e :: e in entries ==> e.index > 0
    decreases |entries|
  {
    if entries == [] then log
    else
      var e := entries[0];
      Splice((if |log| >= e.index then log[..e.index - 1] else log) + [e], entries[1..])
  }

  predicate PrevMatches(log: seq<Entry>, req: AppendRequest) {
    req.prevIndex > 0 ==> |log| >= req.prevIndex && log[req.prevIndex - 1].term == req.prevTerm
  }

  function AppendEntries(n: Node, req: AppendRequest): (Node, AppendResponse)
    requires forall e :: e in req.entries ==> e.index > 0
  {
    if req.term < n.term then (n, AppendResponse(n.term, false))
    else
      var m := n.(term := req.term, role := Follower, votedFor := Some(req.leader));
      if !PrevMatches(m.log, req) then (m, AppendResponse(m.term, false))
      else
        var log := Splice(m.log, req.entries);
        (m.(log := log, commit := Min(req.leaderCommit, LastIndex(log))), AppendResponse(m.term, true))
  }

  function ClientEntry(n: Node, command: string): Entry {
    Entry(LastIndex(n.log) + 1, n.term, command)
  }

  /** On a leader the command is logged and, at once, counted as committed; elsewhere it is refused. */
  function AppendClientCommand(n: Node, command: string): (Node, Result<Entry>) {
    if !n.role.Leader? then (n, Err(Unavailable))
    else
      var e := ClientEntry(n, command);
      (n.(log := n.log + [e], commit := e.index), Ok(e))
  }

  function NextIndex(n: Node, follower: NodeId): nat {
    if follower in n.next then n.next[follower] else LastIndex(n.log) + 1
  }

  function EntriesFrom(log: seq<Entry>, next: nat): seq<Entry> {
    if log == [] then []
    else EntriesFrom(log[..|log| - 1], next)
         + (if log[|log| - 1].index >= next then [log[|log| - 1]] else [])
  }

  function MakeAppendEntries(n: Node, follower: NodeId): AppendRequest {
    var next := NextIndex(n, follower);
    var prev := if next == 0 then 0 else next - 1;
    AppendRequest(n.id, n.term, prev,
                  if prev == 0 || |n.log| < prev then 0 else n.log[prev - 1].term,
                  n.commit, EntriesFrom(n.log, next))
  }

  /** The peers whose recorded match index reaches `index`. */
  function Replicas(matched: map<NodeId, nat>, index: nat): set<NodeId> {
    set p | p in matched && matched[p] >= index
  }

  /** An index the leader may commit: above the commit index, of the leader's
      own term, and on a strict majority counting the leader itself. */
  predicate Committable(n: Node, index: nat, clusterSize: nat)
  {
    && n.commit < index <= |n.log|
    && 1 + |Replicas(n.matched, index)| > clusterSize / 2
    && n.log[index - 1].term == n.term
  }

  /** `c` is the commit index the downward search must leave: the greatest
      committable index, or the old commit index when there is none. */
  predicate IsCommitChoice(n: Node, clusterSize: nat, c: nat) {
    && (c == n.commit || Committable(n, c, clusterSize))
    && forall i :: c < i <= LastIndex(n.log) ==> !Committable(n, i, clusterSize)
  }

  function CommitSearch(n: Node, clusterSize: nat, from: nat): (c: nat)
    requires from <= |n.log|
    ensures c == n.commit || (c <= from && Committable(n, c, clusterSize))
    ensures forall i :: c < i <= from ==> !Committable(n, i, clusterSize)
    decreases from
  {
    if from <= n.commit then n.commit
    else if Committable(n, from, clusterSize) then from
    else CommitSearch(n, clusterSize, from - 1)
  }

  function ObserveAppendResponse(n: Node, follower: NodeId, resp: AppendResponse, clusterSize: nat): Node
    requires Indexed(n.log)
  {
    if resp.term > n.term then StepDown(n, resp.term)
    else if !n.role.Leader? then n
    else if !resp.success then
      var next := if follower in n.next then n.next[follower] else 0;
      n.(next := n.next[follower := if next > 1 then next - 1 else next])
    else
      var last := LastIndex(n.log);
      var m := n.(matched := n.matched[follower := last], next := n.next[follower := last + 1]);
      m.(commit := CommitSearch(m, clusterSize, last))
  }

  /** The map with every listed peer set to `value`. */
  function Overlaid(m: map<NodeId, nat>, peers: seq<NodeId>, value: nat): map<NodeId, nat> {
    m + (map p | p in peers :: value)
  }

  function ConfigureCluster(n: Node, peers: seq<NodeId>): Node {
    n.(next := Overlaid(n.next, peers, LastIndex(n.log) + 1), matched := Overlaid(n.matched, peers, 0))
  }

  // ------------------------------------------------------- facts about splicing

  ghost predicate Consecutive(entries: seq<Entry>, from: nat) {
    forall k :: 0 <= k < |entries| ==> entries[k].index == from + k
  }

  /** Sent entries that start right after `prev` replace everything after `prev`. */
  lemma {:induction false} SpliceReplacesTail(log: seq<Entry>, entries: seq<Entry>, prev: nat)
    requires prev <= |log|
    requires Consecutive(entries, prev + 1)
    ensures forall e :: e in entries ==> e.index > 0
    ensures Splice(log, entries) == if entries == [] then log else log[..prev] + entries
    decreases |entries|
  {
    if entries != [] {
      var e := entries[0];
      CutAndPush(log, e, prev);
      var cut := log[..prev] + [e];
      assert cut[..prev + 1] == cut;
      hide Splice;
      SpliceReplacesTail(cut, entries[1..], prev + 1);
      SpliceStep(log, entries);
      assert cut + entries[1..] == log[..prev] + entries;
    }
  }

  lemma CutAndPush(log: seq<Entry>, e: Entry, prev: nat)
    requires prev <= |log| && e.index == prev + 1
    ensures (if |log| >= e.index then log[..e.index - 1] else log) + [e] == log[..prev] + [e]
  {
  }

  lemma SpliceStep(log: seq<Entry>, entries: seq<Entry>)
    requires entries != [] && forall e :: e in entries ==> e.index > 0
    ensures var e := entries[0];
            Splice(log, entries) == Splice((if |log| >= e.index then log[..e.index - 1] else log) + [e], entries[1..])
  {
  }

  lemma {:induction false} EntriesFromIsSuffix(log: seq<Entry>, next: nat)
    requires Indexed(log)
    ensures EntriesFrom(log, next)
         == log[if next == 0 then 0 else Min(next - 1, |log|)..]
  {
    if log != [] {
      var init := log[..|log| - 1];
      EntriesFromIsSuffix(init, next);
      var from := if next == 0 then 0 else Min(next - 1, |log|);
      if from < |log| {
        assert log[from..] == init[from..] + [log[|log| - 1]];
      }
    }
  }
}
