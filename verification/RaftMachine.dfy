/** The node as the program keeps it: an object whose methods update its fields
    in place. Every method is proved against the function of the same name in
    `RaftNode`; the loops of the program are loops here. */
module RaftMachine {
  import opened Common
  import opened RaftNode

  class Machine {
    const id: NodeId
    var role: Role
    var term: nat
    var votedFor: Option<NodeId>
    var log: seq<Entry>
    var commit: nat
    var votes: nat
    var next: map<NodeId, nat>
    var matched: map<NodeId, nat>

    function State(): Node
      reads this
    {
      Node(id, role, term, votedFor, log, commit, votes, next, matched)
    }

    constructor (id: NodeId)
      ensures State() == InitNode(id)
    {
      this.id := id;
      role, term, votedFor := Follower, 0, None;
      log, commit, votes := [], 0, 0;
      next, matched := map[], map[];
    }

    method StartElection() returns (req: VoteRequest)
      modifies this
      ensures (State(), req) == RaftNode.StartElection(old(State()))
    {
      role := Candidate;
      term := term + 1;
      votedFor := Some(id);
      votes := 1;
      req := VoteRequest(id, term, LastIndex(log), LastTerm(log));
    }

    method RequestVote(req: VoteRequest) returns (resp: VoteResponse)
      modifies this
      ensures (State(), resp) == RaftNode.RequestVote(old(State()), req)
    {
      if req.term < term {
        return VoteResponse(term, false);
      }
      if req.term > term {
        term := req.term;
        role := Follower;
        votedFor := None;
      }
      var available := votedFor.None? || votedFor.value == req.candidate;
      var grant := available && Fresh(req, log);
      if grant {
        votedFor := Some(req.candidate);
      }
      resp := VoteResponse(term, grant);
    }

    method ObserveVote(resp: VoteResponse, clusterSize: nat)
      modifies this
      ensures State() == RaftNode.ObserveVote(old(State()), resp, clusterSize)
    {
      if resp.term > term {
        term := resp.term;
        role := Follower;
        votedFor := None;
        return;
      }
      if role.Candidate? && resp.granted {
        votes := votes + 1;
      }
      if role.Candidate? && votes > clusterSize / 2 {
        role := Leader;
        var l := if log == [] then 1 else log[|log| - 1].index + 1;
        next := FillAll(next, l);
        matched := FillAll(matched, 0);
      }
    }

    /** `for (auto& [_, v] : m) v = value`, in any iteration order. */
    static method FillAll(m: map<NodeId, nat>, value: nat) returns (r: map<NodeId, nat>)
      ensures r == map p | p in m :: value
    {
      r := m;
      var todo := m.Keys;
      while todo != {}
        invariant todo <= m.Keys == r.Keys
        invariant forall p :: p in m && p !in todo ==> r[p] == value
      {
        var p :| p in todo;
        r := r[p := value];
        todo := todo - {p};
      }
    }

    method AppendEntries(req: AppendRequest) returns (resp: AppendResponse)
      requires forall e :: e in req.entries ==> e.index > 0
      modifies this
      ensures (State(), resp) == RaftNode.AppendEntries(old(State()), req)
    {
      if req.term < term {
        return AppendResponse(term, false);
      }
      term := req.term;
      role := Follower;
      votedFor := Some(req.leader);
      if req.prevIndex > 0 {
        if |log| < req.prevIndex { return AppendResponse(term, false); }
        if log[req.prevIndex - 1].term != req.prevTerm { return AppendResponse(term, false); }
      }
      for i := 0 to |req.entries|
        invariant Splice(log, req.entries[i..]) == Splice(old(log), req.entries)
        invariant State() == old(State()).(term := req.term, role := Follower,
                                           votedFor := Some(req.leader), log := log)
      {
        var entry := req.entries[i];
        assert req.entries[i..][1..] == req.entries[i + 1..];
        if |log| >= entry.index { log := log[..entry.index - 1]; }
        log := log + [entry];
      }
      commit := Min(req.leaderCommit, LastIndex(log));
      resp := AppendResponse(term, true);
    }

    method AppendClientCommand(command: string) returns (r: Result<Entry>)
      modifies this
      ensures (State(), r) == RaftNode.AppendClientCommand(old(State()), command)
      ensures if !old(role).Leader? then r == Err(Unavailable) && log == old(log) else
                && r.Ok? && log == old(log) + [r.value] && commit == r.value.index
                && r.value.term == old(term) && r.value.command == command
    {
      if !role.Leader? {
        return Err(Unavailable);
      }
      var entry := Entry(if log == [] then 1 else log[|log| - 1].index + 1, term, command);
      log := log + [entry];
      commit := entry.index;
      r := Ok(entry);
    }

    method MakeAppendEntries(follower: NodeId) returns (req: AppendRequest)
      ensures req == RaftNode.MakeAppendEntries(State(), follower)
    {
      var nxt := if follower in next then next[follower] else LastIndex(log) + 1;
      var prev := if nxt == 0 then 0 else nxt - 1;
      var prevTerm := if prev == 0 || |log| < prev then 0 else log[prev - 1].term;
      var entries := [];
      for i := 0 to |log|
        invariant entries == EntriesFrom(log[..i], nxt)
      {
        assert log[..i + 1][..i] == log[..i];
        if log[i].index >= nxt { entries := entries + [log[i]]; }
      }
      assert log[..|log|] == log;
      req := AppendRequest(id, term, prev, prevTerm, commit, entries);
    }

    /** The inner loop of the commit search: one pass over the match indexes, in any order. */
    method CountReplicas(index: nat) returns (count: nat)
      ensures count == 1 + |Replicas(matched, index)|
    {
      count := 1;
      var todo := matched.Keys;
      ghost var seen: set<NodeId> := {};
      while todo != {}
        invariant seen !! todo && seen + todo == matched.Keys
        invariant count == 1 + |set p | p in seen && matched[p] >= index|
      {
        var p :| p in todo;
        ghost var before := set q | q in seen && matched[q] >= index;
        ghost var after := set q | q in seen + {p} && matched[q] >= index;
        if matched[p] >= index {
          count := count + 1;
          assert after == before + {p};
        } else {
          assert after == before;
        }
        todo := todo - {p};
        seen := seen + {p};
      }
      assert (set p | p in seen && matched[p] >= index) == Replicas(matched, index);
    }

    /** Replication bookkeeping, and the commit search: on success the new
        commit index is exactly the greatest committable one. */
    method ObserveAppendResponse(follower: NodeId, resp: AppendResponse, clusterSize: nat)
      requires Indexed(log)
      modifies this
      ensures State() == RaftNode.ObserveAppendResponse(old(State()), follower, resp, clusterSize)
      ensures resp.term <= old(term) && old(role).Leader? && resp.success ==>
                IsCommitChoice(State().(commit := old(commit)), clusterSize, commit)
    {
      if resp.term > term {
        term := resp.term;
        role := Follower;
        votedFor := None;
        return;
      }
      if !role.Leader? { return; }
      if !resp.success {
        var n := if follower in next then next[follower] else 0;
        if n > 1 { n := n - 1; }
        next := next[follower := n];
        return;
      }
      var last := LastIndex(log);
      matched := matched[follower := last];
      next := next[follower := last + 1];
      ghost var before := State();
      var candidate := last;
      while candidate > commit
        invariant 0 <= candidate <= last == |log|
        invariant State() == before
        invariant CommitSearch(before, clusterSize, last) == CommitSearch(before, clusterSize, candidate)
        invariant forall i :: candidate < i <= last ==> !Committable(before, i, clusterSize)
      {
        var replicated := CountReplicas(candidate);
        if replicated > clusterSize / 2 && log[candidate - 1].term == term {
          commit := candidate;
          break;
        }
        candidate := candidate - 1;
      }
    }

    method ConfigureCluster(peers: seq<NodeId>)
      modifies this
      ensures State() == RaftNode.ConfigureCluster(old(State()), peers)
    {
      hide Overlaid;
      var l := LastIndex(log) + 1;
      OverlaidNone(next, peers, l);
      OverlaidNone(matched, peers, 0);
      for i := 0 to |peers|
        invariant next == Overlaid(old(next), peers[..i], l) && matched == Overlaid(old(matched), peers[..i], 0)
        invariant State() == old(State()).(next := next, matched := matched)
      {
        OverlaidMore(old(next), peers, i, l);
        OverlaidMore(old(matched), peers, i, 0);
        next := next[peers[i] := l];
        matched := matched[peers[i] := 0];
      }
      assert peers[..|peers|] == peers;
    }

    method BecomeLeaderForSingleNode()
      modifies this
      ensures State() == RaftNode.BecomeLeaderForSingleNode(old(State()))
    {
      var vote := StartElection();
      ObserveVote(VoteResponse(term, true), 1);
    }
  }

  lemma OverlaidNone(m: map<NodeId, nat>, peers: seq<NodeId>, value: nat)
    ensures Overlaid(m, peers[..0], value) == m
  {
  }

  lemma OverlaidMore(m: map<NodeId, nat>, peers: seq<NodeId>, i: nat, value: nat)
    requires i < |peers|
    ensures Overlaid(m, peers[..i + 1], value) == Overlaid(m, peers[..i], value)[peers[i] := value]
  {
    assert peers[..i + 1] == peers[..i] + [peers[i]];
  }
}
