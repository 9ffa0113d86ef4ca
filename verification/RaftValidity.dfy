/** Log validity: whatever is in a log was put there by a client, with the client's command. */
module RaftValidity {
  import opened RaftNode
  import opened RaftCluster
  import opened RaftHistory
  import opened RaftInvariance
  import opened RaftSafety
  import opened RaftCommit

  /** A client step on a leader adds one entry with the command to its log, counts it as
      committed and changes nothing else; on any other node it changes nothing. */
  lemma ClientAppends(s: Cluster, l: NodeId, command: string)
    requires WellFormed(s) && Enabled(s, Client(l, command))
    ensures var n, s' := s.nodes[l], Apply(s, Client(l, command));
            if n.role.Leader?
            then
              var log' := n.log + [Entry(|n.log| + 1, n.term, command)];
              s' == s.(nodes := s.nodes[l := n.(log := log', commit := |log'|)])
            else s' == s
  {
    IndexedLast(s.nodes[l].log);
    hide Indexed, LastIndex;
    assert s.nodes[l := s.nodes[l]] == s.nodes;
  }

  /** The steps that leave all logs as they are. */
  lemma QuietSteps(s: Cluster, step: Step, a: NodeId)
    requires WellFormed(s) && Enabled(s, step) && a in s.nodes && !step.Client? && !step.Replicate?
    ensures a in Apply(s, step).nodes && Apply(s, step).nodes[a].log == s.nodes[a].log
  {
    if step.Vote? {
      VoteLogs(s, step.req, step.voter, step.heard, a);
    } else {
      hide Indexed, RequestVote, Hear;
    }
  }

  lemma VoteLogs(s: Cluster, req: VoteRequest, v: NodeId, heard: bool, a: NodeId)
    requires WellFormed(s) && Enabled(s, Vote(req, v, heard)) && a in s.nodes
    ensures var s' := Apply(s, Vote(req, v, heard));
            a in s'.nodes && s'.nodes[a].log == s.nodes[a].log
  {
    hide Indexed, RequestVote, ObserveVote;
  }

  /** A replication round leaves every log as it is, or gives the follower the leader's. */
  lemma RoundLogs(s: Cluster, h: History, l: NodeId, f: NodeId, heard: bool, a: NodeId)
    requires WellFormed(s) && Enabled(s, Replicate(l, f, heard)) && Inv(s, h) && a in s.nodes
    ensures var s' := Apply(s, Replicate(l, f, heard));
            a in s'.nodes && (s'.nodes[a].log == s.nodes[a].log || (a == f && s'.nodes[a].log == s.nodes[l].log))
  {
    hide Inv, LogsMatch, AppendEntries, MakeAppendEntries, PrevMatches;
    if a == f {
      LeaderFacts(s, h, l, f);
      AppendOutcome(s.nodes[l], f, s.nodes[f]);
      FollowerState(s, l, f, heard);
    } else {
      hide Indexed;
    }
  }

  /** Where an entry comes from in one step: from the same position of some log before it, or
      from a client. */
  lemma EntrySource(s: Cluster, h: History, step: Step, a: NodeId, k: nat) returns (b: NodeId)
    requires WellFormed(s) && Enabled(s, step) && Inv(s, h)
    requires a in Apply(s, step).nodes && k < |Apply(s, step).nodes[a].log|
    ensures b in s.nodes
    ensures var e := Apply(s, step).nodes[a].log[k];
            || (k < |s.nodes[b].log| && s.nodes[b].log[k] == e)
            || AppendedBy(s, step, b, k, e)
  {
    hide Inv, Apply, WellFormed, Enabled;
    SameMembers(s, step);
    b := a;
    if step.Client? {
      IsMember(s, step);
      ClientAppends(s, step.leader, step.command);
    } else if step.Replicate? {
      RoundLogs(s, h, step.leader, step.follower, step.heard, a);
      if Apply(s, step).nodes[a].log != s.nodes[a].log {
        IsMember(s, step);
        b := step.leader;
      }
    } else {
      QuietSteps(s, step, a);
    }
  }

  lemma SameMembers(s: Cluster, step: Step)
    requires WellFormed(s) && Enabled(s, step)
    ensures Apply(s, step).nodes.Keys == s.nodes.Keys
  {
    hide WellFormed;
  }

  lemma IsMember(s: Cluster, step: Step)
    requires WellFormed(s) && Enabled(s, step)
    ensures step.Client? || step.Replicate? ==> step.leader in s.nodes
  {
    hide WellFormed;
  }

  /** The step is a client's, taken while `l` led the entry's term with `k` entries, and the entry
      carries its command. */
  ghost predicate AppendedBy(s: Cluster, step: Step, l: NodeId, k: nat, e: Entry) {
    && step.Client? && step.leader == l && l in s.nodes && s.nodes[l].role.Leader? && |s.nodes[l].log| == k
    && e == Entry(k + 1, s.nodes[l].term, step.command)
  }

  /** In every run, every entry of every log at every moment was appended by a client step: at
      the same position, by the leader of its term, with that client's command. */
  lemma {:induction false} EntriesComeFromClients(ids: set<NodeId>, states: seq<Cluster>, steps: seq<Step>,
                                                  i: nat, a: NodeId, k: nat)
    returns (j: nat, l: NodeId)
    requires Run(ids, states, steps) && i < |states| && a in states[i].nodes && k < |states[i].nodes[a].log|
    ensures j < i && j < |steps| && AppendedBy(states[j], steps[j], l, k, states[i].nodes[a].log[k])
    decreases i
  {
    hide *;
    StartsEmpty(ids, states, steps);
    if i > 0 {
      RunStep(ids, states, steps, i - 1);
      var h := RunHistory(ids, states, steps);
      var h0 := SeenStage(states[i - 1], h);
      var b := EntrySource(states[i - 1], h0, steps[i - 1], a, k);
      if k < |states[i - 1].nodes[b].log| && states[i - 1].nodes[b].log[k] == states[i].nodes[a].log[k] {
        j, l := EntriesComeFromClients(ids, states, steps, i - 1, b, k);
      } else {
        j, l := i - 1, b;
      }
    }
  }

  lemma StartsEmpty(ids: set<NodeId>, states: seq<Cluster>, steps: seq<Step>)
    requires Run(ids, states, steps)
    ensures |states| == |steps| + 1 && forall a :: a in states[0].nodes ==> states[0].nodes[a].log == []
  {
    hide Apply, WellFormed, Enabled;
  }
}
