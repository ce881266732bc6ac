/** How many votes make a leader: in a cluster of two or more servers, every candidate counted by
    more than half of them leads; a server on its own never does, because votes are only counted
    when a peer answers. */
module RaftMajority {
  import opened Options
  import opened RaftTypes
  import opened RaftLog
  import opened RaftNode
  import opened RaftCluster
  import opened RaftInvariant
  import opened RaftEvolution
  import opened RaftFrame
  import opened RaftSafety
  import opened RaftDecisions
  import opened RaftWitness

  /** Candidates are counted by at most half of the servers. */
  ghost predicate Short(c: Cluster) {
    forall s :: s in c.servers && c.servers[s].node.role == Candidate ==>
      2 * c.servers[s].node.votesGranted <= |c.servers|
  }

  predicate NodeShort(n: Node, size: nat) {
    n.role == Candidate ==> 2 * n.votesGranted <= size
  }

  lemma VoteReplyShort(n: Node, arg: RequestVoteArg, r: Option<RequestVoteReply>)
    requires NodeShort(n, n.clusterSize)
    ensures NodeShort(OnVoteReply(n, arg, r), n.clusterSize)
  {
    hide Filled, LastIndex;
  }

  lemma VoteShort(n: Node, arg: RequestVoteArg, size: nat)
    requires NodeShort(n, size)
    ensures NodeShort(OnRequestVote(n, arg).0, size)
  {
    hide UpToDate;
  }

  lemma AppendShort(n: Node, arg: AppendEntriesArg, garbage: Conflict, size: nat)
    requires NodeShort(n, size)
    ensures NodeShort(OnAppendEntries(n, arg, garbage).0, size)
  {
    hide Merge, Accepts, ConflictHint;
  }

  lemma AppendReplyShort(n: Node, p: ServerId, arg: AppendEntriesArg, r: Option<AppendEntriesReply>, size: nat)
    requires NodeShort(n, size)
    ensures NodeShort(OnAppendReply(n, p, arg, r), size)
  {
    hide CommitScan, Backtrack;
  }

  lemma StepNodeShort(c: Cluster, step: Step)
    requires Enabled(c, step) && step.s in c.servers && |c.servers| >= 2
    requires c.servers[step.s].node.clusterSize == |c.servers| && NodeShort(c.servers[step.s].node, |c.servers|)
    ensures step.s in Do(c, step).servers && NodeShort(Do(c, step).servers[step.s].node, |c.servers|)
  {
    hide OnAppendReply, OnVoteReply, OnRequestVote, OnAppendEntries, BuildAppend, At, NewerRequest, Compared, Filled;
    hide AppendEntriesDisk, AppendReplyDisk, RequestVoteDisk, VoteReplyDisk, CountsVote;
    var v := c.servers[step.s];
    match step
    case HandleVote(_, arg) => VoteShort(v.node, arg, |c.servers|);
    case HandleAppend(_, arg, garbage) => AppendShort(v.node, arg, garbage, |c.servers|);
    case ReceiveVote(_, q, r) => VoteReplyShort(v.node, v.voteCall[q], r);
    case ReceiveAppend(_, q, r, _) => AppendReplyShort(v.node, q, v.appendCall[q], r, |c.servers|);
    case _ =>
  }

  lemma StepShort(c: Cluster, step: Step)
    requires Inv(c) && Enabled(c, step) && |c.servers| >= 2 && Short(c)
    ensures Short(Do(c, step)) && |Do(c, step).servers| == |c.servers|
  {
    hide Inv, Enabled, Do, Evolves;
    var d := Do(c, step);
    StepInv(c, step);
    SameSize(c, d);
    SubjectThere(c, step);
    ShapeOf(c, step.s);
    assert |c.servers| == |c.servers.Keys|;
    StepNodeShort(c, step);
    forall s | s in d.servers && d.servers[s].node.role == Candidate
      ensures 2 * d.servers[s].node.votesGranted <= |d.servers|
    {
      if s != step.s { OthersUntouched(c, step, s); }
    }
  }

  lemma SameSize(c: Cluster, d: Cluster)
    requires Evolves(c, d)
    ensures d.servers.Keys == c.servers.Keys && |d.servers| == |c.servers|
  {
    hide LedgerGrows, HeldGrows, VotesGrow;
    assert |d.servers| == |d.servers.Keys|;
  }

  lemma SubjectThere(c: Cluster, step: Step)
    requires Enabled(c, step)
    ensures step.s in c.servers
  {
    hide BuildAppend, At, NewerRequest, CanMove, WantsVote, CanStart;
  }

  lemma {:induction false} RunShort(c: Cluster, steps: seq<Step>)
    requires Inv(c) && CanRun(c, steps) && |c.servers| >= 2 && Short(c)
    ensures Short(Run(c, steps))
    decreases |steps|
  {
    hide Inv, Enabled, Do, Evolves, Short;
    if steps != [] {
      StepInv(c, steps[0]);
      StepShort(c, steps[0]);
      RunShort(Do(c, steps[0]), steps[1..]);
    }
  }

  lemma InitShort(members: set<ServerId>)
    ensures Short(Init(members))
  {
  }

  // ---- a server on its own

  ghost predicate NobodyLeads(c: Cluster) {
    forall s :: s in c.servers ==> c.servers[s].node.role != Leader
  }

  lemma StepNobodyLeads(c: Cluster, step: Step)
    requires Inv(c) && Enabled(c, step) && |c.servers| == 1 && NobodyLeads(c)
    ensures NobodyLeads(Do(c, step)) && |Do(c, step).servers| == 1
  {
    hide Inv, Enabled, Do, Evolves;
    var d := Do(c, step);
    StepInv(c, step);
    SameSize(c, d);
    SubjectThere(c, step);
    ShapeOf(c, step.s);
    Alone(c.servers.Keys, step.s);
    NoNewLeader(c, step);
    forall s | s in d.servers
      ensures d.servers[s].node.role != Leader
    {
      if s != step.s { OthersUntouched(c, step, s); }
    }
  }

  lemma Alone(all: set<ServerId>, s: ServerId)
    requires |all| == 1 && s in all
    ensures all - {s} == {}
  {
    assert |all - {s}| == 0;
  }

  /** Without a vote to count nobody becomes leader. */
  lemma NoNewLeader(c: Cluster, step: Step)
    requires Enabled(c, step) && step.s in c.servers && c.servers[step.s].voteCall.Keys == {}
    requires c.servers[step.s].node.role != Leader
    ensures step.s in Do(c, step).servers && Do(c, step).servers[step.s].node.role != Leader
  {
    hide BuildAppend, At, NewerRequest, Compared, Filled, Merge, Accepts, ConflictHint, UpToDate, CommitScan, Backtrack;
    hide AppendEntriesDisk, AppendReplyDisk, RequestVoteDisk, VoteReplyDisk, CountsVote;
  }

  lemma {:induction false} RunNobodyLeads(c: Cluster, steps: seq<Step>)
    requires Inv(c) && CanRun(c, steps) && |c.servers| == 1 && NobodyLeads(c)
    ensures NobodyLeads(Run(c, steps))
    decreases |steps|
  {
    hide Inv, Enabled, Do, Evolves, NobodyLeads;
    if steps != [] {
      StepInv(c, steps[0]);
      StepNobodyLeads(c, steps[0]);
      RunNobodyLeads(Do(c, steps[0]), steps[1..]);
    }
  }

  /** In every run of a cluster of one there is no leader. */
  lemma SoleServerNeverLeads(members: set<ServerId>, steps: seq<Step>, c: Cluster, s: ServerId)
    requires Reached(members, steps, c) && |members| == 1 && s in c.servers
    ensures c.servers[s].node.role != Leader
  {
    hide Inv, Run, CanRun;
    InitInv(members);
    InitSize(members);
    RunNobodyLeads(Init(members), steps);
  }

  lemma InitSize(members: set<ServerId>)
    ensures |Init(members).servers| == |members| && NobodyLeads(Init(members))
  {
    assert Init(members).servers.Keys == members;
    assert |Init(members).servers| == |Init(members).servers.Keys|;
  }

  // ---- exactly

  /** In every run, whoever is counted by more than half of the servers is not still a candidate. */
  ghost predicate MajorityLeads(members: set<ServerId>) {
    forall steps, c, s :: Reached(members, steps, c) && s in c.servers && c.servers[s].node.role == Candidate ==>
      2 * c.servers[s].node.votesGranted <= |members|
  }

  /** That holds of exactly the clusters of two or more servers. */
  lemma MajorityLeadsIff(members: set<ServerId>)
    requires 1 <= |members| <= 255
    ensures MajorityLeads(members) <==> |members| >= 2
  {
    hide Inv, Run, CanRun;
    InitSize(members);
    if |members| >= 2 {
      forall steps, c, s | Reached(members, steps, c) && s in c.servers && c.servers[s].node.role == Candidate
        ensures 2 * c.servers[s].node.votesGranted <= |members|
      {
        InitInv(members);
        InitShort(members);
        RunShort(Init(members), steps);
        ReachedInv(members, steps, c);
        assert |c.servers| == |c.servers.Keys|;
      }
    } else {
      var s :| s in members;
      var steps := StandAlone(members, s);
      assert Reached(members, steps, Run(Init(members), steps));
    }
  }

  lemma StandAlone(members: set<ServerId>, s: ServerId) returns (steps: seq<Step>)
    requires s in members
    ensures CanRun(Init(members), steps)
    ensures var c := Run(Init(members), steps);
      s in c.servers && c.servers[s].node.role == Candidate && c.servers[s].node.votesGranted == 1
  {
    steps := Stay(DoTimeout(Init(members), s));
    steps := Prepend(Init(members), DoTimeout(Init(members), s), ElectionTimeout(s), steps);
  }
}
