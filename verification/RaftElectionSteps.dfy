/** Standing for election, voting, counting votes, winning. */
module RaftElectionSteps {
  import opened Options
  import opened RaftTypes
  import opened RaftLog
  import opened RaftNode
  import opened RaftCluster
  import opened RaftInvariant
  import opened RaftEvolution
  import opened RaftFrame
  import opened RaftQuiet

  /** A new ballot for the log the server has now keeps whatever the server keeps. */
  lemma BallotOfLog(d: Cluster, s: ServerId, u: nat, t: nat, k: nat)
    requires s in d.servers && ServerKeeps(d, s)
    requires (s, u) in d.h.ballots && d.h.ballots[(s, u)].log == d.servers[s].node.log.entries
    requires t < u <= d.servers[s].node.currentTerm && Choosable(d, t, k)
    ensures BallotKeepsAt(d, s, u, t, k)
  {
    assert KeepsAt(d, s, t, k);
  }

  /** Everything NewBallotsOk asks when the only new ballot is (s, u) for the present log. */
  lemma OneNewBallot(c: Cluster, d: Cluster, s: ServerId, u: nat)
    requires s in d.servers && ServerKeeps(d, s) && u <= d.servers[s].node.currentTerm
    requires forall x :: x in d.h.ballots && x !in c.h.ballots ==> x == (s, u)
    requires forall x :: x in d.h.candidacies && x !in c.h.candidacies ==> x == (s, u)
    requires (s, u) in d.h.ballots && (s, u) !in c.h.ballots ==>
      BallotOk(d, s, u) && d.h.ballots[(s, u)].log == d.servers[s].node.log.entries
    requires (s, u) in d.h.candidacies && (s, u) !in c.h.candidacies ==> CandidacyOk(d, s, u)
    ensures NewBallotsOk(c, d)
  {
    hide ServerKeeps, IsQuorum, Supporters, BallotOk, CandidacyOk;
    forall v, w, t: nat, k: nat | (v, w) in d.h.ballots && (v, w) !in c.h.ballots && t < w && Choosable(d, t, k)
      ensures BallotKeepsAt(d, v, w, t, k)
    {
      assert (v, w) == (s, u);
      BallotOfLog(d, s, u, t, k);
    }
  }

  // ---- election timeout

  lemma TimeoutFresh(c: Cluster, s: ServerId)
    requires VotesOk(c) && ElectionsOk(c) && s in c.servers
    ensures var t := c.servers[s].node.currentTerm + 1;
      && (s, t) !in c.h.ballots && (s, t) !in c.h.candidacies
      && (t in c.h.elections ==> c.h.elections[t].leader != s)
  {
    var t := c.servers[s].node.currentTerm + 1;
    if t in c.h.elections { assert ElectionOk(c, t); }
  }

  lemma TimeoutQuiet(c: Cluster, d: Cluster, s: ServerId)
    requires CanTimeout(c, s) && d == DoTimeout(c, s) && s in c.h.counted
    requires (s, c.servers[s].node.currentTerm + 1) !in c.h.ballots
    requires (s, c.servers[s].node.currentTerm + 1) !in c.h.candidacies
    ensures Quiet(c, d, s)
  {
  }

  lemma TimeoutMoved(c: Cluster, d: Cluster, s: ServerId)
    requires CanTimeout(c, s) && d == DoTimeout(c, s) && s in c.h.counted && ServerOk(c, s) && Quiet(c, d, s)
    requires var t := c.servers[s].node.currentTerm + 1; t in c.h.elections ==> c.h.elections[t].leader != s
    ensures Moved(d, s)
  {
    hide LogOk, HeldAt, ServerKeeps, CandidateOk, LeaderOk, CommitAt, Quiet;
    QuietCommit(c, d, s);
    assert LeaderOk(d, s) by { hide *; NotLeader(d, s); }
    assert CandidateOk(d, s) by { TimeoutCandidate(c, d, s); }
    assert Delivered(d.servers[s]) == Delivered(c.servers[s]);
  }

  lemma TimeoutCandidate(c: Cluster, d: Cluster, s: ServerId)
    requires CanTimeout(c, s) && d == DoTimeout(c, s) && s in c.h.counted
    requires ServerShape(c.servers.Keys, s, c.servers[s]) && VoteCallsOk(c, s)
    requires var t := c.servers[s].node.currentTerm + 1; t in c.h.elections ==> c.h.elections[t].leader != s
    ensures CandidateOk(d, s)
  {
  }

  lemma TimeoutBallot(c: Cluster, d: Cluster, s: ServerId)
    requires CanTimeout(c, s) && d == DoTimeout(c, s) && LogOk(c, s) && c.servers[s].node.selfId == s
    ensures var t := c.servers[s].node.currentTerm + 1;
      BallotOk(d, s, t) && CandidacyOk(d, s, t)
  {
  }

  lemma KeepsTimeout(c: Cluster, s: ServerId)
    requires Inv(c) && CanTimeout(c, s)
    ensures Inv(DoTimeout(c, s)) && Evolves(c, DoTimeout(c, s))
  {
    hide Inv, LedgerOk, Quiet, NewBallotsOk, NewMessagesOk, NewAppliedOk, LogOk, HeldAt, ServerKeeps, Moved;
    hide BallotOk, CandidacyOk;
    hide VoteOk, VoteCallsOk, CandidateOk, LeaderOk, AppendCallsOk, CommitAt, PipelineOk, Plain;
    hide HeldOk, VotesOk, BallotsKeptOk, ElectionsOk, CompleteOk, VoteNetOk, AppendNetOk, AppliedOk;
    var d := DoTimeout(c, s);
    InvParts(c);
    InvServer(c, s);
    TimeoutFresh(c, s);
    TimeoutQuiet(c, d, s);
    TimeoutMoved(c, d, s);
    QuietServer(c, d, s);
    TimeoutBallot(c, d, s);
    OneNewBallot(c, d, s, c.servers[s].node.currentTerm + 1);
    NoNewMessages(c, d);
    NoNewApplied(c, d);
    QuietStep(c, d, s);
  }

  // ---- sending a vote request

  lemma SendVotePeers(c: Cluster, d: Cluster, s: ServerId, p: ServerId)
    requires CanSendVote(c, s, p) && d == DoSendVote(c, s, p) && s in c.h.counted
    requires ServerShape(c.servers.Keys, s, c.servers[s]) && VoteCallsOk(c, s) && CandidateOk(c, s)
    ensures ServerShape(d.servers.Keys, s, d.servers[s]) && VoteCallsOk(d, s) && CandidateOk(d, s)
    ensures VoteMessageOk(d, VoteRequest(p, c.servers[s].node.requestVoteArg))
  {
  }

  lemma SendVoteMoved(c: Cluster, d: Cluster, s: ServerId, p: ServerId)
    requires CanSendVote(c, s, p) && d == DoSendVote(c, s, p) && s in c.h.counted && ServerOk(c, s) && Quiet(c, d, s)
    ensures Moved(d, s)
    ensures VoteMessageOk(d, VoteRequest(p, c.servers[s].node.requestVoteArg))
  {
    hide LogOk, HeldAt, ServerKeeps, CommitAt, Quiet, ServerShape, VoteCallsOk, CandidateOk, VoteMessageOk, LeaderOk;
    SendVotePeers(c, d, s, p);
    QuietCommit(c, d, s);
    NotLeader(d, s);
    assert Delivered(d.servers[s]) == Delivered(c.servers[s]);
  }

  lemma KeepsSendVote(c: Cluster, s: ServerId, p: ServerId)
    requires Inv(c) && CanSendVote(c, s, p)
    ensures Inv(DoSendVote(c, s, p)) && Evolves(c, DoSendVote(c, s, p))
  {
    hide Inv, LedgerOk, NewBallotsOk, NewAppliedOk, ServerOk, Moved, VoteMessageOk;
    var d := DoSendVote(c, s, p);
    InvServer(c, s);
    assert Quiet(c, d, s);
    SendVoteMoved(c, d, s, p);
    QuietServer(c, d, s);
    NoNewBallots(c, d);
    NoNewApplied(c, d);
    QuietStep(c, d, s);
  }

  // ---- voting

  /** The three outcomes of a vote request. */
  lemma VoteOutcomes(n: Node, d: Durable, arg: RequestVoteArg)
    requires d == Persisted(n)
    ensures var (m, r) := OnRequestVote(n, arg);
      && RequestVoteDisk(n, d, arg) == Persisted(m)
      && (r.voteGranted ==>
            && n.currentTerm <= arg.term
            && m == n.(currentTerm := arg.term, votedFor := Some(arg.candidateId), role := Follower)
            && (n.currentTerm == arg.term ==> n.votedFor == None || n.votedFor == Some(arg.candidateId))
            && UpToDate(n.log, arg.lastLogIndex, arg.lastLogTerm))
      && (!r.voteGranted ==> m == n || (arg.term > n.currentTerm && m == BecameFollower(n, arg.term)))
  {
  }

  lemma GrantedOnce(c: Cluster, s: ServerId, arg: RequestVoteArg)
    requires VotesOk(c) && s in c.servers && c.servers[s].disk == Persisted(c.servers[s].node)
    requires OnRequestVote(c.servers[s].node, arg).1.voteGranted && (s, arg.term) in c.h.ballots
    ensures c.h.ballots[(s, arg.term)].candidate == arg.candidateId
  {
    assert BallotOk(c, s, arg.term);
    VoteOutcomes(c.servers[s].node, c.servers[s].disk, arg);
  }

  lemma VoteQuiet(c: Cluster, d: Cluster, s: ServerId, arg: RequestVoteArg)
    requires CanVote(c, s, arg) && d == DoVote(c, s, arg) && c.servers[s].disk == Persisted(c.servers[s].node)
    ensures Quiet(c, d, s)
  {
    hide OnRequestVote, RequestVoteDisk;
    VoteOutcomes(c.servers[s].node, c.servers[s].disk, arg);
  }

  lemma VoteMoved(c: Cluster, d: Cluster, s: ServerId, arg: RequestVoteArg)
    requires CanVote(c, s, arg) && d == DoVote(c, s, arg) && s in c.h.counted && ServerOk(c, s) && Quiet(c, d, s)
    requires OnRequestVote(c.servers[s].node, arg).1.voteGranted && (s, arg.term) in c.h.ballots ==>
      c.h.ballots[(s, arg.term)].candidate == arg.candidateId
    ensures Moved(d, s)
  {
    hide LogOk, HeldAt, ServerKeeps, CommitAt, Quiet, OnRequestVote, RequestVoteDisk;
    VoteOutcomes(c.servers[s].node, c.servers[s].disk, arg);
    QuietCommit(c, d, s);
    assert Delivered(d.servers[s]) == Delivered(c.servers[s]);
    FewerCalls(c, d, s);
  }

  lemma VoteBallot(c: Cluster, d: Cluster, s: ServerId, arg: RequestVoteArg)
    requires CanVote(c, s, arg) && d == DoVote(c, s, arg)
    requires LogOk(c, s) && ServerShape(c.servers.Keys, s, c.servers[s]) && VoteMessageOk(c, VoteRequest(s, arg))
    requires OnRequestVote(c.servers[s].node, arg).1.voteGranted && (s, arg.term) !in c.h.ballots
    ensures BallotOk(d, s, arg.term)
    ensures d.h.ballots[(s, arg.term)].log == d.servers[s].node.log.entries
  {
    hide OnRequestVote, RequestVoteDisk, Grounded, TermsBelow;
    VoteOutcomes(c.servers[s].node, c.servers[s].disk, arg);
  }

  lemma VoteMessage(c: Cluster, d: Cluster, s: ServerId, arg: RequestVoteArg)
    requires CanVote(c, s, arg) && d == DoVote(c, s, arg)
    requires OnRequestVote(c.servers[s].node, arg).1.voteGranted && (s, arg.term) in c.h.ballots ==>
      c.h.ballots[(s, arg.term)].candidate == arg.candidateId
    ensures NewMessagesOk(c, d)
  {
    hide OnRequestVote, RequestVoteDisk;
  }

  lemma KeepsVote(c: Cluster, s: ServerId, arg: RequestVoteArg)
    requires Inv(c) && CanVote(c, s, arg)
    ensures Inv(DoVote(c, s, arg)) && Evolves(c, DoVote(c, s, arg))
  {
    hide Inv, LedgerOk, Quiet, NewBallotsOk, NewMessagesOk, NewAppliedOk, LogOk, HeldAt, ServerKeeps, Moved;
    hide BallotOk, CandidacyOk;
    hide VoteOk, VoteCallsOk, CandidateOk, LeaderOk, AppendCallsOk, CommitAt, PipelineOk, Plain, VoteMessageOk;
    hide HeldOk, VotesOk, BallotsKeptOk, ElectionsOk, CompleteOk, AppendNetOk, AppliedOk;
    hide OnRequestVote, RequestVoteDisk;
    var d := DoVote(c, s, arg);
    InvParts(c);
    InvServer(c, s);
    if OnRequestVote(c.servers[s].node, arg).1.voteGranted && (s, arg.term) in c.h.ballots {
      GrantedOnce(c, s, arg);
    }
    VoteOutcomes(c.servers[s].node, c.servers[s].disk, arg);
    VoteQuiet(c, d, s, arg);
    VoteMoved(c, d, s, arg);
    QuietServer(c, d, s);
    if OnRequestVote(c.servers[s].node, arg).1.voteGranted && (s, arg.term) !in c.h.ballots {
      VoteBallot(c, d, s, arg);
      OneNewBallot(c, d, s, arg.term);
    } else {
      NoNewBallots(c, d);
    }
    VoteMessage(c, d, s, arg);
    NoNewApplied(c, d);
    QuietStep(c, d, s);
  }

  // ---- counting a vote

  /** The outcomes of a vote reply, short of winning. */
  lemma VoteReplyOutcomes(n: Node, d: Durable, arg: RequestVoteArg, r: Option<RequestVoteReply>)
    requires d == Persisted(n)
    ensures var m := OnVoteReply(n, arg, r);
      var counts := r.Some? && CountsVote(n, arg, r.value);
      && VoteReplyDisk(n, d, r) == Persisted(m)
      && (!counts ==> m == n || (r.Some? && r.value.term > n.currentTerm && m == BecameFollower(n, r.value.term)))
      && (counts ==>
            if n.votesGranted + 1 < Majority(n.clusterSize) then m == n.(votesGranted := n.votesGranted + 1)
            else
              m == n.(votesGranted := n.votesGranted + 1, role := Leader,
                      nextIndex := map p | p in n.nextIndex :: LastIndex(n.log) + 1,
                      matchIndex := map p | p in n.matchIndex :: 0))
  {
  }

  lemma ReceiveVoteQuiet(c: Cluster, d: Cluster, s: ServerId, p: ServerId, r: Option<RequestVoteReply>)
    requires CanReceiveVote(c, s, p, r) && d == DoReceiveVote(c, s, p, r)
    requires c.servers[s].disk == Persisted(c.servers[s].node) && s in c.h.counted
    requires !(&& r.Some? && CountsVote(c.servers[s].node, c.servers[s].voteCall[p], r.value)
               && d.servers[s].node.role == Leader)
    ensures Quiet(c, d, s)
  {
    hide OnVoteReply, VoteReplyDisk, CountsVote;
    VoteReplyOutcomes(c.servers[s].node, c.servers[s].disk, c.servers[s].voteCall[p], r);
  }

  lemma ReceiveVoteIgnored(c: Cluster, d: Cluster, s: ServerId, p: ServerId, r: Option<RequestVoteReply>)
    requires CanReceiveVote(c, s, p, r) && d == DoReceiveVote(c, s, p, r)
    requires s in c.h.counted && ServerOk(c, s) && Quiet(c, d, s)
    requires !(r.Some? && CountsVote(c.servers[s].node, c.servers[s].voteCall[p], r.value))
    ensures Moved(d, s)
  {
    hide LogOk, HeldAt, ServerKeeps, CommitAt, Quiet, OnVoteReply, VoteReplyDisk, CountsVote;
    VoteReplyOutcomes(c.servers[s].node, c.servers[s].disk, c.servers[s].voteCall[p], r);
    QuietCommit(c, d, s);
    FewerCalls(c, d, s);
    assert Delivered(d.servers[s]) == Delivered(c.servers[s]);
  }

  /** A counted reply is a ballot of a peer that was not counted before. */
  lemma CountedBallot(c: Cluster, s: ServerId, p: ServerId, r: RequestVoteReply)
    requires CanReceiveVote(c, s, p, Some(r)) && s in c.h.counted
    requires VoteCallsOk(c, s) && CandidateOk(c, s) && VoteMessageOk(c, VoteReply(p, c.servers[s].voteCall[p], r))
    requires CountsVote(c.servers[s].node, c.servers[s].voteCall[p], r)
    ensures var t := c.servers[s].node.currentTerm;
      && (p, t) in c.h.ballots && c.h.ballots[(p, t)].candidate == s
      && p !in c.h.counted[s]
      && |c.h.counted[s] + {p}| == c.servers[s].node.votesGranted + 1
  {
  }

  lemma ReceiveVoteCandidate(c: Cluster, d: Cluster, s: ServerId, p: ServerId, r: RequestVoteReply)
    requires CanReceiveVote(c, s, p, Some(r)) && d == DoReceiveVote(c, s, p, Some(r))
    requires s in c.h.counted && ServerShape(c.servers.Keys, s, c.servers[s])
    requires VoteCallsOk(c, s) && CandidateOk(c, s) && VoteMessageOk(c, VoteReply(p, c.servers[s].voteCall[p], r))
    requires CountsVote(c.servers[s].node, c.servers[s].voteCall[p], r) && d.servers[s].node.role != Leader
    ensures CandidateOk(d, s) && VoteCallsOk(d, s)
  {
    hide OnVoteReply, VoteReplyDisk;
    CountedBallot(c, s, p, r);
    VoteReplyOutcomes(c.servers[s].node, c.servers[s].disk, c.servers[s].voteCall[p], Some(r));
  }

  lemma ReceiveVoteCounted(c: Cluster, d: Cluster, s: ServerId, p: ServerId, r: RequestVoteReply)
    requires CanReceiveVote(c, s, p, Some(r)) && d == DoReceiveVote(c, s, p, Some(r))
    requires s in c.h.counted && ServerOk(c, s) && Quiet(c, d, s)
    requires VoteMessageOk(c, VoteReply(p, c.servers[s].voteCall[p], r))
    requires CountsVote(c.servers[s].node, c.servers[s].voteCall[p], r) && d.servers[s].node.role != Leader
    ensures Moved(d, s)
  {
    hide LogOk, HeldAt, ServerKeeps, CommitAt, Quiet, OnVoteReply, VoteReplyDisk, CandidateOk, LeaderOk;
    hide VoteMessageOk, VoteCallsOk;
    ReceiveVoteCandidate(c, d, s, p, r);
    VoteReplyOutcomes(c.servers[s].node, c.servers[s].disk, c.servers[s].voteCall[p], Some(r));
    QuietCommit(c, d, s);
    NotLeader(d, s);
    assert Delivered(d.servers[s]) == Delivered(c.servers[s]);
  }

  lemma KeepsReceiveVoteQuiet(c: Cluster, s: ServerId, p: ServerId, r: Option<RequestVoteReply>)
    requires Inv(c) && CanReceiveVote(c, s, p, r)
    requires !(r.Some? && CountsVote(c.servers[s].node, c.servers[s].voteCall[p], r.value)
               && DoReceiveVote(c, s, p, r).servers[s].node.role == Leader)
    ensures Inv(DoReceiveVote(c, s, p, r)) && Evolves(c, DoReceiveVote(c, s, p, r))
  {
    hide Inv, LedgerOk, Quiet, NewBallotsOk, NewMessagesOk, NewAppliedOk, LogOk, HeldAt, ServerKeeps, Moved;
    hide VoteOk, VoteCallsOk, CandidateOk, LeaderOk, AppendCallsOk, CommitAt, PipelineOk, Plain, VoteMessageOk;
    hide HeldOk, VotesOk, BallotsKeptOk, ElectionsOk, CompleteOk, AppendNetOk, AppliedOk;
    hide OnVoteReply, VoteReplyDisk, CountsVote;
    var d := DoReceiveVote(c, s, p, r);
    InvParts(c);
    InvServer(c, s);
    ReceiveVoteQuiet(c, d, s, p, r);
    if r.Some? && CountsVote(c.servers[s].node, c.servers[s].voteCall[p], r.value) {
      ReceiveVoteCounted(c, d, s, p, r.value);
    } else {
      ReceiveVoteIgnored(c, d, s, p, r);
    }
    QuietServer(c, d, s);
    NoNewBallots(c, d);
    NoNewMessages(c, d);
    NoNewApplied(c, d);
    QuietStep(c, d, s);
  }
}
