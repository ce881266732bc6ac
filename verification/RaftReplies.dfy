/** Every reply ever sent is backed by the disk of the server that sent it. */
module RaftReplies {
  import opened Options
  import opened RaftTypes
  import opened RaftLog
  import opened RaftNode
  import opened RaftCluster
  import opened RaftInvariant
  import opened RaftEvolution
  import opened RaftFrame
  import opened RaftSafety
  import opened RaftTheorems

  /** An append reply answers a request that was sent, and a successful one carries the term of the
      request and comes from a server that had reached it. */
  ghost predicate Answers(c: Cluster, m: Message) {
    m.AppendReply? ==>
      && AppendRequest(m.from, m.appendArg) in c.net
      && (m.appendReply.success ==>
            && m.appendReply.term == m.appendArg.term
            && m.from in c.servers && c.servers[m.from].node.currentTerm >= m.appendArg.term)
  }

  ghost predicate AllAnswer(c: Cluster) {
    forall m :: m in c.net ==> Answers(c, m)
  }

  /** What a step may add to the network. */
  ghost predicate Adds(c: Cluster, d: Cluster, step: Step) {
    && c.net <= d.net
    && forall m :: m in d.net && m !in c.net && m.AppendReply? ==>
         && step.HandleAppend? && CanAppend(c, step.s, step.append)
         && d == DoAppend(c, step.s, step.append, step.garbage)
         && m == AppendReply(step.s, step.append, OnAppendEntries(c.servers[step.s].node, step.append, step.garbage).1,
                             Compared(c.servers[step.s].node, step.append))
  }

  lemma StepAdds(c: Cluster, step: Step)
    requires Enabled(c, step)
    ensures Adds(c, Do(c, step), step)
  {
    hide OnAppendReply, OnAppendEntries, OnVoteReply, OnRequestVote, OnStart, InitVote, BuildAppend, TakeVoteTurn;
    hide Fresh;
    hide AppendEntriesDisk, AppendReplyDisk, RequestVoteDisk, VoteReplyDisk, Compared, CountsVote, NewerRequest;
    hide CanMove;
    hide BecameFollower, Move, At, HeldLen, CountedOf, Persisted;
  }

  lemma SuccessReaches(n: Node, arg: AppendEntriesArg, garbage: Conflict)
    requires OnAppendEntries(n, arg, garbage).1.success
    ensures OnAppendEntries(n, arg, garbage).0.currentTerm >= arg.term == OnAppendEntries(n, arg, garbage).1.term
  {
    hide Merge, Accepts;
  }

  lemma StepAnswers(c: Cluster, step: Step)
    requires Enabled(c, step) && AllAnswer(c) && Evolves(c, Do(c, step))
    ensures AllAnswer(Do(c, step))
  {
    var d := Do(c, step);
    StepAdds(c, step);
    hide Enabled, Do, LedgerGrows, HeldGrows, VotesGrow, OnAppendEntries;
    forall m | m in d.net
      ensures Answers(d, m)
    {
      if m in c.net {
        assert Answers(c, m);
      } else if m.AppendReply? && m.appendReply.success {
        SuccessReaches(c.servers[step.s].node, step.append, step.garbage);
      }
    }
  }

  lemma {:induction false} RunAnswers(c: Cluster, steps: seq<Step>)
    requires Inv(c) && AllAnswer(c) && CanRun(c, steps)
    ensures AllAnswer(Run(c, steps))
    decreases |steps|
  {
    hide Inv, AllAnswer, Evolves, Enabled, Do;
    if steps != [] {
      StepInv(c, steps[0]);
      StepAnswers(c, steps[0]);
      RunAnswers(Do(c, steps[0]), steps[1..]);
    }
  }

  /** A vote once granted stays on disk for as long as the voter is in the term. */
  lemma VoteReplyBacked(members: set<ServerId>, steps: seq<Step>, from: ServerId, arg: RequestVoteArg,
                        reply: RequestVoteReply)
    requires 1 <= |members| <= 255 && CanRun(Init(members), steps)
    requires VoteReply(from, arg, reply) in Run(Init(members), steps).net && reply.voteGranted
    ensures var c := Run(Init(members), steps);
      && from in c.servers
      && var disk := c.servers[from].disk;
      && (disk.currentTerm > arg.term || (disk.currentTerm == arg.term && disk.votedFor == Some(arg.candidateId)))
  {
    hide Inv, Run, CanRun, Evolves;
    var c := Run(Init(members), steps);
    InitInv(members);
    RunInv(Init(members), steps);
    GrantedBallot(c, from, arg, reply);
    hide VotesOk;
    BoundVoter(c, from, arg.term);
    ShapeOf(c, from);
  }

  lemma GrantedBallot(c: Cluster, from: ServerId, arg: RequestVoteArg, reply: RequestVoteReply)
    requires Inv(c) && VoteReply(from, arg, reply) in c.net && reply.voteGranted
    ensures VotesOk(c) && (from, arg.term) in c.h.ballots
    ensures c.h.ballots[(from, arg.term)].candidate == arg.candidateId
  {
    hide VotesOk;
    assert VoteMessageOk(c, VoteReply(from, arg, reply));
  }

  /** Entries once acknowledged stay on disk, where they were put, for as long as the follower is in
      the term. */
  lemma AppendReplyBacked(members: set<ServerId>, steps: seq<Step>, from: ServerId, arg: AppendEntriesArg,
                          reply: AppendEntriesReply, seen: Option<seq<Entry>>)
    requires 1 <= |members| <= 255 && CanRun(Init(members), steps)
    requires AppendReply(from, arg, reply, seen) in Run(Init(members), steps).net && reply.success
    ensures var c := Run(Init(members), steps);
      && from in c.servers
      && var disk := c.servers[from].disk;
      && (|| disk.currentTerm > arg.term
          || (disk.currentTerm == arg.term && Includes(disk.entries, arg.prevLogIndex, arg.entries)))
  {
    hide Inv, Run, CanRun, Evolves, AllAnswer;
    var c := Run(Init(members), steps);
    InitInv(members);
    RunInv(Init(members), steps);
    InitAnswers(members);
    RunAnswers(Init(members), steps);
    AnswerOf(c, AppendReply(from, arg, reply, seen));
    ShapeOf(c, from);
    if c.servers[from].node.currentTerm == arg.term {
      RequestShape(c, from, arg);
      AckedOnDisk(c, from, arg, reply, seen);
    }
  }

  lemma InitAnswers(members: set<ServerId>)
    ensures AllAnswer(Init(members))
  {
  }

  lemma AnswerOf(c: Cluster, m: Message)
    requires AllAnswer(c) && m in c.net
    ensures Answers(c, m)
  {
  }

  lemma AckedOnDisk(c: Cluster, from: ServerId, arg: AppendEntriesArg, reply: AppendEntriesReply,
                    seen: Option<seq<Entry>>)
    requires Inv(c) && AppendReply(from, arg, reply, seen) in c.net && reply.success && from in c.servers
    requires AppendMessageShape(c.h, arg) && c.servers[from].node.currentTerm == arg.term
    ensures Includes(c.servers[from].node.log.entries, arg.prevLogIndex, arg.entries)
  {
    hide Inv, CommittedBy;
    InvMessage(c, AppendReply(from, arg, reply, seen));
    var reach := arg.prevLogIndex + |arg.entries|;
    if reach > 0 {
      HeldBy(c, from, arg.term);
      var l, es := c.h.ledger[arg.term], c.servers[from].node.log.entries;
      SliceHeld(l, es, c.h.held[(from, arg.term)], arg.prevLogIndex, reach);
    }
  }

  lemma SliceHeld(l: seq<Entry>, es: seq<Entry>, held: nat, prev: nat, reach: nat)
    requires prev <= reach <= held <= |l| && l[..held] <= es
    ensures Includes(es, prev, l[prev..reach])
  {
    assert es[..held] == l[..held];
    assert es[prev..reach] == es[..held][prev..reach] == l[..held][prev..reach] == l[prev..reach];
  }
}
