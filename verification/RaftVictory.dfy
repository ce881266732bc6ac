/** Winning an election: the new leader's log contains everything that may still be chosen. */
module RaftVictory {
  import opened Options
  import opened RaftTypes
  import opened RaftLog
  import opened RaftNode
  import opened RaftCluster
  import opened RaftInvariant
  import opened RaftEvolution
  import opened RaftFrame
  import opened RaftQuiet
  import opened RaftElectionSteps

  /** A candidate's log that is at least as new as a log holding entry k of term t also holds
      it, provided every leader between t and the candidate's term does. */
  lemma NewerContains(h: History, voter: seq<Entry>, candidate: seq<Entry>, t: nat, k: nat, term: nat)
    requires LedgerOk(h) && Grounded(h.ledger, voter) && Grounded(h.ledger, candidate)
    requires Own(h, t, k) && h.ledger[t][..k] <= voter
    requires AtLeastAsNew(candidate, voter) && TermsBelow(candidate, term)
    requires forall w :: w in h.elections && t < w < term ==> h.ledger[t][..k] <= h.elections[w].base
    ensures h.ledger[t][..k] <= candidate
  {
    GroundedOrdered(h, voter);
    GroundedOrdered(h, candidate);
    assert LedgerEntry(h, t);
    assert voter[k - 1] == h.ledger[t][k - 1];
    var i, j := |voter| - 1, |candidate| - 1;
    assert voter[k - 1].term <= voter[i].term;
    assert GroundedAt(h.ledger, voter, i);
    assert voter[..i + 1] == voter;
    assert GroundedAt(h.ledger, candidate, j);
    assert candidate[..j + 1] == candidate;
    var w := candidate[j].term;
    if voter[i].term < w {
      assert LedgerEntry(h, w);
      assert h.ledger[w][j].term == w;
      assert h.elections[w].base <= candidate;
    }
  }

  /** The ballots of a majority prove the winner complete. */
  lemma WinnerComplete(c: Cluster, s: ServerId, term: nat, voters: set<ServerId>, t: nat, k: nat)
    requires LedgerOk(c.h) && VotesOk(c) && BallotsKeptOk(c) && CompleteOk(c)
    requires IsQuorum(c, voters) && (s, term) in c.h.candidacies
    requires forall v :: v in voters ==> (v, term) in c.h.ballots && c.h.ballots[(v, term)].candidate == s
    requires Choosable(c, t, k) && t < term
    ensures c.h.ledger[t][..k] <= c.h.candidacies[(s, term)]
  {
    hide LedgerOk, AtLeastAsNew, Grounded, TermsBelow;
    var v := QuorumsMeet(c, Supporters(c, t, k), voters);
    assert BallotOk(c, v, term);
    assert BallotKeepsAt(c, v, term, t, k);
    assert CandidacyOk(c, s, term);
    assert BallotOk(c, s, term);
    NewerContains(c.h, c.h.ballots[(v, term)].log, c.h.candidacies[(s, term)], t, k, term);
  }

  /** Nobody else has won this term. */
  lemma TermIsOpen(c: Cluster, s: ServerId, term: nat, voters: set<ServerId>)
    requires ElectionsOk(c) && IsQuorum(c, voters)
    requires forall v :: v in voters ==> (v, term) in c.h.ballots && c.h.ballots[(v, term)].candidate == s
    requires term in c.h.elections ==> c.h.elections[term].leader != s
    ensures term !in c.h.elections
  {
    if term in c.h.elections {
      assert ElectionOk(c, term);
      var v := QuorumsMeet(c, voters, c.h.elections[term].voters);
      assert false;
    }
  }

  /** What DoReceiveVote does when the vote is decisive. */
  ghost predicate Won(c: Cluster, d: Cluster, s: ServerId, voters: set<ServerId>) {
    && s in c.servers && s in d.servers
    && var n, m := c.servers[s].node, d.servers[s].node;
    var t, log := n.currentTerm, n.log.entries;
    && d.servers == c.servers[s := d.servers[s]]
    && m == n.(votesGranted := m.votesGranted, role := Leader,
               nextIndex := map p | p in n.nextIndex :: LastIndex(n.log) + 1,
               matchIndex := map p | p in n.matchIndex :: 0)
    && d.servers[s] == c.servers[s].(node := m, voteCall := d.servers[s].voteCall)
    && d.servers[s].voteCall.Keys <= c.servers[s].voteCall.Keys
    && (forall p :: p in d.servers[s].voteCall ==> d.servers[s].voteCall[p] == c.servers[s].voteCall[p])
    && d.net == c.net
    && t !in c.h.elections && t !in c.h.ledger
    && d.h == c.h.(counted := c.h.counted[s := voters],
                   elections := c.h.elections[t := Election(s, voters, log)],
                   ledger := c.h.ledger[t := log],
                   held := c.h.held[(s, t) := |log|])
  }

  /** The winner as a candidate. */
  ghost predicate Winning(c: Cluster, s: ServerId, voters: set<ServerId>) {
    && s in c.servers
    && var t := c.servers[s].node.currentTerm;
    && IsQuorum(c, voters)
    && (s, t) in c.h.candidacies && c.h.candidacies[(s, t)] == c.servers[s].node.log.entries
    && (forall v :: v in voters ==> (v, t) in c.h.ballots && c.h.ballots[(v, t)].candidate == s)
  }

  lemma WonHeld(c: Cluster, d: Cluster, s: ServerId, voters: set<ServerId>)
    requires Won(c, d, s, voters) && HeldOk(c)
    ensures forall x, t: nat :: (x, t) != (s, c.servers[s].node.currentTerm) ==>
        HeldLen(d.h, x, t) == HeldLen(c.h, x, t)
    ensures forall x :: HeldLen(c.h, x, c.servers[s].node.currentTerm) == 0
  {
  }

  lemma WonGrows(c: Cluster, d: Cluster, s: ServerId, voters: set<ServerId>)
    requires Won(c, d, s, voters) && HeldOk(c)
    ensures Evolves(c, d)
  {
    assert HeldGrows(c, d) by { WonHeld(c, d, s, voters); }
    assert TermsGrow(c, d);
    assert LedgerGrows(c.h, d.h);
    assert VotesGrow(c.h, d.h);
  }

  lemma WonOnly(c: Cluster, d: Cluster, s: ServerId, voters: set<ServerId>)
    requires Won(c, d, s, voters) && HeldOk(c) && s in c.h.counted
    ensures Only(c, d, s) && OnlyWrites(c, d, s)
  {
    WonHeld(c, d, s, voters);
    hide HeldAt;
  }

  lemma WonLedger(c: Cluster, d: Cluster, s: ServerId, voters: set<ServerId>)
    requires Won(c, d, s, voters) && Winning(c, s, voters) && LedgerOk(c.h)
    requires LogOk(c, s) && CandidacyOk(c, s, c.servers[s].node.currentTerm)
    ensures LedgerOk(d.h)
  {
    var term, log := c.servers[s].node.currentTerm, c.servers[s].node.log.entries;
    GroundedOrdered(c.h, log);
    forall t | t in d.h.ledger
      ensures t in d.h.elections && LedgerEntry(d.h, t)
    {
      if t == term {
        GroundedGrows(c.h.ledger, d.h.ledger, log);
      } else {
        assert LedgerEntry(c.h, t);
        GroundedGrows(c.h.ledger, d.h.ledger, c.h.ledger[t]);
      }
    }
  }

  lemma WonElection(c: Cluster, d: Cluster, s: ServerId, voters: set<ServerId>)
    requires Won(c, d, s, voters) && Winning(c, s, voters) && Evolves(c, d) && OnlyWrites(c, d, s)
    requires LedgerOk(c.h) && VotesOk(c) && BallotsKeptOk(c) && CompleteOk(c)
    ensures NewElectionOk(c, d)
  {
    hide VotesOk, BallotsKeptOk, CompleteOk, OnlyWrites, HeldGrows, LedgerOk;
    var term := c.servers[s].node.currentTerm;
    assert |c.servers| == |c.servers.Keys| == |d.servers.Keys| == |d.servers|;
    assert ElectionOk(d, term);
    forall t: nat, k: nat, u | Choosable(d, t, k) && u in d.h.elections && u !in c.h.elections && t < u
      ensures d.h.ledger[t][..k] <= d.h.elections[u].base
    {
      assert u == term;
      ChoosableBefore(c, d, t, k);
      WinnerComplete(c, s, term, voters, t, k);
    }
  }

  lemma WonLeader(c: Cluster, d: Cluster, s: ServerId, voters: set<ServerId>)
    requires Won(c, d, s, voters) && LogOk(c, s) && LedgerOk(c.h) && ServerShape(c.servers.Keys, s, c.servers[s])
    ensures LeaderOk(d, s)
  {
    GroundedOrdered(c.h, c.servers[s].node.log.entries);
    LastContiguous(c.servers[s].node.log);
  }

  lemma WonKeeps(c: Cluster, d: Cluster, s: ServerId, voters: set<ServerId>)
    requires Won(c, d, s, voters) && HeldOk(c) && Evolves(c, d) && ServerKeeps(c, s)
    ensures ServerKeeps(d, s)
    ensures forall t :: (s, t) in d.h.held ==> HeldAt(d, s, t)
  {
    WonHeld(c, d, s, voters);
    var term := c.servers[s].node.currentTerm;
    forall t: nat, k: nat | t <= d.servers[s].node.currentTerm && Choosable(d, t, k)
      ensures KeepsAt(d, s, t, k)
    {
      assert t != term;
      ChoosableBefore(c, d, t, k);
      assert KeepsAt(c, s, t, k);
    }
  }

  lemma WonLog(c: Cluster, d: Cluster, s: ServerId, voters: set<ServerId>)
    requires Won(c, d, s, voters) && Evolves(c, d) && LogOk(c, s) && CommitAt(c, s) && PipelineOk(c.servers[s])
    ensures LogOk(d, s) && CommitAt(d, s) && PipelineOk(d.servers[s])
  {
    hide CommittedBy, HeldGrows, VotesGrow;
    var n := c.servers[s].node;
    GroundedGrows(c.h.ledger, d.h.ledger, n.log.entries);
    CommittedStays(c, d, n.log.entries[..n.commitIndex], n.currentTerm, n.currentTerm);
    assert Delivered(d.servers[s]) == Delivered(c.servers[s]);
  }

  /** Outstanding append calls date from terms that already had a leader. */
  lemma CallsInLedger(c: Cluster, s: ServerId)
    requires s in c.servers && AppendCallsOk(c, s) && AppendNetOk(c)
    ensures forall p :: p in c.servers[s].appendCall ==> c.servers[s].appendCall[p].term in c.h.ledger
  {
    hide CommittedBy;
    forall p | p in c.servers[s].appendCall
      ensures c.servers[s].appendCall[p].term in c.h.ledger
    {
      assert AppendMessageOk(c, AppendRequest(p, c.servers[s].appendCall[p]));
    }
  }

  lemma WonPeers(c: Cluster, d: Cluster, s: ServerId, voters: set<ServerId>)
    requires Won(c, d, s, voters) && s in c.h.counted
    requires forall p :: p in c.servers[s].appendCall ==> c.servers[s].appendCall[p].term in c.h.ledger
    requires ServerShape(c.servers.Keys, s, c.servers[s]) && VoteOk(c, s) && VoteCallsOk(c, s) && AppendCallsOk(c, s)
    ensures ServerShape(d.servers.Keys, s, d.servers[s]) && VoteOk(d, s) && VoteCallsOk(d, s) && AppendCallsOk(d, s)
    ensures CandidateOk(d, s) && VoteMoves(c.servers[s].node, d.servers[s].node)
  {
  }

  lemma WonServer(c: Cluster, d: Cluster, s: ServerId, voters: set<ServerId>)
    requires Won(c, d, s, voters) && s in c.h.counted && ServerOk(c, s) && HeldOk(c) && LedgerOk(c.h) && Evolves(c, d)
    requires forall p :: p in c.servers[s].appendCall ==> c.servers[s].appendCall[p].term in c.h.ledger
    ensures s in d.h.counted && ServerOk(d, s)
  {
    hide ServerShape, VoteOk, VoteCallsOk, CandidateOk, LeaderOk, AppendCallsOk, PipelineOk, LedgerOk, HeldOk, Evolves;
    hide LogOk, CommitAt, HeldAt, ServerKeeps;
    WonPeers(c, d, s, voters);
    WonLeader(c, d, s, voters);
    WonLog(c, d, s, voters);
    WonKeeps(c, d, s, voters);
  }

  lemma WonNews(c: Cluster, d: Cluster, s: ServerId, voters: set<ServerId>)
    requires Won(c, d, s, voters)
    ensures NewBallotsOk(c, d) && NewMessagesOk(c, d) && NewAppliedOk(c, d)
  {
    hide NewBallotsOk, NewMessagesOk, NewAppliedOk;
    NoNewBallots(c, d);
    NoNewMessages(c, d);
    NoNewApplied(c, d);
  }

  lemma KeepsWon(c: Cluster, d: Cluster, s: ServerId, voters: set<ServerId>)
    requires Inv(c) && Won(c, d, s, voters) && Winning(c, s, voters)
    ensures Inv(d) && Evolves(c, d)
  {
    hide Inv, LedgerOk, NewBallotsOk, NewMessagesOk, NewAppliedOk, NewElectionOk, Evolves, Only, OnlyWrites;
    hide HeldOk, BallotsKeptOk, ElectionsOk, CompleteOk, AppendNetOk, AppliedOk, VoteNetOk, BallotOk, CandidacyOk;
    hide VoteCallsOk, CandidateOk, LeaderOk, AppendCallsOk, CommitAt, PipelineOk, HeldAt, ServerKeeps, LogOk;
    hide ServerShape, VoteOk;
    InvParts(c);
    InvServer(c, s);
    CallsInLedger(c, s);
    WonGrows(c, d, s, voters);
    WonOnly(c, d, s, voters);
    WonLedger(c, d, s, voters);
    WonElection(c, d, s, voters);
    WonServer(c, d, s, voters);
    WonPeers(c, d, s, voters);
    WonNews(c, d, s, voters);
    StepKeeps(c, d, s);
  }

  lemma DecisiveWinning(c: Cluster, s: ServerId, p: ServerId, r: RequestVoteReply)
    requires CanReceiveVote(c, s, p, Some(r)) && s in c.h.counted
    requires ServerShape(c.servers.Keys, s, c.servers[s]) && VoteCallsOk(c, s) && CandidateOk(c, s)
    requires VoteMessageOk(c, VoteReply(p, c.servers[s].voteCall[p], r))
    requires ElectionsOk(c)
    requires CountsVote(c.servers[s].node, c.servers[s].voteCall[p], r)
    requires c.servers[s].node.votesGranted + 1 >= Majority(c.servers[s].node.clusterSize)
    ensures Winning(c, s, c.h.counted[s] + {p})
    ensures c.servers[s].node.currentTerm !in c.h.elections
  {
    hide ElectionsOk;
    CountedBallot(c, s, p, r);
    assert |c.servers| == |c.servers.Keys|;
    TermIsOpen(c, s, c.servers[s].node.currentTerm, c.h.counted[s] + {p});
  }

  lemma DecisiveWon(c: Cluster, d: Cluster, s: ServerId, p: ServerId, r: RequestVoteReply)
    requires CanReceiveVote(c, s, p, Some(r)) && s in c.h.counted && d == DoReceiveVote(c, s, p, Some(r))
    requires c.servers[s].disk == Persisted(c.servers[s].node)
    requires CountsVote(c.servers[s].node, c.servers[s].voteCall[p], r)
    requires d.servers[s].node.role == Leader
    requires c.servers[s].node.currentTerm !in c.h.elections && c.h.ledger.Keys == c.h.elections.Keys
    ensures Won(c, d, s, c.h.counted[s] + {p})
  {
    hide OnVoteReply, VoteReplyDisk;
    VoteReplyOutcomes(c.servers[s].node, c.servers[s].disk, c.servers[s].voteCall[p], Some(r));
  }

  /** The decisive reply makes exactly such a victory. */
  lemma DecisiveVote(c: Cluster, s: ServerId, p: ServerId, r: RequestVoteReply)
    requires CanReceiveVote(c, s, p, Some(r)) && s in c.h.counted
    requires ServerShape(c.servers.Keys, s, c.servers[s]) && VoteCallsOk(c, s) && CandidateOk(c, s)
    requires VoteMessageOk(c, VoteReply(p, c.servers[s].voteCall[p], r))
    requires ElectionsOk(c) && c.h.ledger.Keys == c.h.elections.Keys
    requires CountsVote(c.servers[s].node, c.servers[s].voteCall[p], r)
    requires DoReceiveVote(c, s, p, Some(r)).servers[s].node.role == Leader
    ensures var voters := c.h.counted[s] + {p};
      Won(c, DoReceiveVote(c, s, p, Some(r)), s, voters) && Winning(c, s, voters)
  {
    hide ElectionsOk, VoteMessageOk, VoteCallsOk, CandidateOk, Won, Winning, Plain, VoteReplyDisk, OnVoteReply;
    VoteReplyOutcomes(c.servers[s].node, c.servers[s].disk, c.servers[s].voteCall[p], Some(r));
    DecisiveWinning(c, s, p, r);
    DecisiveWon(c, DoReceiveVote(c, s, p, Some(r)), s, p, r);
  }

  lemma KeepsReceiveVote(c: Cluster, s: ServerId, p: ServerId, r: Option<RequestVoteReply>)
    requires Inv(c) && CanReceiveVote(c, s, p, r)
    ensures Inv(DoReceiveVote(c, s, p, r)) && Evolves(c, DoReceiveVote(c, s, p, r))
  {
    hide Inv, LedgerEntry, LogOk, HeldAt, ServerKeeps, VoteOk, VoteCallsOk, CandidateOk, LeaderOk, AppendCallsOk;
    hide CommitAt, PipelineOk, ServerShape;
    hide VoteMessageOk, HeldOk, VotesOk, BallotsKeptOk, ElectionsOk, CompleteOk, AppendNetOk, AppliedOk;
    hide OnVoteReply, VoteReplyDisk, CountsVote, Won, Winning;
    if r.Some? && CountsVote(c.servers[s].node, c.servers[s].voteCall[p], r.value)
       && DoReceiveVote(c, s, p, r).servers[s].node.role == Leader {
      InvParts(c);
      InvServer(c, s);
      DecisiveVote(c, s, p, r.value);
      KeepsWon(c, DoReceiveVote(c, s, p, r), s, c.h.counted[s] + {p});
    } else {
      KeepsReceiveVoteQuiet(c, s, p, r);
    }
  }
}
