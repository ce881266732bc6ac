/** A step changes one server. If that server ends up right, and the history it adds is
    right, the whole cluster is. */
module RaftFrame {
  import opened RaftTypes
  import opened RaftNode
  import opened RaftCluster
  import opened RaftInvariant
  import opened RaftEvolution

  /** Only server `s`, and the part of history that belongs to it, differs. */
  ghost predicate Only(c: Cluster, d: Cluster, s: ServerId) {
    && s in c.servers
    && d.servers.Keys == c.servers.Keys
    && d.h.counted.Keys == c.h.counted.Keys
    && (forall x :: x in c.servers && x != s ==> d.servers[x] == c.servers[x])
    && (forall x :: x in c.h.counted && x != s ==> d.h.counted[x] == c.h.counted[x])
    && (forall t :: t in c.h.ledger && t in c.h.elections && c.h.elections[t].leader != s ==>
          t in d.h.ledger && d.h.ledger[t] == c.h.ledger[t])
    && (forall t :: t in d.h.elections && t !in c.h.elections ==> d.h.elections[t].leader == s)
    && (forall x, t :: x != s ==> HeldLen(d.h, x, t) == HeldLen(c.h, x, t))
    && (forall x, t :: x != s && (x, t) in d.h.held ==> (x, t) in c.h.held)
    && (forall x, t :: (x, t) in d.h.ballots && (x, t) !in c.h.ballots ==> x == s)
  }

  /** A freshly written entry belongs to the current term of `s`, and nobody else holds it yet. */
  ghost predicate OnlyWrites(c: Cluster, d: Cluster, s: ServerId) {
    && s in d.servers
    && forall t: nat, k: nat :: Own(d.h, t, k) ==>
         || Own(c.h, t, k)
         || (t == d.servers[s].node.currentTerm && (forall x :: x != s ==> HeldLen(d.h, x, t) < k))
  }

  /** Everything the invariant says about one server. */
  ghost predicate ServerOk(c: Cluster, s: ServerId)
    requires s in c.servers && s in c.h.counted
  {
    && ServerShape(c.servers.Keys, s, c.servers[s])
    && LogOk(c, s)
    && VoteOk(c, s)
    && VoteCallsOk(c, s)
    && CandidateOk(c, s)
    && LeaderOk(c, s)
    && AppendCallsOk(c, s)
    && CommitAt(c, s)
    && PipelineOk(c.servers[s])
    && (forall t :: (s, t) in c.h.held ==> HeldAt(c, s, t))
    && ServerKeeps(c, s)
  }

  ghost predicate ServerKeeps(c: Cluster, s: ServerId)
    requires s in c.servers
  {
    forall t: nat, k: nat :: t <= c.servers[s].node.currentTerm && Choosable(c, t, k) ==> KeepsAt(c, s, t, k)
  }

  lemma InvServer(c: Cluster, s: ServerId)
    requires Inv(c) && s in c.servers
    ensures s in c.h.counted && ServerOk(c, s)
    ensures LedgerOk(c.h)
  {
  }

  // ---- single parts of the invariant

  lemma ShapeOf(c: Cluster, s: ServerId)
    requires Inv(c) && s in c.servers
    ensures ServerShape(c.servers.Keys, s, c.servers[s])
  {
    hide ServerShape;
  }

  lemma LogGrounded(c: Cluster, s: ServerId)
    requires Inv(c) && s in c.servers
    ensures Grounded(c.h.ledger, c.servers[s].node.log.entries) && LedgerOk(c.h)
  {
    hide LedgerEntry;
    assert LogOk(c, s);
  }

  lemma InvMessage(c: Cluster, m: Message)
    requires Inv(c) && m in c.net
    ensures AppendMessageOk(c, m)
  {
    hide AppendMessageOk, LedgerOk, LogsOk, VotesOk, VoteNetOk, CandidatesOk, ElectionsOk, HeldOk, LeadersOk, KeptOk;
    hide BallotsKeptOk, CompleteOk, CallsOk, CommitOk, AppliedOk, Shaped;
  }

  lemma InvLeader(c: Cluster, s: ServerId)
    requires Inv(c) && s in c.servers
    ensures LeaderOk(c, s) && AppendCallsOk(c, s)
  {
    hide AppendNetOk, LedgerOk, LogsOk, VotesOk, VoteNetOk, CandidatesOk, ElectionsOk, HeldOk, KeptOk;
    hide BallotsKeptOk, CompleteOk, CommitOk, AppliedOk, LeaderOk, AppendCallsOk;
  }

  /** A vote is never changed within a term. */
  predicate VoteMoves(n: Node, n': Node) {
    || n.currentTerm < n'.currentTerm
    || (n'.currentTerm == n.currentTerm && (n'.votedFor == n.votedFor || n.votedFor.None?))
  }

  lemma OtherLeader(c: Cluster, d: Cluster, s: ServerId, x: ServerId)
    requires Evolves(c, d) && Only(c, d, s) && x in c.servers && x != s
    requires LeaderOk(c, x)
    ensures LeaderOk(d, x)
  {
    var t := c.servers[x].node.currentTerm;
    if c.servers[x].node.role == Leader {
      assert d.h.elections[t] == c.h.elections[t];
      assert d.h.ledger[t] == c.h.ledger[t];
      forall p | p in d.servers[x].node.matchIndex
        ensures d.servers[x].node.matchIndex[p] <= HeldLen(d.h, p, t)
      {
        assert HeldLen(c.h, p, t) <= HeldLen(d.h, p, t);
      }
    }
  }

  lemma OtherCandidate(c: Cluster, d: Cluster, s: ServerId, x: ServerId)
    requires Evolves(c, d) && Only(c, d, s) && x in c.servers && x != s && x in c.h.counted
    requires CandidateOk(c, x)
    ensures CandidateOk(d, x)
  {
  }

  lemma OtherHeld(c: Cluster, d: Cluster, s: ServerId, x: ServerId, t: nat)
    requires Evolves(c, d) && Only(c, d, s) && x in c.servers && x != s
    requires (x, t) in d.h.held && ((x, t) in c.h.held ==> HeldAt(c, x, t))
    ensures HeldAt(d, x, t)
  {
    assert (x, t) in c.h.held;
    var k := c.h.held[(x, t)];
    assert HeldLen(c.h, x, t) == HeldLen(d.h, x, t);
    assert c.h.ledger[t] <= d.h.ledger[t];
    assert c.h.ledger[t][..k] == d.h.ledger[t][..k];
  }

  lemma OtherKeeps(c: Cluster, d: Cluster, s: ServerId, x: ServerId)
    requires Evolves(c, d) && Only(c, d, s) && OnlyWrites(c, d, s) && x in c.servers && x != s
    requires ServerKeeps(c, x)
    ensures ServerKeeps(d, x)
  {
    forall t: nat, k: nat | t <= d.servers[x].node.currentTerm && Choosable(d, t, k)
      ensures KeepsAt(d, x, t, k)
    {
      if Own(c.h, t, k) {
        ChoosableBefore(c, d, t, k);
        assert KeepsAt(c, x, t, k);
      }
    }
  }

  lemma OtherCommit(c: Cluster, d: Cluster, s: ServerId, x: ServerId)
    requires Evolves(c, d) && Only(c, d, s) && x in c.servers && x != s
    requires CommitAt(c, x)
    ensures CommitAt(d, x)
  {
    var n := c.servers[x].node;
    CommittedStays(c, d, n.log.entries[..n.commitIndex], n.currentTerm, n.currentTerm);
  }

  lemma OtherServer(c: Cluster, d: Cluster, s: ServerId, x: ServerId)
    requires Evolves(c, d) && Only(c, d, s) && OnlyWrites(c, d, s)
    requires x in c.servers && x != s && x in c.h.counted && ServerOk(c, x)
    ensures ServerOk(d, x)
  {
    OtherLeader(c, d, s, x);
    OtherCandidate(c, d, s, x);
    OtherKeeps(c, d, s, x);
    OtherCommit(c, d, s, x);
    GroundedGrows(c.h.ledger, d.h.ledger, c.servers[x].node.log.entries);
    forall t | (x, t) in d.h.held
      ensures HeldAt(d, x, t)
    {
      OtherHeld(c, d, s, x, t);
    }
  }

  /** Ballots already cast stay right. */
  lemma OldBallot(c: Cluster, d: Cluster, s: ServerId, v: ServerId, t: nat)
    requires Evolves(c, d) && Only(c, d, s)
    requires VoteMoves(c.servers[s].node, d.servers[s].node)
    requires (v, t) in c.h.ballots && BallotOk(c, v, t)
    ensures BallotOk(d, v, t)
  {
    GroundedGrows(c.h.ledger, d.h.ledger, c.h.ballots[(v, t)].log);
  }

  lemma OldBallotKeeps(c: Cluster, d: Cluster, s: ServerId, v: ServerId, u: nat, t: nat, k: nat)
    requires Evolves(c, d) && OnlyWrites(c, d, s)
    requires (v, u) in c.h.ballots && BallotOk(c, v, u) && t < u && Choosable(d, t, k)
    requires BallotsKeptOk(c)
    ensures BallotKeepsAt(d, v, u, t, k)
  {
    assert HeldLen(c.h, v, t) == HeldLen(d.h, v, t);
    if Own(c.h, t, k) {
      ChoosableBefore(c, d, t, k);
      assert BallotKeepsAt(c, v, u, t, k);
    }
  }

  /** Whatever is written in term t once a later leader exists can no longer be chosen. */
  lemma WrittenTooLate(c: Cluster, d: Cluster, s: ServerId, t: nat, k: nat, u: nat)
    requires Evolves(c, d) && OnlyWrites(c, d, s)
    requires Choosable(d, t, k) && u in c.h.elections && t < u
    requires ElectionOk(c, u) && forall v :: v in c.h.elections[u].voters && (v, u) in c.h.ballots ==> BallotOk(c, v, u)
    ensures Own(c.h, t, k)
  {
    assert |c.servers| == |c.servers.Keys| == |d.servers.Keys| == |d.servers|;
    var v := QuorumsMeet(d, Supporters(d, t, k), c.h.elections[u].voters);
    assert BallotOk(c, v, u);
  }

  lemma OldComplete(c: Cluster, d: Cluster, s: ServerId, t: nat, k: nat, u: nat)
    requires Evolves(c, d) && OnlyWrites(c, d, s) && CompleteOk(c)
    requires Choosable(d, t, k) && u in c.h.elections && t < u
    requires ElectionOk(c, u) && forall v :: v in c.h.elections[u].voters && (v, u) in c.h.ballots ==> BallotOk(c, v, u)
    ensures d.h.ledger[t][..k] <= d.h.elections[u].base
  {
    WrittenTooLate(c, d, s, t, k, u);
    ChoosableBefore(c, d, t, k);
  }

  lemma OldElection(c: Cluster, d: Cluster, t: nat)
    requires Evolves(c, d) && t in c.h.elections && ElectionOk(c, t)
    ensures t in d.h.elections && ElectionOk(d, t)
  {
    assert |c.servers| == |c.servers.Keys| == |d.servers.Keys| == |d.servers|;
  }

  /** The new ballots of a step are right. */
  ghost predicate NewBallotsOk(c: Cluster, d: Cluster) {
    && (forall v, t :: (v, t) in d.h.ballots && (v, t) !in c.h.ballots ==> BallotOk(d, v, t))
    && (forall v, t :: (v, t) in d.h.candidacies && (v, t) !in c.h.candidacies ==> CandidacyOk(d, v, t))
    && (forall v, u, t: nat, k: nat ::
          (v, u) in d.h.ballots && (v, u) !in c.h.ballots && t < u && Choosable(d, t, k) ==>
          BallotKeepsAt(d, v, u, t, k))
  }

  /** The new leadership of a step, if any, is right. */
  ghost predicate NewElectionOk(c: Cluster, d: Cluster) {
    && (forall t :: t in d.h.elections && t !in c.h.elections ==> ElectionOk(d, t))
    && (forall t: nat, k: nat, u :: Choosable(d, t, k) && u in d.h.elections && u !in c.h.elections && t < u ==>
          d.h.ledger[t][..k] <= d.h.elections[u].base)
  }

  ghost predicate NewMessagesOk(c: Cluster, d: Cluster) {
    forall m :: m in d.net && m !in c.net ==> VoteMessageOk(d, m) && AppendMessageOk(d, m)
  }

  ghost predicate NewAppliedOk(c: Cluster, d: Cluster) {
    forall s, e :: (s, e) in d.h.applied && (s, e) !in c.h.applied ==> AppliedAt(d, e)
  }

  lemma VotesKeep(c: Cluster, d: Cluster, s: ServerId)
    requires VotesOk(c) && BallotsKeptOk(c)
    requires Evolves(c, d) && Only(c, d, s) && OnlyWrites(c, d, s)
    requires VoteMoves(c.servers[s].node, d.servers[s].node)
    requires NewBallotsOk(c, d)
    requires forall x :: x in d.servers ==> VoteOk(d, x)
    ensures VotesOk(d) && BallotsKeptOk(d)
  {
    hide TermsGrow, LedgerGrows, HeldGrows, Only, OnlyWrites, VoteMoves, BallotOk, BallotKeepsAt, IsQuorum;
    hide Supporters, VoteOk;
    forall v, t | (v, t) in d.h.ballots
      ensures BallotOk(d, v, t)
    {
      if (v, t) in c.h.ballots { OldBallot(c, d, s, v, t); }
    }
    forall v, u, t: nat, k: nat | (v, u) in d.h.ballots && t < u && Choosable(d, t, k)
      ensures BallotKeepsAt(d, v, u, t, k)
    {
      if (v, u) in c.h.ballots { OldBallotKeeps(c, d, s, v, u, t, k); }
    }
  }

  lemma ElectionsKeep(c: Cluster, d: Cluster, s: ServerId)
    requires ElectionsOk(c) && CompleteOk(c) && VotesOk(c)
    requires Evolves(c, d) && OnlyWrites(c, d, s) && NewElectionOk(c, d)
    ensures ElectionsOk(d) && CompleteOk(d)
  {
    forall t | t in d.h.elections
      ensures ElectionOk(d, t)
    {
      if t in c.h.elections { OldElection(c, d, t); }
    }
    forall t: nat, k: nat, u | Choosable(d, t, k) && u in d.h.elections && t < u
      ensures d.h.ledger[t][..k] <= d.h.elections[u].base
    {
      if u in c.h.elections { OldComplete(c, d, s, t, k, u); }
    }
  }

  lemma NetKeeps(c: Cluster, d: Cluster)
    requires VoteNetOk(c) && AppendNetOk(c)
    requires Evolves(c, d) && NewMessagesOk(c, d)
    ensures VoteNetOk(d) && AppendNetOk(d)
  {
    forall m | m in d.net
      ensures VoteMessageOk(d, m) && AppendMessageOk(d, m)
    {
      if m in c.net {
        VoteNetStays(c, d, m);
        AppendMessageStays(c, d, m);
      }
    }
  }

  lemma ServersKeep(c: Cluster, d: Cluster, s: ServerId)
    requires Inv(c)
    requires Evolves(c, d) && Only(c, d, s) && OnlyWrites(c, d, s)
    requires s in d.h.counted && ServerOk(d, s)
    ensures forall x :: x in d.servers ==> x in d.h.counted && ServerOk(d, x)
  {
    hide Inv, ServerOk, Evolves, OnlyWrites, LedgerOk;
    forall x | x in d.servers
      ensures x in d.h.counted && ServerOk(d, x)
    {
      if x != s {
        InvServer(c, x);
        OtherServer(c, d, s, x);
      }
    }
  }

  lemma HeldKeeps(c: Cluster, d: Cluster, s: ServerId)
    requires HeldOk(c) && Only(c, d, s)
    requires forall x :: x in d.servers ==> x in d.h.counted && ServerOk(d, x)
    ensures HeldOk(d) && KeptOk(d)
  {
    hide ServerShape, LogOk, VoteOk, VoteCallsOk, CandidateOk, LeaderOk, AppendCallsOk, CommitAt, PipelineOk;
    hide IsQuorum, Supporters, KeepsAt;
    forall x, t | (x, t) in d.h.held
      ensures HeldAt(d, x, t)
    {
      if x != s {
        assert (x, t) in c.h.held;
        assert HeldAt(c, x, t);
      }
      assert x in d.servers;
    }
    forall x, t: nat, k: nat | x in d.servers && t <= d.servers[x].node.currentTerm && Choosable(d, t, k)
      ensures KeepsAt(d, x, t, k)
    {
      assert ServerKeeps(d, x);
    }
  }

  lemma Assemble(c: Cluster)
    requires 1 <= |c.servers| <= 255 && c.h.counted.Keys == c.servers.Keys
    requires forall x :: x in c.servers ==> x in c.h.counted && ServerOk(c, x)
    requires LedgerOk(c.h) && VotesOk(c) && VoteNetOk(c) && ElectionsOk(c) && HeldOk(c) && KeptOk(c)
    requires BallotsKeptOk(c) && CompleteOk(c) && AppendNetOk(c)
    requires forall s, e :: (s, e) in c.h.applied ==> AppliedAt(c, e)
    ensures Inv(c)
  {
    hide LedgerOk, VotesOk, VoteNetOk, ElectionsOk, HeldOk, KeptOk, BallotsKeptOk, CompleteOk, AppendNetOk, AppliedAt;
    hide ServerShape, LogOk, VoteOk, VoteCallsOk, CandidateOk, LeaderOk, AppendCallsOk, CommitAt, PipelineOk, HeldAt;
    hide ServerKeeps;
  }

  lemma AppliedKeeps(c: Cluster, d: Cluster)
    requires AppliedOk(c) && Evolves(c, d) && NewAppliedOk(c, d)
    ensures forall s, e :: (s, e) in d.h.applied ==> AppliedAt(d, e)
  {
    forall x, e | (x, e) in d.h.applied
      ensures AppliedAt(d, e)
    {
      if (x, e) in c.h.applied { AppliedStays(c, d, e); }
    }
  }

  lemma InvParts(c: Cluster)
    requires Inv(c)
    ensures 1 <= |c.servers| <= 255 && c.h.counted.Keys == c.servers.Keys
    ensures HeldOk(c) && VotesOk(c) && BallotsKeptOk(c) && ElectionsOk(c) && CompleteOk(c)
    ensures VoteNetOk(c) && AppendNetOk(c) && AppliedOk(c)
  {
    hide LedgerOk, VotesOk, VoteNetOk, ElectionsOk, HeldOk, KeptOk, BallotsKeptOk, CompleteOk, AppendNetOk, AppliedOk;
    hide LogsOk, CandidatesOk, LeadersOk, CallsOk, CommitOk, ServerShape;
  }

  lemma ServersVote(d: Cluster)
    requires forall x :: x in d.servers ==> x in d.h.counted && ServerOk(d, x)
    ensures forall x :: x in d.servers ==> VoteOk(d, x)
  {
    hide VoteOk;
  }

  /** The frame rule. */
  lemma StepKeeps(c: Cluster, d: Cluster, s: ServerId)
    requires Inv(c)
    requires Evolves(c, d) && Only(c, d, s) && OnlyWrites(c, d, s)
    requires VoteMoves(c.servers[s].node, d.servers[s].node)
    requires s in d.h.counted && ServerOk(d, s)
    requires LedgerOk(d.h)
    requires NewBallotsOk(c, d) && NewElectionOk(c, d) && NewMessagesOk(c, d) && NewAppliedOk(c, d)
    ensures Inv(d)
  {
    hide Inv, Evolves, OnlyWrites, VoteMoves, ServerOk, LedgerOk, NewBallotsOk, NewElectionOk, NewMessagesOk;
    hide NewAppliedOk;
    hide HeldOk, VotesOk, BallotsKeptOk, ElectionsOk, CompleteOk, VoteNetOk, AppendNetOk, AppliedOk, KeptOk;
    hide AppliedAt, VoteOk;
    assert |c.servers| == |c.servers.Keys| == |d.servers.Keys| == |d.servers|;
    InvParts(c);
    ServersKeep(c, d, s);
    HeldKeeps(c, d, s);
    ServersVote(d);
    VotesKeep(c, d, s);
    ElectionsKeep(c, d, s);
    NetKeeps(c, d);
    AppliedKeeps(c, d);
    Assemble(d);
  }
}
