/** Steps that leave every log alone. The server that moves must be shown right again; what
    it holds, and what history says about it, carries over. */
module RaftQuiet {
  import opened RaftTypes
  import opened RaftCluster
  import opened RaftInvariant
  import opened RaftEvolution
  import opened RaftFrame

  /** Server `s` moved without touching its log, any ledger or any held prefix. */
  ghost predicate Quiet(c: Cluster, d: Cluster, s: ServerId) {
    && s in c.servers && s in d.servers
    && d.servers == c.servers[s := d.servers[s]]
    && d.servers[s].node.log == c.servers[s].node.log
    && VoteMoves(c.servers[s].node, d.servers[s].node)
    && c.net <= d.net
    && d.h.ledger == c.h.ledger && d.h.elections == c.h.elections && d.h.held == c.h.held
    && VotesGrow(c.h, d.h)
    && (forall x, t :: (x, t) in d.h.ballots && (x, t) !in c.h.ballots ==> x == s)
    && d.h.counted.Keys == c.h.counted.Keys
    && (forall x :: x in c.h.counted && x != s ==> d.h.counted[x] == c.h.counted[x])
  }

  lemma QuietGrows(c: Cluster, d: Cluster, s: ServerId)
    requires Quiet(c, d, s)
    ensures Evolves(c, d)
  {
    hide VotesGrow;
    assert TermsGrow(c, d);
    assert LedgerGrows(c.h, d.h);
    assert HeldGrows(c, d);
  }

  lemma QuietOnly(c: Cluster, d: Cluster, s: ServerId)
    requires Quiet(c, d, s)
    ensures Only(c, d, s) && OnlyWrites(c, d, s)
  {
    hide VotesGrow, VoteMoves;
  }

  lemma QuietLog(c: Cluster, d: Cluster, s: ServerId)
    requires Quiet(c, d, s) && LogOk(c, s)
    requires forall t :: (s, t) in c.h.held ==> HeldAt(c, s, t)
    ensures LogOk(d, s)
    ensures forall t :: (s, t) in d.h.held ==> HeldAt(d, s, t)
  {
    hide VotesGrow;
  }

  lemma QuietKeeps(c: Cluster, d: Cluster, s: ServerId)
    requires Quiet(c, d, s) && ServerKeeps(c, s)
    requires forall t :: (s, t) in c.h.held ==> HeldAt(c, s, t)
    ensures ServerKeeps(d, s)
  {
    hide VotesGrow;
    QuietGrows(c, d, s);
    forall t: nat, k: nat | t <= d.servers[s].node.currentTerm && Choosable(d, t, k)
      ensures KeepsAt(d, s, t, k)
    {
      ChoosableBefore(c, d, t, k);
      if t <= c.servers[s].node.currentTerm {
        assert KeepsAt(c, s, t, k);
      } else {
        assert (s, t) !in c.h.held;
      }
    }
  }

  lemma QuietCommit(c: Cluster, d: Cluster, s: ServerId)
    requires Quiet(c, d, s) && CommitAt(c, s)
    requires d.servers[s].node.commitIndex == c.servers[s].node.commitIndex
    ensures CommitAt(d, s)
  {
    hide CommittedBy;
    var n := c.servers[s].node;
    QuietGrows(c, d, s);
    CommittedStays(c, d, n.log.entries[..n.commitIndex], n.currentTerm, d.servers[s].node.currentTerm);
  }

  /** What remains to be shown about the server that moved. */
  ghost predicate Moved(c: Cluster, s: ServerId)
    requires s in c.servers && s in c.h.counted
  {
    && ServerShape(c.servers.Keys, s, c.servers[s])
    && VoteOk(c, s)
    && VoteCallsOk(c, s) && CandidateOk(c, s)
    && LeaderOk(c, s) && AppendCallsOk(c, s)
    && CommitAt(c, s) && PipelineOk(c.servers[s])
  }

  lemma QuietServer(c: Cluster, d: Cluster, s: ServerId)
    requires Quiet(c, d, s) && s in c.h.counted && s in d.h.counted
    requires ServerOk(c, s) && Moved(d, s)
    ensures ServerOk(d, s)
  {
    hide Quiet, ServerShape, VoteOk, VoteCallsOk, CandidateOk, LeaderOk, AppendCallsOk, CommitAt, PipelineOk;
    hide LogOk, HeldAt, ServerKeeps;
    QuietLog(c, d, s);
    QuietKeeps(c, d, s);
  }

  lemma QuietShapes(c: Cluster, d: Cluster, s: ServerId)
    requires Quiet(c, d, s)
    ensures s in c.servers && s in d.servers && VoteMoves(c.servers[s].node, d.servers[s].node)
    ensures d.h.ledger == c.h.ledger && d.h.elections == c.h.elections
  {
  }

  lemma LedgerSame(a: History, b: History)
    requires LedgerOk(a) && b.ledger == a.ledger && b.elections == a.elections
    ensures LedgerOk(b)
  {
    forall t | t in b.ledger
      ensures t in b.elections && LedgerEntry(b, t)
    {
      assert LedgerEntry(a, t);
    }
  }

  /** The frame rule for quiet steps. */
  lemma QuietStep(c: Cluster, d: Cluster, s: ServerId)
    requires Inv(c) && Quiet(c, d, s) && s in d.h.counted && ServerOk(d, s)
    requires NewBallotsOk(c, d) && NewMessagesOk(c, d) && NewAppliedOk(c, d)
    ensures Inv(d) && Evolves(c, d)
  {
    hide Inv, Quiet, ServerOk, NewBallotsOk, NewMessagesOk, NewAppliedOk, Evolves, Only, OnlyWrites, NewElectionOk;
    hide LedgerOk, VoteMoves;
    QuietShapes(c, d, s);
    InvServer(c, s);
    QuietGrows(c, d, s);
    QuietOnly(c, d, s);
    NoNewElections(c, d);
    LedgerSame(c.h, d.h);
    StepKeeps(c, d, s);
  }

  lemma NoNewBallots(c: Cluster, d: Cluster)
    requires d.h.ballots == c.h.ballots && d.h.candidacies == c.h.candidacies
    ensures NewBallotsOk(c, d)
  {
    hide Choosable, BallotOk, CandidacyOk;
  }

  lemma NoNewElections(c: Cluster, d: Cluster)
    requires d.h.elections == c.h.elections
    ensures NewElectionOk(c, d)
  {
    hide Choosable, ElectionOk;
  }

  lemma NoNewMessages(c: Cluster, d: Cluster)
    requires d.net == c.net
    ensures NewMessagesOk(c, d)
  {
    hide VoteMessageOk, AppendMessageOk;
  }

  lemma NoNewApplied(c: Cluster, d: Cluster)
    requires d.h.applied == c.h.applied
    ensures NewAppliedOk(c, d)
  {
    hide AppliedAt;
  }

  // ---- peer state

  lemma NotLeader(d: Cluster, s: ServerId)
    requires s in d.servers && d.servers[s].node.role != Leader
    ensures LeaderOk(d, s)
  {
  }

  /** Peer state carries over when some calls have finished and the node is unchanged, or has
      stopped being candidate and leader. */
  lemma FewerCalls(c: Cluster, d: Cluster, s: ServerId)
    requires Quiet(c, d, s) && s in c.h.counted && s in d.h.counted
    requires VoteCallsOk(c, s) && CandidateOk(c, s) && LeaderOk(c, s) && AppendCallsOk(c, s)
    requires d.servers[s].voteCall.Keys <= c.servers[s].voteCall.Keys
    requires forall p :: p in d.servers[s].voteCall ==> d.servers[s].voteCall[p] == c.servers[s].voteCall[p]
    requires d.servers[s].appendCall.Keys <= c.servers[s].appendCall.Keys
    requires forall p :: p in d.servers[s].appendCall ==> d.servers[s].appendCall[p] == c.servers[s].appendCall[p]
    requires d.h.counted == c.h.counted
    requires d.servers[s].node == c.servers[s].node || d.servers[s].node.role == Follower
    ensures VoteCallsOk(d, s) && CandidateOk(d, s) && LeaderOk(d, s) && AppendCallsOk(d, s)
  {
  }
}
