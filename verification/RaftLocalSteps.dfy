/** Steps of one server on its own: the apply pipeline, being killed, restarting. */
module RaftLocalSteps {
  import opened Options
  import opened RaftTypes
  import opened RaftLog
  import opened RaftNode
  import opened RaftCluster
  import opened RaftInvariant
  import opened RaftEvolution
  import opened RaftFrame
  import opened RaftQuiet

  /** The threads that talk to peers were not involved. */
  ghost predicate LocalMove(c: Cluster, d: Cluster, s: ServerId)
  {
    && s in c.servers && s in d.servers
    && d.servers == c.servers[s := d.servers[s]]
    && d.net == c.net
    && d.h == c.h.(applied := d.h.applied)
    && var v, w := c.servers[s], d.servers[s];
    && w.voteCall == v.voteCall && w.appendCall == v.appendCall
    && w.disk == v.disk
    && w.node == v.node.(killed := w.node.killed, lastApplied := w.node.lastApplied)
  }

  lemma LocalIsQuiet(c: Cluster, d: Cluster, s: ServerId)
    requires LocalMove(c, d, s)
    ensures Quiet(c, d, s)
  {
  }

  lemma LocalPeers(c: Cluster, d: Cluster, s: ServerId)
    requires LocalMove(c, d, s) && s in c.h.counted
    requires ServerShape(c.servers.Keys, s, c.servers[s])
    requires VoteOk(c, s) && VoteCallsOk(c, s) && CandidateOk(c, s) && LeaderOk(c, s) && AppendCallsOk(c, s)
    ensures ServerShape(d.servers.Keys, s, d.servers[s])
    ensures VoteOk(d, s) && VoteCallsOk(d, s) && CandidateOk(d, s) && LeaderOk(d, s) && AppendCallsOk(d, s)
  {
  }

  lemma LocalServer(c: Cluster, d: Cluster, s: ServerId)
    requires LocalMove(c, d, s) && s in c.h.counted && ServerOk(c, s) && PipelineOk(d.servers[s])
    ensures s in d.h.counted && ServerOk(d, s)
  {
    hide ServerShape, VoteOk, VoteCallsOk, CandidateOk, LeaderOk, AppendCallsOk, PipelineOk, Quiet;
    hide LogOk, CommitAt, HeldAt, ServerKeeps;
    LocalIsQuiet(c, d, s);
    LocalPeers(c, d, s);
    QuietCommit(c, d, s);
    QuietServer(c, d, s);
  }

  lemma KeepsLocal(c: Cluster, d: Cluster, s: ServerId)
    requires Inv(c) && LocalMove(c, d, s) && PipelineOk(d.servers[s]) && NewAppliedOk(c, d)
    ensures Inv(d) && Evolves(c, d)
  {
    hide Inv, ServerOk, Quiet, PipelineOk, LedgerOk, NewBallotsOk, NewMessagesOk, NewAppliedOk;
    InvServer(c, s);
    LocalIsQuiet(c, d, s);
    LocalServer(c, d, s);
    NoNewBallots(c, d);
    NoNewMessages(c, d);
    QuietStep(c, d, s);
  }

  lemma InvPipeline(c: Cluster, s: ServerId)
    requires Inv(c) && s in c.servers
    ensures PipelineOk(c.servers[s]) && CommitAt(c, s)
    ensures Contiguous(c.servers[s].node.log.entries, 0)
  {
    hide PipelineOk, GroundedAt, CommitAt;
    GroundedOrdered(c.h, c.servers[s].node.log.entries);
  }

  lemma KeepsKill(c: Cluster, s: ServerId)
    requires Inv(c) && s in c.servers
    ensures Inv(DoKill(c, s)) && Evolves(c, DoKill(c, s))
  {
    hide Inv, CommitAt;
    var d := DoKill(c, s);
    InvPipeline(c, s);
    assert Delivered(d.servers[s]) == Delivered(c.servers[s]);
    NoNewApplied(c, d);
    KeepsLocal(c, d, s);
  }

  /** The pipeline loses, repeats and reorders nothing in any of its moves. */
  lemma PipelineMoves(v: Server, move: PipelineMove)
    requires PipelineOk(v) && CanMove(v, move) && Contiguous(v.node.log.entries, 0)
    ensures PipelineOk(Move(v, move))
  {
    var w := Move(v, move);
    assert Delivered(w) == Delivered(v);
  }

  lemma KeepsPipeline(c: Cluster, s: ServerId, move: PipelineMove)
    requires Inv(c) && s in c.servers && CanMove(c.servers[s], move)
    ensures Inv(With(c, s, Move(c.servers[s], move))) && Evolves(c, With(c, s, Move(c.servers[s], move)))
  {
    hide Inv, PipelineOk, CommitAt, NewAppliedOk;
    var d := With(c, s, Move(c.servers[s], move));
    InvPipeline(c, s);
    PipelineMoves(c.servers[s], move);
    NoNewApplied(c, d);
    KeepsLocal(c, d, s);
  }

  lemma KeepsApplyRead(c: Cluster, s: ServerId)
    requires Inv(c) && CanApplyRead(c, s)
    ensures Inv(DoApplyRead(c, s)) && Evolves(c, DoApplyRead(c, s))
  {
    hide Inv, CommitAt, NewAppliedOk;
    var d := DoApplyRead(c, s);
    var n := c.servers[s].node;
    InvPipeline(c, s);
    AtContiguous(n.log.entries, 0, n.lastApplied + 1);
    assert Delivered(d.servers[s]) == Delivered(c.servers[s]);
    NoNewApplied(c, d);
    KeepsLocal(c, d, s);
  }

  lemma CommittedEntry(c: Cluster, p: seq<Entry>, term: nat, i: nat)
    requires CommittedBy(c, p, term) && i < |p| && p[i].index == i + 1
    ensures AppliedAt(c, p[i])
  {
    var t: nat, k: nat :| t <= term && Chosen(c, t, k) && p <= c.h.ledger[t][..k];
    assert c.h.ledger[t][i] == p[i];
  }

  lemma SendingIsCommitted(c: Cluster, s: ServerId)
    requires s in c.servers && CommitAt(c, s) && PipelineOk(c.servers[s])
    requires Contiguous(c.servers[s].node.log.entries, 0) && !c.servers[s].phase.Idle?
    ensures AppliedAt(c, c.servers[s].phase.entry)
  {
    hide CommittedBy, AppliedAt;
    var n := c.servers[s].node;
    CommittedEntry(c, n.log.entries[..n.commitIndex], n.currentTerm, n.lastApplied);
  }

  lemma SendDelivers(v: Server)
    requires PipelineOk(v) && v.phase.Sending? && v.slot.None?
    ensures PipelineOk(v.(phase := Sent(v.phase.entry), slot := Some(v.phase.entry.command)))
  {
    var e := v.phase.entry;
    var w := v.(phase := Sent(e), slot := Some(e.command));
    assert Delivered(w) == Delivered(v) + [e];
    assert Commands(Delivered(v) + [e]) == Commands(Delivered(v)) + [e.command];
  }

  lemma KeepsApplySend(c: Cluster, s: ServerId)
    requires Inv(c) && CanApplySend(c, s)
    ensures Inv(DoApplySend(c, s)) && Evolves(c, DoApplySend(c, s))
  {
    hide Inv, PipelineOk, AppliedAt, CommitAt;
    var d := DoApplySend(c, s);
    var e := c.servers[s].phase.entry;
    InvPipeline(c, s);
    SendDelivers(c.servers[s]);
    SendingIsCommitted(c, s);
    assert AppliedAt(d, e) by {
      LocalIsQuiet(c, d, s);
      QuietGrows(c, d, s);
      AppliedStays(c, d, e);
    }
    KeepsLocal(c, d, s);
  }

  // ---- crash and restart

  /** A restart from a disk that matches memory, or from the one saved half-way through a handler. */
  ghost predicate Rebooted(c: Cluster, d: Cluster, s: ServerId, term: nat)
  {
    && s in c.servers
    && c.servers[s].node.currentTerm <= term
    && d == With(c, s, Fresh(s, c.servers.Keys, Persisted(BecameFollower(c.servers[s].node, term))))
  }

  lemma RebootedQuiet(c: Cluster, d: Cluster, s: ServerId, term: nat)
    requires Rebooted(c, d, s, term) && ServerShape(c.servers.Keys, s, c.servers[s])
    ensures Quiet(c, d, s)
  {
    MergeEmpty(c.servers[s].node.log.entries);
  }

  /** A disk without a snapshot. */
  predicate PlainDisk(d: Durable) {
    d.snapshotData == "" && d.lastIncludedIndex == 0 && d.lastIncludedTerm == 0
  }

  lemma FreshShape(members: set<ServerId>, s: ServerId, d: Durable)
    requires 1 <= |members| <= 255 && s in members && PlainDisk(d)
    ensures ServerShape(members, s, Fresh(s, members, d))
    ensures PipelineOk(Fresh(s, members, d))
  {
    MergeEmpty(d.entries);
    var w := Fresh(s, members, d);
    assert Delivered(w) == [];
  }

  lemma FreshMoved(c: Cluster, s: ServerId, d: Durable)
    requires s in c.servers && s in c.h.counted && c.servers[s] == Fresh(s, c.servers.Keys, d)
    requires 1 <= |c.servers.Keys| <= 255 && PlainDisk(d)
    requires d.votedFor.Some? ==>
      (s, d.currentTerm) in c.h.ballots && c.h.ballots[(s, d.currentTerm)].candidate == d.votedFor.value
    ensures Moved(c, s)
  {
    hide ServerShape, PipelineOk, CommittedBy, Merge;
    FreshShape(c.servers.Keys, s, d);
    assert CommittedBy(c, [], d.currentTerm) by { NothingCommitted(c, d.currentTerm); }
    assert c.servers[s].node.log.entries[..0] == [];
  }

  lemma NothingCommitted(c: Cluster, term: nat)
    ensures CommittedBy(c, [], term)
  {
  }

  lemma RebootedMoved(c: Cluster, d: Cluster, s: ServerId, term: nat)
    requires Rebooted(c, d, s, term) && 1 <= |c.servers| <= 255
    requires ServerShape(c.servers.Keys, s, c.servers[s]) && VoteOk(c, s) && s in c.h.counted
    ensures Moved(d, s)
  {
    hide Moved;
    assert |c.servers| == |c.servers.Keys| && c.servers.Keys == d.servers.Keys;
    FreshMoved(d, s, Persisted(BecameFollower(c.servers[s].node, term)));
  }

  lemma KeepsReboot(c: Cluster, d: Cluster, s: ServerId, term: nat)
    requires Inv(c) && Rebooted(c, d, s, term)
    ensures Inv(d) && Evolves(c, d)
  {
    InvParts(c) by { hide *; }
    InvServer(c, s) by { hide *; }
    hide Inv, LedgerOk, Quiet, NewBallotsOk, NewMessagesOk, NewAppliedOk, LogOk, HeldAt, ServerKeeps, Moved;
    hide VoteOk, VoteCallsOk, CandidateOk, LeaderOk, AppendCallsOk, CommitAt, PipelineOk, ServerShape;
    hide HeldOk, VotesOk, BallotsKeptOk, ElectionsOk, CompleteOk, VoteNetOk, AppendNetOk, AppliedOk;
    RebootedQuiet(c, d, s, term);
    RebootedMoved(c, d, s, term);
    QuietServer(c, d, s);
    NoNewBallots(c, d);
    NoNewMessages(c, d);
    NoNewApplied(c, d);
    QuietStep(c, d, s);
  }

  lemma RestartIsReboot(c: Cluster, s: ServerId)
    requires s in c.servers && c.servers[s].disk == Persisted(c.servers[s].node)
    ensures Rebooted(c, DoRestart(c, s), s, c.servers[s].node.currentTerm)
  {
    hide Fresh;
  }

  lemma KeepsRestart(c: Cluster, s: ServerId)
    requires Inv(c) && s in c.servers
    ensures Inv(DoRestart(c, s)) && Evolves(c, DoRestart(c, s))
  {
    ShapeOf(c, s);
    RestartIsReboot(c, s);
    hide Inv, Evolves, Rebooted, DoRestart, ServerShape;
    KeepsReboot(c, DoRestart(c, s), s, c.servers[s].node.currentTerm);
  }

  lemma KeepsCrashInHandler(c: Cluster, s: ServerId, term: nat)
    requires Inv(c) && CanCrashInHandler(c, s, term)
    ensures Inv(DoCrashInHandler(c, s, term)) && Evolves(c, DoCrashInHandler(c, s, term))
  {
    hide Inv, Evolves, Fresh;
    KeepsReboot(c, DoCrashInHandler(c, s, term), s, term);
  }
}
