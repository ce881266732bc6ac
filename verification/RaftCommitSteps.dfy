/** Counting acknowledgements, committing, and writing new entries. */
module RaftCommitSteps {
  import opened Options
  import opened RaftTypes
  import opened RaftLog
  import opened RaftNode
  import opened RaftCluster
  import opened RaftInvariant
  import opened RaftEvolution
  import opened RaftFrame
  import opened RaftQuiet

  /** The scan stops at an index of the current term that a majority matches, if it moves at all. */
  lemma {:induction false} CommitScanFinds(n: Node, i: nat)
    ensures var k := CommitScan(n, i);
      || k == n.commitIndex
      || (&& n.commitIndex < k <= i
          && At(n.log.entries, k).Some? && At(n.log.entries, k).value.term == n.currentTerm
          && 1 + |Matching(n, k)| >= Majority(n.clusterSize))
    decreases i
  {
    var e := At(n.log.entries, i);
    if i > n.commitIndex && e.Some? && e.value.term == n.currentTerm && 1 + |Matching(n, i)| < Majority(n.clusterSize) {
      CommitScanFinds(n, i - 1);
    }
  }

  /** Among the current-term entries at the end of the log, the scan finds the highest one that a
      majority reaches. */
  lemma {:induction false} CommitScanHighest(n: Node, i: nat, j: nat)
    requires CommitScan(n, i) < j <= i
    requires forall m: nat :: j <= m <= i ==>
      At(n.log.entries, m).Some? && At(n.log.entries, m).value.term == n.currentTerm
    ensures 1 + |Matching(n, j)| < Majority(n.clusterSize)
    decreases i
  {
    CommitScanFinds(n, i);
    assert At(n.log.entries, i).Some?;
    if j < i {
      CommitScanHighest(n, i - 1, j);
    }
  }

  /** The outcomes of an append reply. */
  lemma AppendReplyOutcomes(n: Node, d: Durable, p: ServerId, arg: AppendEntriesArg, r: Option<AppendEntriesReply>)
    requires d == Persisted(n)
    ensures var m := OnAppendReply(n, p, arg, r);
      && AppendReplyDisk(n, d, r) == Persisted(m)
      && (|| m == n
          || (r.Some? && r.value.term > n.currentTerm && m == BecameFollower(n, r.value.term))
          || (&& r.Some? && r.value.success && n.role == Leader && arg.term == n.currentTerm
              && m == Credit(n, p, arg).(commitIndex := CommitScan(Credit(n, p, arg), LastIndex(n.log))))
          || (&& r.Some? && !r.value.success && n.role == Leader && arg.term == n.currentTerm
              && m == n.(nextIndex := n.nextIndex[p := Backtrack(n.log, r.value.conflict)])))
  {
    hide CommitScan, Backtrack;
  }

  lemma ReceiveAppendQuiet(c: Cluster, d: Cluster, s: ServerId, p: ServerId, r: Option<AppendEntriesReply>,
                           seen: Option<seq<Entry>>)
    requires CanReceiveAppend(c, s, p, r, seen) && d == DoReceiveAppend(c, s, p, r, seen)
    requires c.servers[s].disk == Persisted(c.servers[s].node)
    ensures Quiet(c, d, s)
  {
    hide OnAppendReply, AppendReplyDisk, CommitScan, Backtrack;
    AppendReplyOutcomes(c.servers[s].node, c.servers[s].disk, p, c.servers[s].appendCall[p], r);
  }

  /** A success reply to an outstanding call proves what the peer holds. */
  lemma Acknowledged(c: Cluster, s: ServerId, p: ServerId, r: AppendEntriesReply, seen: Option<seq<Entry>>)
    requires CanReceiveAppend(c, s, p, Some(r), seen) && AppendNetOk(c) && AppendCallsOk(c, s) && r.success
    ensures var arg := c.servers[s].appendCall[p];
      && AppendMessageShape(c.h, arg)
      && arg.prevLogIndex + |arg.entries| <= HeldLen(c.h, p, arg.term)
  {
    var arg := c.servers[s].appendCall[p];
    assert AppendMessageOk(c, AppendRequest(p, arg));
    assert AppendMessageOk(c, AppendReply(p, arg, r, seen));
  }

  /** A leader whose peers hold what matchIndex says. */
  predicate MatchSound(c: Cluster, s: ServerId, n: Node) {
    && s in c.servers
    && n.currentTerm in c.h.ledger && n.log.entries == c.h.ledger[n.currentTerm]
    && HeldLen(c.h, s, n.currentTerm) == |c.h.ledger[n.currentTerm]|
    && n.matchIndex.Keys == c.servers.Keys - {s}
    && n.clusterSize == |c.servers.Keys|
    && (forall p :: p in n.matchIndex ==> n.matchIndex[p] <= HeldLen(c.h, p, n.currentTerm))
  }

  /** Committing by counting is sound: the index is chosen. */
  lemma CommitIsChosen(c: Cluster, s: ServerId, n: Node, i: nat)
    requires MatchSound(c, s, n) && LedgerOk(c.h)
    requires 1 <= i <= |n.log.entries| && n.log.entries[i - 1].term == n.currentTerm
    requires 1 + |Matching(n, i)| >= Majority(n.clusterSize)
    ensures Chosen(c, n.currentTerm, i)
  {
    var t := n.currentTerm;
    assert LedgerEntry(c.h, t);
    assert i > |c.h.elections[t].base|;
    var voters := Matching(n, i) + {s};
    assert s !in Matching(n, i);
    SubsetSize(voters, Holders(c, t, i));
    assert |c.servers| == |c.servers.Keys|;
  }

  lemma ScanCommits(c: Cluster, s: ServerId, n: Node)
    requires MatchSound(c, s, n) && LedgerOk(c.h) && n.log.lastIncludedIndex == 0
    requires n.commitIndex <= |n.log.entries| && CommittedBy(c, n.log.entries[..n.commitIndex], n.currentTerm)
    ensures var k := CommitScan(n, LastIndex(n.log));
      n.commitIndex <= k <= |n.log.entries| && CommittedBy(c, n.log.entries[..k], n.currentTerm)
  {
    hide CommitScan, Chosen;
    var es := n.log.entries;
    assert LedgerEntry(c.h, n.currentTerm);
    LastContiguous(n.log);
    CommitScanFinds(n, LastIndex(n.log));
    var k := CommitScan(n, LastIndex(n.log));
    if k != n.commitIndex {
      AtContiguous(es, 0, k);
      CommitIsChosen(c, s, n, k);
      assert es[..k] <= c.h.ledger[n.currentTerm][..k];
    }
  }

  lemma BacktrackInRange(l: LogState, hint: Conflict)
    ensures 1 <= Backtrack(l, hint) <= LastIndex(l) + 1
  {
  }

  /** The leader after a success reply. */
  ghost predicate Acked(c: Cluster, s: ServerId, p: ServerId, arg: AppendEntriesArg) {
    && s in c.servers && ServerShape(c.servers.Keys, s, c.servers[s]) && LeaderOk(c, s)
    && c.servers[s].node.role == Leader && arg.term == c.servers[s].node.currentTerm && p in c.servers.Keys - {s}
    && AppendMessageShape(c.h, arg) && arg.prevLogIndex + |arg.entries| <= HeldLen(c.h, p, arg.term)
  }

  lemma AckedSound(c: Cluster, s: ServerId, p: ServerId, arg: AppendEntriesArg)
    requires Acked(c, s, p, arg)
    ensures MatchSound(c, s, Credit(c.servers[s].node, p, arg))
  {
  }

  lemma AckedLeader(c: Cluster, d: Cluster, s: ServerId, p: ServerId, arg: AppendEntriesArg)
    requires Acked(c, s, p, arg) && Quiet(c, d, s)
    requires d.servers[s].node == Credit(c.servers[s].node, p, arg).(commitIndex := d.servers[s].node.commitIndex)
    ensures LeaderOk(d, s)
  {
    hide VotesGrow, VoteMoves;
    AckedSound(c, s, p, arg);
  }

  lemma AckedCommit(c: Cluster, d: Cluster, s: ServerId, p: ServerId, arg: AppendEntriesArg)
    requires Acked(c, s, p, arg) && Quiet(c, d, s) && LedgerOk(c.h) && CommitAt(c, s)
    requires var q := Credit(c.servers[s].node, p, arg);
      d.servers[s].node == q.(commitIndex := CommitScan(q, LastIndex(q.log)))
    ensures CommitAt(d, s)
    ensures c.servers[s].node.commitIndex <= d.servers[s].node.commitIndex
  {
    hide CommitScan, CommittedBy, LedgerOk, MatchSound, LeaderOk, AppendMessageShape;
    var n := c.servers[s].node;
    AckedSound(c, s, p, arg);
    ScanCommits(c, s, Credit(n, p, arg));
    QuietGrows(c, d, s);
    CommittedStays(c, d, n.log.entries[..d.servers[s].node.commitIndex], n.currentTerm, n.currentTerm);
  }

  lemma BacktrackMoved(c: Cluster, d: Cluster, s: ServerId, p: ServerId, hint: Conflict)
    requires Quiet(c, d, s) && LedgerOk(c.h)
    requires ServerShape(c.servers.Keys, s, c.servers[s]) && LeaderOk(c, s) && c.servers[s].node.role == Leader
    requires var n := c.servers[s].node;
      d.servers[s].node == n.(nextIndex := n.nextIndex[p := Backtrack(n.log, hint)])
    ensures LeaderOk(d, s)
  {
    hide Backtrack, LedgerOk;
    var n := c.servers[s].node;
    assert LedgerEntry(c.h, n.currentTerm) by { LedgerAt(c.h, n.currentTerm); }
    BacktrackInRange(n.log, hint);
    LastContiguous(n.log);
  }

  lemma LedgerAt(h: History, t: nat)
    requires LedgerOk(h) && t in h.ledger
    ensures t in h.elections && LedgerEntry(h, t)
  {
  }

  lemma ReceiveAppendLeader(c: Cluster, d: Cluster, s: ServerId, p: ServerId, r: Option<AppendEntriesReply>,
                            seen: Option<seq<Entry>>)
    requires CanReceiveAppend(c, s, p, r, seen) && d == DoReceiveAppend(c, s, p, r, seen)
    requires s in c.h.counted && s in d.h.counted && ServerOk(c, s) && Quiet(c, d, s) && LedgerOk(c.h) && AppendNetOk(c)
    ensures LeaderOk(d, s) && CommitAt(d, s)
    ensures c.servers[s].node.commitIndex <= d.servers[s].node.commitIndex
  {
    hide LogOk, HeldAt, ServerKeeps, CommitAt, Quiet, OnAppendReply, AppendReplyDisk, CommitScan, Backtrack;
    hide LedgerOk, AppendNetOk;
    hide VoteOk, VoteCallsOk, CandidateOk, AppendCallsOk, PipelineOk, LeaderOk;
    var arg := c.servers[s].appendCall[p];
    AppendReplyOutcomes(c.servers[s].node, c.servers[s].disk, p, arg, r);
    var n, m := c.servers[s].node, d.servers[s].node;
    if m == n || m.role != Leader {
      QuietCommit(c, d, s);
      FewerCalls(c, d, s);
    } else if r.value.success {
      Acknowledged(c, s, p, r.value, seen);
      AckedLeader(c, d, s, p, arg);
      AckedCommit(c, d, s, p, arg);
    } else {
      QuietCommit(c, d, s);
      BacktrackMoved(c, d, s, p, r.value.conflict);
    }
  }

  lemma ReceiveAppendShape(c: Cluster, d: Cluster, s: ServerId, p: ServerId, r: Option<AppendEntriesReply>,
                           seen: Option<seq<Entry>>)
    requires CanReceiveAppend(c, s, p, r, seen) && d == DoReceiveAppend(c, s, p, r, seen)
    requires ServerShape(c.servers.Keys, s, c.servers[s])
    ensures ServerShape(d.servers.Keys, s, d.servers[s])
  {
    hide OnAppendReply, AppendReplyDisk, CommitScan, Backtrack;
    AppendReplyOutcomes(c.servers[s].node, c.servers[s].disk, p, c.servers[s].appendCall[p], r);
  }

  lemma ReceiveAppendPeers(c: Cluster, d: Cluster, s: ServerId, p: ServerId, r: Option<AppendEntriesReply>,
                           seen: Option<seq<Entry>>)
    requires CanReceiveAppend(c, s, p, r, seen) && d == DoReceiveAppend(c, s, p, r, seen)
    requires s in c.h.counted && s in d.h.counted && ServerOk(c, s) && Quiet(c, d, s)
    ensures ServerShape(d.servers.Keys, s, d.servers[s]) && VoteOk(d, s) && VoteCallsOk(d, s)
    ensures CandidateOk(d, s) && AppendCallsOk(d, s)
  {
    hide LogOk, HeldAt, ServerKeeps, CommitAt, OnAppendReply, AppendReplyDisk, CommitScan, Backtrack, Quiet;
    hide PipelineOk, LeaderOk;
    hide CandidateOk, Plain, VoteOk;
    ReceiveAppendShape(c, d, s, p, r, seen);
    AppendReplyOutcomes(c.servers[s].node, c.servers[s].disk, p, c.servers[s].appendCall[p], r);
    hide ServerShape;
    if d.servers[s].node == c.servers[s].node { FewerCalls(c, d, s); } else { NotCandidate(d, s); }
    QuietVote(c, d, s);
  }

  lemma QuietVote(c: Cluster, d: Cluster, s: ServerId)
    requires Quiet(c, d, s) && VoteOk(c, s)
    requires d.servers[s].node.votedFor == None
      || (&& d.servers[s].node.votedFor == c.servers[s].node.votedFor
          && d.servers[s].node.currentTerm == c.servers[s].node.currentTerm)
    ensures VoteOk(d, s)
  {
  }

  lemma NotCandidate(d: Cluster, s: ServerId)
    requires s in d.servers && s in d.h.counted && d.servers[s].node.role != Candidate
    ensures CandidateOk(d, s)
  {
  }

  lemma ReceiveAppendPipeline(c: Cluster, d: Cluster, s: ServerId, p: ServerId, r: Option<AppendEntriesReply>,
                              seen: Option<seq<Entry>>)
    requires CanReceiveAppend(c, s, p, r, seen) && d == DoReceiveAppend(c, s, p, r, seen)
    requires c.servers[s].disk == Persisted(c.servers[s].node) && PipelineOk(c.servers[s])
    requires c.servers[s].node.commitIndex <= d.servers[s].node.commitIndex <= |d.servers[s].node.log.entries|
    ensures PipelineOk(d.servers[s])
  {
    hide OnAppendReply, AppendReplyDisk, CommitScan, Backtrack;
    AppendReplyOutcomes(c.servers[s].node, c.servers[s].disk, p, c.servers[s].appendCall[p], r);
    assert Delivered(d.servers[s]) == Delivered(c.servers[s]);
  }

  lemma ReceiveAppendMoved(c: Cluster, d: Cluster, s: ServerId, p: ServerId, r: Option<AppendEntriesReply>,
                           seen: Option<seq<Entry>>)
    requires CanReceiveAppend(c, s, p, r, seen) && d == DoReceiveAppend(c, s, p, r, seen)
    requires s in c.h.counted && s in d.h.counted && ServerOk(c, s) && Quiet(c, d, s) && LedgerOk(c.h) && AppendNetOk(c)
    ensures Moved(d, s)
  {
    hide LogOk, HeldAt, ServerKeeps, Quiet, OnAppendReply, AppendReplyDisk, LedgerOk, AppendNetOk, CommittedBy, Plain;
    hide VoteOk, VoteCallsOk, CandidateOk, AppendCallsOk, PipelineOk, LeaderOk;
    ReceiveAppendPeers(c, d, s, p, r, seen);
    ReceiveAppendLeader(c, d, s, p, r, seen);
    ReceiveAppendPipeline(c, d, s, p, r, seen);
  }

  lemma KeepsReceiveAppend(c: Cluster, s: ServerId, p: ServerId, r: Option<AppendEntriesReply>,
                           seen: Option<seq<Entry>>)
    requires Inv(c) && CanReceiveAppend(c, s, p, r, seen)
    ensures Inv(DoReceiveAppend(c, s, p, r, seen)) && Evolves(c, DoReceiveAppend(c, s, p, r, seen))
  {
    hide Inv, LedgerOk, Quiet, NewBallotsOk, NewMessagesOk, NewAppliedOk, LogOk, HeldAt, ServerKeeps, Moved, Plain;
    hide VoteOk, VoteCallsOk, CandidateOk, LeaderOk, AppendCallsOk, CommitAt, PipelineOk;
    hide HeldOk, VotesOk, BallotsKeptOk, ElectionsOk, CompleteOk, AppendNetOk, AppliedOk, VoteNetOk;
    hide OnAppendReply, AppendReplyDisk;
    var d := DoReceiveAppend(c, s, p, r, seen);
    InvParts(c);
    InvServer(c, s);
    ReceiveAppendQuiet(c, d, s, p, r, seen);
    ReceiveAppendMoved(c, d, s, p, r, seen);
    QuietServer(c, d, s);
    NoNewBallots(c, d);
    NoNewMessages(c, d);
    NoNewApplied(c, d);
    QuietStep(c, d, s);
  }

  // ---- a leader writes an entry

  /** What DoClientStart does. */
  ghost predicate Wrote(c: Cluster, d: Cluster, s: ServerId, e: Entry) {
    && s in c.servers && s in d.servers
    && var n, m := c.servers[s].node, d.servers[s].node;
    var t, log := n.currentTerm, n.log.entries;
    && n.role == Leader && t in c.h.ledger && t in c.h.elections && c.h.elections[t].leader == s
    && c.h.ledger[t] == log && HeldLen(c.h, s, t) == |log|
    && e.term == t && e.index == |log| + 1
    && d.servers == c.servers[s := d.servers[s]]
    && m == n.(log := n.log.(entries := log + [e]))
    && d.servers[s] == c.servers[s].(node := m, disk := Persisted(m))
    && d.net == c.net
    && d.h == c.h.(ledger := c.h.ledger[t := log + [e]], held := c.h.held[(s, t) := |log| + 1])
  }

  lemma StartWrote(c: Cluster, s: ServerId, command: Command)
    requires CanClientStart(c, s) && LedgerOk(c.h) && LeaderOk(c, s) && ServerShape(c.servers.Keys, s, c.servers[s])
    ensures Wrote(c, DoClientStart(c, s, command), s, NewEntry(c.servers[s].node, command))
  {
    hide LedgerOk;
    LedgerAt(c.h, c.servers[s].node.currentTerm);
    LastContiguous(c.servers[s].node.log);
  }

  lemma WroteHeld(c: Cluster, d: Cluster, s: ServerId, e: Entry)
    requires Wrote(c, d, s, e)
    ensures forall x, t: nat :: (x, t) != (s, c.servers[s].node.currentTerm) ==>
        HeldLen(d.h, x, t) == HeldLen(c.h, x, t)
    ensures HeldLen(d.h, s, c.servers[s].node.currentTerm) == |c.servers[s].node.log.entries| + 1
  {
  }

  lemma WroteGrows(c: Cluster, d: Cluster, s: ServerId, e: Entry)
    requires Wrote(c, d, s, e)
    ensures Evolves(c, d)
  {
    assert HeldGrows(c, d) by { WroteHeld(c, d, s, e); }
    assert TermsGrow(c, d);
    assert LedgerGrows(c.h, d.h);
    assert VotesGrow(c.h, d.h);
  }

  lemma WroteOnly(c: Cluster, d: Cluster, s: ServerId, e: Entry)
    requires Wrote(c, d, s, e) && HeldOk(c)
    ensures Only(c, d, s) && OnlyWrites(c, d, s)
  {
    WroteHeld(c, d, s, e);
    var term := c.servers[s].node.currentTerm;
    forall x | x != s
      ensures HeldLen(c.h, x, term) <= |c.h.ledger[term]|
    {
      if (x, term) in c.h.held { assert HeldAt(c, x, term); }
    }
    hide HeldOk;
  }

  lemma WroteLedger(c: Cluster, d: Cluster, s: ServerId, e: Entry)
    requires Wrote(c, d, s, e) && LedgerOk(c.h)
    ensures LedgerOk(d.h)
  {
    var term, log := c.servers[s].node.currentTerm, c.servers[s].node.log.entries;
    assert LedgerEntry(c.h, term);
    forall t | t in d.h.ledger
      ensures t in d.h.elections && LedgerEntry(d.h, t)
    {
      assert LedgerEntry(c.h, t);
      GroundedGrows(c.h.ledger, d.h.ledger, c.h.ledger[t]);
      if t == term { GroundedAppend(d.h.ledger, log, e); }
    }
  }

  lemma GroundedAppend(ledger: map<nat, seq<Entry>>, log: seq<Entry>, e: Entry)
    requires Grounded(ledger, log) && e.term in ledger && ledger[e.term] == log + [e]
    ensures Grounded(ledger, log + [e])
  {
    forall i | 0 <= i < |log| + 1
      ensures GroundedAt(ledger, log + [e], i)
    {
      if i < |log| {
        assert GroundedAt(ledger, log, i);
        assert (log + [e])[..i + 1] == log[..i + 1];
      }
    }
  }

  lemma WroteLog(c: Cluster, d: Cluster, s: ServerId, e: Entry)
    requires Wrote(c, d, s, e) && LogOk(c, s) && Evolves(c, d)
    ensures LogOk(d, s)
  {
    hide HeldGrows, VotesGrow;
    var log := c.servers[s].node.log.entries;
    GroundedGrows(c.h.ledger, d.h.ledger, log);
    GroundedAppend(d.h.ledger, log, e);
  }

  lemma WroteKeeps(c: Cluster, d: Cluster, s: ServerId, e: Entry)
    requires Wrote(c, d, s, e) && HeldOk(c) && Evolves(c, d) && ServerKeeps(c, s)
    ensures ServerKeeps(d, s)
    ensures forall t :: (s, t) in d.h.held ==> HeldAt(d, s, t)
  {
    WroteHeld(c, d, s, e);
    var term, log := c.servers[s].node.currentTerm, c.servers[s].node.log.entries;
    forall t | (s, t) in d.h.held
      ensures HeldAt(d, s, t)
    {
      if t != term { assert HeldAt(c, s, t); }
    }
    hide HeldGrows, VotesGrow, HeldOk;
    forall t: nat, k: nat | t <= d.servers[s].node.currentTerm && Choosable(d, t, k)
      ensures KeepsAt(d, s, t, k)
    {
      if t != term {
        WroteChoosable(c, d, s, e, t, k);
        assert KeepsAt(c, s, t, k);
      }
    }
  }

  lemma WroteChoosable(c: Cluster, d: Cluster, s: ServerId, e: Entry, t: nat, k: nat)
    requires Wrote(c, d, s, e) && Evolves(c, d) && Choosable(d, t, k) && t != c.servers[s].node.currentTerm
    ensures Choosable(c, t, k) && d.h.ledger[t] == c.h.ledger[t]
  {
    ChoosableBefore(c, d, t, k);
  }

  lemma WroteCommit(c: Cluster, d: Cluster, s: ServerId, e: Entry)
    requires Wrote(c, d, s, e) && Evolves(c, d) && CommitAt(c, s) && PipelineOk(c.servers[s])
    ensures CommitAt(d, s) && PipelineOk(d.servers[s])
  {
    hide CommittedBy, HeldGrows, VotesGrow;
    var n, m := c.servers[s].node, d.servers[s].node;
    CommittedStays(c, d, n.log.entries[..n.commitIndex], n.currentTerm, n.currentTerm);
    assert m.log.entries[..n.commitIndex] == n.log.entries[..n.commitIndex];
    assert Delivered(d.servers[s]) == Delivered(c.servers[s]);
  }

  lemma WrotePeers(c: Cluster, d: Cluster, s: ServerId, e: Entry)
    requires Wrote(c, d, s, e) && Evolves(c, d) && s in c.h.counted
    requires ServerShape(c.servers.Keys, s, c.servers[s]) && VoteOk(c, s) && VoteCallsOk(c, s) && AppendCallsOk(c, s)
      && LeaderOk(c, s)
    ensures ServerShape(d.servers.Keys, s, d.servers[s]) && VoteOk(d, s) && VoteCallsOk(d, s) && AppendCallsOk(d, s)
    ensures CandidateOk(d, s) && LeaderOk(d, s)
  {
    hide VotesGrow, TermsGrow, LedgerGrows;
    assert HeldLen(d.h, s, c.servers[s].node.currentTerm) == |d.servers[s].node.log.entries| by {
      WroteHeld(c, d, s, e);
    }
    hide HeldLen;
  }

  lemma WroteServer(c: Cluster, d: Cluster, s: ServerId, e: Entry)
    requires Wrote(c, d, s, e) && Evolves(c, d) && s in c.h.counted && ServerOk(c, s) && HeldOk(c)
    ensures s in d.h.counted && ServerOk(d, s)
  {
    hide ServerShape, VoteOk, VoteCallsOk, CandidateOk, LeaderOk, AppendCallsOk, PipelineOk, HeldOk, Evolves, HeldLen;
    hide LogOk, CommitAt, HeldAt, ServerKeeps;
    WrotePeers(c, d, s, e);
    WroteLog(c, d, s, e);
    WroteKeeps(c, d, s, e);
    WroteCommit(c, d, s, e);
  }

  lemma KeepsWrote(c: Cluster, d: Cluster, s: ServerId, e: Entry)
    requires Inv(c) && Wrote(c, d, s, e)
    ensures Inv(d) && Evolves(c, d)
  {
    hide Inv, LedgerOk, HeldLen, ServerOk, NewMessagesOk, NewBallotsOk, NewElectionOk, NewAppliedOk, Evolves, Only;
    hide OnlyWrites;
    hide HeldOk, VotesOk, BallotsKeptOk, ElectionsOk, CompleteOk, VoteNetOk, AppendNetOk, AppliedOk;
    InvParts(c);
    InvServer(c, s);
    WroteGrows(c, d, s, e);
    WroteOnly(c, d, s, e);
    WroteLedger(c, d, s, e);
    WroteServer(c, d, s, e);
    NoNewBallots(c, d);
    NoNewElections(c, d);
    NoNewMessages(c, d);
    NoNewApplied(c, d);
    StepKeeps(c, d, s);
  }

  lemma KeepsClientStart(c: Cluster, s: ServerId, command: Command)
    requires Inv(c) && CanClientStart(c, s)
    ensures Inv(DoClientStart(c, s, command)) && Evolves(c, DoClientStart(c, s, command))
  {
    hide Inv, LedgerOk, LogOk, HeldAt, ServerKeeps, VoteOk, VoteCallsOk, CandidateOk, LeaderOk, AppendCallsOk;
    hide CommitAt, PipelineOk, ServerShape;
    hide Wrote;
    InvServer(c, s);
    StartWrote(c, s, command);
    KeepsWrote(c, DoClientStart(c, s, command), s, NewEntry(c.servers[s].node, command));
  }
}
