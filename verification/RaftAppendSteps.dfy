/** Replication: sending entries, merging them, counting acknowledgements, committing. */
module RaftAppendSteps {
  import opened Options
  import opened RaftTypes
  import opened RaftLog
  import opened RaftNode
  import opened RaftCluster
  import opened RaftInvariant
  import opened RaftEvolution
  import opened RaftFrame
  import opened RaftPlain
  import opened RaftQuiet

  // ---- sending

  /** What a leader sends covers its commit index and is a slice of its ledger that reaches
      the end of the log. */
  lemma SentAppend(c: Cluster, s: ServerId, p: ServerId)
    requires s in c.servers && LedgerOk(c.h)
    requires ServerShape(c.servers.Keys, s, c.servers[s]) && LeaderOk(c, s) && CommitAt(c, s)
    requires BuildAppend(c.servers[s].node, p).Some?
    ensures var arg := BuildAppend(c.servers[s].node, p).value;
      && AppendMessageShape(c.h, arg)
      && arg.term == c.servers[s].node.currentTerm
      && arg.prevLogIndex + |arg.entries| == |c.servers[s].node.log.entries|
      && CommittedBy(c, c.h.ledger[arg.term][..arg.leaderCommit], arg.term)
  {
    var n := c.servers[s].node;
    assert LedgerEntry(c.h, n.currentTerm);
    BuildAppendPlain(n, p);
  }

  lemma SendAppendPeers(c: Cluster, d: Cluster, s: ServerId, p: ServerId)
    requires CanSendAppend(c, s, p) && d == DoSendAppend(c, s, p) && s in c.h.counted
    requires ServerShape(c.servers.Keys, s, c.servers[s]) && AppendCallsOk(c, s)
    ensures ServerShape(d.servers.Keys, s, d.servers[s]) && AppendCallsOk(d, s) && CandidateOk(d, s)
  {
    hide At, Suffix;
  }

  lemma SendAppendMoved(c: Cluster, d: Cluster, s: ServerId, p: ServerId)
    requires CanSendAppend(c, s, p) && d == DoSendAppend(c, s, p)
    requires s in c.h.counted && ServerOk(c, s) && Quiet(c, d, s)
    ensures Moved(d, s)
  {
    hide LogOk, HeldAt, ServerKeeps, CommitAt, CandidateOk, ServerShape, AppendCallsOk, Quiet, BuildAppend;
    SendAppendPeers(c, d, s, p);
    QuietCommit(c, d, s);
    assert Delivered(d.servers[s]) == Delivered(c.servers[s]);
  }

  lemma SentAppendMessage(c: Cluster, d: Cluster, s: ServerId, p: ServerId)
    requires s in c.servers && s in c.h.counted && ServerOk(c, s) && LedgerOk(c.h) && Evolves(c, d)
    requires BuildAppend(c.servers[s].node, p).Some?
    ensures AppendMessageOk(d, AppendRequest(p, BuildAppend(c.servers[s].node, p).value))
  {
    hide LedgerOk, BuildAppend, ServerShape, LeaderOk, CommitAt, AppendMessageShape, CommittedBy;
    SentAppend(c, s, p);
    AppendMessageStays(c, d, AppendRequest(p, BuildAppend(c.servers[s].node, p).value));
  }

  lemma KeepsSendAppend(c: Cluster, s: ServerId, p: ServerId)
    requires Inv(c) && CanSendAppend(c, s, p)
    ensures Inv(DoSendAppend(c, s, p)) && Evolves(c, DoSendAppend(c, s, p))
  {
    hide Inv, LedgerOk, NewBallotsOk, NewAppliedOk, ServerOk, Moved, AppendMessageOk, BuildAppend, Evolves;
    var d := DoSendAppend(c, s, p);
    InvServer(c, s);
    assert Quiet(c, d, s);
    QuietGrows(c, d, s);
    SendAppendMoved(c, d, s, p);
    SentAppendMessage(c, d, s, p);
    QuietServer(c, d, s);
    NoNewBallots(c, d);
    NoNewApplied(c, d);
    QuietStep(c, d, s);
  }

  // ---- receiving entries

  /** The outcomes of an append request. */
  lemma AppendOutcomes(n: Node, d: Durable, arg: AppendEntriesArg, garbage: Conflict)
    requires d == Persisted(n) && Plain(n)
    ensures var (m, r) := OnAppendEntries(n, arg, garbage);
      && AppendEntriesDisk(n, d, arg) == Persisted(m)
      && (r.success ==>
            && n.currentTerm <= arg.term
            && Accepts(n.log, 0, 0, arg.prevLogIndex, arg.prevLogTerm)
            && var l := LogState(Merge(n.log.entries, arg.entries), 0, 0);
            var commit :=
              if arg.leaderCommit > n.commitIndex then Min(arg.leaderCommit, LastIndex(l)) else n.commitIndex;
            && m == n.(currentTerm := arg.term, role := Follower, log := l, commitIndex := commit,
                       votedFor := m.votedFor)
            && (n.currentTerm == arg.term ==> m.votedFor == n.votedFor)
            && (n.currentTerm < arg.term ==> m.votedFor == None))
      && (!r.success ==> m == n || (arg.term > n.currentTerm && m == BecameFollower(n, arg.term)))
  {
    hide Accepts, Merge;
  }

  lemma AcceptedPrefix(h: History, log: seq<Entry>, arg: AppendEntriesArg)
    requires LedgerOk(h) && Grounded(h.ledger, log) && AppendMessageShape(h, arg)
    requires arg.prevLogIndex == 0 || (arg.prevLogIndex <= |log| && log[arg.prevLogIndex - 1].term == arg.prevLogTerm)
    ensures arg.prevLogIndex <= |log| && log[..arg.prevLogIndex] == h.ledger[arg.term][..arg.prevLogIndex]
  {
    if arg.prevLogIndex > 0 {
      assert LedgerEntry(h, arg.term);
      GroundedAgree(h.ledger, log, h.ledger[arg.term], arg.prevLogIndex - 1);
    }
  }

  lemma MergeCatchesUp(h: History, log: seq<Entry>, arg: AppendEntriesArg)
    requires LedgerOk(h) && Grounded(h.ledger, log) && AppendMessageShape(h, arg)
    requires arg.prevLogIndex == 0 || (arg.prevLogIndex <= |log| && log[arg.prevLogIndex - 1].term == arg.prevLogTerm)
    ensures Merge(log, arg.entries) == CaughtUp(log, h.ledger[arg.term], arg.prevLogIndex + |arg.entries|)
  {
    hide Merge, Overlay, CaughtUp, GroundedAt, TermsBelow;
    var prev := arg.prevLogIndex;
    GroundedOrdered(h, log);
    assert LedgerEntry(h, arg.term);
    AcceptedPrefix(h, log, arg);
    MergeIsOverlay(log, 0, arg.entries, prev);
    OverlayCatchesUp(log, h.ledger[arg.term], prev, prev + |arg.entries|);
  }

  /** A prefix common to the log and the leader's ledger survives catching up. */
  lemma CaughtUpKeeps(log: seq<Entry>, ledger: seq<Entry>, reach: nat, p: seq<Entry>)
    requires reach <= |ledger| && p <= log && p <= ledger
    ensures p <= CaughtUp(log, ledger, reach)
  {
    if |p| > reach {
      assert ledger[..reach] == p[..reach] == log[..reach];
    }
  }

  /** Whatever is committed, as far as a server in term `term` knows, is in the ledger of that term. */
  lemma CommittedInLedger(c: Cluster, p: seq<Entry>, known: nat, term: nat)
    requires LedgerOk(c.h) && CompleteOk(c)
    requires CommittedBy(c, p, known) && known <= term && term in c.h.ledger
    ensures p <= c.h.ledger[term]
  {
    hide IsQuorum, Holders, Supporters, Grounded, TermsBelow, Contiguous;
    if p != [] {
      var t: nat, k: nat :| t <= known && Chosen(c, t, k) && p <= c.h.ledger[t][..k];
      assert LedgerEntry(c.h, term);
      ChosenInLater(c, t, k, term);
    }
  }

  lemma ChosenInLater(c: Cluster, t: nat, k: nat, term: nat)
    requires LedgerOk(c.h) && CompleteOk(c) && Chosen(c, t, k) && t <= term && term in c.h.ledger
    ensures c.h.ledger[t][..k] <= c.h.ledger[term]
  {
    hide IsQuorum, Holders, Supporters, Grounded, TermsBelow, Contiguous;
    assert LedgerEntry(c.h, term);
    if t < term {
      ChosenIsChoosable(c, t, k);
      assert c.h.ledger[t][..k] <= c.h.elections[term].base;
    }
  }

  /** What DoAppend does on acceptance. */
  ghost predicate Appended(c: Cluster, d: Cluster, s: ServerId, term: nat, reach: nat, commit: nat) {
    && s in c.servers && s in d.servers && term in c.h.ledger && reach <= |c.h.ledger[term]|
    && var n, m := c.servers[s].node, d.servers[s].node;
    && d.servers == c.servers[s := d.servers[s]]
    && d.servers[s] == c.servers[s].(node := m, disk := Persisted(m))
    && m == n.(currentTerm := term, role := Follower, votedFor := m.votedFor, commitIndex := commit,
               log := n.log.(entries := CaughtUp(n.log.entries, c.h.ledger[term], reach)))
    && n.currentTerm <= term
    && (n.currentTerm == term ==> m.votedFor == n.votedFor)
    && (n.currentTerm < term ==> m.votedFor == None)
    && c.net <= d.net
    && d.h == c.h.(held := c.h.held[(s, term) := Max(HeldLen(c.h, s, term), reach)])
  }

  lemma AppendedHeld(c: Cluster, d: Cluster, s: ServerId, term: nat, reach: nat, commit: nat)
    requires Appended(c, d, s, term, reach, commit)
    ensures forall x, t: nat :: (x, t) != (s, term) ==> HeldLen(d.h, x, t) == HeldLen(c.h, x, t)
    ensures HeldLen(d.h, s, term) == Max(HeldLen(c.h, s, term), reach)
  {
  }

  lemma AppendedGrows(c: Cluster, d: Cluster, s: ServerId, term: nat, reach: nat, commit: nat)
    requires Appended(c, d, s, term, reach, commit)
    ensures Evolves(c, d)
  {
    assert HeldGrows(c, d) by { AppendedHeld(c, d, s, term, reach, commit); }
    assert TermsGrow(c, d);
    assert LedgerGrows(c.h, d.h);
    assert VotesGrow(c.h, d.h);
  }

  lemma AppendedOnly(c: Cluster, d: Cluster, s: ServerId, term: nat, reach: nat, commit: nat)
    requires Appended(c, d, s, term, reach, commit)
    ensures Only(c, d, s) && OnlyWrites(c, d, s) && VoteMoves(c.servers[s].node, d.servers[s].node)
  {
    AppendedHeld(c, d, s, term, reach, commit);
  }

  lemma AppendedLog(c: Cluster, d: Cluster, s: ServerId, term: nat, reach: nat, commit: nat)
    requires Appended(c, d, s, term, reach, commit) && LedgerOk(c.h) && LogOk(c, s)
    ensures LogOk(d, s)
  {
    assert LedgerEntry(c.h, term);
    GroundedPrefix(c.h.ledger, c.h.ledger[term], reach);
    var l, base := c.h.ledger[term], c.h.elections[term].base;
    assert TermsBelow(l[..reach], term + 1) by {
      forall i | 0 <= i < reach
        ensures l[i].term <= term
      {
        if i < |base| { assert l[i] == base[i]; }
      }
    }
  }

  /** What the server holds of this term is in its new log. */
  lemma AppendedHolds(c: Cluster, d: Cluster, s: ServerId, term: nat, reach: nat, commit: nat)
    requires Appended(c, d, s, term, reach, commit) && HeldOk(c)
    ensures forall t :: (s, t) in d.h.held ==> HeldAt(d, s, t)
  {
    AppendedHeld(c, d, s, term, reach, commit);
    var l, log := c.h.ledger[term], c.servers[s].node.log.entries;
    forall t | (s, t) in d.h.held
      ensures HeldAt(d, s, t)
    {
      if t == term {
        if (s, term) in c.h.held {
          assert HeldAt(c, s, term);
          if c.servers[s].node.currentTerm == term { CaughtUpKeeps(log, l, reach, l[..c.h.held[(s, term)]]); }
        }
      } else {
        assert HeldAt(c, s, t);
      }
    }
  }

  lemma AppendedKeeps(c: Cluster, d: Cluster, s: ServerId, term: nat, reach: nat, commit: nat)
    requires Appended(c, d, s, term, reach, commit) && HeldOk(c) && LedgerOk(c.h) && CompleteOk(c) && ServerKeeps(c, s)
    requires forall t :: (s, t) in d.h.held ==> HeldAt(d, s, t)
    ensures ServerKeeps(d, s)
  {
    AppendedHeld(c, d, s, term, reach, commit);
    AppendedGrows(c, d, s, term, reach, commit);
    hide VotesGrow, HeldGrows, LedgerOk, CompleteOk, IsQuorum, Supporters, CaughtUp, HeldAt, HeldOk, KeepsAt;
    forall t: nat, k: nat | t <= d.servers[s].node.currentTerm && Choosable(d, t, k)
      ensures t in d.h.ledger && k <= |d.h.ledger[t]| && KeepsAt(d, s, t, k)
    {
      ChoosableBefore(c, d, t, k);
      if t == term {
        KeepsNow(d, s, t, k);
      } else {
        KeepsOlder(c, d, s, term, reach, commit, t, k);
      }
    }
  }

  lemma KeepsNow(d: Cluster, s: ServerId, t: nat, k: nat)
    requires s in d.servers && (s, t) in d.h.held && HeldAt(d, s, t) && t == d.servers[s].node.currentTerm
    requires t in d.h.ledger && k <= |d.h.ledger[t]|
    ensures KeepsAt(d, s, t, k)
  {
  }

  lemma KeepsOlder(c: Cluster, d: Cluster, s: ServerId, term: nat, reach: nat, commit: nat, t: nat, k: nat)
    requires Appended(c, d, s, term, reach, commit) && HeldOk(c) && LedgerOk(c.h) && CompleteOk(c) && ServerKeeps(c, s)
    requires t != term && t <= d.servers[s].node.currentTerm && Choosable(c, t, k)
    requires t in d.h.ledger && k <= |d.h.ledger[t]|
    ensures KeepsAt(d, s, t, k)
  {
    AppendedHeld(c, d, s, term, reach, commit);
    hide LedgerOk, CompleteOk, IsQuorum, Supporters, CaughtUp;
    if k <= HeldLen(d.h, s, t) && k > 0 {
      assert HeldAt(c, s, t);
      assert KeepsAt(c, s, t, k);
      AppendedKeepsOlder(c, s, term, reach, t, k);
    }
  }

  lemma AppendedKeepsOlder(c: Cluster, s: ServerId, term: nat, reach: nat, t: nat, k: nat)
    requires LedgerOk(c.h) && CompleteOk(c) && s in c.servers && Choosable(c, t, k) && t < term
    requires term in c.h.ledger && reach <= |c.h.ledger[term]|
    requires c.h.ledger[t][..k] <= c.servers[s].node.log.entries
    ensures c.h.ledger[t][..k] <= CaughtUp(c.servers[s].node.log.entries, c.h.ledger[term], reach)
  {
    hide IsQuorum, Supporters, Grounded, TermsBelow, Contiguous;
    assert LedgerEntry(c.h, term);
    assert c.h.ledger[t][..k] <= c.h.elections[term].base;
    CaughtUpKeeps(c.servers[s].node.log.entries, c.h.ledger[term], reach, c.h.ledger[t][..k]);
  }

  /** The committed prefix survives, and the new commit index is justified by the message. */
  lemma AppendedCommit(c: Cluster, d: Cluster, s: ServerId, term: nat, reach: nat, commit: nat)
    requires Appended(c, d, s, term, reach, commit) && LedgerOk(c.h) && CompleteOk(c)
    requires CommitAt(c, s) && PipelineOk(c.servers[s])
    requires commit == c.servers[s].node.commitIndex
      || (c.servers[s].node.commitIndex < commit <= reach && CommittedBy(c, c.h.ledger[term][..commit], term))
    ensures CommitAt(d, s) && PipelineOk(d.servers[s])
  {
    hide CommittedBy, LedgerOk, CompleteOk, CaughtUp, HeldLen, PipelineOk;
    var n, m := c.servers[s].node, d.servers[s].node;
    var l, log := c.h.ledger[term], n.log.entries;
    var p := log[..n.commitIndex];
    CommittedInLedger(c, p, n.currentTerm, term);
    CaughtUpKeeps(log, l, reach, p);
    assert m.log.entries[..n.commitIndex] == p;
    AppendedGrows(c, d, s, term, reach, commit);
    hide TermsGrow, HeldGrows, LedgerGrows, VotesGrow;
    if commit == n.commitIndex {
      CommittedStays(c, d, p, n.currentTerm, term);
    } else {
      AcceptedReaches(log, l, reach);
      assert m.log.entries[..commit] == l[..reach][..commit] == l[..commit];
      CommittedStays(c, d, l[..commit], term, term);
    }
    PipelineKept(c.servers[s], d.servers[s], n.commitIndex);
  }

  /** The pipeline does not notice a log that changes above the old commit index only. */
  lemma PipelineKept(v: Server, w: Server, k: nat)
    requires PipelineOk(v) && k == v.node.commitIndex <= w.node.commitIndex <= |w.node.log.entries|
    requires w.node.log.entries[..k] == v.node.log.entries[..k] && w.node.lastApplied == v.node.lastApplied
    requires w.phase == v.phase && w.slot == v.slot && w.consumed == v.consumed
    ensures PipelineOk(w)
  {
    var es, fs := v.node.log.entries, w.node.log.entries;
    var i := v.node.lastApplied;
    assert es[..i] == es[..k][..i] == fs[..k][..i] == fs[..i];
    assert Delivered(w) == Delivered(v);
    assert i < k ==> es[i] == es[..k][i] == fs[..k][i] == fs[i];
  }

  lemma AcceptedReaches(log: seq<Entry>, ledger: seq<Entry>, reach: nat)
    requires reach <= |ledger|
    ensures ledger[..reach] <= CaughtUp(log, ledger, reach)
  {
  }

  lemma AppendedPeers(c: Cluster, d: Cluster, s: ServerId, term: nat, reach: nat, commit: nat)
    requires Appended(c, d, s, term, reach, commit) && s in c.h.counted
    requires ServerShape(c.servers.Keys, s, c.servers[s]) && VoteOk(c, s) && VoteCallsOk(c, s) && AppendCallsOk(c, s)
    ensures ServerShape(d.servers.Keys, s, d.servers[s]) && VoteOk(d, s) && VoteCallsOk(d, s) && AppendCallsOk(d, s)
    ensures CandidateOk(d, s) && LeaderOk(d, s)
  {
  }

  lemma AppendedServer(c: Cluster, d: Cluster, s: ServerId, term: nat, reach: nat, commit: nat)
    requires Appended(c, d, s, term, reach, commit) && LedgerOk(c.h) && CompleteOk(c) && HeldOk(c)
    requires s in c.h.counted && ServerOk(c, s)
    requires commit == c.servers[s].node.commitIndex
      || (c.servers[s].node.commitIndex < commit <= reach && CommittedBy(c, c.h.ledger[term][..commit], term))
    ensures s in d.h.counted && ServerOk(d, s)
  {
    hide LedgerOk, CompleteOk, HeldOk, CommittedBy, CaughtUp, HeldLen;
    hide ServerShape, VoteOk, VoteCallsOk, CandidateOk, LeaderOk, AppendCallsOk, PipelineOk, LogOk, CommitAt, HeldAt;
    hide ServerKeeps;
    AppendedPeers(c, d, s, term, reach, commit);
    AppendedLog(c, d, s, term, reach, commit);
    AppendedHolds(c, d, s, term, reach, commit);
    AppendedKeeps(c, d, s, term, reach, commit);
    AppendedCommit(c, d, s, term, reach, commit);
  }

  lemma KeepsAppended(c: Cluster, d: Cluster, s: ServerId, term: nat, reach: nat, commit: nat)
    requires Inv(c) && Appended(c, d, s, term, reach, commit)
    requires commit == c.servers[s].node.commitIndex
      || (c.servers[s].node.commitIndex < commit <= reach && CommittedBy(c, c.h.ledger[term][..commit], term))
    requires NewMessagesOk(c, d)
    ensures Inv(d) && Evolves(c, d)
  {
    hide Inv, LedgerOk, CommittedBy, CaughtUp, HeldLen, ServerOk, NewMessagesOk, NewBallotsOk, NewElectionOk;
    hide NewAppliedOk, Evolves, Only, OnlyWrites, VoteMoves;
    hide HeldOk, VotesOk, BallotsKeptOk, ElectionsOk, CompleteOk, VoteNetOk, AppendNetOk, AppliedOk;
    InvParts(c);
    InvServer(c, s);
    AppendedGrows(c, d, s, term, reach, commit);
    AppendedOnly(c, d, s, term, reach, commit);
    AppendedServer(c, d, s, term, reach, commit);
    LedgerSame(c.h, d.h);
    NoNewBallots(c, d);
    NoNewElections(c, d);
    NoNewApplied(c, d);
    StepKeeps(c, d, s);
  }

  /** An accepted request is such an append. */
  lemma AppendAccepted(c: Cluster, d: Cluster, s: ServerId, arg: AppendEntriesArg, garbage: Conflict)
    requires CanAppend(c, s, arg) && d == DoAppend(c, s, arg, garbage)
    requires LedgerOk(c.h) && LogOk(c, s) && ServerShape(c.servers.Keys, s, c.servers[s])
    requires AppendMessageOk(c, AppendRequest(s, arg))
    requires OnAppendEntries(c.servers[s].node, arg, garbage).1.success
    ensures var commit := d.servers[s].node.commitIndex;
      var reach := arg.prevLogIndex + |arg.entries|;
      && Appended(c, d, s, arg.term, reach, commit)
      && (commit == c.servers[s].node.commitIndex
          || (&& c.servers[s].node.commitIndex < commit <= reach
              && CommittedBy(c, c.h.ledger[arg.term][..commit], arg.term)))
  {
    hide OnAppendEntries, AppendEntriesDisk, CommittedBy, Accepts, Merge, CaughtUp;
    var n := c.servers[s].node;
    var reach := arg.prevLogIndex + |arg.entries|;
    AppendOutcomes(n, c.servers[s].disk, arg, garbage);
    GroundedOrdered(c.h, n.log.entries);
    AcceptsPlain(n, arg.prevLogIndex, arg.prevLogTerm);
    MergeCatchesUp(c.h, n.log.entries, arg);
    AcceptedReaches(n.log.entries, c.h.ledger[arg.term], reach);
    AcceptedEnds(c.h, n.log.entries, arg.term, reach);
  }

  lemma AcceptedEnds(h: History, log: seq<Entry>, term: nat, reach: nat)
    requires LedgerOk(h) && Grounded(h.ledger, log) && term in h.ledger && reach <= |h.ledger[term]|
    ensures LastIndex(LogState(CaughtUp(log, h.ledger[term], reach), 0, 0)) == |CaughtUp(log, h.ledger[term], reach)|
  {
    GroundedOrdered(h, log);
    assert LedgerEntry(h, term);
  }

  /** A reply tells the truth about what was accepted or rejected. */
  lemma AppendReplyMessage(c: Cluster, d: Cluster, s: ServerId, arg: AppendEntriesArg, garbage: Conflict)
    requires CanAppend(c, s, arg) && d == DoAppend(c, s, arg, garbage)
    requires LogOk(c, s) && LedgerOk(c.h) && ServerShape(c.servers.Keys, s, c.servers[s])
    ensures NewMessagesOk(c, d)
  {
    hide LedgerOk, AppendEntriesDisk, Merge;
    var n := c.servers[s].node;
    GroundedOrdered(c.h, n.log.entries);
    AcceptsPlain(n, arg.prevLogIndex, arg.prevLogTerm);
    hide Accepts, ConflictHint;
  }

  lemma RejectQuiet(c: Cluster, d: Cluster, s: ServerId, arg: AppendEntriesArg, garbage: Conflict)
    requires CanAppend(c, s, arg) && d == DoAppend(c, s, arg, garbage)
    requires ServerShape(c.servers.Keys, s, c.servers[s])
    requires !OnAppendEntries(c.servers[s].node, arg, garbage).1.success
    ensures Quiet(c, d, s)
  {
    hide OnAppendEntries, AppendEntriesDisk;
    AppendOutcomes(c.servers[s].node, c.servers[s].disk, arg, garbage);
  }

  lemma RejectMoved(c: Cluster, d: Cluster, s: ServerId, arg: AppendEntriesArg, garbage: Conflict)
    requires CanAppend(c, s, arg) && d == DoAppend(c, s, arg, garbage)
    requires s in c.h.counted && ServerOk(c, s) && Quiet(c, d, s)
    requires !OnAppendEntries(c.servers[s].node, arg, garbage).1.success
    ensures Moved(d, s)
  {
    hide LogOk, HeldAt, ServerKeeps, CommitAt, Quiet, OnAppendEntries, AppendEntriesDisk;
    hide VoteCallsOk, CandidateOk, LeaderOk, AppendCallsOk;
    AppendOutcomes(c.servers[s].node, c.servers[s].disk, arg, garbage);
    QuietCommit(c, d, s);
    FewerCalls(c, d, s);
    assert Delivered(d.servers[s]) == Delivered(c.servers[s]);
  }

  lemma KeepsAppend(c: Cluster, s: ServerId, arg: AppendEntriesArg, garbage: Conflict)
    requires Inv(c) && CanAppend(c, s, arg)
    ensures Inv(DoAppend(c, s, arg, garbage)) && Evolves(c, DoAppend(c, s, arg, garbage))
  {
    hide Inv, LedgerOk, Quiet, NewBallotsOk, NewMessagesOk, NewAppliedOk, LogOk, HeldAt, ServerKeeps, Moved, Appended;
    hide VoteOk, VoteCallsOk, CandidateOk, LeaderOk, AppendCallsOk, CommitAt, PipelineOk, ServerShape, AppendMessageOk;
    hide HeldOk, VotesOk, BallotsKeptOk, ElectionsOk, CompleteOk, AppliedOk, VoteNetOk;
    hide OnAppendEntries, AppendEntriesDisk, CommittedBy;
    var d := DoAppend(c, s, arg, garbage);
    InvParts(c);
    InvServer(c, s);
    AppendReplyMessage(c, d, s, arg, garbage);
    if OnAppendEntries(c.servers[s].node, arg, garbage).1.success {
      AppendAccepted(c, d, s, arg, garbage);
      KeepsAppended(c, d, s, arg.term, arg.prevLogIndex + |arg.entries|, d.servers[s].node.commitIndex);
    } else {
      RejectQuiet(c, d, s, arg, garbage);
      RejectMoved(c, d, s, arg, garbage);
      QuietServer(c, d, s);
      NoNewBallots(c, d);
      NoNewApplied(c, d);
      QuietStep(c, d, s);
    }
  }
}
