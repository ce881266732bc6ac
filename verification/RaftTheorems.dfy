/** The promises of the protocol, for every run of every cluster of up to 255 servers. */
module RaftTheorems {
  import opened Options
  import opened RaftTypes
  import opened RaftLog
  import opened RaftNode
  import opened RaftCluster
  import opened RaftInvariant
  import opened RaftEvolution
  import opened RaftFrame
  import opened RaftAppendSteps
  import opened RaftCommitSteps
  import opened RaftSafety
  import RaftCompaction

  // ---- election safety

  lemma LeaderElected(c: Cluster, s: ServerId)
    requires Inv(c) && s in c.servers && c.servers[s].node.role == Leader
    ensures var t := c.servers[s].node.currentTerm;
      && t in c.h.elections && t in c.h.ledger
      && c.h.elections[t].leader == s
      && c.servers[s].node.log.entries == c.h.ledger[t]
  {
    assert LeaderOk(c, s);
  }

  /** At most one server is ever leader of a term: the leaders of the same term at two moments
      of a run, with any crashes and restarts in between, are the same server. */
  lemma ElectionSafety(members: set<ServerId>, first: seq<Step>, rest: seq<Step>, x: ServerId, y: ServerId)
    requires TwoParts(members, first, rest)
    requires var a := Run(Init(members), first);
      var b := Run(a, rest);
      && x in a.servers && a.servers[x].node.role == Leader
      && y in b.servers && b.servers[y].node.role == Leader
      && a.servers[x].node.currentTerm == b.servers[y].node.currentTerm
    ensures x == y
  {
    hide Inv, Run, CanRun;
    var a := Run(Init(members), first);
    var b := Run(a, rest);
    TwoPartsInv(members, first, rest);
    LeaderElected(a, x);
    LeaderElected(b, y);
  }

  /** The servers in `voters` have all reached the term and, while they are in it, are bound to
      vote for `s`. */
  ghost predicate Bound(c: Cluster, s: ServerId, term: nat, voters: set<ServerId>) {
    && voters <= c.servers.Keys
    && forall p :: p in voters ==>
         && c.servers[p].node.currentTerm >= term
         && (c.servers[p].node.currentTerm == term ==> c.servers[p].node.votedFor == Some(s))
  }

  lemma BoundVoter(c: Cluster, p: ServerId, t: nat)
    requires VotesOk(c) && (p, t) in c.h.ballots
    ensures p in c.servers && c.servers[p].node.currentTerm >= t
    ensures c.servers[p].node.currentTerm == t ==> c.servers[p].node.votedFor == Some(c.h.ballots[(p, t)].candidate)
  {
    hide AtLeastAsNew, Grounded, CandidacyOk, VoteOk;
    assert BallotOk(c, p, t);
  }

  lemma BallotsBind(c: Cluster, s: ServerId, t: nat, voters: set<ServerId>)
    requires VotesOk(c)
    requires forall p :: p in voters ==> (p, t) in c.h.ballots && c.h.ballots[(p, t)].candidate == s
    ensures Bound(c, s, t, voters)
  {
    hide VotesOk;
    forall p | p in voters
      ensures p in c.servers && c.servers[p].node.currentTerm >= t
      ensures c.servers[p].node.currentTerm == t ==> c.servers[p].node.votedFor == Some(s)
    {
      BoundVoter(c, p, t);
    }
  }

  lemma CandidateParts(c: Cluster, s: ServerId)
    requires Inv(c) && s in c.servers
    ensures s in c.h.counted && CandidateOk(c, s) && VotesOk(c)
  {
    hide CandidateOk, VotesOk;
  }

  /** In every run no vote is counted twice in a term: a candidate's count is the number of
      different servers bound to it. And its log is the one it had when it stood, which is the one
      its requests describe. */
  lemma VotesCountedOnce(members: set<ServerId>, steps: seq<Step>, s: ServerId)
    requires 1 <= |members| <= 255 && CanRun(Init(members), steps)
    requires s in Run(Init(members), steps).servers && Run(Init(members), steps).servers[s].node.role == Candidate
    ensures var c := Run(Init(members), steps);
      var n := c.servers[s].node;
      && (exists voters :: s in voters && |voters| == n.votesGranted && Bound(c, s, n.currentTerm, voters))
      && (s, n.currentTerm) in c.h.candidacies && n.log.entries == c.h.candidacies[(s, n.currentTerm)]
      && n.requestVoteArg == RequestVoteArg(s, n.currentTerm, LastIndex(n.log), LastTerm(n.log))
  {
    hide Inv, Run, CanRun, Evolves, VotesOk, Bound;
    InitInv(members);
    RunInv(Init(members), steps);
    var c := Run(Init(members), steps);
    CandidateParts(c, s);
    BallotsBind(c, s, c.servers[s].node.currentTerm, c.h.counted[s]);
  }

  lemma ElectionParts(c: Cluster, t: nat)
    requires Inv(c) && t in c.h.elections
    ensures ElectionOk(c, t) && VotesOk(c) && t in c.h.ledger && c.h.elections[t].base <= c.h.ledger[t]
  {
    hide ElectionOk, VotesOk;
    assert LedgerEntry(c.h, t);
  }

  /** In every run a leader was made by more than half of the servers, all different and all bound
      to it in its term, and its log extends the one it stood with. */
  lemma WinnerHasMajority(members: set<ServerId>, steps: seq<Step>, s: ServerId)
    requires 1 <= |members| <= 255 && CanRun(Init(members), steps)
    requires s in Run(Init(members), steps).servers && Run(Init(members), steps).servers[s].node.role == Leader
    ensures var c := Run(Init(members), steps);
      var n := c.servers[s].node;
      && (exists voters :: 2 * |voters| > |c.servers| && Bound(c, s, n.currentTerm, voters))
      && (s, n.currentTerm) in c.h.candidacies && c.h.candidacies[(s, n.currentTerm)] <= n.log.entries
  {
    hide Inv, Run, CanRun, Evolves, VotesOk, Bound;
    InitInv(members);
    RunInv(Init(members), steps);
    var c := Run(Init(members), steps);
    var t := c.servers[s].node.currentTerm;
    LeaderElected(c, s);
    ElectionParts(c, t);
    BallotsBind(c, s, t, c.h.elections[t].voters);
    assert 2 * |c.h.elections[t].voters| > |c.servers|;
  }

  /** A leader's log only grows while it leads. */
  lemma LeaderAppendOnly(members: set<ServerId>, first: seq<Step>, rest: seq<Step>, x: ServerId)
    requires TwoParts(members, first, rest)
    requires var a := Run(Init(members), first);
      var b := Run(a, rest);
      && x in a.servers && a.servers[x].node.role == Leader
      && x in b.servers && b.servers[x].node.role == Leader
      && a.servers[x].node.currentTerm == b.servers[x].node.currentTerm
    ensures var a := Run(Init(members), first);
      a.servers[x].node.log.entries <= Run(a, rest).servers[x].node.log.entries
  {
    hide Inv, Run, CanRun;
    var a := Run(Init(members), first);
    var b := Run(a, rest);
    TwoPartsInv(members, first, rest);
    LeaderElected(a, x);
    LeaderElected(b, x);
    assert a.h.ledger[a.servers[x].node.currentTerm] <= b.h.ledger[a.servers[x].node.currentTerm];
  }

  // ---- log matching

  /** Two logs, at two moments of a run, that have an entry of the same term at the same
      position are identical up to it. */
  lemma LogMatching(members: set<ServerId>, first: seq<Step>, rest: seq<Step>, x: ServerId, y: ServerId, i: nat)
    requires TwoParts(members, first, rest)
    requires var a := Run(Init(members), first);
      var b := Run(a, rest);
      && x in a.servers && y in b.servers
      && i < |a.servers[x].node.log.entries| && i < |b.servers[y].node.log.entries|
      && a.servers[x].node.log.entries[i].term == b.servers[y].node.log.entries[i].term
    ensures var a := Run(Init(members), first);
      a.servers[x].node.log.entries[..i + 1] == Run(a, rest).servers[y].node.log.entries[..i + 1]
  {
    hide Inv, Run, CanRun;
    var a := Run(Init(members), first);
    var b := Run(a, rest);
    TwoPartsInv(members, first, rest);
    LogGrounded(a, x);
    LogGrounded(b, y);
    hide TermsGrow, HeldGrows, VotesGrow, LedgerOk, Grounded;
    GroundedGrows(a.h.ledger, b.h.ledger, a.servers[x].node.log.entries);
    GroundedAgree(b.h.ledger, a.servers[x].node.log.entries, b.servers[y].node.log.entries, i);
  }

  /** Logs are gap-free, start at index 1, and their terms never decrease. */
  lemma LogsOrdered(members: set<ServerId>, steps: seq<Step>, x: ServerId)
    requires 1 <= |members| <= 255 && CanRun(Init(members), steps)
    requires x in Run(Init(members), steps).servers
    ensures var es := Run(Init(members), steps).servers[x].node.log.entries;
      && Contiguous(es, 0)
      && (forall i, j :: 0 <= i <= j < |es| ==> es[i].term <= es[j].term)
  {
    hide Inv, Run, CanRun;
    var c := Run(Init(members), steps);
    InitInv(members);
    RunInv(Init(members), steps);
    LogGrounded(c, x);
    hide LedgerOk, Grounded;
    GroundedOrdered(c.h, c.servers[x].node.log.entries);
  }

  // ---- commitment

  /** Two committed prefixes: one extends the other. */
  lemma CommittedComparable(c: Cluster, p: seq<Entry>, q: seq<Entry>, t: nat, u: nat)
    requires LedgerOk(c.h) && CompleteOk(c)
    requires CommittedBy(c, p, t) && CommittedBy(c, q, u)
    ensures p <= q || q <= p
  {
    hide LedgerOk, CompleteOk;
    if p != [] && q != [] {
      var t1: nat, k1: nat :| t1 <= t && Chosen(c, t1, k1) && p <= c.h.ledger[t1][..k1];
      var t2: nat, k2: nat :| t2 <= u && Chosen(c, t2, k2) && q <= c.h.ledger[t2][..k2];
      if t1 <= t2 { ChosenInLater(c, t1, k1, t2); } else { ChosenInLater(c, t2, k2, t1); }
    }
  }

  lemma CommittedPrefixOf(c: Cluster, s: ServerId)
    requires Inv(c) && s in c.servers
    ensures c.servers[s].node.commitIndex <= |c.servers[s].node.log.entries|
    ensures var n := c.servers[s].node; CommittedBy(c, n.log.entries[..n.commitIndex], n.currentTerm)
  {
    hide CommittedBy;
    assert CommitAt(c, s);
  }

  lemma CompleteParts(c: Cluster)
    requires Inv(c)
    ensures LedgerOk(c.h) && CompleteOk(c)
  {
    hide LedgerOk, CompleteOk;
  }

  /** Leader completeness: what any server knows to be committed is in the log of every leader
      of that server's term or a later one, at that moment and ever after. */
  lemma LeaderCompleteness(members: set<ServerId>, first: seq<Step>, rest: seq<Step>, x: ServerId, y: ServerId)
    requires TwoParts(members, first, rest)
    requires var a := Run(Init(members), first);
      var b := Run(a, rest);
      && x in a.servers && y in b.servers && b.servers[y].node.role == Leader
      && a.servers[x].node.currentTerm <= b.servers[y].node.currentTerm
    ensures var n := Run(Init(members), first).servers[x].node;
      && n.commitIndex <= |n.log.entries|
      && n.log.entries[..n.commitIndex] <= Run(Run(Init(members), first), rest).servers[y].node.log.entries
  {
    hide Inv, Run, CanRun, CommittedBy;
    var a := Run(Init(members), first);
    var b := Run(a, rest);
    var n := a.servers[x].node;
    TwoPartsInv(members, first, rest);
    CommittedPrefixOf(a, x);
    LeaderElected(b, y);
    hide TermsGrow, HeldGrows, VotesGrow, LedgerGrows;
    CommittedStays(a, b, n.log.entries[..n.commitIndex], n.currentTerm, n.currentTerm);
    CompleteParts(b);
    hide LedgerOk, CompleteOk;
    CommittedInLedger(b, n.log.entries[..n.commitIndex], n.currentTerm, b.servers[y].node.currentTerm);
  }

  /** The same looking back: what a server of an earlier term comes to know as committed was already
      in the log of every leader of a later term that has been seen before. */
  lemma EarlierLeaderComplete(members: set<ServerId>, first: seq<Step>, rest: seq<Step>, x: ServerId, y: ServerId)
    requires TwoParts(members, first, rest)
    requires var a := Run(Init(members), first);
      var b := Run(a, rest);
      && x in b.servers && y in a.servers && a.servers[y].node.role == Leader
      && b.servers[x].node.currentTerm < a.servers[y].node.currentTerm
    ensures var n := Run(Run(Init(members), first), rest).servers[x].node;
      && n.commitIndex <= |n.log.entries|
      && n.log.entries[..n.commitIndex] <= Run(Init(members), first).servers[y].node.log.entries
  {
    hide Inv, Run, CanRun, CommittedBy;
    var a := Run(Init(members), first);
    var b := Run(a, rest);
    var n, u := b.servers[x].node, a.servers[y].node.currentTerm;
    TwoPartsInv(members, first, rest);
    CommittedPrefixOf(b, x);
    LeaderElected(a, y);
    ElectionParts(a, u);
    CompleteParts(b);
    hide TermsGrow, HeldGrows, VotesGrow;
    assert b.h.elections[u] == a.h.elections[u];
    hide LedgerOk, CompleteOk, LedgerGrows, ElectionOk, VotesOk;
    CommittedInBase(b, n.log.entries[..n.commitIndex], n.currentTerm, u);
  }

  lemma CommittedInBase(c: Cluster, p: seq<Entry>, known: nat, u: nat)
    requires CompleteOk(c) && CommittedBy(c, p, known) && known < u && u in c.h.elections
    ensures p <= c.h.elections[u].base
  {
    hide IsQuorum, Holders, Supporters;
    if p != [] {
      var t: nat, k: nat :| t <= known && Chosen(c, t, k) && p <= c.h.ledger[t][..k];
      ChosenIsChoosable(c, t, k);
    }
  }

  /** The committed prefixes of any two servers at any two moments of a run agree: the shorter
      is a prefix of the longer. */
  lemma CommittedPrefixesAgree(members: set<ServerId>, first: seq<Step>, rest: seq<Step>, x: ServerId, y: ServerId)
    requires TwoParts(members, first, rest)
    requires x in Run(Init(members), first).servers && y in Run(Run(Init(members), first), rest).servers
    ensures var n := Run(Init(members), first).servers[x].node;
      var m := Run(Run(Init(members), first), rest).servers[y].node;
      && n.commitIndex <= |n.log.entries| && m.commitIndex <= |m.log.entries|
      && var p, q := n.log.entries[..n.commitIndex], m.log.entries[..m.commitIndex];
      p <= q || q <= p
  {
    hide Inv, Run, CanRun, CommittedBy;
    var a := Run(Init(members), first);
    var b := Run(a, rest);
    TwoPartsInv(members, first, rest);
    CommittedPrefixOf(a, x);
    CommittedPrefixOf(b, y);
    var n, m := a.servers[x].node, b.servers[y].node;
    hide TermsGrow, HeldGrows, VotesGrow, LedgerGrows;
    CommittedStays(a, b, n.log.entries[..n.commitIndex], n.currentTerm, n.currentTerm);
    CompleteParts(b);
    hide LedgerOk, CompleteOk;
    var p, q := n.log.entries[..n.commitIndex], m.log.entries[..m.commitIndex];
    CommittedComparable(b, p, q, n.currentTerm, m.currentTerm);
  }

  // ---- applying

  lemma AppliedAgree(c: Cluster, e: Entry, f: Entry)
    requires LedgerOk(c.h) && CompleteOk(c) && AppliedAt(c, e) && AppliedAt(c, f) && e.index == f.index
    ensures e == f
  {
    hide LedgerOk, CompleteOk, IsQuorum, Holders;
    var t1: nat, k1: nat :| Chosen(c, t1, k1) && 1 <= e.index <= k1 && c.h.ledger[t1][e.index - 1] == e;
    var t2: nat, k2: nat :| Chosen(c, t2, k2) && 1 <= f.index <= k2 && c.h.ledger[t2][f.index - 1] == f;
    assert c.h.ledger[t1][..k1][e.index - 1] == e && c.h.ledger[t2][..k2][f.index - 1] == f;
    if t1 <= t2 { ChosenInLater(c, t1, k1, t2); } else { ChosenInLater(c, t2, k2, t1); }
  }

  lemma AppliedParts(c: Cluster, s: ServerId, e: Entry)
    requires Inv(c) && (s, e) in c.h.applied
    ensures AppliedAt(c, e)
  {
    hide AppliedAt;
  }

  /** State machine safety: if two servers ever apply an entry at the same index, in the same
      or in different lives, it is the same entry. */
  lemma StateMachineSafety(members: set<ServerId>, steps: seq<Step>, x: ServerId, y: ServerId, e: Entry, f: Entry)
    requires 1 <= |members| <= 255 && CanRun(Init(members), steps)
    requires (x, e) in Run(Init(members), steps).h.applied && (y, f) in Run(Init(members), steps).h.applied
    requires e.index == f.index
    ensures e == f
  {
    hide Inv, Run, CanRun, AppliedAt;
    var c := Run(Init(members), steps);
    InitInv(members);
    RunInv(Init(members), steps);
    AppliedParts(c, x, e);
    AppliedParts(c, y, f);
    CompleteParts(c);
    hide LedgerOk, CompleteOk;
    AppliedAgree(c, e, f);
  }

  // ---- acknowledgements

  lemma HeldBy(c: Cluster, p: ServerId, t: nat)
    requires Inv(c) && p in c.servers && (p, t) in c.h.held
    ensures HeldAt(c, p, t)
  {
    hide HeldAt;
  }

  lemma MatchHeld(c: Cluster, s: ServerId, p: ServerId)
    requires Inv(c) && s in c.servers && c.servers[s].node.role == Leader && p in c.servers[s].node.matchIndex
    ensures p in c.servers
    ensures c.servers[s].node.matchIndex[p] <= HeldLen(c.h, p, c.servers[s].node.currentTerm)
    ensures c.servers[s].node.matchIndex[p] <= |c.servers[s].node.log.entries|
  {
    var t := c.servers[s].node.currentTerm;
    assert LeaderOk(c, s) && ServerShape(c.servers.Keys, s, c.servers[s]);
    if (p, t) in c.h.held { assert HeldAt(c, p, t); }
  }

  /** matchIndex is sound: if the leader of a term has matchIndex k for a peer, then for as long
      as that peer stays in the term, through any restart, its log begins with the leader's
      first k entries. */
  lemma MatchIndexSound(members: set<ServerId>, first: seq<Step>, rest: seq<Step>, s: ServerId, p: ServerId)
    requires TwoParts(members, first, rest)
    requires var a := Run(Init(members), first);
      var b := Run(a, rest);
      && s in a.servers && a.servers[s].node.role == Leader && p in a.servers[s].node.matchIndex
      && p in b.servers && b.servers[p].node.currentTerm == a.servers[s].node.currentTerm
    ensures var n := Run(Init(members), first).servers[s].node;
      && n.matchIndex[p] <= |n.log.entries|
      && n.log.entries[..n.matchIndex[p]] <= Run(Run(Init(members), first), rest).servers[p].node.log.entries
  {
    hide Inv, Run, CanRun;
    var a := Run(Init(members), first);
    var b := Run(a, rest);
    TwoPartsInv(members, first, rest);
    var n := a.servers[s].node;
    var t, k := n.currentTerm, n.matchIndex[p];
    MatchHeld(a, s, p);
    LeaderElected(a, s);
    hide VotesGrow;
    assert HeldLen(a.h, p, t) <= HeldLen(b.h, p, t);
    assert a.h.ledger[t] <= b.h.ledger[t];
    if k > 0 {
      HeldBy(b, p, t);
      assert n.log.entries[..k] == b.h.ledger[t][..k] == b.h.ledger[t][..b.h.held[(p, t)]][..k];
    }
  }

  // ---- commit indices

  /** The steps after which a server has forgotten its commit index. */
  predicate Reboots(step: Step, s: ServerId) {
    (step.Restart? || step.CrashInHandler?) && step.s == s
  }

  /** A commit index that moved stays within what the request carried, and the entries below
      it are the ones the leader of that term wrote. */
  ghost predicate CommitsVerified(h: History, n: Node, m: Node, arg: AppendEntriesArg) {
    && n.commitIndex <= m.commitIndex
    && (m.commitIndex != n.commitIndex ==>
          && m.commitIndex <= arg.prevLogIndex + |arg.entries|
          && arg.term in h.ledger && m.commitIndex <= |h.ledger[arg.term]|
          && h.ledger[arg.term][..m.commitIndex] <= m.log.entries)
  }

  lemma AppendRaisesCommit(c: Cluster, d: Cluster, s: ServerId, arg: AppendEntriesArg, garbage: Conflict)
    requires Inv(c) && CanAppend(c, s, arg) && d == DoAppend(c, s, arg, garbage)
    ensures CommitsVerified(c.h, c.servers[s].node, d.servers[s].node, arg)
  {
    hide Inv, LedgerOk, LogOk, AppendEntriesDisk, CommittedBy, OnAppendEntries, AppendMessageOk;
    AppendParts(c, s, arg);
    if OnAppendEntries(c.servers[s].node, arg, garbage).1.success {
      AppendAccepted(c, d, s, arg, garbage);
      AppendedVerified(c, d, s, arg, d.servers[s].node.commitIndex);
    } else {
      AppendOutcomes(c.servers[s].node, c.servers[s].disk, arg, garbage);
    }
  }

  lemma AppendedVerified(c: Cluster, d: Cluster, s: ServerId, arg: AppendEntriesArg, commit: nat)
    requires Appended(c, d, s, arg.term, arg.prevLogIndex + |arg.entries|, commit)
    requires commit == c.servers[s].node.commitIndex
      || c.servers[s].node.commitIndex < commit <= arg.prevLogIndex + |arg.entries|
    ensures CommitsVerified(c.h, c.servers[s].node, d.servers[s].node, arg)
  {
    var l, reach := c.h.ledger[arg.term], arg.prevLogIndex + |arg.entries|;
    AcceptedReaches(c.servers[s].node.log.entries, l, reach);
    if commit <= reach { assert l[..reach][..commit] == l[..commit]; }
  }

  lemma AppendParts(c: Cluster, s: ServerId, arg: AppendEntriesArg)
    requires Inv(c) && CanAppend(c, s, arg)
    ensures LedgerOk(c.h) && LogOk(c, s) && ServerShape(c.servers.Keys, s, c.servers[s])
    ensures AppendMessageOk(c, AppendRequest(s, arg))
  {
    hide LedgerOk, LogOk, ServerShape, AppendMessageOk;
  }

  lemma ReplyRaisesCommit(c: Cluster, d: Cluster, s: ServerId, p: ServerId, r: Option<AppendEntriesReply>,
                          seen: Option<seq<Entry>>)
    requires CanReceiveAppend(c, s, p, r, seen) && d == DoReceiveAppend(c, s, p, r, seen)
    requires ServerShape(c.servers.Keys, s, c.servers[s])
    ensures c.servers[s].node.commitIndex <= d.servers[s].node.commitIndex
  {
    hide OnAppendReply, AppendReplyDisk, CommitScan, Backtrack, Plain;
    var n := c.servers[s].node;
    var arg := c.servers[s].appendCall[p];
    AppendReplyOutcomes(n, c.servers[s].disk, p, arg, r);
    CommitScanFinds(Credit(n, p, arg), LastIndex(n.log));
  }

  lemma StepRaisesCommit(c: Cluster, step: Step, s: ServerId)
    requires Inv(c) && Enabled(c, step) && s in c.servers && !Reboots(step, s)
    ensures s in Do(c, step).servers
    ensures c.servers[s].node.commitIndex <= Do(c, step).servers[s].node.commitIndex
  {
    if step.s != s {
      hide Inv, Enabled, Do;
      OthersUntouched(c, step, s);
    } else {
      hide Inv, CommitScan, Merge, OnAppendReply, OnAppendEntries, AppendEntriesDisk, AppendReplyDisk, Filled;
      hide BuildAppend, At, NewerRequest, Compared, RequestVoteDisk, VoteReplyDisk;
      match step
      case HandleAppend(_, arg, garbage) => AppendRaisesCommit(c, Do(c, step), s, arg, garbage);
      case ReceiveAppend(_, p, r, seen) => {
        ShapeOf(c, s);
        ReplyRaisesCommit(c, Do(c, step), s, p, r, seen);
      }
      case _ =>
    }
  }

  /** Between restarts a commit index never decreases. */
  lemma {:induction false} CommitMonotone(c: Cluster, steps: seq<Step>, s: ServerId)
    requires Inv(c) && CanRun(c, steps) && s in c.servers
    requires forall i :: 0 <= i < |steps| ==> !Reboots(steps[i], s)
    ensures s in Run(c, steps).servers
    ensures c.servers[s].node.commitIndex <= Run(c, steps).servers[s].node.commitIndex
    decreases |steps|
  {
    hide Inv, Enabled, Do, Evolves;
    if steps != [] {
      StepInv(c, steps[0]);
      StepRaisesCommit(c, steps[0], s);
      CommitMonotone(Do(c, steps[0]), steps[1..], s);
    }
  }

  /** Follower commit is sound: in every run each append request ever sent has
      leaderCommit <= prevLogIndex + number of entries, no commit index exceeds the last index,
      and between restarts of a server its commit index never decreases and the entries below
      it never change. */
  lemma CommitSound(members: set<ServerId>, first: seq<Step>, rest: seq<Step>, s: ServerId)
    requires TwoParts(members, first, rest) && s in members
    requires forall i :: 0 <= i < |rest| ==> !Reboots(rest[i], s)
    ensures var a := Run(Init(members), first);
      var b := Run(a, rest);
      && (forall to, arg :: AppendRequest(to, arg) in b.net ==> arg.leaderCommit <= arg.prevLogIndex + |arg.entries|)
      && s in a.servers && s in b.servers
      && a.servers[s].node.commitIndex <= b.servers[s].node.commitIndex <= |b.servers[s].node.log.entries|
      && a.servers[s].node.commitIndex <= |a.servers[s].node.log.entries|
      && var k := a.servers[s].node.commitIndex;
      a.servers[s].node.log.entries[..k] == b.servers[s].node.log.entries[..k]
  {
    hide Inv, Run, CanRun;
    var a := Run(Init(members), first);
    var b := Run(a, rest);
    TwoPartsInv(members, first, rest);
    MembersStay(members, first);
    CommitMonotone(a, rest, s);
    CommittedPrefixesAgree(members, first, rest, s, s);
    RequestsCover(b);
  }

  lemma MembersStay(members: set<ServerId>, steps: seq<Step>)
    requires 1 <= |members| <= 255 && CanRun(Init(members), steps)
    ensures Run(Init(members), steps).servers.Keys == members
  {
    hide Inv, Run, CanRun;
    InitInv(members);
    RunInv(Init(members), steps);
    hide HeldGrows, LedgerGrows, VotesGrow;
  }

  lemma RequestsCover(c: Cluster)
    requires Inv(c)
    ensures forall to, arg :: AppendRequest(to, arg) in c.net ==> arg.leaderCommit <= arg.prevLogIndex + |arg.entries|
  {
    hide AppendMessageOk;
    InvParts(c);
    hide Inv;
    forall to, arg | AppendRequest(to, arg) in c.net
      ensures arg.leaderCommit <= arg.prevLogIndex + |arg.entries|
    {
      assert AppendMessageOk(c, AppendRequest(to, arg));
      RequestCovers(c, to, arg);
    }
  }

  lemma RequestCovers(c: Cluster, to: ServerId, arg: AppendEntriesArg)
    requires AppendMessageOk(c, AppendRequest(to, arg))
    ensures arg.leaderCommit <= arg.prevLogIndex + |arg.entries|
  {
  }

  // ---- durability

  lemma LedgerSound(h: History, arg: AppendEntriesArg)
    requires LedgerOk(h) && AppendMessageShape(h, arg)
    ensures RaftCompaction.Sound(arg)
  {
    var l := h.ledger[arg.term];
    assert LedgerEntry(h, arg.term);
    GroundedOrdered(h, l);
    assert forall i :: 0 <= i < |arg.entries| ==> arg.entries[i] == l[arg.prevLogIndex + i];
    forall i | 0 <= i < |l|
      ensures 1 <= l[i].term <= arg.term
    {
      assert GroundedAt(h.ledger, l, i);
      assert LedgerEntry(h, l[i].term);
    }
  }

  /** In every run each append request ever sent numbers its entries from prevLogIndex on, in term
      order and within its own term: what RaftCompaction asks of the requests a server handles. */
  lemma RequestsSound(members: set<ServerId>, steps: seq<Step>, to: ServerId, arg: AppendEntriesArg)
    requires 1 <= |members| <= 255 && CanRun(Init(members), steps)
    requires AppendRequest(to, arg) in Run(Init(members), steps).net
    ensures RaftCompaction.Sound(arg)
  {
    hide Inv, Run, CanRun, Evolves;
    InitInv(members);
    RunInv(Init(members), steps);
    RequestShape(Run(Init(members), steps), to, arg);
    LedgerSound(Run(Init(members), steps).h, arg);
  }

  lemma RequestShape(c: Cluster, to: ServerId, arg: AppendEntriesArg)
    requires Inv(c) && AppendRequest(to, arg) in c.net
    ensures LedgerOk(c.h) && AppendMessageShape(c.h, arg)
  {
    LedgerPart(c);
    hide Inv, LedgerOk, CommittedBy;
    InvMessage(c, AppendRequest(to, arg));
  }

  lemma LedgerPart(c: Cluster)
    requires Inv(c)
    ensures LedgerOk(c.h)
  {
    hide LedgerOk;
  }

  /** Whatever a server has on disk is what it has in memory, at every moment between two of
      its locked sections; a restart therefore resumes with the same term, vote and log. */
  lemma DiskMatchesMemory(members: set<ServerId>, steps: seq<Step>, s: ServerId)
    requires 1 <= |members| <= 255 && CanRun(Init(members), steps) && s in members
    ensures var c := Run(Init(members), steps);
      && s in c.servers
      && var v := c.servers[s];
      && v.disk == Durable(v.node.currentTerm, v.node.votedFor, v.node.log.entries, "", 0, 0)
      && var n := DoRestart(c, s).servers[s].node;
      && n.currentTerm == v.node.currentTerm && n.votedFor == v.node.votedFor && n.log == v.node.log
      && n.role == Follower && !n.killed && !n.pendingSnapshot
  {
    hide Inv, Run, CanRun;
    var c := Run(Init(members), steps);
    InitInv(members);
    RunInv(Init(members), steps);
    MembersStay(members, steps);
    ShapeOf(c, s);
  }
}
