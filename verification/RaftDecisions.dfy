/** What each section decides in a reachable state, exactly and in terms of the entries of the logs:
    when a vote is granted, when entries are taken and committed, what an acknowledgement or a vote
    leads to, and when a leader has something to send. */
module RaftDecisions {
  import opened Options
  import opened RaftTypes
  import opened RaftLog
  import opened RaftNode
  import opened RaftCluster
  import opened RaftInvariant
  import opened RaftEvolution
  import opened RaftFrame
  import opened RaftPlain
  import opened RaftCommitSteps
  import opened RaftSafety
  import opened RaftTheorems
  import opened RaftReplies

  /** The state is reached by a run of a cluster of 1 to 255 servers. */
  ghost predicate Reached(members: set<ServerId>, steps: seq<Step>, c: Cluster) {
    1 <= |members| <= 255 && CanRun(Init(members), steps) && c == Run(Init(members), steps)
  }

  lemma ReachedInv(members: set<ServerId>, steps: seq<Step>, c: Cluster)
    requires Reached(members, steps, c)
    ensures Inv(c) && c.servers.Keys == members
  {
    hide Inv, Run, CanRun, Evolves;
    InitInv(members);
    RunInv(Init(members), steps);
    MembersStay(members, steps);
  }

  // ---- voting

  /** A log whose last entry has this index and term, both 0 for none, is no older than `es`: its
      last term is higher, or the same with at least as many entries. */
  predicate NoOlder(lastLogIndex: nat, lastLogTerm: nat, es: seq<Entry>) {
    var t := if es == [] then 0 else es[|es| - 1].term;
    lastLogTerm > t || (lastLogTerm == t && lastLogIndex >= |es|)
  }

  /** The vote is granted. */
  predicate Grants(n: Node, arg: RequestVoteArg) {
    && !n.killed && arg.term >= n.currentTerm
    && (arg.term > n.currentTerm || n.votedFor == None || n.votedFor == Some(arg.candidateId))
    && NoOlder(arg.lastLogIndex, arg.lastLogTerm, n.log.entries)
  }

  /** The voter's new state in memory and on disk, and its answer. */
  ghost predicate VoteDecided(c: Cluster, d: Cluster, s: ServerId, arg: RequestVoteArg) {
    && s in c.servers && s in d.servers && d.servers == c.servers[s := d.servers[s]]
    && var n, m := c.servers[s].node, d.servers[s].node;
    var newer := !n.killed && arg.term > n.currentTerm;
    && d.net == c.net + {VoteReply(s, arg, RequestVoteReply(Grants(n, arg), m.currentTerm))}
    && (Grants(n, arg) ==> m == n.(currentTerm := arg.term, role := Follower, votedFor := Some(arg.candidateId)))
    && (!Grants(n, arg) && newer ==> m == n.(currentTerm := arg.term, role := Follower, votedFor := None))
    && (!Grants(n, arg) && !newer ==> m == n)
    && d.servers[s] == c.servers[s].(
         node := m, disk := c.servers[s].disk.(currentTerm := m.currentTerm, votedFor := m.votedFor))
  }

  lemma UpToDateIff(l: LogState, lastLogIndex: nat, lastLogTerm: nat)
    requires Contiguous(l.entries, 0) && l.lastIncludedIndex == 0 && l.lastIncludedTerm == 0
    ensures UpToDate(l, lastLogIndex, lastLogTerm) <==> NoOlder(lastLogIndex, lastLogTerm, l.entries)
  {
    LastContiguous(l);
  }

  lemma LogInOrder(c: Cluster, s: ServerId)
    requires Inv(c) && s in c.servers
    ensures Contiguous(c.servers[s].node.log.entries, 0)
  {
    hide Inv, LedgerOk, Grounded;
    LogGrounded(c, s);
    GroundedOrdered(c.h, c.servers[s].node.log.entries);
  }

  lemma DecidesVote(c: Cluster, d: Cluster, s: ServerId, arg: RequestVoteArg)
    requires Inv(c) && CanVote(c, s, arg) && d == DoVote(c, s, arg)
    ensures VoteDecided(c, d, s, arg)
  {
    hide Inv, UpToDate, NoOlder, Contiguous;
    ShapeOf(c, s);
    LogInOrder(c, s);
    UpToDateIff(c.servers[s].node.log, arg.lastLogIndex, arg.lastLogTerm);
  }

  /** In every run a live voter grants its vote if and only if it has not voted for another server in
      the term of the request and the candidate's last entry is, by term and then by index, no older
      than its own. A request of a newer term moves it to that term either way. */
  lemma VoteGrantedIff(members: set<ServerId>, steps: seq<Step>, c: Cluster, s: ServerId, arg: RequestVoteArg)
    requires Reached(members, steps, c) && Enabled(c, HandleVote(s, arg))
    ensures VoteDecided(c, Do(c, HandleVote(s, arg)), s, arg)
  {
    hide Inv, VoteDecided, Reached;
    ReachedInv(members, steps, c);
    DecidesVote(c, Do(c, HandleVote(s, arg)), s, arg);
  }

  lemma AnsweredTwice(n: Node, disk: Durable, arg: RequestVoteArg)
    ensures var (m, r) := OnRequestVote(n, arg);
      && OnRequestVote(m, arg) == (m, r)
      && RequestVoteDisk(m, RequestVoteDisk(n, disk, arg), arg) == RequestVoteDisk(n, disk, arg)
  {
    hide UpToDate;
  }

  /** Handling a request a second time changes nothing, and so grants again what it has granted. */
  lemma VoteRepeats(c: Cluster, s: ServerId, arg: RequestVoteArg)
    requires Enabled(c, HandleVote(s, arg))
    ensures var d := Do(c, HandleVote(s, arg));
      Enabled(d, HandleVote(s, arg)) && Do(d, HandleVote(s, arg)) == d
  {
    hide OnRequestVote, RequestVoteDisk;
    AnsweredTwice(c.servers[s].node, c.servers[s].disk, arg);
    var d := DoVote(c, s, arg);
    assert DoVote(d, s, arg).servers == d.servers;
  }

  /** For as long as a voter is alive in the term in which it has granted its vote, it grants the
      same request again if and only if its log has not become newer than the candidate's. */
  lemma GrantedAgainIff(members: set<ServerId>, steps: seq<Step>, c: Cluster, s: ServerId, arg: RequestVoteArg,
                        reply: RequestVoteReply)
    requires Reached(members, steps, c) && Enabled(c, HandleVote(s, arg))
    requires VoteReply(s, arg, reply) in c.net && reply.voteGranted
    requires !c.servers[s].node.killed && c.servers[s].node.currentTerm == arg.term
    ensures VoteDecided(c, Do(c, HandleVote(s, arg)), s, arg)
    ensures var n := c.servers[s].node;
      Grants(n, arg) <==> NoOlder(arg.lastLogIndex, arg.lastLogTerm, n.log.entries)
  {
    hide Inv, VoteDecided, Reached, Do, NoOlder;
    ReachedInv(members, steps, c);
    VoteGrantedIff(members, steps, c, s, arg);
    GrantedBallot(c, s, arg, reply);
    hide VotesOk;
    BoundVoter(c, s, arg.term);
  }

  /** A server with these entries would be acceptable to one with those. */
  predicate Acceptable(candidate: seq<Entry>, voter: seq<Entry>) {
    NoOlder(|candidate|, if candidate == [] then 0 else candidate[|candidate| - 1].term, voter)
  }

  /** Of any servers there is always one whose log all of them accept. */
  lemma {:induction false} SomeoneAcceptable(c: Cluster, some: set<ServerId>) returns (best: ServerId)
    requires some != {} && some <= c.servers.Keys
    ensures best in some
    ensures forall p :: p in some ==> Acceptable(c.servers[best].node.log.entries, c.servers[p].node.log.entries)
    decreases |some|
  {
    best :| best in some;
    if some != {best} {
      var other := SomeoneAcceptable(c, some - {best});
      if !Acceptable(c.servers[best].node.log.entries, c.servers[other].node.log.entries) {
        best := other;
      }
    }
  }

  // ---- taking entries

  /** The preceding entry is there, with its term. */
  predicate Fits(es: seq<Entry>, prevLogIndex: nat, prevLogTerm: nat) {
    prevLogIndex == 0 || (prevLogIndex <= |es| && es[prevLogIndex - 1].term == prevLogTerm)
  }

  predicate Takes(n: Node, arg: AppendEntriesArg) {
    !n.killed && arg.term >= n.currentTerm && Fits(n.log.entries, arg.prevLogIndex, arg.prevLogTerm)
  }

  /** What a refusal tells the leader: the term found in place of the preceding entry's and where that
      term begins, or where the log ends. */
  predicate Describes(hint: Conflict, es: seq<Entry>, prevLogIndex: nat)
    requires prevLogIndex > 0
  {
    if prevLogIndex > |es| then hint == Conflict(0, |es| + 1)
    else
      && hint.term == es[prevLogIndex - 1].term && 1 <= hint.index <= prevLogIndex
      && es[hint.index - 1].term == hint.term
      && forall i :: 0 <= i < hint.index - 1 ==> es[i].term != hint.term
  }

  lemma HintDescribes(l: LogState, prevLogIndex: nat)
    requires Contiguous(l.entries, 0) && l.lastIncludedIndex == 0 && prevLogIndex > 0
    ensures Describes(ConflictHint(l, prevLogIndex), l.entries, prevLogIndex)
  {
    AtContiguous(l.entries, 0, prevLogIndex);
    LastContiguous(l);
    if prevLogIndex <= |l.entries| { TermFirstFinds(l.entries, 0, l.entries[prevLogIndex - 1].term); }
    hide At, TermFirstIndex;
  }

  /** The follower's new state in memory and on disk, and its answer. */
  ghost predicate AppendDecided(c: Cluster, d: Cluster, s: ServerId, arg: AppendEntriesArg, hint: Conflict) {
    && s in c.servers && s in d.servers && d.servers == c.servers[s := d.servers[s]]
    && var n, m := c.servers[s].node, d.servers[s].node;
    var newer := !n.killed && arg.term > n.currentTerm;
    var es := n.log.entries;
    && d.net == c.net + {AppendReply(s, arg, AppendEntriesReply(Takes(n, arg), m.currentTerm, hint),
                                     if n.killed || arg.term < n.currentTerm then None else Some(es))}
    && m.currentTerm == (if newer then arg.term else n.currentTerm)
    && m.votedFor == (if newer then None else n.votedFor)
    && (Takes(n, arg) ==>
          && arg.prevLogIndex <= |es|
          && m.role == Follower
          && m.log.entries ==
             (if Includes(es, arg.prevLogIndex, arg.entries) then es else es[..arg.prevLogIndex] + arg.entries)
          && m.commitIndex == Max(n.commitIndex, arg.leaderCommit))
    && (!Takes(n, arg) ==>
          && m.role == (if newer then Follower else n.role)
          && m.log == n.log && m.commitIndex == n.commitIndex)
    && (!n.killed && arg.term >= n.currentTerm && !Takes(n, arg) ==> Describes(hint, es, arg.prevLogIndex))
    && m == n.(currentTerm := m.currentTerm, votedFor := m.votedFor, role := m.role, commitIndex := m.commitIndex,
               log := LogState(m.log.entries, 0, 0))
    && d.servers[s] == c.servers[s].(
         node := m,
         disk := c.servers[s].disk.(currentTerm := m.currentTerm, votedFor := m.votedFor, entries := m.log.entries))
  }

  /** The node after a request, on a log that was never compacted. */
  lemma AppendOnPlain(n: Node, arg: AppendEntriesArg, garbage: Conflict)
    requires Plain(n) && Contiguous(n.log.entries, 0) && Contiguous(arg.entries, arg.prevLogIndex)
    requires arg.leaderCommit <= arg.prevLogIndex + |arg.entries|
    ensures var (m, r) := OnAppendEntries(n, arg, garbage);
      && r.success == Takes(n, arg) && r.term == m.currentTerm
      && (Takes(n, arg) ==>
            var es := n.log.entries;
            && arg.prevLogIndex <= |es|
            && m == n.(currentTerm := arg.term, role := Follower,
                       votedFor := if arg.term > n.currentTerm then None else n.votedFor,
                       log := LogState(Overlay(es, arg.prevLogIndex, arg.entries), 0, 0),
                       commitIndex := Max(n.commitIndex, arg.leaderCommit)))
      && (!Takes(n, arg) ==>
            m == if !n.killed && arg.term > n.currentTerm then BecameFollower(n, arg.term) else n)
      && (!n.killed && arg.term >= n.currentTerm && !Takes(n, arg) ==>
            Describes(r.conflict, n.log.entries, arg.prevLogIndex))
  {
    hide Merge, Overlay, Contiguous, Describes;
    AcceptsPlain(n, arg.prevLogIndex, arg.prevLogTerm);
    if Takes(n, arg) {
      MergeIsOverlay(n.log.entries, 0, arg.entries, arg.prevLogIndex);
      OverlayEnds(n.log.entries, arg.entries, arg.prevLogIndex);
    } else if arg.prevLogIndex > 0 {
      HintDescribes(n.log, arg.prevLogIndex);
    }
    hide Accepts, ConflictHint;
  }

  lemma OverlayEnds(es: seq<Entry>, other: seq<Entry>, prev: nat)
    requires Contiguous(es, 0) && Contiguous(other, prev) && prev <= |es|
    ensures LastIndex(LogState(Overlay(es, prev, other), 0, 0)) >= prev + |other|
  {
    assert Contiguous(Overlay(es, prev, other), 0);
    LastContiguous(LogState(Overlay(es, prev, other), 0, 0));
  }

  lemma RequestInOrder(c: Cluster, s: ServerId, arg: AppendEntriesArg)
    requires Inv(c) && AppendRequest(s, arg) in c.net
    ensures Contiguous(arg.entries, arg.prevLogIndex) && arg.leaderCommit <= arg.prevLogIndex + |arg.entries|
  {
    hide Inv, LedgerOk;
    RequestShape(c, s, arg);
    LedgerAt(c.h, arg.term);
    hide Grounded;
    var l := c.h.ledger[arg.term];
    assert forall i :: 0 <= i < |arg.entries| ==> arg.entries[i] == l[arg.prevLogIndex + i];
  }

  lemma DecidesAppend(c: Cluster, d: Cluster, s: ServerId, arg: AppendEntriesArg, garbage: Conflict)
    requires Inv(c) && CanAppend(c, s, arg) && d == DoAppend(c, s, arg, garbage)
    ensures AppendDecided(c, d, s, arg, OnAppendEntries(c.servers[s].node, arg, garbage).1.conflict)
  {
    hide Inv, OnAppendEntries, Fits, HeldLen, Contiguous, AppendEntriesDisk, Describes;
    ShapeOf(c, s);
    LogInOrder(c, s);
    RequestInOrder(c, s, arg);
    AppendOnPlain(c.servers[s].node, arg, garbage);
    assert AppendEntriesDisk(c.servers[s].node, c.servers[s].disk, arg)
        == Persisted(OnAppendEntries(c.servers[s].node, arg, garbage).0)
    by { DiskAfterAppend(c.servers[s].node, c.servers[s].disk, arg, garbage); }
  }

  lemma DiskAfterAppend(n: Node, d: Durable, arg: AppendEntriesArg, garbage: Conflict)
    requires d == Persisted(n)
    ensures AppendEntriesDisk(n, d, arg) == Persisted(OnAppendEntries(n, arg, garbage).0)
  {
    hide Merge, Accepts, ConflictHint;
  }

  /** In every run a live follower takes entries of a term it has not passed if and only if it has the
      preceding entry. Its log is then unchanged where it already contains them and otherwise ends
      with them, and it knows of every commit the leader knew of. If it refuses them, it says what it
      has instead. */
  lemma EntriesTakenIff(members: set<ServerId>, steps: seq<Step>, c: Cluster, s: ServerId, arg: AppendEntriesArg,
                        garbage: Conflict)
    requires Reached(members, steps, c) && Enabled(c, HandleAppend(s, arg, garbage))
    ensures exists hint :: AppendDecided(c, Do(c, HandleAppend(s, arg, garbage)), s, arg, hint)
  {
    hide Inv, AppendDecided, Reached;
    ReachedInv(members, steps, c);
    DecidesAppend(c, Do(c, HandleAppend(s, arg, garbage)), s, arg, garbage);
  }

  // ---- acknowledgements

  /** The leader and the peers known to hold the first k entries are more than half of the servers. */
  ghost predicate ByMajority(c: Cluster, s: ServerId, k: nat)
    requires s in c.servers
  {
    var matchIndex := c.servers[s].node.matchIndex;
    2 * (1 + |set p | p in matchIndex && matchIndex[p] >= k|) > |c.servers|
  }

  /** The leader has recorded what `p` acknowledged, and committed the last entry of its term that
      more than half of the servers are known to hold. */
  ghost predicate AckRecorded(c: Cluster, d: Cluster, s: ServerId, p: ServerId, arg: AppendEntriesArg) {
    && s in c.servers && s in d.servers && d.servers == c.servers[s := d.servers[s]]
    && var n, m := c.servers[s].node, d.servers[s].node;
    var es, reach := n.log.entries, arg.prevLogIndex + |arg.entries|;
    && m == n.(nextIndex := n.nextIndex[p := reach + 1], matchIndex := n.matchIndex[p := reach],
               commitIndex := m.commitIndex)
    && n.commitIndex <= m.commitIndex <= |es|
    && (m.commitIndex > n.commitIndex ==>
          es[m.commitIndex - 1].term == n.currentTerm && ByMajority(d, s, m.commitIndex))
    && (forall k :: m.commitIndex < k <= |es| && es[k - 1].term == n.currentTerm ==> !ByMajority(d, s, k))
    && d.servers[s] == c.servers[s].(node := m, appendCall := c.servers[s].appendCall - {p})
    && d.net == c.net
  }

  /** The leader's entries of its own term come last. */
  lemma OwnEntriesLast(c: Cluster, s: ServerId, k: nat)
    requires Inv(c) && s in c.servers
    requires var n := c.servers[s].node; 1 <= k <= |n.log.entries| && n.log.entries[k - 1].term == n.currentTerm
    ensures var n := c.servers[s].node;
      forall i :: k <= i <= |n.log.entries| ==>
        At(n.log.entries, i).Some? && At(n.log.entries, i).value.term == n.currentTerm
  {
    hide Inv, LedgerOk, Grounded, At;
    var n := c.servers[s].node;
    LogGrounded(c, s);
    TermsReached(c, s);
    GroundedOrdered(c.h, n.log.entries);
    forall i | k <= i <= |n.log.entries|
      ensures At(n.log.entries, i).Some? && At(n.log.entries, i).value.term == n.currentTerm
    {
      AtContiguous(n.log.entries, 0, i);
    }
  }

  lemma TermsReached(c: Cluster, s: ServerId)
    requires Inv(c) && s in c.servers
    ensures TermsBelow(c.servers[s].node.log.entries, c.servers[s].node.currentTerm + 1)
  {
    hide Inv, LedgerOk, Grounded, TermsBelow, HeldAt, ServerKeeps, VoteOk, VoteCallsOk, CandidateOk, LeaderOk;
    hide AppendCallsOk, CommitAt, PipelineOk, ServerShape;
    InvServer(c, s);
  }

  lemma MajorityIs(c: Cluster, s: ServerId, n: Node, k: nat)
    requires s in c.servers && n.matchIndex == c.servers[s].node.matchIndex && n.clusterSize == |c.servers|
    ensures 1 + |Matching(n, k)| >= Majority(n.clusterSize) <==> ByMajority(c, s, k)
  {
    assert Matching(n, k) == set p | p in n.matchIndex && n.matchIndex[p] >= k;
  }

  /** The state after a scan. */
  ghost predicate Scanned(c: Cluster, d: Cluster, s: ServerId, q: Node) {
    && s in c.servers && s in d.servers && |d.servers| == |c.servers| == q.clusterSize
    && var n := c.servers[s].node;
    && q == n.(nextIndex := q.nextIndex, matchIndex := q.matchIndex)
    && q.log.lastIncludedIndex == 0 && Contiguous(q.log.entries, 0) && q.commitIndex <= |q.log.entries|
    && d.servers[s].node == q.(commitIndex := CommitScan(q, LastIndex(q.log)))
  }

  lemma ScanReaches(c: Cluster, d: Cluster, s: ServerId, q: Node)
    requires Scanned(c, d, s, q)
    ensures var m, es := d.servers[s].node, q.log.entries;
      && q.commitIndex <= m.commitIndex <= |es|
      && (m.commitIndex > q.commitIndex ==>
            es[m.commitIndex - 1].term == q.currentTerm && ByMajority(d, s, m.commitIndex))
  {
    hide CommitScan, ByMajority, Matching, Majority;
    var m, es := d.servers[s].node, q.log.entries;
    LastContiguous(q.log);
    CommitScanFinds(q, |es|);
    if m.commitIndex > q.commitIndex {
      AtContiguous(es, 0, m.commitIndex);
      MajorityIs(d, s, q, m.commitIndex);
    }
  }

  lemma ScanMissesNone(c: Cluster, d: Cluster, s: ServerId, q: Node, k: nat)
    requires Inv(c) && Scanned(c, d, s, q)
    requires d.servers[s].node.commitIndex < k <= |q.log.entries| && q.log.entries[k - 1].term == q.currentTerm
    ensures !ByMajority(d, s, k)
  {
    hide Inv, CommitScan, ByMajority, Matching, Majority;
    LastContiguous(q.log);
    OwnEntriesLast(c, s, k);
    CommitScanHighest(q, |q.log.entries|, k);
    MajorityIs(d, s, q, k);
  }

  lemma RecordsAck(c: Cluster, d: Cluster, s: ServerId, p: ServerId, r: AppendEntriesReply, seen: Option<seq<Entry>>)
    requires Inv(c) && CanReceiveAppend(c, s, p, Some(r), seen) && d == DoReceiveAppend(c, s, p, Some(r), seen)
    requires var n := c.servers[s].node;
      && !n.killed && n.role == Leader && r.success
      && r.term == n.currentTerm == c.servers[s].appendCall[p].term
    ensures AckRecorded(c, d, s, p, c.servers[s].appendCall[p])
  {
    hide Inv, CommitScan, ByMajority, CommittedBy, Contiguous;
    var n, arg := c.servers[s].node, c.servers[s].appendCall[p];
    assert d.servers.Keys == c.servers.Keys;
    assert |d.servers| == |d.servers.Keys| == |c.servers.Keys| == |c.servers|;
    ShapeOf(c, s);
    CommittedPrefixOf(c, s);
    LogInOrder(c, s);
    var q := Credit(n, p, arg);
    assert Scanned(c, d, s, q);
    ScanReaches(c, d, s, q);
    forall k | d.servers[s].node.commitIndex < k <= |n.log.entries| && n.log.entries[k - 1].term == n.currentTerm
      ensures !ByMajority(d, s, k)
    {
      ScanMissesNone(c, d, s, q, k);
    }
    hide Scanned, LastIndex;
  }

  /** In every run a live leader that hears of success in its term records it, whatever else it has
      recorded, and then has committed exactly the last entry of its term that more than half of the
      servers are known to hold, if that is beyond what it had committed. */
  lemma SuccessRecorded(members: set<ServerId>, steps: seq<Step>, c: Cluster, s: ServerId, p: ServerId,
                        r: AppendEntriesReply, seen: Option<seq<Entry>>)
    requires Reached(members, steps, c) && Enabled(c, ReceiveAppend(s, p, Some(r), seen))
    requires !c.servers[s].node.killed && c.servers[s].node.role == Leader && r.success
    requires c.servers[s].appendCall[p].term == c.servers[s].node.currentTerm
    ensures AckRecorded(c, Do(c, ReceiveAppend(s, p, Some(r), seen)), s, p, c.servers[s].appendCall[p])
  {
    hide Inv, AckRecorded, OnAppendReply, AppendReplyDisk;
    ReachedInv(members, steps, c);
    SuccessInTerm(members, steps, c, p, c.servers[s].appendCall[p], r, seen);
    hide Reached;
    RecordsAck(c, Do(c, ReceiveAppend(s, p, Some(r), seen)), s, p, r, seen);
  }

  lemma SuccessInTerm(members: set<ServerId>, steps: seq<Step>, c: Cluster, p: ServerId, arg: AppendEntriesArg,
                      r: AppendEntriesReply, seen: Option<seq<Entry>>)
    requires Reached(members, steps, c) && AppendReply(p, arg, r, seen) in c.net && r.success
    ensures r.term == arg.term
  {
    hide Inv, Run, CanRun, AllAnswer;
    InitInv(members);
    InitAnswers(members);
    RunAnswers(Init(members), steps);
    AnswerOf(c, AppendReply(p, arg, r, seen));
  }

  // ---- votes

  /** The candidate has counted the vote, and leads once more than half of the servers are counted. */
  ghost predicate VoteCounted(c: Cluster, d: Cluster, s: ServerId, p: ServerId) {
    && s in c.servers && s in d.servers && d.servers == c.servers[s := d.servers[s]]
    && var n, m := c.servers[s].node, d.servers[s].node;
    && m.votesGranted == n.votesGranted + 1
    && (2 * m.votesGranted > |c.servers| ==>
          && m == n.(votesGranted := m.votesGranted, role := Leader, nextIndex := m.nextIndex,
                     matchIndex := m.matchIndex)
          && m.nextIndex.Keys == m.matchIndex.Keys == c.servers.Keys - {s}
          && (forall q :: q in m.nextIndex ==> m.nextIndex[q] == |n.log.entries| + 1)
          && (forall q :: q in m.matchIndex ==> m.matchIndex[q] == 0))
    && (2 * m.votesGranted <= |c.servers| ==> m == n.(votesGranted := m.votesGranted))
    && d.servers[s] == c.servers[s].(node := m, voteCall := c.servers[s].voteCall - {p})
    && d.net == c.net
  }

  lemma CountsOne(c: Cluster, d: Cluster, s: ServerId, p: ServerId, r: RequestVoteReply)
    requires Inv(c) && CanReceiveVote(c, s, p, Some(r)) && d == DoReceiveVote(c, s, p, Some(r))
    requires CountsVote(c.servers[s].node, c.servers[s].voteCall[p], r)
    ensures VoteCounted(c, d, s, p)
  {
    hide Inv, VoteReplyDisk;
    ShapeOf(c, s);
    LogInOrder(c, s);
    LastContiguous(c.servers[s].node.log);
    hide Contiguous;
    assert |c.servers| == |c.servers.Keys|;
    assert VoteReplyDisk(c.servers[s].node, c.servers[s].disk, Some(r)) == c.servers[s].disk
    by { NoSave(c.servers[s].node, c.servers[s].disk, r); }
  }

  lemma NoSave(n: Node, d: Durable, r: RequestVoteReply)
    requires r.term == n.currentTerm
    ensures VoteReplyDisk(n, d, Some(r)) == d
  {
  }

  // ---- any other answer

  /** A server that hears of a newer term follows in it, in memory and on disk. */
  ghost predicate StepsDown(v: Server, w: Server, term: nat) {
    && w.node == v.node.(currentTerm := term, role := Follower, votedFor := None)
    && w.disk == v.disk.(currentTerm := term, votedFor := None)
  }

  predicate SameNode(v: Server, w: Server) { w.node == v.node && w.disk == v.disk }

  /** Where the leader goes on after a refusal: behind its last entry of the term it is told of, or,
      if it has none, where it is told, within its log. */
  predicate Resumes(es: seq<Entry>, hint: Conflict, next: nat) {
    if forall i :: 0 <= i < |es| ==> es[i].term != hint.term then next == Max(1, Min(hint.index, |es| + 1))
    else 2 <= next <= |es| + 1 && es[next - 2].term == hint.term
         && forall i :: next - 1 <= i < |es| ==> es[i].term != hint.term
  }

  lemma BacktrackResumes(l: LogState, hint: Conflict)
    requires Contiguous(l.entries, 0) && l.lastIncludedIndex == 0
    ensures Resumes(l.entries, hint, Backtrack(l, hint))
  {
    LastContiguous(l);
    TermLastFinds(l.entries, 0, hint.term);
    hide TermLastIndex;
  }

  /** All an append reply can do. */
  ghost predicate AppendReplyDone(c: Cluster, d: Cluster, s: ServerId, p: ServerId, r: Option<AppendEntriesReply>) {
    && s in c.servers && p in c.servers[s].appendCall && s in d.servers && d.servers == c.servers[s := d.servers[s]]
    && var v, w, arg := c.servers[s], d.servers[s], c.servers[s].appendCall[p];
    var n := v.node;
    if n.killed || n.role != Leader || r.None? || r.value.term < n.currentTerm then SameNode(v, w)
    else if r.value.term > n.currentTerm then StepsDown(v, w, r.value.term)
    else if arg.term != n.currentTerm then SameNode(v, w)
    else if r.value.success then AckRecorded(c, d, s, p, arg)
    else
      && p in n.nextIndex && p in w.node.nextIndex && w.disk == v.disk
      && w.node == n.(nextIndex := n.nextIndex[p := w.node.nextIndex[p]])
      && Resumes(n.log.entries, r.value.conflict, w.node.nextIndex[p])
  }

  lemma ProcessesAppendReply(c: Cluster, d: Cluster, s: ServerId, p: ServerId, r: Option<AppendEntriesReply>,
                             seen: Option<seq<Entry>>)
    requires Inv(c) && CanReceiveAppend(c, s, p, r, seen) && d == DoReceiveAppend(c, s, p, r, seen)
    ensures AppendReplyDone(c, d, s, p, r)
  {
    hide Inv, CommitScan, Backtrack, AckRecorded, Resumes;
    ShapeOf(c, s);
    var n, arg := c.servers[s].node, c.servers[s].appendCall[p];
    if r.Some? && !n.killed && n.role == Leader && r.value.term == n.currentTerm == arg.term {
      if r.value.success {
        RecordsAck(c, d, s, p, r.value, seen);
      } else {
        LogInOrder(c, s);
        BacktrackResumes(n.log, r.value.conflict);
      }
    }
    hide Contiguous;
  }

  /** In every run an answer to an append request is ignored by a server that was killed or no longer
      leads and when it is stale; makes the leader follow if it carries a newer term; is recorded if it
      is a success; and otherwise moves the next index to where the hint points. */
  lemma AppendReplyExact(members: set<ServerId>, steps: seq<Step>, c: Cluster, s: ServerId, p: ServerId,
                         r: Option<AppendEntriesReply>, seen: Option<seq<Entry>>)
    requires Reached(members, steps, c) && Enabled(c, ReceiveAppend(s, p, r, seen))
    ensures AppendReplyDone(c, Do(c, ReceiveAppend(s, p, r, seen)), s, p, r)
  {
    hide Inv, AppendReplyDone, Reached, OnAppendReply, AppendReplyDisk;
    ReachedInv(members, steps, c);
    ProcessesAppendReply(c, Do(c, ReceiveAppend(s, p, r, seen)), s, p, r, seen);
  }

  /** All a vote reply can do. */
  ghost predicate VoteReplyDone(c: Cluster, d: Cluster, s: ServerId, p: ServerId, r: Option<RequestVoteReply>) {
    && s in c.servers && p in c.servers[s].voteCall && s in d.servers && d.servers == c.servers[s := d.servers[s]]
    && var v, w, arg := c.servers[s], d.servers[s], c.servers[s].voteCall[p];
    var n := v.node;
    if n.killed || n.role != Candidate || r.None? || r.value.term < n.currentTerm then SameNode(v, w)
    else if r.value.term > n.currentTerm then StepsDown(v, w, r.value.term)
    else if arg.term != n.currentTerm || !r.value.voteGranted then SameNode(v, w)
    else VoteCounted(c, d, s, p)
  }

  lemma ProcessesVoteReply(c: Cluster, d: Cluster, s: ServerId, p: ServerId, r: Option<RequestVoteReply>)
    requires Inv(c) && CanReceiveVote(c, s, p, r) && d == DoReceiveVote(c, s, p, r)
    ensures VoteReplyDone(c, d, s, p, r)
  {
    hide Inv, VoteCounted, Filled;
    ShapeOf(c, s);
    if r.Some? && CountsVote(c.servers[s].node, c.servers[s].voteCall[p], r.value) {
      CountsOne(c, d, s, p, r.value);
    }
  }

  /** In every run an answer to a vote request is ignored by a server that was killed or is no longer
      candidate and when it is stale or a refusal; makes the candidate follow if it carries a newer
      term; and is counted otherwise. */
  lemma VoteReplyExact(members: set<ServerId>, steps: seq<Step>, c: Cluster, s: ServerId, p: ServerId,
                       r: Option<RequestVoteReply>)
    requires Reached(members, steps, c) && Enabled(c, ReceiveVote(s, p, r))
    ensures VoteReplyDone(c, Do(c, ReceiveVote(s, p, r)), s, p, r)
  {
    hide Inv, VoteReplyDone, Reached, OnVoteReply, VoteReplyDisk, CountsVote;
    ReachedInv(members, steps, c);
    ProcessesVoteReply(c, Do(c, ReceiveVote(s, p, r)), s, p, r);
  }

  // ---- sending

  /** The leader's request to `p`: everything from its next index on. */
  predicate Covers(n: Node, p: ServerId, arg: AppendEntriesArg)
    requires p in n.nextIndex
  {
    && 1 <= n.nextIndex[p] <= |n.log.entries| + 1
    && var es, prev := n.log.entries, n.nextIndex[p] - 1;
    arg == AppendEntriesArg(n.selfId, n.currentTerm, prev, if prev == 0 then 0 else es[prev - 1].term,
                               n.commitIndex, es[prev..])
  }

  lemma BuildsRequest(n: Node, p: ServerId)
    requires Plain(n) && Contiguous(n.log.entries, 0) && !n.killed && n.role == Leader
    requires p in n.nextIndex && 1 <= n.nextIndex[p] <= |n.log.entries| + 1
    ensures BuildAppend(n, p).Some? && Covers(n, p, BuildAppend(n, p).value)
  {
    hide At, Suffix;
    var es, prev := n.log.entries, n.nextIndex[p] - 1;
    AtContiguous(es, 0, prev);
    SuffixFrom(es, prev);
    assert FirstIndex(n.log) <= 1;
    hide Contiguous, FirstIndex;
    assert prev == 0 ==> At(es, prev) == None;
    assert prev > 0 ==> At(es, prev) == Some(es[prev - 1]);
  }

  lemma LeaderSends(c: Cluster, s: ServerId, p: ServerId)
    requires Inv(c) && s in c.servers && p in c.servers && p != s
    requires !c.servers[s].node.killed && c.servers[s].node.role == Leader && p !in c.servers[s].appendCall
    ensures CanSendAppend(c, s, p) && p in c.servers[s].node.nextIndex
    ensures var arg := BuildAppend(c.servers[s].node, p).value;
      && Covers(c.servers[s].node, p, arg)
      && var d := DoSendAppend(c, s, p);
      && d.servers == c.servers[s := c.servers[s].(appendCall := c.servers[s].appendCall[p := arg])]
      && d.net == c.net + {AppendRequest(p, arg)}
  {
    hide BuildAppend, Inv, Contiguous;
    InvLeader(c, s);
    ShapeOf(c, s);
    LogInOrder(c, s);
    BuildsRequest(c.servers[s].node, p);
  }

  /** In every run a live leader has a request for every peer it is not waiting for. */
  lemma LeaderAlwaysSends(members: set<ServerId>, steps: seq<Step>, c: Cluster, s: ServerId, p: ServerId)
    requires Reached(members, steps, c) && s in members && p in members && p != s
    requires s in c.servers && !c.servers[s].node.killed && c.servers[s].node.role == Leader
    requires p !in c.servers[s].appendCall
    ensures Enabled(c, SendAppend(s, p)) && p in c.servers[s].node.nextIndex
    ensures exists arg :: Covers(c.servers[s].node, p, arg) && AppendRequest(p, arg) in Do(c, SendAppend(s, p)).net
  {
    hide Inv, Reached, BuildAppend, Covers;
    ReachedInv(members, steps, c);
    LeaderSends(c, s, p);
  }
}
