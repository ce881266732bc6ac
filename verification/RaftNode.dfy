/** One Raft server as a value, and each locked section of src/include/raft/RaftImpl.hpp
    as a function from the old value to the new one. The class in RaftServer.dfy runs the
    same sections in place. */
module RaftNode {
  import opened Options
  import opened RaftTypes
  import opened RaftLog

  /** What persist() writes and readPersist() reads back. */
  datatype Durable = Durable(
    currentTerm: nat,
    votedFor: Option<ServerId>,
    entries: seq<Entry>,
    snapshotData: string,
    lastIncludedIndex: nat,
    lastIncludedTerm: nat)

  datatype Node = Node(
    selfId: ServerId,
    clusterSize: nat,
    killed: bool,
    pendingSnapshot: bool,
    role: Role,
    currentTerm: nat,
    votedFor: Option<ServerId>,
    log: LogState,
    commitIndex: nat,
    lastApplied: nat,
    nextIndex: map<ServerId, nat>,
    matchIndex: map<ServerId, nat>,
    votesGranted: nat,
    requestVoteArg: RequestVoteArg,
    shouldStartElection: map<ServerId, bool>,
    snapshotData: string,
    lastIncludedIndex: nat,
    lastIncludedTerm: nat)

  /** The constructor stores the size of the full member list in eight bits. */
  function StoredClusterSize(members: set<ServerId>): nat { |members| % 256 }

  function Majority(clusterSize: nat): nat { clusterSize / 2 + 1 }

  function Persisted(n: Node): Durable {
    Durable(n.currentTerm, n.votedFor, n.log.entries, n.snapshotData, n.lastIncludedIndex, n.lastIncludedTerm)
  }

  /** The map that gives every key the same value. */
  function Filled<T>(keys: set<ServerId>, v: T): map<ServerId, T> { map p | p in keys :: v }

  /** A freshly constructed server that has just read its persisted state. */
  function Boot(self: ServerId, members: set<ServerId>, d: Durable): Node {
    Node(
      self, StoredClusterSize(members), false, d.snapshotData != "",
      Follower, d.currentTerm, d.votedFor,
      LogState(Merge([], d.entries), d.lastIncludedIndex, d.lastIncludedTerm),
      0, 0,
      Filled<nat>(members - {self}, 1), Filled<nat>(members - {self}, 0),
      0, RequestVoteArg(ServerId(""), 0, 0, 0),
      Filled(members - {self}, false),
      d.snapshotData, d.lastIncludedIndex, d.lastIncludedTerm)
  }

  /** Adopt a newer term. Sets role, term and vote; persists. */
  function BecameFollower(n: Node, term: nat): Node {
    if term > n.currentTerm then n.(currentTerm := term, role := Follower, votedFor := None) else n
  }

  predicate HasVote(n: Node, candidate: ServerId) {
    n.votedFor.None? || n.votedFor.value == candidate
  }

  /** Whether a log described by its last index and term is at least as new as `l`. */
  predicate UpToDate(l: LogState, lastLogIndex: nat, lastLogTerm: nat) {
    || (LastTerm(l) == lastLogTerm && LastIndex(l) <= lastLogIndex)
    || LastTerm(l) < lastLogTerm
  }

  /** The state after a vote request; requestVoteHandler. */
  function OnRequestVote(n: Node, arg: RequestVoteArg): (Node, RequestVoteReply) {
    if n.killed || arg.term < n.currentTerm then (n, RequestVoteReply(false, n.currentTerm))
    else
      var f := BecameFollower(n, arg.term);
      if HasVote(f, arg.candidateId) && UpToDate(f.log, arg.lastLogIndex, arg.lastLogTerm) then
        (f.(votedFor := Some(arg.candidateId), role := Follower), RequestVoteReply(true, f.currentTerm))
      else
        (f, RequestVoteReply(false, f.currentTerm))
  }

  /** The consistency test on the entry preceding the incoming ones. */
  predicate Accepts(l: LogState, lastIncludedIndex: nat, lastIncludedTerm: nat, prevLogIndex: nat, prevLogTerm: nat) {
    var e := At(l.entries, prevLogIndex);
    || prevLogIndex == 0
    || (e.Some? && e.value.term == prevLogTerm)
    || (e.None? && prevLogIndex == lastIncludedIndex && prevLogTerm == lastIncludedTerm)
  }

  /** The hint sent back with a rejection. */
  function ConflictHint(l: LogState, prevLogIndex: nat): Conflict {
    var e := At(l.entries, prevLogIndex);
    if e.Some? then Conflict(e.value.term, TermFirstIndex(l.entries, e.value.term))
    else Conflict(0, LastIndex(l) + 1)
  }

  /** The state after an append request; appendEntriesHandler. The code leaves the conflict
      fields of a reply uninitialised except on a real rejection: `garbage` is what they hold. */
  function OnAppendEntries(n: Node, arg: AppendEntriesArg, garbage: Conflict): (Node, AppendEntriesReply) {
    if n.killed || n.pendingSnapshot || arg.term < n.currentTerm then
      (n, AppendEntriesReply(false, n.currentTerm, garbage))
    else
      var f := BecameFollower(n, arg.term);
      if Accepts(f.log, f.lastIncludedIndex, f.lastIncludedTerm, arg.prevLogIndex, arg.prevLogTerm) then
        var l := f.log.(entries := Merge(f.log.entries, arg.entries));
        var commit := if arg.leaderCommit > f.commitIndex then Min(arg.leaderCommit, LastIndex(l)) else f.commitIndex;
        (f.(log := l, role := Follower, commitIndex := commit), AppendEntriesReply(true, f.currentTerm, garbage))
      else
        (f, AppendEntriesReply(false, f.currentTerm, ConflictHint(f.log, arg.prevLogIndex)))
  }

  /** An election timeout fires; initVote. */
  function InitVote(n: Node): Node {
    if n.role == Leader then n
    else
      var term := n.currentTerm + 1;
      n.(role := Candidate,
         currentTerm := term,
         votedFor := Some(n.selfId),
         requestVoteArg := RequestVoteArg(n.selfId, term, LastIndex(n.log), LastTerm(n.log)),
         votesGranted := 1,
         shouldStartElection := Filled(n.shouldStartElection.Keys, true))
  }

  /** When the vote thread of `peer` wakes up and sends requestVoteArg. */
  predicate WantsVote(n: Node, peer: ServerId) {
    !n.killed && n.role == Candidate && peer in n.shouldStartElection && n.shouldStartElection[peer]
  }

  function TakeVoteTurn(n: Node, peer: ServerId): Node {
    n.(shouldStartElection := n.shouldStartElection[peer := false])
  }

  /** Whether a reply to `arg` adds a vote in the current candidacy. */
  predicate CountsVote(n: Node, arg: RequestVoteArg, reply: RequestVoteReply) {
    && !n.killed && n.role == Candidate
    && reply.term == n.currentTerm && arg.term == n.currentTerm && reply.voteGranted
  }

  /** Reply processing of the vote thread; requestVote after the call returns. */
  function OnVoteReply(n: Node, arg: RequestVoteArg, reply: Option<RequestVoteReply>): Node {
    if n.killed || n.role != Candidate || reply.None? then n
    else if reply.value.term > n.currentTerm then BecameFollower(n, reply.value.term)
    else if !CountsVote(n, arg, reply.value) then n
    else
      var v := n.votesGranted + 1;
      if v < Majority(n.clusterSize) then n.(votesGranted := v)
      else
        n.(votesGranted := v,
           role := Leader,
           nextIndex := Filled<nat>(n.nextIndex.Keys, LastIndex(n.log) + 1),
           matchIndex := Filled<nat>(n.matchIndex.Keys, 0))
  }

  /** The argument the append thread of `peer` builds, None when it sends nothing (or would
      send a snapshot instead). */
  function BuildAppend(n: Node, peer: ServerId): Option<AppendEntriesArg> {
    if n.killed || n.role != Leader || peer !in n.nextIndex then None
    else
      var next := n.nextIndex[peer];
      if next == 0 || FirstIndex(n.log) > next then None
      else
        var prev := next - 1;
        var e := At(n.log.entries, prev);
        if e.None? && prev > n.lastIncludedIndex then None
        else
          var prevTerm := if e.Some? then e.value.term else n.lastIncludedTerm;
          Some(AppendEntriesArg(n.selfId, n.currentTerm, prev, prevTerm, n.commitIndex, Suffix(n.log.entries, next)))
  }

  /** Peers known to hold the log up to `index`. */
  function Matching(n: Node, index: nat): set<ServerId> {
    set p | p in n.matchIndex && n.matchIndex[p] >= index
  }

  /** The commit scan: the highest current-term index above commitIndex held by a majority,
      or commitIndex when there is none. */
  function CommitScan(n: Node, i: nat): nat
    decreases i
  {
    var e := At(n.log.entries, i);
    if i <= n.commitIndex || e.None? || e.value.term != n.currentTerm then n.commitIndex
    else if 1 + |Matching(n, i)| >= Majority(n.clusterSize) then i
    else CommitScan(n, i - 1)
  }

  /** Where the leader continues after a rejection. */
  function Backtrack(l: LogState, hint: Conflict): nat {
    var last := TermLastIndex(l.entries, hint.term);
    var next := if last != 0 then last + 1 else hint.index;
    Max(1, Min(next, LastIndex(l) + 1))
  }

  /** The leader with what `peer` has just acknowledged recorded. */
  function Credit(n: Node, peer: ServerId, arg: AppendEntriesArg): Node {
    n.(nextIndex := n.nextIndex[peer := arg.prevLogIndex + 1 + |arg.entries|],
       matchIndex := n.matchIndex[peer := arg.prevLogIndex + |arg.entries|])
  }

  /** Reply processing of the append thread; appendEntries after the call returns. */
  function OnAppendReply(n: Node, peer: ServerId, arg: AppendEntriesArg, reply: Option<AppendEntriesReply>): Node {
    if n.killed || n.role != Leader || reply.None? then n
    else if reply.value.term > n.currentTerm then BecameFollower(n, reply.value.term)
    else if reply.value.term < n.currentTerm || arg.term != n.currentTerm then n
    else if reply.value.success then
      var m := Credit(n, peer, arg);
      m.(commitIndex := CommitScan(m, LastIndex(m.log)))
    else
      n.(nextIndex := n.nextIndex[peer := Backtrack(n.log, reply.value.conflict)])
  }

  /** A client command reaches a server; start. */
  predicate CanStart(n: Node) { !n.killed && n.role == Leader && !n.pendingSnapshot }

  function NewEntry(n: Node, command: Command): Entry {
    Entry(LastIndex(n.log) + 1, n.currentTerm, command)
  }

  function OnStart(n: Node, command: Command): Node {
    if !CanStart(n) then n
    else n.(log := n.log.(entries := n.log.entries + [NewEntry(n, command)]))
  }

  predicate SnapshotIgnored(n: Node, index: nat) {
    n.killed || n.pendingSnapshot || index < n.lastIncludedIndex || index > LastIndex(n.log)
  }

  /** The service hands over a snapshot that covers the log up to `index`; snapshot. */
  function OnSnapshot(n: Node, index: nat, data: string): Node {
    if SnapshotIgnored(n, index) then n
    else if index == n.lastIncludedIndex then n.(snapshotData := data)
    else
      var e := At(n.log.entries, index);
      var term := if e.Some? then e.value.term else 0;
      n.(lastIncludedIndex := index, lastIncludedTerm := term,
         log := TrimPrefix(n.log, index, term), snapshotData := data)
  }

  // What the disk `d` holds after each section: persist() runs only on the paths below.

  function BecameFollowerDisk(n: Node, d: Durable, term: nat): Durable {
    if term > n.currentTerm then Persisted(BecameFollower(n, term)) else d
  }

  function RequestVoteDisk(n: Node, d: Durable, arg: RequestVoteArg): Durable {
    if n.killed || arg.term < n.currentTerm then d
    else if OnRequestVote(n, arg).1.voteGranted then Persisted(OnRequestVote(n, arg).0)
    else BecameFollowerDisk(n, d, arg.term)
  }

  function AppendEntriesDisk(n: Node, d: Durable, arg: AppendEntriesArg): Durable {
    var garbage := Conflict(0, 0);
    if n.killed || n.pendingSnapshot || arg.term < n.currentTerm then d
    else if OnAppendEntries(n, arg, garbage).1.success then Persisted(OnAppendEntries(n, arg, garbage).0)
    else BecameFollowerDisk(n, d, arg.term)
  }

  function VoteReplyDisk(n: Node, d: Durable, reply: Option<RequestVoteReply>): Durable {
    if n.killed || n.role != Candidate || reply.None? then d else BecameFollowerDisk(n, d, reply.value.term)
  }

  function AppendReplyDisk(n: Node, d: Durable, reply: Option<AppendEntriesReply>): Durable {
    if n.killed || n.role != Leader || reply.None? then d else BecameFollowerDisk(n, d, reply.value.term)
  }
}
