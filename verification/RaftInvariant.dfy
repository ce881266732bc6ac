/** What every reachable cluster state satisfies. The ledger holds, for each term, the log
    its leader has built; everything else is stated relative to it. */
module RaftInvariant {
  import opened Options
  import opened RaftTypes
  import opened RaftLog
  import opened RaftNode
  import opened RaftCluster

  predicate IsQuorum(c: Cluster, q: set<ServerId>) {
    q <= c.servers.Keys && |q| >= |c.servers| / 2 + 1
  }

  /** Entry i of `es`, and everything before it, is what the leader of its term wrote. */
  predicate GroundedAt(ledger: map<nat, seq<Entry>>, es: seq<Entry>, i: nat)
    requires i < |es|
  {
    var t := es[i].term;
    t in ledger && i < |ledger[t]| && es[..i + 1] == ledger[t][..i + 1]
  }

  predicate Grounded(ledger: map<nat, seq<Entry>>, es: seq<Entry>) {
    forall i :: 0 <= i < |es| ==> GroundedAt(ledger, es, i)
  }

  predicate TermsBelow(es: seq<Entry>, t: nat) {
    forall i :: 0 <= i < |es| ==> es[i].term < t
  }

  /** The log of a candidate is at least as new as the log of its voter. */
  predicate AtLeastAsNew(candidate: seq<Entry>, voter: seq<Entry>) {
    var l := LogState(candidate, 0, 0);
    UpToDate(LogState(voter, 0, 0), LastIndex(l), LastTerm(l))
  }

  predicate ArgDescribes(arg: RequestVoteArg, es: seq<Entry>) {
    var l := LogState(es, 0, 0);
    arg.lastLogIndex == LastIndex(l) && arg.lastLogTerm == LastTerm(l)
  }

  // ---- servers

  /** No compaction has happened on this node. */
  predicate Plain(n: Node) {
    && !n.pendingSnapshot && n.snapshotData == ""
    && n.lastIncludedIndex == 0 && n.lastIncludedTerm == 0
    && n.log.lastIncludedIndex == 0 && n.log.lastIncludedTerm == 0
  }

  predicate ServerShape(members: set<ServerId>, s: ServerId, v: Server) {
    && v.node.selfId == s
    && v.node.clusterSize == |members|
    && v.node.nextIndex.Keys == members - {s}
    && v.node.matchIndex.Keys == members - {s}
    && v.node.shouldStartElection.Keys == members - {s}
    && v.voteCall.Keys <= members - {s}
    && v.appendCall.Keys <= members - {s}
    && Plain(v.node)
    && v.disk == Persisted(v.node)
  }

  ghost predicate Shaped(c: Cluster) {
    && 1 <= |c.servers| <= 255
    && c.h.counted.Keys == c.servers.Keys
    && forall s :: s in c.servers ==> ServerShape(c.servers.Keys, s, c.servers[s])
  }

  // ---- ledger and logs

  predicate LedgerEntry(h: History, t: nat)
    requires t in h.ledger && t in h.elections
  {
    var l, base := h.ledger[t], h.elections[t].base;
    && 1 <= t
    && base <= l
    && TermsBelow(base, t)
    && (forall i :: |base| <= i < |l| ==> l[i].term == t)
    && Contiguous(l, 0)
    && Grounded(h.ledger, l)
  }

  ghost predicate LedgerOk(h: History) {
    && h.ledger.Keys == h.elections.Keys
    && forall t :: t in h.ledger ==> t in h.elections && LedgerEntry(h, t)
  }

  /** A server's log is grounded and contains no entry from a term it has not reached. */
  predicate LogOk(c: Cluster, s: ServerId)
    requires s in c.servers
  {
    var n := c.servers[s].node;
    Grounded(c.h.ledger, n.log.entries) && TermsBelow(n.log.entries, n.currentTerm + 1)
  }

  ghost predicate LogsOk(c: Cluster) {
    forall s :: s in c.servers ==> LogOk(c, s)
  }

  // ---- votes

  /** A ballot is final, was cast in a term the voter has reached, and went to a candidate
      whose log is at least as new. */
  predicate BallotOk(c: Cluster, v: ServerId, t: nat)
    requires (v, t) in c.h.ballots
  {
    var b := c.h.ballots[(v, t)];
    && v in c.servers
    && t <= c.servers[v].node.currentTerm
    && (t == c.servers[v].node.currentTerm ==> c.servers[v].node.votedFor == Some(b.candidate))
    && (b.candidate, t) in c.h.candidacies
    && AtLeastAsNew(c.h.candidacies[(b.candidate, t)], b.log)
    && Grounded(c.h.ledger, b.log)
  }

  predicate CandidacyOk(c: Cluster, x: ServerId, t: nat)
    requires (x, t) in c.h.candidacies
  {
    && (x, t) in c.h.ballots
    && c.h.ballots[(x, t)] == Ballot(x, c.h.candidacies[(x, t)])
    && TermsBelow(c.h.candidacies[(x, t)], t)
    && 1 <= t
  }

  predicate VoteOk(c: Cluster, s: ServerId)
    requires s in c.servers
  {
    var n := c.servers[s].node;
    n.votedFor.Some? ==>
      (s, n.currentTerm) in c.h.ballots && c.h.ballots[(s, n.currentTerm)].candidate == n.votedFor.value
  }

  ghost predicate VotesOk(c: Cluster) {
    && (forall v, t :: (v, t) in c.h.ballots ==> BallotOk(c, v, t))
    && (forall x, t :: (x, t) in c.h.candidacies ==> CandidacyOk(c, x, t))
    && (forall s :: s in c.servers ==> VoteOk(c, s))
  }

  predicate VoteMessageOk(c: Cluster, m: Message) {
    match m
    case VoteRequest(to, arg) =>
      (arg.candidateId, arg.term) in c.h.candidacies && ArgDescribes(arg, c.h.candidacies[(arg.candidateId, arg.term)])
    case VoteReply(from, arg, reply) =>
      reply.voteGranted ==>
        (from, arg.term) in c.h.ballots && c.h.ballots[(from, arg.term)].candidate == arg.candidateId
    case _ => true
  }

  ghost predicate VoteNetOk(c: Cluster) {
    forall m :: m in c.net ==> VoteMessageOk(c, m)
  }

  /** An outstanding vote call was made by this server in a term it has reached. */
  predicate VoteCallsOk(c: Cluster, s: ServerId)
    requires s in c.servers
  {
    var v := c.servers[s];
    forall p :: p in v.voteCall ==> v.voteCall[p].candidateId == s && v.voteCall[p].term <= v.node.currentTerm
  }

  /** While a server is candidate its log is the one it stood with, each counted vote is a
      ballot for it, and no counted peer can answer a second time. */
  predicate CandidateOk(c: Cluster, s: ServerId)
    requires s in c.servers && s in c.h.counted
  {
    var v := c.servers[s];
    var n := v.node;
    var t := n.currentTerm;
    var counted := c.h.counted[s];
    n.role == Candidate ==>
      && (s, t) in c.h.candidacies
      && n.log.entries == c.h.candidacies[(s, t)]
      && n.requestVoteArg == RequestVoteArg(s, t, LastIndex(n.log), LastTerm(n.log))
      && n.votesGranted == |counted|
      && s in counted && counted <= c.servers.Keys
      && (forall p :: p in counted ==> (p, t) in c.h.ballots && c.h.ballots[(p, t)].candidate == s)
      && (forall p :: p in counted && p in n.shouldStartElection ==> !n.shouldStartElection[p])
      && (forall p :: p in counted && p in v.voteCall ==> v.voteCall[p].term < t)
      && (forall p :: p in v.voteCall && v.voteCall[p].term == t && p in n.shouldStartElection ==>
           !n.shouldStartElection[p])
      && (t in c.h.elections ==> c.h.elections[t].leader != s)
  }

  ghost predicate CandidatesOk(c: Cluster)
    requires c.h.counted.Keys == c.servers.Keys
  {
    forall s :: s in c.servers ==> VoteCallsOk(c, s) && CandidateOk(c, s)
  }

  /** The winner of a term was chosen by a majority of ballots. */
  predicate ElectionOk(c: Cluster, t: nat)
    requires t in c.h.elections
  {
    var e := c.h.elections[t];
    && IsQuorum(c, e.voters)
    && (e.leader, t) in c.h.candidacies
    && e.base == c.h.candidacies[(e.leader, t)]
    && (forall v :: v in e.voters ==> (v, t) in c.h.ballots && c.h.ballots[(v, t)].candidate == e.leader)
  }

  ghost predicate ElectionsOk(c: Cluster) {
    forall t :: t in c.h.elections ==> ElectionOk(c, t)
  }

  // ---- replication

  /** `s` has held the first HeldLen entries of the ledger of term t while in term t. */
  predicate HeldAt(c: Cluster, s: ServerId, t: nat)
    requires (s, t) in c.h.held
  {
    && s in c.servers
    && t in c.h.ledger
    && t <= c.servers[s].node.currentTerm
    && c.h.held[(s, t)] <= |c.h.ledger[t]|
    && (t == c.servers[s].node.currentTerm ==>
          c.h.ledger[t][..c.h.held[(s, t)]] <= c.servers[s].node.log.entries)
  }

  ghost predicate HeldOk(c: Cluster) {
    forall s, t :: (s, t) in c.h.held ==> HeldAt(c, s, t)
  }

  predicate LeaderOk(c: Cluster, s: ServerId)
    requires s in c.servers
  {
    var n := c.servers[s].node;
    var t := n.currentTerm;
    n.role == Leader ==>
      && t in c.h.elections && t in c.h.ledger
      && c.h.elections[t].leader == s
      && n.log.entries == c.h.ledger[t]
      && HeldLen(c.h, s, t) == |c.h.ledger[t]|
      && (forall p :: p in n.nextIndex ==> 1 <= n.nextIndex[p] <= |n.log.entries| + 1)
      && (forall p :: p in n.matchIndex ==> n.matchIndex[p] <= HeldLen(c.h, p, t))
  }

  ghost predicate LeadersOk(c: Cluster) {
    forall s :: s in c.servers ==> LeaderOk(c, s)
  }

  /** The servers that hold, or may still come to hold, the first k entries of term t in term t. */
  function Supporters(c: Cluster, t: nat, k: nat): set<ServerId> {
    set s | s in c.servers && (c.servers[s].node.currentTerm <= t || HeldLen(c.h, s, t) >= k)
  }

  /** The servers that have held the first k entries of term t in term t. */
  function Holders(c: Cluster, t: nat, k: nat): set<ServerId> {
    set s | s in c.servers && HeldLen(c.h, s, t) >= k
  }

  /** k is an index the leader of term t wrote itself. */
  predicate Own(h: History, t: nat, k: nat) {
    t in h.ledger && t in h.elections && |h.elections[t].base| < k <= |h.ledger[t]|
  }

  predicate Choosable(c: Cluster, t: nat, k: nat) {
    Own(c.h, t, k) && IsQuorum(c, Supporters(c, t, k))
  }

  predicate Chosen(c: Cluster, t: nat, k: nat) {
    Own(c.h, t, k) && IsQuorum(c, Holders(c, t, k))
  }

  /** What a server held in an earlier term and may still be chosen is in its log now. */
  predicate KeepsAt(c: Cluster, s: ServerId, t: nat, k: nat)
    requires s in c.servers && t in c.h.ledger && k <= |c.h.ledger[t]|
  {
    k <= HeldLen(c.h, s, t) ==> c.h.ledger[t][..k] <= c.servers[s].node.log.entries
  }

  ghost predicate KeptOk(c: Cluster) {
    forall s, t: nat, k: nat :: s in c.servers && t <= c.servers[s].node.currentTerm && Choosable(c, t, k) ==>
      KeepsAt(c, s, t, k)
  }

  /** The same for the log a server had when it voted. */
  predicate BallotKeepsAt(c: Cluster, v: ServerId, u: nat, t: nat, k: nat)
    requires (v, u) in c.h.ballots && t in c.h.ledger && k <= |c.h.ledger[t]|
  {
    k <= HeldLen(c.h, v, t) ==> c.h.ledger[t][..k] <= c.h.ballots[(v, u)].log
  }

  ghost predicate BallotsKeptOk(c: Cluster) {
    forall v, u, t: nat, k: nat :: (v, u) in c.h.ballots && t < u && Choosable(c, t, k) ==> BallotKeepsAt(c, v, u, t, k)
  }

  /** Whatever may be chosen in term t is in the starting log of every later leader. */
  ghost predicate CompleteOk(c: Cluster) {
    forall t: nat, k: nat, u :: Choosable(c, t, k) && u in c.h.elections && t < u ==>
      c.h.ledger[t][..k] <= c.h.elections[u].base
  }

  /** `p` is part of what some leader of a term up to `term` got a majority to hold. */
  ghost predicate CommittedBy(c: Cluster, p: seq<Entry>, term: nat) {
    p == [] || exists t: nat, k: nat :: t <= term && Chosen(c, t, k) && p <= c.h.ledger[t][..k]
  }

  predicate AppendMessageShape(h: History, arg: AppendEntriesArg) {
    && arg.term in h.ledger
    && arg.prevLogIndex + |arg.entries| <= |h.ledger[arg.term]|
    && arg.entries == h.ledger[arg.term][arg.prevLogIndex..arg.prevLogIndex + |arg.entries|]
    && (arg.prevLogIndex > 0 ==> arg.prevLogTerm == h.ledger[arg.term][arg.prevLogIndex - 1].term)
    && arg.leaderCommit <= arg.prevLogIndex + |arg.entries|
  }

  /** A rejection by a server that compared logs: its log really disagrees at prevLogIndex, and
      the hint describes that log. */
  predicate RejectionOk(h: History, arg: AppendEntriesArg, reply: AppendEntriesReply, seen: seq<Entry>) {
    && Grounded(h.ledger, seen)
    && arg.prevLogIndex > 0
    && (arg.prevLogIndex <= |seen| ==> seen[arg.prevLogIndex - 1].term != arg.prevLogTerm)
    && reply.conflict == ConflictHint(LogState(seen, 0, 0), arg.prevLogIndex)
  }

  ghost predicate AppendMessageOk(c: Cluster, m: Message) {
    match m
    case AppendRequest(to, arg) =>
      && AppendMessageShape(c.h, arg)
      && CommittedBy(c, c.h.ledger[arg.term][..arg.leaderCommit], arg.term)
    case AppendReply(from, arg, reply, seen) =>
      && (reply.success ==> arg.prevLogIndex + |arg.entries| <= HeldLen(c.h, from, arg.term))
      && (seen.Some? && !reply.success ==> RejectionOk(c.h, arg, reply, seen.value))
    case _ => true
  }

  ghost predicate AppendNetOk(c: Cluster) {
    forall m :: m in c.net ==> AppendMessageOk(c, m)
  }

  /** An outstanding append call was really sent, and nobody else moves the peer's next index. */
  predicate AppendCallsOk(c: Cluster, s: ServerId)
    requires s in c.servers
  {
    var v := c.servers[s];
    forall p :: p in v.appendCall ==>
      && AppendRequest(p, v.appendCall[p]) in c.net
      && (v.node.role == Leader && v.appendCall[p].term == v.node.currentTerm && p in v.node.nextIndex ==>
            v.node.nextIndex[p] == v.appendCall[p].prevLogIndex + 1)
  }

  ghost predicate CallsOk(c: Cluster) {
    forall s :: s in c.servers ==> AppendCallsOk(c, s)
  }

  // ---- commit and apply

  ghost predicate CommitAt(c: Cluster, s: ServerId)
    requires s in c.servers
  {
    var n := c.servers[s].node;
    && n.commitIndex <= |n.log.entries|
    && CommittedBy(c, n.log.entries[..n.commitIndex], n.currentTerm)
  }

  ghost predicate CommitOk(c: Cluster) {
    forall s :: s in c.servers ==> CommitAt(c, s)
  }

  function Commands(es: seq<Entry>): (r: seq<Command>)
    ensures |r| == |es|
  {
    seq(|es|, i requires 0 <= i < |es| => es[i].command)
  }

  function InSlot(slot: Option<Command>): seq<Command> {
    if slot.Some? then [slot.value] else []
  }

  /** What has been handed to the channel: everything up to lastApplied, plus the entry that
      was sent but not yet recorded. */
  function Delivered(v: Server): seq<Entry>
    requires v.node.lastApplied <= |v.node.log.entries|
  {
    v.node.log.entries[..v.node.lastApplied] + (if v.phase.Sent? then [v.phase.entry] else [])
  }

  predicate PipelineOk(v: Server) {
    && v.node.lastApplied <= v.node.commitIndex <= |v.node.log.entries|
    && (!v.phase.Idle? ==>
          && v.node.lastApplied < v.node.commitIndex
          && v.phase.entry == v.node.log.entries[v.node.lastApplied])
    && v.consumed + InSlot(v.slot) == Commands(Delivered(v))
  }

  /** Everything ever handed to a state machine is part of something chosen. */
  ghost predicate AppliedAt(c: Cluster, e: Entry) {
    exists t: nat, k: nat :: Chosen(c, t, k) && 1 <= e.index <= k && c.h.ledger[t][e.index - 1] == e
  }

  ghost predicate AppliedOk(c: Cluster) {
    && (forall s :: s in c.servers ==> PipelineOk(c.servers[s]))
    && (forall s, e :: (s, e) in c.h.applied ==> AppliedAt(c, e))
  }

  ghost predicate Inv(c: Cluster) {
    && Shaped(c)
    && LedgerOk(c.h)
    && LogsOk(c)
    && VotesOk(c)
    && VoteNetOk(c)
    && CandidatesOk(c)
    && ElectionsOk(c)
    && HeldOk(c)
    && LeadersOk(c)
    && KeptOk(c)
    && BallotsKeptOk(c)
    && CompleteOk(c)
    && AppendNetOk(c)
    && CallsOk(c)
    && CommitOk(c)
    && AppliedOk(c)
  }
}
