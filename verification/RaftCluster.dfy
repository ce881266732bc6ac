/** A cluster of servers over a network that may lose, repeat, delay and reorder messages,
    where any server may crash at any time and restart from its disk. Every locked section
    of a server is one step. No step compacts a log. */
module RaftCluster {
  import opened Options
  import opened RaftTypes
  import opened RaftLog
  import opened RaftNode

  /** Every message ever sent; delivery does not remove it. A reply travels with the argument
      it answers, since the caller knows what it asked. `seen` records the log the request was
      compared with, if the handler got that far. */
  datatype Message =
    | VoteRequest(to: ServerId, voteArg: RequestVoteArg)
    | VoteReply(from: ServerId, voteArg: RequestVoteArg, voteReply: RequestVoteReply)
    | AppendRequest(to: ServerId, appendArg: AppendEntriesArg)
    | AppendReply(from: ServerId, appendArg: AppendEntriesArg, appendReply: AppendEntriesReply,
                  seen: Option<seq<Entry>>)

  /** Where the apply loop of a server stands: nobody applies, an entry has been read and is
      being sent, or it has been handed to the channel and lastApplied is not yet advanced. */
  datatype ApplyPhase = Idle | Sending(entry: Entry) | Sent(entry: Entry)

  /** A server process: node state, disk, the outstanding call of each peer thread, and the
      channel to the state machine with everything consumed from it so far. */
  datatype Server = Server(
    node: Node,
    disk: Durable,
    voteCall: map<ServerId, RequestVoteArg>,
    appendCall: map<ServerId, AppendEntriesArg>,
    phase: ApplyPhase,
    slot: Option<Command>,
    closed: bool,
    consumed: seq<Command>)

  /** A vote cast: for whom, and the voter's log at that moment. */
  datatype Ballot = Ballot(candidate: ServerId, log: seq<Entry>)

  /** A leadership: who won, with whose votes, and the log it started from. */
  datatype Election = Election(leader: ServerId, voters: set<ServerId>, base: seq<Entry>)

  /** What happened so far. No transition reads it. */
  datatype History = History(
    candidacies: map<(ServerId, nat), seq<Entry>>,
    ballots: map<(ServerId, nat), Ballot>,
    counted: map<ServerId, set<ServerId>>,
    elections: map<nat, Election>,
    ledger: map<nat, seq<Entry>>,
    held: map<(ServerId, nat), nat>,
    applied: set<(ServerId, Entry)>)

  datatype Cluster = Cluster(servers: map<ServerId, Server>, net: set<Message>, h: History)

  datatype Step =
    | ElectionTimeout(s: ServerId)
    | SendVote(s: ServerId, peer: ServerId)
    | HandleVote(s: ServerId, vote: RequestVoteArg)
    | ReceiveVote(s: ServerId, peer: ServerId, voteReply: Option<RequestVoteReply>)
    | SendAppend(s: ServerId, peer: ServerId)
    | HandleAppend(s: ServerId, append: AppendEntriesArg, garbage: Conflict)
    | ReceiveAppend(s: ServerId, peer: ServerId, appendReply: Option<AppendEntriesReply>, seen: Option<seq<Entry>>)
    | ClientStart(s: ServerId, command: Command)
    | Kill(s: ServerId)
    | Restart(s: ServerId)
    | CrashInHandler(s: ServerId, term: nat)
    | ApplyRead(s: ServerId)
    | ApplySend(s: ServerId)
    | Pipeline(s: ServerId, move: PipelineMove)

  function Fresh(self: ServerId, members: set<ServerId>, d: Durable): Server {
    Server(Boot(self, members, d), d, map[], map[], Idle, None, false, [])
  }

  const NEW_DISK: Durable := Durable(0, None, [], "", 0, 0)

  function Init(members: set<ServerId>): Cluster {
    Cluster(
      map s | s in members :: Fresh(s, members, NEW_DISK),
      {},
      History(map[], map[], map s | s in members :: {}, map[], map[], map[], {}))
  }

  function HeldLen(h: History, s: ServerId, term: nat): nat {
    if (s, term) in h.held then h.held[(s, term)] else 0
  }

  /** A request with a newer term is on its way to `s`. */
  ghost predicate NewerRequest(c: Cluster, s: ServerId, term: nat) {
    || (exists a :: VoteRequest(s, a) in c.net && a.term == term)
    || (exists a :: AppendRequest(s, a) in c.net && a.term == term)
  }

  /** The cluster with server `s` replaced. */
  function With(c: Cluster, s: ServerId, v: Server): Cluster { c.(servers := c.servers[s := v]) }

  // ---- elections

  predicate CanTimeout(c: Cluster, s: ServerId) {
    s in c.servers && c.servers[s].node.role != Leader
  }

  function DoTimeout(c: Cluster, s: ServerId): Cluster
    requires CanTimeout(c, s)
  {
    var v := c.servers[s];
    var n := InitVote(v.node);
    var log := v.node.log.entries;
    With(c, s, v.(node := n, disk := Persisted(n)))
      .(h := c.h.(candidacies := c.h.candidacies[(s, n.currentTerm) := log],
                  ballots := c.h.ballots[(s, n.currentTerm) := Ballot(s, log)],
                  counted := c.h.counted[s := {s}]))
  }

  predicate CanSendVote(c: Cluster, s: ServerId, p: ServerId) {
    s in c.servers && WantsVote(c.servers[s].node, p) && p !in c.servers[s].voteCall
  }

  function DoSendVote(c: Cluster, s: ServerId, p: ServerId): Cluster
    requires CanSendVote(c, s, p)
  {
    var v := c.servers[s];
    var arg := v.node.requestVoteArg;
    With(c, s, v.(node := TakeVoteTurn(v.node, p), voteCall := v.voteCall[p := arg]))
      .(net := c.net + {VoteRequest(p, arg)})
  }

  predicate CanVote(c: Cluster, s: ServerId, arg: RequestVoteArg) {
    s in c.servers && VoteRequest(s, arg) in c.net
  }

  function DoVote(c: Cluster, s: ServerId, arg: RequestVoteArg): Cluster
    requires CanVote(c, s, arg)
  {
    var v := c.servers[s];
    var (n, reply) := OnRequestVote(v.node, arg);
    var ballots :=
      if reply.voteGranted && (s, arg.term) !in c.h.ballots
      then c.h.ballots[(s, arg.term) := Ballot(arg.candidateId, v.node.log.entries)]
      else c.h.ballots;
    With(c, s, v.(node := n, disk := RequestVoteDisk(v.node, v.disk, arg)))
      .(net := c.net + {VoteReply(s, arg, reply)}, h := c.h.(ballots := ballots))
  }

  predicate CanReceiveVote(c: Cluster, s: ServerId, p: ServerId, r: Option<RequestVoteReply>) {
    && s in c.servers && p in c.servers[s].voteCall
    && (r.Some? ==> VoteReply(p, c.servers[s].voteCall[p], r.value) in c.net)
  }

  function CountedOf(h: History, s: ServerId): set<ServerId> {
    if s in h.counted then h.counted[s] else {}
  }

  function DoReceiveVote(c: Cluster, s: ServerId, p: ServerId, r: Option<RequestVoteReply>): Cluster
    requires CanReceiveVote(c, s, p, r)
  {
    var v := c.servers[s];
    var arg := v.voteCall[p];
    var n := OnVoteReply(v.node, arg, r);
    var counts := r.Some? && CountsVote(v.node, arg, r.value);
    var voters := if counts then CountedOf(c.h, s) + {p} else CountedOf(c.h, s);
    var log := v.node.log.entries;
    var h := c.h.(counted := c.h.counted[s := voters]);
    With(c, s, v.(node := n, disk := VoteReplyDisk(v.node, v.disk, r), voteCall := v.voteCall - {p}))
      .(h := if counts && n.role == Leader
             then h.(elections := h.elections[n.currentTerm := Election(s, voters, log)],
                     ledger := h.ledger[n.currentTerm := log],
                     held := h.held[(s, n.currentTerm) := |log|])
             else h)
  }

  // ---- replication

  predicate CanSendAppend(c: Cluster, s: ServerId, p: ServerId) {
    s in c.servers && BuildAppend(c.servers[s].node, p).Some? && p !in c.servers[s].appendCall
  }

  function DoSendAppend(c: Cluster, s: ServerId, p: ServerId): Cluster
    requires CanSendAppend(c, s, p)
  {
    var v := c.servers[s];
    var arg := BuildAppend(v.node, p).value;
    With(c, s, v.(appendCall := v.appendCall[p := arg])).(net := c.net + {AppendRequest(p, arg)})
  }

  /** The log an append request is checked against; None when it is turned away unread. */
  function Compared(n: Node, arg: AppendEntriesArg): Option<seq<Entry>> {
    if n.killed || n.pendingSnapshot || arg.term < n.currentTerm then None else Some(n.log.entries)
  }

  predicate CanAppend(c: Cluster, s: ServerId, arg: AppendEntriesArg) {
    s in c.servers && AppendRequest(s, arg) in c.net
  }

  function DoAppend(c: Cluster, s: ServerId, arg: AppendEntriesArg, garbage: Conflict): Cluster
    requires CanAppend(c, s, arg)
  {
    var v := c.servers[s];
    var (n, reply) := OnAppendEntries(v.node, arg, garbage);
    var reach := Max(HeldLen(c.h, s, arg.term), arg.prevLogIndex + |arg.entries|);
    With(c, s, v.(node := n, disk := AppendEntriesDisk(v.node, v.disk, arg)))
      .(net := c.net + {AppendReply(s, arg, reply, Compared(v.node, arg))},
        h := if reply.success then c.h.(held := c.h.held[(s, arg.term) := reach]) else c.h)
  }

  predicate CanReceiveAppend(c: Cluster, s: ServerId, p: ServerId, r: Option<AppendEntriesReply>,
                             seen: Option<seq<Entry>>) {
    && s in c.servers && p in c.servers[s].appendCall
    && (r.Some? ==> AppendReply(p, c.servers[s].appendCall[p], r.value, seen) in c.net)
  }

  function DoReceiveAppend(c: Cluster, s: ServerId, p: ServerId, r: Option<AppendEntriesReply>,
                           seen: Option<seq<Entry>>): Cluster
    requires CanReceiveAppend(c, s, p, r, seen)
  {
    var v := c.servers[s];
    With(c, s, v.(node := OnAppendReply(v.node, p, v.appendCall[p], r),
                 disk := AppendReplyDisk(v.node, v.disk, r),
                 appendCall := v.appendCall - {p}))
  }

  predicate CanClientStart(c: Cluster, s: ServerId) {
    s in c.servers && CanStart(c.servers[s].node)
  }

  function DoClientStart(c: Cluster, s: ServerId, command: Command): Cluster
    requires CanClientStart(c, s)
  {
    var v := c.servers[s];
    var n := OnStart(v.node, command);
    With(c, s, v.(node := n, disk := Persisted(n)))
      .(h := c.h.(ledger := c.h.ledger[n.currentTerm := n.log.entries],
                  held := c.h.held[(s, n.currentTerm) := |n.log.entries|]))
  }

  // ---- crashes

  function DoKill(c: Cluster, s: ServerId): Cluster
    requires s in c.servers
  {
    With(c, s, c.servers[s].(node := c.servers[s].node.(killed := true)))
  }

  function DoRestart(c: Cluster, s: ServerId): Cluster
    requires s in c.servers
  {
    With(c, s, Fresh(s, c.servers.Keys, c.servers[s].disk))
  }

  /** A handler adopts a newer term, saves it, and dies before its second save. */
  ghost predicate CanCrashInHandler(c: Cluster, s: ServerId, term: nat) {
    && s in c.servers && !c.servers[s].node.killed
    && term > c.servers[s].node.currentTerm && NewerRequest(c, s, term)
  }

  function DoCrashInHandler(c: Cluster, s: ServerId, term: nat): Cluster
    requires s in c.servers
  {
    With(c, s, Fresh(s, c.servers.Keys, Persisted(BecameFollower(c.servers[s].node, term))))
  }

  // ---- applying

  predicate CanApplyRead(c: Cluster, s: ServerId) {
    && s in c.servers
    && var v := c.servers[s];
    && v.phase == Idle && !v.node.pendingSnapshot
    && v.node.lastApplied < v.node.commitIndex
    && At(v.node.log.entries, v.node.lastApplied + 1).Some?
  }

  function DoApplyRead(c: Cluster, s: ServerId): Cluster
    requires CanApplyRead(c, s)
  {
    var v := c.servers[s];
    With(c, s, v.(phase := Sending(At(v.node.log.entries, v.node.lastApplied + 1).value)))
  }

  predicate CanApplySend(c: Cluster, s: ServerId) {
    s in c.servers && c.servers[s].phase.Sending? && c.servers[s].slot.None? && !c.servers[s].closed
  }

  function DoApplySend(c: Cluster, s: ServerId): Cluster
    requires CanApplySend(c, s)
  {
    var v := c.servers[s];
    With(c, s, v.(phase := Sent(v.phase.entry), slot := Some(v.phase.entry.command)))
      .(h := c.h.(applied := c.h.applied + {(s, v.phase.entry)}))
  }

  datatype PipelineMove = GiveUp | Advance | Take | Close

  /** The rest of the apply loop and its consumer: the send times out, lastApplied advances,
      the consumer takes the command, the channel is closed. */
  predicate CanMove(v: Server, move: PipelineMove) {
    match move
    case GiveUp => v.phase.Sending?
    case Advance => v.phase.Sent?
    case Take => v.slot.Some?
    case Close => true
  }

  function Move(v: Server, move: PipelineMove): Server
    requires CanMove(v, move)
  {
    match move
    case GiveUp => v.(phase := Idle)
    case Advance => v.(phase := Idle, node := v.node.(lastApplied := v.phase.entry.index))
    case Take => v.(slot := None, consumed := v.consumed + [v.slot.value])
    case Close => v.(closed := true)
  }

  // ---- runs

  ghost predicate Enabled(c: Cluster, step: Step) {
    match step
    case ElectionTimeout(s) => CanTimeout(c, s)
    case SendVote(s, p) => CanSendVote(c, s, p)
    case HandleVote(s, arg) => CanVote(c, s, arg)
    case ReceiveVote(s, p, r) => CanReceiveVote(c, s, p, r)
    case SendAppend(s, p) => CanSendAppend(c, s, p)
    case HandleAppend(s, arg, _) => CanAppend(c, s, arg)
    case ReceiveAppend(s, p, r, seen) => CanReceiveAppend(c, s, p, r, seen)
    case ClientStart(s, _) => CanClientStart(c, s)
    case Kill(s) => s in c.servers
    case Restart(s) => s in c.servers
    case CrashInHandler(s, term) => CanCrashInHandler(c, s, term)
    case ApplyRead(s) => CanApplyRead(c, s)
    case ApplySend(s) => CanApplySend(c, s)
    case Pipeline(s, move) => s in c.servers && CanMove(c.servers[s], move)
  }

  ghost function Do(c: Cluster, step: Step): Cluster
    requires Enabled(c, step)
  {
    match step
    case ElectionTimeout(s) => DoTimeout(c, s)
    case SendVote(s, p) => DoSendVote(c, s, p)
    case HandleVote(s, arg) => DoVote(c, s, arg)
    case ReceiveVote(s, p, r) => DoReceiveVote(c, s, p, r)
    case SendAppend(s, p) => DoSendAppend(c, s, p)
    case HandleAppend(s, arg, garbage) => DoAppend(c, s, arg, garbage)
    case ReceiveAppend(s, p, r, seen) => DoReceiveAppend(c, s, p, r, seen)
    case ClientStart(s, command) => DoClientStart(c, s, command)
    case Kill(s) => DoKill(c, s)
    case Restart(s) => DoRestart(c, s)
    case CrashInHandler(s, term) => DoCrashInHandler(c, s, term)
    case ApplyRead(s) => DoApplyRead(c, s)
    case ApplySend(s) => DoApplySend(c, s)
    case Pipeline(s, move) => With(c, s, Move(c.servers[s], move))
  }

  /** The steps can be taken one after the other from `c`. */
  ghost predicate CanRun(c: Cluster, steps: seq<Step>)
    decreases |steps|
  {
    steps == [] || (Enabled(c, steps[0]) && CanRun(Do(c, steps[0]), steps[1..]))
  }

  ghost function Run(c: Cluster, steps: seq<Step>): Cluster
    requires CanRun(c, steps)
    decreases |steps|
  {
    if steps == [] then c else Run(Do(c, steps[0]), steps[1..])
  }

  lemma {:induction false} RunConcat(c: Cluster, first: seq<Step>, rest: seq<Step>)
    requires CanRun(c, first) && CanRun(Run(c, first), rest)
    ensures CanRun(c, first + rest) && Run(c, first + rest) == Run(Run(c, first), rest)
    decreases |first|
  {
    hide Enabled, Do;
    if first == [] {
      assert first + rest == rest;
    } else {
      RunConcat(Do(c, first[0]), first[1..], rest);
      assert (first + rest)[1..] == first[1..] + rest;
    }
  }

  /** A run can be cut anywhere. */
  lemma {:induction false} RunSplit(c: Cluster, steps: seq<Step>, k: nat)
    requires CanRun(c, steps) && k <= |steps|
    ensures CanRun(c, steps[..k]) && CanRun(Run(c, steps[..k]), steps[k..])
    ensures Run(Run(c, steps[..k]), steps[k..]) == Run(c, steps)
    decreases k
  {
    hide Enabled, Do;
    if k == 0 {
      assert steps[..0] == [] && steps[0..] == steps;
    } else {
      RunSplit(Do(c, steps[0]), steps[1..], k - 1);
      assert steps[..k][1..] == steps[1..][..k - 1] && steps[k..] == steps[1..][k - 1..];
    }
  }

  /** A step touches no other server. */
  lemma OthersUntouched(c: Cluster, step: Step, x: ServerId)
    requires Enabled(c, step) && x in c.servers && x != step.s
    ensures x in Do(c, step).servers && Do(c, step).servers[x] == c.servers[x]
  {
    hide OnAppendReply, OnAppendEntries, OnVoteReply, OnRequestVote, OnStart, InitVote, BuildAppend, TakeVoteTurn;
    hide Fresh, BecameFollower, Move;
    hide AppendEntriesDisk, AppendReplyDisk, RequestVoteDisk, VoteReplyDisk, Compared, CountsVote, NewerRequest;
    hide CanMove, At;
  }
}
