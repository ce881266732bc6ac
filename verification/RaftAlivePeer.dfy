/** Backtracking when the peer is never killed: every rejection is one by a server that compared
    logs, so it is exact and it ends. RaftKilledPeer.dfy has the other case. */
module RaftAlivePeer {
  import opened Options
  import opened RaftTypes
  import opened RaftNode
  import opened RaftCluster
  import opened RaftInvariant
  import opened RaftEvolution
  import opened RaftFrame
  import opened RaftSafety
  import opened RaftReplies
  import opened RaftBacktracking

  predicate NeverKilled(steps: seq<Step>, p: ServerId) {
    forall i :: 0 <= i < |steps| ==> steps[i] != Kill(p)
  }

  /** A rejection in the term of its request comes from a handler that compared logs. */
  predicate Read(m: Message, p: ServerId) {
    m.AppendReply? && m.from == p && !m.appendReply.success && m.appendReply.term == m.appendArg.term ==> m.seen.Some?
  }

  ghost predicate Truthful(c: Cluster, p: ServerId) {
    && p in c.servers && !c.servers[p].node.killed
    && forall m :: m in c.net ==> Read(m, p)
  }

  // ---- being alive

  lemma VoteKeepsKilled(n: Node, arg: RequestVoteArg)
    ensures OnRequestVote(n, arg).0.killed == n.killed
  {
  }

  lemma AppendKeepsKilled(n: Node, arg: AppendEntriesArg, garbage: Conflict)
    ensures OnAppendEntries(n, arg, garbage).0.killed == n.killed
  {
  }

  lemma VoteReplyKeepsKilled(n: Node, arg: RequestVoteArg, r: Option<RequestVoteReply>)
    ensures OnVoteReply(n, arg, r).killed == n.killed
  {
  }

  lemma AppendReplyKeepsKilled(n: Node, p: ServerId, arg: AppendEntriesArg, r: Option<AppendEntriesReply>)
    ensures OnAppendReply(n, p, arg, r).killed == n.killed
  {
  }

  lemma StaysAlive(c: Cluster, step: Step, p: ServerId)
    requires Enabled(c, step) && p in c.servers && !c.servers[p].node.killed && step != Kill(p)
    ensures p in Do(c, step).servers && !Do(c, step).servers[p].node.killed
  {
    if step.s != p {
      hide Enabled, Do;
      OthersUntouched(c, step, p);
    } else {
      hide OnAppendReply, OnVoteReply, OnRequestVote, OnAppendEntries, BuildAppend, NewerRequest, Compared;
      hide AppendEntriesDisk, AppendReplyDisk, RequestVoteDisk, VoteReplyDisk, CountsVote, Filled;
      var n := c.servers[p].node;
      match step
      case HandleVote(_, arg) => VoteKeepsKilled(n, arg);
      case HandleAppend(_, arg, garbage) => AppendKeepsKilled(n, arg, garbage);
      case ReceiveVote(_, q, r) => VoteReplyKeepsKilled(n, c.servers[p].voteCall[q], r);
      case ReceiveAppend(_, q, r, _) => AppendReplyKeepsKilled(n, q, c.servers[p].appendCall[q], r);
      case _ =>
    }
  }

  lemma AliveReads(n: Node, arg: AppendEntriesArg, garbage: Conflict)
    requires !n.killed && !n.pendingSnapshot && OnAppendEntries(n, arg, garbage).1.term == arg.term
    ensures Compared(n, arg).Some?
  {
  }

  lemma StepTruthful(c: Cluster, step: Step, p: ServerId)
    requires Inv(c) && Enabled(c, step) && Truthful(c, p) && step != Kill(p)
    ensures Truthful(Do(c, step), p)
  {
    StaysAlive(c, step, p);
    StepAdds(c, step);
    ShapeOf(c, p);
    hide Inv, Enabled, Do, OnAppendEntries, Compared;
    var d := Do(c, step);
    forall m | m in d.net
      ensures Read(m, p)
    {
      if m !in c.net && m.AppendReply? && m.from == p && m.appendReply.term == m.appendArg.term {
        AliveReads(c.servers[p].node, step.append, step.garbage);
      }
    }
  }

  lemma {:induction false} RunTruthful(c: Cluster, steps: seq<Step>, p: ServerId)
    requires Inv(c) && CanRun(c, steps) && Truthful(c, p) && NeverKilled(steps, p)
    ensures Truthful(Run(c, steps), p)
    decreases |steps|
  {
    hide Inv, Truthful, Evolves, Enabled, Do;
    if steps != [] {
      StepInv(c, steps[0]);
      StepTruthful(c, steps[0], p);
      RunTruthful(Do(c, steps[0]), steps[1..], p);
    }
  }

  lemma InitTruthful(members: set<ServerId>, p: ServerId)
    requires p in members
    ensures Truthful(Init(members), p)
  {
  }

  // ---- rejections by such a peer

  /** The reply is a rejection in the leader's term. */
  predicate Refusal(c: Cluster, s: ServerId, p: ServerId, r: Option<AppendEntriesReply>) {
    && s in c.servers && p in c.servers[s].appendCall
    && var n := c.servers[s].node;
    && !n.killed && n.role == Leader && r.Some? && !r.value.success
    && r.value.term == n.currentTerm && c.servers[s].appendCall[p].term == n.currentTerm
  }

  lemma RefusalCompared(c: Cluster, s: ServerId, p: ServerId, r: Option<AppendEntriesReply>, seen: Option<seq<Entry>>)
    requires Truthful(c, p) && CanReceiveAppend(c, s, p, r, seen) && Refusal(c, s, p, r)
    ensures Rejection(c, s, p, r, seen)
  {
    assert Read(AppendReply(p, c.servers[s].appendCall[p], r.value, seen), p);
  }

  /** In every run in which the peer is never killed, a rejection in the leader's term sets its next
      index strictly lower, but not below the end of the common prefix of the leader's log and the
      one the peer compared. */
  lemma AlivePeerExact(members: set<ServerId>, steps: seq<Step>, s: ServerId, p: ServerId,
                       r: Option<AppendEntriesReply>, seen: Option<seq<Entry>>)
    requires 1 <= |members| <= 255 && CanRun(Init(members), steps) && p in members && NeverKilled(steps, p)
    requires var c := Run(Init(members), steps); CanReceiveAppend(c, s, p, r, seen) && Refusal(c, s, p, r)
    ensures var c := Run(Init(members), steps);
      var n, m := c.servers[s].node, DoReceiveAppend(c, s, p, r, seen).servers[s].node;
      && seen.Some? && p in n.nextIndex && p in m.nextIndex
      && CommonLength(n.log.entries, seen.value) + 1 <= m.nextIndex[p] < n.nextIndex[p]
  {
    hide Inv, Truthful, Run, CanRun, CanReceiveAppend, DoReceiveAppend;
    InitInv(members);
    InitTruthful(members, p);
    RunTruthful(Init(members), steps, p);
    RefusalCompared(Run(Init(members), steps), s, p, r, seen);
    BacktrackingExact(members, steps, s, p, r, seen);
  }

  /** `s` leads its present term through all the steps, and every reply it processes from `p` is a
      rejection or no reply at all. */
  ghost predicate OnlyRefusals(c: Cluster, steps: seq<Step>, s: ServerId, p: ServerId, term: nat)
    requires CanRun(c, steps)
    decreases |steps|
  {
    && s in c.servers && c.servers[s].node.role == Leader && c.servers[s].node.currentTerm == term
    && (steps == [] ||
        var step := steps[0];
        && (step.ReceiveAppend? && step.s == s && step.peer == p ==>
              step.appendReply.None? || Refusal(c, s, p, step.appendReply))
        && OnlyRefusals(Do(c, step), steps[1..], s, p, term))
  }

  lemma {:induction false} RefusalsAreRejections(c: Cluster, steps: seq<Step>, s: ServerId, p: ServerId, term: nat)
    requires Inv(c) && CanRun(c, steps) && Truthful(c, p) && NeverKilled(steps, p) && OnlyRefusals(c, steps, s, p, term)
    ensures OnlyRejections(c, steps, s, p, term)
    decreases |steps|
  {
    hide Inv, Truthful, Evolves, Do, CanReceiveAppend, Refusal, Rejection;
    if steps != [] {
      var step := steps[0];
      if step.ReceiveAppend? && step.s == s && step.peer == p && step.appendReply.Some? {
        RefusalCompared(c, s, p, step.appendReply, step.seen);
      }
      StepInv(c, step);
      StepTruthful(c, step, p);
      RefusalsAreRejections(Do(c, step), steps[1..], s, p, term);
    }
  }

  /** In every run in which the peer is never killed, a leader that hears only rejections from it
      hears fewer than its next index for it. */
  lemma AlivePeerEnds(members: set<ServerId>, first: seq<Step>, rest: seq<Step>, s: ServerId, p: ServerId, term: nat)
    requires TwoParts(members, first, rest) && p in members && NeverKilled(first, p) && NeverKilled(rest, p)
    requires OnlyRefusals(Run(Init(members), first), rest, s, p, term)
    requires p in Run(Init(members), first).servers[s].node.nextIndex
    ensures Rejections(rest, s, p) < Run(Init(members), first).servers[s].node.nextIndex[p]
  {
    hide Inv, Truthful, Run, CanRun, Evolves, Rejections, OnlyRefusals, OnlyRejections;
    var c := Run(Init(members), first);
    InitInv(members);
    InitTruthful(members, p);
    RunTruthful(Init(members), first, p);
    TwoPartsInv(members, first, rest);
    RefusalsAreRejections(c, rest, s, p, term);
    BacktrackingEnds(members, first, rest, s, p, term);
  }
}
