/** How a leader finds where a follower's log departs from its own. */
module RaftBacktracking {
  import opened Options
  import opened RaftTypes
  import opened RaftLog
  import opened RaftNode
  import opened RaftCluster
  import opened RaftInvariant
  import opened RaftEvolution
  import opened RaftFrame
  import opened RaftSafety

  /** Length of the longest common prefix. */
  function CommonLength(a: seq<Entry>, b: seq<Entry>): (k: nat)
    ensures k <= |a| && k <= |b|
    ensures a[..k] == b[..k]
    ensures forall i :: 0 <= i < k ==> a[i] == b[i]
    ensures k < |a| && k < |b| ==> a[k] != b[k]
  {
    if a == [] || b == [] || a[0] != b[0] then 0
    else
      var k := CommonLength(a[1..], b[1..]);
      assert a[..k + 1] == [a[0]] + a[1..][..k] && b[..k + 1] == [b[0]] + b[1..][..k];
      assert forall i :: 0 < i < k + 1 ==> a[i] == a[1..][i - 1] && b[i] == b[1..][i - 1];
      k + 1
  }

  lemma CommonLengthMax(a: seq<Entry>, b: seq<Entry>, j: nat)
    requires j <= |a| && j <= |b| && a[..j] == b[..j]
    ensures j <= CommonLength(a, b)
  {
    assert forall i :: 0 <= i < j ==> a[i] == a[..j][i] && b[i] == b[..j][i];
  }

  /** Acceptance tests exactly whether the preceding entry is part of the common prefix. */
  lemma AcceptsIffCommon(ledger: map<nat, seq<Entry>>, a: seq<Entry>, b: seq<Entry>, prev: nat)
    requires Grounded(ledger, a) && Grounded(ledger, b) && prev <= |a|
    ensures (prev == 0 || (prev <= |b| && b[prev - 1].term == a[prev - 1].term)) <==> prev <= CommonLength(a, b)
  {
    var k := CommonLength(a, b);
    if 0 < prev <= k {
      assert a[..k][prev - 1] == b[..k][prev - 1];
    } else if 0 < prev <= |b| && b[prev - 1].term == a[prev - 1].term {
      GroundedAgree(ledger, a, b, prev - 1);
      CommonLengthMax(a, b, prev);
    }
  }

  /** All entries of one term in a grounded log sit where the leader of that term wrote them,
      so two logs that both contain the term agree on where its run begins. */
  lemma TermRun(h: History, a: seq<Entry>, b: seq<Entry>, i: nat, j: nat)
    requires LedgerOk(h) && Grounded(h.ledger, a) && Grounded(h.ledger, b)
    requires i < |a| && j < |b| && i <= j && a[i].term == b[j].term
    ensures forall k :: i <= k <= j ==> b[k].term == a[i].term
    ensures a[..i + 1] == b[..i + 1]
  {
    var t := a[i].term;
    assert GroundedAt(h.ledger, a, i) && GroundedAt(h.ledger, b, j);
    assert LedgerEntry(h, t);
    var l, base := h.ledger[t], h.elections[t].base;
    assert l[i] == l[..i + 1][i] == a[i];
    assert i >= |base|;
    forall k | i <= k <= j
      ensures b[k].term == t
    {
      assert b[k] == b[..j + 1][k] == l[..j + 1][k] == l[k];
    }
    assert b[..i + 1] == b[..j + 1][..i + 1] == l[..j + 1][..i + 1] == l[..i + 1];
  }

  /** The leader's entries of the conflicting term all come before the conflict, and the logs
      part no later than right after the last of them. */
  lemma LeaderRunBefore(h: History, a: seq<Entry>, b: seq<Entry>, prev: nat)
    requires LedgerOk(h) && Grounded(h.ledger, a) && Grounded(h.ledger, b) && Contiguous(a, 0)
    requires 0 < prev <= |a| && prev <= |b| && a[prev - 1].term != b[prev - 1].term
    ensures var last := TermLastIndex(a, b[prev - 1].term);
      last < prev && (last > 0 ==> CommonLength(a, b) <= last)
  {
    hide TermLastIndex, LedgerOk, Grounded, CommonLength;
    var t := b[prev - 1].term;
    var last := TermLastIndex(a, t);
    TermLastFinds(a, 0, t);
    if last >= prev {
      TermRun(h, b, a, prev - 1, last - 1);
      assert false;
    }
    if last > 0 {
      TermRun(h, a, b, last - 1, prev - 1);
      assert b[last].term == t;
    }
  }

  lemma FollowerRunStart(a: seq<Entry>, b: seq<Entry>, prev: nat)
    requires Contiguous(a, 0) && Contiguous(b, 0) && 0 < prev <= |b|
    requires TermLastIndex(a, b[prev - 1].term) == 0
    ensures var first := TermFirstIndex(b, b[prev - 1].term);
      1 <= first <= prev && CommonLength(a, b) < first
  {
    hide TermLastIndex, TermFirstIndex, CommonLength;
    var t := b[prev - 1].term;
    TermLastFinds(a, 0, t);
    TermFirstFinds(b, 0, t);
  }

  /** One rejection: the next attempt starts strictly earlier, but never before the first
      entry on which the logs really differ. */
  lemma BacktrackExact(h: History, leader: seq<Entry>, seen: seq<Entry>, prev: nat)
    requires LedgerOk(h) && Grounded(h.ledger, leader) && Grounded(h.ledger, seen)
    requires 0 < prev <= |leader|
    requires prev <= |seen| ==> seen[prev - 1].term != leader[prev - 1].term
    ensures var next := Backtrack(LogState(leader, 0, 0), ConflictHint(LogState(seen, 0, 0), prev));
      CommonLength(leader, seen) + 1 <= next <= prev
  {
    GroundedOrdered(h, leader);
    GroundedOrdered(h, seen);
    AtContiguous(seen, 0, prev);
    LastContiguous(LogState(leader, 0, 0));
    LastContiguous(LogState(seen, 0, 0));
    if prev <= |seen| {
      LeaderRunBefore(h, leader, seen, prev);
      if TermLastIndex(leader, seen[prev - 1].term) == 0 { FollowerRunStart(leader, seen, prev); }
    } else {
      NoTermZero(h, leader);
      TermLastFinds(leader, 0, 0);
    }
  }

  lemma NoTermZero(h: History, es: seq<Entry>)
    requires LedgerOk(h) && Grounded(h.ledger, es)
    ensures forall j :: 0 <= j < |es| ==> es[j].term != 0
  {
    forall j | 0 <= j < |es|
      ensures es[j].term != 0
    {
      assert GroundedAt(h.ledger, es, j);
      assert LedgerEntry(h, es[j].term);
    }
  }

  /** The leader `n` once `m`'s answer to its call to `p` is in. */
  function AfterAnswer(n: Node, p: ServerId, m: Node, arg: AppendEntriesArg, garbage: Conflict): Node {
    OnAppendReply(n, p, arg, Some(OnAppendEntries(m, arg, garbage).1))
  }

  /** Whatever the uninitialised fields hold, a rejection moves the peer's next index back, but
      not below the end of the common prefix. */
  ghost predicate Bounded(n: Node, p: ServerId, m: Node, arg: AppendEntriesArg)
    requires p in n.nextIndex
  {
    forall garbage: Conflict :: Rejects(m, arg, garbage) ==>
      var next := AfterAnswer(n, p, m, arg, garbage).nextIndex;
      p in next && CommonLength(n.log.entries, m.log.entries) + 1 <= next[p] < n.nextIndex[p]
  }

  /** `m` answers with a rejection in the term of the request. */
  predicate Rejects(m: Node, arg: AppendEntriesArg, garbage: Conflict) {
    var reply := OnAppendEntries(m, arg, garbage).1;
    !reply.success && reply.term == arg.term
  }

  /** A leader with a call out, and a peer that has not gone past the leader's term. */
  predicate Calling(n: Node, p: ServerId, m: Node, arg: AppendEntriesArg) {
    && !n.killed && n.role == Leader && n.log == LogState(n.log.entries, 0, 0)
    && arg.term == n.currentTerm && m.currentTerm <= arg.term && Plain(m)
    && arg.prevLogIndex <= |n.log.entries|
    && p in n.nextIndex && n.nextIndex[p] == arg.prevLogIndex + 1
    && (arg.prevLogIndex > 0 ==> arg.prevLogTerm == n.log.entries[arg.prevLogIndex - 1].term)
  }

  /** The bound holds exactly unless the peer was killed in that term: the guard that answers unread. */
  lemma BoundedIffAlive(h: History, n: Node, p: ServerId, m: Node, arg: AppendEntriesArg)
    requires LedgerOk(h) && Grounded(h.ledger, n.log.entries) && Grounded(h.ledger, m.log.entries)
    requires Calling(n, p, m, arg)
    ensures Bounded(n, p, m, arg) <==> !(m.killed && m.currentTerm == arg.term)
  {
    GroundedOrdered(h, n.log.entries);
    LastContiguous(n.log);
    if m.killed {
      NoTermZero(h, n.log.entries);
      TermLastFinds(n.log.entries, 0, 0);
      if m.currentTerm == arg.term {
        var wrong := Conflict(0, |n.log.entries| + 1);
        assert Rejects(m, arg, wrong) && AfterAnswer(n, p, m, arg, wrong).nextIndex[p] == |n.log.entries| + 1;
      }
    } else {
      AliveBounded(h, n, p, m, arg);
    }
  }

  lemma AliveBounded(h: History, n: Node, p: ServerId, m: Node, arg: AppendEntriesArg)
    requires LedgerOk(h) && Grounded(h.ledger, n.log.entries) && Grounded(h.ledger, m.log.entries)
    requires Calling(n, p, m, arg) && !m.killed
    ensures Bounded(n, p, m, arg)
  {
    hide Merge, Backtrack, CommonLength;
    forall garbage: Conflict | Rejects(m, arg, garbage)
      ensures var next := AfterAnswer(n, p, m, arg, garbage).nextIndex;
        p in next && CommonLength(n.log.entries, m.log.entries) + 1 <= next[p] < n.nextIndex[p]
    {
      AtOf(h, m.log.entries, arg.prevLogIndex);
      BacktrackExact(h, n.log.entries, m.log.entries, arg.prevLogIndex);
    }
  }

  lemma AtOf(h: History, es: seq<Entry>, i: nat)
    requires LedgerOk(h) && Grounded(h.ledger, es)
    ensures At(es, i) == if 0 < i <= |es| then Some(es[i - 1]) else None
  {
    GroundedOrdered(h, es);
    AtContiguous(es, 0, i);
  }

  /** A killed peer answers without reading and leaves the hint uninitialised: the leader can then
      be sent anywhere in its log. */
  lemma UnreadRejectionMisleads(killed: Node, leader: Node, p: ServerId, arg: AppendEntriesArg, target: nat)
    requires killed.killed && killed.currentTerm == leader.currentTerm == arg.term
    requires !leader.killed && leader.role == Leader
    requires 1 <= target <= LastIndex(leader.log) + 1
    requires Contiguous(leader.log.entries, 0)
    requires forall j :: 0 <= j < |leader.log.entries| ==> leader.log.entries[j].term != 0
    ensures exists garbage :: AfterAnswer(leader, p, killed, arg, garbage).nextIndex[p] == target
  {
    TermLastFinds(leader.log.entries, 0, 0);
    assert AfterAnswer(leader, p, killed, arg, Conflict(0, target)).nextIndex[p] == target;
  }

  // ---- in a cluster

  /** The reply is a rejection, in the leader's term, by a server that compared logs. */
  predicate Rejection(c: Cluster, s: ServerId, p: ServerId, r: Option<AppendEntriesReply>, seen: Option<seq<Entry>>) {
    && s in c.servers && p in c.servers[s].appendCall
    && var n := c.servers[s].node;
    && !n.killed && n.role == Leader
    && r.Some? && !r.value.success && seen.Some?
    && r.value.term == n.currentTerm && c.servers[s].appendCall[p].term == n.currentTerm
  }

  /** What an outstanding call of the leader's own term looks like in a reachable state. */
  lemma CallFacts(c: Cluster, s: ServerId, p: ServerId)
    requires Inv(c) && s in c.servers && p in c.servers[s].appendCall
    requires c.servers[s].node.role == Leader && c.servers[s].appendCall[p].term == c.servers[s].node.currentTerm
    ensures var n, arg := c.servers[s].node, c.servers[s].appendCall[p];
      && p in n.nextIndex && n.nextIndex[p] == arg.prevLogIndex + 1
      && arg.prevLogIndex <= |n.log.entries|
      && (arg.prevLogIndex > 0 ==> arg.prevLogTerm == n.log.entries[arg.prevLogIndex - 1].term)
  {
    hide Inv, CommittedBy;
    InvLeader(c, s);
    InvMessage(c, AppendRequest(p, c.servers[s].appendCall[p]));
    ShapeOf(c, s);
  }

  /** Fast backtracking is exact: in every reachable state, processing a rejection sets the
      next index of the peer strictly below its old value, but never below the end of the
      longest common prefix of the leader's log and the log the peer compared. */
  lemma RejectionMovesBack(c: Cluster, s: ServerId, p: ServerId, r: Option<AppendEntriesReply>,
                           seen: Option<seq<Entry>>)
    requires Inv(c) && CanReceiveAppend(c, s, p, r, seen) && Rejection(c, s, p, r, seen)
    ensures var n, m := c.servers[s].node, DoReceiveAppend(c, s, p, r, seen).servers[s].node;
      && p in n.nextIndex && p in m.nextIndex
      && CommonLength(n.log.entries, seen.value) + 1 <= m.nextIndex[p] < n.nextIndex[p]
      && m == n.(nextIndex := n.nextIndex[p := m.nextIndex[p]])
  {
    hide Inv, LedgerOk, Grounded;
    var n, arg := c.servers[s].node, c.servers[s].appendCall[p];
    LogGrounded(c, s);
    ShapeOf(c, s);
    CallFacts(c, s, p);
    InvMessage(c, AppendReply(p, arg, r.value, seen));
    BacktrackExact(c.h, n.log.entries, seen.value, arg.prevLogIndex);
    hide Backtrack, ConflictHint, CommitScan;
  }

  /** `s` leads its present term through all the steps, and every reply it processes from `p`
      is a rejection or no reply at all. */
  ghost predicate OnlyRejections(c: Cluster, steps: seq<Step>, s: ServerId, p: ServerId, term: nat)
    requires CanRun(c, steps)
    decreases |steps|
  {
    && s in c.servers && c.servers[s].node.role == Leader && c.servers[s].node.currentTerm == term
    && (steps == [] ||
        var step := steps[0];
        && (step.ReceiveAppend? && step.s == s && step.peer == p ==>
              step.appendReply.None? || Rejection(c, s, p, step.appendReply, step.seen))
        && OnlyRejections(Do(c, step), steps[1..], s, p, term))
  }

  /** How many rejections from `p` the leader processes. */
  function Rejections(steps: seq<Step>, s: ServerId, p: ServerId): nat {
    if steps == [] then 0
    else
      (if steps[0].ReceiveAppend? && steps[0].s == s && steps[0].peer == p && steps[0].appendReply.Some? then 1 else 0)
      + Rejections(steps[1..], s, p)
  }

  lemma VoteReplyKeepsLeader(n: Node, arg: RequestVoteArg, r: Option<RequestVoteReply>)
    requires n.role == Leader
    ensures OnVoteReply(n, arg, r) == n
  {
  }

  lemma VoteKeepsNextIndex(n: Node, arg: RequestVoteArg)
    ensures OnRequestVote(n, arg).0.nextIndex == n.nextIndex
  {
  }

  lemma AppendKeepsNextIndex(n: Node, arg: AppendEntriesArg, garbage: Conflict)
    ensures OnAppendEntries(n, arg, garbage).0.nextIndex == n.nextIndex
  {
  }

  lemma AppendReplyKeepsOthers(n: Node, q: ServerId, arg: AppendEntriesArg, r: Option<AppendEntriesReply>, p: ServerId)
    requires p in n.nextIndex && (p != q || r.None?)
    ensures var m := OnAppendReply(n, q, arg, r);
      p in m.nextIndex && m.nextIndex[p] == n.nextIndex[p]
  {
    hide CommitScan, Backtrack;
  }

  /** Other steps leave the next index of `p` alone while `s` stays leader of the term. */
  lemma NextIndexKept(c: Cluster, step: Step, s: ServerId, p: ServerId)
    requires Enabled(c, step) && s in c.servers && c.servers[s].node.role == Leader && p in c.servers[s].node.nextIndex
    requires s in Do(c, step).servers && Do(c, step).servers[s].node.role == Leader
    requires step.ReceiveAppend? && step.s == s && step.peer == p ==> step.appendReply.None?
    ensures p in Do(c, step).servers[s].node.nextIndex
    ensures Do(c, step).servers[s].node.nextIndex[p] == c.servers[s].node.nextIndex[p]
  {
    if step.s != s {
      OthersUntouched(c, step, s);
    } else {
      hide OnAppendReply, OnVoteReply, OnRequestVote, OnAppendEntries, BuildAppend, At, NewerRequest, Compared;
      hide AppendEntriesDisk, AppendReplyDisk, RequestVoteDisk, VoteReplyDisk, CountsVote;
      match step
      case HandleVote(_, arg) => VoteKeepsNextIndex(c.servers[s].node, arg);
      case HandleAppend(_, arg, garbage) => AppendKeepsNextIndex(c.servers[s].node, arg, garbage);
      case ReceiveVote(_, q, r) => VoteReplyKeepsLeader(c.servers[s].node, c.servers[s].voteCall[q], r);
      case ReceiveAppend(_, q, r, _) => AppendReplyKeepsOthers(c.servers[s].node, q, c.servers[s].appendCall[q], r, p);
      case _ =>
    }
  }

  /** Finitely many rejections precede success: however the run goes, while one leader keeps
      its term and hears nothing but rejections from a peer, it hears fewer than the next index
      it started from. */
  lemma {:induction false} RejectionsBounded(c: Cluster, steps: seq<Step>, s: ServerId, p: ServerId, term: nat)
    requires Inv(c) && CanRun(c, steps) && OnlyRejections(c, steps, s, p, term)
    requires p in c.servers[s].node.nextIndex
    ensures var d := Run(c, steps);
      && s in d.servers && p in d.servers[s].node.nextIndex
      && Rejections(steps, s, p) + d.servers[s].node.nextIndex[p] <= c.servers[s].node.nextIndex[p]
      && 1 <= d.servers[s].node.nextIndex[p]
    decreases |steps|
  {
    hide Inv, Evolves;
    if steps == [] {
      NextIndexPositive(c, s, p);
    } else {
      var step := steps[0];
      var d := Do(c, step);
      StepInv(c, step);
      if step.ReceiveAppend? && step.s == s && step.peer == p && step.appendReply.Some? {
        RejectionMovesBack(c, s, p, step.appendReply, step.seen);
      } else {
        NextIndexKept(c, step, s, p);
      }
      hide Enabled, Do;
      RejectionsBounded(d, steps[1..], s, p, term);
    }
  }

  lemma NextIndexPositive(c: Cluster, s: ServerId, p: ServerId)
    requires Inv(c) && s in c.servers && c.servers[s].node.role == Leader && p in c.servers[s].node.nextIndex
    ensures 1 <= c.servers[s].node.nextIndex[p]
  {
    assert LeaderOk(c, s);
  }

  // ---- from the start of a run

  /** Backtracking is exact in every run. */
  lemma BacktrackingExact(members: set<ServerId>, steps: seq<Step>, s: ServerId, p: ServerId,
                          r: Option<AppendEntriesReply>, seen: Option<seq<Entry>>)
    requires 1 <= |members| <= 255 && CanRun(Init(members), steps)
    requires var c := Run(Init(members), steps); CanReceiveAppend(c, s, p, r, seen) && Rejection(c, s, p, r, seen)
    ensures var c := Run(Init(members), steps);
      var n, m := c.servers[s].node, DoReceiveAppend(c, s, p, r, seen).servers[s].node;
      && p in n.nextIndex && p in m.nextIndex
      && CommonLength(n.log.entries, seen.value) + 1 <= m.nextIndex[p] < n.nextIndex[p]
  {
    hide Inv, Evolves, Run, CanRun, OnAppendReply;
    InitInv(members);
    RunInv(Init(members), steps);
    RejectionMovesBack(Run(Init(members), steps), s, p, r, seen);
  }

  /** Backtracking ends in every run: after any first part, a leader that hears only rejections
      from a peer hears fewer of them than its next index for that peer. */
  lemma BacktrackingEnds(members: set<ServerId>, first: seq<Step>, rest: seq<Step>, s: ServerId, p: ServerId, term: nat)
    requires TwoParts(members, first, rest) && OnlyRejections(Run(Init(members), first), rest, s, p, term)
    requires p in Run(Init(members), first).servers[s].node.nextIndex
    ensures Rejections(rest, s, p) < Run(Init(members), first).servers[s].node.nextIndex[p]
  {
    hide Inv, Evolves, Run, CanRun;
    TwoPartsInv(members, first, rest);
    RejectionsBounded(Run(Init(members), first), rest, s, p, term);
  }

  lemma CallingFacts(c: Cluster, s: ServerId, p: ServerId)
    requires Inv(c) && Outstanding(c, s, p)
    ensures LedgerOk(c.h)
    ensures Grounded(c.h.ledger, c.servers[s].node.log.entries) && Grounded(c.h.ledger, c.servers[p].node.log.entries)
    ensures Calling(c.servers[s].node, p, c.servers[p].node, c.servers[s].appendCall[p])
  {
    hide Inv, LedgerOk, Grounded;
    LogGrounded(c, s);
    LogGrounded(c, p);
    ShapeOf(c, s);
    ShapeOf(c, p);
    CallFacts(c, s, p);
  }

  /** `s` leads and has a call of its term out to `p`, which has not gone past that term. */
  predicate Outstanding(c: Cluster, s: ServerId, p: ServerId) {
    && s in c.servers && p in c.servers && p in c.servers[s].appendCall
    && var n, m := c.servers[s].node, c.servers[p].node;
    && !n.killed && n.role == Leader && c.servers[s].appendCall[p].term == n.currentTerm >= m.currentTerm
  }

  /** In every run: when a peer answers an outstanding call of the leader's term, the bound on the
      next index holds for every value of the uninitialised fields if and only if the peer was not
      killed in that term. */
  lemma BacktrackingBoundIff(members: set<ServerId>, steps: seq<Step>, s: ServerId, p: ServerId)
    requires 1 <= |members| <= 255 && CanRun(Init(members), steps)
    requires Outstanding(Run(Init(members), steps), s, p)
    ensures var c := Run(Init(members), steps);
      && p in c.servers[s].node.nextIndex
      && var n, m := c.servers[s].node, c.servers[p].node;
      && (Bounded(n, p, m, c.servers[s].appendCall[p]) <==> !(m.killed && m.currentTerm == n.currentTerm))
  {
    hide Inv, Evolves, Run, CanRun, Bounded;
    var c := Run(Init(members), steps);
    InitInv(members);
    RunInv(Init(members), steps);
    CallingFacts(c, s, p);
    BoundedIffAlive(c.h, c.servers[s].node, p, c.servers[p].node, c.servers[s].appendCall[p]);
  }
}
