/** No reachable state is a dead end: from each there is a continuation in which any given command is
    taken, replicated, committed and consumed by every server. */
module RaftProgress {
  import opened Options
  import opened RaftTypes
  import opened RaftLog
  import opened RaftNode
  import opened RaftCluster
  import opened RaftInvariant
  import opened RaftFrame
  import opened RaftLocalSteps
  import opened RaftCommitSteps
  import opened RaftSafety
  import opened RaftTheorems
  import opened RaftReplicas
  import opened RaftCommands
  import opened RaftDecisions
  import opened RaftMajority
  import opened RaftBacktracking
  import opened RaftRecovery
  import opened RaftWitness

  /** `s` leads, everyone is up, and nobody has gone past its term. */
  ghost predicate InCharge(c: Cluster, s: ServerId) {
    Calm(c, s) && c.servers[s].node.role == Leader
  }

  // ---- one round of replication

  /** What the leader is after a round with `p`: the same but for what it knows of `p`. */
  ghost predicate SameLeader(c: Cluster, d: Cluster, s: ServerId, p: ServerId) {
    && s in c.servers && s in d.servers
    && var n, m := c.servers[s].node, d.servers[s].node;
    && m == n.(nextIndex := m.nextIndex, matchIndex := m.matchIndex, commitIndex := m.commitIndex)
    && n.commitIndex <= m.commitIndex
    && p in n.nextIndex && p in m.nextIndex && p in m.matchIndex
    && m.matchIndex == n.matchIndex[p := m.matchIndex[p]]
  }

  /** If more than half are known to hold the whole log, which ends in the leader's term, it is committed. */
  ghost predicate Settled(c: Cluster, s: ServerId)
    requires s in c.servers
  {
    var n := c.servers[s].node;
    var es := n.log.entries;
    es != [] && es[|es| - 1].term == n.currentTerm && ByMajority(c, s, |es|) ==> n.commitIndex >= |es|
  }

  /** The follower has taken everything, or the leader has moved back. */
  ghost predicate Exchanged(c: Cluster, d: Cluster, s: ServerId, p: ServerId, taken: bool) {
    && InCharge(d, s) && SameLeader(c, d, s, p) && p in c.servers && p in d.servers
    && (forall x :: x in c.servers && x != s && x != p ==> x in d.servers && d.servers[x] == c.servers[x])
    && var n, m := c.servers[s].node, d.servers[s].node;
    && (taken ==>
          && m.matchIndex[p] == |n.log.entries| && Settled(d, s)
          && d.servers[p].node.currentTerm == n.currentTerm
          && d.servers[p].node.commitIndex >= n.commitIndex)
    && (!taken ==> m.nextIndex[p] < n.nextIndex[p] && p in n.matchIndex && m.matchIndex[p] == n.matchIndex[p])
  }

  const BLANK := Conflict(0, 0)

  /** The request is out, `p` has answered it. */
  ghost predicate Answered(c: Cluster, e: Cluster, s: ServerId, p: ServerId, arg: AppendEntriesArg,
                           r: AppendEntriesReply, seen: seq<Entry>) {
    && s in c.servers && p in c.servers && s != p && e.servers.Keys == c.servers.Keys
    && (forall x :: x in c.servers && x != s && x != p ==> e.servers[x] == c.servers[x])
    && p in c.servers[s].node.nextIndex && Covers(c.servers[s].node, p, arg)
    && e.servers[s] == c.servers[s].(appendCall := map[p := arg])
    && AppendReply(p, arg, r, Some(seen)) in e.net && r.term == arg.term
    && Up(e.servers[p]) && e.servers[p].node.currentTerm == arg.term
    && (r.success ==> e.servers[p].node.commitIndex >= arg.leaderCommit)
  }

  lemma Answers(c: Cluster, s: ServerId, p: ServerId)
    requires Inv(c) && InCharge(c, s) && p in c.servers && p != s
    ensures CanSendAppend(c, s, p)
    ensures var d, arg := DoSendAppend(c, s, p), BuildAppend(c.servers[s].node, p).value;
      && Inv(d) && CanAppend(d, p, arg)
      && var e, r := DoAppend(d, p, arg, BLANK), OnAppendEntries(d.servers[p].node, arg, BLANK).1;
      Inv(e) && Answered(c, e, s, p, arg, r, c.servers[p].node.log.entries)
  {
    hide Inv, BuildAppend, OnAppendEntries, DoSendAppend, DoAppend, Covers;
    LeaderSends(c, s, p);
    var d, arg := DoSendAppend(c, s, p), BuildAppend(c.servers[s].node, p).value;
    DoInv(c, SendAppend(s, p));
    assert CanAppend(d, p, arg);
    var e, r := DoAppend(d, p, arg, BLANK), OnAppendEntries(d.servers[p].node, arg, BLANK).1;
    DecidesAppend(d, e, p, arg, BLANK);
    DoInv(d, HandleAppend(p, arg, BLANK));
    assert arg.term == c.servers[s].node.currentTerm by { CoversTerm(c.servers[s].node, p, arg); }
    hide Takes;
    assert AppendReply(p, arg, r, Some(c.servers[p].node.log.entries)) in e.net by {
      ReplySent(d, p, arg, BLANK);
    }
    assert r.success == Takes(d.servers[p].node, arg) && r.term == e.servers[p].node.currentTerm by {
      ShapeOf(d, p);
      LogInOrder(d, p);
      RequestInOrder(d, p, arg);
      AppendOnPlain(d.servers[p].node, arg, BLANK);
      assert e.servers[p].node == OnAppendEntries(d.servers[p].node, arg, BLANK).0 by { NodeAfter(d, p, arg, BLANK); }
    }
  }

  lemma CoversTerm(n: Node, p: ServerId, arg: AppendEntriesArg)
    requires p in n.nextIndex && Covers(n, p, arg)
    ensures arg.term == n.currentTerm && arg.leaderCommit == n.commitIndex
  {
  }

  lemma NodeAfter(c: Cluster, p: ServerId, arg: AppendEntriesArg, garbage: Conflict)
    requires CanAppend(c, p, arg)
    ensures DoAppend(c, p, arg, garbage).servers[p].node == OnAppendEntries(c.servers[p].node, arg, garbage).0
  {
    hide OnAppendEntries, AppendEntriesDisk;
  }

  lemma ReplySent(c: Cluster, p: ServerId, arg: AppendEntriesArg, garbage: Conflict)
    requires Inv(c) && CanAppend(c, p, arg)
    requires !c.servers[p].node.killed && arg.term >= c.servers[p].node.currentTerm
    ensures AppendReply(p, arg, OnAppendEntries(c.servers[p].node, arg, garbage).1, Some(c.servers[p].node.log.entries))
      in DoAppend(c, p, arg, garbage).net
  {
    hide Inv, OnAppendEntries, AppendEntriesDisk;
    ShapeOf(c, p);
  }

  lemma CanSendMeans(c: Cluster, s: ServerId, p: ServerId)
    requires CanSendAppend(c, s, p)
    ensures s in c.servers && BuildAppend(c.servers[s].node, p).Some?
  {
  }

  lemma AnswerWaits(c: Cluster, e: Cluster, s: ServerId, p: ServerId, arg: AppendEntriesArg, r: AppendEntriesReply,
                    seen: seq<Entry>)
    requires InCharge(c, s) && Answered(c, e, s, p, arg, r, seen)
    ensures CanReceiveAppend(e, s, p, Some(r), Some(seen))
    ensures e.servers[s].appendCall[p] == arg && e.servers[s].node == c.servers[s].node
    ensures var n := e.servers[s].node; !n.killed && n.role == Leader && r.term == arg.term == n.currentTerm
  {
    CoversTerm(c.servers[s].node, p, arg);
    hide Covers;
  }

  /** The leader hears the answer. */
  lemma Hears(c: Cluster, e: Cluster, s: ServerId, p: ServerId, arg: AppendEntriesArg, r: AppendEntriesReply,
              seen: seq<Entry>)
    requires Inv(e) && InCharge(c, s) && Answered(c, e, s, p, arg, r, seen)
    requires s in c.servers && p in c.servers[s].node.matchIndex
    ensures CanReceiveAppend(e, s, p, Some(r), Some(seen))
    ensures Exchanged(c, DoReceiveAppend(e, s, p, Some(r), Some(seen)), s, p, r.success)
  {
    hide Inv, InCharge, Answered, DoReceiveAppend, AckRecorded, Exchanged;
    AnswerWaits(c, e, s, p, arg, r, seen);
    var f := DoReceiveAppend(e, s, p, Some(r), Some(seen));
    if r.success {
      RecordsAck(e, f, s, p, r, Some(seen));
      HeardSuccess(c, e, f, s, p, arg, r, seen);
    } else {
      RejectionMovesBack(e, s, p, Some(r), Some(seen));
      HeardRejection(c, e, f, s, p, arg, r, seen);
    }
  }

  /** Only `s` and `p` have moved, neither to another term. */
  lemma StillInCharge(c: Cluster, f: Cluster, s: ServerId, p: ServerId)
    requires InCharge(c, s) && p in c.servers && p != s && f.servers.Keys == c.servers.Keys
    requires forall x :: x in c.servers && x != s && x != p ==> f.servers[x] == c.servers[x]
    requires Up(f.servers[p]) && f.servers[p].node.currentTerm == c.servers[s].node.currentTerm
    requires var v, w := c.servers[s], f.servers[s];
      && w == v.(node := w.node, disk := w.disk) && w.node.killed == v.node.killed
      && w.node.role == Leader && w.node.currentTerm == v.node.currentTerm
    ensures InCharge(f, s)
  {
  }

  /** The leader's part of a success. */
  lemma AckSettles(e: Cluster, f: Cluster, s: ServerId, p: ServerId, arg: AppendEntriesArg)
    requires s in e.servers && p in e.servers[s].node.nextIndex && Covers(e.servers[s].node, p, arg)
    requires AckRecorded(e, f, s, p, arg)
    ensures SameLeader(e, f, s, p) && Settled(f, s)
    ensures f.servers[s].node.matchIndex[p] == |e.servers[s].node.log.entries|
  {
    hide ByMajority;
    assert arg.prevLogIndex + |arg.entries| == |e.servers[s].node.log.entries|;
  }

  /** Nobody but the leader has moved, and it has no call out. */
  lemma AckMoves(e: Cluster, f: Cluster, s: ServerId, p: ServerId, arg: AppendEntriesArg)
    requires AckRecorded(e, f, s, p, arg) && e.servers[s].appendCall == map[p := arg]
    ensures f.servers == e.servers[s := f.servers[s]]
    ensures f.servers[s] == e.servers[s].(node := f.servers[s].node, appendCall := map[])
    ensures var n, m := e.servers[s].node, f.servers[s].node;
      m.killed == n.killed && m.role == n.role && m.currentTerm == n.currentTerm
  {
    hide ByMajority;
    assert map[p := arg] - {p} == map[];
  }

  lemma HeardSuccess(c: Cluster, e: Cluster, f: Cluster, s: ServerId, p: ServerId, arg: AppendEntriesArg,
                     r: AppendEntriesReply, seen: seq<Entry>)
    requires InCharge(c, s) && Answered(c, e, s, p, arg, r, seen) && r.success && p in c.servers[s].node.matchIndex
    requires AckRecorded(e, f, s, p, arg)
    ensures Exchanged(c, f, s, p, true)
  {
    hide Up, Settled, Covers, AckRecorded;
    AckSettles(e, f, s, p, arg);
    AckMoves(e, f, s, p, arg);
    assert arg.leaderCommit == c.servers[s].node.commitIndex && arg.term == c.servers[s].node.currentTerm by {
      CoversTerm(c.servers[s].node, p, arg);
    }
    hide SameLeader;
    SameBefore(c, e, f, s, p);
    StillInCharge(c, f, s, p);
    hide InCharge;
  }

  lemma SameBefore(c: Cluster, e: Cluster, f: Cluster, s: ServerId, p: ServerId)
    requires s in c.servers && s in e.servers && e.servers[s].node == c.servers[s].node && SameLeader(e, f, s, p)
    ensures SameLeader(c, f, s, p)
  {
  }

  lemma HeardRejection(c: Cluster, e: Cluster, f: Cluster, s: ServerId, p: ServerId, arg: AppendEntriesArg,
                       r: AppendEntriesReply, seen: seq<Entry>)
    requires InCharge(c, s) && Answered(c, e, s, p, arg, r, seen) && p in c.servers[s].node.matchIndex
    requires CanReceiveAppend(e, s, p, Some(r), Some(seen)) && f == DoReceiveAppend(e, s, p, Some(r), Some(seen))
    requires var n, m := e.servers[s].node, f.servers[s].node;
      && p in n.nextIndex && p in m.nextIndex && m.nextIndex[p] < n.nextIndex[p]
      && m == n.(nextIndex := n.nextIndex[p := m.nextIndex[p]])
    ensures Exchanged(c, f, s, p, false)
  {
    hide OnAppendReply, AppendReplyDisk, Covers;
    var n, m := c.servers[s].node, f.servers[s].node;
    assert map[p := arg] - {p} == map[];
    CoversTerm(n, p, arg);
    assert f.servers[s] == e.servers[s].(node := m, disk := f.servers[s].disk, appendCall := map[]);
    hide Up;
    StillInCharge(c, f, s, p);
    hide InCharge;
    assert n.matchIndex == n.matchIndex[p := n.matchIndex[p]];
  }

  lemma Round(c: Cluster, s: ServerId, p: ServerId) returns (steps: seq<Step>, taken: bool)
    requires Inv(c) && InCharge(c, s) && p in c.servers && p != s
    ensures CanRun(c, steps) && Exchanged(c, Run(c, steps), s, p, taken)
  {
    hide Inv, InCharge, Answered, Exchanged, DoSendAppend, DoAppend, DoReceiveAppend, CanSendAppend, BuildAppend;
    hide OnAppendEntries, CanReceiveAppend, Run, CanRun;
    Answers(c, s, p);
    assert s in c.servers && BuildAppend(c.servers[s].node, p).Some? by { CanSendMeans(c, s, p); }
    var d, arg := DoSendAppend(c, s, p), BuildAppend(c.servers[s].node, p).value;
    var e, r := DoAppend(d, p, arg, BLANK), OnAppendEntries(d.servers[p].node, arg, BLANK).1;
    var seen := Some(c.servers[p].node.log.entries);
    PeerKnown(c, s, p);
    Hears(c, e, s, p, arg, r, c.servers[p].node.log.entries);
    hide CanAppend;
    var f := DoReceiveAppend(e, s, p, Some(r), seen);
    taken := r.success;
    steps := Stay(f);
    steps := Prepend(e, f, ReceiveAppend(s, p, Some(r), seen), steps);
    steps := Prepend(d, f, HandleAppend(p, arg, BLANK), steps);
    steps := Prepend(c, f, SendAppend(s, p), steps);
  }

  // ---- until everyone has everything

  /** What the leader knows once it has served the servers in `ps`. */
  ghost predicate LeaderServed(n: Node, m: Node, ps: set<ServerId>) {
    && m.currentTerm == n.currentTerm && m.log == n.log && n.commitIndex <= m.commitIndex
    && m.matchIndex.Keys == n.matchIndex.Keys
    && (forall p :: p in n.matchIndex && p !in ps ==> m.matchIndex[p] == n.matchIndex[p])
    && (forall p :: p in ps ==> p in m.matchIndex && m.matchIndex[p] == |n.log.entries|)
  }

  /** What has become of the others: those in `ps` are in the leader's term and know at least of the
      commits the leader knew of. */
  ghost predicate PeersServed(c: Cluster, d: Cluster, s: ServerId, ps: set<ServerId>) {
    && s in c.servers && d.servers.Keys == c.servers.Keys
    && (forall x :: x in c.servers && x != s && x !in ps ==> d.servers[x] == c.servers[x])
    && (forall p :: p in ps ==>
          && p in d.servers && d.servers[p].node.currentTerm == c.servers[s].node.currentTerm
          && d.servers[p].node.commitIndex >= c.servers[s].node.commitIndex)
  }

  ghost predicate Served(c: Cluster, d: Cluster, s: ServerId, ps: set<ServerId>) {
    && InCharge(d, s) && PeersServed(c, d, s, ps) && LeaderServed(c.servers[s].node, d.servers[s].node, ps)
    && (ps != {} ==> Settled(d, s))
  }

  lemma TakenIsServed(c: Cluster, d: Cluster, s: ServerId, p: ServerId)
    requires Exchanged(c, d, s, p, true) && d.servers.Keys == c.servers.Keys && p in c.servers[s].node.matchIndex
    ensures Served(c, d, s, {p})
  {
    hide Settled, Calm;
  }

  lemma RejectedLeader(c: Cluster, d: Cluster, s: ServerId, p: ServerId, l: Node)
    requires Exchanged(c, d, s, p, false) && LeaderServed(d.servers[s].node, l, {p})
    ensures LeaderServed(c.servers[s].node, l, {p})
  {
    hide InCharge, Settled;
  }

  lemma RejectedPeers(c: Cluster, d: Cluster, e: Cluster, s: ServerId, p: ServerId)
    requires Exchanged(c, d, s, p, false) && PeersServed(d, e, s, {p}) && d.servers.Keys == c.servers.Keys
    ensures PeersServed(c, e, s, {p})
  {
    hide InCharge, Settled;
  }

  lemma RejectedThenServed(c: Cluster, d: Cluster, e: Cluster, s: ServerId, p: ServerId)
    requires Exchanged(c, d, s, p, false) && Served(d, e, s, {p}) && d.servers.Keys == c.servers.Keys
    ensures Served(c, e, s, {p})
  {
    ServedMeans(d, e, s, {p});
    hide InCharge, Settled, Exchanged, LeaderServed, PeersServed;
    RejectedPeers(c, d, e, s, p);
    RejectedLeader(c, d, s, p, e.servers[s].node);
  }

  lemma PeerKnown(c: Cluster, s: ServerId, p: ServerId)
    requires Inv(c) && s in c.servers && p in c.servers && p != s
    ensures p in c.servers[s].node.matchIndex && p in c.servers[s].node.nextIndex
  {
    hide Inv;
    ShapeOf(c, s);
  }

  lemma {:induction false} ServeOne(c: Cluster, s: ServerId, p: ServerId) returns (steps: seq<Step>)
    requires Inv(c) && InCharge(c, s) && p in c.servers && p != s && p in c.servers[s].node.nextIndex
    ensures CanRun(c, steps) && Served(c, Run(c, steps), s, {p})
    decreases c.servers[s].node.nextIndex[p]
  {
    hide Inv, InCharge, Served, Settled;
    var first, taken := Round(c, s, p);
    hide Run, CanRun;
    var d := Run(c, first);
    RunKeeps(c, first);
    PeerKnown(c, s, p);
    if taken {
      TakenIsServed(c, d, s, p);
      steps := first;
    } else {
      var rest := ServeOne(d, s, p);
      RejectedThenServed(c, d, Run(d, rest), s, p);
      RunConcat(c, first, rest);
      steps := first + rest;
    }
  }

  lemma PeersServedMore(c: Cluster, d: Cluster, e: Cluster, s: ServerId, p: ServerId, ps: set<ServerId>)
    requires p in ps && p != s && p in c.servers && s in d.servers
    requires PeersServed(c, d, s, {p}) && PeersServed(d, e, s, ps - {p})
    requires d.servers[s].node.currentTerm == c.servers[s].node.currentTerm
    requires d.servers[s].node.commitIndex >= c.servers[s].node.commitIndex
    ensures PeersServed(c, e, s, ps)
  {
    assert e.servers[p] == d.servers[p];
    forall q | q in ps
      ensures q in e.servers && e.servers[q].node.currentTerm == c.servers[s].node.currentTerm
      ensures e.servers[q].node.commitIndex >= c.servers[s].node.commitIndex
    {
      if q != p { assert q in ps - {p}; }
    }
  }

  lemma LeaderServedMore(n: Node, m: Node, l: Node, p: ServerId, ps: set<ServerId>)
    requires p in ps && LeaderServed(n, m, {p}) && LeaderServed(m, l, ps - {p})
    ensures LeaderServed(n, l, ps)
  {
    forall q | q in ps
      ensures q in l.matchIndex && l.matchIndex[q] == |n.log.entries|
    {
      if q != p { assert q in ps - {p}; }
    }
  }

  lemma ServedMore(c: Cluster, d: Cluster, e: Cluster, s: ServerId, p: ServerId, ps: set<ServerId>)
    requires p in ps && p != s && p in c.servers && Served(c, d, s, {p}) && Served(d, e, s, ps - {p})
    requires ps - {p} == {} ==> e == d
    ensures Served(c, e, s, ps)
  {
    ServedMeans(c, d, s, {p});
    ServedMeans(d, e, s, ps - {p});
    hide Settled, PeersServed, LeaderServed, InCharge;
    PeersServedMore(c, d, e, s, p, ps);
    LeaderServedMore(c.servers[s].node, d.servers[s].node, e.servers[s].node, p, ps);
  }

  lemma {:induction false} ServeAll(c: Cluster, s: ServerId, ps: set<ServerId>) returns (steps: seq<Step>)
    requires Inv(c) && InCharge(c, s) && ps <= c.servers.Keys - {s}
    ensures CanRun(c, steps) && Served(c, Run(c, steps), s, ps)
    decreases |ps|
  {
    hide Inv, Served, Settled;
    if ps == {} {
      steps := Stay(c);
      ServedNobody(c, s);
    } else {
      var p :| p in ps;
      PeerKnown(c, s, p);
      var first := ServeOne(c, s, p);
      hide Run, CanRun;
      var d := Run(c, first);
      RunKeeps(c, first);
      assert InCharge(d, s) by { ServedMeans(c, d, s, {p}); }
      if ps - {p} == {} {
        ServedNobody(d, s);
        ServedMore(c, d, d, s, p, ps);
        steps := first;
      } else {
        var rest := ServeAll(d, s, ps - {p});
        ServedMore(c, d, Run(d, rest), s, p, ps);
        RunConcat(c, first, rest);
        steps := first + rest;
      }
    }
  }

  lemma ServedNobody(c: Cluster, s: ServerId)
    requires InCharge(c, s)
    ensures Served(c, c, s, {})
  {
  }

  lemma ServedMeans(c: Cluster, d: Cluster, s: ServerId, ps: set<ServerId>)
    requires Served(c, d, s, ps)
    ensures s in c.servers && s in d.servers && d.servers.Keys == c.servers.Keys && InCharge(d, s)
    ensures d.servers[s].node.log == c.servers[s].node.log
    ensures d.servers[s].node.currentTerm == c.servers[s].node.currentTerm
    ensures d.servers[s].node.commitIndex >= c.servers[s].node.commitIndex
  {
  }

  lemma AllAreMajority(d: Cluster, s: ServerId, k: nat)
    requires s in d.servers && |d.servers| >= 2
    requires var matchIndex := d.servers[s].node.matchIndex;
      && matchIndex.Keys == d.servers.Keys - {s}
      && forall p :: p in matchIndex ==> matchIndex[p] >= k
    ensures ByMajority(d, s, k)
  {
    var m := d.servers[s].node;
    assert (set p | p in m.matchIndex && m.matchIndex[p] >= k) == d.servers.Keys - {s};
    assert |d.servers| == |d.servers.Keys|;
    assert |d.servers.Keys - {s}| == |d.servers| - 1;
  }

  /** Everyone holds the whole log of the leader, which is committed. */
  lemma AllHold(c: Cluster, d: Cluster, s: ServerId)
    requires Inv(d) && |c.servers| >= 2 && Served(c, d, s, c.servers.Keys - {s})
    requires var n := c.servers[s].node;
      n.log.entries != [] && n.log.entries[|n.log.entries| - 1].term == n.currentTerm
    ensures d.servers[s].node.commitIndex >= |d.servers[s].node.log.entries|
  {
    hide Inv, Calm, ByMajority, Plain;
    ShapeOf(d, s);
    assert |d.servers| == |d.servers.Keys| == |c.servers.Keys| == |c.servers|;
    assert |c.servers.Keys - {s}| == |c.servers| - 1;
    AllAreMajority(d, s, |d.servers[s].node.log.entries|);
  }

  lemma MatchedHolds(c: Cluster, s: ServerId, p: ServerId)
    requires Inv(c) && s in c.servers && c.servers[s].node.role == Leader && p in c.servers[s].node.matchIndex
    requires c.servers[s].node.matchIndex[p] == |c.servers[s].node.log.entries| > 0 && p in c.servers
    requires c.servers[p].node.currentTerm == c.servers[s].node.currentTerm
    ensures c.servers[s].node.log.entries <= c.servers[p].node.log.entries
  {
    hide Inv;
    var t := c.servers[s].node.currentTerm;
    MatchHeld(c, s, p);
    LeaderElected(c, s);
    HeldBy(c, p, t);
    var l := c.h.ledger[t];
    assert l[..c.h.held[(p, t)]] == l;
  }

  // ---- until everyone has consumed everything

  lemma TurnRuns(c: Cluster, x: ServerId)
    requires Inv(c) && x in c.servers && Up(c.servers[x])
    requires c.servers[x].node.lastApplied < c.servers[x].node.commitIndex
    ensures CanApplyRead(c, x) && CanApplySend(DoApplyRead(c, x), x)
    ensures var v, d := c.servers[x], DoApplySend(DoApplyRead(c, x), x);
      && d.servers == c.servers[x := d.servers[x]]
      && d.servers[x].phase.Sent? && d.servers[x].phase.entry.index == v.node.lastApplied + 1
      && d.servers[x].slot.Some? && d.servers[x].node == v.node && !d.servers[x].closed
  {
    hide Inv, CommittedBy;
    CommittedPrefixOf(c, x);
    ShapeOf(c, x);
    LogInOrder(c, x);
    AtContiguous(c.servers[x].node.log.entries, 0, c.servers[x].node.lastApplied + 1);
    hide At;
  }

  lemma TurnEnds(d: Cluster, x: ServerId)
    requires x in d.servers && d.servers[x].phase.Sent? && d.servers[x].slot.Some? && !d.servers[x].node.killed
    requires !d.servers[x].closed
    ensures Enabled(d, Pipeline(x, Take))
    ensures var e := Do(d, Pipeline(x, Take));
      && Enabled(e, Pipeline(x, Advance))
      && var f := Do(e, Pipeline(x, Advance));
      && f.servers == d.servers[x := f.servers[x]] && Up(f.servers[x])
      && f.servers[x].node == d.servers[x].node.(lastApplied := d.servers[x].phase.entry.index)
  {
  }

  /** `x` has handed over commands up to some point, and nothing else has changed. */
  ghost predicate Applies(c: Cluster, d: Cluster, x: ServerId) {
    && x in c.servers && x in d.servers && d.servers == c.servers[x := d.servers[x]] && Up(d.servers[x])
    && d.servers[x].node == c.servers[x].node.(lastApplied := d.servers[x].node.lastApplied)
  }

  /** One command goes from the log to the state machine. */
  lemma Turn(c: Cluster, x: ServerId) returns (steps: seq<Step>)
    requires Inv(c) && x in c.servers && Up(c.servers[x])
    requires c.servers[x].node.lastApplied < c.servers[x].node.commitIndex
    ensures CanRun(c, steps) && Applies(c, Run(c, steps), x)
    ensures Run(c, steps).servers[x].node.lastApplied == c.servers[x].node.lastApplied + 1
  {
    hide Inv, DoApplyRead, DoApplySend, CanApplyRead, CanApplySend;
    TurnRuns(c, x);
    var d := DoApplyRead(c, x);
    var e := DoApplySend(d, x);
    TurnEnds(e, x);
    hide Up, Run, CanRun, Move, CanMove;
    var f := Do(e, Pipeline(x, Take));
    var g := Do(f, Pipeline(x, Advance));
    assert g.servers == c.servers[x := g.servers[x]];
    steps := Stay(g);
    steps := Prepend(f, g, Pipeline(x, Advance), steps);
    steps := Prepend(e, g, Pipeline(x, Take), steps);
    steps := Prepend(d, g, ApplySend(x), steps);
    steps := Prepend(c, g, ApplyRead(x), steps);
  }

  lemma AppliesMore(c: Cluster, d: Cluster, e: Cluster, x: ServerId)
    requires Applies(c, d, x) && Applies(d, e, x)
    ensures Applies(c, e, x)
  {
    hide Up;
  }

  lemma AppliesMeans(c: Cluster, d: Cluster, x: ServerId)
    requires Applies(c, d, x)
    ensures Up(d.servers[x]) && d.servers[x].node.commitIndex == c.servers[x].node.commitIndex
  {
    hide Up;
  }

  lemma AppliedInOrder(c: Cluster, x: ServerId)
    requires Inv(c) && x in c.servers
    ensures c.servers[x].node.lastApplied <= c.servers[x].node.commitIndex
  {
    hide Inv, PipelineOk, CommitAt, Contiguous;
    InvPipeline(c, x);
    PipelineIsConserved(c.servers[x]);
  }

  /** `x` hands over everything it knows to be committed. */
  lemma {:induction false} Drain(c: Cluster, x: ServerId) returns (steps: seq<Step>)
    requires Inv(c) && x in c.servers && Up(c.servers[x])
    ensures CanRun(c, steps) && Applies(c, Run(c, steps), x)
    ensures Run(c, steps).servers[x].node.lastApplied == Run(c, steps).servers[x].node.commitIndex
    decreases c.servers[x].node.commitIndex - c.servers[x].node.lastApplied
  {
    hide Inv;
    AppliedInOrder(c, x);
    if c.servers[x].node.lastApplied == c.servers[x].node.commitIndex {
      steps := Stay(c);
    } else {
      var first := Turn(c, x);
      hide Run, CanRun, Up, Applies;
      var d := Run(c, first);
      RunKeeps(c, first);
      AppliesMeans(c, d, x);
      var rest := Drain(d, x);
      AppliesMore(c, d, Run(d, rest), x);
      RunConcat(c, first, rest);
      steps := first + rest;
    }
  }

  /** All in `xs` have consumed everything they know to be committed. */
  ghost predicate AllDrained(c: Cluster, d: Cluster, xs: set<ServerId>) {
    && d.servers.Keys == c.servers.Keys
    && (forall x :: x in c.servers && x !in xs ==> d.servers[x] == c.servers[x])
    && (forall x :: x in xs && x in c.servers ==>
          && Up(d.servers[x]) && d.servers[x].node.lastApplied == d.servers[x].node.commitIndex
          && d.servers[x].node == c.servers[x].node.(lastApplied := d.servers[x].node.lastApplied))
  }

  lemma DrainedMore(c: Cluster, d: Cluster, e: Cluster, x: ServerId, xs: set<ServerId>)
    requires x in xs && Applies(c, d, x) && d.servers[x].node.lastApplied == d.servers[x].node.commitIndex
    requires AllDrained(d, e, xs - {x})
    ensures AllDrained(c, e, xs)
  {
    hide Up;
    assert e.servers[x] == d.servers[x];
    forall y | y in xs && y in c.servers
      ensures Up(e.servers[y]) && e.servers[y].node.lastApplied == e.servers[y].node.commitIndex
      ensures e.servers[y].node == c.servers[y].node.(lastApplied := e.servers[y].node.lastApplied)
    {
      if y != x { assert y in xs - {x} && d.servers[y] == c.servers[y]; }
    }
  }

  lemma StillUp(c: Cluster, d: Cluster, x: ServerId, xs: set<ServerId>)
    requires Applies(c, d, x) && xs <= c.servers.Keys && forall y :: y in xs ==> Up(c.servers[y])
    ensures xs - {x} <= d.servers.Keys && forall y :: y in xs - {x} ==> Up(d.servers[y])
  {
    hide Up;
  }

  lemma {:induction false} DrainAll(c: Cluster, xs: set<ServerId>) returns (steps: seq<Step>)
    requires Inv(c) && xs <= c.servers.Keys && forall x :: x in xs ==> Up(c.servers[x])
    ensures CanRun(c, steps) && AllDrained(c, Run(c, steps), xs)
    decreases |xs|
  {
    hide Inv, Up;
    if xs == {} {
      steps := Stay(c);
    } else {
      var x :| x in xs;
      var first := Drain(c, x);
      hide Run, CanRun, Applies, AllDrained;
      var d := Run(c, first);
      RunKeeps(c, first);
      StillUp(c, d, x, xs);
      var rest := DrainAll(d, xs - {x});
      DrainedMore(c, d, Run(d, rest), x, xs);
      RunConcat(c, first, rest);
      steps := first + rest;
    }
  }

  lemma DrainedConsumed(c: Cluster, x: ServerId, es: seq<Entry>)
    requires Inv(c) && x in c.servers && Up(c.servers[x])
    requires c.servers[x].node.lastApplied == c.servers[x].node.commitIndex >= |es| > 0
    requires es <= c.servers[x].node.log.entries
    ensures |c.servers[x].consumed| >= |es| && c.servers[x].consumed[|es| - 1] == es[|es| - 1].command
  {
    hide Inv, PipelineOk, CommitAt, Contiguous;
    InvPipeline(c, x);
    PipelineIsConserved(c.servers[x]);
    var v := c.servers[x];
    assert v.consumed + [] == v.consumed;
  }

  // ---- altogether

  /** The log of `s` ends with the command, written in its own term. */
  ghost predicate EndsWith(c: Cluster, s: ServerId, command: Command) {
    && s in c.servers
    && var n := c.servers[s].node;
    && n.log.entries != []
    && var e := n.log.entries[|n.log.entries| - 1];
    e.command == command && e.term == n.currentTerm
  }

  lemma CanSubmit(c: Cluster, s: ServerId, command: Command)
    requires Inv(c) && InCharge(c, s)
    ensures CanClientStart(c, s)
    ensures var d := DoClientStart(c, s, command);
      InCharge(d, s) && d.servers.Keys == c.servers.Keys && EndsWith(d, s, command)
  {
    hide Inv, Wrote, Plain;
    StartReady(c, s);
    StartWrites(c, s, command);
    ShapeOf(c, s);
    WroteOnlyThis(c, DoClientStart(c, s, command), s, command);
  }

  lemma Submit(c: Cluster, s: ServerId, command: Command) returns (steps: seq<Step>)
    requires Inv(c) && InCharge(c, s)
    ensures CanRun(c, steps)
    ensures var d := Run(c, steps);
      InCharge(d, s) && d.servers.Keys == c.servers.Keys && EndsWith(d, s, command)
  {
    hide Inv, InCharge, EndsWith, DoClientStart, CanClientStart, Run, CanRun;
    CanSubmit(c, s, command);
    steps := Stay(DoClientStart(c, s, command));
    steps := Prepend(c, DoClientStart(c, s, command), ClientStart(s, command), steps);
  }

  /** Everyone holds the leader's log, of which everything is known everywhere to be committed. */
  ghost predicate Spread(c: Cluster, s: ServerId, es: seq<Entry>) {
    && s in c.servers
    && forall p :: p in c.servers ==>
         Up(c.servers[p]) && es <= c.servers[p].node.log.entries && c.servers[p].node.commitIndex >= |es|
  }

  /** First everyone takes the log, then everyone hears that it is committed. */
  lemma SpreadLog(c: Cluster, s: ServerId) returns (steps: seq<Step>)
    requires Inv(c) && |c.servers| >= 2 && InCharge(c, s)
    requires var n := c.servers[s].node;
      n.log.entries != [] && n.log.entries[|n.log.entries| - 1].term == n.currentTerm
    ensures CanRun(c, steps) && Spread(Run(c, steps), s, c.servers[s].node.log.entries)
  {
    hide Inv, Served, Spread, Run, CanRun;
    var ps := c.servers.Keys - {s};
    var es := c.servers[s].node.log.entries;
    var first := ServeAll(c, s, ps);
    var d := Run(c, first);
    RunKeeps(c, first);
    AllHold(c, d, s);
    ServedMeans(c, d, s, ps);
    var rest := ServeAll(d, s, ps);
    var e := Run(d, rest);
    RunKeeps(d, rest);
    ServedIsSpread(d, e, s, es);
    RunConcat(c, first, rest);
    steps := first + rest;
  }

  lemma ServedIsSpread(d: Cluster, e: Cluster, s: ServerId, es: seq<Entry>)
    requires Inv(e) && Served(d, e, s, d.servers.Keys - {s}) && es == d.servers[s].node.log.entries && es != []
    requires d.servers[s].node.commitIndex >= |es|
    ensures Spread(e, s, es)
  {
    hide Inv, Settled;
    forall p | p in e.servers
      ensures Up(e.servers[p]) && es <= e.servers[p].node.log.entries && e.servers[p].node.commitIndex >= |es|
    {
      if p != s { MatchedHolds(e, s, p); }
    }
  }

  /** Every server has consumed the command at position k. */
  ghost predicate AllConsumed(d: Cluster, command: Command, k: nat) {
    forall x :: x in d.servers ==> k < |d.servers[x].consumed| && d.servers[x].consumed[k] == command
  }

  lemma DrainedAll(c: Cluster, d: Cluster, s: ServerId, es: seq<Entry>)
    requires Inv(d) && Spread(c, s, es) && es != [] && AllDrained(c, d, c.servers.Keys)
    ensures AllConsumed(d, es[|es| - 1].command, |es| - 1)
  {
    hide Inv, Up;
    forall x | x in d.servers
      ensures |es| - 1 < |d.servers[x].consumed| && d.servers[x].consumed[|es| - 1] == es[|es| - 1].command
    {
      DrainedConsumed(d, x, es);
    }
  }

  lemma SpreadUp(c: Cluster, s: ServerId, es: seq<Entry>)
    requires Spread(c, s, es)
    ensures forall x :: x in c.servers.Keys ==> Up(c.servers[x])
  {
    hide Up;
  }

  /** A command written last by a leader in charge is consumed by everyone. */
  lemma ConsumeLast(c: Cluster, s: ServerId, command: Command) returns (steps: seq<Step>, k: nat)
    requires Inv(c) && |c.servers| >= 2 && InCharge(c, s) && EndsWith(c, s, command)
    ensures CanRun(c, steps) && Run(c, steps).servers.Keys == c.servers.Keys && AllConsumed(Run(c, steps), command, k)
  {
    hide Inv, InCharge, Run, CanRun, Spread, AllDrained, AllConsumed, Up;
    var es := c.servers[s].node.log.entries;
    var spread := SpreadLog(c, s);
    var d := Run(c, spread);
    RunKeeps(c, spread);
    SpreadUp(d, s, es);
    var drain := DrainAll(d, d.servers.Keys);
    RunKeeps(d, drain);
    DrainedAll(d, Run(d, drain), s, es);
    RunConcat(c, spread, drain);
    steps, k := spread + drain, |es| - 1;
  }

  lemma CanConsume(c: Cluster, command: Command) returns (steps: seq<Step>, k: nat)
    requires Inv(c) && |c.servers| >= 2
    ensures CanRun(c, steps) && Run(c, steps).servers.Keys == c.servers.Keys && AllConsumed(Run(c, steps), command, k)
  {
    hide Inv, InCharge, Calm, EndsWith, Run, CanRun, Acceptable, AllConsumed;
    var elect, s := CanElect(c);
    var d := Run(c, elect);
    RunKeeps(c, elect);
    LeadsCalmly(d, s);
    var submit := Submit(d, s, command);
    var e := Run(d, submit);
    RunKeeps(d, submit);
    var rest;
    rest, k := ConsumeLast(e, s, command);
    RunConcat(d, submit, rest);
    RunConcat(c, elect, submit + rest);
    steps := elect + (submit + rest);
  }

  lemma LeadsCalmly(c: Cluster, s: ServerId)
    requires Calm(c, s) && c.servers[s].node.role == Leader
    ensures InCharge(c, s)
  {
  }

  /** From every reachable state of two or more servers, whatever has been lost, delayed or killed,
      there is a continuation after which every server has consumed any given command, all of them
      at the same position. */
  lemma NeverStuck(members: set<ServerId>, first: seq<Step>, command: Command) returns (rest: seq<Step>, k: nat)
    requires 2 <= |members| <= 255 && CanRun(Init(members), first)
    ensures TwoParts(members, first, rest)
    ensures var d := Run(Run(Init(members), first), rest);
      d.servers.Keys == members && AllConsumed(d, command, k)
  {
    hide Inv, Run, CanRun, AllConsumed;
    var c := Run(Init(members), first);
    ReachedInv(members, first, c);
    assert |c.servers| == |c.servers.Keys|;
    rest, k := CanConsume(c, command);
  }

  // ---- exactly

  /** After the steps, every server has consumed the command, at position k. */
  ghost predicate ConsumedBy(members: set<ServerId>, first: seq<Step>, rest: seq<Step>, command: Command, k: nat) {
    && TwoParts(members, first, rest)
    && var d := Run(Run(Init(members), first), rest);
    d.servers.Keys == members && AllConsumed(d, command, k)
  }

  ghost predicate Consumable(members: set<ServerId>, first: seq<Step>, command: Command) {
    exists rest, k :: ConsumedBy(members, first, rest, command, k)
  }

  /** Any command can still be consumed after any run. */
  ghost predicate AlwaysOpen(members: set<ServerId>) {
    forall first, command :: CanRun(Init(members), first) ==> Consumable(members, first, command)
  }

  /** That holds of exactly the clusters of two or more servers. */
  lemma AlwaysOpenIff(members: set<ServerId>)
    requires 1 <= |members| <= 255
    ensures AlwaysOpen(members) <==> |members| >= 2
  {
    hide Run, CanRun, Init;
    if |members| >= 2 {
      forall first, command | CanRun(Init(members), first)
        ensures Consumable(members, first, command)
      {
        var rest, k := NeverStuck(members, first, command);
        assert ConsumedBy(members, first, rest, command, k);
      }
    } else if AlwaysOpen(members) {
      var none := Stay(Init(members));
      assert Consumable(members, none, Command(""));
      var rest, k :| ConsumedBy(members, none, rest, Command(""), k);
      var x :| x in members;
      SoleConsumesNothing(members, none, rest, x);
    }
  }

  lemma SoleConsumesNothing(members: set<ServerId>, first: seq<Step>, rest: seq<Step>, x: ServerId)
    requires |members| == 1 && TwoParts(members, first, rest) && x in members
    requires x in Run(Run(Init(members), first), rest).servers
    ensures Run(Run(Init(members), first), rest).servers[x].consumed == []
  {
    hide Run, CanRun, Init;
    RunConcat(Init(members), first, rest);
    var steps := first + rest;
    var d := Run(Init(members), steps);
    if d.servers[x].consumed != [] {
      var none := Stay(d);
      ConsumedWritten(members, steps, none, x, x, 0);
      var e: Entry, j: nat :| WrittenBy(members, steps, e, j);
      var c := Run(Init(members), steps[..j]);
      SoleServerNeverLeads(members, steps[..j], c, steps[j].s);
    }
  }
}
