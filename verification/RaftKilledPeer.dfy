/** The runs that backtracking is not bounded in: a killed peer that still answers can keep its
    leader trying for ever, and send it forward. */
module RaftKilledPeer {
  import opened Options
  import opened RaftTypes
  import opened RaftLog
  import opened RaftNode
  import opened RaftCluster
  import opened RaftBacktracking
  import opened RaftWitness

  /** `a` leads term 1 with the single entry `e`; `b` is in term 1 and killed. */
  predicate Stuck(c: Cluster, a: ServerId, b: ServerId, e: Entry) {
    && a in c.servers && b in c.servers && c.servers[a].appendCall == map[]
    && var n, m := c.servers[a].node, c.servers[b].node;
    && !n.killed && n.role == Leader && n.currentTerm == 1 && n.log == LogState([e], 0, 0) && e.index == 1
    && e.term == 1
    && n.selfId == a && n.commitIndex == 0 && n.lastIncludedIndex == 0 && n.lastIncludedTerm == 0
    && b in n.nextIndex && 1 <= n.nextIndex[b] <= 2
    && m.killed && m.currentTerm == 1
  }

  /** What the uninitialised fields of the killed peer's reply happen to hold. */
  const WRONG := Conflict(0, 2)

  function Request(c: Cluster, a: ServerId, b: ServerId, e: Entry): AppendEntriesArg
    requires Stuck(c, a, b, e)
  {
    if c.servers[a].node.nextIndex[b] == 1 then AppendEntriesArg(a, 1, 0, 0, 0, [e])
    else AppendEntriesArg(a, 1, 1, 1, 0, [])
  }

  lemma RequestBuilt(c: Cluster, a: ServerId, b: ServerId, e: Entry)
    requires Stuck(c, a, b, e)
    ensures BuildAppend(c.servers[a].node, b) == Some(Request(c, a, b, e))
  {
    PositionContiguous([e], 0, 0);
    PositionContiguous([e], 0, 1);
    PositionContiguous([e], 0, 2);
  }

  /** One round: the request goes out, comes back unread, and the leader is where it was or further on. */
  lemma RoundRuns(c: Cluster, a: ServerId, b: ServerId, e: Entry)
    requires a != b && Stuck(c, a, b, e)
    ensures CanSendAppend(c, a, b)
    ensures var d := DoSendAppend(c, a, b);
      var arg := Request(c, a, b, e);
      && CanAppend(d, b, arg)
      && var f := DoAppend(d, b, arg, WRONG);
      && CanReceiveAppend(f, a, b, Some(AppendEntriesReply(false, 1, WRONG)), None)
      && var g := DoReceiveAppend(f, a, b, Some(AppendEntriesReply(false, 1, WRONG)), None);
      && Stuck(g, a, b, e) && g.servers[a].node.nextIndex[b] == 2
  {
    RequestBuilt(c, a, b, e);
    var d := DoSendAppend(c, a, b);
    var f := DoAppend(d, b, Request(c, a, b, e), WRONG);
    assert f.servers[a] == d.servers[a];
    assert TermLastIndex([e], 0) == 0;
  }

  lemma RejectionsPrepend(step: Step, steps: seq<Step>, a: ServerId, b: ServerId)
    ensures Rejections([step] + steps, a, b)
      == Rejections(steps, a, b)
         + if step.ReceiveAppend? && step.s == a && step.peer == b && step.appendReply.Some? then 1 else 0
  {
    assert ([step] + steps)[1..] == steps;
  }

  /** Any number of rounds. */
  lemma {:induction false} Rounds(c: Cluster, a: ServerId, b: ServerId, e: Entry, k: nat)
    returns (steps: seq<Step>, last: Cluster)
    requires a != b && Stuck(c, a, b, e)
    ensures CanRun(c, steps) && Run(c, steps) == last && Rejections(steps, a, b) == k
    ensures Stuck(last, a, b, e)
    ensures last.servers[a].node.nextIndex[b] == if k == 0 then c.servers[a].node.nextIndex[b] else 2
    decreases k
  {
    if k == 0 {
      steps, last := [], c;
    } else {
      RoundRuns(c, a, b, e);
      var arg := Request(c, a, b, e);
      var d := DoSendAppend(c, a, b);
      var f := DoAppend(d, b, arg, WRONG);
      var g := DoReceiveAppend(f, a, b, Some(AppendEntriesReply(false, 1, WRONG)), None);
      steps, last := Rounds(g, a, b, e, k - 1);
      hide Stuck, DoSendAppend, DoAppend, DoReceiveAppend, CanSendAppend, CanAppend, CanReceiveAppend, Run, CanRun;
      steps := Unread(f, last, a, b, steps, ReceiveAppend(a, b, Some(AppendEntriesReply(false, 1, WRONG)), None));
      steps := Unread(d, last, a, b, steps, HandleAppend(b, arg, WRONG));
      steps := Unread(c, last, a, b, steps, SendAppend(a, b));
    }
  }

  lemma Unread(c: Cluster, last: Cluster, a: ServerId, b: ServerId, steps: seq<Step>, step: Step)
    returns (more: seq<Step>)
    requires Enabled(c, step) && CanRun(Do(c, step), steps) && Run(Do(c, step), steps) == last
    ensures CanRun(c, more) && Run(c, more) == last
    ensures Rejections(more, a, b)
      == Rejections(steps, a, b)
         + if step.ReceiveAppend? && step.s == a && step.peer == b && step.appendReply.Some? then 1 else 0
  {
    more := Prepend(c, last, step, steps);
    RejectionsPrepend(step, steps, a, b);
  }

  lemma KillStuck(c: Cluster, a: ServerId, b: ServerId, e: Entry)
    requires a != b && Leading(c, a, b, [e]) && e.index == 1 && e.term == 1
    ensures Stuck(DoKill(c, b), a, b, e) && DoKill(c, b).servers[a].node.nextIndex[b] == 1
  {
  }

  /** For any number k there is a run in which a leader that keeps its term hears k rejections from
      one peer, and its next index for that peer is higher at the end than when it began. */
  lemma KilledPeerRejectsForever(a: ServerId, b: ServerId, command: Command, k: nat)
    returns (first: seq<Step>, rest: seq<Step>)
    requires a != b && k > 0
    ensures CanRun(Init({a, b}), first) && CanRun(Run(Init({a, b}), first), rest)
    ensures var c := Run(Init({a, b}), first);
      var d := Run(c, rest);
      var e := FirstEntry(command);
      && Stuck(c, a, b, e) && Stuck(d, a, b, e) && Rejections(rest, a, b) == k
      && c.servers[a].node.nextIndex[b] == 1 && d.servers[a].node.nextIndex[b] == 2
  {
    hide Run, CanRun, Leading, Stuck, Rejections, DoKill;
    var elect := SomeRunElects(a, b, command);
    var c := Run(Init({a, b}), elect);
    assert b in c.servers by { LeadingHas(c, a, b, [FirstEntry(command)]); }
    var d := DoKill(c, b);
    KillStuck(c, a, b, FirstEntry(command));
    var kill := Stay(d);
    kill := Prepend(c, d, Kill(b), kill);
    RunConcat(Init({a, b}), elect, kill);
    first := elect + kill;
    var last;
    rest, last := Rounds(d, a, b, FirstEntry(command), k);
  }

  lemma LeadingHas(c: Cluster, a: ServerId, b: ServerId, es: seq<Entry>)
    requires Leading(c, a, b, es)
    ensures b in c.servers
  {
  }
}
