/** The model is not empty: two servers elect a leader, replicate a command, commit it and hand it
    to the state machine, in ten steps. */
module RaftWitness {
  import opened Options
  import opened RaftTypes
  import opened RaftLog
  import opened RaftNode
  import opened RaftCluster

  /** What stays the same of server `a` all along. */
  predicate Upright(n: Node, b: ServerId) {
    && !n.killed && !n.pendingSnapshot && n.clusterSize == 2
    && n.lastIncludedIndex == 0 && n.lastIncludedTerm == 0
    && n.matchIndex.Keys == {b} && b in n.nextIndex && b in n.shouldStartElection
  }

  predicate Quiet(v: Server) { v.appendCall == map[] && v.phase == Idle && v.slot == None && !v.closed }

  /** `a` is candidate in term 1 with an empty log, `b` has seen nothing yet. */
  predicate Standing(c: Cluster, a: ServerId, b: ServerId) {
    && a in c.servers && b in c.servers && Quiet(c.servers[a])
    && var n, m := c.servers[a].node, c.servers[b].node;
    && Upright(n, b) && n.role == Candidate && n.currentTerm == 1 && n.log == LogState([], 0, 0)
    && n.commitIndex == 0 && n.lastApplied == 0 && n.votesGranted == 1 && n.selfId == a
    && n.requestVoteArg == RequestVoteArg(a, 1, 0, 0)
    && !m.killed && !m.pendingSnapshot && m.currentTerm == 0 && m.log == LogState([], 0, 0)
  }

  /** `a` leads term 1 with the log `es`, `b` is in term 1 with an empty log. */
  predicate Leading(c: Cluster, a: ServerId, b: ServerId, es: seq<Entry>) {
    && a in c.servers && b in c.servers && Quiet(c.servers[a])
    && var n, m := c.servers[a].node, c.servers[b].node;
    && Upright(n, b) && n.role == Leader && n.currentTerm == 1 && n.log == LogState(es, 0, 0)
    && n.commitIndex == 0 && n.lastApplied == 0 && n.selfId == a && n.nextIndex[b] == 1 && n.matchIndex[b] == 0
    && !m.killed && !m.pendingSnapshot && m.currentTerm == 1 && m.log == LogState([], 0, 0)
  }

  lemma StandUp(a: ServerId, b: ServerId)
    requires a != b
    ensures var c := Init({a, b});
      CanTimeout(c, a) && Standing(DoTimeout(c, a), a, b) && DoTimeout(c, a).servers[a].voteCall == map[]
      && WantsVote(DoTimeout(c, a).servers[a].node, b)
  {
    assert |{a, b}| == 2;
    assert {a, b} - {a} == {b};
    assert Merge([], []) == [];
  }

  function Ballot1(a: ServerId): RequestVoteArg { RequestVoteArg(a, 1, 0, 0) }

  lemma Elect(c: Cluster, a: ServerId, b: ServerId)
    requires a != b && Standing(c, a, b) && c.servers[a].voteCall == map[] && WantsVote(c.servers[a].node, b)
    ensures CanSendVote(c, a, b)
    ensures var d := DoSendVote(c, a, b);
      && CanVote(d, b, Ballot1(a))
      && var e := DoVote(d, b, Ballot1(a));
      && CanReceiveVote(e, a, b, Some(RequestVoteReply(true, 1)))
      && Leading(DoReceiveVote(e, a, b, Some(RequestVoteReply(true, 1))), a, b, [])
  {
    var d := DoSendVote(c, a, b);
    var e := DoVote(d, b, Ballot1(a));
    assert e.servers[a] == d.servers[a];
    assert OnRequestVote(d.servers[b].node, Ballot1(a)).1 == RequestVoteReply(true, 1);
  }

  function FirstEntry(command: Command): Entry { Entry(1, 1, command) }

  function FirstAppend(a: ServerId, command: Command): AppendEntriesArg {
    AppendEntriesArg(a, 1, 0, 0, 0, [FirstEntry(command)])
  }

  lemma Submit(c: Cluster, a: ServerId, b: ServerId, command: Command)
    requires a != b && Leading(c, a, b, [])
    ensures CanClientStart(c, a) && Leading(DoClientStart(c, a, command), a, b, [FirstEntry(command)])
  {
  }

  /** `b` has accepted the entry and the reply is on its way to `a`. */
  predicate Acknowledged(c: Cluster, a: ServerId, b: ServerId, command: Command, garbage: Conflict) {
    && a in c.servers && c.servers[a].phase == Idle && c.servers[a].slot == None && !c.servers[a].closed
    && var n := c.servers[a].node;
    && Upright(n, b) && n.role == Leader && n.currentTerm == 1 && n.log == LogState([FirstEntry(command)], 0, 0)
    && n.commitIndex == 0 && n.lastApplied == 0
    && c.servers[a].appendCall == map[b := FirstAppend(a, command)]
    && AppendReply(b, FirstAppend(a, command), AppendEntriesReply(true, 1, garbage), Some([])) in c.net
  }

  lemma Replicate(c: Cluster, a: ServerId, b: ServerId, command: Command, garbage: Conflict)
    requires a != b && Leading(c, a, b, [FirstEntry(command)])
    ensures CanSendAppend(c, a, b)
    ensures var d := DoSendAppend(c, a, b);
      && CanAppend(d, b, FirstAppend(a, command))
      && Acknowledged(DoAppend(d, b, FirstAppend(a, command), garbage), a, b, command, garbage)
  {
    var es := [FirstEntry(command)];
    PositionContiguous(es, 0, 0);
    PositionContiguous(es, 0, 1);
    assert BuildAppend(c.servers[a].node, b) == Some(FirstAppend(a, command));
  }

  lemma Commit(c: Cluster, a: ServerId, b: ServerId, command: Command, garbage: Conflict)
    requires a != b && Acknowledged(c, a, b, command, garbage)
    ensures CanReceiveAppend(c, a, b, Some(AppendEntriesReply(true, 1, garbage)), Some([]))
    ensures var d := DoReceiveAppend(c, a, b, Some(AppendEntriesReply(true, 1, garbage)), Some([]));
      && CanApplyRead(d, a) && CanApplySend(DoApplyRead(d, a), a)
      && (a, FirstEntry(command)) in DoApplySend(DoApplyRead(d, a), a).h.applied
  {
    var n := c.servers[a].node;
    PositionContiguous(n.log.entries, 0, 1);
    var m := n.(nextIndex := n.nextIndex[b := 2], matchIndex := n.matchIndex[b := 1]);
    assert Matching(m, 1) == {b};
    assert CommitScan(m, 1) == 1;
  }

  /** A run in which `a` is elected and takes a command. */
  lemma SomeRunElects(a: ServerId, b: ServerId, command: Command) returns (steps: seq<Step>)
    requires a != b
    ensures CanRun(Init({a, b}), steps) && Leading(Run(Init({a, b}), steps), a, b, [FirstEntry(command)])
  {
    hide Standing, Leading, Init, Run, CanRun;
    hide DoTimeout, DoSendVote, DoVote, DoReceiveVote, DoClientStart;
    hide CanTimeout, CanSendVote, CanVote, CanReceiveVote, CanClientStart;
    var c0 := Init({a, b});
    StandUp(a, b);
    var c1 := DoTimeout(c0, a);
    Elect(c1, a, b);
    var c2 := DoSendVote(c1, a, b);
    var c3 := DoVote(c2, b, Ballot1(a));
    var c4 := DoReceiveVote(c3, a, b, Some(RequestVoteReply(true, 1)));
    Submit(c4, a, b, command);
    var c5 := DoClientStart(c4, a, command);
    steps := Stay(c5);
    steps := Prepend(c4, c5, ClientStart(a, command), steps);
    steps := Prepend(c3, c5, ReceiveVote(a, b, Some(RequestVoteReply(true, 1))), steps);
    steps := Prepend(c2, c5, HandleVote(b, Ballot1(a)), steps);
    steps := Prepend(c1, c5, SendVote(a, b), steps);
    steps := Prepend(c0, c5, ElectionTimeout(a), steps);
  }

  lemma ThenApplies(c: Cluster, a: ServerId, b: ServerId, command: Command) returns (steps: seq<Step>)
    requires a != b && Leading(c, a, b, [FirstEntry(command)])
    ensures CanRun(c, steps) && (a, FirstEntry(command)) in Run(c, steps).h.applied
  {
    hide Leading, Acknowledged, Run, CanRun;
    hide DoSendAppend, DoAppend, DoReceiveAppend, DoApplyRead, DoApplySend;
    hide CanSendAppend, CanAppend, CanReceiveAppend, CanApplyRead, CanApplySend;
    var g := Conflict(0, 0);
    Replicate(c, a, b, command, g);
    var c1 := DoSendAppend(c, a, b);
    var c2 := DoAppend(c1, b, FirstAppend(a, command), g);
    Commit(c2, a, b, command, g);
    var c3 := DoReceiveAppend(c2, a, b, Some(AppendEntriesReply(true, 1, g)), Some([]));
    var c4 := DoApplyRead(c3, a);
    var c5 := DoApplySend(c4, a);
    steps := Stay(c5);
    steps := Prepend(c4, c5, ApplySend(a), steps);
    steps := Prepend(c3, c5, ApplyRead(a), steps);
    steps := Prepend(c2, c5, ReceiveAppend(a, b, Some(AppendEntriesReply(true, 1, g)), Some([])), steps);
    steps := Prepend(c1, c5, HandleAppend(b, FirstAppend(a, command), g), steps);
    steps := Prepend(c, c5, SendAppend(a, b), steps);
  }

  /** Some run of two servers applies any given command. */
  lemma SomeRunApplies(a: ServerId, b: ServerId, command: Command) returns (steps: seq<Step>)
    requires a != b
    ensures CanRun(Init({a, b}), steps)
    ensures (a, FirstEntry(command)) in Run(Init({a, b}), steps).h.applied
  {
    hide Run, CanRun, Leading;
    var first := SomeRunElects(a, b, command);
    var rest := ThenApplies(Run(Init({a, b}), first), a, b, command);
    RunConcat(Init({a, b}), first, rest);
    steps := first + rest;
  }

  lemma Stay(c: Cluster) returns (steps: seq<Step>)
    ensures CanRun(c, steps) && Run(c, steps) == c
  {
    steps := [];
  }

  lemma Prepend(c: Cluster, last: Cluster, step: Step, steps: seq<Step>) returns (more: seq<Step>)
    requires Enabled(c, step) && CanRun(Do(c, step), steps) && Run(Do(c, step), steps) == last
    ensures more == [step] + steps && CanRun(c, more) && Run(c, more) == last
  {
    more := [step] + steps;
    assert more[1..] == steps;
  }
}
