/** Whatever has happened to a cluster, it can elect a leader again: everyone restarts, and a server
    whose log all others accept stands in a new term and asks them one by one. */
module RaftRecovery {
  import opened Options
  import opened RaftTypes
  import opened RaftLog
  import opened RaftNode
  import opened RaftCluster
  import opened RaftInvariant
  import opened RaftEvolution
  import opened RaftFrame
  import opened RaftSafety
  import opened RaftTheorems
  import opened RaftDecisions
  import opened RaftWitness

  /** Alive, with nothing between the log and the state machine. */
  predicate Up(v: Server) { !v.node.killed && v.phase == Idle && v.slot == None && !v.closed }

  /** Everyone is up, nobody has gone past the term of `s`, and `s` is not waiting for an answer. */
  ghost predicate Calm(c: Cluster, s: ServerId) {
    && s in c.servers && c.servers[s].voteCall == map[] && c.servers[s].appendCall == map[]
    && forall p :: p in c.servers ==>
         Up(c.servers[p]) && c.servers[p].node.currentTerm <= c.servers[s].node.currentTerm
  }

  lemma DoInv(c: Cluster, step: Step)
    requires Inv(c) && Enabled(c, step)
    ensures Inv(Do(c, step)) && Do(c, step).servers.Keys == c.servers.Keys
  {
    hide Inv, Enabled, Do, LedgerGrows, HeldGrows, VotesGrow;
    StepInv(c, step);
  }

  lemma RunKeeps(c: Cluster, steps: seq<Step>)
    requires Inv(c) && CanRun(c, steps)
    ensures Inv(Run(c, steps)) && Run(c, steps).servers.Keys == c.servers.Keys
    ensures |Run(c, steps).servers| == |c.servers|
  {
    hide Inv, Run, CanRun, LedgerGrows, HeldGrows, VotesGrow;
    RunInv(c, steps);
    assert |Run(c, steps).servers| == |Run(c, steps).servers.Keys| == |c.servers.Keys| == |c.servers|;
  }

  // ---- everyone restarts

  /** Just restarted. */
  predicate Rested(v: Server) { Up(v) && v.node.role == Follower && v.voteCall == map[] && v.appendCall == map[] }

  predicate SameMemory(v: Server, w: Server) {
    v.node.currentTerm == w.node.currentTerm && v.node.log == w.node.log
  }

  lemma RestartOne(c: Cluster, p: ServerId)
    requires Inv(c) && p in c.servers
    ensures var d := DoRestart(c, p);
      && d.servers == c.servers[p := d.servers[p]]
      && Rested(d.servers[p]) && SameMemory(c.servers[p], d.servers[p])
  {
    hide Inv, Merge, Filled;
    ShapeOf(c, p);
    MergeEmpty(c.servers[p].node.log.entries);
  }

  lemma {:induction false} RestartAll(c: Cluster, some: set<ServerId>) returns (steps: seq<Step>)
    requires Inv(c) && some <= c.servers.Keys
    ensures CanRun(c, steps)
    ensures var d := Run(c, steps);
      && d.servers.Keys == c.servers.Keys
      && forall p :: p in c.servers ==>
           && SameMemory(c.servers[p], d.servers[p])
           && (if p in some then Rested(d.servers[p]) else d.servers[p] == c.servers[p])
    decreases |some|
  {
    hide Inv, Rested, DoRestart, SameMemory;
    if some == {} {
      steps := Stay(c);
      assert forall p :: p in c.servers ==> SameMemory(c.servers[p], c.servers[p]) by { SameAsItself(); }
    } else {
      var p :| p in some;
      var d := DoRestart(c, p);
      RestartOne(c, p);
      DoInv(c, Restart(p));
      var rest := RestartAll(d, some - {p});
      hide Run, CanRun;
      var e := Run(d, rest);
      steps := Prepend(c, e, Restart(p), rest);
      forall q | q in c.servers
        ensures SameMemory(c.servers[q], e.servers[q])
        ensures if q in some then Rested(e.servers[q]) else e.servers[q] == c.servers[q]
      {
        assert q in d.servers;
        if q == p { assert e.servers[q] == d.servers[q]; } else { assert d.servers[q] == c.servers[q]; }
      }
    }
  }

  lemma SameAsItself()
    ensures forall v :: SameMemory(v, v)
  {
  }

  // ---- one server stands

  lemma {:induction false} HighestTerm(c: Cluster, some: set<ServerId>) returns (top: nat)
    requires some <= c.servers.Keys
    ensures forall p :: p in some ==> c.servers[p].node.currentTerm <= top
    decreases |some|
  {
    if some == {} {
      top := 0;
    } else {
      var p :| p in some;
      var rest := HighestTerm(c, some - {p});
      top := Max(rest, c.servers[p].node.currentTerm);
    }
  }

  /** A candidate that has asked nobody yet. */
  predicate Stands(n: Node) {
    n.role == Candidate && n.votesGranted == 1 && forall p :: p in n.shouldStartElection ==> n.shouldStartElection[p]
  }

  lemma StandOnce(c: Cluster, s: ServerId)
    requires CanTimeout(c, s)
    ensures var v, w := c.servers[s], DoTimeout(c, s).servers[s];
      && DoTimeout(c, s).servers == c.servers[s := w] && DoTimeout(c, s).net == c.net
      && Stands(w.node) && w.node.currentTerm == v.node.currentTerm + 1 && w.node.log == v.node.log
      && w.node.killed == v.node.killed
      && w == v.(node := w.node, disk := w.disk)
  {
  }

  /** Standing again and again reaches any term. */
  lemma {:induction false} StandIn(c: Cluster, s: ServerId, term: nat) returns (steps: seq<Step>)
    requires Inv(c) && CanTimeout(c, s) && c.servers[s].node.currentTerm < term
    ensures CanRun(c, steps)
    ensures var v, d := c.servers[s], Run(c, steps);
      && s in d.servers && d.servers == c.servers[s := d.servers[s]]
      && var w := d.servers[s];
      && Stands(w.node) && w.node.currentTerm == term && w.node.log == v.node.log
      && w.node.killed == v.node.killed
      && w == v.(node := w.node, disk := w.disk)
    decreases term - c.servers[s].node.currentTerm
  {
    hide Inv, DoTimeout;
    StandOnce(c, s);
    var d := DoTimeout(c, s);
    DoInv(c, ElectionTimeout(s));
    if d.servers[s].node.currentTerm == term {
      steps := Stay(d);
      hide Run, CanRun, Stands;
      steps := Prepend(c, d, ElectionTimeout(s), steps);
    } else {
      var rest := StandIn(d, s, term);
      hide Run, CanRun, Stands;
      steps := Prepend(c, Run(d, rest), ElectionTimeout(s), rest);
    }
  }

  // ---- and asks the others

  /** `s` has the vote of everyone but the servers in `ps`, which it can ask and which will agree. */
  ghost predicate Campaign(c: Cluster, s: ServerId, ps: set<ServerId>) {
    && Calm(c, s) && s !in ps && ps <= c.servers.Keys
    && var n := c.servers[s].node;
    && n.role == Candidate && n.votesGranted + |ps| == |c.servers| && 2 * n.votesGranted <= |c.servers|
    && forall p :: p in ps ==> Willing(n, c.servers[p].node, p)
  }

  predicate Willing(n: Node, m: Node, p: ServerId) {
    && p in n.shouldStartElection && n.shouldStartElection[p]
    && m.currentTerm < n.currentTerm && Acceptable(n.log.entries, m.log.entries)
  }

  /** The request of a candidate. */
  function Request(s: ServerId, n: Node): RequestVoteArg {
    var es := n.log.entries;
    RequestVoteArg(s, n.currentTerm, |es|, if es == [] then 0 else es[|es| - 1].term)
  }

  lemma RequestIs(c: Cluster, s: ServerId)
    requires Inv(c) && s in c.servers && c.servers[s].node.role == Candidate
    ensures c.servers[s].node.requestVoteArg == Request(s, c.servers[s].node)
  {
    hide Inv, VotesOk;
    CandidateParts(c, s);
    ShapeOf(c, s);
    LogInOrder(c, s);
    LastContiguous(c.servers[s].node.log);
  }

  /** The candidate sends its request to `p`. */
  lemma AskSends(c: Cluster, s: ServerId, p: ServerId, ps: set<ServerId>)
    requires Inv(c) && Campaign(c, s, ps) && p in ps
    ensures CanSendVote(c, s, p)
    ensures var d, arg := DoSendVote(c, s, p), Request(s, c.servers[s].node);
      && d.servers == c.servers[s := d.servers[s]] && CanVote(d, p, arg)
      && d.servers[s] == c.servers[s].(node := TakeVoteTurn(c.servers[s].node, p), voteCall := map[p := arg])
      && Grants(d.servers[p].node, arg)
  {
    hide Inv, Acceptable;
    RequestIs(c, s);
    assert Willing(c.servers[s].node, c.servers[p].node, p);
    AcceptableMeans(c.servers[s].node, s, c.servers[p].node.log.entries);
    hide NoOlder;
  }

  lemma AcceptableMeans(n: Node, s: ServerId, es: seq<Entry>)
    ensures Acceptable(n.log.entries, es) <==> NoOlder(Request(s, n).lastLogIndex, Request(s, n).lastLogTerm, es)
  {
  }

  /** `p` has granted its vote, and the candidate has heard of it. */
  ghost predicate Asked(c: Cluster, d: Cluster, s: ServerId, p: ServerId) {
    && s in c.servers && p in c.servers && s != p && d.servers.Keys == c.servers.Keys
    && (forall x :: x in c.servers && x != s && x != p ==> d.servers[x] == c.servers[x])
    && var n, m := c.servers[s].node, d.servers[s].node;
    && m.currentTerm == n.currentTerm && m.log == n.log && m.votesGranted == n.votesGranted + 1
    && m.role == (if 2 * m.votesGranted > |c.servers| then Leader else Candidate)
    && m.shouldStartElection == n.shouldStartElection[p := false]
    && d.servers[s] == c.servers[s].(node := m) && Up(d.servers[s])
    && d.servers[p].node == c.servers[p].node.(
         currentTerm := n.currentTerm, role := Follower, votedFor := Some(s))
    && d.servers[p] == c.servers[p].(node := d.servers[p].node, disk := d.servers[p].disk)
  }

  lemma VoteArrives(c: Cluster, e: Cluster, f: Cluster, s: ServerId, p: ServerId, arg: RequestVoteArg)
    requires s in c.servers && p in c.servers && s != p && c.servers[s].voteCall == map[] && Up(c.servers[s])
    requires e.servers.Keys == c.servers.Keys && |e.servers| == |c.servers|
    requires forall x :: x in c.servers && x != s && x != p ==> e.servers[x] == c.servers[x]
    requires e.servers[s] == c.servers[s].(node := TakeVoteTurn(c.servers[s].node, p), voteCall := map[p := arg])
    requires e.servers[p] == c.servers[p].(node := e.servers[p].node, disk := e.servers[p].disk)
    requires e.servers[p].node == c.servers[p].node.(
      currentTerm := c.servers[s].node.currentTerm, role := Follower, votedFor := Some(s))
    requires c.servers[s].node.role == Candidate && VoteCounted(e, f, s, p)
    ensures Asked(c, f, s, p)
  {
    assert map[p := arg] - {p} == map[];
  }

  lemma AskRun(c: Cluster, s: ServerId, p: ServerId, ps: set<ServerId>) returns (steps: seq<Step>)
    requires Inv(c) && Campaign(c, s, ps) && p in ps
    ensures CanRun(c, steps) && Asked(c, Run(c, steps), s, p)
  {
    hide Inv, DoSendVote, DoVote, DoReceiveVote, VoteCounted, Grants, CanSendVote, Asked, Willing;
    AskSends(c, s, p, ps);
    var arg := Request(s, c.servers[s].node);
    var d := DoSendVote(c, s, p);
    DoInv(c, SendVote(s, p));
    var e := DoVote(d, p, arg);
    DecidesVote(d, e, p, arg);
    DoInv(d, HandleVote(p, arg));
    var r := RequestVoteReply(true, arg.term);
    assert e.servers[s] == d.servers[s];
    assert CanReceiveVote(e, s, p, Some(r));
    var f := DoReceiveVote(e, s, p, Some(r));
    CountsOne(e, f, s, p, r);
    assert |e.servers| == |e.servers.Keys| == |c.servers.Keys| == |c.servers|;
    VoteArrives(c, e, f, s, p, arg);
    hide Run, CanRun, Campaign, CanVote, CanReceiveVote, VoteDecided;
    steps := Stay(f);
    steps := Prepend(e, f, ReceiveVote(s, p, Some(r)), steps);
    steps := Prepend(d, f, HandleVote(p, arg), steps);
    steps := Prepend(c, f, SendVote(s, p), steps);
  }

  /** The others keep their memory and their part of the pipeline. */
  ghost predicate Ahead(c: Cluster, d: Cluster, s: ServerId) {
    && Calm(d, s) && d.servers.Keys == c.servers.Keys && s in c.servers
    && d.servers[s].node.currentTerm == c.servers[s].node.currentTerm
    && d.servers[s].node.log == c.servers[s].node.log
  }

  lemma AskedMore(c: Cluster, d: Cluster, s: ServerId, p: ServerId, ps: set<ServerId>)
    requires Campaign(c, s, ps) && p in ps && Asked(c, d, s, p)
    ensures Ahead(c, d, s)
    ensures d.servers[s].node.role != Leader ==> Campaign(d, s, ps - {p})
  {
    hide Acceptable;
    assert |d.servers| == |d.servers.Keys| == |c.servers.Keys| == |c.servers|;
    assert |ps - {p}| == |ps| - 1;
    var n, m := c.servers[s].node, d.servers[s].node;
    forall q | q in ps - {p}
      ensures Willing(m, d.servers[q].node, q)
    {
      assert Willing(n, c.servers[q].node, q);
    }
  }

  lemma {:induction false} WinRun(c: Cluster, s: ServerId, ps: set<ServerId>) returns (steps: seq<Step>)
    requires Inv(c) && Campaign(c, s, ps)
    ensures CanRun(c, steps) && Ahead(c, Run(c, steps), s) && Run(c, steps).servers[s].node.role == Leader
    decreases |ps|
  {
    hide Inv, Asked, Willing;
    assert |ps| > 0 by { assert |c.servers| > 0; }
    var p :| p in ps;
    var ask := AskRun(c, s, p, ps);
    hide Run, CanRun;
    var d := Run(c, ask);
    RunKeeps(c, ask);
    AskedMore(c, d, s, p, ps);
    if d.servers[s].node.role == Leader {
      steps := ask;
    } else {
      var rest := WinRun(d, s, ps - {p});
      RunConcat(c, ask, rest);
      steps := ask + rest;
    }
  }

  /** `d` is `c` with everyone restarted, and `e` is `d` with `s` standing in a term after `top`. */
  ghost predicate Standing(c: Cluster, d: Cluster, e: Cluster, s: ServerId, top: nat) {
    && s in c.servers && d.servers.Keys == c.servers.Keys
    && (forall p :: p in c.servers ==>
          && SameMemory(c.servers[p], d.servers[p]) && Rested(d.servers[p]) && c.servers[p].node.currentTerm <= top
          && Acceptable(c.servers[s].node.log.entries, c.servers[p].node.log.entries))
    && s in e.servers && e.servers == d.servers[s := e.servers[s]]
    && var w := e.servers[s];
    && Stands(w.node) && w.node.currentTerm == top + 1 && w.node.log == c.servers[s].node.log && !w.node.killed
    && w == d.servers[s].(node := w.node, disk := w.disk)
  }

  lemma StandingCalm(c: Cluster, d: Cluster, e: Cluster, s: ServerId, top: nat)
    requires Standing(c, d, e, s, top)
    ensures Calm(e, s)
  {
    hide Acceptable, Stands;
    assert Rested(d.servers[s]);
    forall p | p in e.servers
      ensures Up(e.servers[p]) && e.servers[p].node.currentTerm <= e.servers[s].node.currentTerm
    {
      assert Rested(d.servers[p]) && SameMemory(c.servers[p], d.servers[p]);
    }
  }

  lemma StandingWilling(c: Cluster, d: Cluster, e: Cluster, s: ServerId, top: nat, p: ServerId)
    requires Standing(c, d, e, s, top) && p in c.servers && p != s && p in e.servers[s].node.shouldStartElection
    ensures Willing(e.servers[s].node, e.servers[p].node, p)
  {
    hide Acceptable, Rested;
    assert SameMemory(c.servers[p], d.servers[p]);
  }

  lemma StandingSizes(c: Cluster, d: Cluster, e: Cluster, s: ServerId, top: nat)
    requires Standing(c, d, e, s, top)
    ensures e.servers.Keys == c.servers.Keys && |e.servers| == |c.servers| == |c.servers.Keys - {s}| + 1
    ensures e.servers[s].node.role == Candidate && e.servers[s].node.votesGranted == 1
  {
    hide Acceptable, Rested, SameMemory;
    assert e.servers.Keys == c.servers.Keys;
    assert |e.servers| == |e.servers.Keys| == |c.servers.Keys| == |c.servers|;
    assert |c.servers.Keys - {s}| == |c.servers| - 1;
  }

  lemma StartCampaign(c: Cluster, d: Cluster, e: Cluster, s: ServerId, top: nat)
    requires |c.servers| >= 2 && Inv(e) && Standing(c, d, e, s, top)
    ensures Campaign(e, s, c.servers.Keys - {s})
  {
    hide Inv, Standing, Calm, Willing, Plain;
    StandingSizes(c, d, e, s, top);
    StandingCalm(c, d, e, s, top);
    ShapeOf(e, s);
    forall p | p in c.servers.Keys - {s}
      ensures Willing(e.servers[s].node, e.servers[p].node, p)
    {
      StandingWilling(c, d, e, s, top, p);
    }
  }

  /** From every reachable state of two or more servers there is a continuation after which everyone
      is up and a server whose log everyone accepted leads a term nobody has gone past. */
  lemma CanElect(c: Cluster) returns (steps: seq<Step>, s: ServerId)
    requires Inv(c) && |c.servers| >= 2
    ensures CanRun(c, steps)
    ensures var d := Run(c, steps);
      Calm(d, s) && d.servers[s].node.role == Leader && d.servers.Keys == c.servers.Keys
    ensures s in c.servers && forall p :: p in c.servers ==>
      Acceptable(c.servers[s].node.log.entries, c.servers[p].node.log.entries)
  {
    hide Inv, Acceptable, Rested, SameMemory, Stands, Campaign;
    var all := c.servers.Keys;
    assert all != {} by { assert |c.servers| == |all|; }
    s := SomeoneAcceptable(c, all);
    var top := HighestTerm(c, all);
    var restart := RestartAll(c, all);
    hide Run, CanRun;
    var d := Run(c, restart);
    RunKeeps(c, restart);
    assert CanTimeout(d, s) && d.servers[s].node.currentTerm < top + 1 && !d.servers[s].node.killed by {
      RestedMeans(d.servers[s]);
      assert SameMemory(c.servers[s], d.servers[s]);
      SameMeans(c.servers[s], d.servers[s]);
    }
    var stand := StandIn(d, s, top + 1);
    var e := Run(d, stand);
    RunKeeps(d, stand);
    assert e.servers[s].node.log == c.servers[s].node.log by { SameMeans(c.servers[s], d.servers[s]); }
    StartCampaign(c, d, e, s, top);
    var win := WinRun(e, s, all - {s});
    RunConcat(d, stand, win);
    RunConcat(c, restart, stand + win);
    steps := restart + (stand + win);
  }

  lemma RestedMeans(v: Server)
    requires Rested(v)
    ensures !v.node.killed && v.node.role == Follower
  {
  }

  lemma SameMeans(v: Server, w: Server)
    requires SameMemory(v, w)
    ensures v.node.currentTerm == w.node.currentTerm && v.node.log == w.node.log
  {
  }
}
