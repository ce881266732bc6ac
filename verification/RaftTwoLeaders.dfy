/** Election safety and the width of a cluster: with the cluster size kept in eight bits, a cluster
    of 256 servers or more can elect two leaders in one term. */
module RaftTwoLeaders {
  import opened Options
  import opened RaftTypes
  import opened RaftLog
  import opened RaftNode
  import opened RaftCluster
  import opened RaftQuorum
  import opened RaftWitness
  import opened RaftTheorems

  /** `s` stands in term 1 with `votes` votes counted and no call out. */
  predicate Campaigning(c: Cluster, s: ServerId, size: nat, votes: nat) {
    && s in c.servers && c.servers[s].voteCall == map[]
    && var n := c.servers[s].node;
    && !n.killed && n.role == Candidate && n.currentTerm == 1 && n.clusterSize == size && n.votesGranted == votes
    && n.log == LogState([], 0, 0) && n.requestVoteArg == Ballot1(s)
  }

  /** `p` has not heard of term 1 yet. */
  predicate Unaware(c: Cluster, p: ServerId) {
    && p in c.servers
    && var m := c.servers[p].node;
    && !m.killed && m.currentTerm == 0 && m.log == LogState([], 0, 0)
  }

  /** The servers in `ps` are there to be asked. */
  ghost predicate Electorate(c: Cluster, s: ServerId, ps: set<ServerId>) {
    s in c.servers && s !in ps && forall p :: p in ps ==> Unaware(c, p) && WantsVote(c.servers[s].node, p)
  }

  /** Only `s` and the servers in `ps` have moved. */
  ghost predicate OnlyMoved(c: Cluster, d: Cluster, s: ServerId, ps: set<ServerId>) {
    && d.servers.Keys == c.servers.Keys
    && forall x :: x in c.servers && x != s && x !in ps ==> d.servers[x] == c.servers[x]
  }

  /** What asking `p` leads to. */
  ghost predicate AfterAsking(c: Cluster, f: Cluster, s: ServerId, p: ServerId, size: nat, votes: nat) {
    && s in c.servers && s in f.servers && OnlyMoved(c, f, s, {p}) && f.servers[s].node.currentTerm == 1
    && (votes + 1 >= Majority(size) ==> f.servers[s].node.role == Leader)
    && (votes + 1 < Majority(size) ==>
          && Campaigning(f, s, size, votes + 1)
          && f.servers[s].node.shouldStartElection == c.servers[s].node.shouldStartElection[p := false])
  }

  lemma GrantsVote(m: Node, s: ServerId)
    requires !m.killed && m.currentTerm == 0 && m.log == LogState([], 0, 0)
    ensures OnRequestVote(m, Ballot1(s)).1 == RequestVoteReply(true, 1)
  {
  }

  /** `p` has granted its vote and the answer is on its way. */
  ghost predicate Polled(c: Cluster, e: Cluster, s: ServerId, p: ServerId) {
    && s in c.servers && s in e.servers && OnlyMoved(c, e, s, {p})
    && e.servers[s] == c.servers[s].(node := TakeVoteTurn(c.servers[s].node, p), voteCall := map[p := Ballot1(s)])
    && VoteReply(p, Ballot1(s), RequestVoteReply(true, 1)) in e.net
  }

  lemma Poll(c: Cluster, s: ServerId, p: ServerId, size: nat, votes: nat)
    requires s != p && Campaigning(c, s, size, votes) && Unaware(c, p) && WantsVote(c.servers[s].node, p)
    ensures CanSendVote(c, s, p) && CanVote(DoSendVote(c, s, p), p, Ballot1(s))
    ensures Polled(c, DoVote(DoSendVote(c, s, p), p, Ballot1(s)), s, p)
  {
    GrantsVote(c.servers[p].node, s);
    hide OnRequestVote, RequestVoteDisk;
  }

  lemma CountOne(c: Cluster, e: Cluster, s: ServerId, p: ServerId, size: nat, votes: nat)
    requires s != p && Campaigning(c, s, size, votes) && Polled(c, e, s, p)
    ensures CanReceiveVote(e, s, p, Some(RequestVoteReply(true, 1)))
    ensures AfterAsking(c, DoReceiveVote(e, s, p, Some(RequestVoteReply(true, 1))), s, p, size, votes)
  {
    hide Filled, Majority, VoteReplyDisk;
    assert e.servers[s].voteCall - {p} == map[];
  }

  lemma AskRun(c: Cluster, s: ServerId, p: ServerId, size: nat, votes: nat) returns (steps: seq<Step>)
    requires s != p && Campaigning(c, s, size, votes) && Unaware(c, p) && WantsVote(c.servers[s].node, p)
    ensures CanRun(c, steps) && AfterAsking(c, Run(c, steps), s, p, size, votes)
  {
    Poll(c, s, p, size, votes);
    var d := DoSendVote(c, s, p);
    var e := DoVote(d, p, Ballot1(s));
    hide Campaigning, AfterAsking, Unaware, Polled, Run, CanRun;
    hide DoSendVote, DoVote, DoReceiveVote, CanSendVote, CanVote, CanReceiveVote;
    CountOne(c, e, s, p, size, votes);
    var f := DoReceiveVote(e, s, p, Some(RequestVoteReply(true, 1)));
    steps := Stay(f);
    steps := Prepend(e, f, ReceiveVote(s, p, Some(RequestVoteReply(true, 1))), steps);
    steps := Prepend(d, f, HandleVote(p, Ballot1(s)), steps);
    steps := Prepend(c, f, SendVote(s, p), steps);
  }

  lemma ElectorateRest(c: Cluster, f: Cluster, s: ServerId, ps: set<ServerId>, p: ServerId, size: nat, votes: nat)
    requires Electorate(c, s, ps) && AfterAsking(c, f, s, p, size, votes) && votes + 1 < Majority(size)
    ensures Electorate(f, s, ps - {p})
  {
  }

  lemma MovedTwice(c: Cluster, d: Cluster, e: Cluster, s: ServerId, ps: set<ServerId>, p: ServerId)
    requires OnlyMoved(c, d, s, {p}) && OnlyMoved(d, e, s, ps - {p}) && p in ps
    ensures OnlyMoved(c, e, s, ps)
  {
  }

  /** `s` leads term 1, and only it and the servers in `ps` have moved. */
  ghost predicate Elected(c: Cluster, d: Cluster, s: ServerId, ps: set<ServerId>) {
    s in d.servers && d.servers[s].node.role == Leader && d.servers[s].node.currentTerm == 1 && OnlyMoved(c, d, s, ps)
  }

  lemma Outvoted(c: Cluster, d: Cluster, s: ServerId, ps: set<ServerId>, p: ServerId, size: nat, votes: nat)
    requires AfterAsking(c, d, s, p, size, votes) && votes + 1 >= Majority(size) && p in ps
    ensures Elected(c, d, s, ps)
  {
  }

  /** Asking one server after the other until the votes suffice. */
  lemma {:induction false} Win(c: Cluster, s: ServerId, ps: set<ServerId>, size: nat, votes: nat)
    returns (steps: seq<Step>)
    requires Campaigning(c, s, size, votes) && Electorate(c, s, ps) && |ps| > 0
    requires if |ps| == 1 then votes + 1 >= Majority(size) else votes + |ps| == Majority(size)
    ensures CanRun(c, steps) && Elected(c, Run(c, steps), s, ps)
    decreases |ps|
  {
    var p :| p in ps;
    var ask := AskRun(c, s, p, size, votes);
    hide Run, CanRun, Campaigning, OnlyMoved;
    var d := Run(c, ask);
    if |ps| == 1 {
      Outvoted(c, d, s, ps, p, size, votes);
      steps := ask;
    } else {
      assert |ps - {p}| == |ps| - 1;
      ElectorateRest(c, d, s, ps, p, size, votes);
      var rest := Win(d, s, ps - {p}, size, votes + 1);
      RunConcat(c, ask, rest);
      MovedTwice(c, d, Run(d, rest), s, ps, p);
      steps := ask + rest;
    }
  }

  // ---- both of them at once

  lemma StandBoth(members: set<ServerId>, a: ServerId, b: ServerId)
    requires a in members && b in members && a != b
    ensures CanTimeout(Init(members), a)
    ensures var c := DoTimeout(Init(members), a);
      && CanTimeout(c, b)
      && var d := DoTimeout(c, b);
      && d.servers.Keys == members
      && Campaigning(d, a, |members| % 256, 1) && Campaigning(d, b, |members| % 256, 1)
      && Electorate(d, a, members - {a, b}) && Electorate(d, b, members - {a, b})
  {
    assert Merge([], []) == [];
  }

  lemma StandRun(members: set<ServerId>, a: ServerId, b: ServerId) returns (steps: seq<Step>)
    requires a in members && b in members && a != b
    ensures CanRun(Init(members), steps)
    ensures var d := Run(Init(members), steps);
      && d.servers.Keys == members
      && Campaigning(d, a, |members| % 256, 1) && Campaigning(d, b, |members| % 256, 1)
      && Electorate(d, a, members - {a, b}) && Electorate(d, b, members - {a, b})
  {
    StandBoth(members, a, b);
    hide Campaigning, Electorate, Init, DoTimeout, CanTimeout, Run, CanRun;
    var c := DoTimeout(Init(members), a);
    var d := DoTimeout(c, b);
    steps := Stay(d);
    steps := Prepend(c, d, ElectionTimeout(b), steps);
    steps := Prepend(Init(members), d, ElectionTimeout(a), steps);
  }

  lemma SecondCampaign(c: Cluster, d: Cluster, a: ServerId, b: ServerId, ps: set<ServerId>, qs: set<ServerId>,
                       size: nat)
    requires a != b && ps !! qs && b !in ps && Elected(c, d, a, ps)
    requires Campaigning(c, b, size, 1) && Electorate(c, b, qs) && a !in qs
    ensures Campaigning(d, b, size, 1) && Electorate(d, b, qs)
  {
  }

  lemma StillLeads(c: Cluster, d: Cluster, a: ServerId, b: ServerId, qs: set<ServerId>)
    requires a != b && a !in qs && a in c.servers && OnlyMoved(c, d, b, qs)
    ensures a in d.servers && d.servers[a] == c.servers[a]
  {
  }

  ghost predicate TwoLeaders(c: Cluster, a: ServerId, b: ServerId) {
    && a in c.servers && b in c.servers
    && c.servers[a].node.role == Leader && c.servers[b].node.role == Leader
    && c.servers[a].node.currentTerm == c.servers[b].node.currentTerm
  }

  lemma BothWin(c: Cluster, a: ServerId, b: ServerId, ps: set<ServerId>, qs: set<ServerId>, size: nat)
    returns (steps: seq<Step>)
    requires a != b && ps !! qs && {a, b} !! ps && {a, b} !! qs
    requires Campaigning(c, a, size, 1) && Electorate(c, a, ps) && Campaigning(c, b, size, 1) && Electorate(c, b, qs)
    requires |ps| == |qs| == Needed(size)
    ensures CanRun(c, steps) && TwoLeaders(Run(c, steps), a, b)
  {
    hide Run, CanRun, Campaigning, Electorate, OnlyMoved;
    var first := Win(c, a, ps, size, 1);
    var d := Run(c, first);
    SecondCampaign(c, d, a, b, ps, qs, size);
    var rest := Win(d, b, qs, size, 1);
    var e := Run(d, rest);
    StillLeads(d, e, a, b, qs);
    RunConcat(c, first, rest);
    steps := first + rest;
  }

  /** Votes to ask for besides one's own: at least one, since votes are only counted on a reply. */
  function Needed(size: nat): nat { if Majority(size) <= 2 then 1 else Majority(size) - 1 }

  lemma ElectorateSome(c: Cluster, s: ServerId, ps: set<ServerId>, qs: set<ServerId>)
    requires Electorate(c, s, ps) && qs <= ps
    ensures Electorate(c, s, qs)
  {
  }

  /** Every cluster of more than 255 servers has a run with two leaders of one term. */
  lemma WideClusterSplits(members: set<ServerId>) returns (steps: seq<Step>, a: ServerId, b: ServerId)
    requires |members| > 255
    ensures a != b && CanRun(Init(members), steps) && TwoLeaders(Run(Init(members), steps), a, b)
  {
    hide Run, CanRun, Campaigning, Electorate, OnlyMoved, TwoLeaders, Init;
    var pair := Choose(members, 2);
    a :| a in pair;
    assert |pair - {a}| == 1;
    b :| b in pair - {a};
    var others := members - {a, b};
    assert |others| == |members| - 2;
    var size := |members| % 256;
    var ps := Choose(others, Needed(size));
    assert |others - ps| == |others| - |ps| by { assert others == ps + (others - ps); }
    var qs := Choose(others - ps, Needed(size));
    var stand := StandRun(members, a, b);
    var c := Run(Init(members), stand);
    ElectorateSome(c, a, others, ps);
    ElectorateSome(c, b, others, qs);
    var rest := BothWin(c, a, b, ps, qs, size);
    RunConcat(Init(members), stand, rest);
    steps := stand + rest;
  }

  // ---- election safety, exactly

  /** Leaders of one term at two moments of any run are the same server. */
  ghost predicate ElectionsSafe(members: set<ServerId>) {
    forall first, rest, x, y :: SameTermLeaders(members, first, rest, x, y) ==> x == y
  }

  ghost predicate SameTermLeaders(members: set<ServerId>, first: seq<Step>, rest: seq<Step>, x: ServerId, y: ServerId) {
    && CanRun(Init(members), first) && CanRun(Run(Init(members), first), rest)
    && var a := Run(Init(members), first);
    var b := Run(a, rest);
    && x in a.servers && a.servers[x].node.role == Leader
    && y in b.servers && b.servers[y].node.role == Leader
    && a.servers[x].node.currentTerm == b.servers[y].node.currentTerm
  }

  lemma NothingEnabled(step: Step)
    ensures !Enabled(Init({}), step)
  {
    assert Init({}).servers == map[];
  }

  lemma NobodyThere(first: seq<Step>)
    requires CanRun(Init({}), first)
    ensures Run(Init({}), first).servers == map[]
  {
    hide Enabled, Do;
    assert Init({}).servers == map[];
    if first != [] {
      NothingEnabled(first[0]);
    }
  }

  /** Election safety holds of all runs if and only if there are at most 255 servers. */
  lemma ElectionsSafeIff(members: set<ServerId>)
    ensures ElectionsSafe(members) <==> |members| <= 255
  {
    hide Run, CanRun;
    if |members| <= 255 {
      forall first, rest, x, y | SameTermLeaders(members, first, rest, x, y)
        ensures x == y
      {
        if members == {} {
          NobodyThere(first);
        } else {
          ElectionSafety(members, first, rest, x, y);
        }
      }
    } else {
      var steps, a, b := WideClusterSplits(members);
      var none := Stay(Run(Init(members), steps));
      assert SameTermLeaders(members, steps, none, a, b);
    }
  }
}
