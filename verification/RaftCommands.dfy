/** Where the entries of the logs come from: every one is a command some client handed to the
    leader of its term, and each such command is written once. */
module RaftCommands {
  import opened Options
  import opened RaftTypes
  import opened RaftLog
  import opened RaftNode
  import opened RaftCluster
  import opened RaftInvariant
  import opened RaftEvolution
  import opened RaftFrame
  import opened RaftCommitSteps
  import opened RaftSafety
  import opened RaftTheorems
  import opened RaftReplicas

  // ---- one command

  lemma StartWrites(c: Cluster, s: ServerId, command: Command)
    requires Inv(c) && CanClientStart(c, s)
    ensures var n := c.servers[s].node;
      Wrote(c, DoClientStart(c, s, command), s, Entry(|n.log.entries| + 1, n.currentTerm, command))
  {
    hide Inv, LedgerOk, LogOk, HeldAt, ServerKeeps, VoteOk, VoteCallsOk, CandidateOk, LeaderOk, AppendCallsOk;
    hide CommitAt, PipelineOk;
    InvServer(c, s);
    LedgerPart(c);
    StartWrote(c, s, command);
    LeaderElected(c, s);
    LedgerAt(c.h, c.servers[s].node.currentTerm);
    LastContiguous(c.servers[s].node.log);
  }

  lemma StartReady(c: Cluster, s: ServerId)
    requires Inv(c) && s in c.servers
    ensures CanClientStart(c, s) <==> !c.servers[s].node.killed && c.servers[s].node.role == Leader
  {
    hide Inv;
    ShapeOf(c, s);
  }

  /** In every run exactly the live leaders take commands. The leader's log, in memory and on disk,
      becomes the old one followed by the command under the next index and the current term; nothing
      else of any server changes. */
  lemma StartAppends(members: set<ServerId>, steps: seq<Step>, s: ServerId, command: Command)
    requires 1 <= |members| <= 255 && CanRun(Init(members), steps) && s in members
    ensures var c := Run(Init(members), steps);
      && s in c.servers
      && var n := c.servers[s].node;
      && (Enabled(c, ClientStart(s, command)) <==> !n.killed && n.role == Leader)
      && (Enabled(c, ClientStart(s, command)) ==>
            var d := Do(c, ClientStart(s, command));
            var log := n.log.entries + [Entry(|n.log.entries| + 1, n.currentTerm, command)];
            && d.servers == c.servers[s := d.servers[s]] && d.net == c.net
            && d.servers[s] == c.servers[s].(node := n.(log := LogState(log, 0, 0)),
                                             disk := c.servers[s].disk.(entries := log)))
  {
    hide Inv, Run, CanRun, Evolves, Wrote;
    var c := Run(Init(members), steps);
    InitInv(members);
    RunInv(Init(members), steps);
    MembersStay(members, steps);
    StartReady(c, s);
    if CanClientStart(c, s) {
      StartWrites(c, s, command);
      ShapeOf(c, s);
      WroteOnlyThis(c, DoClientStart(c, s, command), s, command);
    }
  }

  lemma WroteOnlyThis(c: Cluster, d: Cluster, s: ServerId, command: Command)
    requires s in c.servers && ServerShape(c.servers.Keys, s, c.servers[s])
    requires var n := c.servers[s].node; Wrote(c, d, s, Entry(|n.log.entries| + 1, n.currentTerm, command))
    ensures var n := c.servers[s].node;
      var log := n.log.entries + [Entry(|n.log.entries| + 1, n.currentTerm, command)];
      && d.servers == c.servers[s := d.servers[s]] && d.net == c.net
      && d.servers[s] == c.servers[s].(node := n.(log := LogState(log, 0, 0)),
                                       disk := c.servers[s].disk.(entries := log))
  {
    hide HeldLen;
  }

  // ---- all commands

  /** Step j of the run hands the command of `e` to the leader of its term, whose log then ends
      right before the index of `e`. */
  ghost predicate WrittenBy(members: set<ServerId>, steps: seq<Step>, e: Entry, j: nat) {
    && j < |steps| && steps[j].ClientStart? && steps[j].command == e.command
    && CanRun(Init(members), steps[..j])
    && var c := Run(Init(members), steps[..j]);
    && steps[j].s in c.servers
    && var n := c.servers[steps[j].s].node;
    && n.role == Leader && n.currentTerm == e.term && |n.log.entries| + 1 == e.index
  }

  /** What is new in the ledgers after a step was written by it. */
  lemma StepWrites(c: Cluster, step: Step, t: nat, i: nat)
    requires Inv(c) && Enabled(c, step)
    requires var l := Do(c, step).h.ledger; t in l && i < |l[t]| && l[t][i].term == t
    ensures var e := Do(c, step).h.ledger[t][i];
      || (t in c.h.ledger && i < |c.h.ledger[t]| && c.h.ledger[t][i] == e)
      || (&& step.ClientStart? && step.s in c.servers
          && var n := c.servers[step.s].node;
          && n.role == Leader && e == Entry(|n.log.entries| + 1, n.currentTerm, step.command))
  {
    hide Inv, Do, Enabled, Evolves;
    if step.ClientStart? {
      StartIs(c, step);
      StartWrites(c, step.s, step.command);
    } else if step.ReceiveVote? {
      StepInv(c, step);
      WonWithOldEntries(c, step, t);
    } else {
      LedgerSame(c, step);
    }
  }

  lemma StartIs(c: Cluster, step: Step)
    requires Enabled(c, step) && step.ClientStart?
    ensures CanClientStart(c, step.s) && Do(c, step) == DoClientStart(c, step.s, step.command)
  {
  }

  /** A new leader starts from a log without entries of its own term. */
  lemma WonWithOldEntries(c: Cluster, step: Step, t: nat)
    requires Enabled(c, step) && step.ReceiveVote? && Inv(Do(c, step)) && t in Do(c, step).h.ledger
    ensures var l := Do(c, step).h.ledger[t];
      (t in c.h.ledger && l == c.h.ledger[t]) || forall i :: 0 <= i < |l| ==> l[i].term != t
  {
    hide Inv, LedgerOk, Grounded, DoReceiveVote, CanReceiveVote;
    var d := Do(c, step);
    LedgerPart(d);
    LedgerAt(d.h, t);
    ReceiveVoteLedger(c, step.s, step.peer, step.voteReply, t);
  }

  lemma ReceiveVoteLedger(c: Cluster, s: ServerId, p: ServerId, r: Option<RequestVoteReply>, t: nat)
    requires CanReceiveVote(c, s, p, r) && t in DoReceiveVote(c, s, p, r).h.ledger
    ensures var h := DoReceiveVote(c, s, p, r).h;
      || (t in c.h.ledger && h.ledger[t] == c.h.ledger[t])
      || (t in h.elections && h.ledger[t] == h.elections[t].base)
  {
    hide OnVoteReply, VoteReplyDisk, CountsVote;
  }

  lemma LedgerSame(c: Cluster, step: Step)
    requires Enabled(c, step) && !step.ClientStart? && !step.ReceiveVote?
    ensures Do(c, step).h.ledger == c.h.ledger
  {
    hide OnAppendReply, OnAppendEntries, OnVoteReply, OnRequestVote, OnStart, InitVote, BuildAppend, TakeVoteTurn;
    hide Fresh, AppendEntriesDisk, AppendReplyDisk, RequestVoteDisk, VoteReplyDisk, Compared, CountsVote, NewerRequest;
    hide CanMove, BecameFollower, Move, At, HeldLen, CountedOf, Persisted;
  }

  ghost predicate LedgerWritten(members: set<ServerId>, steps: seq<Step>)
    requires CanRun(Init(members), steps)
  {
    var l := Run(Init(members), steps).h.ledger;
    forall t, i: nat :: t in l && i < |l[t]| && l[t][i].term == t ==>
      exists j: nat :: WrittenBy(members, steps, l[t][i], j)
  }

  lemma WrittenStays(members: set<ServerId>, steps: seq<Step>, e: Entry, j: nat, k: nat)
    requires k <= |steps| && WrittenBy(members, steps[..k], e, j)
    ensures WrittenBy(members, steps, e, j)
  {
    hide Run, CanRun;
    assert steps[..k][..j] == steps[..j];
  }

  lemma {:induction false} RunWrites(members: set<ServerId>, steps: seq<Step>)
    requires 1 <= |members| <= 255 && CanRun(Init(members), steps)
    ensures LedgerWritten(members, steps)
    decreases |steps|
  {
    hide Inv, Evolves, Enabled, Do, WrittenBy;
    if steps != [] {
      var k := |steps| - 1;
      var c := Init(members);
      RunSplit(c, steps, k);
      RunWrites(members, steps[..k]);
      InitInv(members);
      RunInv(c, steps[..k]);
      var b := Run(c, steps[..k]);
      assert steps[k..] == [steps[k]];
      assert Enabled(b, steps[k]) && Run(c, steps) == Do(b, steps[k]) by { RunOne(b, steps[k]); }
      hide Run, CanRun;
      forall t, i: nat | t in Run(c, steps).h.ledger && i < |Run(c, steps).h.ledger[t]|
                         && Run(c, steps).h.ledger[t][i].term == t
        ensures exists j: nat :: WrittenBy(members, steps, Run(c, steps).h.ledger[t][i], j)
      {
        var e := Run(c, steps).h.ledger[t][i];
        StepWrites(b, steps[k], t, i);
        if t in b.h.ledger && i < |b.h.ledger[t]| && b.h.ledger[t][i] == e {
          var j: nat :| WrittenBy(members, steps[..k], e, j);
          WrittenStays(members, steps, e, j, k);
        } else {
          WrittenNow(members, steps, k, e);
        }
      }
    }
  }

  lemma RunOne(c: Cluster, step: Step)
    requires CanRun(c, [step])
    ensures Enabled(c, step) && Run(c, [step]) == Do(c, step)
  {
    hide Enabled, Do;
    assert [step][1..] == [];
  }

  lemma WrittenNow(members: set<ServerId>, steps: seq<Step>, k: nat, e: Entry)
    requires k < |steps| && steps[k].ClientStart? && CanRun(Init(members), steps[..k])
    requires var c := Run(Init(members), steps[..k]);
      && steps[k].s in c.servers
      && var n := c.servers[steps[k].s].node;
      && n.role == Leader && e == Entry(|n.log.entries| + 1, n.currentTerm, steps[k].command)
    ensures WrittenBy(members, steps, e, k)
  {
    hide Run, CanRun;
  }

  lemma GroundedWritten(members: set<ServerId>, steps: seq<Step>, es: seq<Entry>, i: nat)
    requires 1 <= |members| <= 255 && CanRun(Init(members), steps)
    requires i < |es| && Grounded(Run(Init(members), steps).h.ledger, es)
    ensures exists j: nat :: WrittenBy(members, steps, es[i], j)
  {
    hide Run, CanRun, WrittenBy;
    RunWrites(members, steps);
    var l := Run(Init(members), steps).h.ledger;
    assert GroundedAt(l, es, i);
    var t := es[i].term;
    assert es[i] == es[..i + 1][i] == l[t][..i + 1][i] == l[t][i];
  }

  /** In every run each entry of each log is the command of a client, taken by the leader of the
      entry's term when its log ended right before the entry's index. */
  lemma EntryWritten(members: set<ServerId>, steps: seq<Step>, x: ServerId, i: nat)
    requires 1 <= |members| <= 255 && CanRun(Init(members), steps)
    requires x in Run(Init(members), steps).servers && i < |Run(Init(members), steps).servers[x].node.log.entries|
    ensures exists j: nat :: WrittenBy(members, steps, Run(Init(members), steps).servers[x].node.log.entries[i], j)
  {
    hide Inv, Run, CanRun, Evolves, WrittenBy;
    InitInv(members);
    RunInv(Init(members), steps);
    LogGrounded(Run(Init(members), steps), x);
    GroundedWritten(members, steps, Run(Init(members), steps).servers[x].node.log.entries, i);
  }

  /** And by one step only: entries of different index or term were written by different steps, and
      no index of a term was written twice. */
  lemma WrittenOnce(members: set<ServerId>, steps: seq<Step>, e: Entry, f: Entry, j: nat, k: nat)
    requires 1 <= |members| <= 255 && CanRun(Init(members), steps)
    requires WrittenBy(members, steps, e, j) && WrittenBy(members, steps, f, k)
    ensures e.index == f.index && e.term == f.term <==> j == k
    ensures j == k ==> e == f
  {
    hide Run, CanRun;
    if e.index == f.index && e.term == f.term {
      if j < k {
        NotWrittenAgain(members, steps, e, j, f, k);
      } else if k < j {
        NotWrittenAgain(members, steps, f, k, e, j);
      }
    }
  }

  lemma NotWrittenAgain(members: set<ServerId>, steps: seq<Step>, e: Entry, j: nat, f: Entry, k: nat)
    requires 1 <= |members| <= 255 && CanRun(Init(members), steps)
    requires WrittenBy(members, steps, e, j) && WrittenBy(members, steps, f, k) && j < k && e.term == f.term
    ensures e.index < f.index
  {
    hide Inv, Run, CanRun, Evolves;
    var c := Init(members);
    var a, b := Run(c, steps[..j]), Run(c, steps[..k]);
    CutTwice(c, steps, j, k);
    InitInv(members);
    RunInv(c, steps[..j]);
    StartIs(a, steps[j]);
    StartWrites(a, steps[j].s, steps[j].command);
    StepInv(a, steps[j]);
    hide Do, Enabled;
    var d := Do(a, steps[j]);
    RunInv(d, steps[j + 1..k]);
    LeaderElected(b, steps[k].s);
    assert |d.h.ledger[e.term]| == e.index;
    LedgerLonger(d, b, e.term);
  }

  lemma LedgerLonger(c: Cluster, d: Cluster, t: nat)
    requires Evolves(c, d) && t in c.h.ledger
    ensures t in d.h.ledger && |c.h.ledger[t]| <= |d.h.ledger[t]|
  {
    hide TermsGrow, HeldGrows, VotesGrow;
  }

  lemma CutTwice(c: Cluster, steps: seq<Step>, j: nat, k: nat)
    requires CanRun(c, steps) && j < k <= |steps|
    ensures CanRun(c, steps[..j]) && Enabled(Run(c, steps[..j]), steps[j])
    ensures CanRun(c, steps[..k]) && CanRun(Do(Run(c, steps[..j]), steps[j]), steps[j + 1..k])
    ensures Run(Do(Run(c, steps[..j]), steps[j]), steps[j + 1..k]) == Run(c, steps[..k])
  {
    hide Enabled, Do;
    RunSplit(c, steps, k);
    RunSplit(c, steps[..k], j);
    assert steps[..k][..j] == steps[..j];
    var rest := steps[..k][j..];
    assert rest[0] == steps[j] && rest[1..] == steps[j + 1..k];
  }

  /** Validity, from the clients to the state machines: at any position, what two replicas have
      consumed at any two moments of a run is the command of one and the same step, and (by
      WrittenOnce) different positions come from different steps. */
  lemma ConsumedWritten(members: set<ServerId>, first: seq<Step>, rest: seq<Step>, x: ServerId, y: ServerId, i: nat)
    requires TwoParts(members, first, rest) && x in members && y in members
    requires x in Run(Init(members), first).servers && i < |Run(Init(members), first).servers[x].consumed|
    requires y in Run(Run(Init(members), first), rest).servers
    requires i < |Run(Run(Init(members), first), rest).servers[y].consumed|
    ensures exists e: Entry, j: nat ::
      && WrittenBy(members, first, e, j) && e.index == i + 1
      && e.command == Run(Init(members), first).servers[x].consumed[i]
      && e.command == Run(Run(Init(members), first), rest).servers[y].consumed[i]
  {
    hide Run, CanRun, Commands, WrittenBy, Contiguous;
    var a := Run(Init(members), first);
    PipelineConserves(members, first, x);
    ReplicasAgree(members, first, rest, x, y, (u: int, command) => u, 0);
    var es := a.servers[x].node.log.entries;
    var k := a.servers[x].node.commitIndex;
    CommandAt(es[..k], a.servers[x].consumed, i);
    LogsOrdered(members, first, x);
    EntryWritten(members, first, x, i);
    IndexAt(es, i);
  }

  lemma IndexAt(es: seq<Entry>, i: nat)
    requires Contiguous(es, 0) && i < |es|
    ensures es[i].index == i + 1
  {
  }

  lemma CommandAt(es: seq<Entry>, commands: seq<Command>, i: nat)
    requires commands <= Commands(es) && i < |commands|
    ensures i < |es| && commands[i] == es[i].command
  {
  }
}
