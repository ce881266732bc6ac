/** What holds in every run of every cluster of up to 255 servers. */
module RaftSafety {
  import opened RaftTypes
  import opened RaftCluster
  import opened RaftInvariant
  import opened RaftEvolution
  import opened RaftFrame
  import opened RaftQuiet
  import opened RaftLocalSteps
  import opened RaftElectionSteps
  import opened RaftVictory
  import opened RaftAppendSteps
  import opened RaftCommitSteps

  lemma InitMoved(members: set<ServerId>, s: ServerId)
    requires 1 <= |members| <= 255 && s in members
    ensures s in Init(members).h.counted && Moved(Init(members), s)
  {
    hide Moved;
    assert Init(members).servers.Keys == members;
    FreshMoved(Init(members), s, NEW_DISK);
  }

  lemma InitServer(members: set<ServerId>, s: ServerId)
    requires 1 <= |members| <= 255 && s in members
    ensures s in Init(members).h.counted && ServerOk(Init(members), s)
  {
    var c := Init(members);
    assert c.servers.Keys == members;
    InitMoved(members, s);
    hide ServerShape, VoteOk, VoteCallsOk, CandidateOk, LeaderOk, AppendCallsOk, CommitAt, PipelineOk;
    assert LogOk(c, s);
    hide LogOk;
    assert ServerKeeps(c, s);
  }

  lemma InitHistory(members: set<ServerId>)
    ensures var c := Init(members);
      && LedgerOk(c.h) && VotesOk(c) && VoteNetOk(c) && ElectionsOk(c) && HeldOk(c) && KeptOk(c)
      && BallotsKeptOk(c) && CompleteOk(c) && AppendNetOk(c)
  {
  }

  lemma InitInv(members: set<ServerId>)
    requires 1 <= |members| <= 255
    ensures Inv(Init(members))
  {
    hide ServerOk;
    var c := Init(members);
    assert c.servers.Keys == members;
    assert |c.servers| == |c.servers.Keys|;
    forall s | s in c.servers
      ensures s in c.h.counted && ServerOk(c, s)
    {
      InitServer(members, s);
    }
    InitHistory(members);
    hide LedgerOk, VotesOk, VoteNetOk, ElectionsOk, HeldOk, KeptOk, BallotsKeptOk, CompleteOk, AppendNetOk;
    hide AppliedAt, Inv;
    Assemble(c);
  }

  /** Every step keeps the invariant and only adds to history. */
  lemma StepInv(c: Cluster, step: Step)
    requires Inv(c) && Enabled(c, step)
    ensures Inv(Do(c, step)) && Evolves(c, Do(c, step))
  {
    hide Inv, Evolves, CanTimeout, CanSendVote, CanVote, CanReceiveVote, CanSendAppend, CanAppend, CanReceiveAppend;
    hide CanClientStart;
    hide CanCrashInHandler, CanApplyRead, CanApplySend, CanMove;
    hide DoTimeout, DoSendVote, DoVote, DoReceiveVote, DoSendAppend, DoAppend, DoReceiveAppend, DoClientStart;
    hide DoKill, DoRestart;
    hide DoCrashInHandler, DoApplyRead, DoApplySend, Move, With;
    match step
    case ElectionTimeout(s) => KeepsTimeout(c, s);
    case SendVote(s, p) => KeepsSendVote(c, s, p);
    case HandleVote(s, arg) => KeepsVote(c, s, arg);
    case ReceiveVote(s, p, r) => KeepsReceiveVote(c, s, p, r);
    case SendAppend(s, p) => KeepsSendAppend(c, s, p);
    case HandleAppend(s, arg, garbage) => KeepsAppend(c, s, arg, garbage);
    case ReceiveAppend(s, p, r, seen) => KeepsReceiveAppend(c, s, p, r, seen);
    case ClientStart(s, command) => KeepsClientStart(c, s, command);
    case Kill(s) => KeepsKill(c, s);
    case Restart(s) => KeepsRestart(c, s);
    case CrashInHandler(s, term) => KeepsCrashInHandler(c, s, term);
    case ApplyRead(s) => KeepsApplyRead(c, s);
    case ApplySend(s) => KeepsApplySend(c, s);
    case Pipeline(s, move) => KeepsPipeline(c, s, move);
  }

  lemma EvolvesReflexive(c: Cluster)
    ensures Evolves(c, c)
  {
  }

  lemma EvolvesTransitive(a: Cluster, b: Cluster, c: Cluster)
    requires Evolves(a, b) && Evolves(b, c)
    ensures Evolves(a, c)
  {
    assert LedgerGrows(a.h, c.h);
    assert VotesGrow(a.h, c.h);
    assert TermsGrow(a, c);
    forall s, t: nat
      ensures HeldLen(a.h, s, t) <= HeldLen(c.h, s, t)
      ensures HeldLen(a.h, s, t) < HeldLen(c.h, s, t) && s in a.servers ==> a.servers[s].node.currentTerm <= t
    {
      assert HeldLen(a.h, s, t) <= HeldLen(b.h, s, t) <= HeldLen(c.h, s, t);
    }
  }

  lemma {:induction false} RunInv(c: Cluster, steps: seq<Step>)
    requires Inv(c) && CanRun(c, steps)
    ensures Inv(Run(c, steps)) && Evolves(c, Run(c, steps))
    decreases |steps|
  {
    hide Inv, Evolves, Enabled, Do;
    if steps == [] {
      EvolvesReflexive(c);
    } else {
      var d := Do(c, steps[0]);
      StepInv(c, steps[0]);
      RunInv(d, steps[1..]);
      EvolvesTransitive(c, d, Run(d, steps[1..]));
    }
  }

  /** A run of a cluster of `members`: first one part, then another. */
  ghost predicate TwoParts(members: set<ServerId>, first: seq<Step>, rest: seq<Step>) {
    && 1 <= |members| <= 255
    && CanRun(Init(members), first)
    && CanRun(Run(Init(members), first), rest)
  }

  lemma TwoPartsInv(members: set<ServerId>, first: seq<Step>, rest: seq<Step>)
    requires TwoParts(members, first, rest)
    ensures var a := Run(Init(members), first);
      var b := Run(a, rest);
      Inv(a) && Inv(b) && Evolves(a, b)
  {
    hide Inv, Evolves, Run;
    InitInv(members);
    RunInv(Init(members), first);
    RunInv(Run(Init(members), first), rest);
  }
}
