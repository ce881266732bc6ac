/** From the log to the state machine: what replicas consume. */
module RaftReplicas {
  import opened RaftTypes
  import opened RaftLog
  import opened RaftCluster
  import opened RaftInvariant
  import opened RaftEvolution
  import opened RaftLocalSteps
  import opened RaftSafety
  import opened RaftTheorems

  /** The state a deterministic machine reaches from `s` on a list of commands. */
  function Fold<S>(apply: (S, Command) -> S, s: S, commands: seq<Command>): S
    decreases |commands|
  {
    if commands == [] then s else Fold(apply, apply(s, commands[0]), commands[1..])
  }

  lemma CommandsPrefix(p: seq<Entry>, q: seq<Entry>)
    requires p <= q
    ensures Commands(p) <= Commands(q)
  {
  }

  /** What was consumed followed by what waits in the channel is exactly the commands of the
      log up to lastApplied, or one more while a sent entry is not yet recorded. */
  predicate Conserved(v: Server) {
    && v.node.lastApplied <= v.node.commitIndex <= |v.node.log.entries|
    && (!v.phase.Sent? ==> v.consumed + InSlot(v.slot) == Commands(v.node.log.entries[..v.node.lastApplied]))
    && (v.phase.Sent? ==>
          && v.node.lastApplied < |v.node.log.entries|
          && v.consumed + InSlot(v.slot) == Commands(v.node.log.entries[..v.node.lastApplied + 1]))
    && v.consumed <= Commands(v.node.log.entries[..v.node.commitIndex])
  }

  lemma PipelineIsConserved(v: Server)
    requires PipelineOk(v)
    ensures Conserved(v)
  {
    var es := v.node.log.entries;
    if v.phase.Sent? {
      assert Delivered(v) == es[..v.node.lastApplied + 1];
    } else {
      assert Delivered(v) == es[..v.node.lastApplied];
    }
    CommandsPrefix(Delivered(v), es[..v.node.commitIndex]);
  }

  /** The apply pipeline conserves commands in every run: nothing is lost, repeated or
      reordered between the log and the consumer. */
  lemma PipelineConserves(members: set<ServerId>, steps: seq<Step>, s: ServerId)
    requires 1 <= |members| <= 255 && CanRun(Init(members), steps) && s in members
    ensures var c := Run(Init(members), steps); s in c.servers && Conserved(c.servers[s])
  {
    hide Inv, Run, CanRun, Evolves, PipelineOk, CommitAt, Conserved, Contiguous;
    var c := Run(Init(members), steps);
    InitInv(members);
    RunInv(Init(members), steps);
    MembersStay(members, steps);
    InvPipeline(c, s);
    PipelineIsConserved(c.servers[s]);
  }

  /** Replicas agree: take any two servers at any two moments of a run. What one has consumed
      is a prefix of what the other has; if they have consumed equally many commands, any
      deterministic state machine is in the same state on both. */
  lemma ReplicasAgree<S>(members: set<ServerId>, first: seq<Step>, rest: seq<Step>, x: ServerId, y: ServerId,
                         apply: (S, Command) -> S, start: S)
    requires TwoParts(members, first, rest) && x in members && y in members
    ensures var a := Run(Init(members), first);
      var b := Run(a, rest);
      && x in a.servers && y in b.servers
      && var p, q := a.servers[x].consumed, b.servers[y].consumed;
      && (p <= q || q <= p)
      && (|p| == |q| ==> Fold(apply, start, p) == Fold(apply, start, q))
  {
    hide Run, CanRun, Fold, Commands;
    var a := Run(Init(members), first);
    var b := Run(a, rest);
    RunConcat(Init(members), first, rest);
    PipelineConserves(members, first, x);
    PipelineConserves(members, first + rest, y);
    CommittedPrefixesAgree(members, first, rest, x, y);
    var n, m := a.servers[x].node, b.servers[y].node;
    var p, q := n.log.entries[..n.commitIndex], m.log.entries[..m.commitIndex];
    if p <= q { CommandsPrefix(p, q); } else { CommandsPrefix(q, p); }
    if |a.servers[x].consumed| == |b.servers[y].consumed| {
      assert a.servers[x].consumed == b.servers[y].consumed;
    }
  }
}
