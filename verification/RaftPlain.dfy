/** What the node functions do on a gap-free log that was never compacted. */
module RaftPlain {
  import opened Options
  import opened RaftTypes
  import opened RaftLog
  import opened RaftNode
  import opened RaftInvariant

  lemma BuildAppendShape(n: Node, p: ServerId)
    requires BuildAppend(n, p).Some?
    ensures p in n.nextIndex && n.nextIndex[p] >= 1
    ensures var arg, next := BuildAppend(n, p).value, n.nextIndex[p];
      && arg.term == n.currentTerm && arg.leaderId == n.selfId && arg.leaderCommit == n.commitIndex
      && arg.prevLogIndex == next - 1
      && arg.entries == Suffix(n.log.entries, next)
      && var e := At(n.log.entries, next - 1);
      (e.Some? ==> arg.prevLogTerm == e.value.term)
  {
    hide Suffix, At;
  }

  lemma BuildAppendPlain(n: Node, p: ServerId)
    requires Contiguous(n.log.entries, 0)
    requires BuildAppend(n, p).Some? && p in n.nextIndex && 1 <= n.nextIndex[p] <= |n.log.entries| + 1
    ensures var arg, es, prev := BuildAppend(n, p).value, n.log.entries, n.nextIndex[p] - 1;
      && arg.term == n.currentTerm && arg.leaderId == n.selfId && arg.leaderCommit == n.commitIndex
      && arg.prevLogIndex == prev
      && arg.entries == es[prev..]
      && (prev > 0 ==> arg.prevLogTerm == es[prev - 1].term)
  {
    hide BuildAppend, Suffix, At, Contiguous;
    BuildAppendShape(n, p);
    SuffixFrom(n.log.entries, n.nextIndex[p] - 1);
  }

  lemma SuffixFrom(es: seq<Entry>, prev: nat)
    requires Contiguous(es, 0) && prev <= |es|
    ensures Suffix(es, prev + 1) == es[prev..]
    ensures prev > 0 ==> At(es, prev) == Some(es[prev - 1])
  {
    SuffixContiguous(es, 0, prev + 1);
    AtContiguous(es, 0, prev);
  }

  /** Acceptance compares the term of the preceding entry. */
  lemma AcceptsPlain(n: Node, prev: nat, prevTerm: nat)
    requires Plain(n) && Contiguous(n.log.entries, 0)
    ensures Accepts(n.log, 0, 0, prev, prevTerm) <==>
      (prev == 0 || (prev <= |n.log.entries| && n.log.entries[prev - 1].term == prevTerm))
  {
    AtContiguous(n.log.entries, 0, prev);
  }
}
