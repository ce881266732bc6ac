/** How history grows from one state to the next, and which invariants survive any such growth. */
module RaftEvolution {
  import opened RaftTypes
  import opened RaftLog
  import opened RaftCluster
  import opened RaftInvariant

  // ---- quorums

  lemma SubsetSize<T>(a: set<T>, b: set<T>)
    requires a <= b
    ensures |a| <= |b|
  {
    assert b == a + (b - a);
  }

  /** Two majorities share a server. */
  lemma QuorumsMeet(c: Cluster, a: set<ServerId>, b: set<ServerId>) returns (s: ServerId)
    requires IsQuorum(c, a) && IsQuorum(c, b)
    ensures s in a && s in b && s in c.servers
  {
    if a * b == {} {
      assert |a + b| == |a| + |b|;
      SubsetSize(a + b, c.servers.Keys);
      assert false;
    }
    s :| s in a * b;
  }

  // ---- grounded logs

  lemma GroundedPrefix(ledger: map<nat, seq<Entry>>, es: seq<Entry>, k: nat)
    requires Grounded(ledger, es) && k <= |es|
    ensures Grounded(ledger, es[..k])
  {
    forall i | 0 <= i < k
      ensures GroundedAt(ledger, es[..k], i)
    {
      assert GroundedAt(ledger, es, i);
      assert es[..k][..i + 1] == es[..i + 1];
    }
  }

  /** Grounded logs stay grounded when leaders extend their ledgers. */
  lemma GroundedGrows(a: map<nat, seq<Entry>>, b: map<nat, seq<Entry>>, es: seq<Entry>)
    requires Grounded(a, es)
    requires forall t :: t in a ==> t in b && a[t] <= b[t]
    ensures Grounded(b, es)
  {
    forall i | 0 <= i < |es|
      ensures GroundedAt(b, es, i)
    {
      assert GroundedAt(a, es, i);
      var t := es[i].term;
      assert a[t][..i + 1] == b[t][..i + 1];
    }
  }

  /** Two grounded logs that have an entry of the same term at the same index are identical
      up to that index. */
  lemma GroundedAgree(ledger: map<nat, seq<Entry>>, a: seq<Entry>, b: seq<Entry>, i: nat)
    requires Grounded(ledger, a) && Grounded(ledger, b)
    requires i < |a| && i < |b| && a[i].term == b[i].term
    ensures a[..i + 1] == b[..i + 1]
  {
    assert GroundedAt(ledger, a, i) && GroundedAt(ledger, b, i);
  }

  /** Terms never decrease along a grounded log, and indices have no gap. */
  lemma GroundedOrdered(h: History, es: seq<Entry>)
    requires LedgerOk(h) && Grounded(h.ledger, es)
    ensures Contiguous(es, 0)
    ensures forall i, j :: 0 <= i <= j < |es| ==> es[i].term <= es[j].term
  {
    forall j | 0 <= j < |es|
      ensures es[j].index == j + 1
      ensures forall i :: 0 <= i <= j ==> es[i].term <= es[j].term
    {
      assert GroundedAt(h.ledger, es, j);
      var t := es[j].term;
      assert LedgerEntry(h, t);
      assert es[j] == es[..j + 1][j] == h.ledger[t][j];
      forall i | 0 <= i <= j
        ensures es[i].term <= t
      {
        assert es[i] == es[..j + 1][i] == h.ledger[t][i];
        if i < |h.elections[t].base| { assert h.ledger[t][i] == h.elections[t].base[i]; }
      }
    }
  }

  // ---- growth

  predicate TermsGrow(c: Cluster, d: Cluster) {
    && d.servers.Keys == c.servers.Keys
    && forall s :: s in c.servers ==> c.servers[s].node.currentTerm <= d.servers[s].node.currentTerm
  }

  predicate LedgerGrows(a: History, b: History) {
    && (forall t :: t in a.ledger ==> t in b.ledger && a.ledger[t] <= b.ledger[t])
    && (forall t :: t in a.elections ==> t in b.elections && b.elections[t] == a.elections[t])
  }

  /** A server comes to hold more of a term only before it has moved past that term. */
  ghost predicate HeldGrows(c: Cluster, d: Cluster) {
    forall s, t ::
      && HeldLen(c.h, s, t) <= HeldLen(d.h, s, t)
      && (HeldLen(c.h, s, t) < HeldLen(d.h, s, t) && s in c.servers ==> c.servers[s].node.currentTerm <= t)
  }

  predicate VotesGrow(a: History, b: History) {
    && (forall x :: x in a.ballots ==> x in b.ballots && b.ballots[x] == a.ballots[x])
    && (forall x :: x in a.candidacies ==> x in b.candidacies && b.candidacies[x] == a.candidacies[x])
  }

  ghost predicate Evolves(c: Cluster, d: Cluster) {
    && TermsGrow(c, d)
    && LedgerGrows(c.h, d.h)
    && HeldGrows(c, d)
    && VotesGrow(c.h, d.h)
    && c.net <= d.net
  }

  lemma SupportersShrink(c: Cluster, d: Cluster, t: nat, k: nat)
    requires TermsGrow(c, d) && HeldGrows(c, d)
    ensures Supporters(d, t, k) <= Supporters(c, t, k)
  {
    forall s | s in Supporters(d, t, k)
      ensures s in Supporters(c, t, k)
    {
      assert HeldLen(c.h, s, t) < HeldLen(d.h, s, t) && s in c.servers ==> c.servers[s].node.currentTerm <= t;
    }
  }

  /** Nothing becomes choosable that was not, except freshly written entries. */
  lemma ChoosableBefore(c: Cluster, d: Cluster, t: nat, k: nat)
    requires TermsGrow(c, d) && HeldGrows(c, d) && LedgerGrows(c.h, d.h)
    requires Choosable(d, t, k) && t in c.h.ledger && t in c.h.elections && k <= |c.h.ledger[t]|
    ensures Choosable(c, t, k)
    ensures c.h.ledger[t][..k] == d.h.ledger[t][..k]
  {
    SupportersShrink(c, d, t, k);
    SubsetSize(Supporters(d, t, k), Supporters(c, t, k));
    assert |c.servers| == |c.servers.Keys| == |d.servers.Keys| == |d.servers|;
    assert d.h.elections[t] == c.h.elections[t];
    assert c.h.ledger[t] <= d.h.ledger[t];
  }

  /** Once chosen, always chosen. */
  lemma ChosenStays(c: Cluster, d: Cluster, t: nat, k: nat)
    requires TermsGrow(c, d) && HeldGrows(c, d) && LedgerGrows(c.h, d.h)
    requires Chosen(c, t, k)
    ensures Chosen(d, t, k) && d.h.ledger[t][..k] == c.h.ledger[t][..k]
  {
    forall s | s in Holders(c, t, k)
      ensures s in Holders(d, t, k)
    {
      assert HeldLen(c.h, s, t) <= HeldLen(d.h, s, t);
    }
    SubsetSize(Holders(c, t, k), Holders(d, t, k));
    assert |c.servers| == |c.servers.Keys| == |d.servers.Keys| == |d.servers|;
    assert d.h.elections[t] == c.h.elections[t];
    assert c.h.ledger[t] <= d.h.ledger[t];
  }

  lemma ChosenIsChoosable(c: Cluster, t: nat, k: nat)
    requires Chosen(c, t, k)
    ensures Choosable(c, t, k)
  {
    SubsetSize(Holders(c, t, k), Supporters(c, t, k));
  }

  lemma CommittedStays(c: Cluster, d: Cluster, p: seq<Entry>, term: nat, term': nat)
    requires TermsGrow(c, d) && HeldGrows(c, d) && LedgerGrows(c.h, d.h)
    requires CommittedBy(c, p, term) && term <= term'
    ensures CommittedBy(d, p, term')
  {
    if p != [] {
      var t: nat, k: nat :| t <= term && Chosen(c, t, k) && p <= c.h.ledger[t][..k];
      ChosenStays(c, d, t, k);
    }
  }

  // ---- invariants carried by growth

  lemma VoteNetStays(c: Cluster, d: Cluster, m: Message)
    requires VotesGrow(c.h, d.h) && VoteMessageOk(c, m)
    ensures VoteMessageOk(d, m)
  {
  }

  lemma AppendMessageStays(c: Cluster, d: Cluster, m: Message)
    requires TermsGrow(c, d) && HeldGrows(c, d) && LedgerGrows(c.h, d.h)
    requires AppendMessageOk(c, m)
    ensures AppendMessageOk(d, m)
  {
    match m
    case AppendRequest(to, arg) =>
      var l, l' := c.h.ledger[arg.term], d.h.ledger[arg.term];
      assert l <= l';
      assert l[..arg.leaderCommit] == l'[..arg.leaderCommit];
      CommittedStays(c, d, l[..arg.leaderCommit], arg.term, arg.term);
    case AppendReply(from, arg, reply, seen) =>
      assert HeldLen(c.h, from, arg.term) <= HeldLen(d.h, from, arg.term);
      if seen.Some? && !reply.success { GroundedGrows(c.h.ledger, d.h.ledger, seen.value); }
    case VoteRequest(_, _) =>
    case VoteReply(_, _, _) =>
  }

  lemma AppliedStays(c: Cluster, d: Cluster, e: Entry)
    requires TermsGrow(c, d) && HeldGrows(c, d) && LedgerGrows(c.h, d.h)
    requires AppliedAt(c, e)
    ensures AppliedAt(d, e)
  {
    var t: nat, k: nat :| Chosen(c, t, k) && 1 <= e.index <= k && c.h.ledger[t][e.index - 1] == e;
    ChosenStays(c, d, t, k);
    assert d.h.ledger[t][..k][e.index - 1] == c.h.ledger[t][..k][e.index - 1];
  }
}
