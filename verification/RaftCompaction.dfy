/** A server that has compacted its log answers like one that never did. The twin of a server
    is the same server with its whole log; every locked section that stays above the cut gives
    the same answer on both and leads to twins again. */
module RaftCompaction {
  import opened Options
  import opened RaftTypes
  import opened RaftLog
  import opened RaftNode

  // ---- the trimmed log and the whole one

  function TermAt(full: seq<Entry>, k: nat): nat
    requires k <= |full|
  {
    if k == 0 then 0 else full[k - 1].term
  }

  /** Terms start at 1 and never fall. */
  ghost predicate Ordered(full: seq<Entry>) {
    && (forall i :: 0 <= i < |full| ==> full[i].term >= 1)
    && (forall i, j :: 0 <= i < j < |full| ==> full[i].term <= full[j].term)
  }

  /** `l` stores what `full` holds above the cut, and knows the index and term at the cut. */
  ghost predicate Stands(l: LogState, full: seq<Entry>) {
    && Contiguous(full, 0)
    && l.lastIncludedIndex <= |full|
    && l.entries == full[l.lastIncludedIndex..]
    && l.lastIncludedTerm == TermAt(full, l.lastIncludedIndex)
  }

  function Whole(full: seq<Entry>): LogState { LogState(full, 0, 0) }

  lemma StandsContiguous(l: LogState, full: seq<Entry>)
    requires Stands(l, full)
    ensures Contiguous(l.entries, l.lastIncludedIndex)
  {
    var cut := l.lastIncludedIndex;
    forall k | 0 <= k < |l.entries| ensures l.entries[k].index == cut + k + 1 {
      assert l.entries[k] == full[cut + k];
    }
  }

  lemma SameLast(l: LogState, full: seq<Entry>)
    requires Stands(l, full)
    ensures LastIndex(l) == LastIndex(Whole(full)) == |full|
    ensures LastTerm(l) == LastTerm(Whole(full))
  {
    StandsContiguous(l, full);
    LastContiguous(l);
    LastContiguous(Whole(full));
  }

  lemma SameAt(l: LogState, full: seq<Entry>, i: nat)
    requires Stands(l, full) && i > l.lastIncludedIndex
    ensures At(l.entries, i) == At(full, i)
    ensures At(full, i) == if i <= |full| then Some(full[i - 1]) else None
  {
    StandsContiguous(l, full);
    AtContiguous(l.entries, l.lastIncludedIndex, i);
    AtContiguous(full, 0, i);
  }

  lemma SameSuffix(l: LogState, full: seq<Entry>, start: nat)
    requires Stands(l, full) && start > l.lastIncludedIndex
    ensures Suffix(l.entries, start) == Suffix(full, start)
  {
    StandsContiguous(l, full);
    SuffixAbove(full, l.lastIncludedIndex, start);
  }

  lemma SuffixAbove(full: seq<Entry>, cut: nat, start: nat)
    requires Contiguous(full, 0) && cut <= |full| && Contiguous(full[cut..], cut) && cut < start
    ensures Suffix(full[cut..], start) == Suffix(full, start)
  {
    hide Suffix, Contiguous;
    if start <= |full| {
      SuffixContiguous(full[cut..], cut, start);
      SuffixContiguous(full, 0, start);
      DropTwice(full, cut, start - cut - 1);
    } else {
      SuffixPast(full[cut..], cut, start);
      SuffixPast(full, 0, start);
    }
  }

  lemma DropTwice(full: seq<Entry>, i: nat, j: nat)
    requires i + j <= |full|
    ensures full[i..][j..] == full[i + j..]
  {
  }

  /** At the cut itself the entry is gone; its term is what the log remembers. */
  lemma AtCut(l: LogState, full: seq<Entry>)
    requires Stands(l, full)
    ensures At(l.entries, l.lastIncludedIndex) == None
    ensures l.lastIncludedIndex > 0 ==>
      At(full, l.lastIncludedIndex) == Some(full[l.lastIncludedIndex - 1])
  {
    StandsContiguous(l, full);
    AtContiguous(l.entries, l.lastIncludedIndex, l.lastIncludedIndex);
    AtContiguous(full, 0, l.lastIncludedIndex);
  }

  lemma SameVote(l: LogState, full: seq<Entry>, lastLogIndex: nat, lastLogTerm: nat)
    requires Stands(l, full)
    ensures UpToDate(l, lastLogIndex, lastLogTerm) == UpToDate(Whole(full), lastLogIndex, lastLogTerm)
  {
    SameLast(l, full);
  }

  lemma SameAcceptance(l: LogState, full: seq<Entry>, prev: nat, prevTerm: nat)
    requires Stands(l, full) && prev >= l.lastIncludedIndex
    ensures Accepts(l, l.lastIncludedIndex, l.lastIncludedTerm, prev, prevTerm)
         == Accepts(Whole(full), 0, 0, prev, prevTerm)
         == (prev <= |full| && (prev == 0 || TermAt(full, prev) == prevTerm))
  {
    if prev == l.lastIncludedIndex {
      AtCut(l, full);
    } else {
      SameAt(l, full, prev);
    }
  }

  lemma SameMerge(l: LogState, full: seq<Entry>, prev: nat, es: seq<Entry>)
    requires Stands(l, full) && l.lastIncludedIndex <= prev <= |full| && Contiguous(es, prev)
    ensures Stands(l.(entries := Merge(l.entries, es)), Merge(full, es))
    ensures Merge(full, es) == Overlay(full, prev, es)
  {
    StandsContiguous(l, full);
    hide Merge, Contiguous, Overlay;
    var cut := l.lastIncludedIndex;
    MergeIsOverlay(l.entries, cut, es, prev - cut);
    MergeIsOverlay(full, 0, es, prev);
    OverlayContiguous(full, prev, es);
    OverlayAbove(full, cut, prev, es);
    assert cut > 0 ==> Overlay(full, prev, es)[..cut][cut - 1] == full[..cut][cut - 1];
  }

  lemma OverlayContiguous(full: seq<Entry>, prev: nat, es: seq<Entry>)
    requires Contiguous(full, 0) && prev <= |full| && Contiguous(es, prev)
    ensures Contiguous(Overlay(full, prev, es), 0)
  {
  }

  lemma OverlayAbove(full: seq<Entry>, cut: nat, prev: nat, es: seq<Entry>)
    requires cut <= prev <= |full|
    ensures Overlay(full[cut..], prev - cut, es) == Overlay(full, prev, es)[cut..]
    ensures cut <= |Overlay(full, prev, es)| && Overlay(full, prev, es)[..cut] == full[..cut]
  {
    assert full[cut..][..prev - cut] == full[cut..prev];
    if prev + |es| <= |full| {
      assert full[cut..][prev - cut..prev - cut + |es|] == full[prev..prev + |es|];
    }
    assert (full[..prev] + es)[cut..] == full[cut..prev] + es;
  }

  lemma OverlayOrdered(full: seq<Entry>, prev: nat, es: seq<Entry>)
    requires Ordered(full) && prev <= |full|
    requires Ordered(es) && (es != [] ==> TermAt(full, prev) <= es[0].term)
    ensures Ordered(Overlay(full, prev, es))
  {
    var r := full[..prev] + es;
    forall i, j | 0 <= i < j < |r| ensures r[i].term <= r[j].term {
      if i < prev <= j {
        assert full[i].term <= full[prev - 1].term <= es[0].term <= es[j - prev].term;
      }
    }
  }

  // ---- where compaction shows

  /** The rejection hint is the same exactly when the rejected entry is above the cut and not
      of the term at the cut. Otherwise the first entry of that term is gone. */
  lemma HintSameIff(l: LogState, full: seq<Entry>, prev: nat)
    requires Stands(l, full) && Ordered(full) && prev >= l.lastIncludedIndex > 0
    ensures ConflictHint(l, prev) == ConflictHint(Whole(full), prev) <==> HintKept(l, prev)
  {
    hide TermFirstIndex;
    if prev == l.lastIncludedIndex {
      AtCut(l, full);
    } else {
      SameAt(l, full, prev);
      SameLast(l, full);
      if prev <= |full| {
        FirstOfTermSameIff(l, full, full[prev - 1].term);
        assert l.entries[prev - l.lastIncludedIndex - 1] == full[prev - 1];
      }
    }
  }

  predicate HintKept(l: LogState, prev: nat) {
    prev > l.lastIncludedIndex && (At(l.entries, prev) == None || At(l.entries, prev).value.term != l.lastIncludedTerm)
  }

  lemma FirstOfTermSameIff(l: LogState, full: seq<Entry>, t: nat)
    requires Stands(l, full) && Ordered(full) && l.lastIncludedIndex > 0
    requires exists k :: 0 <= k < |l.entries| && l.entries[k].term == t
    ensures TermFirstIndex(l.entries, t) == TermFirstIndex(full, t) <==> t != l.lastIncludedTerm
  {
    hide TermFirstIndex;
    var cut := l.lastIncludedIndex;
    FirstOfTerm(full, cut, t);
    var k :| 0 <= k < |l.entries| && l.entries[k].term == t;
    assert l.entries[k] == full[cut + k];
    if t == l.lastIncludedTerm {
      assert full[..cut][cut - 1].term == t;
      TermFirstFinds(full[..cut], 0, t);
      StandsContiguous(l, full);
      TermFirstFinds(l.entries, cut, t);
    } else {
      assert forall i :: 0 <= i < cut ==> full[i].term <= full[cut - 1].term < t;
    }
  }

  /** The search finds the first entry of the term in the first part, if it is there. */
  lemma {:induction false} FirstOfTerm(full: seq<Entry>, cut: nat, t: nat)
    requires cut <= |full|
    ensures (exists i :: 0 <= i < cut && full[i].term == t) ==>
      TermFirstIndex(full, t) == TermFirstIndex(full[..cut], t)
    ensures !(exists i :: 0 <= i < cut && full[i].term == t) ==>
      TermFirstIndex(full, t) == TermFirstIndex(full[cut..], t)
    decreases cut
  {
    if cut == 0 {
      assert full[0..] == full;
    } else if full[0].term != t {
      FirstOfTerm(full[1..], cut - 1, t);
      assert full[1..][..cut - 1] == full[..cut][1..];
      assert full[1..][cut - 1..] == full[cut..];
      assert forall i :: 0 <= i < cut - 1 ==> full[1..][i] == full[i + 1];
      if i :| 0 <= i < cut && full[i].term == t {
        assert full[1..][i - 1].term == t;
      }
    }
  }

  /** Whether the leader's own log shows that a hinted term does not lie wholly below its cut. */
  predicate TermVisible(l: LogState, t: nat) {
    || t == 0 || t > l.lastIncludedTerm
    || (t < l.lastIncludedTerm && l.lastIncludedIndex == 1)
    || Occurs(l.entries, t)
  }

  predicate Occurs(es: seq<Entry>, t: nat) {
    exists i :: 0 <= i < |es| && es[i].term == t
  }

  lemma VisibleNotBelow(l: LogState, full: seq<Entry>, t: nat)
    requires Stands(l, full) && Ordered(full) && TermVisible(l, t) && !Occurs(l.entries, t)
    ensures !Occurs(full[..l.lastIncludedIndex], t)
  {
    var cut := l.lastIncludedIndex;
    forall i | 0 <= i < cut
      ensures full[..cut][i].term != t
    {
      assert i < cut - 1 ==> full[i].term <= full[cut - 1].term;
    }
  }

  lemma VisibleLast(l: LogState, full: seq<Entry>, t: nat)
    requires Stands(l, full) && Ordered(full) && TermVisible(l, t)
    ensures TermLastIndex(l.entries, t) == TermLastIndex(full, t)
  {
    hide TermLastIndex;
    LastOfTerm(full, l.lastIncludedIndex, t);
    if !Occurs(l.entries, t) {
      VisibleNotBelow(l, full, t);
      TermLastFinds(full[..l.lastIncludedIndex], 0, t);
    }
  }

  /** Where the leader resumes after a rejection is the same when the hinted term is visible. */
  lemma SameBacktrack(l: LogState, full: seq<Entry>, hint: Conflict)
    requires Stands(l, full) && Ordered(full)
    requires TermVisible(l, hint.term)
    ensures Backtrack(l, hint) == Backtrack(Whole(full), hint)
  {
    SameLast(l, full);
    VisibleLast(l, full, hint.term);
  }

  /** For one whole log and one term: the two positions are the same for every hinted index
      exactly when the search for the term's last entry gives the same on both logs. */
  lemma BacktrackSameIff(l: LogState, full: seq<Entry>, t: nat)
    requires Stands(l, full)
    ensures (forall i: nat :: Backtrack(l, Conflict(t, i)) == Backtrack(Whole(full), Conflict(t, i)))
       <==> TermLastIndex(l.entries, t) == TermLastIndex(full, t)
  {
    SameLast(l, full);
    LastOfTerm(full, l.lastIncludedIndex, t);
    TermLastFinds(full, 0, t);
    if TermLastIndex(l.entries, t) != TermLastIndex(full, t) {
      assert Backtrack(l, Conflict(t, 1)) == 1 != Backtrack(Whole(full), Conflict(t, 1));
    }
  }

  /** The leader resumes alike whatever the entries it no longer has may be. */
  ghost predicate BacktracksAlike(l: LogState, t: nat) {
    forall full: seq<Entry>, i: nat :: Stands(l, full) && Ordered(full) ==>
      Backtrack(l, Conflict(t, i)) == Backtrack(Whole(full), Conflict(t, i))
  }

  /** And that is so exactly when the hinted term is visible, which the leader can see. */
  lemma BacktracksAlikeIff(l: LogState, full: seq<Entry>, t: nat)
    requires Stands(l, full) && Ordered(full)
    ensures BacktracksAlike(l, t) <==> TermVisible(l, t)
  {
    if TermVisible(l, t) {
      forall f: seq<Entry>, i: nat | Stands(l, f) && Ordered(f)
        ensures Backtrack(l, Conflict(t, i)) == Backtrack(Whole(f), Conflict(t, i))
      {
        SameBacktrack(l, f, Conflict(t, i));
      }
    } else {
      var f := HiddenTerm(l, full, t);
    }
  }

  /** Entries up to the cut, all of term `t` but the last. */
  function Padding(cut: nat, t: nat, top: nat): (below: seq<Entry>)
    ensures |below| == cut
    ensures forall k :: 0 <= k < cut ==> below[k] == Entry(k + 1, if k < cut - 1 then t else top, Command(""))
  {
    seq(cut, k requires 0 <= k < cut => Entry(k + 1, if k < cut - 1 then t else top, Command("")))
  }

  lemma PaddingOrdered(l: LogState, full: seq<Entry>, t: nat)
    requires Stands(l, full) && Ordered(full) && 1 <= t <= l.lastIncludedTerm
    ensures var f := Padding(l.lastIncludedIndex, t, l.lastIncludedTerm) + l.entries;
      Stands(l, f) && Ordered(f)
  {
    hide Padding;
    var cut := l.lastIncludedIndex;
    StandsContiguous(l, full);
    assert forall k :: 0 <= k < |l.entries| ==> l.entries[k] == full[cut + k];
    assert cut > 0;
    assert forall k :: cut <= k < |full| ==> full[cut - 1].term <= full[k].term;
    var f := Padding(cut, t, l.lastIncludedTerm) + l.entries;
    assert f[cut..] == l.entries;
  }

  /** A log that `l` may stand for, in which a term that is not visible lies wholly below the cut:
      hinted at index 1, the compacted leader starts over and the other one does not. */
  lemma HiddenTerm(l: LogState, full: seq<Entry>, t: nat) returns (f: seq<Entry>)
    requires Stands(l, full) && Ordered(full) && !TermVisible(l, t)
    ensures Stands(l, f) && Ordered(f)
    ensures Backtrack(l, Conflict(t, 1)) == 1 < Backtrack(Whole(f), Conflict(t, 1))
  {
    f := Padding(l.lastIncludedIndex, t, l.lastIncludedTerm) + l.entries;
    PaddingOrdered(l, full, t);
    PaddingHides(l, f, t);
    hide Stands, Ordered, TermLastIndex, LastIndex, Padding, TermVisible;
    SameLast(l, f);
  }

  lemma PaddingHides(l: LogState, f: seq<Entry>, t: nat)
    requires f == Padding(l.lastIncludedIndex, t, l.lastIncludedTerm) + l.entries
    requires Stands(l, f) && !TermVisible(l, t)
    ensures TermLastIndex(l.entries, t) == 0 < TermLastIndex(f, t) <= |f|
  {
    hide TermLastIndex, Padding;
    var cut := l.lastIncludedIndex;
    var below := Padding(cut, t, l.lastIncludedTerm);
    assert cut > 0 && below[0].term == t;
    assert f[..cut] == below && f[cut..] == l.entries;
    LastOfTerm(f, cut, t);
    TermLastFinds(below, 0, t);
  }

  /** The search from the end finds the last entry of the term above the cut, if it is there. */
  lemma {:induction false} LastOfTerm(full: seq<Entry>, cut: nat, t: nat)
    requires cut <= |full|
    ensures Occurs(full[cut..], t) ==> TermLastIndex(full, t) == TermLastIndex(full[cut..], t)
    ensures !Occurs(full[cut..], t) ==>
      TermLastIndex(full, t) == TermLastIndex(full[..cut], t) && TermLastIndex(full[cut..], t) == 0
    decreases |full|
  {
    if cut == |full| {
      assert full[..cut] == full;
    } else {
      var front := full[..|full| - 1];
      var tail := full[cut..];
      assert tail[..|tail| - 1] == front[cut..];
      assert tail[|tail| - 1] == full[|full| - 1];
      if full[|full| - 1].term != t {
        LastOfTerm(front, cut, t);
        assert front[..cut] == full[..cut];
        OccursFront(tail, t);
      }
    }
  }

  lemma OccursFront(es: seq<Entry>, t: nat)
    requires es != [] && es[|es| - 1].term != t
    ensures Occurs(es, t) <==> Occurs(es[..|es| - 1], t)
  {
    var front := es[..|es| - 1];
    assert forall i :: 0 <= i < |front| ==> front[i] == es[i];
    if i :| 0 <= i < |es| && es[i].term == t {
      assert front[i].term == t;
    }
  }

  // ---- twins

  /** The server, had it never compacted. */
  function Twin(n: Node, full: seq<Entry>): Node {
    n.(log := Whole(full), lastIncludedIndex := 0, lastIncludedTerm := 0, snapshotData := "")
  }

  ghost predicate TermsUpTo(full: seq<Entry>, term: nat) {
    Ordered(full) && forall i :: 0 <= i < |full| ==> full[i].term <= term
  }

  lemma TermsOrdered(full: seq<Entry>, term: nat)
    requires TermsUpTo(full, term)
    ensures Ordered(full)
  {
  }

  lemma TermsRise(full: seq<Entry>)
    ensures forall t, u :: TermsUpTo(full, t) && t <= u ==> TermsUpTo(full, u)
  {
  }

  ghost predicate Compacted(n: Node, full: seq<Entry>) {
    && Stands(n.log, full)
    && n.lastIncludedIndex == n.log.lastIncludedIndex
    && n.lastIncludedTerm == n.log.lastIncludedTerm
    && TermsUpTo(full, n.currentTerm)
    && (n.role != Follower ==> n.currentTerm >= 1)
  }

  /** The locked sections of a server, and what each lets out. */
  datatype Section =
    | Vote(vote: RequestVoteArg)
    | Append(append: AppendEntriesArg, garbage: Conflict)
    | Timeout
    | CountVote(sentVote: RequestVoteArg, voteReply: Option<RequestVoteReply>)
    | Send(peer: ServerId)
    | CountAppend(peer: ServerId, sent: AppendEntriesArg, appendReply: Option<AppendEntriesReply>)
    | Submit(command: Command)
    | Compact(index: nat, data: string)

  datatype Answer =
    | Silent
    | Voted(vote: RequestVoteReply)
    | Appended(append: AppendEntriesReply)
    | Sent(request: Option<AppendEntriesArg>)
    | Submitted(accepted: bool)

  function Perform(n: Node, s: Section): (Node, Answer) {
    match s
    case Vote(arg) => var (m, r) := OnRequestVote(n, arg); (m, Voted(r))
    case Append(arg, garbage) => var (m, r) := OnAppendEntries(n, arg, garbage); (m, Appended(r))
    case Timeout => (InitVote(n), Silent)
    case CountVote(arg, reply) => (OnVoteReply(n, arg, reply), Silent)
    case Send(peer) => (n, Sent(BuildAppend(n, peer)))
    case CountAppend(peer, arg, reply) => (OnAppendReply(n, peer, arg, reply), Silent)
    case Submit(command) => (OnStart(n, command), Submitted(CanStart(n)))
    case Compact(index, data) => (OnSnapshot(n, index, data), Silent)
  }

  /** The twin does the same, but ignores requests to compact. */
  function PerformTwin(n: Node, s: Section): (Node, Answer) {
    if s.Compact? then (n, Silent) else Perform(n, s)
  }

  /** What leaders send, see RaftTheorems.RequestsSound: entries numbered from prevLogIndex, in
      term order. */
  ghost predicate Sound(arg: AppendEntriesArg) {
    && Contiguous(arg.entries, arg.prevLogIndex) && Ordered(arg.entries)
    && (forall i :: 0 <= i < |arg.entries| ==> arg.entries[i].term <= arg.term)
    && (arg.prevLogIndex > 0 ==> forall i :: 0 <= i < |arg.entries| ==> arg.prevLogTerm <= arg.entries[i].term)
  }

  /** The section does not reach below the cut: an append continues at or above it and a
      rejection keeps its hint, a send starts above it, a hint is visible, and the commit scan
      does not reach below it. */
  ghost predicate AboveCut(n: Node, s: Section) {
    match s
    case Append(arg, _) =>
      && Sound(arg) && arg.prevLogIndex >= n.lastIncludedIndex
      && (|| n.lastIncludedIndex == 0 || HintKept(n.log, arg.prevLogIndex)
          || Accepts(n.log, n.lastIncludedIndex, n.lastIncludedTerm, arg.prevLogIndex, arg.prevLogTerm))
    case Send(peer) => peer in n.nextIndex ==> n.nextIndex[peer] > n.lastIncludedIndex
    case CountAppend(_, _, reply) =>
      reply.Some? ==>
        if reply.value.success then n.lastIncludedIndex <= n.commitIndex
        else TermVisible(n.log, reply.value.conflict.term)
    case _ => true
  }

  ghost predicate StaysTwin(n: Node, full: seq<Entry>, s: Section) {
    var (m, a) := Perform(n, s);
    var (u, b) := PerformTwin(Twin(n, full), s);
    a == b && Compacted(m, u.log.entries) && u == Twin(m, u.log.entries)
  }

  lemma TwinFollows(n: Node, full: seq<Entry>, term: nat)
    requires Compacted(n, full)
    ensures Compacted(BecameFollower(n, term), full)
    ensures BecameFollower(Twin(n, full), term) == Twin(BecameFollower(n, term), full)
  {
    hide Stands, TermsUpTo;
    TermsRise(full);
  }

  lemma TwinVote(n: Node, full: seq<Entry>, arg: RequestVoteArg)
    requires Compacted(n, full)
    ensures StaysTwin(n, full, Vote(arg))
  {
    hide Stands, TermsUpTo, UpToDate, BecameFollower;
    TwinFollows(n, full, arg.term);
    var f := BecameFollower(n, arg.term);
    SameVote(f.log, full, arg.lastLogIndex, arg.lastLogTerm);
    var u := Twin(n, full);
    if n.killed || arg.term < n.currentTerm {
      assert OnRequestVote(u, arg).0 == u;
    } else if HasVote(f, arg.candidateId) && UpToDate(f.log, arg.lastLogIndex, arg.lastLogTerm) {
      var m := f.(votedFor := Some(arg.candidateId), role := Follower);
      assert OnRequestVote(n, arg).0 == m && OnRequestVote(u, arg).0 == Twin(m, full);
    } else {
      assert OnRequestVote(n, arg).0 == f && OnRequestVote(u, arg).0 == Twin(f, full);
    }
  }

  lemma TwinTimeout(n: Node, full: seq<Entry>)
    requires Compacted(n, full)
    ensures StaysTwin(n, full, Timeout)
  {
    hide Stands, TermsUpTo, Filled;
    SameLast(n.log, full);
    TermsRise(full);
  }

  lemma TwinCountVote(n: Node, full: seq<Entry>, arg: RequestVoteArg, reply: Option<RequestVoteReply>)
    requires Compacted(n, full)
    ensures StaysTwin(n, full, CountVote(arg, reply))
  {
    if reply.Some? && CountsVote(n, arg, reply.value) {
      TwinCounted(n, full, arg, reply);
    } else if reply.Some? {
      hide Stands, TermsUpTo, BecameFollower;
      TwinFollows(n, full, reply.value.term);
    } else {
      hide Stands, TermsUpTo;
    }
  }

  lemma TwinCounted(n: Node, full: seq<Entry>, arg: RequestVoteArg, reply: Option<RequestVoteReply>)
    requires Compacted(n, full) && reply.Some? && CountsVote(n, arg, reply.value)
    ensures StaysTwin(n, full, CountVote(arg, reply))
  {
    hide Stands, TermsUpTo, Filled, LastIndex, Majority;
    SameLast(n.log, full);
    var m := n.(votesGranted := n.votesGranted + 1);
    if m.votesGranted < Majority(n.clusterSize) {
      assert OnVoteReply(n, arg, reply) == m;
      assert OnVoteReply(Twin(n, full), arg, reply) == Twin(m, full);
    } else {
      var won := m.(role := Leader,
                    nextIndex := Filled<nat>(n.nextIndex.Keys, LastIndex(n.log) + 1),
                    matchIndex := Filled<nat>(n.matchIndex.Keys, 0));
      assert OnVoteReply(n, arg, reply) == won;
      assert OnVoteReply(Twin(n, full), arg, reply) == Twin(won, full);
    }
  }

  lemma TwinAppend(n: Node, full: seq<Entry>, arg: AppendEntriesArg, garbage: Conflict)
    requires Compacted(n, full) && AboveCut(n, Append(arg, garbage))
    ensures StaysTwin(n, full, Append(arg, garbage))
  {
    if n.killed || n.pendingSnapshot || arg.term < n.currentTerm {
      hide Stands, TermsUpTo, Sound, Accepts, Merge;
    } else if Accepts(n.log, n.lastIncludedIndex, n.lastIncludedTerm, arg.prevLogIndex, arg.prevLogTerm) {
      hide *;
      TwinAccept(n, full, arg, garbage);
    } else {
      TwinReject(n, full, arg, garbage);
    }
  }

  lemma TwinAccept(n: Node, full: seq<Entry>, arg: AppendEntriesArg, garbage: Conflict)
    requires Compacted(n, full) && Sound(arg) && arg.prevLogIndex >= n.lastIncludedIndex
    requires !n.killed && !n.pendingSnapshot && arg.term >= n.currentTerm
    requires Accepts(n.log, n.lastIncludedIndex, n.lastIncludedTerm, arg.prevLogIndex, arg.prevLogTerm)
    ensures StaysTwin(n, full, Append(arg, garbage))
  {
    hide Merge, MergeFrom, Position, Stands, TermsUpTo, Accepts;
    SameAcceptance(n.log, full, arg.prevLogIndex, arg.prevLogTerm);
    SoundMerge(n, full, arg);
    SameLast(n.log.(entries := Merge(n.log.entries, arg.entries)), Merge(full, arg.entries));
  }

  lemma SoundMerge(n: Node, full: seq<Entry>, arg: AppendEntriesArg)
    requires Compacted(n, full) && Sound(arg) && n.lastIncludedIndex <= arg.prevLogIndex <= |full|
    requires arg.term >= n.currentTerm
    requires arg.prevLogIndex == 0 || TermAt(full, arg.prevLogIndex) == arg.prevLogTerm
    ensures Stands(n.log.(entries := Merge(n.log.entries, arg.entries)), Merge(full, arg.entries))
    ensures TermsUpTo(Merge(full, arg.entries), arg.term) && n.lastIncludedIndex <= |Merge(full, arg.entries)|
  {
    hide Merge, Contiguous, TermsUpTo;
    SameMerge(n.log, full, arg.prevLogIndex, arg.entries);
    SoundTerms(full, n.currentTerm, arg);
  }

  lemma SoundTerms(full: seq<Entry>, term: nat, arg: AppendEntriesArg)
    requires TermsUpTo(full, term) && Sound(arg) && arg.prevLogIndex <= |full| && arg.term >= term
    requires arg.prevLogIndex == 0 || TermAt(full, arg.prevLogIndex) == arg.prevLogTerm
    ensures TermsUpTo(Overlay(full, arg.prevLogIndex, arg.entries), arg.term)
  {
    hide Contiguous;
    OverlayOrdered(full, arg.prevLogIndex, arg.entries);
  }

  lemma TwinReject(n: Node, full: seq<Entry>, arg: AppendEntriesArg, garbage: Conflict)
    requires Compacted(n, full) && AboveCut(n, Append(arg, garbage))
    requires !n.killed && !n.pendingSnapshot && arg.term >= n.currentTerm
    requires !Accepts(n.log, n.lastIncludedIndex, n.lastIncludedTerm, arg.prevLogIndex, arg.prevLogTerm)
    ensures StaysTwin(n, full, Append(arg, garbage))
  {
    hide Merge, MergeFrom, Position, Stands, TermsUpTo, Accepts, ConflictHint, Sound, HintKept;
    SameAcceptance(n.log, full, arg.prevLogIndex, arg.prevLogTerm);
    TermsRise(full);
    if n.lastIncludedIndex == 0 {
      UncutLog(n.log, full);
    } else {
      TermsOrdered(full, n.currentTerm);
      HintSameIff(n.log, full, arg.prevLogIndex);
    }
  }

  lemma UncutLog(l: LogState, full: seq<Entry>)
    requires Stands(l, full) && l.lastIncludedIndex == 0
    ensures l == Whole(full)
  {
  }

  lemma TwinSend(n: Node, full: seq<Entry>, peer: ServerId)
    requires Compacted(n, full) && AboveCut(n, Send(peer))
    ensures StaysTwin(n, full, Send(peer))
  {
    hide Stands, TermsUpTo, Suffix, At, FirstIndex, TermAt;
    if peer in n.nextIndex {
      SendFacts(n.log, full, n.nextIndex[peer]);
    }
  }

  lemma SendFacts(l: LogState, full: seq<Entry>, next: nat)
    requires Stands(l, full) && next > l.lastIncludedIndex
    ensures Suffix(l.entries, next) == Suffix(full, next)
    ensures FirstIndex(l) <= next && FirstIndex(Whole(full)) <= next
    ensures next - 1 > l.lastIncludedIndex ==> At(l.entries, next - 1) == At(full, next - 1)
    ensures next - 1 == l.lastIncludedIndex > 0 ==>
      At(l.entries, next - 1) == None && At(full, next - 1).Some? && At(full, next - 1).value.term == l.lastIncludedTerm
    ensures next == 1 ==> At(l.entries, 0) == At(full, 0) == None && l.lastIncludedTerm == 0
  {
    hide Suffix, At;
    SameSuffix(l, full, next);
    AtCut(l, full);
    if next - 1 > l.lastIncludedIndex {
      SameAt(l, full, next - 1);
    }
    StandsContiguous(l, full);
    if l.lastIncludedIndex == 0 {
      UncutLog(l, full);
    }
  }

  lemma {:induction false} SameScan(n: Node, full: seq<Entry>, i: nat)
    requires Compacted(n, full) && n.lastIncludedIndex <= n.commitIndex
    ensures CommitScan(n, i) == CommitScan(Twin(n, full), i) >= n.commitIndex
    decreases i
  {
    hide Stands, TermsUpTo, At;
    if i > n.commitIndex {
      assert Matching(n, i) == Matching(Twin(n, full), i);
      SameAt(n.log, full, i);
      SameScan(n, full, i - 1);
    }
  }

  lemma TwinCountAppend(n: Node, full: seq<Entry>, peer: ServerId, arg: AppendEntriesArg,
                        reply: Option<AppendEntriesReply>)
    requires Compacted(n, full) && AboveCut(n, CountAppend(peer, arg, reply))
    ensures StaysTwin(n, full, CountAppend(peer, arg, reply))
  {
    hide Stands, TermsUpTo, CommitScan, Backtrack, TermVisible, BecameFollower, LastIndex;
    SameLast(n.log, full);
    if reply.Some? {
      TwinFollows(n, full, reply.value.term);
      if reply.value.success {
        SameScan(Credit(n, peer, arg), full, |full|);
      } else {
        TermsOrdered(full, n.currentTerm);
        SameBacktrack(n.log, full, reply.value.conflict);
      }
    }
  }

  lemma TwinSubmit(n: Node, full: seq<Entry>, command: Command)
    requires Compacted(n, full)
    ensures StaysTwin(n, full, Submit(command))
  {
    hide Stands, TermsUpTo;
    SameLast(n.log, full);
    if CanStart(n) {
      GrowFull(n.log, full, NewEntry(n, command), n.currentTerm);
    }
  }

  lemma GrowFull(l: LogState, full: seq<Entry>, e: Entry, term: nat)
    requires Stands(l, full) && TermsUpTo(full, term)
    requires e.index == |full| + 1 && e.term == term >= 1
    ensures Stands(l.(entries := l.entries + [e]), full + [e]) && TermsUpTo(full + [e], term)
  {
    var cut := l.lastIncludedIndex;
    assert (full + [e])[cut..] == full[cut..] + [e];
  }

  /** Compacting further forgets entries but stands for the same whole log; the entry at the
      new cut is always there to take the term from. */
  lemma TwinCompact(n: Node, full: seq<Entry>, index: nat, data: string)
    requires Compacted(n, full) && AboveCut(n, Compact(index, data))
    ensures StaysTwin(n, full, Compact(index, data))
    ensures !SnapshotIgnored(n, index) && index != n.lastIncludedIndex ==> At(n.log.entries, index).Some?
    ensures !SnapshotIgnored(n, index) ==>
      var m := OnSnapshot(n, index, data); m.lastIncludedIndex == index && m.snapshotData == data
  {
    hide Stands, TermsUpTo, TrimPrefix, At;
    SameLast(n.log, full);
    if n.lastIncludedIndex < index <= |full| {
      SameAt(n.log, full, index);
      TrimStands(n.log, full, index);
    }
  }

  lemma TrimStands(l: LogState, full: seq<Entry>, index: nat)
    requires Stands(l, full) && l.lastIncludedIndex < index <= |full|
    ensures var t := TrimPrefix(l, index, full[index - 1].term);
            Stands(t, full) && t.lastIncludedIndex == index && t.lastIncludedTerm == full[index - 1].term
  {
    StandsContiguous(l, full);
    PositionContiguous(l.entries, l.lastIncludedIndex, index);
  }

  lemma SectionStaysTwin(n: Node, full: seq<Entry>, s: Section)
    requires Compacted(n, full) && AboveCut(n, s)
    ensures StaysTwin(n, full, s)
  {
    hide *;
    match s
    case Vote(arg) => TwinVote(n, full, arg);
    case Append(arg, garbage) => TwinAppend(n, full, arg, garbage);
    case Timeout => TwinTimeout(n, full);
    case CountVote(arg, reply) => TwinCountVote(n, full, arg, reply);
    case Send(peer) => TwinSend(n, full, peer);
    case CountAppend(peer, arg, reply) => TwinCountAppend(n, full, peer, arg, reply);
    case Submit(command) => TwinSubmit(n, full, command);
    case Compact(index, data) => TwinCompact(n, full, index, data);
  }

  // ---- whole runs

  function PerformAll(n: Node, ss: seq<Section>): (Node, seq<Answer>)
    decreases |ss|
  {
    if ss == [] then (n, [])
    else
      var (m, a) := Perform(n, ss[0]);
      var (last, rest) := PerformAll(m, ss[1..]);
      (last, [a] + rest)
  }

  function PerformAllTwin(n: Node, ss: seq<Section>): (Node, seq<Answer>)
    decreases |ss|
  {
    if ss == [] then (n, [])
    else
      var (m, a) := PerformTwin(n, ss[0]);
      var (last, rest) := PerformAllTwin(m, ss[1..]);
      (last, [a] + rest)
  }

  ghost predicate AllAboveCut(n: Node, ss: seq<Section>)
    decreases |ss|
  {
    ss != [] ==> AboveCut(n, ss[0]) && AllAboveCut(Perform(n, ss[0]).0, ss[1..])
  }

  /** A server that compacts as it goes gives, over a whole run, the answers of one that never
      compacts, and stands for the same log at the end. */
  lemma {:induction false} CompactionInvisible(n: Node, full: seq<Entry>, ss: seq<Section>)
    requires Compacted(n, full) && AllAboveCut(n, ss)
    ensures PerformAll(n, ss).1 == PerformAllTwin(Twin(n, full), ss).1
    ensures var (m, u) := (PerformAll(n, ss).0, PerformAllTwin(Twin(n, full), ss).0);
            Compacted(m, u.log.entries) && u == Twin(m, u.log.entries)
    decreases |ss|
  {
    hide Compacted, AboveCut, Perform, PerformTwin;
    if ss != [] {
      SectionStaysTwin(n, full, ss[0]);
      CompactionInvisible(Perform(n, ss[0]).0, PerformTwin(Twin(n, full), ss[0]).0.log.entries, ss[1..]);
    }
  }

  // ---- saving and loading

  /** Reading back a saved compacted log restores everything that can be asked of it. */
  lemma SavedLogRestored(n: Node, full: seq<Entry>, members: set<ServerId>)
    requires Compacted(n, full)
    ensures var b := Boot(n.selfId, members, Persisted(n));
            && b.log == n.log && b.currentTerm == n.currentTerm && b.votedFor == n.votedFor
            && Persisted(b) == Persisted(n)
            && Stands(b.log, full) && LastIndex(b.log) == |full|
  {
    MergeEmpty(n.log.entries);
    SameLast(n.log, full);
  }

  /** A snapshot is taken if and only if the server is live, none is pending, and it covers no less
      than the last one and no more than the log. A restart then finds the snapshot, pending unless
      it is empty, and exactly the entries after its index. */
  lemma SnapshotSurvives(n: Node, full: seq<Entry>, index: nat, data: string, members: set<ServerId>)
    requires Compacted(n, full)
    ensures var m := OnSnapshot(n, index, data);
      var b := Boot(n.selfId, members, Persisted(m));
      if !n.killed && !n.pendingSnapshot && n.lastIncludedIndex <= index <= |full| then
        && b.snapshotData == data && (b.pendingSnapshot <==> data != "")
        && b.lastIncludedIndex == index && b.lastIncludedTerm == TermAt(full, index)
        && b.log == LogState(full[index..], index, TermAt(full, index))
        && b.currentTerm == n.currentTerm && b.votedFor == n.votedFor
      else m == n
  {
    hide TermsUpTo, TrimPrefix, At;
    SameLast(n.log, full);
    if n.lastIncludedIndex < index <= |full| {
      SameAt(n.log, full, index);
      TrimStands(n.log, full, index);
    }
    MergeEmpty(OnSnapshot(n, index, data).log.entries);
  }
}
