/** The replicated log of one server (src/raft/Log.cpp) as functions on values; the class
    that updates it in place is in RaftServer.dfy. Entries carry their own index, and every
    lookup searches for it. */
module RaftLog {
  import opened Options
  import opened RaftTypes

  /** The entries still stored, and the cut below which they were compacted away. */
  datatype LogState = LogState(entries: seq<Entry>, lastIncludedIndex: nat, lastIncludedTerm: nat)

  /** Position of the first entry with the given index, or the length if there is none. */
  function Position(es: seq<Entry>, index: nat): (p: nat)
    ensures p <= |es|
    ensures p < |es| ==> es[p].index == index
    ensures forall k :: 0 <= k < p ==> es[k].index != index
  {
    if es == [] then 0
    else if es[0].index == index then 0
    else
      var p := Position(es[1..], index);
      assert forall k :: 0 <= k < p ==> es[k + 1] == es[1..][k];
      p + 1
  }

  function At(es: seq<Entry>, index: nat): Option<Entry> {
    var p := Position(es, index);
    if p == |es| then None else Some(es[p])
  }

  function Suffix(es: seq<Entry>, start: nat): seq<Entry> {
    es[Position(es, start)..]
  }

  function FirstIndex(l: LogState): nat {
    if l.entries == [] then 0 else l.entries[0].index
  }

  function LastIndex(l: LogState): nat {
    if l.entries == [] then l.lastIncludedIndex else l.entries[|l.entries| - 1].index
  }

  function LastTerm(l: LogState): nat {
    if l.entries == [] then l.lastIncludedTerm else l.entries[|l.entries| - 1].term
  }

  /** Index of the first entry of the given term, 0 when the term is absent. */
  function TermFirstIndex(es: seq<Entry>, term: nat): nat {
    if es == [] then 0
    else if es[0].term == term then es[0].index
    else TermFirstIndex(es[1..], term)
  }

  /** Index of the last entry of the given term, 0 when the term is absent. */
  function TermLastIndex(es: seq<Entry>, term: nat): nat {
    if es == [] then 0
    else
      var last := es[|es| - 1];
      if last.term == term then last.index else TermLastIndex(es[..|es| - 1], term)
  }

  function TrimPrefix(l: LogState, index: nat, term: nat): LogState {
    var p := Position(l.entries, index);
    LogState(if p == |l.entries| then [] else l.entries[p + 1..], index, term)
  }

  /** Merging from the i-th incoming entry on: skip what is already there, cut at the
      first disagreement, then append the rest. */
  function MergeFrom(es: seq<Entry>, other: seq<Entry>, i: nat): seq<Entry>
    requires i <= |other|
    decreases |other| - i
  {
    if i == |other| then es
    else
      var p := Position(es, other[i].index);
      if p == |es| then es + other[i..]
      else if es[p] != other[i] then es[..p] + other[i..]
      else MergeFrom(es, other, i + 1)
  }

  function Merge(es: seq<Entry>, other: seq<Entry>): seq<Entry> {
    MergeFrom(es, other, 0)
  }

  /** Entries numbered base+1, base+2, ... without gaps. */
  predicate Contiguous(es: seq<Entry>, base: nat) {
    forall k :: 0 <= k < |es| ==> es[k].index == base + k + 1
  }

  /** On a gap-free log the search is arithmetic. */
  lemma PositionContiguous(es: seq<Entry>, base: nat, index: nat)
    requires Contiguous(es, base)
    ensures base < index <= base + |es| ==> Position(es, index) == index - base - 1
    ensures !(base < index <= base + |es|) ==> Position(es, index) == |es|
  {
    var p := Position(es, index);
    if base < index <= base + |es| {
      var k := index - base - 1;
      assert es[k].index == index;
      if p < |es| { assert es[p].index == base + p + 1; }
    }
  }

  lemma AtContiguous(es: seq<Entry>, base: nat, index: nat)
    requires Contiguous(es, base)
    ensures base < index <= base + |es| ==> At(es, index) == Some(es[index - base - 1])
    ensures !(base < index <= base + |es|) ==> At(es, index) == None
  {
    PositionContiguous(es, base, index);
  }

  lemma SuffixContiguous(es: seq<Entry>, base: nat, start: nat)
    requires Contiguous(es, base)
    requires base < start <= base + |es| + 1
    ensures Suffix(es, start) == es[start - base - 1..]
  {
    PositionContiguous(es, base, start);
  }

  lemma SuffixPast(es: seq<Entry>, base: nat, start: nat)
    requires Contiguous(es, base) && start > base + |es|
    ensures Suffix(es, start) == []
  {
    PositionContiguous(es, base, start);
  }

  lemma LastContiguous(l: LogState)
    requires Contiguous(l.entries, l.lastIncludedIndex)
    ensures LastIndex(l) == l.lastIncludedIndex + |l.entries|
  {
  }

  /** Whether the incoming entries, placed after the first `prev` of `es`, are all there already. */
  predicate Includes(es: seq<Entry>, prev: nat, other: seq<Entry>) {
    prev + |other| <= |es| && es[prev..prev + |other|] == other
  }

  /** What merging means on gap-free logs: nothing changes when the incoming entries are
      already there, otherwise the log becomes the agreed prefix followed by all of them. */
  function Overlay(es: seq<Entry>, prev: nat, other: seq<Entry>): seq<Entry>
    requires prev <= |es|
  {
    if Includes(es, prev, other) then es else es[..prev] + other
  }

  /** The first `i` incoming entries are in the log, from position `prev` on. */
  predicate Agrees(es: seq<Entry>, prev: nat, other: seq<Entry>, i: nat) {
    i <= |other| && prev + i <= |es| && forall k :: 0 <= k < i ==> es[prev + k] == other[k]
  }

  lemma SpliceAt(es: seq<Entry>, other: seq<Entry>, prev: nat, i: nat)
    requires Agrees(es, prev, other, i)
    ensures es[..prev + i] + other[i..] == es[..prev] + other
  {
  }

  lemma AllIncluded(es: seq<Entry>, prev: nat, other: seq<Entry>)
    requires Agrees(es, prev, other, |other|)
    ensures Includes(es, prev, other)
  {
  }

  lemma NotIncluded(es: seq<Entry>, prev: nat, other: seq<Entry>, i: nat)
    requires i < |other| && (prev + i < |es| ==> es[prev + i] != other[i])
    ensures !Includes(es, prev, other)
  {
    if prev + |other| <= |es| {
      assert es[prev..prev + |other|][i] == es[prev + i];
    }
  }

  /** The merge stops at the first entry that is not there. */
  lemma MergeStops(es: seq<Entry>, base: nat, other: seq<Entry>, prev: nat, i: nat)
    requires Contiguous(es, base) && Contiguous(other, base + prev) && Agrees(es, prev, other, i) && i < |other|
    requires prev + i < |es| ==> es[prev + i] != other[i]
    ensures MergeFrom(es, other, i) == es[..prev + i] + other[i..]
  {
    assert other[i].index == base + prev + i + 1;
    PositionContiguous(es, base, other[i].index);
    assert prev + i == |es| ==> es == es[..prev + i];
  }

  lemma {:induction false} MergeFromIsOverlay(es: seq<Entry>, base: nat, other: seq<Entry>, prev: nat, i: nat)
    requires Contiguous(es, base) && Contiguous(other, base + prev) && Agrees(es, prev, other, i)
    ensures MergeFrom(es, other, i) == Overlay(es, prev, other)
    decreases |other| - i
  {
    hide Includes;
    if i == |other| {
      AllIncluded(es, prev, other);
    } else if prev + i < |es| && es[prev + i] == other[i] {
      assert other[i].index == base + prev + i + 1;
      PositionContiguous(es, base, other[i].index);
      MergeFromIsOverlay(es, base, other, prev, i + 1);
    } else {
      hide MergeFrom, Contiguous;
      MergeStops(es, base, other, prev, i);
      SpliceAt(es, other, prev, i);
      NotIncluded(es, prev, other, i);
    }
  }

  /** The merge loop computes the overlay whenever the incoming run starts inside the log
      or right behind it. */
  lemma MergeIsOverlay(es: seq<Entry>, base: nat, other: seq<Entry>, prev: nat)
    requires Contiguous(es, base) && Contiguous(other, base + prev) && prev <= |es|
    ensures Merge(es, other) == Overlay(es, prev, other)
  {
    MergeFromIsOverlay(es, base, other, prev, 0);
  }

  lemma MergeEmpty(es: seq<Entry>)
    ensures Merge([], es) == es
  {
  }

  /** A log that is brought up to the first `m` entries of the leader, and keeps what it has
      beyond them when it already agrees. */
  function CaughtUp(es: seq<Entry>, leader: seq<Entry>, m: nat): seq<Entry>
    requires m <= |leader|
  {
    if leader[..m] <= es then es else leader[..m]
  }

  /** Overlaying a slice of the leader's log on a log that agrees with it up to the slice. */
  lemma OverlayCatchesUp(es: seq<Entry>, leader: seq<Entry>, prev: nat, m: nat)
    requires prev <= m <= |leader| && prev <= |es| && es[..prev] == leader[..prev]
    ensures Overlay(es, prev, leader[prev..m]) == CaughtUp(es, leader, m)
  {
    var other := leader[prev..m];
    assert leader[..m] == leader[..prev] + other;
    if m <= |es| {
      assert es[..m] == es[..prev] + es[prev..m];
      assert leader[..m][prev..] == other;
      assert leader[..m] <= es ==> es[..m] == leader[..m];
    }
  }

  // ---- terms in a log

  lemma {:induction false} TermFirstFinds(es: seq<Entry>, base: nat, term: nat)
    requires Contiguous(es, base)
    ensures var r := TermFirstIndex(es, term);
      && (r == 0 ==> forall j :: 0 <= j < |es| ==> es[j].term != term)
      && (r > 0 ==>
            && base < r <= base + |es| && es[r - base - 1].term == term
            && forall j :: 0 <= j < r - base - 1 ==> es[j].term != term)
  {
    if es != [] && es[0].term != term {
      TermFirstFinds(es[1..], base + 1, term);
      assert forall j :: 0 < j < |es| ==> es[j] == es[1..][j - 1];
    }
  }

  lemma {:induction false} TermLastFinds(es: seq<Entry>, base: nat, term: nat)
    requires Contiguous(es, base)
    ensures var r := TermLastIndex(es, term);
      && (r == 0 ==> forall j :: 0 <= j < |es| ==> es[j].term != term)
      && (r > 0 ==>
            && base < r <= base + |es| && es[r - base - 1].term == term
            && forall j :: r - base <= j < |es| ==> es[j].term != term)
  {
    if es != [] && es[|es| - 1].term != term {
      TermLastFinds(es[..|es| - 1], base, term);
    }
  }
}
