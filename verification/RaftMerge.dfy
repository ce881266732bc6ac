/** Merging suffixes of one leader's growing log (src/raft/Log.cpp): neither the order nor the
    number of deliveries matters, only the longest one. */
module RaftMerge {
  import opened RaftTypes
  import opened RaftLog

  /** A message that carries the leader's log from `prev` up to the length it had then. */
  datatype Delivery = Delivery(prev: nat, len: nat)

  /** The follower's consistency test passes on the log `es` it has when the message arrives. */
  predicate Fits(es: seq<Entry>, leader: seq<Entry>, d: Delivery) {
    d.prev <= d.len <= |leader| && d.prev <= |es| && es[..d.prev] == leader[..d.prev]
  }

  function Payload(leader: seq<Entry>, d: Delivery): seq<Entry>
    requires d.prev <= d.len <= |leader|
  {
    leader[d.prev..d.len]
  }

  /** Each message passes the test on the log that the earlier ones have left. */
  predicate Accepted(es: seq<Entry>, leader: seq<Entry>, ds: seq<Delivery>)
    decreases |ds|
  {
    ds == [] || (Fits(es, leader, ds[0]) && Accepted(Merge(es, Payload(leader, ds[0])), leader, ds[1..]))
  }

  function MergeAll(es: seq<Entry>, leader: seq<Entry>, ds: seq<Delivery>): seq<Entry>
    requires Accepted(es, leader, ds)
    decreases |ds|
  {
    if ds == [] then es else MergeAll(Merge(es, Payload(leader, ds[0])), leader, ds[1..])
  }

  /** The longest log any of the deliveries carries the end of. */
  function Longest(ds: seq<Delivery>): nat {
    if ds == [] then 0 else Max(ds[0].len, Longest(ds[1..]))
  }

  /** One delivery brings the log up to the end of what it carries. */
  lemma MergeCatchesUp(es: seq<Entry>, base: nat, leader: seq<Entry>, d: Delivery)
    requires Contiguous(es, base) && Contiguous(leader, base) && Fits(es, leader, d)
    ensures Merge(es, Payload(leader, d)) == CaughtUp(es, leader, d.len)
    ensures Contiguous(CaughtUp(es, leader, d.len), base)
  {
    hide Merge;
    MergeIsOverlay(es, base, Payload(leader, d), d.prev);
    OverlayCatchesUp(es, leader, d.prev, d.len);
  }

  lemma CaughtUpTwice(es: seq<Entry>, leader: seq<Entry>, m: nat, n: nat)
    requires m <= |leader| && n <= |leader|
    ensures CaughtUp(CaughtUp(es, leader, m), leader, n) == CaughtUp(es, leader, Max(m, n))
  {
    if n <= m {
      assert leader[..n] == leader[..m][..n];
    } else {
      assert leader[..m] == leader[..n][..m];
    }
  }

  /** Any number of deliveries, in any order and with repetitions, each accepted when it arrives. */
  lemma {:induction false} DeliveriesCatchUp(es: seq<Entry>, base: nat, leader: seq<Entry>, ds: seq<Delivery>)
    requires Contiguous(es, base) && Contiguous(leader, base) && Accepted(es, leader, ds)
    ensures Longest(ds) <= |leader|
    ensures MergeAll(es, leader, ds) == CaughtUp(es, leader, Longest(ds))
    decreases |ds|
  {
    if ds != [] {
      hide Merge, CaughtUp;
      MergeCatchesUp(es, base, leader, ds[0]);
      DeliveriesCatchUp(Merge(es, Payload(leader, ds[0])), base, leader, ds[1..]);
      CaughtUpTwice(es, leader, ds[0].len, Longest(ds[1..]));
    } else {
      assert leader[..0] <= es;
    }
  }

  /** Two followers that started alike and saw the same newest message hold the same log. */
  lemma OrderIrrelevant(es: seq<Entry>, base: nat, leader: seq<Entry>, ds: seq<Delivery>, fs: seq<Delivery>)
    requires Contiguous(es, base) && Contiguous(leader, base)
    requires Accepted(es, leader, ds) && Accepted(es, leader, fs)
    requires Longest(ds) == Longest(fs)
    ensures MergeAll(es, leader, ds) == MergeAll(es, leader, fs)
  {
    DeliveriesCatchUp(es, base, leader, ds);
    DeliveriesCatchUp(es, base, leader, fs);
  }

  /** A message no longer than one already merged changes nothing, so no entry is ever lost to it. */
  lemma StaleChangesNothing(es: seq<Entry>, base: nat, leader: seq<Entry>, ds: seq<Delivery>, stale: Delivery)
    requires Contiguous(es, base) && Contiguous(leader, base) && Accepted(es, leader, ds)
    requires Fits(MergeAll(es, leader, ds), leader, stale) && stale.len <= Longest(ds)
    ensures Merge(MergeAll(es, leader, ds), Payload(leader, stale)) == MergeAll(es, leader, ds)
  {
    hide Merge;
    DeliveriesCatchUp(es, base, leader, ds);
    assert Contiguous(CaughtUp(es, leader, Longest(ds)), base);
    MergeCatchesUp(CaughtUp(es, leader, Longest(ds)), base, leader, stale);
    CaughtUpTwice(es, leader, Longest(ds), stale.len);
  }

  /** What is accepted now is accepted after any further deliveries. */
  lemma StaysAccepted(es: seq<Entry>, base: nat, leader: seq<Entry>, ds: seq<Delivery>, d: Delivery)
    requires Contiguous(es, base) && Contiguous(leader, base) && Accepted(es, leader, ds)
    requires Fits(es, leader, d)
    ensures Fits(MergeAll(es, leader, ds), leader, d)
  {
    hide Merge;
    DeliveriesCatchUp(es, base, leader, ds);
    var m := Longest(ds);
    if d.prev <= m {
      assert leader[..m][..d.prev] == leader[..d.prev];
    } else {
      assert leader[..m] == leader[..d.prev][..m] == es[..d.prev][..m] == es[..m];
    }
  }
}
