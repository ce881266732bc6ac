/** Rebalancing on values (6.5840/src/shardkv1/shardcfg/shardcfg.go): which shards move, that the
    result is even, and that no even assignment can be reached with fewer moves. Groups are
    given as the ascending sequence of their identifiers. */
module ShardRebalance {
  import opened ShardLoads

  ghost predicate Ascending(gids: seq<int>) {
    forall i, j :: 0 <= i < j < |gids| ==> gids[i] < gids[j]
  }

  /** How many shards each group serves. */
  function Loads(shards: seq<int>, gids: seq<int>): (w: seq<nat>)
    ensures |w| == |gids|
  {
    seq(|gids|, i requires 0 <= i < |gids| => multiset(shards)[gids[i]])
  }

  predicate Assigned(shards: seq<int>, gids: seq<int>) {
    forall i :: 0 <= i < |shards| ==> shards[i] in gids
  }

  /** Every shard on an existing group, no two groups more than one shard apart. */
  ghost predicate Even(shards: seq<int>, gids: seq<int>) {
    Assigned(shards, gids) && Balanced(Loads(shards, gids))
  }

  /** How many shards two assignments place differently. */
  function Difference(a: seq<int>, b: seq<int>): nat
    requires |a| == |b|
  {
    |set i: nat | i < |a| && a[i] != b[i]|
  }

  // ---- loads

  lemma LoadsPlaced(shards: seq<int>, gids: seq<int>, s: nat, b: nat)
    requires Ascending(gids) && s < |shards| && b < |gids| && shards[s] !in gids
    ensures Loads(shards[s := gids[b]], gids) == Placed(Loads(shards, gids), b)
  {
    assert multiset(shards[s := gids[b]]) == multiset(shards) - multiset{shards[s]} + multiset{gids[b]};
    assert forall i :: 0 <= i < |gids| ==> gids[i] in gids;
  }

  lemma LoadsShifted(shards: seq<int>, gids: seq<int>, s: nat, a: nat, b: nat)
    requires Ascending(gids) && s < |shards| && a < |gids| && b < |gids| && a != b && shards[s] == gids[a]
    ensures Loads(shards, gids)[a] > 0
    ensures Loads(shards[s := gids[b]], gids) == Shifted(Loads(shards, gids), a, b)
  {
    assert shards[s] in multiset(shards);
    assert multiset(shards[s := gids[b]]) == multiset(shards) - multiset{shards[s]} + multiset{gids[b]};
  }

  lemma LoadsAppend(shards: seq<int>, gids: seq<int>, last: int)
    requires Ascending(gids)
    ensures last in gids ==> Total(Loads(shards + [last], gids)) == Total(Loads(shards, gids)) + 1
    ensures last !in gids ==> Total(Loads(shards + [last], gids)) == Total(Loads(shards, gids))
  {
    hide Total;
    assert multiset(shards + [last]) == multiset(shards) + multiset{last};
    var w := Loads(shards, gids);
    if last in gids {
      var b :| 0 <= b < |gids| && gids[b] == last;
      assert Loads(shards + [last], gids) == w[b := w[b] + 1];
      TotalUpdate(w, b, w[b] + 1);
    } else {
      assert Loads(shards + [last], gids) == w;
    }
  }

  /** The groups serve exactly the assigned shards. */
  lemma {:induction false} LoadsTotal(shards: seq<int>, gids: seq<int>)
    requires Ascending(gids)
    ensures Total(Loads(shards, gids)) <= |shards|
    ensures Total(Loads(shards, gids)) == |shards| <==> Assigned(shards, gids)
  {
    if shards == [] {
      TotalAtMost(Loads(shards, gids), 0);
    } else {
      hide Loads, Total;
      var front, last := shards[..|shards| - 1], shards[|shards| - 1];
      LoadsTotal(front, gids);
      assert shards == front + [last];
      LoadsAppend(front, gids, last);
    }
  }

  /** The moves any even assignment costs, see Optimal. */
  ghost function MovesNeeded(shards: seq<int>, gids: seq<int>): nat
    requires Ascending(gids) && gids != []
  {
    LoadsTotal(shards, gids);
    Cost(Loads(shards, gids), |shards|)
  }

  // ---- the two loops

  function FirstOf(shards: seq<int>, g: int): (s: nat)
    requires g in shards
    ensures s < |shards| && shards[s] == g
    ensures forall i :: 0 <= i < s ==> shards[i] != g
  {
    if shards[0] == g then 0
    else
      assert forall i :: 0 <= i < |shards| - 1 ==> shards[1..][i] == shards[i + 1];
      1 + FirstOf(shards[1..], g)
  }

  function PlaceOne(shards: seq<int>, gids: seq<int>, s: nat): seq<int>
    requires gids != [] && s < |shards|
  {
    if shards[s] in gids then shards else shards[s := gids[Lowest(Loads(shards, gids))]]
  }

  /** The first loop from shard `s` on. */
  function PlaceFrom(shards: seq<int>, gids: seq<int>, s: nat): (r: seq<int>)
    requires gids != [] && s <= |shards|
    ensures |r| == |shards|
    decreases |shards| - s
  {
    if s == |shards| then shards else PlaceFrom(PlaceOne(shards, gids, s), gids, s + 1)
  }

  ghost predicate Uneven(shards: seq<int>, gids: seq<int>)
    requires gids != []
  {
    var w := Loads(shards, gids);
    w[Highest(w)] >= w[Lowest(w)] + 2
  }

  ghost function ShiftOne(shards: seq<int>, gids: seq<int>): seq<int>
    requires gids != [] && Uneven(shards, gids)
  {
    var w := Loads(shards, gids);
    shards[FirstOf(shards, gids[Highest(w)]) := gids[Lowest(w)]]
  }

  /** One pass of the second loop is a shift between load vectors. */
  lemma ShiftOneLoads(shards: seq<int>, gids: seq<int>)
    requires Ascending(gids) && gids != [] && Assigned(shards, gids) && Uneven(shards, gids)
    ensures var w := Loads(shards, gids);
            var a, b := Highest(w), Lowest(w);
            Loads(ShiftOne(shards, gids), gids) == Shifted(w, a, b)
    ensures Assigned(ShiftOne(shards, gids), gids)
    ensures MovesNeeded(ShiftOne(shards, gids), gids) == MovesNeeded(shards, gids) - 1
  {
    hide Total, Cost;
    var w := Loads(shards, gids);
    var a, b := Highest(w), Lowest(w);
    LoadsTotal(shards, gids);
    LoadsShifted(shards, gids, FirstOf(shards, gids[a]), a, b);
    ShiftingPays(w, |shards|, a, b);
  }

  /** The second loop, run to its end. */
  ghost function ShiftAll(shards: seq<int>, gids: seq<int>): (r: seq<int>)
    requires Ascending(gids) && gids != [] && Assigned(shards, gids)
    ensures |r| == |shards|
    decreases MovesNeeded(shards, gids)
  {
    if !Uneven(shards, gids) then shards
    else
      ShiftOneLoads(shards, gids);
      ShiftAll(ShiftOne(shards, gids), gids)
  }

  // ---- what the first loop does

  lemma PlaceOneLoads(shards: seq<int>, gids: seq<int>, s: nat)
    requires Ascending(gids) && gids != [] && s < |shards| && shards[s] !in gids
    ensures Loads(PlaceOne(shards, gids, s), gids) == Placed(Loads(shards, gids), Lowest(Loads(shards, gids)))
    ensures MovesNeeded(PlaceOne(shards, gids, s), gids) == MovesNeeded(shards, gids) - 1
  {
    hide Total, Cost;
    var w := Loads(shards, gids);
    LoadsTotal(shards, gids);
    LoadsPlaced(shards, gids, s, Lowest(w));
    PlacingPays(w, |shards|, Lowest(w));
  }

  // ---- receivers never give and givers never receive

  /** A group that has received: it will not be the heaviest of an uneven assignment again. */
  ghost predicate Settled(w: seq<nat>, lo: nat, g: nat) {
    g < |w| && (w[g] <= lo || (w[g] == lo + 1 && forall j :: 0 <= j < |w| ==> w[j] >= lo))
  }

  /** A group that has given: it will not be the lightest of an uneven assignment again. */
  ghost predicate Drained(w: seq<nat>, hi: nat, g: nat) {
    g < |w| && (w[g] >= hi || (w[g] + 1 == hi && forall j :: 0 <= j < |w| ==> w[j] <= hi))
  }

  lemma PlacedSettles(w: seq<nat>, n: nat, b: nat)
    requires w != [] && Total(w) < n && FirstLowest(w, b)
    ensures Settled(Placed(w, b), Floor(n, |w|), b)
    ensures forall g :: Settled(w, Floor(n, |w|), g) ==> Settled(Placed(w, b), Floor(n, |w|), g)
    ensures forall g :: Drained(w, Ceiling(n, |w|), g) ==> Drained(Placed(w, b), Ceiling(n, |w|), g)
  {
    FloorCeiling(n, |w|);
    LowestBelowCeiling(w, n, b);
  }

  /** The most and the least loaded group of an uneven assignment that serves all `n` shards. */
  ghost predicate Extremes(w: seq<nat>, n: nat, a: nat, b: nat) {
    w != [] && Total(w) == n && FirstHighest(w, a) && FirstLowest(w, b) && w[a] >= w[b] + 2
  }

  lemma ShiftBounds(w: seq<nat>, n: nat, a: nat, b: nat)
    requires Extremes(w, n, a, b)
    ensures w[a] > Floor(n, |w|) && w[b] < Ceiling(n, |w|) <= Floor(n, |w|) + 1
  {
    FloorCeiling(n, |w|);
    ExtremesApart(w, n, a, b);
  }

  lemma SettledStays(w: seq<nat>, n: nat, a: nat, b: nat, g: nat)
    requires Extremes(w, n, a, b) && Settled(w, Floor(n, |w|), g)
    ensures g != a && Settled(Shifted(w, a, b), Floor(n, |w|), g)
  {
    ShiftBounds(w, n, a, b);
    hide Total, Floor, Ceiling;
    var u := Shifted(w, a, b);
    if w[g] > Floor(n, |w|) {
      assert forall j :: 0 <= j < |u| ==> u[j] >= Floor(n, |w|);
    }
  }

  lemma DrainedStays(w: seq<nat>, n: nat, a: nat, b: nat, g: nat)
    requires Extremes(w, n, a, b) && Drained(w, Ceiling(n, |w|), g)
    ensures g != b && Drained(Shifted(w, a, b), Ceiling(n, |w|), g)
  {
    ShiftBounds(w, n, a, b);
    hide Total, Floor, Ceiling;
    var u := Shifted(w, a, b);
    if w[g] < Ceiling(n, |w|) {
      assert forall j :: 0 <= j < |u| ==> u[j] <= Ceiling(n, |w|);
    }
  }

  lemma ShiftedSettles(w: seq<nat>, n: nat, a: nat, b: nat)
    requires Extremes(w, n, a, b)
    ensures !Settled(w, Floor(n, |w|), a) && Settled(Shifted(w, a, b), Floor(n, |w|), b)
    ensures forall g :: Settled(w, Floor(n, |w|), g) ==> Settled(Shifted(w, a, b), Floor(n, |w|), g)
  {
    ShiftBounds(w, n, a, b);
    hide Total, Floor, Ceiling;
    assert forall j :: 0 <= j < |w| && w[b] == Floor(n, |w|) ==> Shifted(w, a, b)[j] >= Floor(n, |w|);
    forall g: nat | Settled(w, Floor(n, |w|), g)
      ensures Settled(Shifted(w, a, b), Floor(n, |w|), g)
    {
      SettledStays(w, n, a, b, g);
    }
  }

  lemma ShiftedDrains(w: seq<nat>, n: nat, a: nat, b: nat)
    requires Extremes(w, n, a, b)
    ensures !Drained(w, Ceiling(n, |w|), b) && Drained(Shifted(w, a, b), Ceiling(n, |w|), a)
    ensures forall g :: Drained(w, Ceiling(n, |w|), g) ==> Drained(Shifted(w, a, b), Ceiling(n, |w|), g)
  {
    ShiftBounds(w, n, a, b);
    hide Total, Floor, Ceiling;
    assert forall j :: 0 <= j < |w| && w[a] == Ceiling(n, |w|) ==> Shifted(w, a, b)[j] <= Ceiling(n, |w|);
    forall g: nat | Drained(w, Ceiling(n, |w|), g)
      ensures Drained(Shifted(w, a, b), Ceiling(n, |w|), g)
    {
      DrainedStays(w, n, a, b, g);
    }
  }

  ghost predicate Moved(init: seq<int>, cur: seq<int>, i: nat)
    requires |init| == |cur|
  {
    i < |init| && cur[i] != init[i]
  }

  ghost predicate Receiver(cur: seq<int>, gids: seq<int>, x: int)
    requires gids != []
  {
    exists g :: 0 <= g < |gids| && gids[g] == x && Settled(Loads(cur, gids), Floor(|cur|, |gids|), g)
  }

  ghost predicate Giver(cur: seq<int>, gids: seq<int>, x: int)
    requires gids != []
  {
    exists g :: 0 <= g < |gids| && gids[g] == x && Drained(Loads(cur, gids), Ceiling(|cur|, |gids|), g)
  }

  /** What holds between the assignment at the start and the one reached so far. */
  ghost predicate Tracked(init: seq<int>, cur: seq<int>, gids: seq<int>)
    requires |init| == |cur| && gids != []
  {
    && (forall i: nat :: Moved(init, cur, i) ==> Receiver(cur, gids, cur[i]))
    && (forall i: nat :: Moved(init, cur, i) && init[i] in gids ==> Giver(cur, gids, init[i]))
    && (forall i: nat, j: nat :: Moved(init, cur, i) && Moved(init, cur, j) ==> cur[i] != init[j])
  }

  ghost predicate RolesKept(cur: seq<int>, next: seq<int>, gids: seq<int>)
    requires gids != []
  {
    && (forall x :: Receiver(cur, gids, x) ==> Receiver(next, gids, x))
    && (forall x :: Giver(cur, gids, x) ==> Giver(next, gids, x))
  }

  lemma DifferenceGrows(init: seq<int>, cur: seq<int>, s: nat, v: int)
    requires |init| == |cur| && s < |cur| && cur[s] == init[s] != v
    ensures Difference(init, cur[s := v]) == Difference(init, cur) + 1
  {
    var before := set i: nat | i < |init| && init[i] != cur[i];
    var after := set i: nat | i < |init| && init[i] != cur[s := v][i];
    assert after == before + {s};
  }

  /** One move of an untouched shard to a group that may receive, from a group that may give. */
  lemma MoveTracked(init: seq<int>, cur: seq<int>, gids: seq<int>, s: nat, v: int)
    requires |init| == |cur| && gids != [] && s < |cur| && cur[s] == init[s] != v
    requires Tracked(init, cur, gids)
    requires RolesKept(cur, cur[s := v], gids)
    requires Receiver(cur[s := v], gids, v) && (cur[s] in gids ==> Giver(cur[s := v], gids, cur[s]))
    requires !Receiver(cur, gids, cur[s])
    requires forall j: nat :: Moved(init, cur, j) ==> v != init[j]
    ensures Tracked(init, cur[s := v], gids)
  {
    hide Receiver, Giver;
    var next := cur[s := v];
    forall i: nat | Moved(init, next, i)
      ensures Receiver(next, gids, next[i])
      ensures init[i] in gids ==> Giver(next, gids, init[i])
    {
      if i != s {
        assert Moved(init, cur, i);
      }
    }
    forall i: nat, j: nat | Moved(init, next, i) && Moved(init, next, j)
      ensures next[i] != init[j]
    {
      assert i != s ==> Moved(init, cur, i);
      assert j != s ==> Moved(init, cur, j);
    }
  }

  /** From load vectors to group identifiers. */
  lemma RolesStay(cur: seq<int>, next: seq<int>, gids: seq<int>)
    requires gids != [] && |next| == |cur|
    requires forall g :: Settled(Loads(cur, gids), Floor(|cur|, |gids|), g) ==>
        Settled(Loads(next, gids), Floor(|cur|, |gids|), g)
    requires forall g :: Drained(Loads(cur, gids), Ceiling(|cur|, |gids|), g) ==>
        Drained(Loads(next, gids), Ceiling(|cur|, |gids|), g)
    ensures RolesKept(cur, next, gids)
  {
    hide Loads, Settled, Drained;
  }

  ghost predicate OnlyStraysMoved(init: seq<int>, cur: seq<int>, gids: seq<int>)
    requires |init| == |cur|
  {
    forall i: nat :: Moved(init, cur, i) ==> init[i] !in gids
  }

  lemma PlaceTracked(init: seq<int>, cur: seq<int>, gids: seq<int>, s: nat)
    requires |init| == |cur| && Ascending(gids) && gids != [] && s < |cur| && cur[s] == init[s] && cur[s] !in gids
    requires Tracked(init, cur, gids) && OnlyStraysMoved(init, cur, gids)
    ensures Tracked(init, PlaceOne(cur, gids, s), gids) && OnlyStraysMoved(init, PlaceOne(cur, gids, s), gids)
    ensures Difference(init, PlaceOne(cur, gids, s)) == Difference(init, cur) + 1
  {
    hide Loads, Tracked, Difference, Settled, Drained, Total;
    var w := Loads(cur, gids);
    var b := Lowest(w);
    var next := PlaceOne(cur, gids, s);
    LoadsTotal(cur, gids);
    LoadsPlaced(cur, gids, s, b);
    PlacedSettles(w, |cur|, b);
    RolesStay(cur, next, gids);
    DifferenceGrows(init, cur, s, gids[b]);
    MoveTracked(init, cur, gids, s, gids[b]);
  }

  lemma ShiftTracked(init: seq<int>, cur: seq<int>, gids: seq<int>)
    requires |init| == |cur| && Ascending(gids) && gids != [] && Assigned(cur, gids) && Uneven(cur, gids)
    requires Tracked(init, cur, gids)
    ensures Tracked(init, ShiftOne(cur, gids), gids)
    ensures Difference(init, ShiftOne(cur, gids)) == Difference(init, cur) + 1
  {
    hide Difference, Settled, Drained, Total;
    var w := Loads(cur, gids);
    var a, b := Highest(w), Lowest(w);
    var s := FirstOf(cur, gids[a]);
    LoadsTotal(cur, gids);
    LoadsShifted(cur, gids, s, a, b);
    ShiftedSettles(w, |cur|, a, b);
    ShiftedDrains(w, |cur|, a, b);
    RolesStay(cur, ShiftOne(cur, gids), gids);
    assert !Receiver(cur, gids, gids[a]) && !Giver(cur, gids, gids[b]);
    assert !Moved(init, cur, s);
    DifferenceGrows(init, cur, s, gids[b]);
    MoveTracked(init, cur, gids, s, gids[b]);
  }

  /** The first loop puts every shard on a group, one move for each shard it had to place. */
  lemma {:induction false} PlaceFromTracked(init: seq<int>, cur: seq<int>, gids: seq<int>, s: nat)
    requires |init| == |cur| && Ascending(gids) && gids != [] && s <= |cur| && cur[s..] == init[s..]
    requires Assigned(cur[..s], gids) && Tracked(init, cur, gids) && OnlyStraysMoved(init, cur, gids)
    ensures var r := PlaceFrom(cur, gids, s);
      && Assigned(r, gids) && Tracked(init, r, gids)
      && Difference(init, r) + MovesNeeded(r, gids) == Difference(init, cur) + MovesNeeded(cur, gids)
    decreases |cur| - s
  {
    hide Tracked, OnlyStraysMoved, Difference, MovesNeeded;
    if s == |cur| {
      assert cur[..s] == cur;
    } else {
      assert cur[s] == cur[s..][0] == init[s..][0] == init[s];
      var next := PlaceOne(cur, gids, s);
      assert next[s + 1..] == cur[s..][1..] == init[s..][1..] == init[s + 1..];
      assert next[..s + 1] == cur[..s] + [next[s]];
      if cur[s] !in gids {
        PlaceTracked(init, cur, gids, s);
        PlaceOneLoads(cur, gids, s);
      }
      PlaceFromTracked(init, next, gids, s + 1);
    }
  }

  /** The second loop evens the loads out, one move for each pass. */
  lemma {:induction false} ShiftAllTracked(init: seq<int>, cur: seq<int>, gids: seq<int>)
    requires |init| == |cur| && Ascending(gids) && gids != [] && Assigned(cur, gids)
    requires Tracked(init, cur, gids)
    ensures var r := ShiftAll(cur, gids);
      && Even(r, gids) && Tracked(init, r, gids)
      && Difference(init, r) == Difference(init, cur) + MovesNeeded(cur, gids)
    decreases MovesNeeded(cur, gids)
  {
    hide Tracked, Difference;
    if Uneven(cur, gids) {
      ShiftOneLoads(cur, gids);
      ShiftTracked(init, cur, gids);
      ShiftAllTracked(init, ShiftOne(cur, gids), gids);
    } else {
      LoadsTotal(cur, gids);
      FreeIffBalanced(Loads(cur, gids), |cur|);
    }
  }

  // ---- the whole of Rebalance

  lemma PlaceFromStart(shards: seq<int>, gids: seq<int>)
    requires Ascending(gids) && gids != []
    ensures var r := PlaceFrom(shards, gids, 0);
      && Assigned(r, gids) && Tracked(shards, r, gids)
      && Difference(shards, r) + MovesNeeded(r, gids) == MovesNeeded(shards, gids)
  {
    hide MovesNeeded;
    assert (set i: nat | i < |shards| && shards[i] != shards[i]) == {};
    PlaceFromTracked(shards, shards, gids, 0);
  }

  /** The assignment Rebalance leaves behind: a function of the old one and of which groups
      there are, whatever order a map hands them out in. */
  ghost function Rebalanced(shards: seq<int>, gids: seq<int>): (r: seq<int>)
    requires Ascending(gids)
    ensures |r| == |shards|
  {
    if gids == [] then seq(|shards|, _ => 0)
    else
      PlaceFromStart(shards, gids);
      ShiftAll(PlaceFrom(shards, gids, 0), gids)
  }

  lemma RebalancedFacts(shards: seq<int>, gids: seq<int>)
    requires Ascending(gids) && gids != []
    ensures var r := Rebalanced(shards, gids);
      && Even(r, gids) && Tracked(shards, r, gids)
      && Difference(shards, r) == MovesNeeded(shards, gids)
  {
    hide MovesNeeded, Tracked, Even, Difference;
    PlaceFromStart(shards, gids);
    ShiftAllTracked(shards, PlaceFrom(shards, gids, 0), gids);
  }

  /** Every shard ends on an existing group and no two groups differ by more than one. */
  lemma RebalanceEvens(shards: seq<int>, gids: seq<int>)
    requires Ascending(gids) && gids != []
    ensures Even(Rebalanced(shards, gids), gids)
  {
    RebalancedFacts(shards, gids);
  }

  /** No group both gives up a shard and takes one, and no shard moves twice to come back. */
  lemma GiversNeverReceive(shards: seq<int>, gids: seq<int>, i: nat, j: nat)
    requires Ascending(gids) && gids != [] && i < |shards| && j < |shards|
    requires Rebalanced(shards, gids)[i] != shards[i] && Rebalanced(shards, gids)[j] != shards[j]
    ensures Rebalanced(shards, gids)[i] != shards[j]
  {
    RebalancedFacts(shards, gids);
    assert Moved(shards, Rebalanced(shards, gids), i) && Moved(shards, Rebalanced(shards, gids), j);
  }

  lemma NoDifference(a: seq<int>, b: seq<int>)
    requires |a| == |b| && Difference(a, b) == 0
    ensures a == b
  {
    var differ := set i: nat | i < |a| && a[i] != b[i];
    forall i: nat | i < |a|
      ensures a[i] == b[i]
    {
      assert i !in differ;
    }
  }

  /** Any even assignment is at least that far away: a single shard moved saves at most one. */
  lemma {:induction false} NoFewerMoves(a: seq<int>, b: seq<int>, gids: seq<int>)
    requires Ascending(gids) && gids != [] && |a| == |b| && Even(b, gids)
    ensures MovesNeeded(a, gids) <= Difference(a, b)
    decreases Difference(a, b)
  {
    var differ := set i: nat | i < |a| && a[i] != b[i];
    if differ == {} {
      NoDifference(a, b);
      LoadsTotal(b, gids);
      FreeIffBalanced(Loads(b, gids), |b|);
    } else {
      var s :| s in differ;
      var c := a[s := b[s]];
      assert (set i: nat | i < |c| && c[i] != b[i]) == differ - {s};
      NoFewerMoves(c, b, gids);
      SavesAtMostOne(a, s, b[s], gids);
    }
  }

  lemma SavesAtMostOne(a: seq<int>, s: nat, v: int, gids: seq<int>)
    requires Ascending(gids) && gids != [] && s < |a| && a[s] != v && v in gids
    ensures MovesNeeded(a, gids) <= MovesNeeded(a[s := v], gids) + 1
  {
    hide Total, Cost, Loads;
    var w := Loads(a, gids);
    LoadsTotal(a, gids);
    LoadsTotal(a[s := v], gids);
    var b :| 0 <= b < |gids| && gids[b] == v;
    if a[s] in gids {
      var g :| 0 <= g < |gids| && gids[g] == a[s];
      LoadsShifted(a, gids, s, g, b);
      ShiftingGainsAtMostOne(w, |a|, g, b);
    } else {
      LoadsPlaced(a, gids, s, b);
      PlacingGainsAtMostOne(w, |a|, b);
    }
  }

  /** Rebalance is move-optimal, from any assignment: it moves exactly as many shards as the
      loads demand, and every even assignment differs from the old one in at least as many. */
  lemma RebalanceOptimal(shards: seq<int>, gids: seq<int>, other: seq<int>)
    requires Ascending(gids) && gids != [] && |other| == |shards| && Even(other, gids)
    ensures Difference(shards, Rebalanced(shards, gids)) == MovesNeeded(shards, gids)
    ensures Difference(shards, Rebalanced(shards, gids)) <= Difference(shards, other)
  {
    RebalancedFacts(shards, gids);
    NoFewerMoves(shards, other, gids);
  }

  /** With every shard assigned the number of moves is the larger of excess and shortfall. */
  lemma MovesWhenAssigned(shards: seq<int>, gids: seq<int>)
    requires Ascending(gids) && gids != [] && Assigned(shards, gids)
    ensures var w := Loads(shards, gids);
      var excess := Excess(w, Ceiling(|shards|, |gids|));
      var shortfall := Shortfall(w, Floor(|shards|, |gids|));
      Difference(shards, Rebalanced(shards, gids)) == if excess < shortfall then shortfall else excess
  {
    RebalancedFacts(shards, gids);
    LoadsTotal(shards, gids);
  }

  /** An even assignment is left alone; so a second Rebalance changes nothing. */
  lemma RebalanceSettles(shards: seq<int>, gids: seq<int>)
    requires Ascending(gids) && gids != []
    ensures Even(shards, gids) <==> Rebalanced(shards, gids) == shards
    ensures Rebalanced(Rebalanced(shards, gids), gids) == Rebalanced(shards, gids)
  {
    RebalancedFacts(shards, gids);
    EvenKept(Rebalanced(shards, gids), gids);
    if Even(shards, gids) {
      EvenKept(shards, gids);
    }
  }

  lemma EvenKept(shards: seq<int>, gids: seq<int>)
    requires Ascending(gids) && gids != [] && Even(shards, gids)
    ensures Rebalanced(shards, gids) == shards
  {
    var r := Rebalanced(shards, gids);
    RebalancedFacts(shards, gids);
    LoadsTotal(shards, gids);
    FreeIffBalanced(Loads(shards, gids), |shards|);
    NoDifference(shards, r);
  }
}
