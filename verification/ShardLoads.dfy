/** How many shards each group serves, as a vector, and what it costs to even it out. */
module ShardLoads {

  function Total(w: seq<nat>): nat {
    if w == [] then 0 else w[0] + Total(w[1..])
  }

  function Over(x: nat, hi: nat): nat { if x > hi then x - hi else 0 }

  function Under(x: nat, lo: nat): nat { if x < lo then lo - x else 0 }

  function OverEach(w: seq<nat>, hi: nat): seq<nat> { seq(|w|, i requires 0 <= i < |w| => Over(w[i], hi)) }

  function UnderEach(w: seq<nat>, lo: nat): seq<nat> { seq(|w|, i requires 0 <= i < |w| => Under(w[i], lo)) }

  /** Shards above the ceiling, summed over the groups. */
  function Excess(w: seq<nat>, hi: nat): nat { Total(OverEach(w, hi)) }

  /** Shards missing below the floor, summed over the groups. */
  function Shortfall(w: seq<nat>, lo: nat): nat { Total(UnderEach(w, lo)) }

  function Floor(n: nat, k: nat): nat
    requires k > 0
  {
    n / k
  }

  function Ceiling(n: nat, k: nat): nat
    requires k > 0
  {
    if n % k == 0 then n / k else n / k + 1
  }

  lemma FloorCeiling(n: nat, k: nat)
    requires k > 0
    ensures k * Floor(n, k) <= n <= k * Ceiling(n, k)
    ensures Floor(n, k) <= Ceiling(n, k) <= Floor(n, k) + 1
    ensures Ceiling(n, k) == Floor(n, k) ==> n == k * Floor(n, k)
    ensures Ceiling(n, k) == Floor(n, k) + 1 ==> n > k * Floor(n, k)
  {
    assert n == k * (n / k) + n % k;
    assert k * (n / k + 1) == k * (n / k) + k;
  }

  // ---- sums

  lemma {:induction false} TotalUpdate(w: seq<nat>, i: nat, v: nat)
    requires i < |w|
    ensures Total(w[i := v]) == Total(w) - w[i] + v
    decreases |w|
  {
    var u := w[i := v];
    if i == 0 {
      assert u[1..] == w[1..];
    } else {
      assert u[1..] == w[1..][i - 1 := v];
      TotalUpdate(w[1..], i - 1, v);
    }
  }

  lemma ExcessUpdate(w: seq<nat>, i: nat, v: nat, hi: nat)
    requires i < |w|
    ensures Excess(w[i := v], hi) == Excess(w, hi) - Over(w[i], hi) + Over(v, hi)
  {
    assert OverEach(w[i := v], hi) == OverEach(w, hi)[i := Over(v, hi)];
    TotalUpdate(OverEach(w, hi), i, Over(v, hi));
  }

  lemma ShortfallUpdate(w: seq<nat>, i: nat, v: nat, lo: nat)
    requires i < |w|
    ensures Shortfall(w[i := v], lo) == Shortfall(w, lo) - Under(w[i], lo) + Under(v, lo)
  {
    assert UnderEach(w[i := v], lo) == UnderEach(w, lo)[i := Under(v, lo)];
    TotalUpdate(UnderEach(w, lo), i, Under(v, lo));
  }

  lemma {:induction false} TotalAtLeast(w: seq<nat>, c: nat)
    requires forall i :: 0 <= i < |w| ==> w[i] >= c
    ensures Total(w) >= |w| * c
  {
    if w != [] {
      TotalAtLeast(w[1..], c);
      assert |w| * c == c + (|w| - 1) * c;
    }
  }

  lemma {:induction false} TotalAtMost(w: seq<nat>, c: nat)
    requires forall i :: 0 <= i < |w| ==> w[i] <= c
    ensures Total(w) <= |w| * c
  {
    if w != [] {
      TotalAtMost(w[1..], c);
      assert |w| * c == c + (|w| - 1) * c;
    }
  }

  lemma NoExcess(w: seq<nat>, hi: nat)
    requires forall i :: 0 <= i < |w| ==> w[i] <= hi
    ensures Excess(w, hi) == 0
  {
    TotalAtMost(OverEach(w, hi), 0);
  }

  lemma NoShortfall(w: seq<nat>, lo: nat)
    requires forall i :: 0 <= i < |w| ==> w[i] >= lo
    ensures Shortfall(w, lo) == 0
  {
    TotalAtMost(UnderEach(w, lo), 0);
  }

  // ---- the most and the least loaded group

  ghost predicate FirstLowest(w: seq<nat>, b: nat) {
    && b < |w|
    && (forall i :: 0 <= i < |w| ==> w[b] <= w[i])
    && (forall i :: 0 <= i < b ==> w[b] < w[i])
  }

  ghost predicate FirstHighest(w: seq<nat>, a: nat) {
    && a < |w|
    && (forall i :: 0 <= i < |w| ==> w[i] <= w[a])
    && (forall i :: 0 <= i < a ==> w[i] < w[a])
  }

  function Lowest(w: seq<nat>): (b: nat)
    requires w != []
    ensures FirstLowest(w, b)
  {
    if |w| == 1 then 0
    else
      var front := w[..|w| - 1];
      var b := Lowest(front);
      assert forall i :: 0 <= i < |front| ==> w[i] == front[i];
      if w[|w| - 1] < w[b] then |w| - 1 else b
  }

  function Highest(w: seq<nat>): (a: nat)
    requires w != []
    ensures FirstHighest(w, a)
  {
    if |w| == 1 then 0
    else
      var front := w[..|w| - 1];
      var a := Highest(front);
      assert forall i :: 0 <= i < |front| ==> w[i] == front[i];
      if w[|w| - 1] > w[a] then |w| - 1 else a
  }

  /** No two groups differ by more than one shard. */
  ghost predicate Balanced(w: seq<nat>) {
    forall i, j :: 0 <= i < |w| && 0 <= j < |w| ==> w[i] <= w[j] + 1
  }

  // ---- the cost of balancing

  /** Of `n` shards, those not served at all must go somewhere, those above the ceiling must
      leave, and those missing below the floor must arrive. */
  function Cost(w: seq<nat>, n: nat): nat
    requires w != [] && Total(w) <= n
  {
    var out := n - Total(w) + Excess(w, Ceiling(n, |w|));
    var in_ := Shortfall(w, Floor(n, |w|));
    if out < in_ then in_ else out
  }

  function Placed(w: seq<nat>, b: nat): seq<nat>
    requires b < |w|
  {
    w[b := w[b] + 1]
  }

  function Shifted(w: seq<nat>, a: nat, b: nat): seq<nat>
    requires a < |w| && b < |w| && a != b && w[a] > 0
  {
    w[a := w[a] - 1][b := w[b] + 1]
  }

  lemma PlacedSums(w: seq<nat>, b: nat, lo: nat, hi: nat)
    requires b < |w|
    ensures Total(Placed(w, b)) == Total(w) + 1
    ensures Excess(Placed(w, b), hi) == Excess(w, hi) + if w[b] >= hi then 1 else 0
    ensures Shortfall(Placed(w, b), lo) == Shortfall(w, lo) - if w[b] < lo then 1 else 0
  {
    hide Total, Excess, Shortfall;
    TotalUpdate(w, b, w[b] + 1);
    ExcessUpdate(w, b, w[b] + 1, hi);
    ShortfallUpdate(w, b, w[b] + 1, lo);
  }

  lemma ShiftedSums(w: seq<nat>, a: nat, b: nat, lo: nat, hi: nat)
    requires a < |w| && b < |w| && a != b && w[a] > 0
    ensures Total(Shifted(w, a, b)) == Total(w)
    ensures Excess(Shifted(w, a, b), hi) == Excess(w, hi) - (if w[a] > hi then 1 else 0) + (if w[b] >= hi then 1 else 0)
    ensures Shortfall(Shifted(w, a, b), lo)
      == Shortfall(w, lo) + (if w[a] <= lo then 1 else 0) - (if w[b] < lo then 1 else 0)
  {
    hide Total, Excess, Shortfall;
    var u := w[a := w[a] - 1];
    TotalUpdate(w, a, w[a] - 1);
    ExcessUpdate(w, a, w[a] - 1, hi);
    ShortfallUpdate(w, a, w[a] - 1, lo);
    PlacedSums(u, b, lo, hi);
  }

  /** While a shard is unserved, the least loaded group is below the ceiling. */
  lemma LowestBelowCeiling(w: seq<nat>, n: nat, b: nat)
    requires w != [] && Total(w) < n && FirstLowest(w, b)
    ensures w[b] < Ceiling(n, |w|)
  {
    FloorCeiling(n, |w|);
    var hi := Ceiling(n, |w|);
    if w[b] >= hi {
      TotalAtLeast(w, hi);
    }
  }

  /** When two groups differ by two or more, the heavier is above the floor and the lighter
      below the ceiling. */
  lemma ExtremesApart(w: seq<nat>, n: nat, a: nat, b: nat)
    requires w != [] && Total(w) == n && FirstHighest(w, a) && FirstLowest(w, b)
    requires w[a] >= w[b] + 2
    ensures w[a] > Floor(n, |w|) && w[b] < Ceiling(n, |w|)
  {
    FloorCeiling(n, |w|);
    var lo, hi := Floor(n, |w|), Ceiling(n, |w|);
    if w[b] >= hi {
      TotalUpdate(w, a, hi);
      TotalAtLeast(w[a := hi], hi);
    }
    if w[a] <= lo {
      TotalUpdate(w, b, lo);
      TotalAtMost(w[b := lo], lo);
    }
  }

  /** Giving an unserved shard to the least loaded group brings the cost down by exactly one. */
  lemma PlacingPays(w: seq<nat>, n: nat, b: nat)
    requires w != [] && Total(w) < n && FirstLowest(w, b)
    ensures Total(Placed(w, b)) == Total(w) + 1
    ensures Cost(Placed(w, b), n) == Cost(w, n) - 1
  {
    var lo, hi := Floor(n, |w|), Ceiling(n, |w|);
    LowestBelowCeiling(w, n, b);
    PlacedSums(w, b, lo, hi);
    if w[b] >= lo {
      NoShortfall(w, lo);
    }
  }

  /** So does moving a shard from the most to the least loaded group when they differ by two. */
  lemma ShiftingPays(w: seq<nat>, n: nat, a: nat, b: nat)
    requires w != [] && Total(w) == n && FirstHighest(w, a) && FirstLowest(w, b)
    requires w[a] >= w[b] + 2
    ensures Total(Shifted(w, a, b)) == n
    ensures Cost(Shifted(w, a, b), n) == Cost(w, n) - 1
  {
    var lo, hi := Floor(n, |w|), Ceiling(n, |w|);
    FloorCeiling(n, |w|);
    ExtremesApart(w, n, a, b);
    ShiftedSums(w, a, b, lo, hi);
    if w[b] >= lo {
      NoShortfall(w, lo);
    }
    if w[a] <= hi {
      NoExcess(w, hi);
    }
  }

  /** No single change of one shard does better, whichever groups it touches. */
  lemma PlacingGainsAtMostOne(w: seq<nat>, n: nat, b: nat)
    requires b < |w| && Total(w) < n
    ensures Total(Placed(w, b)) == Total(w) + 1
    ensures Cost(w, n) <= Cost(Placed(w, b), n) + 1
  {
    PlacedSums(w, b, Floor(n, |w|), Ceiling(n, |w|));
  }

  lemma ShiftingGainsAtMostOne(w: seq<nat>, n: nat, a: nat, b: nat)
    requires a < |w| && b < |w| && a != b && w[a] > 0 && Total(w) <= n
    ensures Total(Shifted(w, a, b)) == Total(w)
    ensures Cost(w, n) <= Cost(Shifted(w, a, b), n) + 1
  {
    ShiftedSums(w, a, b, Floor(n, |w|), Ceiling(n, |w|));
  }

  /** Nothing is left to do exactly when every shard is served and the loads are even. */
  lemma FreeIffBalanced(w: seq<nat>, n: nat)
    requires w != [] && Total(w) <= n
    ensures Cost(w, n) == 0 <==> Total(w) == n && Balanced(w)
  {
    if Total(w) == n {
      var a, b := Highest(w), Lowest(w);
      if w[a] >= w[b] + 2 {
        ShiftingPays(w, n, a, b);
      } else {
        EvenBounds(w, n, a, b);
        NoExcess(w, Ceiling(n, |w|));
        NoShortfall(w, Floor(n, |w|));
      }
    }
  }

  lemma EvenBounds(w: seq<nat>, n: nat, a: nat, b: nat)
    requires w != [] && Total(w) == n && FirstHighest(w, a) && FirstLowest(w, b)
    requires w[a] < w[b] + 2
    ensures w[a] <= Ceiling(n, |w|) && w[b] >= Floor(n, |w|)
  {
    FloorCeiling(n, |w|);
    var lo, hi := Floor(n, |w|), Ceiling(n, |w|);
    if w[a] > hi {
      TotalUpdate(w, a, hi);
      TotalAtLeast(w[a := hi], hi);
    }
    if w[b] < lo {
      TotalUpdate(w, b, lo);
      TotalAtMost(w[b := lo], lo);
    }
  }
}
