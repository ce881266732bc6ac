/** The shard configuration as the code updates it: a fixed array of shards and a map of groups
    (6.5840/src/shardkv1/shardcfg/shardcfg.go). */
module ShardConfig {
  import opened ShardLoads
  import opened ShardRebalance

  const NSHARDS := 12

  // ---- the ascending list of group identifiers

  lemma EmptyOrNot(s: set<int>)
    ensures s == {} || exists x :: x in s
  {
    if forall x :: x !in s {
      assert s == {};
    }
  }

  lemma {:induction false} AscendingExists(groups: set<int>) returns (gids: seq<int>)
    ensures Ascending(gids) && forall x :: x in gids <==> x in groups
    decreases |groups|
  {
    if groups == {} {
      gids := [];
    } else {
      var top := Largest(groups);
      var rest := AscendingExists(groups - {top});
      gids := rest + [top];
      forall i, j | 0 <= i < j < |gids| ensures gids[i] < gids[j] {
        assert rest[i] in rest;
      }
    }
  }

  lemma {:induction false} Largest(groups: set<int>) returns (top: int)
    requires groups != {}
    ensures top in groups && forall x :: x in groups ==> x <= top
    decreases |groups|
  {
    EmptyOrNot(groups);
    var x :| x in groups;
    top := x;
    var rest := groups - {x};
    assert groups == rest + {x};
    if rest != {} {
      var y := Largest(rest);
      if y > x {
        top := y;
      }
    }
  }

  /** There is only one such list, so it does not depend on the order a map is read in. */
  lemma {:induction false} AscendingUnique(a: seq<int>, b: seq<int>)
    requires Ascending(a) && Ascending(b) && forall x :: x in a <==> x in b
    ensures a == b
    decreases |a|
  {
    assert b == [] || b[0] in b;
    if a != [] {
      assert a[|a| - 1] in a;
      var m, n := |a| - 1, |b| - 1;
      assert b[n] in b;
      assert a[m] == b[n];
      forall x ensures x in a[..m] <==> x in b[..n] {
        if x in a[..m] { assert x in b && x < b[n]; }
        if x in b[..n] { assert x in a && x < a[m]; }
      }
      AscendingUnique(a[..m], b[..n]);
      assert a == a[..m] + [a[m]] && b == b[..n] + [b[n]];
    }
  }

  ghost function Gids(groups: set<int>): (gids: seq<int>)
    ensures Ascending(gids) && forall x :: x in gids <==> x in groups
  {
    assert exists s :: Ascending(s) && forall x :: x in s <==> x in groups by {
      var s := AscendingExists(groups);
    }
    var gids :| Ascending(gids) && forall x :: x in gids <==> x in groups;
    gids
  }

  /** Reads the keys in any order and sorts them. */
  method SortGids(groups: set<int>) returns (gids: seq<int>)
    ensures gids == Gids(groups)
  {
    gids := [];
    var rest := groups;
    while rest != {}
      invariant rest <= groups && Ascending(gids)
      invariant forall x :: x in gids <==> x in groups - rest
      decreases |rest|
    {
      EmptyOrNot(rest);
      var g :| g in rest;
      var bigger := Insert(gids, g);
      gids, rest := bigger, rest - {g};
    }
    AscendingUnique(gids, Gids(groups));
  }

  method Insert(gids: seq<int>, g: int) returns (bigger: seq<int>)
    requires Ascending(gids) && g !in gids
    ensures Ascending(bigger) && forall x :: x in bigger <==> x in gids || x == g
  {
    var p := 0;
    while p < |gids| && gids[p] < g
      invariant 0 <= p <= |gids|
      invariant forall i :: 0 <= i < p ==> gids[i] < g
    {
      p := p + 1;
    }
    assert p < |gids| ==> gids[p] in gids && gids[p] > g;
    bigger := gids[..p] + [g] + gids[p..];
    InsertAscending(gids, p, g);
    assert gids == gids[..p] + gids[p..];
  }

  lemma InsertAscending(gids: seq<int>, p: nat, g: int)
    requires Ascending(gids) && p <= |gids|
    requires (p > 0 ==> gids[p - 1] < g) && (p < |gids| ==> g < gids[p])
    ensures Ascending(gids[..p] + [g] + gids[p..])
  {
    var bigger := gids[..p] + [g] + gids[p..];
    assert forall i :: 0 <= i < p ==> bigger[i] == gids[i] && gids[i] <= gids[p - 1];
    assert forall i :: p < i < |bigger| ==> bigger[i] == gids[i - 1] && gids[p] <= gids[i - 1];
  }

  // ---- counting

  method CountShards(shards: seq<int>) returns (counts: map<int, nat>)
    ensures forall g :: (if g in counts then counts[g] else 0) == multiset(shards)[g]
  {
    counts := map[];
    for i := 0 to |shards|
      invariant forall g :: (if g in counts then counts[g] else 0) == multiset(shards[..i])[g]
    {
      var g := shards[i];
      assert shards[..i + 1] == shards[..i] + [g];
      counts := counts[g := (if g in counts then counts[g] else 0) + 1];
    }
    assert shards[..|shards|] == shards;
  }

  /** The most and the least loaded group, with their loads; ties go to the smallest identifier. */
  method Analyze(shards: seq<int>, groups: set<int>) returns (mg: int, mn: int, lg: int, ln: int)
    requires |shards| <= 256
    ensures groups == {} ==> mg == -1 && mn == -1 && lg == -1 && ln == 257
    ensures groups != {} ==> Gids(groups) != [] && Extremes(shards, Gids(groups), mg, mn, lg, ln)
  {
    var gids := SortGids(groups);
    var counts := CountShards(shards);
    ghost var w := Loads(shards, gids);
    mn, mg, ln, lg := -1, -1, 257, -1;
    for i := 0 to |gids|
      invariant i == 0 ==> mg == -1 && mn == -1 && lg == -1 && ln == 257
      invariant i > 0 ==> Extremes(shards, gids[..i], mg, mn, lg, ln)
    {
      var g := gids[i];
      var c := if g in counts then counts[g] else 0;
      LoadBound(shards, gids, i);
      ExtremesNext(shards, gids, i, c, mg, mn, lg, ln);
      if c < ln {
        ln, lg := c, g;
      }
      if c > mn {
        mn, mg := c, g;
      }
    }
    assert gids[..|gids|] == gids;
    GidsEmptyIff(groups);
  }

  ghost predicate Extremes(shards: seq<int>, gids: seq<int>, mg: int, mn: int, lg: int, ln: int)
    requires gids != []
  {
    var w := Loads(shards, gids);
    mg == gids[Highest(w)] && mn == w[Highest(w)] && lg == gids[Lowest(w)] && ln == w[Lowest(w)]
  }

  lemma ExtremesNext(shards: seq<int>, gids: seq<int>, i: nat, c: nat, mg: int, mn: int, lg: int, ln: int)
    requires i < |gids| && c == Loads(shards, gids)[i] <= 256
    requires i == 0 ==> mn == -1 && ln == 257
    requires i > 0 ==> Extremes(shards, gids[..i], mg, mn, lg, ln)
    ensures Extremes(shards, gids[..i + 1], if c > mn then gids[i] else mg, if c > mn then c else mn,
                     if c < ln then gids[i] else lg, if c < ln then c else ln)
  {
    var w := Loads(shards, gids[..i + 1]);
    assert w[..i] == Loads(shards, gids[..i]);
    assert w[i] == c;
  }

  lemma GidsEmptyIff(groups: set<int>)
    ensures Gids(groups) == [] <==> groups == {}
  {
    EmptyOrNot(groups);
    var gids := Gids(groups);
    assert gids == [] || gids[0] in gids;
  }

  lemma LoadBound(shards: seq<int>, gids: seq<int>, i: nat)
    requires i < |gids|
    ensures Loads(shards, gids)[i] <= |shards|
  {
    assert |multiset(shards)| == |shards|;
    var m := multiset(shards);
    assert multiset{}[gids[i] := m[gids[i]]] <= m;
  }

  // ---- the configuration

  ghost predicate Share(a: seq<string>, b: seq<string>) {
    exists x :: x in a && x in b
  }

  /** One more group can be added: it is new and so are its servers. */
  ghost predicate Admissible(groups: map<int, seq<string>>, gid: int, servers: seq<string>) {
    gid !in groups && forall g :: g in groups ==> !Share(groups[g], servers)
  }

  /** The groups in `some` are new, and no server of theirs is in another group. */
  ghost predicate Fresh(groups: map<int, seq<string>>, joining: map<int, seq<string>>, some: set<int>)
    requires some <= joining.Keys
  {
    && some !! groups.Keys
    && (forall g, h :: g in groups && h in some ==> !Share(groups[g], joining[h]))
    && (forall g, h :: g in some && h in some && g != h ==> !Share(joining[g], joining[h]))
  }

  ghost predicate CanJoin(groups: map<int, seq<string>>, joining: map<int, seq<string>>) {
    |joining.Keys| > 0 && Fresh(groups, joining, joining.Keys)
  }

  function Restrict(joining: map<int, seq<string>>, some: set<int>): map<int, seq<string>> {
    map g | g in joining && g in some :: joining[g]
  }

  lemma FreshStart(groups: map<int, seq<string>>, joining: map<int, seq<string>>)
    ensures Fresh(groups, joining, {})
    ensures groups + Restrict(joining, {}) == groups
    ensures Restrict(joining, joining.Keys) == joining
  {
  }

  /** Adding one more group to those already let in. */
  lemma FreshNext(groups: map<int, seq<string>>, joining: map<int, seq<string>>, some: set<int>, gid: int)
    requires some <= joining.Keys && gid in joining && gid !in some && Fresh(groups, joining, some)
    ensures var now := groups + Restrict(joining, some);
      Fresh(groups, joining, some + {gid}) <==> Admissible(now, gid, joining[gid])
  {
    var now := groups + Restrict(joining, some);
    assert forall g :: g in groups ==> g in now && now[g] == groups[g];
    assert forall g :: g in some ==> g in now && now[g] == joining[g];
    assert forall g :: g in now ==> g in groups || g in some;
  }

  lemma JoinStep(groups: map<int, seq<string>>, joining: map<int, seq<string>>, some: set<int>, gid: int)
    requires some <= joining.Keys && gid in joining && gid !in some && Fresh(groups, joining, some)
    ensures var now := groups + Restrict(joining, some);
      && (Fresh(groups, joining, some + {gid}) <==> Admissible(now, gid, joining[gid]))
      && now[gid := joining[gid]] == groups + Restrict(joining, some + {gid})
    ensures Fresh(groups, joining, joining.Keys) ==> Fresh(groups, joining, some + {gid})
  {
    FreshNext(groups, joining, some, gid);
  }

  /** Each group named once, and all of them there. */
  ghost predicate CanLeave(groups: map<int, seq<string>>, leaving: seq<int>) {
    && leaving != []
    && (forall i :: 0 <= i < |leaving| ==> leaving[i] in groups)
    && (forall i, j :: 0 <= i < j < |leaving| ==> leaving[i] != leaving[j])
  }

  /** What a call to Join or Leave can come to; Fatal ends the process. */
  datatype Outcome = Done | Refused | Fatal

  /** Where a Join that does not succeed stops: some groups are in, and the next one is a group
      already there, which is refused, or has a server of another group, which is fatal. */
  ghost predicate JoinStops(groups: map<int, seq<string>>, joining: map<int, seq<string>>, now: map<int, seq<string>>,
                            r: Outcome, some: set<int>, gid: int)
  {
    && some <= joining.Keys && gid in joining && gid !in some && Fresh(groups, joining, some)
    && now == groups + Restrict(joining, some)
    && r == (if gid in now then Refused else Fatal) && !Admissible(now, gid, joining[gid])
  }

  /** Where a Leave stops: the first `k` groups, all there and each named once, are out. */
  ghost predicate LeaveStops(groups: map<int, seq<string>>, leaving: seq<int>, now: map<int, seq<string>>, r: Outcome,
                             k: nat) {
    && k <= |leaving| && (k > 0 ==> CanLeave(groups, leaving[..k]))
    && now == groups - (set g | g in leaving[..k])
    && match r
       case Done => k == |leaving| > 0
       case Refused => k < |leaving| && leaving[k] !in now
       case Fatal => leaving == []
  }

  class ShardConfig {
    var num: int
    const shards: array<int>
    var groups: map<int, seq<string>>

    constructor ()
      ensures num == 0 && groups == map[] && fresh(shards)
      ensures shards.Length == NSHARDS && forall i :: 0 <= i < NSHARDS ==> shards[i] == 0
    {
      num, groups := 0, map[];
      shards := new int[NSHARDS](_ => 0);
    }

    method Least() returns (lg: int)
      requires shards.Length == NSHARDS && groups != map[]
      ensures var gids := Gids(groups.Keys);
              gids != [] && lg == gids[Lowest(Loads(shards[..], gids))]
    {
      var mg, mn, ln;
      mg, mn, lg, ln := Analyze(shards[..], groups.Keys);
    }

    /** The whole new assignment is the one RebalanceEvens, RebalanceOptimal, GiversNeverReceive
        and RebalanceSettles are about. */
    method Rebalance()
      requires shards.Length == NSHARDS
      modifies shards
      ensures shards[..] == Rebalanced(old(shards[..]), Gids(groups.Keys))
      ensures groups == map[] ==> forall i :: 0 <= i < shards.Length ==> shards[i] == 0
      ensures groups != map[] ==> Even(shards[..], Gids(groups.Keys))
    {
      GidsEmptyIff(groups.Keys);
      if |groups| < 1 {
        for s := 0 to shards.Length
          invariant forall i :: 0 <= i < s ==> shards[i] == 0
        {
          shards[s] := 0;
        }
        return;
      }
      RebalanceEvens(shards[..], Gids(groups.Keys));
      PlaceFromStart(shards[..], Gids(groups.Keys));
      PlaceStrays();
      Shift();
    }

    method PlaceStrays()
      requires shards.Length == NSHARDS && Gids(groups.Keys) != []
      modifies shards
      ensures shards[..] == PlaceFrom(old(shards[..]), Gids(groups.Keys), 0)
    {
      hide Gids, Loads;
      ghost var gids := Gids(groups.Keys);
      var copy := shards[..];
      for s := 0 to shards.Length
        invariant forall i :: s <= i < |copy| ==> shards[i] == copy[i]
        invariant PlaceFrom(shards[..], gids, s) == PlaceFrom(copy, gids, 0)
      {
        PlaceShard(s, copy[s]);
      }
    }

    method PlaceShard(s: nat, g: int)
      requires shards.Length == NSHARDS && Gids(groups.Keys) != []
      requires s < shards.Length && g == shards[s]
      modifies shards
      ensures shards[..] == PlaceOne(old(shards[..]), Gids(groups.Keys), s)
      ensures forall i :: s < i < shards.Length ==> shards[i] == old(shards[i])
    {
      GidsEmptyIff(groups.Keys);
      if g !in groups {
        var lg := Least();
        shards[s] := lg;
      }
    }

    method Shift()
      requires shards.Length == NSHARDS && Gids(groups.Keys) != [] && Assigned(shards[..], Gids(groups.Keys))
      modifies shards
      ensures shards[..] == ShiftAll(old(shards[..]), Gids(groups.Keys))
    {
      ghost var gids := Gids(groups.Keys);
      while true
        invariant Assigned(shards[..], gids)
        invariant ShiftAll(shards[..], gids) == ShiftAll(old(shards[..]), gids)
        decreases MovesNeeded(shards[..], gids)
      {
        var mg, mn, lg, ln := Analyze(shards[..], groups.Keys);
        if mn < ln + 2 {
          break;
        }
        ShiftOneLoads(shards[..], gids);
        ghost var before := shards[..];
        MoveFirst(mg, lg);
        assert shards[..] == ShiftOne(before, gids);
      }
    }

    method MoveFirst(from: int, to: int)
      requires from in shards[..]
      modifies shards
      ensures shards[..] == old(shards[..])[FirstOf(old(shards[..]), from) := to]
    {
      var copy := shards[..];
      for s := 0 to |copy|
        invariant shards[..] == copy
        invariant forall i :: 0 <= i < s ==> copy[i] != from
      {
        if copy[s] == from {
          shards[s] := to;
          break;
        }
      }
    }

    /** Whether a server of the new group is in one of the present groups already. */
    method Clashes(servers: seq<string>) returns (clash: bool)
      ensures clash <==> exists g :: g in groups && Share(groups[g], servers)
    {
      var rest := groups.Keys;
      while rest != {}
        invariant rest <= groups.Keys
        invariant forall g :: g in groups && g !in rest ==> !Share(groups[g], servers)
        decreases |rest|
      {
        EmptyOrNot(rest);
        var g :| g in rest;
        var shared := SharesServer(groups[g], servers);
        if shared {
          return true;
        }
        rest := rest - {g};
      }
      return false;
    }

    method AddGroup(gid: int, servers: seq<string>) returns (r: Outcome)
      modifies this`groups
      ensures r == Done <==> Admissible(old(groups), gid, servers)
      ensures r == Refused <==> gid in old(groups)
      ensures groups == if r == Done then old(groups)[gid := servers] else old(groups)
    {
      if gid in groups {
        return Refused;
      }
      var clash := Clashes(servers);
      if clash {
        return Fatal;
      }
      groups := groups[gid := servers];
      return Done;
    }

    /** The groups are taken in whatever order the map yields them; whether all can join does
        not depend on it. */
    method AddGroups(joining: map<int, seq<string>>) returns (r: Outcome)
      modifies this`groups
      ensures r == Done <==> Fresh(old(groups), joining, joining.Keys)
      ensures r == Done ==> groups == old(groups) + joining
      ensures r != Done ==> exists some, gid :: JoinStops(old(groups), joining, groups, r, some, gid)
    {
      hide Fresh, Restrict, Admissible;
      ghost var before := groups;
      ghost var added: set<int> := {};
      var rest := joining.Keys;
      r := Done;
      FreshStart(before, joining);
      while rest != {}
        invariant added == joining.Keys - rest && rest <= joining.Keys
        invariant r == Done && Fresh(before, joining, added) && groups == before + Restrict(joining, added)
        decreases |rest|
      {
        EmptyOrNot(rest);
        var gid :| gid in rest;
        JoinStep(before, joining, added, gid);
        r := AddGroup(gid, joining[gid]);
        if r != Done {
          assert JoinStops(before, joining, groups, r, added, gid);
          return;
        }
        rest, added := rest - {gid}, added + {gid};
      }
      assert added == joining.Keys;
    }

    method Join(joining: map<int, seq<string>>) returns (r: Outcome)
      modifies this
      ensures r == Done <==> CanJoin(old(groups), joining)
      ensures r == Done ==> groups == old(groups) + joining && num == old(num) + 1
      ensures r != Done ==>
        && num == old(num)
        && (|| (joining == map[] && r == Fatal && groups == old(groups))
            || exists some, gid :: JoinStops(old(groups), joining, groups, r, some, gid))
    {
      r := AddGroups(joining);
      if r != Done {
        return;
      }
      if |joining| == 0 {
        return Fatal;
      }
      num := num + 1;
    }

    method Leave(leaving: seq<int>) returns (r: Outcome)
      modifies this
      ensures r == Done <==> CanLeave(old(groups), leaving)
      ensures r == Done ==> groups == old(groups) - (set g | g in leaving)
      ensures num == if r == Done then old(num) + 1 else old(num)
      ensures exists k :: LeaveStops(old(groups), leaving, groups, r, k)
    {
      var changed := false;
      for i := 0 to |leaving|
        invariant num == old(num) && changed == (i > 0)
        invariant groups == old(groups) - (set g | g in leaving[..i])
        invariant i > 0 ==> CanLeave(old(groups), leaving[..i])
      {
        if leaving[i] !in groups {
          assert LeaveStops(old(groups), leaving, groups, Refused, i);
          return Refused;
        }
        assert leaving[..i + 1] == leaving[..i] + [leaving[i]];
        groups := groups - {leaving[i]};
        changed := true;
      }
      assert leaving[..|leaving|] == leaving;
      assert LeaveStops(old(groups), leaving, groups, if changed then Done else Fatal, |leaving|);
      if !changed {
        return Fatal;
      }
      num := num + 1;
      return Done;
    }

    /** Joining and rebalancing together: the new groups are served evenly. */
    method JoinBalance(joining: map<int, seq<string>>) returns (r: Outcome)
      requires shards.Length == NSHARDS
      modifies this, shards
      ensures r == Done <==> CanJoin(old(groups), joining)
      ensures r == Done ==>
        && groups == old(groups) + joining && num == old(num) + 1
        && shards[..] == Rebalanced(old(shards[..]), Gids(groups.Keys))
        && Even(shards[..], Gids(groups.Keys))
      ensures r != Done ==>
        && num == old(num) && shards[..] == old(shards[..])
        && (|| (joining == map[] && r == Fatal && groups == old(groups))
            || exists some, gid :: JoinStops(old(groups), joining, groups, r, some, gid))
    {
      r := Join(joining);
      if r == Done {
        Rebalance();
        assert groups.Keys != {} by {
          EmptyOrNot(joining.Keys);
          var g :| g in joining.Keys;
          assert g in groups.Keys;
        }
      }
    }

    /** Leaving and rebalancing together: no shard stays on a group that left. */
    method LeaveBalance(leaving: seq<int>) returns (r: Outcome)
      requires shards.Length == NSHARDS
      modifies this, shards
      ensures r == Done <==> CanLeave(old(groups), leaving)
      ensures r == Done ==>
        && groups == old(groups) - (set g | g in leaving) && num == old(num) + 1
        && shards[..] == Rebalanced(old(shards[..]), Gids(groups.Keys))
        && (groups != map[] ==> Even(shards[..], Gids(groups.Keys)))
        && (groups == map[] ==> forall i :: 0 <= i < shards.Length ==> shards[i] == 0)
      ensures r != Done ==> num == old(num) && shards[..] == old(shards[..])
      ensures exists k :: LeaveStops(old(groups), leaving, groups, r, k)
    {
      r := Leave(leaving);
      if r == Done {
        Rebalance();
      }
    }
  }

  method SharesServer(a: seq<string>, b: seq<string>) returns (shared: bool)
    ensures shared <==> Share(a, b)
  {
    for i := 0 to |a|
      invariant forall x :: x in a[..i] ==> x !in b
    {
      for j := 0 to |b|
        invariant a[i] !in b[..j]
      {
        if a[i] == b[j] {
          assert a[i] in a && a[i] in b;
          return true;
        }
      }
      assert b[..|b|] == b;
    }
    assert a[..|a|] == a;
    return false;
  }
}
