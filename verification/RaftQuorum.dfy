/** How wide a cluster the vote count supports. The constructor keeps the cluster size in eight
    bits, and both the election and the commit scan ask for more than half of that number. */
module RaftQuorum {
  import opened RaftTypes
  import opened RaftNode

  /** Enough servers to win an election or commit an entry, as the code counts. */
  predicate Enough(members: set<ServerId>, a: set<ServerId>) {
    a <= members && |a| >= Majority(StoredClusterSize(members))
  }

  ghost predicate AlwaysMeet(members: set<ServerId>) {
    forall a, b :: Enough(members, a) && Enough(members, b) ==> a * b != {}
  }

  lemma {:induction false} Choose(from: set<ServerId>, k: nat) returns (a: set<ServerId>)
    requires k <= |from|
    ensures a <= from && |a| == k
  {
    if k == 0 {
      a := {};
    } else {
      var x :| x in from;
      a := Choose(from - {x}, k - 1);
      a := a + {x};
    }
  }

  lemma SharedSize(members: set<ServerId>, a: set<ServerId>, b: set<ServerId>)
    requires a <= members && b <= members
    ensures |a| + |b| <= |members| + |a * b|
  {
    assert |a + b| == |a| + |b| - |a * b|;
    assert members == (a + b) + (members - (a + b));
  }

  /** Any two winning sets share a server exactly when there are at most 255 servers. */
  lemma MajoritiesMeetIff(members: set<ServerId>)
    ensures AlwaysMeet(members) <==> |members| <= 255
  {
    if |members| <= 255 {
      forall a, b | Enough(members, a) && Enough(members, b)
        ensures a * b != {}
      {
        SharedSize(members, a, b);
      }
    } else {
      var k := Majority(StoredClusterSize(members));
      var a := Choose(members, k);
      assert |members - a| == |members| - k by {
        assert members == a + (members - a);
      }
      var b := Choose(members - a, k);
      assert Enough(members, a) && Enough(members, b) && a * b == {};
    }
  }
}
