/** The lock is never lost: from every reachable state, any client outside acquire and release can
    still come to hold it. */
module LockProgress {
  import opened Options
  import opened KvStore
  import opened Lock

  // ---- whoever wrote the key can still finish

  /** The key carries this client's token: it holds the lock, or its acquire has written the key
      without being told. */
  predicate Owns(w: World, k: Client) {
    && w.key.Some?
    && (|| (Holds(k) && k.lockValue.data == w.key.value.data)
        || (Pending(k) && w.key.value == Value(k.place.token, 1)))
  }

  ghost predicate Owned(w: World) {
    w.key.Some? ==> exists c :: c in w.clients && Owns(w, w.clients[c])
  }

  /** The key changes only at the hands of its owner. */
  lemma OwnerStep(w: World, s: Step, c: nat)
    requires Inv(w) && Enabled(w, s) && c in w.clients && Owns(w, w.clients[c])
    ensures c in Do(w, s).clients && (Do(w, s).key == None || Owns(Do(w, s), Do(w, s).clients[c]))
  {
    assert ClientOk(w, w.clients[c]) && ClientOk(w, w.clients[s.c]);
    if s.c == c {
      assert s.Read? ==> Do(w, s) == DoRead(w, c);
    } else {
      assert Tokens(w.clients[c]) !! Tokens(w.clients[s.c]);
      assert w.key.value.data in Tokens(w.clients[c]);
    }
  }

  lemma NewOwner(w: World, s: Step)
    requires Inv(w) && Enabled(w, s) && w.key == None && Do(w, s).key.Some?
    ensures s.c in Do(w, s).clients && Owns(Do(w, s), Do(w, s).clients[s.c])
  {
    assert ClientOk(w, w.clients[s.c]);
  }

  lemma StepOwned(w: World, s: Step)
    requires Inv(w) && Enabled(w, s) && Owned(w)
    ensures Owned(Do(w, s))
  {
    hide Inv, Enabled, Do, Owns;
    if w.key.Some? {
      var c :| c in w.clients && Owns(w, w.clients[c]);
      OwnerStep(w, s, c);
    } else if Do(w, s).key.Some? {
      NewOwner(w, s);
    }
  }

  lemma {:induction false} RunOwned(w: World, steps: seq<Step>)
    requires Inv(w) && Owned(w) && CanRun(w, steps)
    ensures Inv(Run(w, steps)) && Owned(Run(w, steps))
    decreases |steps|
  {
    hide Inv, Enabled, Do, Owned;
    if steps != [] {
      StepInv(w, steps[0]);
      StepOwned(w, steps[0]);
      RunOwned(Do(w, steps[0]), steps[1..]);
    }
  }

  // ---- the owner gives the key up

  /** What the owner does next. */
  function Next(k: Client, c: nat): Step {
    match k.place
    case Setting(_) => FailSet(c)
    case Holding => Release(c)
    case Marking => RunSet(c, Told)
    case Erasing => RunErase(c, true)
    case _ => Read(c)
  }

  /** How many steps that takes at most. */
  function Rank(place: Place, version: nat): nat {
    match place
    case Setting(_) => 9
    case Checking(_) => 8
    case Holding => 7
    case Reading(_) => 6
    case MarkChecking => if version == 1 then 5 else 2
    case Marking => if version == 1 then 4 else 3
    case Looking(_) => 3
    case Comparing(_) => 2
    case Erasing => 1
    case Idle => 0
  }

  lemma NextWorks(w: World, c: nat)
    requires Inv(w) && c in w.clients && Owns(w, w.clients[c])
    ensures Enabled(w, Next(w.clients[c], c))
    ensures var x := Do(w, Next(w.clients[c], c));
      && c in x.clients && x.clients == w.clients[c := x.clients[c]] && x.used == w.used
      && (x.key == None ==> x.clients[c].place == Idle)
      && (x.key.Some? ==>
            && Owns(x, x.clients[c])
            && Rank(x.clients[c].place, x.key.value.version) < Rank(w.clients[c].place, w.key.value.version))
  {
    assert ClientOk(w, w.clients[c]);
    var s := Next(w.clients[c], c);
    assert s.Read? ==> Do(w, s) == DoRead(w, c);
  }

  lemma Then(w: World, s: Step, rest: seq<Step>) returns (steps: seq<Step>)
    requires Enabled(w, s) && CanRun(Do(w, s), rest)
    ensures steps == [s] + rest && CanRun(w, steps) && Run(w, steps) == Run(Do(w, s), rest)
  {
    hide Enabled, Do;
    steps := [s] + rest;
    assert steps[1..] == rest;
  }

  lemma {:induction false} RunConcat(w: World, first: seq<Step>, rest: seq<Step>)
    requires CanRun(w, first) && CanRun(Run(w, first), rest)
    ensures CanRun(w, first + rest) && Run(w, first + rest) == Run(Run(w, first), rest)
    decreases |first|
  {
    hide Enabled, Do;
    if first == [] {
      assert first + rest == rest;
    } else {
      RunConcat(Do(w, first[0]), first[1..], rest);
      assert (first + rest)[1..] == first[1..] + rest;
    }
  }

  /** The owner alone brings the key to absent. */
  lemma {:induction false} GiveUp(w: World, c: nat) returns (steps: seq<Step>)
    requires Inv(w) && c in w.clients && Owns(w, w.clients[c])
    ensures CanRun(w, steps)
    ensures var x := Run(w, steps);
      && x.key == None && x.used == w.used
      && c in x.clients && x.clients == w.clients[c := x.clients[c]] && x.clients[c].place == Idle
    decreases Rank(w.clients[c].place, w.key.value.version)
  {
    hide Inv, Enabled, Do, Owns, Next, Rank;
    assert w.key.Some? by { OwnsMeans(w, w.clients[c]); }
    NextWorks(w, c);
    var s := Next(w.clients[c], c);
    var x := Do(w, s);
    StepInv(w, s);
    var rest := [];
    if x.key.Some? {
      rest := GiveUp(x, c);
    }
    steps := Then(w, s, rest);
  }

  lemma OwnsMeans(w: World, k: Client)
    requires Owns(w, k)
    ensures w.key.Some?
  {
  }

  lemma AcquireNow(w: World, c: nat, token: string) returns (steps: seq<Step>)
    requires c in w.clients && w.clients[c].place == Idle && token !in w.used && w.key == None
    ensures CanRun(w, steps)
    ensures var x := Run(w, steps);
      && x.clients == w.clients[c := Client(Value(token, 1), Holding)]
      && x.key == Some(Value(token, 1)) && x.used == w.used + {token}
  {
    var asked := Do(w, Acquire(c, token));
    var taken := Do(asked, RunSet(c, Told));
    assert taken.clients == w.clients[c := Client(Value(token, 1), Holding)];
    steps := Then(asked, RunSet(c, Told), []);
    steps := Then(w, Acquire(c, token), steps);
  }

  /** From every reachable state there is a continuation in which any given client outside acquire
      and release comes to hold the lock, under any token not used before. */
  lemma NeverLost(w: World, first: seq<Step>, c: nat, token: string) returns (rest: seq<Step>)
    requires Start(w) && CanRun(w, first)
    requires var x := Run(w, first); c in x.clients && x.clients[c].place == Idle && token !in x.used
    ensures CanRun(Run(w, first), rest)
    ensures var y := Run(Run(w, first), rest);
      && c in y.clients && y.clients[c] == Client(Value(token, 1), Holding) && Holds(y.clients[c])
      && y.key == Some(Value(token, 1))
  {
    hide Inv, Enabled, Do, Owns;
    var x := Run(w, first);
    StartInv(w);
    RunOwned(w, first);
    var free := [];
    if x.key.Some? {
      var d :| d in x.clients && Owns(x, x.clients[d]);
      free := GiveUp(x, d);
    }
    hide Run, CanRun;
    NothingToDo(x);
    var y := Run(x, free);
    var take := AcquireNow(y, c, token);
    RunConcat(x, free, take);
    rest := free + take;
  }

  lemma NothingToDo(w: World)
    ensures CanRun(w, []) && Run(w, []) == w
  {
  }

  // ---- one hand-over, step by step

  /** From the start, for any two clients and tokens: one acquires the lock, marks the key and erases
      it in its release, and the other acquires the lock after it. */
  lemma HandOver(w: World, a: nat, b: nat, t: string, u: string)
    returns (acquire: seq<Step>, mark: seq<Step>, erase: seq<Step>, again: seq<Step>)
    requires Start(w) && a in w.clients && b in w.clients && a != b && t != u
    ensures CanRun(w, acquire)
    ensures var w1 := Run(w, acquire);
      && w1.clients == w.clients[a := Client(Value(t, 1), Holding)] && w1.key == Some(Value(t, 1))
      && CanRun(w1, mark)
      && var w2 := Run(w1, mark);
      && w2.clients == w.clients[a := Client(Value(t, 1), Marking)] && w2.key == Some(Value(t, 1))
      && CanRun(w2, erase)
      && var w3 := Run(w2, erase);
      && w3.clients == w.clients[a := Client(Value(t, 1), Idle)] && w3.key == None
      && CanRun(w3, again)
      && Run(w3, again).clients == w3.clients[b := Client(Value(u, 1), Holding)]
      && Run(w3, again).key == Some(Value(u, 1))
  {
    acquire := AcquireNow(w, a, t);
    var w1 := Run(w, acquire);
    mark := MarkNow(w1, a, t);
    var w2 := Run(w1, mark);
    erase := EraseNow(w2, a, t);
    var w3 := Run(w2, erase);
    again := AcquireNow(w3, b, u);
    hide Run, CanRun;
    assert w2.clients == w.clients[a := Client(Value(t, 1), Marking)];
    assert w3.clients == w.clients[a := Client(Value(t, 1), Idle)];
  }

  lemma MarkNow(w: World, a: nat, t: string) returns (steps: seq<Step>)
    requires a in w.clients && w.clients[a] == Client(Value(t, 1), Holding) && w.key == Some(Value(t, 1))
    ensures CanRun(w, steps)
    ensures Run(w, steps) == w.(clients := w.clients[a := Client(Value(t, 1), Marking)])
  {
    var reading := Do(w, Release(a));
    var marking := Do(reading, Read(a));
    assert marking == w.(clients := w.clients[a := Client(Value(t, 1), Marking)]);
    steps := Then(reading, Read(a), []);
    steps := Then(w, Release(a), steps);
  }

  lemma EraseNow(w: World, a: nat, t: string) returns (steps: seq<Step>)
    requires a in w.clients && w.clients[a] == Client(Value(t, 1), Marking) && w.key == Some(Value(t, 1))
    ensures CanRun(w, steps)
    ensures Run(w, steps) == w.(clients := w.clients[a := Client(Value(t, 1), Idle)], key := None)
  {
    var erasing := Do(w, RunSet(a, Told));
    assert erasing.clients[a].place == Erasing && erasing.key == Some(Value(t, 2));
    var done := Do(erasing, RunErase(a, true));
    assert done == w.(clients := w.clients[a := Client(Value(t, 1), Idle)], key := None);
    steps := Then(erasing, RunErase(a, true), []);
    steps := Then(w, RunSet(a, Told), steps);
  }
}
