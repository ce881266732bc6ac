/** The lock built on the store (src/lock/Lock.cpp with the waiting loops of
    src/client/KVStoreClient.cpp): any number of clients, each somewhere in acquire or release,
    stepping in any order over a network that may lose requests and answers. */
module Lock {
  import opened Options
  import opened KvStore

  /** Where a client is. The flags say what the client itself does not know: whether it called
      release while holding the lock, and whether its erase has taken effect. */
  datatype Place =
    | Idle
    | Setting(token: string)    // acquire: the set call of waitSet
    | Checking(token: string)   // acquire: the waitGet of waitSet
    | Holding                   // acquire has returned
    | Reading(held: bool)       // release: waitGet for version 1
    | Marking                   // release: the set call of waitSet
    | MarkChecking              // release: the waitGet of waitSet
    | Erasing                   // release: the erase call
    | Looking(erased: bool)     // release: waitNotFound after a failed erase
    | Comparing(erased: bool)   // release: waitGet for version 2

  datatype Client = Client(lockValue: Value, place: Place)

  datatype World = World(clients: map<nat, Client>, key: Option<Value>, used: set<string>)

  const UNSET := Value("", 1000)

  /** How an executed set attempt ends for the caller: its answer arrives, it is lost and the
      clerk tries again, or it is lost and the clerk gives up with an error. */
  datatype SetEnd = Told | Again | GaveUp

  datatype Step =
    | Acquire(c: nat, token: string)
    | Release(c: nat)
    | RunSet(c: nat, end: SetEnd)
    | FailSet(c: nat)
    | Read(c: nat)
    | RunErase(c: nat, answered: bool)
    | FailErase(c: nat)

  predicate Start(w: World) {
    && w.key == None && w.used == {}
    && forall c :: c in w.clients ==> w.clients[c] == Client(UNSET, Idle)
  }

  function Move(w: World, c: nat, place: Place): World
    requires c in w.clients
  {
    w.(clients := w.clients[c := w.clients[c].(place := place)])
  }

  function Take(w: World, c: nat, token: string): World
    requires c in w.clients
  {
    w.(clients := w.clients[c := Client(Value(token, 1), Holding)])
  }

  predicate Enabled(w: World, s: Step) {
    && s.c in w.clients
    && var p := w.clients[s.c].place;
       match s
       case Acquire(_, token) => p == Idle && token !in w.used
       case Release(_) => p == Idle || p == Holding
       case RunSet(_, _) => p.Setting? || p == Marking
       case FailSet(_) => p.Setting? || p == Marking
       case Read(_) => p.Checking? || p.Reading? || p == MarkChecking || p.Looking? || p.Comparing?
       case RunErase(_, _) => p == Erasing
       case FailErase(_) => p == Erasing
  }

  /** An attempt of acquire's set reaches the store. */
  function DoAcquireSet(w: World, c: nat, token: string, end: SetEnd): World
    requires c in w.clients
  {
    var (key, code) := SetKey(w.key, Value(token, 0));
    var x := w.(key := key);
    if end == Again then x
    else if end == Told && code == OK then Take(x, c, token)
    else Move(x, c, Checking(token))
  }

  /** An attempt of release's set reaches the store. */
  function DoMark(w: World, c: nat, end: SetEnd): World
    requires c in w.clients
  {
    var (key, code) := SetKey(w.key, w.clients[c].lockValue);
    var x := w.(key := key);
    if end == Again then x
    else if end == Told && code == OK then Move(x, c, Erasing)
    else Move(x, c, MarkChecking)
  }

  /** A read is answered; where it is not, the loop asks again. */
  function DoRead(w: World, c: nat): World
    requires Enabled(w, Read(c))
  {
    var v := w.clients[c].lockValue;
    match w.clients[c].place
    case Checking(token) =>
      if w.key == Some(Value(token, 1)) then Take(w, c, token) else Move(w, c, Setting(token))
    case Reading(_) =>
      if w.key.None? || w.key.value.version != 1 then w
      else if w.key.value == v then Move(w, c, Marking)
      else Move(w, c, Idle)
    case MarkChecking =>
      Move(w, c, if w.key == Some(Value(v.data, v.version + 1)) then Erasing else Marking)
    case Looking(erased) =>
      Move(w, c, if w.key.None? then Idle else Comparing(erased))
    case Comparing(_) =>
      Move(w, c, if w.key == Some(Value(v.data, 2)) then Erasing else Idle)
    case _ => w
  }

  function DoErase(w: World, c: nat, answered: bool): World
    requires c in w.clients
  {
    var (key, code) := KvStore.EraseKey(w.key);
    var x := w.(key := key);
    if answered then Move(x, c, if code == OK then Idle else Looking(false))
    else Move(x, c, Looking(w.key.Some?))
  }

  function Do(w: World, s: Step): World
    requires Enabled(w, s)
  {
    match s
    case Acquire(c, token) => Move(w, c, Setting(token)).(used := w.used + {token})
    case Release(c) => Move(w, c, Reading(w.clients[c].place == Holding))
    case RunSet(c, end) =>
      if w.clients[c].place == Marking then DoMark(w, c, end)
      else DoAcquireSet(w, c, w.clients[c].place.token, end)
    case FailSet(c) =>
      if w.clients[c].place == Marking then Move(w, c, MarkChecking)
      else Move(w, c, Checking(w.clients[c].place.token))
    case Read(c) => DoRead(w, c)
    case RunErase(c, answered) => DoErase(w, c, answered)
    case FailErase(c) => Move(w, c, Looking(false))
  }

  /** Between the return of acquire and the moment the erase takes effect. */
  predicate Holds(k: Client) {
    match k.place
    case Idle => false
    case Setting(_) => false
    case Checking(_) => false
    case Reading(held) => held
    case Looking(erased) => !erased
    case Comparing(erased) => !erased
    case _ => true
  }

  // ---- the invariant

  predicate Pending(k: Client) { k.place.Setting? || k.place.Checking? }

  /** The tokens a client has written or may still write. */
  function Tokens(k: Client): set<string> {
    (if k.lockValue.version == 1 then {k.lockValue.data} else {}) + (if Pending(k) then {k.place.token} else {})
  }

  /** The version the key has while this client holds the lock. */
  predicate VersionFits(place: Place, version: nat) {
    match place
    case Holding => version == 1
    case Reading(_) => version == 1
    case Marking => version == 1 || version == 2
    case MarkChecking => version == 1 || version == 2
    case _ => version == 2
  }

  ghost predicate ClientOk(w: World, k: Client) {
    && Tokens(k) <= w.used
    && (k.lockValue.version == 1 || k.lockValue == UNSET)
    && (k.place.Looking? || k.place.Comparing? ==> k.lockValue.version == 1)
    && (Pending(k) && k.lockValue.version == 1 ==> k.place.token != k.lockValue.data)
    && (Holds(k) ==>
          && k.lockValue.version == 1 && w.key.Some?
          && w.key.value.data == k.lockValue.data && VersionFits(k.place, w.key.value.version))
    && (!Holds(k) && w.key.Some? && k.lockValue.version == 1 ==> w.key.value.data != k.lockValue.data)
  }

  ghost predicate Apart(w: World) {
    forall c, d :: c in w.clients && d in w.clients && c != d ==> Tokens(w.clients[c]) !! Tokens(w.clients[d])
  }

  ghost predicate Inv(w: World) {
    && (w.key.Some? ==> w.key.value.version in {1, 2} && w.key.value.data in w.used)
    && (forall c :: c in w.clients ==> ClientOk(w, w.clients[c]))
    && Apart(w)
  }

  lemma StartInv(w: World)
    requires Start(w)
    ensures Inv(w)
  {
  }

  /** A client moves without touching the key or its tokens. */
  lemma MoveInv(w: World, x: World, c: nat)
    requires Inv(w) && c in w.clients && c in x.clients
    requires x.clients == w.clients[c := x.clients[c]] && x.key == w.key && w.used <= x.used
    requires ClientOk(x, x.clients[c])
    requires Tokens(x.clients[c]) <= Tokens(w.clients[c]) + (x.used - w.used)
    ensures Inv(x)
  {
    forall d | d in x.clients ensures ClientOk(x, x.clients[d]) {
      if d != c { assert ClientOk(w, w.clients[d]); }
    }
    forall d, e | d in x.clients && e in x.clients && d != e
      ensures Tokens(x.clients[d]) !! Tokens(x.clients[e])
    {
      assert Tokens(w.clients[d]) !! Tokens(w.clients[e]);
      assert ClientOk(w, w.clients[d]) && ClientOk(w, w.clients[e]);
    }
  }

  /** A client changes the key: nobody else holds the lock, and the key is empty afterwards or
      carries one of this client's tokens. */
  lemma WriteInv(w: World, x: World, c: nat)
    requires Inv(w) && c in w.clients && c in x.clients
    requires x.clients == w.clients[c := x.clients[c]] && x.used == w.used
    requires ClientOk(x, x.clients[c]) && Tokens(x.clients[c]) <= Tokens(w.clients[c])
    requires x.key.Some? ==> x.key.value.version in {1, 2} && x.key.value.data in Tokens(w.clients[c])
    requires forall d :: d in w.clients && d != c ==> !Holds(w.clients[d])
    ensures Inv(x)
  {
    assert ClientOk(w, w.clients[c]);
    forall d | d in x.clients ensures ClientOk(x, x.clients[d]) {
      if d != c {
        assert ClientOk(w, w.clients[d]);
        assert Tokens(w.clients[d]) !! Tokens(w.clients[c]);
      }
    }
    forall d, e | d in x.clients && e in x.clients && d != e
      ensures Tokens(x.clients[d]) !! Tokens(x.clients[e])
    {
      assert Tokens(w.clients[d]) !! Tokens(w.clients[e]);
    }
  }

  /** Mutual exclusion: at most one client is between the return of its acquire and the moment
      its erase takes effect. */
  lemma MutualExclusion(w: World, c: nat, d: nat)
    requires Inv(w) && c in w.clients && d in w.clients
    requires Holds(w.clients[c]) && Holds(w.clients[d])
    ensures c == d
  {
    assert ClientOk(w, w.clients[c]) && ClientOk(w, w.clients[d]);
    assert w.key.value.data in Tokens(w.clients[c]) && w.key.value.data in Tokens(w.clients[d]);
  }

  lemma OthersDoNotHold(w: World, c: nat)
    requires Inv(w) && c in w.clients && (Holds(w.clients[c]) || w.key.None?)
    ensures forall d :: d in w.clients && d != c ==> !Holds(w.clients[d])
  {
    forall d | d in w.clients && d != c ensures !Holds(w.clients[d]) {
      assert ClientOk(w, w.clients[d]);
      if Holds(w.clients[d]) && Holds(w.clients[c]) {
        MutualExclusion(w, c, d);
      }
    }
  }

  lemma AcquireSetInv(w: World, c: nat, end: SetEnd)
    requires Inv(w) && Enabled(w, RunSet(c, end)) && w.clients[c].place.Setting?
    ensures Inv(Do(w, RunSet(c, end)))
  {
    var x := Do(w, RunSet(c, end));
    assert ClientOk(w, w.clients[c]);
    if w.key.None? {
      OthersDoNotHold(w, c);
      WriteInv(w, x, c);
    } else {
      MoveInv(w, x, c);
    }
  }

  lemma MarkInv(w: World, c: nat, end: SetEnd)
    requires Inv(w) && Enabled(w, RunSet(c, end)) && w.clients[c].place == Marking
    ensures Inv(Do(w, RunSet(c, end)))
  {
    assert ClientOk(w, w.clients[c]);
    OthersDoNotHold(w, c);
    WriteInv(w, Do(w, RunSet(c, end)), c);
  }

  lemma ReadInv(w: World, c: nat)
    requires Inv(w) && Enabled(w, Read(c))
    ensures Inv(Do(w, Read(c)))
  {
    assert ClientOk(w, w.clients[c]);
    var x := DoRead(w, c);
    assert x.clients == w.clients[c := x.clients[c]];
    MoveInv(w, x, c);
  }

  lemma EraseInv(w: World, c: nat, answered: bool)
    requires Inv(w) && Enabled(w, RunErase(c, answered))
    ensures Inv(Do(w, RunErase(c, answered)))
  {
    assert ClientOk(w, w.clients[c]);
    OthersDoNotHold(w, c);
    WriteInv(w, Do(w, RunErase(c, answered)), c);
  }

  lemma StepInv(w: World, s: Step)
    requires Inv(w) && Enabled(w, s)
    ensures Inv(Do(w, s))
  {
    match s
    case RunSet(c, end) =>
      if w.clients[c].place == Marking { MarkInv(w, c, end); } else { AcquireSetInv(w, c, end); }
    case Read(c) => ReadInv(w, c);
    case RunErase(c, answered) => EraseInv(w, c, answered);
    case _ =>
      assert ClientOk(w, w.clients[s.c]);
      MoveInv(w, Do(w, s), s.c);
  }

  // ---- runs

  predicate CanRun(w: World, steps: seq<Step>)
    decreases |steps|
  {
    steps == [] || (Enabled(w, steps[0]) && CanRun(Do(w, steps[0]), steps[1..]))
  }

  function Run(w: World, steps: seq<Step>): World
    requires CanRun(w, steps)
    decreases |steps|
  {
    if steps == [] then w else Run(Do(w, steps[0]), steps[1..])
  }

  lemma {:induction false} RunInv(w: World, steps: seq<Step>)
    requires Inv(w) && CanRun(w, steps)
    ensures Inv(Run(w, steps))
    decreases |steps|
  {
    if steps != [] {
      StepInv(w, steps[0]);
      RunInv(Do(w, steps[0]), steps[1..]);
    }
  }

  /** In every run from the start, two clients never hold the lock together. */
  lemma LockSafe(w: World, steps: seq<Step>, c: nat, d: nat)
    requires Start(w) && CanRun(w, steps)
    requires c in Run(w, steps).clients && d in Run(w, steps).clients
    requires Holds(Run(w, steps).clients[c]) && Holds(Run(w, steps).clients[d])
    ensures c == d
  {
    StartInv(w);
    RunInv(w, steps);
    MutualExclusion(Run(w, steps), c, d);
  }

  /** In every run, an erase reaches the store only while the key holds that client's token at
      version 2. */
  lemma EraseOnlyOwn(w: World, steps: seq<Step>, c: nat, answered: bool)
    requires Start(w) && CanRun(w, steps) && Enabled(Run(w, steps), RunErase(c, answered))
    ensures Run(w, steps).key == Some(Value(Run(w, steps).clients[c].lockValue.data, 2))
  {
    StartInv(w);
    RunInv(w, steps);
    assert ClientOk(Run(w, steps), Run(w, steps).clients[c]);
  }

  lemma HoldStep(w: World, c: nat, s: Step)
    requires Inv(w) && Enabled(w, s) && c in w.clients && Holds(w.clients[c])
    ensures c in Do(w, s).clients
    ensures Holds(Do(w, s).clients[c]) <==> !(s.RunErase? && s.c == c)
    ensures !Holds(Do(w, s).clients[c]) ==> Do(w, s).key == None
  {
    assert ClientOk(w, w.clients[c]);
    if s.c == c {
      assert s.Read? ==> Do(w, s) == DoRead(w, c);
    }
  }

  /** In every run, a client that holds the lock keeps it until its own erase takes effect: no
      other step, by it or by anyone else, ends its hold, so a holder's release never leaves by
      an early return. */
  lemma GivenUpOnlyByErase(w: World, steps: seq<Step>, c: nat, s: Step)
    requires Start(w) && CanRun(w, steps) && Enabled(Run(w, steps), s)
    requires c in Run(w, steps).clients && Holds(Run(w, steps).clients[c])
    ensures c in Do(Run(w, steps), s).clients
    ensures Holds(Do(Run(w, steps), s).clients[c]) <==> !(s.RunErase? && s.c == c)
    ensures !Holds(Do(Run(w, steps), s).clients[c]) ==> Do(Run(w, steps), s).key == None
  {
    hide Do, Enabled, Inv, Holds;
    StartInv(w);
    RunInv(w, steps);
    HoldStep(Run(w, steps), c, s);
  }

  /** In every run, the key changes hands only through an empty key: a client that does not hold
      the lock changes it only from absent to its own new token at version 1. */
  lemma OnlyHoldersOverwrite(w: World, steps: seq<Step>, s: Step)
    requires Start(w) && CanRun(w, steps) && Enabled(Run(w, steps), s)
    requires Do(Run(w, steps), s).key != Run(w, steps).key && !Holds(Run(w, steps).clients[s.c])
    ensures Run(w, steps).key == None && Run(w, steps).clients[s.c].place.Setting?
    ensures Do(Run(w, steps), s).key == Some(Value(Run(w, steps).clients[s.c].place.token, 1))
  {
    StartInv(w);
    RunInv(w, steps);
    assert ClientOk(Run(w, steps), Run(w, steps).clients[s.c]);
  }

  /** The two ways acquire returns: its own set, executed on the absent key, is answered; or its read
      finds the key with its token at version 1. */
  predicate Acquires(w: World, c: nat, s: Step) {
    && c in w.clients && s.c == c
    && var place := w.clients[c].place;
    || (s == RunSet(c, Told) && place.Setting? && w.key == None)
    || (s == Read(c) && place.Checking? && w.key == Some(Value(place.token, 1)))
  }

  lemma AcquireStep(w: World, c: nat, s: Step)
    requires Inv(w) && Enabled(w, s) && c in w.clients && !Holds(w.clients[c])
    ensures c in Do(w, s).clients
    ensures Holds(Do(w, s).clients[c]) <==> Acquires(w, c, s)
    ensures Acquires(w, c, s) ==>
      && Do(w, s).clients[c] == Client(Value(w.clients[c].place.token, 1), Holding)
      && Do(w, s).key == Some(Value(w.clients[c].place.token, 1))
  {
    assert ClientOk(w, w.clients[c]);
    if s.c == c {
      assert s.Read? ==> Do(w, s) == DoRead(w, c);
    }
  }

  /** In every run, a client that does not hold the lock comes to hold it in exactly these two ways.
      It then remembers its token at version 1, which is what the key holds. */
  lemma HeldFromAcquireOnly(w: World, steps: seq<Step>, c: nat, s: Step)
    requires Start(w) && CanRun(w, steps) && Enabled(Run(w, steps), s)
    requires c in Run(w, steps).clients && !Holds(Run(w, steps).clients[c])
    ensures c in Do(Run(w, steps), s).clients
    ensures Holds(Do(Run(w, steps), s).clients[c]) <==> Acquires(Run(w, steps), c, s)
    ensures Acquires(Run(w, steps), c, s) ==>
      var token := Run(w, steps).clients[c].place.token;
      && Do(Run(w, steps), s).clients[c] == Client(Value(token, 1), Holding)
      && Do(Run(w, steps), s).key == Some(Value(token, 1))
  {
    hide Do, Enabled, Inv, Holds;
    StartInv(w);
    RunInv(w, steps);
    AcquireStep(Run(w, steps), c, s);
  }

  /** In every run, a client that called release without holding the lock never touches the key: its
      read sends it back if and only if the key is there at version 1, and makes it read again otherwise. */
  lemma ReleaseUnheld(w: World, steps: seq<Step>, c: nat)
    requires Start(w) && CanRun(w, steps) && c in Run(w, steps).clients
    requires Run(w, steps).clients[c].place == Reading(false)
    ensures var x := Run(w, steps);
      && Enabled(x, Read(c))
      && var locked := x.key.Some? && x.key.value.version == 1;
      Do(x, Read(c)) == x.(clients := x.clients[c := x.clients[c].(place := if locked then Idle else Reading(false))])
  {
    StartInv(w);
    RunInv(w, steps);
    var x := Run(w, steps);
    assert ClientOk(x, x.clients[c]);
    assert x.clients[c := x.clients[c]] == x.clients;
    assert Do(x, Read(c)) == DoRead(x, c);
  }
}
