/** The client side of a call: which codes are retried (src/common/Error.cpp), the retry loop
    (src/common/Repeater.cpp), the circuit breaker (src/common/CircuitBreaker.cpp), the loop
    over services (src/include/client/KVStoreClient.hpp) and the meaning of a set's result
    (src/client/KVStoreClient.cpp), as functions of everything the network may do. The objects
    that run these loops are in ClerkObjects.dfy. */
module Clerk {
  import opened Options
  import opened KvStore

  /** A request about one key. */
  datatype Request = Read | Write(value: Value) | Erase

  predicate Retriable(req: Request, code: Code) {
    match req
    case Erase => code in {ServiceTemporarilyUnavailable, AllServicesUnavailable}
    case _ => code in {Unknown, ServiceTemporarilyUnavailable, AllServicesUnavailable, Timeout}
  }

  function Serve(cur: Option<Value>, req: Request): (Option<Value>, Code) {
    match req
    case Read => (cur, if cur.Some? then OK else KeyNotFound)
    case Write(v) => SetKey(cur, v)
    case Erase => EraseKey(cur)
  }

  // ---- the network

  /** What happens to one rpc: it is executed and answered, executed but its answer lost, or
      never executed. The code is what the caller is told instead of an answer. */
  datatype Fate = Answered | Lost(code: Code) | Dropped(code: Code)

  /** One rpc: the writes other clients get in first, its fate, and whether the caller is being
      stopped before it, after it or while waiting to retry. */
  datatype Event = Event(others: seq<Value>, fate: Fate, stopBefore: bool, stopAfter: bool, stopInDelay: bool)

  /** One turn of the loop over services: which service is picked if any, whether it is
      connected, and whether its breaker's reset timeout has passed. */
  datatype Turn = Turn(service: Option<nat>, connected: bool, cooled: bool)

  datatype Env = Env(events: nat -> Event, turns: nat -> Turn, threshold: int)

  /** The network makes up no answers, and reports unavailability or a wrong leader only for a
      request that was not executed. */
  predicate LawfulFate(f: Fate) {
    match f
    case Answered => true
    case Lost(code) => code in {Timeout, Unknown, Internal, Cancelled, InvalidArg}
    case Dropped(code) => code !in {OK, VersionMismatch, KeyNotFound, Maybe}
  }

  ghost predicate Lawful(env: Env) {
    forall i: nat :: LawfulFate(env.events(i).fate)
  }

  datatype BreakerState = Open | Closed | HalfOpen

  /** A service's breaker with the attempts its backoff has counted. */
  datatype Breaker = Breaker(state: BreakerState, tried: nat)

  /** What the key holds; how often this client's requests were sent, executed, and changed it;
      and how far the choices of the environment have been used up. */
  datatype World = World(
    cur: Option<Value>,
    sent: nat,
    executed: nat,
    changes: nat,
    clock: nat,
    turn: nat)

  function Interfere(cur: Option<Value>, others: seq<Value>): Option<Value>
    decreases |others|
  {
    if others == [] then cur else Interfere(SetKey(cur, others[0]).0, others[1..])
  }

  function Rpc(env: Env, w: World, req: Request): (World, Code) {
    var e := env.events(w.clock);
    var before := Interfere(w.cur, e.others);
    var (after, code) := Serve(before, req);
    match e.fate
    case Dropped(c) => (w.(cur := before, sent := w.sent + 1, clock := w.clock + 1), c)
    case Lost(c) => (Ran(w, before, after), c)
    case Answered => (Ran(w, before, after), code)
  }

  function Ran(w: World, before: Option<Value>, after: Option<Value>): World {
    w.(cur := after, sent := w.sent + 1, executed := w.executed + 1,
       changes := w.changes + (if after != before then 1 else 0), clock := w.clock + 1)
  }

  // ---- the retry loop

  /** The retry loop with `tried` attempts on the backoff's count: the new count and one code
      per rpc, with Cancelled at the end when it was stopped. */
  function Attempt(env: Env, w: World, req: Request, tried: nat): (World, nat, seq<Code>)
    decreases env.threshold - tried
  {
    var e := env.events(w.clock);
    if e.stopBefore then (w.(clock := w.clock + 1), tried, [Cancelled])
    else
      var (w1, code) := Rpc(env, w, req);
      if e.stopAfter then (w1, tried, [Cancelled])
      else if code == OK || !Retriable(req, code) then (w1, 0, [code])
      else if tried >= env.threshold - 1 then (w1, tried, [code])
      else if e.stopInDelay then (w1, tried + 1, [code, Cancelled])
      else
        var (w2, t, rest) := Attempt(env, w1, req, tried + 1);
        (w2, t, [code] + rest)
  }

  // ---- the breaker and the loop over services

  function BreakerCall(env: Env, w: World, req: Request, b: Breaker, cooled: bool): (World, Breaker, seq<Code>) {
    if b.state == Open && !cooled then (w, b, [ServiceTemporarilyUnavailable])
    else if b.state == Closed then
      var (w1, tried, codes) := Attempt(env, w, req, b.tried);
      (w1, Breaker(if Last(codes) != OK && Retriable(req, Last(codes)) then Open else Closed, tried), codes)
    else
      var (w1, code) := Rpc(env, w, req);
      (w1,
       if code == OK then Breaker(Closed, 0) else Breaker(if Retriable(req, code) then Open else Closed, b.tried),
       [code])
  }

  function ServiceCall(env: Env, w: World, req: Request, b: Breaker, t: Turn): (World, Breaker, seq<Code>) {
    if !t.connected then (w, b, [ServiceTemporarilyUnavailable]) else BreakerCall(env, w, req, b, t.cooled)
  }

  /** Up to `left` more services. Only the codes of the last service called are reported. */
  function CallLoop(env: Env, w: World, bs: seq<Breaker>, req: Request, left: nat): (World, seq<Breaker>, seq<Code>)
    decreases left
  {
    if left == 0 then (w, bs, [AllServicesUnavailable])
    else
      var t := env.turns(w.turn);
      var w0 := w.(turn := w.turn + 1);
      if t.service.None? || t.service.value >= |bs| then CallLoop(env, w0, bs, req, left - 1)
      else
        var s := t.service.value;
        var (w1, b, codes) := ServiceCall(env, w0, req, bs[s], t);
        var last := Last(codes);
        if last != OK && (last == NotLeader || Retriable(req, last)) then CallLoop(env, w1, bs[s := b], req, left - 1)
        else (w1, bs[s := b], codes)
  }

  function Last(codes: seq<Code>): Code {
    if codes == [] then Unknown else codes[|codes| - 1]
  }

  /** The result of a set: a version mismatch that is not the only code of its service is
      reported as Maybe. */
  function SetResult(codes: seq<Code>): Code {
    if |codes| > 1 && Last(codes) == VersionMismatch then Maybe else Last(codes)
  }

  function ClientSet(env: Env, w: World, bs: seq<Breaker>, v: Value, services: nat): (World, Code) {
    var (w1, _, codes) := CallLoop(env, w, bs, Write(v), services);
    (w1, SetResult(codes))
  }

  function ClientErase(env: Env, w: World, bs: seq<Breaker>, services: nat): (World, Code) {
    var (w1, _, codes) := CallLoop(env, w, bs, Erase, services);
    (w1, Last(codes))
  }

  // ---- versions only grow while nobody erases

  lemma {:induction false} OthersOnlyRaise(cur: Option<Value>, others: seq<Value>)
    ensures VersionOf(Interfere(cur, others)) >= VersionOf(cur)
    ensures cur.Some? ==> Interfere(cur, others).Some?
    decreases |others|
  {
    if others != [] {
      OthersOnlyRaise(SetKey(cur, others[0]).0, others[1..]);
    }
  }

  /** How a set call stands: it has not changed the key since `w`, or it has changed it once and
      the key has moved past the version the call names. */
  ghost predicate Progress(w: World, x: World, v: Value) {
    && x.sent >= w.sent
    && (|| x.changes == w.changes
        || (x.changes == w.changes + 1 && x.cur.Some? && x.cur.value.version > v.version))
  }

  lemma RpcProgress(env: Env, w: World, x: World, v: Value)
    requires Lawful(env) && Progress(w, x, v)
    ensures var (y, code) := Rpc(env, x, Write(v));
      && Progress(w, y, v) && y.sent == x.sent + 1
      && (code == OK ==> x.changes == w.changes && y.changes == w.changes + 1)
      && (code == VersionMismatch ==> y.changes == x.changes)
      && (code == KeyNotFound ==> y.changes == w.changes)
      && code != Maybe
  {
    var e := env.events(x.clock);
    assert LawfulFate(e.fate);
    OthersOnlyRaise(x.cur, e.others);
    SetIsCompareAndSet(Interfere(x.cur, e.others), v);
  }

  /** What the codes of one service say about a set, and how many rpcs they stand for. */
  ghost predicate SetCodes(w: World, x: World, y: World, v: Value, codes: seq<Code>) {
    && codes != [] && Progress(w, y, v) && y.sent >= x.sent
    && (Last(codes) == OK ==> y.changes == w.changes + 1)
    && (Last(codes) == KeyNotFound ==> y.changes == w.changes)
    && (Last(codes) == VersionMismatch ==> y.sent >= x.sent + |codes|)
    && (codes == [VersionMismatch] ==> y.changes == x.changes)
    && Last(codes) != Maybe
  }

  lemma {:induction false} AttemptSet(env: Env, w: World, x: World, v: Value, tried: nat)
    requires Lawful(env) && Progress(w, x, v)
    ensures var (y, _, codes) := Attempt(env, x, Write(v), tried);
      SetCodes(w, x, y, v, codes)
    decreases env.threshold - tried
  {
    hide Lawful, Rpc;
    RpcProgress(env, w, x, v);
    var e := env.events(x.clock);
    var (x1, code) := Rpc(env, x, Write(v));
    if !e.stopBefore && !e.stopAfter && code != OK && Retriable(Write(v), code)
       && tried < env.threshold - 1 && !e.stopInDelay {
      AttemptSet(env, w, x1, v, tried + 1);
      var (y, _, rest) := Attempt(env, x1, Write(v), tried + 1);
      assert Last([code] + rest) == Last(rest);
    }
  }

  lemma ServiceSet(env: Env, w: World, x: World, v: Value, b: Breaker, t: Turn)
    requires Lawful(env) && Progress(w, x, v)
    ensures var (y, _, codes) := ServiceCall(env, x, Write(v), b, t);
      SetCodes(w, x, y, v, codes)
  {
    hide Lawful, Rpc, Attempt;
    RpcProgress(env, w, x, v);
    AttemptSet(env, w, x, v, b.tried);
  }

  lemma {:induction false} CallSet(env: Env, w: World, x: World, bs: seq<Breaker>, v: Value, left: nat)
    requires Lawful(env) && Progress(w, x, v)
    ensures var (y, _, codes) := CallLoop(env, x, bs, Write(v), left);
      && codes != [] && Progress(w, y, v)
      && (Last(codes) == OK ==> y.changes == w.changes + 1)
      && (Last(codes) == KeyNotFound ==> y.changes == w.changes)
      && (Last(codes) == VersionMismatch ==> y.sent >= x.sent + |codes|)
      && (left <= 1 && codes == [VersionMismatch] ==> y.changes == x.changes)
      && Last(codes) != Maybe
    decreases left
  {
    hide Lawful, ServiceCall;
    if left > 0 {
      var t := env.turns(x.turn);
      var x0 := x.(turn := x.turn + 1);
      if t.service.None? || t.service.value >= |bs| {
        CallSet(env, w, x0, bs, v, left - 1);
      } else {
        var s := t.service.value;
        ServiceSet(env, w, x0, v, bs[s], t);
        var (x1, b, _) := ServiceCall(env, x0, Write(v), bs[s], t);
        CallSet(env, w, x1, bs[s := b], v, left - 1);
      }
    }
  }

  // ---- what a client may conclude

  /** However often it is resent, one set changes the key at most once while nobody erases it;
      OK means exactly once, KeyNotFound never. */
  lemma SetAtMostOnce(env: Env, w: World, bs: seq<Breaker>, v: Value, services: nat)
    requires Lawful(env)
    ensures var (y, code) := ClientSet(env, w, bs, v, services);
      && w.changes <= y.changes <= w.changes + 1
      && (code == OK ==> y.changes == w.changes + 1)
      && (code == KeyNotFound ==> y.changes == w.changes)
  {
    CallSet(env, w, w, bs, v, services);
  }

  /** Maybe is only reported after a resend. */
  lemma MaybeMeansResent(env: Env, w: World, bs: seq<Breaker>, v: Value, services: nat)
    requires Lawful(env)
    ensures var (y, code) := ClientSet(env, w, bs, v, services);
      code == Maybe ==> y.sent >= w.sent + 2
  {
    CallSet(env, w, w, bs, v, services);
  }

  /** And after a resend nothing more can be said: with retries allowed, one network lets the
      first attempt through and loses its answer, another drops it and lets a rival write first. */
  lemma MaybeUndecided(services: nat, threshold: int)
    returns (ran: Env, dropped: Env, w: World, bs: seq<Breaker>, v: Value)
    requires services >= 1 && threshold >= 2
    ensures Lawful(ran) && Lawful(dropped) && ran.threshold == dropped.threshold == threshold
    ensures ClientSet(ran, w, bs, v, services).1 == Maybe == ClientSet(dropped, w, bs, v, services).1
    ensures ClientSet(ran, w, bs, v, services).0.changes == w.changes + 1
    ensures ClientSet(dropped, w, bs, v, services).0.changes == w.changes
  {
    var turns := (i: nat) => Turn(Some(0), true, true);
    ran := Env(
      (i: nat) => Event([], if i == 0 then Lost(Timeout) else Answered, false, false, false),
      turns, threshold);
    dropped := Env(
      (i: nat) => Event([Value("y", 0)], if i == 0 then Dropped(Timeout) else Answered, false, false, false),
      turns, threshold);
    w := World(None, 0, 0, 0, 0, 0);
    bs := [Breaker(Closed, 0)];
    v := Value("x", 0);
    TwoAttempts(ran, w.(turn := 1), v);
    TwoAttempts(dropped, w.(turn := 1), v);
  }

  /** A timeout and then a mismatch, told to the caller as Maybe. */
  lemma TwoAttempts(env: Env, w: World, v: Value)
    requires env.threshold >= 2 && env.turns(0) == Turn(Some(0), true, true) && w.turn == 1
    requires forall i: nat :: var e := env.events(i); !e.stopBefore && !e.stopAfter && !e.stopInDelay
    requires Rpc(env, w, Write(v)).1 == Timeout
    requires Rpc(env, Rpc(env, w, Write(v)).0, Write(v)).1 == VersionMismatch
    ensures forall services: nat :: services >= 1 ==>
      ClientSet(env, w.(turn := 0), [Breaker(Closed, 0)], v, services)
      == (Rpc(env, Rpc(env, w, Write(v)).0, Write(v)).0, Maybe)
  {
    hide Rpc;
    var w1 := Rpc(env, w, Write(v)).0;
    var w2 := Rpc(env, w1, Write(v)).0;
    assert Attempt(env, w1, Write(v), 1) == (w2, 0, [VersionMismatch]);
    assert Attempt(env, w, Write(v), 0) == (w2, 0, [Timeout] + [VersionMismatch]);
    assert w.(turn := 0).(turn := 1) == w;
  }

  /** A reported version mismatch means that the call did not change the key. */
  ghost predicate MismatchTrusted(services: nat, threshold: int) {
    forall env: Env, w: World, bs: seq<Breaker>, v: Value ::
      Lawful(env) && env.threshold == threshold && ClientSet(env, w, bs, v, services).1 == VersionMismatch ==>
        ClientSet(env, w, bs, v, services).0.changes == w.changes
  }

  /** That holds exactly when the client tries no more than one service. */
  lemma MismatchTrustedIff(services: nat, threshold: int)
    ensures MismatchTrusted(services, threshold) <==> services <= 1
  {
    if services <= 1 {
      forall env: Env, w: World, bs: seq<Breaker>, v: Value |
        Lawful(env) && env.threshold == threshold && ClientSet(env, w, bs, v, services).1 == VersionMismatch
        ensures ClientSet(env, w, bs, v, services).0.changes == w.changes
      {
        CallSet(env, w, w, bs, v, services);
      }
    } else {
      var env, w, bs, v := ForgottenTimeout(services, threshold);
    }
  }

  /** The first service executes the set and loses the answer; its single timeout is discarded
      when the second service answers with the mismatch this very call has caused. */
  lemma ForgottenTimeout(services: nat, threshold: int) returns (env: Env, w: World, bs: seq<Breaker>, v: Value)
    requires services >= 2
    ensures Lawful(env) && env.threshold == threshold
    ensures ClientSet(env, w, bs, v, services).1 == VersionMismatch
    ensures ClientSet(env, w, bs, v, services).0.changes == w.changes + 1
  {
    env := Env(
      (i: nat) => Event([], if i == 0 then Lost(Timeout) else Answered, false, false, false),
      (i: nat) => Turn(Some(i), true, true),
      threshold);
    w := World(None, 0, 0, 0, 0, 0);
    bs := [Breaker(HalfOpen, 0), Breaker(Closed, 0)];
    v := Value("x", 0);
    var (w1, b, codes) := ServiceCall(env, w.(turn := 1), Write(v), bs[0], Turn(Some(0), true, true));
    assert codes == [Timeout] && w1.cur == Some(Value("x", 1)) && w1.changes == 1;
    assert CallLoop(env, w, bs, Write(v), services) == CallLoop(env, w1, bs[0 := b], Write(v), services - 1);
    assert bs[0 := b][1] == Breaker(Closed, 0);
    assert Attempt(env, w1.(turn := 2), Write(v), 0).2 == [VersionMismatch];
    var (w2, c, second) := ServiceCall(env, w1.(turn := 2), Write(v), Breaker(Closed, 0), Turn(Some(1), true, true));
    assert second == [VersionMismatch] && w2.changes == 1;
    assert CallLoop(env, w1, bs[0 := b], Write(v), services - 1) == (w2, bs[0 := b][1 := c], second);
  }

  // ---- erase is never resent once it may have run

  lemma RpcErase(env: Env, w: World)
    requires Lawful(env)
    ensures var (y, code) := Rpc(env, w, Erase);
      && y.executed <= w.executed + 1 && y.executed >= w.executed
      && (Retriable(Erase, code) || code == NotLeader ==> y.executed == w.executed)
      && (code == OK ==> y.executed == w.executed + 1)
  {
    assert LawfulFate(env.events(w.clock).fate);
  }

  ghost predicate EraseCodes(w: World, y: World, codes: seq<Code>) {
    && codes != [] && w.executed <= y.executed <= w.executed + 1
    && (Retriable(Erase, Last(codes)) || Last(codes) == NotLeader ==> y.executed == w.executed)
    && (Last(codes) == OK ==> y.executed == w.executed + 1)
  }

  lemma {:induction false} AttemptErase(env: Env, w: World, tried: nat)
    requires Lawful(env)
    ensures var (y, _, codes) := Attempt(env, w, Erase, tried);
      EraseCodes(w, y, codes)
    decreases env.threshold - tried
  {
    hide Lawful, Rpc;
    RpcErase(env, w);
    var e := env.events(w.clock);
    var (w1, code) := Rpc(env, w, Erase);
    if !e.stopBefore && !e.stopAfter && code != OK && Retriable(Erase, code)
       && tried < env.threshold - 1 && !e.stopInDelay {
      AttemptErase(env, w1, tried + 1);
      var (y, _, rest) := Attempt(env, w1, Erase, tried + 1);
      assert Last([code] + rest) == Last(rest);
    }
  }

  lemma ServiceErase(env: Env, w: World, b: Breaker, t: Turn)
    requires Lawful(env)
    ensures var (y, _, codes) := ServiceCall(env, w, Erase, b, t);
      EraseCodes(w, y, codes)
  {
    hide Lawful, Rpc, Attempt;
    RpcErase(env, w);
    AttemptErase(env, w, b.tried);
  }

  /** An erase call runs at the store at most once over all its retries, and OK means that it
      did; giving up on all services means that it did not. */
  lemma {:induction false} EraseAtMostOnce(env: Env, w: World, bs: seq<Breaker>, services: nat)
    requires Lawful(env)
    ensures var (y, code) := ClientErase(env, w, bs, services);
      && w.executed <= y.executed <= w.executed + 1
      && (code == OK ==> y.executed == w.executed + 1)
      && (code == AllServicesUnavailable ==> y.executed == w.executed)
    decreases services
  {
    hide Lawful, ServiceCall;
    if services > 0 {
      var t := env.turns(w.turn);
      var w0 := w.(turn := w.turn + 1);
      if t.service.None? || t.service.value >= |bs| {
        EraseAtMostOnce(env, w0, bs, services - 1);
      } else {
        var s := t.service.value;
        ServiceErase(env, w0, bs[s], t);
        var (w1, b, _) := ServiceCall(env, w0, Erase, bs[s], t);
        EraseAtMostOnce(env, w1, bs[s := b], services - 1);
      }
    }
  }

  // ---- retries are bounded

  /** The most rpcs one service call can send. */
  function PerService(threshold: int): nat { if threshold < 1 then 1 else threshold }

  lemma RpcSends(env: Env, w: World, req: Request)
    ensures Rpc(env, w, req).0.sent == w.sent + 1
  {
  }

  lemma {:induction false} AttemptSends(env: Env, w: World, req: Request, tried: nat)
    ensures var (y, _, _) := Attempt(env, w, req, tried);
      w.sent <= y.sent <= w.sent + if tried < env.threshold - 1 then env.threshold - tried else 1
    decreases env.threshold - tried
  {
    hide Rpc;
    RpcSends(env, w, req);
    var e := env.events(w.clock);
    var (w1, code) := Rpc(env, w, req);
    if !e.stopBefore && !e.stopAfter && code != OK && Retriable(req, code)
       && tried < env.threshold - 1 && !e.stopInDelay {
      AttemptSends(env, w1, req, tried + 1);
    }
  }

  /** An open breaker that has not cooled sends nothing, one that is not closed sends at most one
      rpc, and no service call sends more than the failure threshold allows. */
  lemma ServiceSends(env: Env, w: World, req: Request, b: Breaker, t: Turn)
    ensures var (y, _, _) := ServiceCall(env, w, req, b, t);
      && w.sent <= y.sent <= w.sent + PerService(env.threshold)
      && (!t.connected || (b.state == Open && !t.cooled) ==> y == w)
      && (b.state != Closed ==> y.sent <= w.sent + 1)
  {
    hide Rpc, Attempt;
    RpcSends(env, w, req);
    AttemptSends(env, w, req, b.tried);
  }

  /** One call sends at most the failure threshold, or one, for each service it may try. */
  lemma {:induction false} CallSends(env: Env, w: World, bs: seq<Breaker>, req: Request, services: nat)
    ensures CallLoop(env, w, bs, req, services).0.sent <= w.sent + services * PerService(env.threshold)
    decreases services
  {
    hide ServiceCall, PerService;
    if services > 0 {
      var m := PerService(env.threshold);
      assert services * m == m + (services - 1) * m;
      var t := env.turns(w.turn);
      var w0 := w.(turn := w.turn + 1);
      if t.service.None? || t.service.value >= |bs| {
        CallSends(env, w0, bs, req, services - 1);
      } else {
        var s := t.service.value;
        ServiceSends(env, w0, req, bs[s], t);
        var (w1, b, _) := ServiceCall(env, w0, req, bs[s], t);
        CallSends(env, w1, bs[s := b], req, services - 1);
      }
    }
  }
}
