/** When the client's loops go on and when they stop, each against the bare sequence of turns or rpcs
    that the network would answer if nobody stopped. */
module ClerkLoops {
  import opened Options
  import opened KvStore
  import opened Clerk

  // ---- the loop over services

  /** One turn: the service picked is called, if there is one. */
  function TakeTurn(env: Env, w: World, bs: seq<Breaker>, req: Request): (World, seq<Breaker>, Option<seq<Code>>) {
    var t := env.turns(w.turn);
    var w0 := w.(turn := w.turn + 1);
    if t.service.None? || t.service.value >= |bs| then (w0, bs, None)
    else
      var (w1, b, codes) := ServiceCall(env, w0, req, bs[t.service.value], t);
      (w1, bs[t.service.value := b], Some(codes))
  }

  /** The network and the breakers after k turns, whatever they brought. */
  function AfterTurns(env: Env, w: World, bs: seq<Breaker>, req: Request, k: nat): (World, seq<Breaker>)
    decreases k
  {
    if k == 0 then (w, bs)
    else
      var (w1, bs1, _) := TakeTurn(env, w, bs, req);
      AfterTurns(env, w1, bs1, req, k - 1)
  }

  /** What the turn after k others brings. */
  function TurnAt(env: Env, w: World, bs: seq<Breaker>, req: Request, k: nat): Option<seq<Code>> {
    var (w1, bs1) := AfterTurns(env, w, bs, req, k);
    TakeTurn(env, w1, bs1, req).2
  }

  /** Another service should be tried: there was none, it does not lead, or the failure may pass. */
  predicate TryAnother(req: Request, result: Option<seq<Code>>) {
    result.None? || Last(result.value) == NotLeader || Retriable(req, Last(result.value))
  }

  /** The first `services` turns all ask for another one. */
  ghost predicate NoneServes(env: Env, w: World, bs: seq<Breaker>, req: Request, services: nat) {
    forall k: nat :: k < services ==> TryAnother(req, TurnAt(env, w, bs, req, k))
  }

  /** The call takes one more turn for as long as another service should be tried and turns are left. */
  lemma {:induction false} CallStopsAtFirst(env: Env, w: World, bs: seq<Breaker>, req: Request, services: nat)
    ensures NoneServes(env, w, bs, req, services) ==>
      var (y, cs) := AfterTurns(env, w, bs, req, services);
      CallLoop(env, w, bs, req, services) == (y, cs, [AllServicesUnavailable])
    ensures forall j: nat :: j < services && NoneServes(env, w, bs, req, j)
                             && !TryAnother(req, TurnAt(env, w, bs, req, j)) ==>
      var (y, cs) := AfterTurns(env, w, bs, req, j + 1);
      CallLoop(env, w, bs, req, services) == (y, cs, TurnAt(env, w, bs, req, j).value)
    decreases services
  {
    hide ServiceCall, Last;
    if services > 0 {
      var (w1, bs1, result) := TakeTurn(env, w, bs, req);
      assert TurnAt(env, w, bs, req, 0) == result;
      forall k: nat
        ensures TurnAt(env, w, bs, req, k + 1) == TurnAt(env, w1, bs1, req, k)
        ensures AfterTurns(env, w, bs, req, k + 1) == AfterTurns(env, w1, bs1, req, k)
      {
      }
      LoopTakesTurn(env, w, bs, req, services);
      if TryAnother(req, result) {
        CallStopsAtFirst(env, w1, bs1, req, services - 1);
        RestServes(env, w, bs, req, w1, bs1, services);
        forall j: nat | j < services && NoneServes(env, w, bs, req, j) && !TryAnother(req, TurnAt(env, w, bs, req, j))
          ensures var (y, cs) := AfterTurns(env, w, bs, req, j + 1);
            CallLoop(env, w, bs, req, services) == (y, cs, TurnAt(env, w, bs, req, j).value)
        {
          assert TurnAt(env, w, bs, req, (j - 1) + 1) == TurnAt(env, w1, bs1, req, j - 1);
          assert AfterTurns(env, w, bs, req, j + 1) == AfterTurns(env, w1, bs1, req, j);
          RestServes(env, w, bs, req, w1, bs1, j);
        }
      } else {
        assert AfterTurns(env, w, bs, req, 0 + 1) == AfterTurns(env, w1, bs1, req, 0) == (w1, bs1);
        assert !TryAnother(req, TurnAt(env, w, bs, req, 0));
        assert forall j: nat :: NoneServes(env, w, bs, req, j) ==> j == 0;
      }
    }
  }

  lemma RestServes(env: Env, w: World, bs: seq<Breaker>, req: Request, w1: World, bs1: seq<Breaker>, services: nat)
    requires services > 0
    requires forall k: nat :: TurnAt(env, w, bs, req, k + 1) == TurnAt(env, w1, bs1, req, k)
    ensures NoneServes(env, w, bs, req, services) ==> NoneServes(env, w1, bs1, req, services - 1)
  {
    hide TurnAt, TryAnother;
    if NoneServes(env, w, bs, req, services) {
      forall k: nat | k < services - 1
        ensures TryAnother(req, TurnAt(env, w1, bs1, req, k))
      {
        assert TryAnother(req, TurnAt(env, w, bs, req, k + 1));
      }
    }
  }

  lemma LoopTakesTurn(env: Env, w: World, bs: seq<Breaker>, req: Request, services: nat)
    requires services > 0
    ensures var (w1, bs1, result) := TakeTurn(env, w, bs, req);
      CallLoop(env, w, bs, req, services)
      == if TryAnother(req, result) then CallLoop(env, w1, bs1, req, services - 1) else (w1, bs1, result.value)
  {
    hide ServiceCall, Last;
  }

  lemma {:induction false} FirstServing(env: Env, w: World, bs: seq<Breaker>, req: Request, services: nat)
    returns (j: nat)
    requires !NoneServes(env, w, bs, req, services)
    ensures j < services && NoneServes(env, w, bs, req, j) && !TryAnother(req, TurnAt(env, w, bs, req, j))
    decreases services
  {
    hide TurnAt, TryAnother;
    if NoneServes(env, w, bs, req, services - 1) {
      j := services - 1;
    } else {
      j := FirstServing(env, w, bs, req, services - 1);
    }
  }

  /** What the caller is told: never that a service does not lead; that all services are unavailable
      if and only if every turn asked for another one; and no other failure that may pass. */
  lemma CallEnds(env: Env, w: World, bs: seq<Breaker>, req: Request, services: nat)
    ensures var (_, _, codes) := CallLoop(env, w, bs, req, services);
      && Last(codes) != NotLeader
      && (Last(codes) == AllServicesUnavailable <==> NoneServes(env, w, bs, req, services))
      && (Retriable(req, Last(codes)) ==> codes == [AllServicesUnavailable])
      && (!NoneServes(env, w, bs, req, services) ==>
            exists j: nat :: j < services && NoneServes(env, w, bs, req, j) && TurnAt(env, w, bs, req, j) == Some(codes)
                             && !TryAnother(req, Some(codes)))
  {
    hide CallLoop, TurnAt, AfterTurns;
    CallStopsAtFirst(env, w, bs, req, services);
    if !NoneServes(env, w, bs, req, services) {
      var j := FirstServing(env, w, bs, req, services);
      hide NoneServes;
      assert TurnAt(env, w, bs, req, j).Some?;
    }
  }

  // ---- the retry loop

  /** The network after k rpcs, whatever they brought. */
  function AfterRpcs(env: Env, w: World, req: Request, k: nat): World
    decreases k
  {
    if k == 0 then w else AfterRpcs(env, Rpc(env, w, req).0, req, k - 1)
  }

  function CodeAt(env: Env, w: World, req: Request, k: nat): Code {
    Rpc(env, AfterRpcs(env, w, req, k), req).1
  }

  /** The loop is over at rpc k: somebody stops it there, the answer settles it, or `tried` with the
      rpcs so far have used up what the threshold allows. */
  predicate EndsAt(env: Env, w: World, req: Request, tried: nat, k: nat) {
    var e := env.events(AfterRpcs(env, w, req, k).clock);
    || e.stopBefore || e.stopAfter || e.stopInDelay
    || !Retriable(req, CodeAt(env, w, req, k)) || tried + k >= env.threshold - 1
  }

  ghost predicate GoesOnUntil(env: Env, w: World, req: Request, tried: nat, k: nat) {
    forall i: nat :: i < k ==> !EndsAt(env, w, req, tried, i)
  }

  /** The codes reported for rpc k when the loop ends there. */
  function EndCodes(env: Env, w: World, req: Request, tried: nat, k: nat): seq<Code> {
    var e, code := env.events(AfterRpcs(env, w, req, k).clock), CodeAt(env, w, req, k);
    if e.stopBefore || e.stopAfter then [Cancelled]
    else if !Retriable(req, code) || tried + k >= env.threshold - 1 then [code]
    else [code, Cancelled]
  }

  function CodesBefore(env: Env, w: World, req: Request, k: nat): (codes: seq<Code>)
    ensures |codes| == k
  {
    seq(k, (i: nat) => CodeAt(env, w, req, i))
  }

  /** The retry loop reports every rpc up to the first at which it is over. */
  lemma {:induction false} AttemptStopsAtFirst(env: Env, w: World, req: Request, tried: nat, k: nat)
    requires EndsAt(env, w, req, tried, k) && GoesOnUntil(env, w, req, tried, k)
    ensures Attempt(env, w, req, tried).2 == CodesBefore(env, w, req, k) + EndCodes(env, w, req, tried, k)
    decreases k
  {
    hide Rpc;
    if k == 0 {
      assert CodesBefore(env, w, req, 0) == [];
    } else {
      var (w1, code) := Rpc(env, w, req);
      forall i: nat
        ensures AfterRpcs(env, w, req, i + 1) == AfterRpcs(env, w1, req, i)
        ensures EndsAt(env, w, req, tried, i + 1) <==> EndsAt(env, w1, req, tried + 1, i)
      {
      }
      assert EndsAt(env, w, req, tried, (k - 1) + 1);
      assert !EndsAt(env, w, req, tried, 0);
      assert GoesOnUntil(env, w1, req, tried + 1, k - 1) by { GoesOnAfter(env, w, req, tried, w1, k); }
      AttemptStopsAtFirst(env, w1, req, tried + 1, k - 1);
      assert AfterRpcs(env, w, req, (k - 1) + 1) == AfterRpcs(env, w1, req, k - 1);
      assert EndCodes(env, w, req, tried, k) == EndCodes(env, w1, req, tried + 1, k - 1);
      CodesShift(env, w, req, w1, code, k);
      assert Attempt(env, w, req, tried).2 == [code] + Attempt(env, w1, req, tried + 1).2;
    }
  }

  lemma GoesOnAfter(env: Env, w: World, req: Request, tried: nat, w1: World, k: nat)
    requires k > 0 && GoesOnUntil(env, w, req, tried, k) && w1 == Rpc(env, w, req).0
    ensures GoesOnUntil(env, w1, req, tried + 1, k - 1)
  {
    hide Rpc;
    var more := tried + 1;
    forall i: nat | i < k - 1
      ensures !EndsAt(env, w1, req, more, i)
    {
      assert !EndsAt(env, w, req, tried, i + 1);
    }
  }

  lemma CodesShift(env: Env, w: World, req: Request, w1: World, code: Code, k: nat)
    requires k > 0 && (w1, code) == Rpc(env, w, req)
    ensures CodesBefore(env, w, req, k) == [code] + CodesBefore(env, w1, req, k - 1)
  {
    hide Rpc;
    var all, rest := CodesBefore(env, w, req, k), CodesBefore(env, w1, req, k - 1);
    forall i: nat | i < k
      ensures all[i] == ([code] + rest)[i]
    {
      if i > 0 { assert AfterRpcs(env, w, req, i) == AfterRpcs(env, w1, req, i - 1); }
    }
  }

  /** It always is over by the rpc that uses up the threshold. */
  lemma {:induction false} AttemptEnds(env: Env, w: World, req: Request, tried: nat, limit: nat) returns (k: nat)
    requires EndsAt(env, w, req, tried, limit)
    ensures k <= limit && EndsAt(env, w, req, tried, k) && GoesOnUntil(env, w, req, tried, k)
    decreases limit
  {
    hide EndsAt;
    if i: nat :| i < limit && EndsAt(env, w, req, tried, i) {
      k := AttemptEnds(env, w, req, tried, i);
    } else {
      k := limit;
    }
  }

  /** A service that nobody stops is asked again exactly while the failure may pass and the threshold
      allows: all codes but the last are failures that may pass, and the last is one only when the
      threshold is used up. */
  lemma AttemptExact(env: Env, w: World, req: Request, tried: nat)
    requires forall i: nat :: var e := env.events(i); !e.stopBefore && !e.stopAfter && !e.stopInDelay
    ensures var codes := Attempt(env, w, req, tried).2;
      var most := if tried < env.threshold - 1 then env.threshold - tried else 1;
      && 1 <= |codes| <= most
      && (forall i :: 0 <= i < |codes| ==> codes[i] == CodeAt(env, w, req, i))
      && (forall i :: 0 <= i < |codes| - 1 ==> Retriable(req, codes[i]))
      && (Retriable(req, Last(codes)) ==> |codes| == most)
  {
    hide Attempt, Rpc;
    var limit: nat := if tried < env.threshold - 1 then env.threshold - 1 - tried else 0;
    assert EndsAt(env, w, req, tried, limit);
    var k := AttemptEnds(env, w, req, tried, limit);
    AttemptStopsAtFirst(env, w, req, tried, k);
    var codes := CodesBefore(env, w, req, k) + EndCodes(env, w, req, tried, k);
    assert EndCodes(env, w, req, tried, k) == [CodeAt(env, w, req, k)];
    forall i | 0 <= i < |codes| - 1
      ensures Retriable(req, codes[i])
    {
      assert !EndsAt(env, w, req, tried, i);
    }
  }

  // ---- the breaker

  lemma {:induction false} AttemptCounts(env: Env, w: World, req: Request, tried: nat)
    ensures var (_, t, codes) := Attempt(env, w, req, tried);
      && codes != []
      && (!Retriable(req, Last(codes)) && Last(codes) != Cancelled ==> t == 0)
      && (Retriable(req, Last(codes)) ==> t == if tried < env.threshold - 1 then env.threshold - 1 else tried)
    decreases env.threshold - tried
  {
    hide Rpc;
    var e := env.events(w.clock);
    var (w1, code) := Rpc(env, w, req);
    if !e.stopBefore && !e.stopAfter && code != OK && Retriable(req, code)
       && tried < env.threshold - 1 && !e.stopInDelay {
      AttemptCounts(env, w1, req, tried + 1);
      var (_, _, rest) := Attempt(env, w1, req, tried + 1);
      assert Last([code] + rest) == Last(rest);
    }
  }

  /** After any call to a connected service its breaker is open if and only if the last code is a
      failure that may pass, and closed otherwise; success also starts the count of attempts anew.
      A service that is not connected, or whose open breaker has not cooled, is left as it was and
      makes the client try another. */
  lemma BreakerOpensIff(env: Env, w: World, req: Request, b: Breaker, t: Turn)
    ensures var (y, c, codes) := ServiceCall(env, w, req, b, t);
      && codes != []
      && (t.connected ==> c.state == if Retriable(req, Last(codes)) then Open else Closed)
      && (t.connected && Last(codes) == OK ==> c.tried == 0)
      && (!t.connected || (b.state == Open && !t.cooled) ==> y == w && c == b && TryAnother(req, Some(codes)))
  {
    hide Rpc, Attempt;
    AttemptCounts(env, w, req, b.tried);
  }
}
