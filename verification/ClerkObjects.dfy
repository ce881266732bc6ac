/** The client objects and their loops, each tied to its function in Clerk.dfy. */
module ClerkObjects {
  import opened KvStore
  import opened Clerk
  import opened ClerkLoops

  /** The far side of an rpc. */
  class Network {
    const env: Env
    var w: World

    constructor (env: Env, w: World)
      ensures this.env == env && this.w == w
    {
      this.env, this.w := env, w;
    }

    method Send(req: Request) returns (code: Code)
      modifies this
      ensures (w, code) == Rpc(env, old(w), req)
    {
      var r := Rpc(env, w, req);
      w, code := r.0, r.1;
    }

    method Tick()
      modifies this
      ensures w == old(w).(clock := old(w).clock + 1)
    {
      w := w.(clock := w.clock + 1);
    }
  }

  /** src/common/Repeater.cpp with the counter of src/common/ExponentialBackoff.cpp */
  class Repeater {
    var tried: nat

    constructor ()
      ensures tried == 0
    {
      tried := 0;
    }

    method Reset()
      modifies this
      ensures tried == 0
    {
      tried := 0;
    }

    method NextDelay(threshold: int) returns (again: bool)
      modifies this
      ensures again == (old(tried) < threshold - 1)
      ensures tried == if again then old(tried) + 1 else old(tried)
    {
      if tried >= threshold - 1 {
        return false;
      }
      tried := tried + 1;
      return true;
    }

    method Run(net: Network, req: Request) returns (codes: seq<Code>)
      modifies this, net
      ensures (net.w, tried, codes) == Attempt(net.env, old(net.w), req, old(tried))
    {
      hide Rpc, Serve;
      codes := [];
      assert forall rest: seq<Code> :: codes + rest == rest;
      while !net.env.events(net.w.clock).stopBefore
        invariant Joined(codes, Attempt(net.env, net.w, req, tried)) == Attempt(net.env, old(net.w), req, old(tried))
        decreases net.env.threshold - tried
      {
        var e := net.env.events(net.w.clock);
        ghost var before := codes;
        var code := net.Send(req);
        if e.stopAfter {
          codes := codes + [Cancelled];
          return;
        }
        codes := codes + [code];
        if code == OK {
          Reset();
          return;
        }
        if !Retriable(req, code) {
          Reset();
          return;
        }
        var again := NextDelay(net.env.threshold);
        if !again {
          return;
        }
        if e.stopInDelay {
          codes := codes + [Cancelled];
          assert codes == before + [code, Cancelled];
          return;
        }
        JoinedNext(before, code, Attempt(net.env, net.w, req, tried));
      }
      codes := codes + [Cancelled];
      net.Tick();
    }
  }

  function Joined(codes: seq<Code>, rest: (World, nat, seq<Code>)): (World, nat, seq<Code>) {
    (rest.0, rest.1, codes + rest.2)
  }

  lemma JoinedNext(codes: seq<Code>, code: Code, rest: (World, nat, seq<Code>))
    ensures Joined(codes + [code], rest) == Joined(codes, Joined([code], rest))
  {
    assert codes + [code] + rest.2 == codes + ([code] + rest.2);
  }

  /** src/common/CircuitBreaker.cpp */
  class CircuitBreaker {
    var state: BreakerState
    const repeater: Repeater

    ghost function State(): Breaker
      reads this, repeater
    {
      Breaker(state, repeater.tried)
    }

    constructor ()
      ensures State() == Breaker(Closed, 0) && fresh(repeater)
    {
      state := Closed;
      repeater := new Repeater();
    }

    method Call(net: Network, req: Request, cooled: bool) returns (codes: seq<Code>)
      modifies this, repeater, net
      ensures (net.w, State(), codes) == BreakerCall(net.env, old(net.w), req, old(State()), cooled)
    {
      if state == Open {
        if !cooled {
          return [ServiceTemporarilyUnavailable];
        }
        state := HalfOpen;
      }
      if state == HalfOpen {
        var code := net.Send(req);
        if code == OK {
          state := Closed;
          repeater.Reset();
        } else if Retriable(req, code) {
          state := Open;
        } else {
          state := Closed;
        }
        return [code];
      }
      codes := repeater.Run(net, req);
      if Last(codes) != OK && Retriable(req, Last(codes)) {
        state := Open;
      }
    }
  }

  /** src/include/client/KVStoreClient.hpp and src/client/KVStoreClient.cpp. Which service the
      configuration hands out is up to the environment. */
  class KVStoreClient {
    const services: seq<CircuitBreaker>

    ghost predicate Valid() {
      forall i, j :: 0 <= i < j < |services| ==>
        services[i] != services[j] && services[i].repeater != services[j].repeater
    }

    ghost function Footprint(): set<object> {
      (set i | 0 <= i < |services| :: services[i] as object)
      + (set i | 0 <= i < |services| :: services[i].repeater as object)
    }

    ghost function Breakers(): seq<Breaker>
      reads Footprint()
    {
      seq(|services|, i requires 0 <= i < |services| reads Footprint() => services[i].State())
    }

    constructor (services: seq<CircuitBreaker>)
      requires forall i, j :: 0 <= i < j < |services| ==>
        services[i] != services[j] && services[i].repeater != services[j].repeater
      ensures Valid() && this.services == services
    {
      this.services := services;
    }

    method CallOne(net: Network, req: Request, s: nat, t: Turn) returns (codes: seq<Code>)
      requires Valid() && s < |services|
      modifies net, services[s], services[s].repeater
      ensures var r := ServiceCall(net.env, old(net.w), req, old(Breakers())[s], t);
        net.w == r.0 && Breakers() == old(Breakers())[s := r.1] && codes == r.2
    {
      if t.connected {
        codes := services[s].Call(net, req, t.cooled);
      } else {
        codes := [ServiceTemporarilyUnavailable];
      }
    }

    method NextService(net: Network) returns (t: Turn)
      modifies net
      ensures t == net.env.turns(old(net.w).turn) && net.w == old(net.w).(turn := old(net.w).turn + 1)
    {
      t := net.env.turns(net.w.turn);
      net.w := net.w.(turn := net.w.turn + 1);
    }

    method Call(net: Network, req: Request, servicesToTry: nat) returns (codes: seq<Code>)
      requires Valid()
      modifies net, Footprint()
      ensures (net.w, Breakers(), codes) == CallLoop(net.env, old(net.w), old(Breakers()), req, servicesToTry)
      ensures Last(codes) != NotLeader
      ensures Last(codes) == AllServicesUnavailable <==>
        NoneServes(net.env, old(net.w), old(Breakers()), req, servicesToTry)
      ensures Retriable(req, Last(codes)) ==> codes == [AllServicesUnavailable]
    {
      hide NoneServes;
      CallEnds(net.env, net.w, Breakers(), req, servicesToTry);
      for i := 0 to servicesToTry
        invariant CallLoop(net.env, net.w, Breakers(), req, servicesToTry - i)
               == CallLoop(net.env, old(net.w), old(Breakers()), req, servicesToTry)
      {
        var t := NextService(net);
        if t.service.Some? && t.service.value < |services| {
          codes := CallOne(net, req, t.service.value, t);
          if Last(codes) == OK {
            return;
          }
          if Last(codes) != NotLeader && !Retriable(req, Last(codes)) {
            return;
          }
        }
      }
      return [AllServicesUnavailable];
    }

    /** What the caller of set is told, and what SetAtMostOnce, MaybeMeansResent and
        MismatchTrustedIff let it conclude. */
    method Set(net: Network, v: Value, servicesToTry: nat) returns (code: Code)
      requires Valid()
      modifies net, Footprint()
      ensures (net.w, code) == ClientSet(net.env, old(net.w), old(Breakers()), v, servicesToTry)
    {
      var codes := Call(net, Write(v), servicesToTry);
      if |codes| > 1 && Last(codes) == VersionMismatch {
        return Maybe;
      }
      return Last(codes);
    }

    method EraseKey(net: Network, servicesToTry: nat) returns (code: Code)
      requires Valid()
      modifies net, Footprint()
      ensures (net.w, code) == ClientErase(net.env, old(net.w), old(Breakers()), servicesToTry)
    {
      var codes := Call(net, Erase, servicesToTry);
      return Last(codes);
    }
  }
}
