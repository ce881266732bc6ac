/** The versioned key-value store (src/storage/InMemoryKVStore.cpp) and the codes its calls
    report (src/include/common/Error.hpp). */
module KvStore {
  import opened Options

  datatype Code =
    | OK
    | InvalidArg
    | ServiceTemporarilyUnavailable
    | AllServicesUnavailable
    | VersionMismatch
    | Maybe
    | KeyNotFound
    | Timeout
    | NotLeader
    | Internal
    | Cancelled
    | Unknown

  datatype Value = Value(data: string, version: nat)

  /** Compare-and-set on one key: what the key holds afterwards, and the code reported. */
  function SetKey(cur: Option<Value>, v: Value): (Option<Value>, Code) {
    match cur
    case Some(held) =>
      if v.version != held.version then (cur, VersionMismatch) else (Some(Value(v.data, held.version + 1)), OK)
    case None =>
      if v.version != 0 then (None, KeyNotFound) else (Some(Value(v.data, 1)), OK)
  }

  function EraseKey(cur: Option<Value>): (Option<Value>, Code) {
    (None, if cur.Some? then OK else KeyNotFound)
  }

  function Lookup(store: map<string, Value>, key: string): Option<Value> {
    if key in store then Some(store[key]) else None
  }

  /** The version a reader sees: 0 for a key that is not there. */
  function VersionOf(cur: Option<Value>): nat {
    if cur.Some? then cur.value.version else 0
  }

  /** A set succeeds exactly when it names the present version, and then adds one to it. */
  lemma SetIsCompareAndSet(cur: Option<Value>, v: Value)
    ensures SetKey(cur, v).1 == OK <==> v.version == VersionOf(cur)
    ensures SetKey(cur, v).1 == OK ==> SetKey(cur, v).0 == Some(Value(v.data, VersionOf(cur) + 1))
    ensures SetKey(cur, v).1 != OK ==> SetKey(cur, v).0 == cur
    ensures SetKey(cur, v).1 in {OK, VersionMismatch, KeyNotFound}
    ensures SetKey(cur, v).1 == KeyNotFound ==> cur == None
  {
  }

  class InMemoryKVStore {
    var store: map<string, Value>

    constructor ()
      ensures store == map[]
    {
      store := map[];
    }

    method Get(key: string) returns (r: Option<Value>)
      ensures r == Lookup(store, key)
    {
      if key !in store {
        return None;
      }
      return Some(store[key]);
    }

    method Set(key: string, value: Value) returns (code: Code)
      modifies this
      ensures Lookup(store, key) == SetKey(old(Lookup(store, key)), value).0
      ensures code == SetKey(old(Lookup(store, key)), value).1
      ensures forall k :: k != key ==> Lookup(store, k) == old(Lookup(store, k))
    {
      if key in store {
        if value.version != store[key].version {
          return VersionMismatch;
        }
        store := store[key := Value(value.data, store[key].version + 1)];
      } else {
        if value.version != 0 {
          return KeyNotFound;
        }
        store := store[key := Value(value.data, 1)];
      }
      return OK;
    }

    method Erase(key: string) returns (r: Option<Value>)
      modifies this
      ensures r == old(Lookup(store, key)) && Lookup(store, key) == None
      ensures forall k :: k != key ==> Lookup(store, k) == old(Lookup(store, k))
    {
      if key !in store {
        return None;
      }
      r := Some(store[key]);
      store := store - {key};
    }

    method Size() returns (n: nat)
      ensures n == |store|
    {
      n := |store|;
    }
  }
}
