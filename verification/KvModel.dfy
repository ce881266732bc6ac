/** The sequential specification histories are checked against
    (tst/KVTestFramework/porcupine/main.go), one key at a time, and why checking one key at a
    time is enough. */
module KvModel {
  import opened Options
  import opened KvStore

  datatype Input = Get(key: string) | Set(key: string, value: string, version: nat)

  /** What the client recorded: the value read, or the code of a set. */
  datatype Output = Output(value: string, code: Code)

  datatype Operation = Operation(input: Input, output: Output)

  /** The state of a single key. */
  datatype State = State(value: string, version: nat)

  const INIT := State("", 0)

  function Step(st: State, op: Operation): (bool, State) {
    match op.input
    case Get(_) => (op.output.value == st.value, st)
    case Set(_, value, version) =>
      if st.version == version then
        (op.output.code == OK || op.output.code == Maybe, State(value, st.version + 1))
      else
        (op.output.code == VersionMismatch || op.output.code == Maybe, st)
  }

  /** Whether a single key's history is accepted from the initial state, and where it ends. */
  function Check(h: seq<Operation>): (bool, State) {
    if h == [] then (true, INIT)
    else
      var (ok, st) := Check(h[..|h| - 1]);
      var (accepted, next) := Step(st, h[|h| - 1]);
      (ok && accepted, next)
  }

  /** The operations of a history that touch `key`, in order. */
  function Project(h: seq<Operation>, key: string): seq<Operation> {
    if h == [] then []
    else
      var last := h[|h| - 1];
      Project(h[..|h| - 1], key) + if last.input.key == key then [last] else []
  }

  // ---- the store, run on a whole history

  function StoreStep(store: map<string, Value>, input: Input): map<string, Value> {
    match input
    case Get(_) => store
    case Set(key, data, version) =>
      var cur := SetKey(Lookup(store, key), Value(data, version)).0;
      if cur.Some? then store[key := cur.value] else store
  }

  function StoreAfter(h: seq<Operation>): map<string, Value> {
    if h == [] then map[] else StoreStep(StoreAfter(h[..|h| - 1]), h[|h| - 1].input)
  }

  /** An absent key reads as the empty string at version 0. */
  function Shown(cur: Option<Value>): State {
    match cur
    case None => INIT
    case Some(v) => State(v.data, v.version)
  }

  /** The recorded output is what the store answers: the value read, and for a set its code,
      where KeyNotFound counts as a version mismatch and Maybe is always allowed. */
  predicate Answers(store: map<string, Value>, op: Operation) {
    var cur := Lookup(store, op.input.key);
    match op.input
    case Get(_) => op.output.value == Shown(cur).value
    case Set(_, data, version) =>
      var code := SetKey(cur, Value(data, version)).1;
      op.output.code == Maybe || op.output.code == if code == KeyNotFound then VersionMismatch else code
  }

  ghost predicate StoreExplains(h: seq<Operation>) {
    forall i :: 0 <= i < |h| ==> Answers(StoreAfter(h[..i]), h[i])
  }

  lemma StepIsStore(store: map<string, Value>, op: Operation)
    ensures var st := Shown(Lookup(store, op.input.key));
      && Step(st, op).0 == Answers(store, op)
      && Step(st, op).1 == Shown(Lookup(StoreStep(store, op.input), op.input.key))
    ensures forall k :: k != op.input.key ==> Lookup(StoreStep(store, op.input), k) == Lookup(store, k)
  {
  }

  /** Each key's part of the history ends in what the store holds for that key. */
  lemma {:induction false} ProjectionState(h: seq<Operation>, key: string)
    ensures Check(Project(h, key)).1 == Shown(Lookup(StoreAfter(h), key))
  {
    if h != [] {
      var front, last := h[..|h| - 1], h[|h| - 1];
      ProjectionState(front, key);
      StepIsStore(StoreAfter(front), last);
      if last.input.key == key {
        CheckAppend(Project(front, key), last);
      } else {
        assert Project(front, key) + [] == Project(front, key);
      }
    }
  }

  lemma CheckAppend(h: seq<Operation>, op: Operation)
    ensures Check(h + [op]) == (Check(h).0 && Step(Check(h).1, op).0, Step(Check(h).1, op).1)
  {
    assert (h + [op])[..|h|] == h;
  }

  ghost predicate EveryKeyPasses(h: seq<Operation>) {
    forall key :: Check(Project(h, key)).0
  }

  /** Checking every key separately is the same as running the whole history on the store. */
  lemma {:induction false} PartitionSound(h: seq<Operation>)
    ensures StoreExplains(h) <==> EveryKeyPasses(h)
  {
    if h != [] {
      var front, last := h[..|h| - 1], h[|h| - 1];
      PartitionSound(front);
      ExplainsLast(h);
      ProjectionState(front, last.input.key);
      StepIsStore(StoreAfter(front), last);
      CheckAppend(Project(front, last.input.key), last);
      forall key
        ensures Check(Project(h, key)).0 <==>
          Check(Project(front, key)).0 && (key == last.input.key ==> Answers(StoreAfter(front), last))
      {
        if key != last.input.key {
          assert Project(front, key) + [] == Project(front, key);
        }
      }
      if EveryKeyPasses(h) {
        forall key ensures Check(Project(front, key)).0 {
          assert Check(Project(h, key)).0;
        }
        assert Check(Project(h, last.input.key)).0;
      }
    }
  }

  lemma ExplainsLast(h: seq<Operation>)
    requires h != []
    ensures var front := h[..|h| - 1];
      StoreExplains(h) <==> StoreExplains(front) && Answers(StoreAfter(front), h[|h| - 1])
  {
    var front := h[..|h| - 1];
    forall i | 0 <= i < |front| ensures h[..i] == front[..i] && h[i] == front[i] {
    }
    if StoreExplains(front) && Answers(StoreAfter(front), h[|h| - 1]) {
      forall i | 0 <= i < |h| ensures Answers(StoreAfter(h[..i]), h[i]) {
        if i < |front| {
          assert Answers(StoreAfter(front[..i]), front[i]);
        }
      }
    }
    if StoreExplains(h) {
      forall i | 0 <= i < |front| ensures Answers(StoreAfter(front[..i]), front[i]) {
        assert Answers(StoreAfter(h[..i]), h[i]);
      }
    }
  }

  // ---- splitting a history by key

  /** Strings in the order they are sorted in. */
  predicate Less(a: string, b: string) {
    b != [] && (a == [] || a[0] < b[0] || (a[0] == b[0] && Less(a[1..], b[1..])))
  }

  lemma {:induction false} LessTransitive(a: string, b: string, c: string)
    requires Less(a, b) && Less(b, c)
    ensures Less(a, c)
    decreases |a|
  {
    if a != [] && a[0] == b[0] == c[0] {
      LessTransitive(a[1..], b[1..], c[1..]);
    }
  }

  lemma {:induction false} LessTotal(a: string, b: string)
    ensures Less(a, b) || a == b || Less(b, a)
    decreases |a|
  {
    if a != [] && b != [] && a[0] == b[0] {
      LessTotal(a[1..], b[1..]);
      assert a == [a[0]] + a[1..] && b == [b[0]] + b[1..];
    }
  }

  ghost predicate Sorted(keys: seq<string>) {
    forall i, j :: 0 <= i < j < |keys| ==> Less(keys[i], keys[j])
  }

  ghost predicate Touches(h: seq<Operation>, key: string) {
    exists i :: 0 <= i < |h| && h[i].input.key == key
  }

  lemma {:induction false} UntouchedEmpty(h: seq<Operation>, key: string)
    ensures Project(h, key) == [] <==> !Touches(h, key)
  {
    if h != [] {
      var front := h[..|h| - 1];
      UntouchedEmpty(front, key);
      assert forall i :: 0 <= i < |front| ==> front[i] == h[i];
    }
  }

  /** It is enough to check the keys the history touches. */
  lemma PartsDecide(h: seq<Operation>, keys: seq<string>)
    requires forall key :: key in keys <==> Touches(h, key)
    ensures (forall i :: 0 <= i < |keys| ==> Check(Project(h, keys[i])).0) <==> EveryKeyPasses(h)
  {
    forall key ensures key in keys || Check(Project(h, key)).0 {
      UntouchedEmpty(h, key);
    }
  }

  function Entry(m: map<string, seq<Operation>>, key: string): seq<Operation> {
    if key in m then m[key] else []
  }

  ghost predicate Grouped(h: seq<Operation>, m: map<string, seq<Operation>>) {
    forall key :: Entry(m, key) == Project(h, key) && (key in m <==> Project(h, key) != [])
  }

  lemma GroupedNext(h: seq<Operation>, m: map<string, seq<Operation>>, op: Operation)
    requires Grouped(h, m)
    ensures Grouped(h + [op], m[op.input.key := Entry(m, op.input.key) + [op]])
  {
    assert (h + [op])[..|h|] == h;
    var n := m[op.input.key := Entry(m, op.input.key) + [op]];
    forall key
      ensures Entry(n, key) == Project(h + [op], key) && (key in n <==> Project(h + [op], key) != [])
    {
      assert Entry(m, key) == Project(h, key);
    }
  }

  method Group(h: seq<Operation>) returns (m: map<string, seq<Operation>>)
    ensures forall key :: key in m <==> Touches(h, key)
    ensures forall key :: key in m ==> m[key] == Project(h, key)
  {
    hide Grouped;
    m := map[];
    GroupedStart();
    for i := 0 to |h|
      invariant Grouped(h[..i], m)
    {
      var key := h[i].input.key;
      assert h[..i + 1] == h[..i] + [h[i]];
      GroupedNext(h[..i], m, h[i]);
      m := m[key := Entry(m, key) + [h[i]]];
    }
    assert h[..|h|] == h;
    GroupedTouches(h, m);
  }

  lemma GroupedStart()
    ensures Grouped([], map[])
  {
  }

  lemma GroupedTouches(h: seq<Operation>, m: map<string, seq<Operation>>)
    requires Grouped(h, m)
    ensures forall key :: key in m <==> Touches(h, key)
    ensures forall key :: key in m ==> m[key] == Project(h, key)
  {
    forall key ensures key in m <==> Touches(h, key) {
      UntouchedEmpty(h, key);
      assert Entry(m, key) == Project(h, key);
    }
    forall key | key in m ensures m[key] == Project(h, key) {
      assert Entry(m, key) == Project(h, key);
    }
  }

  method InsertKey(keys: seq<string>, key: string) returns (bigger: seq<string>)
    requires Sorted(keys) && key !in keys
    ensures Sorted(bigger) && forall x :: x in bigger <==> x in keys || x == key
  {
    var p := 0;
    while p < |keys| && Less(keys[p], key)
      invariant 0 <= p <= |keys|
      invariant forall i :: 0 <= i < p ==> Less(keys[i], key)
    {
      p := p + 1;
    }
    if p < |keys| {
      LessTotal(keys[p], key);
      assert keys[p] in keys;
    }
    bigger := keys[..p] + [key] + keys[p..];
    InsertSorted(keys, p, key);
    assert keys == keys[..p] + keys[p..];
  }

  lemma InsertSorted(keys: seq<string>, p: nat, key: string)
    requires Sorted(keys) && p <= |keys|
    requires (forall i :: 0 <= i < p ==> Less(keys[i], key)) && (p < |keys| ==> Less(key, keys[p]))
    ensures Sorted(keys[..p] + [key] + keys[p..])
  {
    hide Less;
    var bigger := keys[..p] + [key] + keys[p..];
    forall i | p <= i < |keys|
      ensures Less(key, keys[i])
    {
      if p < i { LessTransitive(key, keys[p], keys[i]); }
    }
    assert forall i :: 0 <= i < p ==> bigger[i] == keys[i];
    assert forall i :: p < i < |bigger| ==> bigger[i] == keys[i - 1];
  }

  method SortKeys(keys: set<string>) returns (sorted: seq<string>)
    ensures Sorted(sorted) && forall x :: x in sorted <==> x in keys
  {
    sorted := [];
    var rest := keys;
    while rest != {}
      invariant rest <= keys && Sorted(sorted)
      invariant forall x :: x in sorted <==> x in keys - rest
      decreases |rest|
    {
      var key :| key in rest;
      var bigger := InsertKey(sorted, key);
      sorted, rest := bigger, rest - {key};
    }
  }

  /** One part per key, in key order, each the key's operations in history order. */
  method Partition(h: seq<Operation>) returns (parts: seq<seq<Operation>>)
    ensures exists keys :: Sorted(keys) && PartsOf(h, keys, parts)
    ensures (forall i :: 0 <= i < |parts| ==> Check(parts[i]).0) <==> StoreExplains(h)
  {
    var m := Group(h);
    var keys := SortKeys(m.Keys);
    parts := [];
    for i := 0 to |keys|
      invariant |parts| == i && forall j :: 0 <= j < i ==> parts[j] == Project(h, keys[j])
    {
      assert keys[i] in keys;
      parts := parts + [m[keys[i]]];
    }
    assert forall key :: key in keys <==> Touches(h, key);
    assert PartsOf(h, keys, parts);
    PartsDecide(h, keys);
    PartitionSound(h);
    assert forall i :: 0 <= i < |parts| ==> parts[i] == Project(h, keys[i]);
  }

  ghost predicate PartsOf(h: seq<Operation>, keys: seq<string>, parts: seq<seq<Operation>>) {
    && |parts| == |keys|
    && (forall key :: key in keys <==> Touches(h, key))
    && (forall i :: 0 <= i < |keys| ==> parts[i] == Project(h, keys[i]))
  }
}
