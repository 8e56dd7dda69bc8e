/**
 The conversation pool (internal/session/pool.go): a map, an order slice, a time to live and a cap.
 The clock is passed in; each method reads it as often as the program does.
*/
module Pool {
  import opened Wrappers

  /** The fields of an entry. */
  datatype Data = Data(
    sessionID: string, agentID: string, model: string, mode: string, workspace: string,
    promptHash: string, lastSentAt: int, messageCount: int)

  /** `removals` and `clock` are histories: how many entries expiry and agent mismatch have deleted,
      and the latest clock reading. */
  datatype State = State(ttl: int, max: nat, entries: map<string, Data>, order: seq<string>, removals: nat, clock: int)

  datatype Op =
    | Get(id: string, agentID: string, now: int, later: int)
    | Put(id: string, data: Data, now: int)      // data.lastSentAt is the second clock reading
    | Delete(id: string)
    | InvalidateAll

  const THIRTY_MINUTES := 1800

  function Init(ttl: int, maxEntries: int, clock: int): State {
    State(if ttl <= 0 then THIRTY_MINUTES else ttl, if maxEntries <= 0 then 256 else maxEntries, map[], [], 0, clock)
  }

  predicate Expired(s: State, d: Data, now: int) {
    now - d.lastSentAt > s.ttl
  }

  /** The entries without those that `gone` names; the order slice keeps their ids. */
  function Drop(s: State, gone: set<string>): State
    requires gone <= s.entries.Keys
  {
    s.(entries := s.entries - gone, removals := s.removals + |gone|)
  }

  function ExpiredIds(s: State, now: int): set<string> {
    set id | id in s.entries && Expired(s, s.entries[id], now)
  }

  /** evictLocked */
  function Evict(s: State, now: int): State {
    Drop(s, ExpiredIds(s, now)).(clock := now)
  }

  /** Without the first occurrence of `id`. */
  function Without(order: seq<string>, id: string): seq<string> {
    if order == [] then []
    else if order[0] == id then order[1..]
    else [order[0]] + Without(order[1..], id)
  }

  predicate Mismatch(d: Data, agentID: string) {
    agentID != "" && d.agentID != "" && d.agentID != agentID
  }

  predicate Found(s: State, op: Op)
    requires op.Get?
  {
    var s1 := Evict(s, op.now);
    op.id != "" && op.id in s1.entries
    && !Expired(s1, s1.entries[op.id], op.later) && !Mismatch(s1.entries[op.id], op.agentID)
  }

  /** The id that a Put evicts for capacity: the head of the order slice, whether or not it is live. */
  function Victim(s: State, op: Op): Option<string> {
    if !op.Put? || op.id == "" || op.data.sessionID == "" then None
    else
      var s1 := Evict(s, op.now);
      if |s1.entries[op.id := op.data]| > s.max then Some((Without(s1.order, op.id) + [op.id])[0]) else None
  }

  function Step(s: State, op: Op): State {
    match op
    case Get(id, agentID, now, later) =>
      if id == "" then s
      else
        var s1 := Evict(s, now).(clock := later);
        if id in s1.entries && !Found(s, op) then Drop(s1, {id}) else s1
    case Put(id, data, now) =>
      if id == "" || data.sessionID == "" then s
      else
        var s1 := Evict(s, now).(clock := data.lastSentAt);
        var s2 := s1.(entries := s1.entries[id := data], order := Without(s1.order, id) + [id]);
        if Victim(s, op).Some? then s2.(entries := s2.entries - {s2.order[0]}, order := s2.order[1..]) else s2
    case Delete(id) =>
      if id == "" then s else s.(entries := s.entries - {id}, order := Without(s.order, id))
    case InvalidateAll => s.(entries := map[], order := [])
  }

  /** The clock does not go back. */
  predicate Timely(s: State, op: Op) {
    match op
    case Get(_, _, now, later) => s.clock <= now <= later
    case Put(_, data, now) => s.clock <= now <= data.lastSentAt
    case _ => true
  }

  function Run(s: State, ops: seq<Op>): State {
    if ops == [] then s else Step(Run(s, ops[..|ops| - 1]), ops[|ops| - 1])
  }

  ghost predicate TimelyRun(s: State, ops: seq<Op>) {
    forall k :: 0 <= k < |ops| ==> Timely(Run(s, ops[..k]), ops[k])
  }

  lemma RunSnoc(s: State, ops: seq<Op>, op: Op)
    ensures Run(s, ops + [op]) == Step(Run(s, ops), op)
    ensures TimelyRun(s, ops + [op]) <==> TimelyRun(s, ops) && Timely(Run(s, ops), op)
  {
    assert (ops + [op])[..|ops|] == ops;
    assert forall k :: 0 <= k < |ops| ==> (ops + [op])[..k] == ops[..k];
    if TimelyRun(s, ops + [op]) {
      assert Timely(Run(s, (ops + [op])[..|ops|]), (ops + [op])[|ops|]);
      forall k | 0 <= k < |ops| ensures Timely(Run(s, ops[..k]), ops[k]) {
        assert Timely(Run(s, (ops + [op])[..k]), (ops + [op])[k]);
      }
    }
  }

  // ---- The order slice ----

  predicate NoDuplicates(order: seq<string>) {
    forall i, j :: 0 <= i < j < |order| ==> order[i] != order[j]
  }

  lemma {:induction false} WithoutMembers(order: seq<string>, id: string, x: string)
    requires NoDuplicates(order)
    ensures x in Without(order, id) <==> x in order && x != id
  {
    if order != [] {
      assert order == [order[0]] + order[1..];
      if order[0] != id { WithoutMembers(order[1..], id, x); }
    }
  }

  lemma {:induction false} WithoutDistinct(order: seq<string>, id: string)
    requires NoDuplicates(order)
    ensures NoDuplicates(Without(order, id))
    ensures |Without(order, id)| == |order| - (if id in order then 1 else 0)
  {
    if order != [] && order[0] != id {
      var rest := Without(order[1..], id);
      WithoutDistinct(order[1..], id);
      WithoutMembers(order[1..], id, order[0]);
      assert forall j :: 0 <= j < |rest| ==> rest[j] in rest;
      assert order == [order[0]] + order[1..];
    }
  }

  lemma WithoutSpec(order: seq<string>, id: string)
    requires NoDuplicates(order)
    ensures NoDuplicates(Without(order, id)) && id !in Without(order, id)
    ensures forall x :: x != id ==> (x in Without(order, id) <==> x in order)
    ensures |Without(order, id)| == |order| - (if id in order then 1 else 0)
  {
    WithoutDistinct(order, id);
    forall x ensures x in Without(order, id) <==> x in order && x != id { WithoutMembers(order, id, x); }
  }

  /** Distinct ids that are all on the slice are no more than the slice is long. */
  lemma {:induction false} KeysFitOrder(keys: set<string>, order: seq<string>)
    requires forall id :: id in keys ==> id in order
    ensures |keys| <= |order|
  {
    if order == [] {
      assert keys == {};
    } else {
      forall id | id in keys - {order[0]} ensures id in order[1..] {
        assert order == [order[0]] + order[1..];
      }
      KeysFitOrder(keys - {order[0]}, order[1..]);
      RemoveOne(keys, order[0]);
    }
  }

  lemma RemoveOne(keys: set<string>, id: string)
    ensures |keys - {id}| == |keys| - (if id in keys then 1 else 0)
  {
    if id in keys { assert keys == (keys - {id}) + {id}; } else { assert keys - {id} == keys; }
  }

  lemma EntriesRemove(m: map<string, Data>, gone: set<string>)
    requires gone <= m.Keys
    ensures |m - gone| == |m| - |gone|
  {
    assert (m - gone).Keys == m.Keys - gone;
    assert m.Keys == (m.Keys - gone) + gone;
    assert |(m - gone).Keys| + |gone| == |m.Keys|;
  }

  // ---- The soft bound ----

  ghost predicate Inv(s: State) {
    && s.max > 0
    && NoDuplicates(s.order)
    && (forall id :: id in s.entries ==> id in s.order)
    && |s.order| <= |s.entries| + s.removals
    && |s.order| <= s.max + s.removals
  }

  lemma DropKeeps(s: State, gone: set<string>)
    requires Inv(s) && gone <= s.entries.Keys
    ensures Inv(Drop(s, gone)) && |Drop(s, gone).entries| == |s.entries| - |gone|
  {
    EntriesRemove(s.entries, gone);
  }

  lemma PutKeeps(s: State, id: string, data: Data)
    requires Inv(s)
    ensures var s2 := s.(entries := s.entries[id := data], order := Without(s.order, id) + [id]);
      && NoDuplicates(s2.order) && (forall x :: x in s2.entries ==> x in s2.order)
      && |s2.order| <= |s2.entries| + s2.removals
      && |s2.order| <= s.max + s.removals + 1
      && s2.order != []
      && s2.order[|s2.order| - 1] == id
      && (|s2.entries| > s.max ==> |s2.order| > 1)
  {
    WithoutSpec(s.order, id);
    var order := Without(s.order, id) + [id];
    forall x | x in s.entries[id := data] ensures x in order {
      if x == id { assert order[|order| - 1] == id; } else { assert x in Without(s.order, id); }
    }
    var keys := s.entries[id := data].Keys;
    assert keys == s.entries.Keys + {id};
    RemoveOne(keys, id);
    if id !in s.entries { assert keys - {id} == s.entries.Keys; } else { assert keys == s.entries.Keys; }
    assert |s.entries[id := data]| == |keys|;
    if id in s.entries { assert id in s.order; }
    KeysFitOrder(keys, order);
  }

  lemma EvictOldestKeeps(s: State)
    requires NoDuplicates(s.order) && (forall x :: x in s.entries ==> x in s.order)
    requires |s.order| <= |s.entries| + s.removals && |s.order| <= s.max + s.removals + 1 && s.order != [] && s.max > 0
    ensures Inv(s.(entries := s.entries - {s.order[0]}, order := s.order[1..]))
  {
    var head, rest := s.order[0], s.order[1..];
    assert s.order == [head] + rest;
    RemoveOne(s.entries.Keys, head);
    assert (s.entries - {head}).Keys == s.entries.Keys - {head};
    assert |s.entries - {head}| == |(s.entries - {head}).Keys|;
    forall x | x in s.entries - {head} ensures x in rest {
      assert x in s.order && x != head;
    }
  }

  lemma DeleteKeeps(s: State, id: string)
    requires Inv(s)
    ensures Inv(s.(entries := s.entries - {id}, order := Without(s.order, id)))
  {
    WithoutSpec(s.order, id);
    assert (s.entries - {id}).Keys == s.entries.Keys - {id};
    assert |s.entries - {id}| == |(s.entries - {id}).Keys|;
    RemoveOne(s.entries.Keys, id);
    forall x | x in s.entries - {id} ensures x in Without(s.order, id) {
      assert x in s.order;
    }
  }

  /** A Put before the capacity check. */
  function Inserted(s: State, id: string, data: Data, now: int): State {
    var s1 := Evict(s, now).(clock := data.lastSentAt);
    s1.(entries := s1.entries[id := data], order := Without(s1.order, id) + [id])
  }

  lemma PutStep(s: State, op: Op)
    requires op.Put? && op.id != "" && op.data.sessionID != ""
    ensures var s2 := Inserted(s, op.id, op.data, op.now);
      && (Victim(s, op).Some? <==> |s2.entries| > s.max)
      && (Victim(s, op).Some? ==>
            && Victim(s, op).value == s2.order[0]
            && Step(s, op) == s2.(entries := s2.entries - {s2.order[0]}, order := s2.order[1..]))
      && (Victim(s, op).None? ==> Step(s, op) == s2)
  {
  }

  lemma InvPut(s: State, op: Op)
    requires Inv(s) && op.Put? && op.id != "" && op.data.sessionID != ""
    ensures Inv(Step(s, op))
  {
    PutStep(s, op);
    InsertedOk(s, op.id, op.data, op.now);
    if Victim(s, op).Some? { EvictOldestKeeps(Inserted(s, op.id, op.data, op.now)); }
  }

  lemma InsertedOk(s: State, id: string, data: Data, now: int)
    requires Inv(s)
    ensures var s2 := Inserted(s, id, data, now);
      && s2.max > 0 && NoDuplicates(s2.order) && (forall x :: x in s2.entries ==> x in s2.order)
      && |s2.order| <= |s2.entries| + s2.removals
      && |s2.order| <= s2.max + s2.removals + 1
      && s2.order != [] && s2.order[|s2.order| - 1] == id
      && (|s2.entries| > s2.max ==> |s2.order| > 1)
  {
    DropKeeps(s, ExpiredIds(s, now));
    PutKeeps(Evict(s, now).(clock := data.lastSentAt), id, data);
  }

  /** The eviction of a Put never hits the id that was just put. */
  lemma EvictionSparesTheNewEntry(s: State, op: Op)
    requires Inv(s) && op.Put? && op.id != "" && op.data.sessionID != ""
    ensures Victim(s, op) != Some(op.id)
    ensures op.id in Step(s, op).entries && Step(s, op).entries[op.id] == op.data
  {
    PutStep(s, op);
    InsertedOk(s, op.id, op.data, op.now);
  }

  lemma InvGet(s: State, op: Op)
    requires Inv(s) && op.Get? && op.id != ""
    ensures Inv(Step(s, op))
  {
    DropKeeps(s, ExpiredIds(s, op.now));
    var s1 := Evict(s, op.now).(clock := op.later);
    if op.id in s1.entries { DropKeeps(s1, {op.id}); }
  }

  lemma InvStep(s: State, op: Op)
    requires Inv(s)
    ensures Inv(Step(s, op))
  {
    match op
    case Get(id, _, _, _) => if id != "" { InvGet(s, op); }
    case Put(id, data, _) => if id != "" && data.sessionID != "" { InvPut(s, op); }
    case Delete(id) => DeleteKeeps(s, id);
    case InvalidateAll =>
  }

  lemma {:induction false} InvRun(s: State, ops: seq<Op>)
    requires Inv(s)
    ensures Inv(Run(s, ops))
  {
    if ops != [] {
      InvRun(s, ops[..|ops| - 1]);
      InvStep(Run(s, ops[..|ops| - 1]), ops[|ops| - 1]);
    }
  }

  /** Every run: the slice has no duplicates and holds every key; it is no longer than the cap plus the
      number of removals by expiry or agent mismatch, and so is the map; without such removals the cap
      is hard. */
  lemma SoftBound(ttl: int, maxEntries: int, clock: int, ops: seq<Op>)
    ensures var s := Run(Init(ttl, maxEntries, clock), ops);
      && NoDuplicates(s.order)
      && (forall id :: id in s.entries ==> id in s.order)
      && |s.entries| <= |s.order| <= s.max + s.removals
      && (s.removals == 0 ==> |s.entries| <= s.max)
  {
    InvRun(Init(ttl, maxEntries, clock), ops);
    KeysFitOrder(Run(Init(ttl, maxEntries, clock), ops).entries.Keys, Run(Init(ttl, maxEntries, clock), ops).order);
  }

  /** Exactly when a Put leaves the map within the cap: when it was within it before the check, or when
      it was one over and the head of the slice, which is what the check evicts, is live. */
  lemma CapHoldsExactlyWhen(s: State, op: Op)
    requires Inv(s) && op.Put? && op.id != "" && op.data.sessionID != ""
    ensures var s2 := Inserted(s, op.id, op.data, op.now);
      |Step(s, op).entries| <= s.max <==>
        |s2.entries| <= s.max || (|s2.entries| == s.max + 1 && s2.order != [] && s2.order[0] in s2.entries)
  {
    PutStep(s, op);
    InsertedOk(s, op.id, op.data, op.now);
    var s2 := Inserted(s, op.id, op.data, op.now);
    RemoveOne(s2.entries.Keys, s2.order[0]);
    assert (s2.entries - {s2.order[0]}).Keys == s2.entries.Keys - {s2.order[0]};
    assert |s2.entries - {s2.order[0]}| == |(s2.entries - {s2.order[0]}).Keys|;
  }

  function At(sessionID: string, time: int): Data {
    Data(sessionID, "", "", "", "", "", time, 1)
  }

  lemma SoftStep1(s: State)
    requires s == State(1800, 1, map[], [], 0, 0)
    ensures Step(s, Put("a", At("x", 0), 0)) == State(1800, 1, map["a" := At("x", 0)], ["a"], 0, 0)
  {
    assert ExpiredIds(s, 0) == {};
    assert Without([], "a") == [];
  }

  lemma SoftStep2(s: State)
    requires s == State(1800, 1, map["a" := At("x", 0)], ["a"], 0, 0)
    ensures Step(s, Put("b", At("y", 2000), 2000)) == State(1800, 1, map["b" := At("y", 2000)], ["a", "b"], 1, 2000)
  {
    assert ExpiredIds(s, 2000) == {"a"};
    assert Without(["a"], "b") == ["a"];
    var m := s.entries - {"a"};
    assert m == map[];
    assert |m["b" := At("y", 2000)]| == 1;
  }

  lemma SoftStep3(s: State)
    requires s == State(1800, 1, map["b" := At("y", 2000)], ["a", "b"], 1, 2000)
    ensures Step(s, Put("c", At("z", 2001), 2001))
         == State(1800, 1, map["b" := At("y", 2000), "c" := At("z", 2001)], ["b", "c"], 1, 2001)
  {
    assert ExpiredIds(s, 2001) == {};
    assert s.entries - {} == s.entries;
    assert Without(["a", "b"], "c") == ["a", "b"] by { assert ["a", "b"][1..] == ["b"]; }
    var m := s.entries["c" := At("z", 2001)];
    assert m.Keys == {"b", "c"};
    assert |m| == 2;
    assert m - {"a"} == m;
  }

  lemma SoftRun2()
    ensures var ops := [Put("a", At("x", 0), 0)] + [Put("b", At("y", 2000), 2000)];
      && TimelyRun(Init(0, 1, 0), ops)
      && Run(Init(0, 1, 0), ops) == State(1800, 1, map["b" := At("y", 2000)], ["a", "b"], 1, 2000)
  {
    var s0 := Init(0, 1, 0);
    var p0 := Put("a", At("x", 0), 0);
    SoftStep1(s0);
    SoftStep2(Step(s0, p0));
    RunOn(s0, [], p0, s0);
    assert [] + [p0] == [p0];
    RunOn(s0, [p0], Put("b", At("y", 2000), 2000), Step(s0, p0));
  }

  /** The cap is soft: an expired entry leaves its id on the slice, a later Put evicts that id, and two
      entries live in a pool of one. */
  lemma CapIsSoft()
    ensures var ops := [Put("a", At("x", 0), 0)] + [Put("b", At("y", 2000), 2000)] + [Put("c", At("z", 2001), 2001)];
      && TimelyRun(Init(0, 1, 0), ops)
      && |Run(Init(0, 1, 0), ops).entries| == 2 > Run(Init(0, 1, 0), ops).max
  {
    var ops := [Put("a", At("x", 0), 0)] + [Put("b", At("y", 2000), 2000)];
    var s2 := State(1800, 1, map["b" := At("y", 2000)], ["a", "b"], 1, 2000);
    SoftRun2();
    SoftStep3(s2);
    RunOn(Init(0, 1, 0), ops, Put("c", At("z", 2001), 2001), s2);
    var entries := map["b" := At("y", 2000), "c" := At("z", 2001)];
    assert entries.Keys == {"b", "c"};
    assert |entries| == |{"b", "c"}|;
  }

  lemma RunOn(s: State, ops: seq<Op>, op: Op, mid: State)
    requires Run(s, ops) == mid && TimelyRun(s, ops) && Timely(mid, op)
    ensures Run(s, ops + [op]) == Step(mid, op)
    ensures TimelyRun(s, ops + [op])
  {
    RunSnoc(s, ops, op);
  }

  // ---- Least recently put ----

  predicate Sorted(entries: map<string, Data>, order: seq<string>) {
    forall i, j :: 0 <= i < j < |order| && order[i] in entries && order[j] in entries ==>
      entries[order[i]].lastSentAt <= entries[order[j]].lastSentAt
  }

  ghost predicate Ordered(s: State) {
    && Sorted(s.entries, s.order)
    && (forall id :: id in s.entries ==> s.entries[id].lastSentAt <= s.clock)
  }

  lemma {:induction false} WithoutSorted(entries: map<string, Data>, order: seq<string>, id: string)
    requires NoDuplicates(order) && Sorted(entries, order)
    ensures Sorted(entries, Without(order, id))
  {
    if order != [] && order[0] != id {
      var head, rest := order[0], Without(order[1..], id);
      WithoutSorted(entries, order[1..], id);
      forall j | 0 <= j < |rest| && head in entries && rest[j] in entries
        ensures entries[head].lastSentAt <= entries[rest[j]].lastSentAt
      {
        WithoutMembers(order[1..], id, rest[j]);
        var k :| 0 <= k < |order[1..]| && order[1..][k] == rest[j];
        assert order[k + 1] == rest[j];
      }
    }
  }

  lemma OrderedPut(s: State, id: string, data: Data)
    requires Inv(s) && Ordered(s) && s.clock <= data.lastSentAt
    ensures Ordered(s.(entries := s.entries[id := data], order := Without(s.order, id) + [id], clock := data.lastSentAt))
  {
    WithoutSorted(s.entries, s.order, id);
    WithoutSpec(s.order, id);
    var rest := Without(s.order, id);
    assert forall k :: 0 <= k < |rest| ==> rest[k] in rest;
  }

  lemma OrderedEvict(s: State, now: int)
    requires Ordered(s) && s.clock <= now
    ensures Ordered(Evict(s, now))
  {
  }

  lemma OrderedInserted(s: State, op: Op)
    requires Inv(s) && Ordered(s) && op.Put? && s.clock <= op.now <= op.data.lastSentAt
    ensures Ordered(Inserted(s, op.id, op.data, op.now))
  {
    OrderedEvict(s, op.now);
    DropKeeps(s, ExpiredIds(s, op.now));
    OrderedPut(Evict(s, op.now), op.id, op.data);
  }

  lemma OrderedTail(s: State)
    requires Ordered(s) && s.order != []
    ensures Ordered(s.(entries := s.entries - {s.order[0]}, order := s.order[1..]))
  {
  }

  lemma OrderedStep(s: State, op: Op)
    requires Inv(s) && Ordered(s) && Timely(s, op)
    ensures Ordered(Step(s, op))
  {
    match op
    case Get(_, _, now, _) => OrderedEvict(s, now);
    case Put(id, data, now) =>
      if id != "" && data.sessionID != "" {
        OrderedInserted(s, op);
        PutStep(s, op);
        if Victim(s, op).Some? { OrderedTail(Inserted(s, id, data, now)); }
      }
    case Delete(id) => WithoutSorted(s.entries, s.order, id);
    case InvalidateAll =>
  }

  lemma {:induction false} OrderedRun(s: State, ops: seq<Op>)
    requires Inv(s) && Ordered(s) && TimelyRun(s, ops)
    ensures Inv(Run(s, ops)) && Ordered(Run(s, ops))
  {
    if ops != [] {
      var n := |ops| - 1;
      assert forall k :: 0 <= k < n ==> ops[..n][..k] == ops[..k];
      OrderedRun(s, ops[..n]);
      InvStep(Run(s, ops[..n]), ops[n]);
      OrderedStep(Run(s, ops[..n]), ops[n]);
    }
  }

  lemma OldestFirst(s: State, id: string)
    requires Sorted(s.entries, s.order) && (forall x :: x in s.entries ==> x in s.order)
    requires s.order != [] && s.order[0] in s.entries && id in s.entries
    ensures s.entries[s.order[0]].lastSentAt <= s.entries[id].lastSentAt
  {
    assert id in s.order;
    var k :| 0 <= k < |s.order| && s.order[k] == id;
  }

  /** With a clock that does not go back, an eviction that hits a live entry hits the one that was put
      least recently. */
  lemma EvictsLeastRecentlyPut(ttl: int, maxEntries: int, clock: int, ops: seq<Op>, op: Op, id: string)
    requires TimelyRun(Init(ttl, maxEntries, clock), ops) && Timely(Run(Init(ttl, maxEntries, clock), ops), op)
    requires Victim(Run(Init(ttl, maxEntries, clock), ops), op).Some?
    ensures var s := Run(Init(ttl, maxEntries, clock), ops);
      var live := Inserted(s, op.id, op.data, op.now).entries;
      var victim := Victim(s, op).value;
      victim in live && id in live ==> live[victim].lastSentAt <= live[id].lastSentAt
  {
    var s := Run(Init(ttl, maxEntries, clock), ops);
    OrderedRun(Init(ttl, maxEntries, clock), ops);
    OrderedInserted(s, op);
    InsertedOk(s, op.id, op.data, op.now);
    PutStep(s, op);
    var s2 := Inserted(s, op.id, op.data, op.now);
    if s2.order[0] in s2.entries && id in s2.entries { OldestFirst(s2, id); }
  }

  // ---- The pool as a history ----

  /** Does `op`, coming in state `s`, end the life of the entry `d` of `id`? It expires, is replaced,
      deleted, invalidated, asked for by another agent, or evicted. */
  predicate Kills(s: State, op: Op, id: string, d: Data) {
    match op
    case Put(i, data, now) =>
      i != "" && data.sessionID != "" && (i == id || Expired(s, d, now) || Victim(s, op) == Some(id))
    case Get(i, agentID, now, later) =>
      i != "" && (Expired(s, d, now) || (i == id && (Expired(s, d, later) || Mismatch(d, agentID))))
    case Delete(i) => i == id && i != ""
    case InvalidateAll => true
  }

  predicate Puts(op: Op, id: string, d: Data) {
    op.Put? && op.id == id && op.data == d && id != "" && d.sessionID != ""
  }

  predicate Has(s: State, id: string, d: Data) {
    id in s.entries && s.entries[id] == d
  }

  lemma HasPut(s: State, op: Op, id: string, d: Data)
    requires Inv(s) && op.Put? && op.id != "" && op.data.sessionID != ""
    ensures Has(Step(s, op), id, d) <==> Puts(op, id, d) || (Has(s, id, d) && !Kills(s, op, id, d))
  {
    PutStep(s, op);
    EvictionSparesTheNewEntry(s, op);
  }

  lemma HasStep(s: State, op: Op, id: string, d: Data)
    requires Inv(s)
    ensures Has(Step(s, op), id, d) <==> Puts(op, id, d) || (Has(s, id, d) && !Kills(s, op, id, d))
  {
    if op.Put? && op.id != "" && op.data.sessionID != "" { HasPut(s, op, id, d); }
  }

  ghost predicate LivesSince(s: State, ops: seq<Op>, k: int, id: string, d: Data) {
    forall j :: 0 <= j < |ops| && k < j ==> !Kills(Run(s, ops[..j]), ops[j], id, d)
  }

  /** Some Put of the history put `d` under `id`, and nothing since has ended its life. */
  ghost predicate Survives(s: State, ops: seq<Op>, id: string, d: Data) {
    exists k :: 0 <= k < |ops| && Puts(ops[k], id, d) && LivesSince(s, ops, k, id, d)
  }

  lemma LivesSnoc(s: State, ops: seq<Op>, op: Op, k: nat, id: string, d: Data)
    requires k < |ops|
    ensures LivesSince(s, ops + [op], k, id, d) <==> LivesSince(s, ops, k, id, d) && !Kills(Run(s, ops), op, id, d)
  {
    var all := ops + [op];
    assert all[..|ops|] == ops && all[|ops|] == op;
    assert forall j :: 0 <= j < |ops| ==> all[..j] == ops[..j] && all[j] == ops[j];
    if LivesSince(s, all, k, id, d) {
      assert !Kills(Run(s, all[..|ops|]), all[|ops|], id, d);
      forall j | 0 <= j < |ops| && k < j ensures !Kills(Run(s, ops[..j]), ops[j], id, d) {
        assert !Kills(Run(s, all[..j]), all[j], id, d);
      }
    }
  }

  lemma SurvivesSnoc(s: State, ops: seq<Op>, op: Op, id: string, d: Data)
    ensures Survives(s, ops + [op], id, d) <==>
      Puts(op, id, d) || (Survives(s, ops, id, d) && !Kills(Run(s, ops), op, id, d))
  {
    var all := ops + [op];
    if Puts(op, id, d) {
      assert Puts(all[|ops|], id, d) && LivesSince(s, all, |ops|, id, d);
    } else {
      if Survives(s, all, id, d) {
        var k :| 0 <= k < |all| && Puts(all[k], id, d) && LivesSince(s, all, k, id, d);
        LivesSnoc(s, ops, op, k, id, d);
        assert Puts(ops[k], id, d);
      }
      if Survives(s, ops, id, d) && !Kills(Run(s, ops), op, id, d) {
        var k :| 0 <= k < |ops| && Puts(ops[k], id, d) && LivesSince(s, ops, k, id, d);
        LivesSnoc(s, ops, op, k, id, d);
        assert Puts(all[k], id, d);
      }
    }
  }

  /** The map of every reachable state is what the history says: it holds `d` under `id` if and only if
      some Put put it there and nothing since has ended its life. */
  lemma {:induction false} PoolIsItsHistory(ttl: int, maxEntries: int, clock: int, ops: seq<Op>, id: string, d: Data)
    ensures Has(Run(Init(ttl, maxEntries, clock), ops), id, d) <==> Survives(Init(ttl, maxEntries, clock), ops, id, d)
    decreases |ops|
  {
    var s0 := Init(ttl, maxEntries, clock);
    if ops != [] {
      var n := |ops| - 1;
      PoolIsItsHistory(ttl, maxEntries, clock, ops[..n], id, d);
      InvRun(s0, ops[..n]);
      HasStep(Run(s0, ops[..n]), ops[n], id, d);
      SurvivesSnoc(s0, ops[..n], ops[n], id, d);
      assert ops[..n] + [ops[n]] == ops;
    }
  }

  /** So Get finds `d` exactly when the history holds it and this very Get does not end its life. */
  lemma GetAgreesWithHistory(ttl: int, maxEntries: int, clock: int, ops: seq<Op>, op: Op, d: Data)
    requires op.Get? && op.id != ""
    ensures var s := Run(Init(ttl, maxEntries, clock), ops);
      (Found(s, op) && s.entries[op.id] == d) <==>
        Survives(Init(ttl, maxEntries, clock), ops, op.id, d) && !Kills(s, op, op.id, d)
  {
    PoolIsItsHistory(ttl, maxEntries, clock, ops, op.id, d);
  }

  // ---- The same on the fields ----

  /** May this entry go to a caller that names this agent? An empty id on either side stands for any agent. */
  predicate MayHave(d: Data, agentID: string) {
    agentID == "" || d.agentID == "" || agentID == d.agentID
  }

  /** Get, entry by entry: what has outlived the time to live at the first clock reading goes; of the rest only the
      one asked for can go, and it does exactly if it is too old at the second reading or of another agent. Whatever
      goes is counted as removed. Nothing else changes. */
  lemma GetOnFields(s: State, op: Op)
    requires op.Get? && op.id != ""
    ensures var t := Step(s, op);
      && (forall i :: i in t.entries <==>
            && i in s.entries && op.now - s.entries[i].lastSentAt <= s.ttl
            && (i == op.id ==> op.later - s.entries[i].lastSentAt <= s.ttl && MayHave(s.entries[i], op.agentID)))
      && (forall i :: i in t.entries ==> t.entries[i] == s.entries[i])
      && t.removals == s.removals + |s.entries| - |t.entries|
      && t.order == s.order && t.ttl == s.ttl && t.max == s.max
  {
    var s1 := Evict(s, op.now);
    EntriesRemove(s.entries, ExpiredIds(s, op.now));
    if op.id in s1.entries { EntriesRemove(s1.entries, {op.id}); }
  }

  /** The ids of the entries that have not outlived the time to live. */
  function Young(s: State, now: int): set<string> {
    set i | i in s.entries && now - s.entries[i].lastSentAt <= s.ttl
  }

  lemma InsertedOnFields(s: State, op: Op)
    requires Inv(s) && op.Put?
    ensures var s2 := Inserted(s, op.id, op.data, op.now);
      && s2.entries.Keys == Young(s, op.now) + {op.id} && |s2.entries| == |Young(s, op.now) + {op.id}|
      && s2.entries[op.id] == op.data
      && (forall i :: i in Young(s, op.now) && i != op.id ==> s2.entries[i] == s.entries[i])
      && s2.removals == s.removals + |s.entries| - |Young(s, op.now)|
      && s2.ttl == s.ttl && s2.max == s.max && s2.order == Without(s.order, op.id) + [op.id]
  {
    var s1, s2 := Evict(s, op.now), Inserted(s, op.id, op.data, op.now);
    EntriesRemove(s.entries, ExpiredIds(s, op.now));
    assert s1.entries.Keys == Young(s, op.now);
    assert |s1.entries| == |s1.entries.Keys|;
    assert s2.entries.Keys == Young(s, op.now) + {op.id};
    assert |s2.entries| == |s2.entries.Keys|;
  }

  /** Put, entry by entry: the new entry is stored as given, and its id is the last on the slice; of the others those
      go that have outlived the time to live, and, if that leaves more entries than the cap, the one at the head of
      the slice without the new id. */
  lemma PutOnFields(s: State, op: Op, i: string)
    requires Inv(s) && op.Put? && op.id != "" && op.data.sessionID != "" && i != op.id
    ensures var t := Step(s, op);
      && op.id in t.entries && t.entries[op.id] == op.data
      && t.order != [] && t.order[|t.order| - 1] == op.id
      && (i in t.entries ==> i in s.entries && t.entries[i] == s.entries[i])
      && (i in t.entries <==>
            && i in s.entries && op.now - s.entries[i].lastSentAt <= s.ttl
            && (|Young(s, op.now) + {op.id}| <= s.max || !([i] <= s.order || [op.id, i] <= s.order)))
      && t.removals == s.removals + |s.entries| - |Young(s, op.now)|
      && t.ttl == s.ttl && t.max == s.max
  {
    EvictionSparesTheNewEntry(s, op);
    InsertedOk(s, op.id, op.data, op.now);
    InsertedOnFields(s, op);
    PutStep(s, op);
    HeadWithout(s.order, op.id, i);
  }

  /** The head of the slice behind `id`'s own place. */
  lemma HeadWithout(order: seq<string>, id: string, i: string)
    requires NoDuplicates(order) && i != id
    ensures (Without(order, id) + [id])[0] == i <==> [i] <= order || [id, i] <= order
  {
    if order != [] && order[0] == id && |order| > 1 {
      assert Without(order, id) == order[1..];
      assert order[0] != order[1];
    }
  }

  /** Over every history: an entry that a Get leaves in the pool under the id it asks for, which is when it returns it,
      was put under this id by some Put. It is not too old at either clock reading, this Get's agent may have it, and
      since that Put nothing has put anything else there, deleted it, invalidated the pool, or asked for it as an agent
      that may not have it. */
  lemma HandedOutIsYoungAndOwn(ttl: int, maxEntries: int, clock: int, ops: seq<Op>, op: Op)
    requires op.Get? && op.id != "" && op.id in Step(Run(Init(ttl, maxEntries, clock), ops), op).entries
    ensures var d := Step(Run(Init(ttl, maxEntries, clock), ops), op).entries[op.id];
      var limit := if ttl <= 0 then 1800 else ttl;
      && op.now - d.lastSentAt <= limit && op.later - d.lastSentAt <= limit
      && (op.agentID == "" || d.agentID == "" || op.agentID == d.agentID)
      && exists k :: 0 <= k < |ops| && ops[k].Put? && ops[k].id == op.id && ops[k].data == d &&
           Untouched(ops[k + 1..], op.id, d)
  {
    var s := Run(Init(ttl, maxEntries, clock), ops);
    GetOnFields(s, op);
    LimitsStay(Init(ttl, maxEntries, clock), ops);
    var d := s.entries[op.id];
    PoolIsItsHistory(ttl, maxEntries, clock, ops, op.id, d);
    assert Has(s, op.id, d);
    var k :| 0 <= k < |ops| && Puts(ops[k], op.id, d) && LivesSince(Init(ttl, maxEntries, clock), ops, k, op.id, d);
    var rest := ops[k + 1..];
    forall j | 0 <= j < |rest| ensures Spares(rest[j], op.id, d) {
      assert rest[j] == ops[k + 1 + j];
      assert !Kills(Run(Init(ttl, maxEntries, clock), ops[..k + 1 + j]), ops[k + 1 + j], op.id, d);
    }
    assert ops[k].data == d;
  }

  predicate Spares(op: Op, id: string, d: Data) {
    match op
    case Put(i, data, _) => i != id || data.sessionID == ""
    case Get(i, agentID, _, _) => i != id || MayHave(d, agentID)
    case Delete(i) => i != id
    case InvalidateAll => false
  }

  ghost predicate Untouched(ops: seq<Op>, id: string, d: Data) {
    forall j :: 0 <= j < |ops| ==> Spares(ops[j], id, d)
  }

  lemma {:induction false} LimitsStay(s: State, ops: seq<Op>)
    ensures Run(s, ops).ttl == s.ttl && Run(s, ops).max == s.max
  {
    if ops != [] { LimitsStay(s, ops[..|ops| - 1]); }
  }

  /** And exactly then: the entry of every history is there for a Get that comes in time and for an agent that may have
      it, and for no other. */
  lemma HandedOutExactlyWhen(ttl: int, maxEntries: int, clock: int, ops: seq<Op>, op: Op)
    requires op.Get? && op.id != ""
    ensures var s, limit := Run(Init(ttl, maxEntries, clock), ops), if ttl <= 0 then 1800 else ttl;
      op.id in Step(s, op).entries <==>
        && op.id in s.entries
        && op.now - s.entries[op.id].lastSentAt <= limit && op.later - s.entries[op.id].lastSentAt <= limit
        && (op.agentID == "" || s.entries[op.id].agentID == "" || op.agentID == s.entries[op.id].agentID)
  {
    GetOnFields(Run(Init(ttl, maxEntries, clock), ops), op);
    LimitsStay(Init(ttl, maxEntries, clock), ops);
  }

  // ---- The pool itself ----

  lemma {:induction false} WithoutSplit(order: seq<string>, id: string, i: nat)
    requires i <= |order| && (forall k :: 0 <= k < i ==> order[k] != id) && (i < |order| ==> order[i] == id)
    ensures Without(order, id) == if i < |order| then order[..i] + order[i + 1..] else order
  {
    if order != [] && i > 0 {
      WithoutSplit(order[1..], id, i - 1);
      if i < |order| { assert order[1..][i..] == order[i + 1..]; }
    }
  }

  /** An entry is filled in where it is made. No method of the pool has an entry in its frame, so one that
      Get has handed out stays as it was, whatever becomes of it in the pool. */
  class Entry {
    var d: Data

    constructor (d: Data)
      ensures this.d == d
    {
      this.d := d;
    }
  }

  class SessionPool {
    var entries: map<string, Entry>
    var order: seq<string>
    const ttl: int
    const max: nat
    ghost var removals: nat
    ghost var clock: int

    ghost function S(): State
      reads this, entries.Values
    {
      State(ttl, max, Contents(entries), order, removals, clock)
    }

    ghost static function Contents(entries: map<string, Entry>): map<string, Data>
      reads entries.Values
    {
      map id | id in entries :: entries[id].d
    }

    constructor (ttl: int, maxEntries: int, ghost clock: int)
      ensures S() == Init(ttl, maxEntries, clock)
      ensures this.ttl == (if ttl > 0 then ttl else 1800) && this.max == (if maxEntries > 0 then maxEntries else 256)
      ensures entries == map[] && order == [] && removals == 0
    {
      this.ttl := if ttl <= 0 then THIRTY_MINUTES else ttl;
      this.max := if maxEntries <= 0 then 256 else maxEntries;
      entries, order, removals := map[], [], 0;
      this.clock := clock;
      new;
      assert Contents(entries) == map[];
    }

    static lemma ContentsMinus(m: map<string, Entry>, gone: set<string>)
      ensures Contents(m - gone) == Contents(m) - gone
    {
    }

    static lemma ContentsPlus(m: map<string, Entry>, id: string, e: Entry)
      ensures Contents(m[id := e]) == Contents(m)[id := e.d]
    {
    }

    /** evictLocked: the loop deletes while it ranges over the map, in whatever order. */
    method EvictLocked(now: int)
      modifies this`entries, this`removals, this`clock
      ensures entries == old(entries) - ExpiredIds(old(S()), now)
      ensures S() == Evict(old(S()), now)
    {
      ghost var before, table := S(), entries;
      ghost var gone := ExpiredIds(before, now);
      var ids := entries.Keys;
      while ids != {}
        invariant ids <= table.Keys
        invariant entries == table - (gone - ids) && removals == old(removals)
        decreases ids
      {
        var id :| id in ids;
        assert id in entries;
        ids := ids - {id};
        if now - entries[id].d.lastSentAt > ttl {
          entries := entries - {id};
        }
      }
      assert gone - ids == gone;
      assert entries == table - gone;
      ContentsMinus(table, gone);
      removals := removals + |gone|;
      clock := now;
    }

    /** touchLocked */
    method TouchLocked(id: string)
      modifies this`order
      ensures order == Without(old(order), id) + [id]
    {
      for i := 0 to |order|
        invariant order == old(order) && forall k :: 0 <= k < i ==> order[k] != id
      {
        if order[i] == id {
          WithoutSplit(order, id, i);
          order := order[..i] + order[i + 1..] + [id];
          return;
        }
      }
      WithoutSplit(order, id, |order|);
      order := order + [id];
    }

    /** evictOldestLocked */
    method EvictOldestLocked()
      modifies this`entries, this`order
      ensures old(order) == [] ==> entries == old(entries) && order == []
      ensures old(order) != [] ==> entries == old(entries) - {old(order)[0]} && order == old(order)[1..]
    {
      if |order| == 0 { return; }
      entries := entries - {order[0]};
      order := order[1..];
    }

    method Get(id: string, agentID: string, now: int, later: int) returns (e: Entry?)
      modifies this`entries, this`removals, this`clock
      ensures S() == Step(old(S()), Op.Get(id, agentID, now, later))
      ensures e != null <==> Found(old(S()), Op.Get(id, agentID, now, later))
      ensures e != null ==> id in old(entries) && e == old(entries)[id] && id in entries && entries[id] == e
      ensures e != null ==>
        && now - e.d.lastSentAt <= ttl && later - e.d.lastSentAt <= ttl
        && (agentID == "" || e.d.agentID == "" || agentID == e.d.agentID)
      ensures e == null && id != "" ==> id !in entries
      ensures e == null && id != "" && id in old(entries) ==>
        var d := old(entries[id].d);
        || now - d.lastSentAt > ttl || later - d.lastSentAt > ttl
        || (agentID != "" && d.agentID != "" && agentID != d.agentID)
    {
      if id == "" { return null; }
      EvictLocked(now);
      e := Take(id, agentID, later);
    }

    /** Get, behind the eviction of what has expired. */
    method Take(id: string, agentID: string, later: int) returns (e: Entry?)
      modifies this`entries, this`removals, this`clock
      ensures var s1 := old(S()).(clock := later);
        && (e != null <==> id in s1.entries && !Expired(s1, s1.entries[id], later) && !Mismatch(s1.entries[id], agentID))
        && S() == if id in s1.entries && e == null then Drop(s1, {id}) else s1
      ensures e != null ==> id in old(entries) && e == old(entries)[id] && entries == old(entries)
    {
      clock := later;
      if id !in entries { return null; }
      e := entries[id];
      if later - e.d.lastSentAt > ttl || (agentID != "" && e.d.agentID != "" && e.d.agentID != agentID) {
        ContentsMinus(entries, {id});
        entries := entries - {id};
        removals := removals + |{id}|;
        return null;
      }
    }

    /** Put, up to the capacity check. */
    method Insert(id: string, data: Data, now: int)
      modifies this`entries, this`order, this`removals, this`clock
      ensures S() == Inserted(old(S()), id, data, now)
      ensures id in entries && fresh(entries[id])
      ensures forall i :: i in entries && i != id ==> i in old(entries) && entries[i] == old(entries)[i]
    {
      EvictLocked(now);
      var e := new Entry(data);
      ContentsPlus(entries, id, e);
      entries := entries[id := e];
      clock := data.lastSentAt;
      TouchLocked(id);
    }

    method Put(id: string, data: Data, now: int)
      requires Inv(S())
      modifies this`entries, this`order, this`removals, this`clock
      ensures S() == Step(old(S()), Op.Put(id, data, now))
      ensures forall i :: i in entries && i != id ==> i in old(entries) && entries[i] == old(entries)[i]
    {
      if id == "" || data.sessionID == "" { return; }
      InsertedOk(S(), id, data, now);
      PutStep(S(), Op.Put(id, data, now));
      Insert(id, data, now);
      EvictIfFull();
    }

    /** The capacity check that ends Put. */
    method EvictIfFull()
      requires order != []
      modifies this`entries, this`order
      ensures S() == if |old(S()).entries| > max
        then old(S()).(entries := old(S()).entries - {old(order)[0]}, order := old(order)[1..])
        else old(S())
      ensures forall i :: i in entries ==> i in old(entries) && entries[i] == old(entries)[i]
    {
      SameSize(entries, S().entries);
      if |entries| > max {
        ContentsMinus(entries, {order[0]});
        EvictOldestLocked();
      }
    }

    method Delete(id: string)
      modifies this`entries, this`order
      ensures S() == Step(old(S()), Op.Delete(id))
    {
      if id == "" { return; }
      ContentsMinus(entries, {id});
      entries := entries - {id};
      for i := 0 to |order|
        invariant order == old(order) && forall k :: 0 <= k < i ==> order[k] != id
      {
        if order[i] == id {
          WithoutSplit(order, id, i);
          order := order[..i] + order[i + 1..];
          return;
        }
      }
      WithoutSplit(order, id, |order|);
    }

    method InvalidateAll()
      modifies this`entries, this`order
      ensures S() == Step(old(S()), Op.InvalidateAll)
    {
      entries, order := map[], [];
      assert Contents(entries) == map[];
    }
  }

  lemma SameSize<K, V, W>(a: map<K, V>, b: map<K, W>)
    requires a.Keys == b.Keys
    ensures |a| == |b|
  {
    assert |a| == |a.Keys| && |b| == |b.Keys|;
  }
}
