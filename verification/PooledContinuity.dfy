/**
 Continuity over the pool itself: the entry of one conversation is what the pool's map holds under its id, the looks of a
 turn are Gets, its end is a Put or a Delete, and everything else that happens to the pool, on behalf of any conversation,
 either leaves that entry alone or removes it. So the results about runs of Continuity are results about the pool.
*/
module PooledContinuity {
  import opened Wrappers
  import C = Continuity
  import P = Prompt
  import Pool
  import T = TurnSession

  /** The conversation: its id, its agent, and the ids of its agent's sessions, in the order in which they were made. */
  datatype Key = Key(id: string, agentID: string, name: nat -> string)

  ghost predicate Fresh(k: Key) {
    && k.id != ""
    && (forall x: nat :: k.name(x) != "")
    && (forall x: nat, y: nat :: k.name(x) == k.name(y) ==> x == y)
  }

  /** `turns` is what Continuity says of the conversation while the pool is `pool`. */
  datatype State = State(pool: Pool.State, turns: C.State)

  /** The clock readings are those of the pool's methods; `data` is the entry that a turn puts. */
  datatype Event =
    | Ask(more: seq<P.Message>, now: int, later: int)
    | Choose(t: nat, workspace: string, now: int, later: int)
    | Send(t: nat)
    | Succeed(t: nat, data: Pool.Data, now: int)
    | Fail(t: nat, invalid: bool)
    | Other(op: Pool.Op)   // any other use of the pool

  /** The entry that the pool holds for the conversation is the one that Continuity speaks of. */
  predicate Agrees(k: Key, p: Pool.State, entry: Option<C.Entry>) {
    && (k.id in p.entries <==> entry.Some?)
    && (entry.Some? ==>
          && p.entries[k.id].sessionID == k.name(entry.value.session)
          && p.entries[k.id].messageCount == entry.value.count
          && p.entries[k.id].workspace == entry.value.workspace)
  }

  /** What a turn puts: its own session, the count of its request, its workspace. */
  predicate Puts(k: Key, turn: C.Turn, data: Pool.Data) {
    && turn.pc.Sent?
    && data.sessionID == k.name(turn.pc.session) && data.messageCount == turn.count && data.workspace == turn.workspace
  }

  predicate Enabled(k: Key, s: State, e: Event) {
    match e
    case Ask(more, _, _) => more != []
    case Choose(t, ws, _, _) => C.Enabled(s.turns, C.Choose(t, ws))
    case Send(t) => C.Enabled(s.turns, C.Send(t))
    case Succeed(t, data, _) => C.Enabled(s.turns, C.Succeed(t)) && Puts(k, s.turns.turns[t], data)
    case Fail(t, invalid) => C.Enabled(s.turns, C.Fail(t, invalid))
    case Other(op) => !(op.Put? && op.id == k.id)
  }

  /** The pool's operations behind an event. */
  function Looked(k: Key, p: Pool.State, now: int, later: int): Pool.State {
    Pool.Step(p, Pool.Get(k.id, k.agentID, now, later))
  }

  predicate WrongWorkspace(k: Key, p: Pool.State, ws: string) {
    k.id in p.entries && p.entries[k.id].workspace != "" && p.entries[k.id].workspace != ws
  }

  function PoolNext(k: Key, p: Pool.State, e: Event): Pool.State {
    match e
    case Ask(_, now, later) => Looked(k, p, now, later)
    case Choose(_, ws, now, later) => T.AfterChoice(p, k.id, k.agentID, ws, now, later)
    case Send(_) => p
    case Succeed(_, data, now) => Pool.Step(p, Pool.Put(k.id, data, now))
    case Fail(_, invalid) => if invalid then Pool.Step(p, Pool.Delete(k.id)) else p
    case Other(op) => Pool.Step(p, op)
  }

  /** A removal, if the entry went from p to p1. */
  function Removal(k: Key, p: Pool.State, p1: Pool.State): seq<C.Event> {
    if k.id in p.entries && k.id !in p1.entries then [C.Remove] else []
  }

  /** What Continuity sees of an event. */
  function Seen(k: Key, p: Pool.State, e: Event): seq<C.Event> {
    match e
    case Ask(more, now, later) => Removal(k, p, Looked(k, p, now, later)) + [C.Ask(more)]
    case Choose(t, ws, now, later) => Removal(k, p, Looked(k, p, now, later)) + [C.Choose(t, ws)]
    case Send(t) => [C.Send(t)]
    case Succeed(t, _, _) => [C.Succeed(t)]
    case Fail(t, invalid) => [C.Fail(t, invalid)]
    case Other(op) => Removal(k, p, Pool.Step(p, op))
  }

  function Removed(k: Key, p: Pool.State, p1: Pool.State, c: C.State): C.State {
    if k.id in p.entries && k.id !in p1.entries then C.Next(c, C.Remove) else c
  }

  function TurnsNext(k: Key, s: State, e: Event): C.State
    requires Enabled(k, s, e)
  {
    match e
    case Ask(more, now, later) => C.Next(Removed(k, s.pool, Looked(k, s.pool, now, later), s.turns), C.Ask(more))
    case Choose(t, ws, now, later) => C.Next(Removed(k, s.pool, Looked(k, s.pool, now, later), s.turns), C.Choose(t, ws))
    case Send(t) => C.Next(s.turns, C.Send(t))
    case Succeed(t, _, _) => C.Next(s.turns, C.Succeed(t))
    case Fail(t, invalid) => C.Next(s.turns, C.Fail(t, invalid))
    case Other(op) => Removed(k, s.pool, Pool.Step(s.pool, op), s.turns)
  }

  function Next(k: Key, s: State, e: Event): State
    requires Enabled(k, s, e)
  {
    State(PoolNext(k, s.pool, e), TurnsNext(k, s, e))
  }

  function Run(k: Key, s: State, es: seq<Event>): Option<State>
    decreases |es|
  {
    if es == [] then Some(s)
    else if Enabled(k, s, es[0]) then Run(k, Next(k, s, es[0]), es[1..])
    else None
  }

  function AllSeen(k: Key, s: State, es: seq<Event>): seq<C.Event>
    requires Run(k, s, es).Some?
    decreases |es|
  {
    if es == [] then [] else Seen(k, s.pool, es[0]) + AllSeen(k, Next(k, s, es[0]), es[1..])
  }

  ghost predicate Inv(k: Key, s: State) {
    Pool.Inv(s.pool) && Agrees(k, s.pool, s.turns.entry)
  }

  // ---- The operations -----------------------------------------------------------------------------------------

  /** No operation but a Put of the conversation itself changes its entry: it stays or goes. */
  lemma OthersKeepOrRemove(k: Key, p: Pool.State, op: Pool.Op, entry: Option<C.Entry>)
    requires Pool.Inv(p) && Agrees(k, p, entry) && !(op.Put? && op.id == k.id)
    ensures Pool.Inv(Pool.Step(p, op))
    ensures Agrees(k, Pool.Step(p, op), if k.id in Pool.Step(p, op).entries then entry else None)
  {
    Pool.InvStep(p, op);
    if k.id in Pool.Step(p, op).entries {
      var d := Pool.Step(p, op).entries[k.id];
      Pool.HasStep(p, op, k.id, d);
    }
  }

  lemma DeleteRemoves(k: Key, p: Pool.State)
    requires Pool.Inv(p) && k.id != ""
    ensures Pool.Inv(Pool.Step(p, Pool.Delete(k.id))) && Agrees(k, Pool.Step(p, Pool.Delete(k.id)), None)
  {
    Pool.InvStep(p, Pool.Delete(k.id));
  }

  lemma PutStores(k: Key, p: Pool.State, turn: C.Turn, data: Pool.Data, now: int)
    requires Fresh(k) && Pool.Inv(p) && Puts(k, turn, data)
    ensures var p1 := Pool.Step(p, Pool.Put(k.id, data, now));
      Pool.Inv(p1) && Agrees(k, p1, Some(C.Entry(turn.pc.session, turn.count, turn.workspace)))
  {
    Pool.InvStep(p, Pool.Put(k.id, data, now));
    Pool.EvictionSparesTheNewEntry(p, Pool.Put(k.id, data, now));
  }

  /** A Get finds the entry exactly if it is still there afterwards. */
  lemma FoundStays(k: Key, p: Pool.State, now: int, later: int)
    requires k.id != ""
    ensures var found := T.Lookup(p, k.id, k.agentID, now, later);
      && (found.Some? <==> k.id in Looked(k, p, now, later).entries)
      && (found.Some? ==> k.id in p.entries && found.value == p.entries[k.id] == Looked(k, p, now, later).entries[k.id])
  {
  }

  /** The first look: the messages that BuildTurnPrompt takes for unsent are those from where Continuity lets the prompt
      start. */
  lemma FirstLook(k: Key, p: Pool.State, entry: Option<C.Entry>, ms: seq<P.Message>, now: int, later: int)
    requires Fresh(k) && Agrees(k, p, entry)
    ensures var found := T.Lookup(p, k.id, k.agentID, now, later);
      var start := C.Start(if found.Some? then entry else None, ms);
      var rest := T.Unsent(found, ms);
      && (start > 0 <==> rest.Some? && P.BuildPrompt(rest.value, "") != "")
      && (start > 0 ==> start < |ms| && rest.value == ms[start..])
  {
    FoundStays(k, p, now, later);
  }

  /** The second look: ChooseSession reuses an entry exactly if Continuity does, and the same session. */
  lemma SecondLook(k: Key, p: Pool.State, entry: Option<C.Entry>, ws: string, now: int, later: int)
    requires Fresh(k) && Agrees(k, p, entry)
    ensures var found := T.Lookup(p, k.id, k.agentID, now, later);
      var entry1 := if found.Some? then entry else None;
      && (C.Usable(entry1, ws) <==> found.Some? && (found.value.workspace == "" || found.value.workspace == ws))
      && (C.Usable(entry1, ws) ==> found.value.sessionID == k.name(entry1.value.session))
  {
    FoundStays(k, p, now, later);
  }

  // ---- Runs ---------------------------------------------------------------------------------------------------

  lemma RemovedEntry(k: Key, p: Pool.State, p1: Pool.State, c: C.State)
    requires Agrees(k, p, c.entry) && Agrees(k, p1, if k.id in p1.entries then c.entry else None)
    ensures Agrees(k, p1, Removed(k, p, p1, c).entry)
    ensures C.Run(c, Removal(k, p, p1)) == Some(Removed(k, p, p1, c))
    ensures C.Enabled(c, C.Remove)
  {
    if k.id in p.entries && k.id !in p1.entries {
      assert [C.Remove][1..] == [];
      assert C.Run(C.Next(c, C.Remove), [C.Remove][1..]) == Some(C.Next(c, C.Remove));
    }
  }

  lemma LookKeeps(k: Key, s: State, now: int, later: int)
    requires Fresh(k) && Inv(k, s)
    ensures var p1 := Looked(k, s.pool, now, later);
      Inv(k, State(p1, Removed(k, s.pool, p1, s.turns)))
  {
    OthersKeepOrRemove(k, s.pool, Pool.Get(k.id, k.agentID, now, later), s.turns.entry);
    RemovedEntry(k, s.pool, Looked(k, s.pool, now, later), s.turns);
  }

  lemma ChooseKeeps(k: Key, p: Pool.State, c: C.State, t: nat, ws: string)
    requires Fresh(k) && Pool.Inv(p) && Agrees(k, p, c.entry) && C.Enabled(c, C.Choose(t, ws))
    ensures var p1 := if WrongWorkspace(k, p, ws) then Pool.Step(p, Pool.Delete(k.id)) else p;
      Pool.Inv(p1) && Agrees(k, p1, C.Next(c, C.Choose(t, ws)).entry)
  {
    DeleteRemoves(k, p);
    ChooseEntry(c, t, ws);
  }

  lemma ChooseEntry(c: C.State, t: nat, ws: string)
    requires C.Enabled(c, C.Choose(t, ws))
    ensures C.Next(c, C.Choose(t, ws)).entry == if c.entry.Some? && !C.Usable(c.entry, ws) then None else c.entry
  {
  }

  lemma RemovalAllows(k: Key, p: Pool.State, p1: Pool.State, c: C.State, t: nat, ws: string)
    requires C.Enabled(c, C.Choose(t, ws))
    ensures C.Enabled(Removed(k, p, p1, c), C.Choose(t, ws))
  {
  }

  lemma ChooseNext(k: Key, s: State, t: nat, ws: string, now: int, later: int, p1: Pool.State, c1: C.State)
    requires Enabled(k, s, Choose(t, ws, now, later)) && C.Enabled(c1, C.Choose(t, ws))
    requires p1 == Looked(k, s.pool, now, later) && c1 == Removed(k, s.pool, p1, s.turns)
    ensures Next(k, s, Choose(t, ws, now, later))
         == State(if WrongWorkspace(k, p1, ws) then Pool.Step(p1, Pool.Delete(k.id)) else p1, C.Next(c1, C.Choose(t, ws)))
  {
  }

  lemma ChooseEventKeeps(k: Key, s: State, t: nat, ws: string, now: int, later: int)
    requires Fresh(k) && Inv(k, s) && Enabled(k, s, Choose(t, ws, now, later))
    ensures Inv(k, Next(k, s, Choose(t, ws, now, later)))
  {
    var p1 := Looked(k, s.pool, now, later);
    var c1 := Removed(k, s.pool, p1, s.turns);
    LookKeeps(k, s, now, later);
    RemovalAllows(k, s.pool, p1, s.turns, t, ws);
    ChooseKeeps(k, p1, c1, t, ws);
    ChooseNext(k, s, t, ws, now, later, p1, c1);
  }

  lemma FailEventKeeps(k: Key, s: State, t: nat, invalid: bool)
    requires Fresh(k) && Inv(k, s) && Enabled(k, s, Fail(t, invalid))
    ensures Inv(k, Next(k, s, Fail(t, invalid)))
  {
    DeleteRemoves(k, s.pool);
    FailEntry(s.turns, t, invalid);
    FailNext(k, s, t, invalid);
  }

  lemma FailEntry(c: C.State, t: nat, invalid: bool)
    requires C.Enabled(c, C.Fail(t, invalid))
    ensures C.Next(c, C.Fail(t, invalid)).entry == if invalid then None else c.entry
  {
  }

  lemma FailNext(k: Key, s: State, t: nat, invalid: bool)
    requires Enabled(k, s, Fail(t, invalid))
    ensures Next(k, s, Fail(t, invalid))
         == State(if invalid then Pool.Step(s.pool, Pool.Delete(k.id)) else s.pool, C.Next(s.turns, C.Fail(t, invalid)))
  {
  }

  lemma OtherEventKeeps(k: Key, s: State, op: Pool.Op)
    requires Fresh(k) && Inv(k, s) && Enabled(k, s, Other(op))
    ensures Inv(k, Next(k, s, Other(op)))
  {
    OthersKeepOrRemove(k, s.pool, op, s.turns.entry);
    RemovedEntry(k, s.pool, Pool.Step(s.pool, op), s.turns);
  }

  /** The pool and Continuity stay in step. */
  lemma InvStep(k: Key, s: State, e: Event)
    requires Fresh(k) && Inv(k, s) && Enabled(k, s, e)
    ensures Inv(k, Next(k, s, e))
  {
    match e
    case Ask(more, now, later) => LookKeeps(k, s, now, later);
    case Choose(t, ws, now, later) => ChooseEventKeeps(k, s, t, ws, now, later);
    case Send(_) =>
    case Succeed(t, data, now) => PutStores(k, s.pool, s.turns.turns[t], data, now);
    case Fail(t, invalid) => FailEventKeeps(k, s, t, invalid);
    case Other(op) => OtherEventKeeps(k, s, op);
  }

  lemma RunOne(c: C.State, e: C.Event)
    requires C.Enabled(c, e)
    ensures C.Run(c, [e]) == Some(C.Next(c, e))
  {
    assert [e][1..] == [];
    assert C.Run(C.Next(c, e), [e][1..]) == Some(C.Next(c, e));
  }

  lemma RemovedThen(k: Key, p: Pool.State, p1: Pool.State, c: C.State, e: C.Event)
    requires C.Enabled(Removed(k, p, p1, c), e)
    ensures C.Run(c, Removal(k, p, p1) + [e]) == Some(C.Next(Removed(k, p, p1, c), e))
  {
    RunOne(Removed(k, p, p1, c), e);
    if k.id in p.entries && k.id !in p1.entries {
      RunOne(c, C.Remove);
    }
    C.RunConcat(c, Removal(k, p, p1), [e]);
  }

  /** Every event is what Continuity sees of it. */
  lemma SeenStep(k: Key, s: State, e: Event)
    requires Enabled(k, s, e)
    ensures C.Run(s.turns, Seen(k, s.pool, e)) == Some(TurnsNext(k, s, e))
  {
    match e
    case Ask(more, now, later) => RemovedThen(k, s.pool, Looked(k, s.pool, now, later), s.turns, C.Ask(more));
    case Choose(t, ws, now, later) =>
      RemovedThen(k, s.pool, Looked(k, s.pool, now, later), s.turns, C.Choose(t, ws));
    case Send(t) => RunOne(s.turns, C.Send(t));
    case Succeed(t, _, _) => RunOne(s.turns, C.Succeed(t));
    case Fail(t, invalid) => RunOne(s.turns, C.Fail(t, invalid));
    case Other(op) => if Removal(k, s.pool, Pool.Step(s.pool, op)) != [] { RunOne(s.turns, C.Remove); }
  }

  lemma {:induction false} SeenRun(k: Key, s: State, es: seq<Event>)
    requires Fresh(k) && Inv(k, s) && Run(k, s, es).Some?
    ensures Inv(k, Run(k, s, es).value)
    ensures C.Run(s.turns, AllSeen(k, s, es)) == Some(Run(k, s, es).value.turns)
    decreases |es|
  {
    if es != [] {
      InvStep(k, s, es[0]);
      SeenStep(k, s, es[0]);
      SeenRun(k, Next(k, s, es[0]), es[1..]);
      C.RunConcat(s.turns, Seen(k, s.pool, es[0]), AllSeen(k, Next(k, s, es[0]), es[1..]));
    }
  }

  function Init(ttl: int, maxEntries: int, clock: int): State {
    State(Pool.Init(ttl, maxEntries, clock), C.Init)
  }

  /** Every run of the conversation's turns over the pool, with any other use of the pool in between: it is a run of
      Continuity, and the entry that Continuity speaks of is at all times the one in the pool's map. */
  lemma PoolRunsAreContinuityRuns(k: Key, ttl: int, maxEntries: int, clock: int, es: seq<Event>)
    requires Fresh(k) && Run(k, Init(ttl, maxEntries, clock), es).Some?
    ensures var s := Run(k, Init(ttl, maxEntries, clock), es).value;
      && C.Run(C.Init, AllSeen(k, Init(ttl, maxEntries, clock), es)) == Some(s.turns)
      && Agrees(k, s.pool, s.turns.entry)
  {
    SeenRun(k, Init(ttl, maxEntries, clock), es);
  }

  /** So, in such a run without a removal or a change of workspace between the two looks of a turn: the session named in
      the pool's entry has received at least the messages that the entry counts. */
  lemma PooledEntriesCountWhatWasSent(k: Key, ttl: int, maxEntries: int, clock: int, es: seq<Event>)
    requires Fresh(k) && Run(k, Init(ttl, maxEntries, clock), es).Some?
    requires C.CarefulRun(C.Init, AllSeen(k, Init(ttl, maxEntries, clock), es))
    ensures var s := Run(k, Init(ttl, maxEntries, clock), es).value;
      k.id in s.pool.entries ==>
        exists x: nat :: k.name(x) == s.pool.entries[k.id].sessionID
          && s.pool.entries[k.id].messageCount >= 0 && C.Told(s.turns, x, s.pool.entries[k.id].messageCount)
  {
    PoolRunsAreContinuityRuns(k, ttl, maxEntries, clock, es);
    C.EntriesCountWhatWasSent(AllSeen(k, Init(ttl, maxEntries, clock), es), 0);
    var s := Run(k, Init(ttl, maxEntries, clock), es).value;
    if k.id in s.pool.entries {
      assert k.name(s.turns.entry.value.session) == s.pool.entries[k.id].sessionID;
    }
  }
}
