/**
 Permit ownership in the router (internal/runner/router.go) and the end of a turn
 (internal/runner/acp.go, the goroutine started by Run).

 One call is: Acquire, look the gateway up, start the turn, and release. In the streaming path a
 waiter goroutine blocks on the turn's error channel and then releases; the handler reads the same
 channel. In the synchronous path the release is deferred. The controller does not know who calls
 Release, so a release by a call that holds no permit is a stray release of Permits.
*/
module Router {
  import opened Wrappers
  import P = Permits

  /** The goroutine that runs the turn. */
  datatype Turn = Unstarted | Running | Closing | ErrClosed | Gone

  /** The router's side of a call: Run or RunSync, and in Run the waiter goroutine it leaves behind. */
  datatype Stage = Acquiring | Starting | InFlight | Finished

  /** The HTTP handler of a streaming call: it drains the events, then reads the error channel with
      a select, then polls it once more. */
  datatype Handler = NoHandler | Draining | Polling | Left

  /** `buffered` is the number of errors in the channel, `sent`, `byWaiter` and `byHandler` count the
      errors that went in and came out; `done` says that the turn has sent its Done event. */
  datatype Call = Call(
    agent: string, sync: bool, stage: Stage, turn: Turn, handler: Handler,
    buffered: nat, closed: bool, sent: nat, byWaiter: nat, byHandler: nat, done: bool)

  datatype State = State(permits: P.State, gateways: set<string>, calls: seq<Call>)

  datatype Event =
    | Arrive(agent: string, sync: bool)
    | Rebuild(agents: set<string>)   // rebuildGateways installs a new table
    | Permit(e: P.Event)             // an atomic operation inside Acquire or Release
    | Lookup(i: nat)
    | StartFails(i: nat)
    | StartWorks(i: nat)
    | SendDone(i: nat)
    | TurnFails(i: nat)              // runTurn's error is reported
    | TurnEnds(i: nat)               // no error, or one that is not reported
    | CloseErrCh(i: nat)
    | CloseEvents(i: nat)
    | WaiterReceives(i: nat)
    | HandlerReceives(i: nat)
    | HandlerGivesUp(i: nat, polls: bool) // it already had an error of its own; it may poll still
    | SyncPolls(i: nat)
    | SyncReturns(i: nat)            // on the Done event, or when the events are closed

  function Init(maxConcurrent: int, agents: set<string>): State {
    State(P.Init(maxConcurrent), agents, [])
  }

  /** The operations inside Acquire and Release; calling them is up to the calls. */
  predicate Inner(e: P.Event) {
    !e.StartAcquire? && !e.StartRelease? && !e.StrayRelease?
  }

  predicate Holds(s: State, i: nat) {
    P.At(s.permits, i, P.Holding)
  }

  predicate Enabled(s: State, e: Event) {
    match e
    case Arrive(_, _) => true
    case Rebuild(_) => true
    case Permit(pe) => Inner(pe) && P.Enabled(s.permits, pe)
    case _ => e.i < |s.calls| && CallEnabled(s.calls[e.i], e, Holds(s, e.i))
  }

  predicate CallEnabled(c: Call, e: Event, holding: bool) {
    match e
    case Lookup(_) => c.stage == Acquiring && holding
    case StartFails(_) => c.stage == Starting
    case StartWorks(_) => c.stage == Starting
    case SendDone(_) => c.turn == Running && !c.done
    case TurnFails(_) => c.turn == Running && !c.done
    case TurnEnds(_) => c.turn == Running
    case CloseErrCh(_) => c.turn == Closing
    case CloseEvents(_) => c.turn == ErrClosed
    case WaiterReceives(_) => c.stage == InFlight && !c.sync && (c.buffered > 0 || c.closed)
    case HandlerReceives(_) =>
      (c.handler == Draining && c.turn == Gone && (c.buffered > 0 || c.closed)) || c.handler == Polling
    case HandlerGivesUp(_, _) => c.handler == Draining && c.turn == Gone
    case SyncPolls(_) => c.stage == InFlight && c.sync && c.turn == Gone && c.buffered > 0
    case SyncReturns(_) => c.stage == InFlight && c.sync && (c.done || c.turn == Gone)
    case _ => false
  }

  /** Receive from the error channel: the buffered error if there is one, else the zero value. */
  function TakenByHandler(c: Call): Call {
    if c.buffered > 0 then c.(buffered := c.buffered - 1, byHandler := c.byHandler + 1) else c
  }

  function TakenByWaiter(c: Call): Call {
    if c.buffered > 0 then c.(buffered := c.buffered - 1, byWaiter := c.byWaiter + 1) else c
  }

  function CallStep(c: Call, e: Event, available: bool): Call {
    match e
    case Lookup(_) => c.(stage := if available then Starting else Finished)
    case StartFails(_) => c.(stage := Finished)
    case StartWorks(_) =>
      c.(stage := InFlight, turn := Running, handler := if c.sync then NoHandler else Draining)
    case SendDone(_) => c.(done := true)
    case TurnFails(_) => c.(turn := Closing, buffered := c.buffered + 1, sent := c.sent + 1)
    case TurnEnds(_) => c.(turn := Closing)
    case CloseErrCh(_) => c.(turn := ErrClosed, closed := true)
    case CloseEvents(_) => c.(turn := Gone)
    case WaiterReceives(_) => TakenByWaiter(c).(stage := Finished)
    case HandlerReceives(_) => TakenByHandler(c).(handler := if c.handler == Draining then Polling else Left)
    case HandlerGivesUp(_, polls) => c.(handler := if polls then Polling else Left)
    case SyncPolls(_) => TakenByHandler(c)
    case SyncReturns(_) => c.(stage := Finished)
    case _ => c
  }

  /** Does the event call Release? */
  predicate Releases(s: State, e: Event)
    requires Enabled(s, e)
  {
    match e
    case Lookup(i) => s.calls[i].agent !in s.gateways
    case StartFails(_) => true
    case WaiterReceives(_) => true
    case SyncReturns(_) => true
    case _ => false
  }

  /** What the permit controller sees of an event. */
  function PermitEvents(s: State, e: Event): seq<P.Event>
    requires Enabled(s, e)
  {
    match e
    case Arrive(_, _) => [P.StartAcquire]
    case Rebuild(_) => []
    case Permit(pe) => [pe]
    case _ =>
      if !Releases(s, e) then []
      else if Holds(s, e.i) then [P.StartRelease(e.i)]
      else [P.StrayRelease]
  }

  lemma PermitEventsEnabled(s: State, e: Event)
    requires Enabled(s, e)
    ensures |PermitEvents(s, e)| <= 1
    ensures PermitEvents(s, e) != [] ==> P.Enabled(s.permits, PermitEvents(s, e)[0])
  {
  }

  function PermitsAfter(s: State, e: Event): P.State
    requires Enabled(s, e)
  {
    PermitEventsEnabled(s, e);
    if PermitEvents(s, e) == [] then s.permits else P.Step(s.permits, PermitEvents(s, e)[0])
  }

  function Step(s: State, e: Event): State
    requires Enabled(s, e)
  {
    var permits := PermitsAfter(s, e);
    match e
    case Arrive(agent, sync) =>
      s.(permits := permits,
         calls := s.calls + [Call(agent, sync, Acquiring, Unstarted, NoHandler, 0, false, 0, 0, 0, false)])
    case Rebuild(agents) => s.(gateways := agents)
    case Permit(_) => s.(permits := permits)
    case _ =>
      s.(permits := permits,
         calls := s.calls[e.i := CallStep(s.calls[e.i], e, s.calls[e.i].agent in s.gateways)])
  }

  function Run(s: State, es: seq<Event>): Option<State>
    decreases |es|
  {
    if es == [] then Some(s)
    else if Enabled(s, es[0]) then Run(Step(s, es[0]), es[1..])
    else None
  }

  /** The permit events of a whole run. */
  function PermitRun(s: State, es: seq<Event>): seq<P.Event>
    requires Run(s, es).Some?
    decreases |es|
  {
    if es == [] then []
    else PermitEvents(s, es[0]) + PermitRun(Step(s, es[0]), es[1..])
  }

  // ---- One call keeps its permit until its one release ----

  predicate Entering(pc: P.Pc) {
    pc.Arriving? || pc.Waiting? || pc.Took? || pc.Dequeued? || pc.TimedOut? || pc.Refused?
  }

  predicate Exiting(pc: P.Pc) {
    pc.Leaving? || pc.Returning? || pc.Returned? || pc.Recording? || pc.Released?
  }

  predicate CallOk(c: Call, pc: P.Pc) {
    && (match c.stage
        case Acquiring => (pc == P.Holding || Entering(pc)) && c.turn == Unstarted && c.handler == NoHandler
        case Starting => pc == P.Holding && c.turn == Unstarted && c.handler == NoHandler
        case InFlight => pc == P.Holding && c.turn != Unstarted && (c.sync ==> c.handler == NoHandler)
        case Finished => Exiting(pc))
    && (c.turn in {Unstarted, Running} ==> c.sent == 0)
    && (c.closed <==> c.turn in {ErrClosed, Gone})
    && (c.handler in {Polling, Left} ==> c.turn == Gone)
    && c.sent <= 1
    && c.sent == c.buffered + c.byWaiter + c.byHandler
  }

  ghost predicate Inv(s: State) {
    && P.Exact(s.permits)
    && |s.calls| == |s.permits.ops|
    && (forall i :: 0 <= i < |s.calls| ==> CallOk(s.calls[i], s.permits.ops[i]))
  }

  lemma CallStepOk(c: Call, pc: P.Pc, e: Event, available: bool)
    requires CallOk(c, pc) && CallEnabled(c, e, pc == P.Holding)
    ensures CallOk(CallStep(c, e, available), pc) || (pc == P.Holding && CallOk(CallStep(c, e, available), P.Leaving))
    ensures CallStep(c, e, available).stage == Finished && c.stage != Finished ==>
      pc == P.Holding && CallOk(CallStep(c, e, available), P.Leaving)
    ensures CallStep(c, e, available).stage != Finished || c.stage == Finished ==>
      CallOk(CallStep(c, e, available), pc)
  {
  }

  lemma PermitStepLocal(s: P.State, e: P.Event)
    requires P.Exact(s) && P.Enabled(s, e) && Inner(e)
    ensures var t := P.Step(s, e);
      && |t.ops| == |s.ops|
      && (forall j :: 0 <= j < |s.ops| && j != e.i ==> t.ops[j] == s.ops[j])
      && e.i < |s.ops|
      && (Entering(s.ops[e.i]) ==> Entering(t.ops[e.i]) || t.ops[e.i] == P.Holding)
      && (Exiting(s.ops[e.i]) ==> Exiting(t.ops[e.i]))
      && s.ops[e.i] != P.Holding
  {
    P.ExactStep(s, e);
  }

  lemma InvPermit(s: State, e: P.Event)
    requires Inv(s) && Enabled(s, Permit(e))
    ensures Inv(Step(s, Permit(e)))
  {
    P.ExactStep(s.permits, e);
    PermitStepLocal(s.permits, e);
  }

  /** The release that a call's event makes is the one of its own permit. */
  lemma ReleaseIsOwn(s: State, e: Event)
    requires Inv(s) && Enabled(s, e) && !e.Arrive? && !e.Rebuild? && !e.Permit?
    ensures Releases(s, e) ==> Holds(s, e.i)
    ensures PermitsAfter(s, e)
         == if Releases(s, e) then s.permits.(ops := s.permits.ops[e.i := P.Leaving]) else s.permits
  {
    CallStepOk(s.calls[e.i], s.permits.ops[e.i], e, s.calls[e.i].agent in s.gateways);
  }

  lemma InvUpdate(s: State, i: nat, c: Call, permits: P.State, pc: P.Pc)
    requires Inv(s) && i < |s.calls| && P.Exact(permits)
    requires permits.ops == s.permits.ops[i := pc] && CallOk(c, pc)
    ensures Inv(s.(permits := permits, calls := s.calls[i := c]))
  {
  }

  lemma InvCall(s: State, e: Event)
    requires Inv(s) && Enabled(s, e) && !e.Arrive? && !e.Rebuild? && !e.Permit?
    ensures Releases(s, e) ==> Holds(s, e.i)
    ensures Inv(Step(s, e))
  {
    var c := CallStep(s.calls[e.i], e, s.calls[e.i].agent in s.gateways);
    ReleaseIsOwn(s, e);
    ReleasesWhenFinished(s, e, c);
    if Releases(s, e) {
      P.ExactStep(s.permits, P.StartRelease(e.i));
      InvUpdate(s, e.i, c, PermitsAfter(s, e), P.Leaving);
    } else {
      assert s.permits.ops[e.i := s.permits.ops[e.i]] == s.permits.ops;
      InvUpdate(s, e.i, c, s.permits, s.permits.ops[e.i]);
    }
  }

  lemma ReleasesWhenFinished(s: State, e: Event, c: Call)
    requires Inv(s) && Enabled(s, e) && !e.Arrive? && !e.Rebuild? && !e.Permit?
    requires c == CallStep(s.calls[e.i], e, s.calls[e.i].agent in s.gateways)
    ensures Releases(s, e) <==> c.stage == Finished && s.calls[e.i].stage != Finished
    ensures CallOk(c, if Releases(s, e) then P.Leaving else s.permits.ops[e.i])
  {
    CallStepOk(s.calls[e.i], s.permits.ops[e.i], e, s.calls[e.i].agent in s.gateways);
  }

  lemma InvArrive(s: State, agent: string, sync: bool)
    requires Inv(s)
    ensures Inv(Step(s, Arrive(agent, sync)))
  {
    P.ExactStep(s.permits, P.StartAcquire);
  }

  lemma InvStep(s: State, e: Event)
    requires Inv(s) && Enabled(s, e)
    ensures Inv(Step(s, e))
    ensures PermitEvents(s, e) != [P.StrayRelease]
  {
    match e
    case Arrive(agent, sync) => InvArrive(s, agent, sync);
    case Rebuild(_) =>
    case Permit(pe) => InvPermit(s, pe);
    case _ => InvCall(s, e);
  }

  /** The controller under the router only ever sees matched runs: every release is made by a call
      that holds a permit. So all of Permits' results on matched runs apply to the router. */
  lemma {:induction false} RouterRefinesMatchedPermits(s: State, es: seq<Event>)
    requires Inv(s) && Run(s, es).Some?
    ensures Inv(Run(s, es).value)
    ensures P.Matched(PermitRun(s, es))
    ensures P.Run(s.permits, PermitRun(s, es)) == Some(Run(s, es).value.permits)
    decreases |es|
  {
    if es != [] {
      var t, now := Step(s, es[0]), PermitEvents(s, es[0]);
      InvStep(s, es[0]);
      PermitEventsEnabled(s, es[0]);
      RouterRefinesMatchedPermits(t, es[1..]);
      if now != [] {
        P.RunCons(s.permits, now[0], PermitRun(t, es[1..]));
        assert now == [now[0]];
      } else {
        assert now + PermitRun(t, es[1..]) == PermitRun(t, es[1..]);
      }
    }
  }

  // ---- Exactly one release ----

  /** How often call `i` calls Release along a run. */
  function ReleaseCount(s: State, es: seq<Event>, i: nat): nat
    requires Run(s, es).Some?
    decreases |es|
  {
    if es == [] then 0
    else (if Releases(s, es[0]) && es[0].i == i then 1 else 0) + ReleaseCount(Step(s, es[0]), es[1..], i)
  }

  function Done(s: State, i: nat): nat {
    if i < |s.calls| && s.calls[i].stage == Finished then 1 else 0
  }

  lemma DoneStep(s: State, e: Event, i: nat)
    requires Inv(s) && Enabled(s, e)
    ensures Done(Step(s, e), i) == Done(s, i) + (if Releases(s, e) && e.i == i then 1 else 0)
  {
    if !e.Arrive? && !e.Rebuild? && !e.Permit? {
      ReleasesWhenFinished(s, e, CallStep(s.calls[e.i], e, s.calls[e.i].agent in s.gateways));
      FinishedStays(s.calls[e.i], e, Holds(s, e.i), s.calls[e.i].agent in s.gateways);
    }
  }

  lemma FinishedStays(c: Call, e: Event, holding: bool, available: bool)
    requires CallEnabled(c, e, holding)
    ensures c.stage == Finished ==> CallStep(c, e, available).stage == Finished
  {
  }

  lemma {:induction false} ReleasesAreFinishes(s: State, es: seq<Event>, i: nat)
    requires Inv(s) && Run(s, es).Some?
    ensures Done(s, i) + ReleaseCount(s, es, i) == Done(Run(s, es).value, i)
    decreases |es|
  {
    if es != [] {
      InvStep(s, es[0]);
      DoneStep(s, es[0], i);
      ReleasesAreFinishes(Step(s, es[0]), es[1..], i);
    }
  }

  /** A run that has nothing left to do but take new calls or reload its configuration. */
  ghost predicate Idle(s: State) {
    forall e :: Enabled(s, e) ==> e.Arrive? || e.Rebuild?
  }

  /** What a call that is not through can do next. */
  function NextEvent(c: Call, pc: P.Pc, i: nat): Event {
    match pc
    case Arriving => Permit(P.Enqueue(i))
    case Waiting => Permit(P.Expire(i))
    case Took => Permit(P.Dequeue(i))
    case TimedOut => Permit(P.Dequeue(i))
    case Dequeued => Permit(P.Activate(i))
    case Leaving => Permit(P.Deactivate(i))
    case Returning => Permit(P.Push(i))
    case Returned => Permit(P.Complete(i))
    case Recording => Permit(P.Record(i, 0))
    case _ =>
      if c.stage == Acquiring then Lookup(i)
      else if c.stage == Starting then StartWorks(i)
      else if c.turn == Running then TurnEnds(i)
      else if c.turn == Closing then CloseErrCh(i)
      else if c.turn == ErrClosed then CloseEvents(i)
      else if c.sync then SyncReturns(i)
      else WaiterReceives(i)
  }

  lemma NextEventEnabled(s: State, i: nat)
    requires Inv(s) && i < |s.calls|
    requires s.permits.ops[i] !in {P.Refused, P.Released}
    ensures var e := NextEvent(s.calls[i], s.permits.ops[i], i);
      Enabled(s, e) && !e.Arrive? && !e.Rebuild?
  {
    assert CallOk(s.calls[i], s.permits.ops[i]);
  }

  /** Every run, in every interleaving of calls, turns, readers and reloads: a call that was granted
      a permit calls Release at most once, and exactly once by the time the router is idle; then all
      permits are back. */
  lemma ExactlyOneReleasePerPermit(maxConcurrent: int, agents: set<string>, es: seq<Event>, i: nat)
    requires Run(Init(maxConcurrent, agents), es).Some?
    requires i < |Run(Init(maxConcurrent, agents), es).value.calls|
    ensures var s0 := Init(maxConcurrent, agents);
      var s := Run(s0, es).value;
      && ReleaseCount(s0, es, i) <= 1
      && |s.permits.ops| == |s.calls|
      && (ReleaseCount(s0, es, i) == 1 <==> Exiting(s.permits.ops[i]))
      && 0 <= s.permits.active <= s.permits.cap
      && (Idle(s) ==>
            && s.permits.ops[i] == (if ReleaseCount(s0, es, i) == 1 then P.Released else P.Refused)
            && s.permits.tokens == s.permits.cap
            && s.permits.active == 0)
  {
    var s0 := Init(maxConcurrent, agents);
    var s := Run(s0, es).value;
    RouterRefinesMatchedPermits(s0, es);
    ReleasesAreFinishes(s0, es, i);
    P.MatchedRunsAreExact(maxConcurrent, PermitRun(s0, es));
    assert CallOk(s.calls[i], s.permits.ops[i]);
    if Idle(s) {
      forall j | 0 <= j < |s.calls| ensures s.permits.ops[j] in {P.Refused, P.Released} {
        if s.permits.ops[j] !in {P.Refused, P.Released} { NextEventEnabled(s, j); }
      }
      P.QuiescentMeansAllTokensBack(maxConcurrent, PermitRun(s0, es));
    }
  }

  /** The error of a turn is one at most, and at most one of the readers of ErrCh gets it. */
  lemma ErrorReachesOneReader(maxConcurrent: int, agents: set<string>, es: seq<Event>, i: nat)
    requires Run(Init(maxConcurrent, agents), es).Some?
    requires i < |Run(Init(maxConcurrent, agents), es).value.calls|
    ensures var c := Run(Init(maxConcurrent, agents), es).value.calls[i];
      && c.byWaiter + c.byHandler <= c.sent <= 1
      && c.buffered <= 1
      && (c.closed <==> c.turn in {ErrClosed, Gone})
  {
    RouterRefinesMatchedPermits(Init(maxConcurrent, agents), es);
    var s := Run(Init(maxConcurrent, agents), es).value;
    assert CallOk(s.calls[i], s.permits.ops[i]);
  }

  /** The receives from call i's error channel. */
  predicate ReadsErr(e: Event, i: nat) {
    (e.WaiterReceives? || e.HandlerReceives? || e.SyncPolls?) && e.i == i
  }

  function FirstReader(es: seq<Event>, i: nat): Option<Event> {
    if es == [] then None
    else if ReadsErr(es[0], i) then Some(es[0])
    else FirstReader(es[1..], i)
  }

  /** Nobody has taken an error out of the channel yet. */
  predicate Untaken(c: Call) {
    c.byWaiter == 0 && c.byHandler == 0
  }

  lemma OtherCalls(s: State, e: Event, i: nat)
    requires Enabled(s, e) && i < |s.calls|
    ensures i < |Step(s, e).calls|
    ensures Step(s, e).calls[i] == s.calls[i]
      || (!e.Arrive? && !e.Rebuild? && !e.Permit? && e.i == i && CallEnabled(s.calls[i], e, Holds(s, i))
          && Step(s, e).calls[i] == CallStep(s.calls[i], e, s.calls[i].agent in s.gateways))
  {
  }

  /** What happened to a call stays so: the error that was taken, and the channel that was closed without one. */
  predicate Settled(c: Call) {
    c.byWaiter + c.byHandler == 1 || (c.closed && c.sent == 0)
  }

  lemma SettledStep(c: Call, pc: P.Pc, e: Event, available: bool)
    requires CallOk(c, pc) && CallEnabled(c, e, pc == P.Holding) && Settled(c)
    ensures var c1 := CallStep(c, e, available);
      Settled(c1) && c1.sent == c.sent && c1.byWaiter == c.byWaiter && c1.byHandler == c.byHandler
  {
  }

  lemma {:induction false} SettledRun(s: State, es: seq<Event>, i: nat)
    requires Inv(s) && Run(s, es).Some? && i < |s.calls| && Settled(s.calls[i])
    ensures i < |Run(s, es).value.calls|
    ensures var c := Run(s, es).value.calls[i];
      c.sent == s.calls[i].sent && c.byWaiter == s.calls[i].byWaiter && c.byHandler == s.calls[i].byHandler
    decreases |es|
  {
    if es != [] {
      InvStep(s, es[0]);
      OtherCalls(s, es[0], i);
      assert CallOk(s.calls[i], s.permits.ops[i]);
      if Step(s, es[0]).calls[i] != s.calls[i] {
        SettledStep(s.calls[i], s.permits.ops[i], es[0], s.calls[i].agent in s.gateways);
      }
      SettledRun(Step(s, es[0]), es[1..], i);
    }
  }

  /** The first receive takes the error if there is one; else there will be none. */
  lemma FirstReadSettles(c: Call, pc: P.Pc, e: Event, available: bool)
    requires CallOk(c, pc) && CallEnabled(c, e, pc == P.Holding) && ReadsErr(e, e.i) && Untaken(c)
    ensures var c1 := CallStep(c, e, available);
      && Settled(c1) && c1.sent == c.sent
      && (c.sent == 1 ==> c1.byWaiter == (if e.WaiterReceives? then 1 else 0) && c1.byHandler == 1 - c1.byWaiter)
  {
  }

  lemma NoReadTakesNothing(c: Call, e: Event, holding: bool, available: bool)
    requires CallEnabled(c, e, holding) && !e.WaiterReceives? && !e.HandlerReceives? && !e.SyncPolls? && Untaken(c)
    ensures Untaken(CallStep(c, e, available))
  {
  }

  lemma UntakenStep(s: State, e: Event, i: nat)
    requires Inv(s) && Enabled(s, e) && (i < |s.calls| ==> Untaken(s.calls[i])) && !ReadsErr(e, i)
    ensures i < |Step(s, e).calls| ==> Untaken(Step(s, e).calls[i])
  {
    if i < |s.calls| {
      OtherCalls(s, e, i);
      if Step(s, e).calls[i] != s.calls[i] {
        NoReadTakesNothing(s.calls[i], e, Holds(s, i), s.calls[i].agent in s.gateways);
      }
    }
  }

  lemma {:induction false} FirstReaderTakes(s: State, es: seq<Event>, i: nat)
    requires Inv(s) && Run(s, es).Some? && (i < |s.calls| ==> Untaken(s.calls[i]))
    requires i < |Run(s, es).value.calls| && Run(s, es).value.calls[i].sent == 1
    ensures var c, first := Run(s, es).value.calls[i], FirstReader(es, i);
      && c.byWaiter == (if first.Some? && first.value.WaiterReceives? then 1 else 0)
      && c.byHandler == (if first.Some? && !first.value.WaiterReceives? then 1 else 0)
    decreases |es|
  {
    if es != [] {
      var s1 := Step(s, es[0]);
      InvStep(s, es[0]);
      if ReadsErr(es[0], i) {
        OtherCalls(s, es[0], i);
        assert CallOk(s.calls[i], s.permits.ops[i]);
        FirstReadSettles(s.calls[i], s.permits.ops[i], es[0], s.calls[i].agent in s.gateways);
        SettledRun(s1, es[1..], i);
      } else {
        UntakenStep(s, es[0], i);
        FirstReaderTakes(s1, es[1..], i);
      }
    }
  }

  /** Every run: the error that a turn sent goes to whoever receives first. So the handler of a streaming call gets
      it, by its read or by its last poll, if and only if it receives at all and the waiter has not before. */
  lemma HandlerGetsTheErrorFirst(maxConcurrent: int, agents: set<string>, es: seq<Event>, i: nat)
    requires Run(Init(maxConcurrent, agents), es).Some?
    requires i < |Run(Init(maxConcurrent, agents), es).value.calls|
    requires Run(Init(maxConcurrent, agents), es).value.calls[i].sent == 1
    ensures var c, first := Run(Init(maxConcurrent, agents), es).value.calls[i], FirstReader(es, i);
      && (c.byHandler == 1 <==> first.Some? && !first.value.WaiterReceives?)
      && (c.byWaiter == 1 <==> first.Some? && first.value.WaiterReceives?)
      && (c.byHandler == 0 && c.byWaiter == 0 <==> first.None?)
  {
    FirstReaderTakes(Init(maxConcurrent, agents), es, i);
  }

  // ---- A run in which the handler misses the error ----

  lemma RunCons(s: State, e: Event, s1: State, es: seq<Event>)
    requires Enabled(s, e) && Step(s, e) == s1
    ensures Run(s, [e] + es) == Run(s1, es)
  {
    assert ([e] + es)[1..] == es;
  }

  lemma {:induction false} RunConcat(s: State, a: seq<Event>, mid: State, b: seq<Event>)
    requires Run(s, a) == Some(mid)
    ensures Run(s, a + b) == Run(mid, b)
    decreases |a|
  {
    if a == [] {
      assert a + b == b;
    } else {
      assert (a + b)[1..] == a[1..] + b;
      RunConcat(Step(s, a[0]), a[1..], mid, b);
    }
  }

  function Inside(pes: seq<P.Event>): seq<Event> {
    if pes == [] then [] else [Permit(pes[0])] + Inside(pes[1..])
  }

  lemma {:induction false} InsideRuns(s: State, pes: seq<P.Event>)
    requires forall k :: 0 <= k < |pes| ==> Inner(pes[k])
    requires P.Run(s.permits, pes).Some?
    ensures Run(s, Inside(pes)) == Some(s.(permits := P.Run(s.permits, pes).value))
    decreases |pes|
  {
    if pes != [] {
      var s1 := s.(permits := P.Step(s.permits, pes[0]));
      InsideRuns(s1, pes[1..]);
      RunCons(s, Permit(pes[0]), s1, Inside(pes[1..]));
    }
  }

  function Arrived(agent: string): Call {
    Call(agent, false, Acquiring, Unstarted, NoHandler, 0, false, 0, 0, 0, false)
  }

  /** A streaming call is granted a permit. */
  function Granting(agent: string): seq<Event> {
    [Arrive(agent, false)] + Inside(P.AcquireEvents(0)[1..])
  }

  function Granted(maxConcurrent: int, agents: set<string>, c: Call): State {
    var p := P.Init(maxConcurrent);
    State(p.(tokens := p.tokens - 1, active := p.active + 1, ops := p.ops + [P.Holding]), agents, [c])
  }

  lemma AcquireIsInner()
    ensures P.AcquireEvents(0)[0] == P.StartAcquire
    ensures forall k :: 0 <= k < |P.AcquireEvents(0)[1..]| ==> Inner(P.AcquireEvents(0)[1..][k])
  {
  }

  lemma GrantingRuns(maxConcurrent: int, agents: set<string>, agent: string)
    ensures Run(Init(maxConcurrent, agents), Granting(agent)) == Some(Granted(maxConcurrent, agents, Arrived(agent)))
  {
    var s := Init(maxConcurrent, agents);
    var s1 := State(P.Step(s.permits, P.StartAcquire), agents, [Arrived(agent)]);
    P.AcquireAlone(s.permits);
    AcquireIsInner();
    InsideRuns(s1, P.AcquireEvents(0)[1..]);
    assert [] + [Arrived(agent)] == [Arrived(agent)];
    RunCons(s, Arrive(agent, false), s1, Inside(P.AcquireEvents(0)[1..]));
  }

  lemma OnlyCallSteps(s: State, c: Call, e: Event, c1: Call)
    requires s.calls == [c] && !e.Arrive? && !e.Rebuild? && !e.Permit? && e.i == 0
    requires CallEnabled(c, e, Holds(s, 0)) && c1 == CallStep(c, e, c.agent in s.gateways)
    ensures Enabled(s, e)
    ensures Step(s, e) == s.(permits := PermitsAfter(s, e), calls := [c1])
    ensures !Releases(s, e) ==> Step(s, e) == s.(calls := [c1])
  {
    assert [c][0 := c1] == [c1];
  }

  function Failing(): seq<Event> {
    [Lookup(0)] + ([StartWorks(0)] + ([TurnFails(0)] + [])) + ([CloseErrCh(0)] + ([CloseEvents(0)] + []))
  }

  function Failed(agent: string): Call {
    Call(agent, false, InFlight, Gone, Draining, 1, true, 1, 0, 0, false)
  }

  lemma StartsAndFails(s: State, c: Call, c3: Call)
    requires s.calls == [c] && Holds(s, 0) && c.agent in s.gateways && c == Arrived(c.agent)
    requires c3 == c.(stage := InFlight, handler := Draining, turn := Closing, buffered := 1, sent := 1)
    ensures Run(s, [Lookup(0)] + ([StartWorks(0)] + ([TurnFails(0)] + []))) == Some(s.(calls := [c3]))
  {
    var c1 := c.(stage := Starting);
    var c2 := c1.(stage := InFlight, turn := Running, handler := Draining);
    OnlyCallSteps(s, c, Lookup(0), c1);
    OnlyCallSteps(s.(calls := [c1]), c1, StartWorks(0), c2);
    OnlyCallSteps(s.(calls := [c2]), c2, TurnFails(0), c3);
    RunCons(s.(calls := [c2]), TurnFails(0), s.(calls := [c3]), []);
    RunCons(s.(calls := [c1]), StartWorks(0), s.(calls := [c2]), [TurnFails(0)] + []);
    RunCons(s, Lookup(0), s.(calls := [c1]), [StartWorks(0)] + ([TurnFails(0)] + []));
  }

  lemma FailureCloses(s: State, c: Call)
    requires s.calls == [c] && c.turn == Closing
    ensures Run(s, [CloseErrCh(0)] + ([CloseEvents(0)] + [])) == Some(s.(calls := [c.(turn := Gone, closed := true)]))
  {
    var c1 := c.(turn := ErrClosed, closed := true);
    OnlyCallSteps(s, c, CloseErrCh(0), c1);
    OnlyCallSteps(s.(calls := [c1]), c1, CloseEvents(0), c1.(turn := Gone));
    RunCons(s.(calls := [c1]), CloseEvents(0), s.(calls := [c1.(turn := Gone)]), []);
    RunCons(s, CloseErrCh(0), s.(calls := [c1]), [CloseEvents(0)] + []);
  }

  lemma FailingRuns(s: State, agent: string)
    requires s.calls == [Arrived(agent)] && Holds(s, 0) && agent in s.gateways
    ensures Run(s, Failing()) == Some(s.(calls := [Failed(agent)]))
  {
    var c3 := Failed(agent).(turn := Closing, closed := false);
    StartsAndFails(s, Arrived(agent), c3);
    FailureCloses(s.(calls := [c3]), c3);
    RunConcat(s, [Lookup(0)] + ([StartWorks(0)] + ([TurnFails(0)] + [])), s.(calls := [c3]),
              [CloseErrCh(0)] + ([CloseEvents(0)] + []));
  }

  function WaiterFirst(): seq<Event> {
    [WaiterReceives(0)] + ([HandlerReceives(0)] + ([HandlerReceives(0)] + []))
  }

  lemma WaiterFirstRuns(s: State, agent: string)
    requires s.calls == [Failed(agent)] && Holds(s, 0)
    ensures Run(s, WaiterFirst()).Some?
    ensures Run(s, WaiterFirst()).value.calls
         == [Failed(agent).(stage := Finished, handler := Left, buffered := 0, byWaiter := 1)]
  {
    var c1 := Failed(agent).(stage := Finished, buffered := 0, byWaiter := 1);
    var c2, c3 := c1.(handler := Polling), c1.(handler := Left);
    OnlyCallSteps(s, Failed(agent), WaiterReceives(0), c1);
    var s1 := s.(permits := PermitsAfter(s, WaiterReceives(0)), calls := [c1]);
    OnlyCallSteps(s1, c1, HandlerReceives(0), c2);
    OnlyCallSteps(s1.(calls := [c2]), c2, HandlerReceives(0), c3);
    RunCons(s1.(calls := [c2]), HandlerReceives(0), s1.(calls := [c3]), []);
    RunCons(s1, HandlerReceives(0), s1.(calls := [c2]), [HandlerReceives(0)] + []);
    RunCons(s, WaiterReceives(0), s1, [HandlerReceives(0)] + ([HandlerReceives(0)] + []));
  }

  /** The two readers race: here the turn fails, the waiter receives first, and neither the handler's read nor its
      last poll finds the error. */
  lemma HandlerMissesTheErrorTheWaiterTook(maxConcurrent: int, agents: set<string>, agent: string)
    requires agent in agents
    ensures var es := Granting(agent) + Failing() + WaiterFirst();
      && Run(Init(maxConcurrent, agents), es).Some?
      && var s := Run(Init(maxConcurrent, agents), es).value;
      && |s.calls| == 1 && s.calls[0].sent == 1 && s.calls[0].byHandler == 0 && s.calls[0].handler == Left
  {
    var s0, s1 := Init(maxConcurrent, agents), Granted(maxConcurrent, agents, Arrived(agent));
    GrantingRuns(maxConcurrent, agents, agent);
    assert Holds(s1, 0);
    FailingRuns(s1, agent);
    RunConcat(s0, Granting(agent), s1, Failing());
    WaiterFirstRuns(s1.(calls := [Failed(agent)]), agent);
    RunConcat(s0, Granting(agent) + Failing(), s1.(calls := [Failed(agent)]), WaiterFirst());
  }

  // ---- Every call comes to its end ----

  function PcRank(pc: P.Pc): nat {
    match pc
    case Arriving => 12
    case Waiting => 11
    case Took => 10
    case TimedOut => 10
    case Dequeued => 9
    case Holding => 8
    case Leaving => 7
    case Undoing => 6
    case Returning => 6
    case Overflowing => 5
    case Returned => 4
    case Recording => 3
    case Refused => 0
    case Ignored => 0
    case Released => 0
  }

  function CallRank(c: Call): nat {
    (match c.stage case Acquiring => 3 case Starting => 2 case InFlight => 1 case Finished => 0)
    + (match c.turn
       case Unstarted => 12
       case Running => 10
       case Closing => 5
       case ErrClosed => 3
       case Gone => 0)
    + (match c.handler case NoHandler => 4 case Draining => 3 case Polling => 2 case Left => 0)
    + (if c.done then 0 else 1)
    + c.buffered
  }

  /** How many events the first `n` calls can still make. */
  function Work(s: State, n: nat): nat
    requires n <= |s.calls| && n <= |s.permits.ops|
  {
    if n == 0 then 0 else Work(s, n - 1) + CallRank(s.calls[n - 1]) + PcRank(s.permits.ops[n - 1])
  }

  lemma {:induction false} WorkLocal(s: State, t: State, i: nat, n: nat)
    requires |s.calls| == |s.permits.ops| == |t.calls| == |t.permits.ops|
    requires n <= |s.calls|
    requires forall j :: 0 <= j < |s.calls| && j != i ==> t.calls[j] == s.calls[j] && t.permits.ops[j] == s.permits.ops[j]
    requires i < |s.calls|
      && CallRank(t.calls[i]) + PcRank(t.permits.ops[i]) < CallRank(s.calls[i]) + PcRank(s.permits.ops[i])
    ensures if i < n then Work(t, n) < Work(s, n) else Work(t, n) == Work(s, n)
  {
    if n > 0 { WorkLocal(s, t, i, n - 1); }
  }

  lemma CallRankDrops(c: Call, pc: P.Pc, e: Event, available: bool)
    requires CallOk(c, pc) && CallEnabled(c, e, pc == P.Holding)
    ensures CallRank(CallStep(c, e, available)) < CallRank(c)
  {
  }

  lemma PcRankDrops(s: P.State, e: P.Event)
    requires P.Exact(s) && P.Enabled(s, e) && Inner(e)
    ensures e.i < |s.ops| == |P.Step(s, e).ops| && PcRank(P.Step(s, e).ops[e.i]) < PcRank(s.ops[e.i])
  {
  }

  lemma WorkDropsInside(s: State, e: P.Event)
    requires Inv(s) && Enabled(s, Permit(e))
    ensures |P.Step(s.permits, e).ops| == |s.calls|
    ensures Work(s.(permits := P.Step(s.permits, e)), |s.calls|) < Work(s, |s.calls|)
  {
    PermitStepLocal(s.permits, e);
    PcRankDrops(s.permits, e);
    WorkLocal(s, s.(permits := P.Step(s.permits, e)), e.i, |s.calls|);
  }

  lemma ReleaseRank(s: State, e: Event)
    requires Inv(s) && Enabled(s, e) && !e.Arrive? && !e.Rebuild? && !e.Permit?
    ensures var permits := PermitsAfter(s, e);
      && |permits.ops| == |s.permits.ops|
      && (forall j :: 0 <= j < |permits.ops| && j != e.i ==> permits.ops[j] == s.permits.ops[j])
      && PcRank(permits.ops[e.i]) <= PcRank(s.permits.ops[e.i])
  {
    InvCall(s, e);
  }

  lemma WorkDropsOutside(s: State, e: Event, permits: P.State)
    requires Inv(s) && Enabled(s, e) && !e.Arrive? && !e.Rebuild? && !e.Permit?
    requires permits == PermitsAfter(s, e)
    ensures |permits.ops| == |s.calls|
    ensures Work(s.(permits := permits,
                    calls := s.calls[e.i := CallStep(s.calls[e.i], e, s.calls[e.i].agent in s.gateways)]), |s.calls|)
          < Work(s, |s.calls|)
  {
    var c := CallStep(s.calls[e.i], e, s.calls[e.i].agent in s.gateways);
    ReleaseRank(s, e);
    CallRankDrops(s.calls[e.i], s.permits.ops[e.i], e, s.calls[e.i].agent in s.gateways);
    WorkLocal(s, s.(permits := permits, calls := s.calls[e.i := c]), e.i, |s.calls|);
  }

  lemma WorkDrops(s: State, e: Event)
    requires Inv(s) && Enabled(s, e) && !e.Arrive? && !e.Rebuild?
    ensures |Step(s, e).calls| == |s.calls| == |Step(s, e).permits.ops|
    ensures Work(Step(s, e), |s.calls|) < Work(s, |s.calls|)
  {
    if e.Permit? {
      WorkDropsInside(s, e.e);
    } else {
      WorkDropsOutside(s, e, PermitsAfter(s, e));
    }
  }

  /** The events of a run that are not configuration reloads. */
  function Moves(es: seq<Event>): nat {
    if es == [] then 0 else (if es[0].Rebuild? then 0 else 1) + Moves(es[1..])
  }

  /** Without new calls the router cannot go on for ever, whatever the interleaving and however often
      its configuration is reloaded. */
  lemma {:induction false} RunsEnd(s: State, es: seq<Event>)
    requires Inv(s) && Run(s, es).Some?
    requires forall k :: 0 <= k < |es| ==> !es[k].Arrive?
    ensures Moves(es) <= Work(s, |s.calls|)
    decreases |es|
  {
    if es != [] {
      InvStep(s, es[0]);
      if es[0].Rebuild? {
        ReloadIsFree(s, es[0].agents, |s.calls|);
      } else {
        WorkDrops(s, es[0]);
      }
      RunsEnd(Step(s, es[0]), es[1..]);
    }
  }

  lemma {:induction false} ReloadIsFree(s: State, agents: set<string>, n: nat)
    requires n <= |s.calls| && n <= |s.permits.ops|
    ensures Work(s.(gateways := agents), n) == Work(s, n)
  {
    if n > 0 { ReloadIsFree(s, agents, n - 1); }
  }

  // ---- The router itself ----

  /** AgentRouter's own methods, when nothing runs between their steps. What the clock, the agent's
      process and the queue timer do is passed in. */
  class AgentRouter {
    var gateways: set<string>
    const concurrency: P.Controller

    constructor (maxConcurrent: int, agents: set<string>)
      ensures gateways == agents && fresh(concurrency)
      ensures concurrency.S() == P.Init(if maxConcurrent <= 0 then 8 else maxConcurrent)
    {
      gateways := agents;
      concurrency := new P.Controller(if maxConcurrent <= 0 then 8 else maxConcurrent);
    }

    /** The new table is in place before the replaced gateways are closed, each of them once. */
    method RebuildGateways(agents: set<string>) returns (closed: set<string>)
      modifies this
      ensures gateways == agents
      ensures closed == old(gateways)
    {
      var replaced := gateways;
      gateways := agents;
      closed := {};
      var rest := replaced;
      while rest != {}
        invariant rest !! closed && rest + closed == replaced
        invariant gateways == agents
      {
        var gw :| gw in rest;
        closed, rest := closed + {gw}, rest - {gw};
      }
    }

    /** Run: a call that is given back to its caller holds one permit; a call that fails holds none. */
    method Run(agent: string, timerFires: bool, startWorks: bool) returns (ok: bool)
      requires P.Exact(concurrency.S()) && (!timerFires ==> concurrency.tokens > 0)
      modifies concurrency
      ensures ok <==> !timerFires && agent in gateways && startWorks
      ensures concurrency.active == old(concurrency.active) + (if ok then 1 else 0)
      ensures concurrency.tokens == old(concurrency.tokens) - (if ok then 1 else 0)
      ensures concurrency.ops == old(concurrency.ops)
        + [if timerFires then P.Refused else if ok then P.Holding else P.Released]
    {
      ghost var i := |concurrency.ops|;
      var granted := concurrency.Acquire(timerFires);
      if !granted { return false; }
      if agent !in gateways {
        concurrency.Release(0, i);
        return false;
      }
      if !startWorks {
        concurrency.Release(0, i);
        return false;
      }
      return true;
    }

    /** The waiter goroutine that Run leaves behind, once ErrCh has delivered. */
    method Waiter(start: int, now: int, ghost i: nat)
      requires P.Exact(concurrency.S()) && P.At(concurrency.S(), i, P.Holding)
      modifies concurrency
      ensures concurrency.active == old(concurrency.active) - 1
      ensures concurrency.tokens == old(concurrency.tokens) + 1
      ensures concurrency.ops == old(concurrency.ops)[i := P.Released]
      ensures concurrency.recorded == old(concurrency.recorded) + [now - start]
    {
      HolderCanReturn(concurrency.S(), i);
      concurrency.Release(now - start, i);
    }

    /** RunSync: whatever the gateway does, the permit is back when the call returns. The argument of a
        deferred call is evaluated at the defer statement, so what is recorded as latency is the time
        between `start` and that statement; the turn itself, over at `finish`, is not in it. */
    method RunSync(agent: string, timerFires: bool, start: int, atDefer: int, finish: int) returns (ok: bool)
      requires P.Exact(concurrency.S()) && (!timerFires ==> concurrency.tokens > 0)
      requires start <= atDefer <= finish
      modifies concurrency
      ensures ok <==> !timerFires && agent in gateways
      ensures concurrency.active == old(concurrency.active) && concurrency.tokens == old(concurrency.tokens)
      ensures concurrency.ops == old(concurrency.ops) + [if timerFires then P.Refused else P.Released]
      ensures !timerFires ==> concurrency.recorded == old(concurrency.recorded) + [atDefer - start]
    {
      ghost var i := |concurrency.ops|;
      var granted := concurrency.Acquire(timerFires);
      if !granted { return false; }
      var latency := atDefer - start;
      ok := agent in gateways;
      concurrency.Release(latency, i);
    }
  }

  /** A holder of a matched run finds an active permit and room in the channel. */
  lemma HolderCanReturn(s: P.State, i: nat)
    requires P.Exact(s) && P.At(s, i, P.Holding)
    ensures s.active > 0 && s.tokens < s.cap
  {
    P.CountPositive(s.ops, i, P.HELD);
  }
}
