/**
 Turns on one agent process: the turn goroutines of internal/runner/acp.go (runTurn), the read loop of
 internal/acp/client.go, and an agent that writes arbitrary lines. Each lock operation, channel
 operation and handler swap is one event; the events of all goroutines interleave freely.
*/
module Turns {
  import opened Wrappers
  import opened Events

  datatype Pc =
    | Queued              // waiting for turnMu
    | Preparing           // holds turnMu; client and session
    | Announced           // SessionInit is sent; model and mode are configured
    | Listening           // the handler is installed
    | Prompting           // session/prompt is written, waiting in Request
    | Answered            // Request returned a result
    | Clearing(ok: bool)  // before SetHandler(nil)
    | Unlocking(ok: bool) // before turnMu.Unlock
    | Finished(ok: bool)  // runTurn has returned

  /** `reply` is the channel of the turn's prompt request; `log` is what went into the events channel;
      `missed` and `marks` are histories: the events that found the channel closed, and the marks. */
  datatype Turn = Turn(pc: Pc, reply: Option<bool>, log: seq<Event>, closed: bool, missed: seq<Event>, marks: Marks)

  /** Counts of the agent's lines: those read when the handler was installed, those written when the
      prompt was written, those read when the response to the prompt had been, and those read when the
      handler was removed. */
  datatype Marks = Marks(from: nat, asked: nat, answered: Option<nat>, upto: nat)

  const NewTurn := Turn(Queued, None, [], false, [], Marks(0, 0, None, 0))

  /** A line on the agent's stdout, as far as turns are concerned: one that a turn's handler turns into
      events (TurnText says how), the response to a turn's prompt, or one that has no effect here. */
  datatype Line = Update(events: AgentEvents) | Answer(turn: nat, ok: bool) | Other

  function EventsOf(l: Line): AgentEvents {
    if l.Update? then l.events else []
  }

  /** The read loop: between lines, or inside the handler it picked up when the line came. */
  datatype Loop = Idle | Emitting(handler: Option<nat>, rest: seq<Event>)

  /** One event that the read loop has dealt with, and the turn it reached, if any. */
  datatype Routed = Routed(event: Event, turn: Option<nat>)

  /** `read` and `routed` are histories: the lines taken so far, and what became of their events. */
  datatype State = State(
    turns: seq<Turn>, holder: Option<nat>, handler: Option<nat>, stdout: seq<Line>, loop: Loop,
    read: seq<Line>, routed: seq<Routed>)

  datatype Step =
    | Start
    | Lock(t: nat)
    | PrepareFails(t: nat)
    | Announce(t: nat, sessionID: string)
    | Listen(t: nat)
    | Prompt(t: nat)
    | PromptFails(t: nat)
    | ContextEnds(t: nat)
    | Receive(t: nat)
    | SendDone(t: nat, stopReason: string)
    | ClearHandler(t: nat)
    | Unlock(t: nat)
    | CloseEvents(t: nat)
    | Write(line: Line)      // the agent
    | Die(t: nat)            // failPending reaches the turn's request
    | Read                   // the read loop takes a line and the handlers that are installed
    | Emit                   // the handler sends its next event

  const Init := State([], None, None, [], Idle, [], [])

  predicate At(s: State, t: nat, pc: Pc) {
    t < |s.turns| && s.turns[t].pc == pc
  }

  predicate Enabled(s: State, e: Step) {
    match e
    case Start => true
    case Lock(t) => At(s, t, Queued) && s.holder.None?
    case PrepareFails(t) => At(s, t, Preparing)
    case Announce(t, _) => At(s, t, Preparing)
    case Listen(t) => At(s, t, Announced)
    case Prompt(t) => At(s, t, Listening)
    case PromptFails(t) => At(s, t, Listening)
    case ContextEnds(t) => At(s, t, Prompting)
    case Receive(t) => At(s, t, Prompting) && s.turns[t].reply.Some?
    case SendDone(t, _) => At(s, t, Answered)
    case ClearHandler(t) => t < |s.turns| && s.turns[t].pc.Clearing?
    case Unlock(t) => t < |s.turns| && s.turns[t].pc.Unlocking?
    case CloseEvents(t) => t < |s.turns| && s.turns[t].pc.Finished?
    case Write(_) => true
    case Die(t) => At(s, t, Prompting) && s.turns[t].reply.None?
    case Read => s.loop == Idle && s.stdout != []
    case Emit => s.loop.Emitting?
  }

  function Set(s: State, t: nat, turn: Turn): State
    requires t < |s.turns|
  {
    s.(turns := s.turns[t := turn])
  }

  function SetPc(s: State, t: nat, pc: Pc): State
    requires t < |s.turns|
  {
    Set(s, t, s.turns[t].(pc := pc))
  }

  function Log(s: State, t: nat, e: Event): State
    requires t < |s.turns|
  {
    Set(s, t, s.turns[t].(log := s.turns[t].log + [e]))
  }

  function Mark(s: State, t: nat, marks: Marks): State
    requires t < |s.turns|
  {
    Set(s, t, s.turns[t].(marks := marks))
  }

  /** A send on a closed events channel panics; emitEvent recovers and the event is lost. */
  predicate Reaches(s: State, handler: Option<nat>) {
    handler.Some? && handler.value < |s.turns| && !s.turns[handler.value].closed
  }

  function WithAnswer(turn: Turn, ok: bool, read: nat): Turn {
    turn.(reply := Some(ok), marks := turn.marks.(answered := Some(read)))
  }

  function Next(s: State, e: Step): State
    requires Enabled(s, e)
  {
    match e
    case Start => s.(turns := s.turns + [NewTurn])
    case Lock(t) => SetPc(s, t, Preparing).(holder := Some(t))
    case PrepareFails(t) => SetPc(s, t, Unlocking(false))
    case Announce(t, sessionID) => SetPc(Log(s, t, SessionInit(sessionID)), t, Announced)
    case Listen(t) => Mark(SetPc(s, t, Listening), t, s.turns[t].marks.(from := |s.read|)).(handler := Some(t))
    case Prompt(t) => Mark(SetPc(s, t, Prompting), t, s.turns[t].marks.(asked := |s.read| + |s.stdout|))
    case PromptFails(t) => SetPc(s, t, Clearing(false))
    case ContextEnds(t) => SetPc(s, t, Clearing(false))
    case Receive(t) => SetPc(s, t, if s.turns[t].reply.value then Answered else Clearing(false))
    case SendDone(t, stopReason) => SetPc(Log(s, t, Done(stopReason)), t, Clearing(true))
    case ClearHandler(t) =>
      Mark(SetPc(s, t, Unlocking(s.turns[t].pc.ok)), t, s.turns[t].marks.(upto := |s.read|)).(handler := None)
    case Unlock(t) => SetPc(s, t, Finished(s.turns[t].pc.ok)).(holder := None)
    case CloseEvents(t) => Set(s, t, s.turns[t].(closed := true))
    case Write(line) => s.(stdout := s.stdout + [line])
    case Die(t) => Set(s, t, s.turns[t].(reply := Some(false)))
    case Read =>
      var line := s.stdout[0];
      var s1 := s.(stdout := s.stdout[1..], read := s.read + [line]);
      (match line
       case Answer(t, ok) =>
         if At(s, t, Prompting) && s.turns[t].reply.None?
         then Set(s1, t, WithAnswer(s.turns[t], ok, |s1.read|))
         else s1
       case _ =>
         if EventsOf(line) != [] then s1.(loop := Emitting(s.handler, EventsOf(line))) else s1)
    case Emit => EmitOne(s)
  }

  function EmitOne(s: State): State
    requires s.loop.Emitting?
  {
    if s.loop.rest == [] then s.(loop := Idle)
    else
      var e := s.loop.rest[0];
      var s1 := s.(loop := if |s.loop.rest| == 1 then Idle else s.loop.(rest := s.loop.rest[1..]));
      if Reaches(s, s.loop.handler)
      then Log(s1, s.loop.handler.value, e).(routed := s.routed + [Routed(e, s.loop.handler)])
      else Missed(s1, s.loop.handler, e).(routed := s.routed + [Routed(e, None)])
  }

  function Missed(s: State, handler: Option<nat>, e: Event): State {
    if handler.Some? && handler.value < |s.turns|
    then Set(s, handler.value, s.turns[handler.value].(missed := s.turns[handler.value].missed + [e]))
    else s
  }

  function Run(s: State, es: seq<Step>): Option<State>
    decreases |es|
  {
    if es == [] then Some(s)
    else if Enabled(s, es[0]) then Run(Next(s, es[0]), es[1..])
    else None
  }

  // ---- One turn at a time ----

  /** Between turnMu.Lock and turnMu.Unlock. */
  predicate Inside(pc: Pc) {
    !pc.Queued? && !pc.Finished?
  }

  /** Between SetHandler(handler) and SetHandler(nil). */
  predicate Hears(pc: Pc) {
    pc.Listening? || pc.Prompting? || pc.Answered? || pc.Clearing?
  }

  ghost predicate Exclusive(s: State) {
    && (forall t :: 0 <= t < |s.turns| ==> (Inside(s.turns[t].pc) <==> s.holder == Some(t)))
    && (forall t :: 0 <= t < |s.turns| ==> (Hears(s.turns[t].pc) <==> s.handler == Some(t)))
    && (s.holder.Some? ==> s.holder.value < |s.turns|)
    && (s.handler.Some? ==> s.handler.value < |s.turns|)
  }

  /** The steps that move no goroutine from one point of runTurn to another. */
  predicate Quiet(e: Step) {
    e.Write? || e.Die? || e.Read? || e.Emit? || e.CloseEvents?
  }

  lemma QuietStep(s: State, e: Step)
    requires Enabled(s, e) && Quiet(e)
    ensures var s1 := Next(s, e);
      && |s1.turns| == |s.turns| && s1.holder == s.holder && s1.handler == s.handler
      && (forall t :: 0 <= t < |s.turns| ==> s1.turns[t].pc == s.turns[t].pc)
  {
  }

  lemma LoudStep(s: State, e: Step)
    requires Enabled(s, e) && !Quiet(e) && !e.Start?
    ensures var s1 := Next(s, e);
      && e.t < |s.turns| == |s1.turns|
      && s1.turns == s.turns[e.t := s1.turns[e.t]]
      && s1.stdout == s.stdout && s1.loop == s.loop && s1.read == s.read && s1.routed == s.routed
      && s1.holder == (if e.Lock? then Some(e.t) else if e.Unlock? then None else s.holder)
      && s1.handler == (if e.Listen? then Some(e.t) else if e.ClearHandler? then None else s.handler)
      && (Inside(s1.turns[e.t].pc) <==> !e.Unlock?)
      && (Hears(s1.turns[e.t].pc) <==> (Hears(s.turns[e.t].pc) && !e.ClearHandler?) || e.Listen?)
  {
  }

  lemma ExclusiveStep(s: State, e: Step)
    requires Exclusive(s) && Enabled(s, e)
    ensures Exclusive(Next(s, e))
  {
    if Quiet(e) {
      QuietStep(s, e);
    } else if !e.Start? {
      LoudStep(s, e);
    }
  }

  // ---- The shape of a turn's events ----

  predicate Succeeded(pc: Pc) {
    pc == Clearing(true) || pc == Unlocking(true) || pc == Finished(true)
  }

  /** A turn's channel carries nothing before SessionInit; Done is sent exactly by the turns that
      succeed; and everything else came from the agent. */
  predicate Shaped(turn: Turn) {
    && (turn.pc.Queued? || turn.pc.Preparing? ==> turn.log == [])
    && (turn.log != [] ==> turn.log[0].SessionInit?)
    && (Hears(turn.pc) || turn.pc.Announced? ==> turn.log != [])
    && (Succeeded(turn.pc) <==> Dones(turn.log) == 1)
    && (!Succeeded(turn.pc) ==> Dones(turn.log) == 0)
    && (forall i :: 1 <= i < |turn.log| ==> FromAgent(turn.log[i]) || turn.log[i].Done?)
  }

  function Dones(log: seq<Event>): nat {
    if log == [] then 0 else Dones(log[..|log| - 1]) + (if log[|log| - 1].Done? then 1 else 0)
  }

  lemma DonesSnoc(log: seq<Event>, e: Event)
    ensures Dones(log + [e]) == Dones(log) + (if e.Done? then 1 else 0)
  {
    assert (log + [e])[..|log|] == log;
  }

  /** The agent's events in a turn's channel, in order. */
  function Payload(log: seq<Event>): seq<Event> {
    if log == [] then []
    else Payload(log[..|log| - 1]) + (if FromAgent(log[|log| - 1]) then [log[|log| - 1]] else [])
  }

  lemma PayloadSnoc(log: seq<Event>, e: Event)
    ensures Payload(log + [e]) == Payload(log) + (if FromAgent(e) then [e] else [])
  {
    assert (log + [e])[..|log|] == log;
  }

  function AllEvents(ls: seq<Line>): seq<Event> {
    if ls == [] then [] else AllEvents(ls[..|ls| - 1]) + EventsOf(ls[|ls| - 1])
  }

  lemma AllEventsSnoc(ls: seq<Line>, l: Line)
    ensures AllEvents(ls + [l]) == AllEvents(ls) + EventsOf(l)
  {
    assert (ls + [l])[..|ls|] == ls;
  }

  function Handled(routed: seq<Routed>): seq<Event> {
    seq(|routed|, i requires 0 <= i < |routed| => routed[i].event)
  }

  function RoutedTo(routed: seq<Routed>, t: nat): seq<Event> {
    if routed == [] then []
    else
      var r := routed[|routed| - 1];
      RoutedTo(routed[..|routed| - 1], t) + (if r.turn == Some(t) then [r.event] else [])
  }

  lemma RoutedToSnoc(routed: seq<Routed>, r: Routed, t: nat)
    ensures RoutedTo(routed + [r], t) == RoutedTo(routed, t) + (if r.turn == Some(t) then [r.event] else [])
  {
    assert (routed + [r])[..|routed|] == routed;
  }

  lemma {:induction false} RoutedToNobody(routed: seq<Routed>, t: nat)
    requires forall i :: 0 <= i < |routed| ==> routed[i].turn != Some(t)
    ensures RoutedTo(routed, t) == []
  {
    if routed != [] { RoutedToNobody(routed[..|routed| - 1], t); }
  }

  function Rest(loop: Loop): seq<Event> {
    if loop.Emitting? then loop.rest else []
  }

  /** The read loop loses, repeats and reorders nothing: what it has dealt with and what is still in its
      hand are the events of the lines read, in order; and a turn got exactly those routed to it. */
  ghost predicate Delivered(s: State) {
    && Handled(s.routed) + Rest(s.loop) == AllEvents(s.read)
    && (forall i :: 0 <= i < |s.routed| && s.routed[i].turn.Some? ==> s.routed[i].turn.value < |s.turns|)
    && (forall i :: 0 <= i < |Rest(s.loop)| ==> FromAgent(Rest(s.loop)[i]))
    && (s.loop.Emitting? && s.loop.handler.Some? ==>
          s.loop.handler.value < |s.turns| && s.turns[s.loop.handler.value].log != [])
  }

  predicate TurnOk(turn: Turn, routed: seq<Routed>, t: nat) {
    Shaped(turn) && Payload(turn.log) == RoutedTo(routed, t)
  }

  ghost predicate TurnsOk(s: State) {
    forall t :: 0 <= t < |s.turns| ==> TurnOk(s.turns[t], s.routed, t)
  }

  ghost predicate Inv(s: State) {
    Exclusive(s) && TurnsOk(s) && Delivered(s)
  }

  /** What a step of a turn's own goroutine adds to the turn's channel. */
  function Sends(e: Step): seq<Event> {
    match e
    case Announce(_, sessionID) => [SessionInit(sessionID)]
    case SendDone(_, stopReason) => [Done(stopReason)]
    case _ => []
  }

  function MarksAfter(s: State, e: Step): Marks
    requires Enabled(s, e) && !Quiet(e) && !e.Start?
  {
    var m := s.turns[e.t].marks;
    match e
    case Listen(_) => m.(from := |s.read|)
    case Prompt(_) => m.(asked := |s.read| + |s.stdout|)
    case ClearHandler(_) => m.(upto := |s.read|)
    case _ => m
  }

  lemma SendsStep(s: State, e: Step)
    requires Enabled(s, e) && !Quiet(e) && !e.Start?
    ensures e.t < |s.turns| && Next(s, e).turns[e.t].log == s.turns[e.t].log + Sends(e)
    ensures Next(s, e).turns[e.t].closed == s.turns[e.t].closed
    ensures Next(s, e).turns[e.t].reply == s.turns[e.t].reply
    ensures Next(s, e).turns[e.t].missed == s.turns[e.t].missed
    ensures Next(s, e).turns[e.t].marks == MarksAfter(s, e)
  {
  }

  /** The points of runTurn that a step leads from and to. */
  predicate Moves(e: Step, from: Pc, to: Pc) {
    match e
    case Lock(_) => from == Queued && to == Preparing
    case PrepareFails(_) => from == Preparing && to == Unlocking(false)
    case Announce(_, _) => from == Preparing && to == Announced
    case Listen(_) => from == Announced && to == Listening
    case Prompt(_) => from == Listening && to == Prompting
    case PromptFails(_) => from == Listening && to == Clearing(false)
    case ContextEnds(_) => from == Prompting && to == Clearing(false)
    case Receive(_) => from == Prompting && (to == Answered || to == Clearing(false))
    case SendDone(_, _) => from == Answered && to == Clearing(true)
    case ClearHandler(_) => from.Clearing? && to == Unlocking(from.ok)
    case Unlock(_) => from.Unlocking? && to == Finished(from.ok)
    case _ => false
  }

  lemma MovesStep(s: State, e: Step)
    requires Enabled(s, e) && !Quiet(e) && !e.Start?
    ensures e.t < |s.turns| == |Next(s, e).turns| && Moves(e, s.turns[e.t].pc, Next(s, e).turns[e.t].pc)
  {
  }

  lemma {:induction false} ShapedMove(turn: Turn, e: Step, next: Turn)
    requires Shaped(turn) && Moves(e, turn.pc, next.pc)
    requires Sends(e) == [] && next.log == turn.log
    ensures Shaped(next)
  {
  }

  lemma {:induction false} ShapedInit(turn: Turn, next: Turn, e: Event)
    requires Shaped(turn) && turn.pc == Preparing && next.pc == Announced && e.SessionInit?
    requires next.log == turn.log + [e]
    ensures Shaped(next)
  {
    DonesSnoc(turn.log, e);
  }

  lemma {:induction false} ShapedDone(turn: Turn, next: Turn, e: Event)
    requires Shaped(turn) && turn.pc == Answered && next.pc == Clearing(true) && e.Done?
    requires next.log == turn.log + [e]
    ensures Shaped(next)
  {
    DonesSnoc(turn.log, e);
    assert forall i :: 0 <= i < |turn.log| ==> next.log[i] == turn.log[i];
  }

  lemma {:induction false} ShapedAnnounce(turn: Turn, e: Step, next: Turn)
    requires Shaped(turn) && e.Announce? && turn.pc == Preparing && next.pc == Announced
    requires next.log == turn.log + [SessionInit(e.sessionID)]
    ensures Shaped(next) && Payload(next.log) == Payload(turn.log)
  {
    PayloadSnoc(turn.log, SessionInit(e.sessionID));
    ShapedInit(turn, next, SessionInit(e.sessionID));
  }

  lemma {:induction false} ShapedEnd(turn: Turn, e: Step, next: Turn)
    requires Shaped(turn) && e.SendDone? && turn.pc == Answered && next.pc == Clearing(true)
    requires next.log == turn.log + [Done(e.stopReason)]
    ensures Shaped(next) && Payload(next.log) == Payload(turn.log)
  {
    PayloadSnoc(turn.log, Done(e.stopReason));
    ShapedDone(turn, next, Done(e.stopReason));
  }

  lemma {:induction false} LoudTurn(turn: Turn, e: Step, next: Turn, routed: seq<Routed>, t: nat)
    requires TurnOk(turn, routed, t) && Moves(e, turn.pc, next.pc) && next.log == turn.log + Sends(e)
    ensures TurnOk(next, routed, t)
  {
    if e.Announce? {
      ShapedAnnounce(turn, e, next);
    } else if e.SendDone? {
      ShapedEnd(turn, e, next);
    } else {
      assert next.log == turn.log;
      ShapedMove(turn, e, next);
    }
  }

  lemma LoudKeeps(s: State, s1: State, t: nat, sent: seq<Event>)
    requires TurnsOk(s) && Delivered(s)
    requires |s1.turns| == |s.turns| && t < |s.turns| && s1.turns == s.turns[t := s1.turns[t]]
    requires s1.loop == s.loop && s1.read == s.read && s1.routed == s.routed
    requires TurnOk(s1.turns[t], s.routed, t) && s1.turns[t].log == s.turns[t].log + sent
    ensures TurnsOk(s1) && Delivered(s1)
  {
    forall i | 0 <= i < |s1.turns| ensures TurnOk(s1.turns[i], s1.routed, i) {
      assert TurnOk(s.turns[i], s.routed, i);
    }
  }

  lemma StartKeeps(s: State, s1: State)
    requires TurnsOk(s) && Delivered(s)
    requires s1 == s.(turns := s.turns + [NewTurn])
    ensures TurnsOk(s1) && Delivered(s1)
  {
    FreshTurnOk(s.routed, |s.turns|);
    forall i | 0 <= i < |s1.turns| ensures TurnOk(s1.turns[i], s1.routed, i) {
      if i < |s.turns| { assert TurnOk(s.turns[i], s.routed, i); }
    }
  }

  lemma FreshTurnOk(routed: seq<Routed>, t: nat)
    requires forall i :: 0 <= i < |routed| && routed[i].turn.Some? ==> routed[i].turn.value < t
    ensures TurnOk(NewTurn, routed, t)
  {
    RoutedToNobody(routed, t);
  }

  /** Nothing that concerns the channels has changed. */
  predicate SameLogs(s: State, s1: State) {
    && |s1.turns| == |s.turns|
    && s1.routed == s.routed
    && (forall t :: 0 <= t < |s.turns| ==> s1.turns[t].pc == s.turns[t].pc && s1.turns[t].log == s.turns[t].log)
  }

  lemma QuietKeeps(s: State, s1: State)
    requires TurnsOk(s) && Delivered(s) && SameLogs(s, s1)
    requires s1.loop == s.loop && s1.read == s.read
    ensures TurnsOk(s1) && Delivered(s1)
  {
    SameLogsKeep(s, s1);
  }

  lemma SameLogsKeep(s: State, s1: State)
    requires TurnsOk(s) && SameLogs(s, s1)
    ensures TurnsOk(s1)
  {
    forall t | 0 <= t < |s1.turns| ensures TurnOk(s1.turns[t], s1.routed, t) {
      assert TurnOk(s.turns[t], s.routed, t);
    }
  }

  lemma ReadStep(s: State, s1: State)
    requires Enabled(s, Read) && s1 == Next(s, Read)
    ensures SameLogs(s, s1) && s1.read == s.read + [s.stdout[0]] && s1.stdout == s.stdout[1..]
    ensures Rest(s.loop) == [] && Rest(s1.loop) == EventsOf(s.stdout[0])
    ensures s1.loop.Emitting? ==> s1.loop.handler == s.handler
  {
  }

  lemma ReadKeeps(s: State, s1: State, line: Line)
    requires Exclusive(s) && TurnsOk(s) && Delivered(s) && SameLogs(s, s1)
    requires s1.read == s.read + [line] && Rest(s.loop) == [] && Rest(s1.loop) == EventsOf(line)
    requires s1.loop.Emitting? ==> s1.loop.handler == s.handler
    ensures TurnsOk(s1) && Delivered(s1)
  {
    SameLogsKeep(s, s1);
    AllEventsSnoc(s.read, line);
    if s.handler.Some? { assert TurnOk(s.turns[s.handler.value], s.routed, s.handler.value); }
  }

  /** The turn that the next event of the read loop reaches, if any. */
  function Target(s: State): Option<nat>
    requires s.loop.Emitting?
  {
    if Reaches(s, s.loop.handler) then s.loop.handler else None
  }

  lemma EmitStep(s: State, s1: State)
    requires Enabled(s, Emit) && s1 == Next(s, Emit) && s.loop.rest != []
    ensures |s1.turns| == |s.turns| && s1.read == s.read && s1.stdout == s.stdout
    ensures s1.routed == s.routed + [Routed(s.loop.rest[0], Target(s))]
    ensures Rest(s1.loop) == s.loop.rest[1..]
    ensures s1.loop.Emitting? ==> s1.loop.handler == s.loop.handler
    ensures forall t :: 0 <= t < |s.turns| ==> s1.turns[t] == Hearing(s.turns[t], s.loop.handler == Some(t), s.loop.rest[0])
  {
  }

  /** What an event of the read loop makes of a turn. */
  function Hearing(turn: Turn, hears: bool, e: Event): Turn {
    if !hears then turn
    else if turn.closed then turn.(missed := turn.missed + [e])
    else turn.(log := turn.log + [e])
  }

  lemma EmitTurn(s: State, s1: State, e: Event, target: Option<nat>, hears: bool, t: nat)
    requires t < |s.turns| == |s1.turns| && TurnOk(s.turns[t], s.routed, t) && FromAgent(e)
    requires target == Some(t) <==> hears && !s.turns[t].closed
    requires hears ==> s.turns[t].log != []
    requires s1.routed == s.routed + [Routed(e, target)]
    requires s1.turns[t] == Hearing(s.turns[t], hears, e)
    ensures TurnOk(s1.turns[t], s1.routed, t)
  {
    RoutedToSnoc(s.routed, Routed(e, target), t);
    DonesSnoc(s.turns[t].log, e);
    PayloadSnoc(s.turns[t].log, e);
  }

  lemma EmitRouted(s: State, s1: State, r: Routed)
    requires Delivered(s) && s.loop.Emitting? && s.loop.rest != [] && r.event == s.loop.rest[0]
    requires s1.routed == s.routed + [r] && Rest(s1.loop) == s.loop.rest[1..] && s1.read == s.read
    ensures Handled(s1.routed) + Rest(s1.loop) == AllEvents(s1.read)
  {
    assert Handled(s1.routed) == Handled(s.routed) + [r.event];
    assert [r.event] + s.loop.rest[1..] == s.loop.rest;
    assert Handled(s1.routed) + Rest(s1.loop) == Handled(s.routed) + s.loop.rest;
  }

  lemma EmitKeeps(s: State, s1: State)
    requires TurnsOk(s) && Delivered(s) && Enabled(s, Emit) && s1 == Next(s, Emit) && s.loop.rest != []
    ensures TurnsOk(s1) && Delivered(s1)
  {
    EmitStep(s, s1);
    EmitRouted(s, s1, Routed(s.loop.rest[0], Target(s)));
    assert FromAgent(Rest(s.loop)[0]);
    forall t | 0 <= t < |s.turns| ensures TurnOk(s1.turns[t], s1.routed, t) {
      EmitTurn(s, s1, s.loop.rest[0], Target(s), s.loop.handler == Some(t), t);
    }
  }

  lemma QuietLogs(s: State, e: Step)
    requires Enabled(s, e) && (e.Write? || e.Die? || e.CloseEvents? || (e.Emit? && s.loop.rest == []))
    ensures SameLogs(s, Next(s, e)) && Rest(Next(s, e).loop) == Rest(s.loop) && Next(s, e).read == s.read
    ensures Next(s, e).loop == s.loop || Next(s, e).loop == Idle
  {
  }

  lemma EmptyEmitKeeps(s: State, s1: State)
    requires TurnsOk(s) && Delivered(s) && SameLogs(s, s1)
    requires s1.loop == Idle && Rest(s.loop) == [] && s1.read == s.read
    ensures TurnsOk(s1) && Delivered(s1)
  {
    SameLogsKeep(s, s1);
  }

  lemma InvStep(s: State, e: Step)
    requires Inv(s) && Enabled(s, e)
    ensures Inv(Next(s, e))
  {
    var s1 := Next(s, e);
    ExclusiveStep(s, e);
    if e.Start? {
      StartKeeps(s, s1);
    } else if e.Read? {
      ReadStep(s, s1);
      ReadKeeps(s, s1, s.stdout[0]);
    } else if e.Emit? && s.loop.rest != [] {
      EmitKeeps(s, s1);
    } else if Quiet(e) {
      QuietLogs(s, e);
      if s1.loop == s.loop { QuietKeeps(s, s1); } else { EmptyEmitKeeps(s, s1); }
    } else {
      LoudStep(s, e);
      SendsStep(s, e);
      MovesStep(s, e);
      LoudTurn(s.turns[e.t], e, s1.turns[e.t], s.routed, e.t);
      LoudKeeps(s, s1, e.t, Sends(e));
    }
  }

  lemma {:induction false} InvRun(s: State, es: seq<Step>)
    requires Inv(s) && Run(s, es).Some?
    ensures Inv(Run(s, es).value)
    decreases |es|
  {
    if es != [] {
      InvStep(s, es[0]);
      InvRun(Next(s, es[0]), es[1..]);
    }
  }

  /** The lines that the agent wrote along a run. */
  function Written(es: seq<Step>): seq<Line> {
    if es == [] then [] else (if es[0].Write? then [es[0].line] else []) + Written(es[1..])
  }

  lemma Assoc<T>(a: seq<T>, b: seq<T>, c: seq<T>)
    ensures (a + b) + c == a + (b + c)
  {
  }

  lemma {:induction false} LinesAreReadInOrder(s: State, es: seq<Step>)
    requires Run(s, es).Some?
    ensures Run(s, es).value.read + Run(s, es).value.stdout == s.read + s.stdout + Written(es)
    decreases |es|
  {
    if es != [] {
      var s1 := Next(s, es[0]);
      LinesStep(s, es[0]);
      LinesAreReadInOrder(s1, es[1..]);
      Assoc(s.read + s.stdout, if es[0].Write? then [es[0].line] else [], Written(es[1..]));
    }
  }

  lemma LinesStep(s: State, e: Step)
    requires Enabled(s, e)
    ensures Next(s, e).read + Next(s, e).stdout == s.read + s.stdout + (if e.Write? then [e.line] else [])
  {
    if Quiet(e) {
      if e.Emit? {
        assert Next(s, e).read == s.read && Next(s, e).stdout == s.stdout;
      } else if e.Read? {
        ReadStep(s, Next(s, e));
        assert s.stdout == [s.stdout[0]] + s.stdout[1..];
      }
    } else if !e.Start? {
      LoudStep(s, e);
      assert Next(s, e).read == s.read;
    }
  }

  /** Every run, every interleaving, any agent: turns never overlap; a turn's channel starts with
      SessionInit and carries one Done if the turn succeeded and none if it failed; and what it carries
      beside is agent events, each routed to one turn at most, in the order in which they were written. */
  lemma TurnsInEveryRun(es: seq<Step>, t: nat, u: nat)
    requires Run(Init, es).Some? && t < |Run(Init, es).value.turns| && u < |Run(Init, es).value.turns|
    ensures var s := Run(Init, es).value;
      && (Inside(s.turns[t].pc) && Inside(s.turns[u].pc) ==> t == u)
      && (s.turns[t].log != [] ==> s.turns[t].log[0].SessionInit?)
      && Dones(s.turns[t].log) == (if Succeeded(s.turns[t].pc) then 1 else 0)
      && Payload(s.turns[t].log) == RoutedTo(s.routed, t)
      && Handled(s.routed) + Rest(s.loop) == AllEvents(s.read)
      && s.read + s.stdout == Written(es)
  {
    InEveryRun(es);
    InvFacts(Run(Init, es).value, t, u);
  }

  lemma InEveryRun(es: seq<Step>)
    requires Run(Init, es).Some?
    ensures var s := Run(Init, es).value; Inv(s) && s.read + s.stdout == Written(es)
  {
    InvRun(Init, es);
    LinesAreReadInOrder(Init, es);
    assert Init.read + Init.stdout + Written(es) == Written(es);
  }

  lemma InvFacts(s: State, t: nat, u: nat)
    requires Inv(s) && t < |s.turns| && u < |s.turns|
    ensures Inside(s.turns[t].pc) && Inside(s.turns[u].pc) ==> t == u
    ensures s.turns[t].log != [] ==> s.turns[t].log[0].SessionInit?
    ensures Dones(s.turns[t].log) == (if Succeeded(s.turns[t].pc) then 1 else 0)
    ensures Payload(s.turns[t].log) == RoutedTo(s.routed, t)
    ensures Handled(s.routed) + Rest(s.loop) == AllEvents(s.read)
  {
    assert TurnOk(s.turns[t], s.routed, t);
  }

  // ---- Which of the agent's lines a turn hears ----

  /** What the read loop still holds for a turn. */
  function RestFor(loop: Loop, t: nat): seq<Event> {
    if loop.Emitting? && loop.handler == Some(t) then loop.rest else []
  }

  predicate Early(pc: Pc) {
    pc.Queued? || pc.Preparing? || pc.Announced?
  }

  /** The lines of a turn's window end here: where its handler went, or with the last line read. */
  function Upto(turn: Turn, read: seq<Line>): nat {
    if Hears(turn.pc) then |read| else turn.marks.upto
  }

  /** All that the lines read with a turn's handler installed gave rise to. */
  function Heard(turn: Turn, loop: Loop, t: nat): seq<Event> {
    Payload(turn.log) + turn.missed + RestFor(loop, t)
  }

  predicate Lifecycle(turn: Turn) {
    && (turn.closed ==> turn.pc.Finished?)
    && (!turn.closed ==> turn.missed == [])
    && (Early(turn.pc) ==> turn.marks.from == turn.marks.upto == 0)
    && (Early(turn.pc) || turn.pc.Listening? ==> turn.marks.answered.None? && turn.reply.None?)
    && (turn.reply == Some(true) || turn.pc.Answered? || Succeeded(turn.pc) ==> turn.marks.answered.Some?)
  }

  /** The response was read inside the window, and all that came before it is at the front of the log. */
  predicate AnswerOk(turn: Turn, t: nat, read: seq<Line>)
    requires turn.marks.answered.Some?
  {
    var from, answered := turn.marks.from, turn.marks.answered.value;
    && from <= turn.marks.asked && from < answered <= |read|
    && (!Hears(turn.pc) ==> answered <= turn.marks.upto)
    && read[answered - 1].Answer? && read[answered - 1].turn == t
    && |turn.log| >= 1 + |AllEvents(read[from..answered])|
    && turn.log[1..1 + |AllEvents(read[from..answered])|] == AllEvents(read[from..answered])
  }

  predicate HeardOk(turn: Turn, t: nat, read: seq<Line>, loop: Loop) {
    && turn.marks.from <= Upto(turn, read) <= |read|
    && Heard(turn, loop, t) == AllEvents(read[turn.marks.from..Upto(turn, read)])
  }

  predicate WindowOk(turn: Turn, t: nat, read: seq<Line>, loop: Loop) {
    && Lifecycle(turn)
    && HeardOk(turn, t, read, loop)
    && (turn.pc.Prompting? ==> turn.marks.from <= turn.marks.asked)
    && (turn.marks.answered.Some? ==> AnswerOk(turn, t, read))
  }

  ghost predicate Windows(s: State) {
    forall t :: 0 <= t < |s.turns| ==> WindowOk(s.turns[t], t, s.read, s.loop)
  }

  /** A log with SessionInit and without Done. */
  lemma {:induction false} UndoneIsPayload(log: seq<Event>)
    requires log != [] && log[0].SessionInit? && Dones(log) == 0
    requires forall i :: 1 <= i < |log| ==> FromAgent(log[i]) || log[i].Done?
    ensures Payload(log) == log[1..]
  {
    var n := |log| - 1;
    if n == 0 {
      assert log[..0] == [];
    } else {
      UndoneIsPayload(log[..n]);
      assert log[1..] == log[..n][1..] + [log[n]];
    }
  }

  lemma AllEventsNone()
    ensures AllEvents([]) == []
  {
  }

  lemma SliceSnoc<T>(s: seq<T>, x: T, i: nat, j: nat)
    requires i <= j <= |s|
    ensures (s + [x])[i..j] == s[i..j]
    ensures (s + [x])[i..|s| + 1] == s[i..|s|] + [x]
  {
  }

  lemma HeardGrows(turn: Turn, t: nat, read: seq<Line>, loop: Loop, line: Line, loop1: Loop)
    requires HeardOk(turn, t, read, loop) && RestFor(loop, t) == []
    requires RestFor(loop1, t) == if Hears(turn.pc) then EventsOf(line) else []
    ensures HeardOk(turn, t, read + [line], loop1)
  {
    SliceSnoc(read, line, turn.marks.from, Upto(turn, read));
    AllEventsSnoc(read[turn.marks.from..|read|], line);
    NothingBehind(Payload(turn.log) + turn.missed);
  }

  lemma NothingBehind<T>(s: seq<T>)
    ensures s + [] == s
  {
  }

  /** One line more, whoever hears it. */
  lemma WindowGrows(turn: Turn, t: nat, read: seq<Line>, loop: Loop, line: Line, loop1: Loop)
    requires WindowOk(turn, t, read, loop) && RestFor(loop, t) == []
    requires RestFor(loop1, t) == if Hears(turn.pc) then EventsOf(line) else []
    ensures WindowOk(turn, t, read + [line], loop1)
  {
    HeardGrows(turn, t, read, loop, line, loop1);
    AnswerGrows(turn, t, read, line);
  }

  lemma AnswerGrows(turn: Turn, t: nat, read: seq<Line>, line: Line)
    requires turn.marks.answered.Some? ==> AnswerOk(turn, t, read)
    ensures turn.marks.answered.Some? ==> AnswerOk(turn, t, read + [line])
  {
    if turn.marks.answered.Some? {
      SliceSnoc(read, line, turn.marks.from, turn.marks.answered.value);
    }
  }

  /** The response comes when everything before it has been dealt with. */
  lemma WindowAnswered(turn: Turn, t: nat, read: seq<Line>, loop: Loop, ok: bool)
    requires WindowOk(turn, t, read, loop) && RestFor(loop, t) == [] && Shaped(turn)
    requires turn.pc == Prompting && turn.reply.None?
    ensures WindowOk(WithAnswer(turn, ok, |read| + 1), t, read + [Answer(t, ok)], loop)
  {
    var read1 := read + [Answer(t, ok)];
    HeardGrows(turn, t, read, loop, Answer(t, ok), loop);
    UndoneIsPayload(turn.log);
    NothingBehind(turn.log[1..]);
    AnswerComes(turn, t, read1, ok);
    assert Heard(WithAnswer(turn, ok, |read1|), loop, t) == Heard(turn, loop, t);
    assert HeardOk(WithAnswer(turn, ok, |read1|), t, read1, loop);
  }

  lemma AnswerComes(turn: Turn, t: nat, read: seq<Line>, ok: bool)
    requires turn.pc == Prompting && turn.marks.from <= turn.marks.asked && turn.marks.from < |read| && Lifecycle(turn)
    requires read[|read| - 1] == Answer(t, ok) && turn.log != []
    requires turn.log[1..] == AllEvents(read[turn.marks.from..|read|])
    ensures AnswerOk(WithAnswer(turn, ok, |read|), t, read) && Lifecycle(WithAnswer(turn, ok, |read|))
  {
  }

  lemma WindowEmits(turn: Turn, t: nat, read: seq<Line>, loop: Loop, hears: bool, loop1: Loop)
    requires WindowOk(turn, t, read, loop) && Rest(loop) != [] && (hears <==> loop.handler == Some(t))
    requires FromAgent(Rest(loop)[0])
    requires RestFor(loop1, t) == if hears then Rest(loop)[1..] else []
    ensures WindowOk(Hearing(turn, hears, Rest(loop)[0]), t, read, loop1)
  {
    if hears {
      HeardEmits(turn, t, loop, loop1);
      LogGrows(turn, t, read, Rest(loop)[0]);
    }
  }

  lemma HeardEmits(turn: Turn, t: nat, loop: Loop, loop1: Loop)
    requires Rest(loop) != [] && loop.handler == Some(t) && RestFor(loop1, t) == Rest(loop)[1..]
    requires FromAgent(Rest(loop)[0]) && Lifecycle(turn)
    ensures Heard(Hearing(turn, true, Rest(loop)[0]), loop1, t) == Heard(turn, loop, t)
  {
    PayloadSnoc(turn.log, Rest(loop)[0]);
    HeadMoves(Payload(turn.log), turn.missed, Rest(loop));
    NothingBehind(Payload(turn.log));
    NothingBehind(Payload(turn.log) + [Rest(loop)[0]]);
  }

  lemma HeadMoves<T>(a: seq<T>, b: seq<T>, c: seq<T>)
    requires c != []
    ensures a + (b + [c[0]]) + c[1..] == a + b + c
    ensures a + [c[0]] + c[1..] == a + c
  {
  }

  lemma LogGrows(turn: Turn, t: nat, read: seq<Line>, e: Event)
    requires turn.marks.answered.Some? ==> AnswerOk(turn, t, read)
    ensures turn.marks.answered.Some? ==> AnswerOk(turn.(log := turn.log + [e]), t, read)
    ensures turn.marks.answered.Some? ==> AnswerOk(turn.(missed := turn.missed + [e]), t, read)
  {
    if turn.marks.answered.Some? {
      var n := |AllEvents(read[turn.marks.from..turn.marks.answered.value])|;
      assert (turn.log + [e])[1..1 + n] == turn.log[1..1 + n];
    }
  }

  /** A step of a turn's own goroutine. */
  predicate MovesTo(turn: Turn, e: Step, next: Turn, read: seq<Line>, written: nat) {
    && Moves(e, turn.pc, next.pc)
    && (e.Receive? ==> turn.reply.Some? && (next.pc.Answered? <==> turn.reply.value))
    && next == turn.(pc := next.pc, log := turn.log + Sends(e), marks := next.marks)
    && next.marks == match e
                     case Listen(_) => turn.marks.(from := |read|)
                     case Prompt(_) => turn.marks.(asked := written)
                     case ClearHandler(_) => turn.marks.(upto := |read|)
                     case _ => turn.marks
  }

  lemma MovesToStep(s: State, e: Step)
    requires Enabled(s, e) && !Quiet(e) && !e.Start?
    ensures e.t < |s.turns| == |Next(s, e).turns|
    ensures MovesTo(s.turns[e.t], e, Next(s, e).turns[e.t], s.read, |s.read| + |s.stdout|)
  {
    MovesStep(s, e);
    SendsStep(s, e);
  }

  lemma WindowMoves(turn: Turn, e: Step, next: Turn, t: nat, read: seq<Line>, loop: Loop, written: nat)
    requires WindowOk(turn, t, read, loop) && MovesTo(turn, e, next, read, written) && written >= |read|
    requires e.Listen? ==> RestFor(loop, t) == [] && Payload(turn.log) == []
    ensures WindowOk(next, t, read, loop)
  {
    LifecycleMoves(turn, e, next, read, written);
    MarksMove(turn, e, next, read, written);
    LogMoves(turn, e, next);
    if e.Listen? {
      assert read[|read|..|read|] == [];
      AllEventsNone();
    }
    if turn.marks.answered.Some? {
      AnswerMoves(turn, e, next, t, read, written);
    }
  }

  lemma MarksMove(turn: Turn, e: Step, next: Turn, read: seq<Line>, written: nat)
    requires MovesTo(turn, e, next, read, written) && Lifecycle(turn) && written >= |read|
    requires turn.marks.from <= Upto(turn, read) <= |read|
    requires turn.pc.Prompting? ==> turn.marks.from <= turn.marks.asked
    ensures next.marks.from <= Upto(next, read) <= |read|
    ensures next.pc.Prompting? ==> next.marks.from <= next.marks.asked
    ensures next.marks.answered == turn.marks.answered
    ensures if e.Listen? then next.marks.from == Upto(next, read) == |read|
            else next.marks.from == turn.marks.from && Upto(next, read) == Upto(turn, read)
  {
  }

  lemma LogMoves(turn: Turn, e: Step, next: Turn)
    requires next.log == turn.log + Sends(e)
    ensures Payload(next.log) == Payload(turn.log)
  {
    if Sends(e) == [] {
      assert next.log == turn.log;
    } else {
      PayloadSnoc(turn.log, Sends(e)[0]);
    }
  }

  lemma AnswerMoves(turn: Turn, e: Step, next: Turn, t: nat, read: seq<Line>, written: nat)
    requires turn.marks.answered.Some? && AnswerOk(turn, t, read) && MovesTo(turn, e, next, read, written)
    requires Lifecycle(turn)
    ensures next.marks.answered == turn.marks.answered && AnswerOk(next, t, read)
  {
    FrontStays(turn.log, Sends(e), |AllEvents(read[turn.marks.from..turn.marks.answered.value])|);
    MarksStay(turn, e, next, read, written);
  }

  lemma FrontStays<T>(a: seq<T>, b: seq<T>, n: nat)
    requires |a| >= 1 + n
    ensures (a + b)[1..1 + n] == a[1..1 + n]
  {
  }

  lemma MarksStay(turn: Turn, e: Step, next: Turn, read: seq<Line>, written: nat)
    requires turn.marks.answered.Some? && MovesTo(turn, e, next, read, written) && Lifecycle(turn)
    ensures next.marks == turn.marks.(upto := next.marks.upto)
    ensures Hears(next.pc) ==> Hears(turn.pc)
    ensures !Hears(next.pc) ==> next.marks.upto == if Hears(turn.pc) then |read| else turn.marks.upto
  {
  }

  lemma LifecycleMoves(turn: Turn, e: Step, next: Turn, read: seq<Line>, written: nat)
    requires Lifecycle(turn) && MovesTo(turn, e, next, read, written)
    ensures Lifecycle(next)
  {
  }

  lemma OthersKeep(s: State, s1: State, t: nat)
    requires Windows(s) && |s1.turns| == |s.turns| && t < |s.turns| && s1.turns == s.turns[t := s1.turns[t]]
    requires s1.read == s.read && s1.loop == s.loop && WindowOk(s1.turns[t], t, s.read, s.loop)
    ensures Windows(s1)
  {
    forall u | 0 <= u < |s1.turns| ensures WindowOk(s1.turns[u], u, s1.read, s1.loop) {
      assert WindowOk(s.turns[u], u, s.read, s.loop);
    }
  }

  lemma LoudWindows(s: State, e: Step)
    requires Inv(s) && Windows(s) && Enabled(s, e) && !Quiet(e) && !e.Start?
    ensures Windows(Next(s, e))
  {
    var s1 := Next(s, e);
    LoudStep(s, e);
    MovesToStep(s, e);
    assert WindowOk(s.turns[e.t], e.t, s.read, s.loop);
    if e.Listen? { NothingHeardYet(s, e.t); }
    WindowMoves(s.turns[e.t], e, s1.turns[e.t], e.t, s.read, s.loop, |s.read| + |s.stdout|);
    OthersKeep(s, s1, e.t);
  }

  lemma NothingHeardYet(s: State, t: nat)
    requires Windows(s) && At(s, t, Announced)
    ensures RestFor(s.loop, t) == [] && Payload(s.turns[t].log) == []
  {
    assert WindowOk(s.turns[t], t, s.read, s.loop);
    assert s.read[0..0] == [];
    AllEventsNone();
  }

  lemma StartWindows(s: State, s1: State)
    requires Inv(s) && Windows(s) && s1 == s.(turns := s.turns + [NewTurn])
    ensures Windows(s1)
  {
    var t := |s.turns|;
    assert s.read[0..0] == [];
    AllEventsNone();
    assert RestFor(s.loop, t) == [];
    assert WindowOk(NewTurn, t, s.read, s.loop);
    forall u | 0 <= u < |s1.turns| ensures WindowOk(s1.turns[u], u, s1.read, s1.loop) {
      if u < t { assert WindowOk(s.turns[u], u, s.read, s.loop); }
    }
  }

  lemma ReadOne(s: State, s1: State, t: nat)
    requires Enabled(s, Read) && s1 == Next(s, Read) && t < |s.turns|
    ensures |s1.turns| == |s.turns|
    ensures RestFor(s1.loop, t) == if s.handler == Some(t) then EventsOf(s.stdout[0]) else []
    ensures s1.turns[t] ==
      if s.stdout[0].Answer? && s.stdout[0].turn == t && At(s, t, Prompting) && s.turns[t].reply.None?
      then WithAnswer(s.turns[t], s.stdout[0].ok, |s.read| + 1)
      else s.turns[t]
    ensures s.stdout[0].Answer? ==> s1.loop == s.loop
  {
  }

  lemma ReadWindow(s: State, s1: State, t: nat)
    requires Enabled(s, Read) && s1 == Next(s, Read) && t < |s.turns| && Exclusive(s)
    requires WindowOk(s.turns[t], t, s.read, s.loop) && Shaped(s.turns[t])
    requires s1.read == s.read + [s.stdout[0]]
    ensures t < |s1.turns| && WindowOk(s1.turns[t], t, s1.read, s1.loop)
  {
    ReadOne(s, s1, t);
    assert Hears(s.turns[t].pc) <==> s.handler == Some(t);
    if s1.turns[t] == s.turns[t] {
      WindowGrows(s.turns[t], t, s.read, s.loop, s.stdout[0], s1.loop);
    } else {
      WindowAnswered(s.turns[t], t, s.read, s.loop, s.stdout[0].ok);
    }
  }

  lemma ReadWindows(s: State, s1: State)
    requires Inv(s) && Windows(s) && Enabled(s, Read) && s1 == Next(s, Read)
    ensures Windows(s1)
  {
    ReadStep(s, s1);
    forall t | 0 <= t < |s1.turns| ensures WindowOk(s1.turns[t], t, s1.read, s1.loop) {
      assert WindowOk(s.turns[t], t, s.read, s.loop) && TurnOk(s.turns[t], s.routed, t);
      ReadWindow(s, s1, t);
    }
  }

  lemma EmitWindows(s: State, s1: State)
    requires Inv(s) && Windows(s) && Enabled(s, Emit) && s1 == Next(s, Emit)
    ensures Windows(s1)
  {
    if s.loop.rest == [] {
      forall t | 0 <= t < |s1.turns| ensures WindowOk(s1.turns[t], t, s1.read, s1.loop) {
        assert WindowOk(s.turns[t], t, s.read, s.loop);
      }
    } else {
      EmitStep(s, s1);
      assert FromAgent(Rest(s.loop)[0]);
      forall t | 0 <= t < |s1.turns| ensures WindowOk(s1.turns[t], t, s1.read, s1.loop) {
        assert WindowOk(s.turns[t], t, s.read, s.loop);
        WindowEmits(s.turns[t], t, s.read, s.loop, s.loop.handler == Some(t), s1.loop);
      }
    }
  }

  lemma DieWindows(s: State, s1: State, t: nat)
    requires Windows(s) && At(s, t, Prompting) && s1 == Set(s, t, s.turns[t].(reply := Some(false)))
    ensures Windows(s1)
  {
    assert WindowOk(s.turns[t], t, s.read, s.loop);
    ReplyKeeps(s.turns[t], t, s.read, s.loop);
    OthersKeep(s, s1, t);
  }

  lemma ReplyKeeps(turn: Turn, t: nat, read: seq<Line>, loop: Loop)
    requires WindowOk(turn, t, read, loop) && turn.pc == Prompting
    ensures WindowOk(turn.(reply := Some(false)), t, read, loop)
  {
    SameWindow(turn, turn.(reply := Some(false)), t, read, loop);
  }

  lemma SameWindow(turn: Turn, next: Turn, t: nat, read: seq<Line>, loop: Loop)
    requires WindowOk(turn, t, read, loop) && Lifecycle(next)
    requires next.pc == turn.pc && next.log == turn.log && next.missed == turn.missed && next.marks == turn.marks
    ensures WindowOk(next, t, read, loop)
  {
    assert Heard(next, loop, t) == Heard(turn, loop, t) && Upto(next, read) == Upto(turn, read);
  }

  lemma CloseWindows(s: State, s1: State, t: nat)
    requires Windows(s) && t < |s.turns| && s.turns[t].pc.Finished? && s1 == Set(s, t, s.turns[t].(closed := true))
    ensures Windows(s1)
  {
    assert WindowOk(s.turns[t], t, s.read, s.loop);
    ClosedKeeps(s.turns[t], t, s.read, s.loop);
    OthersKeep(s, s1, t);
  }

  lemma ClosedKeeps(turn: Turn, t: nat, read: seq<Line>, loop: Loop)
    requires WindowOk(turn, t, read, loop) && turn.pc.Finished?
    ensures WindowOk(turn.(closed := true), t, read, loop)
  {
    SameWindow(turn, turn.(closed := true), t, read, loop);
  }

  lemma WriteWindows(s: State, s1: State)
    requires Windows(s) && s1.turns == s.turns && s1.read == s.read && s1.loop == s.loop
    ensures Windows(s1)
  {
  }

  lemma WindowsStep(s: State, e: Step)
    requires Inv(s) && Windows(s) && Enabled(s, e)
    ensures Windows(Next(s, e))
  {
    if e.Start? {
      StartWindows(s, Next(s, e));
    } else if e.Write? {
      WriteWindows(s, Next(s, e));
    } else if e.Read? {
      ReadWindows(s, Next(s, e));
    } else if e.Emit? {
      EmitWindows(s, Next(s, e));
    } else if e.Die? {
      DieWindows(s, Next(s, e), e.t);
    } else if e.CloseEvents? {
      CloseWindows(s, Next(s, e), e.t);
    } else {
      LoudWindows(s, e);
    }
  }

  lemma {:induction false} WindowsRun(s: State, es: seq<Step>)
    requires Inv(s) && Windows(s) && Run(s, es).Some?
    ensures Inv(Run(s, es).value) && Windows(Run(s, es).value)
    decreases |es|
  {
    if es != [] {
      InvStep(s, es[0]);
      WindowsStep(s, es[0]);
      WindowsRun(Next(s, es[0]), es[1..]);
    }
  }

  lemma {:induction false} AllEventsConcat(a: seq<Line>, b: seq<Line>)
    ensures AllEvents(a + b) == AllEvents(a) + AllEvents(b)
  {
    if b == [] {
      assert a + b == a;
    } else {
      var n := |b| - 1;
      assert (a + b)[..|a + b| - 1] == a + b[..n];
      AllEventsConcat(a, b[..n]);
      Assoc(AllEvents(a), AllEvents(b[..n]), EventsOf(b[n]));
    }
  }

  lemma AllEventsSplit(ls: seq<Line>, a: nat, b: nat, c: nat)
    requires a <= b <= c <= |ls|
    ensures AllEvents(ls[a..c]) == AllEvents(ls[a..b]) + AllEvents(ls[b..c])
  {
    assert ls[a..c] == ls[a..b] + ls[b..c];
    AllEventsConcat(ls[a..b], ls[b..c]);
  }

  lemma {:induction false} PayloadConcat(a: seq<Event>, b: seq<Event>)
    ensures Payload(a + b) == Payload(a) + Payload(b)
  {
    if b == [] {
      assert a + b == a;
    } else {
      var n := |b| - 1;
      assert (a + b)[..|a + b| - 1] == a + b[..n];
      PayloadConcat(a, b[..n]);
      Assoc(Payload(a), Payload(b[..n]), if FromAgent(b[n]) then [b[n]] else []);
    }
  }

  lemma {:induction false} PayloadOfAgent(es: seq<Event>)
    requires forall i :: 0 <= i < |es| ==> FromAgent(es[i])
    ensures Payload(es) == es && Dones(es) == 0
  {
    if es != [] { PayloadOfAgent(es[..|es| - 1]); }
  }

  lemma {:induction false} DonesConcat(a: seq<Event>, b: seq<Event>)
    ensures Dones(a + b) == Dones(a) + Dones(b)
  {
    if b == [] {
      assert a + b == a;
    } else {
      assert (a + b)[..|a + b| - 1] == a + b[..|b| - 1];
      DonesConcat(a, b[..|b| - 1]);
    }
  }

  lemma {:induction false} AllEventsFromAgent(ls: seq<Line>)
    ensures forall i :: 0 <= i < |AllEvents(ls)| ==> FromAgent(AllEvents(ls)[i])
  {
    if ls != [] { AllEventsFromAgent(ls[..|ls| - 1]); }
  }

  /** A turn's own lines are those from here to its response: the agent wrote them after the prompt. (No
      line is its own if the agent guessed the request and answered before it was written.) */
  function Asked(marks: Marks): nat
    requires marks.answered.Some?
  {
    if marks.asked <= marks.answered.value then marks.asked else marks.answered.value
  }

  /** What stands in a turn's channel behind the events that came before its response. */
  function Tail(turn: Turn, read: seq<Line>): seq<Event>
    requires turn.marks.answered.Some? && turn.marks.from <= turn.marks.answered.value <= |read|
    requires |turn.log| >= 1 + |AllEvents(read[turn.marks.from..turn.marks.answered.value])|
  {
    turn.log[1 + |AllEvents(read[turn.marks.from..turn.marks.answered.value])|..]
  }

  lemma TailFacts(turn: Turn, t: nat, read: seq<Line>, loop: Loop)
    requires Shaped(turn) && WindowOk(turn, t, read, loop) && turn.marks.answered.Some?
    ensures var m := turn.marks;
      && turn.log == [turn.log[0]] + AllEvents(read[m.from..m.answered.value]) + Tail(turn, read)
      && turn.log[0].SessionInit?
      && Dones(Tail(turn, read)) == (if Succeeded(turn.pc) then 1 else 0)
      && (forall i :: 0 <= i < |Tail(turn, read)| ==> FromAgent(Tail(turn, read)[i]) || Tail(turn, read)[i].Done?)
      && Payload(Tail(turn, read)) + turn.missed + RestFor(loop, t) == AllEvents(read[m.answered.value..Upto(turn, read)])
  {
    var m := turn.marks;
    AllEventsFromAgent(read[m.from..m.answered.value]);
    FrontAndTail(turn.log, AllEvents(read[m.from..m.answered.value]), Tail(turn, read));
    TailHeard(turn, t, read, loop);
  }

  lemma TailHeard(turn: Turn, t: nat, read: seq<Line>, loop: Loop)
    requires WindowOk(turn, t, read, loop) && turn.marks.answered.Some?
    requires Payload(turn.log) == AllEvents(read[turn.marks.from..turn.marks.answered.value]) + Payload(Tail(turn, read))
    ensures Payload(Tail(turn, read)) + turn.missed + RestFor(loop, t)
         == AllEvents(read[turn.marks.answered.value..Upto(turn, read)])
  {
    var m := turn.marks;
    AllEventsSplit(read, m.from, m.answered.value, Upto(turn, read));
    CancelFront(AllEvents(read[m.from..m.answered.value]), Payload(Tail(turn, read)), turn.missed, RestFor(loop, t),
                AllEvents(read[m.answered.value..Upto(turn, read)]));
  }

  lemma ThreeConcat(a: seq<Event>, b: seq<Event>, c: seq<Event>)
    ensures Dones(a + b + c) == Dones(a) + Dones(b) + Dones(c)
    ensures Payload(a + b + c) == Payload(a) + Payload(b) + Payload(c)
  {
    DonesConcat(a + b, c);
    DonesConcat(a, b);
    PayloadConcat(a + b, c);
    PayloadConcat(a, b);
  }

  lemma SplitLog<T>(log: seq<T>, n: nat)
    requires |log| >= 1 + n
    ensures log == [log[0]] + log[1..1 + n] + log[1 + n..]
  {
  }

  lemma FrontAndTail(log: seq<Event>, front: seq<Event>, tail: seq<Event>)
    requires log != [] && log[0].SessionInit? && |log| >= 1 + |front|
    requires log[1..1 + |front|] == front && tail == log[1 + |front|..]
    requires forall i :: 0 <= i < |front| ==> FromAgent(front[i])
    ensures log == [log[0]] + front + tail
    ensures Dones(log) == Dones(tail) && Payload(log) == front + Payload(tail)
  {
    SplitLog(log, |front|);
    PayloadOfAgent(front);
    OneDones(log[0]);
    ThreeConcat([log[0]], front, tail);
    assert [] + front == front;
  }

  lemma CancelFront<T>(a: seq<T>, b: seq<T>, c: seq<T>, d: seq<T>, e: seq<T>)
    requires a + b + c + d == a + e
    ensures b + c + d == e
  {
    assert a + b + c + d == a + (b + c + d);
    Cancel(a, b + c + d, e);
  }

  lemma OneDones(e: Event)
    requires e.SessionInit?
    ensures Dones([e]) == 0 && Payload([e]) == []
  {
    assert [e][..0] == [];
  }

  lemma Cancel<T>(a: seq<T>, b: seq<T>, c: seq<T>)
    requires a + b == a + c
    ensures b == c
  {
    assert |b| == |c|;
    forall i | 0 <= i < |b| ensures b[i] == c[i] {
      assert (a + b)[|a| + i] == (a + c)[|a| + i];
    }
  }

  /** Nothing but one Done. */
  lemma {:induction false} OnlyDone(tail: seq<Event>)
    requires forall i :: 0 <= i < |tail| ==> FromAgent(tail[i]) || tail[i].Done?
    requires Payload(tail) == []
    ensures |tail| == Dones(tail)
    ensures forall i :: 0 <= i < |tail| ==> tail[i].Done?
  {
    if tail != [] { OnlyDone(tail[..|tail| - 1]); }
  }

  /** What the invariants say about the lines written so far. */
  lemma Reached(es: seq<Step>)
    requires Run(Init, es).Some?
    ensures var s := Run(Init, es).value; Inv(s) && Windows(s) && s.read + s.stdout == Written(es)
  {
    WindowsRun(Init, es);
    InEveryRun(es);
  }

  predicate Stretch(turn: Turn, t: nat, ls: seq<Line>, read: seq<Line>, loop: Loop) {
    && turn.marks.from <= Upto(turn, read) <= |read| <= |ls|
    && Heard(turn, loop, t) == AllEvents(ls[turn.marks.from..Upto(turn, read)])
  }

  lemma StretchOf(s: State, ls: seq<Line>, t: nat)
    requires Windows(s) && s.read + s.stdout == ls && t < |s.turns|
    ensures Stretch(s.turns[t], t, ls, s.read, s.loop)
    ensures !s.turns[t].closed ==> s.turns[t].missed == []
    ensures Succeeded(s.turns[t].pc) ==> s.turns[t].marks.answered.Some?
  {
    var turn := s.turns[t];
    assert WindowOk(turn, t, s.read, s.loop);
    PrefixSlice(s.read, s.stdout, turn.marks.from, Upto(turn, s.read));
  }

  lemma PrefixSlice<T>(a: seq<T>, b: seq<T>, i: nat, j: nat)
    requires i <= j <= |a|
    ensures (a + b)[i..j] == a[i..j]
  {
  }

  /** Every run, every agent: what a turn's channel carries of the agent, what found the channel closed and
      what the read loop still holds for the turn are, in this order, the events of a stretch of the
      agent's output: the lines read while its handler was installed. So a line reaches a turn exactly
      when it lies in the turn's stretch, whoever it was meant for. */
  lemma ChannelsCarryTheirStretch(es: seq<Step>, t: nat)
    requires Run(Init, es).Some? && t < |Run(Init, es).value.turns|
    ensures var s := Run(Init, es).value;
      && Stretch(s.turns[t], t, Written(es), s.read, s.loop)
      && (!s.turns[t].closed ==> s.turns[t].missed == [])
      && (Succeeded(s.turns[t].pc) ==> s.turns[t].marks.answered.Some?)
  {
    Reached(es);
    StretchOf(Run(Init, es).value, Written(es), t);
  }

  /** SessionInit, these events, and one Done if the turn succeeded; nothing else. */
  predicate Exactly(turn: Turn, own: seq<Event>) {
    if Succeeded(turn.pc) then
      && |turn.log| == |own| + 2 && turn.log[0].SessionInit? && turn.log[1..|own| + 1] == own
      && turn.log[|own| + 1].Done?
    else
      |turn.log| == |own| + 1 && turn.log[0].SessionInit? && turn.log[1..] == own
  }

  lemma ExactLog(turn: Turn, own: seq<Event>, tail: seq<Event>)
    requires turn.log != [] && turn.log[0].SessionInit? && turn.log == [turn.log[0]] + own + tail
    requires |tail| == (if Succeeded(turn.pc) then 1 else 0) && forall i :: 0 <= i < |tail| ==> tail[i].Done?
    ensures Exactly(turn, own)
  {
    assert turn.log[1..|own| + 1] == own;
    if !Succeeded(turn.pc) { assert turn.log[1..] == own; }
  }

  lemma NothingElse(turn: Turn, pending: seq<Event>, own: seq<Event>, tail: seq<Event>)
    requires turn.log != [] && turn.log == [turn.log[0]] + pending + own + tail && Exactly(turn, own)
    requires |tail| == |Payload(tail)| + (if Succeeded(turn.pc) then 1 else 0)
    ensures pending == [] && Payload(tail) == []
  {
    assert |turn.log| == 1 + |pending| + |own| + |tail|;
  }

  lemma ExactlyWhen(turn: Turn, pending: seq<Event>, own: seq<Event>, tail: seq<Event>)
    requires turn.log != [] && turn.log[0].SessionInit? && turn.log == [turn.log[0]] + pending + own + tail
    requires Dones(tail) == (if Succeeded(turn.pc) then 1 else 0)
    requires forall i :: 0 <= i < |tail| ==> FromAgent(tail[i]) || tail[i].Done?
    ensures Exactly(turn, own) <==> pending == [] && Payload(tail) == []
  {
    PayloadAndDones(tail);
    if pending == [] && Payload(tail) == [] {
      OnlyDone(tail);
      assert [turn.log[0]] + pending + own + tail == [turn.log[0]] + own + tail;
      ExactLog(turn, own, tail);
    }
    if Exactly(turn, own) {
      NothingElse(turn, pending, own, tail);
    }
  }

  lemma {:induction false} PayloadAndDones(tail: seq<Event>)
    requires forall i :: 0 <= i < |tail| ==> FromAgent(tail[i]) || tail[i].Done?
    ensures |tail| == |Payload(tail)| + Dones(tail)
  {
    if tail != [] { PayloadAndDones(tail[..|tail| - 1]); }
  }

  /** The log of a turn that ended by its own response: SessionInit; what was pending when the handler came
      in; the turn's own lines; and behind them one Done, if it succeeded, and what came late. */
  predicate Composed(turn: Turn, t: nat, ls: seq<Line>, upto: nat, loop: Loop)
    requires turn.marks.answered.Some?
  {
    var m := turn.marks;
    && m.from <= Asked(m) <= m.answered.value <= upto <= |ls|
    && turn.log != [] && turn.log[0].SessionInit?
    && |turn.log| >= 1 + |AllEvents(ls[m.from..m.answered.value])|
    && turn.log == [turn.log[0]] + AllEvents(ls[m.from..Asked(m)]) + AllEvents(ls[Asked(m)..m.answered.value])
                   + Tail(turn, ls)
    && Payload(Tail(turn, ls)) + turn.missed + RestFor(loop, t) == AllEvents(ls[m.answered.value..upto])
    && Dones(Tail(turn, ls)) == (if Succeeded(turn.pc) then 1 else 0)
    && (forall i :: 0 <= i < |Tail(turn, ls)| ==> FromAgent(Tail(turn, ls)[i]) || Tail(turn, ls)[i].Done?)
  }

  /** The log is just what the agent wrote from the prompt to the response, if and only if no line that was
      pending gave rise to an event and no event of a line read behind the response reached the channel. */
  predicate ExactWhenSilent(turn: Turn, t: nat, ls: seq<Line>, upto: nat, loop: Loop)
    requires turn.marks.answered.Some?
  {
    var m := turn.marks;
    && m.from <= Asked(m) <= m.answered.value <= upto <= |ls|
    && (Exactly(turn, AllEvents(ls[Asked(m)..m.answered.value])) <==>
          && AllEvents(ls[m.from..Asked(m)]) == []
          && AllEvents(ls[m.answered.value..upto]) == turn.missed + RestFor(loop, t))
  }

  lemma ComposedInRead(turn: Turn, t: nat, read: seq<Line>, loop: Loop)
    requires Shaped(turn) && WindowOk(turn, t, read, loop) && turn.marks.answered.Some?
    ensures Composed(turn, t, read, Upto(turn, read), loop)
  {
    var m := turn.marks;
    TailFacts(turn, t, read, loop);
    AllEventsSplit(read, m.from, Asked(m), m.answered.value);
    Assoc([turn.log[0]], AllEvents(read[m.from..Asked(m)]), AllEvents(read[Asked(m)..m.answered.value]));
  }

  lemma ComposedInWritten(turn: Turn, t: nat, ls: seq<Line>, read: seq<Line>, stdout: seq<Line>, upto: nat, loop: Loop)
    requires turn.marks.answered.Some? && Composed(turn, t, read, upto, loop) && ls == read + stdout
    ensures Composed(turn, t, ls, upto, loop)
  {
    var m := turn.marks;
    PrefixSlice(read, stdout, m.from, m.answered.value);
    PrefixSlice(read, stdout, m.from, Asked(m));
    PrefixSlice(read, stdout, Asked(m), m.answered.value);
    PrefixSlice(read, stdout, m.answered.value, upto);
  }

  lemma NothingInFront<T>(a: seq<T>, b: seq<T>, c: seq<T>)
    ensures |a + b + c| == |a| + |b| + |c|
    ensures a == [] <==> a + b + c == b + c
  {
    if a == [] {
      assert a + b + c == b + c;
    } else {
      assert |a + b + c| > |b + c|;
    }
  }

  lemma ComposedIsExact(turn: Turn, t: nat, ls: seq<Line>, upto: nat, loop: Loop)
    requires turn.marks.answered.Some? && Composed(turn, t, ls, upto, loop)
    ensures ExactWhenSilent(turn, t, ls, upto, loop)
  {
    var m := turn.marks;
    ExactlyWhen(turn, AllEvents(ls[m.from..Asked(m)]), AllEvents(ls[Asked(m)..m.answered.value]), Tail(turn, ls));
    NothingInFront(Payload(Tail(turn, ls)), turn.missed, RestFor(loop, t));
  }

  /** Any agent, any interleaving, whatever becomes of the other turns: the channel of a turn that is
      ended by its own response is composed as said above, and it carries exactly SessionInit, the events
      of the lines the agent wrote between the prompt and the response, in order, and one Done if it
      succeeded, if and only if no line that was pending when the handler came in gave rise to an event,
      and none did that was read behind the response, unless it found the channel closed. */
  lemma FinishedTurnsAreComplete(es: seq<Step>, t: nat)
    requires Run(Init, es).Some? && t < |Run(Init, es).value.turns|
    requires Run(Init, es).value.turns[t].marks.answered.Some?
    ensures var s := Run(Init, es).value;
      && Composed(s.turns[t], t, Written(es), Upto(s.turns[t], s.read), s.loop)
      && ExactWhenSilent(s.turns[t], t, Written(es), Upto(s.turns[t], s.read), s.loop)
  {
    Reached(es);
    var s := Run(Init, es).value;
    var turn := s.turns[t];
    assert WindowOk(turn, t, s.read, s.loop) && TurnOk(turn, s.routed, t);
    ComposedInRead(turn, t, s.read, s.loop);
    ComposedInWritten(turn, t, Written(es), s.read, s.stdout, Upto(turn, s.read), s.loop);
    ComposedIsExact(turn, t, Written(es), Upto(turn, s.read), s.loop);
  }

  /** Lines without events, which may come at any time: responses to session/new and to the configuration,
      responses to other turns. */
  predicate Silent(ls: seq<Line>) {
    forall i :: 0 <= i < |ls| ==> EventsOf(ls[i]) == []
  }

  lemma {:induction false} SilentLines(ls: seq<Line>)
    ensures Silent(ls) <==> AllEvents(ls) == []
  {
    if ls != [] {
      SilentLines(ls[..|ls| - 1]);
      SilentSnoc(ls[..|ls| - 1], ls[|ls| - 1]);
      assert ls[..|ls| - 1] + [ls[|ls| - 1]] == ls;
    }
  }

  lemma SilentSnoc(ls: seq<Line>, l: Line)
    ensures Silent(ls + [l]) <==> Silent(ls) && EventsOf(l) == []
  {
    assert (ls + [l])[|ls|] == l;
    assert forall i :: 0 <= i < |ls| ==> (ls + [l])[i] == ls[i];
  }

  /** In particular when those lines have no events at all. */
  lemma SilentAgentsAreHeardExactly(es: seq<Step>, t: nat)
    requires Run(Init, es).Some? && t < |Run(Init, es).value.turns|
    requires Run(Init, es).value.turns[t].marks.answered.Some?
    ensures var s, ls := Run(Init, es).value, Written(es);
      var turn, m := s.turns[t], s.turns[t].marks;
      && m.from <= Asked(m) <= m.answered.value <= Upto(turn, s.read) <= |ls|
      && (Silent(ls[m.from..Asked(m)]) && Silent(ls[m.answered.value..Upto(turn, s.read)]) ==>
            Exactly(turn, AllEvents(ls[Asked(m)..m.answered.value])))
  {
    FinishedTurnsAreComplete(es, t);
    var s := Run(Init, es).value;
    SilentIsExact(s.turns[t], t, Written(es), Upto(s.turns[t], s.read), s.loop);
  }

  lemma SilentIsExact(turn: Turn, t: nat, ls: seq<Line>, upto: nat, loop: Loop)
    requires turn.marks.answered.Some? && Composed(turn, t, ls, upto, loop) && ExactWhenSilent(turn, t, ls, upto, loop)
    ensures Silent(ls[turn.marks.from..Asked(turn.marks)]) && Silent(ls[turn.marks.answered.value..upto]) ==>
      Exactly(turn, AllEvents(ls[Asked(turn.marks)..turn.marks.answered.value]))
  {
    SilentLines(ls[turn.marks.from..Asked(turn.marks)]);
    SilentLines(ls[turn.marks.answered.value..upto]);
    NothingInFront(Payload(Tail(turn, ls)), turn.missed, RestFor(loop, t));
  }

  // ---- A turn that is cancelled by its context ----

  lemma RunCons(s: State, e: Step, es: seq<Step>)
    requires Enabled(s, e)
    ensures Run(s, [e] + es) == Run(Next(s, e), es)
  {
    assert ([e] + es)[1..] == es;
  }

  function Opening(t: nat, sessionID: string): seq<Step> {
    [Start] + ([Lock(t)] + ([Announce(t, sessionID)] + ([Listen(t)] + [])))
  }

  function Opened(s: State, sessionID: string): Turn {
    Turn(Listening, None, [SessionInit(sessionID)], false, [], Marks(|s.read|, 0, None, 0))
  }

  function Cancelled(s: State, turn: Turn): Turn {
    turn.(pc := Finished(false), marks := turn.marks.(asked := |s.read| + |s.stdout|, upto := |s.read|))
  }

  function Entered(s: State, turn: Turn): State {
    s.(turns := s.turns + [turn], holder := Some(|s.turns|), handler := Some(|s.turns|))
  }

  lemma OpeningRuns(s: State, sessionID: string)
    requires s.holder.None?
    ensures Run(s, Opening(|s.turns|, sessionID)) == Some(Entered(s, Opened(s, sessionID)))
  {
    var t := |s.turns|;
    var init := SessionInit(sessionID);
    OpeningSteps(s, NewTurn, sessionID);
    var s1 := s.(turns := s.turns + [NewTurn]);
    var s2 := s.(turns := s.turns + [NewTurn.(pc := Preparing)], holder := Some(t));
    var s3 := s.(turns := s.turns + [NewTurn.(pc := Announced, log := [init])], holder := Some(t));
    RunFour(s, Start, s1, Lock(t), s2, Announce(t, sessionID), s3, Listen(t), Entered(s, Opened(s, sessionID)));
  }

  lemma LastSet<T>(s: seq<T>, x: T, y: T)
    ensures (s + [x])[|s| := y] == s + [y] && (s + [x])[|s|] == x
  {
  }

  lemma OpeningSteps(s: State, turn: Turn, sessionID: string)
    requires s.holder.None? && turn == NewTurn
    ensures var t, init := |s.turns|, SessionInit(sessionID);
      var s1 := s.(turns := s.turns + [turn]);
      var s2 := s.(turns := s.turns + [turn.(pc := Preparing)], holder := Some(t));
      var s3 := s.(turns := s.turns + [turn.(pc := Announced, log := [init])], holder := Some(t));
      && Next(s, Start) == s1
      && Enabled(s1, Lock(t)) && Next(s1, Lock(t)) == s2
      && Enabled(s2, Announce(t, sessionID)) && Next(s2, Announce(t, sessionID)) == s3
      && Enabled(s3, Listen(t)) && Next(s3, Listen(t)) == Entered(s, Opened(s, sessionID))
  {
    var init := SessionInit(sessionID);
    assert [] + [init] == [init];
    var prepared, announced := turn.(pc := Preparing), turn.(pc := Announced, log := [init]);
    LastSet(s.turns, turn, prepared);
    LastSet(s.turns, prepared, prepared.(log := [init]));
    LastSet(s.turns, prepared.(log := [init]), announced);
    LastSet(s.turns, announced, announced.(pc := Listening));
    LastSet(s.turns, announced.(pc := Listening), Opened(s, sessionID));
  }

  lemma RunThree(s0: State, a: Step, s1: State, b: Step, s2: State, c: Step, s3: State)
    requires Enabled(s0, a) && s1 == Next(s0, a)
    requires Enabled(s1, b) && s2 == Next(s1, b)
    requires Enabled(s2, c) && s3 == Next(s2, c)
    ensures Run(s0, [a] + ([b] + ([c] + []))) == Some(s3)
  {
    RunCons(s2, c, []);
    RunCons(s1, b, [c] + []);
    RunCons(s0, a, [b] + ([c] + []));
  }

  lemma RunFour(s0: State, a: Step, s1: State, b: Step, s2: State, c: Step, s3: State, d: Step, s4: State)
    requires Enabled(s0, a) && Next(s0, a) == s1
    requires Enabled(s1, b) && Next(s1, b) == s2
    requires Enabled(s2, c) && Next(s2, c) == s3
    requires Enabled(s3, d) && Next(s3, d) == s4
    ensures Run(s0, [a] + ([b] + ([c] + ([d] + [])))) == Some(s4)
  {
    RunThree(s1, b, s2, c, s3, d, s4);
    RunCons(s0, a, [b] + ([c] + ([d] + [])));
  }

  function Cancelling(t: nat): seq<Step> {
    [Prompt(t)] + ([ContextEnds(t)] + ([ClearHandler(t)] + ([Unlock(t)] + [])))
  }

  lemma CancellingRuns(s: State, t: nat)
    requires At(s, t, Listening)
    ensures Run(s, Cancelling(t))
         == Some(s.(turns := s.turns[t := Cancelled(s, s.turns[t])], holder := None, handler := None))
  {
    var turn := s.turns[t];
    var m := turn.marks.(asked := |s.read| + |s.stdout|);
    CancellingSteps(s, t, m);
    var s1 := s.(turns := s.turns[t := turn.(pc := Prompting, marks := m)]);
    var s2 := s.(turns := s.turns[t := turn.(pc := Clearing(false), marks := m)]);
    var s3 := s.(turns := s.turns[t := turn.(pc := Unlocking(false), marks := m.(upto := |s.read|))], handler := None);
    RunFour(s, Prompt(t), s1, ContextEnds(t), s2, ClearHandler(t), s3, Unlock(t),
            s.(turns := s.turns[t := Cancelled(s, turn)], holder := None, handler := None));
  }

  lemma CancellingSteps(s: State, t: nat, m: Marks)
    requires At(s, t, Listening) && m == s.turns[t].marks.(asked := |s.read| + |s.stdout|)
    ensures var turn := s.turns[t];
      var s1 := s.(turns := s.turns[t := turn.(pc := Prompting, marks := m)]);
      var s2 := s.(turns := s.turns[t := turn.(pc := Clearing(false), marks := m)]);
      var s3 := s.(turns := s.turns[t := turn.(pc := Unlocking(false), marks := m.(upto := |s.read|))], handler := None);
      && Enabled(s, Prompt(t)) && Next(s, Prompt(t)) == s1
      && Enabled(s1, ContextEnds(t)) && Next(s1, ContextEnds(t)) == s2
      && Enabled(s2, ClearHandler(t)) && Next(s2, ClearHandler(t)) == s3
      && Enabled(s3, Unlock(t))
      && Next(s3, Unlock(t)) == s.(turns := s.turns[t := Cancelled(s, turn)], holder := None, handler := None)
  {
  }

  function Speaking(e: Event): seq<Step>
    requires FromAgent(e)
  {
    [Write(Update([e]))] + ([Read] + ([Emit] + []))
  }

  /** From s to s1 only what the agent wrote for a turn changed in the turns. */
  predicate SameTalk(s: State, s1: State) {
    && |s1.turns| == |s.turns|
    && forall u :: 0 <= u < |s.turns| ==>
         && s1.turns[u].pc == s.turns[u].pc && s1.turns[u].log == s.turns[u].log
         && s1.turns[u].closed == s.turns[u].closed
  }

  lemma Writes(s: State, line: Line)
    requires s.stdout == []
    ensures var s1 := Next(s, Write(line));
      SameTalk(s, s1) && s1.stdout == [line] && s1.loop == s.loop && s1.handler == s.handler
  {
  }

  lemma Reads(s: State, e: Event)
    requires FromAgent(e) && s.stdout == [Update([e])] && s.loop == Idle
    ensures var s1 := Next(s, Read);
      s1.turns == s.turns && s1.loop == Emitting(s.handler, [e])
  {
  }

  lemma Emits(s: State, t: nat, e: Event)
    requires s.loop == Emitting(Some(t), [e]) && t < |s.turns| && !s.turns[t].closed
    ensures Next(s, Emit).turns == s.turns[t := s.turns[t].(log := s.turns[t].log + [e])]
  {
  }

  lemma SpeakingRuns(s: State, t: nat, e: Event)
    requires FromAgent(e) && s.handler == Some(t) && t < |s.turns| && !s.turns[t].closed
    requires s.loop == Idle && s.stdout == []
    ensures Run(s, Speaking(e)).Some?
    ensures var s1 := Run(s, Speaking(e)).value;
      && |s1.turns| == |s.turns|
      && (forall u :: 0 <= u < |s.turns| ==>
            && s1.turns[u].pc == s.turns[u].pc
            && s1.turns[u].log == s.turns[u].log + (if u == t then [e] else []))
  {
    Writes(s, Update([e]));
    var s1 := Next(s, Write(Update([e])));
    Reads(s1, e);
    var s2 := Next(s1, Read);
    Emits(s2, t, e);
    RunThree(s, Write(Update([e])), s1, Read, s2, Emit, Next(s2, Emit));
  }

  lemma {:induction false} RunConcat(s: State, a: seq<Step>, b: seq<Step>)
    requires Run(s, a).Some?
    ensures Run(s, a + b) == Run(Run(s, a).value, b)
    decreases |a|
  {
    if a == [] {
      assert a + b == b;
    } else {
      assert (a + b)[1..] == a[1..] + b;
      RunConcat(Next(s, a[0]), a[1..], b);
    }
  }

  lemma Then(s: State, a: seq<Step>, mid: State, b: seq<Step>)
    requires Run(s, a) == Some(mid)
    ensures Run(s, a + b) == Run(mid, b)
  {
    RunConcat(s, a, b);
  }

  function Left(s: State, turn: Turn): State {
    s.(turns := s.turns + [turn], holder := None, handler := None)
  }

  lemma TurnCancelled(s: State, sessionID: string)
    requires s.holder.None?
    ensures Run(s, Opening(|s.turns|, sessionID) + Cancelling(|s.turns|))
         == Some(Left(s, Cancelled(s, Opened(s, sessionID))))
  {
    var s1 := Entered(s, Opened(s, sessionID));
    OpeningRuns(s, sessionID);
    CancellingRuns(s1, |s.turns|);
    Then(s, Opening(|s.turns|, sessionID), s1, Cancelling(|s.turns|));
    LeavesAgain(s, Opened(s, sessionID));
  }

  lemma LeavesAgain(s: State, turn: Turn)
    ensures var s1, t := Entered(s, turn), |s.turns|;
      s1.(turns := s1.turns[t := Cancelled(s1, s1.turns[t])], holder := None, handler := None) == Left(s, Cancelled(s, turn))
  {
    assert (s.turns + [turn])[|s.turns| := Cancelled(s, turn)] == s.turns + [Cancelled(s, turn)];
  }

  lemma CancelledThenOpened()
    ensures var es := Opening(0, "a") + Cancelling(0) + Opening(1, "b");
      && Run(Init, es).Some?
      && var s := Run(Init, es).value;
      && s.turns == [Cancelled(Init, Opened(Init, "a")), Opened(Init, "b")]
      && s.handler == Some(1) && s.loop == Idle && s.stdout == []
  {
    var s2 := Left(Init, Cancelled(Init, Opened(Init, "a")));
    TurnCancelled(Init, "a");
    OpeningRuns(s2, "b");
    Then(Init, Opening(0, "a") + Cancelling(0), s2, Opening(1, "b"));
  }

  /** A turn is cancelled through its context; what the agent still writes about it reaches the next
      turn, here before that turn has even written its own prompt. */
  lemma LateUpdateReachesTheNextTurn(e: Event)
    requires FromAgent(e)
    ensures var es := Opening(0, "a") + Cancelling(0) + Opening(1, "b") + Speaking(e);
      && Run(Init, es).Some?
      && var s := Run(Init, es).value;
      && |s.turns| == 2 && s.turns[0].pc == Finished(false)
      && s.turns[1].pc == Listening && s.turns[1].log == [SessionInit("b"), e]
  {
    var before := Opening(0, "a") + Cancelling(0) + Opening(1, "b");
    CancelledThenOpened();
    SpeakingRuns(Run(Init, before).value, 1, e);
    RunConcat(Init, before, Speaking(e));
  }

  // ---- A turn that hears something behind its response ----

  /** Turn t is at pc with its handler in and the read loop between lines. */
  predicate Ready(s: State, t: nat, pc: Pc, log: seq<Event>, reply: Option<bool>, lines: seq<Line>) {
    && t < |s.turns| && s.turns[t].pc == pc && s.turns[t].log == log && s.turns[t].reply == reply
    && !s.turns[t].closed && s.handler == Some(t) && s.loop == Idle && s.stdout == lines
  }

  function Answering(t: nat, stop: string): seq<Step> {
    [Prompt(t)] + ([Write(Answer(t, true))] + ([Read] + ([Receive(t)] + ([SendDone(t, stop)] + []))))
  }

  lemma PromptWaits(s: State, t: nat, log: seq<Event>)
    requires Ready(s, t, Listening, log, None, [])
    ensures Enabled(s, Prompt(t)) && Ready(Next(s, Prompt(t)), t, Prompting, log, None, [])
  {
  }

  lemma AnswerIsWritten(s: State, t: nat, log: seq<Event>)
    requires Ready(s, t, Prompting, log, None, [])
    ensures Ready(Next(s, Write(Answer(t, true))), t, Prompting, log, None, [Answer(t, true)])
  {
  }

  lemma AnswerIsRead(s: State, t: nat, log: seq<Event>)
    requires Ready(s, t, Prompting, log, None, [Answer(t, true)])
    ensures Enabled(s, Read) && Ready(Next(s, Read), t, Prompting, log, Some(true), [])
  {
    assert [Answer(t, true)][1..] == [];
  }

  lemma AnswerIsReceived(s: State, t: nat, log: seq<Event>)
    requires Ready(s, t, Prompting, log, Some(true), [])
    ensures Enabled(s, Receive(t)) && Ready(Next(s, Receive(t)), t, Answered, log, Some(true), [])
  {
  }

  lemma DoneIsSent(s: State, t: nat, log: seq<Event>, stop: string)
    requires Ready(s, t, Answered, log, Some(true), [])
    ensures Enabled(s, SendDone(t, stop))
    ensures Ready(Next(s, SendDone(t, stop)), t, Clearing(true), log + [Done(stop)], Some(true), [])
  {
  }

  lemma AnsweringRuns(s: State, t: nat, log: seq<Event>, stop: string)
    requires Ready(s, t, Listening, log, None, [])
    ensures Run(s, Answering(t, stop)).Some?
    ensures Ready(Run(s, Answering(t, stop)).value, t, Clearing(true), log + [Done(stop)], Some(true), [])
  {
    PromptWaits(s, t, log);
    var s1 := Next(s, Prompt(t));
    AnswerIsWritten(s1, t, log);
    var s2 := Next(s1, Write(Answer(t, true)));
    AnswerIsRead(s2, t, log);
    var s3 := Next(s2, Read);
    AnswerIsReceived(s3, t, log);
    var s4 := Next(s3, Receive(t));
    DoneIsSent(s4, t, log, stop);
    RunFour(s1, Write(Answer(t, true)), s2, Read, s3, Receive(t), s4, SendDone(t, stop), Next(s4, SendDone(t, stop)));
    RunCons(s, Prompt(t), [Write(Answer(t, true))] + ([Read] + ([Receive(t)] + ([SendDone(t, stop)] + []))));
  }

  function Closing(t: nat): seq<Step> {
    [ClearHandler(t)] + ([Unlock(t)] + ([CloseEvents(t)] + []))
  }

  lemma ClosingRuns(s: State, t: nat)
    requires At(s, t, Clearing(true))
    ensures Run(s, Closing(t)).Some?
    ensures |Run(s, Closing(t)).value.turns| == |s.turns|
    ensures var turn := Run(s, Closing(t)).value.turns[t];
      turn.pc == Finished(true) && turn.closed && turn.log == s.turns[t].log
  {
    var s1 := Next(s, ClearHandler(t));
    var s2 := Next(s1, Unlock(t));
    RunThree(s, ClearHandler(t), s1, Unlock(t), s2, CloseEvents(t), Next(s2, CloseEvents(t)));
  }

  /** A turn that is answered, hears one more event, and ends. */
  function Overheard(stop: string, e: Event): seq<Step>
    requires FromAgent(e)
  {
    Opening(0, "a") + (Answering(0, stop) + (Speaking(e) + Closing(0)))
  }

  /** One turn only, which is over, with this in its channel. */
  predicate Over(s: State, log: seq<Event>) {
    |s.turns| == 1 && s.turns[0].pc == Finished(true) && s.turns[0].closed && s.turns[0].log == log
  }

  lemma HearsAndCloses(s: State, log: seq<Event>, e: Event)
    requires FromAgent(e) && |s.turns| == 1 && Ready(s, 0, Clearing(true), log, Some(true), [])
    ensures Run(s, Speaking(e) + Closing(0)).Some? && Over(Run(s, Speaking(e) + Closing(0)).value, log + [e])
  {
    SpeakingRuns(s, 0, e);
    var s1 := Run(s, Speaking(e)).value;
    Then(s, Speaking(e), s1, Closing(0));
    ClosingRuns(s1, 0);
  }

  lemma AnsweredHearsAndCloses(s: State, log: seq<Event>, stop: string, e: Event)
    requires FromAgent(e) && |s.turns| == 1 && Ready(s, 0, Listening, log, None, [])
    ensures var es := Answering(0, stop) + (Speaking(e) + Closing(0));
      Run(s, es).Some? && Over(Run(s, es).value, log + [Done(stop)] + [e])
  {
    AnsweringRuns(s, 0, log, stop);
    OneTurn(s, Answering(0, stop));
    var s1 := Run(s, Answering(0, stop)).value;
    Then(s, Answering(0, stop), s1, Speaking(e) + Closing(0));
    HearsAndCloses(s1, log + [Done(stop)], e);
  }

  /** A response, and behind it a line with an event, before the turn takes its handler away: the event stands behind
      Done in the turn's channel. */
  lemma EventsFollowDone(stop: string, e: Event)
    requires FromAgent(e)
    ensures Run(Init, Overheard(stop, e)).Some?
    ensures Over(Run(Init, Overheard(stop, e)).value, [SessionInit("a")] + [Done(stop)] + [e])
  {
    var s1 := Entered(Init, Opened(Init, "a"));
    OpeningRuns(Init, "a");
    Then(Init, Opening(0, "a"), s1, Answering(0, stop) + (Speaking(e) + Closing(0)));
    AnsweredHearsAndCloses(s1, [SessionInit("a")], stop, e);
  }

  /** Only Start adds a turn. */
  lemma {:induction false} OneTurn(s: State, es: seq<Step>)
    requires Run(s, es).Some? && forall i :: 0 <= i < |es| ==> !es[i].Start?
    ensures |Run(s, es).value.turns| == |s.turns|
    decreases |es|
  {
    if es != [] {
      if Quiet(es[0]) { QuietStep(s, es[0]); } else { LoudStep(s, es[0]); }
      OneTurn(Next(s, es[0]), es[1..]);
    }
  }

  // ---- Where the marks come from ------------------------------------------------------------------------------

  function ReadsIn(es: seq<Step>): nat {
    if es == [] then 0 else (if es[0].Read? then 1 else 0) + ReadsIn(es[1..])
  }

  lemma {:induction false} ReadsCount(s: State, es: seq<Step>)
    requires Run(s, es).Some?
    ensures |Run(s, es).value.read| == |s.read| + ReadsIn(es)
    decreases |es|
  {
    if es != [] {
      ReadsStep(s, es[0]);
      ReadsCount(Next(s, es[0]), es[1..]);
    }
  }

  lemma ReadsStep(s: State, e: Step)
    requires Enabled(s, e)
    ensures |Next(s, e).read| == |s.read| + (if e.Read? then 1 else 0)
  {
    if !Quiet(e) && !e.Start? { LoudStep(s, e); }
  }

  /** The turn has got past the step that sets a mark. */
  predicate Past(pc: Pc, e: Step) {
    match e
    case Listen(_) => !Early(pc)
    case Prompt(_) => pc.Prompting? || pc.Answered? || pc.Clearing? || pc.Unlocking? || pc.Finished?
    case ClearHandler(_) => pc.Unlocking? || pc.Finished?
    case _ => false
  }

  function MarkOf(m: Marks, e: Step): nat {
    match e
    case Listen(_) => m.from
    case Prompt(_) => m.asked
    case _ => m.upto
  }

  predicate Marked(s: State, e: Step, t: nat, n: nat) {
    t < |s.turns| && Past(s.turns[t].pc, e) && MarkOf(s.turns[t].marks, e) == n
  }

  lemma MarkedStep(s: State, e: Step, t: nat, n: nat, next: Step)
    requires Marked(s, e, t, n) && Enabled(s, next)
    ensures Marked(Next(s, next), e, t, n)
  {
    if Quiet(next) {
      QuietStep(s, next);
    } else if !next.Start? {
      LoudStep(s, next);
      SendsStep(s, next);
      MovesStep(s, next);
    }
  }

  lemma {:induction false} MarkedRun(s: State, e: Step, t: nat, n: nat, es: seq<Step>)
    requires Marked(s, e, t, n) && Run(s, es).Some?
    ensures Marked(Run(s, es).value, e, t, n)
    decreases |es|
  {
    if es != [] {
      MarkedStep(s, e, t, n, es[0]);
      MarkedRun(Next(s, es[0]), e, t, n, es[1..]);
    }
  }

  lemma MarkSet(s: State, e: Step)
    requires Enabled(s, e) && (e.Listen? || e.Prompt? || e.ClearHandler?)
    ensures Marked(Next(s, e), e, e.t, if e.Prompt? then |s.read| + |s.stdout| else |s.read|)
  {
    SendsStep(s, e);
    MovesStep(s, e);
  }

  /** The marks of a turn are what they are said to be, in every run: the stretch that it hears starts with the lines read
      after its handler was installed and ends with those read before it was removed, and its own lines start with those
      written after its prompt was. */
  lemma MarksAreCounts(before: seq<Step>, e: Step, after: seq<Step>)
    requires e.Listen? || e.Prompt? || e.ClearHandler?
    requires Run(Init, before + ([e] + after)).Some?
    ensures var s := Run(Init, before + ([e] + after)).value;
      && e.t < |s.turns|
      && (e.Listen? ==> s.turns[e.t].marks.from == ReadsIn(before))
      && (e.Prompt? ==> s.turns[e.t].marks.asked == |Written(before)|)
      && (e.ClearHandler? ==> s.turns[e.t].marks.upto == ReadsIn(before))
  {
    RunSome(Init, before, [e] + after);
    RunConcat(Init, before, [e] + after);
    var s := Run(Init, before).value;
    assert ([e] + after)[1..] == after;
    InEveryRun(before);
    ReadsCount(Init, before);
    MarkSet(s, e);
    MarkedRun(Next(s, e), e, e.t, if e.Prompt? then |s.read| + |s.stdout| else |s.read|, after);
  }

  lemma {:induction false} RunSome(s: State, a: seq<Step>, b: seq<Step>)
    requires Run(s, a + b).Some?
    ensures Run(s, a).Some?
    decreases |a|
  {
    if a == [] {
      assert a + b == b;
    } else {
      assert (a + b)[1..] == a[1..] + b;
      RunSome(Next(s, a[0]), a[1..], b);
    }
  }

  // ---- Why a turn ends as it does -----------------------------------------------------------------------------

  predicate Failed(pc: Pc) {
    pc == Clearing(false) || pc == Unlocking(false) || pc == Finished(false)
  }

  /** The outcome of a turn, and what its goroutine sent, have a cause. */
  predicate Caused(turn: Turn, t: nat, past: set<Step>, read: seq<Line>) {
    && (turn.marks.answered.Some? ==> turn.reply.Some? && 0 < turn.marks.answered.value <= |read|)
    && (turn.reply.Some? ==>
          if turn.marks.answered.Some? then read[turn.marks.answered.value - 1] == Answer(t, turn.reply.value)
          else !turn.reply.value && Die(t) in past)
    && (turn.pc.Answered? || Succeeded(turn.pc) ==> turn.reply == Some(true) && turn.marks.answered.Some?)
    && (Failed(turn.pc) ==>
          PrepareFails(t) in past || PromptFails(t) in past || ContextEnds(t) in past || turn.reply == Some(false))
    && (Early(turn.pc) || turn.pc.Listening? ==> turn.marks.answered.None? && turn.reply.None?)
    && (forall i :: 0 <= i < |turn.log| && turn.log[i].SessionInit? ==> Announce(t, turn.log[i].sessionID) in past)
    && (forall i :: 0 <= i < |turn.log| && turn.log[i].Done? ==> SendDone(t, turn.log[i].stopReason) in past)
  }

  predicate AgentsOwn(es: seq<Event>) {
    forall i :: 0 <= i < |es| ==> FromAgent(es[i])
  }

  ghost predicate AllCaused(s: State, past: set<Step>) {
    && (forall t :: 0 <= t < |s.turns| ==> Caused(s.turns[t], t, past, s.read))
    && AgentsOwn(Rest(s.loop))
  }

  lemma CausedGrows(turn: Turn, t: nat, past: set<Step>, read: seq<Line>, e: Step, more: seq<Line>)
    requires Caused(turn, t, past, read)
    ensures Caused(turn, t, past + {e}, read + more)
  {
  }

  lemma CausedLoud(s: State, e: Step, past: set<Step>)
    requires Enabled(s, e) && !Quiet(e) && !e.Start? && e.t < |s.turns| && Caused(s.turns[e.t], e.t, past + {e}, s.read)
    ensures Caused(Next(s, e).turns[e.t], e.t, past + {e}, s.read)
  {
    SendsStep(s, e);
    MovesStep(s, e);
  }

  lemma LoggedOne(turn: Turn, t: nat, past: set<Step>, read: seq<Line>, e: Event)
    requires Caused(turn, t, past, read) && FromAgent(e)
    ensures Caused(turn.(log := turn.log + [e]), t, past, read)
  {
  }

  lemma CausedEmit(s: State, past: set<Step>, t: nat)
    requires s.loop.Emitting? && AgentsOwn(s.loop.rest) && t < |s.turns| && Caused(s.turns[t], t, past, s.read)
    ensures t < |EmitOne(s).turns| && Caused(EmitOne(s).turns[t], t, past, s.read)
  {
    if s.loop.rest != [] { LoggedOne(s.turns[t], t, past, s.read, s.loop.rest[0]); }
  }

  lemma CausedRead(s: State, past: set<Step>, t: nat)
    requires Enabled(s, Read) && t < |s.turns| && Caused(s.turns[t], t, past, s.read + [s.stdout[0]])
    ensures t < |Next(s, Read).turns| && Caused(Next(s, Read).turns[t], t, past, s.read + [s.stdout[0]])
  {
  }

  lemma CausedQuiet(s: State, e: Step, past: set<Step>, t: nat)
    requires Enabled(s, e) && Quiet(e) && !e.Read? && !e.Emit? && t < |s.turns|
    requires Caused(s.turns[t], t, past, s.read) && e in past
    ensures t < |Next(s, e).turns| && Caused(Next(s, e).turns[t], t, past, s.read) && Next(s, e).read == s.read
  {
  }

  lemma CausedTurn(s: State, e: Step, past: set<Step>, t: nat)
    requires Enabled(s, e) && t < |s.turns| && Caused(s.turns[t], t, past, s.read) && AgentsOwn(Rest(s.loop))
    ensures t < |Next(s, e).turns| && Caused(Next(s, e).turns[t], t, past + {e}, Next(s, e).read)
  {
    if e.Read? {
      CausedGrows(s.turns[t], t, past, s.read, e, [s.stdout[0]]);
      CausedRead(s, past + {e}, t);
      ReadStep(s, Next(s, e));
    } else {
      CausedGrows(s.turns[t], t, past, s.read, e, []);
      assert s.read + [] == s.read;
      if e.Emit? {
        CausedEmit(s, past + {e}, t);
      } else if Quiet(e) {
        CausedQuiet(s, e, past + {e}, t);
      } else if !e.Start? {
        LoudStep(s, e);
        if t == e.t { CausedLoud(s, e, past); }
      }
    }
  }

  lemma RestIsOwn(s: State, e: Step)
    requires Enabled(s, e) && AgentsOwn(Rest(s.loop))
    ensures AgentsOwn(Rest(Next(s, e).loop))
  {
    if !Quiet(e) && !e.Start? { LoudStep(s, e); }
  }

  lemma StartedTurn(s: State, past: set<Step>)
    ensures var s1 := Next(s, Start);
      && |s1.turns| == |s.turns| + 1 && s1.turns[..|s.turns|] == s.turns
      && Caused(s1.turns[|s.turns|], |s.turns|, past, s1.read)
  {
  }

  lemma CausedStep(s: State, e: Step, past: set<Step>)
    requires AllCaused(s, past) && Enabled(s, e)
    ensures AllCaused(Next(s, e), past + {e})
  {
    var s1 := Next(s, e);
    RestIsOwn(s, e);
    StartedTurn(s, past + {e});
    NoMoreTurns(s, e);
    forall t | 0 <= t < |s1.turns| ensures Caused(s1.turns[t], t, past + {e}, s1.read) {
      if t < |s.turns| { CausedTurn(s, e, past, t); }
    }
  }

  lemma NoMoreTurns(s: State, e: Step)
    requires Enabled(s, e)
    ensures |Next(s, e).turns| == |s.turns| + (if e.Start? then 1 else 0)
  {
    if Quiet(e) { QuietStep(s, e); } else if !e.Start? { LoudStep(s, e); }
  }

  function StepsOf(es: seq<Step>): set<Step> {
    set e | e in es
  }

  lemma {:induction false} CausedRun(s: State, es: seq<Step>, past: set<Step>)
    requires AllCaused(s, past) && Run(s, es).Some?
    ensures AllCaused(Run(s, es).value, past + StepsOf(es))
    decreases |es|
  {
    if es == [] {
      assert past + StepsOf(es) == past;
    } else {
      CausedStep(s, es[0], past);
      CausedRun(Next(s, es[0]), es[1..], past + {es[0]});
      assert past + {es[0]} + StepsOf(es[1..]) == past + StepsOf(es);
    }
  }

  /** In every run: a turn succeeds only on a response with a result that the agent wrote for this turn, and fails only on
      one with an error, or because its own preparation, its prompt, its context or the process failed. The session that
      its channel announces and the stop reason that it ends with are those of the turn. */
  lemma OutcomesHaveTheirCause(es: seq<Step>, t: nat)
    requires Run(Init, es).Some? && t < |Run(Init, es).value.turns|
    ensures var turn := Run(Init, es).value.turns[t];
      && (Succeeded(turn.pc) ==> Write(Answer(t, true)) in es)
      && (Failed(turn.pc) ==>
            || Write(Answer(t, false)) in es || Die(t) in es
            || PrepareFails(t) in es || PromptFails(t) in es || ContextEnds(t) in es)
      && (forall i :: 0 <= i < |turn.log| && turn.log[i].SessionInit? ==> Announce(t, turn.log[i].sessionID) in es)
      && (forall i :: 0 <= i < |turn.log| && turn.log[i].Done? ==> SendDone(t, turn.log[i].stopReason) in es)
  {
    CausedRun(Init, es, {});
    assert {} + StepsOf(es) == StepsOf(es);
    InEveryRun(es);
    var s := Run(Init, es).value;
    var turn := s.turns[t];
    assert Caused(turn, t, StepsOf(es), s.read);
    if turn.reply.Some? && turn.marks.answered.Some? {
      var n := turn.marks.answered.value - 1;
      assert Written(es)[n] == s.read[n] == Answer(t, turn.reply.value);
      WrittenAreWrites(es, n);
    }
  }

  lemma {:induction false} WrittenAreWrites(es: seq<Step>, n: nat)
    requires n < |Written(es)|
    ensures Write(Written(es)[n]) in es
  {
    if es[0].Write? && n == 0 {
    } else {
      WrittenAreWrites(es[1..], if es[0].Write? then n - 1 else n);
    }
  }
}
