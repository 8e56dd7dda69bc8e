/**
 The JSON-RPC multiplexer (internal/acp/client.go): many requests over one pipe, one read loop, a
 `pending` table under a mutex, cancellation and Close. Every mutex region and every channel operation
 is one event, and the events of all goroutines interleave freely. The agent process is an environment
 that writes arbitrary lines.

 Request k of a run has the id k + 1, as nextID hands them out in order.
*/
module RpcClient {
  import opened Wrappers

  /** What a waiting request can receive. `Response` keeps the id of the line it came from. */
  datatype Wait =
    | Result(id: int, result: string)
    | RpcError(id: int, message: string)
    | Exited
    | Closed

  /** The fields of a line that dispatchLine probes. */
  datatype Line = Line(id: Option<int>, methodName: string, result: Option<string>, error: Option<string>)

  datatype Kind =
    | Reply(id: int, wait: Wait)
    | ServerRequest(id: int, methodName: string)
    | Notification(methodName: string)
    | Junk

  /** dispatchLine's classification: an id with a result or an error makes a response, and an error
      wins over a result; otherwise a method with an id is a request and without one a notification. */
  function Classify(l: Line): Kind {
    if l.id.Some? && (l.result.Some? || l.error.Some?) then
      Reply(l.id.value,
            if l.error.Some? then RpcError(l.id.value, l.error.value) else Result(l.id.value, l.result.value))
    else if l.methodName != "" && l.id.Some? then ServerRequest(l.id.value, l.methodName)
    else if l.methodName != "" then Notification(l.methodName)
    else Junk
  }

  /** A Response object of JSON-RPC 2.0, section 5: it has an id, and either a result or an error,
      but not both, and no method. */
  predicate IsResponseObject(l: Line) {
    l.id.Some? && l.methodName == "" && (l.result.Some? <==> l.error.None?)
  }

  datatype Pc =
    | Allocated       // Request: id and channel made, before the registering region
    | Registered      // in the pending table, before the line is written
    | Selecting       // in the select
    | WriteFailed     // the write failed, before the deleting region
    | Cancelled       // the context was done, before the deleting region
    | Returned(outcome: Outcome)

  datatype Outcome = ClientClosed | WriteError | ContextDone | Received(wait: Wait)

  /** A request: where its goroutine is, what is in its channel (of capacity one), and how many sends
      that channel has seen. */
  datatype Req = Req(pc: Pc, chan: seq<Wait>, sends: nat)

  datatype Loop = Reading | Handing(id: int, wait: Wait) | Leaving | Left

  datatype State = State(reqs: seq<Req>, pending: set<int>, closed: bool, loop: Loop, closeDone: bool)

  datatype Event =
    | Allocate
    | Register(k: nat)
    | WriteOk(k: nat)
    | WriteFails(k: nat)
    | ContextEnds(k: nat)
    | Forget(k: nat)           // the deleting region after a failed write or a cancellation
    | Receive(k: nat)
    | Dispatch(line: Line)     // the read loop takes a line; the table lookup is one region
    | Deliver                  // the send that follows the lookup
    | ProcessExits             // stdout ends
    | FailOnExit               // failPending, by the read loop
    | MarkClosed               // Close: closed = true
    | FailOnClose              // failPending, by Close

  const Init := State([], {}, false, Reading, false)

  predicate At(s: State, k: nat, pc: Pc) {
    k < |s.reqs| && s.reqs[k].pc == pc
  }

  predicate IsId(s: State, id: int) {
    1 <= id <= |s.reqs|
  }

  predicate Enabled(s: State, e: Event) {
    match e
    case Allocate => true
    case Register(k) => At(s, k, Allocated)
    case WriteOk(k) => At(s, k, Registered)
    case WriteFails(k) => At(s, k, Registered)
    case ContextEnds(k) => At(s, k, Selecting)
    case Forget(k) => At(s, k, WriteFailed) || At(s, k, Cancelled)
    case Receive(k) => At(s, k, Selecting) && s.reqs[k].chan != []
    case Dispatch(_) => s.loop == Reading
    case Deliver => s.loop.Handing? && IsId(s, s.loop.id) && s.reqs[s.loop.id - 1].chan == []
    case ProcessExits => s.loop == Reading
    case FailOnExit => s.loop == Leaving
    case MarkClosed => true
    case FailOnClose => s.closed
  }

  /** A send on a channel of capacity one that drops the value when the channel is full. */
  function Offer(r: Req, w: Wait): Req {
    if r.chan == [] then r.(chan := [w], sends := r.sends + 1) else r
  }

  /** `w` offered to the requests with these ids. */
  function Served(reqs: seq<Req>, ids: set<int>, w: Wait): seq<Req> {
    seq(|reqs|, k requires 0 <= k < |reqs| => if k + 1 in ids then Offer(reqs[k], w) else reqs[k])
  }

  /** failPending: offer the failure to every pending request and empty the table. */
  function FailAll(s: State, w: Wait): State {
    s.(reqs := Served(s.reqs, s.pending, w), pending := {})
  }

  function SetPc(s: State, k: nat, pc: Pc): State
    requires k < |s.reqs|
  {
    s.(reqs := s.reqs[k := s.reqs[k].(pc := pc)])
  }

  function Step(s: State, e: Event): State
    requires Enabled(s, e)
  {
    match e
    case Allocate => s.(reqs := s.reqs + [Req(Allocated, [], 0)])
    case Register(k) =>
      if s.closed then SetPc(s, k, Returned(ClientClosed))
      else SetPc(s, k, Registered).(pending := s.pending + {k + 1})
    case WriteOk(k) => SetPc(s, k, Selecting)
    case WriteFails(k) => SetPc(s, k, WriteFailed)
    case ContextEnds(k) => SetPc(s, k, Cancelled)
    case Forget(k) =>
      SetPc(s, k, Returned(if s.reqs[k].pc == WriteFailed then WriteError else ContextDone))
      .(pending := s.pending - {k + 1})
    case Receive(k) =>
      s.(reqs := s.reqs[k := s.reqs[k].(pc := Returned(Received(s.reqs[k].chan[0])), chan := s.reqs[k].chan[1..])])
    case Dispatch(line) =>
      var kind := Classify(line);
      if kind.Reply? && kind.id in s.pending
      then s.(pending := s.pending - {kind.id}, loop := Handing(kind.id, kind.wait))
      else s
    case Deliver =>
      var k := s.loop.id - 1;
      s.(reqs := s.reqs[k := Offer(s.reqs[k], s.loop.wait)], loop := Reading)
    case ProcessExits => s.(loop := Leaving)
    case FailOnExit => FailAll(s, Exited).(loop := Left)
    case MarkClosed => s.(closed := true)
    case FailOnClose => FailAll(s, Closed).(closeDone := true)
  }

  function Run(s: State, es: seq<Event>): Option<State>
    decreases |es|
  {
    if es == [] then Some(s)
    else if Enabled(s, es[0]) then Run(Step(s, es[0]), es[1..])
    else None
  }

  // ---- The invariant ----

  /** May the request with this id receive `w`? Only a line with its own id, or a failure. */
  predicate Own(id: int, w: Wait) {
    match w
    case Result(i, _) => i == id
    case RpcError(i, _) => i == id
    case Exited => true
    case Closed => true
  }

  predicate InHand(s: State, id: int) {
    s.loop.Handing? && s.loop.id == id
  }

  /** A request is in exactly one place while it waits: in the table, in the dispatcher's hand, or
      served; and before it registers it is in none. */
  predicate ReqOk(s: State, k: nat)
    requires k < |s.reqs|
  {
    var r, id := s.reqs[k], k + 1;
    && r.sends <= 1
    && |r.chan| <= r.sends
    && (id in s.pending ==> r.sends == 0 && !InHand(s, id))
    && (InHand(s, id) ==> r.sends == 0)
    && (forall w :: w in r.chan ==> Own(id, w))
    && (r.pc.Returned? && r.pc.outcome.Received? ==> Own(id, r.pc.outcome.wait) && r.sends == 1 && r.chan == [])
    && (match r.pc
        case Allocated => id !in s.pending && !InHand(s, id) && r.sends == 0
        case Returned(_) => id !in s.pending
        case _ => id in s.pending || InHand(s, id) || |r.chan| == 1)
  }

  /** The table and the read loop know requests that exist, and Close leaves an empty table. */
  ghost predicate TableOk(s: State) {
    && (forall id :: id in s.pending ==> IsId(s, id))
    && (s.loop.Handing? ==> IsId(s, s.loop.id) && Own(s.loop.id, s.loop.wait))
    && (s.closeDone ==> s.closed && s.pending == {})
  }

  ghost predicate Inv(s: State) {
    TableOk(s) && forall k :: 0 <= k < |s.reqs| ==> ReqOk(s, k)
  }

  lemma ReqFails(s: State, e: Event, k: nat)
    requires Enabled(s, e) && (e.FailOnExit? || e.FailOnClose?) && k < |s.reqs| && ReqOk(s, k)
    ensures k < |Step(s, e).reqs| && ReqOk(Step(s, e), k)
  {
  }

  lemma ReqHandled(s: State, e: Event, k: nat)
    requires Enabled(s, e) && (e.Dispatch? || e.Deliver?) && k < |s.reqs| && ReqOk(s, k)
    requires s.loop.Handing? ==> Own(s.loop.id, s.loop.wait)
    ensures k < |Step(s, e).reqs| && ReqOk(Step(s, e), k)
  {
  }

  /** One request, that was there before the step. */
  lemma ReqStep(s: State, e: Event, k: nat)
    requires Enabled(s, e) && k < |s.reqs| && ReqOk(s, k)
    requires s.loop.Handing? ==> Own(s.loop.id, s.loop.wait)
    ensures k < |Step(s, e).reqs| && ReqOk(Step(s, e), k)
  {
    if e.FailOnExit? || e.FailOnClose? {
      ReqFails(s, e, k);
    } else if e.Dispatch? || e.Deliver? {
      ReqHandled(s, e, k);
    }
  }

  lemma NewReq(s: State)
    requires forall id :: id in s.pending ==> IsId(s, id)
    requires s.loop.Handing? ==> IsId(s, s.loop.id)
    ensures var t := Step(s, Allocate); |t.reqs| == |s.reqs| + 1 && ReqOk(t, |s.reqs|)
  {
  }

  lemma SameReqs(s: State, e: Event)
    requires Enabled(s, e)
    ensures |Step(s, e).reqs| == |s.reqs| + (if e.Allocate? then 1 else 0)
  {
  }

  lemma TableOkStep(s: State, e: Event)
    requires TableOk(s) && Enabled(s, e)
    ensures TableOk(Step(s, e))
  {
  }

  lemma InvStep(s: State, e: Event)
    requires Inv(s) && Enabled(s, e)
    ensures Inv(Step(s, e))
  {
    TableOkStep(s, e);
    SameReqs(s, e);
    NewReq(s);
    forall k | 0 <= k < |Step(s, e).reqs| ensures ReqOk(Step(s, e), k) {
      if k < |s.reqs| { ReqStep(s, e, k); }
    }
  }

  lemma {:induction false} InvRun(s: State, es: seq<Event>)
    requires Inv(s) && Run(s, es).Some?
    ensures Inv(Run(s, es).value)
    decreases |es|
  {
    if es != [] {
      InvStep(s, es[0]);
      InvRun(Step(s, es[0]), es[1..]);
    }
  }

  // ---- What a waiter can receive ----

  /** The answer that a line carries for the request with this id, read off its fields: the text of its error if it
      has one, else the text of its result. */
  predicate Answers(l: Line, id: int, w: Wait) {
    && l.id == Some(id)
    && (l.error.Some? ==> w == RpcError(id, l.error.value))
    && (l.error.None? ==> l.result.Some? && w == Result(id, l.result.value))
  }

  /** The events that can be where such a value comes from. */
  predicate Source(e: Event, id: int, w: Wait) {
    match e
    case Dispatch(l) => Answers(l, id, w)
    case FailOnExit => w == Exited
    case FailOnClose => w == Closed
    case _ => false
  }

  ghost predicate Known(past: set<Event>, id: int, w: Wait) {
    exists e :: e in past && Source(e, id, w)
  }

  ghost predicate HonestReq(r: Req, id: int, past: set<Event>) {
    && (forall i :: 0 <= i < |r.chan| ==> Known(past, id, r.chan[i]))
    && (r.pc.Returned? && r.pc.outcome.Received? ==> Known(past, id, r.pc.outcome.wait))
  }

  /** Nothing is in a channel, in the dispatcher's hand or with a waiter that no event of the past brought. */
  ghost predicate Honest(s: State, past: set<Event>) {
    && (forall k :: 0 <= k < |s.reqs| ==> HonestReq(s.reqs[k], k + 1, past))
    && (s.loop.Handing? ==> Known(past, s.loop.id, s.loop.wait))
  }

  lemma KnownGrows(past: set<Event>, id: int, w: Wait, e: Event)
    requires Known(past, id, w)
    ensures Known(past + {e}, id, w)
  {
    var d :| d in past && Source(d, id, w);
    assert d in past + {e};
  }

  lemma HonestReqGrows(r: Req, id: int, past: set<Event>, e: Event)
    requires HonestReq(r, id, past)
    ensures HonestReq(r, id, past + {e})
  {
    forall i | 0 <= i < |r.chan| ensures Known(past + {e}, id, r.chan[i]) {
      KnownGrows(past, id, r.chan[i], e);
    }
    if r.pc.Returned? && r.pc.outcome.Received? {
      KnownGrows(past, id, r.pc.outcome.wait, e);
    }
  }

  lemma HonestGrows(s: State, past: set<Event>, e: Event)
    requires Honest(s, past)
    ensures Honest(s, past + {e})
  {
    forall k | 0 <= k < |s.reqs| ensures HonestReq(s.reqs[k], k + 1, past + {e}) {
      HonestReqGrows(s.reqs[k], k + 1, past, e);
    }
    if s.loop.Handing? { KnownGrows(past, s.loop.id, s.loop.wait, e); }
  }

  /** With what `e` brings among what is known already. */
  lemma HonestStep(s: State, e: Event, past: set<Event>)
    requires Honest(s, past) && Enabled(s, e) && e in past
    ensures Honest(Step(s, e), past)
  {
    var t := Step(s, e);
    forall k | 0 <= k < |t.reqs| ensures HonestReq(t.reqs[k], k + 1, past) {
      if k < |s.reqs| { assert HonestReq(s.reqs[k], k + 1, past); }
      if e.FailOnExit? { assert Source(e, k + 1, Exited); }
      if e.FailOnClose? { assert Source(e, k + 1, Closed); }
    }
    if e.Dispatch? && t.loop.Handing? {
      assert Source(e, t.loop.id, t.loop.wait);
    }
  }

  lemma {:induction false} HonestRun(s: State, es: seq<Event>, past: set<Event>)
    requires Honest(s, past) && Run(s, es).Some?
    ensures Honest(Run(s, es).value, past + Elems(es))
    decreases |es|
  {
    if es == [] {
      assert past + Elems(es) == past;
    } else {
      HonestGrows(s, past, es[0]);
      HonestStep(s, es[0], past + {es[0]});
      HonestRun(Step(s, es[0]), es[1..], past + {es[0]});
      assert past + {es[0]} + Elems(es[1..]) == past + Elems(es);
    }
  }

  function Elems(es: seq<Event>): set<Event> {
    set e | e in es
  }

  /** In every interleaving: a request whose Request call received something received the fields of a line that the
      read loop took and that has this request's id, its error if it has one and else its result; or the failure of a
      failPending that ran. And its channel saw one send at most. */
  lemma WaitersReceiveTheirOwn(es: seq<Event>, k: nat)
    requires Run(Init, es).Some? && k < |Run(Init, es).value.reqs|
    ensures var r := Run(Init, es).value.reqs[k];
      && r.sends <= 1
      && (r.pc.Returned? && r.pc.outcome.Received? ==>
            var w := r.pc.outcome.wait;
            && r.sends == 1 && r.chan == []
            && (|| (w == Exited && FailOnExit in es)
                || (w == Closed && FailOnClose in es)
                || exists l :: Dispatch(l) in es && l.id == Some(k + 1) &&
                     (|| (l.error.Some? && w == RpcError(k + 1, l.error.value))
                      || (l.error.None? && l.result.Some? && w == Result(k + 1, l.result.value)))))
  {
    InvRun(Init, es);
    HonestRun(Init, es, {});
    assert {} + Elems(es) == Elems(es);
    var r := Run(Init, es).value.reqs[k];
    assert ReqOk(Run(Init, es).value, k);
    assert HonestReq(r, k + 1, Elems(es));
    if r.pc.Returned? && r.pc.outcome.Received? {
      var e :| e in Elems(es) && Source(e, k + 1, r.pc.outcome.wait);
      if e.Dispatch? { assert Dispatch(e.line) in es; }
    }
  }

  /** What must have happened for a request to be where it is. */
  predicate Caused(pc: Pc, k: nat, past: set<Event>) {
    match pc
    case WriteFailed => WriteFails(k) in past
    case Cancelled => ContextEnds(k) in past
    case Returned(ClientClosed) => MarkClosed in past
    case Returned(WriteError) => WriteFails(k) in past
    case Returned(ContextDone) => ContextEnds(k) in past
    case Returned(Received(_)) => Receive(k) in past
    case _ => true
  }

  predicate AllCaused(s: State, past: set<Event>) {
    && (s.closed ==> MarkClosed in past)
    && (forall k :: 0 <= k < |s.reqs| ==> Caused(s.reqs[k].pc, k, past))
  }

  lemma CausedStep(s: State, e: Event, past: set<Event>)
    requires AllCaused(s, past) && Enabled(s, e)
    ensures AllCaused(Step(s, e), past + {e})
  {
    var t := Step(s, e);
    forall k | 0 <= k < |t.reqs| ensures Caused(t.reqs[k].pc, k, past + {e}) {
      if k < |s.reqs| { assert Caused(s.reqs[k].pc, k, past); }
    }
  }

  lemma {:induction false} CausedRun(s: State, es: seq<Event>, past: set<Event>)
    requires AllCaused(s, past) && Run(s, es).Some?
    ensures AllCaused(Run(s, es).value, past + Elems(es))
    decreases |es|
  {
    if es == [] {
      assert past + Elems(es) == past;
    } else {
      CausedStep(s, es[0], past);
      CausedRun(Step(s, es[0]), es[1..], past + {es[0]});
      assert past + {es[0]} + Elems(es[1..]) == past + Elems(es);
    }
  }

  /** A Request that returns without a value tells its caller why: the client was closed, its own line could not be
      written, or its own context ended. */
  lemma FailuresNameTheirCause(es: seq<Event>, k: nat)
    requires Run(Init, es).Some? && k < |Run(Init, es).value.reqs| && Run(Init, es).value.reqs[k].pc.Returned?
    ensures match Run(Init, es).value.reqs[k].pc.outcome
      case ClientClosed => MarkClosed in es
      case WriteError => WriteFails(k) in es
      case ContextDone => ContextEnds(k) in es
      case Received(_) => Receive(k) in es
  {
    CausedRun(Init, es, {});
    assert {} + Elems(es) == Elems(es);
    assert Caused(Run(Init, es).value.reqs[k].pc, k, Elems(es));
  }

  /** What request k has been promised, on its way or arrived. */
  predicate Promised(s: State, k: nat, w: Wait) {
    && k < |s.reqs|
    && (|| s.loop == Handing(k + 1, w)
        || s.reqs[k].chan == [w]
        || s.reqs[k].pc == Returned(Received(w)))
  }

  lemma PromisedStep(s: State, e: Event, k: nat, w: Wait)
    requires Inv(s) && Enabled(s, e) && Promised(s, k, w)
    ensures Promised(Step(s, e), k, w)
  {
    assert ReqOk(s, k);
  }

  lemma {:induction false} PromisedRun(s: State, es: seq<Event>, k: nat, w: Wait)
    requires Inv(s) && Run(s, es).Some? && Promised(s, k, w)
    ensures Inv(Run(s, es).value) && Promised(Run(s, es).value, k, w)
    decreases |es|
  {
    if es != [] {
      InvStep(s, es[0]);
      PromisedStep(s, es[0], k, w);
      PromisedRun(Step(s, es[0]), es[1..], k, w);
    }
  }

  /** The first response that is taken while a request is pending is the one it receives, if it receives anything:
      whatever other lines follow, whatever fails, and whenever it gets to its select. */
  lemma FirstResponseWins(before: seq<Event>, l: Line, after: seq<Event>, k: nat, w: Wait)
    requires Run(Init, before).Some?
    requires var s := Run(Init, before).value;
      Enabled(s, Dispatch(l)) && k + 1 in s.pending && Run(Step(s, Dispatch(l)), after).Some?
    requires Answers(l, k + 1, w)
    ensures var t := Run(Step(Run(Init, before).value, Dispatch(l)), after).value;
      && k < |t.reqs| && k + 1 !in Step(Run(Init, before).value, Dispatch(l)).pending
      && (t.reqs[k].pc.Returned? && t.reqs[k].pc.outcome.Received? ==> t.reqs[k].pc.outcome.wait == w)
      && (t.reqs[k].pc == Selecting ==> t.loop == Handing(k + 1, w) || t.reqs[k].chan == [w])
  {
    InvRun(Init, before);
    var s := Run(Init, before).value;
    InvStep(s, Dispatch(l));
    PromisedRun(Step(s, Dispatch(l)), after, k, w);
    assert ReqOk(Run(Step(s, Dispatch(l)), after).value, k);
  }

  /** A line that has no id, no answer, or the id of no pending request changes nothing at all. */
  lemma OtherLinesChangeNothing(s: State, l: Line)
    requires Enabled(s, Dispatch(l))
    ensures Step(s, Dispatch(l)) == s <==>
      l.id.None? || (l.result.None? && l.error.None?) || l.id.value !in s.pending
  {
  }

  /** Pending, in the dispatcher's hand, or served: a request is in at most one of the three places,
      and while its goroutine is in the select it is in exactly one. */
  lemma OnePlaceAtATime(es: seq<Event>, k: nat)
    requires Run(Init, es).Some? && k < |Run(Init, es).value.reqs|
    ensures var s := Run(Init, es).value;
      var places := (if k + 1 in s.pending then 1 else 0) + (if InHand(s, k + 1) then 1 else 0) + s.reqs[k].sends;
      && places <= 1
      && (s.reqs[k].pc == Selecting ==> places == 1)
  {
    InvRun(Init, es);
    assert ReqOk(Run(Init, es).value, k);
  }

  /** The read loop never blocks on the channel it is about to send on. */
  lemma DispatcherNeverBlocks(es: seq<Event>)
    requires Run(Init, es).Some?
    ensures Run(Init, es).value.loop.Handing? ==> Enabled(Run(Init, es).value, Deliver)
  {
    InvRun(Init, es);
    var s := Run(Init, es).value;
    if s.loop.Handing? { assert ReqOk(s, s.loop.id - 1); }
  }

  // ---- Close, and the end of the process ----

  lemma {:induction false} CloseDoneStays(s: State, es: seq<Event>)
    requires Inv(s) && s.closeDone && Run(s, es).Some?
    ensures Run(s, es).value.closeDone && Run(s, es).value.pending == {}
    decreases |es|
  {
    if es != [] {
      InvStep(s, es[0]);
      CloseDoneStays(Step(s, es[0]), es[1..]);
    }
  }

  /** Once Close has run failPending the table stays empty for ever, and no waiter is left behind: what
      a waiter is to receive is in its channel, or in the hand of a dispatcher that can deliver it. */
  lemma NoWaiterOutlivesClose(before: seq<Event>, after: seq<Event>, k: nat)
    requires Run(Init, before).Some? && Run(Init, before).value.closeDone
    requires Run(Run(Init, before).value, after).Some?
    requires k < |Run(Run(Init, before).value, after).value.reqs|
    ensures var s := Run(Run(Init, before).value, after).value;
      && s.pending == {}
      && (s.reqs[k].pc == Selecting ==> Enabled(s, Receive(k)) || (InHand(s, k + 1) && Enabled(s, Deliver)))
      && (s.reqs[k].pc == Allocated ==> Step(s, Register(k)).reqs[k].pc == Returned(ClientClosed))
  {
    InvRun(Init, before);
    CloseDoneStays(Run(Init, before).value, after);
    InvRun(Run(Init, before).value, after);
    assert ReqOk(Run(Run(Init, before).value, after).value, k);
  }

  /** Either failPending serves everything that is pending with the failure, and nothing else. */
  lemma FailPendingServesAll(s: State, e: Event, k: nat)
    requires Inv(s) && Enabled(s, e) && (e.FailOnExit? || e.FailOnClose?)
    requires k < |s.reqs|
    ensures var t := Step(s, e);
      && t.pending == {} && |t.reqs| == |s.reqs|
      && t.reqs[k].pc == s.reqs[k].pc
      && t.reqs[k].chan == (if k + 1 in s.pending then [if e.FailOnExit? then Exited else Closed] else s.reqs[k].chan)
  {
    assert ReqOk(s, k);
  }

  /** The last of a request's registration and the two failPendings along a run is the registration; `was` says so of
      what came before. */
  predicate RegisteredLast(es: seq<Event>, k: nat, was: bool) {
    if es == [] then was
    else RegisteredLast(es[1..], k, es[0] == Register(k) || (was && !es[0].FailOnExit? && !es[0].FailOnClose?))
  }

  /** In the table, or out of it, while Request k is between its registration and its return. */
  predicate TableSays(s: State, k: nat, was: bool) {
    s.loop == Left && k < |s.reqs| && !s.reqs[k].pc.Allocated? && !s.reqs[k].pc.Returned? ==> (k + 1 in s.pending <==> was)
  }

  lemma TableStep(s: State, e: Event, k: nat, was: bool)
    requires Inv(s) && Enabled(s, e) && TableSays(s, k, was)
    ensures TableSays(Step(s, e), k, e == Register(k) || (was && !e.FailOnExit? && !e.FailOnClose?))
  {
    if k < |s.reqs| {
      assert ReqOk(s, k);
    }
  }

  lemma {:induction false} TableRun(s: State, es: seq<Event>, k: nat, was: bool)
    requires Inv(s) && Run(s, es).Some? && TableSays(s, k, was)
    ensures Inv(Run(s, es).value) && TableSays(Run(s, es).value, k, RegisteredLast(es, k, was))
    decreases |es|
  {
    if es != [] {
      InvStep(s, es[0]);
      TableStep(s, es[0], k, was);
      TableRun(Step(s, es[0]), es[1..], k, es[0] == Register(k) || (was && !es[0].FailOnExit? && !es[0].FailOnClose?));
    }
  }

  /** The end of the process alone gives no such guarantee. Every run: when the read loop has left, a waiter has its
      answer at hand exactly if it is no longer in the table; and it is in the table exactly if it registered after
      the loop's failPending and no failPending of Close came since. */
  lemma AfterExitWaitsWhoRegisteredLast(es: seq<Event>, k: nat)
    requires Run(Init, es).Some? && Run(Init, es).value.loop == Left && At(Run(Init, es).value, k, Selecting)
    ensures var s := Run(Init, es).value;
      && (Enabled(s, Receive(k)) <==> k + 1 !in s.pending)
      && (k + 1 in s.pending <==> RegisteredLast(es, k, false))
  {
    TableRun(Init, es, k, false);
    assert ReqOk(Run(Init, es).value, k);
  }

  /** Such a request waits until its own context ends or the client is closed, whatever else happens. */
  lemma {:induction false} RequestAfterExitWaits(s: State, es: seq<Event>, k: nat)
    requires Inv(s) && Run(s, es).Some?
    requires s.loop == Left && At(s, k, Selecting) && k + 1 in s.pending
    requires forall j :: 0 <= j < |es| ==> es[j] != ContextEnds(k) && !es[j].FailOnClose?
    ensures var t := Run(s, es).value; At(t, k, Selecting) && k + 1 in t.pending && t.loop == Left
    decreases |es|
  {
    if es != [] {
      assert ReqOk(s, k);
      InvStep(s, es[0]);
      RequestAfterExitWaits(Step(s, es[0]), es[1..], k);
    }
  }

  lemma RunCons(s: State, e: Event, s1: State, es: seq<Event>)
    requires Enabled(s, e) && Step(s, e) == s1
    ensures Run(s, [e] + es) == Run(s1, es)
  {
    assert ([e] + es)[1..] == es;
  }

  /** That state is reachable. */
  lemma RequestAfterExitExists()
    ensures var es := [ProcessExits] + ([FailOnExit] + ([Allocate] + ([Register(0)] + ([WriteOk(0)] + []))));
      && Run(Init, es).Some?
      && var s := Run(Init, es).value; Inv(s) && s.loop == Left && At(s, 0, Selecting) && 1 in s.pending
  {
    var fresh1 := Req(Allocated, [], 0);
    var s1 := Init.(loop := Leaving);
    var s2 := Init.(loop := Left);
    var s3 := s2.(reqs := [fresh1]);
    var s4 := s2.(reqs := [fresh1.(pc := Registered)], pending := {1});
    var s5 := s2.(reqs := [fresh1.(pc := Selecting)], pending := {1});
    assert Served([], {}, Exited) == [];
    assert [] + [fresh1] == [fresh1];
    assert {} + {1} == {1};
    RunCons(s4, WriteOk(0), s5, []);
    RunCons(s3, Register(0), s4, [WriteOk(0)] + []);
    RunCons(s2, Allocate, s3, [Register(0)] + ([WriteOk(0)] + []));
    RunCons(s1, FailOnExit, s2, [Allocate] + ([Register(0)] + ([WriteOk(0)] + [])));
    RunCons(Init, ProcessExits, s1, [FailOnExit] + ([Allocate] + ([Register(0)] + ([WriteOk(0)] + []))));
    InvRun(Init, [ProcessExits] + ([FailOnExit] + ([Allocate] + ([Register(0)] + ([WriteOk(0)] + [])))));
  }

  // ---- Response objects ----

  /** Every Response object of section 5 is an answer to its own id with its own text, and stands for nothing else; and
      a line that carries neither a result nor an error is never taken for a response, but for the request or the
      notification of its method. */
  lemma ClassifyFollowsSection5(l: Line)
    ensures IsResponseObject(l) ==>
      Classify(l) == Reply(l.id.value, if l.result.Some? then Result(l.id.value, l.result.value)
                                       else RpcError(l.id.value, l.error.value))
    ensures Classify(l).Reply? <==> l.id.Some? && (l.result.Some? || l.error.Some?)
    ensures Classify(l).Reply? ==> l.id == Some(Classify(l).id) && Answers(l, Classify(l).id, Classify(l).wait)
    ensures l.methodName != "" && l.result.None? && l.error.None? ==>
      Classify(l) == (if l.id.Some? then ServerRequest(l.id.value, l.methodName) else Notification(l.methodName))
    ensures l.methodName != "" && l.id.None? ==> Classify(l) == Notification(l.methodName)
    ensures Classify(l).Junk? <==>
      l.methodName == "" && (l.id.None? || (l.result.None? && l.error.None?))
  {
  }

  // ---- The client itself ----

  /** A channel of capacity one. */
  class Chan {
    var buf: seq<Wait>

    constructor ()
      ensures buf == []
    {
      buf := [];
    }
  }

  function Elements(ids: seq<int>): set<int> {
    if ids == [] then {} else Elements(ids[..|ids| - 1]) + {ids[|ids| - 1]}
  }

  lemma {:induction false} ElementsHas(ids: seq<int>, n: nat)
    requires n < |ids|
    ensures ids[n] in Elements(ids)
  {
    if n < |ids| - 1 { ElementsHas(ids[..|ids| - 1], n); }
  }

  lemma ElementsSnoc(ids: seq<int>, n: nat)
    requires n < |ids|
    ensures Elements(ids[..n + 1]) == Elements(ids[..n]) + {ids[n]}
  {
    assert ids[..n + 1][..n] == ids[..n];
  }

  lemma MinusOneMore<V>(m: map<int, V>, ids: set<int>, id: int)
    ensures (m - ids) - {id} == m - (ids + {id})
  {
  }

  lemma ServedNobody(reqs: seq<Req>, w: Wait)
    ensures Served(reqs, {}, w) == reqs
  {
  }

  lemma ServedOne(reqs: seq<Req>, ids: set<int>, id: int, w: Wait)
    requires 1 <= id <= |reqs|
    ensures Served(reqs, ids + {id}, w) == Served(reqs, ids, w)[id - 1 := Offer(reqs[id - 1], w)]
  {
  }

  /** The client's fields. Each method is one region of the program and one event of the machine;
      `model` is the state of the machine and `chans` the channels of all requests so far, which the
      program does not keep. */
  class Client {
    var nextID: int
    var pending: map<int, Chan>
    var closed: bool
    ghost var chans: seq<Chan>
    ghost var model: State

    ghost predicate Valid()
      reads this, chans
    {
      && nextID == |model.reqs| == |chans|
      && closed == model.closed
      && pending.Keys == model.pending
      && (forall id :: id in pending ==> 1 <= id <= |chans| && pending[id] == chans[id - 1])
      && (forall i, j :: 0 <= i < j < |chans| ==> chans[i] != chans[j])
      && Mirrors(model.reqs)
    }

    ghost predicate Mirrors(reqs: seq<Req>)
      reads this`chans, chans
    {
      |chans| == |reqs| && (forall k :: 0 <= k < |chans| ==> chans[k].buf == reqs[k].chan)
    }

    constructor ()
      ensures Valid() && model == Init && chans == []
    {
      nextID, pending, closed, chans, model := 0, map[], false, [], Init;
    }

    /** Request, first part: the id and the channel. */
    method Allocate() returns (id: int, ch: Chan)
      requires Valid()
      modifies this
      ensures Valid() && model == Step(old(model), Event.Allocate)
      ensures fresh(ch) && chans == old(chans) + [ch] && id == |chans|
    {
      nextID := nextID + 1;
      id := nextID;
      ch := new Chan();
      chans := chans + [ch];
      model := Step(model, Event.Allocate);
    }

    /** Request, the region that registers the channel, unless the client is closed. */
    method Register(id: int, ch: Chan) returns (ok: bool)
      requires Valid() && 1 <= id <= |chans| && chans[id - 1] == ch
      requires Enabled(model, Event.Register(id - 1))
      modifies this
      ensures Valid() && chans == old(chans)
      ensures model == Step(old(model), Event.Register(id - 1))
      ensures ok == !closed
    {
      ghost var k := id - 1;
      if closed {
        ok := false;
      } else {
        pending := pending[id := ch];
        ok := true;
      }
      model := Step(model, Event.Register(k));
    }

    /** Request, the region that deletes the entry after a failed write or a cancellation. */
    method Forget(id: int)
      requires Valid() && 1 <= id && Enabled(model, Event.Forget(id - 1))
      modifies this
      ensures Valid() && chans == old(chans)
      ensures model == Step(old(model), Event.Forget(id - 1))
    {
      pending := pending - {id};
      model := Step(model, Event.Forget(id - 1));
    }

    /** Request, the receiving case of the select. */
    method Receive(id: int, ch: Chan) returns (w: Wait)
      requires Valid() && 1 <= id <= |chans| && chans[id - 1] == ch
      requires Enabled(model, Event.Receive(id - 1))
      modifies this, ch
      ensures Valid() && chans == old(chans)
      ensures model == Step(old(model), Event.Receive(id - 1))
      ensures model.reqs[id - 1].pc == Returned(Received(w))
    {
      w := ch.buf[0];
      ch.buf := ch.buf[1..];
      model := Step(model, Event.Receive(id - 1));
    }

    /** dispatchLine, the region that looks a response up and deletes its entry. */
    method Dispatch(line: Line) returns (hit: bool, ch: Chan?, w: Wait)
      requires Valid() && Enabled(model, Event.Dispatch(line))
      modifies this
      ensures Valid() && chans == old(chans)
      ensures model == Step(old(model), Event.Dispatch(line))
      ensures hit <==> model.loop.Handing?
      ensures hit ==> IsId(model, model.loop.id) && ch == chans[model.loop.id - 1] && w == model.loop.wait
    {
      var kind := Classify(line);
      hit, ch, w := false, null, Exited;
      if kind.Reply? && kind.id in pending {
        hit, ch, w := true, pending[kind.id], kind.wait;
        pending := pending - {kind.id};
      }
      model := Step(model, Event.Dispatch(line));
    }

    /** dispatchLine, the send outside the region. It would block on a full channel; Inv rules that out. */
    method Deliver(ch: Chan, w: Wait)
      requires Valid() && Inv(model) && model.loop.Handing?
      requires ch == chans[model.loop.id - 1] && w == model.loop.wait
      modifies this, ch
      ensures Enabled(old(model), Event.Deliver)
      ensures Valid() && chans == old(chans)
      ensures model == Step(old(model), Event.Deliver)
    {
      assert ReqOk(model, model.loop.id - 1);
      assert ch.buf == [];
      ch.buf := [w];
      model := Step(model, Event.Deliver);
    }

    /** `select { case ch <- w: default: }` */
    static method OfferTo(ch: Chan, w: Wait)
      modifies ch
      ensures ch.buf == if old(ch.buf) == [] then [w] else old(ch.buf)
    {
      if ch.buf == [] { ch.buf := [w]; }
    }

    /** One round of failPending's loop. */
    method OfferOne(w: Wait, id: int, ghost reqs: seq<Req>, ghost ids: set<int>)
      requires 1 <= id <= |chans| == |reqs|
      requires id in pending ==> pending[id] == chans[id - 1] && id !in ids
      requires id !in pending ==> id in ids
      requires forall i, j :: 0 <= i < j < |chans| ==> chans[i] != chans[j]
      requires Mirrors(Served(reqs, ids, w))
      modifies this`pending, chans[id - 1]
      ensures pending == old(pending) - {id} && Mirrors(Served(reqs, ids + {id}, w))
    {
      ServedOne(reqs, ids, id, w);
      if id in pending {
        OfferTo(pending[id], w);
        pending := pending - {id};
      } else {
        assert ids + {id} == ids;
      }
    }

    /** failPending's loop over the table, in whatever order the map yields its keys. */
    method OfferAll(w: Wait, order: seq<int>, ghost reqs: seq<Req>)
      requires Elements(order) == pending.Keys && Mirrors(reqs)
      requires forall id :: id in pending ==> 1 <= id <= |chans| && pending[id] == chans[id - 1]
      requires forall i, j :: 0 <= i < j < |chans| ==> chans[i] != chans[j]
      modifies this`pending, chans
      ensures pending == map[] && Mirrors(Served(reqs, old(pending).Keys, w))
    {
      ghost var table := pending;
      ServedNobody(reqs, w);
      for n := 0 to |order|
        invariant pending == table - Elements(order[..n])
        invariant Mirrors(Served(reqs, Elements(order[..n]), w))
      {
        ElementsSnoc(order, n);
        ElementsHas(order, n);
        MinusOneMore(table, Elements(order[..n]), order[n]);
        OfferOne(w, order[n], reqs, Elements(order[..n]));
      }
      assert order[..|order|] == order;
    }

    /** failPending, one region. */
    method FailPending(w: Wait, order: seq<int>)
      requires Valid() && Elements(order) == pending.Keys
      modifies this`pending, this`model, chans
      ensures Valid() && chans == old(chans) && model == FailAll(old(model), w) && pending == map[]
    {
      OfferAll(w, order, model.reqs);
      model := FailAll(model, w);
    }

    /** The end of the read loop: the event FailOnExit. */
    method ReadLoopEnds(order: seq<int>)
      requires Valid() && Elements(order) == pending.Keys && model.loop == Leaving
      modifies this, chans
      ensures Valid() && chans == old(chans) && model == Step(old(model), FailOnExit)
    {
      FailPending(Exited, order);
      model := model.(loop := Left);
    }

    /** Close, as far as the table is concerned: the events MarkClosed and FailOnClose. */
    method Close(order: seq<int>)
      requires Valid() && Elements(order) == pending.Keys
      modifies this, chans
      ensures Valid() && chans == old(chans)
      ensures model == Step(Step(old(model), MarkClosed), FailOnClose)
      ensures closed && pending == map[]
    {
      closed := true;
      model := model.(closed := true);
      FailPending(Closed, order);
      model := model.(closeDone := true);
    }
  }
}
