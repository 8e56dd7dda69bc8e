/**
 The permit controller (internal/concurrency/controller.go) at the grain of its atomic operations.

 Acquire and Release are not single steps: each atomic add, each channel operation and each
 mutex region is one event here, and the events of any number of operations interleave freely.
 Operation i of a run is `ops[i]`, the point its goroutine has reached.
*/
module Permits {
  import opened Wrappers

  datatype Pc =
    | Arriving      // Acquire: before Queued is incremented
    | Waiting       // Acquire: in the select
    | Took          // Acquire: a token was received, Queued not yet decremented
    | Dequeued      // Acquire: Queued decremented, Active not yet incremented
    | Holding       // Acquire returned nil
    | TimedOut      // Acquire: the timer fired, Queued not yet decremented
    | Refused       // Acquire returned an error
    | Leaving       // Release: before Active is decremented
    | Undoing       // Release: Active went negative, the decrement is about to be undone
    | Returning     // Release: about to push the token
    | Overflowing   // Release: the channel was full, the decrement is about to be undone
    | Returned      // Release: token pushed, Completed not yet incremented
    | Recording     // Release: before the mutex region
    | Ignored       // Release returned early, having changed nothing
    | Released      // Release returned after handing the token back

  const WINDOW_SIZE: nat := 100

  /** `tokens` is the number of tokens in the channel; `recorded` is the history of the latencies
      that reached the mutex region, which the program itself does not keep. */
  datatype State = State(
    cap: nat, tokens: nat, queued: int, active: int, completed: int,
    latencySum: int, latencyCount: int, window: seq<int>,
    ops: seq<Pc>, recorded: seq<int>)

  datatype Event =
    | StartAcquire
    | Enqueue(i: nat)
    | Take(i: nat)
    | Expire(i: nat)
    | Dequeue(i: nat)
    | Activate(i: nat)
    | StartRelease(i: nat)   // the holder i calls Release
    | StrayRelease           // a Release that no Acquire stands behind
    | Deactivate(i: nat)
    | Undo(i: nat)
    | Push(i: nat)
    | Complete(i: nat)
    | Record(i: nat, latency: int)

  function Init(maxConcurrent: int): (s: State) {
    var cap := if maxConcurrent <= 0 then 5 else maxConcurrent;
    State(cap, cap, 0, 0, 0, 0, 0, [], [], [])
  }

  predicate At(s: State, i: nat, pc: Pc) {
    i < |s.ops| && s.ops[i] == pc
  }

  predicate Enabled(s: State, e: Event) {
    match e
    case StartAcquire => true
    case Enqueue(i) => At(s, i, Arriving)
    case Take(i) => At(s, i, Waiting) && s.tokens > 0
    case Expire(i) => At(s, i, Waiting)
    case Dequeue(i) => At(s, i, Took) || At(s, i, TimedOut)
    case Activate(i) => At(s, i, Dequeued)
    case StartRelease(i) => At(s, i, Holding)
    case StrayRelease => true
    case Deactivate(i) => At(s, i, Leaving)
    case Undo(i) => At(s, i, Undoing) || At(s, i, Overflowing)
    case Push(i) => At(s, i, Returning)
    case Complete(i) => At(s, i, Returned)
    case Record(i, latency) => At(s, i, Recording)
  }

  /** The last `n` elements of `s`, or all of it. */
  function Last(s: seq<int>, n: nat): seq<int> {
    if |s| <= n then s else s[|s| - n..]
  }

  function Step(s: State, e: Event): State
    requires Enabled(s, e)
  {
    match e
    case StartAcquire => s.(ops := s.ops + [Arriving])
    case Enqueue(i) => s.(queued := s.queued + 1, ops := s.ops[i := Waiting])
    case Take(i) => s.(tokens := s.tokens - 1, ops := s.ops[i := Took])
    case Expire(i) => s.(ops := s.ops[i := TimedOut])
    case Dequeue(i) =>
      s.(queued := s.queued - 1, ops := s.ops[i := if s.ops[i] == Took then Dequeued else Refused])
    case Activate(i) => s.(active := s.active + 1, ops := s.ops[i := Holding])
    case StartRelease(i) => s.(ops := s.ops[i := Leaving])
    case StrayRelease => s.(ops := s.ops + [Leaving])
    case Deactivate(i) =>
      s.(active := s.active - 1, ops := s.ops[i := if s.active - 1 < 0 then Undoing else Returning])
    case Undo(i) => s.(active := s.active + 1, ops := s.ops[i := Ignored])
    case Push(i) =>
      if s.tokens < s.cap then s.(tokens := s.tokens + 1, ops := s.ops[i := Returned])
      else s.(ops := s.ops[i := Overflowing])
    case Complete(i) => s.(completed := s.completed + 1, ops := s.ops[i := Recording])
    case Record(i, latency) =>
      s.(latencySum := s.latencySum + latency, latencyCount := s.latencyCount + 1,
         window := Last(s.window + [latency], WINDOW_SIZE),
         ops := s.ops[i := Released], recorded := s.recorded + [latency])
  }

  // ---- Runs ----

  /** The state after the events of `es`, or None if one of them was not possible when it came. */
  function Run(s: State, es: seq<Event>): Option<State>
    decreases |es|
  {
    if es == [] then Some(s)
    else if Enabled(s, es[0]) then Run(Step(s, es[0]), es[1..])
    else None
  }

  predicate Matched(es: seq<Event>) {
    forall k :: 0 <= k < |es| ==> es[k] != StrayRelease
  }

  // ---- Counting operations ----

  function Count(ops: seq<Pc>, at: set<Pc>): (n: nat)
    ensures n <= |ops|
  {
    if ops == [] then 0
    else Count(ops[..|ops| - 1], at) + (if ops[|ops| - 1] in at then 1 else 0)
  }

  lemma {:induction false} CountUpdate(ops: seq<Pc>, i: nat, pc: Pc, at: set<Pc>)
    requires i < |ops|
    ensures Count(ops[i := pc], at)
         == Count(ops, at) - (if ops[i] in at then 1 else 0) + (if pc in at then 1 else 0)
  {
    var n := |ops| - 1;
    if i == n {
      assert ops[i := pc][..n] == ops[..n];
    } else {
      assert ops[i := pc][..n] == ops[..n][i := pc];
      CountUpdate(ops[..n], i, pc, at);
    }
  }

  lemma CountAppend(ops: seq<Pc>, pc: Pc, at: set<Pc>)
    ensures Count(ops + [pc], at) == Count(ops, at) + (if pc in at then 1 else 0)
  {
    assert (ops + [pc])[..|ops|] == ops;
  }

  lemma {:induction false} CountZero(ops: seq<Pc>, at: set<Pc>)
    requires forall i :: 0 <= i < |ops| ==> ops[i] !in at
    ensures Count(ops, at) == 0
  {
    if ops != [] { CountZero(ops[..|ops| - 1], at); }
  }

  lemma {:induction false} CountPositive(ops: seq<Pc>, i: nat, at: set<Pc>)
    requires i < |ops| && ops[i] in at
    ensures Count(ops, at) > 0
  {
    if i < |ops| - 1 { CountPositive(ops[..|ops| - 1], i, at); }
  }

  lemma {:induction false} CountDisjoint(ops: seq<Pc>, a: set<Pc>, b: set<Pc>)
    requires a !! b
    ensures Count(ops, a) + Count(ops, b) == Count(ops, a + b)
  {
    if ops != [] { CountDisjoint(ops[..|ops| - 1], a, b); }
  }

  /** Where an event takes the operation it belongs to. */
  function Target(s: State, e: Event): Pc
    requires Enabled(s, e) && !e.StartAcquire? && !e.StrayRelease?
  {
    match e
    case Enqueue(_) => Waiting
    case Take(_) => Took
    case Expire(_) => TimedOut
    case Dequeue(i) => if s.ops[i] == Took then Dequeued else Refused
    case Activate(_) => Holding
    case StartRelease(_) => Leaving
    case Deactivate(_) => if s.active - 1 < 0 then Undoing else Returning
    case Undo(_) => Ignored
    case Push(_) => if s.tokens < s.cap then Returned else Overflowing
    case Complete(_) => Recording
    case Record(_, _) => Released
  }

  lemma {:induction false} TargetStep(s: State, e: Event)
    requires Enabled(s, e) && !e.StartAcquire? && !e.StrayRelease?
    ensures e.i < |s.ops| && Step(s, e).ops == s.ops[e.i := Target(s, e)]
  {
  }

  lemma {:induction false} StartStep(s: State, e: Event)
    requires e.StartAcquire? || e.StrayRelease?
    ensures Step(s, e).ops == s.ops + [if e.StartAcquire? then Arriving else Leaving]
  {
  }

  /** How one step changes the number of operations standing in `at`. */
  lemma {:induction false} CountStep(s: State, e: Event, at: set<Pc>)
    requires Enabled(s, e)
    ensures Count(Step(s, e).ops, at) - Count(s.ops, at) == Change(s, e, at)
  {
    if e.StartAcquire? || e.StrayRelease? {
      StartStep(s, e);
      CountAppend(s.ops, if e.StartAcquire? then Arriving else Leaving, at);
    } else {
      TargetStep(s, e);
      CountUpdate(s.ops, e.i, Target(s, e), at);
    }
  }

  function Change(s: State, e: Event, at: set<Pc>): int
    requires Enabled(s, e)
  {
    match e
    case StartAcquire => if Arriving in at then 1 else 0
    case StrayRelease => if Leaving in at then 1 else 0
    case _ => (if Target(s, e) in at then 1 else 0) - (if s.ops[e.i] in at then 1 else 0)
  }

  // ---- Permit conservation, with or without stray releases ----

  /** Operations that carry a permit between the channel and the Active counter. */
  const IN_TRANSIT: set<Pc> := {Took, Dequeued, Undoing, Returning, Overflowing}
  const QUEUED: set<Pc> := {Waiting, Took, TimedOut}
  const COMPLETED: set<Pc> := {Recording, Released}

  ghost predicate Conserved(s: State) {
    && 0 < s.cap
    && s.tokens <= s.cap
    && s.tokens + s.active + Count(s.ops, IN_TRANSIT) == s.cap
    && s.queued == Count(s.ops, QUEUED)
    && s.completed == Count(s.ops, COMPLETED)
    && s.latencyCount == |s.recorded| == Count(s.ops, {Released})
    && s.latencySum == Sum(s.recorded)
    && s.window == Last(s.recorded, WINDOW_SIZE)
  }

  function Sum(xs: seq<int>): int {
    if xs == [] then 0 else Sum(xs[..|xs| - 1]) + xs[|xs| - 1]
  }

  /** The three counters of the log grow together. */
  lemma WindowStep(recorded: seq<int>, latency: int)
    ensures Last(Last(recorded, WINDOW_SIZE) + [latency], WINDOW_SIZE) == Last(recorded + [latency], WINDOW_SIZE)
    ensures Sum(recorded + [latency]) == Sum(recorded) + latency
  {
    assert (recorded + [latency])[..|recorded|] == recorded;
  }

  lemma {:induction false} TokensStep(s: State, e: Event)
    requires Enabled(s, e) && s.tokens <= s.cap
    ensures var t := Step(s, e);
      && t.cap == s.cap && t.tokens <= t.cap
      && t.tokens + t.active + Count(t.ops, IN_TRANSIT) == s.tokens + s.active + Count(s.ops, IN_TRANSIT)
  {
    CountStep(s, e, IN_TRANSIT);
  }

  lemma {:induction false} QueuedStep(s: State, e: Event)
    requires Enabled(s, e)
    ensures var t := Step(s, e); t.queued - Count(t.ops, QUEUED) == s.queued - Count(s.ops, QUEUED)
  {
    CountStep(s, e, QUEUED);
  }

  lemma {:induction false} CompletedStep(s: State, e: Event)
    requires Enabled(s, e)
    ensures var t := Step(s, e);
      t.completed - Count(t.ops, COMPLETED) == s.completed - Count(s.ops, COMPLETED)
  {
    CountStep(s, e, COMPLETED);
  }

  lemma {:induction false} RecordedStep(s: State, e: Event)
    requires Enabled(s, e) && s.window == Last(s.recorded, WINDOW_SIZE)
    ensures var t := Step(s, e);
      && |t.recorded| - Count(t.ops, {Released}) == |s.recorded| - Count(s.ops, {Released})
      && t.latencyCount - |t.recorded| == s.latencyCount - |s.recorded|
      && t.latencySum - Sum(t.recorded) == s.latencySum - Sum(s.recorded)
      && t.window == Last(t.recorded, WINDOW_SIZE)
  {
    CountStep(s, e, {Released});
    if e.Record? { WindowStep(s.recorded, e.latency); }
  }

  lemma {:induction false} ConservedStep(s: State, e: Event)
    requires Conserved(s) && Enabled(s, e)
    ensures Conserved(Step(s, e))
  {
    TokensStep(s, e);
    QueuedStep(s, e);
    CompletedStep(s, e);
    RecordedStep(s, e);
  }

  lemma {:induction false} ConservedRun(s: State, es: seq<Event>)
    requires Conserved(s) && Run(s, es).Some?
    ensures Conserved(Run(s, es).value)
    decreases |es|
  {
    if es != [] {
      ConservedStep(s, es[0]);
      ConservedRun(Step(s, es[0]), es[1..]);
    }
  }

  /** In every reachable state: free tokens + Active + permits in transit = capacity; Queued counts
      the waiting operations, Completed the finished releases, and the window holds exactly the
      last hundred latencies. Stray releases are allowed. */
  lemma PermitsConserved(maxConcurrent: int, es: seq<Event>)
    requires Run(Init(maxConcurrent), es).Some?
    ensures Conserved(Run(Init(maxConcurrent), es).value)
  {
    ConservedRun(Init(maxConcurrent), es);
  }

  /** The latencies that reach the mutex region along a run. */
  function Latencies(es: seq<Event>): seq<int> {
    if es == [] then [] else (if es[0].Record? then [es[0].latency] else []) + Latencies(es[1..])
  }

  lemma {:induction false} RecordedRun(s: State, es: seq<Event>)
    requires Run(s, es).Some?
    ensures Run(s, es).value.recorded == s.recorded + Latencies(es) && Run(s, es).value.cap == s.cap
    decreases |es|
  {
    if es == [] {
      assert s.recorded + [] == s.recorded;
    } else {
      var e := es[0];
      RecordedRun(Step(s, e), es[1..]);
      if e.Record? {
        assert s.recorded + [e.latency] + Latencies(es[1..]) == s.recorded + ([e.latency] + Latencies(es[1..]));
      } else {
        assert [] + Latencies(es[1..]) == Latencies(es[1..]);
      }
    }
  }

  /** The last hundred of all, in order, or all of them if there are no more. */
  predicate HoldsTheLast(window: seq<int>, all: seq<int>) {
    && |window| == (if |all| < 100 then |all| else 100)
    && forall k :: 0 <= k < |window| ==> window[k] == all[|all| - |window| + k]
  }

  /** Every run: the window holds the last hundred latencies, and their sum and their number since the start are kept
      beside it. */
  lemma WindowInEveryRun(maxConcurrent: int, es: seq<Event>)
    requires Run(Init(maxConcurrent), es).Some?
    ensures var s := Run(Init(maxConcurrent), es).value;
      && HoldsTheLast(s.window, Latencies(es))
      && s.latencySum == Sum(Latencies(es)) && s.latencyCount == |Latencies(es)|
      && s.cap == if maxConcurrent > 0 then maxConcurrent else 5
  {
    LogOfRun(maxConcurrent, es);
    LastAre(Latencies(es), Run(Init(maxConcurrent), es).value.window);
  }

  lemma LogOfRun(maxConcurrent: int, es: seq<Event>)
    requires Run(Init(maxConcurrent), es).Some?
    ensures var s := Run(Init(maxConcurrent), es).value;
      && s.window == Last(Latencies(es), WINDOW_SIZE)
      && s.latencySum == Sum(Latencies(es)) && s.latencyCount == |Latencies(es)|
      && s.cap == if maxConcurrent > 0 then maxConcurrent else 5
  {
    ConservedLog(maxConcurrent, es);
    RecordedRun(Init(maxConcurrent), es);
    RecordedFromInit(maxConcurrent, es);
  }

  lemma ConservedLog(maxConcurrent: int, es: seq<Event>)
    requires Run(Init(maxConcurrent), es).Some?
    ensures var s := Run(Init(maxConcurrent), es).value;
      s.window == Last(s.recorded, WINDOW_SIZE) && s.latencySum == Sum(s.recorded) && s.latencyCount == |s.recorded|
  {
    PermitsConserved(maxConcurrent, es);
  }

  lemma RecordedFromInit(maxConcurrent: int, es: seq<Event>)
    ensures Init(maxConcurrent).recorded + Latencies(es) == Latencies(es)
    ensures Init(maxConcurrent).cap == if maxConcurrent > 0 then maxConcurrent else 5
  {
  }

  lemma LastAre(all: seq<int>, window: seq<int>)
    requires window == Last(all, WINDOW_SIZE)
    ensures HoldsTheLast(window, all)
  {
  }

  const UNFINISHED: set<Pc> :=
    {Arriving, Waiting, Took, Dequeued, Holding, TimedOut, Leaving, Undoing, Returning, Overflowing, Returned, Recording}

  lemma {:induction false} CountSubset(ops: seq<Pc>, a: set<Pc>, b: set<Pc>)
    requires a <= b
    ensures Count(ops, a) <= Count(ops, b)
  {
    if ops != [] { CountSubset(ops[..|ops| - 1], a, b); }
  }

  /** The counters are 32-bit in the program. They cannot wrap while fewer than 2^31 operations
      are in flight at once and the capacity itself fits. */
  lemma CountersFitInt32(maxConcurrent: int, es: seq<Event>)
    requires Run(Init(maxConcurrent), es).Some?
    requires var s := Run(Init(maxConcurrent), es).value;
      Count(s.ops, UNFINISHED) < 0x8000_0000 && s.cap < 0x8000_0000
    ensures var s := Run(Init(maxConcurrent), es).value;
      -0x8000_0000 <= s.active < 0x8000_0000 && 0 <= s.queued < 0x8000_0000
  {
    PermitsConserved(maxConcurrent, es);
    var s := Run(Init(maxConcurrent), es).value;
    CountSubset(s.ops, IN_TRANSIT, UNFINISHED);
    CountSubset(s.ops, QUEUED, UNFINISHED);
  }

  // ---- Matched calls: only holders release ----

  const HELD: set<Pc> := {Holding, Leaving}

  /** No operation stands in a defensive branch of Release, or went through one. */
  predicate Undefended(ops: seq<Pc>) {
    forall i :: 0 <= i < |ops| ==> ops[i] !in DEFENSIVE
  }

  const DEFENSIVE: set<Pc> := {Undoing, Overflowing, Ignored}

  lemma UndefendedUpdate(ops: seq<Pc>, i: nat, pc: Pc)
    requires Undefended(ops) && i < |ops| && pc !in DEFENSIVE
    ensures Undefended(ops[i := pc])
  {
  }

  lemma UndefendedAppend(ops: seq<Pc>, pc: Pc)
    requires Undefended(ops) && pc !in DEFENSIVE
    ensures Undefended(ops + [pc])
  {
  }

  ghost predicate Exact(s: State) {
    && Conserved(s)
    && s.active == Count(s.ops, HELD)
    && Undefended(s.ops)
  }

  lemma {:induction false} HeldStep(s: State, e: Event)
    requires Enabled(s, e) && e != StrayRelease && s.active == Count(s.ops, HELD) && Undefended(s.ops)
    ensures Step(s, e).active == Count(Step(s, e).ops, HELD)
  {
    CountStep(s, e, HELD);
  }

  /** Neither defensive branch is taken: there is an active permit, and room in the channel. */
  lemma {:induction false} NoDefence(s: State, e: Event)
    requires Exact(s) && Enabled(s, e) && !e.StartAcquire? && !e.StrayRelease?
    ensures Target(s, e) !in DEFENSIVE
  {
    if e.Deactivate? {
      CountPositive(s.ops, e.i, HELD);
    } else if e.Push? {
      CountPositive(s.ops, e.i, IN_TRANSIT);
    }
  }

  lemma {:induction false} UndefendedStep(s: State, e: Event)
    requires Exact(s) && Enabled(s, e) && e != StrayRelease
    ensures Undefended(Step(s, e).ops)
  {
    if e.StartAcquire? {
      StartStep(s, e);
      UndefendedAppend(s.ops, Arriving);
    } else {
      TargetStep(s, e);
      NoDefence(s, e);
      UndefendedUpdate(s.ops, e.i, Target(s, e));
    }
  }

  lemma {:induction false} ExactStep(s: State, e: Event)
    requires Exact(s) && Enabled(s, e) && e != StrayRelease
    ensures Exact(Step(s, e))
  {
    ConservedStep(s, e);
    HeldStep(s, e);
    UndefendedStep(s, e);
  }

  lemma {:induction false} ExactRun(s: State, es: seq<Event>)
    requires Exact(s) && Run(s, es).Some? && Matched(es)
    ensures Exact(Run(s, es).value)
    decreases |es|
  {
    if es != [] {
      ExactStep(s, es[0]);
      ExactRun(Step(s, es[0]), es[1..]);
    }
  }

  /** With matched calls Active is the number of permits held, so it is never negative and never
      above the capacity, and no release ever takes the undo or the channel-full branch. */
  lemma MatchedRunsAreExact(maxConcurrent: int, es: seq<Event>)
    requires Run(Init(maxConcurrent), es).Some? && Matched(es)
    ensures var s := Run(Init(maxConcurrent), es).value;
      && Exact(s)
      && 0 <= s.active <= s.cap
      && Count(s.ops, {Holding}) <= s.cap
  {
    ExactRun(Init(maxConcurrent), es);
    CountSubset(Run(Init(maxConcurrent), es).value.ops, {Holding}, HELD);
  }

  /** When every operation of a matched run has come to its end, every permit is back. */
  lemma QuiescentMeansAllTokensBack(maxConcurrent: int, es: seq<Event>)
    requires Run(Init(maxConcurrent), es).Some? && Matched(es)
    requires forall i :: 0 <= i < |Run(Init(maxConcurrent), es).value.ops| ==>
      Run(Init(maxConcurrent), es).value.ops[i] in {Refused, Released}
    ensures var s := Run(Init(maxConcurrent), es).value;
      s.tokens == s.cap && s.active == 0 && s.queued == 0 && s.latencyCount == s.completed
  {
    MatchedRunsAreExact(maxConcurrent, es);
    var s := Run(Init(maxConcurrent), es).value;
    CountZero(s.ops, IN_TRANSIT);
    CountZero(s.ops, QUEUED);
    CountZero(s.ops, HELD);
    CountZero(s.ops, {Recording});
    CountDisjoint(s.ops, {Recording}, {Released});
    assert {Recording} + {Released} == COMPLETED;
  }

  // ---- Stray releases ----

  lemma {:induction false} RunConcat(s: State, a: seq<Event>, b: seq<Event>)
    requires Run(s, a).Some?
    ensures Run(s, a + b) == Run(Run(s, a).value, b)
    decreases |a|
  {
    if a == [] {
      assert a + b == b;
    } else {
      assert (a + b)[1..] == a[1..] + b;
      RunConcat(Step(s, a[0]), a[1..], b);
    }
  }

  lemma RunCons(s: State, e: Event, es: seq<Event>)
    requires Enabled(s, e)
    ensures Run(s, [e] + es) == Run(Step(s, e), es)
  {
    assert ([e] + es)[1..] == es;
  }

  function AcquireEvents(i: nat): seq<Event> {
    Arrival(i) + AfterTake(i)
  }

  function Arrival(i: nat): seq<Event> {
    [StartAcquire] + ([Enqueue(i)] + ([Take(i)] + []))
  }

  function AfterTake(i: nat): seq<Event> {
    [Dequeue(i)] + ([Activate(i)] + [])
  }

  lemma TakeCompletes(s: State, i: nat)
    requires At(s, i, Took)
    ensures Run(s, AfterTake(i)) == Some(s.(queued := s.queued - 1, active := s.active + 1, ops := s.ops[i := Holding]))
  {
    assert s.ops[i := Dequeued][i := Holding] == s.ops[i := Holding];
    RunCons(Step(s, Dequeue(i)), Activate(i), []);
    RunCons(s, Dequeue(i), [Activate(i)] + []);
  }

  function TookToken(s: State): State
    requires s.tokens > 0
  {
    s.(queued := s.queued + 1, tokens := s.tokens - 1, ops := s.ops + [Took])
  }

  lemma RunThree(s0: State, a: Event, s1: State, b: Event, s2: State, c: Event, s3: State)
    requires Enabled(s0, a) && s1 == Step(s0, a)
    requires Enabled(s1, b) && s2 == Step(s1, b)
    requires Enabled(s2, c) && s3 == Step(s2, c)
    ensures Run(s0, [a] + ([b] + ([c] + []))) == Some(s3)
  {
    RunCons(s2, c, []);
    RunCons(s1, b, [c] + []);
    RunCons(s0, a, [b] + ([c] + []));
  }

  lemma Enqueues(s: State, ops: seq<Pc>)
    requires s.ops == ops + [Arriving]
    ensures Enabled(s, Enqueue(|ops|))
    ensures Step(s, Enqueue(|ops|)) == s.(queued := s.queued + 1, ops := ops + [Waiting])
  {
    assert s.ops[|ops| := Waiting] == ops + [Waiting];
  }

  lemma Takes(s: State, ops: seq<Pc>)
    requires s.ops == ops + [Waiting] && s.tokens > 0
    ensures Enabled(s, Take(|ops|))
    ensures Step(s, Take(|ops|)) == s.(tokens := s.tokens - 1, ops := ops + [Took])
  {
    assert s.ops[|ops| := Took] == ops + [Took];
  }

  lemma ArrivalTakes(s: State)
    requires s.tokens > 0
    ensures Run(s, Arrival(|s.ops|)) == Some(TookToken(s))
  {
    var s1 := s.(ops := s.ops + [Arriving]);
    var s2 := s.(queued := s.queued + 1, ops := s.ops + [Waiting]);
    Enqueues(s1, s.ops);
    Takes(s2, s.ops);
    RunThree(s, StartAcquire, s1, Enqueue(|s.ops|), s2, Take(|s.ops|), TookToken(s));
  }

  lemma OneAfterTheOther(s: State, a: seq<Event>, mid: State, b: seq<Event>)
    requires Run(s, a) == Some(mid)
    ensures Run(s, a + b) == Run(mid, b)
  {
    RunConcat(s, a, b);
  }

  lemma TookThenHolds(s: State)
    requires s.tokens > 0
    ensures At(TookToken(s), |s.ops|, Took)
    ensures var t := TookToken(s);
      t.(queued := t.queued - 1, active := t.active + 1, ops := t.ops[|s.ops| := Holding])
      == s.(tokens := s.tokens - 1, active := s.active + 1, ops := s.ops + [Holding])
  {
    assert TookToken(s).ops[|s.ops| := Holding] == s.ops + [Holding];
  }

  /** An acquire that meets no other operation takes one token and leaves one more permit active. */
  lemma AcquireAlone(s: State)
    requires s.tokens > 0
    ensures Run(s, AcquireEvents(|s.ops|))
         == Some(s.(tokens := s.tokens - 1, active := s.active + 1, ops := s.ops + [Holding]))
  {
    ArrivalTakes(s);
    TakeHolds(s);
    OneAfterTheOther(s, Arrival(|s.ops|), TookToken(s), AfterTake(|s.ops|));
  }

  lemma TakeHolds(s: State)
    requires s.tokens > 0
    ensures Run(TookToken(s), AfterTake(|s.ops|))
         == Some(s.(tokens := s.tokens - 1, active := s.active + 1, ops := s.ops + [Holding]))
  {
    TookThenHolds(s);
    TakeCompletes(TookToken(s), |s.ops|);
  }

  function ReleaseEvents(s: State, i: nat, latency: int): seq<Event> {
    [StartRelease(i)] + ([Deactivate(i)] + AfterDeactivate(s, i, latency))
  }

  function AfterDeactivate(s: State, i: nat, latency: int): seq<Event> {
    if s.active <= 0 then [Undo(i)] + []
    else if s.tokens >= s.cap then [Push(i)] + ([Undo(i)] + [])
    else [Push(i)] + ([Complete(i)] + ([Record(i, latency)] + []))
  }

  /** What a release by the holder `i` that meets no other operation comes to: it hands the token back
      exactly when there is an active permit and room in the channel, and otherwise changes no counter. */
  function ReleaseOutcome(s: State, i: nat, latency: int): State
    requires At(s, i, Holding)
  {
    if s.active > 0 && s.tokens < s.cap then
      s.(tokens := s.tokens + 1, active := s.active - 1, completed := s.completed + 1,
         latencySum := s.latencySum + latency, latencyCount := s.latencyCount + 1,
         window := Last(s.window + [latency], WINDOW_SIZE),
         recorded := s.recorded + [latency], ops := s.ops[i := Released])
    else s.(ops := s.ops[i := Ignored])
  }

  lemma ReleaseAlone(s: State, i: nat, latency: int)
    requires At(s, i, Holding)
    ensures Run(s, ReleaseEvents(s, i, latency)) == Some(ReleaseOutcome(s, i, latency))
  {
    var s1 := Step(s, StartRelease(i));
    var s2 := Step(s1, Deactivate(i));
    assert s1.ops[i := s2.ops[i]] == s.ops[i := s2.ops[i]];
    DeactivateCompletes(s, s2, i, latency);
    RunCons(s1, Deactivate(i), AfterDeactivate(s, i, latency));
    RunCons(s, StartRelease(i), [Deactivate(i)] + AfterDeactivate(s, i, latency));
  }

  lemma DeactivateCompletes(s: State, t: State, i: nat, latency: int)
    requires At(s, i, Holding)
    requires t == s.(active := s.active - 1, ops := s.ops[i := if s.active <= 0 then Undoing else Returning])
    ensures Run(t, AfterDeactivate(s, i, latency)) == Some(ReleaseOutcome(s, i, latency))
  {
    if s.active <= 0 {
      assert t.ops[i := Ignored] == s.ops[i := Ignored];
      RunCons(t, Undo(i), []);
    } else if s.tokens >= s.cap {
      assert t.ops[i := Overflowing][i := Ignored] == s.ops[i := Ignored];
      RunCons(Step(t, Push(i)), Undo(i), []);
      RunCons(t, Push(i), [Undo(i)] + []);
    } else {
      assert t.ops[i := Released] == s.ops[i := Released];
      ReleaseCompletes(t, i, latency);
    }
  }

  lemma ReleaseCompletes(s: State, i: nat, latency: int)
    requires At(s, i, Returning) && s.tokens < s.cap
    ensures Run(s, [Push(i)] + ([Complete(i)] + ([Record(i, latency)] + []))) == Some(
      s.(tokens := s.tokens + 1, completed := s.completed + 1,
         latencySum := s.latencySum + latency, latencyCount := s.latencyCount + 1,
         window := Last(s.window + [latency], WINDOW_SIZE),
         recorded := s.recorded + [latency], ops := s.ops[i := Released]))
  {
    var s1 := Step(s, Push(i));
    var s2 := Step(s1, Complete(i));
    assert s2.ops[i := Released] == s.ops[i := Released];
    RunCons(s2, Record(i, latency), []);
    RunCons(s1, Complete(i), [Record(i, latency)] + []);
    RunCons(s, Push(i), [Complete(i)] + ([Record(i, latency)] + []));
  }

  /** The releases along a run that no acquire stands behind. */
  function Strays(es: seq<Event>): nat {
    if es == [] then 0 else (if es[0].StrayRelease? then 1 else 0) + Strays(es[1..])
  }

  const ENTITLED: set<Pc> := {Holding, Leaving, Ignored}

  lemma {:induction false} EntitledStep(s: State, e: Event)
    requires Enabled(s, e)
    ensures Count(Step(s, e).ops, ENTITLED) - Step(s, e).active
         == Count(s.ops, ENTITLED) - s.active + (if e.StrayRelease? then 1 else 0)
  {
    CountStep(s, e, ENTITLED);
  }

  lemma {:induction false} EntitledRun(s: State, es: seq<Event>)
    requires Run(s, es).Some?
    ensures var t := Run(s, es).value;
      Count(t.ops, ENTITLED) - t.active == Count(s.ops, ENTITLED) - s.active + Strays(es)
    decreases |es|
  {
    if es != [] {
      EntitledStep(s, es[0]);
      EntitledRun(Step(s, es[0]), es[1..]);
    }
  }

  /** Every run: the holders are the active permits and one more for each stray release, without those that a
      release gives back right now and those that a release found nothing to give back for. So there are never more
      holders than the capacity and the stray releases that took effect, and at capacity or below exactly if the
      stray releases do not outweigh what is free, in transit, on its way back or ignored. */
  lemma HoldersInEveryRun(maxConcurrent: int, es: seq<Event>)
    requires Run(Init(maxConcurrent), es).Some?
    ensures var s := Run(Init(maxConcurrent), es).value;
      && Count(s.ops, {Holding}) == s.active + Strays(es) - Count(s.ops, {Leaving, Ignored})
      && Count(s.ops, {Holding}) <= s.cap + Strays(es) - Count(s.ops, {Leaving, Ignored})
      && (Count(s.ops, {Holding}) <= s.cap <==>
            Strays(es) <= s.tokens + Count(s.ops, IN_TRANSIT) + Count(s.ops, {Leaving, Ignored}))
  {
    PermitsConserved(maxConcurrent, es);
    EntitledRun(Init(maxConcurrent), es);
    var s := Run(Init(maxConcurrent), es).value;
    CountDisjoint(s.ops, {Holding}, {Leaving, Ignored});
    assert {Holding} + {Leaving, Ignored} == ENTITLED;
  }

  /** A stray release can hand out one permit too many: two holders at capacity one. */
  lemma StrayReleaseBreaksTheLimit()
    ensures var es := AcquireEvents(0) + [StrayRelease, Deactivate(1), Push(1)] + AcquireEvents(2);
      && Run(Init(1), es).Some?
      && Run(Init(1), es).value.ops == [Holding, Returned, Holding]
      && Run(Init(1), es).value.cap == 1
  {
    AcquireAlone(Init(1));
    var s := Run(Init(1), AcquireEvents(0)).value;
    var stray := [StrayRelease] + ([Deactivate(1)] + ([Push(1)] + []));
    RunConcat(Init(1), AcquireEvents(0), stray);
    var s1 := Step(s, StrayRelease);
    var s2 := Step(s1, Deactivate(1));
    RunCons(s, StrayRelease, [Deactivate(1)] + ([Push(1)] + []));
    RunCons(s1, Deactivate(1), [Push(1)] + []);
    RunCons(s2, Push(1), []);
    var t := Run(s, stray).value;
    assert t.ops == [Holding, Returned];
    RunConcat(Init(1), AcquireEvents(0) + stray, AcquireEvents(2));
    AcquireAlone(t);
    assert stray == [StrayRelease, Deactivate(1), Push(1)];
  }

  // ---- The controller itself ----

  datatype Snapshot = Snapshot(active: int, queued: int, completed: int, totalLatency: int, requestCount: int)

  /** The controller's fields. Its methods run here without interruption, and each comes to a run of the
      machine above; `ops` and `recorded` are bookkeeping the program does not keep. */
  class Controller {
    const cap: nat
    var tokens: nat
    var queued: int
    var active: int
    var completed: int
    var latencySum: int
    var latencyCount: int
    var window: seq<int>
    ghost var ops: seq<Pc>
    ghost var recorded: seq<int>

    ghost function S(): State
      reads this
    {
      State(cap, tokens, queued, active, completed, latencySum, latencyCount, window, ops, recorded)
    }

    constructor (maxConcurrent: int)
      ensures S() == Init(maxConcurrent)
    {
      cap := if maxConcurrent <= 0 then 5 else maxConcurrent;
      tokens := if maxConcurrent <= 0 then 5 else maxConcurrent;
      queued, active, completed, latencySum, latencyCount := 0, 0, 0, 0, 0;
      window, ops, recorded := [], [], [];
    }

    /** Acquire, when nothing runs between its atomic operations. The select waits for a token or
        for the timer; `timerFires` says which of them it is. */
    method Acquire(timerFires: bool) returns (ok: bool)
      requires !timerFires ==> tokens > 0
      modifies this
      ensures ok == !timerFires
      ensures S() == if ok
        then old(S()).(tokens := old(tokens) - 1, active := old(active) + 1, ops := old(ops) + [Holding])
        else old(S()).(ops := old(ops) + [Refused])
      ensures ok ==> Run(old(S()), AcquireEvents(|old(ops)|)) == Some(S())
    {
      if !timerFires { AcquireAlone(S()); }
      queued := queued + 1;
      if !timerFires {
        tokens := tokens - 1;
        queued := queued - 1;
        active := active + 1;
        ops := ops + [Holding];
        ok := true;
      } else {
        queued := queued - 1;
        ops := ops + [Refused];
        ok := false;
      }
    }

    /** Release by the holder `i`, when nothing runs between its atomic operations. ReleaseAlone says
        which run of the machine that is. */
    method Release(latency: int, ghost i: nat)
      requires At(S(), i, Holding) && |window| <= WINDOW_SIZE
      modifies this
      ensures S() == ReleaseOutcome(old(S()), i, latency)
    {
      active := active - 1;
      if active < 0 {
        active := active + 1;
        ops := ops[i := Ignored];
        return;
      }
      if tokens < cap {
        tokens := tokens + 1;
      } else {
        active := active + 1;
        ops := ops[i := Ignored];
        return;
      }
      completed := completed + 1;
      latencySum := latencySum + latency;
      latencyCount := latencyCount + 1;
      window := window + [latency];
      if |window| > WINDOW_SIZE {
        window := window[1..];
      }
      recorded := recorded + [latency];
      ops := ops[i := Released];
    }

    /** The snapshot reports the sum and the size of the window once anything was recorded. */
    method StatsSnapshot() returns (r: Snapshot)
      ensures r.active == (if active < 0 then 0 else active)
      ensures r.queued == queued && r.completed == completed
      ensures window != [] ==> r.totalLatency == Sum(window) && r.requestCount == |window|
      ensures window == [] ==> r.totalLatency == latencySum && r.requestCount == latencyCount
    {
      var sum, count := latencySum, latencyCount;
      if |window| > 0 {
        sum := 0;
        for k := 0 to |window|
          invariant sum == Sum(window[..k])
        {
          assert window[..k + 1][..k] == window[..k];
          sum := sum + window[k];
        }
        assert window[..|window|] == window;
        count := |window|;
      }
      r := Snapshot(if active < 0 then 0 else active, queued, completed, sum, count);
    }
  }
}
