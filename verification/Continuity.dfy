/**
 What an agent's session has been told of a conversation that its client extends turn by turn: BuildTurnPrompt
 (internal/handler/conversation.go), the choice of a session and the store of the entry in runTurn
 (internal/runner/acp.go). The pool is looked at twice, when the prompt is built and when the turn gets its session, and
 everything may happen in between.

 One conversation key with one agent; requests name no session of their own. A session is what it has received: ranges
 of the transcript.
*/
module Continuity {
  import opened Wrappers
  import opened Strings
  import P = Prompt

  datatype Entry = Entry(session: nat, count: nat, workspace: string)

  datatype Pc = Built | Chosen(session: nat) | Sent(session: nat) | Ended

  /** `from` is where the prompt of the turn starts, `saw` the session of the pool entry that made it start there; a
      turn is stale once the entry has been removed since its prompt was built. */
  datatype Turn = Turn(count: nat, from: nat, saw: Option<nat>, stale: bool, pc: Pc, workspace: string)

  datatype Range = Range(from: nat, to: nat)

  datatype State = State(
    transcript: seq<P.Message>, entry: Option<Entry>, sessions: seq<seq<Range>>, turns: seq<Turn>, holder: Option<nat>)

  const Init := State([], None, [], [], None)

  datatype Event =
    | Ask(more: seq<P.Message>)           // a request with a longer transcript: BuildTurnPrompt
    | Choose(t: nat, workspace: string)   // the turn gets the process and its session
    | Send(t: nat)                        // session/prompt is written
    | Succeed(t: nat)                     // the response came; the entry is put
    | Fail(t: nat, invalid: bool)
    | Remove                              // the entry goes: expiry, mismatch, eviction, Delete, InvalidateAll

  /** Where the prompt for the transcript starts: behind what the entry says was sent, if that is something and less
      than all, and if the rest renders to something. */
  function Start(entry: Option<Entry>, transcript: seq<P.Message>): nat {
    if entry.Some? && 0 < entry.value.count < |transcript|
       && P.BuildPrompt(transcript[entry.value.count..], "") != ""
    then entry.value.count
    else 0
  }

  predicate Usable(entry: Option<Entry>, workspace: string) {
    entry.Some? && (entry.value.workspace == "" || entry.value.workspace == workspace)
  }

  predicate At(s: State, t: nat, pc: Pc) {
    t < |s.turns| && s.turns[t].pc == pc
  }

  predicate Live(s: State, t: nat) {
    t < |s.turns| && (s.turns[t].pc.Chosen? || s.turns[t].pc.Sent?)
  }

  predicate Enabled(s: State, e: Event) {
    match e
    case Ask(more) => more != []
    case Choose(t, _) => At(s, t, Built) && s.holder == None
    case Send(t) => t < |s.turns| && s.turns[t].pc.Chosen? && s.turns[t].pc.session < |s.sessions|
    case Succeed(t) => t < |s.turns| && s.turns[t].pc.Sent?
    case Fail(t, invalid) => Live(s, t) && (invalid ==> s.turns[t].pc.Sent?)
    case Remove => true
  }

  function Staled(turns: seq<Turn>): (r: seq<Turn>)
    ensures |r| == |turns| && forall i :: 0 <= i < |turns| ==> r[i] == turns[i].(stale := true)
  {
    seq(|turns|, i requires 0 <= i < |turns| => turns[i].(stale := true))
  }

  function Cleared(s: State): State {
    s.(entry := None, turns := Staled(s.turns))
  }

  function WithPc(s: State, t: nat, pc: Pc): State
    requires t < |s.turns|
  {
    s.(turns := s.turns[t := s.turns[t].(pc := pc)])
  }

  function NewTurn(s: State, transcript: seq<P.Message>): Turn {
    var from := Start(s.entry, transcript);
    Turn(|transcript|, from, if from > 0 then Some(s.entry.value.session) else None, false, Built, "")
  }

  function Next(s: State, e: Event): State
    requires Enabled(s, e)
  {
    match e
    case Ask(more) =>
      var transcript := s.transcript + more;
      s.(transcript := transcript, turns := s.turns + [NewTurn(s, transcript)])
    case Choose(t, ws) =>
      var s1 := if s.entry.Some? && !Usable(s.entry, ws) then Cleared(s) else s;
      var x := if Usable(s.entry, ws) then s.entry.value.session else |s.sessions|;
      s1.(turns := s1.turns[t := s1.turns[t].(pc := Chosen(x), workspace := ws)],
          sessions := if Usable(s.entry, ws) then s.sessions else s.sessions + [[]],
          holder := Some(t))
    case Send(t) =>
      var turn := s.turns[t];
      var x := turn.pc.session;
      WithPc(s, t, Sent(x)).(sessions := s.sessions[x := s.sessions[x] + [Range(turn.from, turn.count)]])
    case Succeed(t) =>
      var turn := s.turns[t];
      WithPc(s, t, Ended).(entry := Some(Entry(turn.pc.session, turn.count, turn.workspace)), holder := None)
    case Fail(t, invalid) =>
      var s1 := WithPc(s, t, Ended).(holder := None);
      if invalid then Cleared(s1) else s1
    case Remove => Cleared(s)
  }

  function Run(s: State, es: seq<Event>): Option<State>
    decreases |es|
  {
    if es == [] then Some(s)
    else if Enabled(s, es[0]) then Run(Next(s, es[0]), es[1..])
    else None
  }

  // ---- What a session has received ----------------------------------------------------------------------------

  predicate Received(rs: seq<Range>, i: nat) {
    exists k :: 0 <= k < |rs| && rs[k].from <= i < rs[k].to
  }

  /** The first n messages of the transcript, each at least once. */
  ghost predicate Covers(rs: seq<Range>, n: nat) {
    forall i: nat :: i < n ==> Received(rs, i)
  }

  lemma CoversMore(rs: seq<Range>, from: nat, to: nat)
    requires Covers(rs, from)
    ensures Covers(rs + [Range(from, to)], to)
    ensures forall n: nat :: Covers(rs, n) ==> Covers(rs + [Range(from, to)], n)
  {
    var rs1 := rs + [Range(from, to)];
    forall i: nat | Received(rs, i) ensures Received(rs1, i) {
      var k :| 0 <= k < |rs| && rs[k].from <= i < rs[k].to;
      assert rs1[k] == rs[k];
    }
    forall i: nat | i < to ensures Received(rs1, i) {
      if i < from {
        assert Received(rs, i);
      } else {
        assert rs1[|rs|] == Range(from, to);
      }
    }
  }

  ghost predicate Told(s: State, x: nat, n: nat) {
    x < |s.sessions| && Covers(s.sessions[x], n)
  }

  ghost predicate TurnOk(s: State, t: nat)
    requires t < |s.turns|
  {
    var turn := s.turns[t];
    match turn.pc
    case Built =>
      && (turn.from > 0 <==> turn.saw.Some?)
      && (turn.saw.Some? ==> Told(s, turn.saw.value, turn.from))
      && (turn.saw.Some? && !turn.stale ==> s.entry.Some? && s.entry.value.session == turn.saw.value)
    case Chosen(x) => Told(s, x, turn.from)
    case Sent(x) => Told(s, x, turn.count)
    case Ended => true
  }

  /** The turn that holds the process is the only one with a session, and no entry is for another session. */
  ghost predicate Serial(s: State) {
    && (s.holder.Some? ==> s.holder.value < |s.turns|)
    && (forall t :: 0 <= t < |s.turns| ==> (Live(s, t) <==> s.holder == Some(t)))
    && (forall t :: 0 <= t < |s.turns| && Live(s, t) && s.entry.Some? ==>
          s.entry.value.session == s.turns[t].pc.session)
  }

  ghost predicate EntryOk(s: State) {
    s.entry.Some? ==> Told(s, s.entry.value.session, s.entry.value.count)
  }

  ghost predicate Inv(s: State) {
    EntryOk(s) && Serial(s) && forall t :: 0 <= t < |s.turns| ==> TurnOk(s, t)
  }

  /** No removal of the entry and no change of workspace between the two looks at the pool, for a turn whose prompt
      leaves out the beginning. */
  predicate Careful(s: State, e: Event) {
    e.Choose? && e.t < |s.turns| && s.turns[e.t].from > 0 ==> !s.turns[e.t].stale && Usable(s.entry, e.workspace)
  }

  lemma NewTurnStarts(s: State, transcript: seq<P.Message>)
    ensures var turn := NewTurn(s, transcript);
      && turn.count == |transcript| && turn.pc == Built && !turn.stale
      && (if turn.from > 0
          then s.entry.Some? && turn.from == s.entry.value.count && turn.saw == Some(s.entry.value.session)
          else turn.saw == None)
  {
  }

  lemma AddTurnKeeps(s: State, transcript: seq<P.Message>, turn: Turn)
    requires Inv(s) && turn.pc == Built
    requires if turn.from > 0
      then s.entry.Some? && turn.from == s.entry.value.count && turn.saw == Some(s.entry.value.session)
      else turn.saw == None
    ensures Inv(s.(transcript := transcript, turns := s.turns + [turn]))
  {
    var s1 := s.(transcript := transcript, turns := s.turns + [turn]);
    forall t | 0 <= t < |s1.turns| ensures TurnOk(s1, t) && (Live(s1, t) <==> s1.holder == Some(t)) {
      if t < |s.turns| {
        assert TurnOk(s, t) && (Live(s, t) <==> s.holder == Some(t)) && s1.turns[t] == s.turns[t];
      }
    }
  }

  lemma AskKeeps(s: State, more: seq<P.Message>)
    requires Inv(s) && more != []
    ensures Inv(Next(s, Ask(more)))
  {
    NewTurnStarts(s, s.transcript + more);
    AddTurnKeeps(s, s.transcript + more, NewTurn(s, s.transcript + more));
  }

  lemma ClearKeeps(s: State)
    requires Inv(s)
    ensures Inv(Cleared(s))
  {
    var s1 := Cleared(s);
    forall t | 0 <= t < |s1.turns| ensures TurnOk(s1, t) && (Live(s1, t) <==> s1.holder == Some(t)) {
      assert TurnOk(s, t) && s1.turns[t] == s.turns[t].(stale := true);
    }
  }

  lemma ChooseKeeps(s: State, t: nat, ws: string)
    requires Inv(s) && Enabled(s, Choose(t, ws)) && Careful(s, Choose(t, ws))
    ensures Inv(Next(s, Choose(t, ws)))
  {
    var s1 := Next(s, Choose(t, ws));
    assert TurnOk(s, t);
    assert !Usable(s.entry, ws) ==> s1.sessions[|s.sessions|] == [] && Covers([], 0);
    forall u | 0 <= u < |s1.turns| ensures TurnOk(s1, u) && (Live(s1, u) <==> s1.holder == Some(u)) {
      assert TurnOk(s, u) && (Live(s, u) <==> s.holder == Some(u));
    }
  }

  lemma SendKeeps(s: State, t: nat)
    requires Inv(s) && Enabled(s, Send(t))
    ensures Inv(Next(s, Send(t)))
  {
    var s1 := Next(s, Send(t));
    var x := s.turns[t].pc.session;
    assert TurnOk(s, t);
    CoversMore(s.sessions[x], s.turns[t].from, s.turns[t].count);
    assert forall y: nat, n: nat :: Told(s, y, n) ==> Told(s1, y, n);
    forall u | 0 <= u < |s1.turns| ensures TurnOk(s1, u) && (Live(s1, u) <==> s1.holder == Some(u)) {
      assert TurnOk(s, u) && (Live(s, u) <==> s.holder == Some(u));
    }
  }

  lemma SucceedKeeps(s: State, t: nat)
    requires Inv(s) && Enabled(s, Succeed(t))
    ensures Inv(Next(s, Succeed(t)))
  {
    var s1 := Next(s, Succeed(t));
    assert TurnOk(s, t) && Live(s, t);
    forall u | 0 <= u < |s1.turns| ensures TurnOk(s1, u) && (Live(s1, u) <==> s1.holder == Some(u)) {
      assert TurnOk(s, u) && (Live(s, u) <==> s.holder == Some(u));
    }
  }

  lemma FailKeeps(s: State, t: nat, invalid: bool)
    requires Inv(s) && Enabled(s, Fail(t, invalid))
    ensures Inv(Next(s, Fail(t, invalid)))
  {
    var s1 := WithPc(s, t, Ended).(holder := None);
    forall u | 0 <= u < |s1.turns| ensures TurnOk(s1, u) && (Live(s1, u) <==> s1.holder == Some(u)) {
      assert TurnOk(s, u) && (Live(s, u) <==> s.holder == Some(u));
    }
    ClearKeeps(s1);
  }

  lemma InvStep(s: State, e: Event)
    requires Inv(s) && Enabled(s, e) && Careful(s, e)
    ensures Inv(Next(s, e))
  {
    match e
    case Ask(more) => AskKeeps(s, more);
    case Choose(t, ws) => ChooseKeeps(s, t, ws);
    case Send(t) => SendKeeps(s, t);
    case Succeed(t) => SucceedKeeps(s, t);
    case Fail(t, invalid) => FailKeeps(s, t, invalid);
    case Remove => ClearKeeps(s);
  }

  predicate CarefulRun(s: State, es: seq<Event>)
    decreases |es|
  {
    es == [] || (Enabled(s, es[0]) && Careful(s, es[0]) && CarefulRun(Next(s, es[0]), es[1..]))
  }

  lemma {:induction false} InvRun(s: State, es: seq<Event>)
    requires Inv(s) && CarefulRun(s, es)
    ensures Run(s, es).Some? && Inv(Run(s, es).value)
    decreases |es|
  {
    if es != [] {
      InvStep(s, es[0]);
      InvRun(Next(s, es[0]), es[1..]);
    }
  }

  /** In every interleaving of requests, turns, failures and removals without a removal or a change of workspace between
      the two looks of a turn: the session of the pool entry has received at least the messages that the entry counts,
      and a turn's session, once its prompt is sent, all the messages of its request. */
  lemma EntriesCountWhatWasSent(es: seq<Event>, t: nat)
    requires CarefulRun(Init, es)
    ensures Run(Init, es).Some?
    ensures var s := Run(Init, es).value;
      && (s.entry.Some? ==> Told(s, s.entry.value.session, s.entry.value.count))
      && (t < |s.turns| && s.turns[t].pc.Sent? ==> Told(s, s.turns[t].pc.session, s.turns[t].count))
  {
    InvRun(Init, es);
    var s := Run(Init, es).value;
    assert t < |s.turns| ==> TurnOk(s, t);
  }

  // ---- Each message exactly once ------------------------------------------------------------------------------

  /** The first n messages of the transcript, each once and in order. */
  predicate Exactly(rs: seq<Range>, n: nat) {
    if rs == [] then n == 0
    else
      var last := rs[|rs| - 1];
      last.from <= n == last.to && Exactly(rs[..|rs| - 1], last.from)
  }

  lemma ExactlyMore(rs: seq<Range>, from: nat, to: nat)
    requires Exactly(rs, from) && from <= to
    ensures Exactly(rs + [Range(from, to)], to)
  {
    assert (rs + [Range(from, to)])[..|rs|] == rs;
  }

  function TextOf(transcript: seq<P.Message>, r: Range): string {
    if r.from <= r.to <= |transcript| then P.Body(transcript[r.from..r.to]) else ""
  }

  /** What the session has heard, hints left out. */
  function Heard(transcript: seq<P.Message>, rs: seq<Range>): string {
    Joined(rs, r => TextOf(transcript, r))
  }

  /** Exactly the first n messages: their rendering, once. */
  lemma {:induction false} HeardIsTheTranscript(transcript: seq<P.Message>, rs: seq<Range>, n: nat)
    requires Exactly(rs, n) && n <= |transcript|
    ensures Heard(transcript, rs) == P.Body(transcript[..n])
  {
    if rs == [] {
      assert transcript[..0] == [];
    } else {
      var last := rs[|rs| - 1];
      HeardIsTheTranscript(transcript, rs[..|rs| - 1], last.from);
      P.BodyConcat(transcript[..last.from], transcript[last.from..n]);
      assert transcript[..n] == transcript[..last.from] + transcript[last.from..n];
    }
  }

  predicate AllEnded(s: State) {
    forall t :: 0 <= t < |s.turns| ==> s.turns[t].pc == Ended
  }

  /** No overlapping turns, no failed turn, and each extension renders to something. */
  predicate Orderly(s: State, e: Event) {
    && Careful(s, e)
    && !e.Fail?
    && (e.Ask? ==> AllEnded(s) && P.BuildPrompt(e.more, "") != "")
  }

  ghost predicate ToldExactly(s: State, x: nat, n: nat) {
    x < |s.sessions| && Exactly(s.sessions[x], n)
  }

  /** The last turn, which is the only one that can be under way. */
  ghost predicate LastOk(s: State) {
    var t := |s.turns| - 1;
    t >= 0 ==>
      var turn := s.turns[t];
      && turn.count == |s.transcript| && turn.from <= turn.count
      && match turn.pc
         case Built =>
           && (turn.from > 0 <==> turn.saw.Some?)
           && (turn.saw.Some? ==> ToldExactly(s, turn.saw.value, turn.from))
           && (turn.saw.Some? && !turn.stale ==> s.entry.Some? && s.entry.value.session == turn.saw.value)
           && (turn.saw.None? || turn.stale ==> s.entry.None?)
         case Chosen(x) => ToldExactly(s, x, turn.from)
         case Sent(x) => ToldExactly(s, x, turn.count)
         case Ended => s.entry.Some? ==> s.entry.value.count == |s.transcript|
  }

  /** No turn is under way between getting its session and its end. */
  predicate AtRest(s: State) {
    forall t :: 0 <= t < |s.turns| ==> s.turns[t].pc.Built? || s.turns[t].pc.Ended?
  }

  ghost predicate OrderlyInv(s: State) {
    && (forall t :: 0 <= t < |s.turns| - 1 ==> s.turns[t].pc == Ended)
    && (s.turns == [] ==> s.entry.None? && s.transcript == [])
    && (s.entry.Some? ==> 0 < s.entry.value.count)
    && (s.entry.Some? && AtRest(s) ==> ToldExactly(s, s.entry.value.session, s.entry.value.count))
    && LastOk(s)
  }

  /** In an orderly run the new turn starts behind everything that was sent. */
  lemma OrderlyStart(s: State, more: seq<P.Message>)
    requires OrderlyInv(s) && AllEnded(s) && more != [] && P.BuildPrompt(more, "") != ""
    ensures s.entry.Some? ==> s.entry.value.count == |s.transcript|
    ensures Start(s.entry, s.transcript + more) == if s.entry.Some? then s.entry.value.count else 0
  {
    if s.entry.Some? {
      assert s.turns[|s.turns| - 1].pc == Ended;
      assert (s.transcript + more)[|s.transcript|..] == more;
    }
  }

  lemma OrderlyAsk(s: State, more: seq<P.Message>)
    requires OrderlyInv(s) && Enabled(s, Ask(more)) && Orderly(s, Ask(more))
    ensures OrderlyInv(Next(s, Ask(more)))
  {
    OrderlyStart(s, more);
    NewTurnStarts(s, s.transcript + more);
    OrderlyAdd(s, s.transcript + more, NewTurn(s, s.transcript + more));
  }

  lemma OrderlyAdd(s: State, transcript: seq<P.Message>, turn: Turn)
    requires OrderlyInv(s) && AllEnded(s) && |s.transcript| <= |transcript|
    requires s.entry.Some? ==> s.entry.value.count == |s.transcript|
    requires turn.count == |transcript| && turn.pc == Built && !turn.stale
    requires turn.from == if s.entry.Some? then s.entry.value.count else 0
    requires turn.saw == if s.entry.Some? then Some(s.entry.value.session) else None
    ensures OrderlyInv(s.(transcript := transcript, turns := s.turns + [turn]))
  {
    assert AtRest(s);
    var s1 := s.(transcript := transcript, turns := s.turns + [turn]);
    assert s1.turns[|s.turns|] == turn;
  }

  lemma OrderlyClear(s: State)
    requires OrderlyInv(s)
    ensures OrderlyInv(Cleared(s))
  {
  }

  lemma OrderlyChoose(s: State, t: nat, ws: string)
    requires OrderlyInv(s) && Enabled(s, Choose(t, ws)) && Careful(s, Choose(t, ws))
    ensures OrderlyInv(Next(s, Choose(t, ws)))
  {
    var s1 := Next(s, Choose(t, ws));
    assert t == |s.turns| - 1;
    assert s.entry.None? ==> s1.sessions[|s.sessions|] == [];
    assert !AtRest(s1) by { assert s1.turns[t].pc.Chosen?; }
  }

  lemma OrderlySend(s: State, t: nat)
    requires OrderlyInv(s) && Enabled(s, Send(t))
    ensures OrderlyInv(Next(s, Send(t)))
  {
    var s1 := Next(s, Send(t));
    assert t == |s.turns| - 1;
    ExactlyMore(s.sessions[s.turns[t].pc.session], s.turns[t].from, s.turns[t].count);
    assert !AtRest(s1) by { assert s1.turns[t].pc.Sent?; }
  }

  lemma OrderlySucceed(s: State, t: nat)
    requires OrderlyInv(s) && Enabled(s, Succeed(t)) && s.turns[t].count > 0
    ensures OrderlyInv(Next(s, Succeed(t)))
  {
    assert t == |s.turns| - 1;
  }

  /** Every request has a message. */
  ghost predicate Asked(s: State) {
    forall t :: 0 <= t < |s.turns| ==> s.turns[t].count > 0
  }

  lemma OrderlyStep(s: State, e: Event)
    requires OrderlyInv(s) && Asked(s) && Enabled(s, e) && Orderly(s, e)
    ensures OrderlyInv(Next(s, e)) && Asked(Next(s, e))
  {
    match e
    case Ask(more) =>
      OrderlyAsk(s, more);
      NewTurnStarts(s, s.transcript + more);
    case Choose(t, ws) => OrderlyChoose(s, t, ws);
    case Send(t) => OrderlySend(s, t);
    case Succeed(t) => OrderlySucceed(s, t);
    case Remove => OrderlyClear(s);
  }

  predicate OrderlyRun(s: State, es: seq<Event>)
    decreases |es|
  {
    es == [] || (Enabled(s, es[0]) && Orderly(s, es[0]) && OrderlyRun(Next(s, es[0]), es[1..]))
  }

  lemma {:induction false} OrderlyInvRun(s: State, es: seq<Event>)
    requires OrderlyInv(s) && Asked(s) && OrderlyRun(s, es)
    ensures Run(s, es).Some? && OrderlyInv(Run(s, es).value)
    decreases |es|
  {
    if es != [] {
      OrderlyStep(s, es[0]);
      OrderlyInvRun(Next(s, es[0]), es[1..]);
    }
  }

  /** In a run without overlapping or failed turns, whose extensions all render to something, and without a removal or a
      change of workspace between the two looks of a turn: whenever no turn is under way, the session of the pool entry
      has received each message that the entry counts exactly once, in order, and what it heard is the rendering of
      that part of the transcript; when all turns have ended, that is the whole transcript. Removals at other times
      are allowed. */
  lemma EachMessageOnce(es: seq<Event>)
    requires OrderlyRun(Init, es)
    ensures Run(Init, es).Some?
    ensures var s := Run(Init, es).value;
      s.entry.Some? && AtRest(s) ==>
        && var e := s.entry.value;
        && ToldExactly(s, e.session, e.count) && e.count <= |s.transcript|
        && Heard(s.transcript, s.sessions[e.session]) == P.Body(s.transcript[..e.count])
        && (AllEnded(s) ==> e.count == |s.transcript|)
  {
    OrderlyInvRun(Init, es);
    var s := Run(Init, es).value;
    if s.entry.Some? && AtRest(s) {
      RestingEntry(s);
      HeardIsTheTranscript(s.transcript, s.sessions[s.entry.value.session], s.entry.value.count);
    }
  }

  lemma RestingEntry(s: State)
    requires OrderlyInv(s) && s.entry.Some? && AtRest(s)
    ensures s.entry.value.count <= |s.transcript|
    ensures AllEnded(s) ==> s.entry.value.count == |s.transcript|
  {
    assert s.turns != [];
    var turn := s.turns[|s.turns| - 1];
    if turn.pc == Built {
      ExactlyOne(s.sessions[turn.saw.value], turn.from, s.entry.value.count);
    }
  }

  lemma ExactlyOne(rs: seq<Range>, m: nat, n: nat)
    requires Exactly(rs, m) && Exactly(rs, n)
    ensures m == n
  {
  }

  // ---- The messages themselves --------------------------------------------------------------------------------

  /** Under the same conditions: what the session of the entry heard holds every message that the entry counts, with
      the line that says who speaks and with its content. */
  lemma CountedMessagesAreHeardOnce(es: seq<Event>, i: nat)
    requires OrderlyRun(Init, es)
    ensures Run(Init, es).Some?
    ensures var s := Run(Init, es).value;
      s.entry.Some? && AtRest(s) && i < s.entry.value.count ==>
        && s.entry.value.session < |s.sessions| && i < |s.transcript|
        && P.Tells(Heard(s.transcript, s.sessions[s.entry.value.session]), s.transcript[i])
  {
    EachMessageOnce(es);
    var s := Run(Init, es).value;
    if s.entry.Some? && AtRest(s) && i < s.entry.value.count {
      P.BodyTells(s.transcript[..s.entry.value.count], i);
    }
  }

  /** What is received is part of the transcript. */
  predicate RangesIn(rs: seq<Range>, n: nat) {
    forall k :: 0 <= k < |rs| ==> rs[k].from <= rs[k].to <= n
  }

  predicate RangesFit(s: State) {
    && (forall x :: 0 <= x < |s.sessions| ==> RangesIn(s.sessions[x], |s.transcript|))
    && (forall t :: 0 <= t < |s.turns| ==> s.turns[t].from <= s.turns[t].count <= |s.transcript|)
  }

  lemma RangesStep(s: State, e: Event)
    requires RangesFit(s) && Enabled(s, e)
    ensures RangesFit(Next(s, e))
  {
    var s1 := Next(s, e);
    if e.Ask? { NewTurnStarts(s, s.transcript + e.more); }
    forall x | 0 <= x < |s1.sessions| ensures RangesIn(s1.sessions[x], |s1.transcript|) {
      if x < |s.sessions| { assert RangesIn(s.sessions[x], |s.transcript|); }
    }
  }

  lemma {:induction false} RangesRun(s: State, es: seq<Event>)
    requires RangesFit(s) && Run(s, es).Some?
    ensures RangesFit(Run(s, es).value)
    decreases |es|
  {
    if es != [] {
      RangesStep(s, es[0]);
      RangesRun(Next(s, es[0]), es[1..]);
    }
  }

  lemma SplitAt<T>(xs: seq<T>, k: nat)
    requires k < |xs|
    ensures xs == (xs[..k] + [xs[k]]) + xs[k + 1..]
  {
  }

  lemma JoinedAround<T>(xs: seq<T>, k: nat, text: T -> string) returns (before: string, after: string)
    requires k < |xs|
    ensures Joined(xs, text) == before + text(xs[k]) + after
  {
    SplitAt(xs, k);
    before, after := Joined(xs[..k], text), Joined(xs[k + 1..], text);
    JoinedConcat(xs[..k] + [xs[k]], xs[k + 1..], text);
    JoinedLast(xs[..k], xs[k], text);
  }

  lemma RangeTells(transcript: seq<P.Message>, r: Range, i: nat)
    requires r.from <= i < r.to <= |transcript|
    ensures P.Tells(TextOf(transcript, r), transcript[i])
  {
    P.BodyTells(transcript[r.from..r.to], i - r.from);
  }

  /** What a session has received it has heard. */
  lemma ReceivedIsHeard(transcript: seq<P.Message>, rs: seq<Range>, i: nat)
    requires RangesIn(rs, |transcript|) && Received(rs, i)
    ensures i < |transcript| && P.Tells(Heard(transcript, rs), transcript[i])
  {
    var k :| 0 <= k < |rs| && rs[k].from <= i < rs[k].to;
    RangeTells(transcript, rs[k], i);
    var before, after := JoinedAround(rs, k, r => TextOf(transcript, r));
    P.TellsMore(before, TextOf(transcript, rs[k]), after, transcript[i]);
  }

  /** In every careful run, with whatever overlaps and failures: what the session of the entry heard holds every message
      that the entry counts. */
  lemma CountedMessagesAreHeard(es: seq<Event>, i: nat)
    requires CarefulRun(Init, es)
    ensures Run(Init, es).Some?
    ensures var s := Run(Init, es).value;
      s.entry.Some? && i < s.entry.value.count ==>
        && s.entry.value.session < |s.sessions| && i < |s.transcript|
        && P.Tells(Heard(s.transcript, s.sessions[s.entry.value.session]), s.transcript[i])
  {
    EntriesCountWhatWasSent(es, 0);
    RangesRun(Init, es);
    var s := Run(Init, es).value;
    if s.entry.Some? && i < s.entry.value.count {
      ReceivedIsHeard(s.transcript, s.sessions[s.entry.value.session], i);
    }
  }

  /** Exactly when the prompt of a request starts behind what was sent: when the entry counts some messages and not all
      of them, and the printer knows the role of one of the others. */
  lemma PromptStartsExactlyWhen(s: State, more: seq<P.Message>)
    requires more != []
    ensures var s1 := Next(s, Ask(more));
      && s1.transcript == s.transcript + more && |s1.turns| == |s.turns| + 1
      && s1.turns[|s.turns|].count == |s1.transcript|
      && s1.turns[|s.turns|].from
         == if s.entry.Some? && 0 < s.entry.value.count < |s1.transcript| && SomePrinted(s1.transcript[s.entry.value.count..])
            then s.entry.value.count else 0
  {
    var transcript := s.transcript + more;
    if s.entry.Some? && 0 < s.entry.value.count < |transcript| {
      P.NothingToSay(transcript[s.entry.value.count..]);
    }
  }

  /** Exactly when a turn goes on in the session of the entry: when there is one, made without a workspace or in the
      turn's own. Otherwise its session is a new one that has heard nothing, and the entry is gone. */
  lemma SessionGoesOnExactlyWhen(s: State, t: nat, ws: string)
    requires FromsFit(s) && Enabled(s, Choose(t, ws))
    ensures var s1 := Next(s, Choose(t, ws));
      && s1.turns[t].pc.Chosen? && s1.turns[t].workspace == ws
      && if s.entry.Some? && (s.entry.value.workspace == ws || s.entry.value.workspace == "")
         then s1.entry == s.entry && s1.sessions == s.sessions && s1.turns[t].pc.session == s.entry.value.session
         else s1.entry == None && s1.sessions == s.sessions + [[]] && s1.turns[t].pc.session == |s.sessions|
  {
  }

  // ---- One turn, in any run -----------------------------------------------------------------------------------

  lemma SerialStep(s: State, e: Event)
    requires Serial(s) && Enabled(s, e)
    ensures Serial(Next(s, e))
  {
    var s1 := Next(s, e);
    forall t | 0 <= t < |s1.turns| ensures Live(s1, t) <==> s1.holder == Some(t) {
      assert t < |s.turns| ==> (Live(s, t) <==> s.holder == Some(t));
      if !e.Ask? && !e.Remove? {
        assert Live(s, e.t) <==> s.holder == Some(e.t);
      }
    }
  }

  lemma {:induction false} SerialRun(s: State, es: seq<Event>)
    requires Serial(s) && Run(s, es).Some?
    ensures Serial(Run(s, es).value)
    decreases |es|
  {
    if es != [] {
      SerialStep(s, es[0]);
      SerialRun(Next(s, es[0]), es[1..]);
    }
  }

  /** Turn t holds the process with session x, and has sent its prompt there or not yet; `base` is what the sessions
      had been told before. */
  predicate UnderWay(s: State, t: nat, x: nat, from: nat, count: nat, base: seq<seq<Range>>) {
    && s.holder == Some(t) && t < |s.turns| && x < |base|
    && s.turns[t].from == from && s.turns[t].count == count
    && (|| (s.turns[t].pc == Chosen(x) && s.sessions == base)
        || (s.turns[t].pc == Sent(x) && s.sessions == base[x := base[x] + [Range(from, count)]]))
  }

  /** The turn is over, whatever comes. */
  predicate Over(s: State, t: nat) {
    t < |s.turns| && s.turns[t].pc == Ended
  }

  lemma OverStep(s: State, e: Event, t: nat)
    requires Over(s, t) && Enabled(s, e)
    ensures Over(Next(s, e), t)
  {
  }

  lemma UnderWayStep(s: State, e: Event, t: nat, x: nat, from: nat, count: nat, base: seq<seq<Range>>)
    requires Serial(s) && UnderWay(s, t, x, from, count, base) && Enabled(s, e)
    ensures UnderWay(Next(s, e), t, x, from, count, base) || Over(Next(s, e), t)
  {
    assert Live(s, t);
    if e.Send? || e.Succeed? || e.Fail? {
      assert Live(s, e.t) <==> s.holder == Some(e.t);
    }
  }

  lemma {:induction false} UnderWayRun(
    s: State, es: seq<Event>, t: nat, x: nat, from: nat, count: nat, base: seq<seq<Range>>)
    requires Serial(s) && Run(s, es).Some?
    requires UnderWay(s, t, x, from, count, base) || Over(s, t)
    ensures UnderWay(Run(s, es).value, t, x, from, count, base) || Over(Run(s, es).value, t)
    decreases |es|
  {
    if es != [] {
      SerialStep(s, es[0]);
      if Over(s, t) { OverStep(s, es[0], t); } else { UnderWayStep(s, es[0], t, x, from, count, base); }
      UnderWayRun(Next(s, es[0]), es[1..], t, x, from, count, base);
    }
  }

  /** One range more tells the first `to` messages exactly if those before it had been told. */
  lemma CoversExactly(rs: seq<Range>, from: nat, to: nat)
    requires from <= to
    ensures Covers(rs + [Range(from, to)], to) <==> Covers(rs, from)
  {
    if Covers(rs, from) {
      CoversMore(rs, from, to);
    }
    if Covers(rs + [Range(from, to)], to) {
      forall i: nat | i < from ensures Received(rs, i) {
        assert Received(rs + [Range(from, to)], i);
        var k :| 0 <= k < |rs + [Range(from, to)]| && (rs + [Range(from, to)])[k].from <= i < (rs + [Range(from, to)])[k].to;
        assert k < |rs| && (rs + [Range(from, to)])[k] == rs[k];
      }
    }
  }

  /** What the session that a turn gets has been told when it gets it. */
  function HeardBefore(s: State, ws: string): seq<Range> {
    if Usable(s.entry, ws) && s.entry.value.session < |s.sessions| then s.sessions[s.entry.value.session] else []
  }

  lemma NothingCovers(from: nat)
    ensures Covers([], from) <==> from == 0
  {
    if from > 0 {
      assert !Received([], 0);
    }
  }

  ghost predicate FromsFit(s: State) {
    && (forall t :: 0 <= t < |s.turns| ==> s.turns[t].from <= s.turns[t].count)
    && (s.entry.Some? ==> s.entry.value.session < |s.sessions|)
    && (forall t :: 0 <= t < |s.turns| && s.turns[t].pc.Chosen? ==> s.turns[t].pc.session < |s.sessions|)
    && (forall t :: 0 <= t < |s.turns| && s.turns[t].pc.Sent? ==> s.turns[t].pc.session < |s.sessions|)
  }

  lemma FromsStep(s: State, e: Event)
    requires FromsFit(s) && Enabled(s, e)
    ensures FromsFit(Next(s, e))
  {
    if e.Ask? {
      NewTurnStarts(s, s.transcript + e.more);
    }
  }

  lemma {:induction false} FromsRun(s: State, es: seq<Event>)
    requires FromsFit(s) && Run(s, es).Some?
    ensures FromsFit(Run(s, es).value)
    decreases |es|
  {
    if es != [] {
      FromsStep(s, es[0]);
      FromsRun(Next(s, es[0]), es[1..]);
    }
  }

  lemma ChosenUnderWay(s: State, t: nat, ws: string)
    requires FromsFit(s) && Enabled(s, Choose(t, ws))
    ensures var s1 := Next(s, Choose(t, ws));
      && t < |s1.turns| && s1.turns[t].pc.Chosen?
      && s1.turns[t].pc.session < |s1.sessions| && s1.sessions[s1.turns[t].pc.session] == HeardBefore(s, ws)
      && UnderWay(s1, t, s1.turns[t].pc.session, s.turns[t].from, s.turns[t].count, s1.sessions)
  {
  }

  lemma RunSplit(s: State, e: Event, es: seq<Event>)
    requires Run(s, [e] + es).Some?
    ensures Enabled(s, e) && Run(s, [e] + es) == Run(Next(s, e), es)
  {
    assert ([e] + es)[1..] == es;
  }

  lemma {:induction false} RunConcat(s: State, a: seq<Event>, b: seq<Event>)
    ensures Run(s, a + b) == if Run(s, a).Some? then Run(Run(s, a).value, b) else None
    decreases |a|
  {
    if a == [] {
      assert a + b == b;
    } else {
      assert (a + b)[1..] == a[1..] + b;
      if Enabled(s, a[0]) { RunConcat(Next(s, a[0]), a[1..], b); }
    }
  }

  /** Every run, with whatever else happens during the turn: when a turn has succeeded, the session of the pool entry
      has been told all that the entry counts, if and only if the prompt of the turn started at the beginning, or the
      session it got was that of a pool entry that fitted then and had been told what the prompt left out. */
  lemma EntryIsRightExactlyWhen(before: seq<Event>, t: nat, ws: string, during: seq<Event>)
    requires Run(Init, before + ([Choose(t, ws)] + (during + [Succeed(t)]))).Some?
    ensures Run(Init, before).Some? && t < |Run(Init, before).value.turns|
    ensures var s := Run(Init, before).value;
      var e := Run(Init, before + ([Choose(t, ws)] + (during + [Succeed(t)]))).value.entry;
      && e.Some? && e.value.count == s.turns[t].count
      && (Told(Run(Init, before + ([Choose(t, ws)] + (during + [Succeed(t)]))).value, e.value.session, e.value.count) <==>
            || s.turns[t].from == 0
            || (Usable(s.entry, ws) && Told(s, s.entry.value.session, s.turns[t].from)))
  {
    RunConcat(Init, before, [Choose(t, ws)] + (during + [Succeed(t)]));
    var s := Run(Init, before).value;
    SerialRun(Init, before);
    FromsRun(Init, before);
    RunSplit(s, Choose(t, ws), during + [Succeed(t)]);
    SerialStep(s, Choose(t, ws));
    TurnTells(s, t, ws, during);
  }

  lemma TurnTells(s: State, t: nat, ws: string, during: seq<Event>)
    requires Serial(s) && FromsFit(s) && Enabled(s, Choose(t, ws)) && Serial(Next(s, Choose(t, ws)))
    requires Run(Next(s, Choose(t, ws)), during + [Succeed(t)]).Some?
    ensures var end := Run(Next(s, Choose(t, ws)), during + [Succeed(t)]).value;
      && end.entry.Some? && end.entry.value.count == s.turns[t].count
      && (Told(end, end.entry.value.session, end.entry.value.count) <==>
            || s.turns[t].from == 0
            || (Usable(s.entry, ws) && Told(s, s.entry.value.session, s.turns[t].from)))
  {
    var s1 := Next(s, Choose(t, ws));
    var from, count := s.turns[t].from, s.turns[t].count;
    ChosenUnderWay(s, t, ws);
    RunConcat(s1, during, [Succeed(t)]);
    var x, base := s1.turns[t].pc.session, s1.sessions;
    UnderWayRun(s1, during, t, x, from, count, base);
    var s2 := Run(s1, during).value;
    RunSplit(s2, Succeed(t), []);
    assert [Succeed(t)] + [] == [Succeed(t)];
    assert Next(s2, Succeed(t)).sessions == base[x := base[x] + [Range(from, count)]];
    CoversExactly(HeardBefore(s, ws), from, count);
    NothingCovers(from);
  }

  // ---- Runs in which it goes wrong ----------------------------------------------------------------------------

  lemma RunCons(s: State, e: Event, s1: State, es: seq<Event>)
    requires Enabled(s, e) && Next(s, e) == s1
    ensures Run(s, [e] + es) == Run(s1, es)
  {
    assert ([e] + es)[1..] == es;
  }

  /** A turn from getting its session to its success, with nothing in between. */
  function Turning(t: nat, ws: string): seq<Event> {
    [Choose(t, ws)] + ([Send(t)] + ([Succeed(t)] + []))
  }

  lemma FreshTurnRuns(s: State, t: nat, ws: string)
    requires At(s, t, Built) && s.holder == None && s.entry.None?
    ensures Run(s, Turning(t, ws)) == Some(s.(
      turns := s.turns[t := s.turns[t].(pc := Ended, workspace := ws)],
      sessions := s.sessions + [[Range(s.turns[t].from, s.turns[t].count)]],
      entry := Some(Entry(|s.sessions|, s.turns[t].count, ws))))
  {
    var turn, x := s.turns[t], |s.sessions|;
    var s1 := s.(turns := s.turns[t := turn.(pc := Chosen(x), workspace := ws)], sessions := s.sessions + [[]],
                 holder := Some(t));
    var s2 := s1.(turns := s.turns[t := turn.(pc := Sent(x), workspace := ws)],
                  sessions := s.sessions + [[Range(turn.from, turn.count)]]);
    assert [] + [Range(turn.from, turn.count)] == [Range(turn.from, turn.count)];
    assert s1.sessions[x := [Range(turn.from, turn.count)]] == s2.sessions;
    var s3 := s2.(turns := s.turns[t := turn.(pc := Ended, workspace := ws)], holder := None,
                  entry := Some(Entry(x, turn.count, ws)));
    RunCons(s2, Succeed(t), s3, []);
    RunCons(s1, Send(t), s2, [Succeed(t)] + []);
    RunCons(s, Choose(t, ws), s1, [Send(t)] + ([Succeed(t)] + []));
  }

  /** The first request, answered. */
  function Opening(a: P.Message, ws: string): seq<Event> {
    [Ask([a])] + Turning(0, ws)
  }

  function Opened(a: P.Message, ws: string): State {
    State([a], Some(Entry(0, 1, ws)), [[Range(0, 1)]], [Turn(1, 0, None, false, Ended, ws)], None)
  }

  lemma OpeningRuns(a: P.Message, ws: string)
    ensures Run(Init, Opening(a, ws)) == Some(Opened(a, ws))
  {
    var first := Turn(1, 0, None, false, Built, "");
    var s1 := State([a], None, [], [first], None);
    AsksFirst(a);
    RunCons(Init, Ask([a]), s1, Turning(0, ws));
    FreshTurnRuns(s1, 0, ws);
    assert [] + [[Range(0, 1)]] == [[Range(0, 1)]];
    assert [first][0 := first.(pc := Ended, workspace := ws)] == [first.(pc := Ended, workspace := ws)];
  }

  lemma AsksFirst(a: P.Message)
    ensures Next(Init, Ask([a])) == State([a], None, [], [Turn(1, 0, None, false, Built, "")], None)
  {
    assert [] + [a] == [a];
    assert [] + [Turn(1, 0, None, false, Built, "")] == [Turn(1, 0, None, false, Built, "")];
  }

  lemma StartsBehind(entry: Entry, transcript: seq<P.Message>, rest: seq<P.Message>)
    requires 0 < entry.count < |transcript| && transcript[entry.count..] == rest
    ensures Start(Some(entry), transcript) == if P.BuildPrompt(rest, "") != "" then entry.count else 0
  {
  }

  lemma SecondAsk(a: P.Message, ws: string, b: P.Message)
    ensures var from := if P.Unprinted(b) then 0 else 1;
      Next(Opened(a, ws), Ask([b])) == Opened(a, ws).(transcript := [a, b],
        turns := [Turn(1, 0, None, false, Ended, ws),
                  Turn(2, from, if from > 0 then Some(0) else None, false, Built, "")])
  {
    SecondTurn(Opened(a, ws), a, ws, b);
    assert [a] + [b] == [a, b];
    Asks(Opened(a, ws), [b], [a, b]);
    Two(Turn(1, 0, None, false, Ended, ws), NewTurn(Opened(a, ws), [a, b]));
  }

  lemma Asks(s: State, more: seq<P.Message>, transcript: seq<P.Message>)
    requires more != [] && transcript == s.transcript + more
    ensures Next(s, Ask(more)) == s.(transcript := transcript, turns := s.turns + [NewTurn(s, transcript)])
  {
  }

  lemma Two(a: Turn, b: Turn)
    ensures [a] + [b] == [a, b]
  {
  }

  lemma SecondTurn(s: State, a: P.Message, ws: string, b: P.Message)
    requires s.entry == Some(Entry(0, 1, ws))
    ensures var from := if P.Unprinted(b) then 0 else 1;
      NewTurn(s, [a, b]) == Turn(2, from, if from > 0 then Some(0) else None, false, Built, "")
  {
    P.OneMessage(b);
    assert [a, b][1..] == [b];
    StartsBehind(Entry(0, 1, ws), [a, b], [b]);
  }

  /** The second request leaves out the first message, the entry goes before its turn gets a session, and the turn
      succeeds: the pool counts two messages of a session that never received the first. Whatever the two messages
      are, if the second renders to something. */
  lemma RemovalLosesTheBeginning(a: P.Message, b: P.Message, ws: string)
    requires !P.Unprinted(b)
    ensures var es := Opening(a, ws) + ([Ask([b])] + ([Remove] + Turning(1, ws)));
      && Run(Init, es).Some?
      && var s := Run(Init, es).value;
      && s.entry == Some(Entry(1, 2, ws)) && 1 < |s.sessions| && !Received(s.sessions[1], 0)
  {
    OpeningRuns(a, ws);
    SecondAsk(a, ws, b);
    var s1 := Next(Opened(a, ws), Ask([b]));
    var s2 := Next(s1, Remove);
    RunConcat(Init, Opening(a, ws), [Ask([b])] + ([Remove] + Turning(1, ws)));
    RunCons(Opened(a, ws), Ask([b]), s1, [Remove] + Turning(1, ws));
    RunCons(s1, Remove, s2, Turning(1, ws));
    FreshTurnRuns(s2, 1, ws);
    assert s2.sessions + [[Range(1, 2)]] == [[Range(0, 1)], [Range(1, 2)]];
  }

  lemma ReusedSends(s: State, t: nat, ws: string, x: nat)
    requires At(s, t, Built) && s.holder == None && Usable(s.entry, ws) && x == s.entry.value.session < |s.sessions|
    ensures Run(s, [Choose(t, ws)] + ([Send(t)] + [])).Some?
    ensures Run(s, [Choose(t, ws)] + ([Send(t)] + [])).value.sessions
         == s.sessions[x := s.sessions[x] + [Range(s.turns[t].from, s.turns[t].count)]]
  {
    var s1 := Next(s, Choose(t, ws));
    RunCons(s1, Send(t), Next(s1, Send(t)), []);
    RunCons(s, Choose(t, ws), s1, [Send(t)] + []);
  }

  /** The second request brings a message of a role that the printer does not know: its prompt starts at the beginning,
      and the session, which is the same, receives the first message a second time. */
  lemma BlankTurnRepeatsItself(a: P.Message, b: P.Message, ws: string)
    requires P.Unprinted(b)
    ensures var es := Opening(a, ws) + ([Ask([b])] + ([Choose(1, ws)] + ([Send(1)] + [])));
      && Run(Init, es).Some?
      && Run(Init, es).value.sessions == [[Range(0, 1), Range(0, 2)]]
  {
    OpeningRuns(a, ws);
    SecondAsk(a, ws, b);
    var s1 := Next(Opened(a, ws), Ask([b]));
    RunConcat(Init, Opening(a, ws), [Ask([b])] + ([Choose(1, ws)] + ([Send(1)] + [])));
    RunCons(Opened(a, ws), Ask([b]), s1, [Choose(1, ws)] + ([Send(1)] + []));
    ReusedSends(s1, 1, ws, 0);
    assert [Range(0, 1)] + [Range(0, 2)] == [Range(0, 1), Range(0, 2)];
  }

  /** After an orderly run whose turns have all ended, the next request's prompt gives the session each message exactly
      once, if and only if the printer knows the role of one of the new messages: else it starts at the beginning
      again and repeats all that was sent. */
  lemma OnceMoreExactlyWhen(es: seq<Event>, more: seq<P.Message>, ws: string)
    requires OrderlyRun(Init, es) && Run(Init, es).Some? && more != []
    requires var s := Run(Init, es).value; AllEnded(s) && s.holder.None? && Usable(s.entry, ws)
    ensures var s := Run(Init, es).value;
      var x, asked := s.entry.value.session, AskedAgain(|s.turns|, more, ws);
      && Run(s, asked).Some? && x < |Run(s, asked).value.sessions|
      && (Exactly(Run(s, asked).value.sessions[x], |s.transcript + more|) <==> SomePrinted(more))
  {
    OrderlyInvRun(Init, es);
    OrderlyAsksAgain(Run(Init, es).value, more, ws);
  }

  predicate SomePrinted(ms: seq<P.Message>) {
    exists i :: 0 <= i < |ms| && !P.Unprinted(ms[i])
  }

  lemma OrderlyAsksAgain(s: State, more: seq<P.Message>, ws: string)
    requires OrderlyInv(s) && more != [] && AllEnded(s) && s.holder.None? && Usable(s.entry, ws)
    ensures var x, asked := s.entry.value.session, AskedAgain(|s.turns|, more, ws);
      && Run(s, asked).Some? && x < |Run(s, asked).value.sessions|
      && (Exactly(Run(s, asked).value.sessions[x], |s.transcript + more|) <==> SomePrinted(more))
  {
    var t, x, n := |s.turns|, s.entry.value.session, |s.transcript|;
    var turn := NewTurn(s, s.transcript + more);
    EndedEntry(s);
    AgainStarts(s, more);
    var s1 := s.(transcript := s.transcript + more, turns := s.turns + [turn]);
    RunCons(s, Ask(more), s1, [Choose(t, ws)] + ([Send(t)] + []));
    assert s1.turns[t] == turn;
    ReusedSends(s1, t, ws, x);
    AppendedRange(s.sessions[x], n, turn.from, turn.count);
  }

  function AskedAgain(t: nat, more: seq<P.Message>, ws: string): seq<Event> {
    [Ask(more)] + ([Choose(t, ws)] + ([Send(t)] + []))
  }

  /** When all turns have ended, the session of the entry has all of the transcript. */
  lemma EndedEntry(s: State)
    requires OrderlyInv(s) && AllEnded(s) && s.entry.Some?
    ensures 0 < s.entry.value.count == |s.transcript| && ToldExactly(s, s.entry.value.session, |s.transcript|)
  {
    assert AtRest(s) && s.turns[|s.turns| - 1].pc == Ended;
  }

  lemma AgainStarts(s: State, more: seq<P.Message>)
    requires more != [] && s.entry.Some? && 0 < s.entry.value.count == |s.transcript|
    ensures var turn := NewTurn(s, s.transcript + more);
      && turn.pc == Built && turn.count == |s.transcript + more|
      && turn.from == if SomePrinted(more) then |s.transcript| else 0
  {
    assert (s.transcript + more)[|s.transcript|..] == more;
    P.NothingToSay(more);
    StartsBehind(s.entry.value, s.transcript + more, more);
  }

  lemma AppendedRange(rs: seq<Range>, n: nat, from: nat, to: nat)
    requires Exactly(rs, n) && 0 < n && from <= to
    ensures Exactly(rs + [Range(from, to)], to) <==> from == n
  {
    assert (rs + [Range(from, to)])[..|rs|] == rs;
    if Exactly(rs, from) {
      ExactlyOne(rs, from, n);
    }
  }
}
