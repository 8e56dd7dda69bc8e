/** What the client of a streamed turn is sent, from the agent's lines on: the turns of Turns and the sink of Sink. */
module TurnStream {
  import opened Wrappers
  import opened Events
  import Sink
  import Turns
  import TurnText

  /** What a turn's channel can hold. */
  predicate TurnLog(log: seq<Event>) {
    forall i :: 0 <= i < |log| ==> FromAgent(log[i]) || log[i].Done? || log[i].SessionInit?
  }

  lemma {:induction false} EndsAreDones(log: seq<Event>)
    requires TurnLog(log)
    ensures Sink.Ends(log) == Turns.Dones(log)
  {
    if log != [] {
      EndsAreDones(log[..|log| - 1]);
    }
  }

  lemma ShapedLog(turn: Turns.Turn)
    requires Turns.Shaped(turn)
    ensures TurnLog(turn.log)
  {
  }

  /** Only a turn that failed sends an error; the router's waiter or a benign exit may take it away. */
  predicate ErrorOf(turn: Turns.Turn, err: Option<string>) {
    err.Some? ==> turn.pc == Turns.Finished(false)
  }

  /** The error is reported: nothing was reported before, and the client has not stopped the turn. */
  predicate Reported(env: Sink.Env, log: seq<Event>, err: Option<string>, stopped: bool) {
    !Sink.After(env, log).failed && err.Some? && !stopped
  }

  lemma ClosedTurn(es: seq<Turns.Step>, t: nat)
    requires Turns.Run(Turns.Init, es).Some? && t < |Turns.Run(Turns.Init, es).value.turns|
    requires Turns.Run(Turns.Init, es).value.turns[t].closed
    ensures var turn := Turns.Run(Turns.Init, es).value.turns[t];
      Turns.Shaped(turn) && turn.pc.Finished?
  {
    Turns.Reached(es);
    var s := Turns.Run(Turns.Init, es).value;
    assert Turns.TurnOk(s.turns[t], s.routed, t) && Turns.WindowOk(s.turns[t], t, s.read, s.loop);
  }

  /** Every run of turns, any agent: when the stream of a turn's channel ends, the client has been sent the role
      first and once, and [DONE] at most once: exactly once if the turn succeeded, and otherwise exactly if its
      error was reported. */
  lemma DoneMarkOnce(es: seq<Turns.Step>, t: nat, env: Sink.Env, err: Option<string>, stopped: bool)
    requires Turns.Run(Turns.Init, es).Some? && t < |Turns.Run(Turns.Init, es).value.turns|
    requires Turns.Run(Turns.Init, es).value.turns[t].closed
    requires ErrorOf(Turns.Run(Turns.Init, es).value.turns[t], err)
    ensures var turn := Turns.Run(Turns.Init, es).value.turns[t];
      var out := Sink.Sent(env, turn.log, err, stopped).out;
      && Sink.RoleFirst(out) && Sink.Marks(out) <= 1
      && (Sink.Marks(out) == 1 <==> turn.pc == Turns.Finished(true) || Reported(env, turn.log, err, stopped))
  {
    ClosedTurn(es, t);
    var turn := Turns.Run(Turns.Init, es).value.turns[t];
    ShapedLog(turn);
    EndsAreDones(turn.log);
    Sink.RoleFirstDoneOnce(env, turn.log, err, stopped);
  }

  lemma {:induction false} AtDone(log: seq<Event>) returns (d: nat)
    requires TurnLog(log) && Turns.Dones(log) == 1
    ensures d < |log| && log[d].Done?
    ensures Sink.AllQuiet(log[..d]) && Sink.AllQuiet(log[d + 1..])
  {
    var n := |log| - 1;
    if log[n].Done? {
      d := n;
      NoDones(log[..n]);
    } else {
      d := AtDone(log[..n]);
      assert log[..n][..d] == log[..d];
      assert log[d + 1..] == log[..n][d + 1..] + [log[n]];
    }
  }

  lemma {:induction false} NoDones(log: seq<Event>)
    requires TurnLog(log) && Turns.Dones(log) == 0
    ensures Sink.AllQuiet(log)
  {
    if log != [] {
      NoDones(log[..|log| - 1]);
      assert log == log[..|log| - 1] + [log[|log| - 1]];
    }
  }

  lemma ReasonOfLog(env: Sink.Env, log: seq<Event>) returns (d: nat)
    requires TurnLog(log) && Turns.Dones(log) == 1
    ensures d < |log| && log[d].Done? && Sink.AllQuiet(log[..d]) && Sink.AllQuiet(log[d + 1..])
    ensures var out := Sink.After(env, log).sink.out;
      && |Sink.Reasons(out)| == 1
      && ((Sink.Reasons(out)[0] == "tool_calls" <==> Sink.HasCalls(out)) <==>
            Sink.Reasons(out)[0] == "tool_calls" || !Sink.AnyAddsCalls(env, log[d + 1..]))
  {
    d := AtDone(log);
    Sink.FinishReasonIsToolCalls(env, log[..d], log[d].stopReason, log[d + 1..]);
    assert log[..d] + [Done(log[d].stopReason)] + log[d + 1..] == log;
  }

  /** Every run, any agent: the stream of a successful turn gives one finish reason, at the turn's Done; it is
      tool_calls exactly if a chunk of calls is written, if and only if no event behind Done makes one or the
      reason was tool_calls anyway. */
  lemma FinishReasonOfATurn(es: seq<Turns.Step>, t: nat, env: Sink.Env) returns (d: nat)
    requires Turns.Run(Turns.Init, es).Some? && t < |Turns.Run(Turns.Init, es).value.turns|
    requires Turns.Run(Turns.Init, es).value.turns[t].closed
    requires Turns.Run(Turns.Init, es).value.turns[t].pc == Turns.Finished(true)
    ensures var log := Turns.Run(Turns.Init, es).value.turns[t].log;
      && d < |log| && log[d].Done? && Sink.AllQuiet(log[..d]) && Sink.AllQuiet(log[d + 1..])
      && var out := Sink.Sent(env, log, None, false).out;
      && |Sink.Reasons(out)| == 1
      && ((Sink.Reasons(out)[0] == "tool_calls" <==> Sink.HasCalls(out)) <==>
            Sink.Reasons(out)[0] == "tool_calls" || !Sink.AnyAddsCalls(env, log[d + 1..]))
  {
    ClosedTurn(es, t);
    var turn := Turns.Run(Turns.Init, es).value.turns[t];
    ShapedLog(turn);
    d := ReasonOfLog(env, turn.log);
  }

  lemma OpenedThenLate(env: Sink.Env, stop: string, tc: ToolCall, log: seq<Event>)
    requires log == [SessionInit("a")] + [Done(stop)] + [ToolCallStart(tc)]
    ensures Sink.After(env, log) == Sink.After(env, [Done(stop)] + [ToolCallStart(tc)])
  {
    Sink.AfterOne(env, SessionInit("a"));
    Sink.AfterOne(env, Done(stop));
    Sink.AfterSnoc(env, [SessionInit("a")], Done(stop));
    Sink.AfterSnoc(env, [SessionInit("a")] + [Done(stop)], ToolCallStart(tc));
    Sink.AfterSnoc(env, [Done(stop)], ToolCallStart(tc));
  }

  lemma LateCallIsSent(env: Sink.Env, stop: string, tc: ToolCall, log: seq<Event>)
    requires log == [SessionInit("a")] + [Done(stop)] + [ToolCallStart(tc)]
    requires env.clientTools && !env.afterToolResult && env.parse("") == [] && env.synthesize("", "") == []
    requires Sink.AddsCalls(env, ToolCallStart(tc))
    ensures var out := Sink.Sent(env, log, None, false).out; Sink.Reasons(out) == ["stop"] && Sink.HasCalls(out)
  {
    OpenedThenLate(env, stop, tc, log);
    Sink.LateCallsFinishAsStop(env, stop, tc);
  }

  /** A run of turns in which the agent calls a tool behind its response: the client is written the call after it was
      told that the answer ended with "stop". Any such call, whatever the response's stop reason. */
  lemma LateCallOfATurn(env: Sink.Env, uuid: nat -> string, stop: string, tc: ToolCall)
    requires env.clientTools && !env.afterToolResult && env.synthesize("", "") == []
    requires Sink.AddsCalls(env, ToolCallStart(tc))
    ensures var es := Turns.Overheard(stop, ToolCallStart(tc));
      && Turns.Run(Turns.Init, es).Some? && |Turns.Run(Turns.Init, es).value.turns| == 1
      && var turn := Turns.Run(Turns.Init, es).value.turns[0];
      && turn.closed && turn.pc == Turns.Finished(true)
      && var out := Sink.Sent(Sink.Gateway(env, uuid), turn.log, None, false).out;
        Sink.Reasons(out) == ["stop"] && Sink.HasCalls(out)
  {
    var g := Sink.Gateway(env, uuid);
    Turns.EventsFollowDone(stop, ToolCallStart(tc));
    Sink.NothingParsed(env, uuid);
    LateCallIsSent(g, stop, tc, [SessionInit("a")] + [Done(stop)] + [ToolCallStart(tc)]);
  }

  // ---- From the agent's lines to the client -------------------------------------------------------------------

  lemma LogHasNoErrors(log: seq<Event>)
    requires TurnLog(log)
    ensures Sink.NoErrors(log)
  {
  }

  lemma LoggedTurn(es: seq<Turns.Step>, t: nat)
    requires Turns.Run(Turns.Init, es).Some? && t < |Turns.Run(Turns.Init, es).value.turns|
    ensures TurnLog(Turns.Run(Turns.Init, es).value.turns[t].log)
  {
    Turns.Reached(es);
    var s := Turns.Run(Turns.Init, es).value;
    assert Turns.TurnOk(s.turns[t], s.routed, t);
    ShapedLog(s.turns[t]);
  }

  /** From one end to the other, every run and any agent, without client tools: the text that the client of a streamed
      turn has received is that of the lines the agent wrote for the turn, from its prompt to its response, in order;
      before it stands the text of lines that were pending when the turn's handler came in, and behind it that of lines
      which came late. */
  lemma LinesReachTheClient(es: seq<Turns.Step>, t: nat, ls: seq<TurnText.RawLine>, env: Sink.Env)
    requires Turns.Run(Turns.Init, es).Some? && Turns.Written(es) == TurnText.DecodeAll(ls)
    requires t < |Turns.Run(Turns.Init, es).value.turns|
    requires Turns.Run(Turns.Init, es).value.turns[t].marks.answered.Some?
    requires !env.clientTools && env.profile != "model" && Sink.Shows(env) != Sink.AsText
    ensures var turn := Turns.Run(Turns.Init, es).value.turns[t]; var m := turn.marks;
      && m.from <= Turns.Asked(m) <= m.answered.value <= |ls|
      && |turn.log| >= 1 + |Turns.AllEvents(TurnText.DecodeAll(ls)[m.from..m.answered.value])|
      && var late := FullText(Turns.Tail(turn, TurnText.DecodeAll(ls)));
        && Sink.Streamed(Sink.Sent(env, turn.log, None, false).out)
             == TurnText.Answer(ls[m.from..Turns.Asked(m)]) + TurnText.Answer(ls[Turns.Asked(m)..m.answered.value]) + late
        && (Sink.Streamed(Sink.Sent(env, turn.log, None, false).out) == TurnText.Answer(ls[Turns.Asked(m)..m.answered.value])
            <==> TurnText.Answer(ls[m.from..Turns.Asked(m)]) == "" && late == "")
  {
    LoggedTurn(es, t);
    LogHasNoErrors(Turns.Run(Turns.Init, es).value.turns[t].log);
    Sink.PlainText(env, Turns.Run(Turns.Init, es).value.turns[t].log);
    TurnText.AnswerReachesTheReader(es, t, ls);
  }
}
