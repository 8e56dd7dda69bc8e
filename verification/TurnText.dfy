/** The lines of the agent, undecoded, and the text of a turn's answer. */
module TurnText {
  import opened Wrappers
  import opened Events
  import Translate
  import Turns

  datatype RawLine =
    | SessionUpdate(update: Translate.SessionUpdate)
    | CreatePlan(name: string, plan: string)   // cursor/create_plan
    | UpdateTodos                              // cursor/update_todos and cursor/task
    | PromptReply(turn: nat, ok: bool)
    | OtherLine

  /** What dispatchLine and a turn's handler make of a line. */
  function Decode(l: RawLine): Turns.Line {
    match l
    case SessionUpdate(u) =>
      Translate.TranslationKeepsText(u);
      Turns.Update(Translate.TranslateSessionUpdate(u))
    case CreatePlan(name, plan) => Turns.Update([Plan(PlanText(name, plan))])
    case UpdateTodos => Turns.Update([TraceOnly("")])
    case PromptReply(t, ok) => Turns.Answer(t, ok)
    case OtherLine => Turns.Other
  }

  function PlanText(name: string, plan: string): string {
    if name != "" then "## " + name + "\n\n" + plan else plan
  }

  /** What a line adds to the answer. */
  function Says(l: RawLine): string {
    match l
    case SessionUpdate(u) => Translate.AnswerText(u)
    case CreatePlan(name, plan) => PlanText(name, plan)
    case _ => ""
  }

  function Answer(ls: seq<RawLine>): string {
    if ls == [] then "" else Answer(ls[..|ls| - 1]) + Says(ls[|ls| - 1])
  }

  function DecodeAll(ls: seq<RawLine>): seq<Turns.Line> {
    seq(|ls|, i requires 0 <= i < |ls| => Decode(ls[i]))
  }

  lemma OneText(e: Event)
    ensures FullText([e]) == TextOf(e)
  {
    assert [e][..0] == [];
  }

  lemma DecodeKeepsText(l: RawLine)
    ensures FullText(Turns.EventsOf(Decode(l))) == Says(l)
  {
    match l
    case SessionUpdate(u) => Translate.TranslationKeepsText(u);
    case CreatePlan(name, plan) => OneText(Plan(PlanText(name, plan)));
    case UpdateTodos => OneText(TraceOnly(""));
    case _ =>
  }

  /** A plan is read with its name as a heading, if it has one, and adds nothing else to the answer. */
  lemma PlanIsSaid(name: string, plan: string)
    ensures FullText(Turns.EventsOf(Decode(CreatePlan(name, plan))))
         == if name == "" then plan else "## " + name + "\n\n" + plan
  {
    DecodeKeepsText(CreatePlan(name, plan));
  }

  /** The thoughts in a line: those of a thought chunk. */
  function Thinks(l: RawLine): string {
    if l.SessionUpdate? && l.update.Update? && l.update.kind == "agent_thought_chunk"
    then Translate.TextFromContent(l.update.content) else ""
  }

  function Thought(ls: seq<RawLine>): string {
    if ls == [] then "" else Thought(ls[..|ls| - 1]) + Thinks(ls[|ls| - 1])
  }

  lemma OneThought(e: Event)
    ensures Thoughts([e]) == ThoughtOf(e)
  {
    assert [e][..0] == [];
  }

  lemma DecodeKeepsThoughts(l: RawLine)
    ensures Thoughts(Turns.EventsOf(Decode(l))) == Thinks(l)
  {
    var es := Turns.EventsOf(Decode(l));
    if l.SessionUpdate? { Translate.TranslationKeepsText(l.update); }
    if es != [] {
      assert es == [es[0]];
      OneThought(es[0]);
    }
  }

  /** The thoughts of all lines, in order, are those of their events. */
  lemma {:induction false} ThoughtsAreKept(ls: seq<RawLine>)
    ensures Thoughts(Turns.AllEvents(DecodeAll(ls))) == Thought(ls)
  {
    if ls == [] {
      assert DecodeAll(ls) == [];
    } else {
      var n := |ls| - 1;
      assert DecodeAll(ls) == DecodeAll(ls[..n]) + [Decode(ls[n])];
      ThoughtsAreKept(ls[..n]);
      Turns.AllEventsSnoc(DecodeAll(ls[..n]), Decode(ls[n]));
      ThoughtsConcat(Turns.AllEvents(DecodeAll(ls[..n])), Turns.EventsOf(Decode(ls[n])));
      DecodeKeepsThoughts(ls[n]);
    }
  }

  lemma {:induction false} AnswerIsFullText(ls: seq<RawLine>)
    ensures FullText(Turns.AllEvents(DecodeAll(ls))) == Answer(ls)
  {
    if ls == [] {
      assert DecodeAll(ls) == [];
    } else {
      var n := |ls| - 1;
      assert DecodeAll(ls) == DecodeAll(ls[..n]) + [Decode(ls[n])];
      AnswerIsFullText(ls[..n]);
      Turns.AllEventsSnoc(DecodeAll(ls[..n]), Decode(ls[n]));
      FullTextConcat(Turns.AllEvents(DecodeAll(ls[..n])), Turns.EventsOf(Decode(ls[n])));
      DecodeKeepsText(ls[n]);
    }
  }

  /** From the agent's lines to the reader of the events, for every turn that is ended by its own
      response: the reader accumulates the text of the message chunks and plans that were pending when
      the handler came in, then that of the turn's own lines, in order, then what came late; so exactly
      the text of its own lines, if and only if there is no text in the others. */
  lemma AnswerReachesTheReader(es: seq<Turns.Step>, t: nat, ls: seq<RawLine>)
    requires Turns.Run(Turns.Init, es).Some? && Turns.Written(es) == DecodeAll(ls)
    requires t < |Turns.Run(Turns.Init, es).value.turns|
    requires Turns.Run(Turns.Init, es).value.turns[t].marks.answered.Some?
    ensures var turn := Turns.Run(Turns.Init, es).value.turns[t]; var m := turn.marks;
      && m.from <= Turns.Asked(m) <= m.answered.value <= |ls|
      && |turn.log| >= 1 + |Turns.AllEvents(DecodeAll(ls)[m.from..m.answered.value])|
      && var late := FullText(Turns.Tail(turn, DecodeAll(ls)));
        && FullText(turn.log)
             == Answer(ls[m.from..Turns.Asked(m)]) + Answer(ls[Turns.Asked(m)..m.answered.value]) + late
        && (FullText(turn.log) == Answer(ls[Turns.Asked(m)..m.answered.value]) <==>
              Answer(ls[m.from..Turns.Asked(m)]) == "" && late == "")
  {
    Turns.FinishedTurnsAreComplete(es, t);
    var s := Turns.Run(Turns.Init, es).value;
    ComposedText(s.turns[t], t, ls, Turns.Upto(s.turns[t], s.read), s.loop);
  }

  lemma ComposedText(turn: Turns.Turn, t: nat, ls: seq<RawLine>, upto: nat, loop: Turns.Loop)
    requires turn.marks.answered.Some? && Turns.Composed(turn, t, DecodeAll(ls), upto, loop)
    ensures var m, late := turn.marks, FullText(Turns.Tail(turn, DecodeAll(ls)));
      && m.from <= Turns.Asked(m) <= m.answered.value <= |ls|
      && FullText(turn.log)
           == Answer(ls[m.from..Turns.Asked(m)]) + Answer(ls[Turns.Asked(m)..m.answered.value]) + late
      && (FullText(turn.log) == Answer(ls[Turns.Asked(m)..m.answered.value]) <==>
            Answer(ls[m.from..Turns.Asked(m)]) == "" && late == "")
  {
    var m := turn.marks;
    SliceText(ls, m.from, Turns.Asked(m));
    SliceText(ls, Turns.Asked(m), m.answered.value);
    FourParts(turn.log[0], Turns.AllEvents(DecodeAll(ls)[m.from..Turns.Asked(m)]),
              Turns.AllEvents(DecodeAll(ls)[Turns.Asked(m)..m.answered.value]), Turns.Tail(turn, DecodeAll(ls)));
    OnlyTheMiddle(Answer(ls[m.from..Turns.Asked(m)]), Answer(ls[Turns.Asked(m)..m.answered.value]),
                  FullText(Turns.Tail(turn, DecodeAll(ls))));
  }

  lemma SliceText(ls: seq<RawLine>, i: nat, j: nat)
    requires i <= j <= |ls|
    ensures FullText(Turns.AllEvents(DecodeAll(ls)[i..j])) == Answer(ls[i..j])
  {
    assert DecodeAll(ls)[i..j] == DecodeAll(ls[i..j]);
    AnswerIsFullText(ls[i..j]);
  }

  lemma FourParts(init: Event, a: seq<Event>, b: seq<Event>, c: seq<Event>)
    requires init.SessionInit?
    ensures FullText([init] + a + b + c) == FullText(a) + FullText(b) + FullText(c)
  {
    OneText(init);
    FullTextConcat([init], a);
    FullTextConcat([init] + a, b);
    FullTextConcat([init] + a + b, c);
    assert "" + FullText(a) == FullText(a);
  }

  lemma OnlyTheMiddle(a: string, b: string, c: string)
    ensures a + b + c == b <==> a == "" && c == ""
  {
    assert |a + b + c| == |a| + |b| + |c|;
    if a == "" && c == "" { assert a + b + c == b; }
  }

  lemma {:induction false} WritesAreWritten(es: seq<Turns.Step>, l: Turns.Line)
    requires Turns.Write(l) in es
    ensures l in Turns.Written(es)
  {
    if es[0] == Turns.Write(l) {
      assert Turns.Written(es)[0] == l;
    } else {
      assert es == [es[0]] + es[1..];
      WritesAreWritten(es[1..], l);
      var k :| 0 <= k < |Turns.Written(es[1..])| && Turns.Written(es[1..])[k] == l;
      assert Turns.Written(es)[if es[0].Write? then k + 1 else k] == l;
    }
  }

  lemma RepliesAreLines(ls: seq<RawLine>, t: nat, ok: bool)
    requires Turns.Answer(t, ok) in DecodeAll(ls)
    ensures PromptReply(t, ok) in ls
  {
    var k :| 0 <= k < |ls| && DecodeAll(ls)[k] == Turns.Answer(t, ok);
    assert ls[k] == PromptReply(t, ok);
  }

  /** A turn succeeds only if the agent wrote a response with a result to this very turn's prompt. */
  lemma SucceedsOnItsReply(es: seq<Turns.Step>, t: nat, ls: seq<RawLine>)
    requires Turns.Run(Turns.Init, es).Some? && Turns.Written(es) == DecodeAll(ls)
    requires t < |Turns.Run(Turns.Init, es).value.turns|
    requires Turns.Succeeded(Turns.Run(Turns.Init, es).value.turns[t].pc)
    ensures PromptReply(t, true) in ls
  {
    Turns.OutcomesHaveTheirCause(es, t);
    WritesAreWritten(es, Turns.Answer(t, true));
    RepliesAreLines(ls, t, true);
  }
}
