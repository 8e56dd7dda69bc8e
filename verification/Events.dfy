/**
 The gateway's internal events (internal/ir/event.go) and the translation of an agent's session
 updates into them (internal/toolloop/translate.go).
*/
module Events {
  import opened Wrappers

  datatype ToolCall = ToolCall(id: string, name: string, title: string, args: string, status: string, native: bool)

  datatype Event =
    | SessionInit(sessionID: string)
    | ContentDelta(text: string)
    | ReasoningDelta(text: string)
    | ToolCallStart(call: ToolCall)
    | ToolCallUpdate(call: ToolCall)
    | Plan(text: string)
    | ModeUpdate(modeID: string)
    | TraceOnly(text: string)
    | Done(stopReason: string)
    | Error(message: string)

  /** Events that only the agent's lines give rise to. */
  predicate FromAgent(e: Event) {
    !e.SessionInit? && !e.Done? && !e.Error?
  }

  type AgentEvents = es: seq<Event> | forall i :: 0 <= i < |es| ==> FromAgent(es[i])

  /** The text that a reader of the events accumulates. */
  function TextOf(e: Event): string {
    match e
    case ContentDelta(text) => text
    case Plan(text) => text
    case _ => ""
  }

  function FullText(es: seq<Event>): string {
    if es == [] then "" else FullText(es[..|es| - 1]) + TextOf(es[|es| - 1])
  }

  lemma {:induction false} FullTextConcat(a: seq<Event>, b: seq<Event>)
    ensures FullText(a + b) == FullText(a) + FullText(b)
  {
    if b == [] {
      assert a + b == a;
    } else {
      var n := |b| - 1;
      assert (a + b)[..|a + b| - 1] == a + b[..n];
      FullTextConcat(a, b[..n]);
      assert FullText(a) + (FullText(b[..n]) + TextOf(b[n])) == (FullText(a) + FullText(b[..n])) + TextOf(b[n]);
    }
  }

  /** The thoughts of the agent, which are no part of the answer. */
  function ThoughtOf(e: Event): string {
    if e.ReasoningDelta? then e.text else ""
  }

  function Thoughts(es: seq<Event>): string {
    if es == [] then "" else Thoughts(es[..|es| - 1]) + ThoughtOf(es[|es| - 1])
  }

  lemma {:induction false} ThoughtsConcat(a: seq<Event>, b: seq<Event>)
    ensures Thoughts(a + b) == Thoughts(a) + Thoughts(b)
  {
    if b == [] {
      assert a + b == a;
    } else {
      var n := |b| - 1;
      assert (a + b)[..|a + b| - 1] == a + b[..n];
      ThoughtsConcat(a, b[..n]);
      assert Thoughts(a) + (Thoughts(b[..n]) + ThoughtOf(b[n])) == (Thoughts(a) + Thoughts(b[..n])) + ThoughtOf(b[n]);
    }
  }
}
