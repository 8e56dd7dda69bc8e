/**
 The streaming answer: openAIChatSink (internal/handler/chat.go), the loop that drives it from a turn's events
 (internal/handler/stream.go), and the loop that collects the same events for a synchronous answer
 (ACPGateway.RunSync in internal/runner/acp.go).

 Chunks are what the client is sent, without their JSON wrapping; usage is never set on this path. The heuristics about
 native tools and about composed answers are parameters.
*/
module Sink {
  import opened Wrappers
  import opened Events
  import J = Json
  import S = Strings
  import T = ToolCalls

  datatype Chunk =
    | Role
    | Delta(text: string)
    | Reasoning(text: string)
    | Calls(calls: seq<T.Call>)
    | Finish(reason: string)
    | DoneMark                      // data: [DONE]

  /** What a run of the stream depends on beside the events. */
  datatype Env = Env(
    clientTools: bool,
    afterToolResult: bool,
    visibility: string,
    profile: string,
    looksPending: string -> bool,               // LooksLikePendingToolCallsJSON
    parse: string -> seq<T.Call>,               // ParseClientToolCalls
    mapNative: ToolCall -> seq<T.Call>,         // MapNativeToolToClient
    nativeCommand: ToolCall -> string,          // ExtractNativeShellCommand
    synthesize: (string, string) -> seq<T.Call>,// ShouldSynthesizeAfterSuppress
    compose: string -> string)                  // ComposeAnswerAfterTool

  datatype State = State(
    contentBuf: string, streamed: bool, hold: bool, finished: bool, calls: seq<T.Call>, suppressed: string,
    out: seq<Chunk>)

  const START := State("", false, false, false, [], "", [Role])

  function Write(s: State, chunks: seq<Chunk>): State {
    s.(out := s.out + chunks)
  }

  function DeltaStep(env: Env, s: State, text: string): State {
    if !env.clientTools then Write(s, [Delta(text)])
    else
      var s1 := s.(contentBuf := s.contentBuf + text);
      if !env.afterToolResult && (s.hold || env.looksPending(s1.contentBuf)) then s1.(hold := true)
      else Write(s1.(streamed := true), [Delta(text)])
  }

  function ReasoningStep(env: Env, s: State, text: string): State {
    if env.clientTools && env.visibility in ["off", "hidden", "none"] then s
    else if env.visibility in ["prefix", "content"] then Write(s, [Delta(text)])
    else Write(s, [Reasoning(text)])
  }

  function CallsStep(env: Env, s: State, calls: seq<T.Call>): State {
    if !env.clientTools || calls == [] then s
    else Write(s.(calls := s.calls + calls, finished := true), [Calls(calls)])
  }

  function CallFrom(tc: ToolCall): T.Call {
    T.Call(tc.id, "function", if tc.name == "" then tc.title else tc.name, if tc.args == "" then "{}" else tc.args)
  }

  function NoteSuppressed(s: State, command: string): State {
    if S.Trim(command) != "" then s.(suppressed := S.Trim(command)) else s
  }

  /** The calls that finishClientTools finds in the text it has, in the order in which it looks. */
  function FinalCalls(env: Env, s: State, text: string): seq<T.Call> {
    if env.parse(text) != [] then env.parse(text)
    else if !env.afterToolResult then env.synthesize(text, s.suppressed)
    else env.parse(env.compose(text))
  }

  function BufferedText(s: State, fullText: string): string {
    if S.Blank(s.contentBuf) && !S.Blank(fullText) then fullText else s.contentBuf
  }

  /** The text left to send at the end when there are no tool calls. */
  function FinalText(env: Env, s: State, fullText: string): string {
    if env.afterToolResult then env.compose(BufferedText(s, fullText)) else BufferedText(s, fullText)
  }

  function TextEnding(s: State, text: string): seq<Chunk> {
    if text != "" && !s.streamed then [Delta(text), Finish("stop"), DoneMark] else [Finish("stop"), DoneMark]
  }

  /** The last chunks: what OnDone writes. */
  function Ending(env: Env, s: State, fullText: string): seq<Chunk> {
    if !env.clientTools then [Finish("stop"), DoneMark]
    else if s.calls != [] then [Finish("tool_calls"), DoneMark]
    else
      var calls := FinalCalls(env, s, BufferedText(s, fullText));
      if calls != [] then [Calls(calls), Finish("tool_calls"), DoneMark]
      else TextEnding(s, FinalText(env, s, fullText))
  }

  predicate Finished(env: Env, s: State, fullText: string) {
    || s.finished
    || (env.clientTools
        && (|| s.calls != []
            || FinalCalls(env, s, BufferedText(s, fullText)) != []
            || FinalText(env, s, fullText) != ""))
  }

  function DoneStep(env: Env, s: State, fullText: string): State {
    Write(s.(finished := Finished(env, s, fullText)), Ending(env, s, fullText))
  }

  function ErrorStep(s: State, message: string): State {
    Write(s, [Delta("\n\n[ERROR: " + message + "]"), DoneMark])
  }

  // ---- The loop -----------------------------------------------------------------------------------------------

  /** `failed` says that streamErr is set. */
  datatype Loop = Loop(sink: State, fullText: string, failed: bool)

  predicate DropsPlans(env: Env) {
    env.profile == "model"
  }

  function ToolCallSink(env: Env, s: State, tc: ToolCall): State {
    if !env.clientTools then s
    else if !tc.native then CallsStep(env, s, [CallFrom(tc)])
    else if env.mapNative(tc) != [] then CallsStep(env, s, env.mapNative(tc))
    else NoteSuppressed(s, env.nativeCommand(tc))
  }

  function Step(env: Env, l: Loop, e: Event): Loop {
    match e
    case ContentDelta(text) => l.(fullText := l.fullText + text, sink := DeltaStep(env, l.sink, text))
    case ReasoningDelta(text) => l.(sink := ReasoningStep(env, l.sink, text))
    case ToolCallStart(tc) =>
      Loop(ToolCallSink(env, l.sink, tc), l.fullText, l.failed || (!env.clientTools && env.profile != "agent"))
    case Plan(text) =>
      if DropsPlans(env) then l
      else l.(fullText := l.fullText + text, sink := DeltaStep(env, l.sink, text))
    case Done(_) => l.(sink := DoneStep(env, l.sink, l.fullText))
    case Error(message) => l.(sink := ErrorStep(l.sink, message), failed := true)
    case _ => l
  }

  /** The loop's state after the events of the channel. */
  function After(env: Env, es: seq<Event>): Loop {
    if es == [] then Loop(START, "", false) else Step(env, After(env, es[..|es| - 1]), es[|es| - 1])
  }

  /** What the stream has sent when ProcessEventStream returns: `err` is what its read of ErrCh yields. */
  function Sent(env: Env, es: seq<Event>, err: Option<string>, stopped: bool): State {
    var l := After(env, es);
    if !l.failed && err.Some? && !stopped then ErrorStep(l.sink, err.value) else l.sink
  }

  lemma AfterSnoc(env: Env, es: seq<Event>, e: Event)
    ensures After(env, es + [e]) == Step(env, After(env, es), e)
  {
    assert (es + [e])[..|es|] == es;
  }

  class OpenAIChatSink {
    const env: Env
    var contentBuf: string
    var streamed: bool
    var contentHold: bool
    var finished: bool
    var toolCalls: seq<T.Call>
    var suppressedShell: string
    var written: seq<Chunk>

    function Contents(): State
      reads this
    {
      State(contentBuf, streamed, contentHold, finished, toolCalls, suppressedShell, written)
    }

    /** The writer's headers, and its role chunk with them. */
    constructor (env: Env)
      ensures this.env == env && Contents() == START
    {
      this.env := env;
      contentBuf, streamed, contentHold, finished, toolCalls, suppressedShell := "", false, false, false, [], "";
      written := [Role];
    }

    method OnContentDelta(text: string)
      modifies this
      ensures Contents() == DeltaStep(env, old(Contents()), text)
    {
      if env.clientTools {
        contentBuf := contentBuf + text;
        if env.afterToolResult {
          streamed := true;
          written := written + [Delta(text)];
          return;
        }
        if contentHold || env.looksPending(contentBuf) {
          contentHold := true;
          return;
        }
        streamed := true;
        written := written + [Delta(text)];
        return;
      }
      written := written + [Delta(text)];
    }

    method OnReasoningDelta(text: string)
      modifies this
      ensures Contents() == ReasoningStep(env, old(Contents()), text)
    {
      if env.clientTools && env.visibility in ["off", "hidden", "none"] {
        return;
      }
      if env.visibility in ["prefix", "content"] {
        written := written + [Delta(text)];
      } else {
        written := written + [Reasoning(text)];
      }
    }

    method OnClientToolCalls(calls: seq<T.Call>)
      modifies this
      ensures Contents() == CallsStep(env, old(Contents()), calls)
    {
      if !env.clientTools || calls == [] {
        return;
      }
      toolCalls := toolCalls + calls;
      finished := true;
      written := written + [Calls(calls)];
    }

    method NoteSuppressedNativeShell(command: string)
      modifies this
      ensures Contents() == NoteSuppressed(old(Contents()), command)
    {
      if S.Trim(command) != "" {
        suppressedShell := S.Trim(command);
      }
    }

    method WriteToolCallsAndFinish(calls: seq<T.Call>)
      modifies this
      ensures Contents() == Write(old(Contents()).(finished := true), [Calls(calls), Finish("tool_calls"), DoneMark])
    {
      written := written + [Calls(calls)];
      finished := true;
      written := written + [Finish("tool_calls"), DoneMark];
    }

    method OnDone(fullText: string)
      modifies this
      ensures Contents() == DoneStep(env, old(Contents()), fullText)
    {
      if env.clientTools {
        FinishTools(fullText);
      } else {
        written := written + [Finish("stop"), DoneMark];
      }
    }

    method FinishTools(fullText: string)
      requires env.clientTools
      modifies this
      ensures Contents() == DoneStep(env, old(Contents()), fullText)
    {
      if toolCalls != [] {
        finished := true;
        written := written + [Finish("tool_calls"), DoneMark];
        return;
      }
      var text := contentBuf;
      S.BlankTrimsAway(text);
      S.BlankTrimsAway(fullText);
      if S.Trim(text) == "" && S.Trim(fullText) != "" {
        text := fullText;
      }
      var calls := env.parse(text);
      if calls != [] {
        WriteToolCallsAndFinish(calls);
        return;
      }
      if !env.afterToolResult {
        calls := env.synthesize(text, suppressedShell);
        if calls != [] {
          WriteToolCallsAndFinish(calls);
          return;
        }
      }
      if env.afterToolResult {
        text := env.compose(text);
        calls := env.parse(text);
        if calls != [] {
          WriteToolCallsAndFinish(calls);
          return;
        }
      }
      FinishPlainText(text);
    }

    method FinishPlainText(text: string)
      modifies this
      ensures Contents()
           == Write(old(Contents()).(finished := old(finished) || text != ""), TextEnding(old(Contents()), text))
    {
      ghost var before := written;
      if text != "" && !streamed {
        written := written + [Delta(text)];
        finished := true;
      } else if text != "" {
        finished := true;
      }
      written := written + [Finish("stop"), DoneMark];
      assert written == before + TextEnding(old(Contents()), text);
    }

    method OnError(message: string)
      modifies this
      ensures Contents() == ErrorStep(old(Contents()), message)
    {
      written := written + [Delta("\n\n[ERROR: " + message + "]"), DoneMark];
    }
  }

  method ProcessToolCall(sink: OpenAIChatSink, tc: ToolCall) returns (blocked: bool)
    modifies sink
    ensures sink.Contents() == ToolCallSink(sink.env, old(sink.Contents()), tc)
    ensures blocked <==> !sink.env.clientTools && sink.env.profile != "agent"
  {
    blocked := false;
    if sink.env.clientTools {
      if tc.native {
        var mapped := sink.env.mapNative(tc);
        if mapped != [] {
          sink.OnClientToolCalls(mapped);
        } else {
          sink.NoteSuppressedNativeShell(sink.env.nativeCommand(tc));
        }
      } else {
        sink.OnClientToolCalls([CallFrom(tc)]);
      }
    } else if sink.env.profile != "agent" {
      blocked := true;
    }
  }

  method ProcessEvent(sink: OpenAIChatSink, e: Event, text: string, failing: bool)
    returns (fullText: string, failed: bool)
    modifies sink
    ensures Loop(sink.Contents(), fullText, failed) == Step(sink.env, Loop(old(sink.Contents()), text, failing), e)
  {
    fullText, failed := text, failing;
    match e {
      case ContentDelta(text) =>
        fullText := fullText + text;
        sink.OnContentDelta(text);
      case ReasoningDelta(text) =>
        sink.OnReasoningDelta(text);
      case ToolCallStart(tc) =>
        var blocked := ProcessToolCall(sink, tc);
        failed := failed || blocked;
      case Plan(text) =>
        if !DropsPlans(sink.env) {
          fullText := fullText + text;
          sink.OnContentDelta(text);
        }
      case Done(_) =>
        sink.OnDone(fullText);
      case Error(message) =>
        sink.OnError(message);
        failed := true;
      case _ =>
    }
  }

  /** Reads the events of a turn until the channel is closed, then the error channel. */
  method ProcessEventStream(sink: OpenAIChatSink, events: seq<Event>, err: Option<string>, stopped: bool)
    returns (fullText: string, failed: bool)
    requires sink.Contents() == START
    modifies sink
    ensures sink.Contents() == Sent(sink.env, events, err, stopped)
    ensures fullText == After(sink.env, events).fullText
    ensures failed <==> After(sink.env, events).failed || (err.Some? && !stopped)
  {
    fullText, failed := "", false;
    var env := sink.env;
    for i := 0 to |events|
      invariant Loop(sink.Contents(), fullText, failed) == After(env, events[..i])
    {
      AfterSnoc(env, events[..i], events[i]);
      assert events[..i + 1] == events[..i] + [events[i]];
      fullText, failed := ProcessEvent(sink, events[i], fullText, failed);
    }
    assert events[..|events|] == events;
    if !failed && err.Some? && !stopped {
      sink.OnError(err.value);
      failed := true;
    }
  }

  // ---- What the chunks say ------------------------------------------------------------------------------------

  function TextIn(c: Chunk): string {
    if c.Delta? then c.text else ""
  }

  /** The text that the client has received. */
  function Streamed(out: seq<Chunk>): string {
    if out == [] then "" else Streamed(out[..|out| - 1]) + TextIn(out[|out| - 1])
  }

  lemma StreamedSnoc(out: seq<Chunk>, c: Chunk)
    ensures Streamed(out + [c]) == Streamed(out) + TextIn(c)
  {
    assert (out + [c])[..|out|] == out;
  }

  function Marks(out: seq<Chunk>): nat {
    if out == [] then 0 else Marks(out[..|out| - 1]) + (if out[|out| - 1].DoneMark? then 1 else 0)
  }

  lemma MarksSnoc(out: seq<Chunk>, c: Chunk)
    ensures Marks(out + [c]) == Marks(out) + (if c.DoneMark? then 1 else 0)
  {
    assert (out + [c])[..|out|] == out;
  }

  predicate HasCalls(out: seq<Chunk>) {
    out != [] && (out[|out| - 1].Calls? || HasCalls(out[..|out| - 1]))
  }

  lemma HasCallsSnoc(out: seq<Chunk>, c: Chunk)
    ensures HasCalls(out + [c]) <==> HasCalls(out) || c.Calls?
  {
    assert (out + [c])[..|out|] == out;
  }

  function Reasons(out: seq<Chunk>): seq<string> {
    if out == [] then []
    else Reasons(out[..|out| - 1]) + (if out[|out| - 1].Finish? then [out[|out| - 1].reason] else [])
  }

  lemma ReasonsSnoc(out: seq<Chunk>, c: Chunk)
    ensures Reasons(out + [c]) == Reasons(out) + (if c.Finish? then [c.reason] else [])
  {
    assert (out + [c])[..|out|] == out;
  }

  /** One chunk that is neither the role nor the end. */
  predicate Inner(c: Chunk) {
    c.Delta? || c.Reasoning? || c.Calls?
  }

  predicate Quiet(e: Event) {
    !e.Done? && !e.Error?
  }

  predicate AllQuiet(es: seq<Event>) {
    forall i :: 0 <= i < |es| ==> Quiet(es[i])
  }

  /** From s to s1 one inner chunk was added at most, and calls exactly with a chunk of calls. */
  predicate AddsOne(env: Env, s: State, s1: State) {
    if |s1.out| == |s.out| then s1.out == s.out && s1.calls == s.calls
    else
      && |s1.out| == |s.out| + 1 && s1.out[..|s.out|] == s.out
      && var c := s1.out[|s.out|];
      && Inner(c)
      && s1.calls == s.calls + (if c.Calls? then c.calls else [])
      && (c.Calls? ==> c.calls != [] && env.clientTools)
  }

  lemma TextAdds(env: Env, s: State, text: string)
    ensures AddsOne(env, s, DeltaStep(env, s, text))
    ensures AddsOne(env, s, ReasoningStep(env, s, text))
  {
    assert s.calls + [] == s.calls;
  }

  lemma ToolCallAdds(env: Env, s: State, tc: ToolCall)
    ensures AddsOne(env, s, ToolCallSink(env, s, tc))
  {
  }

  lemma QuietAdds(env: Env, l: Loop, e: Event)
    requires Quiet(e)
    ensures AddsOne(env, l.sink, Step(env, l, e).sink)
  {
    match e
    case ContentDelta(text) => TextAdds(env, l.sink, text);
    case ReasoningDelta(text) => TextAdds(env, l.sink, text);
    case Plan(text) => TextAdds(env, l.sink, text);
    case ToolCallStart(tc) => ToolCallAdds(env, l.sink, tc);
    case _ =>
  }

  /** The final chunks: the finish and the mark, after one chunk of calls or of text at most. */
  predicate EndsWith(w: seq<Chunk>, reason: string) {
    || w == [Finish(reason), DoneMark]
    || (|w| == 3 && (w[0].Delta? || w[0].Calls?) && w[1] == Finish(reason) && w[2] == DoneMark)
  }

  function Reason(env: Env, s: State, fullText: string): string {
    var w := Ending(env, s, fullText);
    if w == [Finish("tool_calls"), DoneMark] || (|w| == 3 && w[0].Calls?) then "tool_calls" else "stop"
  }

  /** The end has the reason tool_calls exactly if there were calls or it adds some. */
  lemma DoneAdds(env: Env, s: State, fullText: string)
    ensures var w, reason := Ending(env, s, fullText), Reason(env, s, fullText);
      && EndsWith(w, reason)
      && (reason == "tool_calls" <==> (env.clientTools && s.calls != []) || (|w| == 3 && w[0].Calls?))
  {
  }

  // ---- The role comes first, and [DONE] once ------------------------------------------------------------------

  predicate RoleFirst(out: seq<Chunk>) {
    out != [] && out[0].Role? && forall i :: 1 <= i < |out| ==> !out[i].Role?
  }

  function Ends(es: seq<Event>): nat {
    if es == [] then 0 else Ends(es[..|es| - 1]) + (if Quiet(es[|es| - 1]) then 0 else 1)
  }

  lemma OneMore(env: Env, s: State, s1: State)
    requires AddsOne(env, s, s1)
    ensures Marks(s1.out) == Marks(s.out) && Reasons(s1.out) == Reasons(s.out)
    ensures RoleFirst(s.out) ==> RoleFirst(s1.out)
    ensures |s1.out| == |s.out| ==> Streamed(s1.out) == Streamed(s.out)
    ensures |s1.out| > |s.out| ==> Streamed(s1.out) == Streamed(s.out) + TextIn(s1.out[|s.out|])
  {
    if |s1.out| > |s.out| {
      var c := s1.out[|s.out|];
      assert s1.out == s.out + [c];
      MarksSnoc(s.out, c);
      ReasonsSnoc(s.out, c);
      StreamedSnoc(s.out, c);
      assert Reasons(s.out) + [] == Reasons(s.out);
    }
  }

  lemma TwoMore(out: seq<Chunk>, reason: string)
    ensures var o := out + [Finish(reason), DoneMark];
      Marks(o) == Marks(out) + 1 && Reasons(o) == Reasons(out) + [reason] && Streamed(o) == Streamed(out)
  {
    assert out + [Finish(reason), DoneMark] == out + [Finish(reason)] + [DoneMark];
    FinishMore(out, reason);
    DoneMore(out + [Finish(reason)]);
  }

  lemma FinishMore(out: seq<Chunk>, reason: string)
    ensures var o := out + [Finish(reason)];
      Marks(o) == Marks(out) && Reasons(o) == Reasons(out) + [reason] && Streamed(o) == Streamed(out)
  {
    MarksSnoc(out, Finish(reason));
    ReasonsSnoc(out, Finish(reason));
    StreamedSnoc(out, Finish(reason));
    assert Streamed(out) + "" == Streamed(out);
  }

  lemma DoneMore(out: seq<Chunk>)
    ensures var o := out + [DoneMark]; Marks(o) == Marks(out) + 1 && Reasons(o) == Reasons(out) && Streamed(o) == Streamed(out)
  {
    MarksSnoc(out, DoneMark);
    ReasonsSnoc(out, DoneMark);
    StreamedSnoc(out, DoneMark);
    assert Reasons(out) + [] == Reasons(out);
    assert Streamed(out) + "" == Streamed(out);
  }

  lemma EndingMarks(out: seq<Chunk>, w: seq<Chunk>, reason: string)
    requires EndsWith(w, reason)
    ensures Marks(out + w) == Marks(out) + 1
    ensures Reasons(out + w) == Reasons(out) + [reason]
    ensures Streamed(out + w) == Streamed(out) + (if |w| == 3 then TextIn(w[0]) else "")
    ensures RoleFirst(out) ==> RoleFirst(out + w)
  {
    if |w| == 3 {
      MarksSnoc(out, w[0]);
      ReasonsSnoc(out, w[0]);
      StreamedSnoc(out, w[0]);
      assert Reasons(out) + [] == Reasons(out);
      assert out + w == out + [w[0]] + [Finish(reason), DoneMark];
      TwoMore(out + [w[0]], reason);
    } else {
      TwoMore(out, reason);
    }
  }

  lemma ErrorMarks(s: State, message: string)
    ensures Marks(ErrorStep(s, message).out) == Marks(s.out) + 1
    ensures RoleFirst(s.out) ==> RoleFirst(ErrorStep(s, message).out)
  {
    var d := Delta("\n\n[ERROR: " + message + "]");
    MarksSnoc(s.out, d);
    MarksSnoc(s.out + [d], DoneMark);
    assert s.out + [d, DoneMark] == s.out + [d] + [DoneMark];
  }

  lemma MarksStep(env: Env, l: Loop, e: Event)
    requires RoleFirst(l.sink.out)
    ensures RoleFirst(Step(env, l, e).sink.out)
    ensures Marks(Step(env, l, e).sink.out) == Marks(l.sink.out) + (if Quiet(e) then 0 else 1)
  {
    if Quiet(e) {
      QuietAdds(env, l, e);
      OneMore(env, l.sink, Step(env, l, e).sink);
    } else if e.Done? {
      DoneAdds(env, l.sink, l.fullText);
      EndingMarks(l.sink.out, Ending(env, l.sink, l.fullText), Reason(env, l.sink, l.fullText));
    } else {
      ErrorMarks(l.sink, e.message);
    }
  }

  lemma {:induction false} MarksAfter(env: Env, es: seq<Event>)
    ensures RoleFirst(After(env, es).sink.out)
    ensures Marks(After(env, es).sink.out) == Ends(es)
  {
    if es == [] {
      MarksSnoc([], Role);
      assert [] + [Role] == [Role];
    } else {
      var n := |es| - 1;
      MarksAfter(env, es[..n]);
      MarksStep(env, After(env, es[..n]), es[n]);
    }
  }

  /** The role chunk comes first and only once; there is one [DONE] for each Done and each error that the stream
      reports: so at most one when a turn has at most one of them, and exactly one when it ends with Done. */
  lemma RoleFirstDoneOnce(env: Env, es: seq<Event>, err: Option<string>, stopped: bool)
    ensures RoleFirst(Sent(env, es, err, stopped).out)
    ensures Marks(Sent(env, es, err, stopped).out)
         == Ends(es) + (if !After(env, es).failed && err.Some? && !stopped then 1 else 0)
  {
    MarksAfter(env, es);
    if err.Some? {
      ErrorMarks(After(env, es).sink, err.value);
    }
  }

  // ---- The finish reason --------------------------------------------------------------------------------------

  ghost predicate CallsInv(env: Env, s: State) {
    && (HasCalls(s.out) <==> s.calls != [])
    && (s.calls != [] ==> env.clientTools)
    && Reasons(s.out) == []
  }

  lemma CallsOneMore(env: Env, s: State, s1: State)
    requires AddsOne(env, s, s1) && CallsInv(env, s)
    ensures CallsInv(env, s1)
  {
    OneMore(env, s, s1);
    if |s1.out| > |s.out| {
      LastAdded(s.out, s1.out);
      HasCallsSnoc(s.out, s1.out[|s.out|]);
      if !s1.out[|s.out|].Calls? {
        assert s.calls + [] == s.calls;
      }
    }
  }

  lemma LastAdded(out: seq<Chunk>, out1: seq<Chunk>)
    requires |out1| == |out| + 1 && out1[..|out|] == out
    ensures out1 == out + [out1[|out|]]
  {
  }

  lemma {:induction false} CallsAfter(env: Env, es: seq<Event>)
    requires AllQuiet(es)
    ensures CallsInv(env, After(env, es).sink)
  {
    if es == [] {
      ReasonsSnoc([], Role);
      HasCallsSnoc([], Role);
      assert [] + [Role] == [Role];
    } else {
      var l, e := After(env, es[..|es| - 1]), es[|es| - 1];
      CallsAfter(env, es[..|es| - 1]);
      QuietAdds(env, l, e);
      CallsOneMore(env, l.sink, Step(env, l, e).sink);
    }
  }

  lemma CallsAtEnd(out: seq<Chunk>, w: seq<Chunk>, reason: string)
    requires EndsWith(w, reason)
    ensures HasCalls(out + w) <==> HasCalls(out) || (|w| == 3 && w[0].Calls?)
  {
    var o := if |w| == 3 then out + [w[0]] else out;
    if |w| == 3 {
      HasCallsSnoc(out, w[0]);
    }
    assert out + w == o + [Finish(reason)] + [DoneMark];
    HasCallsSnoc(o, Finish(reason));
    HasCallsSnoc(o + [Finish(reason)], DoneMark);
  }

  lemma EndReason(env: Env, s: State, fullText: string)
    requires CallsInv(env, s)
    ensures var out := DoneStep(env, s, fullText).out;
      |Reasons(out)| == 1 && (Reasons(out)[0] == "tool_calls" <==> HasCalls(out))
  {
    var w, reason := Ending(env, s, fullText), Reason(env, s, fullText);
    DoneAdds(env, s, fullText);
    EndingMarks(s.out, w, reason);
    CallsAtEnd(s.out, w, reason);
    assert [] + [reason] == [reason];
  }

  /** The events that make a chunk of tool calls. */
  predicate AddsCalls(env: Env, e: Event) {
    env.clientTools && e.ToolCallStart? && (e.call.native ==> env.mapNative(e.call) != [])
  }

  predicate AnyAddsCalls(env: Env, es: seq<Event>) {
    es != [] && (AddsCalls(env, es[|es| - 1]) || AnyAddsCalls(env, es[..|es| - 1]))
  }

  lemma CallsStepSays(env: Env, l: Loop, e: Event)
    requires Quiet(e)
    ensures var l1 := Step(env, l, e);
      && AddsOne(env, l.sink, l1.sink)
      && (AddsCalls(env, e) <==> |l1.sink.out| == |l.sink.out| + 1 && l1.sink.out[|l.sink.out|].Calls?)
  {
    QuietAdds(env, l, e);
  }

  lemma QuietReasons(env: Env, l: Loop, e: Event)
    requires Quiet(e)
    ensures var out, out1 := l.sink.out, Step(env, l, e).sink.out;
      && Reasons(out1) == Reasons(out)
      && (HasCalls(out1) <==> HasCalls(out) || AddsCalls(env, e))
  {
    CallsStepSays(env, l, e);
    var s, s1 := l.sink, Step(env, l, e).sink;
    OneMore(env, s, s1);
    if |s1.out| > |s.out| {
      HasCallsSnoc(s.out, s1.out[|s.out|]);
      assert s1.out == s.out + [s1.out[|s.out|]];
    }
  }

  lemma GoesOnOne(env: Env, es: seq<Event>, more: seq<Event>, e: Event)
    requires Quiet(e)
    ensures var out, out1 := After(env, es + more).sink.out, After(env, es + (more + [e])).sink.out;
      && Reasons(out1) == Reasons(out)
      && (HasCalls(out1) <==> HasCalls(out) || AddsCalls(env, e))
  {
    assert es + (more + [e]) == (es + more) + [e];
    AfterSnoc(env, es + more, e);
    QuietReasons(env, After(env, es + more), e);
  }

  /** Going on reading changes no finish reason, and adds chunks of calls exactly with such events. */
  lemma {:induction false} ReasonsGoOn(env: Env, es: seq<Event>, more: seq<Event>)
    requires AllQuiet(more)
    ensures var out, out1 := After(env, es).sink.out, After(env, es + more).sink.out;
      && Reasons(out1) == Reasons(out)
      && (HasCalls(out1) <==> HasCalls(out) || AnyAddsCalls(env, more))
  {
    if more == [] {
      assert es + more == es;
    } else {
      ReasonsGoOn(env, es, more[..|more| - 1]);
      GoesOnOne(env, es, more[..|more| - 1], more[|more| - 1]);
      assert more[..|more| - 1] + [more[|more| - 1]] == more;
    }
  }

  /** One finish reason is given, at Done, and it is tool_calls exactly when a chunk of tool calls was written
      before the end or by it. The stream reads on behind Done, so over the whole run the two agree if and only if
      no event behind Done makes a chunk of calls or the reason was tool_calls anyway. */
  lemma FinishReasonIsToolCalls(env: Env, es: seq<Event>, stop: string, more: seq<Event>)
    requires AllQuiet(es) && AllQuiet(more)
    ensures var done := After(env, es + [Done(stop)]).sink.out;
      var out := After(env, es + [Done(stop)] + more).sink.out;
      && Reasons(out) == Reasons(done) && |Reasons(out)| == 1
      && (Reasons(out)[0] == "tool_calls" <==> HasCalls(done))
      && (HasCalls(out) <==> HasCalls(done) || AnyAddsCalls(env, more))
      && ((Reasons(out)[0] == "tool_calls" <==> HasCalls(out)) <==>
            Reasons(out)[0] == "tool_calls" || !AnyAddsCalls(env, more))
  {
    AfterSnoc(env, es, Done(stop));
    CallsAfter(env, es);
    EndReason(env, After(env, es).sink, After(env, es).fullText);
    ReasonsGoOn(env, es + [Done(stop)], more);
  }

  /** A tool call behind Done: it is written, but the client was told that the answer ended with "stop". */
  lemma LateCallsFinishAsStop(env: Env, stop: string, tc: ToolCall)
    requires env.clientTools && !env.afterToolResult && env.parse("") == [] && env.synthesize("", "") == []
    requires AddsCalls(env, ToolCallStart(tc))
    ensures var out := After(env, [Done(stop)] + [ToolCallStart(tc)]).sink.out;
      Reasons(out) == ["stop"] && HasCalls(out)
  {
    EmptyTurnStops(env, stop);
    AfterSnoc(env, [Done(stop)], ToolCallStart(tc));
    QuietReasons(env, After(env, [Done(stop)]), ToolCallStart(tc));
  }

  lemma EmptyTurnStops(env: Env, stop: string)
    requires env.clientTools && !env.afterToolResult && env.parse("") == [] && env.synthesize("", "") == []
    ensures Reasons(After(env, [Done(stop)]).sink.out) == ["stop"]
  {
    AfterOne(env, Done(stop));
    StopAtOnce(env);
    CallsAfter(env, []);
    TwoMore(START.out, "stop");
    assert [] + ["stop"] == ["stop"];
  }

  lemma AfterOne(env: Env, e: Event)
    ensures After(env, [e]) == Step(env, After(env, []), e)
  {
    assert [e][..0] == [];
  }

  lemma StopAtOnce(env: Env)
    requires env.clientTools && !env.afterToolResult && env.parse("") == [] && env.synthesize("", "") == []
    ensures DoneStep(env, START, "").out == START.out + [Finish("stop"), DoneMark]
  {
  }

  // ---- No text is lost, or exactly which ----------------------------------------------------------------------

  /** Client-tools mode, reasoning kept apart from the text, not after a tool result. */
  predicate ClientText(env: Env) {
    env.clientTools && !env.afterToolResult && env.visibility !in ["prefix", "content"]
  }

  /** The gateway's own recogniser takes nothing for nothing: GatewayIsDirect. */
  predicate Direct(env: Env) {
    ClientText(env) && !env.looksPending("")
  }

  predicate Begins(s: string, p: string) {
    |p| <= |s| && s[..|p|] == p
  }

  ghost predicate TextInv(env: Env, l: Loop) {
    var s := l.sink;
    && s.contentBuf == l.fullText
    && (!s.streamed ==> Streamed(s.out) == "")
    && (if s.hold then Begins(s.contentBuf, Streamed(s.out)) && Streamed(s.out) != s.contentBuf
        else Streamed(s.out) == s.contentBuf && !env.looksPending(s.contentBuf))
  }

  lemma TextDelta(env: Env, s: State, text: string, fullText: string)
    requires Direct(env) && TextInv(env, Loop(s, fullText, false))
    ensures TextInv(env, Loop(DeltaStep(env, s, text), fullText + text, false))
    ensures s.hold ==> DeltaStep(env, s, text).hold && DeltaStep(env, s, text).out == s.out
  {
    var s1 := DeltaStep(env, s, text);
    if s1.hold {
      if text == "" {
        assert s.contentBuf + "" == s.contentBuf;
      }
    } else {
      StreamedSnoc(s.out, Delta(text));
    }
  }

  /** From s to s1 nothing about the text changed. */
  predicate SameText(s: State, s1: State) {
    && s1.contentBuf == s.contentBuf && s1.hold == s.hold && s1.streamed == s.streamed
    && (|s1.out| > |s.out| ==> !s1.out[|s.out|].Delta?)
  }

  lemma ToolCallIsNoText(env: Env, s: State, tc: ToolCall)
    ensures SameText(s, ToolCallSink(env, s, tc))
  {
  }

  lemma ReasoningIsNoText(env: Env, s: State, text: string)
    requires env.visibility !in ["prefix", "content"]
    ensures SameText(s, ReasoningStep(env, s, text))
  {
  }

  /** An event that is no text adds no text. */
  lemma OtherText(env: Env, l: Loop, e: Event)
    requires Direct(env) && Quiet(e) && !e.ContentDelta? && !e.Plan?
    ensures Step(env, l, e).fullText == l.fullText && SameText(l.sink, Step(env, l, e).sink)
  {
    match e
    case ToolCallStart(tc) => ToolCallIsNoText(env, l.sink, tc);
    case ReasoningDelta(text) => ReasoningIsNoText(env, l.sink, text);
    case _ =>
  }

  lemma OtherKeepsText(env: Env, l: Loop, l1: Loop)
    requires AddsOne(env, l.sink, l1.sink) && TextInv(env, l)
    requires l1.fullText == l.fullText && SameText(l.sink, l1.sink)
    ensures TextInv(env, l1) && Streamed(l1.sink.out) == Streamed(l.sink.out)
  {
    OneMore(env, l.sink, l1.sink);
    assert Streamed(l.sink.out) + "" == Streamed(l.sink.out);
  }

  lemma TextStep(env: Env, l: Loop, e: Event)
    requires Direct(env) && Quiet(e) && TextInv(env, l)
    ensures TextInv(env, Step(env, l, e))
    ensures l.sink.hold ==> Step(env, l, e).sink.hold && Streamed(Step(env, l, e).sink.out) == Streamed(l.sink.out)
  {
    if e.ContentDelta? || (e.Plan? && !DropsPlans(env)) {
      TextDelta(env, l.sink, e.text, l.fullText);
    } else if !e.Plan? {
      QuietAdds(env, l, e);
      OtherText(env, l, e);
      OtherKeepsText(env, l, Step(env, l, e));
    }
  }

  lemma {:induction false} TextAfter(env: Env, es: seq<Event>)
    requires Direct(env) && AllQuiet(es)
    ensures TextInv(env, After(env, es))
  {
    if es == [] {
      StreamedSnoc([], Role);
      assert [] + [Role] == [Role];
    } else {
      TextAfter(env, es[..|es| - 1]);
      TextStep(env, After(env, es[..|es| - 1]), es[|es| - 1]);
    }
  }

  /** The streamed text is always a prefix of the buffered text, and all of it as long as nothing is held. */
  lemma StreamedIsPrefix(env: Env, es: seq<Event>)
    requires Direct(env) && AllQuiet(es)
    ensures var s := After(env, es).sink;
      && Begins(s.contentBuf, Streamed(s.out)) && s.contentBuf == After(env, es).fullText
      && (!s.hold <==> Streamed(s.out) == s.contentBuf)
  {
    TextAfter(env, es);
  }

  /** Holding is permanent and freezes what was streamed. */
  lemma {:induction false} HoldIsPermanent(env: Env, es: seq<Event>, more: seq<Event>)
    requires Direct(env) && AllQuiet(es + more) && After(env, es).sink.hold
    ensures var s := After(env, es + more).sink; s.hold && Streamed(s.out) == Streamed(After(env, es).sink.out)
  {
    if more == [] {
      assert es + more == es;
    } else {
      var n := |more| - 1;
      assert es + more == (es + more[..n]) + [more[n]];
      forall i | 0 <= i < |es| + n ensures Quiet((es + more[..n])[i]) {
        assert (es + more[..n])[i] == (es + more)[i];
      }
      HoldIsPermanent(env, es, more[..n]);
      assert Quiet((es + more)[|es| + n]);
      AfterSnoc(env, es + more[..n], more[n]);
      TextAfter(env, es + more[..n]);
      TextStep(env, After(env, es + more[..n]), more[n]);
    }
  }

  /** A finish without tool calls has delivered the whole buffer, once, unless holding began after something had been
      streamed; then the client keeps the part streamed before. */
  lemma FinishDeliversTheBuffer(env: Env, es: seq<Event>, stop: string)
    requires Direct(env) && AllQuiet(es)
    requires !HasCalls(After(env, es + [Done(stop)]).sink.out)
    ensures var s := After(env, es).sink;
      var end := After(env, es + [Done(stop)]).sink;
      && Streamed(end.out) == (if s.hold && s.streamed then Streamed(s.out) else s.contentBuf)
      && (Streamed(end.out) == s.contentBuf <==> !(s.hold && s.streamed))
  {
    var l := After(env, es);
    EndState(env, es, stop);
    BothAfter(env, es);
    EndStreams(env, l.sink, l.fullText);
    AddedText(env, l, Streamed(DoneStep(env, l.sink, l.fullText).out));
  }

  lemma BothAfter(env: Env, es: seq<Event>)
    requires Direct(env) && AllQuiet(es)
    ensures TextInv(env, After(env, es)) && CallsInv(env, After(env, es).sink)
  {
    TextAfter(env, es);
    CallsAfter(env, es);
  }

  lemma EndState(env: Env, es: seq<Event>, stop: string)
    ensures After(env, es + [Done(stop)]).sink == DoneStep(env, After(env, es).sink, After(env, es).fullText)
  {
    AfterSnoc(env, es, Done(stop));
  }

  /** The end without tool calls streams the buffer if nothing was streamed, and nothing otherwise. */
  lemma EndStreams(env: Env, s: State, fullText: string)
    requires Direct(env) && CallsInv(env, s) && s.contentBuf == fullText
    ensures var end := DoneStep(env, s, fullText);
      HasCalls(end.out) || Streamed(end.out) == Streamed(s.out) + (if s.streamed then "" else fullText)
  {
    var w, reason := Ending(env, s, fullText), Reason(env, s, fullText);
    DoneAdds(env, s, fullText);
    CallsAtEnd(s.out, w, reason);
    EndingMarks(s.out, w, reason);
    if s.calls == [] {
      FinishAdds(env, s, fullText);
    }
  }

  lemma AddedText(env: Env, l: Loop, streamed: string)
    requires TextInv(env, l)
    requires streamed == Streamed(l.sink.out) + (if l.sink.streamed then "" else l.fullText)
    ensures streamed == if l.sink.hold && l.sink.streamed then Streamed(l.sink.out) else l.sink.contentBuf
    ensures streamed == l.sink.contentBuf <==> !(l.sink.hold && l.sink.streamed)
  {
    assert Streamed(l.sink.out) + "" == Streamed(l.sink.out);
    assert "" + l.fullText == l.fullText;
  }

  /** Without tool calls the end adds the buffer if nothing was streamed, and nothing else. */
  lemma FinishAdds(env: Env, s: State, fullText: string)
    requires Direct(env) && s.contentBuf == fullText && s.calls == []
    ensures var w := Ending(env, s, fullText);
      || (|w| == 3 && w[0].Calls?)
      || (if |w| == 3 then TextIn(w[0]) else "") == (if s.streamed then "" else fullText)
  {
  }

  lemma PlainStep(env: Env, l: Loop, e: Event)
    requires !env.clientTools && env.visibility !in ["prefix", "content"] && Quiet(e)
    ensures var l1 := Step(env, l, e);
      if |l1.sink.out| == |l.sink.out| then l1.fullText == l.fullText
      else l1.fullText == l.fullText + TextIn(l1.sink.out[|l.sink.out|])
  {
    assert l.fullText + "" == l.fullText;
  }

  /** Without client tools, all text is streamed as it comes. */
  lemma {:induction false} PlainDelivers(env: Env, es: seq<Event>)
    requires !env.clientTools && env.visibility !in ["prefix", "content"] && AllQuiet(es)
    ensures Streamed(After(env, es).sink.out) == After(env, es).fullText
  {
    if es == [] {
      StreamedSnoc([], Role);
      assert [] + [Role] == [Role];
    } else {
      var l, e := After(env, es[..|es| - 1]), es[|es| - 1];
      PlainDelivers(env, es[..|es| - 1]);
      QuietAdds(env, l, e);
      PlainStep(env, l, e);
      OneMore(env, l.sink, Step(env, l, e).sink);
    }
  }

  /** The text that the loop accumulates is the answer of the events. */
  lemma {:induction false} FullTextIsTheAnswer(env: Env, es: seq<Event>)
    requires !DropsPlans(env)
    ensures After(env, es).fullText == FullText(es)
  {
    if es != [] {
      FullTextIsTheAnswer(env, es[..|es| - 1]);
    }
  }

  // ---- With the gateway's own recogniser and parser -----------------------------------------------------------

  /** Whatever text holds tool calls is recognised as pending. */
  ghost predicate Recognises(env: Env) {
    forall t :: env.parse(t) != [] ==> env.looksPending(t)
  }

  /** The stream as the gateway runs it. */
  function Gateway(env: Env, uuid: nat -> string): Env {
    env.(looksPending := (t: string) => T.LooksLikePendingToolCallsJSON(t, uuid),
         parse := (t: string) => T.ParseClientToolCalls(t, uuid))
  }

  lemma GatewayRecognises(env: Env, uuid: nat -> string)
    ensures Recognises(Gateway(env, uuid))
    ensures ClientText(env) ==> Direct(Gateway(env, uuid))
  {
    forall t | Gateway(env, uuid).parse(t) != [] ensures Gateway(env, uuid).looksPending(t) {
      T.ParsedLooksPending(t, uuid);
    }
    T.BlankIsNotPending("", uuid);
  }

  lemma NothingParsed(env: Env, uuid: nat -> string)
    ensures Gateway(env, uuid).parse("") == []
  {
    S.BlankTrimsAway("");
    T.NothingInBlank("", uuid);
  }

  lemma ParsedIsHeld(env: Env, es: seq<Event>)
    requires Recognises(env) && Direct(env) && AllQuiet(es)
    requires env.parse(After(env, es).sink.contentBuf) != []
    ensures var s := After(env, es).sink;
      s.hold && Begins(s.contentBuf, Streamed(s.out)) && Streamed(s.out) != s.contentBuf
  {
    TextAfter(env, es);
  }

  /** Tool calls that are parsed out of the buffer at the end were held: the client never received all of that
      text. */
  lemma ParsedCallsWereHeld(env: Env, uuid: nat -> string, es: seq<Event>)
    requires ClientText(env) && AllQuiet(es)
    requires T.ParseClientToolCalls(After(Gateway(env, uuid), es).sink.contentBuf, uuid) != []
    ensures var s := After(Gateway(env, uuid), es).sink;
      s.hold && Begins(s.contentBuf, Streamed(s.out)) && Streamed(s.out) != s.contentBuf
  {
    GatewayRecognises(env, uuid);
    ParsedIsHeld(Gateway(env, uuid), es);
  }

  /** Some white space, which is streamed; an opening brace, which is held; and the rest. */
  function ThreeDeltas(blank: string, rest: string): seq<Event> {
    [] + [ContentDelta(blank)] + [ContentDelta("{")] + [ContentDelta(rest)]
  }

  lemma StreamsAtFirst(env: Env, s: State, text: string)
    requires ClientText(env) && !s.hold && !env.looksPending(s.contentBuf + text)
    ensures DeltaStep(env, s, text) == s.(contentBuf := s.contentBuf + text, streamed := true, out := s.out + [Delta(text)])
  {
  }

  lemma HoldsFromHere(env: Env, s: State, text: string)
    requires ClientText(env) && (s.hold || env.looksPending(s.contentBuf + text))
    ensures DeltaStep(env, s, text) == s.(contentBuf := s.contentBuf + text, hold := true)
  {
  }

  /** The state of the sink after a part was streamed and the rest was held. */
  function HeldAfter(blank: string, text: string): State {
    START.(contentBuf := text, streamed := true, hold := true, out := START.out + [Delta(blank)])
  }

  lemma ThreeSteps(env: Env, blank: string, rest: string)
    requires ClientText(env) && !env.looksPending(blank) && env.looksPending(blank + "{")
    ensures AllQuiet(ThreeDeltas(blank, rest))
    ensures After(env, ThreeDeltas(blank, rest))
         == Loop(HeldAfter(blank, blank + "{" + rest), blank + "{" + rest, false)
  {
    var a, b := [] + [ContentDelta(blank)], [] + [ContentDelta(blank)] + [ContentDelta("{")];
    AfterSnoc(env, [], ContentDelta(blank));
    AfterSnoc(env, a, ContentDelta("{"));
    AfterSnoc(env, b, ContentDelta(rest));
    assert "" + blank == blank;
    StreamsAtFirst(env, START, blank);
    HoldsFromHere(env, After(env, a).sink, "{");
    HoldsFromHere(env, After(env, b).sink, rest);
  }

  /** An answer that is itself JSON, but no tool call, is lost when white space came before it, even an empty delta:
      the white space is streamed, the JSON is held, and nothing follows at the end. */
  lemma JsonAnswersAreLost(env: Env, uuid: nat -> string, blank: string, rest: string, v: J.Value, stop: string)
    requires ClientText(env) && S.Blank(blank)
    requires v.Obj? && J.WellFormed(v) && T.CallsIn(v) == [] && J.Print(v) == "{" + rest
    requires T.Tickless(J.Print(v)) && !S.Contains(J.Print(v), T.KEY)
    requires env.synthesize(blank + J.Print(v), "") == []
    ensures var end := After(Gateway(env, uuid), ThreeDeltas(blank, rest) + [Done(stop)]).sink;
      && end.contentBuf == blank + J.Print(v) && Streamed(end.out) == blank
      && !HasCalls(end.out) && Reasons(end.out) == ["stop"]
  {
    T.BlankIsNotPending(blank, uuid);
    T.OpenBraceIsPending(blank, uuid);
    T.OtherJsonHasNoCalls(blank, v, uuid);
    S.Regroup(blank, "{", rest);
    HeldIsLost(Gateway(env, uuid), blank, rest, stop);
  }

  lemma HeldIsLost(env: Env, blank: string, rest: string, stop: string)
    requires ClientText(env) && !env.looksPending(blank) && env.looksPending(blank + "{")
    requires env.parse(blank + "{" + rest) == [] && env.synthesize(blank + "{" + rest, "") == []
    ensures var end := After(env, ThreeDeltas(blank, rest) + [Done(stop)]).sink;
      && end.contentBuf == blank + "{" + rest && Streamed(end.out) == blank
      && !HasCalls(end.out) && Reasons(end.out) == ["stop"]
  {
    var s := HeldAfter(blank, blank + "{" + rest);
    ThreeSteps(env, blank, rest);
    EndState(env, ThreeDeltas(blank, rest), stop);
    HeldEnds(env, s, s.contentBuf);
    TwoMore(s.out, "stop");
    NoCallsAtStop(s.out);
    RoleAndText(START.out, blank);
    assert [] + ["stop"] == ["stop"];
  }

  lemma RoleAndText(out: seq<Chunk>, text: string)
    requires out == [Role]
    ensures var o := out + [Delta(text)]; Streamed(o) == text && Reasons(o) == [] && !HasCalls(o)
  {
    assert [] + [Role] == out;
    StreamedSnoc([], Role);
    ReasonsSnoc([], Role);
    HasCallsSnoc([], Role);
    StreamedSnoc(out, Delta(text));
    ReasonsSnoc(out, Delta(text));
    HasCallsSnoc(out, Delta(text));
    assert "" + text == text;
  }

  lemma HeldEnds(env: Env, s: State, fullText: string)
    requires ClientText(env) && s.calls == [] && s.streamed && s.contentBuf == fullText
    requires env.parse(fullText) == [] && env.synthesize(fullText, s.suppressed) == []
    ensures DoneStep(env, s, fullText).out == s.out + [Finish("stop"), DoneMark]
  {
  }

  lemma NoCallsAtStop(out: seq<Chunk>)
    ensures HasCalls(out + [Finish("stop"), DoneMark]) <==> HasCalls(out)
  {
    HasCallsSnoc(out, Finish("stop"));
    HasCallsSnoc(out + [Finish("stop")], DoneMark);
    assert out + [Finish("stop")] + [DoneMark] == out + [Finish("stop"), DoneMark];
  }

  /** For example the line end and the object of one number. */
  lemma {:induction false} SmallJsonAnswerIsLost(env: Env, uuid: nat -> string, stop: string)
    requires ClientText(env) && env.synthesize("\n{\"a\":1}", "") == []
    ensures var end := After(Gateway(env, uuid), ThreeDeltas("\n", "\"a\":1}") + [Done(stop)]).sink;
      end.contentBuf == "\n{\"a\":1}" && Streamed(end.out) == "\n"
  {
    var f := J.Field("a", J.Num("1"));
    OneNumber(f);
    assert "\n" + "{\"a\":1}" == "\n{\"a\":1}";
    JsonAnswersAreLost(env, uuid, "\n", "\"a\":1}", J.Obj([f]), stop);
  }

  lemma {:induction false} OneNumber(f: J.Field)
    requires f == J.Field("a", J.Num("1"))
    ensures J.Print(J.Obj([f])) == "{\"a\":1}" && J.WellFormed(J.Obj([f])) && T.CallsIn(J.Obj([f])) == []
    ensures T.Tickless(J.Print(J.Obj([f]))) && !S.Contains(J.Print(J.Obj([f])), T.KEY)
  {
    T.PlainQuote("a");
    T.SingleField(f);
    assert J.Digits("1"[1..]) == 0;
    assert J.NumberLen("1") == Some(1);
    T.OtherKeyHasNoCalls(f);
  }

  // ---- Everything the client gets -----------------------------------------------------------------------------

  /** The tool calls that the client has received. */
  function CallsIn(out: seq<Chunk>): seq<T.Call> {
    if out == [] then [] else CallsIn(out[..|out| - 1]) + (if out[|out| - 1].Calls? then out[|out| - 1].calls else [])
  }

  lemma CallsInSnoc(out: seq<Chunk>, c: Chunk)
    ensures CallsIn(out + [c]) == CallsIn(out) + (if c.Calls? then c.calls else [])
  {
    assert (out + [c])[..|out|] == out;
  }

  /** The calls that an event brings in client-tools mode: a native call of the agent as what it is mapped to, and any
      other with its own id, name (or else title) and arguments. */
  function BroughtBy(env: Env, e: Event): seq<T.Call> {
    if !e.ToolCallStart? then []
    else if e.call.native then env.mapNative(e.call)
    else [T.Call(e.call.id, "function", if e.call.name != "" then e.call.name else e.call.title,
                 if e.call.args != "" then e.call.args else "{}")]
  }

  function Brought(env: Env, es: seq<Event>): seq<T.Call> {
    if es == [] then [] else Brought(env, es[..|es| - 1]) + BroughtBy(env, es[|es| - 1])
  }

  /** The text that the events bring; plans are no text for the profile "model". */
  function TextBy(env: Env, e: Event): string {
    if e.ContentDelta? || (e.Plan? && env.profile != "model") then e.text else ""
  }

  function Text(env: Env, es: seq<Event>): string {
    if es == [] then "" else Text(env, es[..|es| - 1]) + TextBy(env, es[|es| - 1])
  }

  /** The command of the last native call that was not mapped to anything and had one. */
  function LastCommand(env: Env, es: seq<Event>): string {
    if es == [] then "" else
    var e := es[|es| - 1];
    if e.ToolCallStart? && e.call.native && env.mapNative(e.call) == [] && !S.Blank(env.nativeCommand(e.call))
    then S.Trim(env.nativeCommand(e.call))
    else LastCommand(env, es[..|es| - 1])
  }

  ghost predicate Account(env: Env, es: seq<Event>, l: Loop) {
    && l.sink.contentBuf == l.fullText == Text(env, es)
    && l.sink.calls == CallsIn(l.sink.out) == Brought(env, es)
    && l.sink.suppressed == LastCommand(env, es)
  }

  lemma OneMoreCalls(env: Env, s: State, s1: State)
    requires AddsOne(env, s, s1) && s.calls == CallsIn(s.out)
    ensures s1.calls == CallsIn(s1.out)
  {
    if |s1.out| > |s.out| {
      LastAdded(s.out, s1.out);
      CallsInSnoc(s.out, s1.out[|s.out|]);
    }
  }

  lemma CallsOfStep(env: Env, s: State, tc: ToolCall)
    requires env.clientTools
    ensures ToolCallSink(env, s, tc).calls == s.calls + BroughtBy(env, ToolCallStart(tc))
    ensures ToolCallSink(env, s, tc).contentBuf == s.contentBuf
    ensures ToolCallSink(env, s, tc).suppressed
         == if tc.native && env.mapNative(tc) == [] && !S.Blank(env.nativeCommand(tc)) then S.Trim(env.nativeCommand(tc))
            else s.suppressed
  {
    S.BlankTrimsAway(env.nativeCommand(tc));
    assert s.calls + [] == s.calls;
  }

  lemma TextOfStep(env: Env, s: State, text: string)
    requires env.clientTools
    ensures DeltaStep(env, s, text).contentBuf == s.contentBuf + text
    ensures DeltaStep(env, s, text).calls == s.calls && DeltaStep(env, s, text).suppressed == s.suppressed
    ensures var r := ReasoningStep(env, s, text);
      r.contentBuf == s.contentBuf && r.calls == s.calls && r.suppressed == s.suppressed
  {
  }

  lemma NoTextNoCalls(env: Env, es: seq<Event>, e: Event)
    requires !e.ToolCallStart?
    ensures Brought(env, es + [e]) == Brought(env, es) && LastCommand(env, es + [e]) == LastCommand(env, es)
    ensures TextBy(env, e) == "" ==> Text(env, es + [e]) == Text(env, es)
  {
    assert (es + [e])[..|es|] == es;
    assert Brought(env, es) + [] == Brought(env, es);
    assert Text(env, es) + "" == Text(env, es);
  }

  lemma AccountStep(env: Env, es: seq<Event>, l: Loop, e: Event)
    requires env.clientTools && Quiet(e) && Account(env, es, l)
    ensures Account(env, es + [e], Step(env, l, e))
  {
    QuietAdds(env, l, e);
    OneMoreCalls(env, l.sink, Step(env, l, e).sink);
    assert (es + [e])[..|es|] == es;
    match e
    case ToolCallStart(tc) =>
      CallsOfStep(env, l.sink, tc);
      assert Text(env, es) + "" == Text(env, es);
    case ContentDelta(text) =>
      TextOfStep(env, l.sink, text);
      NoTextNoCalls(env, es, e);
    case ReasoningDelta(text) =>
      TextOfStep(env, l.sink, text);
      NoTextNoCalls(env, es, e);
    case Plan(text) =>
      TextOfStep(env, l.sink, text);
      NoTextNoCalls(env, es, e);
    case _ => NoTextNoCalls(env, es, e);
  }

  lemma {:induction false} AccountAfter(env: Env, es: seq<Event>)
    requires env.clientTools && AllQuiet(es)
    ensures Account(env, es, After(env, es))
  {
    if es == [] {
      CallsInSnoc([], Role);
      assert [] + [Role] == [Role];
    } else {
      var n := |es| - 1;
      AccountAfter(env, es[..n]);
      AccountStep(env, es[..n], After(env, es[..n]), es[n]);
      assert es[..n] + [es[n]] == es;
    }
  }

  lemma TwoMoreCalls(out: seq<Chunk>, reason: string)
    ensures CallsIn(out + [Finish(reason), DoneMark]) == CallsIn(out)
  {
    CallsInSnoc(out, Finish(reason));
    CallsInSnoc(out + [Finish(reason)], DoneMark);
    assert out + [Finish(reason)] + [DoneMark] == out + [Finish(reason), DoneMark];
    assert CallsIn(out) + [] == CallsIn(out);
  }

  lemma EndingCalls(out: seq<Chunk>, w: seq<Chunk>, reason: string)
    requires EndsWith(w, reason)
    ensures CallsIn(out + w) == CallsIn(out) + (if |w| == 3 && w[0].Calls? then w[0].calls else [])
  {
    if |w| == 3 {
      CallsInSnoc(out, w[0]);
      assert out + w == out + [w[0]] + [Finish(reason), DoneMark];
      TwoMoreCalls(out + [w[0]], reason);
    } else {
      TwoMoreCalls(out, reason);
      assert CallsIn(out) + [] == CallsIn(out);
    }
  }

  /** The calls that the end takes from a text: those that parse out of it; if there are none, those made up for the
      command of a native call before a tool result, and those in the composed answer after one. */
  lemma EndCalls(env: Env, s: State, text: string)
    requires env.clientTools && s.contentBuf == text
    ensures var w := Ending(env, s, text);
      (if |w| == 3 && w[0].Calls? then w[0].calls else [])
      == if s.calls != [] then []
         else if env.parse(text) != [] then env.parse(text)
         else if env.afterToolResult then env.parse(env.compose(text))
         else env.synthesize(text, s.suppressed)
  {
  }

  /** All tool calls that the client receives of a turn, in order, over all its events and its end: what the events
      brought, if they brought any; else all that parses out of the text; else what is made up for a suppressed command,
      or, after a tool result, all that parses out of the composed answer. */
  lemma CallsTheClientGets(env: Env, es: seq<Event>, stop: string)
    requires env.clientTools && AllQuiet(es)
    ensures var text := Text(env, es);
      CallsIn(After(env, es + [Done(stop)]).sink.out)
      == if Brought(env, es) != [] then Brought(env, es)
         else if env.parse(text) != [] then env.parse(text)
         else if env.afterToolResult then env.parse(env.compose(text))
         else env.synthesize(text, LastCommand(env, es))
  {
    var l := After(env, es);
    AccountAfter(env, es);
    EndState(env, es, stop);
    DoneAdds(env, l.sink, l.fullText);
    EndingCalls(l.sink.out, Ending(env, l.sink, l.fullText), Reason(env, l.sink, l.fullText));
    EndCalls(env, l.sink, l.fullText);
    assert [] + CallsIn(l.sink.out) == CallsIn(l.sink.out) + [];
  }

  /** Without client tools the client receives no tool calls. */
  lemma NoCallsWithoutClientTools(env: Env, es: seq<Event>, stop: string)
    requires !env.clientTools && AllQuiet(es)
    ensures CallsIn(After(env, es + [Done(stop)]).sink.out) == []
  {
    var s := After(env, es).sink;
    CallsAfter(env, es);
    EndState(env, es, stop);
    NoChunkNoCalls(s.out);
    TwoMoreCalls(s.out, "stop");
  }

  lemma {:induction false} NoChunkNoCalls(out: seq<Chunk>)
    requires !HasCalls(out)
    ensures CallsIn(out) == []
  {
    if out != [] { NoChunkNoCalls(out[..|out| - 1]); }
  }

  // ---- All text, in every mode --------------------------------------------------------------------------------

  /** The thoughts that the client has received as such. */
  function ReasonedIn(out: seq<Chunk>): string {
    if out == [] then "" else ReasonedIn(out[..|out| - 1]) + (if out[|out| - 1].Reasoning? then out[|out| - 1].text else "")
  }

  lemma ReasonedSnoc(out: seq<Chunk>, c: Chunk)
    ensures ReasonedIn(out + [c]) == ReasonedIn(out) + (if c.Reasoning? then c.text else "")
  {
    assert (out + [c])[..|out|] == out;
  }

  /** Thoughts are part of the text, or are sent apart from it, or are dropped, as the gateway is set up. */
  datatype Showing = AsText | Apart | Dropped

  function Shows(env: Env): Showing {
    if env.visibility == "prefix" || env.visibility == "content" then AsText
    else if env.clientTools && (env.visibility == "off" || env.visibility == "hidden" || env.visibility == "none") then Dropped
    else Apart
  }

  /** The text of an event as the client is to see it. */
  function ShownBy(env: Env, e: Event): string {
    if e.ReasoningDelta? then (if Shows(env) == AsText then e.text else "") else TextBy(env, e)
  }

  function Shown(env: Env, es: seq<Event>): string {
    if es == [] then "" else Shown(env, es[..|es| - 1]) + ShownBy(env, es[|es| - 1])
  }

  /** An event that brings text, be it empty. */
  predicate IsText(env: Env, e: Event) {
    e.ContentDelta? || (e.Plan? && env.profile != "model")
  }

  predicate AnyText(env: Env, es: seq<Event>) {
    exists i :: 0 <= i < |es| && IsText(env, es[i])
  }

  predicate Through(env: Env) {
    !env.clientTools || env.afterToolResult
  }

  lemma NoThought(out: seq<Chunk>, c: Chunk)
    requires !c.Reasoning?
    ensures ReasonedIn(out + [c]) == ReasonedIn(out)
  {
    ReasonedSnoc(out, c);
    assert ReasonedIn(out) + "" == ReasonedIn(out);
  }

  lemma ThoughtIsShown(env: Env, s: State, text: string)
    ensures ReasoningStep(env, s, text)
         == match Shows(env)
            case AsText => Write(s, [Delta(text)])
            case Apart => Write(s, [Reasoning(text)])
            case Dropped => s
  {
    var v := env.visibility;
    if v == "prefix" {
      assert v[0] == 'p';
    } else if v == "content" {
      assert v[0] == 'c';
    }
  }

  lemma ThoughtSent(env: Env, s: State, text: string)
    ensures ReasonedIn(ReasoningStep(env, s, text).out) == ReasonedIn(s.out) + (if Shows(env) == Apart then text else "")
  {
    ThoughtIsShown(env, s, text);
    if Shows(env) == AsText {
      NoThought(s.out, Delta(text));
    } else if Shows(env) == Apart {
      ReasonedSnoc(s.out, Reasoning(text));
    }
    assert ReasonedIn(s.out) + "" == ReasonedIn(s.out);
  }

  lemma ToolCallNoThought(env: Env, s: State, tc: ToolCall)
    ensures ReasonedIn(ToolCallSink(env, s, tc).out) == ReasonedIn(s.out)
  {
    NoThought(s.out, Calls([CallFrom(tc)]));
    NoThought(s.out, Calls(env.mapNative(tc)));
  }

  lemma DeltaNoThought(env: Env, s: State, text: string)
    ensures ReasonedIn(DeltaStep(env, s, text).out) == ReasonedIn(s.out)
  {
    NoThought(s.out, Delta(text));
  }

  lemma ThoughtStep(env: Env, l: Loop, e: Event)
    requires Quiet(e)
    ensures ReasonedIn(Step(env, l, e).sink.out)
         == ReasonedIn(l.sink.out) + (if Shows(env) == Apart then ThoughtOf(e) else "")
  {
    assert ReasonedIn(l.sink.out) + "" == ReasonedIn(l.sink.out);
    match e
    case ContentDelta(text) => DeltaNoThought(env, l.sink, text);
    case Plan(text) => DeltaNoThought(env, l.sink, text);
    case ReasoningDelta(text) => ThoughtSent(env, l.sink, text);
    case ToolCallStart(tc) => ToolCallNoThought(env, l.sink, tc);
    case _ =>
  }

  /** The thoughts reach the client whole and in order, if they are to be sent apart from the text, and not at all
      otherwise. */
  lemma {:induction false} ThoughtsTheClientGets(env: Env, es: seq<Event>)
    requires AllQuiet(es)
    ensures ReasonedIn(After(env, es).sink.out) == if Shows(env) == Apart then Thoughts(es) else ""
  {
    if es == [] {
      ReasonedSnoc([], Role);
      assert [] + [Role] == [Role];
    } else {
      var n := |es| - 1;
      ThoughtsTheClientGets(env, es[..n]);
      ThoughtStep(env, After(env, es[..n]), es[n]);
    }
  }

  lemma DeltaGoesThrough(env: Env, s: State, text: string)
    requires Through(env)
    ensures Streamed(DeltaStep(env, s, text).out) == Streamed(s.out) + text
    ensures DeltaStep(env, s, text).streamed == (s.streamed || env.clientTools)
  {
    StreamedSnoc(s.out, Delta(text));
  }

  lemma ThoughtGoesThrough(env: Env, s: State, text: string)
    ensures Streamed(ReasoningStep(env, s, text).out) == Streamed(s.out) + (if Shows(env) == AsText then text else "")
    ensures ReasoningStep(env, s, text).streamed == s.streamed
  {
    ThoughtIsShown(env, s, text);
    if Shows(env) == AsText {
      StreamedSnoc(s.out, Delta(text));
    } else if Shows(env) == Apart {
      StreamedSnoc(s.out, Reasoning(text));
    }
    assert Streamed(s.out) + "" == Streamed(s.out);
  }

  lemma ToolCallIsSilent(env: Env, s: State, tc: ToolCall)
    ensures Streamed(ToolCallSink(env, s, tc).out) == Streamed(s.out)
    ensures ToolCallSink(env, s, tc).streamed == s.streamed
  {
    ToolCallAdds(env, s, tc);
    ToolCallIsNoText(env, s, tc);
    OneMore(env, s, ToolCallSink(env, s, tc));
    assert Streamed(s.out) + "" == Streamed(s.out);
  }

  lemma ThroughStep(env: Env, l: Loop, e: Event)
    requires Through(env) && Quiet(e)
    ensures var s, s1 := l.sink, Step(env, l, e).sink;
      && Streamed(s1.out) == Streamed(s.out) + ShownBy(env, e)
      && (env.clientTools ==> (s1.streamed <==> s.streamed || IsText(env, e)))
  {
    assert Streamed(l.sink.out) + "" == Streamed(l.sink.out);
    match e
    case ContentDelta(text) => DeltaGoesThrough(env, l.sink, text);
    case Plan(text) => DeltaGoesThrough(env, l.sink, text);
    case ReasoningDelta(text) => ThoughtGoesThrough(env, l.sink, text);
    case ToolCallStart(tc) => ToolCallIsSilent(env, l.sink, tc);
    case _ =>
  }

  lemma AnyTextSnoc(env: Env, es: seq<Event>, e: Event)
    ensures AnyText(env, es + [e]) <==> AnyText(env, es) || IsText(env, e)
  {
    var all := es + [e];
    assert all[|es|] == e;
    if AnyText(env, es) {
      var i :| 0 <= i < |es| && IsText(env, es[i]);
      assert IsText(env, all[i]);
    }
  }

  /** Without client tools, and behind a tool result, text reaches the client as it comes: at every moment it has all of
      it, in order. */
  lemma {:induction false} TextGoesThrough(env: Env, es: seq<Event>)
    requires Through(env) && AllQuiet(es)
    ensures Streamed(After(env, es).sink.out) == Shown(env, es)
    ensures env.clientTools ==> (After(env, es).sink.streamed <==> AnyText(env, es))
  {
    if es == [] {
      StreamedSnoc([], Role);
      assert [] + [Role] == [Role];
    } else {
      var before, e := es[..|es| - 1], es[|es| - 1];
      assert es == before + [e];
      TextGoesThrough(env, before);
      ThroughStep(env, After(env, before), e);
      AnyTextSnoc(env, before, e);
    }
  }

  lemma ResultEnds(env: Env, s: State, text: string)
    requires env.clientTools && env.afterToolResult && s.contentBuf == text
    ensures var w := Ending(env, s, text);
      (if |w| == 3 then TextIn(w[0]) else "")
      == if s.streamed || s.calls != [] || env.parse(text) != [] || env.parse(env.compose(text)) != [] then ""
         else env.compose(text)
  {
  }

  /** Behind a tool result the whole turn: the client has received all text, and if there was none and no tool calls
      either, the answer composed out of the tool's result. Tool calls that the model wrote as text have gone through as
      text, too. */
  lemma TextBehindAToolResult(env: Env, es: seq<Event>, stop: string)
    requires env.clientTools && env.afterToolResult && AllQuiet(es)
    ensures var end := After(env, es + [Done(stop)]).sink.out;
      Streamed(end) == Shown(env, es) + (if AnyText(env, es) || CallsIn(end) != [] then "" else env.compose(""))
  {
    var l := After(env, es);
    AccountAfter(env, es);
    TextGoesThrough(env, es);
    CallsTheClientGets(env, es, stop);
    EndState(env, es, stop);
    DoneAdds(env, l.sink, l.fullText);
    EndingMarks(l.sink.out, Ending(env, l.sink, l.fullText), Reason(env, l.sink, l.fullText));
    ResultEnds(env, l.sink, l.fullText);
    if !AnyText(env, es) { NoTextIsEmpty(env, es); }
  }

  lemma {:induction false} NoTextIsEmpty(env: Env, es: seq<Event>)
    requires !AnyText(env, es)
    ensures Text(env, es) == ""
  {
    if es != [] {
      var n := |es| - 1;
      AnyTextSnoc(env, es[..n], es[n]);
      assert es[..n] + [es[n]] == es;
      NoTextIsEmpty(env, es[..n]);
    }
  }

  /** Without client tools the whole turn. */
  lemma TextWithoutClientTools(env: Env, es: seq<Event>, stop: string)
    requires !env.clientTools && AllQuiet(es)
    ensures Streamed(After(env, es + [Done(stop)]).sink.out) == Shown(env, es)
  {
    TextGoesThrough(env, es);
    EndState(env, es, stop);
    TwoMore(After(env, es).sink.out, "stop");
  }

  /** The agent reports no error. */
  predicate NoErrors(es: seq<Event>) {
    forall i :: 0 <= i < |es| ==> !es[i].Error?
  }

  lemma PlainTextStep(env: Env, l: Loop, e: Event)
    requires !env.clientTools && env.profile != "model" && Shows(env) != AsText && !e.Error?
    ensures Streamed(Step(env, l, e).sink.out) == Streamed(l.sink.out) + TextOf(e)
  {
    if e.Done? {
      TwoMore(l.sink.out, "stop");
      assert Streamed(l.sink.out) + "" == Streamed(l.sink.out);
    } else {
      ThroughStep(env, l, e);
    }
  }

  /** Without client tools: the text of all events, those behind Done included, plans and message chunks alike. */
  lemma {:induction false} PlainText(env: Env, es: seq<Event>)
    requires !env.clientTools && env.profile != "model" && Shows(env) != AsText && NoErrors(es)
    ensures Streamed(After(env, es).sink.out) == FullText(es)
  {
    if es == [] {
      StreamedSnoc([], Role);
      assert [] + [Role] == [Role];
    } else {
      PlainText(env, es[..|es| - 1]);
      PlainTextStep(env, After(env, es[..|es| - 1]), es[|es| - 1]);
    }
  }

  // ---- Failures -----------------------------------------------------------------------------------------------

  lemma ErrorText(s: State, message: string)
    ensures Streamed(ErrorStep(s, message).out) == Streamed(s.out) + ("\n\n[ERROR: " + message + "]")
  {
    var d := Delta("\n\n[ERROR: " + message + "]");
    StreamedSnoc(s.out, d);
    StreamedSnoc(s.out + [d], DoneMark);
    assert s.out + [d, DoneMark] == s.out + [d] + [DoneMark];
    assert Streamed(s.out + [d]) + "" == Streamed(s.out + [d]);
  }

  /** The stream has failed exactly if the agent reported an error, or called a tool of its own where none is allowed. */
  predicate Fails(env: Env, e: Event) {
    e.Error? || (e.ToolCallStart? && !env.clientTools && env.profile != "agent")
  }

  lemma {:induction false} FailedExactlyWhen(env: Env, es: seq<Event>)
    ensures After(env, es).failed <==> exists i :: 0 <= i < |es| && Fails(env, es[i])
  {
    if es != [] {
      var n := |es| - 1;
      FailedExactlyWhen(env, es[..n]);
      if After(env, es[..n]).failed {
        var i :| 0 <= i < n && Fails(env, es[..n][i]);
        assert Fails(env, es[i]);
      } else {
        assert forall i :: 0 <= i < n ==> es[i] == es[..n][i];
      }
    }
  }

  /** What the error channel yields reaches the client as text exactly if the client is there and nothing has failed
      before. */
  lemma ErrorReachesTheText(env: Env, es: seq<Event>, err: Option<string>, stopped: bool)
    ensures Streamed(Sent(env, es, err, stopped).out)
         == if err.Some? && !stopped && (forall i :: 0 <= i < |es| ==> !Fails(env, es[i]))
            then Streamed(After(env, es).sink.out) + ("\n\n[ERROR: " + err.value + "]")
            else Streamed(After(env, es).sink.out)
  {
    FailedExactlyWhen(env, es);
    if err.Some? { ErrorText(After(env, es).sink, err.value); }
  }

  // ---- Before a tool result, what is held and what is not, by the events alone --------------------------------

  /** How many of the events go by before the text that they bring looks pending. */
  function Free(env: Env, es: seq<Event>): (n: nat)
    ensures n <= |es|
  {
    if es == [] then 0 else
    var n := Free(env, es[..|es| - 1]);
    if n < |es| - 1 || env.looksPending(Text(env, es)) then n else |es|
  }

  ghost predicate FreeText(env: Env, es: seq<Event>, s: State) {
    var n := Free(env, es);
    && (s.hold <==> n < |es|)
    && Streamed(s.out) == Text(env, es[..n])
    && (s.streamed <==> AnyText(env, es[..n]))
  }

  lemma FreeSnoc(env: Env, es: seq<Event>, e: Event)
    ensures var n := Free(env, es);
      Free(env, es + [e]) == if n < |es| || env.looksPending(Text(env, es) + TextBy(env, e)) then n else |es| + 1
  {
    assert (es + [e])[..|es|] == es;
  }

  lemma DirectStep(env: Env, l: Loop, e: Event)
    requires Direct(env) && Quiet(e)
    ensures var s, s1 := l.sink, Step(env, l, e).sink;
      if IsText(env, e) then
        if s.hold || env.looksPending(s.contentBuf + TextBy(env, e))
        then s1.hold && s1.streamed == s.streamed && Streamed(s1.out) == Streamed(s.out)
        else !s1.hold && s1.streamed && Streamed(s1.out) == Streamed(s.out) + TextBy(env, e)
      else s1.hold == s.hold && s1.streamed == s.streamed && Streamed(s1.out) == Streamed(s.out) && TextBy(env, e) == ""
  {
    var s, s1 := l.sink, Step(env, l, e).sink;
    QuietAdds(env, l, e);
    OneMore(env, s, s1);
    assert Streamed(s.out) + "" == Streamed(s.out);
    if !IsText(env, e) && !e.Plan? { OtherText(env, l, e); }
  }

  lemma FreeHeld(env: Env, es: seq<Event>, e: Event, all: seq<Event>, s: State, s1: State)
    requires all == es + [e] && FreeText(env, es, s) && Free(env, all) <= |es|
    requires s1.hold && s1.streamed == s.streamed && Streamed(s1.out) == Streamed(s.out)
    ensures FreeText(env, all, s1)
  {
    FreeSnoc(env, es, e);
    var n := Free(env, es);
    assert all[..n] == es[..n];
  }

  lemma FreeWhole(env: Env, es: seq<Event>, s: State)
    requires Free(env, es) == |es|
    ensures FreeText(env, es, s) <==> !s.hold && Streamed(s.out) == Text(env, es) && (s.streamed <==> AnyText(env, es))
  {
    assert es[..|es|] == es;
  }

  lemma FreeGoesOn(env: Env, es: seq<Event>, e: Event, all: seq<Event>, s: State, s1: State)
    requires all == es + [e] && FreeText(env, es, s) && Free(env, all) == |all|
    requires !s1.hold && (s1.streamed <==> s.streamed || IsText(env, e))
    requires Streamed(s1.out) == Streamed(s.out) + TextBy(env, e)
    ensures FreeText(env, all, s1)
  {
    FreeSnoc(env, es, e);
    AnyTextSnoc(env, es, e);
    FreeWhole(env, es, s);
    FreeWhole(env, all, s1);
    assert all[..|all| - 1] == es;
  }

  lemma FreeStep(env: Env, es: seq<Event>, l: Loop, e: Event, all: seq<Event>)
    requires all == es + [e]
    requires Direct(env) && Quiet(e) && l.sink.contentBuf == Text(env, es) && FreeText(env, es, l.sink)
    requires Free(env, es) == |es| ==> !env.looksPending(Text(env, es))
    ensures FreeText(env, all, Step(env, l, e).sink)
    ensures Free(env, all) == |all| ==> !env.looksPending(Text(env, all))
  {
    FreeSnoc(env, es, e);
    DirectStep(env, l, e);
    assert all[..|all| - 1] == es;
    assert Text(env, es) + "" == Text(env, es);
    assert Streamed(l.sink.out) + "" == Streamed(l.sink.out);
    if Free(env, all) <= |es| {
      FreeHeld(env, es, e, all, l.sink, Step(env, l, e).sink);
    } else {
      FreeGoesOn(env, es, e, all, l.sink, Step(env, l, e).sink);
    }
  }

  lemma {:induction false} FreeAfter(env: Env, es: seq<Event>)
    requires Direct(env) && AllQuiet(es)
    ensures FreeText(env, es, After(env, es).sink)
    ensures Free(env, es) == |es| ==> !env.looksPending(Text(env, es))
  {
    if es == [] {
      StreamedSnoc([], Role);
      assert [] + [Role] == [Role];
    } else {
      var before, e := es[..|es| - 1], es[|es| - 1];
      assert es == before + [e];
      FreeAfter(env, before);
      AccountAfter(env, before);
      FreeStep(env, before, After(env, before), e, es);
    }
  }

  /** Before a tool result, the text of the whole turn: what came before the text looked pending; and at the end all of
      it, if there are no tool calls and nothing had been sent yet. */
  lemma TextTheClientGets(env: Env, es: seq<Event>, stop: string)
    requires Direct(env) && AllQuiet(es)
    ensures var end := After(env, es + [Done(stop)]).sink.out;
      var free := es[..Free(env, es)];
      && Streamed(After(env, es).sink.out) == Text(env, free)
      && Streamed(end) == if CallsIn(end) != [] || AnyText(env, free) then Text(env, free) else Text(env, es)
  {
    var l := After(env, es);
    AccountAfter(env, es);
    FreeAfter(env, es);
    if !AnyText(env, es[..Free(env, es)]) { NoTextIsEmpty(env, es[..Free(env, es)]); }
    EndState(env, es, stop);
    EndTexts(env, l.sink, l.fullText);
    CallsTheClientGets(env, es, stop);
  }

  /** The text and the calls of the last chunks. */
  lemma EndingBoth(env: Env, s: State, text: string)
    ensures var w := Ending(env, s, text);
      && Streamed(s.out + w) == Streamed(s.out) + (if |w| == 3 then TextIn(w[0]) else "")
      && CallsIn(s.out + w) == CallsIn(s.out) + (if |w| == 3 && w[0].Calls? then w[0].calls else [])
  {
    DoneAdds(env, s, text);
    EndingMarks(s.out, Ending(env, s, text), Reason(env, s, text));
    EndingCalls(s.out, Ending(env, s, text), Reason(env, s, text));
  }

  /** There are calls in the end exactly if there were some or the end takes some. */
  lemma CallsInTheEnd(env: Env, s: State, text: string)
    requires Direct(env) && s.contentBuf == text && s.calls == CallsIn(s.out)
    ensures CallsIn(DoneStep(env, s, text).out) != [] <==>
      s.calls != [] || env.parse(text) != [] || env.synthesize(text, s.suppressed) != []
  {
    EndingBoth(env, s, text);
    EndCalls(env, s, text);
  }

  lemma EndTexts(env: Env, s: State, text: string)
    requires Direct(env) && s.contentBuf == text && s.calls == CallsIn(s.out) && (!s.streamed ==> Streamed(s.out) == "")
    ensures var out := DoneStep(env, s, text).out;
      Streamed(out) == if CallsIn(out) != [] || s.streamed then Streamed(s.out) else text
  {
    CallsInTheEnd(env, s, text);
    EndingBoth(env, s, text);
    EndText(env, s, text);
    assert Streamed(s.out) + "" == Streamed(s.out) && "" + text == text;
  }

  lemma EndText(env: Env, s: State, text: string)
    requires Direct(env) && s.contentBuf == text
    ensures var w := Ending(env, s, text);
      (if |w| == 3 then TextIn(w[0]) else "")
      == if s.calls != [] || env.parse(text) != [] || env.synthesize(text, s.suppressed) != [] || s.streamed then "" else text
  {
  }

  // ---- The same for the gateway's own parser ------------------------------------------------------------------

  /** As long as no beginning of the text looks pending, every event goes by. */
  lemma {:induction false} AllFree(env: Env, es: seq<Event>)
    requires forall n :: 0 < n <= |es| ==> !env.looksPending(Text(env, es[..n]))
    ensures Free(env, es) == |es|
  {
    if es != [] {
      var n := |es| - 1;
      forall k | 0 < k <= n ensures !env.looksPending(Text(env, es[..n][..k])) {
        assert es[..n][..k] == es[..k];
      }
      AllFree(env, es[..n]);
      assert es[..|es|] == es;
    }
  }

  lemma {:induction false} TextBegins(env: Env, es: seq<Event>, n: nat)
    requires n <= |es|
    ensures Begins(Text(env, es), Text(env, es[..n]))
  {
    if n < |es| {
      var k := |es| - 1;
      TextBegins(env, es[..k], n);
      assert es[..k][..n] == es[..n];
    } else {
      assert es[..n] == es;
    }
  }

  /** An answer that is ordinary prose is sent as it comes, in whatever pieces: at every moment the client has all text
      there is. */
  lemma ProseIsStreamedAtOnce(env: Env, uuid: nat -> string, es: seq<Event>)
    requires ClientText(env) && AllQuiet(es) && T.Prosaic(Text(env, es))
    ensures Streamed(After(Gateway(env, uuid), es).sink.out) == Text(env, es)
    ensures !After(Gateway(env, uuid), es).sink.hold
  {
    var g := Gateway(env, uuid);
    GatewayRecognises(env, uuid);
    GatewayText(env, uuid, es);
    forall n | 0 < n <= |es| ensures !g.looksPending(Text(g, es[..n])) {
      TextBegins(g, es, n);
      T.ProseBegins(Text(g, es), |Text(g, es[..n])|);
      T.ProseIsNotHeld(Text(g, es[..n]), uuid);
    }
    AllFree(g, es);
    FreeAfter(g, es);
    assert es[..|es|] == es;
  }

  lemma {:induction false} GatewayText(env: Env, uuid: nat -> string, es: seq<Event>)
    ensures Text(Gateway(env, uuid), es) == Text(env, es) && Brought(Gateway(env, uuid), es) == Brought(env, es)
  {
    if es != [] { GatewayText(env, uuid, es[..|es| - 1]); }
  }

  lemma {:induction false} FreeIsNotPending(env: Env, es: seq<Event>)
    requires !env.looksPending("")
    ensures !env.looksPending(Text(env, es[..Free(env, es)]))
  {
    if es != [] {
      var n := |es| - 1;
      FreeIsNotPending(env, es[..n]);
      assert es[..|es|] == es;
      var m := Free(env, es[..n]);
      assert es[..n][..m] == es[..m];
    }
  }

  /** A model that writes a printed list of calls, in whatever pieces: the client receives the calls, normalised, and
      not one character of the list. */
  lemma {:induction false} PrintedCallsReachTheClient(
    env: Env, uuid: nat -> string, es: seq<Event>, stop: string, calls: seq<T.Call>)
    requires ClientText(env) && AllQuiet(es) && Brought(env, es) == []
    requires Text(env, es) == T.Printed(calls) && T.FencedCalls(T.Printed(calls)) == []
    requires exists i :: 0 <= i < |calls| && calls[i].name != ""
    ensures var end := After(Gateway(env, uuid), es + [Done(stop)]).sink.out;
      CallsIn(end) == T.Normalized(calls, uuid) && CallsIn(end) != [] && Streamed(end) == ""
  {
    var g := Gateway(env, uuid);
    GatewayRecognises(env, uuid);
    GatewayText(env, uuid, es);
    T.PrintedTight(calls);
    T.PrintedParses(calls);
    T.WholeTextFound(T.Printed(calls), calls);
    var at := T.NormalizedFields(calls, uuid);
    CallsTheClientGets(g, es, stop);
    TextTheClientGets(g, es, stop);
    NothingFree(g, uuid, es, calls);
  }

  lemma {:induction false} NothingFree(g: Env, uuid: nat -> string, es: seq<Event>, calls: seq<T.Call>)
    requires Direct(g) && Text(g, es) == T.Printed(calls)
    requires forall t :: g.looksPending(t) <==> T.LooksLikePendingToolCallsJSON(t, uuid)
    ensures Text(g, es[..Free(g, es)]) == ""
  {
    FreeIsNotPending(g, es);
    TextBegins(g, es, Free(g, es));
    var n := |Text(g, es[..Free(g, es)])|;
    if n > 0 { T.PrintedIsHeldFromTheStart(calls, n, uuid); }
  }

  // ---- The synchronous answer ---------------------------------------------------------------------------------

  datatype SyncResult = Answer(text: string) | Failure(text: string, message: string)

  predicate Own(tc: ToolCall, clientTools: bool) {
    !(clientTools && tc.native)
  }

  /** The tool calls that RunSync collects: in client-tools mode, without the agent's native ones. */
  function OwnCalls(es: seq<Event>, clientTools: bool): seq<ToolCall> {
    if es == [] then [] else
    var e := es[|es| - 1];
    OwnCalls(es[..|es| - 1], clientTools) + (if e.ToolCallStart? && Own(e.call, clientTools) then [e.call] else [])
  }

  function FirstEnd(es: seq<Event>): (n: nat)
    ensures n <= |es| && AllQuiet(es[..n])
    ensures n < |es| ==> !Quiet(es[n])
  {
    if es == [] || !Quiet(es[0]) then 0 else
      var n := 1 + FirstEnd(es[1..]);
      assert es[..n] == [es[0]] + es[1..][..n - 1];
      n
  }

  function Collected(es: seq<Event>, clientTools: bool): string {
    var calls := OwnCalls(es, clientTools);
    if calls != [] && clientTools then T.Printed(T.CallsOf(calls)) else FullText(es)
  }

  /** What RunSync returns for a turn with these events: `err` is what its look at ErrCh yields. */
  function SyncAnswer(es: seq<Event>, err: Option<string>, clientTools: bool): SyncResult {
    var n := FirstEnd(es);
    var heard := es[..n];
    if n < |es| && es[n].Error? then Failure(FullText(heard), es[n].message)
    else if n == |es| && err.Some? && FullText(heard) == "" && OwnCalls(heard, clientTools) == []
    then Failure("", err.value)
    else Answer(Collected(heard, clientTools))
  }

  method RunSync(events: seq<Event>, err: Option<string>, clientTools: bool) returns (r: SyncResult)
    ensures r == SyncAnswer(events, err, clientTools)
  {
    var buf: string, toolCalls: seq<ToolCall> := "", [];
    var i := 0;
    while i < |events|
      invariant i <= |events| && AllQuiet(events[..i])
      invariant buf == FullText(events[..i])
      invariant toolCalls == OwnCalls(events[..i], clientTools)
    {
      var e := events[i];
      assert events[..i + 1][..i] == events[..i];
      if !Quiet(e) {
        EndsHere(events, i);
      }
      match e {
        case ContentDelta(text) =>
          buf := buf + text;
        case Plan(text) =>
          buf := buf + text;
        case ToolCallStart(tc) =>
          if !(clientTools && tc.native) {
            toolCalls := toolCalls + [tc];
          }
        case Done(_) =>
          if toolCalls != [] && clientTools {
            var text := T.FormatClientToolCallsJSON(toolCalls);
            return Answer(text);
          }
          return Answer(buf);
        case Error(message) =>
          return Failure(buf, message);
        case _ =>
      }
      assert AllQuiet(events[..i + 1]);
      assert buf == FullText(events[..i]) + TextOf(e);
      i := i + 1;
    }
    assert events[..i] == events;
    EndsHere(events, i);
    if err.Some? && buf == "" && toolCalls == [] {
      return Failure("", err.value);
    }
    if toolCalls != [] && clientTools {
      var text := T.FormatClientToolCallsJSON(toolCalls);
      return Answer(text);
    }
    return Answer(buf);
  }

  lemma {:induction false} EndsHere(es: seq<Event>, n: nat)
    requires n <= |es| && AllQuiet(es[..n]) && (n < |es| ==> !Quiet(es[n]))
    ensures FirstEnd(es) == n
  {
    if n > 0 {
      assert es[..n][0] == es[0];
      assert es[1..][..n - 1] == es[..n][1..];
      EndsHere(es[1..], n - 1);
    }
  }

  lemma SyncAfterDone(es: seq<Event>, stop: string, err: Option<string>, clientTools: bool)
    requires AllQuiet(es)
    ensures SyncAnswer(es + [Done(stop)], err, clientTools) == Answer(Collected(es, clientTools))
  {
    assert (es + [Done(stop)])[..|es|] == es;
    EndsHere(es + [Done(stop)], |es|);
  }

  /** The synchronous and the streaming path deliver the same answer. */
  lemma SyncAgreesWithStream(env: Env, es: seq<Event>, stop: string, err: Option<string>)
    requires !env.clientTools && env.visibility !in ["prefix", "content"] && !DropsPlans(env) && AllQuiet(es)
    ensures SyncAnswer(es + [Done(stop)], err, false) == Answer(Streamed(After(env, es + [Done(stop)]).sink.out))
  {
    SyncAfterDone(es, stop, err, false);
    PlainDelivers(env, es);
    FullTextIsTheAnswer(env, es);
    EndState(env, es, stop);
    TwoMore(After(env, es).sink.out, "stop");
  }

  /** The tool calls of a synchronous turn come back out of its text, normalised, unless one of their strings holds a
      code fence around something that reads as tool calls. */
  lemma SyncReturnsTheCalls(es: seq<Event>, stop: string, err: Option<string>, uuid: nat -> string)
    requires AllQuiet(es) && OwnCalls(es, true) != []
    requires T.FencedCalls(T.Printed(T.CallsOf(OwnCalls(es, true)))) == []
    ensures var r := SyncAnswer(es + [Done(stop)], err, true);
      && r.Answer?
      && T.ParseClientToolCalls(r.text, uuid) == T.Normalized(T.CallsOf(OwnCalls(es, true)), uuid)
  {
    SyncAfterDone(es, stop, err, true);
    T.ParsingUndoesPrinting(OwnCalls(es, true), uuid);
  }

  /** The calls of a list of events are those of its parts. */
  lemma {:induction false} OwnCallsConcat(a: seq<Event>, b: seq<Event>, clientTools: bool)
    ensures OwnCalls(a + b, clientTools) == OwnCalls(a, clientTools) + OwnCalls(b, clientTools)
  {
    if b == [] {
      assert a + b == a;
      assert OwnCalls(a, clientTools) + [] == OwnCalls(a, clientTools);
    } else {
      var n := |b| - 1;
      OwnCallsConcat(a, b[..n], clientTools);
      assert (a + b)[..|a + b| - 1] == a + b[..n];
    }
  }

  /** And one event has the call that it starts, unless it is a native one in client-tools mode. */
  lemma OwnCallsOfOne(e: Event, clientTools: bool)
    ensures OwnCalls([e], clientTools) == if e.ToolCallStart? && (!e.call.native || !clientTools) then [e.call] else []
  {
    assert [e][..0] == [];
    assert OwnCalls([], clientTools) == [];
  }

  /** The three ways in which a synchronous turn ends: at Done with the calls, printed, or else with the text; at an
      error with the text so far; and at the end of the channel likewise, unless nothing at all was heard and the error
      channel says why. */
  lemma SyncEnds(es: seq<Event>, e: Event, more: seq<Event>, err: Option<string>, clientTools: bool)
    requires AllQuiet(es) && !Quiet(e)
    ensures var calls := OwnCalls(es, clientTools);
      var answer := Answer(if clientTools && calls != [] then T.Printed(T.CallsOf(calls)) else FullText(es));
      && SyncAnswer(es + [e] + more, err, clientTools) == (if e.Error? then Failure(FullText(es), e.message) else answer)
      && SyncAnswer(es, err, clientTools)
         == if err.Some? && FullText(es) == "" && calls == [] then Failure("", err.value) else answer
  {
    var all := es + [e] + more;
    assert all[..|es|] == es && all[|es|] == e;
    EndsHere(all, |es|);
    assert es[..|es|] == es;
    EndsHere(es, |es|);
  }

  /** The tool calls of a synchronous turn, field by field. */
  lemma {:induction false} SyncCallsKeepTheirFields(es: seq<Event>, stop: string, err: Option<string>, uuid: nat -> string)
    returns (at: seq<nat>)
    requires AllQuiet(es) && OwnCalls(es, true) != []
    requires T.FencedCalls(T.Printed(T.CallsOf(OwnCalls(es, true)))) == []
    ensures var r := SyncAnswer(es + [Done(stop)], err, true);
      && r.Answer?
      && var tcs, out := OwnCalls(es, true), T.ParseClientToolCalls(r.text, uuid);
      && T.NamedAt(T.NamesOf(tcs), at) && |out| == |at|
      && forall j :: 0 <= j < |at| ==> T.Delivers(tcs[at[j]], out[j])
  {
    SyncAfterDone(es, stop, err, true);
    at := T.ParsedCallsKeepTheirFields(OwnCalls(es, true), uuid);
  }
}
