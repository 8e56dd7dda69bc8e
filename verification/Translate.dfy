module Translate {
  import opened Wrappers
  import opened Events

  /** The `text` member of a content block: absent or of another type, a string, or an object that has
      a string `text` of its own. */
  datatype Text = NoText | Plain(text: string) | Nested(text: string)

  /** A content block, decoded: `fields` is None when it is not a JSON object. `raw` is its source. */
  datatype Content = Content(raw: string, fields: Option<Fields>)

  datatype Fields = Fields(text: Text, name: Option<string>, title: Option<string>, arguments: Option<string>)

  /** The update of a session/update notification; Malformed when the params do not decode. */
  datatype SessionUpdate =
    | Malformed
    | Update(kind: string, content: Option<Content>, toolCallID: string, title: string, status: string)

  function TextFromContent(c: Option<Content>): string {
    if c.None? || c.value.fields.None? then ""
    else
      match c.value.fields.value.text
      case NoText => ""
      case Plain(t) => t
      case Nested(t) => t
  }

  function ParseToolCall(u: SessionUpdate): ToolCall
    requires u.Update?
  {
    var fields := if u.content.Some? then u.content.value.fields else None;
    var name := if fields.Some? && fields.value.name.Some? then fields.value.name.value else "";
    var title := if fields.Some? && fields.value.title.Some? && u.title == "" then fields.value.title.value else u.title;
    var args := if u.content.None? then ""
                else if fields.Some? && fields.value.arguments.Some? then fields.value.arguments.value
                else u.content.value.raw;
    ToolCall(u.toolCallID, if name == "" then title else name, title, args, u.status, true)
  }

  /** TranslateSessionUpdate. The raw update that two of its cases fall back on is never filled in by
      the decoder, so those fall back on the empty string. */
  function TranslateSessionUpdate(u: SessionUpdate): seq<Event> {
    if u.Malformed? then []
    else
      var text := TextFromContent(u.content);
      if u.kind == "user_message_chunk" then [TraceOnly(text)]
      else if u.kind == "agent_message_chunk" then (if text != "" then [ContentDelta(text)] else [])
      else if u.kind == "agent_thought_chunk" then (if text != "" then [ReasoningDelta(text)] else [])
      else if u.kind == "tool_call" then [ToolCallStart(ParseToolCall(u))]
      else if u.kind == "tool_call_update" then
        [ToolCallUpdate(ToolCall(u.toolCallID, "", "", if u.content.Some? then u.content.value.raw else "", u.status, false))]
      else if u.kind == "plan" then [Plan(text)]
      else if u.kind == "available_commands_update" then [TraceOnly("")]
      else if u.kind == "current_mode_update" then [ModeUpdate("")]
      else [TraceOnly("")]
  }

  /** What an update adds to the answer the client reads. */
  function AnswerText(u: SessionUpdate): string {
    if u.Update? && (u.kind == "agent_message_chunk" || u.kind == "plan") then TextFromContent(u.content) else ""
  }

  /** An update becomes at most one event, never one that opens or closes a turn, and the text of the
      answer survives exactly. */
  lemma TranslationKeepsText(u: SessionUpdate)
    ensures |TranslateSessionUpdate(u)| <= 1
    ensures FullText(TranslateSessionUpdate(u)) == AnswerText(u)
    ensures forall i :: 0 <= i < |TranslateSessionUpdate(u)| ==> FromAgent(TranslateSessionUpdate(u)[i])
    ensures forall i :: 0 <= i < |TranslateSessionUpdate(u)| && TranslateSessionUpdate(u)[i].ToolCallStart? ==>
      TranslateSessionUpdate(u)[i].call.native
  {
    var es := TranslateSessionUpdate(u);
    if es != [] {
      assert es == [es[0]];
      assert FullText([es[0]]) == FullText([]) + TextOf(es[0]);
    }
  }

  /** The text of a content block, given as a string or inside an object, reaches the answer from a message chunk or a
      plan, and the thoughts from a thought chunk; no other update adds to either, and none to both. */
  lemma ChunksGoWhereTheyBelong(u: SessionUpdate)
    ensures var es := TranslateSessionUpdate(u);
      if u.Update? && u.content.Some? && u.content.value.fields.Some? && !u.content.value.fields.value.text.NoText? then
        var text := u.content.value.fields.value.text.text;
        && FullText(es) == (if u.kind == "agent_message_chunk" || u.kind == "plan" then text else "")
        && Thoughts(es) == (if u.kind == "agent_thought_chunk" then text else "")
      else FullText(es) == "" && Thoughts(es) == ""
  {
    var es := TranslateSessionUpdate(u);
    TranslationKeepsText(u);
    if es != [] {
      assert es == [es[0]];
      assert Thoughts([es[0]]) == Thoughts([]) + ThoughtOf(es[0]);
    }
  }

  /** A tool call starts exactly with an update of that kind. It has the update's id and status, and is the agent's own.
      Its title is the update's or else the content's, its name the content's or else that title, and its arguments are
      the content's member of that name, or else the whole content. */
  lemma ToolCallsKeepTheirFields(u: SessionUpdate)
    ensures (exists tc :: TranslateSessionUpdate(u) == [ToolCallStart(tc)]) <==> u.Update? && u.kind == "tool_call"
    ensures forall tc :: TranslateSessionUpdate(u) == [ToolCallStart(tc)] ==>
      && tc.id == u.toolCallID && tc.status == u.status && tc.native
      && (u.title != "" ==> tc.title == u.title)
      && (u.content.None? ==> tc.title == u.title && tc.name == u.title && tc.args == "")
      && (u.content.Some? && u.content.value.fields.None? ==>
            tc.title == u.title && tc.name == u.title && tc.args == u.content.value.raw)
      && (u.content.Some? && u.content.value.fields.Some? ==>
            var f := u.content.value.fields.value;
            && (u.title == "" ==> Some(tc.title) == f.title || (f.title == None && tc.title == ""))
            && tc.name == (if f.name == None || f.name == Some("") then tc.title else f.name.value)
            && tc.args == (if f.arguments.Some? then f.arguments.value else u.content.value.raw))
  {
    var es := TranslateSessionUpdate(u);
    if u.Update? && u.kind == "tool_call" {
      assert es == [ToolCallStart(ParseToolCall(u))];
    } else if es != [] {
      assert !es[0].ToolCallStart?;
    }
    forall tc | es == [ToolCallStart(tc)] ensures u.Update? && u.kind == "tool_call" && tc == ParseToolCall(u) {
      assert es[0] == ToolCallStart(tc);
    }
  }

  /** And an update of a call names it by its id, with its status and the whole content. */
  lemma UpdatesNameTheirCall(u: SessionUpdate)
    requires u.Update? && u.kind == "tool_call_update"
    ensures exists tc :: TranslateSessionUpdate(u) == [ToolCallUpdate(tc)] && tc.id == u.toolCallID && tc.status == u.status
              && tc.args == (if u.content.Some? then u.content.value.raw else "")
  {
    var es := TranslateSessionUpdate(u);
    assert es == [ToolCallUpdate(es[0].call)];
  }
}
