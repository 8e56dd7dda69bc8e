/**
 The prompt an agent receives: a printer of chat messages (buildPromptWithTools), the search that reads the last user
 text back out of a prompt (LastUserTextFromPrompt), and their laws. The tools appendix is a parameter: it is the empty
 string when there are no tools or the prompt is incremental.
*/
module Prompt {
  import opened Wrappers
  import opened Strings
  import T = ToolCalls

  /** OpenAIChatMessage. */
  datatype Message = Message(
    role: string, content: string, toolCalls: seq<T.Call>, toolCallID: string, name: string)

  const MARKER := "[User]\n"

  const HINT := "[System — 工具已执行完毕]\n上方「工具输出」区块里已有命令的真实结果。请用自然语言直接回答用户。\n不要再次输出 tool_calls JSON。\n\n"

  function Label(m: Message): string {
    if m.name != "" then m.name else m.toolCallID
  }

  function Render(m: Message): string {
    if m.role == "system" || m.role == "developer" then "[System]\n" + m.content + "\n\n"
    else if m.role == "user" then MARKER + m.content + "\n\n"
    else if m.role == "assistant" then
      "[Assistant]\n"
      + (if m.content != "" then m.content + "\n" else "")
      + (if m.toolCalls != [] then T.Printed(m.toolCalls) + "\n" else "")
      + "\n"
    else if m.role == "tool" then "[Tool Result — " + Label(m) + "]\n" + m.content + "\n\n"
    else if m.role == "function" then "[Function Result]\n" + m.content + "\n\n"
    else ""
  }

  function Body(ms: seq<Message>): string {
    Joined(ms, Render)
  }

  lemma BodyLast(ms: seq<Message>, m: Message)
    ensures Body(ms + [m]) == Body(ms) + Render(m)
  {
    JoinedLast(ms, m, Render);
  }

  /** MessagesEndWithToolResult. */
  predicate EndsWithToolResult(ms: seq<Message>) {
    ms != [] && (ms[|ms| - 1].role == "tool" || ms[|ms| - 1].role == "function")
  }

  function Hint(ms: seq<Message>): string {
    if EndsWithToolResult(ms) then HINT else ""
  }

  function Untrimmed(ms: seq<Message>, appendix: string): string {
    Body(ms) + Hint(ms) + appendix
  }

  function BuildPrompt(ms: seq<Message>, appendix: string): string {
    Trim(Untrimmed(ms, appendix))
  }

  method BuildPromptWithTools(ms: seq<Message>, appendix: string) returns (prompt: string)
    ensures prompt == BuildPrompt(ms, appendix)
  {
    var b := "";
    for i := 0 to |ms|
      invariant b == Body(ms[..i])
    {
      var m := ms[i];
      BodyLast(ms[..i], m);
      assert ms[..i + 1] == ms[..i] + [m];
      ghost var before := b;
      if m.role == "system" || m.role == "developer" {
        b := b + ("[System]\n" + m.content + "\n\n");
      } else if m.role == "user" {
        b := b + (MARKER + m.content + "\n\n");
      } else if m.role == "assistant" {
        var text := "[Assistant]\n";
        if m.content != "" {
          text := text + (m.content + "\n");
        }
        if m.toolCalls != [] {
          text := text + (T.Printed(m.toolCalls) + "\n");
        }
        assert m.content == "" ==> "[Assistant]\n" + "" == "[Assistant]\n";
        assert m.toolCalls == [] ==> text + "" == text;
        b := b + (text + "\n");
      } else if m.role == "tool" {
        b := b + ("[Tool Result — " + Label(m) + "]\n" + m.content + "\n\n");
      } else if m.role == "function" {
        b := b + ("[Function Result]\n" + m.content + "\n\n");
      }
      assert b == before + Render(m);
    }
    assert ms[..|ms|] == ms;
    if EndsWithToolResult(ms) {
      b := b + HINT;
    }
    prompt := Trim(b + appendix);
    assert Body(ms) + "" == Body(ms);
  }

  // ---- The prompt of a split list -----------------------------------------------------------------------------

  lemma BodyConcat(a: seq<Message>, b: seq<Message>)
    ensures Body(a + b) == Body(a) + Body(b)
  {
    JoinedConcat(a, b, Render);
  }

  /** For any split with a non-empty suffix and without tools, the full prompt is the prefix followed by the
      incremental prompt of the suffix, hint included. */
  lemma PromptSplits(a: seq<Message>, b: seq<Message>)
    requires b != []
    ensures Untrimmed(a + b, "") == Body(a) + Untrimmed(b, "")
  {
    BodyConcat(a, b);
    assert (a + b)[|a + b| - 1] == b[|b| - 1];
    Regroup(Body(a), Body(b), Hint(b));
    Regroup(Body(a), Body(b) + Hint(b), "");
  }

  // ---- Where each message stands ------------------------------------------------------------------------------

  /** The part of a prompt that is this message: a line that says who speaks, the content, and a blank line. A tool's
      result names the tool or else the call. An assistant's message has its calls on a line behind its content, and
      has no line for what is empty. A message of any other role is left out. */
  predicate IsPart(part: string, m: Message) {
    match m.role
    case "system" => part == "[System]\n" + m.content + "\n\n"
    case "developer" => part == "[System]\n" + m.content + "\n\n"
    case "user" => part == "[User]\n" + m.content + "\n\n"
    case "tool" =>
      part == "[Tool Result — " + (if m.name == "" then m.toolCallID else m.name) + "]\n" + m.content + "\n\n"
    case "function" => part == "[Function Result]\n" + m.content + "\n\n"
    case "assistant" =>
      var said := if m.content == "" then "" else m.content + "\n";
      var called := if m.toolCalls == [] then "" else T.Printed(m.toolCalls) + "\n";
      part == "[Assistant]\n" + said + called + "\n"
    case _ => part == ""
  }

  lemma RenderIsPart(m: Message)
    ensures IsPart(Render(m), m)
  {
  }

  lemma BodyAround(a: seq<Message>, m: Message, b: seq<Message>)
    ensures Body(a + [m] + b) == Body(a) + Render(m) + Body(b)
  {
    BodyConcat(a + [m], b);
    BodyLast(a, m);
  }

  lemma FiveJoin(a: string, b: string, c: string, d: string, e: string)
    ensures a + b + c + d + e == a + b + (c + d + e)
  {
  }

  /** Every list, and every message in it: the prompt, before its ends are trimmed, is the prompt of what stands before
      the message, the message's own part, and the prompt of what stands behind it, with the hint exactly if the last
      message of all is a tool's result. The calls of an assistant are there as text that parses to them. */
  lemma EachMessageStands(a: seq<Message>, m: Message, b: seq<Message>, appendix: string) returns (part: string)
    ensures IsPart(part, m)
    ensures var last := if b == [] then m.role else b[|b| - 1].role;
      Untrimmed(a + [m] + b, appendix)
      == Body(a) + part + (Body(b) + (if last == "tool" || last == "function" then HINT else "") + appendix)
    ensures T.ParseToolCallsJSON(T.Printed(m.toolCalls)) == m.toolCalls
  {
    part := Render(m);
    RenderIsPart(m);
    BodyAround(a, m, b);
    var ms := a + [m] + b;
    assert ms[|ms| - 1] == if b == [] then m else b[|b| - 1];
    FiveJoin(Body(a), part, Body(b), Hint(ms), appendix);
    T.PrintedParses(m.toolCalls);
  }

  /** The text holds the message. */
  ghost predicate Tells(text: string, m: Message) {
    exists x, part, y :: IsPart(part, m) && text == x + part + y
  }

  lemma BodyTells(ms: seq<Message>, i: nat)
    requires i < |ms|
    ensures Tells(Body(ms), ms[i])
  {
    var a, m, b := ms[..i], ms[i], ms[i + 1..];
    assert ms == a + [m] + b;
    BodyAround(a, m, b);
    RenderIsPart(m);
  }

  lemma TellsMore(before: string, text: string, after: string, m: Message)
    requires Tells(text, m)
    ensures Tells(before + text + after, m)
  {
    var x, part, y :| IsPart(part, m) && text == x + part + y;
    assert before + (x + part + y) + after == (before + x) + part + (y + after);
  }

  lemma TrimSplits(c: string) returns (l: string, r: string)
    ensures c == l + Trim(c) + r
  {
    var t := c[Leading(c)..];
    l, r := c[..Leading(c)], t[EndOfText(t)..];
    assert Trim(c) == t[..EndOfText(t)];
    assert t == t[..EndOfText(t)] + r;
    Regroup(l, Trim(c), r);
  }

  lemma ContainsMiddle(a: string, pat: string, b: string)
    ensures Contains(a + pat + b, pat)
  {
    var s := a + pat + b;
    assert s[|a|..|a| + |pat|] == pat;
    assert At(s, pat, |a|);
  }

  /** A text between two others keeps what is not blank of it. */
  lemma TrimKeeps(p: string, c: string, q: string)
    ensures Contains(Trim(p + c + q), Trim(c))
  {
    if Trim(c) == "" {
      assert At(Trim(p + c + q), "", 0);
    } else {
      var l, r := TrimSplits(c);
      FourParts(p, l, Trim(c), r, q);
      TrimAround(p + l, Trim(c), r + q);
      ContainsMiddle(TrimLeft(p + l), Trim(c), TrimRight(r + q));
    }
  }

  lemma FourParts(p: string, l: string, c: string, r: string, q: string)
    ensures p + (l + c + r) + q == (p + l) + c + (r + q)
  {
  }

  lemma PartHoldsContent(m: Message) returns (head: string, tail: string)
    requires !Unprinted(m)
    ensures Render(m) == head + m.content + tail
  {
    if m.role == "assistant" {
      head := "[Assistant]\n";
      var called := if m.toolCalls != [] then T.Printed(m.toolCalls) + "\n" else "";
      tail := (if m.content != "" then "\n" else "") + called + "\n";
      AssistantPart(head, m.content, called);
    } else if m.role == "tool" {
      head, tail := "[Tool Result — " + Label(m) + "]\n", "\n\n";
    } else if m.role == "function" {
      head, tail := "[Function Result]\n", "\n\n";
    } else if m.role == "user" {
      head, tail := MARKER, "\n\n";
    } else {
      head, tail := "[System]\n", "\n\n";
    }
  }

  lemma AssistantPart(head: string, content: string, called: string)
    ensures head + (if content != "" then content + "\n" else "") + called + "\n"
         == head + content + ((if content != "" then "\n" else "") + called + "\n")
  {
  }

  /** And in the prompt that the agent gets, which is trimmed at its ends: the content of every message of a known role,
      but for white space around it. */
  lemma EveryContentIsInThePrompt(a: seq<Message>, m: Message, b: seq<Message>, appendix: string)
    requires !Unprinted(m)
    ensures Contains(BuildPrompt(a + [m] + b, appendix), Trim(m.content))
  {
    var head, tail := PartHoldsContent(m);
    var ms := a + [m] + b;
    BodyAround(a, m, b);
    SevenJoin(Body(a), head, m.content, tail, Body(b), Hint(ms), appendix);
    TrimKeeps(Body(a) + head, m.content, tail + Body(b) + Hint(ms) + appendix);
  }

  lemma SevenJoin(a: string, head: string, c: string, tail: string, b: string, hint: string, appendix: string)
    ensures a + (head + c + tail) + b + hint + appendix == (a + head) + c + (tail + b + hint + appendix)
  {
  }

  // ---- Reading the last user text back ------------------------------------------------------------------------

  const BLANK_LINE := "\n\n"

  /** The text before the first blank line, or all of it. */
  function UpToBlankLine(s: string): string {
    if Contains(s, BLANK_LINE) then s[..IndexOf(s, BLANK_LINE)] else s
  }

  function LastUserTextFromPrompt(prompt: string): string {
    var idx := LastIndexOf(prompt, MARKER);
    if idx < 0 then Trim(prompt) else
      var rest := prompt[idx + |MARKER|..];
      var end := IndexOf(rest, BLANK_LINE);
      if end >= 0 then Trim(rest[..end]) else Trim(rest)
  }

  /** The text up to the first blank line. */
  function FirstParagraph(s: string): string {
    var end := IndexOf(s + BLANK_LINE, BLANK_LINE);
    (s + BLANK_LINE)[..if end < 0 then 0 else end]
  }

  lemma RenderHead(m: Message)
    ensures Render(m) == "" || Render(m)[0] == '['
  {
    if m.role == "user" {
      assert Render(m)[0] == MARKER[0];
    }
  }

  lemma {:induction false} JoinedHead(ms: seq<Message>, text: Message -> string)
    requires forall m :: text(m) == "" || text(m)[0] == '['
    ensures Joined(ms, text) == "" || Joined(ms, text)[0] == '['
  {
    if ms != [] {
      JoinedHead(ms[..|ms| - 1], text);
    }
  }

  lemma BodyHead(ms: seq<Message>)
    ensures Body(ms) == "" || Body(ms)[0] == '['
  {
    forall m ensures Render(m) == "" || Render(m)[0] == '[' {
      RenderHead(m);
    }
    JoinedHead(ms, Render);
  }

  /** A message whose role the printer does not know. */
  predicate Unprinted(m: Message) {
    m.role !in ["system", "developer", "user", "assistant", "tool", "function"]
  }

  lemma RenderNothing(m: Message)
    ensures Render(m) == "" <==> Unprinted(m)
  {
  }

  lemma {:induction false} BodyNothing(ms: seq<Message>)
    ensures Body(ms) == "" <==> forall i :: 0 <= i < |ms| ==> Unprinted(ms[i])
  {
    if ms != [] {
      var n := |ms| - 1;
      BodyNothing(ms[..n]);
      RenderNothing(ms[n]);
      assert Body(ms) == Body(ms[..n]) + Render(ms[n]);
      assert forall i :: 0 <= i < n ==> ms[..n][i] == ms[i];
    }
  }

  /** A prompt without tools is empty exactly if the printer knows none of the roles. */
  lemma NothingToSay(ms: seq<Message>)
    ensures BuildPrompt(ms, "") == "" <==> forall i :: 0 <= i < |ms| ==> Unprinted(ms[i])
  {
    BodyNothing(ms);
    BodyHead(ms);
    BlankTrimsAway(Untrimmed(ms, ""));
    if Body(ms) == "" {
      UnprintedHint(ms);
    } else {
      assert Untrimmed(ms, "")[0] == '[';
    }
  }

  lemma OneMessage(m: Message)
    ensures BuildPrompt([m], "") == "" <==> Unprinted(m)
  {
    NothingToSay([m]);
    assert [m][0] == m;
  }

  lemma UnprintedHint(ms: seq<Message>)
    requires Body(ms) == "" && forall i :: 0 <= i < |ms| ==> Unprinted(ms[i])
    ensures Untrimmed(ms, "") == ""
  {
  }

  lemma MarkerStandsLast(x: string, rest: string)
    requires !Contains(rest, MARKER)
    ensures LastIndexOf(x + MARKER + rest, MARKER) == |x|
  {
    var t := x + MARKER + rest;
    assert t[|x|..|x| + |MARKER|] == MARKER;
    assert At(t, MARKER, |x|);
    forall j | |x| < j <= |t| ensures !At(t, MARKER, j) {
      if |x| < j < |x| + |MARKER| {
        assert t[j] == MARKER[j - |x|];
      }
      if At(t, MARKER, j) {
        if j < |x| + |MARKER| {
          AtChar(t, MARKER, j, 0);
        } else {
          MarkerInRest(x, rest, j);
        }
      }
    }
  }

  lemma MarkerInRest(x: string, rest: string, j: nat)
    requires j >= |x| + |MARKER| && At(x + MARKER + rest, MARKER, j)
    ensures Contains(rest, MARKER)
  {
    var k := j - |x| - |MARKER|;
    assert (x + MARKER + rest)[j..j + |MARKER|] == rest[k..k + |MARKER|];
    assert At(rest, MARKER, k);
  }

  /** What is read from behind the last marker. */
  lemma ReadBehindMarker(x: string, rest: string)
    requires !Contains(rest, MARKER)
    ensures LastUserTextFromPrompt(x + MARKER + rest)
         == Trim(UpToBlankLine(rest))
  {
    MarkerStandsLast(x, rest);
    assert (x + MARKER + rest)[|x| + |MARKER|..] == rest;
  }

  lemma ParagraphEnds(c: string, later: string)
    ensures var rest := c + BLANK_LINE + later;
      var end := IndexOf(rest, BLANK_LINE);
      0 <= end <= |c| && FirstParagraph(c) == rest[..end]
  {
    var head := c + BLANK_LINE;
    var rest := head + later;
    assert head[|c|..|c| + 2] == BLANK_LINE;
    assert At(head, BLANK_LINE, |c|);
    var end := IndexOf(head, BLANK_LINE);
    assert rest[..|head|] == head;
    AtInPrefix(rest, |head|, BLANK_LINE, end);
    forall j | 0 <= j < end ensures !At(rest, BLANK_LINE, j) {
      AtInPrefix(rest, |head|, BLANK_LINE, j);
    }
    assert rest[..end] == head[..end];
  }

  lemma LineEndsAt(s: string, i: nat)
    requires At(s, BLANK_LINE, i)
    ensures s[i] == '\n' && s[i + 1] == '\n'
  {
    AtChar(s, BLANK_LINE, i, 0);
    AtChar(s, BLANK_LINE, i, 1);
  }

  lemma BlankLineKept(rest: string, n: nat, end: nat)
    requires IndexOf(rest, BLANK_LINE) == end && end + 2 <= n <= |rest|
    ensures UpToBlankLine(rest[..n]) == rest[..end]
  {
    var r := rest[..n];
    AtInPrefix(rest, n, BLANK_LINE, end);
    forall j | 0 <= j < end ensures !At(r, BLANK_LINE, j) {
      AtInPrefix(rest, n, BLANK_LINE, j);
    }
    assert r[..end] == rest[..end];
  }

  lemma BlankLineCut(rest: string, n: nat, end: nat)
    requires IndexOf(rest, BLANK_LINE) == end && n < end + 2 && n <= |rest|
    ensures UpToBlankLine(rest[..n]) == rest[..n]
  {
    var r := rest[..n];
    forall j | 0 <= j <= |r| ensures !At(r, BLANK_LINE, j) {
      if j + 2 <= n {
        AtInPrefix(rest, n, BLANK_LINE, j);
      }
    }
  }

  /** Cutting white space off the end of a text does not change its first paragraph, up to white space. */
  lemma CutParagraph(rest: string, end: nat)
    requires !Blank(rest) && IndexOf(rest, BLANK_LINE) == end
    ensures Trim(UpToBlankLine(TrimRight(rest))) == Trim(rest[..end])
  {
    var n := EndOfText(rest);
    assert rest[0..] == rest;
    if end + 2 <= n {
      BlankLineKept(rest, n, end);
    } else {
      BlankLineCut(rest, n, end);
      LineEndsAt(rest, end);
      assert n <= end;
      assert rest[..end] == rest[..n] + rest[n..end];
      forall i | 0 <= i < end - n ensures IsSpace(rest[n..end][i]) {
        assert rest[n..end][i] == rest[n..][i];
      }
      TrimBlankTail(rest[..n], rest[n..end]);
    }
  }

  lemma TrimmedPrompt(x: string, rest: string)
    requires x == "" || x[0] == '['
    ensures Trim(x + MARKER + rest) == if Blank(rest) then x + "[User]" else x + MARKER + TrimRight(rest)
  {
    var full := x + MARKER + rest;
    assert full[0] == '[' by { assert x == "" ==> full[0] == MARKER[0]; }
    assert TrimLeft(full) == full;
    TrimRightConcat(x + MARKER, rest);
    MarkerTrims(x);
  }

  lemma MarkerTrims(x: string)
    ensures TrimRight(x + MARKER) == x + "[User]"
  {
    TrimRightConcat(x + "[User]", "\n");
    assert x + MARKER == x + "[User]" + "\n";
    assert (x + "[User]")[|x| + 5] == ']';
  }

  lemma ContainsSome(s: string, pat: string)
    requires Contains(s, pat)
    ensures 0 <= LastIndexOf(s, pat) && LastIndexOf(s, pat) + |pat| <= |s| && At(s, pat, LastIndexOf(s, pat))
  {
    assert At(s, pat, IndexOf(s, pat));
  }

  lemma AtBehind(x: string, rest: string, pat: string, k: int)
    requires 0 <= k
    ensures At(x + rest, pat, |x| + k) <==> At(rest, pat, k)
  {
    if k + |pat| <= |rest| {
      assert (x + rest)[|x| + k..|x| + k + |pat|] == rest[k..k + |pat|];
    }
  }

  lemma LastStaysLast(x: string, rest: string, pat: string)
    requires Contains(rest, pat)
    ensures LastIndexOf(x + rest, pat) == |x| + LastIndexOf(rest, pat)
  {
    ContainsSome(rest, pat);
    var k := LastIndexOf(rest, pat);
    AtBehind(x, rest, pat, k);
    forall j | |x| + k < j <= |x + rest| ensures !At(x + rest, pat, j) {
      AtBehind(x, rest, pat, j - |x|);
    }
  }

  lemma ReadFrom(t: string, k: nat)
    requires LastIndexOf(t, MARKER) == k
    ensures k + |MARKER| <= |t| && LastUserTextFromPrompt(t) == Trim(UpToBlankLine(t[k + |MARKER|..]))
  {
  }

  lemma SameBehind(s: string, i: nat, t: string, j: nat)
    requires LastIndexOf(s, MARKER) == i && LastIndexOf(t, MARKER) == j
    requires i + |MARKER| <= |s| && j + |MARKER| <= |t| && s[i + |MARKER|..] == t[j + |MARKER|..]
    ensures LastUserTextFromPrompt(s) == LastUserTextFromPrompt(t)
  {
    ReadFrom(s, i);
    ReadFrom(t, j);
  }

  lemma DropBoth(x: string, rest: string, k: nat)
    requires k <= |rest|
    ensures (x + rest)[|x| + k..] == rest[k..]
  {
  }

  /** Where a marker stands in a text, the reader does not look at what is before the text. */
  lemma ReadsTheRest(x: string, rest: string)
    requires Contains(rest, MARKER)
    ensures LastUserTextFromPrompt(x + rest) == LastUserTextFromPrompt(rest)
  {
    LastStaysLast(x, rest, MARKER);
    ContainsSome(rest, MARKER);
    DropBoth(x, rest, LastIndexOf(rest, MARKER) + |MARKER|);
    SameBehind(x + rest, |x| + LastIndexOf(rest, MARKER), rest, LastIndexOf(rest, MARKER));
  }

  /** The reader on any text of the printer's form, c being what stands behind some marker. */
  lemma ReadBack(x: string, c: string, later: string)
    requires x == "" || x[0] == '['
    ensures var rest := TrimRight(c + BLANK_LINE + later);
      LastUserTextFromPrompt(Trim(x + MARKER + (c + BLANK_LINE + later)))
      == if Blank(c) && Blank(later) then LastUserTextFromPrompt(x + "[User]")
         else if Contains(rest, MARKER) then LastUserTextFromPrompt(rest)
         else Trim(FirstParagraph(c))
  {
    var rest := TrimRight(c + BLANK_LINE + later);
    TrimmedPrompt(x, c + BLANK_LINE + later);
    AllBlank(c, later);
    if !Blank(c + BLANK_LINE + later) {
      if Contains(rest, MARKER) {
        ReadsTheRest(x + MARKER, rest);
      } else {
        ReadBehindMarker(x, rest);
        ParagraphOf(c, later);
      }
    }
  }

  lemma AllBlank(c: string, later: string)
    ensures Blank(c + BLANK_LINE + later) <==> Blank(c) && Blank(later)
  {
    BlankConcat(c + BLANK_LINE, later);
    BlankConcat(c, BLANK_LINE);
  }

  lemma ParagraphOf(c: string, later: string)
    requires !Blank(c + BLANK_LINE + later)
    ensures Trim(UpToBlankLine(TrimRight(c + BLANK_LINE + later))) == Trim(FirstParagraph(c))
  {
    ParagraphEnds(c, later);
    CutParagraph(c + BLANK_LINE + later, IndexOf(c + BLANK_LINE + later, BLANK_LINE));
  }

  /** What follows the content of the user message between `before` and `after`. */
  function Later(after: seq<Message>, hint: string, appendix: string): string {
    Body(after) + hint + appendix
  }

  lemma PromptAround(before: seq<Message>, u: Message, after: seq<Message>, appendix: string)
    requires u.role == "user"
    ensures var ms := before + [u] + after;
      Untrimmed(ms, appendix)
      == Body(before) + MARKER + (u.content + BLANK_LINE + Later(after, Hint(ms), appendix))
  {
    var ms := before + [u] + after;
    BodyConcat(before + [u], after);
    BodyLast(before, u);
    UserBlock(Body(before), u.content, Body(after), Hint(ms), appendix);
  }

  lemma UserBlock(x: string, c: string, after: string, hint: string, appendix: string)
    ensures x + (MARKER + c + "\n\n") + after + hint + appendix == x + MARKER + (c + BLANK_LINE + (after + hint + appendix))
  {
  }

  /** What stands behind the marker of the user message between `before` and `after` when the prompt is trimmed. */
  function Behind(before: seq<Message>, u: Message, after: seq<Message>, appendix: string): string {
    TrimRight(u.content + BLANK_LINE + Later(after, Hint(before + [u] + after), appendix))
  }

  /** What LastUserTextFromPrompt returns for any list around any user message: its first paragraph, trimmed, if no
      marker stands behind its own; else what the reader finds behind the last marker, whatever is before it. Only when
      nothing but white space follows the marker does trimming take the marker's line end, and then the text before
      the message is searched. */
  lemma LastUserTextReadsBack(before: seq<Message>, u: Message, after: seq<Message>, appendix: string)
    requires u.role == "user"
    ensures var rest := Behind(before, u, after, appendix);
      LastUserTextFromPrompt(BuildPrompt(before + [u] + after, appendix))
      == if rest == "" then LastUserTextFromPrompt(Body(before) + "[User]")
         else if Contains(rest, MARKER) then LastUserTextFromPrompt(rest)
         else Trim(FirstParagraph(u.content))
  {
    var ms := before + [u] + after;
    var later := Later(after, Hint(ms), appendix);
    BodyHead(before);
    PromptAround(before, u, after, appendix);
    ReadBack(Body(before), u.content, later);
    AllBlank(u.content, later);
    TrimRightConcat("", u.content + BLANK_LINE + later);
  }

  /** A content without a blank line is read back whole. */
  lemma SingleParagraph(c: string)
    requires !Contains(c, BLANK_LINE)
    ensures Trim(FirstParagraph(c)) == Trim(c)
  {
    PrefixLacks(c, EndOfText(c), BLANK_LINE);
    WholeParagraph(c);
  }

  // ---- When that is the message -------------------------------------------------------------------------------

  lemma TrimLength(s: string)
    requires !Blank(s)
    ensures Leading(s) < EndOfText(s) && |Trim(s)| == EndOfText(s) - Leading(s) > 0
  {
    var l := Leading(s);
    assert s[..|s|] == s && s[0..] == s;
    assert s[..l] + s[l..] == s;
    assert !IsSpace(s[l..][0]);
    TrimRightConcat(s[..l], s[l..]);
  }

  lemma TrimNotLonger(s: string)
    ensures |Trim(s)| <= EndOfText(s)
  {
    if Blank(s) {
      BlankTrimsAway(s);
    } else {
      TrimLength(s);
    }
  }

  lemma {:induction false} TextReaches(s: string, i: nat)
    requires i < |s| && !IsSpace(s[i])
    ensures i < EndOfText(s)
  {
    if IsSpace(s[|s| - 1]) {
      TextReaches(s[..|s| - 1], i);
    }
  }

  lemma EndInPrefix(s: string, k: nat)
    requires k <= |s|
    ensures EndOfText(s[..k]) <= EndOfText(s)
  {
    if EndOfText(s[..k]) > 0 {
      TextReaches(s, EndOfText(s[..k]) - 1);
    }
  }

  /** A blank line in the text, or in what follows it, that does not stand in its trimmed form. */
  lemma BlankLineBehind(c: string, end: nat)
    requires At(c + BLANK_LINE, BLANK_LINE, end) && !Contains(TrimRight(c), BLANK_LINE)
    ensures EndOfText(c) <= end
  {
    var full, n := c + BLANK_LINE, EndOfText(c);
    assert full[..n] == c[..n];
    if end + 2 <= n {
      AtInPrefix(full, n, BLANK_LINE, end);
    } else if end + 1 == n {
      LineEndsAt(full, end);
    }
  }

  lemma BlankLineInside(c: string, end: nat)
    requires IndexOf(c + BLANK_LINE, BLANK_LINE) == end && Contains(TrimRight(c), BLANK_LINE)
    ensures end + 2 <= EndOfText(c)
  {
    var full, n := c + BLANK_LINE, EndOfText(c);
    assert full[..n] == c[..n];
    AtInPrefix(full, n, BLANK_LINE, IndexOf(c[..n], BLANK_LINE));
  }

  /** Where the first paragraph of a text ends: at the first blank line, or behind everything that is no white space. */
  lemma ParagraphEnd(c: string) returns (end: nat)
    ensures end <= |c| && FirstParagraph(c) == c[..end]
    ensures Contains(TrimRight(c), BLANK_LINE) ==> end + 2 <= EndOfText(c)
    ensures !Contains(TrimRight(c), BLANK_LINE) ==> EndOfText(c) <= end
  {
    ParagraphEnds(c, "");
    assert c + BLANK_LINE + "" == c + BLANK_LINE;
    end := IndexOf(c + BLANK_LINE, BLANK_LINE);
    assert (c + BLANK_LINE)[..end] == c[..end];
    if Contains(TrimRight(c), BLANK_LINE) {
      BlankLineInside(c, end);
    } else {
      BlankLineBehind(c, end);
    }
  }

  /** A first paragraph is the whole text, up to white space, exactly if no blank line stands in the text. */
  lemma WholeParagraph(c: string)
    ensures Trim(FirstParagraph(c)) == Trim(c) <==> !Contains(TrimRight(c), BLANK_LINE)
  {
    var end := ParagraphEnd(c);
    if Contains(TrimRight(c), BLANK_LINE) {
      ShorterParagraph(c, end);
    } else {
      AllOfTheText(c, end);
    }
  }

  lemma BlankFrom(c: string, end: nat)
    requires EndOfText(c) <= end <= |c|
    ensures Blank(c[end..])
  {
    forall i | end <= i < |c| ensures IsSpace(c[i]) {
      if !IsSpace(c[i]) {
        TextReaches(c, i);
      }
    }
  }

  lemma TrimBlankEnd(c: string, a: string, b: string)
    requires c == a + b && Blank(b)
    ensures Trim(a) == Trim(c)
  {
    TrimBlankTail(a, b);
  }

  lemma AllOfTheText(c: string, end: nat)
    requires EndOfText(c) <= end <= |c|
    ensures Trim(c[..end]) == Trim(c)
  {
    BlankFrom(c, end);
    SplitAt(c, end);
    TrimBlankEnd(c, c[..end], c[end..]);
  }

  lemma SplitAt(c: string, n: nat)
    requires n <= |c|
    ensures c == c[..n] + c[n..]
  {
  }

  lemma LeadingOfPrefix(c: string, end: nat)
    requires end <= |c| && !Blank(c[..end])
    ensures Leading(c) == Leading(c[..end])
  {
    LeadingConcat(c[..end], c[end..]);
    assert c == c[..end] + c[end..];
  }

  lemma TextIsNotBlank(c: string)
    requires EndOfText(c) > 0
    ensures !Blank(c)
  {
    assert !IsSpace(c[EndOfText(c) - 1]);
  }

  lemma ShorterParagraph(c: string, end: nat)
    requires end + 2 <= EndOfText(c)
    ensures |Trim(c[..end])| < |Trim(c)|
  {
    TextIsNotBlank(c);
    TrimLength(c);
    if Blank(c[..end]) {
      BlankTrimsAway(c[..end]);
    } else {
      TrimLength(c[..end]);
      LeadingOfPrefix(c, end);
    }
  }

  lemma ParagraphNotLonger(c: string)
    ensures |Trim(FirstParagraph(c))| <= EndOfText(c)
  {
    var end := ParagraphEnd(c);
    TrimNotLonger(c[..end]);
    EndInPrefix(c, end);
  }

  lemma TrimAroundMarker(a: string, c: string)
    ensures |Trim(a + MARKER + c)| >= |"[User]"| + EndOfText(c)
  {
    MarkerSplits(a, c);
    TrimAround(a, "[User]", "\n" + c);
    LineEndFirst(c);
  }

  lemma MarkerSplits(a: string, c: string)
    ensures a + MARKER + c == a + "[User]" + ("\n" + c)
  {
    assert MARKER == "[User]" + "\n";
  }

  lemma LineEndFirst(c: string)
    ensures EndOfText(c) <= |TrimRight("\n" + c)|
  {
    if EndOfText(c) > 0 {
      TextIsNotBlank(c);
      TrimRightConcat("\n", c);
    }
  }

  /** What stands behind a marker inside a text is less than the text. */
  lemma LessBehindMarker(a: string, c: string)
    ensures |Trim(FirstParagraph(c))| < |Trim(a + MARKER + c)|
  {
    ParagraphNotLonger(c);
    TrimAroundMarker(a, c);
  }

  lemma TrimRightDrops(s: string, k: nat)
    requires k < EndOfText(s)
    ensures TrimRight(s)[k..] == TrimRight(s[k..])
  {
    assert s == s[..k] + s[k..];
    assert !IsSpace(s[k..][EndOfText(s) - 1 - k]);
    TrimRightConcat(s[..k], s[k..]);
  }

  lemma TextBehindMarker(s: string, j: nat)
    requires At(TrimRight(s), MARKER, j)
    ensures j + |MARKER| < EndOfText(s) && At(s, MARKER, j)
  {
    AtChar(TrimRight(s), MARKER, j, |MARKER| - 1);
    AtInPrefix(s, EndOfText(s), MARKER, j);
  }

  lemma SplitContent(c: string, tail: string, j: nat)
    requires At(c + tail, MARKER, j) && j + |MARKER| <= |c|
    ensures c == c[..j] + MARKER + c[j + |MARKER|..]
    ensures (c + tail)[j + |MARKER|..] == c[j + |MARKER|..] + tail
  {
    assert c[j..j + |MARKER|] == (c + tail)[j..j + |MARKER|];
  }

  /** A marker inside the content itself, behind which there is none: something shorter is read. */
  lemma MarkerInContent(c: string, later: string)
    requires Contains(TrimRight(c + BLANK_LINE + later), MARKER)
    requires LastIndexOf(TrimRight(c + BLANK_LINE + later), MARKER) + |MARKER| <= |c|
    ensures LastUserTextFromPrompt(TrimRight(c + BLANK_LINE + later)) != Trim(c)
  {
    var full := c + BLANK_LINE + later;
    ContainsSome(TrimRight(full), MARKER);
    var j := LastIndexOf(TrimRight(full), MARKER);
    TextBehindMarker(full, j);
    TrimRightDrops(full, j + |MARKER|);
    Regroup(c, BLANK_LINE, later);
    SplitContent(c, BLANK_LINE + later, j);
    Regroup(c[j + |MARKER|..], BLANK_LINE, later);
    ReadFrom(TrimRight(full), j);
    LessBehindMarker(c[..j], c[j + |MARKER|..]);
    ReadOrNothing(c[j + |MARKER|..], later);
  }

  lemma ReadOrNothing(c: string, later: string)
    ensures |Trim(UpToBlankLine(TrimRight(c + BLANK_LINE + later)))| <= |Trim(FirstParagraph(c))|
  {
    var full := c + BLANK_LINE + later;
    if Blank(full) {
      TrimRightConcat("", full);
      assert TrimRight(full) == "";
      BlankTrimsAway(UpToBlankLine(""));
    } else {
      ParagraphOf(c, later);
    }
  }

  lemma NoMarkerAtTheEnd(x: string)
    requires !Contains(x, MARKER)
    ensures !Contains(x + "[User]", MARKER)
  {
    var t := x + "[User]";
    forall j | 0 <= j <= |t| ensures !At(t, MARKER, j) {
      if j + |MARKER| <= |x| {
        assert t[..|x|] == x;
        AtInPrefix(t, |x|, MARKER, j);
      } else if j + |MARKER| <= |t| {
        assert t[j + 6] != '\n';
        assert t[j..j + |MARKER|][6] == t[j + 6] && MARKER[6] == '\n';
      }
    }
  }

  /** Nothing but white space behind the marker: it is searched for in vain before it, or something else is found. */
  lemma NothingBehindMarker(before: seq<Message>)
    requires !Contains(Body(before), MARKER)
    ensures LastUserTextFromPrompt(Body(before) + "[User]") == Body(before) + "[User]"
  {
    var t := Body(before) + "[User]";
    NoMarkerAtTheEnd(Body(before));
    BodyHead(before);
    assert t[|t| - 1] == ']';
    TrimTight(t);
  }

  /** For every list and every user message in it: if anything but white space follows its marker, the reader returns
      that message, trimmed, if and only if no blank line stands in it and no marker behind its own, or the last marker
      stands behind its text and happens to be followed by the same text. If nothing follows, the message is empty, and
      nothing is returned if and only if there is a marker before and the reader finds nothing from there on. */
  lemma LastUserTextIsReadExactlyWhen(before: seq<Message>, u: Message, after: seq<Message>, appendix: string)
    requires u.role == "user"
    ensures var read := LastUserTextFromPrompt(BuildPrompt(before + [u] + after, appendix));
      var rest := Behind(before, u, after, appendix);
      read == Trim(u.content) <==>
        if rest == "" then
          Contains(Body(before), MARKER) && LastUserTextFromPrompt(Body(before) + "[User]") == ""
        else if !Contains(rest, MARKER) then !Contains(TrimRight(u.content), BLANK_LINE)
        else LastIndexOf(rest, MARKER) + |MARKER| > |u.content| && LastUserTextFromPrompt(rest) == Trim(u.content)
  {
    var later := Later(after, Hint(before + [u] + after), appendix);
    var rest := Behind(before, u, after, appendix);
    LastUserTextReadsBack(before, u, after, appendix);
    if rest == "" {
      AllBlank(u.content, later);
      TrimRightConcat("", u.content + BLANK_LINE + later);
      BlankTrimsAway(u.content);
      if !Contains(Body(before), MARKER) {
        NothingBehindMarker(before);
      }
    } else if Contains(rest, MARKER) {
      if LastIndexOf(rest, MARKER) + |MARKER| <= |u.content| {
        MarkerInContent(u.content, later);
      }
    } else {
      WholeParagraph(u.content);
    }
  }

  // ---- Messages that are not read back, and one that is -------------------------------------------------------

  lemma AloneBehind(u: Message)
    requires u.role == "user"
    ensures Behind([], u, [], "") == TrimRight(u.content)
    ensures BuildPrompt([] + [u] + [], "") == BuildPrompt([u], "")
  {
    assert [] + [u] + [] == [u];
    assert u.content + BLANK_LINE + "" == u.content + BLANK_LINE;
    assert "" + "" + "" == "";
    TrimRightBlank(u.content, BLANK_LINE);
  }

  lemma ReadAlone(u: Message)
    requires u.role == "user" && TrimRight(u.content) != ""
    ensures LastUserTextFromPrompt(BuildPrompt([u], ""))
         == if Contains(TrimRight(u.content), MARKER) then LastUserTextFromPrompt(TrimRight(u.content))
            else Trim(FirstParagraph(u.content))
  {
    AloneBehind(u);
    LastUserTextReadsBack([], u, [], "");
  }

  lemma MarkerAlone()
    ensures LastUserTextFromPrompt("[User]") == "[User]"
  {
    TrimTight("[User]");
  }

  lemma EmptyUserPrompt(u: Message)
    requires u.role == "user" && u.content == ""
    ensures BuildPrompt([u], "") == "[User]"
  {
    BodyLast([], u);
    assert [] + [u] == [u];
    TrimmedPrompt("", "\n\n");
    assert Untrimmed([u], "") == "" + MARKER + "\n\n";
    assert "" + "[User]" == "[User]";
  }

  /** The claim as the program makes it fails for an empty last user message: its marker is not found. */
  lemma EmptyUserIsNotReadBack(u: Message)
    requires u.role == "user" && u.content == ""
    ensures LastUserTextFromPrompt(BuildPrompt([u], "")) == "[User]"
    ensures Trim(u.content) == ""
  {
    EmptyUserPrompt(u);
    MarkerAlone();
  }

  /** It fails for a message with a blank line: only the first paragraph is read. */
  lemma BlankLineIsNotReadBack(u: Message)
    requires u.role == "user" && Contains(TrimRight(u.content), BLANK_LINE) && !Contains(TrimRight(u.content), MARKER)
    ensures LastUserTextFromPrompt(BuildPrompt([u], "")) == Trim(FirstParagraph(u.content)) != Trim(u.content)
  {
    assert TrimRight(u.content) != "";
    ReadAlone(u);
    WholeParagraph(u.content);
  }

  lemma LineAfterOne(s: string)
    requires |s| >= 3 && s[0] != '\n' && s[1] == s[2] == '\n'
    ensures IndexOf(s, BLANK_LINE) == 1
  {
    assert s[1..3] == BLANK_LINE;
    assert At(s, BLANK_LINE, 1);
    assert !At(s, BLANK_LINE, 0) by { assert s[0..2][0] != BLANK_LINE[0]; }
  }

  /** For example one letter, a blank line, and another. */
  lemma SecondParagraphIsNotReadBack(u: Message)
    requires u.role == "user" && u.content == "a\n\nb"
    ensures LastUserTextFromPrompt(BuildPrompt([u], "")) == "a" && Trim(u.content) == u.content
  {
    var c := u.content;
    LineAfterOne(c);
    LineAfterOne(c + BLANK_LINE);
    assert (c + BLANK_LINE)[..1] == "a";
    TrimTight("a");
    TrimTight(c);
    TrimTail(c);
    NoMarkerIn(c);
    BlankLineIsNotReadBack(u);
  }

  lemma NoMarkerIn(c: string)
    requires |c| < |MARKER|
    ensures !Contains(c, MARKER)
  {
  }

  /** It fails for a message with a marker in it: what stands behind the marker is read. Any text before it, and any
      paragraph behind it. */
  lemma MarkerIsNotReadBack(u: Message, a: string, b: string)
    requires u.role == "user" && u.content == a + MARKER + b && Tight(b)
    requires !Contains(b, MARKER) && !Contains(b, BLANK_LINE)
    ensures LastUserTextFromPrompt(BuildPrompt([u], "")) == b != Trim(u.content)
  {
    EndsInText(a + MARKER, b);
    MarkerStandsLast(a, b);
    ReadAlone(u);
    ReadBehindMarker(a, b);
    TrimTight(b);
    SingleParagraph(b);
    LessBehindMarker(a, b);
  }

  lemma EndsInText(x: string, b: string)
    requires Tight(b)
    ensures TrimRight(x + b) == x + b
  {
    assert (x + b)[|x + b| - 1] == b[|b| - 1];
  }

  lemma TrimTail(b: string)
    requires Tight(b)
    ensures TrimRight(b) == b
  {
  }

  lemma OneLineHasNone(c: string)
    requires OneLine(c)
    ensures !Contains(c, MARKER) && !Contains(c, BLANK_LINE)
  {
    if Contains(c, MARKER) {
      AtChar(c, MARKER, IndexOf(c, MARKER), 6);
    }
    if Contains(c, BLANK_LINE) {
      AtChar(c, BLANK_LINE, IndexOf(c, BLANK_LINE), 0);
    }
  }

  /** A single line is read back whole, also one that ends in the marker's own word: its line end would make a marker,
      but the trimming of the prompt takes the line end away. */
  lemma OneLineIsReadBack(u: Message)
    requires u.role == "user" && OneLine(u.content) && Tight(u.content)
    ensures LastUserTextFromPrompt(BuildPrompt([u], "")) == u.content
  {
    TrimTight(u.content);
    TrimTail(u.content);
    OneLineHasNone(u.content);
    ReadAlone(u);
    SingleParagraph(u.content);
  }

  /** For example the marker's word behind any line. */
  lemma MarkerWordAtTheEndIsReadBack(u: Message, a: string)
    requires u.role == "user" && OneLine(a) && (a == "" || !IsSpace(a[0])) && u.content == a + "[User]"
    ensures LastUserTextFromPrompt(BuildPrompt([u], "")) == u.content
    ensures Contains(u.content + BLANK_LINE, MARKER)
  {
    WordMakesMarker(a);
    WordIsTight(a, "[User]");
    OneLineIsReadBack(u);
  }

  lemma WordIsTight(a: string, w: string)
    requires OneLine(a) && (a == "" || !IsSpace(a[0])) && Tight(w) && OneLine(w)
    ensures Tight(a + w) && OneLine(a + w)
  {
    assert (a + w)[|a + w| - 1] == w[|w| - 1];
  }

  lemma WordMakesMarker(a: string)
    ensures Contains(a + "[User]" + BLANK_LINE, MARKER)
  {
    assert a + "[User]" + BLANK_LINE == a + MARKER + "\n";
    assert (a + MARKER + "\n")[|a|..|a| + |MARKER|] == MARKER;
    assert At(a + MARKER + "\n", MARKER, |a|);
  }
}
