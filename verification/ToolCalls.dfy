/**
 Client tool calls as text: the printer (internal/toolloop/format.go) and the parser that reads them back out of what
 a model wrote (internal/translator/client_tools.go).

 UUIDs are a parameter: `uuid(i)` is the one drawn for the call at position i.
*/
module ToolCalls {
  import opened Wrappers
  import opened Strings
  import E = Events
  import J = Json

  /** OpenAIToolCall, with its nested Function struct flattened. */
  datatype Call = Call(id: string, kind: string, name: string, arguments: string)

  const ZERO := Call("", "", "", "")

  const KEY := "\"" + "tool_calls" + "\""

  // ---- Printing -----------------------------------------------------------------------------------------------

  function CallOf(tc: E.ToolCall): Call {
    var name := if tc.name == "" then tc.title else tc.name;
    Call(if tc.id == "" then "call_" + name else tc.id, "function", name, if tc.args == "" then "{}" else tc.args)
  }

  function CallsOf(tcs: seq<E.ToolCall>): (r: seq<Call>)
    ensures |r| == |tcs| && forall i :: 0 <= i < |tcs| ==> r[i] == CallOf(tcs[i])
  {
    if tcs == [] then [] else CallsOf(tcs[..|tcs| - 1]) + [CallOf(tcs[|tcs| - 1])]
  }

  function JsonOf(c: Call): J.Value {
    J.Obj([J.Field("id", J.Str(c.id)), J.Field("type", J.Str(c.kind)),
           J.Field("function", J.Obj([J.Field("name", J.Str(c.name)), J.Field("arguments", J.Str(c.arguments))]))])
  }

  function Envelope(calls: seq<Call>): J.Value {
    J.Obj([J.Field("tool_calls", J.Arr(seq(|calls|, i requires 0 <= i < |calls| => JsonOf(calls[i]))))])
  }

  function Printed(calls: seq<Call>): string {
    J.Print(Envelope(calls))
  }

  method FormatClientToolCallsJSON(tcs: seq<E.ToolCall>) returns (text: string)
    ensures text == Printed(CallsOf(tcs))
  {
    var out: seq<Call> := [];
    for i := 0 to |tcs|
      invariant out == CallsOf(tcs[..i])
    {
      var tc := tcs[i];
      var name := tc.name;
      if name == "" {
        name := tc.title;
      }
      var args := tc.args;
      if args == "" {
        args := "{}";
      }
      var call := Call(tc.id, "function", name, args);
      if call.id == "" {
        call := call.(id := "call_" + name);
      }
      out := out + [call];
      assert tcs[..i + 1][..i] == tcs[..i];
    }
    assert tcs[..|tcs|] == tcs;
    text := J.Print(Envelope(out));
  }

  // ---- Decoding JSON into the structs -------------------------------------------------------------------------

  /** encoding/json compares keys with field names up to case, where the long s and the Kelvin sign count as s and k. */
  function FoldChar(c: char): char {
    if 'A' <= c <= 'Z' then (c as int + 32) as char
    else if c == '\U{017F}' then 's'
    else if c == '\U{212A}' then 'k'
    else c
  }

  function Folded(key: string): (r: string)
    ensures |r| == |key| && forall i :: 0 <= i < |key| ==> r[i] == FoldChar(key[i])
  {
    seq(|key|, i requires 0 <= i < |key| => FoldChar(key[i]))
  }

  /** null leaves what is there; any other type than a string is an error. */
  function DecodeString(into: string, v: J.Value): Option<string> {
    match v
    case Str(s) => Some(s)
    case Null => Some(into)
    case _ => None
  }

  function DecodeFunction(into: Call, fields: seq<J.Field>): Option<Call>
    decreases |fields|
  {
    if fields == [] then Some(into) else
    var f := fields[0];
    var key := Folded(f.key);
    if key == "name" || key == "arguments" then
      match DecodeString(if key == "name" then into.name else into.arguments, f.value)
      case None => None
      case Some(s) => DecodeFunction(if key == "name" then into.(name := s) else into.(arguments := s), fields[1..])
    else DecodeFunction(into, fields[1..])
  }

  function DecodeField(into: Call, f: J.Field): Option<Call> {
    var key := Folded(f.key);
    if key == "id" || key == "type" then
      match DecodeString(if key == "id" then into.id else into.kind, f.value)
      case None => None
      case Some(s) => Some(if key == "id" then into.(id := s) else into.(kind := s))
    else if key == "function" then
      match f.value
      case Obj(fields) => DecodeFunction(into, fields)
      case Null => Some(into)
      case _ => None
    else Some(into)
  }

  function DecodeFields(into: Call, fields: seq<J.Field>): Option<Call>
    decreases |fields|
  {
    if fields == [] then Some(into) else
    match DecodeField(into, fields[0])
    case None => None
    case Some(c) => DecodeFields(c, fields[1..])
  }

  function DecodeCall(into: Call, v: J.Value): Option<Call> {
    match v
    case Obj(fields) => DecodeFields(into, fields)
    case Null => Some(into)
    case _ => None
  }

  /** An array is decoded over the elements that the slice already has. */
  function DecodeItems(into: seq<Call>, items: seq<J.Value>): Option<seq<Call>>
    decreases |items|
  {
    if items == [] then Some([]) else
    var n := |items| - 1;
    match DecodeItems(into, items[..n])
    case None => None
    case Some(calls) =>
      (match DecodeCall(if n < |into| then into[n] else ZERO, items[n])
       case None => None
       case Some(c) => Some(calls + [c]))
  }

  function DecodeCalls(into: seq<Call>, v: J.Value): Option<seq<Call>> {
    match v
    case Arr(items) => DecodeItems(into, items)
    case Null => Some([])
    case _ => None
  }

  /** struct { ToolCalls []OpenAIToolCall `json:"tool_calls"` } */
  function DecodeMany(into: seq<Call>, fields: seq<J.Field>): Option<seq<Call>>
    decreases |fields|
  {
    if fields == [] then Some(into)
    else if Folded(fields[0].key) != "tool_calls" then DecodeMany(into, fields[1..])
    else
      match DecodeCalls(into, fields[0].value)
      case None => None
      case Some(calls) => DecodeMany(calls, fields[1..])
  }

  /** struct { ToolCalls OpenAIToolCall `json:"tool_calls"` } */
  function DecodeOne(into: Call, fields: seq<J.Field>): Option<Call>
    decreases |fields|
  {
    if fields == [] then Some(into)
    else if Folded(fields[0].key) != "tool_calls" then DecodeOne(into, fields[1..])
    else
      match DecodeCall(into, fields[0].value)
      case None => None
      case Some(c) => DecodeOne(c, fields[1..])
  }

  function CallsIn(v: J.Value): seq<Call> {
    match v
    case Obj(fields) =>
      var many := DecodeMany([], fields);
      var one := DecodeOne(ZERO, fields);
      if many.Some? && many.value != [] then many.value
      else if one.Some? && one.value.name != "" then [one.value]
      else []
    case Arr(items) =>
      var calls := DecodeItems([], items);
      if calls.Some? then calls.value else []
    case _ => []
  }

  function ParseToolCallsJSON(s: string): seq<Call> {
    match J.ParseText(Trim(s))
    case None => []
    case Some(v) => CallsIn(v)
  }

  // ---- Shell arguments ----------------------------------------------------------------------------------------

  /** A map from strings to strings, in the order in which json.Marshal writes it: by key. */
  type Dict = seq<(string, string)>

  predicate Ascending(m: Dict) {
    forall i, j :: 0 <= i < j < |m| ==> Less(m[i].0, m[j].0)
  }

  function Insert(m: Dict, k: string, v: string): Dict {
    if m == [] then [(k, v)]
    else if k == m[0].0 then [(k, v)] + m[1..]
    else if Less(k, m[0].0) then [(k, v)] + m
    else [m[0]] + Insert(m[1..], k, v)
  }

  function Lookup(m: Dict, k: string): string {
    if m == [] then "" else if m[0].0 == k then m[0].1 else Lookup(m[1..], k)
  }

  function FieldsOf(m: Dict): (r: seq<J.Field>)
    ensures |r| == |m| && forall i :: 0 <= i < |m| ==> r[i] == J.Field(m[i].0, J.Str(m[i].1))
  {
    seq(|m|, i requires 0 <= i < |m| => J.Field(m[i].0, J.Str(m[i].1)))
  }

  function DictOf(fields: seq<J.Field>): Option<Dict> {
    if fields == [] then Some([]) else
    var f := fields[|fields| - 1];
    match DictOf(fields[..|fields| - 1])
    case None => None
    case Some(m) =>
      (match DecodeString("", f.value)
       case None => None
       case Some(s) => Some(Insert(m, f.key, s)))
  }

  predicate LooksLikeShellTool(name: string) {
    var n := ToLower(name);
    || n in ["bash", "shell", "run_terminal_cmd", "terminal", "exec", "run_command", "run", "run_shell_command"]
    || Contains(n, "bash") || Contains(n, "shell") || Contains(n, "terminal")
  }

  function DefaultShellDescription(command: string): (r: string)
    ensures Tight(r)
  {
    var lower := ToLower(command);
    if Contains(lower, "get-date") || Contains(lower, "date") then "Get local system date and time"
    else "Execute shell command"
  }

  /** enrichShellToolArguments, on a platform where commands need no prefix. */
  function Enriched(name: string, args: string): string {
    if !LooksLikeShellTool(name) then args else
    match J.ParseText(args)
    case Some(Obj(fields)) =>
      (match DictOf(fields)
       case None => args
       case Some(m) =>
         var command := Lookup(m, "command");
         if Trim(command) == "" || Trim(Lookup(m, "description")) != "" then args
         else J.Print(J.Obj(FieldsOf(Insert(m, "description", DefaultShellDescription(command))))))
    case _ => args
  }

  // ---- normalizeToolCalls -------------------------------------------------------------------------------------

  function Filled(c: Call, id: string): Call {
    var args := if c.arguments == "" then "{}" else c.arguments;
    Call(if c.id == "" then "call_" + id else c.id, if c.kind == "" then "function" else c.kind, c.name,
         Enriched(c.name, args))
  }

  /** The calls that have a name, each changed by `f`, which also gets its position. */
  function MapNamed(calls: seq<Call>, f: (Call, nat) -> Call): seq<Call> {
    if calls == [] then [] else
    var n := |calls| - 1;
    MapNamed(calls[..n], f) + (if calls[n].name == "" then [] else [f(calls[n], n)])
  }

  function Normalized(calls: seq<Call>, uuid: nat -> string): seq<Call> {
    MapNamed(calls, (c: Call, i: nat) => Filled(c, uuid(i)))
  }

  lemma MapNamedSnoc(calls: seq<Call>, c: Call, f: (Call, nat) -> Call)
    ensures MapNamed(calls + [c], f) == MapNamed(calls, f) + (if c.name == "" then [] else [f(c, |calls|)])
  {
    assert (calls + [c])[..|calls|] == calls;
  }

  lemma SkipNameless(calls: seq<Call>, c: Call, f: (Call, nat) -> Call)
    requires c.name == ""
    ensures MapNamed(calls + [c], f) == MapNamed(calls, f)
  {
    MapNamedSnoc(calls, c, f);
  }

  lemma TakeNamed(calls: seq<Call>, c: Call, f: (Call, nat) -> Call)
    requires c.name != ""
    ensures MapNamed(calls + [c], f) == MapNamed(calls, f) + [f(c, |calls|)]
  {
    MapNamedSnoc(calls, c, f);
  }

  /** One round of normalizeToolCalls, for a call that has a name. */
  method Fill(c: Call, id: string) returns (tc: Call)
    ensures tc == Filled(c, id)
  {
    tc := c;
    if tc.id == "" {
      tc := tc.(id := "call_" + id);
    }
    if tc.kind == "" {
      tc := tc.(kind := "function");
    }
    if tc.arguments == "" {
      tc := tc.(arguments := "{}");
    }
    tc := tc.(arguments := Enriched(tc.name, tc.arguments));
  }

  method NormalizeToolCalls(calls: seq<Call>, uuid: nat -> string) returns (out: seq<Call>)
    ensures out == Normalized(calls, uuid)
  {
    ghost var f := (c: Call, i: nat) => Filled(c, uuid(i));
    out := [];
    for i := 0 to |calls|
      invariant out == MapNamed(calls[..i], f)
    {
      assert calls[..i + 1] == calls[..i] + [calls[i]];
      if calls[i].name == "" {
        SkipNameless(calls[..i], calls[i], f);
        continue;
      }
      TakeNamed(calls[..i], calls[i], f);
      var tc := Fill(calls[i], uuid(i));
      out := out + [tc];
    }
    assert calls[..|calls|] == calls;
  }

  // ---- extractBalancedJSON ------------------------------------------------------------------------------------

  /** Opening braces minus closing braces. */
  function Depth(s: string): int {
    Count(s, '{') - Count(s, '}')
  }

  predicate BalancedAt(s: string, n: nat) {
    0 < n <= |s| && Depth(s[..n]) == 0
  }

  /** The shortest non-empty prefix with as many opening as closing braces, if there is one. */
  function FirstBalance(s: string, n: nat): (r: Option<nat>)
    requires n <= |s|
    ensures r.Some? ==> n < r.value && BalancedAt(s, r.value)
    ensures forall k :: n < k < (if r.Some? then r.value else |s| + 1) ==> !BalancedAt(s, k)
    decreases |s| - n
  {
    if n == |s| then None
    else if BalancedAt(s, n + 1) then Some(n + 1)
    else FirstBalance(s, n + 1)
  }

  function Balanced(s: string): string {
    if !HasPrefix(s, "{") || FirstBalance(s, 0).None? then s else s[..FirstBalance(s, 0).value]
  }

  method ExtractBalancedJSON(s: string) returns (r: string)
    ensures r == Balanced(s)
  {
    if !HasPrefix(s, "{") {
      return s;
    }
    var depth := 0;
    for i := 0 to |s|
      invariant depth == Depth(s[..i])
      invariant if i == 0 then depth == 0 else depth > 0
      invariant forall k :: 0 < k <= i ==> !BalancedAt(s, k)
    {
      assert s[..i + 1][..i] == s[..i];
      assert i == 0 ==> s[i] == s[..1][0];
      if s[i] == '{' {
        depth := depth + 1;
      } else if s[i] == '}' {
        depth := depth - 1;
        if depth == 0 {
          assert BalancedAt(s, i + 1);
          return s[..i + 1];
        }
      }
    }
    return s;
  }

  // ---- ParseClientToolCalls -----------------------------------------------------------------------------------

  const FENCE := "```"

  /** What the code fence pattern captures: from the first fence, over an optional "json", to the next fence. */
  function FenceBody(text: string): Option<string> {
    var i := IndexOf(text, FENCE);
    if i < 0 then None else
      var after := text[i + 3..];
      var n := IndexOf(after, FENCE);
      if n < 0 then None
      else if HasPrefix(after[..n], "json") then Some(after[4..n])
      else Some(after[..n])
  }

  /** The text handed to the parser when neither a fence nor the whole text holds tool calls. */
  function Embedded(text: string): Option<string> {
    var idx := IndexOf(text, KEY);
    if idx < 0 then None else
      var start := LastIndexOf(text[..idx], "{");
      if start < 0 then None else Some(Balanced(text[start..]))
  }

  function FencedCalls(text: string): seq<Call> {
    var body := FenceBody(text);
    if body.None? then [] else ParseToolCallsJSON(body.value)
  }

  function EmbeddedCalls(text: string): seq<Call> {
    var body := Embedded(text);
    if body.None? then [] else ParseToolCallsJSON(body.value)
  }

  function FoundIn(text: string): seq<Call> {
    if FencedCalls(text) != [] then FencedCalls(text)
    else if ParseToolCallsJSON(text) != [] then ParseToolCallsJSON(text)
    else EmbeddedCalls(text)
  }

  /** The calls found in a text, as they are written there. */
  function FoundCalls(text: string): seq<Call> {
    FoundIn(Trim(text))
  }

  function ParseClientToolCalls(text: string, uuid: nat -> string): seq<Call> {
    Normalized(FoundCalls(text), uuid)
  }

  predicate LooksLikePendingToolCallsJSON(text: string, uuid: nat -> string) {
    var t := Trim(text);
    && t != ""
    && (|| ParseClientToolCalls(t, uuid) != []
        || (HasPrefix(t, "{") && (Contains(t, KEY) || (ByteLen(t) < 512 && Count(t, '}') < Count(t, '{')))))
  }

  // ---- Parsing undoes printing --------------------------------------------------------------------------------

  lemma AsciiFolds()
    ensures Folded("id") == "id" && Folded("type") == "type" && Folded("function") == "function"
    ensures Folded("name") == "name" && Folded("arguments") == "arguments"
    ensures Folded("tool_calls") == "tool_calls"
  {
  }

  lemma {:induction false} FunctionDecodes(into: Call, name: string, arguments: string)
    ensures DecodeFunction(into, [J.Field("name", J.Str(name)), J.Field("arguments", J.Str(arguments))])
         == Some(into.(name := name, arguments := arguments))
  {
    AsciiFolds();
    var f1, f2 := J.Field("name", J.Str(name)), J.Field("arguments", J.Str(arguments));
    assert [f1, f2][1..] == [f2] && [f2][1..] == [];
    assert DecodeFunction(into.(name := name), [f2]) == Some(into.(name := name, arguments := arguments));
  }

  lemma {:induction false} CallDecodes(c: Call)
    ensures DecodeCall(ZERO, JsonOf(c)) == Some(c)
  {
    AsciiFolds();
    var f1, f2 := J.Field("id", J.Str(c.id)), J.Field("type", J.Str(c.kind));
    var f3 := JsonOf(c).fields[2];
    FunctionDecodes(ZERO.(id := c.id, kind := c.kind), c.name, c.arguments);
    assert [f1, f2, f3][1..] == [f2, f3] && [f2, f3][1..] == [f3] && [f3][1..] == [];
    assert DecodeFields(ZERO.(id := c.id, kind := c.kind), [f3]) == Some(c);
    assert DecodeFields(ZERO.(id := c.id), [f2, f3]) == Some(c);
  }

  function JsonItems(calls: seq<Call>): (r: seq<J.Value>) {
    seq(|calls|, i requires 0 <= i < |calls| => JsonOf(calls[i]))
  }

  lemma {:induction false} ItemsDecode(calls: seq<Call>)
    ensures DecodeItems([], JsonItems(calls)) == Some(calls)
  {
    if calls != [] {
      var n := |calls| - 1;
      ItemsDecode(calls[..n]);
      assert JsonItems(calls)[..n] == JsonItems(calls[..n]);
      CallDecodes(calls[n]);
      assert calls == calls[..n] + [calls[n]];
    }
  }

  lemma EnvelopeDecodes(calls: seq<Call>)
    ensures CallsIn(Envelope(calls)) == calls
  {
    AsciiFolds();
    ItemsDecode(calls);
    var f := J.Field("tool_calls", J.Arr(JsonItems(calls)));
    assert Envelope(calls) == J.Obj([f]);
    assert [f][1..] == [];
    assert DecodeMany([], [f]) == Some(calls);
    assert DecodeOne(ZERO, [f]) == None;
  }

  lemma {:induction false} EnvelopeWellFormed(calls: seq<Call>)
    ensures J.WellFormed(Envelope(calls))
  {
    var v := J.Arr(JsonItems(calls));
    forall i | 0 <= i < |calls| ensures J.WellFormed(v.items[i]) {
      CallWellFormed(calls[i]);
    }
    assert Envelope(calls) == J.Obj([J.Field("tool_calls", v)]);
  }

  lemma CallWellFormed(c: Call)
    ensures J.WellFormed(JsonOf(c))
  {
    var f := JsonOf(c).fields[2].value;
    assert J.WellFormed(f);
  }

  lemma {:induction false} SingleField(f: J.Field)
    ensures J.Print(J.Obj([f])) == "{" + J.PrintField(f) + "}"
  {
    assert J.PrintFields([f]) == J.PrintField(f);
  }

  lemma {:induction false} FieldShape(f: J.Field)
    ensures "{" + J.PrintField(f) + "}" == "{" + J.Quote(f.key) + (":" + J.Print(f.value) + "}")
  {
    var k, v := J.Quote(f.key), J.Print(f.value);
    assert "{" + (k + ":" + v) + "}" == "{" + k + (":" + v + "}");
  }

  lemma PlainQuote(s: string)
    requires forall i :: 0 <= i < |s| ==> Plain(s[i])
    ensures J.Quote(s) == "\"" + s + "\""
  {
    PlainEscapes(s);
  }

  lemma KeyIsQuoted()
    ensures J.Quote("tool_calls") == KEY
  {
    PlainQuote("tool_calls");
  }

  /** What follows the key. */
  function Remainder(calls: seq<Call>): string {
    ":" + J.Print(J.Arr(JsonItems(calls))) + "}"
  }

  lemma PrintedShape(calls: seq<Call>)
    ensures Printed(calls) == "{" + KEY + Remainder(calls)
  {
    var f := J.Field("tool_calls", J.Arr(JsonItems(calls)));
    assert Envelope(calls) == J.Obj([f]);
    SingleField(f);
    FieldShape(f);
    KeyIsQuoted();
  }

  lemma PrintedTight(calls: seq<Call>)
    ensures Tight(Printed(calls))
  {
    PrintedShape(calls);
    var r := Remainder(calls);
    assert r[|r| - 1] == '}';
    EndsTight("{" + KEY, r);
  }

  lemma EndsTight(a: string, b: string)
    requires a != "" && b != "" && !IsSpace(a[0]) && !IsSpace(b[|b| - 1])
    ensures Tight(a + b)
  {
  }

  predicate Plain(c: char) {
    'a' <= c <= 'z' || c in "_`[]{}"
  }

  lemma {:induction false} PlainEscapes(s: string)
    requires forall i :: 0 <= i < |s| ==> Plain(s[i])
    ensures J.Escape(s) == s
  {
    if s != "" {
      PlainEscapes(s[1..]);
      assert J.EscapeChar(s[0]) == [s[0]];
    }
  }

  lemma {:induction false} TextParses(s: string, v: J.Value)
    requires Tight(s) && J.ParseText(s) == Some(v)
    ensures ParseToolCallsJSON(s) == CallsIn(v)
  {
    TrimTight(s);
  }

  lemma PrintedParses(calls: seq<Call>)
    ensures ParseToolCallsJSON(Printed(calls)) == calls
  {
    PrintedTight(calls);
    EnvelopeWellFormed(calls);
    J.ReadingUndoesWriting(Envelope(calls));
    TextParses(Printed(calls), Envelope(calls));
    EnvelopeDecodes(calls);
  }

  /** Exactly what parsing a printed list finds: the calls themselves, unless a code fence inside one of the strings
      holds something that reads as tool calls, which is looked at first. */
  lemma ParsingUndoesPrinting(tcs: seq<E.ToolCall>, uuid: nat -> string)
    requires tcs != []
    ensures var text := Printed(CallsOf(tcs));
      ParseClientToolCalls(text, uuid)
      == Normalized(if FencedCalls(text) == [] then CallsOf(tcs) else FencedCalls(text), uuid)
  {
    PrintedTight(CallsOf(tcs));
    PrintedParses(CallsOf(tcs));
    WholeTextFound(Printed(CallsOf(tcs)), CallsOf(tcs));
  }

  lemma WholeTextFound(text: string, calls: seq<Call>)
    requires Tight(text) && ParseToolCallsJSON(text) == calls && calls != []
    ensures FoundCalls(text) == (if FencedCalls(text) == [] then calls else FencedCalls(text))
  {
    TrimTight(text);
  }

  lemma FoundInTrimmed(text: string)
    ensures FoundCalls(Trim(text)) == FoundCalls(text)
  {
    TrimIdempotent(text);
  }

  lemma NothingToParse(text: string)
    requires text == ""
    ensures ParseToolCallsJSON(text) == []
  {
    BlankTrimsAway(text);
  }

  lemma NoKeyInNothing(text: string)
    requires text == ""
    ensures FenceBody(text) == None && Embedded(text) == None
  {
  }

  lemma ParseOfTrimmed(text: string, uuid: nat -> string)
    ensures ParseClientToolCalls(Trim(text), uuid) == ParseClientToolCalls(text, uuid)
  {
    FoundInTrimmed(text);
  }

  lemma NothingInBlank(text: string, uuid: nat -> string)
    requires Trim(text) == ""
    ensures ParseClientToolCalls(text, uuid) == []
  {
    NothingToParse(Trim(text));
    NoKeyInNothing(Trim(text));
  }

  lemma BlankIsNotPending(text: string, uuid: nat -> string)
    requires Blank(text)
    ensures !LooksLikePendingToolCallsJSON(text, uuid)
  {
    BlankTrimsAway(text);
  }

  /** An opening brace is held back, as long as nothing has closed it. */
  lemma OpenBraceIsPending(blank: string, uuid: nat -> string)
    requires Blank(blank)
    ensures LooksLikePendingToolCallsJSON(blank + "{", uuid)
  {
    TrimAround(blank, "{", "");
    assert blank + "{" + "" == blank + "{";
    BlankLeft(blank);
    OneBrace("{");
    UnclosedIsPending(blank + "{", "{", uuid);
  }

  lemma OneBrace(t: string)
    requires t == "{"
    ensures Count(t, '{') == 1 && Count(t, '}') == 0 && ByteLen(t) == 1
  {
    assert t[..0] == "" && t[1..] == "";
  }

  lemma UnclosedIsPending(text: string, t: string, uuid: nat -> string)
    requires Trim(text) == t && HasPrefix(t, "{") && ByteLen(t) < 512 && Count(t, '}') < Count(t, '{')
    ensures LooksLikePendingToolCallsJSON(text, uuid)
  {
  }

  lemma {:induction false} BlankLeft(s: string)
    requires Blank(s)
    ensures TrimLeft(s) == ""
  {
    if s != "" {
      BlankLeft(s[1..]);
    }
  }

  /** Text that parses as tool calls is always recognised as pending. */
  lemma ParsedLooksPending(text: string, uuid: nat -> string)
    requires ParseClientToolCalls(text, uuid) != []
    ensures LooksLikePendingToolCallsJSON(text, uuid)
  {
    if Trim(text) == "" {
      NothingInBlank(text, uuid);
    } else {
      ParseOfTrimmed(text, uuid);
    }
  }

  // ---- A fence that gets in the way ---------------------------------------------------------------------------

  predicate Tickless(s: string) {
    forall i :: 0 <= i < |s| ==> s[i] != '`'
  }

  lemma FenceAfter(a: string, rest: string)
    requires Tickless(a)
    ensures IndexOf(a + FENCE + rest, FENCE) == |a|
  {
    var s := a + FENCE + rest;
    assert s[|a|..|a| + 3] == FENCE;
    assert At(s, FENCE, |a|);
    forall j | 0 <= j < |a| ensures !At(s, FENCE, j) {
      assert s[j] == a[j];
      if At(s, FENCE, j) {
        AtChar(s, FENCE, j, 0);
      }
    }
  }

  lemma NoFence(s: string)
    requires Tickless(s)
    ensures FencedCalls(s) == []
  {
    var i := IndexOf(s, FENCE);
    if i >= 0 {
      AtChar(s, FENCE, i, 0);
    }
  }

  lemma NoKey(s: string)
    requires !Contains(s, KEY)
    ensures EmbeddedCalls(s) == []
  {
  }

  lemma {:induction false} OtherKeyHasNoCalls(f: J.Field)
    requires |f.key| != |"tool_calls"|
    ensures CallsIn(J.Obj([f])) == []
  {
    assert |Folded(f.key)| != |"tool_calls"|;
    assert [f][1..] == [];
    assert DecodeMany([], [f][1..]) == Some([]);
    assert DecodeOne(ZERO, [f][1..]) == Some(ZERO);
  }

  /** JSON that is no tool call, behind white space, is no tool call for the parser. */
  lemma {:induction false} OtherJsonHasNoCalls(blank: string, v: J.Value, uuid: nat -> string)
    requires Blank(blank) && v.Obj? && J.WellFormed(v) && CallsIn(v) == []
    requires Tickless(J.Print(v)) && !Contains(J.Print(v), KEY)
    ensures ParseClientToolCalls(blank + J.Print(v), uuid) == []
  {
    var text := J.Print(v);
    ObjectTight(v);
    TrimAround(blank, text, "");
    BlankLeft(blank);
    assert blank + text + "" == blank + text;
    assert Trim(blank + text) == text;
    J.ReadingUndoesWriting(v);
    TextParses(text, v);
    NoFence(text);
    NoKey(text);
  }

  lemma {:induction false} ObjectTight(v: J.Value)
    requires v.Obj?
    ensures Tight(J.Print(v)) && HasPrefix(J.Print(v), "{")
  {
    if v.fields == [] {
      assert J.Print(v) == "{}";
    } else {
      assert J.Print(v) == "{" + J.PrintFields(v.fields) + "}";
    }
  }

  lemma FenceBetween(a: string, b: string, c: string)
    requires Tickless(a) && Tickless(b) && !HasPrefix(b, "json")
    ensures FenceBody(a + FENCE + (b + FENCE + c)) == Some(b)
  {
    FenceAfter(a, b + FENCE + c);
    FenceAfter(b, c);
    assert (a + FENCE + (b + FENCE + c))[|a| + 3..] == b + FENCE + c;
    assert (b + FENCE + c)[..|b|] == b;
  }

  lemma {:induction false} TicklessEscape(s: string)
    requires Tickless(s)
    ensures Tickless(J.Escape(s))
  {
    if s != "" {
      TicklessEscape(s[1..]);
      assert Tickless(J.EscapeChar(s[0]));
    }
  }

  lemma TicklessConcat(a: string, b: string)
    requires Tickless(a) && Tickless(b)
    ensures Tickless(a + b)
  {
  }

  /** e stands in s with no backtick before it. */
  ghost predicate Holds(s: string, e: string) {
    exists a: string, z: string :: Tickless(a) && s == Around(a, e, z)
  }

  function Around(a: string, e: string, z: string): string {
    a + e + z
  }

  lemma HoldsWrapped(pre: string, s: string, post: string, e: string)
    requires Tickless(pre) && Holds(s, e)
    ensures Holds(pre + s + post, e)
  {
    var a, z :| Tickless(a) && s == Around(a, e, z);
    TicklessConcat(pre, a);
    assert pre + s + post == Around(pre + a, e, z + post);
  }

  lemma TicklessField(f: J.Field)
    requires f.value.Str? && Tickless(f.key) && Tickless(f.value.chars)
    ensures Tickless(J.PrintField(f))
  {
    TicklessEscape(f.key);
    TicklessEscape(f.value.chars);
    TicklessConcat(J.Quote(f.key), ":");
    TicklessConcat(J.Quote(f.key) + ":", J.Quote(f.value.chars));
  }

  lemma {:induction false} FieldHolds(f: J.Field, e: string)
    requires Tickless(f.key) && Holds(J.Print(f.value), e)
    ensures Holds(J.PrintField(f), e)
  {
    TicklessEscape(f.key);
    HoldsWrapped(J.Quote(f.key) + ":", J.Print(f.value), "", e);
    assert J.PrintField(f) == J.Quote(f.key) + ":" + J.Print(f.value) + "";
  }

  /** Whatever the last field of an object holds, the object holds, if there are no backticks before that field. */
  lemma {:induction false} LastFieldHolds(fields: seq<J.Field>, e: string)
    requires fields != [] && Holds(J.PrintField(fields[|fields| - 1]), e)
    requires forall i :: 0 <= i < |fields| - 1 ==> Tickless(J.PrintField(fields[i]))
    ensures Holds(J.PrintFields(fields), e)
  {
    if |fields| > 1 {
      LastFieldHolds(fields[1..], e);
      var head, tail := J.PrintField(fields[0]) + ",", J.PrintFields(fields[1..]);
      TicklessConcat(J.PrintField(fields[0]), ",");
      HoldsWrapped(head, tail, "", e);
      assert J.PrintFields(fields) == head + tail + "";
    }
  }

  lemma {:induction false} ObjectHolds(fields: seq<J.Field>, e: string)
    requires fields != [] && Holds(J.PrintField(fields[|fields| - 1]), e)
    requires forall i :: 0 <= i < |fields| - 1 ==> Tickless(J.PrintField(fields[i]))
    ensures Holds(J.Print(J.Obj(fields)), e)
  {
    LastFieldHolds(fields, e);
    HoldsWrapped("{", J.PrintFields(fields), "}", e);
  }

  lemma {:induction false} PairHolds(key: string, f: J.Field, g: J.Field)
    requires f.value.Str? && Tickless(f.key) && Tickless(f.value.chars)
    requires g.value.Str? && Tickless(g.key) && Tickless(key)
    ensures Holds(J.PrintField(J.Field(key, J.Obj([f, g]))), J.Escape(g.value.chars))
  {
    var e := J.Escape(g.value.chars);
    assert J.Quote(g.value.chars) == Around("\"", e, "\"");
    FieldHolds(g, e);
    TicklessField(f);
    ObjectHolds([f, g], e);
    FieldHolds(J.Field(key, J.Obj([f, g])), e);
  }

  lemma {:induction false} TripleHolds(f: J.Field, g: J.Field, h: J.Field, e: string)
    requires f.value.Str? && Tickless(f.key) && Tickless(f.value.chars)
    requires g.value.Str? && Tickless(g.key) && Tickless(g.value.chars)
    requires Holds(J.PrintField(h), e)
    ensures Holds(J.Print(J.Obj([f, g, h])), e)
  {
    TicklessField(f);
    TicklessField(g);
    ObjectHolds([f, g, h], e);
  }

  lemma {:induction false} ShapeHolds(f: J.Field, g: J.Field, key: string, n: J.Field, a: J.Field)
    requires f.value.Str? && Tickless(f.key) && Tickless(f.value.chars)
    requires g.value.Str? && Tickless(g.key) && Tickless(g.value.chars)
    requires n.value.Str? && Tickless(n.key) && Tickless(n.value.chars)
    requires a.value.Str? && Tickless(a.key) && Tickless(key)
    ensures Holds(J.Print(J.Obj([f, g, J.Field(key, J.Obj([n, a]))])), J.Escape(a.value.chars))
  {
    PairHolds(key, n, a);
    TripleHolds(f, g, J.Field(key, J.Obj([n, a])), J.Escape(a.value.chars));
  }

  lemma TicklessKeys()
    ensures Tickless("id") && Tickless("type") && Tickless("function") && Tickless("name") && Tickless("arguments")
  {
  }

  lemma {:induction false} CallHolds(v: J.Value, c: Call)
    requires v == JsonOf(c) && Tickless(c.id) && Tickless(c.kind) && Tickless(c.name)
    ensures Holds(J.Print(v), J.Escape(c.arguments))
  {
    TicklessKeys();
    ShapeHolds(J.Field("id", J.Str(c.id)), J.Field("type", J.Str(c.kind)), "function",
               J.Field("name", J.Str(c.name)), J.Field("arguments", J.Str(c.arguments)));
  }

  lemma {:induction false} SingleHolds(c: Call)
    requires Tickless(c.id) && Tickless(c.kind) && Tickless(c.name)
    ensures Holds(Printed([c]), J.Escape(c.arguments))
  {
    var items := JsonItems([c]);
    var f := J.Field("tool_calls", J.Arr(items));
    CallHolds(JsonOf(c), c);
    assert items == [JsonOf(c)];
    assert J.PrintItems(items) == J.Print(JsonOf(c));
    HoldsWrapped("[", J.PrintItems(items), "]", J.Escape(c.arguments));
    FieldHolds(f, J.Escape(c.arguments));
    ObjectHolds([f], J.Escape(c.arguments));
  }

  /** An empty object parses as one nameless call, which normalising then drops. */
  lemma {:induction false} EmptyObjectIsNameless()
    ensures ParseToolCallsJSON("[{}]") == [ZERO]
  {
    var items := [J.Obj([])];
    assert J.WellFormed(items[0]);
    J.ReadingUndoesWriting(J.Arr(items));
    assert J.PrintItems(items) == "{}";
    assert J.Print(J.Arr(items)) == "[{}]";
    TextParses("[{}]", J.Arr(items));
    OneNameless(items);
  }

  lemma {:induction false} OneNameless(items: seq<J.Value>)
    requires items == [J.Obj([])]
    ensures DecodeItems([], items) == Some([ZERO])
  {
    assert items[..0] == [];
    assert DecodeItems([], items[..0]) == Some([]);
    assert DecodeFields(ZERO, []) == Some(ZERO);
    assert [] + [ZERO] == [ZERO];
  }

  lemma {:induction false} FencedNameless(text: string, a: string, z: string)
    requires Tickless(a) && text == Around(a, FENCE + "[{}]" + FENCE, z)
    ensures FencedCalls(text) == [ZERO]
  {
    J.OtherHead("[{}]", "json");
    FenceBetween(a, "[{}]", z);
    assert text == a + FENCE + ("[{}]" + FENCE + z);
    EmptyObjectIsNameless();
  }

  lemma FencePlain()
    ensures J.Escape(FENCE + "[{}]" + FENCE) == FENCE + "[{}]" + FENCE
  {
    PlainEscapes(FENCE + "[{}]" + FENCE);
  }

  /** The round trip fails for a call whose arguments hold a code fence around a list of one empty object, whatever its
      id and name: nothing is found. */
  lemma {:induction false} FenceHidesTheCall(tc: E.ToolCall, uuid: nat -> string)
    requires tc.id != "" && tc.name != "" && Tickless(tc.id) && Tickless(tc.name)
    requires tc.args == FENCE + "[{}]" + FENCE
    ensures ParseClientToolCalls(Printed(CallsOf([tc])), uuid) == []
    ensures Normalized(CallsOf([tc]), uuid) != []
  {
    var c := CallOf(tc);
    assert CallsOf([tc]) == [c];
    SingleHolds(c);
    FencePlain();
    var a, z :| Tickless(a) && Printed([c]) == Around(a, FENCE + "[{}]" + FENCE, z);
    FencedNameless(Printed([c]), a, z);
    ParsingUndoesPrinting([tc], uuid);
    OneNormalized(ZERO, uuid);
    OneNormalized(c, uuid);
  }

  lemma OneNormalized(c: Call, uuid: nat -> string)
    ensures Normalized([c], uuid) == [] <==> c.name == ""
  {
    var f := (c: Call, i: nat) => Filled(c, uuid(i));
    assert [c][..0] == [];
    assert MapNamed([c], f) == MapNamed([], f) + (if c.name == "" then [] else [f(c, 0)]);
  }

  // ---- Normalising twice --------------------------------------------------------------------------------------

  lemma {:induction false} InsertAscending(m: Dict, k: string, v: string)
    requires Ascending(m)
    ensures Ascending(Insert(m, k, v))
    ensures forall p :: p in Insert(m, k, v) ==> p == (k, v) || p in m
  {
    if m != [] && k != m[0].0 && !Less(k, m[0].0) {
      var r := Insert(m[1..], k, v);
      InsertAscending(m[1..], k, v);
      LessTotal(k, m[0].0);
      forall i | 0 <= i < |r| ensures Less(m[0].0, r[i].0) {
        assert r[i] in r;
        if r[i] != (k, v) {
          var j :| 0 <= j < |m| - 1 && m[1..][j] == r[i];
          assert Less(m[0].0, m[j + 1].0);
        }
      }
    } else if m != [] && Less(k, m[0].0) {
      forall i | 0 <= i < |m| ensures Less(k, m[i].0) {
        if i > 0 {
          LessTrans(k, m[0].0, m[i].0);
        }
      }
    }
  }

  lemma {:induction false} InsertLast(m: Dict, k: string, v: string)
    requires forall i :: 0 <= i < |m| ==> Less(m[i].0, k)
    ensures Insert(m, k, v) == m + [(k, v)]
  {
    if m != [] {
      LessAsym(k, m[0].0);
      InsertLast(m[1..], k, v);
      assert [m[0]] + (m[1..] + [(k, v)]) == m + [(k, v)];
    }
  }

  lemma LastEntry(m: Dict)
    requires m != []
    ensures m[..|m| - 1] + [(m[|m| - 1].0, m[|m| - 1].1)] == m
  {
  }

  lemma {:induction false} DictDecodes(m: Dict)
    requires Ascending(m)
    ensures DictOf(FieldsOf(m)) == Some(m)
  {
    if m != [] {
      var n := |m| - 1;
      DictDecodes(m[..n]);
      assert FieldsOf(m)[..n] == FieldsOf(m[..n]);
      InsertLast(m[..n], m[n].0, m[n].1);
      LastEntry(m);
    }
  }

  lemma {:induction false} DictAscends(fields: seq<J.Field>)
    requires DictOf(fields).Some?
    ensures Ascending(DictOf(fields).value)
  {
    if fields != [] {
      var n := |fields| - 1;
      DictAscends(fields[..n]);
      InsertAscending(DictOf(fields[..n]).value, fields[n].key, DecodeString("", fields[n].value).value);
    }
  }

  lemma {:induction false} LookupInserted(m: Dict, k: string, v: string, x: string)
    ensures Lookup(Insert(m, k, v), x) == if x == k then v else Lookup(m, x)
  {
    if m != [] && k != m[0].0 && !Less(k, m[0].0) {
      LookupInserted(m[1..], k, v, x);
    }
  }

  lemma {:induction false} DictWellFormed(m: Dict)
    ensures J.WellFormed(J.Obj(FieldsOf(m)))
  {
  }

  lemma {:induction false} DictReads(m: Dict)
    requires Ascending(m)
    ensures J.ParseText(J.Print(J.Obj(FieldsOf(m)))) == Some(J.Obj(FieldsOf(m)))
    ensures DictOf(FieldsOf(m)) == Some(m)
  {
    DictWellFormed(m);
    J.ReadingUndoesWriting(J.Obj(FieldsOf(m)));
    DictDecodes(m);
  }

  /** Arguments that have a description stay as they are. */
  lemma {:induction false} DescribedStays(name: string, args: string, m: Dict)
    requires J.ParseText(args).Some? && J.ParseText(args).value.Obj?
    requires DictOf(J.ParseText(args).value.fields) == Some(m) && Trim(Lookup(m, "description")) != ""
    ensures Enriched(name, args) == args
  {
  }

  /** A description was added: the arguments are a printed map with a description. */
  ghost predicate PrintedWithDescription(args: string, m: Dict) {
    Ascending(m) && Trim(Lookup(m, "description")) != "" && args == J.Print(J.Obj(FieldsOf(m)))
  }

  lemma {:induction false} PrintedDescriptionStays(name: string, args: string, m: Dict)
    requires PrintedWithDescription(args, m)
    ensures args != "" && Enriched(name, args) == args
  {
    DictReads(m);
    DescribedStays(name, args, m);
  }

  lemma {:induction false} DescriptionAdded(m: Dict, described: string)
    requires Ascending(m) && Tight(described)
    ensures var m1 := Insert(m, "description", described);
      PrintedWithDescription(J.Print(J.Obj(FieldsOf(m1))), m1)
  {
    InsertAscending(m, "description", described);
    LookupInserted(m, "description", described, "description");
    TrimTight(described);
  }

  lemma {:induction false} EnrichedChanges(name: string, args: string) returns (m: Dict)
    requires Enriched(name, args) != args
    ensures PrintedWithDescription(Enriched(name, args), m)
  {
    var before := DictOf(J.ParseText(args).value.fields).value;
    var described := DefaultShellDescription(Lookup(before, "command"));
    m := Insert(before, "description", described);
    DictAscends(J.ParseText(args).value.fields);
    DescriptionAdded(before, described);
  }

  lemma {:induction false} EnrichedTwice(name: string, args: string)
    ensures Enriched(name, Enriched(name, args)) == Enriched(name, args)
    ensures args != "" ==> Enriched(name, args) != ""
  {
    if Enriched(name, args) != args {
      var m := EnrichedChanges(name, args);
      PrintedDescriptionStays(name, Enriched(name, args), m);
    }
  }

  lemma FilledTwice(c: Call, id: string, again: string)
    requires c.name != ""
    ensures Filled(c, id).name == c.name && Filled(Filled(c, id), again) == Filled(c, id)
  {
    EnrichedTwice(c.name, if c.arguments == "" then "{}" else c.arguments);
  }

  /** f keeps names, and g leaves alone what f returns. */
  ghost predicate Settles(f: (Call, nat) -> Call, g: (Call, nat) -> Call) {
    && (forall c: Call, i: nat :: c.name != "" ==> f(c, i).name != "")
    && (forall c: Call, i: nat, j: nat :: c.name != "" ==> g(f(c, i), j) == f(c, i))
  }

  lemma {:induction false} MapNamedTwice(calls: seq<Call>, f: (Call, nat) -> Call, g: (Call, nat) -> Call)
    requires Settles(f, g)
    ensures MapNamed(MapNamed(calls, f), g) == MapNamed(calls, f)
  {
    if calls != [] {
      var n := |calls| - 1;
      var out := MapNamed(calls[..n], f);
      MapNamedTwice(calls[..n], f, g);
      if calls[n].name == "" {
        assert out + [] == out;
      } else {
        MapNamedSnoc(out, f(calls[n], n), g);
      }
    }
  }

  /** Normalising again changes nothing, whatever ids are drawn the second time. */
  lemma {:induction false} NormalizedTwice(calls: seq<Call>, uuid: nat -> string, again: nat -> string)
    ensures Normalized(Normalized(calls, uuid), again) == Normalized(calls, uuid)
  {
    var f, g := (c: Call, i: nat) => Filled(c, uuid(i)), (c: Call, i: nat) => Filled(c, again(i));
    forall c: Call, i: nat, j: nat | c.name != "" ensures f(c, i).name != "" && g(f(c, i), j) == f(c, i) {
      FilledTwice(c, uuid(i), again(j));
    }
    forall c: Call, i: nat | c.name != "" ensures f(c, i).name != "" {
      FilledTwice(c, uuid(i), "");
    }
    MapNamedTwice(calls, f, g);
  }

  // ---- What normalising keeps, field by field -----------------------------------------------------------------

  /** The object with these fields as json.Unmarshal reads it into a map from strings to strings: the last of equal keys
      counts, null is the empty string, and any other value is an error. */
  function MapOf(fields: seq<J.Field>): Option<map<string, string>> {
    if fields == [] then Some(map[]) else
    var f := fields[|fields| - 1];
    match MapOf(fields[..|fields| - 1])
    case None => None
    case Some(m) =>
      (match f.value
       case Str(s) => Some(m[f.key := s])
       case Null => Some(m[f.key := ""])
       case _ => None)
  }

  /** The arguments of a call as a map, if they are an object of strings. */
  function ArgumentsOf(text: string): Option<map<string, string>> {
    match J.ParseText(text)
    case Some(Obj(fields)) => MapOf(fields)
    case _ => None
  }

  function Get(m: map<string, string>, k: string): string {
    if k in m then m[k] else ""
  }

  /** How the arguments of a call with this name may change: not at all, unless it is a call of a shell tool with a
      command and without a description. Then a description comes into the map, and nothing else changes in it. */
  predicate KeepsArguments(name: string, before: string, after: string) {
    var m := ArgumentsOf(before);
    if !LooksLikeShellTool(name) || m.None? || Blank(Get(m.value, "command")) || !Blank(Get(m.value, "description"))
    then after == before
    else
      var words := if Contains(ToLower(m.value["command"]), "date") then "Get local system date and time"
                   else "Execute shell command";
      ArgumentsOf(after) == Some(m.value["description" := words])
  }

  function AsMap(m: Dict): map<string, string> {
    if m == [] then map[] else AsMap(m[1..])[m[0].0 := m[0].1]
  }

  lemma {:induction false} InsertedAsMap(m: Dict, k: string, v: string)
    ensures AsMap(Insert(m, k, v)) == AsMap(m)[k := v]
  {
    if m != [] {
      if k == m[0].0 {
        assert ([(k, v)] + m[1..])[1..] == m[1..];
      } else if Less(k, m[0].0) {
        assert ([(k, v)] + m)[1..] == m;
      } else {
        var r := Insert(m[1..], k, v);
        InsertedAsMap(m[1..], k, v);
        assert ([m[0]] + r)[1..] == r;
      }
    }
  }

  lemma {:induction false} LookupAsMap(m: Dict, k: string)
    ensures Lookup(m, k) == Get(AsMap(m), k)
  {
    if m != [] && m[0].0 != k { LookupAsMap(m[1..], k); }
  }

  lemma {:induction false} DictAsMap(fields: seq<J.Field>)
    ensures MapOf(fields) == if DictOf(fields).Some? then Some(AsMap(DictOf(fields).value)) else None
  {
    if fields != [] {
      var n := |fields| - 1;
      DictAsMap(fields[..n]);
      if DictOf(fields[..n]).Some? && DecodeString("", fields[n].value).Some? {
        InsertedAsMap(DictOf(fields[..n]).value, fields[n].key, DecodeString("", fields[n].value).value);
      }
    }
  }

  lemma {:induction false} DictArguments(m: Dict)
    requires Ascending(m)
    ensures ArgumentsOf(J.Print(J.Obj(FieldsOf(m)))) == Some(AsMap(m))
  {
    DictReads(m);
    DictAsMap(FieldsOf(m));
  }

  lemma DateCommand(lower: string)
    ensures Contains(lower, "date") <==> Contains(lower, "get-date") || Contains(lower, "date")
  {
    var i := IndexOf(lower, "get-date");
    if i >= 0 {
      assert lower[i + 4..i + 8] == lower[i..i + 8][4..];
      assert At(lower, "date", i + 4);
    }
  }

  /** What the two look-ups of Enriched see. */
  lemma {:induction false} EnrichedLooks(args: string, m: Dict)
    requires J.ParseText(args).Some? && J.ParseText(args).value.Obj?
    requires DictOf(J.ParseText(args).value.fields) == Some(m)
    ensures Ascending(m) && ArgumentsOf(args) == Some(AsMap(m))
    ensures Trim(Lookup(m, "command")) == "" <==> Blank(Get(AsMap(m), "command"))
    ensures Trim(Lookup(m, "description")) == "" <==> Blank(Get(AsMap(m), "description"))
    ensures Lookup(m, "command") == Get(AsMap(m), "command")
  {
    DictAscends(J.ParseText(args).value.fields);
    DictAsMap(J.ParseText(args).value.fields);
    LookupAsMap(m, "command");
    LookupAsMap(m, "description");
    BlankTrimsAway(Lookup(m, "command"));
    BlankTrimsAway(Lookup(m, "description"));
  }

  lemma {:induction false} DescribedArguments(m: Dict, words: string)
    requires Ascending(m)
    ensures ArgumentsOf(J.Print(J.Obj(FieldsOf(Insert(m, "description", words))))) == Some(AsMap(m)["description" := words])
  {
    InsertAscending(m, "description", words);
    DictArguments(Insert(m, "description", words));
    InsertedAsMap(m, "description", words);
  }

  lemma {:induction false} NoDictNoChange(name: string, args: string)
    requires !LooksLikeShellTool(name) || ArgumentsOf(args).None?
    ensures Enriched(name, args) == args
  {
    var v := J.ParseText(args);
    if v.Some? && v.value.Obj? { DictAsMap(v.value.fields); }
  }

  lemma {:induction false} EnrichedKeeps(name: string, args: string)
    ensures KeepsArguments(name, args, Enriched(name, args))
  {
    if !LooksLikeShellTool(name) || ArgumentsOf(args).None? {
      NoDictNoChange(name, args);
    } else {
      var fields := J.ParseText(args).value.fields;
      DictAsMap(fields);
      var m := DictOf(fields).value;
      EnrichedLooks(args, m);
      var command := Lookup(m, "command");
      DateCommand(ToLower(command));
      DescribedArguments(m, DefaultShellDescription(command));
    }
  }

  /** What a call becomes: its name stays, and its id and its kind if it has them; it gets the drawn id and the kind
      "function" otherwise, and arguments that are empty become an empty object. */
  predicate Settled(c: Call, r: Call, id: string) {
    && r.name == c.name
    && r.id == (if c.id != "" then c.id else "call_" + id)
    && r.kind == (if c.kind != "" then c.kind else "function")
    && KeepsArguments(c.name, if c.arguments != "" then c.arguments else "{}", r.arguments)
  }

  lemma FilledSettles(c: Call, id: string)
    ensures Settled(c, Filled(c, id), id)
  {
    EnrichedKeeps(c.name, if c.arguments == "" then "{}" else c.arguments);
  }

  /** The positions of the calls that have a name, in order. */
  ghost predicate NamedAt(names: seq<string>, at: seq<nat>) {
    && (forall j :: 0 <= j < |at| ==> at[j] < |names| && names[at[j]] != "")
    && (forall i, j :: 0 <= i < j < |at| ==> at[i] < at[j])
    && (forall k :: 0 <= k < |names| && names[k] != "" ==> k in at)
  }

  function Names(calls: seq<Call>): (r: seq<string>)
    ensures |r| == |calls| && forall i :: 0 <= i < |r| ==> r[i] == calls[i].name
  {
    seq(|calls|, i requires 0 <= i < |calls| => calls[i].name)
  }

  lemma NamedSnoc(names: seq<string>, name: string, at: seq<nat>)
    requires NamedAt(names, at)
    ensures NamedAt(names + [name], if name == "" then at else at + [|names|])
  {
    var all := names + [name];
    var next := if name == "" then at else at + [|names|];
    forall k | 0 <= k < |all| && all[k] != "" ensures k in next {
      if k < |names| { assert names[k] == all[k]; } else { assert next[|at|] == k; }
    }
  }

  /** `out` holds what f makes of the calls at these positions. */
  ghost predicate Maps(calls: seq<Call>, f: (Call, nat) -> Call, at: seq<nat>, out: seq<Call>) {
    && |out| == |at|
    && forall j :: 0 <= j < |at| ==> at[j] < |calls| && out[j] == f(calls[at[j]], at[j])
  }

  lemma MapsSnoc(calls: seq<Call>, c: Call, f: (Call, nat) -> Call, at: seq<nat>, out: seq<Call>)
    requires Maps(calls, f, at, out)
    ensures Maps(calls + [c], f, at, out)
    ensures Maps(calls + [c], f, at + [|calls|], out + [f(c, |calls|)])
  {
    assert forall j :: 0 <= j < |at| ==> (calls + [c])[at[j]] == calls[at[j]];
  }

  lemma NamesSnoc(calls: seq<Call>, c: Call)
    ensures Names(calls + [c]) == Names(calls) + [c.name]
  {
  }

  lemma {:induction false} MapNamedAt(calls: seq<Call>, f: (Call, nat) -> Call, out: seq<Call>) returns (at: seq<nat>)
    requires out == MapNamed(calls, f)
    ensures NamedAt(Names(calls), at) && Maps(calls, f, at, out)
  {
    if calls == [] {
      at := [];
    } else {
      var before, c := calls[..|calls| - 1], calls[|calls| - 1];
      assert calls == before + [c];
      var was := MapNamed(before, f);
      at := MapNamedAt(before, f, was);
      NamedSnoc(Names(before), c.name, at);
      NamesSnoc(before, c);
      MapsSnoc(before, c, f, at, was);
      if c.name == "" {
        SkipNameless(before, c, f);
      } else {
        TakeNamed(before, c, f);
        at := at + [|before|];
      }
    }
  }

  /** Normalising gives one call for each call with a name, in order, and each is settled: with its own name, with an id
      and a kind, and with its own arguments but for the description of a shell command that had none. */
  lemma {:induction false} NormalizedFields(calls: seq<Call>, uuid: nat -> string) returns (at: seq<nat>)
    ensures var out := Normalized(calls, uuid);
      && NamedAt(Names(calls), at) && |out| == |at|
      && forall j :: 0 <= j < |at| ==>
           && Settled(calls[at[j]], out[j], uuid(at[j]))
           && out[j].name != "" && out[j].id != "" && out[j].kind != ""
  {
    var f := (c: Call, i: nat) => Filled(c, uuid(i));
    at := MapNamedAt(calls, f, MapNamed(calls, f));
    forall j | 0 <= j < |at| ensures Settled(calls[at[j]], MapNamed(calls, f)[j], uuid(at[j])) {
      FilledSettles(calls[at[j]], uuid(at[j]));
    }
  }

  /** Which tools are shell tools: by three whole names, or by three words in the name, whatever their case. */
  lemma ShellToolsAre(name: string)
    ensures LooksLikeShellTool(name) <==>
      var n := ToLower(name);
      || n == "exec" || n == "run" || n == "run_command"
      || Contains(n, "bash") || Contains(n, "shell") || Contains(n, "terminal")
  {
    var n := ToLower(name);
    if n == "bash" { assert At(n, "bash", 0); }
    if n == "shell" { assert At(n, "shell", 0); }
    if n == "terminal" { assert At(n, "terminal", 0); }
    if n == "run_terminal_cmd" { assert At(n, "terminal", 4); }
    if n == "run_shell_command" { assert At(n, "shell", 4); }
  }

  // ---- A printed call comes back as it was --------------------------------------------------------------------

  /** The name by which a tool call is printed. */
  function NameOf(tc: E.ToolCall): string {
    if tc.name != "" then tc.name else tc.title
  }

  function NamesOf(tcs: seq<E.ToolCall>): (r: seq<string>)
    ensures |r| == |tcs| && forall i :: 0 <= i < |r| ==> r[i] == NameOf(tcs[i])
  {
    seq(|tcs|, i requires 0 <= i < |tcs| => NameOf(tcs[i]))
  }

  /** A tool call of the agent as the client gets it. */
  predicate Delivers(tc: E.ToolCall, r: Call) {
    && r.name == NameOf(tc)
    && r.id == (if tc.id != "" then tc.id else "call_" + NameOf(tc))
    && r.kind == "function"
    && KeepsArguments(r.name, if tc.args != "" then tc.args else "{}", r.arguments)
  }

  /** The printed text itself holds every call: a made id for one that has none, the kind "function", the name or else
      the title, and an empty object for arguments that are empty. */
  lemma PrintedHoldsTheFields(tcs: seq<E.ToolCall>)
    ensures var out := ParseToolCallsJSON(Printed(CallsOf(tcs)));
      && |out| == |tcs|
      && forall i :: 0 <= i < |tcs| ==>
           && out[i].id == (if tcs[i].id != "" then tcs[i].id else "call_" + NameOf(tcs[i]))
           && out[i].kind == "function" && out[i].name == NameOf(tcs[i])
           && out[i].arguments == (if tcs[i].args != "" then tcs[i].args else "{}")
  {
    PrintedParses(CallsOf(tcs));
  }

  lemma {:induction false} NormalizedDelivers(tcs: seq<E.ToolCall>, uuid: nat -> string) returns (at: seq<nat>)
    ensures var out := Normalized(CallsOf(tcs), uuid);
      && NamedAt(NamesOf(tcs), at) && |out| == |at|
      && forall j :: 0 <= j < |at| ==> Delivers(tcs[at[j]], out[j])
  {
    at := NormalizedFields(CallsOf(tcs), uuid);
    NamesOfCalls(tcs);
    var out := Normalized(CallsOf(tcs), uuid);
    forall j | 0 <= j < |at| ensures Delivers(tcs[at[j]], out[j]) {
      SettledDelivers(tcs[at[j]], out[j], uuid(at[j]));
    }
  }

  lemma NamesOfCalls(tcs: seq<E.ToolCall>)
    ensures Names(CallsOf(tcs)) == NamesOf(tcs)
  {
  }

  lemma SettledDelivers(tc: E.ToolCall, r: Call, id: string)
    requires Settled(CallOf(tc), r, id)
    ensures Delivers(tc, r)
  {
  }

  /** Parsing what was printed gives one call for each tool call with a name or a title, in order, and each comes back
      with its own fields, unless a code fence inside one of the strings holds something that reads as tool calls. */
  lemma {:induction false} ParsedCallsKeepTheirFields(tcs: seq<E.ToolCall>, uuid: nat -> string) returns (at: seq<nat>)
    requires tcs != [] && FencedCalls(Printed(CallsOf(tcs))) == []
    ensures var out := ParseClientToolCalls(Printed(CallsOf(tcs)), uuid);
      && NamedAt(NamesOf(tcs), at) && |out| == |at|
      && forall j :: 0 <= j < |at| ==> Delivers(tcs[at[j]], out[j])
  {
    ParsingUndoesPrinting(tcs, uuid);
    at := NormalizedDelivers(tcs, uuid);
  }

  // ---- An object in the middle of prose -----------------------------------------------------------------------

  /** An object whose first key is "tool_calls", with white space before the key. */
  predicate StartsWithKey(obj: string, ws: string) {
    && (forall i :: 0 <= i < |ws| ==> J.IsWs(ws[i]))
    && HasPrefix(obj, "{" + ws + KEY)
    && obj[|obj| - 1] == '}'
  }

  /** Prose without the key cannot make the key out of its end and the start of the object. */
  lemma NoKeyBefore(p: string, obj: string, ws: string, q: string, j: int)
    requires !Contains(p, KEY) && StartsWithKey(obj, ws) && 0 <= j < |p| + 1 + |ws|
    ensures !At(p + obj + q, KEY, j)
  {
    var t := p + obj + q;
    assert t[|p|] == obj[0] == '{';
    if j > |p| {
      assert t[j] == obj[j - |p|] == ("{" + ws + KEY)[j - |p|] == ws[j - |p| - 1];
    }
    if At(t, KEY, j) {
      if j + |KEY| <= |p| {
        assert p[j..j + |KEY|] == t[j..j + |KEY|];
        assert At(p, KEY, j);
      } else if j <= |p| {
        AtChar(t, KEY, j, |p| - j);
      } else {
        AtChar(t, KEY, j, 0);
      }
    }
  }

  lemma KeyFoundInObject(p: string, obj: string, ws: string, q: string)
    requires !Contains(p, KEY) && StartsWithKey(obj, ws)
    ensures IndexOf(p + obj + q, KEY) == |p| + 1 + |ws|
  {
    var t, at := p + obj + q, |p| + 1 + |ws|;
    assert obj[1 + |ws|..1 + |ws| + |KEY|] == ("{" + ws + KEY)[1 + |ws|..] == KEY;
    assert t[at..at + |KEY|] == obj[1 + |ws|..1 + |ws| + |KEY|];
    assert At(t, KEY, at);
    forall j | 0 <= j < at ensures !At(t, KEY, j) {
      NoKeyBefore(p, obj, ws, q, j);
    }
  }

  lemma BraceFoundInObject(p: string, obj: string, ws: string, q: string)
    requires StartsWithKey(obj, ws)
    ensures LastIndexOf((p + obj + q)[..|p| + 1 + |ws|], "{") == |p|
  {
    var head := (p + obj + q)[..|p| + 1 + |ws|];
    assert obj[..1 + |ws|] == ("{" + ws + KEY)[..1 + |ws|] == "{" + ws;
    assert head == p + ("{" + ws);
    assert head[|p|..|p| + 1] == "{";
    assert At(head, "{", |p|);
    forall j | |p| < j <= |head| ensures !At(head, "{", j) {
      if j < |head| {
        assert head[j] == ws[j - |p| - 1];
      }
      if At(head, "{", j) {
        AtChar(head, "{", j, 0);
      }
    }
  }

  predicate NoShorterBalance(obj: string) {
    forall k :: 0 < k < |obj| ==> !BalancedAt(obj, k)
  }

  /** From an object and whatever follows it, extraction takes the object alone exactly if no shorter piece balances
      and it balances itself or nothing follows. */
  lemma BalancedIsTheObject(obj: string, q: string)
    requires HasPrefix(obj, "{")
    ensures Balanced(obj + q) == obj <==> NoShorterBalance(obj) && (Depth(obj) == 0 || q == "")
  {
    var t := obj + q;
    assert HasPrefix(t, "{") by { assert t[..1] == obj[..1]; }
    forall k | 0 < k <= |obj| ensures BalancedAt(t, k) <==> BalancedAt(obj, k) {
      assert t[..k] == obj[..k];
    }
    assert obj[..|obj|] == obj == t[..|obj|];
    assert q == "" ==> t == obj;
    assert BalancedAt(t, |obj|) <==> Depth(obj) == 0;
    var first := FirstBalance(t, 0);
    if first.Some? {
      assert Balanced(t) == t[..first.value] && BalancedAt(t, first.value);
    } else {
      assert Balanced(t) == t;
    }
  }

  /** From prose, an object and trailing text, exactly the object reaches the parser, provided its braces balance only
      at its end and the prose does not mention the key itself. */
  lemma ObjectReachesTheParser(prose: string, obj: string, ws: string, trailing: string)
    requires !Contains(prose, KEY) && StartsWithKey(obj, ws)
    ensures Embedded(Trim(prose + obj + trailing)) == Some(obj)
       <==> NoShorterBalance(obj) && (Depth(obj) == 0 || TrimRight(trailing) == "")
  {
    ObjectIsTight(obj, ws);
    TrimAround(prose, obj, trailing);
    var p, q := TrimLeft(prose), TrimRight(trailing);
    SuffixLacks(prose, |prose| - |p|, KEY);
    EmbeddedIsBalanced(p, obj, ws, q);
    BalancedIsTheObject(obj, q);
  }

  lemma ObjectIsTight(obj: string, ws: string)
    requires StartsWithKey(obj, ws)
    ensures Tight(obj) && HasPrefix(obj, "{")
  {
    assert obj[0] == ("{" + ws + KEY)[0];
    assert obj[..1] == "{";
  }

  lemma EmbeddedIsBalanced(p: string, obj: string, ws: string, q: string)
    requires !Contains(p, KEY) && StartsWithKey(obj, ws)
    ensures Embedded(p + obj + q) == Some(Balanced(obj + q))
  {
    KeyFoundInObject(p, obj, ws, q);
    BraceFoundInObject(p, obj, ws, q);
    EmbeddedAt(p + obj + q, |p| + 1 + |ws|, |p|);
    DropFirst(p, obj, q);
  }

  lemma EmbeddedAt(t: string, idx: nat, start: nat)
    requires idx <= |t| && IndexOf(t, KEY) == idx && LastIndexOf(t[..idx], "{") == start
    ensures Embedded(t) == Some(Balanced(t[start..]))
  {
  }

  lemma DropFirst(a: string, b: string, c: string)
    ensures (a + b + c)[|a|..] == b + c
  {
  }

  /** What a JSON value starts with. */
  predicate StartsJson(s: string)
    requires s != ""
  {
    || J.IsDigit(s[0]) || s[0] in "{[\"-"
    || HasPrefix(s, "null") || HasPrefix(s, "true") || HasPrefix(s, "false")
  }

  lemma NoNumber(s: string)
    requires s != "" && !J.IsDigit(s[0]) && s[0] != '-'
    ensures J.NumberLen(s) == None
  {
  }

  lemma {:induction false} NoValue(s: string)
    requires s != "" && !J.IsWs(s[0]) && !StartsJson(s)
    ensures J.Parse(s) == None
  {
    NoNumber(s);
    assert J.SkipWs(s) == s;
  }

  /** Prose that starts otherwise is no JSON. */
  lemma {:induction false} ProseIsNotJson(s: string)
    requires Tight(s) && !StartsJson(s)
    ensures ParseToolCallsJSON(s) == []
  {
    TrimTight(s);
    NoValue(s);
  }

  /** A printed list inside a text that is no JSON as a whole is read back, if it reaches the parser and no code fence
      holds calls. ObjectReachesTheParser, which PrintedStartsWithKey makes apply to every printed list, says exactly
      when it does. */
  lemma PrintedInProseParses(calls: seq<Call>, text: string)
    requires calls != [] && ParseToolCallsJSON(Trim(text)) == [] && FencedCalls(Trim(text)) == []
    requires Embedded(Trim(text)) == Some(Printed(calls))
    ensures FoundCalls(text) == calls
  {
    PrintedParses(calls);
  }

  lemma PrintedStartsWithKey(calls: seq<Call>)
    ensures StartsWithKey(Printed(calls), "")
  {
    PrintedShape(calls);
    var obj, r := Printed(calls), Remainder(calls);
    assert "{" + "" + KEY == "{" + KEY;
    assert obj[..|"{" + KEY|] == "{" + KEY;
    assert obj[|obj| - 1] == r[|r| - 1] == '}';
  }

  // ---- What is held back, and what is not ---------------------------------------------------------------------

  lemma {:induction false} NoBracketNoCalls(s: string)
    requires Tight(s) && s[0] != '{' && s[0] != '['
    ensures ParseToolCallsJSON(s) == []
  {
    TrimTight(s);
    assert !J.IsWs(s[0]);
    assert J.SkipWs(s) == s;
  }

  /** Text that is no JSON object or list, has no code fence and does not mention the key. */
  predicate Prosaic(text: string) {
    && (Leading(text) < |text| ==> text[Leading(text)] != '{' && text[Leading(text)] != '[')
    && Tickless(text) && !Contains(text, KEY)
  }

  lemma TrimmedProse(text: string)
    requires Prosaic(text)
    ensures Trim(text) == "" || (Tight(Trim(text)) && Trim(text)[0] != '{' && Trim(text)[0] != '[')
    ensures Tickless(Trim(text)) && !Contains(Trim(text), KEY)
  {
    TrimHead(text);
    TrimLacks(text, KEY);
    TrimTickless(text);
  }

  lemma TrimTickless(text: string)
    requires Tickless(text)
    ensures Tickless(Trim(text))
  {
    var l := text[Leading(text)..];
    assert Trim(text) == l[..EndOfText(l)];
  }

  lemma NothingFound(t: string, uuid: nat -> string)
    requires FencedCalls(t) == [] && ParseToolCallsJSON(t) == [] && EmbeddedCalls(t) == []
    ensures Trim(t) == t ==> ParseClientToolCalls(t, uuid) == []
  {
  }

  lemma NoBraceNotPending(text: string, t: string, uuid: nat -> string)
    requires Trim(text) == t && ParseClientToolCalls(t, uuid) == [] && !HasPrefix(t, "{")
    ensures !LooksLikePendingToolCallsJSON(text, uuid)
  {
  }

  lemma BracePending(text: string, t: string, uuid: nat -> string)
    requires Trim(text) == t && HasPrefix(t, "{")
    ensures LooksLikePendingToolCallsJSON(text, uuid) <==>
      ParseClientToolCalls(t, uuid) != [] || Contains(t, KEY) || (ByteLen(t) < 512 && Count(t, '}') < Count(t, '{'))
  {
  }

  lemma NoCallsInProse(t: string, uuid: nat -> string)
    requires Tight(t) && t[0] != '{' && t[0] != '[' && Tickless(t) && !Contains(t, KEY)
    ensures ParseClientToolCalls(t, uuid) == []
  {
    NoBracketNoCalls(t);
    NoFence(t);
    NoKey(t);
    TrimTight(t);
    NothingFound(t, uuid);
  }

  lemma NoPrefix(s: string, w: string)
    requires w != "" && (s == "" || s[0] != w[0])
    ensures !HasPrefix(s, w)
  {
    if |w| <= |s| { assert s[..|w|][0] == s[0]; }
  }

  /** Ordinary prose holds no tool calls and is not held back. */
  lemma ProseIsNotHeld(text: string, uuid: nat -> string)
    requires Prosaic(text)
    ensures ParseClientToolCalls(text, uuid) == [] && !LooksLikePendingToolCallsJSON(text, uuid)
  {
    var t := Trim(text);
    TrimmedProse(text);
    NoPrefix(t, "{");
    if t == "" {
      NothingInBlank(text, uuid);
    } else {
      NoCallsInProse(t, uuid);
    }
    ParseOfTrimmed(text, uuid);
    NoBraceNotPending(text, t, uuid);
  }

  /** A text grows out of prose. */
  lemma ProseBegins(text: string, n: nat)
    requires Prosaic(text) && n <= |text|
    ensures Prosaic(text[..n])
  {
    PrefixLacks(text, n, KEY);
    assert text[..n] + text[n..] == text;
    if !Blank(text[..n]) {
      LeadingConcat(text[..n], text[n..]);
    }
  }

  /** Text that starts with a brace is held back as soon as it mentions the key, and before that while it is short and
      more of its braces open than close; and otherwise only if it is tool calls already. */
  lemma ObjectIsHeldExactlyWhen(text: string, uuid: nat -> string)
    requires HasPrefix(Trim(text), "{")
    ensures LooksLikePendingToolCallsJSON(text, uuid) <==>
      || Contains(Trim(text), KEY)
      || (ByteLen(Trim(text)) <= 511 && Depth(Trim(text)) > 0)
      || ParseClientToolCalls(text, uuid) != []
  {
    ParseOfTrimmed(text, uuid);
    BracePending(text, Trim(text), uuid);
  }

  // ---- A list in a code fence ---------------------------------------------------------------------------------

  lemma FenceWithJson(a: string, b: string, c: string)
    requires Tickless(a) && Tickless(b)
    ensures FenceBody(a + FENCE + ("json" + b + FENCE + c)) == Some(b)
  {
    var body := "json" + b;
    assert Tickless(body);
    FenceAfter(a, body + FENCE + c);
    FenceAfter(body, c);
    assert (a + FENCE + (body + FENCE + c))[|a| + 3..] == body + FENCE + c;
    assert (body + FENCE + c)[..|body|] == body;
    assert (body + FENCE + c)[4..|body|] == b;
    assert body[..4] == "json";
  }

  lemma TrimPadding(before: string, t: string, after: string)
    requires Tight(t) && Blank(before) && Blank(after)
    ensures Trim(before + t + after) == t
  {
    TrimBlankTail(before + t, after);
    TrimAround(before, t, "");
    BlankLeft(before);
    assert before + t + "" == before + t && "" + t + "" == t;
  }

  lemma SameTrimmed(text: string, t: string)
    requires Trim(text) == Trim(t)
    ensures ParseToolCallsJSON(text) == ParseToolCallsJSON(t)
  {
  }

  lemma {:induction false} PaddedParses(before: string, calls: seq<Call>, after: string)
    requires Blank(before) && Blank(after)
    ensures ParseToolCallsJSON(before + Printed(calls) + after) == calls
  {
    PrintedTight(calls);
    PrintedParses(calls);
    TrimPadding(before, Printed(calls), after);
    TrimTight(Printed(calls));
    SameTrimmed(before + Printed(calls) + after, Printed(calls));
  }

  lemma TicklessThree(a: string, b: string, c: string)
    requires Tickless(a) && Tickless(b) && Tickless(c)
    ensures Tickless(a + b + c)
  {
  }

  lemma FencedIsTight(body: string)
    ensures Tight(FENCE + body + FENCE)
  {
  }

  /** Fences around a body, in a text that is trimmed. */
  lemma FencedFound(t: string, text: string, body: string, calls: seq<Call>)
    requires Trim(text) == t && FenceBody(t) == Some(body) && ParseToolCallsJSON(body) == calls && calls != []
    ensures FoundCalls(text) == calls
  {
  }

  lemma FourJoin(p: string, f: string, word: string, body: string, q: string)
    ensures p + (f + (word + body) + f) + q == p + f + (word + body + f + q)
  {
  }

  lemma {:induction false} BodyIn(p: string, word: string, body: string, q: string)
    requires Tickless(p) && Tickless(body) && (word == "json" || (word == "" && !HasPrefix(body, "json")))
    ensures FenceBody(p + (FENCE + (word + body) + FENCE) + q) == Some(body)
  {
    FourJoin(p, FENCE, word, body, q);
    if word == "json" {
      FenceWithJson(p, body, q);
    } else {
      assert word + body == body;
      FenceBetween(p, body, q);
    }
  }

  lemma {:induction false} BodyFound(prose: string, word: string, body: string, rest: string, calls: seq<Call>)
    requires calls != [] && Tickless(prose) && Tickless(body) && ParseToolCallsJSON(body) == calls
    requires word == "json" || (word == "" && !HasPrefix(body, "json"))
    ensures FoundCalls(prose + (FENCE + (word + body) + FENCE) + rest) == calls
  {
    var p, q := TrimLeft(prose), TrimRight(rest);
    FencedIsTight(word + body);
    TrimAround(prose, FENCE + (word + body) + FENCE, rest);
    BodyIn(p, word, body, q);
    FencedFound(p + (FENCE + (word + body) + FENCE) + q, prose + (FENCE + (word + body) + FENCE) + rest, body, calls);
  }

  /** A printed list in a code fence, with the word json or without, is read out of whatever prose surrounds it. */
  lemma {:induction false} FencedListParses(
    prose: string, word: string, before: string, calls: seq<Call>, after: string, rest: string)
    requires calls != [] && Tickless(prose) && Tickless(Printed(calls)) && Blank(before) && Blank(after)
    requires word == "" || word == "json"
    ensures FoundCalls(prose + (FENCE + (word + (before + Printed(calls) + after)) + FENCE) + rest) == calls
  {
    assert forall i :: 0 <= i < |before| ==> IsSpace(before[i]);
    TicklessThree(before, Printed(calls), after);
    PaddedParses(before, calls, after);
    NoJsonWord(before, calls, after);
    BodyFound(prose, word, before + Printed(calls) + after, rest, calls);
  }

  lemma {:induction false} NoJsonWord(before: string, calls: seq<Call>, after: string)
    requires Blank(before)
    ensures !HasPrefix(before + Printed(calls) + after, "json")
  {
    PrintedShape(calls);
    var s := before + Printed(calls) + after;
    assert s[0] == '{' || IsSpace(s[0]);
    NoPrefix(s, "json");
  }

  // ---- Braces inside strings ----------------------------------------------------------------------------------

  lemma {:induction false} CountConcat(a: string, b: string, c: char)
    ensures Count(a + b, c) == Count(a, c) + Count(b, c)
  {
    if b == "" {
      assert a + b == a;
    } else {
      assert (a + b)[..|a + b| - 1] == a + b[..|b| - 1];
      CountConcat(a, b[..|b| - 1], c);
    }
  }

  lemma DepthConcat(a: string, b: string)
    ensures Depth(a + b) == Depth(a) + Depth(b)
  {
    CountConcat(a, b, '{');
    CountConcat(a, b, '}');
  }

  predicate Braceless(s: string) {
    forall i :: 0 <= i < |s| ==> s[i] != '{' && s[i] != '}'
  }

  lemma {:induction false} BracelessDepth(s: string)
    requires Braceless(s)
    ensures Depth(s) == 0
  {
    if s != "" {
      BracelessDepth(s[..|s| - 1]);
    }
  }

  lemma EscapeCharDepth(c: char)
    ensures Depth(J.EscapeChar(c)) == Depth([c])
  {
    if c != '{' && c != '}' {
      BracelessDepth([c]);
      EscapeCharBraceless(c);
      BracelessDepth(J.EscapeChar(c));
    }
  }

  lemma EscapeCharBraceless(c: char)
    requires c != '{' && c != '}'
    ensures Braceless(J.EscapeChar(c))
  {
  }

  lemma {:induction false} EscapeDepth(s: string)
    ensures Depth(J.Escape(s)) == Depth(s)
  {
    if s != "" {
      EscapeDepth(s[1..]);
      EscapeCharDepth(s[0]);
      DepthConcat(J.EscapeChar(s[0]), J.Escape(s[1..]));
      DepthConcat([s[0]], s[1..]);
      assert [s[0]] + s[1..] == s;
    }
  }

  lemma QuoteDepth(s: string)
    ensures Depth(J.Quote(s)) == Depth(s)
  {
    EscapeDepth(s);
    BracelessDepth("\"");
    DepthConcat("\"", J.Escape(s));
    DepthConcat("\"" + J.Escape(s), "\"");
  }

  lemma FieldDepth(f: J.Field)
    requires Braceless(f.key)
    ensures Depth(J.PrintField(f)) == Depth(J.Print(f.value))
  {
    QuoteDepth(f.key);
    BracelessDepth(f.key);
    BracelessDepth(":");
    DepthConcat(J.Quote(f.key), ":");
    DepthConcat(J.Quote(f.key) + ":", J.Print(f.value));
  }

  lemma {:induction false} StringFieldDepth(f: J.Field)
    requires Braceless(f.key) && f.value.Str?
    ensures Depth(J.PrintField(f)) == Depth(f.value.chars)
  {
    FieldDepth(f);
    QuoteDepth(f.value.chars);
  }

  lemma {:induction false} BracedDepth(fields: seq<J.Field>)
    requires fields != []
    ensures Depth(J.Print(J.Obj(fields))) == Depth(J.PrintFields(fields))
  {
    var inner := J.PrintFields(fields);
    assert "{"[..0] == "" && "}"[..0] == "";
    assert Depth("{") == 1 && Depth("}") == -1;
    DepthConcat("{", inner);
    DepthConcat("{" + inner, "}");
    assert J.Print(J.Obj(fields)) == "{" + inner + "}";
  }

  lemma {:induction false} MoreFieldsDepth(fields: seq<J.Field>)
    requires |fields| > 1
    ensures Depth(J.PrintFields(fields)) == Depth(J.PrintField(fields[0])) + Depth(J.PrintFields(fields[1..]))
  {
    BracelessDepth(",");
    DepthConcat(J.PrintField(fields[0]), ",");
    DepthConcat(J.PrintField(fields[0]) + ",", J.PrintFields(fields[1..]));
  }

  lemma {:induction false} TwoFieldsDepth(f: J.Field, g: J.Field)
    ensures Depth(J.PrintFields([f, g])) == Depth(J.PrintField(f)) + Depth(J.PrintField(g))
  {
    MoreFieldsDepth([f, g]);
    assert [f, g][1..] == [g];
    assert J.PrintFields([g]) == J.PrintField(g);
  }

  lemma {:induction false} ThreeFieldsDepth(f: J.Field, g: J.Field, h: J.Field)
    ensures Depth(J.PrintFields([f, g, h])) == Depth(J.PrintField(f)) + Depth(J.PrintField(g)) + Depth(J.PrintField(h))
  {
    MoreFieldsDepth([f, g, h]);
    assert [f, g, h][1..] == [g, h];
    TwoFieldsDepth(g, h);
  }

  /** The braces that a call's own strings leave open. */
  function OwnDepth(c: Call): int {
    Depth(c.id) + Depth(c.kind) + Depth(c.name) + Depth(c.arguments)
  }

  lemma {:induction false} CallDepth(c: Call)
    ensures Depth(J.Print(JsonOf(c))) == OwnDepth(c)
  {
    ShapeDepth(J.Field("id", J.Str(c.id)), J.Field("type", J.Str(c.kind)), "function",
               J.Field("name", J.Str(c.name)), J.Field("arguments", J.Str(c.arguments)));
  }

  lemma {:induction false} ShapeDepth(i: J.Field, k: J.Field, key: string, n: J.Field, a: J.Field)
    requires i.value.Str? && k.value.Str? && n.value.Str? && a.value.Str?
    requires Braceless(i.key) && Braceless(k.key) && Braceless(key) && Braceless(n.key) && Braceless(a.key)
    ensures Depth(J.Print(J.Obj([i, k, J.Field(key, J.Obj([n, a]))])))
         == Depth(i.value.chars) + Depth(k.value.chars) + Depth(n.value.chars) + Depth(a.value.chars)
  {
    var f := J.Field(key, J.Obj([n, a]));
    StringFieldDepth(n);
    StringFieldDepth(a);
    TwoFieldsDepth(n, a);
    BracedDepth([n, a]);
    FieldDepth(f);
    StringFieldDepth(i);
    StringFieldDepth(k);
    ThreeFieldsDepth(i, k, f);
    BracedDepth([i, k, f]);
  }

  function OwnDepths(calls: seq<Call>): int {
    if calls == [] then 0 else OwnDepth(calls[0]) + OwnDepths(calls[1..])
  }

  lemma {:induction false} ItemsDepth(calls: seq<Call>)
    requires calls != []
    ensures Depth(J.PrintItems(JsonItems(calls))) == OwnDepths(calls)
    decreases |calls|
  {
    var items := JsonItems(calls);
    CallDepth(calls[0]);
    if |calls| == 1 {
      assert OwnDepths(calls[1..]) == 0;
    } else {
      ItemsDepth(calls[1..]);
      assert items[1..] == JsonItems(calls[1..]);
      BracelessDepth(",");
      DepthConcat(J.Print(items[0]), ",");
      DepthConcat(J.Print(items[0]) + ",", J.PrintItems(items[1..]));
    }
  }

  /** The braces of a printed list are balanced exactly as far as those inside its calls' strings are. */
  lemma {:induction false} PrintedDepth(calls: seq<Call>)
    requires calls != []
    ensures Depth(Printed(calls)) == OwnDepths(calls)
  {
    var items := JsonItems(calls);
    var f := J.Field("tool_calls", J.Arr(items));
    ItemsDepth(calls);
    BracelessDepth("[");
    BracelessDepth("]");
    DepthConcat("[", J.PrintItems(items));
    DepthConcat("[" + J.PrintItems(items), "]");
    assert J.Print(J.Arr(items)) == "[" + J.PrintItems(items) + "]";
    FieldDepth(f);
    BracedDepth([f]);
    assert J.PrintFields([f]) == J.PrintField(f);
    assert Envelope(calls) == J.Obj([f]);
  }

  /** Depth moves one step at a time: from above zero to below it, it passes zero. */
  lemma {:induction false} PassesZero(s: string, i: nat, j: nat) returns (k: nat)
    requires i <= j <= |s| && Depth(s[..i]) > 0 && Depth(s[..j]) < 0
    ensures i < k < j && Depth(s[..k]) == 0
    decreases j - i
  {
    assert s[..i + 1][..i] == s[..i];
    if Depth(s[..i + 1]) == 0 {
      k := i + 1;
    } else {
      k := PassesZero(s, i + 1, j);
    }
  }

  /** A printed list does not come out of a text whole when the strings of its calls close more braces than they open,
      and not either when they open more and something follows; whatever the prose before it, without the key. */
  lemma BracesInStringsCutTheObject(calls: seq<Call>, prose: string, trailing: string)
    requires calls != [] && !Contains(prose, KEY)
    requires OwnDepths(calls) < 0 || (OwnDepths(calls) > 0 && TrimRight(trailing) != "")
    ensures Embedded(Trim(prose + Printed(calls) + trailing)) != Some(Printed(calls))
  {
    var obj := Printed(calls);
    PrintedStartsWithKey(calls);
    PrintedDepth(calls);
    ObjectReachesTheParser(prose, obj, "", trailing);
    if OwnDepths(calls) < 0 {
      assert obj[..1] == "{" && "{"[..0] == "";
      assert obj[..|obj|] == obj;
      var k := PassesZero(obj, 1, |obj|);
      assert BalancedAt(obj, k);
    }
  }

  /** For example, a call whose arguments are one closing brace. */
  lemma {:induction false} ClosingBraceCutsTheObject(tc: E.ToolCall, prose: string, trailing: string)
    requires tc.args == "}" && tc.id != "" && tc.name != "" && Braceless(tc.id) && Braceless(tc.name)
    requires !Contains(prose, KEY)
    ensures Embedded(Trim(prose + Printed(CallsOf([tc])) + trailing)) != Some(Printed(CallsOf([tc])))
  {
    var c := CallOf(tc);
    assert CallsOf([tc]) == [c];
    BracelessDepth(c.id);
    BracelessDepth(c.name);
    BracelessDepth("function");
    assert "}"[..0] == "";
    assert OwnDepth(c) == -1;
    assert [c][1..] == [];
    assert OwnDepths([c][1..]) == 0;
    assert OwnDepths([c]) == -1;
    BracesInStringsCutTheObject([c], prose, trailing);
  }

  // ---- A printed list is held from its first character --------------------------------------------------------

  lemma {:induction false} FewBytes(s: string)
    ensures ByteLen(s) <= 4 * |s|
  {
    if s != "" { FewBytes(s[1..]); }
  }

  /** An opening brace and some characters that are no braces. */
  lemma OpenAndShort(text: string, t: string, x: string, uuid: nat -> string)
    requires Trim(text) == t && t == "{" + x && Braceless(x) && |x| < 100
    ensures LooksLikePendingToolCallsJSON(text, uuid)
  {
    OneBrace("{");
    DepthConcat("{", x);
    BracelessDepth(x);
    FewBytes(t);
    BracePending(text, t, uuid);
  }

  lemma WithKeyPending(text: string, t: string, uuid: nat -> string)
    requires Trim(text) == t && HasPrefix(t, "{" + KEY)
    ensures LooksLikePendingToolCallsJSON(text, uuid)
  {
    KeyBehindBrace(t);
    BracePending(text, t, uuid);
  }

  lemma KeyBehindBrace(t: string)
    requires HasPrefix(t, "{" + KEY)
    ensures HasPrefix(t, "{") && Contains(t, KEY)
  {
    var n := |KEY|;
    assert t[..1] == t[..1 + n][..1] == "{";
    assert t[1..1 + n] == t[..1 + n][1..] == KEY;
    assert At(t, KEY, 1);
  }

  /** The beginning of a text that starts with a non-space is trimmed at its end only. */
  lemma TrimBeginning(s: string, n: nat)
    requires s != "" && !IsSpace(s[0]) && 0 < n <= |s|
    ensures var t := Trim(s[..n]); 0 < |t| <= n && t == s[..|t|]
  {
    var p := s[..n];
    assert p[0] == s[0];
    assert Leading(p) == 0 && p[0..] == p;
    var m := EndOfText(p);
    assert Trim(p) == p[..m];
    BlankTrimsAway(p);
    assert p[..m] == s[..m];
  }

  lemma KeyIsBraceless()
    ensures Braceless(KEY) && |KEY| == 12
  {
  }

  lemma BeginningOf(s: string, head: string, rest: string, m: nat)
    requires s == head + rest && m <= |s|
    ensures m <= |head| ==> s[..m] == head[..m]
    ensures m >= |head| ==> HasPrefix(s[..m], head)
  {
    if m >= |head| { assert s[..m][..|head|] == head; }
  }

  /** Whatever part of a printed list has come, it is held back. */
  lemma {:induction false} PrintedIsHeldFromTheStart(calls: seq<Call>, n: nat, uuid: nat -> string)
    requires 0 < n <= |Printed(calls)|
    ensures LooksLikePendingToolCallsJSON(Printed(calls)[..n], uuid)
  {
    var s := Printed(calls);
    PrintedShape(calls);
    PrintedTight(calls);
    TrimBeginning(s, n);
    var t := Trim(s[..n]);
    var m := |t|;
    KeyIsBraceless();
    BeginningOf(s, "{" + KEY, Remainder(calls), m);
    if m >= 1 + |KEY| {
      WithKeyPending(s[..n], t, uuid);
    } else {
      assert ("{" + KEY)[..m] == "{" + KEY[..m - 1];
      OpenAndShort(s[..n], t, KEY[..m - 1], uuid);
    }
  }

  // ---- What is read from any object ---------------------------------------------------------------------------

  /** A key matches in any mixture of cases. */
  lemma FoldsCase(key: string, w: string)
    requires |key| == |w| && forall i :: 0 <= i < |w| ==>
      key[i] == w[i] || ('a' <= w[i] <= 'z' && key[i] as int == w[i] as int - 32)
    requires forall i :: 0 <= i < |w| ==> 'a' <= w[i] <= 'z' || w[i] == '_'
    ensures Folded(key) == w
  {
    assert forall i :: 0 <= i < |w| ==> Folded(key)[i] == w[i];
  }

  /** The text of the last field with this key, up to case, that is a string. */
  function LastText(fields: seq<J.Field>, key: string): Option<string> {
    if fields == [] then None else
    var f := fields[|fields| - 1];
    if Folded(f.key) == key && f.value.Str? then Some(f.value.chars) else LastText(fields[..|fields| - 1], key)
  }

  function OrElse(text: Option<string>, otherwise: string): string {
    if text.Some? then text.value else otherwise
  }

  /** Every field with this key is a string or null. */
  predicate Texts(fields: seq<J.Field>, key: string) {
    forall i :: 0 <= i < |fields| && Folded(fields[i].key) == key ==> fields[i].value.Str? || fields[i].value.Null?
  }

  lemma {:induction false} LastTextConcat(a: seq<J.Field>, b: seq<J.Field>, key: string)
    ensures LastText(a + b, key) == if LastText(b, key).Some? then LastText(b, key) else LastText(a, key)
  {
    if b == [] {
      assert a + b == a;
    } else {
      var n := |b| - 1;
      assert (a + b)[..|a + b| - 1] == a + b[..n] && (a + b)[|a + b| - 1] == b[n];
      LastTextConcat(a, b[..n], key);
    }
  }

  lemma {:induction false} LastTextOne(f: J.Field, key: string)
    ensures LastText([f], key) == if Folded(f.key) == key && f.value.Str? then Some(f.value.chars) else None
  {
    assert [f][..0] == [];
  }

  /** One field in front matters only if no later one does. */
  lemma {:induction false} FrontText(fields: seq<J.Field>, key: string, into: string)
    requires fields != []
    ensures var f, rest := fields[0], fields[1..];
      && (Texts(fields, key) <==> Texts(rest, key) && (Folded(f.key) == key ==> f.value.Str? || f.value.Null?))
      && OrElse(LastText(fields, key), into)
         == OrElse(LastText(rest, key), if Folded(f.key) == key && f.value.Str? then f.value.chars else into)
  {
    var f, rest := fields[0], fields[1..];
    assert fields == [f] + rest;
    LastTextConcat([f], rest, key);
    LastTextOne(f, key);
    assert forall i :: 0 <= i < |rest| ==> rest[i] == fields[i + 1];
  }

  /** The name and the arguments of a function object: the last string under that key counts, in whatever order and
      spelling they come, null leaves what was there, other keys do not matter, and any other value is an error. */
  lemma {:induction false} FunctionReads(into: Call, fields: seq<J.Field>)
    ensures DecodeFunction(into, fields)
         == if Texts(fields, "name") && Texts(fields, "arguments")
            then Some(into.(name := OrElse(LastText(fields, "name"), into.name),
                            arguments := OrElse(LastText(fields, "arguments"), into.arguments)))
            else None
    decreases |fields|
  {
    if fields != [] {
      var f := fields[0];
      var key := Folded(f.key);
      FrontText(fields, "name", into.name);
      FrontText(fields, "arguments", into.arguments);
      var next := if key == "name" && f.value.Str? then into.(name := f.value.chars)
                  else if key == "arguments" && f.value.Str? then into.(arguments := f.value.chars)
                  else into;
      FunctionReads(next, fields[1..]);
    }
  }

  /** The fields of all function objects, one after the other. */
  function Inner(fields: seq<J.Field>): seq<J.Field> {
    if fields == [] then [] else
    (if Folded(fields[0].key) == "function" && fields[0].value.Obj? then fields[0].value.fields else []) + Inner(fields[1..])
  }

  predicate Objects(fields: seq<J.Field>) {
    forall i :: 0 <= i < |fields| && Folded(fields[i].key) == "function" ==> fields[i].value.Obj? || fields[i].value.Null?
  }

  /** The object can be read as a call. */
  predicate Readable(fields: seq<J.Field>) {
    && Texts(fields, "id") && Texts(fields, "type") && Objects(fields)
    && Texts(Inner(fields), "name") && Texts(Inner(fields), "arguments")
  }

  function ReadOver(into: Call, fields: seq<J.Field>): Call {
    Call(OrElse(LastText(fields, "id"), into.id), OrElse(LastText(fields, "type"), into.kind),
         OrElse(LastText(Inner(fields), "name"), into.name), OrElse(LastText(Inner(fields), "arguments"), into.arguments))
  }

  lemma TextsConcat(a: seq<J.Field>, b: seq<J.Field>, key: string)
    ensures Texts(a + b, key) <==> Texts(a, key) && Texts(b, key)
  {
    var c := a + b;
    assert forall i :: 0 <= i < |a| ==> c[i] == a[i];
    assert forall i :: 0 <= i < |b| ==> c[|a| + i] == b[i];
  }

  /** The function objects behind a field, with that of the field itself in front. */
  lemma {:induction false} FrontInner(fields: seq<J.Field>, key: string, into: string)
    requires fields != []
    ensures var own := if Folded(fields[0].key) == "function" && fields[0].value.Obj? then fields[0].value.fields else [];
      && (Texts(Inner(fields), key) <==> Texts(own, key) && Texts(Inner(fields[1..]), key))
      && OrElse(LastText(Inner(fields), key), into)
         == OrElse(LastText(Inner(fields[1..]), key), OrElse(LastText(own, key), into))
  {
    var own := if Folded(fields[0].key) == "function" && fields[0].value.Obj? then fields[0].value.fields else [];
    TextsConcat(own, Inner(fields[1..]), key);
    LastTextConcat(own, Inner(fields[1..]), key);
  }

  lemma FrontObjects(fields: seq<J.Field>)
    requires fields != []
    ensures Objects(fields) <==>
      Objects(fields[1..]) && (Folded(fields[0].key) == "function" ==> fields[0].value.Obj? || fields[0].value.Null?)
  {
    assert forall i :: 0 <= i < |fields| - 1 ==> fields[1..][i] == fields[i + 1];
  }

  /** What one field does. */
  lemma {:induction false} FieldReads(into: Call, f: J.Field)
    ensures var key := Folded(f.key);
      var own := if key == "function" && f.value.Obj? then f.value.fields else [];
      DecodeField(into, f)
      == if (key == "id" || key == "type") && !f.value.Str? && !f.value.Null? then None
         else if key == "function" && !f.value.Obj? && !f.value.Null? then None
         else if !Texts(own, "name") || !Texts(own, "arguments") then None
         else Some(Call(if key == "id" && f.value.Str? then f.value.chars else into.id,
                        if key == "type" && f.value.Str? then f.value.chars else into.kind,
                        OrElse(LastText(own, "name"), into.name), OrElse(LastText(own, "arguments"), into.arguments)))
  {
    if Folded(f.key) == "function" && f.value.Obj? { FunctionReads(into, f.value.fields); }
  }

  lemma {:induction false} ReadableFront(fields: seq<J.Field>, into: Call)
    requires fields != []
    ensures var next := DecodeField(into, fields[0]);
      if next.None? then !Readable(fields)
      else (Readable(fields) <==> Readable(fields[1..])) && ReadOver(into, fields) == ReadOver(next.value, fields[1..])
  {
    FieldReads(into, fields[0]);
    FrontText(fields, "id", into.id);
    FrontText(fields, "type", into.kind);
    FrontObjects(fields);
    FrontInner(fields, "name", into.name);
    FrontInner(fields, "arguments", into.arguments);
  }

  /** A call is read from any object, printed by whomever: its id and its type, and the name and the arguments of its
      function, are the last strings under these keys, whatever their order, the case of the keys and whatever else the
      object holds; and it is refused exactly if one of them is neither a string nor null. */
  lemma {:induction false} CallReads(into: Call, fields: seq<J.Field>)
    ensures DecodeFields(into, fields) == if Readable(fields) then Some(ReadOver(into, fields)) else None
    decreases |fields|
  {
    if fields != [] {
      ReadableFront(fields, into);
      if DecodeField(into, fields[0]).Some? {
        CallReads(DecodeField(into, fields[0]).value, fields[1..]);
      }
    }
  }

  /** An element of a list of calls. */
  predicate ReadableItem(v: J.Value) {
    v.Null? || (v.Obj? && Readable(v.fields))
  }

  function ReadItem(v: J.Value): Call {
    if v.Obj? then ReadOver(ZERO, v.fields) else ZERO
  }

  lemma {:induction false} ItemReads(v: J.Value)
    ensures DecodeCall(ZERO, v) == if ReadableItem(v) then Some(ReadItem(v)) else None
  {
    if v.Obj? { CallReads(ZERO, v.fields); }
  }

  predicate ReadableItems(items: seq<J.Value>) {
    forall i :: 0 <= i < |items| ==> ReadableItem(items[i])
  }

  function ReadItems(items: seq<J.Value>): (r: seq<Call>)
    ensures |r| == |items| && forall i :: 0 <= i < |r| ==> r[i] == ReadItem(items[i])
  {
    seq(|items|, i requires 0 <= i < |items| => ReadItem(items[i]))
  }

  lemma ItemsSnoc(items: seq<J.Value>, v: J.Value)
    ensures ReadableItems(items + [v]) <==> ReadableItems(items) && ReadableItem(v)
    ensures ReadItems(items + [v]) == ReadItems(items) + [ReadItem(v)]
  {
    var all := items + [v];
    assert all[|items|] == v;
    assert forall i :: 0 <= i < |items| ==> all[i] == items[i];
  }

  lemma {:induction false} ItemsRead(items: seq<J.Value>)
    ensures DecodeItems([], items) == if ReadableItems(items) then Some(ReadItems(items)) else None
  {
    if items != [] {
      var before, v := items[..|items| - 1], items[|items| - 1];
      ItemsRead(before);
      ItemReads(v);
      ItemsSnoc(before, v);
      assert before + [v] == items;
    }
  }

  /** Nothing under the key "tool_calls". */
  predicate Keyless(fields: seq<J.Field>) {
    forall i :: 0 <= i < |fields| ==> Folded(fields[i].key) != "tool_calls"
  }

  lemma {:induction false} ManyPasses(into: seq<Call>, before: seq<J.Field>, rest: seq<J.Field>)
    requires Keyless(before)
    ensures DecodeMany(into, before + rest) == DecodeMany(into, rest)
    decreases |before|
  {
    if before == [] {
      assert before + rest == rest;
    } else {
      assert (before + rest)[1..] == before[1..] + rest;
      ManyPasses(into, before[1..], rest);
    }
  }

  /** Lists of calls as models write them: an array of calls, or an object that holds one under "tool_calls" among
      whatever else. All calls of the list are read, in order, as said above. */
  lemma {:induction false} ListsAreRead(items: seq<J.Value>, before: seq<J.Field>, key: string, after: seq<J.Field>)
    requires ReadableItems(items)
    requires items != [] && Keyless(before) && Keyless(after) && Folded(key) == "tool_calls"
    ensures CallsIn(J.Arr(items)) == ReadItems(items)
    ensures CallsIn(J.Obj(before + ([J.Field(key, J.Arr(items))] + after))) == ReadItems(items)
  {
    ItemsRead(items);
    var calls := ReadItems(items);
    var f := J.Field(key, J.Arr(items));
    ManyPasses([], before, [f] + after);
    assert ([f] + after)[1..] == after;
    ManyPasses(calls, after, []);
    assert after + [] == after;
    assert DecodeMany(calls, []) == Some(calls);
  }

  lemma {:induction false} OnePasses(into: Call, before: seq<J.Field>, rest: seq<J.Field>)
    requires Keyless(before)
    ensures DecodeOne(into, before + rest) == DecodeOne(into, rest)
    decreases |before|
  {
    if before == [] {
      assert before + rest == rest;
    } else {
      assert (before + rest)[1..] == before[1..] + rest;
      OnePasses(into, before[1..], rest);
    }
  }

  /** A single call in the place of the list is read, too, if it has a name. */
  lemma {:induction false} OneCallIsRead(call: seq<J.Field>, before: seq<J.Field>, key: string, after: seq<J.Field>)
    requires Keyless(before) && Keyless(after) && Folded(key) == "tool_calls"
    ensures CallsIn(J.Obj(before + ([J.Field(key, J.Obj(call))] + after)))
         == if Readable(call) && ReadOver(ZERO, call).name != "" then [ReadOver(ZERO, call)] else []
  {
    var f := J.Field(key, J.Obj(call));
    CallReads(ZERO, call);
    ManyPasses([], before, [f] + after);
    OnePasses(ZERO, before, [f] + after);
    assert ([f] + after)[1..] == after;
    OnePasses(ReadOver(ZERO, call), after, []);
    assert after + [] == after;
    assert DecodeOne(ReadOver(ZERO, call), []) == Some(ReadOver(ZERO, call));
  }

  // ---- sortStrings --------------------------------------------------------------------------------------------

  predicate NotAfter(a: string, b: string) {
    !Less(b, a)
  }

  predicate SortedUpTo(s: seq<string>, n: nat)
    requires n <= |s|
  {
    forall i, j :: 0 <= i < n && i < j < |s| ==> NotAfter(s[i], s[j])
  }

  lemma NotAfterTrans(a: string, b: string, c: string)
    requires NotAfter(a, b) && NotAfter(b, c)
    ensures NotAfter(a, c)
  {
    LessTotal(a, b);
    LessTotal(b, c);
    LessAsym(a, c);
    if Less(a, b) && Less(b, c) {
      LessTrans(a, b, c);
    }
  }

  function Swapped(s: seq<string>, i: nat, j: nat): (r: seq<string>)
    requires i < |s| && j < |s|
    ensures multiset(r) == multiset(s)
  {
    s[i := s[j]][j := s[i]]
  }

  lemma SwappedKeeps(s: seq<string>, i: nat, j: nat)
    requires i < j < |s| && SortedUpTo(s, i) && Less(s[j], s[i])
    requires forall k :: i < k < j ==> NotAfter(s[i], s[k])
    ensures SortedUpTo(Swapped(s, i, j), i)
    ensures forall k :: i < k <= j ==> NotAfter(Swapped(s, i, j)[i], Swapped(s, i, j)[k])
  {
    var r := Swapped(s, i, j);
    LessAsym(s[i], s[j]);
    forall k | i < k <= j ensures NotAfter(r[i], r[k]) {
      if k < j {
        assert NotAfter(s[j], s[i]);
        NotAfterTrans(s[j], s[i], s[k]);
      }
    }
    forall x, y | 0 <= x < i && x < y < |r| ensures NotAfter(r[x], r[y]) {
      assert r[x] == s[x];
      assert r[y] == s[y] || r[y] == s[i] || r[y] == s[j];
    }
  }

  /** The strings in ascending order, each as often as before. */
  method SortStrings(ss: array<string>)
    modifies ss
    ensures forall i, j :: 0 <= i < j < ss.Length ==> NotAfter(ss[i], ss[j])
    ensures multiset(ss[..]) == multiset(old(ss[..]))
  {
    for i := 0 to ss.Length
      invariant SortedUpTo(ss[..], i)
      invariant multiset(ss[..]) == multiset(old(ss[..]))
    {
      for j := i + 1 to ss.Length
        invariant SortedUpTo(ss[..], i)
        invariant forall k :: i < k < j ==> NotAfter(ss[..][i], ss[..][k])
        invariant multiset(ss[..]) == multiset(old(ss[..]))
      {
        if Less(ss[j], ss[i]) {
          ghost var before := ss[..];
          ss[i], ss[j] := ss[j], ss[i];
          assert ss[..] == Swapped(before, i, j);
          SwappedKeeps(before, i, j);
        } else {
          assert NotAfter(ss[..][i], ss[..][j]);
        }
      }
    }
    assert forall i, j :: 0 <= i < j < ss.Length ==> NotAfter(ss[..][i], ss[..][j]);
  }
}
