/** JSON text (RFC 8259) as encoding/json writes and reads it: a printer with json.Marshal's escapes and a parser for any
    JSON text, and the proof that reading undoes writing. */
module Json {
  import opened Wrappers
  import S = Strings

  datatype Field = Field(key: string, value: Value)

  /** A number keeps its text: nothing in the gateway computes with one. */
  datatype Value =
    | Null
    | Bool(truth: bool)
    | Num(text: string)
    | Str(chars: string)
    | Arr(items: seq<Value>)
    | Obj(fields: seq<Field>)

  // ---- Printing -----------------------------------------------------------------------------------------------

  function HexDigit(n: nat): (c: char)
    requires n < 16
    ensures IsHex(c) && HexValue(c) == n
  {
    if n < 10 then ('0' as int + n) as char else ('a' as int + n - 10) as char
  }

  predicate IsHex(c: char) {
    '0' <= c <= '9' || 'a' <= c <= 'f' || 'A' <= c <= 'F'
  }

  function HexValue(c: char): (n: nat)
    requires IsHex(c)
    ensures n < 16
  {
    if c <= '9' then c as int - '0' as int
    else if c <= 'F' then c as int - 'A' as int + 10
    else c as int - 'a' as int + 10
  }

  function Hex(n: nat): (r: string)
    requires n < 0x10000
    ensures |r| == 4
  {
    [HexDigit(n / 4096), HexDigit(n / 256 % 16), HexDigit(n / 16 % 16), HexDigit(n % 16)]
  }

  /** The characters json.Marshal writes as \u escapes: controls without a short form, and the ones unsafe inside HTML
      or JavaScript. */
  predicate NeedsHex(c: char) {
    c < ' ' || c == '<' || c == '>' || c == '&' || c == '\U{2028}' || c == '\U{2029}'
  }

  function EscapeChar(c: char): (r: string)
    ensures r != ""
  {
    if c == '"' then "\\\""
    else if c == '\\' then "\\\\"
    else if c == '\n' then "\\n"
    else if c == '\r' then "\\r"
    else if c == '\t' then "\\t"
    else if c == '\U{0008}' then "\\b"
    else if c == '\U{000C}' then "\\f"
    else if NeedsHex(c) then "\\u" + Hex(c as int)
    else [c]
  }

  function Escape(s: string): string {
    if s == "" then "" else EscapeChar(s[0]) + Escape(s[1..])
  }

  function Quote(s: string): string {
    "\"" + Escape(s) + "\""
  }

  function Print(v: Value): string
    decreases v, 0
  {
    match v
    case Null => "null"
    case Bool(b) => if b then "true" else "false"
    case Num(t) => t
    case Str(s) => Quote(s)
    case Arr(items) => if items == [] then "[]" else "[" + PrintItems(items) + "]"
    case Obj(fields) => if fields == [] then "{}" else "{" + PrintFields(fields) + "}"
  }

  function PrintItems(items: seq<Value>): string
    requires items != []
    decreases items
  {
    if |items| == 1 then Print(items[0]) else Print(items[0]) + "," + PrintItems(items[1..])
  }

  function PrintField(f: Field): string
    decreases f
  {
    Quote(f.key) + ":" + Print(f.value)
  }

  function PrintFields(fields: seq<Field>): string
    requires fields != []
    decreases fields
  {
    if |fields| == 1 then PrintField(fields[0]) else PrintField(fields[0]) + "," + PrintFields(fields[1..])
  }

  /** What may stand in a printed string: no control character, and nothing that means something to HTML or JavaScript. */
  predicate Harmless(s: string) {
    forall i :: 0 <= i < |s| ==>
      s[i] >= ' ' && s[i] != '<' && s[i] != '>' && s[i] != '&' && s[i] != '\U{2028}' && s[i] != '\U{2029}'
  }

  lemma EscapedIsHarmless(c: char)
    ensures Harmless(EscapeChar(c))
  {
  }

  lemma {:induction false} QuotedIsHarmless(s: string)
    ensures Harmless(Escape(s)) && Harmless(Quote(s))
  {
    if s != "" {
      EscapedIsHarmless(s[0]);
      QuotedIsHarmless(s[1..]);
    }
  }

  // ---- Parsing ------------------------------------------------------------------------------------------------

  predicate IsWs(c: char) {
    c == ' ' || c == '\t' || c == '\n' || c == '\r'
  }

  function SkipWs(s: string): (r: string)
    ensures |r| <= |s|
  {
    if s != "" && IsWs(s[0]) then SkipWs(s[1..]) else s
  }

  function Hex4(s: string): (r: Option<nat>)
    ensures r.Some? ==> |s| >= 4 && r.value < 0x10000
  {
    if |s| >= 4 && IsHex(s[0]) && IsHex(s[1]) && IsHex(s[2]) && IsHex(s[3])
    then Some(HexValue(s[0]) * 4096 + HexValue(s[1]) * 256 + HexValue(s[2]) * 16 + HexValue(s[3]))
    else None
  }

  const REPLACEMENT := '\U{FFFD}'

  /** A \u escape: a surrogate pair makes one character, a lone surrogate becomes the replacement character. */
  function ParseHex(s: string): (r: Option<(char, string)>)
    ensures r.Some? ==> |r.value.1| < |s|
  {
    match Hex4(s)
    case None => None
    case Some(n) =>
      var rest := s[4..];
      if !(0xD800 <= n < 0xE000) then Some((n as char, rest))
      else if n < 0xDC00 && |rest| >= 6 && rest[0] == '\\' && rest[1] == 'u' && Hex4(rest[2..]).Some?
              && 0xDC00 <= Hex4(rest[2..]).value < 0xE000
      then Some((((n - 0xD800) * 1024 + Hex4(rest[2..]).value - 0xDC00 + 0x10000) as char, rest[6..]))
      else Some((REPLACEMENT, rest))
  }

  function ParseEscape(s: string): (r: Option<(char, string)>)
    ensures r.Some? ==> |r.value.1| < |s|
  {
    if s == "" then None
    else if s[0] == 'u' then ParseHex(s[1..])
    else if s[0] == '"' || s[0] == '\\' || s[0] == '/' then Some((s[0], s[1..]))
    else if s[0] == 'n' then Some(('\n', s[1..]))
    else if s[0] == 'r' then Some(('\r', s[1..]))
    else if s[0] == 't' then Some(('\t', s[1..]))
    else if s[0] == 'b' then Some(('\U{0008}', s[1..]))
    else if s[0] == 'f' then Some(('\U{000C}', s[1..]))
    else None
  }

  function Prepend(c: char, q: Option<(string, string)>): Option<(string, string)> {
    if q.None? then None else Some(([c] + q.value.0, q.value.1))
  }

  /** The rest of a string, after its opening quote. */
  function ParseChars(s: string): (r: Option<(string, string)>)
    ensures r.Some? ==> |r.value.1| < |s|
    decreases |s|
  {
    if s == "" || s[0] < ' ' then None
    else if s[0] == '"' then Some(("", s[1..]))
    else if s[0] == '\\' then
      match ParseEscape(s[1..])
      case None => None
      case Some(p) => Prepend(p.0, ParseChars(p.1))
    else Prepend(s[0], ParseChars(s[1..]))
  }

  predicate IsDigit(c: char) {
    '0' <= c <= '9'
  }

  /** How many characters at the start of s are digits. */
  function Digits(s: string): (n: nat)
    ensures n <= |s|
    ensures forall i :: 0 <= i < n ==> IsDigit(s[i])
    ensures n < |s| ==> !IsDigit(s[n])
  {
    if s != "" && IsDigit(s[0]) then 1 + Digits(s[1..]) else 0
  }

  /** The length of the number s starts with, when it starts with one: section 6 of RFC 8259. */
  function IntLen(s: string): (r: Option<nat>)
    ensures r.Some? ==> 0 < r.value <= |s|
  {
    if Digits(s) == 0 then None
    else if s[0] == '0' then Some(1)
    else Some(Digits(s))
  }

  function FracLen(s: string): (r: Option<nat>)
    ensures r.Some? ==> r.value <= |s|
  {
    if s == "" || s[0] != '.' then Some(0)
    else if Digits(s[1..]) == 0 then None
    else Some(1 + Digits(s[1..]))
  }

  function Plus(k: nat, n: Option<nat>): Option<nat> {
    if n.None? then None else Some(k + n.value)
  }

  /** The digits of an exponent and its sign; there must be one digit at least. */
  function SignedLen(s: string): (r: Option<nat>)
    ensures r.Some? ==> r.value <= |s|
  {
    var sign := if s != "" && (s[0] == '+' || s[0] == '-') then 1 else 0;
    if Digits(s[sign..]) == 0 then None else Some(sign + Digits(s[sign..]))
  }

  function ExpLen(s: string): (r: Option<nat>)
    ensures r.Some? ==> r.value <= |s|
  {
    if s == "" || (s[0] != 'e' && s[0] != 'E') then Some(0) else Plus(1, SignedLen(s[1..]))
  }

  function AfterIntLen(s: string): (r: Option<nat>)
    ensures r.Some? ==> r.value <= |s|
  {
    if FracLen(s).None? then None else Plus(FracLen(s).value, ExpLen(s[FracLen(s).value..]))
  }

  function UnsignedLen(s: string): (r: Option<nat>)
    ensures r.Some? ==> 0 < r.value <= |s|
  {
    if IntLen(s).None? then None else Plus(IntLen(s).value, AfterIntLen(s[IntLen(s).value..]))
  }

  function NumberLen(s: string): (r: Option<nat>)
    ensures r.Some? ==> 0 < r.value <= |s|
  {
    if s != "" && s[0] == '-' then Plus(1, UnsignedLen(s[1..])) else UnsignedLen(s)
  }

  /** A value that is no object, array or string. */
  function ParseWord(s: string): (r: Option<(Value, string)>)
    ensures r.Some? ==> |r.value.1| < |s|
  {
    if S.HasPrefix(s, "null") then Some((Null, s[4..]))
    else if S.HasPrefix(s, "true") then Some((Bool(true), s[4..]))
    else if S.HasPrefix(s, "false") then Some((Bool(false), s[5..]))
    else if NumberLen(s).None? then None
    else Some((Num(s[..NumberLen(s).value]), s[NumberLen(s).value..]))
  }

  function ParseStr(s: string): (r: Option<(Value, string)>)
    ensures r.Some? ==> |r.value.1| < |s|
  {
    match ParseChars(s)
    case None => None
    case Some(p) => Some((Str(p.0), p.1))
  }

  function Parse(s0: string): (r: Option<(Value, string)>)
    ensures r.Some? ==> |r.value.1| < |s0|
    decreases |s0|, 2
  {
    var s := SkipWs(s0);
    if s == "" then None
    else if s[0] == '{' then ParseObj(s[1..])
    else if s[0] == '[' then ParseArr(s[1..])
    else if s[0] == '"' then ParseStr(s[1..])
    else ParseWord(s)
  }

  /** The rest of an object, after its opening brace. */
  function ParseObj(s0: string): (r: Option<(Value, string)>)
    ensures r.Some? ==> |r.value.1| < |s0|
    decreases |s0|, 4
  {
    var s := SkipWs(s0);
    if s != "" && s[0] == '}' then Some((Obj([]), s[1..])) else
    match ParseFields(s)
    case None => None
    case Some(p) => Some((Obj(p.0), p.1))
  }

  /** The rest of an array, after its opening bracket. */
  function ParseArr(s0: string): (r: Option<(Value, string)>)
    ensures r.Some? ==> |r.value.1| < |s0|
    decreases |s0|, 4
  {
    var s := SkipWs(s0);
    if s != "" && s[0] == ']' then Some((Arr([]), s[1..])) else
    match ParseItems(s)
    case None => None
    case Some(p) => Some((Arr(p.0), p.1))
  }

  /** The items of a non-empty array, through its closing bracket. */
  function ParseItems(s: string): (r: Option<(seq<Value>, string)>)
    ensures r.Some? ==> |r.value.1| < |s|
    decreases |s|, 3
  {
    match Parse(s)
    case None => None
    case Some(p) =>
      var t := SkipWs(p.1);
      if t == "" then None
      else if t[0] == ']' then Some(([p.0], t[1..]))
      else if t[0] == ',' then
        (match ParseItems(t[1..])
         case None => None
         case Some(q) => Some(([p.0] + q.0, q.1)))
      else None
  }

  function ParseField(s0: string): (r: Option<(Field, string)>)
    ensures r.Some? ==> |r.value.1| < |s0|
    decreases |s0|, 1
  {
    var s := SkipWs(s0);
    if s == "" || s[0] != '"' then None else
    match ParseChars(s[1..])
    case None => None
    case Some(k) =>
      var t := SkipWs(k.1);
      if t == "" || t[0] != ':' then None else
      (match Parse(t[1..])
       case None => None
       case Some(v) => Some((Field(k.0, v.0), v.1)))
  }

  /** The members of a non-empty object, through its closing brace. */
  function ParseFields(s: string): (r: Option<(seq<Field>, string)>)
    ensures r.Some? ==> |r.value.1| < |s|
    decreases |s|, 3
  {
    match ParseField(s)
    case None => None
    case Some(p) =>
      var t := SkipWs(p.1);
      if t == "" then None
      else if t[0] == '}' then Some(([p.0], t[1..]))
      else if t[0] == ',' then
        (match ParseFields(t[1..])
         case None => None
         case Some(q) => Some(([p.0] + q.0, q.1)))
      else None
  }

  /** json.Unmarshal accepts one value with nothing but white space around it. */
  function ParseText(s: string): Option<Value> {
    match Parse(s)
    case None => None
    case Some(p) => if SkipWs(p.1) == "" then Some(p.0) else None
  }

  // ---- Reading undoes writing ---------------------------------------------------------------------------------

  /** Every number in v is a JSON number. */
  predicate WellFormed(v: Value)
    decreases v
  {
    match v
    case Num(t) => NumberLen(t) == Some(|t|)
    case Arr(items) => forall i :: 0 <= i < |items| ==> WellFormed(items[i])
    case Obj(fields) => forall i :: 0 <= i < |fields| ==> WellFormed(fields[i].value)
    case _ => true
  }

  /** What may follow a printed value: the end of the text or the next piece of punctuation. */
  predicate Delimited(rest: string) {
    rest == "" || rest[0] == ',' || rest[0] == ']' || rest[0] == '}'
  }

  lemma Quotients(n: nat, a: nat, b: nat, c: nat, x: nat, y: nat, z: nat)
    requires n == a * 16 + x && a == b * 16 + y && b == c * 16 + z && x < 16 && y < 16 && z < 16
    ensures n / 16 == a && n / 256 == b && n / 4096 == c
  {
    assert n == b * 256 + (y * 16 + x);
    assert n == c * 4096 + (z * 256 + y * 16 + x);
  }

  lemma Positional(n: nat)
    requires n < 0x10000
    ensures n / 4096 < 16
    ensures n == n / 4096 * 4096 + n / 256 % 16 * 256 + n / 16 % 16 * 16 + n % 16
  {
    var a := n / 16;
    var b := a / 16;
    Quotients(n, a, b, b / 16, n % 16, a % 16, b % 16);
  }

  lemma HexReads(n: nat, rest: string)
    requires n < 0x10000
    ensures Hex4(Hex(n) + rest) == Some(n)
  {
    Positional(n);
    var s := Hex(n) + rest;
    assert s[0] == Hex(n)[0] && s[1] == Hex(n)[1] && s[2] == Hex(n)[2] && s[3] == Hex(n)[3];
  }

  lemma HexEscapeReads(c: char, rest: string)
    requires NeedsHex(c)
    ensures ParseEscape("u" + (Hex(c as int) + rest)) == Some((c, rest))
  {
    var t := Hex(c as int) + rest;
    HexReads(c as int, rest);
    assert ("u" + t)[1..] == t && t[4..] == rest;
  }

  /** Where an escaped character is read back as c, reading goes on right after it. */
  lemma EscapeSequenceReads(c: char, e: string, rest: string)
    requires ParseEscape(e + rest) == Some((c, rest))
    ensures ParseChars("\\" + (e + rest)) == Prepend(c, ParseChars(rest))
  {
    assert ("\\" + (e + rest))[1..] == e + rest;
  }

  lemma PlainCharReads(c: char, rest: string)
    requires c >= ' ' && c != '"' && c != '\\'
    ensures ParseChars([c] + rest) == Prepend(c, ParseChars(rest))
  {
    assert ([c] + rest)[1..] == rest;
  }

  lemma ShortEscapeReads(c: char, rest: string)
    requires |EscapeChar(c)| == 2
    ensures ParseChars(EscapeChar(c) + rest) == Prepend(c, ParseChars(rest))
  {
    var e := EscapeChar(c)[1..];
    assert (e + rest)[1..] == rest;
    EscapeSequenceReads(c, e, rest);
    Regroup("\\", e, rest);
    assert EscapeChar(c) == "\\" + e;
  }

  lemma LongEscapeReads(c: char, rest: string)
    requires NeedsHex(c)
    ensures ParseChars("\\u" + Hex(c as int) + rest) == Prepend(c, ParseChars(rest))
  {
    var e := "u" + Hex(c as int);
    HexEscapeReads(c, rest);
    Regroup("u", Hex(c as int), rest);
    EscapeSequenceReads(c, e, rest);
    Regroup("\\", e, rest);
    assert "\\u" + Hex(c as int) == "\\" + e;
  }

  /** One escaped character is read back, and reading goes on right after it. */
  lemma EscapeCharReads(c: char, rest: string)
    ensures ParseChars(EscapeChar(c) + rest) == Prepend(c, ParseChars(rest))
  {
    var e := EscapeChar(c);
    EscapeCharKinds(c);
    if e == [c] {
      PlainCharReads(c, rest);
    } else if |e| == 2 {
      ShortEscapeReads(c, rest);
    } else {
      LongEscapeReads(c, rest);
    }
  }

  lemma EscapeCharKinds(c: char)
    ensures var e := EscapeChar(c);
      || (e == [c] && c >= ' ' && c != '"' && c != '\\')
      || (|e| == 2 && e != [c])
      || (e == "\\u" + Hex(c as int) && NeedsHex(c) && |e| == 6)
  {
  }

  lemma {:induction false} EscapeReads(t: string, rest: string)
    ensures ParseChars(Escape(t) + ("\"" + rest)) == Some((t, rest))
  {
    var tail := "\"" + rest;
    assert tail[1..] == rest;
    if t == "" {
      assert Escape(t) + tail == tail;
    } else {
      EscapeReads(t[1..], rest);
      Regroup(EscapeChar(t[0]), Escape(t[1..]), tail);
      EscapeCharReads(t[0], Escape(t[1..]) + tail);
      assert t == [t[0]] + t[1..];
    }
  }

  lemma Regroup(a: string, b: string, c: string)
    ensures a + b + c == a + (b + c)
  {
  }

  lemma QuoteReads(t: string, rest: string)
    ensures var s := Quote(t) + rest; s[0] == '"' && ParseChars(s[1..]) == Some((t, rest))
  {
    EscapeReads(t, rest);
    assert (Quote(t) + rest)[1..] == Escape(t) + ("\"" + rest);
  }

  lemma {:induction false} DigitsBefore(a: string, rest: string)
    requires Delimited(rest)
    ensures Digits(a + rest) == Digits(a)
  {
    if a == "" {
      assert a + rest == rest;
    } else if IsDigit(a[0]) {
      DigitsBefore(a[1..], rest);
      assert (a + rest)[1..] == a[1..] + rest;
    }
  }

  lemma DropFront(a: string, rest: string, k: nat)
    requires k <= |a|
    ensures (a + rest)[k..] == a[k..] + rest
  {
  }

  lemma PartsBefore(a: string, rest: string)
    requires Delimited(rest)
    ensures IntLen(a + rest) == IntLen(a)
    ensures FracLen(a + rest) == FracLen(a)
  {
    DigitsBefore(a, rest);
    if a != "" {
      DropFront(a, rest, 1);
      DigitsBefore(a[1..], rest);
    } else {
      assert a + rest == rest;
    }
  }

  lemma SignedBefore(a: string, rest: string)
    requires Delimited(rest)
    ensures SignedLen(a + rest) == SignedLen(a)
  {
    if a == "" {
      assert a + rest == rest;
    } else {
      var sign := if a[0] == '+' || a[0] == '-' then 1 else 0;
      DropFront(a, rest, sign);
      DigitsBefore(a[sign..], rest);
    }
  }

  lemma ExponentBefore(a: string, rest: string)
    requires Delimited(rest)
    ensures ExpLen(a + rest) == ExpLen(a)
  {
    if a == "" {
      assert a + rest == rest;
    } else {
      DropFront(a, rest, 1);
      SignedBefore(a[1..], rest);
    }
  }

  lemma AfterIntBefore(a: string, rest: string)
    requires Delimited(rest)
    ensures AfterIntLen(a + rest) == AfterIntLen(a)
  {
    PartsBefore(a, rest);
    if FracLen(a).Some? {
      DropFront(a, rest, FracLen(a).value);
      ExponentBefore(a[FracLen(a).value..], rest);
    }
  }

  lemma UnsignedBefore(a: string, rest: string)
    requires Delimited(rest)
    ensures UnsignedLen(a + rest) == UnsignedLen(a)
  {
    PartsBefore(a, rest);
    if IntLen(a).Some? {
      DropFront(a, rest, IntLen(a).value);
      AfterIntBefore(a[IntLen(a).value..], rest);
    }
  }

  lemma NumberBefore(a: string, rest: string)
    requires a != "" && Delimited(rest)
    ensures NumberLen(a + rest) == NumberLen(a)
  {
    UnsignedBefore(a, rest);
    DropFront(a, rest, 1);
    UnsignedBefore(a[1..], rest);
  }

  lemma NumberHead(t: string)
    requires NumberLen(t).Some?
    ensures t != "" && (t[0] == '-' || IsDigit(t[0]))
  {
  }

  lemma OtherHead(s: string, w: string)
    requires s != "" && w != "" && s[0] != w[0]
    ensures !S.HasPrefix(s, w)
  {
  }

  lemma WordIsNumber(s: string)
    requires s != "" && (s[0] == '-' || IsDigit(s[0])) && NumberLen(s).Some?
    ensures ParseWord(s) == Some((Num(s[..NumberLen(s).value]), s[NumberLen(s).value..]))
  {
    OtherHead(s, "null");
    OtherHead(s, "true");
    OtherHead(s, "false");
  }

  lemma WordStarts(s: string)
    requires s != "" && (s[0] == '-' || IsDigit(s[0]))
    ensures Parse(s) == ParseWord(s)
  {
    assert SkipWs(s) == s;
  }

  lemma NumberReads(t: string, rest: string)
    requires NumberLen(t) == Some(|t|) && Delimited(rest)
    ensures Parse(t + rest) == Some((Num(t), rest))
  {
    NumberBefore(t, rest);
    NumberHead(t);
    WordStarts(t + rest);
    WordIsNumber(t + rest);
    DropFront(t, rest, |t|);
    assert (t + rest)[..|t|] == t;
  }

  lemma StringReads(t: string, rest: string)
    ensures Parse(Quote(t) + rest) == Some((Str(t), rest))
  {
    QuoteReads(t, rest);
  }

  lemma {:induction false} WordReads(v: Value, rest: string)
    requires v.Null? || v.Bool?
    ensures Parse(Print(v) + rest) == Some((v, rest))
  {
    var w := Print(v);
    var s := w + rest;
    assert s[..|w|] == w && s[|w|..] == rest;
    assert s[0] == w[0] && SkipWs(s) == s;
  }

  /** What a printed value can start with. */
  lemma {:induction false} PrintHead(v: Value, rest: string)
    requires WellFormed(v)
    ensures Print(v) != "" && !IsWs(Print(v)[0]) && Print(v)[0] != ']' && Print(v)[0] != '}'
    ensures SkipWs(Print(v) + rest) == Print(v) + rest
  {
    if v.Num? {
      NumberHead(v.text);
    }
  }

  lemma {:induction false} PrintReads(v: Value, rest: string)
    requires WellFormed(v) && Delimited(rest)
    ensures Parse(Print(v) + rest) == Some((v, rest))
    decreases v, 0
  {
    match v
    case Null => WordReads(v, rest);
    case Bool(_) => WordReads(v, rest);
    case Num(t) => NumberReads(t, rest);
    case Str(t) => StringReads(t, rest);
    case Arr(items) =>
      if items == [] {
        EmptyReads(rest);
      } else {
        ItemsRead(items, rest);
        BracketReads(items, rest);
      }
    case Obj(fields) =>
      if fields == [] {
        EmptyReads(rest);
      } else {
        FieldsRead(fields, rest);
        BraceReads(fields, rest);
      }
  }

  lemma EmptyReads(rest: string)
    ensures Parse("[]" + rest) == Some((Arr([]), rest))
    ensures Parse("{}" + rest) == Some((Obj([]), rest))
  {
    assert ("[]" + rest)[1..] == "]" + rest && ("]" + rest)[1..] == rest;
    assert ("{}" + rest)[1..] == "}" + rest && ("}" + rest)[1..] == rest;
  }

  lemma {:induction false} BracketReads(items: seq<Value>, rest: string)
    requires items != [] && WellFormed(items[0])
    requires ParseItems(PrintItems(items) + ("]" + rest)) == Some((items, rest))
    ensures Parse(Print(Arr(items)) + rest) == Some((Arr(items), rest))
  {
    var inner := PrintItems(items) + ("]" + rest);
    PrintHead(items[0], "");
    assert inner[0] == Print(items[0])[0];
    assert SkipWs(inner) == inner;
    assert ParseArr(inner) == Some((Arr(items), rest));
    OpensWith('[', inner);
    assert Print(Arr(items)) + rest == ['['] + inner;
  }

  lemma {:induction false} BraceReads(fields: seq<Field>, rest: string)
    requires fields != []
    requires ParseFields(PrintFields(fields) + ("}" + rest)) == Some((fields, rest))
    ensures Parse(Print(Obj(fields)) + rest) == Some((Obj(fields), rest))
  {
    var inner := PrintFields(fields) + ("}" + rest);
    assert inner[0] == '"';
    assert SkipWs(inner) == inner;
    assert ParseObj(inner) == Some((Obj(fields), rest));
    OpensWith('{', inner);
    assert Print(Obj(fields)) + rest == ['{'] + inner;
  }

  lemma OpensWith(c: char, inner: string)
    ensures c == '[' ==> Parse([c] + inner) == ParseArr(inner)
    ensures c == '{' ==> Parse([c] + inner) == ParseObj(inner)
  {
    assert ([c] + inner)[1..] == inner;
  }

  /** What closes a list, or separates its items. */
  lemma Punctuation(c: char, rest: string)
    ensures var s := [c] + rest; s[0] == c && s[1..] == rest && (!IsWs(c) ==> SkipWs(s) == s)
  {
  }

  lemma {:induction false} ItemsRead(items: seq<Value>, rest: string)
    requires items != [] && forall i :: 0 <= i < |items| ==> WellFormed(items[i])
    ensures ParseItems(PrintItems(items) + ("]" + rest)) == Some((items, rest))
    decreases items
  {
    var close := "]" + rest;
    Punctuation(']', rest);
    if |items| == 1 {
      PrintReads(items[0], close);
      LastItemReads(items[0], close);
      assert items == [items[0]];
    } else {
      ItemsRead(items[1..], rest);
      var more := PrintItems(items[1..]) + close;
      Punctuation(',', more);
      PrintReads(items[0], "," + more);
      NextItemReads(items[0], items[1..], "," + more, rest);
      ItemsPrint(items, close);
      assert items == [items[0]] + items[1..];
    }
  }

  lemma {:induction false} ItemsPrint(items: seq<Value>, close: string)
    requires |items| > 1
    ensures PrintItems(items) + close == Print(items[0]) + ("," + (PrintItems(items[1..]) + close))
  {
    assert PrintItems(items) == Print(items[0]) + "," + PrintItems(items[1..]);
    RegroupFour(Print(items[0]), ",", PrintItems(items[1..]), close);
  }

  lemma RegroupFour(a: string, b: string, c: string, d: string)
    ensures a + b + c + d == a + (b + (c + d))
  {
  }

  lemma {:induction false} LastItemReads(v: Value, close: string)
    requires close != "" && close[0] == ']'
    requires Parse(Print(v) + close) == Some((v, close))
    ensures ParseItems(Print(v) + close) == Some(([v], close[1..]))
  {
  }

  lemma {:induction false} NextItemReads(v: Value, vs: seq<Value>, more: string, rest: string)
    requires more != "" && more[0] == ','
    requires Parse(Print(v) + more) == Some((v, more))
    requires ParseItems(more[1..]) == Some((vs, rest))
    ensures ParseItems(Print(v) + more) == Some(([v] + vs, rest))
  {
  }

  lemma {:induction false} FieldReads(f: Field, rest: string)
    requires Parse(Print(f.value) + rest) == Some((f.value, rest))
    ensures ParseField(PrintField(f) + rest) == Some((f, rest))
  {
    var value := Print(f.value) + rest;
    Punctuation(':', value);
    QuoteReads(f.key, ":" + value);
    NamedValueReads(Quote(f.key) + (":" + value), f, ":" + value, rest);
    Regroup(Quote(f.key) + ":", Print(f.value), rest);
    Regroup(Quote(f.key), ":", value);
  }

  lemma {:induction false} NamedValueReads(s: string, f: Field, value: string, rest: string)
    requires s != "" && s[0] == '"' && ParseChars(s[1..]) == Some((f.key, value))
    requires value != "" && value[0] == ':' && Parse(value[1..]) == Some((f.value, rest))
    ensures ParseField(s) == Some((f, rest))
  {
  }

  lemma {:induction false} FieldsRead(fields: seq<Field>, rest: string)
    requires fields != [] && forall i :: 0 <= i < |fields| ==> WellFormed(fields[i].value)
    ensures ParseFields(PrintFields(fields) + ("}" + rest)) == Some((fields, rest))
    decreases fields
  {
    var close := "}" + rest;
    Punctuation('}', rest);
    if |fields| == 1 {
      PrintReads(fields[0].value, close);
      FieldReads(fields[0], close);
      LastFieldReads(fields[0], close);
      assert fields == [fields[0]];
    } else {
      FieldsRead(fields[1..], rest);
      var more := PrintFields(fields[1..]) + close;
      Punctuation(',', more);
      PrintReads(fields[0].value, "," + more);
      FieldReads(fields[0], "," + more);
      NextFieldReads(fields[0], fields[1..], "," + more, rest);
      FieldsPrint(fields, close);
      assert fields == [fields[0]] + fields[1..];
    }
  }

  lemma {:induction false} FieldsPrint(fields: seq<Field>, close: string)
    requires |fields| > 1
    ensures PrintFields(fields) + close == PrintField(fields[0]) + ("," + (PrintFields(fields[1..]) + close))
  {
    assert PrintFields(fields) == PrintField(fields[0]) + "," + PrintFields(fields[1..]);
    RegroupFour(PrintField(fields[0]), ",", PrintFields(fields[1..]), close);
  }

  lemma {:induction false} LastFieldReads(f: Field, close: string)
    requires close != "" && close[0] == '}'
    requires ParseField(PrintField(f) + close) == Some((f, close))
    ensures ParseFields(PrintField(f) + close) == Some(([f], close[1..]))
  {
  }

  lemma {:induction false} NextFieldReads(f: Field, fs: seq<Field>, more: string, rest: string)
    requires more != "" && more[0] == ','
    requires ParseField(PrintField(f) + more) == Some((f, more))
    requires ParseFields(more[1..]) == Some((fs, rest))
    ensures ParseFields(PrintField(f) + more) == Some(([f] + fs, rest))
  {
  }

  /** Reading undoes writing, for every JSON value. */
  lemma {:induction false} ReadingUndoesWriting(v: Value)
    requires WellFormed(v)
    ensures ParseText(Print(v)) == Some(v)
  {
    PrintReads(v, "");
    assert Print(v) + "" == Print(v);
  }

  // ---- The escapes of the standard ----------------------------------------------------------------------------

  /** The two-character escapes of section 7 of RFC 8259 and its four hexadecimal digits, as they are read. */
  lemma EscapesAreStandard(rest: string)
    ensures ParseEscape("\"" + rest) == Some(('"', rest)) && ParseEscape("\\" + rest) == Some(('\\', rest))
    ensures ParseEscape("/" + rest) == Some(('/', rest))
    ensures ParseEscape("b" + rest) == Some(('\U{0008}', rest)) && ParseEscape("f" + rest) == Some(('\U{000C}', rest))
    ensures ParseEscape("n" + rest) == Some(('\n', rest)) && ParseEscape("r" + rest) == Some(('\r', rest))
    ensures ParseEscape("t" + rest) == Some(('\t', rest))
  {
  }

  /** A hexadecimal digit stands for its place among the sixteen, in either case. */
  lemma HexDigitsAreStandard(n: nat)
    requires n < 16
    ensures IsHex("0123456789abcdef"[n]) && HexValue("0123456789abcdef"[n]) == n
    ensures IsHex("0123456789ABCDEF"[n]) && HexValue("0123456789ABCDEF"[n]) == n
    ensures HexDigit(n) == "0123456789abcdef"[n]
  {
  }

  /** The three literal names of section 3 of RFC 8259, printed and read. */
  lemma {:induction false} NamesAreStandard()
    ensures Print(Null) == "null" && Print(Bool(true)) == "true" && Print(Bool(false)) == "false"
    ensures Parse("null") == Some((Null, "")) && Parse("true") == Some((Bool(true), ""))
    ensures Parse("false") == Some((Bool(false), ""))
  {
    assert SkipWs("null") == "null" && SkipWs("true") == "true" && SkipWs("false") == "false";
  }
}
