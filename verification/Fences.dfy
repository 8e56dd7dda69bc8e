/**
 A code fence inside the strings of printed tool calls. The parser looks at what a fence holds before it looks at the
 whole text; here it is shown that what a printed list holds in a fence has no call with a name.
*/
module Fences {
  import opened Wrappers
  import opened Strings
  import E = Events
  import J = Json
  import T = ToolCalls

  // ---- Text that JSON cannot get over -------------------------------------------------------------------------

  /** Quotes and backslashes. */
  predicate Special(c: char) {
    c == '"' || c == '\\'
  }

  predicate Clean(s: string) {
    forall i :: 0 <= i < |s| ==> !Special(s[i])
  }

  /** No JSON value goes on like this, and no list or object. */
  predicate Stuck(s: string) {
    s != "" && !J.IsWs(s[0]) && s[0] != ':' && s[0] != ',' && s[0] != ']' && s[0] != '}'
  }

  /** The first special character is a backslash, or a quote whose string does not end or is followed by something that
      cannot follow a string. */
  predicate Doomed(s: string) {
    if s == "" then false
    else if s[0] == '\\' then true
    else if s[0] == '"' then J.ParseChars(s[1..]).None? || Stuck(J.ParseChars(s[1..]).value.1)
    else Doomed(s[1..])
  }

  predicate Bad(s: string) {
    Doomed(s) || Stuck(s)
  }

  lemma {:induction false} SkipDoomed(s: string)
    requires Doomed(s)
    ensures Doomed(J.SkipWs(s)) && J.SkipWs(s) != ""
  {
    if J.IsWs(s[0]) {
      SkipDoomed(s[1..]);
    }
  }

  lemma {:induction false} DropDoomed(s: string, k: nat)
    requires k <= |s| && Clean(s[..k])
    ensures Doomed(s[k..]) <==> Doomed(s)
  {
    if k > 0 {
      assert s[..k][0] == s[0];
      CleanCons(s, k);
      DropDoomed(s[1..], k - 1);
      assert s[1..][k - 1..] == s[k..];
    } else {
      assert s[0..] == s;
    }
  }

  lemma CleanCons(s: string, b: nat)
    requires 0 < b <= |s| && !Special(s[0])
    ensures Clean(s[..b]) <==> Clean(s[1..][..b - 1])
  {
    assert s[1..][..b - 1] == s[..b][1..];
    assert s[..b] == [s[0]] + s[..b][1..];
  }

  predicate NumberChar(c: char) {
    J.IsDigit(c) || c == '.' || c == '-' || c == '+' || c == 'e' || c == 'E'
  }

  predicate NumberChars(s: string, n: nat)
    requires n <= |s|
  {
    forall i :: 0 <= i < n ==> NumberChar(s[i])
  }

  lemma NumberParts(s: string, m: nat, n: nat)
    requires m <= |s| && n <= |s| - m && NumberChars(s, m) && NumberChars(s[m..], n)
    ensures NumberChars(s, m + n)
  {
    assert forall i :: m <= i < m + n ==> s[i] == s[m..][i - m];
  }

  lemma SignedChars(s: string)
    requires J.SignedLen(s).Some?
    ensures NumberChars(s, J.SignedLen(s).value)
  {
    var sign := if s != "" && (s[0] == '+' || s[0] == '-') then 1 else 0;
    NumberParts(s, sign, J.Digits(s[sign..]));
  }

  lemma ExpChars(s: string)
    requires J.ExpLen(s).Some?
    ensures NumberChars(s, J.ExpLen(s).value)
  {
    if J.ExpLen(s).value > 0 {
      SignedChars(s[1..]);
      NumberParts(s, 1, J.SignedLen(s[1..]).value);
    }
  }

  lemma FracChars(s: string)
    requires J.FracLen(s).Some?
    ensures NumberChars(s, J.FracLen(s).value)
  {
    if J.FracLen(s).value > 0 {
      NumberParts(s, 1, J.Digits(s[1..]));
    }
  }

  lemma UnsignedChars(s: string)
    requires J.UnsignedLen(s).Some?
    ensures NumberChars(s, J.UnsignedLen(s).value)
  {
    var i := J.IntLen(s).value;
    var rest := s[i..];
    var f := J.FracLen(rest).value;
    FracChars(rest);
    ExpChars(rest[f..]);
    NumberParts(rest, f, J.ExpLen(rest[f..]).value);
    NumberParts(s, i, J.AfterIntLen(rest).value);
  }

  lemma NumberClean(s: string)
    requires J.NumberLen(s).Some?
    ensures Clean(s[..J.NumberLen(s).value])
  {
    if s != "" && s[0] == '-' {
      UnsignedChars(s[1..]);
      NumberParts(s, 1, J.UnsignedLen(s[1..]).value);
    } else {
      UnsignedChars(s);
    }
    var n := J.NumberLen(s).value;
    forall i | 0 <= i < n ensures !Special(s[..n][i]) {
      assert NumberChar(s[i]);
    }
  }

  lemma PrefixClean(s: string, w: string)
    requires HasPrefix(s, w) && Clean(w)
    ensures Clean(s[..|w|])
  {
  }

  /** A word or number is clean, and the rest of the text is left. */
  lemma WordClean(s: string) returns (k: nat)
    requires J.ParseWord(s).Some?
    ensures k <= |s| && J.ParseWord(s).value.1 == s[k..] && Clean(s[..k])
  {
    if HasPrefix(s, "null") {
      k := 4;
      PrefixClean(s, "null");
    } else if HasPrefix(s, "true") {
      k := 4;
      PrefixClean(s, "true");
    } else if HasPrefix(s, "false") {
      k := 5;
      PrefixClean(s, "false");
    } else {
      k := J.NumberLen(s).value;
      NumberClean(s);
    }
  }

  lemma WordDoomed(s: string)
    requires Doomed(s) && J.ParseWord(s).Some?
    ensures Doomed(J.ParseWord(s).value.1)
  {
    var k := WordClean(s);
    DropDoomed(s, k);
  }

  lemma WordStringless(s: string)
    requires Clean(s) && J.ParseWord(s).Some?
    ensures Stringless(J.ParseWord(s).value.0) && Clean(J.ParseWord(s).value.1)
  {
    var k := WordClean(s);
  }

  lemma {:induction false} ParseDoomed(s0: string)
    requires Doomed(s0)
    ensures J.Parse(s0).Some? ==> Bad(J.Parse(s0).value.1)
    decreases |s0|, 2
  {
    SkipDoomed(s0);
    var s := J.SkipWs(s0);
    if s[0] == '{' {
      ObjDoomed(s[1..]);
    } else if s[0] == '[' {
      ArrDoomed(s[1..]);
    } else if s[0] == '"' {
    } else if J.ParseWord(s).Some? {
      WordDoomed(s);
    }
  }

  lemma {:induction false} ObjDoomed(s0: string)
    requires Doomed(s0)
    ensures J.ParseObj(s0).Some? ==> Bad(J.ParseObj(s0).value.1)
    decreases |s0|, 4
  {
    SkipDoomed(s0);
    var s := J.SkipWs(s0);
    if s[0] != '}' {
      FieldDoomed(s);
    }
  }

  lemma {:induction false} FieldDoomed(s0: string)
    requires Doomed(s0)
    ensures J.ParseField(s0).None? && J.ParseFields(s0).None?
  {
    SkipDoomed(s0);
  }

  lemma {:induction false} ArrDoomed(s0: string)
    requires Doomed(s0)
    ensures J.ParseArr(s0).Some? ==> Bad(J.ParseArr(s0).value.1)
    decreases |s0|, 4
  {
    SkipDoomed(s0);
    var s := J.SkipWs(s0);
    if s[0] != ']' {
      ItemsDoomed(s);
    }
  }

  lemma {:induction false} ItemsDoomed(s: string)
    requires Doomed(s)
    ensures J.ParseItems(s).Some? ==> Bad(J.ParseItems(s).value.1)
    decreases |s|, 3
  {
    ParseDoomed(s);
    if J.Parse(s).Some? {
      var r := J.Parse(s).value.1;
      if Doomed(r) {
        SkipDoomed(r);
        var t := J.SkipWs(r);
        if t[0] == ',' {
          ItemsDoomed(t[1..]);
        }
      }
    }
  }

  /** Such a text is no JSON. */
  lemma DoomedIsNoJson(s: string)
    requires Doomed(s)
    ensures J.ParseText(s) == None
  {
    ParseDoomed(s);
    if J.Parse(s).Some? && Doomed(J.Parse(s).value.1) {
      SkipDoomed(J.Parse(s).value.1);
    }
  }

  // ---- Text without quotes ------------------------------------------------------------------------------------

  /** No string in it, and no name. */
  predicate Stringless(v: J.Value) {
    match v
    case Str(_) => false
    case Arr(items) => forall i :: 0 <= i < |items| ==> Stringless(items[i])
    case Obj(fields) => fields == []
    case _ => true
  }

  lemma {:induction false} SkipClean(s: string)
    requires Clean(s)
    ensures Clean(J.SkipWs(s))
  {
    if s != "" && J.IsWs(s[0]) {
      SkipClean(s[1..]);
    }
  }

  lemma {:induction false} ParseClean(s0: string)
    requires Clean(s0)
    ensures J.Parse(s0).Some? ==> Stringless(J.Parse(s0).value.0) && Clean(J.Parse(s0).value.1)
    decreases |s0|, 2
  {
    SkipClean(s0);
    var s := J.SkipWs(s0);
    if s != "" {
      if s[0] == '{' {
        ObjClean(s[1..]);
      } else if s[0] == '[' {
        ArrClean(s[1..]);
      } else if J.ParseWord(s).Some? {
        WordStringless(s);
      }
    }
  }

  lemma {:induction false} ObjClean(s0: string)
    requires Clean(s0)
    ensures J.ParseObj(s0).Some? ==> Stringless(J.ParseObj(s0).value.0) && Clean(J.ParseObj(s0).value.1)
  {
    SkipClean(s0);
    SkipClean(J.SkipWs(s0));
    var s := J.SkipWs(s0);
    if s == "" || s[0] != '}' {
      assert J.ParseField(s).None?;
    }
  }

  lemma {:induction false} ArrClean(s0: string)
    requires Clean(s0)
    ensures J.ParseArr(s0).Some? ==> Stringless(J.ParseArr(s0).value.0) && Clean(J.ParseArr(s0).value.1)
    decreases |s0|, 4
  {
    SkipClean(s0);
    var s := J.SkipWs(s0);
    if s == "" || s[0] != ']' {
      ItemsClean(s);
    }
  }

  lemma {:induction false} ItemsClean(s: string)
    requires Clean(s)
    ensures J.ParseItems(s).Some? ==>
      && (forall i :: 0 <= i < |J.ParseItems(s).value.0| ==> Stringless(J.ParseItems(s).value.0[i]))
      && Clean(J.ParseItems(s).value.1)
    decreases |s|, 3
  {
    ParseClean(s);
    if J.Parse(s).Some? {
      SkipClean(J.Parse(s).value.1);
      var t := J.SkipWs(J.Parse(s).value.1);
      if t != "" && t[0] == ',' {
        ItemsClean(t[1..]);
      }
    }
  }

  predicate Nameless(calls: seq<T.Call>) {
    forall i :: 0 <= i < |calls| ==> calls[i].name == ""
  }

  lemma {:induction false} ItemsNameless(items: seq<J.Value>)
    requires forall i :: 0 <= i < |items| ==> Stringless(items[i])
    ensures T.DecodeItems([], items).Some? ==> Nameless(T.DecodeItems([], items).value)
  {
    if items != [] {
      ItemsNameless(items[..|items| - 1]);
      assert Stringless(items[|items| - 1]);
    }
  }

  lemma {:induction false} StringlessIsNameless(v: J.Value)
    requires Stringless(v)
    ensures Nameless(T.CallsIn(v))
  {
    match v
    case Arr(items) => ItemsNameless(items);
    case Obj(fields) =>
      assert T.DecodeMany([], fields) == Some([]);
      assert T.DecodeOne(T.ZERO, fields) == Some(T.ZERO);
    case _ =>
  }

  /** Text without quotes reads as calls without names at most. */
  lemma CleanIsNameless(s: string)
    requires Clean(s)
    ensures J.ParseText(s).Some? ==> Nameless(T.CallsIn(J.ParseText(s).value))
  {
    ParseClean(s);
    if J.ParseText(s).Some? {
      StringlessIsNameless(J.ParseText(s).value);
    }
  }

  // ---- What stands behind a fence inside a printed string -----------------------------------------------------

  /** What can stand behind the quote at the end of a printed string: nothing more with a quote, or a quote and then a
      letter. */
  predicate AfterQuote(s: string) {
    if s == "" then true
    else if s[0] == '"' then |s| > 1 && 'a' <= s[1] <= 'z'
    else s[0] != '\\' && AfterQuote(s[1..])
  }

  /** Up to its first special character the text is anything, and that character begins an escape or ends a string. */
  predicate Hopeless(s: string) {
    if s == "" || s[0] == '\\' then true
    else if s[0] == '"' then AfterQuote(s[1..])
    else Hopeless(s[1..])
  }

  /** Where a fenced text ends when white space is taken from it: before white space or a backtick. */
  predicate Cut(s: string, b: nat) {
    b <= |s| && (b == |s| || IsSpace(s[b]) || s[b] == '`')
  }

  lemma {:induction false} CutChars(s: string, b: nat)
    requires AfterQuote(s) && Cut(s, b)
    ensures J.ParseChars(s[..b]).None? || Stuck(J.ParseChars(s[..b]).value.1)
  {
    if b > 0 {
      if s[0] == '"' {
        assert b != 1;
        assert s[..b][1..][0] == s[1];
      } else {
        CutChars(s[1..], b - 1);
        assert s[..b][1..] == s[1..][..b - 1];
      }
    }
  }

  lemma {:induction false} CutHopeless(s: string, b: nat)
    requires Hopeless(s) && Cut(s, b)
    ensures Clean(s[..b]) || Doomed(s[..b])
  {
    if b > 0 {
      if s[0] == '"' {
        CutChars(s[1..], b - 1);
        assert s[..b][1..] == s[1..][..b - 1];
      } else if s[0] != '\\' {
        CutHopeless(s[1..], b - 1);
        assert s[..b][1..] == s[1..][..b - 1];
        CleanCons(s, b);
      }
    }
  }

  lemma {:induction false} DropHopeless(s: string, k: nat)
    requires k <= |s| && Clean(s[..k]) && Hopeless(s)
    ensures Hopeless(s[k..])
  {
    if k > 0 {
      assert s[..k][0] == s[0];
      CleanCons(s, k);
      DropHopeless(s[1..], k - 1);
      assert s[1..][k - 1..] == s[k..];
    } else {
      assert s[0..] == s;
    }
  }

  lemma BlankClean(s: string)
    requires Blank(s)
    ensures Clean(s)
  {
  }

  lemma TrimBounds(p: string) returns (a: nat, b: nat)
    ensures a <= b <= |p| && Trim(p) == p[a..b] && Blank(p[..a]) && Blank(p[b..])
  {
    var l := TrimLeft(p);
    a := |p| - |l|;
    b := a + |TrimRight(l)|;
    EndSlices(p, a, |TrimRight(l)|);
  }

  lemma EndSlices(p: string, a: nat, n: nat)
    requires a + n <= |p|
    ensures p[a..][..n] == p[a..a + n] && p[a..][n..] == p[a + n..]
  {
  }

  /** Nothing but calls without names comes out of it: LostIsNameless. */
  predicate Lost(text: string) {
    Clean(Trim(text)) || Doomed(Trim(text))
  }

  lemma LostWhen(text: string, trimmed: string)
    requires Trim(text) == trimmed && (Clean(trimmed) || Doomed(trimmed))
    ensures Lost(text)
  {
  }

  lemma PieceIsLost(s: string, n: nat)
    requires Hopeless(s) && n < |s| && s[n] == '`'
    ensures Lost(s[..n])
  {
    var a, b := TrimBounds(s[..n]);
    LostSlice(s, n, a, b);
    SliceOfPrefix(s, n, a, b);
    LostWhen(s[..n], s[a..b]);
  }

  lemma SliceOfPrefix(s: string, n: nat, a: nat, b: nat)
    requires a <= b <= n <= |s|
    ensures s[..n][a..b] == s[a..b]
  {
  }

  lemma LostSlice(s: string, n: nat, a: nat, b: nat)
    requires Hopeless(s) && n < |s| && s[n] == '`'
    requires a <= b <= n && Blank(s[..n][..a]) && Blank(s[..n][b..])
    ensures Clean(s[a..b]) || Doomed(s[a..b])
  {
    BlankClean(s[..n][..a]);
    assert s[..n][..a] == s[..a];
    DropHopeless(s, a);
    CutAt(s, a, b, n);
    CutHopeless(s[a..], b - a);
    assert s[a..][..b - a] == s[a..b];
  }

  lemma LostIsNameless(text: string)
    requires Lost(text)
    ensures Nameless(T.ParseToolCallsJSON(text))
  {
    if Clean(Trim(text)) {
      CleanIsNameless(Trim(text));
    } else {
      DoomedIsNoJson(Trim(text));
    }
  }

  lemma CutAt(s: string, a: nat, b: nat, n: nat)
    requires a <= b <= n < |s| && s[n] == '`' && Blank(s[..n][b..])
    ensures Cut(s[a..], b - a)
  {
    if b < n {
      assert s[a..][b - a] == s[b] == s[..n][b..][0];
    }
  }

  /** Behind every fence in it the text is hopeless. */
  ghost predicate FenceSafe(s: string) {
    forall j :: 0 <= j <= |s| && At(s, T.FENCE, j) ==> Hopeless(s[j + 3..])
  }

  lemma FencedBehind(after: string, n: nat, w: string)
    requires Hopeless(after) && At(after, T.FENCE, n) && HasPrefix(after[..n], w) && Clean(w)
    ensures Lost(after[|w|..n])
  {
    AtChar(after, T.FENCE, n, 0);
    PrefixClean(after[..n], w);
    SliceOfPrefix(after, n, 0, |w|);
    LaterPieceIsLost(after, |w|, n);
  }

  lemma LaterPieceIsLost(s: string, k: nat, n: nat)
    requires Hopeless(s) && k <= n < |s| && s[n] == '`' && Clean(s[..k])
    ensures Lost(s[k..n])
  {
    DropHopeless(s, k);
    LaterSlice(s, k, n);
    LostPiece(s[k..], n - k, s[k..n]);
  }

  lemma LaterSlice(s: string, k: nat, n: nat)
    requires k <= n < |s|
    ensures s[k..][..n - k] == s[k..n] && s[k..][n - k] == s[n]
  {
  }

  lemma LostPiece(s: string, n: nat, piece: string)
    requires Hopeless(s) && n < |s| && s[n] == '`' && s[..n] == piece
    ensures Lost(piece)
  {
    PieceIsLost(s, n);
  }

  /** Where the body of a fence comes from: the text behind the first fence, up to the next one. */
  lemma BodyOf(text: string) returns (i: nat, n: nat, k: nat, w: string)
    requires T.FenceBody(text).Some?
    ensures At(text, T.FENCE, i) && i + 3 <= |text| && At(text[i + 3..], T.FENCE, n)
    ensures Clean(w) && k == |w| && HasPrefix(text[i + 3..][..n], w)
    ensures T.FenceBody(text).value == text[i + 3..][k..n]
  {
    i := IndexOf(text, T.FENCE);
    n := IndexOf(text[i + 3..], T.FENCE);
    if HasPrefix(text[i + 3..][..n], "json") {
      w, k := "json", 4;
    } else {
      w, k := "", 0;
      assert text[i + 3..][0..n] == text[i + 3..][..n];
    }
  }

  lemma BodyIsLost(text: string)
    requires FenceSafe(text) && T.FenceBody(text).Some?
    ensures Lost(T.FenceBody(text).value)
  {
    var i, n, k, w := BodyOf(text);
    FencedBehind(text[i + 3..], n, w);
  }

  lemma SafeIsNameless(text: string)
    requires FenceSafe(text)
    ensures Nameless(T.FencedCalls(text))
  {
    if T.FenceBody(text).Some? {
      BodyIsLost(text);
      LostIsNameless(T.FenceBody(text).value);
    }
  }

  // ---- A printed list -----------------------------------------------------------------------------------------

  lemma TicklessSafe(p: string, s: string)
    requires T.Tickless(p) && FenceSafe(s)
    ensures FenceSafe(p + s)
  {
    forall j | 0 <= j <= |p + s| && At(p + s, T.FENCE, j) ensures Hopeless((p + s)[j + 3..]) {
      AtChar(p + s, T.FENCE, j, 0);
      assert j >= |p|;
      assert (p + s)[j..j + 3] == s[j - |p|..j - |p| + 3];
      assert At(s, T.FENCE, j - |p|);
      assert (p + s)[j + 3..] == s[j - |p| + 3..];
    }
  }

  /** A printed string from anywhere inside it, and what follows. */
  function Inside(chars: string, x: string): string {
    J.Escape(chars) + ("\"" + x)
  }

  lemma InsideCons(chars: string, x: string)
    requires chars != ""
    ensures Inside(chars, x) == J.EscapeChar(chars[0]) + Inside(chars[1..], x)
  {
    Regroup(J.EscapeChar(chars[0]), J.Escape(chars[1..]), "\"" + x);
  }

  lemma InsideNothing(x: string)
    ensures Inside("", x) == "\"" + x && Inside("", x)[1..] == x
  {
  }

  lemma EscapeCharHead(c: char)
    ensures J.EscapeChar(c)[0] == '\\' || (J.EscapeChar(c) == [c] && !Special(c))
    ensures c == '`' ==> J.EscapeChar(c) == [c]
  {
  }

  lemma {:induction false} InsideHopeless(chars: string, x: string)
    requires AfterQuote(x)
    ensures Hopeless(Inside(chars, x))
  {
    if chars == "" {
      InsideNothing(x);
    } else {
      InsideCons(chars, x);
      EscapeCharHead(chars[0]);
      InsideHopeless(chars[1..], x);
      assert J.EscapeChar(chars[0]) == [chars[0]] ==> Inside(chars, x)[1..] == Inside(chars[1..], x);
    }
  }

  lemma EscapeCharTickless(c: char)
    requires c != '`'
    ensures T.Tickless(J.EscapeChar(c))
  {
  }

  /** A backtick at the start comes from a backtick. */
  lemma TickInside(chars: string, x: string)
    requires Inside(chars, x)[0] == '`'
    ensures chars != "" && chars[0] == '`' && Inside(chars, x)[1..] == Inside(chars[1..], x)
  {
    InsideNothing(x);
    if chars != "" {
      InsideCons(chars, x);
      EscapeCharHead(chars[0]);
    }
  }

  lemma FenceInside(chars: string, x: string)
    requires AfterQuote(x) && At(Inside(chars, x), T.FENCE, 0)
    ensures Hopeless(Inside(chars, x)[3..])
  {
    var s := Inside(chars, x);
    AtChar(s, T.FENCE, 0, 0);
    AtChar(s, T.FENCE, 0, 1);
    AtChar(s, T.FENCE, 0, 2);
    TickInside(chars, x);
    assert s[1..][0] == s[1] && s[1..][1..] == s[2..];
    TickInside(chars[1..], x);
    assert s[2..][0] == s[2] && s[2..][1..] == s[3..];
    TickInside(chars[1..][1..], x);
    InsideHopeless(chars[1..][1..][1..], x);
  }

  lemma {:induction false} InsideSafe(chars: string, x: string)
    requires AfterQuote(x) && FenceSafe(x)
    ensures FenceSafe(Inside(chars, x))
  {
    if chars == "" {
      InsideNothing(x);
      TicklessSafe("\"", x);
    } else {
      InsideSafe(chars[1..], x);
      InsideCons(chars, x);
      if chars[0] == '`' {
        EscapeCharHead(chars[0]);
        TickSafe(chars, x);
      } else {
        EscapeCharTickless(chars[0]);
        TicklessSafe(J.EscapeChar(chars[0]), Inside(chars[1..], x));
      }
    }
  }

  lemma TickSafe(chars: string, x: string)
    requires AfterQuote(x) && chars != "" && FenceSafe(Inside(chars[1..], x))
    requires Inside(chars, x) == ['`'] + Inside(chars[1..], x)
    ensures FenceSafe(Inside(chars, x))
  {
    if At(Inside(chars, x), T.FENCE, 0) {
      FenceInside(chars, x);
    }
    ConsSafe('`', Inside(chars[1..], x));
  }

  lemma ConsSafe(c: char, t: string)
    requires FenceSafe(t) && (At([c] + t, T.FENCE, 0) ==> Hopeless(([c] + t)[3..]))
    ensures FenceSafe([c] + t)
  {
    var s := [c] + t;
    forall j | 0 <= j <= |s| && At(s, T.FENCE, j) ensures Hopeless(s[j + 3..]) {
      if j > 0 {
        assert s[j..j + 3] == t[j - 1..j - 1 + 3];
        assert At(t, T.FENCE, j - 1);
        assert s[j + 3..] == t[j - 1 + 3..];
      }
    }
  }

  const NAME := "{" + ("\"" + "name" + "\":\"")
  const FUNCTION := "\"function\"" + ":" + NAME

  const BEFORE_ID := "{" + ("\"" + "id" + "\":\"")
  const BEFORE_NAME := "," + ("\"" + "type" + "\":\"") + "function" + "\"" + "," + FUNCTION
  const BEFORE_ARGUMENTS := "," + ("\"" + "arguments" + "\":\"")

  /** A printed call and what follows, string by string. */
  function Woven(c: T.Call, x: string): string {
    BEFORE_ID + Inside(c.id, BEFORE_NAME + Inside(c.name, BEFORE_ARGUMENTS + Inside(c.arguments, "}}" + x)))
  }

  lemma PiecesTickless()
    ensures T.Tickless(BEFORE_ID) && T.Tickless(BEFORE_NAME) && T.Tickless(BEFORE_ARGUMENTS)
  {
  }

  lemma {:induction false} QuoteThenLetter(p: string, x: string, k: nat)
    requires k + 1 < |p| && p[k] == '"' && 'a' <= p[k + 1] <= 'z'
    requires forall i :: 0 <= i < k ==> !Special(p[i])
    ensures AfterQuote(p + x)
  {
    if k > 0 {
      QuoteThenLetter(p[1..], x, k - 1);
      assert (p + x)[1..] == p[1..] + x;
    }
  }

  lemma WovenSafe(c: T.Call, x: string)
    requires AfterQuote("}}" + x) && FenceSafe(x)
    ensures FenceSafe(Woven(c, x))
  {
    PiecesTickless();
    TicklessSafe("}}", x);
    InsideSafe(c.arguments, "}}" + x);
    var args := Inside(c.arguments, "}}" + x);
    TicklessSafe(BEFORE_ARGUMENTS, args);
    QuoteThenLetter(BEFORE_ARGUMENTS, args, 1);
    InsideSafe(c.name, BEFORE_ARGUMENTS + args);
    var name := Inside(c.name, BEFORE_ARGUMENTS + args);
    TicklessSafe(BEFORE_NAME, name);
    QuoteThenLetter(BEFORE_NAME, name, 1);
    InsideSafe(c.id, BEFORE_NAME + name);
    TicklessSafe(BEFORE_ID, Inside(c.id, BEFORE_NAME + name));
  }

  lemma {:induction false} FieldsInside(key: string, chars: string, x: string)
    requires forall i :: 0 <= i < |key| ==> T.Plain(key[i])
    ensures J.PrintField(J.Field(key, J.Str(chars))) + x == "\"" + key + "\":\"" + Inside(chars, x)
  {
    T.PlainQuote(key);
    QuotedTail("\"" + key + "\"", J.Escape(chars), x);
    assert J.PrintField(J.Field(key, J.Str(chars))) == ("\"" + key + "\"") + ":" + ("\"" + J.Escape(chars) + "\"");
    assert ("\"" + key + "\"") + ":\"" == "\"" + key + "\":\"";
  }

  lemma QuotedTail(k: string, e: string, x: string)
    ensures k + ":" + ("\"" + e + "\"") + x == k + ":\"" + (e + ("\"" + x))
  {
    assert ":" + "\"" == ":\"";
  }

  lemma {:induction false} PairPrints(n: J.Field, a: J.Field, x: string)
    ensures J.Print(J.Obj([n, a])) + x == "{" + (J.PrintField(n) + ("," + (J.PrintField(a) + ("}" + x))))
  {
    assert [n, a][1..] == [a];
    assert J.PrintFields([a]) == J.PrintField(a);
    assert J.PrintFields([n, a]) == J.PrintField(n) + "," + J.PrintField(a);
    assert J.Print(J.Obj([n, a])) == "{" + (J.PrintField(n) + "," + J.PrintField(a)) + "}";
    Braces(J.PrintField(n), J.PrintField(a), x);
  }

  lemma Braces(n: string, a: string, x: string)
    ensures "{" + (n + "," + a) + "}" + x == "{" + (n + ("," + (a + ("}" + x))))
  {
  }

  lemma {:induction false} TriplePrints(i: J.Field, k: J.Field, f: J.Field, x: string)
    ensures J.Print(J.Obj([i, k, f])) + x
         == "{" + (J.PrintField(i) + ("," + (J.PrintField(k) + ("," + (J.PrintField(f) + ("}" + x))))))
  {
    assert [i, k, f][1..] == [k, f] && [k, f][1..] == [f];
    assert J.PrintFields([f]) == J.PrintField(f);
    assert J.PrintFields([k, f]) == J.PrintField(k) + "," + J.PrintField(f);
    assert J.PrintFields([i, k, f]) == J.PrintField(i) + "," + (J.PrintField(k) + "," + J.PrintField(f));
    assert J.Print(J.Obj([i, k, f])) == "{" + (J.PrintField(i) + "," + (J.PrintField(k) + "," + J.PrintField(f))) + "}";
    ThreeBraces(J.PrintField(i), J.PrintField(k), J.PrintField(f), x);
  }

  lemma ThreeBraces(i: string, k: string, f: string, x: string)
    ensures "{" + (i + "," + (k + "," + f)) + "}" + x == "{" + (i + ("," + (k + ("," + (f + ("}" + x))))))
  {
  }

  lemma Joins(a: string, b: string, c: string, rest: string)
    requires a + b == c
    ensures a + (b + rest) == c + rest
  {
  }

  /** A field with what stands before it. */
  lemma {:induction false} FieldStep(head: string, f: J.Field, x: string, opening: string)
    requires f.value.Str? && forall i :: 0 <= i < |f.key| ==> T.Plain(f.key[i])
    requires opening == head + ("\"" + f.key + "\":\"")
    ensures head + (J.PrintField(f) + x) == opening + Inside(f.value.chars, x)
  {
    FieldsInside(f.key, f.value.chars, x);
    Joins(head, "\"" + f.key + "\":\"", opening, Inside(f.value.chars, x));
  }

  lemma {:induction false} PairWoven(n: J.Field, a: J.Field, x: string, openN: string, openA: string)
    requires n.value.Str? && forall i :: 0 <= i < |n.key| ==> T.Plain(n.key[i])
    requires a.value.Str? && forall i :: 0 <= i < |a.key| ==> T.Plain(a.key[i])
    requires openN == "{" + ("\"" + n.key + "\":\"") && openA == "," + ("\"" + a.key + "\":\"")
    ensures J.Print(J.Obj([n, a])) + ("}" + x)
         == openN + Inside(n.value.chars, openA + Inside(a.value.chars, "}}" + x))
  {
    PairPrints(n, a, "}" + x);
    Joins("}", "}", "}}", x);
    FieldStep(",", a, "}}" + x, openA);
    FieldStep("{", n, openA + Inside(a.value.chars, "}}" + x), openN);
  }

  lemma {:induction false} KeyedWoven(f: J.Field, x: string, opening: string, rest: string, full: string)
    requires J.Print(f.value) + x == opening + rest && full == J.Quote(f.key) + ":" + opening
    ensures J.PrintField(f) + x == full + rest
  {
    Regroup(J.Quote(f.key) + ":", J.Print(f.value), x);
    Joins(J.Quote(f.key) + ":", opening, full, rest);
  }

  lemma SixJoin(a: string, b: string, c: string, d: string, e: string, f: string, rest: string, all: string)
    requires all == a + b + c + d + e + f
    ensures a + (b + (c + (d + (e + (f + rest))))) == all + rest
  {
  }

  lemma {:induction false} KindWoven(k: J.Field, opening: string, rest: string, all: string)
    requires k.value.Str? && J.Escape(k.value.chars) == k.value.chars
    requires forall i :: 0 <= i < |k.key| ==> T.Plain(k.key[i])
    requires all == "," + ("\"" + k.key + "\":\"") + k.value.chars + "\"" + "," + opening
    ensures "," + (J.PrintField(k) + ("," + (opening + rest))) == all + rest
  {
    FieldsInside(k.key, k.value.chars, "," + (opening + rest));
    SixJoin(",", "\"" + k.key + "\":\"", k.value.chars, "\"", ",", opening, rest, all);
  }

  lemma FunctionIsPlain(s: string)
    requires s == "function"
    ensures J.Escape(s) == s && J.Quote(s) == "\"function\""
  {
    T.PlainQuote(s);
    T.PlainEscapes(s);
  }

  /** The keys of a printed call, and what stands between its strings. */
  datatype Frame = Frame(
    id: string, kind: string, func: string, name: string, arguments: string,
    beforeId: string, beforeName: string, beforeArguments: string, openName: string, openFunction: string)

  predicate PlainText(s: string) {
    forall i :: 0 <= i < |s| ==> T.Plain(s[i])
  }

  predicate PlainKeys(fr: Frame) {
    PlainText(fr.id) && PlainText(fr.kind) && PlainText(fr.name) && PlainText(fr.arguments)
  }

  predicate Fits(fr: Frame, kind: string) {
    && fr.openName == "{" + ("\"" + fr.name + "\":\"")
    && fr.beforeArguments == "," + ("\"" + fr.arguments + "\":\"")
    && fr.openFunction == J.Quote(fr.func) + ":" + fr.openName
    && fr.beforeId == "{" + ("\"" + fr.id + "\":\"")
    && fr.beforeName == "," + ("\"" + fr.kind + "\":\"") + kind + "\"" + "," + fr.openFunction
  }

  const FRAME := Frame(
    "id", "type", "function", "name", "arguments", BEFORE_ID, BEFORE_NAME, BEFORE_ARGUMENTS, NAME, FUNCTION)

  lemma FrameFits()
    ensures Fits(FRAME, "function")
  {
    FunctionIsPlain("function");
  }

  lemma FrameIsPlain()
    ensures PlainKeys(FRAME)
  {
  }

  function JsonBy(c: T.Call, fr: Frame): J.Value {
    J.Obj([J.Field(fr.id, J.Str(c.id)), J.Field(fr.kind, J.Str(c.kind)),
           J.Field(fr.func, J.Obj([J.Field(fr.name, J.Str(c.name)), J.Field(fr.arguments, J.Str(c.arguments))]))])
  }

  function WovenBy(c: T.Call, x: string, fr: Frame): string {
    fr.beforeId + Inside(c.id, fr.beforeName + Inside(c.name, fr.beforeArguments + Inside(c.arguments, "}}" + x)))
  }

  lemma {:induction false} ShapeIsWoven(c: T.Call, x: string, fr: Frame)
    requires PlainKeys(fr) && Fits(fr, c.kind) && J.Escape(c.kind) == c.kind
    ensures J.Print(JsonBy(c, fr)) + x == WovenBy(c, x, fr)
  {
    var i, k := J.Field(fr.id, J.Str(c.id)), J.Field(fr.kind, J.Str(c.kind));
    var n, a := J.Field(fr.name, J.Str(c.name)), J.Field(fr.arguments, J.Str(c.arguments));
    var f := J.Field(fr.func, J.Obj([n, a]));
    var rest := Inside(c.name, fr.beforeArguments + Inside(c.arguments, "}}" + x));
    PairWoven(n, a, x, fr.openName, fr.beforeArguments);
    KeyedWoven(f, "}" + x, fr.openName, rest, fr.openFunction);
    KindWoven(k, fr.openFunction, rest, fr.beforeName);
    FieldStep("{", i, fr.beforeName + rest, fr.beforeId);
    TriplePrints(i, k, f, x);
  }

  lemma {:induction false} CallByFrame(c: T.Call, x: string)
    ensures JsonBy(c, FRAME) == T.JsonOf(c) && WovenBy(c, x, FRAME) == Woven(c, x)
  {
  }

  /** A printed call of the kind that the printer writes. */
  lemma {:induction false} CallIsWoven(c: T.Call, x: string)
    requires c.kind == "function"
    ensures J.Print(T.JsonOf(c)) + x == Woven(c, x)
  {
    FrameFits();
    FrameIsPlain();
    FunctionIsPlain(c.kind);
    ShapeIsWoven(c, x, FRAME);
    CallByFrame(c, x);
  }

  predicate Printer(calls: seq<T.Call>) {
    forall i :: 0 <= i < |calls| ==> calls[i].kind == "function"
  }

  lemma {:induction false} ItemsSafe(calls: seq<T.Call>, x: string)
    requires calls != [] && Printer(calls) && FenceSafe(x) && AfterQuote("}}" + x)
    ensures FenceSafe(J.PrintItems(T.JsonItems(calls)) + x)
    ensures |J.PrintItems(T.JsonItems(calls)) + x| > 3 && (J.PrintItems(T.JsonItems(calls)) + x)[..3] == "{\"i"
    decreases |calls|
  {
    var items := T.JsonItems(calls);
    if |calls| == 1 {
      assert J.PrintItems(items) == J.Print(T.JsonOf(calls[0]));
      CallIsWoven(calls[0], x);
      WovenSafe(calls[0], x);
      WovenHead(calls[0], x);
    } else {
      ItemsSafe(calls[1..], x);
      assert items[1..] == T.JsonItems(calls[1..]);
      var more := J.PrintItems(items[1..]) + x;
      TicklessSafe(",", more);
      QuoteThenI(more);
      J.ItemsPrint(items, x);
      CallIsWoven(calls[0], "," + more);
      WovenSafe(calls[0], "," + more);
      WovenHead(calls[0], "," + more);
    }
  }

  lemma WovenHead(c: T.Call, x: string)
    ensures |Woven(c, x)| > 3 && Woven(c, x)[..3] == "{\"i"
  {
    assert BEFORE_ID[..3] == "{\"i";
  }

  lemma QuoteThenI(more: string)
    requires |more| > 3 && more[..3] == "{\"i"
    ensures AfterQuote("}}" + ("," + more))
  {
    var p := "}}" + "," + "{\"i";
    QuoteThenLetter(p, more[3..], 4);
    assert p + more[3..] == "}}" + ("," + more) by {
      assert more == "{\"i" + more[3..];
    }
  }

  lemma NothingSafe(x: string)
    requires T.Tickless(x)
    ensures FenceSafe(x)
  {
    assert x + "" == x;
    TicklessSafe(x, "");
  }

  lemma EndOfList(x: string)
    requires x == "]}"
    ensures T.Tickless(x) && AfterQuote("}}" + x)
  {
    NoQuote("}}" + x);
  }

  lemma {:induction false} NoQuote(s: string)
    requires Clean(s)
    ensures AfterQuote(s)
  {
    if s != "" {
      NoQuote(s[1..]);
    }
  }

  lemma {:induction false} PrintedSafe(calls: seq<T.Call>)
    requires Printer(calls)
    ensures FenceSafe(T.Printed(calls))
  {
    var items := T.JsonItems(calls);
    T.PrintedShape(calls);
    if calls == [] {
      NothingSafe(T.Printed(calls));
    } else {
      EndOfList("]}");
      NothingSafe("]}");
      ItemsSafe(calls, "]}");
      var list := J.PrintItems(items) + "]}";
      assert T.Printed(calls) == ("{" + T.KEY + ":[") + list;
      TicklessSafe("{" + T.KEY + ":[", list);
    }
  }

  lemma {:induction false} NamelessIsNothing(calls: seq<T.Call>, f: (T.Call, nat) -> T.Call)
    requires Nameless(calls)
    ensures T.MapNamed(calls, f) == []
  {
    if calls != [] {
      NamelessIsNothing(calls[..|calls| - 1], f);
    }
  }

  /** Parsing what was printed gives back the calls, normalised, or nothing at all: nothing exactly if a code fence
      inside their strings holds something that reads as calls. It never gives other calls. */
  lemma ReadBackOrNothing(tcs: seq<E.ToolCall>, uuid: nat -> string)
    requires tcs != []
    ensures var text := T.Printed(T.CallsOf(tcs));
      T.ParseClientToolCalls(text, uuid)
      == if T.FencedCalls(text) == [] then T.Normalized(T.CallsOf(tcs), uuid) else []
  {
    T.ParsingUndoesPrinting(tcs, uuid);
    PrintedSafe(T.CallsOf(tcs));
    SafeIsNameless(T.Printed(T.CallsOf(tcs)));
    NamelessIsNothing(T.FencedCalls(T.Printed(T.CallsOf(tcs))), (c: T.Call, i: nat) => T.Filled(c, uuid(i)));
  }

  /** The same field by field: nothing comes back, or one call for each tool call with a name or a title, in order, and
      each with its own fields. */
  lemma {:induction false} ReadBackKeepsTheFields(tcs: seq<E.ToolCall>, uuid: nat -> string) returns (at: seq<nat>)
    requires tcs != []
    ensures var text := T.Printed(T.CallsOf(tcs));
      var out := T.ParseClientToolCalls(text, uuid);
      if T.FencedCalls(text) != [] then out == []
      else T.NamedAt(T.NamesOf(tcs), at) && |out| == |at| && forall j :: 0 <= j < |at| ==> T.Delivers(tcs[at[j]], out[j])
  {
    at := [];
    ReadBackOrNothing(tcs, uuid);
    if T.FencedCalls(T.Printed(T.CallsOf(tcs))) == [] {
      at := T.ParsedCallsKeepTheirFields(tcs, uuid);
    }
  }

  // ---- Text without quotes is not held ------------------------------------------------------------------------

  lemma {:induction false} QuotelessIsCleanOrDoomed(s: string)
    requires Lacks(s, '"')
    ensures Clean(s) || Doomed(s)
  {
    if s != "" && s[0] != '\\' {
      QuotelessIsCleanOrDoomed(s[1..]);
    }
  }

  lemma QuotelessIsNameless(text: string)
    requires Lacks(text, '"')
    ensures Nameless(T.ParseToolCallsJSON(text))
  {
    var a, b := TrimBounds(text);
    QuotelessIsCleanOrDoomed(text[a..b]);
    LostWhen(text, text[a..b]);
    LostIsNameless(text);
  }

  lemma QuotelessFence(text: string)
    requires Lacks(text, '"')
    ensures Nameless(T.FencedCalls(text))
  {
    if T.FenceBody(text).Some? {
      var i, n, k, w := BodyOf(text);
      QuotelessIsNameless(T.FenceBody(text).value);
    }
  }

  lemma QuotelessHasNoKey(text: string)
    requires Lacks(text, '"')
    ensures !Contains(text, T.KEY)
  {
    var i := IndexOf(text, T.KEY);
    if i >= 0 { AtChar(text, T.KEY, i, 0); }
  }

  lemma QuotelessTrim(text: string)
    requires Lacks(text, '"')
    ensures Lacks(Trim(text), '"')
  {
    var a, b := TrimBounds(text);
  }

  /** Text without quotes holds no tool calls, and is held back exactly while it starts with a brace, is short, and more
      of its braces open than close. */
  lemma QuotelessIsHeldExactlyWhen(text: string, uuid: nat -> string)
    requires Lacks(text, '"')
    ensures T.ParseClientToolCalls(text, uuid) == []
    ensures T.LooksLikePendingToolCallsJSON(text, uuid) <==>
      HasPrefix(Trim(text), "{") && ByteLen(Trim(text)) < 512 && T.Depth(Trim(text)) > 0
  {
    var t := Trim(text);
    QuotelessTrim(text);
    QuotelessIsNameless(t);
    QuotelessFence(t);
    QuotelessHasNoKey(t);
    T.NoKey(t);
    NamelessIsNothing(T.FoundCalls(text), (c: T.Call, i: nat) => T.Filled(c, uuid(i)));
    T.ParseOfTrimmed(text, uuid);
  }
}
