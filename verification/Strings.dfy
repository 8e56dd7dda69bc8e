/** The parts of Go's "strings" package that the gateway's text handling leans on, each with the contract the rest of
    the project uses. A string is a sequence of Unicode scalar values. */
module Strings {
  /** unicode.IsSpace. */
  predicate IsSpace(c: char) {
    || '\t' <= c <= '\r'
    || c == ' '
    || c == '\U{0085}'
    || c == '\U{00A0}'
    || c == '\U{1680}'
    || '\U{2000}' <= c <= '\U{200A}'
    || c == '\U{2028}'
    || c == '\U{2029}'
    || c == '\U{202F}'
    || c == '\U{205F}'
    || c == '\U{3000}'
  }

  predicate Blank(s: string) {
    forall i :: 0 <= i < |s| ==> IsSpace(s[i])
  }

  /** How many characters at the start of s are white space. */
  function Leading(s: string): (n: nat)
    ensures n <= |s| && Blank(s[..n])
    ensures n < |s| ==> !IsSpace(s[n])
  {
    if s == "" || !IsSpace(s[0]) then 0 else 1 + Leading(s[1..])
  }

  function TrimLeft(s: string): (r: string)
    ensures |r| <= |s| && r == s[|s| - |r|..] && Blank(s[..|s| - |r|])
    ensures r == "" || !IsSpace(r[0])
  {
    s[Leading(s)..]
  }

  /** The length of s without the white space at its end. */
  function EndOfText(s: string): (n: nat)
    ensures n <= |s| && Blank(s[n..])
    ensures n > 0 ==> !IsSpace(s[n - 1])
  {
    if s == "" || !IsSpace(s[|s| - 1]) then |s| else EndOfText(s[..|s| - 1])
  }

  function TrimRight(s: string): (r: string)
    ensures |r| <= |s| && r == s[..|r|] && Blank(s[|r|..])
    ensures r == "" || !IsSpace(r[|r| - 1])
  {
    s[..EndOfText(s)]
  }

  /** strings.TrimSpace. */
  function Trim(s: string): (r: string)
    ensures r == "" || (!IsSpace(r[0]) && !IsSpace(r[|r| - 1]))
  {
    var l := TrimLeft(s);
    var r := TrimRight(l);
    assert r != "" ==> r[0] == l[0];
    r
  }

  /** Text that starts and ends with a non-space is what is left of any blank padding around it. */
  predicate Tight(s: string) {
    s != "" && !IsSpace(s[0]) && !IsSpace(s[|s| - 1])
  }

  lemma {:induction false} TrimLeftOf(a: string, s: string)
    requires s != "" && !IsSpace(s[0])
    ensures TrimLeft(a + s) == TrimLeft(a) + s
  {
    if a == "" {
      assert a + s == s;
    } else {
      assert (a + s)[1..] == a[1..] + s;
      if IsSpace(a[0]) {
        TrimLeftOf(a[1..], s);
      }
    }
  }

  lemma {:induction false} TrimRightOf(s: string, b: string)
    requires s != "" && !IsSpace(s[|s| - 1])
    ensures TrimRight(s + b) == s + TrimRight(b)
  {
    if b == "" {
      assert s + b == s;
    } else {
      assert (s + b)[..|s + b| - 1] == s + b[..|b| - 1];
      assert (s + b)[|s + b| - 1] == b[|b| - 1];
      if IsSpace(b[|b| - 1]) {
        TrimRightOf(s, b[..|b| - 1]);
      }
    }
  }

  lemma {:induction false} TrimRightBlank(a: string, b: string)
    requires Blank(b)
    ensures TrimRight(a + b) == TrimRight(a)
  {
    if b == "" {
      assert a + b == a;
    } else {
      assert (a + b)[..|a + b| - 1] == a + b[..|b| - 1];
      assert (a + b)[|a + b| - 1] == b[|b| - 1];
      TrimRightBlank(a, b[..|b| - 1]);
    }
  }

  lemma TrimRightConcat(a: string, b: string)
    ensures TrimRight(a + b) == if Blank(b) then TrimRight(a) else a + TrimRight(b)
    ensures Blank(b) <==> TrimRight(b) == ""
  {
    var r := TrimRight(b);
    assert b[0..] == b;
    if Blank(b) {
      TrimRightBlank(a, b);
    } else {
      Regroup(a, r, b[|r|..]);
      assert r + b[|r|..] == b;
      TrimRightBlank(a + r, b[|r|..]);
      assert (a + r)[|a + r| - 1] == r[|r| - 1];
    }
  }

  lemma {:induction false} LeadingIs(s: string, n: nat)
    requires n < |s| && !IsSpace(s[n]) && forall i :: 0 <= i < n ==> IsSpace(s[i])
    ensures Leading(s) == n
  {
    if n > 0 {
      LeadingIs(s[1..], n - 1);
    }
  }

  lemma LeadingConcat(a: string, b: string)
    requires !Blank(a)
    ensures Leading(a + b) == Leading(a)
  {
    var n := Leading(a);
    assert a[..|a|] == a;
    forall i | 0 <= i < n ensures IsSpace((a + b)[i]) {
      assert (a + b)[i] == a[..n][i];
    }
    LeadingIs(a + b, n);
  }

  lemma BlankConcat(a: string, b: string)
    ensures Blank(a + b) <==> Blank(a) && Blank(b)
  {
    assert forall i :: 0 <= i < |a| ==> (a + b)[i] == a[i];
    assert forall i :: 0 <= i < |b| ==> (a + b)[|a| + i] == b[i];
  }

  /** White space after a text does not matter to Trim. */
  lemma TrimBlankTail(a: string, b: string)
    requires Blank(b)
    ensures Trim(a + b) == Trim(a)
  {
    if Blank(a) {
      BlankConcat(a, b);
      BlankTrimsAway(a);
      BlankTrimsAway(a + b);
    } else {
      LeadingConcat(a, b);
      var n := Leading(a);
      assert (a + b)[n..] == a[n..] + b;
      TrimRightBlank(a[n..], b);
    }
  }

  /** The texts of a list, one after the other. */
  function Joined<T>(xs: seq<T>, text: T -> string): string {
    if xs == [] then "" else Joined(xs[..|xs| - 1], text) + text(xs[|xs| - 1])
  }

  lemma JoinedLast<T>(xs: seq<T>, x: T, text: T -> string)
    ensures Joined(xs + [x], text) == Joined(xs, text) + text(x)
  {
    assert (xs + [x])[..|xs|] == xs;
  }

  lemma {:induction false} JoinedConcat<T>(a: seq<T>, b: seq<T>, text: T -> string)
    ensures Joined(a + b, text) == Joined(a, text) + Joined(b, text)
  {
    if b == [] {
      assert a + b == a;
    } else {
      var n := |b| - 1;
      JoinedConcat(a, b[..n], text);
      JoinedLast(a + b[..n], b[n], text);
      assert a + b[..n] + [b[n]] == a + b;
      Regroup(Joined(a, text), Joined(b[..n], text), text(b[n]));
    }
  }

  lemma TrimBoth(a: string, s: string, b: string)
    requires Tight(s)
    ensures TrimLeft(a + (s + b)) == TrimLeft(a) + (s + b)
    ensures TrimRight((TrimLeft(a) + s) + b) == (TrimLeft(a) + s) + TrimRight(b)
  {
    TrimLeftOf(a, s + b);
    TrimRightOf(TrimLeft(a) + s, b);
  }

  lemma TrimAround(a: string, s: string, b: string)
    requires Tight(s)
    ensures Trim(a + s + b) == TrimLeft(a) + s + TrimRight(b)
  {
    TrimBoth(a, s, b);
    Regroup(a, s, b);
    Regroup(TrimLeft(a), s, b);
  }

  lemma Regroup(a: string, b: string, c: string)
    ensures a + (b + c) == a + b + c
  {
  }

  lemma TrimTight(s: string)
    requires Tight(s)
    ensures Trim(s) == s
  {
  }

  lemma TrimIdempotent(s: string)
    ensures Trim(Trim(s)) == Trim(s)
  {
  }

  lemma {:induction false} BlankTrimsAway(s: string)
    ensures Trim(s) == "" <==> Blank(s)
  {
    var l := TrimLeft(s);
    assert s[..|s|] == s && l[0..] == l;
    assert l != "" ==> l[0] == s[|s| - |l|];
  }

  predicate Lacks(s: string, c: char) {
    forall i :: 0 <= i < |s| ==> s[i] != c
  }

  predicate OneLine(s: string) {
    Lacks(s, '\n')
  }

  /** The first c of a string tells where it was put together. */
  lemma SplitAtChar(a: string, x: string, b: string, y: string, c: char)
    requires Lacks(a, c) && Lacks(b, c) && a + [c] + x == b + [c] + y
    ensures a == b && x == y
  {
    var s := a + [c] + x;
    assert s[|a|] == c && s[|b|] == c;
    assert forall i :: 0 <= i < |a| ==> s[i] == a[i];
    assert forall i :: 0 <= i < |b| ==> s[i] == b[i];
    assert s[..|a|] == a && s[..|b|] == b;
    assert s[|a| + 1..] == x && s[|b| + 1..] == y;
  }

  /** pat occurs in s at position i. */
  predicate At(s: string, pat: string, i: int) {
    0 <= i && i + |pat| <= |s| && s[i..i + |pat|] == pat
  }

  lemma AtChar(s: string, pat: string, i: int, k: nat)
    requires At(s, pat, i) && k < |pat|
    ensures s[i + k] == pat[k]
  {
    assert s[i..i + |pat|][k] == pat[k];
  }

  lemma AtInPrefix(s: string, n: nat, pat: string, i: nat)
    requires n <= |s| && i + |pat| <= n
    ensures At(s[..n], pat, i) <==> At(s, pat, i)
  {
    assert s[..n][i..i + |pat|] == s[i..i + |pat|];
  }

  /** The first occurrence at or after `from`, or -1. */
  function IndexFrom(s: string, pat: string, from: nat): (r: int)
    requires from <= |s|
    ensures r >= 0 ==> from <= r && At(s, pat, r)
    ensures forall j :: from <= j < (if r >= 0 then r else |s| + 1) ==> !At(s, pat, j)
    decreases |s| - from
  {
    if At(s, pat, from) then from
    else if from == |s| then -1
    else IndexFrom(s, pat, from + 1)
  }

  /** strings.Index. */
  function IndexOf(s: string, pat: string): (r: int)
    ensures r >= 0 ==> At(s, pat, r)
    ensures forall j :: 0 <= j < (if r >= 0 then r else |s| + 1) ==> !At(s, pat, j)
  {
    IndexFrom(s, pat, 0)
  }

  /** The last occurrence at or before `from`, or -1. */
  function LastIndexFrom(s: string, pat: string, from: nat): (r: int)
    requires from <= |s|
    ensures r >= 0 ==> r <= from && At(s, pat, r)
    ensures r >= -1
    ensures forall j :: r < j <= from ==> !At(s, pat, j)
    decreases from
  {
    if At(s, pat, from) then from
    else if from == 0 then -1
    else LastIndexFrom(s, pat, from - 1)
  }

  /** strings.LastIndex. */
  function LastIndexOf(s: string, pat: string): (r: int)
    ensures r >= 0 ==> At(s, pat, r)
    ensures r >= -1
    ensures forall j :: r < j <= |s| ==> !At(s, pat, j)
  {
    LastIndexFrom(s, pat, |s|)
  }

  /** strings.Contains. */
  predicate Contains(s: string, pat: string) {
    IndexOf(s, pat) >= 0
  }

  lemma PrefixLacks(s: string, n: nat, pat: string)
    requires n <= |s| && !Contains(s, pat)
    ensures !Contains(s[..n], pat)
  {
    var i := IndexOf(s[..n], pat);
    if i >= 0 {
      assert s[..n][i..i + |pat|] == s[i..i + |pat|];
      assert At(s, pat, i);
    }
  }

  lemma SuffixLacks(s: string, n: nat, pat: string)
    requires n <= |s| && !Contains(s, pat)
    ensures !Contains(s[n..], pat)
  {
    var i := IndexOf(s[n..], pat);
    if i >= 0 {
      assert s[n..][i..i + |pat|] == s[n + i..n + i + |pat|];
      assert At(s, pat, n + i);
    }
  }

  /** Trimming leaves a piece of the text. */
  lemma TrimLacks(s: string, pat: string)
    requires !Contains(s, pat)
    ensures !Contains(Trim(s), pat)
  {
    var l := s[Leading(s)..];
    assert Trim(s) == l[..EndOfText(l)];
    SuffixLacks(s, Leading(s), pat);
    PrefixLacks(l, EndOfText(l), pat);
  }

  /** What is left starts with the first character that is no white space. */
  lemma TrimHead(s: string)
    ensures Trim(s) == "" || (Tight(Trim(s)) && Leading(s) < |s| && Trim(s)[0] == s[Leading(s)])
  {
    var l := s[Leading(s)..];
    assert Trim(s) == l[..EndOfText(l)];
  }

  predicate HasPrefix(s: string, pat: string) {
    |pat| <= |s| && s[..|pat|] == pat
  }

  /** unicode.ToLower wherever the result is ASCII, which is all that the comparisons made with it look at: the dotted
      capital I and the Kelvin sign are the only characters outside ASCII with such a result. */
  function LowerChar(c: char): char {
    if 'A' <= c <= 'Z' then (c as int + 32) as char
    else if c == '\U{0130}' then 'i'
    else if c == '\U{212A}' then 'k'
    else c
  }

  function ToLower(s: string): (r: string)
    ensures |r| == |s| && forall i :: 0 <= i < |s| ==> r[i] == LowerChar(s[i])
  {
    seq(|s|, i requires 0 <= i < |s| => LowerChar(s[i]))
  }

  /** Go compares strings byte by byte, which for valid UTF-8 is code point by code point. */
  predicate Less(a: string, b: string) {
    if b == "" then false
    else if a == "" then true
    else a[0] < b[0] || (a[0] == b[0] && Less(a[1..], b[1..]))
  }

  lemma {:induction false} LessTrans(a: string, b: string, c: string)
    requires Less(a, b) && Less(b, c)
    ensures Less(a, c)
  {
    if a != "" && a[0] == b[0] && b[0] == c[0] {
      LessTrans(a[1..], b[1..], c[1..]);
    }
  }

  lemma {:induction false} LessAsym(a: string, b: string)
    ensures !(Less(a, b) && Less(b, a))
  {
    if a != "" && b != "" && a[0] == b[0] {
      LessAsym(a[1..], b[1..]);
    }
  }

  lemma {:induction false} LessTotal(a: string, b: string)
    ensures Less(a, b) || Less(b, a) || a == b
  {
    if a != "" && b != "" && a[0] == b[0] {
      LessTotal(a[1..], b[1..]);
      assert a == [a[0]] + a[1..] && b == [b[0]] + b[1..];
    }
  }

  /** len() of a Go string counts UTF-8 bytes. */
  function ByteLen(s: string): nat {
    if s == "" then 0 else
      (if s[0] < '\U{0080}' then 1
       else if s[0] < '\U{0800}' then 2
       else if s[0] < '\U{10000}' then 3
       else 4) + ByteLen(s[1..])
  }

  /** strings.Count of a one-character string. */
  function Count(s: string, c: char): nat {
    if s == "" then 0 else Count(s[..|s| - 1], c) + (if s[|s| - 1] == c then 1 else 0)
  }

  // ---- What these functions are in the language ---------------------------------------------------------------

  /** Texts that differ in the case of ASCII letters only have the same lower-case form. */
  lemma CaseIsLowered(a: string, b: string)
    requires |a| == |b| && forall i :: 0 <= i < |a| ==>
      a[i] == b[i] || ('A' <= a[i] <= 'Z' && b[i] as int == a[i] as int + 32)
    ensures ToLower(a) == ToLower(b)
  {
    assert forall i :: 0 <= i < |a| ==> ToLower(a)[i] == ToLower(b)[i];
  }

  /** The first difference decides the order, and a beginning comes before what goes on. */
  lemma {:induction false} LessAtTheDifference(a: string, x: char, u: string, y: char, v: string)
    ensures x != y ==> (Less(a + [x] + u, a + [y] + v) <==> x < y)
    ensures Less(a, a + [x] + u)
  {
    if a == "" {
      assert a + [x] + u == [x] + u && a + [y] + v == [y] + v;
    } else {
      LessAtTheDifference(a[1..], x, u, y, v);
      assert (a + [x] + u)[1..] == a[1..] + [x] + u && (a + [y] + v)[1..] == a[1..] + [y] + v;
    }
  }

  /** The bytes of a text are those of its parts, and of a character one to four, by the limits of section 3 of
      RFC 3629. */
  lemma {:induction false} BytesOfText(a: string, c: char, b: string)
    ensures ByteLen(a + [c] + b) == ByteLen(a) + ByteLen([c]) + ByteLen(b)
    ensures ByteLen([c]) == (if c as int <= 0x7F then 1 else if c as int <= 0x7FF then 2 else if c as int <= 0xFFFF then 3 else 4)
  {
    assert [c][1..] == "";
    if a == "" {
      assert a + [c] + b == [c] + b && ([c] + b)[1..] == b;
    } else {
      assert (a + [c] + b)[1..] == a[1..] + [c] + b;
      BytesOfText(a[1..], c, b);
    }
  }
}
