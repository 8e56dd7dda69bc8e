/**
 The line diff of the trace viewer (lineDiff in internal/webui/static/tap_viewer.html): common lines at both ends are
 context, long context is folded, and the lines between are paired one by one.
*/
module LineDiff {
  datatype Item =
    | Ctx(text: string)
    | Fold(count: nat)
    | Change(before: string, after: string)
    | Del(text: string)
    | Add(text: string)

  // ---- What a diff says ---------------------------------------------------------------------------------------

  /** Reading the items, with the old lines at hand for the folds, uses exactly the old lines and gives `now`. */
  predicate Explains(items: seq<Item>, was: seq<string>, now: seq<string>) {
    if items == [] then was == [] && now == [] else
    var rest := items[1..];
    match items[0]
    case Ctx(t) => was != [] && now != [] && was[0] == t == now[0] && Explains(rest, was[1..], now[1..])
    case Fold(n) => n <= |was| && n <= |now| && was[..n] == now[..n] && Explains(rest, was[n..], now[n..])
    case Change(o, n) => was != [] && now != [] && was[0] == o && now[0] == n && Explains(rest, was[1..], now[1..])
    case Del(t) => was != [] && was[0] == t && Explains(rest, was[1..], now)
    case Add(t) => now != [] && now[0] == t && Explains(rest, was, now[1..])
  }

  /** The new lines, rebuilt from the old ones and the items. */
  function Rebuild(items: seq<Item>, was: seq<string>): seq<string> {
    if items == [] then [] else
    var rest := items[1..];
    var after := if was == [] then [] else was[1..];
    match items[0]
    case Ctx(t) => [t] + Rebuild(rest, after)
    case Fold(n) => var k := if n <= |was| then n else |was|; was[..k] + Rebuild(rest, was[k..])
    case Change(_, n) => [n] + Rebuild(rest, after)
    case Del(_) => Rebuild(rest, after)
    case Add(t) => [t] + Rebuild(rest, was)
  }

  /** The same diff the other way round. */
  function Mirror(items: seq<Item>): seq<Item> {
    if items == [] then [] else
    [match items[0]
     case Change(o, n) => Change(n, o)
     case Del(t) => Add(t)
     case Add(t) => Del(t)
     case c => c]
    + Mirror(items[1..])
  }

  lemma {:induction false} ExplainedIsRebuilt(items: seq<Item>, was: seq<string>, now: seq<string>)
    requires Explains(items, was, now)
    ensures Rebuild(items, was) == now
  {
    if items != [] {
      match items[0]
      case Ctx(t) =>
        ExplainedIsRebuilt(items[1..], was[1..], now[1..]);
        assert now == [now[0]] + now[1..];
      case Fold(n) =>
        ExplainedIsRebuilt(items[1..], was[n..], now[n..]);
        assert now == now[..n] + now[n..];
      case Change(o, n) =>
        ExplainedIsRebuilt(items[1..], was[1..], now[1..]);
        assert now == [now[0]] + now[1..];
      case Del(t) =>
        ExplainedIsRebuilt(items[1..], was[1..], now);
      case Add(t) =>
        ExplainedIsRebuilt(items[1..], was, now[1..]);
        assert now == [now[0]] + now[1..];
    }
  }

  lemma {:induction false} MirrorExplains(items: seq<Item>, was: seq<string>, now: seq<string>)
    requires Explains(items, was, now)
    ensures Explains(Mirror(items), now, was)
  {
    if items != [] {
      assert Mirror(items)[1..] == Mirror(items[1..]);
      match items[0]
      case Ctx(t) => MirrorExplains(items[1..], was[1..], now[1..]);
      case Fold(n) => MirrorExplains(items[1..], was[n..], now[n..]);
      case Change(o, n) => MirrorExplains(items[1..], was[1..], now[1..]);
      case Del(t) => MirrorExplains(items[1..], was[1..], now);
      case Add(t) => MirrorExplains(items[1..], was, now[1..]);
    }
  }

  lemma Split(a: seq<string>, b: seq<string>, n: nat)
    requires n <= |a|
    ensures (a + b)[n..] == a[n..] + b && (a + b)[..n] == a[..n]
  {
  }

  lemma {:induction false} ExplainsConcat(
    a: seq<Item>, old1: seq<string>, new1: seq<string>, b: seq<Item>, old2: seq<string>, new2: seq<string>)
    requires Explains(a, old1, new1) && Explains(b, old2, new2)
    ensures Explains(a + b, old1 + old2, new1 + new2)
  {
    if a == [] {
      assert a + b == b && old1 + old2 == old2 && new1 + new2 == new2;
    } else {
      assert (a + b)[1..] == a[1..] + b;
      var i, j := Uses(a[0]).0, Uses(a[0]).1;
      ExplainsHead(a, old1, new1);
      Split(old1, old2, i);
      Split(new1, new2, j);
      ExplainsConcat(a[1..], old1[i..], new1[j..], b, old2, new2);
    }
  }

  /** How many old and new lines an item stands for. */
  function Uses(item: Item): (nat, nat) {
    match item
    case Fold(n) => (n, n)
    case Del(_) => (1, 0)
    case Add(_) => (0, 1)
    case _ => (1, 1)
  }

  lemma ExplainsHead(items: seq<Item>, was: seq<string>, now: seq<string>)
    requires items != [] && Explains(items, was, now)
    ensures Uses(items[0]).0 <= |was| && Uses(items[0]).1 <= |now|
    ensures Explains(items[1..], was[Uses(items[0]).0..], now[Uses(items[0]).1..])
  {
    assert was[0..] == was && now[0..] == now;
  }

  // ---- The diff -----------------------------------------------------------------------------------------------

  function Min(a: nat, b: nat): nat {
    if a < b then a else b
  }

  /** How many lines the two lists share at the start, given that they share n. */
  function PrefixFrom(a: seq<string>, b: seq<string>, n: nat): (r: nat)
    requires n <= |a| && n <= |b|
    ensures n <= r <= |a| && r <= |b|
    ensures r < |a| && r < |b| ==> a[r] != b[r]
    decreases |a| - n
  {
    if n < |a| && n < |b| && a[n] == b[n] then PrefixFrom(a, b, n + 1) else n
  }

  /** How many lines they share at the end, outside the first `pre`, given that they share n. */
  function SuffixFrom(a: seq<string>, b: seq<string>, pre: nat, n: nat): (r: nat)
    requires pre + n <= |a| && pre + n <= |b|
    ensures n <= r && pre + r <= |a| && pre + r <= |b|
    ensures pre + r < |a| && pre + r < |b| ==> a[|a| - 1 - r] != b[|b| - 1 - r]
    decreases |a| - n
  {
    if pre + n < |a| && pre + n < |b| && a[|a| - 1 - n] == b[|b| - 1 - n] then SuffixFrom(a, b, pre, n + 1) else n
  }

  lemma {:induction false} PrefixSame(a: seq<string>, b: seq<string>, n: nat)
    requires n <= |a| && n <= |b| && a[..n] == b[..n]
    ensures a[..PrefixFrom(a, b, n)] == b[..PrefixFrom(a, b, n)]
    decreases |a| - n
  {
    if n < |a| && n < |b| && a[n] == b[n] {
      assert a[..n + 1] == a[..n] + [a[n]] && b[..n + 1] == b[..n] + [b[n]];
      PrefixSame(a, b, n + 1);
    }
  }

  lemma {:induction false} SuffixSame(a: seq<string>, b: seq<string>, pre: nat, n: nat)
    requires pre + n <= |a| && pre + n <= |b| && a[|a| - n..] == b[|b| - n..]
    ensures a[|a| - SuffixFrom(a, b, pre, n)..] == b[|b| - SuffixFrom(a, b, pre, n)..]
    decreases |a| - n
  {
    if pre + n < |a| && pre + n < |b| && a[|a| - 1 - n] == b[|b| - 1 - n] {
      assert a[|a| - (n + 1)..] == [a[|a| - 1 - n]] + a[|a| - n..];
      assert b[|b| - (n + 1)..] == [b[|b| - 1 - n]] + b[|b| - n..];
      SuffixSame(a, b, pre, n + 1);
    }
  }

  function CtxItems(lines: seq<string>): seq<Item> {
    if lines == [] then [] else CtxItems(lines[..|lines| - 1]) + [Ctx(lines[|lines| - 1])]
  }

  lemma CtxSnoc(lines: seq<string>, line: string)
    ensures CtxItems(lines + [line]) == CtxItems(lines) + [Ctx(line)]
  {
    assert (lines + [line])[..|lines|] == lines;
  }

  /** More than four lines of context are folded, but for two at each end. */
  function Context(lines: seq<string>): seq<Item> {
    var n := |lines|;
    if n <= 4 then CtxItems(lines)
    else [Ctx(lines[0]), Ctx(lines[1]), Fold(n - 4), Ctx(lines[n - 2]), Ctx(lines[n - 1])]
  }

  function MiddleItem(dels: seq<string>, adds: seq<string>, i: nat): Item
    requires i < |dels| || i < |adds|
  {
    if i >= |adds| then Del(dels[i]) else if i >= |dels| then Add(adds[i]) else Change(dels[i], adds[i])
  }

  /** The lines between the common ends, from the i-th: pairs as far as they go, then the rest. */
  function MiddleFrom(dels: seq<string>, adds: seq<string>, i: nat): seq<Item>
    decreases |dels| + |adds| - i
  {
    if i >= |dels| && i >= |adds| then [] else [MiddleItem(dels, adds, i)] + MiddleFrom(dels, adds, i + 1)
  }

  function Middle(dels: seq<string>, adds: seq<string>): seq<Item> {
    MiddleFrom(dels, adds, 0)
  }

  function Pre(ol: seq<string>, nl: seq<string>): (n: nat)
    ensures n <= |ol| && n <= |nl|
  {
    PrefixFrom(ol, nl, 0)
  }

  function Suf(ol: seq<string>, nl: seq<string>): (n: nat)
    ensures Pre(ol, nl) + n <= |ol| && Pre(ol, nl) + n <= |nl|
  {
    SuffixFrom(ol, nl, Pre(ol, nl), 0)
  }

  function MiddleOf(ol: seq<string>, nl: seq<string>): seq<Item> {
    var pre, suf := Pre(ol, nl), Suf(ol, nl);
    Middle(ol[pre..|ol| - suf], nl[pre..|nl| - suf])
  }

  function DiffOf(ol: seq<string>, nl: seq<string>): seq<Item> {
    Context(ol[..Pre(ol, nl)]) + MiddleOf(ol, nl) + Context(ol[|ol| - Suf(ol, nl)..])
  }

  lemma EndsAgree(ol: seq<string>, nl: seq<string>)
    ensures ol[..Pre(ol, nl)] == nl[..Pre(ol, nl)]
    ensures ol[|ol| - Suf(ol, nl)..] == nl[|nl| - Suf(ol, nl)..]
  {
    PrefixSame(ol, nl, 0);
    SuffixSame(ol, nl, Pre(ol, nl), 0);
  }

  // ---- The diff loses nothing ---------------------------------------------------------------------------------

  lemma OneCtx(line: string)
    ensures Explains([Ctx(line)], [line], [line])
  {
    assert [Ctx(line)][1..] == [] && [line][1..] == [];
  }

  lemma {:induction false} CtxExplains(lines: seq<string>)
    ensures Explains(CtxItems(lines), lines, lines)
  {
    if lines != [] {
      var n := |lines| - 1;
      CtxExplains(lines[..n]);
      OneCtx(lines[n]);
      ExplainsConcat(CtxItems(lines[..n]), lines[..n], lines[..n], [Ctx(lines[n])], [lines[n]], [lines[n]]);
      assert lines == lines[..n] + [lines[n]];
    }
  }

  lemma FoldExplains(lines: seq<string>)
    ensures Explains([Fold(|lines|)], lines, lines)
  {
    assert lines[|lines|..] == [];
    assert [Fold(|lines|)][1..] == [];
  }

  lemma TwoCtx(a: string, b: string)
    ensures CtxItems([a, b]) == [Ctx(a), Ctx(b)]
  {
    assert [a, b][..1] == [a] && [a][..0] == [];
    assert CtxItems([a]) == [] + [Ctx(a)];
  }

  lemma FoldedContext(lines: seq<string>)
    requires |lines| > 4
    ensures var n := |lines|;
      Context(lines) == CtxItems(lines[..2]) + [Fold(n - 4)] + CtxItems(lines[n - 2..])
  {
    var n := |lines|;
    TwoCtx(lines[0], lines[1]);
    TwoCtx(lines[n - 2], lines[n - 1]);
    assert lines[..2] == [lines[0], lines[1]] && lines[n - 2..] == [lines[n - 2], lines[n - 1]];
  }

  /** Three pieces in a row. */
  lemma ThreeExplain(
    a: seq<Item>, x: seq<string>, b: seq<Item>, was: seq<string>, now: seq<string>, c: seq<Item>, z: seq<string>)
    requires Explains(a, x, x) && Explains(b, was, now) && Explains(c, z, z)
    ensures Explains(a + b + c, x + was + z, x + now + z)
  {
    ExplainsConcat(a, x, x, b, was, now);
    ExplainsConcat(a + b, x + was, x + now, c, z, z);
  }

  lemma ContextExplains(lines: seq<string>)
    ensures Explains(Context(lines), lines, lines)
  {
    var n := |lines|;
    if n <= 4 {
      CtxExplains(lines);
    } else {
      CtxExplains(lines[..2]);
      FoldExplains(lines[2..n - 2]);
      CtxExplains(lines[n - 2..]);
      ThreeExplain(CtxItems(lines[..2]), lines[..2], [Fold(n - 4)], lines[2..n - 2], lines[2..n - 2],
                   CtxItems(lines[n - 2..]), lines[n - 2..]);
      FoldedContext(lines);
      Thirds(lines, 2, n - 2);
    }
  }

  function DropTo(l: seq<string>, i: nat): seq<string> {
    if i <= |l| then l[i..] else []
  }

  lemma {:induction false} MiddleExplains(dels: seq<string>, adds: seq<string>, i: nat)
    ensures Explains(MiddleFrom(dels, adds, i), DropTo(dels, i), DropTo(adds, i))
    decreases |dels| + |adds| - i
  {
    if i < |dels| || i < |adds| {
      MiddleExplains(dels, adds, i + 1);
      assert ([MiddleItem(dels, adds, i)] + MiddleFrom(dels, adds, i + 1))[1..] == MiddleFrom(dels, adds, i + 1);
    }
  }

  lemma Thirds(l: seq<string>, pre: nat, end: nat)
    requires pre <= end <= |l|
    ensures l[..pre] + l[pre..end] + l[end..] == l
  {
  }

  lemma Segments(ol: seq<string>, nl: seq<string>)
    ensures var pre, suf := Pre(ol, nl), Suf(ol, nl);
      && ol[..pre] + ol[pre..|ol| - suf] + ol[|ol| - suf..] == ol
      && ol[..pre] + nl[pre..|nl| - suf] + ol[|ol| - suf..] == nl
  {
    EndsAgree(ol, nl);
    Thirds(ol, Pre(ol, nl), |ol| - Suf(ol, nl));
    Thirds(nl, Pre(ol, nl), |nl| - Suf(ol, nl));
  }

  lemma DiffExplains(ol: seq<string>, nl: seq<string>)
    ensures Explains(DiffOf(ol, nl), ol, nl)
  {
    var pre, suf := Pre(ol, nl), Suf(ol, nl);
    Segments(ol, nl);
    ContextExplains(ol[..pre]);
    MiddleExplains(ol[pre..|ol| - suf], nl[pre..|nl| - suf], 0);
    ContextExplains(ol[|ol| - suf..]);
    ThreeExplain(Context(ol[..pre]), ol[..pre], MiddleOf(ol, nl), ol[pre..|ol| - suf], nl[pre..|nl| - suf],
                 Context(ol[|ol| - suf..]), ol[|ol| - suf..]);
  }

  /** Context, changed, deleted and folded items stand for exactly the old lines; context, changed, added and folded
      items for exactly the new lines: each list can be rebuilt from the other and the diff. */
  lemma DiffLosesNothing(ol: seq<string>, nl: seq<string>)
    ensures Explains(DiffOf(ol, nl), ol, nl)
    ensures Rebuild(DiffOf(ol, nl), ol) == nl
    ensures Rebuild(Mirror(DiffOf(ol, nl)), nl) == ol
  {
    DiffExplains(ol, nl);
    ExplainedIsRebuilt(DiffOf(ol, nl), ol, nl);
    MirrorExplains(DiffOf(ol, nl), ol, nl);
    ExplainedIsRebuilt(Mirror(DiffOf(ol, nl)), nl, ol);
  }

  predicate IsContext(item: Item) {
    item.Ctx? || item.Fold?
  }

  predicate AllContext(items: seq<Item>) {
    forall i :: 0 <= i < |items| ==> IsContext(items[i])
  }

  lemma NothingBetween(ol: seq<string>, nl: seq<string>)
    ensures MiddleOf(ol, nl) == [] <==> ol == nl
  {
    var pre, suf := Pre(ol, nl), Suf(ol, nl);
    Segments(ol, nl);
    assert MiddleOf(ol, nl) == [] <==> ol[pre..|ol| - suf] == [] && nl[pre..|nl| - suf] == [];
  }

  lemma {:induction false} CtxIsContext(lines: seq<string>)
    ensures AllContext(CtxItems(lines))
  {
    if lines != [] {
      CtxIsContext(lines[..|lines| - 1]);
    }
  }

  lemma ContextIsContext(lines: seq<string>)
    ensures AllContext(Context(lines))
  {
    CtxIsContext(lines);
  }

  lemma AllContextParts(a: seq<Item>, m: seq<Item>, c: seq<Item>)
    requires AllContext(a) && AllContext(c)
    ensures AllContext(a + m + c) <==> AllContext(m)
  {
    var d := a + m + c;
    assert forall i :: 0 <= i < |m| ==> d[|a| + i] == m[i];
  }

  /** The diff shows a difference exactly when there is one. */
  lemma DiffShowsDifference(ol: seq<string>, nl: seq<string>)
    ensures AllContext(DiffOf(ol, nl)) <==> ol == nl
  {
    var m := MiddleOf(ol, nl);
    NothingBetween(ol, nl);
    ContextIsContext(ol[..Pre(ol, nl)]);
    ContextIsContext(ol[|ol| - Suf(ol, nl)..]);
    AllContextParts(Context(ol[..Pre(ol, nl)]), m, Context(ol[|ol| - Suf(ol, nl)..]));
    assert m != [] ==> !IsContext(m[0]);
  }

  // ---- Item by item -------------------------------------------------------------------------------------------

  /** The i-th line from the end. */
  function FromEnd(l: seq<string>, i: nat): string
    requires i < |l|
  {
    l[|l| - 1 - i]
  }

  /** How many lines two lists have in common at the start and, outside of that, at the end: as many as there are. */
  predicate CommonEnds(ol: seq<string>, nl: seq<string>, p: nat, s: nat) {
    && p + s <= |ol| && p + s <= |nl|
    && (forall i :: 0 <= i < p ==> ol[i] == nl[i])
    && (forall i :: 0 <= i < s ==> FromEnd(ol, i) == FromEnd(nl, i))
    && (p < |ol| && p < |nl| ==> ol[p] != nl[p])
    && (p + s < |ol| && p + s < |nl| ==> FromEnd(ol, s) != FromEnd(nl, s))
  }

  /** Up to four lines are shown as they are; of more, two at each end around the number of the others. */
  predicate ShowsContext(items: seq<Item>, lines: seq<string>) {
    var n := |lines|;
    if n <= 4 then |items| == n && forall i :: 0 <= i < n ==> items[i] == Ctx(lines[i])
    else
      && |items| == 5 && items[2] == Fold(n - 4)
      && items[0] == Ctx(lines[0]) && items[1] == Ctx(lines[1])
      && items[3] == Ctx(lines[n - 2]) && items[4] == Ctx(lines[n - 1])
  }

  /** Two stretches of lines side by side: changed lines as far as both go, then what is left of either. */
  predicate ShowsChanges(items: seq<Item>, was: seq<string>, now: seq<string>) {
    && |items| == (if |was| > |now| then |was| else |now|)
    && (forall i :: 0 <= i < |items| && i < |was| && i < |now| ==> items[i] == Change(was[i], now[i]))
    && (forall i :: |now| <= i < |was| && i < |items| ==> items[i] == Del(was[i]))
    && (forall i :: |was| <= i < |now| && i < |items| ==> items[i] == Add(now[i]))
  }

  lemma {:induction false} CtxItemsShow(lines: seq<string>)
    ensures |CtxItems(lines)| == |lines| && forall i :: 0 <= i < |lines| ==> CtxItems(lines)[i] == Ctx(lines[i])
  {
    if lines != [] { CtxItemsShow(lines[..|lines| - 1]); }
  }

  lemma {:induction false} MiddleShows(dels: seq<string>, adds: seq<string>, i: nat)
    ensures var m := MiddleFrom(dels, adds, i);
      && |m| == (if i >= |dels| && i >= |adds| then 0 else if |dels| > |adds| then |dels| - i else |adds| - i)
      && forall k :: 0 <= k < |m| ==> m[k] == MiddleItem(dels, adds, i + k)
    decreases |dels| + |adds| - i
  {
    if i < |dels| || i < |adds| {
      var rest := MiddleFrom(dels, adds, i + 1);
      MiddleShows(dels, adds, i + 1);
      forall k | 0 <= k < |rest| + 1 ensures ([MiddleItem(dels, adds, i)] + rest)[k] == MiddleItem(dels, adds, i + k) {
        if k > 0 { assert rest[k - 1] == MiddleItem(dels, adds, i + 1 + (k - 1)); }
      }
    }
  }

  lemma SameStart(a: seq<string>, b: seq<string>, p: nat, i: nat)
    requires p <= |a| && p <= |b| && a[..p] == b[..p] && i < p
    ensures a[i] == b[i]
  {
    assert a[..p][i] == b[..p][i];
  }

  lemma SameEnd(a: seq<string>, b: seq<string>, s: nat, i: nat)
    requires s <= |a| && s <= |b| && a[|a| - s..] == b[|b| - s..] && i < s
    ensures FromEnd(a, i) == FromEnd(b, i)
  {
    assert a[|a| - s..][s - 1 - i] == b[|b| - s..][s - 1 - i];
  }

  lemma EndsAreCommon(ol: seq<string>, nl: seq<string>)
    ensures CommonEnds(ol, nl, Pre(ol, nl), Suf(ol, nl))
  {
    EndsAgree(ol, nl);
    var p, s := Pre(ol, nl), Suf(ol, nl);
    forall i | 0 <= i < p ensures ol[i] == nl[i] { SameStart(ol, nl, p, i); }
    forall i | 0 <= i < s ensures FromEnd(ol, i) == FromEnd(nl, i) { SameEnd(ol, nl, s, i); }
  }

  lemma ContextShows(lines: seq<string>)
    ensures ShowsContext(Context(lines), lines)
  {
    CtxItemsShow(lines);
  }

  lemma ChangesShow(dels: seq<string>, adds: seq<string>)
    ensures ShowsChanges(Middle(dels, adds), dels, adds)
  {
    MiddleShows(dels, adds, 0);
    var m := Middle(dels, adds);
    forall i | 0 <= i < |m| ensures m[i] == MiddleItem(dels, adds, i) {
      assert m[i] == MiddleItem(dels, adds, 0 + i);
    }
  }

  /** The whole diff: the common lines at either end as context, as many as there are, and between them the other lines
      side by side. */
  lemma DiffShows(ol: seq<string>, nl: seq<string>) returns (p: nat, s: nat, a: seq<Item>, m: seq<Item>, c: seq<Item>)
    ensures CommonEnds(ol, nl, p, s) && DiffOf(ol, nl) == a + m + c
    ensures ShowsContext(a, ol[..p]) && ShowsContext(c, ol[|ol| - s..])
    ensures ShowsChanges(m, ol[p..|ol| - s], nl[p..|nl| - s])
  {
    p, s := Pre(ol, nl), Suf(ol, nl);
    EndsAreCommon(ol, nl);
    var head, tail := ol[..p], ol[|ol| - s..];
    var was, now := ol[p..|ol| - s], nl[p..|nl| - s];
    a, m, c := Context(head), Middle(was, now), Context(tail);
    DiffInParts(ol, nl, head, was, now, tail);
    ContextShows(head);
    ContextShows(tail);
    ChangesShow(was, now);
  }

  lemma DiffInParts(
    ol: seq<string>, nl: seq<string>, head: seq<string>, was: seq<string>, now: seq<string>, tail: seq<string>)
    requires head == ol[..Pre(ol, nl)] && tail == ol[|ol| - Suf(ol, nl)..]
    requires was == ol[Pre(ol, nl)..|ol| - Suf(ol, nl)] && now == nl[Pre(ol, nl)..|nl| - Suf(ol, nl)]
    ensures DiffOf(ol, nl) == Context(head) + Middle(was, now) + Context(tail)
  {
  }

  // ---- Texts --------------------------------------------------------------------------------------------------

  /** text.split('\n'). */
  function Lines(text: string): (ls: seq<string>)
    ensures ls != []
  {
    if text == "" then [""]
    else if text[0] == '\n' then [""] + Lines(text[1..])
    else [[text[0]] + Lines(text[1..])[0]] + Lines(text[1..])[1..]
  }

  function Unlines(ls: seq<string>): string
    requires ls != []
  {
    if |ls| == 1 then ls[0] else ls[0] + "\n" + Unlines(ls[1..])
  }

  lemma {:induction false} UnlinesLines(text: string)
    ensures Unlines(Lines(text)) == text
  {
    if text != "" {
      var ls := Lines(text[1..]);
      UnlinesLines(text[1..]);
      assert text == [text[0]] + text[1..];
      if text[0] == '\n' {
        assert ([""] + ls)[1..] == ls;
      } else if |ls| > 1 {
        assert ([[text[0]] + ls[0]] + ls[1..])[1..] == ls[1..];
        assert ([text[0]] + ls[0]) + "\n" + Unlines(ls[1..]) == [text[0]] + (ls[0] + "\n" + Unlines(ls[1..]));
      }
    }
  }

  /** Lines are what stands between line ends. */
  lemma {:induction false} NoLineEndInside(text: string, i: nat)
    requires i < |Lines(text)|
    ensures '\n' !in Lines(text)[i]
  {
    if text != "" {
      if i == 0 && text[0] != '\n' {
        NoLineEndInside(text[1..], 0);
      } else if i > 0 {
        NoLineEndInside(text[1..], if text[0] == '\n' then i - 1 else i);
      }
    }
  }

  /** Either text can be rebuilt from the other and the diff, and the diff is all context exactly if they are equal. */
  lemma TextDiffLosesNothing(oldText: string, newText: string)
    ensures var d := DiffOf(Lines(oldText), Lines(newText));
      && Rebuild(d, Lines(oldText)) == Lines(newText) && Unlines(Lines(newText)) == newText
      && Rebuild(Mirror(d), Lines(newText)) == Lines(oldText) && Unlines(Lines(oldText)) == oldText
      && (AllContext(d) <==> oldText == newText)
  {
    DiffLosesNothing(Lines(oldText), Lines(newText));
    DiffShowsDifference(Lines(oldText), Lines(newText));
    UnlinesLines(oldText);
    UnlinesLines(newText);
  }

  // ---- The loops ----------------------------------------------------------------------------------------------

  method CtxLoop(lines: seq<string>, start: nat, end: nat) returns (result: seq<Item>)
    requires start <= end <= |lines|
    ensures result == CtxItems(lines[start..end])
  {
    result := [];
    for i := start to end
      invariant result == CtxItems(lines[start..i])
    {
      CtxSnoc(lines[start..i], lines[i]);
      SliceSnoc(lines, start, i);
      result := result + [Ctx(lines[i])];
    }
  }

  lemma SliceSnoc(l: seq<string>, start: nat, i: nat)
    requires start <= i < |l|
    ensures l[start..i + 1] == l[start..i] + [l[i]]
  {
  }

  /** addCtx: the items of lines[start..end]. */
  method AddCtx(lines: seq<string>, start: nat, end: nat) returns (result: seq<Item>)
    requires start <= end <= |lines|
    ensures result == Context(lines[start..end])
  {
    var count := end - start;
    if count <= 4 {
      result := CtxLoop(lines, start, end);
    } else {
      result := [Ctx(lines[start]), Ctx(lines[start + 1]), Fold(count - 4), Ctx(lines[end - 2]), Ctx(lines[end - 1])];
    }
  }

  /** One more line of the middle. */
  lemma OneMore(result: seq<Item>, dels: seq<string>, adds: seq<string>, i: nat)
    requires i < |dels| || i < |adds|
    ensures result + MiddleFrom(dels, adds, i)
         == result + [MiddleItem(dels, adds, i)] + MiddleFrom(dels, adds, i + 1)
  {
    Regroup(result, [MiddleItem(dels, adds, i)], MiddleFrom(dels, adds, i + 1));
  }

  method PairLines(dels: seq<string>, adds: seq<string>) returns (result: seq<Item>)
    ensures result == Middle(dels, adds)
  {
    result := [];
    var paired := Min(|dels|, |adds|);
    ghost var goal := [] + MiddleFrom(dels, adds, 0);
    for i := 0 to paired
      invariant result + MiddleFrom(dels, adds, i) == goal
    {
      OneMore(result, dels, adds, i);
      result := result + [Change(dels[i], adds[i])];
    }
    for i := paired to |dels|
      invariant result + MiddleFrom(dels, adds, i) == goal
    {
      OneMore(result, dels, adds, i);
      result := result + [Del(dels[i])];
    }
    for i := paired to |adds|
      invariant result + MiddleFrom(dels, adds, if i < |dels| then |dels| else i) == goal
    {
      OneMore(result, dels, adds, i);
      result := result + [Add(adds[i])];
    }
    assert result + [] == result;
  }

  lemma Regroup<T>(a: seq<T>, b: seq<T>, c: seq<T>)
    ensures a + b + c == a + (b + c)
  {
  }

  method CountEnds(ol: seq<string>, nl: seq<string>) returns (pre: nat, suf: nat)
    ensures pre == Pre(ol, nl) && suf == Suf(ol, nl)
  {
    pre, suf := 0, 0;
    while pre < |ol| && pre < |nl| && ol[pre] == nl[pre]
      invariant pre <= |ol| && pre <= |nl|
      invariant PrefixFrom(ol, nl, pre) == Pre(ol, nl)
    {
      pre := pre + 1;
    }
    while suf < |ol| - pre && suf < |nl| - pre && ol[|ol| - 1 - suf] == nl[|nl| - 1 - suf]
      invariant suf <= |ol| - pre && suf <= |nl| - pre
      invariant SuffixFrom(ol, nl, pre, suf) == Suf(ol, nl)
    {
      suf := suf + 1;
    }
  }

  method Compute(ol: seq<string>, nl: seq<string>) returns (result: seq<Item>)
    ensures result == DiffOf(ol, nl)
  {
    var pre, suf := CountEnds(ol, nl);
    var head := AddCtx(ol, 0, pre);
    var middle := PairLines(ol[pre..|ol| - suf], nl[pre..|nl| - suf]);
    var tail := AddCtx(ol, |ol| - suf, |ol|);
    InOrder(ol, nl, pre, suf, head, middle, tail);
    result := head + middle + tail;
  }

  lemma InOrder(ol: seq<string>, nl: seq<string>, pre: nat, suf: nat, a: seq<Item>, m: seq<Item>, c: seq<Item>)
    requires pre == Pre(ol, nl) && suf == Suf(ol, nl)
    requires a == Context(ol[0..pre]) && c == Context(ol[|ol| - suf..|ol|])
    requires m == Middle(ol[pre..|ol| - suf], nl[pre..|nl| - suf])
    ensures a + m + c == DiffOf(ol, nl)
  {
    WholeSlices(ol, pre, |ol| - suf);
  }

  lemma WholeSlices(l: seq<string>, i: nat, j: nat)
    requires i <= |l| && j <= |l|
    ensures l[0..i] == l[..i] && l[j..|l|] == l[j..]
  {
  }
}
