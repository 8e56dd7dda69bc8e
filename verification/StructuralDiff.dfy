/**
 The message diff of the trace viewer (structuralDiff in the same file): a common prefix and suffix, then a greedy
 pairing of what is left by role. What makes two messages equal is a parameter, and so are the roles.
*/
module StructuralDiff {
  datatype Diff<M> = Diff(same: nat, suffix: nat, modified: seq<(M, M)>, removed: seq<M>, added: seq<M>)

  /** How the pairing accounts for a message of either list. */
  datatype Op<M> = Kept(was: M, now: M) | Modified(was: M, now: M) | Removed(was: M) | Added(now: M)

  function Note<M>(d: Diff<M>, op: Op<M>): Diff<M> {
    match op
    case Kept(_, _) => d.(same := d.same + 1)
    case Modified(o, n) => d.(modified := d.modified + [(o, n)])
    case Removed(o) => d.(removed := d.removed + [o])
    case Added(n) => d.(added := d.added + [n])
  }

  function NoteAll<M>(d: Diff<M>, ops: seq<Op<M>>): Diff<M>
    decreases |ops|
  {
    if ops == [] then d else NoteAll(Note(d, ops[0]), ops[1..])
  }

  lemma NoteCons<M>(d: Diff<M>, op: Op<M>, ops: seq<Op<M>>)
    ensures NoteAll(d, [op] + ops) == NoteAll(Note(d, op), ops)
  {
    assert ([op] + ops)[1..] == ops;
  }

  // ---- The diff as a function ---------------------------------------------------------------------------------

  function CommonFrom<M>(a: seq<M>, b: seq<M>, equal: (M, M) -> bool, n: nat): (r: nat)
    requires n <= |a| && n <= |b|
    ensures n <= r <= |a| && r <= |b|
    ensures r < |a| && r < |b| ==> !equal(a[r], b[r])
    decreases |a| - n
  {
    if n < |a| && n < |b| && equal(a[n], b[n]) then CommonFrom(a, b, equal, n + 1) else n
  }

  function SuffixFrom<M>(a: seq<M>, b: seq<M>, equal: (M, M) -> bool, pre: nat, n: nat): (r: nat)
    requires pre + n <= |a| && pre + n <= |b|
    ensures n <= r && pre + r <= |a| && pre + r <= |b|
    ensures pre + r < |a| && pre + r < |b| ==> !equal(a[|a| - 1 - r], b[|b| - 1 - r])
    decreases |a| - n
  {
    if pre + n < |a| && pre + n < |b| && equal(a[|a| - 1 - n], b[|b| - 1 - n])
    then SuffixFrom(a, b, equal, pre, n + 1)
    else n
  }

  function Pre<M>(om: seq<M>, nm: seq<M>, equal: (M, M) -> bool): (r: nat)
    ensures r <= |om| && r <= |nm|
  {
    CommonFrom(om, nm, equal, 0)
  }

  function Suf<M>(om: seq<M>, nm: seq<M>, equal: (M, M) -> bool): (r: nat)
    ensures Pre(om, nm, equal) + r <= |om| && Pre(om, nm, equal) + r <= |nm|
  {
    SuffixFrom(om, nm, equal, Pre(om, nm, equal), 0)
  }

  /** The greedy pairing by role. */
  function Paired<M>(o: seq<M>, n: seq<M>, role: M -> string, equal: (M, M) -> bool): seq<Op<M>>
    decreases |o| + |n|
  {
    if o == [] && n == [] then []
    else if n == [] then [Removed(o[0])] + Paired(o[1..], n, role, equal)
    else if o == [] then [Added(n[0])] + Paired(o, n[1..], role, equal)
    else if role(o[0]) == role(n[0]) then
      [if equal(o[0], n[0]) then Kept(o[0], n[0]) else Modified(o[0], n[0])] + Paired(o[1..], n[1..], role, equal)
    else if 1 < |o| && role(o[1]) == role(n[0]) then [Removed(o[0])] + Paired(o[1..], n, role, equal)
    else if 1 < |n| && role(o[0]) == role(n[1]) then [Added(n[0])] + Paired(o, n[1..], role, equal)
    else [Removed(o[0])] + ([Added(n[0])] + Paired(o[1..], n[1..], role, equal))
  }

  /** The account of the messages between the common ends. */
  function Between<M>(om: seq<M>, nm: seq<M>, role: M -> string, equal: (M, M) -> bool): seq<Op<M>> {
    var pre, suf := Pre(om, nm, equal), Suf(om, nm, equal);
    Paired(om[pre..|om| - suf], nm[pre..|nm| - suf], role, equal)
  }

  function DiffOf<M>(om: seq<M>, nm: seq<M>, role: M -> string, equal: (M, M) -> bool): Diff<M> {
    NoteAll(Diff(Pre(om, nm, equal), Suf(om, nm, equal), [], [], []), Between(om, nm, role, equal))
  }

  // ---- The account is complete --------------------------------------------------------------------------------

  /** The old messages that the account names, in order. */
  function OldOf<M>(ops: seq<Op<M>>): seq<M> {
    if ops == [] then [] else if ops[0].Added? then OldOf(ops[1..]) else [ops[0].was] + OldOf(ops[1..])
  }

  function NewOf<M>(ops: seq<Op<M>>): seq<M> {
    if ops == [] then [] else if ops[0].Removed? then NewOf(ops[1..]) else [ops[0].now] + NewOf(ops[1..])
  }

  lemma Cons<M>(op: Op<M>, ops: seq<Op<M>>)
    ensures OldOf([op] + ops) == if op.Added? then OldOf(ops) else [op.was] + OldOf(ops)
    ensures NewOf([op] + ops) == if op.Removed? then NewOf(ops) else [op.now] + NewOf(ops)
  {
    assert ([op] + ops)[1..] == ops;
  }

  lemma HeadTail<T>(s: seq<T>)
    requires s != []
    ensures [s[0]] + s[1..] == s
  {
  }

  /** An account that is right for the rest is right for one message more. */
  lemma ConsRight<M>(op: Op<M>, ops: seq<Op<M>>, o: seq<M>, n: seq<M>)
    requires op.Added? || (o != [] && op.was == o[0])
    requires op.Removed? || (n != [] && op.now == n[0])
    requires OldOf(ops) == if op.Added? then o else o[1..]
    requires NewOf(ops) == if op.Removed? then n else n[1..]
    ensures OldOf([op] + ops) == o && NewOf([op] + ops) == n
  {
    Cons(op, ops);
    if !op.Added? {
      HeadTail(o);
    }
    if !op.Removed? {
      HeadTail(n);
    }
  }

  lemma {:induction false} PairedAccounts<M>(o: seq<M>, n: seq<M>, role: M -> string, equal: (M, M) -> bool)
    ensures OldOf(Paired(o, n, role, equal)) == o && NewOf(Paired(o, n, role, equal)) == n
    decreases |o| + |n|
  {
    if o == [] && n == [] {
    } else if n == [] || (o != [] && role(o[0]) != role(n[0]) && 1 < |o| && role(o[1]) == role(n[0])) {
      PairedAccounts(o[1..], n, role, equal);
      ConsRight(Removed(o[0]), Paired(o[1..], n, role, equal), o, n);
    } else if o == [] || (role(o[0]) != role(n[0]) && 1 < |n| && role(o[0]) == role(n[1])) {
      PairedAccounts(o, n[1..], role, equal);
      ConsRight(Added(n[0]), Paired(o, n[1..], role, equal), o, n);
    } else if role(o[0]) == role(n[0]) {
      PairedAccounts(o[1..], n[1..], role, equal);
      ConsRight(Paired(o, n, role, equal)[0], Paired(o[1..], n[1..], role, equal), o, n);
    } else {
      PairedAccounts(o[1..], n[1..], role, equal);
      var rest := Paired(o[1..], n[1..], role, equal);
      ConsRight(Added(n[0]), rest, o[1..], n);
      ConsRight(Removed(o[0]), [Added(n[0])] + rest, o, n);
    }
  }

  lemma Thirds<T>(l: seq<T>, pre: nat, end: nat)
    requires pre <= end <= |l|
    ensures l[..pre] + l[pre..end] + l[end..] == l
  {
  }

  /** The common ends and the account between them name every old and every new message exactly once, in order. */
  lemma EveryMessageOnce<M>(om: seq<M>, nm: seq<M>, role: M -> string, equal: (M, M) -> bool)
    ensures var pre, suf, ops := Pre(om, nm, equal), Suf(om, nm, equal), Between(om, nm, role, equal);
      && om[..pre] + OldOf(ops) + om[|om| - suf..] == om
      && nm[..pre] + NewOf(ops) + nm[|nm| - suf..] == nm
  {
    var pre, suf := Pre(om, nm, equal), Suf(om, nm, equal);
    PairedAccounts(om[pre..|om| - suf], nm[pre..|nm| - suf], role, equal);
    Thirds(om, pre, |om| - suf);
    Thirds(nm, pre, |nm| - suf);
  }

  function OldCount<M>(d: Diff<M>): nat {
    d.same + d.suffix + |d.modified| + |d.removed|
  }

  function NewCount<M>(d: Diff<M>): nat {
    d.same + d.suffix + |d.modified| + |d.added|
  }

  lemma {:induction false} NotesCount<M>(d: Diff<M>, ops: seq<Op<M>>)
    ensures OldCount(NoteAll(d, ops)) == OldCount(d) + |OldOf(ops)|
    ensures NewCount(NoteAll(d, ops)) == NewCount(d) + |NewOf(ops)|
    decreases |ops|
  {
    if ops != [] {
      NotesCount(Note(d, ops[0]), ops[1..]);
    }
  }

  /** Unchanged, suffix, modified and removed messages add up to the old list; unchanged, suffix, modified and new
      ones to the new list. */
  lemma NothingIsLost<M>(om: seq<M>, nm: seq<M>, role: M -> string, equal: (M, M) -> bool)
    ensures OldCount(DiffOf(om, nm, role, equal)) == |om|
    ensures NewCount(DiffOf(om, nm, role, equal)) == |nm|
  {
    var pre, suf := Pre(om, nm, equal), Suf(om, nm, equal);
    PairedAccounts(om[pre..|om| - suf], nm[pre..|nm| - suf], role, equal);
    NotesCount(Diff(pre, suf, [], [], []), Between(om, nm, role, equal));
  }

  // ---- The account is honest ----------------------------------------------------------------------------------

  /** Unchanged messages are equal; modified ones differ and have the same role. */
  predicate Right<M>(op: Op<M>, role: M -> string, equal: (M, M) -> bool) {
    && (op.Kept? ==> equal(op.was, op.now))
    && (op.Modified? ==> !equal(op.was, op.now) && role(op.was) == role(op.now))
  }

  predicate AllRight<M>(ops: seq<Op<M>>, role: M -> string, equal: (M, M) -> bool) {
    forall i :: 0 <= i < |ops| ==> Right(ops[i], role, equal)
  }

  lemma {:induction false} PairedIsRight<M>(o: seq<M>, n: seq<M>, role: M -> string, equal: (M, M) -> bool)
    ensures AllRight(Paired(o, n, role, equal), role, equal)
    decreases |o| + |n|
  {
    if o != [] {
      PairedIsRight(o[1..], n, role, equal);
    }
    if n != [] {
      PairedIsRight(o, n[1..], role, equal);
    }
    if o != [] && n != [] {
      PairedIsRight(o[1..], n[1..], role, equal);
    }
  }

  lemma {:induction false} PrefixIsEqual<M>(a: seq<M>, b: seq<M>, equal: (M, M) -> bool, n: nat)
    requires n <= |a| && n <= |b| && forall i :: 0 <= i < n ==> equal(a[i], b[i])
    ensures forall i :: 0 <= i < CommonFrom(a, b, equal, n) ==> equal(a[i], b[i])
    decreases |a| - n
  {
    if n < |a| && n < |b| && equal(a[n], b[n]) {
      PrefixIsEqual(a, b, equal, n + 1);
    }
  }

  /** The i-th message from the end. */
  function FromEnd<T>(s: seq<T>, i: nat): T
    requires i < |s|
  {
    s[|s| - 1 - i]
  }

  lemma {:induction false} SuffixIsEqual<M>(a: seq<M>, b: seq<M>, equal: (M, M) -> bool, pre: nat, n: nat)
    requires pre + n <= |a| && pre + n <= |b|
    requires forall i :: 0 <= i < n ==> equal(FromEnd(a, i), FromEnd(b, i))
    ensures forall i :: 0 <= i < SuffixFrom(a, b, equal, pre, n) ==> equal(FromEnd(a, i), FromEnd(b, i))
    decreases |a| - n
  {
    if pre + n < |a| && pre + n < |b| && equal(a[|a| - 1 - n], b[|b| - 1 - n]) {
      assert equal(FromEnd(a, n), FromEnd(b, n));
      SuffixIsEqual(a, b, equal, pre, n + 1);
    }
  }

  /** No message counts as unchanged that is not equal to its partner, and none as modified that is. */
  lemma AccountIsRight<M>(om: seq<M>, nm: seq<M>, role: M -> string, equal: (M, M) -> bool)
    ensures forall i :: 0 <= i < Pre(om, nm, equal) ==> equal(om[i], nm[i])
    ensures forall i :: 0 <= i < Suf(om, nm, equal) ==> equal(FromEnd(om, i), FromEnd(nm, i))
    ensures AllRight(Between(om, nm, role, equal), role, equal)
  {
    var pre, suf := Pre(om, nm, equal), Suf(om, nm, equal);
    PrefixIsEqual(om, nm, equal, 0);
    SuffixIsEqual(om, nm, equal, pre, 0);
    PairedIsRight(om[pre..|om| - suf], nm[pre..|nm| - suf], role, equal);
  }

  /** And the common ends are as long as they can be, the prefix first. */
  lemma EndsAreWhole<M>(om: seq<M>, nm: seq<M>, equal: (M, M) -> bool)
    ensures var p, s := Pre(om, nm, equal), Suf(om, nm, equal);
      && (p < |om| && p < |nm| ==> !equal(om[p], nm[p]))
      && (p + s < |om| && p + s < |nm| ==> !equal(FromEnd(om, s), FromEnd(nm, s)))
  {
  }

  // ---- The lists of the diff ----------------------------------------------------------------------------------

  function Pairs<M>(ops: seq<Op<M>>): seq<(M, M)> {
    if ops == [] then [] else Pairs(ops[..|ops| - 1]) + (match ops[|ops| - 1] case Modified(o, n) => [(o, n)] case _ => [])
  }

  function RemovedIn<M>(ops: seq<Op<M>>): seq<M> {
    if ops == [] then [] else RemovedIn(ops[..|ops| - 1]) + (match ops[|ops| - 1] case Removed(o) => [o] case _ => [])
  }

  function AddedIn<M>(ops: seq<Op<M>>): seq<M> {
    if ops == [] then [] else AddedIn(ops[..|ops| - 1]) + (match ops[|ops| - 1] case Added(n) => [n] case _ => [])
  }

  function KeptIn<M>(ops: seq<Op<M>>): nat {
    if ops == [] then 0 else KeptIn(ops[..|ops| - 1]) + (if ops[|ops| - 1].Kept? then 1 else 0)
  }

  lemma {:induction false} NoteLast<M>(d: Diff<M>, ops: seq<Op<M>>, op: Op<M>)
    ensures NoteAll(d, ops + [op]) == Note(NoteAll(d, ops), op)
    decreases |ops|
  {
    if ops == [] {
      assert [] + [op] == [op] && [op][1..] == [];
    } else {
      assert (ops + [op])[1..] == ops[1..] + [op];
      NoteLast(Note(d, ops[0]), ops[1..], op);
    }
  }

  lemma {:induction false} NotesHold<M>(d: Diff<M>, ops: seq<Op<M>>)
    ensures NoteAll(d, ops)
         == Diff(d.same + KeptIn(ops), d.suffix, d.modified + Pairs(ops), d.removed + RemovedIn(ops), d.added + AddedIn(ops))
  {
    if ops == [] {
      assert d.modified + [] == d.modified && d.removed + [] == d.removed && d.added + [] == d.added;
    } else {
      var before, op := ops[..|ops| - 1], ops[|ops| - 1];
      NotesHold(d, before);
      NoteLast(d, before, op);
      assert before + [op] == ops;
      assert Pairs(before) + [] == Pairs(before) && RemovedIn(before) + [] == RemovedIn(before);
      assert AddedIn(before) + [] == AddedIn(before);
    }
  }

  /** The lists of the diff hold the modified pairs, the removed and the new messages of the account, each in its order;
      its counts are those of the common ends, with the messages that were kept in between. */
  lemma ListsHoldTheAccount<M>(om: seq<M>, nm: seq<M>, role: M -> string, equal: (M, M) -> bool)
    ensures var d, ops := DiffOf(om, nm, role, equal), Between(om, nm, role, equal);
      && d.modified == Pairs(ops) && d.removed == RemovedIn(ops) && d.added == AddedIn(ops)
      && d.same == Pre(om, nm, equal) + KeptIn(ops) && d.suffix == Suf(om, nm, equal)
  {
    var ops := Between(om, nm, role, equal);
    NotesHold(Diff(Pre(om, nm, equal), Suf(om, nm, equal), [], [], []), ops);
    assert [] + Pairs(ops) == Pairs(ops) && [] + RemovedIn(ops) == RemovedIn(ops) && [] + AddedIn(ops) == AddedIn(ops);
  }

  // ---- How well the pairing does ------------------------------------------------------------------------------

  /** A removed message and a new one that stand next to each other could have been paired. */
  predicate Missed<M>(a: Op<M>, b: Op<M>, role: M -> string) {
    || (a.Removed? && b.Added? && role(a.was) == role(b.now))
    || (a.Added? && b.Removed? && role(a.now) == role(b.was))
  }

  predicate NothingMissed<M>(ops: seq<Op<M>>, role: M -> string) {
    forall i :: 0 <= i < |ops| - 1 ==> !Missed(ops[i], ops[i + 1], role)
  }

  lemma MissedCons<M>(op: Op<M>, ops: seq<Op<M>>, role: M -> string)
    requires NothingMissed(ops, role) && (ops != [] ==> !Missed(op, ops[0], role))
    ensures NothingMissed([op] + ops, role)
  {
    var all := [op] + ops;
    forall i | 0 <= i < |all| - 1 ensures !Missed(all[i], all[i + 1], role) {
      if i > 0 { assert !Missed(ops[i - 1], ops[i], role); }
    }
  }

  /** What the account starts with. */
  lemma FirstOp<M>(o: seq<M>, n: seq<M>, role: M -> string, equal: (M, M) -> bool)
    requires o != [] || n != []
    ensures var ops := Paired(o, n, role, equal);
      && ops != []
      && (ops[0].Added? ==> n != [] && ops[0].now == n[0])
      && (!ops[0].Added? ==> o != [] && ops[0].was == o[0])
      && (o != [] && n != [] && role(o[0]) == role(n[0]) ==> ops[0].Kept? || ops[0].Modified?)
      && (o == [] ==> ops[0].Added?) && (n == [] ==> ops[0].Removed?)
  {
  }

  /** No removed and no new message that stand next to each other have the same role. */
  lemma {:induction false} PairedMissesNothing<M>(o: seq<M>, n: seq<M>, role: M -> string, equal: (M, M) -> bool)
    ensures NothingMissed(Paired(o, n, role, equal), role)
    decreases |o| + |n|
  {
    if o == [] && n == [] {
    } else if n == [] || (o != [] && role(o[0]) != role(n[0]) && 1 < |o| && role(o[1]) == role(n[0])) {
      PairedMissesNothing(o[1..], n, role, equal);
      if o[1..] != [] || n != [] { FirstOp(o[1..], n, role, equal); }
      MissedCons(Removed(o[0]), Paired(o[1..], n, role, equal), role);
    } else if o == [] || (role(o[0]) != role(n[0]) && 1 < |n| && role(o[0]) == role(n[1])) {
      PairedMissesNothing(o, n[1..], role, equal);
      if o != [] || n[1..] != [] { FirstOp(o, n[1..], role, equal); }
      MissedCons(Added(n[0]), Paired(o, n[1..], role, equal), role);
    } else {
      PairedMissesNothing(o[1..], n[1..], role, equal);
      var rest := Paired(o[1..], n[1..], role, equal);
      if o[1..] != [] || n[1..] != [] { FirstOp(o[1..], n[1..], role, equal); }
      if role(o[0]) == role(n[0]) {
        MissedCons(Paired(o, n, role, equal)[0], rest, role);
      } else {
        MissedCons(Added(n[0]), rest, role);
        MissedCons(Removed(o[0]), [Added(n[0])] + rest, role);
      }
    }
  }

  /** Lists with the same roles are paired message by message. */
  lemma {:induction false} SameRolesArePaired<M>(o: seq<M>, n: seq<M>, role: M -> string, equal: (M, M) -> bool)
    requires |o| == |n| && forall i :: 0 <= i < |o| ==> role(o[i]) == role(n[i])
    ensures var ops := Paired(o, n, role, equal);
      && |ops| == |o|
      && forall i :: 0 <= i < |o| ==> ops[i] == if equal(o[i], n[i]) then Kept(o[i], n[i]) else Modified(o[i], n[i])
  {
    if o != [] {
      SameRolesArePaired(o[1..], n[1..], role, equal);
      var rest := Paired(o[1..], n[1..], role, equal);
      assert forall i :: 0 < i < |o| ==> ([Paired(o, n, role, equal)[0]] + rest)[i] == rest[i - 1];
    }
  }

  /** One message that is too many at the front is dropped, from the old list if that helps, else from the new one. */
  lemma OneTooMany<M>(x: M, o: seq<M>, y: M, n: seq<M>, role: M -> string, equal: (M, M) -> bool)
    requires role(x) != role(y)
    ensures o != [] && role(o[0]) == role(y) ==>
      Paired([x] + o, [y] + n, role, equal) == [Removed(x)] + Paired(o, [y] + n, role, equal)
    ensures !(o != [] && role(o[0]) == role(y)) && n != [] && role(n[0]) == role(x) ==>
      Paired([x] + o, [y] + n, role, equal) == [Added(y)] + Paired([x] + o, n, role, equal)
  {
    assert ([x] + o)[1..] == o && ([y] + n)[1..] == n;
  }

  // ---- The loops ----------------------------------------------------------------------------------------------

  method CountEnds<M>(om: seq<M>, nm: seq<M>, equal: (M, M) -> bool) returns (pre: nat, suf: nat)
    ensures pre == Pre(om, nm, equal) && suf == Suf(om, nm, equal)
  {
    pre, suf := 0, 0;
    while pre < |om| && pre < |nm| && equal(om[pre], nm[pre])
      invariant pre <= |om| && pre <= |nm|
      invariant CommonFrom(om, nm, equal, pre) == Pre(om, nm, equal)
    {
      pre := pre + 1;
    }
    while suf < |om| - pre && suf < |nm| - pre && equal(om[|om| - 1 - suf], nm[|nm| - 1 - suf])
      invariant suf <= |om| - pre && suf <= |nm| - pre
      invariant SuffixFrom(om, nm, equal, pre, suf) == Suf(om, nm, equal)
    {
      suf := suf + 1;
    }
  }

  /** What is left of the account when the pairing has come to oi and ni. */
  function Left<M>(o: seq<M>, n: seq<M>, role: M -> string, equal: (M, M) -> bool, oi: nat, ni: nat): seq<Op<M>>
    requires oi <= |o| && ni <= |n|
  {
    Paired(o[oi..], n[ni..], role, equal)
  }

  lemma Tail<T>(s: seq<T>, i: nat)
    requires i < |s|
    ensures s[i..][1..] == s[i + 1..] && s[i..][0] == s[i]
  {
  }

  /** One iteration of the pairing loop. */
  method PairOne<M>(o: seq<M>, n: seq<M>, role: M -> string, equal: (M, M) -> bool, oi: nat, ni: nat, d0: Diff<M>)
    returns (i: nat, j: nat, d: Diff<M>)
    requires oi < |o| && ni < |n|
    ensures oi <= i <= |o| && ni <= j <= |n| && oi + ni < i + j
    ensures NoteAll(d, Left(o, n, role, equal, i, j)) == NoteAll(d0, Left(o, n, role, equal, oi, ni))
  {
    i, j, d := oi, ni, d0;
    Tail(o, oi);
    Tail(n, ni);
    if role(o[oi]) == role(n[ni]) {
      if equal(o[oi], n[ni]) {
        d := d.(same := d.same + 1);
      } else {
        d := d.(modified := d.modified + [(o[oi], n[ni])]);
      }
      i, j := i + 1, j + 1;
      NoteCons(d0, if equal(o[oi], n[ni]) then Kept(o[oi], n[ni]) else Modified(o[oi], n[ni]),
               Left(o, n, role, equal, i, j));
    } else if oi + 1 < |o| && role(o[oi + 1]) == role(n[ni]) {
      d := d.(removed := d.removed + [o[oi]]);
      i := i + 1;
      NoteCons(d0, Removed(o[oi]), Left(o, n, role, equal, i, j));
    } else if ni + 1 < |n| && role(o[oi]) == role(n[ni + 1]) {
      d := d.(added := d.added + [n[ni]]);
      j := j + 1;
      NoteCons(d0, Added(n[ni]), Left(o, n, role, equal, i, j));
    } else {
      d := d.(removed := d.removed + [o[oi]], added := d.added + [n[ni]]);
      i, j := i + 1, j + 1;
      NoteCons(d0, Removed(o[oi]), [Added(n[ni])] + Left(o, n, role, equal, i, j));
      NoteCons(Note(d0, Removed(o[oi])), Added(n[ni]), Left(o, n, role, equal, i, j));
    }
  }

  /** The pairing loop and the two loops that follow. */
  method PairByRole<M>(o: seq<M>, n: seq<M>, role: M -> string, equal: (M, M) -> bool, d0: Diff<M>)
    returns (d: Diff<M>)
    ensures d == NoteAll(d0, Paired(o, n, role, equal))
  {
    d := d0;
    var oi, ni := 0, 0;
    ghost var goal := NoteAll(d0, Paired(o, n, role, equal));
    while oi < |o| && ni < |n|
      invariant oi <= |o| && ni <= |n|
      invariant NoteAll(d, Left(o, n, role, equal, oi, ni)) == goal
      decreases |o| + |n| - oi - ni
    {
      oi, ni, d := PairOne(o, n, role, equal, oi, ni, d);
    }
    while oi < |o|
      invariant oi <= |o| && ni <= |n| && (oi == |o| || ni == |n|)
      invariant NoteAll(d, Left(o, n, role, equal, oi, ni)) == goal
    {
      Tail(o, oi);
      NoteCons(d, Removed(o[oi]), Left(o, n, role, equal, oi + 1, ni));
      d := d.(removed := d.removed + [o[oi]]);
      oi := oi + 1;
    }
    while ni < |n|
      invariant ni <= |n|
      invariant NoteAll(d, Left(o, n, role, equal, oi, ni)) == goal
    {
      Tail(n, ni);
      NoteCons(d, Added(n[ni]), Left(o, n, role, equal, oi, ni + 1));
      d := d.(added := d.added + [n[ni]]);
      ni := ni + 1;
    }
  }

  /** The diff of two lists of messages. */
  method Compute<M>(om: seq<M>, nm: seq<M>, role: M -> string, equal: (M, M) -> bool) returns (d: Diff<M>)
    ensures d == DiffOf(om, nm, role, equal)
  {
    var common, suffix := CountEnds(om, nm, equal);
    var oldTail, newTail := om[common..|om| - suffix], nm[common..|nm| - suffix];
    d := PairByRole(oldTail, newTail, role, equal, Diff(common, suffix, [], [], []));
  }
}
