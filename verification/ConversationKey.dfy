/**
 The key of a conversation (deriveConversationID and firstUserContent in internal/handler/conversation.go): the hash of
 the first system text and the first user text. The hash is collision-free: a key stands for the bytes that are hashed.
*/
module ConversationKey {
  import opened Prompt
  import opened Strings

  datatype Key = NoKey | Auto(bytes: string)

  predicate IsSystem(m: Message) {
    (m.role == "system" || m.role == "developer") && m.content != ""
  }

  predicate IsUser(m: Message) {
    m.role == "user" && m.content != ""
  }

  /** The position of the first message that `picks` picks, or the length. */
  function First(ms: seq<Message>, picks: Message -> bool): (n: nat)
    ensures n <= |ms|
    ensures n < |ms| ==> picks(ms[n])
    ensures forall i :: 0 <= i < n ==> !picks(ms[i])
  {
    if ms == [] || picks(ms[0]) then 0 else 1 + First(ms[1..], picks)
  }

  /** The content of that message, or nothing. */
  function Content(ms: seq<Message>, picks: Message -> bool): string {
    var n := First(ms, picks);
    if n < |ms| then ms[n].content else ""
  }

  /** deriveConversationKey */
  function DeriveConversationKey(system: string, firstUser: string): Key {
    if firstUser == "" then NoKey else Auto(system + "\n" + firstUser)
  }

  function UserText(ms: seq<Message>): string {
    Content(ms, IsUser)
  }

  /** The first system text counts only if it stands before the first user text. */
  function SystemText(ms: seq<Message>): string {
    Content(ms[..First(ms, IsUser)], IsSystem)
  }

  function KeyOf(ms: seq<Message>): Key {
    DeriveConversationKey(SystemText(ms), UserText(ms))
  }

  lemma {:induction false} FirstIs(ms: seq<Message>, picks: Message -> bool, n: nat)
    requires n <= |ms| && (n < |ms| ==> picks(ms[n])) && forall i :: 0 <= i < n ==> !picks(ms[i])
    ensures First(ms, picks) == n
  {
    if n > 0 {
      FirstIs(ms[1..], picks, n - 1);
    }
  }

  method DeriveConversationID(ms: seq<Message>) returns (key: Key)
    ensures key == KeyOf(ms)
  {
    var system, firstUser := "", "";
    var i := 0;
    while i < |ms|
      invariant i <= |ms| && firstUser == ""
      invariant forall k :: 0 <= k < i ==> !IsUser(ms[k])
      invariant system == Content(ms[..i], IsSystem)
    {
      var m := ms[i];
      ContentSnoc(ms[..i], m, IsSystem);
      assert ms[..i + 1] == ms[..i] + [m];
      if m.role == "system" || m.role == "developer" {
        if system == "" {
          system := m.content;
        }
      } else if m.role == "user" {
        firstUser := m.content;
      }
      if firstUser != "" {
        FirstIs(ms, IsUser, i);
        assert !IsSystem(m);
        return DeriveConversationKey(system, firstUser);
      }
      i := i + 1;
    }
    FirstIs(ms, IsUser, i);
    return DeriveConversationKey(system, firstUser);
  }

  /** What a message more adds: its content if it is picked and nothing was before. */
  lemma ContentSnoc(ms: seq<Message>, m: Message, picks: Message -> bool)
    requires forall x :: picks(x) ==> x.content != ""
    ensures Content(ms + [m], picks) == if Content(ms, picks) == "" && picks(m) then m.content else Content(ms, picks)
  {
    var n := First(ms, picks);
    if n < |ms| || picks(m) {
      FirstIs(ms + [m], picks, n);
    } else {
      FirstIs(ms + [m], picks, n + 1);
    }
  }

  /** firstUserContent */
  method FirstUserContent(ms: seq<Message>) returns (content: string)
    ensures content == Content(ms, IsUser)
  {
    for i := 0 to |ms|
      invariant forall k :: 0 <= k < i ==> !IsUser(ms[k])
    {
      if ms[i].role == "user" && ms[i].content != "" {
        FirstIs(ms, IsUser, i);
        return ms[i].content;
      }
    }
    FirstIs(ms, IsUser, |ms|);
    return "";
  }

  predicate HasUser(ms: seq<Message>) {
    exists i :: 0 <= i < |ms| && IsUser(ms[i])
  }

  /** There is a key exactly when there is a non-empty user message. */
  lemma KeyNeedsUser(ms: seq<Message>)
    ensures KeyOf(ms) != NoKey <==> exists i :: 0 <= i < |ms| && ms[i].role == "user" && ms[i].content != ""
  {
    assert forall i :: 0 <= i < |ms| ==> (IsUser(ms[i]) <==> ms[i].role == "user" && ms[i].content != "");
  }

  /** Once there is a non-empty user message, the key never changes while the transcript grows. */
  lemma KeyIsStable(ms: seq<Message>, more: seq<Message>)
    requires HasUser(ms)
    ensures KeyOf(ms + more) == KeyOf(ms)
  {
    var n := First(ms, IsUser);
    assert forall i :: 0 <= i < |ms| ==> (ms + more)[i] == ms[i];
    FirstIs(ms + more, IsUser, n);
    assert (ms + more)[..n] == ms[..n];
  }

  /** What the key is made of, for every list: the content of the first user message that has one; and that of the first
      message of the roles "system" and "developer" that has one and stands ahead of it, or nothing if there is none. */
  lemma KeyReads(ms: seq<Message>, u: nat)
    requires u < |ms| && ms[u].role == "user" && ms[u].content != ""
    requires forall i :: 0 <= i < u ==> ms[i].role != "user" || ms[i].content == ""
    ensures UserText(ms) == ms[u].content
    ensures (forall i :: 0 <= i < u && ms[i].content != "" ==> ms[i].role != "system" && ms[i].role != "developer") ==>
      KeyOf(ms) == Auto("" + "\n" + ms[u].content)
    ensures forall s :: 0 <= s < u && ms[s].content != "" && (ms[s].role == "system" || ms[s].role == "developer") ==>
      (forall i :: 0 <= i < s && ms[i].content != "" ==> ms[i].role != "system" && ms[i].role != "developer") ==>
      KeyOf(ms) == Auto(ms[s].content + "\n" + ms[u].content)
  {
    FirstIs(ms, IsUser, u);
    var before := ms[..u];
    if forall i :: 0 <= i < u && ms[i].content != "" ==> ms[i].role != "system" && ms[i].role != "developer" {
      FirstIs(before, IsSystem, u);
    }
    forall s | 0 <= s < u && ms[s].content != "" && (ms[s].role == "system" || ms[s].role == "developer")
        && (forall i :: 0 <= i < s && ms[i].content != "" ==> ms[i].role != "system" && ms[i].role != "developer")
      ensures KeyOf(ms) == Auto(ms[s].content + "\n" + ms[u].content)
    {
      FirstIs(before, IsSystem, s);
    }
  }

  predicate SameBytes(a: seq<Message>, b: seq<Message>) {
    SystemText(a) + "\n" + UserText(a) == SystemText(b) + "\n" + UserText(b)
  }

  /** Two conversations share a key exactly if the bytes hashed are the same. */
  lemma SharedKey(a: seq<Message>, b: seq<Message>)
    requires HasUser(a) && HasUser(b)
    ensures KeyOf(a) == KeyOf(b) <==> SameBytes(a, b)
  {
  }

  /** A key tells conversations apart by their first texts, as long as the system texts are single lines. */
  lemma KeyIdentifies(a: seq<Message>, b: seq<Message>)
    requires HasUser(a) && HasUser(b) && OneLine(SystemText(a)) && OneLine(SystemText(b))
    ensures KeyOf(a) == KeyOf(b) <==> (SystemText(a) == SystemText(b) && UserText(a) == UserText(b))
  {
    if KeyOf(a) == KeyOf(b) {
      SplitAtChar(SystemText(a), UserText(a), SystemText(b), UserText(b), '\n');
    }
  }

  function Said(role: string, content: string): Message {
    Message(role, content, [], "", "")
  }

  lemma KeyOfTwo(system: string, user: string)
    requires system != "" && user != ""
    ensures KeyOf([Said("system", system), Said("user", user)]) == Auto(system + "\n" + user)
  {
    var ms := [Said("system", system), Said("user", user)];
    FirstIs(ms, IsUser, 1);
    assert ms[..1] == [Said("system", system)];
    FirstIs(ms[..1], IsSystem, 0);
  }

  /** With line breaks it does not: what moves from the end of the system text to the start of the user text leaves the
      key as it is. */
  lemma LinesBreakTheKey(a: string, b: string, c: string)
    requires a != "" && c != ""
    ensures KeyOf([Said("system", a), Said("user", b + "\n" + c)]) == KeyOf([Said("system", a + "\n" + b), Said("user", c)])
    ensures a != a + "\n" + b
  {
    KeyOfTwo(a, b + "\n" + c);
    KeyOfTwo(a + "\n" + b, c);
    assert a + "\n" + (b + "\n" + c) == (a + "\n" + b) + "\n" + c;
    assert |a + "\n" + b| > |a|;
  }
}
