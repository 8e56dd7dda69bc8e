/**
 The stored sessions (internal/cursor/session.go): a map from the hash of a conversation to an entry that knows its own
 hash and is re-keyed in place. The hash is collision-free: the digest of a byte stream stands for the stream itself.
 The clock is passed in; the file lock and the timer of the delayed save are left out.
*/
module SessionStore {
  import opened Strings

  datatype Part = Part(kind: string, text: string)

  datatype Message = Message(role: string, parts: seq<Part>)

  function TextOf(p: Part): string {
    if p.kind == "text" || p.kind == "" then p.text else ""
  }

  function ExtractText(m: Message): string {
    Joined(m.parts, TextOf)
  }

  const OPEN := "<think>"
  const CLOSE := "</think>"

  /** Without the text from each opening tag to the first closing tag after it. */
  function WithoutThink(s: string): string
    decreases |s|
  {
    var i := IndexOf(s, OPEN);
    if i < 0 then s else
      var rest := s[i + |OPEN|..];
      var j := IndexOf(rest, CLOSE);
      if j < 0 then s else s[..i] + WithoutThink(rest[j + |CLOSE|..])
  }

  function StripThinkBlocks(s: string): string {
    Trim(WithoutThink(s))
  }

  /** What counts of a message's text. */
  function Says(m: Message): string {
    if m.role == "assistant" then StripThinkBlocks(ExtractText(m)) else ExtractText(m)
  }

  function Line(m: Message): string {
    m.role + ":" + Says(m) + "\n"
  }

  /** The bytes that are hashed. */
  function Hash(ms: seq<Message>): string {
    Joined(ms, Line)
  }

  function Reply(text: string): Message {
    Message("assistant", [Part("text", text)])
  }

  lemma ReplyText(text: string)
    ensures ExtractText(Reply(text)) == text
  {
    JoinedLast([], Part("text", text), TextOf);
    assert [] + [Part("text", text)] == [Part("text", text)];
    assert "" + text == text;
  }

  /** One message more gives another key. */
  lemma HashGrows(ms: seq<Message>, m: Message)
    ensures Hash(ms + [m]) == Hash(ms) + Line(m)
    ensures Hash(ms + [m]) != Hash(ms)
  {
    JoinedLast(ms, m, Line);
    LineIsSomething(m);
  }

  lemma LineIsSomething(m: Message)
    ensures Line(m) != ""
  {
  }

  // ---- What is hashed -----------------------------------------------------------------------------------------

  /** The texts of the parts of kind "text", or of none, one after the other. */
  lemma TextsOfParts(role: string, a: seq<Part>, p: Part, b: seq<Part>)
    ensures ExtractText(Message(role, [])) == ""
    ensures ExtractText(Message(role, a + [p] + b))
         == ExtractText(Message(role, a)) + (if p.kind in ["", "text"] then p.text else "") + ExtractText(Message(role, b))
  {
    JoinedConcat(a + [p], b, TextOf);
    JoinedLast(a, p, TextOf);
  }

  /** A block goes from the first opening tag to the first closing tag behind it; what stands behind is searched on. */
  lemma ThinkBlockGoes(a: string, x: string, b: string)
    requires IndexOf(a + "<think>" + (x + "</think>" + b), "<think>") == |a|
    requires IndexOf(x + "</think>" + b, "</think>") == |x|
    ensures WithoutThink(a + "<think>" + (x + "</think>" + b)) == a + WithoutThink(b)
  {
    var rest := x + CLOSE + b;
    var s := a + OPEN + rest;
    assert s[|a| + |OPEN|..] == rest && s[..|a|] == a;
    assert rest[|x| + |CLOSE|..] == b;
  }

  /** Text without an opening tag stays, and so does one whose first opening tag is never closed. */
  lemma OpenBlockStays(a: string, x: string)
    requires IndexOf(a + "<think>" + x, "<think>") == |a| && !Contains(x, "</think>")
    ensures WithoutThink(a + "<think>" + x) == a + "<think>" + x
  {
    assert (a + OPEN + x)[|a| + |OPEN|..] == x;
  }

  lemma NoBlockStays(s: string)
    requires !Contains(s, "<think>")
    ensures WithoutThink(s) == s
  {
  }

  /** The bytes of a conversation are those of its messages: the role, a colon, the text and a line end; of an
      assistant's message the text without its think blocks and without white space around it. */
  lemma HashedMessages(a: seq<Message>, m: Message, b: seq<Message>)
    ensures Hash([]) == ""
    ensures m.role != "assistant" ==> Hash(a + [m] + b) == Hash(a) + (m.role + ":" + ExtractText(m) + "\n") + Hash(b)
    ensures m.role == "assistant" ==>
      Hash(a + [m] + b) == Hash(a) + ("assistant" + ":" + Trim(WithoutThink(ExtractText(m))) + "\n") + Hash(b)
  {
    JoinedConcat(a + [m], b, Line);
    JoinedLast(a, m, Line);
  }

  // ---- The store as a map -------------------------------------------------------------------------------------

  datatype Session = Session(id: string, createdAt: int, updatedAt: int)

  /** UpdateAfterResponse on the map: the entry moves to its new key, over whatever was there. */
  function Rekeyed(m: map<string, Session>, oldHash: string, newHash: string, now: int): map<string, Session> {
    if oldHash in m then m[newHash := m[oldHash].(updatedAt := now)] - {oldHash} else m
  }

  function Find(m: map<string, Session>, hash: string): string {
    if hash in m then m[hash].id else ""
  }

  // ---- The store ----------------------------------------------------------------------------------------------

  class Entry {
    const sessionID: string
    const createdAt: int
    var hash: string
    var updatedAt: int

    constructor (sessionID: string, hash: string, createdAt: int, updatedAt: int)
      ensures this.sessionID == sessionID && this.createdAt == createdAt
      ensures this.hash == hash && this.updatedAt == updatedAt
    {
      this.sessionID := sessionID;
      this.createdAt := createdAt;
      this.hash := hash;
      this.updatedAt := updatedAt;
    }

    function Contents(): Session
      reads this
    {
      Session(sessionID, createdAt, updatedAt)
    }
  }

  /** What is written for an entry. */
  datatype Stored = Stored(hash: string, session: Session)

  class SessionManager {
    var sessions: map<string, Entry>
    var dirty: bool

    ghost function Footprint(): set<object>
      reads this
    {
      set k | k in sessions :: sessions[k] as object
    }

    /** Every key is the hash of its entry. */
    ghost predicate Valid()
      reads this, Footprint()
    {
      forall k :: k in sessions ==> sessions[k].hash == k
    }

    ghost function Contents(): map<string, Session>
      reads this, Footprint()
    {
      map k | k in sessions :: sessions[k].Contents()
    }

    constructor ()
      ensures Valid() && Contents() == map[] && fresh(Footprint())
    {
      sessions, dirty := map[], false;
    }

    method GetOrCreate(ms: seq<Message>) returns (id: string)
      requires Valid()
      ensures id == Find(Contents(), Hash(ms))
    {
      var hash := Hash(ms);
      if hash in sessions {
        id := sessions[hash].sessionID;
      } else {
        id := "";
      }
    }

    method RegisterSession(ms: seq<Message>, sessionID: string, now: int, later: int)
      requires Valid()
      modifies this
      ensures Valid() && fresh(Footprint() - old(Footprint()))
      ensures Contents()
           == if sessionID == "" then old(Contents()) else old(Contents())[Hash(ms) := Session(sessionID, now, later)]
    {
      if sessionID == "" {
        return;
      }
      var entry := new Entry(sessionID, Hash(ms), now, later);
      sessions := sessions[Hash(ms) := entry];
      dirty := true;
    }

    method UpdateAfterResponse(ms: seq<Message>, response: string, now: int)
      requires Valid()
      modifies this, Footprint()
      ensures Valid() && Footprint() <= old(Footprint())
      ensures Contents() == Rekeyed(old(Contents()), Hash(ms), Hash(ms + [Reply(response)]), now)
    {
      HashGrows(ms, Reply(response));
      Move(Hash(ms), Hash(ms + [Reply(response)]), now);
      dirty := true;
    }

    method Move(oldHash: string, newHash: string, now: int)
      requires Valid() && oldHash != newHash
      modifies this, Footprint()
      ensures Valid() && Footprint() <= old(Footprint())
      ensures Contents() == Rekeyed(old(Contents()), oldHash, newHash, now)
    {
      ghost var before := Contents();
      if oldHash in sessions {
        Rekey(oldHash, newHash, now);
        assert forall k :: k in sessions && k != newHash ==> k in before && sessions[k].Contents() == before[k];
      }
    }

    /** What is done under the lock: the entry itself changes, and moves to its new key. */
    method Rekey(oldHash: string, newHash: string, now: int)
      requires Valid() && oldHash != newHash && oldHash in sessions
      modifies this, sessions[oldHash]
      ensures sessions == old(sessions)[newHash := old(sessions)[oldHash]] - {oldHash}
      ensures old(sessions)[oldHash].hash == newHash && old(sessions)[oldHash].updatedAt == now
      ensures forall k :: k in old(sessions) && k != oldHash ==> old(sessions)[k] != old(sessions)[oldHash]
    {
      var entry := sessions[oldHash];
      assert forall k :: k in sessions && k != oldHash ==> sessions[k] != entry;
      entry.hash := newHash;
      entry.updatedAt := now;
      sessions := sessions[newHash := entry];
      sessions := sessions - {oldHash};
    }

    /** The entries in the order in which the map is iterated. */
    method Save(order: seq<string>) returns (entries: seq<Stored>)
      requires Valid() && forall k :: k in order <==> k in sessions
      ensures entries == StoredIn(Contents(), order)
    {
      entries := [];
      for i := 0 to |order|
        invariant entries == StoredIn(Contents(), order[..i])
      {
        assert order[..i + 1][..i] == order[..i];
        assert order[i] in order;
        var entry := sessions[order[i]];
        entries := entries + [Stored(entry.hash, Session(entry.sessionID, entry.createdAt, entry.updatedAt))];
      }
      assert order[..|order|] == order;
    }

    method Load(entries: seq<Stored>)
      requires Valid()
      modifies this
      ensures Valid() && fresh(Footprint() - old(Footprint()))
      ensures Contents() == LoadedOver(old(Contents()), entries)
    {
      for i := 0 to |entries|
        invariant Valid() && fresh(Footprint() - old(Footprint()))
        invariant Contents() == LoadedOver(old(Contents()), entries[..i])
      {
        assert entries[..i + 1][..i] == entries[..i];
        LoadOne(entries[i]);
      }
      assert entries[..|entries|] == entries;
    }

    method LoadOne(e: Stored)
      requires Valid()
      modifies this
      ensures Valid() && fresh(Footprint() - old(Footprint()))
      ensures Contents() == old(Contents())[e.hash := e.session]
    {
      var entry := new Entry(e.session.id, e.hash, e.session.createdAt, e.session.updatedAt);
      sessions := sessions[e.hash := entry];
    }
  }

  function StoredIn(m: map<string, Session>, order: seq<string>): seq<Stored>
    requires forall k :: k in order ==> k in m
  {
    if order == [] then [] else
    var n := |order| - 1;
    assert order[n] in order;
    StoredIn(m, order[..n]) + [Stored(order[n], m[order[n]])]
  }

  function LoadedOver(m: map<string, Session>, entries: seq<Stored>): map<string, Session> {
    if entries == [] then m else
    var n := |entries| - 1;
    LoadedOver(m, entries[..n])[entries[n].hash := entries[n].session]
  }

  // ---- Saving and loading -------------------------------------------------------------------------------------

  lemma {:induction false} LoadedKeeps(m: map<string, Session>, base: map<string, Session>, order: seq<string>)
    requires forall k :: k in order ==> k in m
    ensures var l := LoadedOver(base, StoredIn(m, order));
      && (forall k :: k in l <==> k in base || k in order)
      && (forall k :: k in order ==> l[k] == m[k])
      && (forall k :: k in base && k !in order ==> l[k] == base[k])
  {
    if order != [] {
      var n := |order| - 1;
      assert order[n] in order;
      assert order == order[..n] + [order[n]];
      LoadedKeeps(m, base, order[..n]);
      LoadedSnoc(base, StoredIn(m, order[..n]), Stored(order[n], m[order[n]]));
    }
  }

  lemma LoadedSnoc(base: map<string, Session>, entries: seq<Stored>, e: Stored)
    ensures LoadedOver(base, entries + [e]) == LoadedOver(base, entries)[e.hash := e.session]
  {
    assert (entries + [e])[..|entries|] == entries;
  }

  /** Loading into an empty store what was saved from another rebuilds its map, whatever the order of the entries. */
  lemma LoadRebuilds(m: map<string, Session>, order: seq<string>)
    requires forall k :: k in order <==> k in m
    ensures LoadedOver(map[], StoredIn(m, order)) == m
  {
    LoadedKeeps(m, map[], order);
  }

  // ---- After a response ---------------------------------------------------------------------------------------

  /** A response moves its conversation's session to the longer key and keeps every other session, except one that was
      already stored under that key. */
  lemma UpdateKeepsTheOthers(m: map<string, Session>, ms: seq<Message>, response: string, now: int, k: string)
    ensures var new1 := Hash(ms + [Reply(response)]);
      var m1 := Rekeyed(m, Hash(ms), new1, now);
      && (k in m && k != Hash(ms) && (k != new1 || Hash(ms) !in m) ==> k in m1 && m1[k] == m[k])
      && (k in m1 ==> k in m || k == new1)
      && (Hash(ms) in m ==> Hash(ms) !in m1)
  {
    HashGrows(ms, Reply(response));
  }

  /** Asking again with the reply appended finds the same session. The reply may come back from the client in any
      form that is the same without its think blocks. */
  lemma UpdateThenGet(m: map<string, Session>, ms: seq<Message>, response: string, reply: Message, now: int)
    requires reply.role == "assistant" && StripThinkBlocks(ExtractText(reply)) == StripThinkBlocks(response)
    ensures var m1 := Rekeyed(m, Hash(ms), Hash(ms + [Reply(response)]), now);
      if Hash(ms) in m then
        && Hash(ms + [reply]) in m1
        && m1[Hash(ms + [reply])] == Session(m[Hash(ms)].id, m[Hash(ms)].createdAt, now)
        && Find(m1, Hash(ms + [reply])) == Find(m, Hash(ms)) == m[Hash(ms)].id
      else m1 == m && Find(m, Hash(ms)) == ""
  {
    SameReply(ms, response, reply);
    HashGrows(ms, reply);
    RekeyedAt(m, Hash(ms), Hash(ms + [reply]), now);
  }

  lemma SameReply(ms: seq<Message>, response: string, reply: Message)
    requires reply.role == "assistant" && StripThinkBlocks(ExtractText(reply)) == StripThinkBlocks(response)
    ensures Hash(ms + [Reply(response)]) == Hash(ms + [reply])
  {
    ReplyText(response);
    HashGrows(ms, Reply(response));
    HashGrows(ms, reply);
  }

  lemma RekeyedAt(m: map<string, Session>, oldHash: string, newHash: string, now: int)
    requires oldHash != newHash
    ensures var m1 := Rekeyed(m, oldHash, newHash, now);
      if oldHash in m then
        newHash in m1 && m1[newHash] == Session(m[oldHash].id, m[oldHash].createdAt, now)
      else m1 == m
  {
  }

  /** A next request that goes on after the reply has a key of its own: what it finds was there before the response,
      so a session that follows its conversation is not found by the request that continues it. */
  lemma ContinuationIsAnotherKey(
    m: map<string, Session>, ms: seq<Message>, response: string, next: Message, now: int)
    ensures var longer := ms + [Reply(response)] + [next];
      var m1 := Rekeyed(m, Hash(ms), Hash(ms + [Reply(response)]), now);
      Find(m1, Hash(longer)) == Find(m, Hash(longer))
  {
    var reply := Reply(response);
    HashGrows(ms, reply);
    HashGrows(ms + [reply], next);
    LineIsSomething(reply);
    assert |Hash(ms + [reply] + [next])| > |Hash(ms + [reply])| > |Hash(ms)|;
  }

  function User(text: string): Message {
    Message("user", [Part("text", text)])
  }

  lemma UserLine(text: string)
    ensures Hash([User(text)]) == "user:" + text + "\n" == Line(User(text))
  {
    JoinedLast([], Part("text", text), TextOf);
    assert [] + [Part("text", text)] == [Part("text", text)];
    assert "" + text == text;
    JoinedLast([], User(text), Line);
    assert [] + [User(text)] == [User(text)];
    assert "user" + ":" == "user:";
  }

  lemma LinesRunTogether(a: string, b: string)
    ensures "user:" + (a + "\nuser:" + b) + "\n" == ("user:" + a + "\n") + ("user:" + b + "\n")
  {
    assert "\nuser:" == "\n" + "user:";
  }

  lemma TwoUsers(a: string, b: string)
    ensures Hash([User(a), User(b)]) == ("user:" + a + "\n") + ("user:" + b + "\n")
  {
    UserLine(a);
    UserLine(b);
    JoinedLast([User(a)], User(b), Line);
    assert [User(a)] + [User(b)] == [User(a), User(b)];
  }

  /** The bytes hashed do not separate messages: two different conversations can share a session. */
  lemma ConversationsCanCollide(a: string, b: string)
    ensures |[User(a + "\nuser:" + b)]| != |[User(a), User(b)]|
    ensures Hash([User(a + "\nuser:" + b)]) == Hash([User(a), User(b)])
  {
    UserLine(a + "\nuser:" + b);
    TwoUsers(a, b);
    LinesRunTogether(a, b);
  }

  // ---- When two conversations share a key ---------------------------------------------------------------------

  /** What a conversation comes to: who said what. */
  function Spoken(ms: seq<Message>): (r: seq<(string, string)>)
    ensures |r| == |ms| && forall i :: 0 <= i < |ms| ==> r[i] == (ms[i].role, Says(ms[i]))
  {
    seq(|ms|, i requires 0 <= i < |ms| => (ms[i].role, Says(ms[i])))
  }

  /** Roles are one word, and each text is one line. */
  predicate SingleLines(ms: seq<Message>) {
    forall i :: 0 <= i < |ms| ==> OneLine(ms[i].role) && Lacks(ms[i].role, ':') && OneLine(Says(ms[i]))
  }

  lemma HashFront(m: Message, ms: seq<Message>)
    ensures Hash([m] + ms) == m.role + ":" + Says(m) + "\n" + Hash(ms)
  {
    JoinedConcat([m], ms, Line);
    JoinedLast([], m, Line);
    assert [] + [m] == [m];
    assert "" + Line(m) == Line(m);
  }

  lemma SameFront(m: Message, x: string, n: Message, y: string)
    requires SingleLines([m]) && SingleLines([n])
    requires m.role + ":" + Says(m) + "\n" + x == n.role + ":" + Says(n) + "\n" + y
    ensures m.role == n.role && Says(m) == Says(n) && x == y
  {
    assert [m][0] == m && [n][0] == n;
    OneLineTwice(m.role, Says(m));
    OneLineTwice(n.role, Says(n));
    SplitAtChar(m.role + ":" + Says(m), x, n.role + ":" + Says(n), y, '\n');
    SplitAtChar(m.role, Says(m), n.role, Says(n), ':');
  }

  lemma OneLineTwice(a: string, b: string)
    requires OneLine(a) && OneLine(b)
    ensures OneLine(a + ":" + b)
  {
  }

  lemma SpokenFront(ms: seq<Message>)
    requires ms != []
    ensures Spoken(ms) == [(ms[0].role, Says(ms[0]))] + Spoken(ms[1..])
  {
    assert ms == [ms[0]] + ms[1..];
  }

  lemma HashStep(m: Message, ms: seq<Message>, n: Message, ns: seq<Message>)
    requires SingleLines([m]) && SingleLines([n])
    ensures Hash([m] + ms) == Hash([n] + ns) <==> m.role == n.role && Says(m) == Says(n) && Hash(ms) == Hash(ns)
  {
    HashFront(m, ms);
    HashFront(n, ns);
    if Hash([m] + ms) == Hash([n] + ns) {
      SameFront(m, Hash(ms), n, Hash(ns));
    }
  }

  lemma SpokenStep(m: Message, ms: seq<Message>, n: Message, ns: seq<Message>)
    ensures Spoken([m] + ms) == Spoken([n] + ns) <==>
      m.role == n.role && Says(m) == Says(n) && Spoken(ms) == Spoken(ns)
  {
    SpokenFront([m] + ms);
    SpokenFront([n] + ns);
    assert ([m] + ms)[1..] == ms && ([n] + ns)[1..] == ns;
    ConsEqual((m.role, Says(m)), Spoken(ms), (n.role, Says(n)), Spoken(ns));
  }

  lemma BothStep(m: Message, ms: seq<Message>, n: Message, ns: seq<Message>)
    requires SingleLines([m]) && SingleLines([n])
    requires Hash(ms) == Hash(ns) <==> Spoken(ms) == Spoken(ns)
    ensures Hash([m] + ms) == Hash([n] + ns) <==> Spoken([m] + ms) == Spoken([n] + ns)
  {
    HashStep(m, ms, n, ns);
    SpokenStep(m, ms, n, ns);
  }

  lemma SingleFront(ms: seq<Message>)
    requires ms != [] && SingleLines(ms)
    ensures SingleLines([ms[0]]) && SingleLines(ms[1..]) && [ms[0]] + ms[1..] == ms
  {
  }

  /** Conversations of single lines share a key exactly if the same was said by the same in the same order. */
  lemma {:induction false} HashIdentifies(a: seq<Message>, b: seq<Message>)
    requires SingleLines(a) && SingleLines(b)
    ensures Hash(a) == Hash(b) <==> Spoken(a) == Spoken(b)
    decreases |a|
  {
    if a == [] || b == [] {
      HashOfNothing(a);
      HashOfNothing(b);
    } else {
      SingleFront(a);
      SingleFront(b);
      HashIdentifies(a[1..], b[1..]);
      BothStep(a[0], a[1..], b[0], b[1..]);
    }
  }

  lemma ConsEqual<T>(x: T, xs: seq<T>, y: T, ys: seq<T>)
    ensures [x] + xs == [y] + ys <==> x == y && xs == ys
  {
    if [x] + xs == [y] + ys {
      assert ([x] + xs)[0] == x && ([y] + ys)[0] == y;
      assert ([x] + xs)[1..] == xs && ([y] + ys)[1..] == ys;
    }
  }

  lemma HashOfNothing(ms: seq<Message>)
    ensures Hash(ms) == "" <==> ms == []
    ensures Spoken(ms) == [] <==> ms == []
  {
    if ms != [] {
      LineIsSomething(ms[|ms| - 1]);
    }
  }

  /** In a store that gives each key a session of its own, two stored conversations of single lines find the same
      session exactly if they come to the same. */
  lemma SharedSession(m: map<string, Session>, a: seq<Message>, b: seq<Message>)
    requires forall k, l :: k in m && l in m && m[k].id == m[l].id ==> k == l
    requires Hash(a) in m && Hash(b) in m && SingleLines(a) && SingleLines(b)
    ensures Find(m, Hash(a)) == Find(m, Hash(b)) <==> Spoken(a) == Spoken(b)
  {
    HashIdentifies(a, b);
  }
}
