/**
 The two looks at the pool, over the pool itself.
*/
module TurnSession {
  import opened Wrappers
  import opened Pool
  import P = Prompt

  /** The messages that the entry has not counted yet, if it counts some and not all. */
  function Unsent(found: Option<Data>, ms: seq<P.Message>): Option<seq<P.Message>> {
    if found.Some? && 0 < found.value.messageCount < |ms| then Some(ms[found.value.messageCount..]) else None
  }

  ghost function Lookup(s: State, id: string, agentID: string, now: int, later: int): Option<Data> {
    if Found(s, Op.Get(id, agentID, now, later)) && id in s.entries then Some(s.entries[id]) else None
  }

  /** BuildTurnPrompt: the full prompt, and the prompt of what is new for a conversation with an entry. */
  method BuildTurnPrompt(
    pool: SessionPool, conversationID: string, agentID: string, ms: seq<P.Message>, appendix: string, now: int, later: int)
    returns (full: string, incremental: string, count: nat)
    modifies pool
    ensures full == P.BuildPrompt(ms, appendix) && count == |ms|
    ensures pool.S() == Step(old(pool.S()), Op.Get(conversationID, agentID, now, later))
    ensures var rest := Unsent(Lookup(old(pool.S()), conversationID, agentID, now, later), ms);
      incremental == if rest.Some? then P.BuildPrompt(rest.value, "") else ""
  {
    full := P.BuildPromptWithTools(ms, appendix);
    count := |ms|;
    if conversationID == "" {
      return full, "", count;
    }
    var e := pool.Get(conversationID, agentID, now, later);
    if e != null && e.d.messageCount > 0 && e.d.messageCount < |ms| {
      incremental := P.BuildPromptWithTools(ms[e.d.messageCount..], "");
      return full, incremental, count;
    }
    return full, "", count;
  }

  /** The pool after the second look: an entry with another workspace is deleted. */
  function AfterChoice(s: State, id: string, agentID: string, ws: string, now: int, later: int): State {
    var s1 := Step(s, Op.Get(id, agentID, now, later));
    if id in s1.entries && s1.entries[id].workspace != "" && s1.entries[id].workspace != ws then Step(s1, Op.Delete(id))
    else s1
  }

  /** The choice of a session in runTurn for a request that names none: the entry to reuse, if its workspace fits; an
      entry with another workspace is deleted. */
  method ChooseSession(pool: SessionPool, conversationID: string, agentID: string, ws: string, now: int, later: int)
    returns (reused: Entry?)
    modifies pool
    ensures var found := Lookup(old(pool.S()), conversationID, agentID, now, later);
      var s1 := Step(old(pool.S()), Op.Get(conversationID, agentID, now, later));
      if conversationID == "" then reused == null && pool.S() == old(pool.S())
      else if found.Some? && found.value.workspace != "" && found.value.workspace != ws
      then reused == null && pool.S() == Step(s1, Op.Delete(conversationID)) && conversationID !in pool.S().entries
      else pool.S() == s1 && (reused != null <==> found.Some?) && (reused != null ==> reused.d == found.value)
    ensures conversationID != "" ==> pool.S() == AfterChoice(old(pool.S()), conversationID, agentID, ws, now, later)
  {
    reused := null;
    if conversationID != "" {
      var e := pool.Get(conversationID, agentID, now, later);
      if e != null {
        if e.d.workspace != "" && e.d.workspace != ws {
          pool.Delete(conversationID);
        } else {
          reused := e;
        }
      }
    }
  }
}
