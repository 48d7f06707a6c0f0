/** The per-chat session store (app/core/session_store.py): a dictionary from
    chat id to that chat's session dictionary. The file it is saved in after
    every change and the lock around each operation are not part of this
    model; the store is the dictionary itself. */
module SessionStore {
  import opened JsonValue

  type Sessions = map<string, map<string, Json>>

  /** `d.get(chat_id, {})`. */
  function SessionOf(d: Sessions, chat: string): (s: map<string, Json>)
    ensures chat !in d ==> s == map[]
  {
    if chat in d then d[chat] else map[]
  }

  /** `update_session`: the chat's session (created empty when absent) with
      `data` merged in. */
  function Merged(d: Sessions, chat: string, data: map<string, Json>): Sessions {
    d[chat := SessionOf(d, chat) + data]
  }

  /** `clear_session_state`: the chat's session replaced by one holding only a
      truthy active agent; an absent chat is left alone. */
  function ClearedState(d: Sessions, chat: string): Sessions {
    if chat !in d then d
    else
      var active := Get(d[chat], "active_agent");
      d[chat := if Truthy(active) then map["active_agent" := active] else map[]]
  }

  /** `clear_active`: the active agent removed from the chat's session. */
  function WithoutActive(d: Sessions, chat: string): Sessions {
    if chat in d && "active_agent" in d[chat] then d[chat := d[chat] - {"active_agent"}] else d
  }

  /** The store of lines 26-68, over the dictionary it keeps. */
  class Store {
    var sessions: Sessions

    constructor()
      ensures sessions == map[]
    {
      sessions := map[];
    }

    /** `get_session`: a copy, which later edits by the caller cannot reach. */
    method GetSession(chat: string) returns (s: map<string, Json>)
      ensures s == SessionOf(sessions, chat)
    {
      if chat in sessions {
        s := sessions[chat];
      } else {
        s := map[];
      }
    }

    method UpdateSession(chat: string, data: map<string, Json>)
      modifies this
      ensures sessions == Merged(old(sessions), chat, data)
    {
      if chat !in sessions {
        sessions := sessions[chat := map[]];
      }
      sessions := sessions[chat := sessions[chat] + data];
    }

    method ClearSessionState(chat: string)
      modifies this
      ensures sessions == ClearedState(old(sessions), chat)
    {
      if chat in sessions {
        var active := Get(sessions[chat], "active_agent");
        sessions := sessions[chat := map[]];
        if Truthy(active) {
          sessions := sessions[chat := sessions[chat]["active_agent" := active]];
        }
      }
    }

    method SetActive(chat: string, agent: string)
      modifies this
      ensures sessions == Merged(old(sessions), chat, map["active_agent" := JStr(agent)])
    {
      UpdateSession(chat, map["active_agent" := JStr(agent)]);
    }

    method GetActive(chat: string) returns (a: Json)
      ensures a == Get(SessionOf(sessions, chat), "active_agent")
    {
      var s := GetSession(chat);
      a := Get(s, "active_agent");
    }

    method ClearActive(chat: string)
      modifies this
      ensures sessions == WithoutActive(old(sessions), chat)
    {
      if chat in sessions && "active_agent" in sessions[chat] {
        sessions := sessions[chat := sessions[chat] - {"active_agent"}];
      }
    }
  }

  // ------------------------------------------------------------- properties

  /** Merging creates the chat's entry, overwrites exactly the given keys,
      keeps the chat's other keys, and leaves every other chat alone. */
  lemma MergeOnlyGivenKeys(d: Sessions, chat: string, data: map<string, Json>)
    ensures var r := Merged(d, chat, data);
      && chat in r && r.Keys == d.Keys + {chat}
      && (forall k :: k in data ==> k in r[chat] && r[chat][k] == data[k])
      && (forall k :: k !in data ==> (k in r[chat] <==> k in SessionOf(d, chat))
                                     && (k in r[chat] ==> r[chat][k] == SessionOf(d, chat)[k]))
      && (forall c :: c != chat && c in d ==> r[c] == d[c])
  {
  }

  /** `set_active` then `get_active` gives the same id. */
  lemma SetThenGetActive(d: Sessions, chat: string, agent: string)
    ensures Get(SessionOf(Merged(d, chat, map["active_agent" := JStr(agent)]), chat), "active_agent") == JStr(agent)
  {
  }

  /** An absent chat has no session and no active agent. */
  lemma AbsentChat(d: Sessions, chat: string)
    requires chat !in d
    ensures SessionOf(d, chat) == map[] && Get(SessionOf(d, chat), "active_agent") == JNull
    ensures ClearedState(d, chat) == d && WithoutActive(d, chat) == d
  {
  }

  /** Clearing the state leaves the chat at most its truthy active agent, keeps
      the active agent `get_active` reads when it is truthy, touches no other
      chat, and a second clearing changes nothing. */
  lemma ClearKeepsActiveAgent(d: Sessions, chat: string)
    requires chat in d
    ensures var r := ClearedState(d, chat);
      && r[chat].Keys <= {"active_agent"}
      && (Truthy(Get(d[chat], "active_agent")) ==> Get(r[chat], "active_agent") == Get(d[chat], "active_agent"))
      && (!Truthy(Get(d[chat], "active_agent")) ==> r[chat] == map[])
      && (forall c :: c in d && c != chat ==> c in r && r[c] == d[c])
      && ClearedState(r, chat) == r
  {
    var r := ClearedState(d, chat);
    var active := Get(d[chat], "active_agent");
    if Truthy(active) {
      assert r[chat] == map["active_agent" := active];
      assert Get(r[chat], "active_agent") == active;
    }
  }

  /** After `set_active` with a non-empty id, clearing the state keeps exactly
      that agent. */
  lemma ClearAfterSetActive(d: Sessions, chat: string, agent: string)
    requires agent != []
    ensures ClearedState(Merged(d, chat, map["active_agent" := JStr(agent)]), chat)[chat] == map["active_agent" := JStr(agent)]
  {
    var m := Merged(d, chat, map["active_agent" := JStr(agent)]);
    assert Get(m[chat], "active_agent") == JStr(agent);
  }

  /** `clear_active` removes only the active agent, is a no-op when there is
      none, and makes `get_active` read None. */
  lemma ClearActiveOnlyActive(d: Sessions, chat: string)
    ensures var r := WithoutActive(d, chat);
      && r.Keys == d.Keys
      && Get(SessionOf(r, chat), "active_agent") == JNull
      && (forall c :: c in d && c != chat ==> r[c] == d[c])
      && (chat in d ==> forall k :: k != "active_agent" ==> (k in r[chat] <==> k in d[chat]) && (k in d[chat] ==> r[chat][k] == d[chat][k]))
      && (chat !in d || "active_agent" !in d[chat] ==> r == d)
  {
  }
}
