/** The process-wide conversation-history store: a dict from session id to a
    `ChatMessageHistory`, created lazily on first access and cleared in place
    on request. Nothing is ever removed from it. */
module SessionManager {

  type SessionId = string

  /** One turn of a conversation. */
  datatype Message = HumanMessage(content: string) | AIMessage(content: string) | SystemMessage(content: string)

  /** The message list the store hands out. Callers hold on to the object and
      append turns to it; `Clear` empties it in place, so every holder sees
      the change. */
  class ChatMessageHistory {
    var messages: seq<Message>

    constructor ()
      ensures messages == []
    {
      messages := [];
    }

    method AddMessage(m: Message)
      modifies this
      ensures messages == old(messages) + [m]
    {
      messages := messages + [m];
    }

    method Clear()
      modifies this
      ensures messages == []
    {
      messages := [];
    }
  }

  /** No element occurs twice. */
  predicate Distinct<T(==)>(s: seq<T>)
  {
    forall i, j :: 0 <= i < j < |s| ==> s[i] != s[j]
  }

  /** A sequence without repetitions has as many distinct elements as it is long. */
  lemma {:induction false} DistinctCardinality<T>(s: seq<T>)
    requires Distinct(s)
    ensures |set x | x in s| == |s|
  {
    if s != [] {
      DistinctCardinality(s[1..]);
      var tail := set x | x in s[1..];
      assert (set x | x in s) == tail + {s[0]};
      assert s[0] !in tail by {
        forall j | 0 <= j < |s[1..]| ensures s[1..][j] != s[0] {
          assert s[1..][j] == s[j + 1];
        }
      }
    }
  }

  /** `session_store`: the dict's keys in insertion order, and the history
      object stored under each. */
  class SessionStore {
    var order: seq<SessionId>
    var store: map<SessionId, ChatMessageHistory>

    /** The keys are listed once each, exactly the dict's keys, and no two
        sessions share a history object. */
    ghost predicate Valid()
      reads this
    {
      && Distinct(order)
      && (forall id :: id in store <==> id in order)
      && (forall a, b :: a in store && b in store && a != b ==> store[a] != store[b])
    }

    /** The conversation each session currently holds. */
    ghost function Histories(): map<SessionId, seq<Message>>
      reads this, store.Values
    {
      map id | id in store :: store[id].messages
    }

    /** The store as the module starts: empty. */
    constructor ()
      ensures Valid()
      ensures order == [] && store == map[]
      ensures Histories() == map[]
    {
      order := [];
      store := map[];
    }

    /** `get_session_history`: the session's history object, inserting a new
        empty one (at the end of the key order) when the id is absent. An
        existing history is returned as it is and the store is left alone;
        no other session's entry changes in either case. */
    method GetSessionHistory(id: SessionId) returns (h: ChatMessageHistory)
      requires Valid()
      modifies this
      ensures Valid()
      ensures id in store && h == store[id]
      ensures old(id in store) ==> h == old(store[id]) && store == old(store) && order == old(order)
      ensures old(id !in store) ==> fresh(h) && store == old(store)[id := h] && order == old(order) + [id]
      ensures Histories() == if old(id in store) then old(Histories()) else old(Histories())[id := []]
      ensures GetAllSessions() == if old(id in store) then old(GetAllSessions()) else old(GetAllSessions()) + [id]
    {
      if id !in store {
        var created := new ChatMessageHistory();
        store := store[id := created];
        order := order + [id];
        forall i, j | 0 <= i < j < |order| ensures order[i] != order[j] {
          if j == |order| - 1 { assert order[i] in old(order); }
          else { assert order[i] == old(order)[i] && order[j] == old(order)[j]; }
        }
      }
      h := store[id];
    }

    /** `clear_session`: empties the session's history in place and reports
        `true` when the id is a key; reports `false` and changes nothing
        otherwise. No key is added or removed, and no other history changes. */
    method ClearSession(id: SessionId) returns (existed: bool)
      requires Valid()
      modifies if id in store then {store[id]} else {}
      ensures Valid()
      ensures existed == (id in store)
      ensures Histories() == if existed then old(Histories())[id := []] else old(Histories())
    {
      if id in store {
        store[id].Clear();
        return true;
      }
      return false;
    }

    /** `get_all_sessions`: every session id exactly once, in insertion order. */
    function GetAllSessions(): (ids: seq<SessionId>)
      reads this
      requires Valid()
      ensures Distinct(ids)
      ensures forall id :: id in ids <==> id in store
      ensures |ids| == |store|
    {
      DistinctCardinality(order);
      assert store.Keys == set x | x in order;
      order
    }

    /** `session_exists`: whether the id is among the listed sessions. */
    function SessionExists(id: SessionId): (b: bool)
      reads this
      requires Valid()
      ensures b <==> id in GetAllSessions()
    {
      id in store
    }
  }
}
