/**
 * The chat state of `AppProvider`: the sidebar's thread list and its
 * in-place upsert, the conversion of fetched messages into chat messages,
 * and the new-chat, reset, load and delete transitions. Fresh session ids,
 * the current time and what the fetches return are parameters.
 */
module App {
  import opened Js
  import opened ChatTypes
  import MessagesRoute

  /** `SessionManager`'s storage key for the current session id. */
  const CurrentSessionKey := "mutumwa_current_session"

  /** The longest title slice taken from a first message. */
  const TitleLength := 50

  /** The chat view's `Message`; the timestamp is kept as the text it is parsed from. */
  datatype Message = Message(id: string, text: string, sender: Sender, timestamp: string)

  /** `appMessages.map(...)` in `loadSession`. */
  function ConvertMessages(appMessages: seq<AppMessage>): (r: seq<Message>)
    ensures |r| == |appMessages|
    ensures forall i :: 0 <= i < |r| ==>
      r[i].id == appMessages[i].id && r[i].text == appMessages[i].content
      && r[i].sender == appMessages[i].roleType && r[i].timestamp == appMessages[i].createdAt
  {
    if appMessages == [] then []
    else
      var m := appMessages[0];
      [Message(m.id, m.content, m.roleType, m.createdAt)] + ConvertMessages(appMessages[1..])
  }

  /** The conversion works message by message. */
  lemma {:induction false} ConvertMessagesConcat(a: seq<AppMessage>, b: seq<AppMessage>)
    ensures ConvertMessages(a + b) == ConvertMessages(a) + ConvertMessages(b)
  {
    if a == [] {
      assert a + b == b;
    } else {
      assert (a + b)[1..] == a[1..] + b;
      ConvertMessagesConcat(a[1..], b);
    }
  }

  /**
   * From a database row to the chat view, through the row mapping of the
   * `database/init` route and the client's conversion: every row's message
   * appears, in order, with its content as text and the sender the row's
   * type decides. (`loadSession` itself fetches the sessions messages route,
   * which is not part of this model; its id, content and role mapping is
   * the same as the one used here.)
   */
  lemma RowsReachChat(sessionId: string, domain: Option<string>, rows: seq<MessagesRoute.DbRow>, nowIso: string)
    requires sessionId != ""
    requires forall i :: 0 <= i < |rows| ==> rows[i].message.Some?
    ensures var resp := MessagesRoute.Get(sessionId, domain, Some(rows), nowIso);
      var chat := ConvertMessages(seq(|resp.messages|, i requires 0 <= i < |resp.messages| => MessagesRoute.ToAppMessage(resp.messages[i])));
      |chat| == |rows|
      && forall i :: 0 <= i < |rows| ==>
        chat[i].text == rows[i].message.value.content
        && chat[i].sender == MessagesRoute.RoleOf(rows[i].message.value.msgType)
        && ParseInt(chat[i].id) == Num(rows[i].id)
  {
    var resp := MessagesRoute.Get(sessionId, domain, Some(rows), nowIso);
    forall i | 0 <= i < |rows|
      ensures ParseInt(resp.messages[i].id) == Num(rows[i].id)
    {
      MessagesRoute.MappedIdReadsBack(rows[i], nowIso);
    }
  }

  /** `prevSessions.findIndex(s => s.id === sessionId)` */
  function FindSession(sessions: seq<ChatSession>, id: string): (k: int)
    ensures k == -1 <==> forall i :: 0 <= i < |sessions| ==> sessions[i].id != id
    ensures k != -1 ==>
      0 <= k < |sessions| && sessions[k].id == id && forall i :: 0 <= i < k ==> sessions[i].id != id
  {
    if sessions == [] then -1
    else if sessions[0].id == id then 0
    else
      var k := FindSession(sessions[1..], id);
      if k == -1 then -1 else k + 1
  }

  /**
   * The title of a thread first seen in the sidebar: the given title, or the
   * first fifty characters of the message, with "..." only when it was cut.
   */
  function NewThreadTitle(title: string, lastMessage: string): (r: string)
    ensures title != "" ==> r == title
    ensures title == "" && |lastMessage| <= TitleLength ==> r == lastMessage
    ensures title == "" && |lastMessage| > TitleLength ==>
      |r| == TitleLength + 3 && r[..TitleLength] == lastMessage[..TitleLength] && r[TitleLength..] == "..."
  {
    if title != "" then title
    else if |lastMessage| > TitleLength then lastMessage[..TitleLength] + "..."
    else lastMessage
  }

  /**
   * The updater of `updateActiveThreadInSidebar`: the first thread with the
   * id is refreshed in place, or a new thread goes on top.
   */
  function UpsertThread(sessions: seq<ChatSession>, id: string, title: string, lastMessage: string, now: int): (r: seq<ChatSession>)
    ensures FindSession(sessions, id) != -1 ==>
      var k := FindSession(sessions, id);
      |r| == |sessions|
      && r[k] == ChatSession(id, if title != "" then title else sessions[k].title, lastMessage, now, sessions[k].messageCount + 1)
      && forall i :: 0 <= i < |r| && i != k ==> r[i] == sessions[i]
    ensures FindSession(sessions, id) == -1 ==>
      |r| == |sessions| + 1 && r[1..] == sessions
      && r[0] == ChatSession(id, NewThreadTitle(title, lastMessage), lastMessage, now, 1)
  {
    var k := FindSession(sessions, id);
    if k >= 0 then
      var old_ := sessions[k];
      sessions[k := old_.(title := if title != "" then title else old_.title,
                          lastMessage := lastMessage, timestamp := now,
                          messageCount := old_.messageCount + 1)]
    else
      [ChatSession(id, NewThreadTitle(title, lastMessage), lastMessage, now, 1)] + sessions
  }

  /** No two threads of the list share an id. */
  predicate UniqueIds(sessions: seq<ChatSession>)
  {
    forall i, j :: 0 <= i < j < |sessions| ==> sessions[i].id != sessions[j].id
  }

  /**
   * The upsert keeps thread ids unique, and afterwards the thread is found
   * with the new last message; a thread list built by upserts alone never
   * shows a thread twice.
   */
  lemma UpsertKeepsIdsUnique(sessions: seq<ChatSession>, id: string, title: string, lastMessage: string, now: int)
    requires UniqueIds(sessions)
    ensures var r := UpsertThread(sessions, id, title, lastMessage, now);
      UniqueIds(r) && FindSession(r, id) != -1 && r[FindSession(r, id)].lastMessage == lastMessage
  {
    var r := UpsertThread(sessions, id, title, lastMessage, now);
    var k := FindSession(sessions, id);
    if k == -1 {
      assert r[0].id == id;
      forall i, j | 0 <= i < j < |r| ensures r[i].id != r[j].id {
        if i > 0 {
          assert r[i] == sessions[i - 1] && r[j] == sessions[j - 1];
        } else {
          assert r[j] == sessions[j - 1];
        }
      }
      assert FindSession(r, id) == 0;
    } else {
      forall i | 0 <= i < |r| ensures r[i].id == sessions[i].id {
      }
      assert FindSession(r, id) == k by {
        assert forall i :: 0 <= i < k ==> r[i].id == sessions[i].id;
      }
    }
  }

  /** Two messages to a thread that is not yet listed add it once, with a count of two. */
  lemma SecondMessageUpdatesInPlace(sessions: seq<ChatSession>, id: string, title: string, first: string, second: string, t1: int, t2: int)
    requires FindSession(sessions, id) == -1
    ensures var r := UpsertThread(UpsertThread(sessions, id, title, first, t1), id, "", second, t2);
      |r| == |sessions| + 1 && r[1..] == sessions
      && r[0] == ChatSession(id, NewThreadTitle(title, first), second, t2, 2)
  {
    var once := UpsertThread(sessions, id, title, first, t1);
    assert FindSession(once, id) == 0;
  }

  class AppState {
    var showLanding: bool
    var messages: seq<Message>
    var currentSessionId: string
    var sessions: seq<ChatSession>
    var isLoadingSessions: bool
    /** The browser storage `SessionManager` keeps the current session id in. */
    var storage: map<string, string>

    /**
     * Mounting: the stored session id is reused when there is a non-empty
     * one; otherwise `freshId` becomes current and is stored.
     */
    constructor (storage0: map<string, string>, freshId: string)
      ensures showLanding && messages == [] && sessions == [] && !isLoadingSessions
      ensures CurrentSessionKey in storage0 && storage0[CurrentSessionKey] != "" ==>
        currentSessionId == storage0[CurrentSessionKey] && storage == storage0
      ensures !(CurrentSessionKey in storage0 && storage0[CurrentSessionKey] != "") ==>
        currentSessionId == freshId && storage == storage0[CurrentSessionKey := freshId]
    {
      showLanding := true;
      messages := [];
      sessions := [];
      isLoadingSessions := false;
      storage := storage0;
      if CurrentSessionKey in storage0 && storage0[CurrentSessionKey] != "" {
        currentSessionId := storage0[CurrentSessionKey];
      } else {
        currentSessionId := freshId;
        storage := storage0[CurrentSessionKey := freshId];
      }
    }

    /** The current session id is the one in storage. */
    predicate Tracked()
      reads this
    {
      CurrentSessionKey in storage && storage[CurrentSessionKey] == currentSessionId
    }

    /** `startNewChat`: an empty chat under a fresh id; the landing flag stays as it was. */
    method StartNewChat(freshId: string)
      modifies this`messages, this`currentSessionId, this`storage
      ensures messages == [] && currentSessionId == freshId
      ensures storage == old(storage)[CurrentSessionKey := freshId]
      ensures Tracked()
      ensures showLanding == old(showLanding) && sessions == old(sessions)
    {
      messages := [];
      currentSessionId := freshId;
      storage := storage[CurrentSessionKey := freshId];
    }

    /** `resetApp`: a new chat, and the landing page shown again. */
    method ResetApp(freshId: string)
      modifies this`showLanding, this`messages, this`currentSessionId, this`storage
      ensures showLanding && messages == [] && currentSessionId == freshId
      ensures storage == old(storage)[CurrentSessionKey := freshId]
      ensures Tracked()
      ensures sessions == old(sessions)
    {
      showLanding := true;
      StartNewChat(freshId);
    }

    /**
     * `loadSession`: the session becomes current and its fetched messages
     * are shown; `fetched` is `None` when the fetch threw.
     */
    method LoadSession(sessionId: string, fetched: Option<seq<AppMessage>>)
      modifies this`showLanding, this`messages, this`currentSessionId, this`storage
      ensures currentSessionId == sessionId && !showLanding
      ensures storage == old(storage)[CurrentSessionKey := sessionId]
      ensures Tracked()
      ensures messages == if fetched.Some? then ConvertMessages(fetched.value) else []
      ensures sessions == old(sessions)
    {
      currentSessionId := sessionId;
      storage := storage[CurrentSessionKey := sessionId];
      showLanding := false;
      if fetched.Some? {
        messages := ConvertMessages(fetched.value);
      } else {
        messages := [];
      }
    }

    /**
     * `deleteSession`: `refreshed` is the thread list fetched after the
     * deletion, or `None` when the handler threw before it arrived. Only
     * deleting the current session starts a new chat under `freshId`.
     */
    method DeleteSession(sessionId: string, refreshed: Option<seq<ChatSession>>, freshId: string)
      modifies this`isLoadingSessions, this`sessions, this`messages, this`currentSessionId, this`storage
      ensures !isLoadingSessions && showLanding == old(showLanding)
      ensures refreshed.None? ==>
        sessions == old(sessions) && messages == old(messages)
        && currentSessionId == old(currentSessionId) && storage == old(storage)
      ensures refreshed.Some? ==> sessions == refreshed.value
      ensures refreshed.Some? && sessionId == old(currentSessionId) ==>
        messages == [] && currentSessionId == freshId
        && storage == old(storage)[CurrentSessionKey := freshId]
      ensures refreshed.Some? && sessionId != old(currentSessionId) ==>
        messages == old(messages) && currentSessionId == old(currentSessionId) && storage == old(storage)
    {
      isLoadingSessions := true;
      if refreshed.Some? {
        sessions := refreshed.value;
        if sessionId == currentSessionId {
          StartNewChat(freshId);
        }
      }
      isLoadingSessions := false;
    }

    /**
     * `refreshSessions`, and the thread load of the mount effect:
     * `fetched` is the thread list, or `None` when the handler threw.
     */
    method RefreshSessions(fetched: Option<seq<ChatSession>>)
      modifies this`isLoadingSessions, this`sessions
      ensures !isLoadingSessions
      ensures sessions == if fetched.Some? then fetched.value else old(sessions)
    {
      isLoadingSessions := true;
      if fetched.Some? {
        sessions := fetched.value;
      }
      isLoadingSessions := false;
    }

    /** `updateActiveThreadInSidebar`, at time `now`. */
    method UpdateActiveThreadInSidebar(sessionId: string, title: string, lastMessage: string, now: int)
      modifies this`sessions
      ensures sessions == UpsertThread(old(sessions), sessionId, title, lastMessage, now)
    {
      sessions := UpsertThread(sessions, sessionId, title, lastMessage, now);
    }
  }
}
