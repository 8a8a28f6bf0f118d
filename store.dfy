/**
  The process-wide application store (store/useAppStore.js): authentication,
  theme, sidebar and typing flags, the chat collection and the active chat id.
  Every action overwrites only the fields it names; the class frames each
  method on exactly those fields.
*/
module Store {
  import opened Wrappers
  import opened Sequences

  datatype Role = UserRole | AiRole

  datatype MessageType = TextMessage | ImageMessage

  /** One turn of a chat; `image` is the data URI of an attached picture, if any. */
  datatype Message = Message(id: string, text: string, role: Role, timestamp: int, kind: MessageType, image: Option<string>)

  /** A conversation; its messages are in insertion (chronological) order. */
  datatype Chat = Chat(id: string, title: string, messages: seq<Message>, createdAt: int)

  datatype UserInfo = UserInfo(phone: string, name: string)

  datatype AuthState = AuthState(isLoggedIn: bool, user: Option<UserInfo>)

  /** The object given to `setAuthState`: a key that is present overwrites, an absent key keeps the old value. */
  datatype AuthPatch = AuthPatch(isLoggedIn: Option<bool>, user: Option<Option<UserInfo>>)

  const InitialChatId: string := "1"

  /** The placeholder conversation the store starts with; `now` is the clock at start-up. */
  function InitialChat(now: int): Chat
  {
    Chat(InitialChatId, "Initial Conversation", InitialMessages(now), now)
  }

  const InitialQuestionText: string := "Hello, can you help me understand how to build a Next.js frontend?"
  const InitialAnswerText: string := "I'd be happy to! Building a Next.js frontend involves using React components, routing, and typically styling with Tailwind CSS. We're currently following a plan to cover state management with Zustand and forms with react-hook-form. What part are you most interested in learning about first?"

  /** The two placeholder messages of the initial chat, a user question and an AI answer. */
  function InitialMessages(now: int): seq<Message>
  {
    [ Message("1u", InitialQuestionText,
        UserRole, now - 50000, TextMessage, None),
      Message("1a", InitialAnswerText,
        AiRole, now - 40000, TextMessage, None) ]
  }

  /** `localStorage.getItem("theme") || "dark"`; `stored` is `None` when nothing is stored or there is no window. */
  function InitialTheme(stored: Option<string>): (t: string)
    ensures t != ""
    ensures stored.Some? && stored.value != "" ==> t == stored.value
    ensures (stored.None? || stored.value == "") ==> t == "dark"
  {
    if stored.Some? && stored.value != "" then stored.value else "dark"
  }

  /** The theme after a toggle: "dark" becomes "light", anything else becomes "dark". */
  function ToggledTheme(t: string): (r: string)
    ensures r == "light" || r == "dark"
    ensures r == "light" <==> t == "dark"
  {
    if t == "dark" then "light" else "dark"
  }

  /** The initial collection holds exactly one chat, with id "1", so the initial active id "1" exists. */
  lemma InitialStateValid(now: int)
    ensures ActiveRefValid([InitialChat(now)], Some(InitialChatId))
    ensures UniqueIds([InitialChat(now)])
  {
    var chats := [InitialChat(now)];
    assert chats[0].id == InitialChatId;
  }

  /** Toggling twice restores "dark" and "light"; any other stored value ends as "light", not as itself. */
  lemma ToggleTwice(t: string)
    ensures t == "dark" || t == "light" ==> ToggledTheme(ToggledTheme(t)) == t
    ensures t != "dark" && t != "light" ==> ToggledTheme(ToggledTheme(t)) == "light" != t
  {
  }

  /** `{ ...state.authState, ...patch }`. */
  function MergeAuth(s: AuthState, p: AuthPatch): (r: AuthState)
    ensures p.isLoggedIn.Some? ==> r.isLoggedIn == p.isLoggedIn.value
    ensures p.isLoggedIn.None? ==> r.isLoggedIn == s.isLoggedIn
    ensures p.user.Some? ==> r.user == p.user.value
    ensures p.user.None? ==> r.user == s.user
  {
    AuthState(
      if p.isLoggedIn.Some? then p.isLoggedIn.value else s.isLoggedIn,
      if p.user.Some? then p.user.value else s.user)
  }

  predicate HasChat(chats: seq<Chat>, id: string)
  {
    exists i :: 0 <= i < |chats| && chats[i].id == id
  }

  /** The store's invariant: the active id is null or names a chat of the collection. */
  predicate ActiveRefValid(chats: seq<Chat>, active: Option<string>)
  {
    active.None? || HasChat(chats, active.value)
  }

  predicate UniqueIds(chats: seq<Chat>)
  {
    forall i, j :: 0 <= i < j < |chats| ==> chats[i].id != chats[j].id
  }

  function CountWithId(chats: seq<Chat>, id: string): (n: nat)
    ensures n <= |chats|
  {
    if chats == [] then 0 else (if chats[0].id == id then 1 else 0) + CountWithId(chats[1..], id)
  }

  /** `chats.filter(chat => chat.id !== id)`. */
  function RemoveChat(chats: seq<Chat>, id: string): (r: seq<Chat>)
    ensures forall i :: 0 <= i < |r| ==> r[i].id != id
    ensures forall c :: c in chats && c.id != id ==> c in r
    ensures |r| == |chats| - CountWithId(chats, id)
    ensures IsSubsequence(r, chats)
  {
    if chats == [] then []
    else if chats[0].id == id then
      var r := RemoveChat(chats[1..], id);
      SubsequenceOfCons(r, chats[0], chats[1..]);
      assert [chats[0]] + chats[1..] == chats;
      r
    else
      var rest := RemoveChat(chats[1..], id);
      var r := [chats[0]] + rest;
      assert r[1..] == rest;
      r
  }

  /** Deleting an id that no chat has leaves the collection as it was. */
  lemma {:induction false} RemoveAbsentIsIdentity(chats: seq<Chat>, id: string)
    requires !HasChat(chats, id)
    ensures RemoveChat(chats, id) == chats
  {
    if chats != [] {
      assert !HasChat(chats[1..], id) by {
        forall i | 0 <= i < |chats[1..]| ensures chats[1..][i].id != id {
          assert chats[1..][i] == chats[i + 1];
        }
      }
      RemoveAbsentIsIdentity(chats[1..], id);
    }
  }

  /** Removing chats keeps the ids of the remaining ones distinct. */
  lemma {:induction false} RemoveKeepsUniqueIds(chats: seq<Chat>, id: string)
    requires UniqueIds(chats)
    ensures UniqueIds(RemoveChat(chats, id))
  {
    if chats != [] {
      RemoveKeepsUniqueIds(chats[1..], id);
      var rest := RemoveChat(chats[1..], id);
      SubsequenceMembers(rest, chats[1..]);
      if chats[0].id != id {
        var r := [chats[0]] + rest;
        forall j | 0 < j < |r| ensures r[0].id != r[j].id {
          assert r[j] in chats[1..];
        }
      }
    }
  }

  /** The active id after deleting `deleted` from the collection, `remaining` being what is left. */
  function ActiveAfterDelete(remaining: seq<Chat>, active: Option<string>, deleted: string): (r: Option<string>)
    ensures active != Some(deleted) ==> r == active
    ensures active == Some(deleted) && remaining != [] ==> r == Some(remaining[0].id)
    ensures active == Some(deleted) ==> (r.None? <==> remaining == [])
  {
    if active == Some(deleted) then
      if |remaining| > 0 then Some(remaining[0].id) else None
    else active
  }

  /** Deleting any chat keeps the invariant that the active id is null or exists. */
  lemma DeleteKeepsActiveValid(chats: seq<Chat>, active: Option<string>, id: string)
    requires ActiveRefValid(chats, active)
    ensures ActiveRefValid(RemoveChat(chats, id), ActiveAfterDelete(RemoveChat(chats, id), active, id))
  {
    var r := RemoveChat(chats, id);
    if active.Some? && active.value != id {
      var i :| 0 <= i < |chats| && chats[i].id == active.value;
      assert chats[i] in r;
      var j :| 0 <= j < |r| && r[j] == chats[i];
    }
  }

  /**
    `chats.map(chat => chat.id === id ? { ...chat, messages: [...chat.messages, m] } : chat)`:
    the message goes to the end of every chat with that id; every other chat is untouched.
  */
  function AppendToChat(chats: seq<Chat>, id: string, m: Message): (r: seq<Chat>)
    ensures |r| == |chats|
    ensures forall i :: 0 <= i < |chats| && chats[i].id != id ==> r[i] == chats[i]
    ensures forall i :: 0 <= i < |chats| && chats[i].id == id ==>
      r[i] == chats[i].(messages := chats[i].messages + [m])
  {
    if chats == [] then []
    else
      var head := if chats[0].id == id then chats[0].(messages := chats[0].messages + [m]) else chats[0];
      [head] + AppendToChat(chats[1..], id, m)
  }

  /** Appending never changes any chat's id, so both store invariants carry over. */
  lemma AppendKeepsIds(chats: seq<Chat>, id: string, m: Message, active: Option<string>)
    ensures forall i :: 0 <= i < |chats| ==> AppendToChat(chats, id, m)[i].id == chats[i].id
    ensures ActiveRefValid(chats, active) ==> ActiveRefValid(AppendToChat(chats, id, m), active)
    ensures UniqueIds(chats) ==> UniqueIds(AppendToChat(chats, id, m))
  {
    var r := AppendToChat(chats, id, m);
    assert forall i :: 0 <= i < |chats| ==> r[i].id == chats[i].id;
    if active.Some? && HasChat(chats, active.value) {
      var i :| 0 <= i < |chats| && chats[i].id == active.value;
      assert r[i].id == active.value;
    }
  }

  /** Appending to an id no chat has changes nothing. */
  lemma AppendUnmatchedIsIdentity(chats: seq<Chat>, id: string, m: Message)
    requires !HasChat(chats, id)
    ensures AppendToChat(chats, id, m) == chats
  {
    var r := AppendToChat(chats, id, m);
    assert forall i :: 0 <= i < |chats| ==> chats[i].id != id;
    assert forall i :: 0 <= i < |chats| ==> r[i] == chats[i];
  }

  /** Appending the messages of `ms` one after the other. */
  function AppendAll(chats: seq<Chat>, id: string, ms: seq<Message>): seq<Chat>
    decreases |ms|
  {
    if ms == [] then chats else AppendAll(AppendToChat(chats, id, ms[0]), id, ms[1..])
  }

  /** Messages are append-only: after N appends a matching chat ends with exactly those N messages, in order. */
  lemma {:induction false} AppendAllInOrder(chats: seq<Chat>, id: string, ms: seq<Message>)
    ensures |AppendAll(chats, id, ms)| == |chats|
    ensures forall i :: 0 <= i < |chats| ==>
      AppendAll(chats, id, ms)[i] ==
        if chats[i].id == id then chats[i].(messages := chats[i].messages + ms) else chats[i]
    decreases |ms|
  {
    if ms != [] {
      var next := AppendToChat(chats, id, ms[0]);
      AppendAllInOrder(next, id, ms[1..]);
      forall i | 0 <= i < |chats| && chats[i].id == id
        ensures chats[i].messages + [ms[0]] + ms[1..] == chats[i].messages + ms
      {
        assert [ms[0]] + ms[1..] == ms;
      }
    }
  }

  /** Adding a chat whose id is new keeps all ids distinct. */
  lemma AddChatKeepsUniqueIds(chats: seq<Chat>, c: Chat)
    requires UniqueIds(chats) && !HasChat(chats, c.id)
    ensures UniqueIds([c] + chats)
  {
    var r := [c] + chats;
    forall i, j | 0 <= i < j < |r| ensures r[i].id != r[j].id {
      assert r[j] == chats[j - 1];
      if i > 0 {
        assert r[i] == chats[i - 1];
      }
    }
  }

  /** The store's state; each action below is one `set` call of the source. */
  class AppStore {
    var authState: AuthState
    var theme: string
    /** What `localStorage` holds under "theme"; it is only written, never read back after start-up. */
    ghost var storedTheme: Option<string>
    var isSidebarOpen: bool
    var isAiTyping: bool
    var chats: seq<Chat>
    var activeChatId: Option<string>

    ghost predicate ActiveValid()
      reads this
    {
      ActiveRefValid(chats, activeChatId)
    }

    /** The initial state: logged out, the stored (or dark) theme, and the one placeholder chat, active. */
    constructor(stored: Option<string>, now: int)
      ensures authState == AuthState(false, None)
      ensures theme == InitialTheme(stored) && storedTheme == stored
      ensures !isSidebarOpen && !isAiTyping
      ensures chats == [InitialChat(now)] && activeChatId == Some(InitialChatId)
      ensures ActiveValid() && UniqueIds(chats)
    {
      authState := AuthState(false, None);
      theme := InitialTheme(stored);
      storedTheme := stored;
      isSidebarOpen := false;
      isAiTyping := false;
      chats := [InitialChat(now)];
      activeChatId := Some(InitialChatId);
      InitialStateValid(now);
    }

    method SetAuthState(patch: AuthPatch)
      modifies this`authState
      ensures authState == MergeAuth(old(authState), patch)
    {
      authState := MergeAuth(authState, patch);
    }

    /** Flips the theme and persists the new value. */
    method ToggleTheme()
      modifies this`theme, this`storedTheme
      ensures theme == ToggledTheme(old(theme))
      ensures storedTheme == Some(theme)
    {
      theme := ToggledTheme(theme);
      storedTheme := Some(theme);
    }

    method ToggleSidebar()
      modifies this`isSidebarOpen
      ensures isSidebarOpen == !old(isSidebarOpen)
    {
      isSidebarOpen := !isSidebarOpen;
    }

    method SetAiTyping(typing: bool)
      modifies this`isAiTyping
      ensures isAiTyping == typing
    {
      isAiTyping := typing;
    }

    /** Stores the id as given: nothing checks that a chat has it, so the invariant holds only if it does. */
    method SetActiveChatId(id: Option<string>)
      modifies this`activeChatId
      ensures activeChatId == id
      ensures ActiveValid() <==> ActiveRefValid(chats, id)
    {
      activeChatId := id;
    }

    /** Puts the chat at the head of the collection and makes it active. */
    method AddChat(c: Chat)
      modifies this`chats, this`activeChatId
      ensures chats == [c] + old(chats)
      ensures activeChatId == Some(c.id)
      ensures ActiveValid()
    {
      chats := [c] + chats;
      activeChatId := Some(c.id);
      assert chats[0].id == c.id;
    }

    /** Drops every chat with the id; if it was the active one, the first remaining chat (or none) becomes active. */
    method DeleteChat(id: string)
      modifies this`chats, this`activeChatId
      ensures chats == RemoveChat(old(chats), id)
      ensures activeChatId == ActiveAfterDelete(chats, old(activeChatId), id)
      ensures old(ActiveValid()) || old(activeChatId) == Some(id) ==> ActiveValid()
    {
      var updated := RemoveChat(chats, id);
      var newActive := activeChatId;
      if Some(id) == activeChatId {
        newActive := if |updated| > 0 then Some(updated[0].id) else None;
      }
      if ActiveRefValid(chats, activeChatId) {
        DeleteKeepsActiveValid(chats, activeChatId, id);
      }
      chats, activeChatId := updated, newActive;
      assert |chats| > 0 ==> chats[0].id == updated[0].id;
    }

    /** Appends the message to the chats with that id; an unknown id changes nothing. */
    method AddMessage(chatId: string, m: Message)
      modifies this`chats
      ensures chats == AppendToChat(old(chats), chatId, m)
      ensures old(ActiveValid()) ==> ActiveValid()
      ensures UniqueIds(old(chats)) ==> UniqueIds(chats)
    {
      AppendKeepsIds(chats, chatId, m, activeChatId);
      chats := AppendToChat(chats, chatId, m);
    }
  }
}
