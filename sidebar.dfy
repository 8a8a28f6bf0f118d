/** The sidebar's "New Chat" button (components/Sidebar.js, `handleNewChat`). */
module Sidebar {
  import opened Wrappers
  import opened Strings
  import opened Store

  /**
    The chat record `handleNewChat` builds. The source reads the clock twice:
    `idNow` for the id (`Date.now().toString()`), `createdNow` for `createdAt`.
  */
  function NewChat(idNow: nat, createdNow: nat): (c: Chat)
    ensures c.title == "New Chat" && c.messages == [] && c.createdAt == createdNow
    ensures c.id == NatToString(idNow) && AllDigits(c.id)
  {
    Chat(NatToString(idNow), "New Chat", [], createdNow)
  }

  /** Chats created at different clock readings get different ids. */
  lemma NewChatIdsDistinct(t1: nat, t2: nat, c1: nat, c2: nat)
    requires t1 != t2
    ensures NewChat(t1, c1).id != NewChat(t2, c2).id
  {
    NatToStringInjective(t1, t2);
  }

  /** The ids stay distinct when every existing chat was created by this button at an earlier clock reading. */
  lemma NewChatAfterEarlierChatsKeepsIds(chats: seq<Chat>, readings: seq<nat>, idNow: nat, createdNow: nat)
    requires UniqueIds(chats) && |readings| == |chats|
    requires forall i :: 0 <= i < |chats| ==> chats[i].id == NatToString(readings[i]) && readings[i] < idNow
    ensures UniqueIds([NewChat(idNow, createdNow)] + chats)
  {
    var c := NewChat(idNow, createdNow);
    forall i | 0 <= i < |chats| ensures chats[i].id != c.id {
      NatToStringInjective(readings[i], idNow);
    }
    AddChatKeepsUniqueIds(chats, c);
  }

  /**
    `handleNewChat`: the new chat goes to the head of the list and becomes
    active; an open sidebar is closed, a closed one stays closed.
  */
  method HandleNewChat(store: AppStore, idNow: nat, createdNow: nat)
    modifies store`chats, store`activeChatId, store`isSidebarOpen
    ensures store.chats == [NewChat(idNow, createdNow)] + old(store.chats)
    ensures store.activeChatId == Some(NatToString(idNow))
    ensures !store.isSidebarOpen
    ensures store.ActiveValid()
  {
    var newChat := NewChat(idNow, createdNow);
    store.AddChat(newChat);
    if store.isSidebarOpen {
      store.ToggleSidebar();
    }
  }
}
