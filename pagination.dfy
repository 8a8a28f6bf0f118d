/**
  The message window of the chat pane (components/ChatArea.js): a suffix of the
  active chat's messages, 20 per page, that grows backwards when the user
  scrolls to the top ("load older"), and the page/fetch bookkeeping kept in the
  component's state and refs.
*/
module Pagination {
  import opened Wrappers
  import opened Sequences
  import opened Store

  const MessagesPerPage: nat := 20

  function Min(a: int, b: int): int { if a <= b then a else b }

  /** `chats.find(chat => chat.id === activeChatId)`'s messages, or `[]` when no chat matches. */
  function ActiveMessages(chats: seq<Chat>, active: Option<string>): (r: seq<Message>)
    ensures active.None? || !HasChat(chats, active.value) ==> r == []
    ensures active.Some? && HasChat(chats, active.value) ==>
      exists i :: 0 <= i < |chats| && chats[i].id == active.value && r == chats[i].messages
        && forall j :: 0 <= j < i ==> chats[j].id != active.value
  {
    if active.None? || chats == [] then []
    else if chats[0].id == active.value then chats[0].messages
    else
      var r := ActiveMessages(chats[1..], active);
      assert HasChat(chats, active.value) ==> HasChat(chats[1..], active.value) by {
        if HasChat(chats, active.value) {
          var i :| 0 <= i < |chats| && chats[i].id == active.value;
          assert chats[1..][i - 1] == chats[i];
        }
      }
      if HasChat(chats[1..], active.value) then
        var i :| 0 <= i < |chats[1..]| && chats[1..][i].id == active.value && r == chats[1..][i].messages
          && forall j :: 0 <= j < i ==> chats[1..][j].id != active.value;
        assert chats[i + 1] == chats[1..][i];
        assert forall j :: 1 <= j < i + 1 ==> chats[j] == chats[1..][j - 1];
        r
      else r
  }

  /** `Math.max(0, total - page * MESSAGES_PER_PAGE)`. */
  function StartIndex(total: nat, page: nat): (r: nat)
    ensures r <= total
    ensures r == 0 <==> total <= page * MessagesPerPage
    ensures r > 0 ==> r + page * MessagesPerPage == total
  {
    if total - page * MessagesPerPage > 0 then total - page * MessagesPerPage else 0
  }

  /** `allMessages.slice(startIndex, total)`: the last `page * 20` messages, or all of them. */
  function Displayed<T>(all: seq<T>, page: nat): (r: seq<T>)
    ensures IsSuffix(r, all)
    ensures |r| == Min(|all|, page * MessagesPerPage)
  {
    all[StartIndex(|all|, page)..]
  }

  /** `startIndex > 0`. */
  function HasMore(total: nat, page: nat): (b: bool)
    ensures b <==> total > page * MessagesPerPage
  {
    StartIndex(total, page) > 0
  }

  /** A later page only extends the window towards older messages: the old window is a suffix of the new one. */
  lemma WindowGrowsBackwards<T>(all: seq<T>, p: nat, q: nat)
    requires p <= q
    ensures IsSuffix(Displayed(all, p), Displayed(all, q))
    ensures |Displayed(all, p)| <= |Displayed(all, q)|
  {
    var a, b := Displayed(all, p), Displayed(all, q);
    assert p * MessagesPerPage <= q * MessagesPerPage;
    assert a == all[|all| - |a|..];
    assert b == all[|all| - |b|..];
    assert b[|b| - |a|..] == all[|all| - |a|..];
  }

  /** With no active chat the list is empty: nothing is displayed and there is nothing older to load. */
  lemma NoActiveChatShowsNothing(chats: seq<Chat>, page: nat)
    ensures Displayed(ActiveMessages(chats, None), page) == []
    ensures !HasMore(|ActiveMessages(chats, None)|, page)
  {
  }

  /** 45 messages: pages 1, 2 and 3 show the last 20, the last 40 and all 45; only page 3 has nothing more. */
  lemma FortyFiveMessages<T>(all: seq<T>)
    requires |all| == 45
    ensures Displayed(all, 1) == all[25..] && HasMore(45, 1)
    ensures Displayed(all, 2) == all[5..] && HasMore(45, 2)
    ensures Displayed(all, 3) == all && !HasMore(45, 3)
  {
  }

  /**
    The component's pagination state: `messagePage`, `isFetchingOlder`, the refs
    `isInitialLoad` and `prevScrollHeightRef`, and how many `setTimeout(…, 500)`
    page bumps are still to fire.
  */
  datatype ViewState = ViewState(page: nat, isFetchingOlder: bool, isInitialLoad: bool,
                                 prevScrollHeight: int, pendingPageTimers: nat)

  const InitialView: ViewState := ViewState(1, false, true, 0, 0)

  /** The four conditions under which `loadNextPage` does anything. */
  predicate CanLoadOlder(s: ViewState, total: nat, aiTyping: bool, container: Option<int>): (b: bool)
    ensures b <==> total > s.page * MessagesPerPage && !aiTyping && container.Some? && !s.isFetchingOlder
  {
    HasMore(total, s.page) && !aiTyping && container.Some? && !s.isFetchingOlder
  }

  /**
    `loadNextPage`; `container` is the message container's `scrollHeight`, `None`
    when the container is not mounted. It marks a fetch in flight, remembers the
    height and schedules one page bump; the page itself changes only when the timer fires.
  */
  function AfterLoadNextPage(s: ViewState, total: nat, aiTyping: bool, container: Option<int>): (r: ViewState)
    ensures !CanLoadOlder(s, total, aiTyping, container) ==> r == s
    ensures CanLoadOlder(s, total, aiTyping, container) ==>
      r.isFetchingOlder && r.prevScrollHeight == container.value
      && r.pendingPageTimers == s.pendingPageTimers + 1
      && r.page == s.page && r.isInitialLoad == s.isInitialLoad
  {
    if CanLoadOlder(s, total, aiTyping, container) then
      s.(isFetchingOlder := true, prevScrollHeight := container.value,
         pendingPageTimers := s.pendingPageTimers + 1)
    else s
  }

  /** The throttled scroll handler's body: near the top (`scrollTop < 50`) it calls `loadNextPage`. */
  function AfterScroll(s: ViewState, scrollTop: int, total: nat, aiTyping: bool, container: Option<int>): (r: ViewState)
    ensures scrollTop >= 50 ==> r == s
    ensures scrollTop < 50 ==> r == AfterLoadNextPage(s, total, aiTyping, container)
    ensures r != s ==> scrollTop < 50 && CanLoadOlder(s, total, aiTyping, container)
  {
    if scrollTop < 50 then AfterLoadNextPage(s, total, aiTyping, container) else s
  }

  /** The scheduled `setMessagePage(prev => prev + 1)` firing. */
  function AfterPageTimer(s: ViewState): (r: ViewState)
    requires s.pendingPageTimers > 0
    ensures r.page == s.page + 1 && r.pendingPageTimers == s.pendingPageTimers - 1
    ensures r.isFetchingOlder == s.isFetchingOlder && r.prevScrollHeight == s.prevScrollHeight
    ensures r.isInitialLoad == s.isInitialLoad
  {
    s.(page := s.page + 1, pendingPageTimers := s.pendingPageTimers - 1)
  }

  /**
    The effect keyed on the message count: with the container mounted, a saved
    height ends the fetch (clearing the height and `isFetchingOlder`), and the
    first non-empty count ends the initial load.
  */
  function AfterMessageCountChange(s: ViewState, total: nat, containerMounted: bool): (r: ViewState)
    ensures !containerMounted ==> r == s
    ensures containerMounted && s.prevScrollHeight > 0 ==> !r.isFetchingOlder && r.prevScrollHeight == 0
    ensures s.prevScrollHeight <= 0 ==> r.isFetchingOlder == s.isFetchingOlder && r.prevScrollHeight == s.prevScrollHeight
    ensures r.isInitialLoad <==> s.isInitialLoad && !(containerMounted && total > 0)
    ensures r.page == s.page && r.pendingPageTimers == s.pendingPageTimers
  {
    if !containerMounted then s
    else
      var anchored := if s.prevScrollHeight > 0 then s.(prevScrollHeight := 0, isFetchingOlder := false) else s;
      if anchored.isInitialLoad && total > 0 then anchored.(isInitialLoad := false) else anchored
  }

  /** The effect keyed on the active chat id: back to page 1 and a fresh initial load; the fetch flag and timers stay. */
  function AfterChatChange(s: ViewState): (r: ViewState)
    ensures r.page == 1 && r.isInitialLoad && r.prevScrollHeight == 0
    ensures r.isFetchingOlder == s.isFetchingOlder && r.pendingPageTimers == s.pendingPageTimers
  {
    s.(page := 1, isInitialLoad := true, prevScrollHeight := 0)
  }

  /**
    A switch of the active chat, as one commit. When the new chat's message
    count differs from the old one's, both effects run, the count effect first
    because it is declared first; otherwise only the reset effect runs.
  */
  function AfterSwitch(s: ViewState, countChanged: bool, total: nat, containerMounted: bool): (r: ViewState)
    ensures r.page == 1 && r.isInitialLoad && r.prevScrollHeight == 0 && r.pendingPageTimers == s.pendingPageTimers
    ensures countChanged && containerMounted && s.prevScrollHeight > 0 ==> !r.isFetchingOlder
    ensures !(countChanged && containerMounted && s.prevScrollHeight > 0) ==> r.isFetchingOlder == s.isFetchingOlder
  {
    AfterChatChange(if countChanged then AfterMessageCountChange(s, total, containerMounted) else s)
  }

  /** A fetch flag left set with no saved height: the one state the count effect can no longer repair. */
  predicate Stranded(s: ViewState)
  {
    s.isFetchingOlder && s.prevScrollHeight == 0
  }

  /**
    As written, switching during a fetch to a chat with the same message count
    strands the flag: the reset effect drops the saved height but keeps
    `isFetchingOlder`, and from then on no handler, timer or effect clears it,
    so "load older" never starts again while the pane stays mounted.
  */
  lemma {:induction false} SwitchKeepingCountStrandsFetch(s: ViewState, total: nat, containerMounted: bool)
    requires s.isFetchingOlder
    ensures Stranded(AfterSwitch(s, false, total, containerMounted))
  {
  }

  /** Every step keeps a stranded state stranded, and "load older" does nothing in it. */
  lemma StrandedIsPermanent(s: ViewState, total: nat, aiTyping: bool, container: Option<int>, top: int,
                            countChanged: bool, mounted: bool)
    requires Stranded(s)
    ensures !CanLoadOlder(s, total, aiTyping, container)
    ensures AfterScroll(s, top, total, aiTyping, container) == s
    ensures s.pendingPageTimers > 0 ==> Stranded(AfterPageTimer(s))
    ensures Stranded(AfterMessageCountChange(s, total, mounted))
    ensures Stranded(AfterSwitch(s, countChanged, total, mounted))
  {
  }

  /**
    The evidently intended reset: a chat switch also ends any fetch of the
    previous chat, so the new chat can load older messages.
  */
  function AfterChatChangeIntended(s: ViewState): (r: ViewState)
    ensures r.page == 1 && r.isInitialLoad && r.prevScrollHeight == 0 && !r.isFetchingOlder
    ensures r.pendingPageTimers == s.pendingPageTimers
  {
    s.(page := 1, isInitialLoad := true, prevScrollHeight := 0, isFetchingOlder := false)
  }

  /** Under the intended reset, whatever state the switch interrupts, the new chat can load older messages when it has any. */
  lemma IntendedSwitchAllowsLoading(s: ViewState, total: nat, height: int)
    requires total > MessagesPerPage
    ensures !Stranded(AfterChatChangeIntended(s))
    ensures CanLoadOlder(AfterChatChangeIntended(s), total, false, Some(height))
  {
  }

  /**
    Once a fetch is in flight, only the message-count effect can end it: loading,
    scrolling, the page timer and the reset effect on its own all leave
    `isFetchingOlder` set.
  */
  lemma FetchFlagClearedOnlyByCountChange(s: ViewState, total: nat, aiTyping: bool, container: Option<int>, top: int)
    requires s.isFetchingOlder
    ensures AfterLoadNextPage(s, total, aiTyping, container) == s
    ensures AfterScroll(s, top, total, aiTyping, container) == s
    ensures s.pendingPageTimers > 0 ==> AfterPageTimer(s).isFetchingOlder
    ensures AfterChatChange(s).isFetchingOlder
  {
  }

  /**
    As written, the second "load older" never happens: after the first page bump
    the message count is unchanged, the count effect does not run, and
    `isFetchingOlder` stays set. With 45 messages the window stops at 40.
  */
  lemma SecondLoadIsBlocked(height: int, height': int)
    requires height > 0
    ensures var mounted := AfterMessageCountChange(InitialView, 45, true);
            var loading := AfterScroll(mounted, 0, 45, false, Some(height));
            var bumped := AfterPageTimer(loading);
            bumped.page == 2 && bumped.isFetchingOlder && HasMore(45, bumped.page)
            && AfterScroll(bumped, 0, 45, false, Some(height')) == bumped
  {
  }

  /** A page timer scheduled before a switch to a chat of the same size still fires afterwards and bumps the new chat to page 2. */
  lemma StaleTimerBumpsNextChat(height: int)
    requires height > 0
    ensures var loading := AfterLoadNextPage(InitialView, 45, false, Some(height));
            var switched := AfterSwitch(loading, false, 45, true);
            AfterPageTimer(switched).page == 2 && AfterPageTimer(switched).isFetchingOlder
  {
  }

  /**
    The evidently intended behaviour: the anchoring step also runs once the
    window has grown, so the fetch ends when the new page is shown.
  */
  function AfterPageTimerAnchored(s: ViewState, containerMounted: bool): (r: ViewState)
    requires s.pendingPageTimers > 0
    ensures r.page == s.page + 1 && r.pendingPageTimers == s.pendingPageTimers - 1
    ensures containerMounted && s.prevScrollHeight > 0 ==> !r.isFetchingOlder && r.prevScrollHeight == 0
  {
    var bumped := AfterPageTimer(s);
    if containerMounted && bumped.prevScrollHeight > 0 then
      bumped.(prevScrollHeight := 0, isFetchingOlder := false)
    else bumped
  }

  /** One intended "load older" round: the user reaches the top and, if a load started, its timer fires. */
  function IntendedRound(s: ViewState, total: nat, height: int): ViewState
  {
    var loading := AfterScroll(s, 0, total, false, Some(height));
    if loading.pendingPageTimers > s.pendingPageTimers then AfterPageTimerAnchored(loading, true) else loading
  }

  function IntendedRounds(s: ViewState, total: nat, height: int, k: nat): ViewState
    decreases k
  {
    if k == 0 then s else IntendedRounds(IntendedRound(s, total, height), total, height, k - 1)
  }

  /** Under the intended rules every round either shows one more page or there is nothing older left. */
  lemma {:induction false} IntendedRoundsAdvance(s: ViewState, total: nat, height: int, k: nat)
    requires height > 0 && !s.isFetchingOlder
    ensures var r := IntendedRounds(s, total, height, k);
            !r.isFetchingOlder && r.pendingPageTimers == s.pendingPageTimers
            && (r.page == s.page + k || !HasMore(total, r.page))
    decreases k
  {
    if k > 0 {
      var next := IntendedRound(s, total, height);
      IntendedRoundsAdvance(next, total, height, k - 1);
      if !HasMore(total, s.page) {
        assert next == s;
        NoMoreStaysNoMore(s, total, height, k - 1);
      }
    }
  }

  lemma {:induction false} NoMoreStaysNoMore(s: ViewState, total: nat, height: int, k: nat)
    requires !HasMore(total, s.page)
    ensures IntendedRounds(s, total, height, k) == s
    decreases k
  {
    if k > 0 {
      assert IntendedRound(s, total, height) == s;
      NoMoreStaysNoMore(s, total, height, k - 1);
    }
  }

  /** Under the intended rules, `total / 20` rounds from page 1 reveal every message (45 messages: two rounds). */
  lemma IntendedRoundsRevealAll<T>(all: seq<T>, height: int)
    requires height > 0
    ensures var r := IntendedRounds(InitialView, |all|, height, |all| / MessagesPerPage);
            !HasMore(|all|, r.page) && Displayed(all, r.page) == all
  {
    var k := |all| / MessagesPerPage;
    IntendedRoundsAdvance(InitialView, |all|, height, k);
    var r := IntendedRounds(InitialView, |all|, height, k);
    if r.page == 1 + k {
      assert (1 + k) * MessagesPerPage > |all|;
    }
  }

  /** The component's pagination state, updated step by step by its handlers and effects. */
  class PaginationView {
    var messagePage: nat
    var isFetchingOlder: bool
    var isInitialLoad: bool
    var prevScrollHeight: int
    var pendingPageTimers: nat

    function State(): ViewState
      reads this
    {
      ViewState(messagePage, isFetchingOlder, isInitialLoad, prevScrollHeight, pendingPageTimers)
    }

    constructor()
      ensures State() == InitialView
    {
      messagePage := 1;
      isFetchingOlder := false;
      isInitialLoad := true;
      prevScrollHeight := 0;
      pendingPageTimers := 0;
    }

    method LoadNextPage(total: nat, aiTyping: bool, container: Option<int>)
      modifies this
      ensures State() == AfterLoadNextPage(old(State()), total, aiTyping, container)
    {
      if HasMore(total, messagePage) && !aiTyping && container.Some? && !isFetchingOlder {
        isFetchingOlder := true;
        prevScrollHeight := container.value;
        pendingPageTimers := pendingPageTimers + 1;
      }
    }

    method HandleScroll(scrollTop: int, total: nat, aiTyping: bool, container: Option<int>)
      modifies this
      ensures State() == AfterScroll(old(State()), scrollTop, total, aiTyping, container)
    {
      if scrollTop < 50 {
        LoadNextPage(total, aiTyping, container);
      }
    }

    method FirePageTimer()
      requires pendingPageTimers > 0
      modifies this
      ensures State() == AfterPageTimer(old(State()))
    {
      messagePage := messagePage + 1;
      pendingPageTimers := pendingPageTimers - 1;
    }

    method OnMessageCountChange(total: nat, containerMounted: bool)
      modifies this
      ensures State() == AfterMessageCountChange(old(State()), total, containerMounted)
    {
      if !containerMounted {
        return;
      }
      if prevScrollHeight > 0 {
        prevScrollHeight := 0;
        isFetchingOlder := false;
      }
      if isInitialLoad && total > 0 {
        isInitialLoad := false;
      }
    }

    method OnActiveChatChange()
      modifies this
      ensures State() == AfterChatChange(old(State()))
    {
      messagePage := 1;
      isInitialLoad := true;
      prevScrollHeight := 0;
    }

    /** A chat switch: the count effect when the message count changed, then the reset effect. */
    method SwitchChat(countChanged: bool, total: nat, containerMounted: bool)
      modifies this
      ensures State() == AfterSwitch(old(State()), countChanged, total, containerMounted)
    {
      if countChanged {
        OnMessageCountChange(total, containerMounted);
      }
      OnActiveChatChange();
    }
  }
}
