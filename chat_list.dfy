/**
  The sidebar's chat list (components/ChatList.js): the case-insensitive search
  filter and the title shown for each chat.
*/
module ChatList {
  import opened Strings
  import opened Sequences
  import opened Store

  /**
    The filter test for one chat: the lower-cased title includes the lower-cased
    filter; failing that, the first message's text does, when it is non-empty;
    failing that, only the empty filter keeps the chat.
  */
  predicate Matches(c: Chat, filterText: string): (b: bool)
    ensures b && Lower(filterText) != "" ==>
      (c.title != "" && Includes(Lower(c.title), Lower(filterText)))
      || (|c.messages| > 0 && Includes(Lower(c.messages[0].text), Lower(filterText)))
    ensures c.title != "" && Includes(Lower(c.title), Lower(filterText)) ==> b
    ensures (|c.messages| > 0 && c.messages[0].text != ""
             && Includes(Lower(c.messages[0].text), Lower(filterText))) ==> b
    ensures Lower(filterText) == "" ==> b
  {
    var f := Lower(filterText);
    if c.title != "" && Includes(Lower(c.title), f) then true
    else if |c.messages| > 0 && c.messages[0].text != "" then Includes(Lower(c.messages[0].text), f)
    else f == ""
  }

  /** `allChats.filter(...)`: the matching chats, in their original order. */
  function Filtered(chats: seq<Chat>, filterText: string): (r: seq<Chat>)
    ensures IsSubsequence(r, chats)
    ensures forall c :: c in r ==> Matches(c, filterText)
    ensures forall c :: c in chats && Matches(c, filterText) ==> c in r
    ensures forall c :: multiset(r)[c] == if Matches(c, filterText) then multiset(chats)[c] else 0
  {
    if chats == [] then []
    else
      var rest := Filtered(chats[1..], filterText);
      SubsequenceMembers(rest, chats[1..]);
      assert [chats[0]] + chats[1..] == chats;
      assert multiset(chats) == multiset{chats[0]} + multiset(chats[1..]);
      if Matches(chats[0], filterText) then
        var r := [chats[0]] + rest;
        assert r[1..] == rest;
        r
      else
        SubsequenceOfCons(rest, chats[0], chats[1..]);
        assert [chats[0]] + chats[1..] == chats;
        rest
  }

  /** The empty filter keeps every chat. */
  lemma EmptyFilterMatchesAll(c: Chat)
    ensures Matches(c, "")
  {
    IncludesEmpty(Lower(c.title));
  }

  /** The empty filter returns the whole list, in order. */
  lemma {:induction false} EmptyFilterKeepsAll(chats: seq<Chat>)
    ensures Filtered(chats, "") == chats
  {
    if chats != [] {
      EmptyFilterMatchesAll(chats[0]);
      EmptyFilterKeepsAll(chats[1..]);
      assert [chats[0]] + chats[1..] == chats;
    }
  }

  /** Only the first message takes part in the match: later messages never change the outcome. */
  lemma OnlyFirstMessageCounts(c: Chat, first: Message, later: seq<Message>, later': seq<Message>, filterText: string)
    ensures Matches(c.(messages := [first] + later), filterText) == Matches(c.(messages := [first] + later'), filterText)
  {
  }

  /** With a non-empty filter, a chat whose title does not match and whose first text is empty or absent is excluded. */
  lemma NoTextNoTitleMatchExcluded(c: Chat, filterText: string)
    requires filterText != ""
    requires !(c.title != "" && Includes(Lower(c.title), Lower(filterText)))
    requires |c.messages| == 0 || c.messages[0].text == ""
    ensures !Matches(c, filterText)
  {
  }

  const TitleLength: nat := 25

  /** `text.substring(0, 25) + (text.length > 25 ? "..." : "")`. */
  function Truncated(text: string): (r: string)
    ensures r == "" <==> text == ""
    ensures |text| <= TitleLength ==> r == text
    ensures |text| > TitleLength ==> |r| == TitleLength + 3 && r[..TitleLength] == text[..TitleLength] && r[TitleLength..] == "..."
  {
    if |text| > TitleLength then text[..TitleLength] + "..." else text
  }

  /**
    The list entry's title as the source computes it. `+` binds tighter than
    `||`, so the whole concatenation is tested for truthiness; with no messages
    the optional chain yields `undefined`, and `undefined + ""` is the string
    "undefined", which is truthy.
  */
  function DisplayTitle(c: Chat): (r: string)
    ensures |c.messages| == 0 ==> r == "undefined"
    ensures |c.messages| > 0 && c.messages[0].text != "" ==> r == Truncated(c.messages[0].text)
    ensures |c.messages| > 0 && c.messages[0].text == "" ==> r == (if c.title != "" then c.title else "New Chat")
  {
    var head := if |c.messages| == 0 then "undefined" else Truncated(c.messages[0].text);
    if head != "" then head else if c.title != "" then c.title else "New Chat"
  }

  /** As written, a freshly created chat (no messages, title "New Chat") is listed as "undefined". */
  lemma NewChatListedAsUndefined(id: string, createdAt: int)
    ensures DisplayTitle(Chat(id, "New Chat", [], createdAt)) == "undefined"
  {
  }

  /** The evidently intended title: the truncated first text if there is one, else the title, else "New Chat". */
  function IntendedDisplayTitle(c: Chat): (r: string)
    ensures r != ""
    ensures |c.messages| > 0 && c.messages[0].text != "" ==> r == Truncated(c.messages[0].text)
    ensures (|c.messages| == 0 || c.messages[0].text == "") ==> r == (if c.title != "" then c.title else "New Chat")
  {
    if |c.messages| > 0 && c.messages[0].text != "" then Truncated(c.messages[0].text)
    else if c.title != "" then c.title else "New Chat"
  }

  /** The two titles agree on every chat that has a message, and differ only on chats without messages. */
  lemma TitlesAgreeWithMessages(c: Chat)
    ensures |c.messages| > 0 ==> DisplayTitle(c) == IntendedDisplayTitle(c)
    ensures |c.messages| == 0 ==> IntendedDisplayTitle(c) == (if c.title != "" then c.title else "New Chat")
  {
  }
}
