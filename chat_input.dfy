/**
  The message composer (src/components/chat/ChatInput.js): the image picker,
  the submit rule, the user message it appends, and the simulated AI reply that
  a timer appends later. The clock (`Date.now()`), `Math.random()` and the
  timer are inputs: a submit records the pending reply, and `FireReply` is the
  timer going off.
*/
module ChatInput {
  import opened Wrappers
  import opened Strings
  import opened Store

  const MinDelay: int := 2000
  const MaxDelay: int := 5000

  /** `Math.floor(random * (maxDelay - minDelay + 1)) + minDelay`, where `random` is `Math.random()`. */
  function ThinkingTime(random: real): (t: int)
    requires 0.0 <= random < 1.0
    ensures MinDelay <= t <= MaxDelay
  {
    (random * (MaxDelay - MinDelay + 1) as real).Floor + MinDelay
  }

  /** Every delay of the range is drawn for some value of `Math.random()`. */
  lemma EveryDelayReachable(t: int)
    requires MinDelay <= t <= MaxDelay
    ensures ThinkingTime((t - MinDelay) as real / (MaxDelay - MinDelay + 1) as real) == t
  {
    var r := (t - MinDelay) as real / (MaxDelay - MinDelay + 1) as real;
    assert r * (MaxDelay - MinDelay + 1) as real == (t - MinDelay) as real;
  }

  /** The submit is refused when the trimmed text is empty and no image is attached. */
  predicate SubmitAccepted(text: string, image: Option<string>): (b: bool)
    ensures b <==> image.Some? || exists i :: 0 <= i < |text| && !IsJsSpace(text[i])
  {
    !(Trim(text) == "" && image.None?)
  }

  /** Text made only of white space, with no image, is refused; an attached image alone is enough. */
  lemma SubmitRule(text: string, image: Option<string>)
    ensures (forall i :: 0 <= i < |text| ==> IsJsSpace(text[i])) && image.None? ==> !SubmitAccepted(text, image)
    ensures image.Some? ==> SubmitAccepted(text, image)
    ensures (exists i :: 0 <= i < |text| && !IsJsSpace(text[i])) ==> SubmitAccepted(text, image)
  {
  }

  /** The user message of an accepted submit; `idNow` and `stampNow` are the two clock readings. */
  function UserMessage(messageText: string, image: Option<string>, idNow: nat, stampNow: nat): (m: Message)
    ensures m.role == UserRole && m.text == messageText && m.image == image
    ensures m.kind == ImageMessage <==> image.Some?
    ensures m.id == NatToString(idNow) + "u" && m.timestamp == stampNow
  {
    Message(NatToString(idNow) + "u", messageText, UserRole, stampNow,
            if image.Some? then ImageMessage else TextMessage, image)
  }

  /** What the reply timer's closure captured at submit time. */
  datatype PendingReply = PendingReply(chatId: string, hadImage: bool, messageText: string, thinkingTime: int)

  const ImagePrefix: string := "Based on the image and your request: "
  const TextPrefix: string := "Here is your detailed answer: "
  const ReplyOpening: string := "I'm delighted to assist you with your request regarding "
  const ReplyMiddle: string := " This response simulates the complete, throttled output after a "
  const ReplyClosing: string := " second generation delay."
  const ImageSubject: string := "the attached image"

  /** What the reply quotes: the user's text, or "the attached image" when the text is empty. */
  function ReplySubject(messageText: string): (s: string)
    ensures s != ""
    ensures messageText != "" ==> s == messageText
    ensures messageText == "" ==> s == ImageSubject
  {
    if messageText != "" then messageText else ImageSubject
  }

  /**
    The fractional part of a number of seconds as JavaScript's number-to-string
    prints it: the three digits of a millisecond remainder, without trailing zeros.
  */
  function FractionDigits(f: nat): (s: string)
    requires 0 < f < 1000
    ensures 1 <= |s| <= 3 && s[|s| - 1] != '0'
  {
    var d1, d2, d3 := f / 100, (f / 10) % 10, f % 10;
    if d3 != 0 then [DigitChar(d1), DigitChar(d2), DigitChar(d3)]
    else if d2 != 0 then [DigitChar(d1), DigitChar(d2)]
    else [DigitChar(d1)]
  }

  /** How JavaScript prints `ms / 1000` for a non-negative integer `ms`: the shortest decimal, no trailing zeros. */
  function SecondsText(ms: nat): (s: string)
    ensures s != ""
  {
    var whole, frac := ms / 1000, ms % 1000;
    if frac == 0 then NatToString(whole) else NatToString(whole) + "." + FractionDigits(frac)
  }

  /** The text of the simulated reply. */
  function ReplyText(p: PendingReply): (r: string)
    requires p.thinkingTime >= 0
    ensures StartsWith(r, ImagePrefix) <==> p.hadImage
    ensures StartsWith(r, TextPrefix) <==> !p.hadImage
    ensures Includes(r, "\"" + ReplySubject(p.messageText) + ".\"")
  {
    var prefix := if p.hadImage then ImagePrefix else TextPrefix;
    var lead := prefix + ReplyOpening;
    var quoted := "\"" + ReplySubject(p.messageText) + ".\"";
    var tail := ReplyMiddle + SecondsText(p.thinkingTime) + ReplyClosing;
    var r := lead + quoted + tail;
    IncludesMiddle(lead, quoted, tail);
    ReplyPrefixes(prefix, ReplyOpening, quoted, tail);
    r
  }

  /** A text led by one of the two prefixes starts with that one and not with the other. */
  lemma ReplyPrefixes(prefix: string, a: string, b: string, c: string)
    requires prefix == ImagePrefix || prefix == TextPrefix
    ensures StartsWith(prefix + a + b + c, ImagePrefix) <==> prefix == ImagePrefix
    ensures StartsWith(prefix + a + b + c, TextPrefix) <==> prefix == TextPrefix
  {
    var r := prefix + a + b + c;
    assert r[0] == prefix[0];
    assert r[..|prefix|] == prefix;
    assert ImagePrefix[0] == 'B' && TextPrefix[0] == 'H';
  }

  /** The AI message the timer appends; `idNow` and `stampNow` are the clock readings when it fires. */
  function AiReply(p: PendingReply, idNow: nat, stampNow: nat): (m: Message)
    requires p.thinkingTime >= 0
    ensures m.role == AiRole && m.kind == TextMessage && m.image == None
    ensures m.text == ReplyText(p) && m.id == NatToString(idNow) + "a" && m.timestamp == stampNow + 100
  {
    Message(NatToString(idNow) + "a", ReplyText(p), AiRole, stampNow + 100, TextMessage, None)
  }

  datatype SelectedFile = SelectedFile(mimeType: string, dataUrl: string)

  datatype ImageOutcome = NoFile | NotAnImage | ImageAccepted

  /** `file.type.startsWith("image/")`. */
  predicate IsImageType(mimeType: string): (b: bool)
    ensures b <==> |mimeType| >= 6 && mimeType[..6] == "image/"
  {
    StartsWith(mimeType, "image/")
  }

  /** The composer's local state and the reply timers it has started. */
  class Composer {
    var text: string
    var image: Option<string>
    var pendingReplies: seq<PendingReply>

    ghost predicate Valid()
      reads this
    {
      forall i :: 0 <= i < |pendingReplies| ==> MinDelay <= pendingReplies[i].thinkingTime <= MaxDelay
    }

    constructor()
      ensures text == "" && image == None && pendingReplies == [] && Valid()
    {
      text := "";
      image := None;
      pendingReplies := [];
    }

    /** Typing in the message box: the text becomes what was typed; nothing else changes. */
    method EditText(t: string)
      modifies this`text
      ensures text == t
    {
      text := t;
    }

    /**
      `handleImageChange`: a non-image file is refused and the current image is
      kept; an image file's data URI (what `FileReader` produces) becomes the image.
    */
    method ChangeImage(file: Option<SelectedFile>) returns (outcome: ImageOutcome)
      modifies this`image
      ensures file.None? ==> outcome == NoFile && image == old(image)
      ensures file.Some? && !IsImageType(file.value.mimeType) ==> outcome == NotAnImage && image == old(image)
      ensures file.Some? && IsImageType(file.value.mimeType) ==> outcome == ImageAccepted && image == Some(file.value.dataUrl)
    {
      if file.None? {
        return NoFile;
      }
      if !IsImageType(file.value.mimeType) {
        return NotAnImage;
      }
      image := Some(file.value.dataUrl);
      outcome := ImageAccepted;
    }

    method RemoveImage()
      modifies this`image
      ensures image == None
    {
      image := None;
    }

    /**
      `handleSubmit`: a refused submit changes nothing. An accepted one appends
      one user message to the chat `activeChatId`, clears the text and the image,
      sets the typing flag and starts the reply timer, which remembers the chat id.
    */
    method Submit(store: AppStore, activeChatId: string, idNow: nat, stampNow: nat, random: real)
      returns (accepted: bool)
      requires Valid() && 0.0 <= random < 1.0
      modifies this`text, this`image, this`pendingReplies, store`chats, store`isAiTyping
      ensures Valid()
      ensures accepted == SubmitAccepted(old(text), old(image))
      ensures !accepted ==> text == old(text) && image == old(image) && pendingReplies == old(pendingReplies)
                            && store.chats == old(store.chats) && store.isAiTyping == old(store.isAiTyping)
      ensures accepted ==>
        store.chats == AppendToChat(old(store.chats), activeChatId, UserMessage(Trim(old(text)), old(image), idNow, stampNow))
        && text == "" && image == None && store.isAiTyping
        && pendingReplies == old(pendingReplies)
             + [PendingReply(activeChatId, old(image).Some?, Trim(old(text)), ThinkingTime(random))]
      ensures old(store.ActiveValid()) ==> store.ActiveValid()
    {
      var messageText := Trim(text);
      if messageText == "" && image.None? {
        return false;
      }
      Send(store, activeChatId, messageText, idNow, stampNow, random);
      accepted := true;
    }

    /** The accepted branch of `handleSubmit`, for the trimmed text `messageText`. */
    method Send(store: AppStore, activeChatId: string, messageText: string, idNow: nat, stampNow: nat, random: real)
      requires Valid() && 0.0 <= random < 1.0
      modifies this`text, this`image, this`pendingReplies, store`chats, store`isAiTyping
      ensures Valid()
      ensures store.chats == AppendToChat(old(store.chats), activeChatId, UserMessage(messageText, old(image), idNow, stampNow))
      ensures text == "" && image == None && store.isAiTyping
      ensures pendingReplies == old(pendingReplies)
                + [PendingReply(activeChatId, old(image).Some?, messageText, ThinkingTime(random))]
      ensures old(store.ActiveValid()) ==> store.ActiveValid()
    {
      var userMessage := UserMessage(messageText, image, idNow, stampNow);
      store.AddMessage(activeChatId, userMessage);
      var hadImage := image.Some?;
      text := "";
      image := None;
      store.SetAiTyping(true);
      var thinkingTime := ThinkingTime(random);
      pendingReplies := pendingReplies + [PendingReply(activeChatId, hadImage, messageText, thinkingTime)];
    }

    /**
      The reply timer `i` going off: one AI text message is appended to the chat
      captured at submit time, whichever chat is active now, and the typing flag
      is cleared.
    */
    method FireReply(store: AppStore, i: nat, idNow: nat, stampNow: nat)
      requires Valid() && i < |pendingReplies|
      modifies this`pendingReplies, store`chats, store`isAiTyping
      ensures Valid()
      ensures pendingReplies == old(pendingReplies[..i] + pendingReplies[i + 1..])
      ensures store.chats == AppendToChat(old(store.chats), old(pendingReplies[i]).chatId,
                                          AiReply(old(pendingReplies[i]), idNow, stampNow))
      ensures !store.isAiTyping
      ensures old(store.ActiveValid()) ==> store.ActiveValid()
    {
      var p := pendingReplies[i];
      var reply := AiReply(p, idNow, stampNow);
      store.AddMessage(p.chatId, reply);
      store.SetAiTyping(false);
      pendingReplies := pendingReplies[..i] + pendingReplies[i + 1..];
    }
  }
}
