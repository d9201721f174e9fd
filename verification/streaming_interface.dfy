/** The live-stream screen's local state: the chat beside the stream, the
    draft being typed, and the live and audience toggles. */
module StreamingInterface {
  import opened Common

  /** One chat line; `timestamp` is the time text shown next to it. */
  datatype ChatLine = ChatLine(id: int, user: string, message: string, timestamp: string)

  const OWN_USER := "You"

  /** The three lines the chat starts with. */
  function InitialChat(): (chat: seq<ChatLine>)
    ensures |chat| == 3
    ensures forall i :: 0 <= i < |chat| ==> chat[i].id == i + 1 && chat[i].user != OWN_USER
  {
    [ChatLine(1, "Alex", "Great stream!", "2:34 PM"),
     ChatLine(2, "Jordan", "Love this content", "2:35 PM"),
     ChatLine(3, "Casey", "Thanks for streaming!", "2:36 PM")]
  }

  class StreamingChat {
    var isLive: bool
    var viewers: int
    var draft: string
    var chat: seq<ChatLine>
    var showViewers: bool

    /** Lines are only ever appended, each numbered by its position. */
    ghost predicate Valid()
      reads this
    {
      forall i :: 0 <= i < |chat| ==> chat[i].id == i + 1
    }

    constructor ()
      ensures Valid()
      ensures !isLive && viewers == 1234 && draft == "" && chat == InitialChat() && !showViewers
    {
      isLive, viewers, draft, chat, showViewers := false, 1234, "", InitialChat(), false;
    }

    /** The chat input's change handler. */
    method Type(text: string)
      modifies this
      ensures draft == text
      ensures chat == old(chat) && isLive == old(isLive) && viewers == old(viewers)
      ensures showViewers == old(showViewers)
    {
      draft := text;
    }

    /** `handleSendChat` (the send button or Enter): a draft that trims to
        nothing changes nothing; any other draft is appended untrimmed as the
        user's own line, numbered after the last one, and the input is
        cleared. `now` is the time text of the moment of sending. */
    method SendChat(now: string)
      requires Valid()
      modifies this
      ensures Valid()
      ensures IsBlank(old(draft)) ==> chat == old(chat) && draft == old(draft)
      ensures !IsBlank(old(draft)) ==>
        && chat == old(chat) + [ChatLine(|old(chat)| + 1, OWN_USER, old(draft), now)]
        && draft == ""
      ensures isLive == old(isLive) && viewers == old(viewers) && showViewers == old(showViewers)
    {
      if !IsBlank(draft) {
        chat := chat + [ChatLine(|chat| + 1, OWN_USER, draft, now)];
        draft := "";
      }
    }

    /** The "Start Stream" / "Stop Stream" button. */
    method ToggleLive()
      modifies this
      ensures isLive == !old(isLive)
      ensures chat == old(chat) && draft == old(draft) && viewers == old(viewers)
      ensures showViewers == old(showViewers)
    {
      isLive := !isLive;
    }

    /** The "View Audience" button. */
    method ToggleViewers()
      modifies this
      ensures showViewers == !old(showViewers)
      ensures chat == old(chat) && draft == old(draft) && viewers == old(viewers)
      ensures isLive == old(isLive)
    {
      showViewers := !showViewers;
    }
  }

  /** Positional numbering makes the ids of the chat distinct. */
  lemma PositionalIdsDistinct(chat: seq<ChatLine>)
    requires forall i :: 0 <= i < |chat| ==> chat[i].id == i + 1
    ensures forall i, j :: 0 <= i < j < |chat| ==> chat[i].id != chat[j].id
  {
  }

  /** Typing "hi" and sending twice (the second time with an empty input)
      adds exactly one line, the fourth; a draft of spaces adds none. */
  method ScenarioSendTwice() returns (lines: seq<ChatLine>, leftDraft: string)
    ensures lines == InitialChat() + [ChatLine(4, OWN_USER, "hi", "2:40 PM")]
    ensures leftDraft == "  "
  {
    var s := new StreamingChat();
    s.Type("hi");
    assert "hi"[0] == 'h';
    s.SendChat("2:40 PM");
    s.SendChat("2:41 PM");
    s.Type("  ");
    assert IsBlank("  ");
    s.SendChat("2:42 PM");
    lines, leftDraft := s.chat, s.draft;
  }
}
