/** The live chat panel of one lead (apps/web-dashboard/components/ChatPanel.tsx):
    the message list it keeps, the socket events it listens to and the
    message it sends. */
module ChatPanel {
  import opened Optional
  import opened Text
  import opened Types
  import opened ChatRelay

  /** A `new-message` payload as the panel stores it: the relay adds
      `timestamp`, and the payload has neither `id` nor `createdAt`. */
  function Received(leadId: string, message: string, sender: string, timestamp: string): (m: ChatMessage)
    ensures m.leadId == leadId && m.message == message && m.sender == sender
    ensures m.id.None? && m.createdAt.None? && m.timestamp == Some(timestamp)
  {
    ChatMessage(None, leadId, message, sender, None, None, Some(timestamp))
  }

  /** The local copy an agent's own message gets when it is sent. */
  function Outgoing(leadId: string, text: string, stamp: string, now: string): (m: ChatMessage)
    ensures m.leadId == leadId && m.message == text && m.sender == "agent"
    ensures m.id == Some("msg-" + stamp) && m.createdAt == Some(now) && m.timestamp.None?
  {
    ChatMessage(Some("msg-" + stamp), leadId, text, "agent", None, Some(now), None)
  }

  /** `getPlatformIcon`. */
  function PlatformIcon(platform: Option<string>): string {
    match platform
    case Some("line") => "💚"
    case Some("facebook") => "💙"
    case Some("web") => "🌐"
    case _ => "💬"
  }

  /** The three known platforms have distinct icons, and anything else,
      including a message without a platform, gets the speech balloon. */
  lemma PlatformIcons(p: string)
    requires p !in {"line", "facebook", "web"}
    ensures |{PlatformIcon(Some("line")), PlatformIcon(Some("facebook")), PlatformIcon(Some("web"))}| == 3
    ensures PlatformIcon(Some(p)) == PlatformIcon(None) == "💬"
    ensures PlatformIcon(Some(p)) !in {PlatformIcon(Some("line")), PlatformIcon(Some("facebook")), PlatformIcon(Some("web"))}
  {
  }

  /** `showDate`: message `index` opens a date divider when it is the first
      one or its formatted date differs from the previous message's.
      `formatDate` is the locale formatter, applied to a possibly missing
      `createdAt`. */
  predicate ShowDate(messages: seq<ChatMessage>, index: int, formatDate: Option<string> -> string)
    requires 0 <= index < |messages|
  {
    index == 0 || formatDate(messages[index - 1].createdAt) != formatDate(messages[index].createdAt)
  }

  /** The first message always has a divider, and when every message formats
      to the same date it is the only one. */
  lemma OneDayOneDivider(messages: seq<ChatMessage>, formatDate: Option<string> -> string, index: int)
    requires 0 <= index < |messages|
    requires forall i | 0 <= i < |messages| :: formatDate(messages[i].createdAt) == formatDate(messages[0].createdAt)
    ensures ShowDate(messages, index, formatDate) <==> index == 0
  {
    if index > 0 {
      assert formatDate(messages[index - 1].createdAt) == formatDate(messages[0].createdAt);
    }
  }

  /** Appending a message, as receiving and sending do, never moves an
      earlier divider. */
  lemma AppendKeepsDividers(messages: seq<ChatMessage>, m: ChatMessage, formatDate: Option<string> -> string, index: int)
    requires 0 <= index < |messages|
    ensures ShowDate(messages + [m], index, formatDate) == ShowDate(messages, index, formatDate)
  {
    assert (messages + [m])[index] == messages[index];
    if index > 0 {
      assert (messages + [m])[index - 1] == messages[index - 1];
    }
  }

  /** A `new-message` echo, which has no `createdAt`, opens a new divider
      after a message that has one, as long as the formatter labels that
      message's date differently from a missing date. */
  lemma EchoOpensDivider(messages: seq<ChatMessage>, formatDate: Option<string> -> string, index: int)
    requires 0 < index < |messages|
    requires messages[index - 1].createdAt.Some? && messages[index].createdAt.None?
    requires formatDate(messages[index - 1].createdAt) != formatDate(None)
    ensures ShowDate(messages, index, formatDate)
  {
  }

  class Panel {
    var leadId: string
    var messages: seq<ChatMessage>
    var newMessage: string
    var isTyping: bool

    constructor (leadId: string)
      ensures this.leadId == leadId && messages == [] && newMessage == "" && !isTyping
    {
      this.leadId, messages, newMessage, isTyping := leadId, [], "", false;
    }

    /** The lead prop changes: the stored history of the new lead replaces
        the list (none if it has no entry); the draft and the typing flag
        are kept. */
    method LoadLead(id: string, stored: map<string, seq<ChatMessage>>)
      modifies this
      ensures leadId == id
      ensures messages == (if id in stored then stored[id] else [])
      ensures newMessage == old(newMessage) && isTyping == old(isTyping)
    {
      leadId := id;
      messages := if id in stored then stored[id] else [];
    }

    method SetNewMessage(text: string)
      modifies this
      ensures newMessage == text
      ensures leadId == old(leadId) && messages == old(messages) && isTyping == old(isTyping)
    {
      newMessage := text;
    }

    /** One server event: a message for this lead is appended, typing
        events for this lead set or clear the indicator, and events for other
        leads change nothing. */
    method Receive(ev: ServerEvent)
      modifies this
      ensures ev.NewMessage? && ev.leadId == old(leadId) ==>
                messages == old(messages) + [Received(ev.leadId, ev.message, ev.sender, ev.timestamp)]
      ensures !(ev.NewMessage? && ev.leadId == old(leadId)) ==> messages == old(messages)
      ensures isTyping == (if ev.leadId != old(leadId) || ev.NewMessage? then old(isTyping) else ev.UserTyping?)
      ensures leadId == old(leadId) && newMessage == old(newMessage)
    {
      if ev.leadId != leadId {
        return;
      }
      match ev
      case NewMessage(l, text, sender, timestamp) =>
        messages := messages + [Received(l, text, sender, timestamp)];
      case UserTyping(_, _) =>
        isTyping := true;
      case UserStopTyping(_, _) =>
        isTyping := false;
    }

    /** The send form: with a non-blank draft and a socket, the draft goes
        out as `send-message` from "agent", its local copy is appended and
        the draft cleared; otherwise nothing happens. */
    method HandleSendMessage(hasSocket: bool, stamp: string, now: string) returns (emitted: Option<ClientEvent>)
      modifies this
      ensures IsBlank(old(newMessage)) || !hasSocket ==>
                emitted == None && messages == old(messages) && newMessage == old(newMessage)
      ensures !IsBlank(old(newMessage)) && hasSocket ==>
                emitted == Some(ClientEvent.SendMessage(old(leadId), old(newMessage), "agent")) &&
                messages == old(messages) + [Outgoing(old(leadId), old(newMessage), stamp, now)] &&
                newMessage == ""
      ensures leadId == old(leadId) && isTyping == old(isTyping)
    {
      if Trim(newMessage) == "" || !hasSocket {
        return None;
      }
      emitted := Some(ClientEvent.SendMessage(leadId, newMessage, "agent"));
      messages := messages + [Outgoing(leadId, newMessage, stamp, now)];
      newMessage := "";
    }
  }
}
