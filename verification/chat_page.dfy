/** The conversations page (apps/web-dashboard/pages/chat/ChatPage.tsx):
    channel tabs, the open conversation's messages and the message box guard. */
module ChatPage {
  import opened Optional
  import opened Text
  import opened Collections

  datatype Channel = Line | Facebook | WhatsApp
  datatype ConversationStatus = Active | Pending | Closed
  datatype Sender = Customer | Agent
  datatype DeliveryStatus = Sent | Delivered | Read

  datatype Conversation = Conversation(
    id: string,
    leadName: string,
    leadId: string,
    channel: Channel,
    lastMessage: string,
    lastMessageTime: string,
    unreadCount: int,
    status: ConversationStatus,
    avatar: Option<string>)

  datatype Message = Message(
    id: string,
    conversationId: string,
    sender: Sender,
    message: string,
    timestamp: string,
    status: DeliveryStatus)

  /** `selectedChannel`: `'all'` or one channel. */
  datatype ChannelTab = AllChannels | OnlyChannel(channel: Channel)

  function ChannelName(c: Channel): string {
    match c
    case Line => "line"
    case Facebook => "facebook"
    case WhatsApp => "whatsapp"
  }

  predicate OnTab(conv: Conversation, tab: ChannelTab) {
    tab == AllChannels || conv.channel == tab.channel
  }

  /** `filteredConversations`: the conversations of the chosen channel, in order;
      all of them under the 'all' tab. */
  function FilteredConversations(conversations: seq<Conversation>, tab: ChannelTab): (r: seq<Conversation>)
    ensures forall c :: c in r <==> c in conversations && OnTab(c, tab)
    ensures tab == AllChannels ==> r == conversations
    ensures IsSubseq(r, conversations)
  {
    FilterIsSubseq(conversations, (c: Conversation) => OnTab(c, tab));
    var r := Filter(conversations, (c: Conversation) => OnTab(c, tab));
    if tab == AllChannels then
      FilterKeepsAll(conversations, (c: Conversation) => OnTab(c, tab));
      r
    else r
  }

  /** The channel tabs split the conversations: their sizes add up to the 'all' tab. */
  lemma TabsPartitionConversations(conversations: seq<Conversation>)
    ensures |FilteredConversations(conversations, OnlyChannel(Line))| +
            |FilteredConversations(conversations, OnlyChannel(Facebook))| +
            |FilteredConversations(conversations, OnlyChannel(WhatsApp))| ==
            |FilteredConversations(conversations, AllChannels)|
  {
    var notLine := (c: Conversation) => c.channel != Line;
    var isFb := (c: Conversation) => OnTab(c, OnlyChannel(Facebook));
    var isWa := (c: Conversation) => OnTab(c, OnlyChannel(WhatsApp));
    var rest := Filter(conversations, notLine);
    FilterPartition(conversations, (c: Conversation) => OnTab(c, OnlyChannel(Line)), notLine);
    forall i | 0 <= i < |rest|
      ensures isFb(rest[i]) != isWa(rest[i])
    {
      assert rest[i] in rest;
      assert notLine(rest[i]);
    }
    FilterPartition(rest, isFb, isWa);
    FilterFilter(conversations, notLine, isFb, isFb);
    FilterFilter(conversations, notLine, isWa, isWa);
  }

  /** `currentMessages`: the messages of the open conversation, in order;
      none while no conversation (or the falsy empty id) is open. */
  function CurrentMessages(selectedConversation: Option<string>, allMessages: seq<Message>): (r: seq<Message>)
    ensures selectedConversation.None? || selectedConversation.value == "" ==> r == []
    ensures forall m :: m in r <==>
              selectedConversation.Some? && selectedConversation.value != "" &&
              m in allMessages && m.conversationId == selectedConversation.value
    ensures IsSubseq(r, allMessages)
  {
    if selectedConversation.None? || selectedConversation.value == "" then []
    else
      var p := (m: Message) => m.conversationId == selectedConversation.value;
      FilterIsSubseq(allMessages, p);
      Filter(allMessages, p)
  }

  /** `getChannelColor`: the brand colour, grey for anything else. */
  function ChannelColor(channel: string): string {
    match channel
    case "line" => "#06C755"
    case "facebook" => "#0084FF"
    case "whatsapp" => "#25D366"
    case _ => "#6b7280"
  }

  /** `getChannelIcon`: the fallback icon is the WhatsApp icon. */
  function ChannelIcon(channel: string): string {
    match channel
    case "line" => "💚"
    case "facebook" => "💙"
    case "whatsapp" => "💬"
    case _ => "💬"
  }

  /** Colours tell every channel apart from the others and from unknown
      names, which are grey; the icon of an unknown name is WhatsApp's. */
  lemma ChannelBadges(a: Channel, b: Channel, unknown: string)
    requires unknown !in {"line", "facebook", "whatsapp"}
    ensures a != b ==> ChannelColor(ChannelName(a)) != ChannelColor(ChannelName(b))
    ensures ChannelColor(ChannelName(a)) != ChannelColor(unknown)
    ensures a != b ==> ChannelIcon(ChannelName(a)) != ChannelIcon(ChannelName(b))
    ensures ChannelIcon(unknown) == ChannelIcon(ChannelName(WhatsApp))
    ensures ChannelColor(unknown) == "#6b7280" && ChannelIcon(unknown) == "💬"
  {
  }

  class Chat {
    var selectedConversation: Option<string>
    var messageInput: string
    var selectedChannel: ChannelTab

    constructor ()
      ensures selectedConversation == None && messageInput == "" && selectedChannel == AllChannels
    {
      selectedConversation, messageInput, selectedChannel := None, "", AllChannels;
    }

    method SelectChannel(tab: ChannelTab)
      modifies this
      ensures selectedChannel == tab
      ensures selectedConversation == old(selectedConversation) && messageInput == old(messageInput)
    {
      selectedChannel := tab;
    }

    /** Opening a conversation does not check that it is on the current tab. */
    method SelectConversation(id: string)
      modifies this
      ensures selectedConversation == Some(id)
      ensures selectedChannel == old(selectedChannel) && messageInput == old(messageInput)
    {
      selectedConversation := Some(id);
    }

    /** Typing, or picking a quick reply, replaces the input. */
    method SetMessageInput(text: string)
      modifies this
      ensures messageInput == text
      ensures selectedConversation == old(selectedConversation) && selectedChannel == old(selectedChannel)
    {
      messageInput := text;
    }

    /** Clears the input when it holds text and a conversation is open; the
        message goes nowhere. */
    method HandleSendMessage()
      modifies this
      ensures messageInput ==
                (if !IsBlank(old(messageInput)) && old(selectedConversation).Some? && old(selectedConversation).value != ""
                 then "" else old(messageInput))
      ensures selectedConversation == old(selectedConversation) && selectedChannel == old(selectedChannel)
    {
      if Trim(messageInput) == "" || selectedConversation.None? || selectedConversation.value == "" {
        return;
      }
      messageInput := "";
    }
  }
}
