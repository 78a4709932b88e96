/** End-to-end behaviour of the dashboard against the chat relay: each method
    drives the client models and the relay through one user-visible story
    and states its outcome. */
module Scenarios {
  import opened Optional
  import opened Text
  import opened Types
  import opened ChatRelay
  import opened ChatPanel
  import opened LeadFollowupPage
  import opened LeadDetail

  /** An agent whose connection is in the lead's room sends a message: the
      panel ends up with two entries for it, the local copy (with an id and
      `createdAt`) and then the relay's echo (with neither, but with the
      relay's `timestamp`). */
  method SendFromPanel(relay: Relay, panel: Panel, me: ConnId, stamp: string, now: string)
    requires relay.Valid() && me in relay.MembersOf(panel.leadId) && !IsBlank(panel.newMessage)
    modifies panel
    ensures |panel.messages| == |old(panel.messages)| + 2
    ensures panel.messages[|old(panel.messages)|] == Outgoing(old(panel.leadId), old(panel.newMessage), stamp, now)
    ensures panel.messages[|old(panel.messages)| + 1] == Received(old(panel.leadId), old(panel.newMessage), "agent", now)
    ensures panel.newMessage == "" && panel.leadId == old(panel.leadId)
  {
    var lead, text := panel.leadId, panel.newMessage;
    var emitted := panel.HandleSendMessage(true, stamp, now);
    assert emitted == Some(ClientEvent.SendMessage(lead, text, "agent"));
    var ds := relay.SendMessage(me, lead, text, "agent", now);
    FanOutOnce(ds, relay.MembersOf(lead), NewMessage(lead, text, "agent", now), me);
    var k :| 0 <= k < |ds| && ds[k] == Delivery(me, NewMessage(lead, text, "agent", now));
    panel.Receive(ds[k].event);
  }

  /** Selecting lead `a` and then lead `b` on the follow-up screen leaves the
      connection in both rooms, because no leave is ever sent. */
  method SwitchLeads(relay: Relay, screen: FollowUpScreen, me: ConnId, a: Lead, b: Lead, now: string)
    requires relay.Valid()
    modifies relay, screen
    ensures relay.Valid()
    ensures me in relay.MembersOf(a.id) && me in relay.MembersOf(b.id)
    ensures screen.selectedLead == Some(b)
  {
    var first := screen.HandleLeadSelect(a, true);
    var _ := relay.Handle(me, first[0], now);
    var second := screen.HandleLeadSelect(b, true);
    var _ := relay.Handle(me, second[0], now);
    assert relay.rooms == Joined(Joined(old(relay.rooms), me, RoomOf(a.id)), me, RoomOf(b.id));
  }

  /** After such a switch, a message for the earlier lead still reaches the
      connection, and the panel, now showing another lead, drops it. */
  method StaleRoomMessage(relay: Relay, panel: Panel, me: ConnId, sender: ConnId,
                          leadId: string, text: string, now: string)
    returns (ds: seq<Delivery>)
    requires me in relay.MembersOf(leadId) && panel.leadId != leadId
    modifies panel
    ensures exists i | 0 <= i < |ds| :: ds[i].to == me
    ensures panel.messages == old(panel.messages)
  {
    ds := relay.SendMessage(sender, leadId, text, "agent", now);
    FanOutOnce(ds, relay.MembersOf(leadId), NewMessage(leadId, text, "agent", now), me);
    var k :| 0 <= k < |ds| && ds[k] == Delivery(me, NewMessage(leadId, text, "agent", now));
    panel.Receive(ds[k].event);
  }

  /** Joining the same lead twice does not double the deliveries: a later
      message reaches the connection once. */
  method DoubleJoin(relay: Relay, me: ConnId, sender: ConnId, leadId: string, text: string, now: string)
    returns (ds: seq<Delivery>)
    requires relay.Valid()
    modifies relay
    ensures relay.Valid()
    ensures exists i | 0 <= i < |ds| :: ds[i] == Delivery(me, NewMessage(leadId, text, "agent", now))
    ensures forall i, j | 0 <= i < |ds| && 0 <= j < |ds| && ds[i].to == me && ds[j].to == me :: i == j
  {
    relay.JoinLeadChat(me, leadId);
    relay.JoinLeadChat(me, leadId);
    ds := relay.SendMessage(sender, leadId, text, "agent", now);
    FanOutOnce(ds, relay.MembersOf(leadId), NewMessage(leadId, text, "agent", now), me);
  }

  /** Another agent typing in the room lights the indicator of a panel on
      that lead, and the typist's own connection gets nothing. */
  method OtherAgentTyping(relay: Relay, panel: Panel, me: ConnId, typist: ConnId, user: string)
    returns (ds: seq<Delivery>)
    requires me in relay.MembersOf(panel.leadId) && me != typist
    modifies panel
    ensures forall i | 0 <= i < |ds| :: ds[i].to != typist
    ensures panel.isTyping
  {
    ds := relay.Typing(typist, panel.leadId, user);
    FanOutOnce(ds, relay.MembersOf(panel.leadId) - {typist}, UserTyping(panel.leadId, user), me);
    forall i | 0 <= i < |ds|
      ensures ds[i].to != typist
    {
      assert ds[i].to in Recipients(ds);
    }
    var k :| 0 <= k < |ds| && ds[k] == Delivery(me, UserTyping(panel.leadId, user));
    panel.Receive(ds[k].event);
  }

  /** The detail card keeps its first draft: after the card is given lead
      `b`, the edit form opens on lead `a`'s fields, and saving leaves the
      card showing `b` unchanged. */
  method StaleDraft(a: Lead, b: Lead) returns (card: DetailCard)
    ensures card.lead == b && card.editedLead == a && !card.isEditing
  {
    card := new DetailCard(a);
    card.ReceiveLead(b);
    card.StartEditing();
    assert card.isEditing && card.editedLead == a;
    card.Save();
  }
}
