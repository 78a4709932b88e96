/** The follow-up page (apps/web-dashboard/pages/followup/FollowUpPage.tsx):
    a lead's activity timeline, its filter, and the message box guard. */
module FollowUpPage {
  import opened Optional
  import opened Text
  import opened Collections
  import opened Types
  import opened FilterContext

  datatype Channel = Line | Facebook | WhatsApp

  datatype FollowUpLead = FollowUpLead(
    id: string,
    name: string,
    phone: string,
    email: string,
    source: LeadSource,
    channel: Option<Channel>,
    status: LeadStatus,
    lastActivity: string,
    lastMessage: Option<string>,
    unreadCount: Option<int>)

  datatype ActivityType = ChatActivity | TelActivity

  datatype Activity = Activity(
    id: string,
    leadId: string,
    kind: ActivityType,
    channel: Option<Channel>,
    message: Option<string>,
    duration: Option<string>,
    direction: Option<string>,
    sender: Option<string>,
    timestamp: string,
    notes: Option<string>,
    status: Option<string>)

  /** `activityFilter`: `'all' | 'chat' | 'tel'`. */
  datatype ActivityFilter = AllActivities | OnlyType(kind: ActivityType)

  /** `selectedLead ? ... : []`: the empty id is falsy like `null`. */
  predicate IsSelected(selectedLead: Option<string>) {
    selectedLead.Some? && selectedLead.value != ""
  }

  predicate ShowsActivity(a: Activity, leadId: string, filter: ActivityFilter) {
    a.leadId == leadId && (filter == AllActivities || a.kind == filter.kind)
  }

  /** `leadActivities`. */
  function LeadActivities(selectedLead: Option<string>, filter: ActivityFilter, all: seq<Activity>): seq<Activity> {
    if !IsSelected(selectedLead) then []
    else Filter(all, (a: Activity) => ShowsActivity(a, selectedLead.value, filter))
  }

  /** The timeline shows exactly the selected lead's activities of the chosen
      type, in their original order, and nothing while no lead is selected. */
  lemma LeadActivitiesSpec(selectedLead: Option<string>, filter: ActivityFilter, all: seq<Activity>)
    ensures !IsSelected(selectedLead) ==> LeadActivities(selectedLead, filter, all) == []
    ensures IsSubseq(LeadActivities(selectedLead, filter, all), all)
    ensures forall a :: a in LeadActivities(selectedLead, filter, all) <==>
              IsSelected(selectedLead) && a in all && a.leadId == selectedLead.value &&
              (filter == AllActivities || a.kind == filter.kind)
  {
    if IsSelected(selectedLead) {
      FilterIsSubseq(all, (a: Activity) => ShowsActivity(a, selectedLead.value, filter));
    }
  }

  /** Split by type, the lead's chats and calls together are all of its activities. */
  lemma ChatsAndCallsCoverLead(leadId: string, all: seq<Activity>)
    ensures |LeadActivities(Some(leadId), OnlyType(ChatActivity), all)| +
            |LeadActivities(Some(leadId), OnlyType(TelActivity), all)| ==
            |LeadActivities(Some(leadId), AllActivities, all)|
  {
    if leadId != "" {
      var mine := Filter(all, (a: Activity) => a.leadId == leadId);
      var p := (a: Activity) => ShowsActivity(a, leadId, AllActivities);
      var pc := (a: Activity) => ShowsActivity(a, leadId, OnlyType(ChatActivity));
      var pt := (a: Activity) => ShowsActivity(a, leadId, OnlyType(TelActivity));
      var isChat := (a: Activity) => a.kind == ChatActivity;
      var isTel := (a: Activity) => a.kind == TelActivity;
      FilterCongruent(all, p, (a: Activity) => a.leadId == leadId);
      FilterFilter(all, (a: Activity) => a.leadId == leadId, isChat, pc);
      FilterFilter(all, (a: Activity) => a.leadId == leadId, isTel, pt);
      FilterPartition(mine, isChat, isTel);
    }
  }

  /** The header statistics: the number of chat and of call activities. */
  function ChatCount(all: seq<Activity>): nat {
    |Filter(all, (a: Activity) => a.kind == ChatActivity)|
  }

  function CallCount(all: seq<Activity>): nat {
    |Filter(all, (a: Activity) => a.kind == TelActivity)|
  }

  /** Every activity is a chat or a call, so the two counts add up to the total. */
  lemma StatsAddUp(all: seq<Activity>)
    ensures ChatCount(all) + CallCount(all) == |all|
  {
    FilterPartition(all, (a: Activity) => a.kind == ChatActivity, (a: Activity) => a.kind == TelActivity);
  }

  /** `leads.find(l => l.id === selectedLead)`: the first lead with that id. */
  function FindLead(leads: seq<FollowUpLead>, selectedLead: Option<string>): (r: Option<FollowUpLead>)
    ensures r.Some? ==> selectedLead.Some? && r.value in leads && r.value.id == selectedLead.value
    ensures r.None? <==> selectedLead.None? || forall l | l in leads :: l.id != selectedLead.value
    ensures r.Some? ==> exists i | 0 <= i < |leads| ::
              leads[i] == r.value && forall j | 0 <= j < i :: leads[j].id != selectedLead.value
  {
    if selectedLead.None? || leads == [] then None
    else if leads[0].id == selectedLead.value then Some(leads[0])
    else
      var r := FindLead(leads[1..], selectedLead);
      assert forall l | l in leads[1..] :: l in leads;
      assert r.Some? ==> exists i | 0 <= i < |leads[1..]| ::
        leads[1..][i] == r.value && forall j | 0 <= j < i :: leads[1..][j].id != selectedLead.value;
      if r.Some? then
        var i :| 0 <= i < |leads[1..]| && leads[1..][i] == r.value &&
                 forall j | 0 <= j < i :: leads[1..][j].id != selectedLead.value;
        assert leads[i + 1] == r.value;
        assert forall j | 0 <= j < i + 1 :: leads[j].id != selectedLead.value by {
          forall j | 0 <= j < i + 1
            ensures leads[j].id != selectedLead.value
          {
            if j > 0 {
              assert leads[j] == leads[1..][j - 1];
            }
          }
        }
        r
      else r
  }

  /** `canSendMessage`: the chat filter is on and the selected lead came in by chat. */
  function CanSendMessage(filter: ActivityFilter, leads: seq<FollowUpLead>, selectedLead: Option<string>): (ok: bool)
    ensures ok <==> filter == OnlyType(ChatActivity) &&
                    exists l | l in leads :: selectedLead == Some(l.id) && FindLead(leads, selectedLead) == Some(l) && l.source == Chat
  {
    var found := FindLead(leads, selectedLead);
    filter == OnlyType(ChatActivity) && found.Some? && found.value.source == Chat
  }

  function StatusColor(status: string): string {
    match status
    case "new" => "#3b82f6"
    case "contacted" => "#f59e0b"
    case "qualified" => "#10b981"
    case "converted" => "#8b5cf6"
    case "lost" => "#ef4444"
    case _ => "#6b7280"
  }

  /** The five statuses get five distinct colours, none of them the fallback
      grey that every other string gets. */
  lemma StatusColorsDistinct(a: LeadStatus, b: LeadStatus, other: string)
    requires other !in {"new", "contacted", "qualified", "converted", "lost"}
    ensures a != b ==> StatusColor(StatusName(a)) != StatusColor(StatusName(b))
    ensures StatusColor(StatusName(a)) != "#6b7280"
    ensures StatusColor(other) == "#6b7280"
  {
  }

  /** `getChannelIcon`: an activity without a channel is a note. */
  function ChannelIcon(channel: Option<Channel>): string {
    match channel
    case Some(Line) => "💚"
    case Some(Facebook) => "💙"
    case Some(WhatsApp) => "💬"
    case None => "📝"
  }

  /** `getChannelColor`: the brand colour, grey without a channel. */
  function ChannelColor(channel: Option<Channel>): string {
    match channel
    case Some(Line) => "#06C755"
    case Some(Facebook) => "#0084FF"
    case Some(WhatsApp) => "#25D366"
    case None => "#6b7280"
  }

  /** Any two of the three channels and the missing channel differ in both
      icon and colour; the missing channel is the grey note. */
  lemma ChannelBadgesDistinct(a: Option<Channel>, b: Option<Channel>)
    ensures a != b ==> ChannelIcon(a) != ChannelIcon(b) && ChannelColor(a) != ChannelColor(b)
    ensures ChannelIcon(None) == "📝" && ChannelColor(None) == "#6b7280"
  {
  }

  /** The page's state. */
  class FollowUp {
    var selectedLead: Option<string>
    var activityFilter: ActivityFilter
    var messageInput: string

    constructor ()
      ensures selectedLead == None && activityFilter == AllActivities && messageInput == ""
    {
      selectedLead, activityFilter, messageInput := None, AllActivities, "";
    }

    /** Clicking a lead in the list. */
    method SelectLead(id: string)
      modifies this
      ensures selectedLead == Some(id)
      ensures activityFilter == old(activityFilter) && messageInput == old(messageInput)
    {
      selectedLead := Some(id);
    }

    /** The all / chat / tel tabs. */
    method SetActivityFilter(filter: ActivityFilter)
      modifies this
      ensures activityFilter == filter
      ensures selectedLead == old(selectedLead) && messageInput == old(messageInput)
    {
      activityFilter := filter;
    }

    method SetMessageInput(text: string)
      modifies this
      ensures messageInput == text
      ensures selectedLead == old(selectedLead) && activityFilter == old(activityFilter)
    {
      messageInput := text;
    }

    /** The timeline the page renders from its current state. */
    function Timeline(all: seq<Activity>): (r: seq<Activity>)
      reads this
      ensures !IsSelected(selectedLead) ==> r == []
      ensures IsSubseq(r, all)
      ensures forall a :: a in r <==>
                IsSelected(selectedLead) && a in all && a.leadId == selectedLead.value &&
                (activityFilter == AllActivities || a.kind == activityFilter.kind)
    {
      LeadActivitiesSpec(selectedLead, activityFilter, all);
      LeadActivities(selectedLead, activityFilter, all)
    }

    /** Clears the input only when it holds text and sending is allowed;
        nothing is delivered anywhere. */
    method HandleSendMessage(leads: seq<FollowUpLead>)
      modifies this
      ensures messageInput == (if !IsBlank(old(messageInput)) && CanSendMessage(old(activityFilter), leads, old(selectedLead))
                               then "" else old(messageInput))
      ensures selectedLead == old(selectedLead) && activityFilter == old(activityFilter)
    {
      if Trim(messageInput) == "" || !CanSendMessage(activityFilter, leads, selectedLead) {
        return;
      }
      messageInput := "";
    }
  }
}
