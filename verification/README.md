# omni-lead chat relay, dashboard logic and auth middleware in Dafny

omni-lead is a lead-management CRM. A lead is a prospective customer who
reached the sales team through a web form or a chat channel (LINE,
Facebook, web chat). Agents work leads from a web dashboard. Messages
between agents and leads pass through a socket.io relay, in which every
lead has a room `lead-<id>`. This project models three parts of it and
proves properties of each.

- **The chat relay** (`chat_relay.dfy`). The relay joins and leaves sockets
  to and from lead rooms. It broadcasts `new-message` to the whole room,
  sender included, with a server timestamp. It forwards `user-typing` and
  `user-stop-typing` to the room, sender excluded. Room membership is a
  `map` from room to a set of connections, held in the class `Relay`.
  Delivery is a loop (`FanOut`), proved to reach every target exactly once.
- **The dashboard logic**:
  - the leads table: duplicate detection, the filter pipeline, selection
    (`leads_page.dfy`);
  - the global filter store (`filter_context.dfy`);
  - the follow-up timeline (`follow_up_page.dfy`);
  - the omnichannel inbox (`chat_page.dfy`);
  - the per-lead chat panel (`chat_panel.dfy`);
  - the call log (`call_log_panel.dfy`);
  - the lead list badges and relative times (`lead_list.dfy`);
  - the follow-up screen that joins lead rooms (`lead_followup_page.dfy`);
  - the lead detail card and its edit draft (`lead_detail.dfy`);
  - the three navigation menus with their active-item rule and pop-up menus
    (`navigation.dfy`).

  A component's pure computations are functions with lemmas. Its
  `useState` state is a class whose methods are the event handlers.
- **The auth middleware** (`auth_middleware.dfy`). It models JavaScript's
  `split(' ')` and its round trip with `join`. It proves exactly which
  `Authorization` headers reach `next()`.

The shared files are:
- `types.dfy`: the records of `types/index.ts`;
- `text.dfy`: JavaScript string behaviour (`trim`, `includes`,
  `toLowerCase`, `<`);
- `collections.dfy`: `filter` and the subsequence lemmas;
- `optional.dfy`: `Option` and `Result`.

`scenarios.dfy` chains the components to show behaviour that only appears
when they are used together:
- a live send shows up twice in the sender's panel: the local copy, then
  the room echo;
- switching leads never leaves the previous room;
- a message for a previous room is delivered but dropped by the panel;
- a double join is still delivered once;
- a typing indicator never reaches the typist;
- the detail card keeps an edit draft of the previous lead.

## Model

| member | source | states |
|---|---|---|
| ChatRelay.RoomOf | apps/socket-server/events/chat.events.ts:8 | the room name is `lead-` followed by the lead id |
| ChatRelay.RoomOfInjective | apps/socket-server/events/chat.events.ts:8 | two leads share a room exactly when their ids are equal |
| ChatRelay.Joined | apps/socket-server/events/chat.events.ts:7-10 | after a join, the members of every room are the old members plus the socket in the joined room; no room is left empty |
| ChatRelay.Left | apps/socket-server/events/chat.events.ts:13-16 | after a leave, the members are the old ones minus the socket in that room only; empty rooms are dropped |
| ChatRelay.Disconnected | apps/socket-server/main.ts:21-23 | a disconnected socket is removed from every room and nothing else changes |
| ChatRelay.JoinIdempotent | apps/socket-server/events/chat.events.ts:7-10 | joining twice is the same as joining once |
| ChatRelay.LeaveNonMember | apps/socket-server/events/chat.events.ts:13-16 | leaving a room one is not in changes nothing |
| ChatRelay.LeaveUndoesJoin | apps/socket-server/events/chat.events.ts:7-16 | a leave undoes a join made by a non-member |
| ChatRelay.DisconnectNonMember | apps/socket-server/main.ts:21-23 | disconnecting a socket in no room changes nothing |
| ChatRelay.Recipients | apps/socket-server/events/chat.events.ts:23 | a connection is a recipient exactly when some delivery is addressed to it |
| ChatRelay.RecipientsAppend | apps/socket-server/events/chat.events.ts:23 | one more delivery adds exactly its addressee |
| ChatRelay.FanOutOnce | apps/socket-server/events/chat.events.ts:23 | each target of a broadcast gets the event exactly once |
| ChatRelay.FanOutCount | apps/socket-server/events/chat.events.ts:23 | a broadcast makes as many deliveries as there are targets |
| ChatRelay.FanOut | apps/socket-server/events/chat.events.ts:23 | the delivery loop reaches exactly the targets, once each, with the same event |
| ChatRelay.Relay.constructor | apps/socket-server/events/chat.events.ts:3-4 | the server starts with no rooms |
| ChatRelay.Relay.JoinLeadChat | apps/socket-server/events/chat.events.ts:7-10 | `join-lead-chat` adds the socket to `lead-<id>` and keeps the no-empty-room invariant |
| ChatRelay.Relay.LeaveLeadChat | apps/socket-server/events/chat.events.ts:13-16 | `leave-lead-chat` removes the socket from that room only |
| ChatRelay.Relay.Disconnect | apps/socket-server/main.ts:21-23 | a disconnect drops the socket from every room |
| ChatRelay.Relay.SendMessage | apps/socket-server/events/chat.events.ts:19-28 | `new-message` with the server time goes to every member of the lead's room, sender included |
| ChatRelay.Relay.Typing | apps/socket-server/events/chat.events.ts:34-37 | `user-typing` goes to every member of the room except the typist |
| ChatRelay.Relay.StopTyping | apps/socket-server/events/chat.events.ts:40-43 | `user-stop-typing` goes to every member of the room except the sender |
| ChatRelay.Relay.Handle | apps/socket-server/events/chat.events.ts:4-44 | one client event updates the rooms as specified and fans the emitted event out to the specified targets |
| ChatRelay.Relay.MembersOf | apps/socket-server/events/chat.events.ts:8 | the connections in lead `leadId`'s room `"lead-" + leadId`; the fan-out contracts of the handlers are stated against it |
| ChatRelay.MembershipChangeIsLocal | apps/socket-server/events/chat.events.ts:7-16 | an event changes membership only of the sending socket in the event's lead room |
| ChatRelay.NextRooms | apps/socket-server/events/chat.events.ts:4-44 | the room table after one event: joins and leaves change it, messages and typing signals do not; `Relay.Handle` is proved against it |
| ChatRelay.Targets | apps/socket-server/events/chat.events.ts:19-43 | who receives an event: the whole room for a message, the room without the originator for typing signals, nobody for joins and leaves; `MessageStaysInRoom` and `EchoPolicy` are stated on it |
| ChatRelay.Emitted | apps/socket-server/events/chat.events.ts:19-43 | the payload the relay emits: the message with the server's timestamp added, or the typing signal with its lead and user |
| ChatRelay.MessageStaysInRoom | apps/socket-server/events/chat.events.ts:19-43 | every delivery goes to a member of the event's lead room and carries that lead id |
| ChatRelay.EchoPolicy | apps/socket-server/events/chat.events.ts:23-43 | typing events never return to the sender; a message is echoed to the sender when the sender is in the room |
| FilterContext.Initial | apps/web-dashboard/contexts/FilterContext.tsx:33-38 | the filters start with empty dates, every project, source and status, and duplicates off |
| FilterContext.FilterStore.constructor | apps/web-dashboard/contexts/FilterContext.tsx:33-38 | a new provider holds the initial filters |
| FilterContext.FilterStore.SetDateFrom | apps/web-dashboard/contexts/FilterContext.tsx:50-66 | sets the start date and no other filter |
| FilterContext.FilterStore.SetDateTo | apps/web-dashboard/contexts/FilterContext.tsx:50-66 | sets the end date and no other filter |
| FilterContext.FilterStore.SetSelectedProject | apps/web-dashboard/contexts/FilterContext.tsx:50-66 | sets the project and no other filter |
| FilterContext.FilterStore.SetSelectedSource | apps/web-dashboard/contexts/FilterContext.tsx:50-66 | sets the source and no other filter |
| FilterContext.FilterStore.SetSelectedStatus | apps/web-dashboard/contexts/FilterContext.tsx:50-66 | sets the status and no other filter |
| FilterContext.FilterStore.SetShowDuplicates | apps/web-dashboard/contexts/FilterContext.tsx:50-66 | sets the duplicates switch and no other filter |
| FilterContext.FilterStore.ResetFilters | apps/web-dashboard/contexts/FilterContext.tsx:40-47 | reset restores exactly the initial filters |
| FilterContext.UseFilters | apps/web-dashboard/contexts/FilterContext.tsx:72-77 | outside a provider the hook fails with its message; inside, it returns the provider's store |
| LeadsPage.WithKey | apps/web-dashboard/pages/leads/LeadsPage.tsx:133-143 | a group holds exactly the leads whose phone (or email) equals the key |
| LeadsPage.WithKeyPair | apps/web-dashboard/pages/leads/LeadsPage.tsx:146-158 | a group has two or more leads exactly when two distinct positions carry its key |
| LeadsPage.LargeGroupsAreTwins | apps/web-dashboard/pages/leads/LeadsPage.tsx:146-158 | the leads in groups of two or more are exactly the leads with a twin through that field |
| LeadsPage.AddToGroupStep | apps/web-dashboard/pages/leads/LeadsPage.tsx:133-143 | appending one lead to its group keeps the table equal to the grouping of the longer list |
| LeadsPage.GroupTableGrouped | apps/web-dashboard/pages/leads/LeadsPage.tsx:133-143 | after visiting every lead, the table holds for each non-empty key exactly the leads carrying it, and no entry for the empty key |
| LeadsPage.GroupBy | apps/web-dashboard/pages/leads/LeadsPage.tsx:133-143 | the `forEach` loop builds the group table of all the leads |
| LeadsPage.LargeGroupIdsStep | apps/web-dashboard/pages/leads/LeadsPage.tsx:146-158 | visiting one key adds the ids of its group exactly when the group is large |
| LeadsPage.AddLargeGroups | apps/web-dashboard/pages/leads/LeadsPage.tsx:146-158 | the loop over groups adds the ids of every large group |
| LeadsPage.DetectDuplicates | apps/web-dashboard/pages/leads/LeadsPage.tsx:129-159 | the result is exactly the ids of leads sharing a non-empty phone or a non-empty email with another lead |
| LeadsPage.DuplicateIds | apps/web-dashboard/pages/leads/LeadsPage.tsx:129-159 | the intended duplicate set, defined independently of the maps: the ids of the leads that share a non-empty phone or email with another lead; `DetectDuplicates` is proved equal to it |
| LeadsPage.DuplicatesComeFromInput | apps/web-dashboard/pages/leads/LeadsPage.tsx:129-159 | every reported id belongs to an input lead that has a twin |
| LeadsPage.EmptyContactsNeverDuplicate | apps/web-dashboard/pages/leads/LeadsPage.tsx:135-140 | when no two leads share a non-empty phone or email, nothing is reported, even if contacts are blank |
| LeadsPage.MatchesSearch | apps/web-dashboard/pages/leads/LeadsPage.tsx:165-173 | the lowered query occurs in the lowered name, email or notes, or in the phone as stored (so an upper-case letter in a stored phone can never be matched); `Keep` skips it for an empty query |
| LeadsPage.MatchesProject | apps/web-dashboard/pages/leads/LeadsPage.tsx:191-194 | `all` matches every lead, `unspecified` the leads without a project, any other value the leads of that project |
| LeadsPage.Keep | apps/web-dashboard/pages/leads/LeadsPage.tsx:163-196 | the filter predicate: search, day range, duplicates, source, status and project must all pass; `ShownLeadsMatchSelectors` states what it guarantees |
| LeadsPage.FilteredLeads | apps/web-dashboard/pages/leads/LeadsPage.tsx:163-196 | `filteredLeads`; `FilteredIsSubseq` proves it deletes leads without reordering and `DefaultsKeepAll` that the initial filters keep everything |
| LeadsPage.FilteredIsSubseq | apps/web-dashboard/pages/leads/LeadsPage.tsx:163-196 | the shown leads are the input with some leads removed, order kept |
| LeadsPage.DefaultsKeepAll | apps/web-dashboard/pages/leads/LeadsPage.tsx:163-196 | with an empty search and the initial filters every lead is shown |
| LeadsPage.ShownLeadsMatchSelectors | apps/web-dashboard/pages/leads/LeadsPage.tsx:186-194 | a shown lead is a duplicate when the switch is on, and matches the chosen project and source |
| LeadsPage.Toggled | apps/web-dashboard/pages/leads/LeadsPage.tsx:198-206 | toggling flips the membership of that id and of no other |
| LeadsPage.ToggleTwice | apps/web-dashboard/pages/leads/LeadsPage.tsx:198-206 | toggling an id twice restores the selection |
| LeadsPage.Ids | apps/web-dashboard/pages/leads/LeadsPage.tsx:212 | the id set holds exactly the ids of the listed leads |
| LeadsPage.SelectAll | apps/web-dashboard/pages/leads/LeadsPage.tsx:208-214 | clears the selection when it is as large as the shown list and otherwise selects every shown id; `SelectAllRoundTrip` and `SelectAllComparesSizesOnly` are stated on it |
| LeadsPage.DistinctIdsCount | apps/web-dashboard/pages/leads/LeadsPage.tsx:208-214 | with distinct ids the id set is as large as the list |
| LeadsPage.SelectAllRoundTrip | apps/web-dashboard/pages/leads/LeadsPage.tsx:208-214 | with distinct ids, select-all from nothing selects every shown lead and a second click clears it |
| LeadsPage.SelectAllComparesSizesOnly | apps/web-dashboard/pages/leads/LeadsPage.tsx:209 | a selection with as many ids as shown leads is cleared, whichever ids it holds |
| LeadsPage.LeadSelection.ToggleSelectLead | apps/web-dashboard/pages/leads/LeadsPage.tsx:198-206 | the selection becomes the toggled selection |
| LeadsPage.LeadSelection.ToggleSelectAll | apps/web-dashboard/pages/leads/LeadsPage.tsx:208-214 | the selection becomes empty when sizes match, otherwise all shown ids |
| FollowUpPage.LeadActivitiesSpec | apps/web-dashboard/pages/followup/FollowUpPage.tsx:197-203 | with no lead selected the timeline is empty; otherwise it is the selected lead's activities of the chosen type, in order |
| FollowUpPage.LeadActivities | apps/web-dashboard/pages/followup/FollowUpPage.tsx:197-203 | `leadActivities`; `LeadActivitiesSpec` proves it is the selected lead's activities of the chosen type, in order |
| FollowUpPage.ChatsAndCallsCoverLead | apps/web-dashboard/pages/followup/FollowUpPage.tsx:197-203 | a lead's chat tab and call tab together hold as many activities as its "all" tab |
| FollowUpPage.StatsAddUp | apps/web-dashboard/pages/followup/FollowUpPage.tsx:220-222 | the chat and call counters add up to the total |
| FollowUpPage.ChatCount | apps/web-dashboard/pages/followup/FollowUpPage.tsx:221 | the chat count of the header; `StatsAddUp` proves it and `CallCount` add up to the number of activities |
| FollowUpPage.CallCount | apps/web-dashboard/pages/followup/FollowUpPage.tsx:222 | the call count of the header; partner lemma `StatsAddUp` |
| FollowUpPage.FindLead | apps/web-dashboard/pages/followup/FollowUpPage.tsx:205 | finds the first lead with the selected id, or nothing when none matches |
| FollowUpPage.CanSendMessage | apps/web-dashboard/pages/followup/FollowUpPage.tsx:206 | sending is allowed exactly when the chat filter is on and the selected lead came in by chat |
| FollowUpPage.StatusColorsDistinct | apps/web-dashboard/pages/followup/FollowUpPage.tsx:186-195 | the five statuses get five different colours; unknown statuses get grey |
| FollowUpPage.StatusColor | apps/web-dashboard/pages/followup/FollowUpPage.tsx:186-195 | the page's own status colours, with "qualified" and "converted" swapped relative to the lead list; `StatusColorsDistinct` and `LeadList.StatusColorsDisagreeAcrossPages` are stated on it |
| FollowUpPage.ChannelIcon | apps/web-dashboard/pages/followup/FollowUpPage.tsx:168-175 | the channel icon, `📝` for an activity without a channel; partner lemma `ChannelBadgesDistinct` |
| FollowUpPage.ChannelColor | apps/web-dashboard/pages/followup/FollowUpPage.tsx:177-184 | the channel colour, grey for an activity without a channel; partner lemma `ChannelBadgesDistinct` |
| FollowUpPage.ChannelBadgesDistinct | apps/web-dashboard/pages/followup/FollowUpPage.tsx:168-184 | the three channels and the missing channel have pairwise distinct icons and colours; no channel is the grey `📝` note |
| FollowUpPage.FollowUp.constructor | apps/web-dashboard/pages/followup/FollowUpPage.tsx:32-34 | no lead selected, every activity type, an empty input |
| FollowUpPage.FollowUp.SelectLead | apps/web-dashboard/pages/followup/FollowUpPage.tsx:251 | selects the lead; the filter and the draft are kept |
| FollowUpPage.FollowUp.SetActivityFilter | apps/web-dashboard/pages/followup/FollowUpPage.tsx:374-406 | sets the activity filter only |
| FollowUpPage.FollowUp.SetMessageInput | apps/web-dashboard/pages/followup/FollowUpPage.tsx:532 | sets the draft only |
| FollowUpPage.FollowUp.HandleSendMessage | apps/web-dashboard/pages/followup/FollowUpPage.tsx:208-212 | clears a non-blank draft when sending is allowed, and otherwise changes nothing |
| FollowUpPage.FollowUp.Timeline | apps/web-dashboard/pages/followup/FollowUpPage.tsx:197-203 | the timeline on screen: empty while no lead is selected, otherwise exactly the selected lead's activities of the chosen type, in their original order |
| ChatPage.FilteredConversations | apps/web-dashboard/pages/chat/ChatPage.tsx:108-111 | keeps exactly the conversations of the chosen channel, in their original order; "all" keeps the list as it is |
| ChatPage.TabsPartitionConversations | apps/web-dashboard/pages/chat/ChatPage.tsx:162-204 | the three channel tabs together count every conversation once |
| ChatPage.CurrentMessages | apps/web-dashboard/pages/chat/ChatPage.tsx:113-115 | no open conversation means no messages; otherwise exactly its messages, in order |
| ChatPage.ChannelBadges | apps/web-dashboard/pages/chat/ChatPage.tsx:119-135 | each channel gets its own colour and icon; an unknown channel gets the grey `#6b7280` and the `💬` icon, which is WhatsApp's |
| ChatPage.ChannelColor | apps/web-dashboard/pages/chat/ChatPage.tsx:119-126 | `getChannelColor`: the brand colour, `#6b7280` otherwise; partner lemma `ChannelBadges` |
| ChatPage.ChannelIcon | apps/web-dashboard/pages/chat/ChatPage.tsx:128-135 | `getChannelIcon`: the channel icon, `💬` otherwise; partner lemma `ChannelBadges` |
| ChatPage.Chat.constructor | apps/web-dashboard/pages/chat/ChatPage.tsx:25-27 | no conversation open, empty draft, all channels |
| ChatPage.Chat.SelectChannel | apps/web-dashboard/pages/chat/ChatPage.tsx:162-204 | sets the channel tab only |
| ChatPage.Chat.SelectConversation | apps/web-dashboard/pages/chat/ChatPage.tsx:225 | opens the conversation only |
| ChatPage.Chat.SetMessageInput | apps/web-dashboard/pages/chat/ChatPage.tsx:409 | sets the draft only |
| ChatPage.Chat.HandleSendMessage | apps/web-dashboard/pages/chat/ChatPage.tsx:137-143 | clears a non-blank draft when a conversation is open; the message goes nowhere |
| ChatPanel.Received | apps/web-dashboard/components/ChatPanel.tsx:32-36 | a received message carries the event's fields and timestamp, with no id or creation time |
| ChatPanel.Outgoing | apps/web-dashboard/components/ChatPanel.tsx:62-68 | the local copy is from "agent", with id `msg-<stamp>` and the creation time |
| ChatPanel.PlatformIcons | apps/web-dashboard/components/ChatPanel.tsx:96-103 | LINE, Facebook and web get distinct icons; any other platform gets the default |
| ChatPanel.PlatformIcon | apps/web-dashboard/components/ChatPanel.tsx:96-103 | `getPlatformIcon`; partner lemma `PlatformIcons` |
| ChatPanel.OneDayOneDivider | apps/web-dashboard/components/ChatPanel.tsx:116-117 | when all messages fall on one day, only the first shows a date divider |
| ChatPanel.ShowDate | apps/web-dashboard/components/ChatPanel.tsx:116-117 | `showDate`: the first message, or one whose formatted date differs from its predecessor's; `OneDayOneDivider`, `AppendKeepsDividers` and `EchoOpensDivider` are stated on it |
| ChatPanel.AppendKeepsDividers | apps/web-dashboard/components/ChatPanel.tsx:116-117 | appending a message never changes the dividers above it |
| ChatPanel.EchoOpensDivider | apps/web-dashboard/components/ChatPanel.tsx:62-68 | the local copy has a creation time and the echo a timestamp, so with different formatted dates the echo opens a divider |
| ChatPanel.Panel.constructor | apps/web-dashboard/components/ChatPanel.tsx:12-14 | empty history, empty draft, nobody typing |
| ChatPanel.Panel.LoadLead | apps/web-dashboard/components/ChatPanel.tsx:17-21 | loads the lead's stored history; the draft and the typing flag are kept |
| ChatPanel.Panel.SetNewMessage | apps/web-dashboard/components/ChatPanel.tsx:157 | sets the draft only |
| ChatPanel.Panel.Receive | apps/web-dashboard/components/ChatPanel.tsx:32-49 | a message for this lead is appended; typing events for this lead set or clear the indicator; events for other leads change nothing |
| ChatPanel.Panel.HandleSendMessage | apps/web-dashboard/components/ChatPanel.tsx:58-80 | with a non-blank draft and a socket: emits `send-message`, appends the local copy, clears the draft; otherwise does nothing |
| CallLogPanel.Decimal | apps/web-dashboard/components/CallLogPanel.tsx:125 | the decimal text of a duration is a non-empty run of digits |
| CallLogPanel.DecimalValue | apps/web-dashboard/components/CallLogPanel.tsx:31 | the digits of a decimal text read back as the number |
| CallLogPanel.ParseIntDigits | apps/web-dashboard/components/CallLogPanel.tsx:31 | `parseInt` reads a string of digits as its value |
| CallLogPanel.ParseIntMinusDigits | apps/web-dashboard/components/CallLogPanel.tsx:31 | `parseInt` reads a minus sign and digits as the negated value |
| CallLogPanel.ParseIntDecimal | apps/web-dashboard/components/CallLogPanel.tsx:31 | `parseInt` of a number's decimal text is the number |
| CallLogPanel.ParseIntNegativeDecimal | apps/web-dashboard/components/CallLogPanel.tsx:31 | `parseInt` of a minus sign and a decimal is the negative number |
| CallLogPanel.ParseInt | apps/web-dashboard/components/CallLogPanel.tsx:31 | `parseInt(s)`: leading white space skipped, an optional sign, the longest digit run, `None` for NaN; the `ParseInt…` lemmas prove it inverts decimal rendering |
| CallLogPanel.FormatDurationPositive | apps/web-dashboard/components/CallLogPanel.tsx:43-48 | a positive duration shows minutes and seconds under 60 that add back to the duration |
| CallLogPanel.FormatDurationNegative | apps/web-dashboard/components/CallLogPanel.tsx:43-48 | a negative duration that is not whole minutes shows a minute too much |
| CallLogPanel.FormatDuration | apps/web-dashboard/components/CallLogPanel.tsx:43-48 | `formatDuration`: not specified for a missing or zero duration, otherwise floored minutes and truncated seconds; partner lemmas `FormatDurationPositive` and `FormatDurationNegative` |
| CallLogPanel.DurationHintShowsTypedDuration | apps/web-dashboard/components/CallLogPanel.tsx:131 | the hint is absent exactly while the input is empty; a typed positive number of seconds shows as minutes and seconds that add back to it, zero as not specified, a typed negative non-whole-minute value a minute too much |
| CallLogPanel.DurationHint | apps/web-dashboard/components/CallLogPanel.tsx:131 | the `≈ …` hint under the duration input; partner lemma `DurationHintShowsTypedDuration` |
| CallLogPanel.TotalDurationAppend | apps/web-dashboard/components/CallLogPanel.tsx:79-82 | the total of two lists is the sum of their totals |
| CallLogPanel.TotalDurationZero | apps/web-dashboard/components/CallLogPanel.tsx:79-82 | with non-negative durations the total is shown as unspecified exactly when every call has zero or no duration |
| CallLogPanel.TotalDuration | apps/web-dashboard/components/CallLogPanel.tsx:79-82 | the sum of `call.duration \|\| 0`; `TotalDurationAppend` and `TotalDurationZero` are stated on it |
| CallLogPanel.StatusBadges | apps/web-dashboard/components/CallLogPanel.tsx:61-77 | each call status gets its own icon and label; others get the phone icon and their raw name |
| CallLogPanel.StatusIcon | apps/web-dashboard/components/CallLogPanel.tsx:61-68 | `getStatusIcon`, `📞` for an unknown status; partner lemma `StatusBadges` |
| CallLogPanel.StatusLabel | apps/web-dashboard/components/CallLogPanel.tsx:70-77 | `getStatusLabel`, the status itself when unknown; partner lemma `StatusBadges` |
| CallLogPanel.NewCall | apps/web-dashboard/components/CallLogPanel.tsx:27-35 | the logged call carries the form's status and notes, the lead id, and no duration when the field is empty |
| CallLogPanel.NewCallDuration | apps/web-dashboard/components/CallLogPanel.tsx:31 | a duration typed as a whole number of seconds is stored as that number |
| CallLogPanel.CallLog.constructor | apps/web-dashboard/components/CallLogPanel.tsx:10-16 | no calls, the form closed and empty |
| CallLogPanel.CallLog.LoadLead | apps/web-dashboard/components/CallLogPanel.tsx:18-22 | loads the lead's stored calls; the form is kept |
| CallLogPanel.CallLog.StartLogging | apps/web-dashboard/components/CallLogPanel.tsx:98 | opens the form only |
| CallLogPanel.CallLog.SetStatus | apps/web-dashboard/components/CallLogPanel.tsx:110 | sets the form's status only |
| CallLogPanel.CallLog.SetDuration | apps/web-dashboard/components/CallLogPanel.tsx:125 | sets the form's duration only |
| CallLogPanel.CallLog.SetNotes | apps/web-dashboard/components/CallLogPanel.tsx:139 | sets the form's notes only |
| CallLogPanel.CallLog.HandleSubmitCall | apps/web-dashboard/components/CallLogPanel.tsx:24-41 | the new call goes first, the total grows by its duration, and the form is reset and closed |
| CallLogPanel.CallLog.Cancel | apps/web-dashboard/components/CallLogPanel.tsx:150-153 | closes and resets the form; the calls are kept |
| LeadList.StatusBadges | apps/web-dashboard/components/LeadList.tsx:11-31 | the five statuses get distinct colours and labels; unknown statuses get grey and their raw name |
| LeadList.StatusColorsDisagreeAcrossPages | apps/web-dashboard/components/LeadList.tsx:11-20 | the list and the follow-up page swap the colours of qualified and converted, and agree on every other status |
| LeadList.StatusColor | apps/web-dashboard/components/LeadList.tsx:11-20 | `getStatusColor`, grey for an unknown status; partner lemma `StatusBadges` |
| LeadList.StatusLabel | apps/web-dashboard/components/LeadList.tsx:22-31 | `getStatusLabel`, the Thai name or the status itself; partner lemma `StatusBadges` |
| LeadList.FormatDateBuckets | apps/web-dashboard/components/LeadList.tsx:33-47 | the relative time falls in exactly one bucket by elapsed time, and each count is the floored quotient |
| LeadList.FormatDate | apps/web-dashboard/components/LeadList.tsx:33-47 | `formatDate` given the elapsed time: blank, just now, minutes, hours, days or the calendar date; `FormatDateBuckets` proves the buckets follow the elapsed time |
| LeadList.ShownTimestampChoice | apps/web-dashboard/components/LeadList.tsx:84 | the time is blank exactly when both times are missing, and otherwise uses the contact time when present |
| LeadList.ShownTimestamp | apps/web-dashboard/components/LeadList.tsx:84 | `lead.lastContactedAt \|\| lead.createdAt`; partner lemma `ShownTimestampChoice` |
| LeadList.IsHighlighted | apps/web-dashboard/components/LeadList.tsx:58 | the `selected` class, decided by id; partner lemma `SelectedLeadHighlightedAlone` |
| LeadList.SelectedLeadHighlightedAlone | apps/web-dashboard/components/LeadList.tsx:58 | nothing is highlighted without a selection; a lead sharing the selected lead's id is highlighted; with distinct ids exactly the selected lead is |
| LeadFollowupPage.FilteredLeads | apps/web-dashboard/pages/chat/index.tsx:37-42 | keeps, in order, exactly the leads matching the search and the status |
| LeadFollowupPage.DefaultsListEveryLead | apps/web-dashboard/pages/chat/index.tsx:37-42 | an empty search with status "all" lists every lead |
| LeadFollowupPage.MatchesSearch | apps/web-dashboard/pages/chat/index.tsx:38-39 | the search: the lowered query in the lowered name, or the raw query in the phone; `NameSearchIgnoresCase` and `PhoneSearchKeepsCase` are stated on it |
| LeadFollowupPage.Keep | apps/web-dashboard/pages/chat/index.tsx:37-42 | search and status must both pass; `FilteredLeads` states the list it selects |
| LeadFollowupPage.NameSearchIgnoresCase | apps/web-dashboard/pages/chat/index.tsx:38 | the lowered name contains the lowered query exactly when the query occurs in the name with letter case ignored, character by character |
| LeadFollowupPage.PhoneSearchKeepsCase | apps/web-dashboard/pages/chat/index.tsx:38-39 | the phone is searched with the raw query: for every query holding an ASCII upper-case letter, a lead whose phone is that query is matched by it but not by its lower-case form |
| LeadFollowupPage.StatusFilterSelectsStatus | apps/web-dashboard/pages/chat/index.tsx:39-40 | filtering by a status lists exactly the matching leads with that status |
| LeadFollowupPage.FollowUpScreen.constructor | apps/web-dashboard/pages/chat/index.tsx:11-15 | no lead selected, the chat tab, no leads, empty search, status "all" |
| LeadFollowupPage.FollowUpScreen.FetchLeads | apps/web-dashboard/pages/chat/index.tsx:20-27 | replaces the lead list only |
| LeadFollowupPage.FollowUpScreen.SetSearchQuery | apps/web-dashboard/pages/chat/index.tsx:64 | sets the search only |
| LeadFollowupPage.FollowUpScreen.SetStatusFilter | apps/web-dashboard/pages/chat/index.tsx:70 | sets the status and refetches the leads |
| LeadFollowupPage.FollowUpScreen.SetActiveTab | apps/web-dashboard/pages/chat/index.tsx:106-112 | sets the tab only |
| LeadFollowupPage.FollowUpScreen.HandleLeadSelect | apps/web-dashboard/pages/chat/index.tsx:29-35 | selects the lead and, with a socket, emits only a join for it, never a leave |
| LeadFollowupPage.FollowUpScreen.Listed | apps/web-dashboard/pages/chat/index.tsx:37-42 | the list on screen holds exactly the leads matching the search and the status filter, in their original order |
| LeadDetail.CardPlaceholders | apps/web-dashboard/components/LeadDetail.tsx:17-49 | each missing or empty field shows its placeholder and no other does; the badge colour is a known status colour |
| LeadDetail.FormatDateTime | apps/web-dashboard/components/LeadDetail.tsx:17-27 | `formatDateTime`: "ไม่ระบุ" for a missing or empty date, the formatter's text otherwise; partner lemma `CardPlaceholders` |
| LeadDetail.CardOf | apps/web-dashboard/components/LeadDetail.tsx:99-224 | the view-mode card of a lead; `CardPlaceholders` proves each placeholder means the datum is missing and the badge is the lead list's |
| LeadDetail.DetailCard.constructor | apps/web-dashboard/components/LeadDetail.tsx:9-10 | the draft starts as a copy of the lead, not editing |
| LeadDetail.DetailCard.ReceiveLead | apps/web-dashboard/components/LeadDetail.tsx:10 | a new lead prop replaces the lead but keeps the old draft |
| LeadDetail.DetailCard.StartEditing | apps/web-dashboard/components/LeadDetail.tsx:74 | enters editing; lead and draft unchanged |
| LeadDetail.DetailCard.Save | apps/web-dashboard/components/LeadDetail.tsx:12-15 | leaves editing without writing the draft back |
| LeadDetail.DetailCard.Cancel | apps/web-dashboard/components/LeadDetail.tsx:79 | leaves editing and keeps the draft |
| LeadDetail.DetailCard.EditName | apps/web-dashboard/components/LeadDetail.tsx:99 | changes the draft's name only |
| LeadDetail.DetailCard.EditPhone | apps/web-dashboard/components/LeadDetail.tsx:113 | changes the draft's phone only |
| LeadDetail.DetailCard.EditEmail | apps/web-dashboard/components/LeadDetail.tsx:131 | changes the draft's email only |
| LeadDetail.DetailCard.EditStatus | apps/web-dashboard/components/LeadDetail.tsx:156 | changes the draft's status only |
| LeadDetail.DetailCard.EditSource | apps/web-dashboard/components/LeadDetail.tsx:183 | changes the draft's source only |
| LeadDetail.DetailCard.EditNotes | apps/web-dashboard/components/LeadDetail.tsx:198 | changes the draft's notes only |
| LeadDetail.DetailCard.Shown | apps/web-dashboard/components/LeadDetail.tsx:99-224 | the card on screen is built from the `lead` prop, never from the edit draft; partner lemma `CardPlaceholders` |
| Navigation.PrefixesComparable | apps/web-dashboard/components/Sidebar.tsx:16-21 | two prefixes of one path are prefixes of each other |
| Navigation.AtMostOneActive | apps/web-dashboard/components/Sidebar.tsx:16-21 | in an unambiguous menu at most one item is active for any path |
| Navigation.IsActive | apps/web-dashboard/components/Sidebar.tsx:16-21 | `isActive`: "/" only on the root, any other path on every route it prefixes; `ActiveRuleExamples` and `AtMostOneActive` are stated on it |
| Navigation.ActiveItems | apps/web-dashboard/components/TopBar.tsx:22-27 | the items highlighted on a route, in menu order; partner lemma `AtMostOneHighlighted` |
| Navigation.AtMostOneHighlighted | apps/web-dashboard/components/Sidebar.tsx:16-21 | an unambiguous menu highlights at most one item on any route |
| Navigation.ClashFreeUnambiguous | apps/web-dashboard/components/Sidebar.tsx:7-21 | a menu whose paths do not clash is unambiguous |
| Navigation.SidebarPathsClashFree | apps/web-dashboard/components/Sidebar.tsx:7-14 | no sidebar path is a prefix of another |
| Navigation.TopBarPathsClashFree | apps/web-dashboard/components/TopBar.tsx:10-14 | no top-bar path is a prefix of another |
| Navigation.MainLayoutPathsClashFree | apps/web-dashboard/components/Layout/MainLayout.tsx:55-62 | no main-layout path is a prefix of another |
| Navigation.SidebarUnambiguous | apps/web-dashboard/components/Sidebar.tsx:7-21 | the sidebar highlights at most one item for any path |
| Navigation.TopBarUnambiguous | apps/web-dashboard/components/TopBar.tsx:10-27 | the top bar highlights at most one item for any path |
| Navigation.MainLayoutUnambiguous | apps/web-dashboard/components/Layout/MainLayout.tsx:55-69 | the main layout highlights at most one item for any path |
| Navigation.ActiveRuleExamples | apps/web-dashboard/components/TopBar.tsx:22-27 | the prefix rule highlights `/leads` on `/leadsX` and `/followup` on `/followup/42`; `/` only on `/`; nothing on `/login` |
| Navigation.RootHighlightsRootOnly | apps/web-dashboard/components/Sidebar.tsx:16-21 | on `/`, exactly the item with path `/` is active |
| Navigation.SidebarRootHighlightsHome | apps/web-dashboard/components/Sidebar.tsx:7-21 | on `/` the sidebar highlights exactly its home item |
| Navigation.TopBar.constructor | apps/web-dashboard/components/TopBar.tsx:7-8 | both pop-ups closed |
| Navigation.TopBar.ClickNotifications | apps/web-dashboard/components/TopBar.tsx:192-195 | toggles notifications and closes the user menu, so at most one pop-up is open |
| Navigation.TopBar.ClickUserMenu | apps/web-dashboard/components/TopBar.tsx:340-343 | toggles the user menu and closes notifications |
| Navigation.TopBar.Navigate | apps/web-dashboard/components/TopBar.tsx:100 | changes the path only; pop-ups stay as they are |
| Navigation.TopBar.Logout | apps/web-dashboard/components/TopBar.tsx:29-31 | goes to `/login`; pop-ups stay as they are |
| Navigation.TopBar.Highlighted | apps/web-dashboard/components/TopBar.tsx:22-27 | the top bar highlights exactly its active items, and never more than one |
| Navigation.MainLayout.constructor | apps/web-dashboard/components/Layout/MainLayout.tsx:52-53 | both menus closed |
| Navigation.MainLayout.OpenUserMenu | apps/web-dashboard/components/Layout/MainLayout.tsx:71-73 | anchors and opens the user menu; notifications untouched |
| Navigation.MainLayout.CloseUserMenu | apps/web-dashboard/components/Layout/MainLayout.tsx:75-77 | closes the user menu only |
| Navigation.MainLayout.OpenNotifMenu | apps/web-dashboard/components/Layout/MainLayout.tsx:79-81 | anchors and opens notifications; the user menu untouched |
| Navigation.MainLayout.CloseNotifMenu | apps/web-dashboard/components/Layout/MainLayout.tsx:83-85 | closes notifications only |
| Navigation.MainLayout.Navigate | apps/web-dashboard/components/Layout/MainLayout.tsx:312 | changes the path only |
| Navigation.MainLayout.HandleLogout | apps/web-dashboard/components/Layout/MainLayout.tsx:87-90 | closes the user menu and goes to `/login` |
| Navigation.MainLayout.Highlighted | apps/web-dashboard/components/Layout/MainLayout.tsx:64-69 | the layout's menu highlights exactly its active items, and never more than one |
| AuthMiddleware.Split | apps/api-server/src/common/auth.middleware.ts:5 | `split` gives at least one field, and exactly one when the separator is absent |
| AuthMiddleware.SplitFieldsHaveNoSeparator | apps/api-server/src/common/auth.middleware.ts:5 | no field of a split contains the separator |
| AuthMiddleware.JoinSplit | apps/api-server/src/common/auth.middleware.ts:5 | joining the fields of a split gives back the header |
| AuthMiddleware.FirstFieldEmpty | apps/api-server/src/common/auth.middleware.ts:5 | the first field is empty exactly when the header is empty or starts with the separator |
| AuthMiddleware.Token | apps/api-server/src/common/auth.middleware.ts:5 | `authorization?.split(' ')[1]`: the second space-separated field, missing when there is no header or no space; `AnySchemeAnyToken` and `MissingTokenRefused` are stated on it |
| AuthMiddleware.Authenticate | apps/api-server/src/common/auth.middleware.ts:3-13 | the guard: 401 "No token provided" for a missing or empty token, otherwise pass; partner lemma `AuthenticateSpec` |
| AuthMiddleware.AuthenticateSpec | apps/api-server/src/common/auth.middleware.ts:3-13 | a request passes exactly when the header has a space and the character right after its first space exists and is not a space; every refusal is 401 "No token provided" |
| AuthMiddleware.AnySchemeAnyToken | apps/api-server/src/common/auth.middleware.ts:5-12 | any first word and any non-empty space-free token pass, the token being the second word |
| AuthMiddleware.MissingTokenRefused | apps/api-server/src/common/auth.middleware.ts:7-9 | no header, a single word and a word followed by one space are all refused with 401 |
| AuthMiddleware.DoubleSpaceRefused | apps/api-server/src/common/auth.middleware.ts:5-9 | with two spaces after the scheme ("Bearer  x") the token is the empty field between them and the request is refused with 401, although a token word follows |
| Scenarios.SendFromPanel | apps/web-dashboard/components/ChatPanel.tsx:58-80 | a live send adds two entries to the sender's panel: the local copy, then the room echo |
| Scenarios.SwitchLeads | apps/web-dashboard/pages/chat/index.tsx:29-35 | after selecting a second lead the socket is in both rooms |
| Scenarios.StaleRoomMessage | apps/web-dashboard/components/ChatPanel.tsx:32-36 | a message for a room still joined is delivered but does not enter the panel of another lead |
| Scenarios.DoubleJoin | apps/socket-server/events/chat.events.ts:7-10 | a socket that joined twice receives a message once |
| Scenarios.OtherAgentTyping | apps/socket-server/events/chat.events.ts:34-37 | another agent's typing reaches this panel, which shows the indicator; the typist gets nothing |
| Scenarios.StaleDraft | apps/web-dashboard/components/LeadDetail.tsx:9-10 | after the card switches leads, its draft is still the previous lead |

## Left out

- Network, HTTP, database and socket transport: the relay model takes client events and returns deliveries. Logging (`console.log`) is not modelled.
- `Date.now()`, `new Date().toISOString()` and elapsed time are parameters (`stamp`, `now`, `elapsedMs`). Locale date formatting (`toLocaleDateString`, `th-TH`) is a parameter function.
- Mock data, scroll effects, hover styles, JSX layout and CSS are not modelled. The `useSocket` hook is only a `hasSocket` flag. The API controllers are not part of this model.
- Concurrency and event interleaving: each handler is one atomic step.
- Disconnect cleanup is done by socket.io, not by the repository's code; `Disconnected` models the library's documented behaviour.
- Text.Lower: `toLowerCase` is modelled on ASCII letters only.
- Text.JsLess: string `<` is code-unit order on `char`, with no UTF-16 surrogate handling.
- CallLogPanel.TotalDuration: durations are whole numbers of unbounded size, whereas JavaScript holds them as doubles. Fractional durations in stored call data, and the precision `parseInt` loses above 2^53, are not modelled. Inside the panel every duration comes from `parseInt`, which yields an integer or NaN.
- CallLogPanel.ParseInt: the `0x` prefix and radix guessing are not modelled. A result of `NaN` is `None`, which stores the duration as absent.
- Colour, icon and label lookups give the fallback for every key not in the table. JavaScript would also find inherited keys such as `toString`.
- LeadList.FormatDate, CallLogPanel.FormatDuration and LeadDetail.CardOf return structured values (buckets, minutes and seconds, card fields) rather than the rendered Thai text.
- CallLogPanel.CallLog.HandleSubmitCall: the browser's `required` check on the notes field is its precondition; the `min="0"` on the duration input is not modelled.
- LeadsPage.FilteredLeads: the date range compares day strings produced by a parameter function standing for `toISOString().split('T')[0]`. That function is total, so the `RangeError` which `toISOString` throws when a lead's `createdAt` does not parse as a date (LeadsPage.tsx:176 and 180), and which aborts the whole filter, is not modelled.
- Statuses in the lookup tables are strings, because the components accept any string and fall back.
