/** The lead list beside the chat (apps/web-dashboard/components/LeadList.tsx):
    status badges, the relative time under each lead, and the highlight. */
module LeadList {
  import opened Optional
  import opened Types
  import FollowUpPage

  /** `getStatusColor` of the list (and of the lead detail card). */
  function StatusColor(status: string): string {
    match status
    case "new" => "#3b82f6"
    case "contacted" => "#f59e0b"
    case "qualified" => "#8b5cf6"
    case "converted" => "#10b981"
    case "lost" => "#ef4444"
    case _ => "#6b7280"
  }

  /** `getStatusLabel`: the Thai name of a status; anything else is shown as is. */
  function StatusLabel(status: string): string {
    match status
    case "new" => "ใหม่"
    case "contacted" => "ติดต่อแล้ว"
    case "qualified" => "มีคุณสมบัติ"
    case "converted" => "ปิดการขาย"
    case "lost" => "สูญเสีย"
    case _ => status
  }

  /** Every status has its own colour and its own label, neither of them the
      fallback; an unknown string is grey and labelled with itself. */
  lemma StatusBadges(a: LeadStatus, b: LeadStatus, other: string)
    requires other !in {"new", "contacted", "qualified", "converted", "lost"}
    ensures a != b ==> StatusColor(StatusName(a)) != StatusColor(StatusName(b))
    ensures a != b ==> StatusLabel(StatusName(a)) != StatusLabel(StatusName(b))
    ensures StatusColor(StatusName(a)) != StatusColor(other) == "#6b7280"
    ensures StatusLabel(other) == other
  {
  }

  /** The follow-up page colours "qualified" and "converted" the other way
      round: the same lead wears different badge colours on the two screens,
      and the other three statuses agree. */
  lemma StatusColorsDisagreeAcrossPages(s: LeadStatus)
    ensures FollowUpPage.StatusColor("qualified") == StatusColor("converted")
    ensures FollowUpPage.StatusColor("converted") == StatusColor("qualified")
    ensures FollowUpPage.StatusColor(StatusName(s)) == StatusColor(StatusName(s)) <==>
              s != Qualified && s != Converted
  {
  }

  const MinuteMs := 60000
  const HourMs := 3600000
  const DayMs := 86400000

  /** What `formatDate` renders: '' for a missing date, "เมื่อสักครู่" (just
      now), `${n} นาทีที่แล้ว`, `${n} ชั่วโมงที่แล้ว`, `${n} วันที่แล้ว`, or the
      calendar date from the locale formatter. */
  datatype RelativeTime =
    | Blank
    | JustNow
    | MinutesAgo(minutes: int)
    | HoursAgo(hours: int)
    | DaysAgo(days: int)
    | CalendarDate(date: string)

  /** `formatDate(dateString)`, given `elapsedMs`, the clock's now minus the
      parsed date in milliseconds (`None` when the date does not parse, which
      makes every comparison false). */
  function FormatDate(dateString: Option<string>, elapsedMs: Option<int>): RelativeTime {
    if dateString.None? || dateString.value == "" then Blank
    else if elapsedMs.None? then CalendarDate(dateString.value)
    else
      var diffMins := elapsedMs.value / MinuteMs;
      var diffHours := elapsedMs.value / HourMs;
      var diffDays := elapsedMs.value / DayMs;
      if diffMins < 1 then JustNow
      else if diffMins < 60 then MinutesAgo(diffMins)
      else if diffHours < 24 then HoursAgo(diffHours)
      else if diffDays < 7 then DaysAgo(diffDays)
      else CalendarDate(dateString.value)
  }

  /** The floored units give clean buckets on the elapsed time itself: under a
      minute (or in the future) is "just now", then 1-59 minutes, 1-23 hours,
      1-6 days, and from a week on the calendar date. */
  lemma FormatDateBuckets(d: string, e: int)
    requires d != ""
    ensures FormatDate(Some(d), Some(e)) == JustNow <==> e < MinuteMs
    ensures FormatDate(Some(d), Some(e)).MinutesAgo? <==> MinuteMs <= e < HourMs
    ensures FormatDate(Some(d), Some(e)).HoursAgo? <==> HourMs <= e < DayMs
    ensures FormatDate(Some(d), Some(e)).DaysAgo? <==> DayMs <= e < 7 * DayMs
    ensures FormatDate(Some(d), Some(e)) == CalendarDate(d) <==> e >= 7 * DayMs
    ensures var t := FormatDate(Some(d), Some(e));
            (t.MinutesAgo? ==> 1 <= t.minutes <= 59 && t.minutes * MinuteMs <= e < (t.minutes + 1) * MinuteMs) &&
            (t.HoursAgo? ==> 1 <= t.hours <= 23 && t.hours * HourMs <= e < (t.hours + 1) * HourMs) &&
            (t.DaysAgo? ==> 1 <= t.days <= 6 && t.days * DayMs <= e < (t.days + 1) * DayMs)
  {
  }

  /** `lead.lastContactedAt || lead.createdAt`: an empty contact time falls
      back like a missing one. */
  function ShownTimestamp(lead: Lead): Option<string> {
    if lead.lastContactedAt.Some? && lead.lastContactedAt.value != "" then lead.lastContactedAt
    else Some(lead.createdAt)
  }

  /** The time line of a lead is blank exactly when it has neither a contact
      time nor a creation time, and otherwise it is computed from the contact
      time when there is one. */
  lemma ShownTimestampChoice(lead: Lead, e: Option<int>)
    ensures FormatDate(ShownTimestamp(lead), e) == Blank <==>
              (lead.lastContactedAt.None? || lead.lastContactedAt.value == "") && lead.createdAt == ""
    ensures lead.lastContactedAt.Some? && lead.lastContactedAt.value != "" ==>
              FormatDate(ShownTimestamp(lead), e) == FormatDate(lead.lastContactedAt, e)
  {
  }

  /** The `selected` class: the list compares ids, so every lead sharing the
      selected lead's id is highlighted. */
  predicate IsHighlighted(selectedLead: Option<Lead>, lead: Lead) {
    selectedLead.Some? && selectedLead.value.id == lead.id
  }

  /** With distinct ids, selecting a listed lead highlights that lead and no
      other, and with no selection nothing is highlighted; two leads sharing
      an id are highlighted together. */
  lemma SelectedLeadHighlightedAlone(leads: seq<Lead>, k: int, i: int)
    requires 0 <= k < |leads| && 0 <= i < |leads|
    ensures !IsHighlighted(None, leads[i])
    ensures leads[i].id == leads[k].id ==> IsHighlighted(Some(leads[k]), leads[i])
    ensures (forall x, y | 0 <= x < y < |leads| :: leads[x].id != leads[y].id) ==>
              (IsHighlighted(Some(leads[k]), leads[i]) <==> i == k)
  {
  }
}
