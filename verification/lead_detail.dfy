/** The lead detail card (apps/web-dashboard/components/LeadDetail.tsx):
    the fields it shows in view mode and the edit draft it keeps. */
module LeadDetail {
  import opened Optional
  import opened Types
  import LeadList

  const NotSpecified := "ไม่ระบุ"
  const NoNotes := "ไม่มีบันทึก"

  /** An optional text that JavaScript treats as true: present and non-empty. */
  predicate Truthy(s: Option<string>) {
    s.Some? && s.value != ""
  }

  function OrElse(s: Option<string>, fallback: string): string {
    if Truthy(s) then s.value else fallback
  }

  /** `formatDateTime`: "ไม่ระบุ" for a missing or empty date, otherwise the
      locale formatter's text. */
  function FormatDateTime(dateString: Option<string>, format: string -> string): string {
    if Truthy(dateString) then format(dateString.value) else NotSpecified
  }

  /** What the card shows in view mode. `email` is `None` where the
      "ไม่ระบุ" placeholder replaces the mail link. */
  datatype Card = Card(
    name: string,
    phone: string,
    email: Option<string>,
    statusColor: string,
    statusLabel: string,
    source: string,
    notes: string,
    createdAt: string,
    lastContactedAt: string,
    nextFollowUpAt: string)

  function CardOf(lead: Lead, format: string -> string): Card {
    Card(
      lead.name,
      lead.phone,
      if Truthy(lead.email) then lead.email else None,
      LeadList.StatusColor(StatusName(lead.status)),
      LeadList.StatusLabel(StatusName(lead.status)),
      OrElse(lead.source, NotSpecified),
      OrElse(lead.notes, NoNotes),
      FormatDateTime(Some(lead.createdAt), format),
      FormatDateTime(lead.lastContactedAt, format),
      FormatDateTime(lead.nextFollowUpAt, format))
  }

  /** A placeholder on the card means the lead lacks that datum (given a date
      formatter that never prints "ไม่ระบุ" itself, and data that does not
      hold the placeholder text), and the status badge is the one the lead
      list shows. */
  lemma CardPlaceholders(lead: Lead, format: string -> string)
    requires forall d :: format(d) != NotSpecified
    ensures var c := CardOf(lead, format);
            && (c.email.None? <==> !Truthy(lead.email))
            && (c.email.Some? ==> c.email == lead.email)
            && (c.lastContactedAt == NotSpecified <==> !Truthy(lead.lastContactedAt))
            && (c.nextFollowUpAt == NotSpecified <==> !Truthy(lead.nextFollowUpAt))
            && (c.createdAt == NotSpecified <==> lead.createdAt == "")
            && (lead.source != Some(NotSpecified) ==> (c.source == NotSpecified <==> !Truthy(lead.source)))
            && (lead.notes != Some(NoNotes) ==> (c.notes == NoNotes <==> !Truthy(lead.notes)))
            && c.statusColor == LeadList.StatusColor(StatusName(lead.status)) != "#6b7280"
  {
    LeadList.StatusBadges(lead.status, lead.status, "");
  }

  class DetailCard {
    /** The `lead` prop. */
    var lead: Lead
    var isEditing: bool
    /** The edit draft; React seeds it from the first `lead` only. */
    var editedLead: Lead

    constructor (lead: Lead)
      ensures this.lead == lead && editedLead == lead && !isEditing
    {
      this.lead, editedLead, isEditing := lead, lead, false;
    }

    /** A new `lead` prop: the card shows it, but the draft still holds what
        it held, so a later edit starts from the earlier lead's fields. */
    method ReceiveLead(l: Lead)
      modifies this
      ensures lead == l && editedLead == old(editedLead) && isEditing == old(isEditing)
    {
      lead := l;
    }

    /** The edit button. */
    method StartEditing()
      modifies this
      ensures isEditing && lead == old(lead) && editedLead == old(editedLead)
    {
      isEditing := true;
    }

    /** `handleSave`: leaves edit mode; the draft is neither sent nor copied
        into the shown lead, so the card shows the lead as it was. */
    method Save()
      modifies this
      ensures !isEditing && lead == old(lead) && editedLead == old(editedLead)
    {
      isEditing := false;
    }

    /** The cancel button: leaves edit mode without clearing the draft. */
    method Cancel()
      modifies this
      ensures !isEditing && lead == old(lead) && editedLead == old(editedLead)
    {
      isEditing := false;
    }

    method EditName(v: string)
      requires isEditing
      modifies this
      ensures editedLead == old(editedLead).(name := v) && lead == old(lead) && isEditing
    {
      editedLead := editedLead.(name := v);
    }

    method EditPhone(v: string)
      requires isEditing
      modifies this
      ensures editedLead == old(editedLead).(phone := v) && lead == old(lead) && isEditing
    {
      editedLead := editedLead.(phone := v);
    }

    method EditEmail(v: string)
      requires isEditing
      modifies this
      ensures editedLead == old(editedLead).(email := Some(v)) && lead == old(lead) && isEditing
    {
      editedLead := editedLead.(email := Some(v));
    }

    method EditStatus(s: LeadStatus)
      requires isEditing
      modifies this
      ensures editedLead == old(editedLead).(status := s) && lead == old(lead) && isEditing
    {
      editedLead := editedLead.(status := s);
    }

    method EditSource(v: string)
      requires isEditing
      modifies this
      ensures editedLead == old(editedLead).(source := Some(v)) && lead == old(lead) && isEditing
    {
      editedLead := editedLead.(source := Some(v));
    }

    method EditNotes(v: string)
      requires isEditing
      modifies this
      ensures editedLead == old(editedLead).(notes := Some(v)) && lead == old(lead) && isEditing
    {
      editedLead := editedLead.(notes := Some(v));
    }

    /** The view-mode card: always the `lead` prop, never the draft. */
    function Shown(format: string -> string): Card
      reads this
    {
      CardOf(lead, format)
    }
  }
}
