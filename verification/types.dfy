/** The shared records of the web dashboard (apps/web-dashboard/types/index.ts). */
module Types {
  import opened Optional

  datatype LeadStatus = New | Contacted | Qualified | Converted | Lost

  /** The string literal each status is written as. */
  function StatusName(s: LeadStatus): string {
    match s
    case New => "new"
    case Contacted => "contacted"
    case Qualified => "qualified"
    case Converted => "converted"
    case Lost => "lost"
  }

  datatype Lead = Lead(
    id: string,
    name: string,
    phone: string,
    email: Option<string>,
    status: LeadStatus,
    source: Option<string>,
    notes: Option<string>,
    assignedTo: Option<string>,
    createdAt: string,
    updatedAt: string,
    lastContactedAt: Option<string>,
    nextFollowUpAt: Option<string>)

  /** A chat message as the chat panel holds it at run time. The declared
      type makes `id` and `createdAt` mandatory, but an object received as
      `new-message` from the relay has neither and carries `timestamp`
      instead, so all three are optional here. */
  datatype ChatMessage = ChatMessage(
    id: Option<string>,
    leadId: string,
    message: string,
    sender: string,
    platform: Option<string>,
    createdAt: Option<string>,
    timestamp: Option<string>)

  datatype CallStatus = Completed | Missed | Scheduled

  function CallStatusName(s: CallStatus): string {
    match s
    case Completed => "completed"
    case Missed => "missed"
    case Scheduled => "scheduled"
  }

  datatype Call = Call(
    id: string,
    leadId: string,
    userId: string,
    duration: Option<int>,
    notes: Option<string>,
    status: CallStatus,
    createdAt: string)
}
