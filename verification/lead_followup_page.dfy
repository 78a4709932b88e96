/** The lead follow-up screen (apps/web-dashboard/pages/chat/index.tsx): the
    searchable lead list, the selected lead, and the room join it emits. */
module LeadFollowupPage {
  import opened Optional
  import opened Text
  import opened Collections
  import opened Types
  import opened ChatRelay

  datatype FollowUpTab = ChatTab | CallTab

  /** Name (ignoring ASCII case) or phone (as typed) contains the query. */
  predicate MatchesSearch(lead: Lead, searchQuery: string) {
    Includes(Lower(lead.name), Lower(searchQuery)) || Includes(lead.phone, searchQuery)
  }

  predicate Keep(lead: Lead, searchQuery: string, statusFilter: string) {
    MatchesSearch(lead, searchQuery) && (statusFilter == "all" || StatusName(lead.status) == statusFilter)
  }

  /** `filteredLeads`. */
  function FilteredLeads(leads: seq<Lead>, searchQuery: string, statusFilter: string): (r: seq<Lead>)
    ensures forall l :: l in r <==> l in leads && Keep(l, searchQuery, statusFilter)
    ensures IsSubseq(r, leads)
  {
    FilterIsSubseq(leads, (l: Lead) => Keep(l, searchQuery, statusFilter));
    Filter(leads, (l: Lead) => Keep(l, searchQuery, statusFilter))
  }

  /** With an empty search box and "all" statuses every lead is listed. */
  lemma DefaultsListEveryLead(leads: seq<Lead>)
    ensures FilteredLeads(leads, "", "all") == leads
  {
    forall i | 0 <= i < |leads|
      ensures Keep(leads[i], "", "all")
    {
      IncludesEmpty(Lower(leads[i].name));
    }
    FilterKeepsAll(leads, (l: Lead) => Keep(l, "", "all"));
  }

  /** `q` occurs in `s` at position `i` when letter case is ignored. */
  predicate OccursIgnoringCase(s: string, q: string, i: int) {
    0 <= i <= |s| - |q| && forall k | 0 <= k < |q| :: LowerChar(s[i + k]) == LowerChar(q[k])
  }

  /** The name search is a case-insensitive substring search: the lowered
      query occurs in the lowered name exactly when the query occurs in the
      name with letter case ignored, whatever case either is written in. */
  lemma NameSearchIgnoresCase(name: string, q: string)
    ensures Includes(Lower(name), Lower(q)) <==> exists i :: OccursIgnoringCase(name, q, i)
  {
    var ln, lq := Lower(name), Lower(q);
    if Includes(ln, lq) {
      var i :| 0 <= i <= |ln| - |lq| && OccursAt(ln, lq, i);
      assert OccursIgnoringCase(name, q, i);
    }
    if exists i :: OccursIgnoringCase(name, q, i) {
      var i :| OccursIgnoringCase(name, q, i);
      assert OccursAt(ln, lq, i);
    }
  }

  /** The phone is searched with the query as typed, so lowering the query
      loses a match: a phone holding a query with an upper-case letter is
      found by that query but not by its lower-case form. */
  lemma PhoneSearchKeepsCase(lead: Lead, q: string)
    requires exists k | 0 <= k < |q| :: 'A' <= q[k] <= 'Z'
    requires lead.phone == q && lead.name == ""
    ensures MatchesSearch(lead, q) && !MatchesSearch(lead, Lower(q))
  {
    var k :| 0 <= k < |q| && 'A' <= q[k] <= 'Z';
    IncludesSelf(q);
    var lq := Lower(q);
    assert lq[k] != q[k];
    forall i | 0 <= i <= |q| - |lq|
      ensures !OccursAt(q, lq, i)
    {
      assert q[i..i + |lq|][k] == q[k];
    }
    assert Lower(lead.name) == [];
  }

  /** Choosing one status lists exactly the searched leads with that status. */
  lemma StatusFilterSelectsStatus(leads: seq<Lead>, searchQuery: string, s: LeadStatus, l: Lead)
    ensures l in FilteredLeads(leads, searchQuery, StatusName(s)) <==>
              l in leads && MatchesSearch(l, searchQuery) && l.status == s
  {
    if l.status != s {
      assert StatusName(l.status) != StatusName(s);
    }
  }

  class FollowUpScreen {
    var selectedLead: Option<Lead>
    var activeTab: FollowUpTab
    var leads: seq<Lead>
    var searchQuery: string
    var statusFilter: string

    constructor ()
      ensures selectedLead == None && activeTab == ChatTab && leads == []
      ensures searchQuery == "" && statusFilter == "all"
    {
      selectedLead, activeTab, leads, searchQuery, statusFilter := None, ChatTab, [], "", "all";
    }

    /** `fetchLeads`, run on mount and whenever the status filter changes. */
    method FetchLeads(source: seq<Lead>)
      modifies this
      ensures leads == source
      ensures selectedLead == old(selectedLead) && activeTab == old(activeTab)
      ensures searchQuery == old(searchQuery) && statusFilter == old(statusFilter)
    {
      leads := source;
    }

    method SetSearchQuery(q: string)
      modifies this
      ensures searchQuery == q
      ensures selectedLead == old(selectedLead) && activeTab == old(activeTab)
      ensures leads == old(leads) && statusFilter == old(statusFilter)
    {
      searchQuery := q;
    }

    /** Changing the status filter sets it and refetches the leads. */
    method SetStatusFilter(f: string, source: seq<Lead>)
      modifies this
      ensures statusFilter == f && leads == source
      ensures selectedLead == old(selectedLead) && activeTab == old(activeTab) && searchQuery == old(searchQuery)
    {
      statusFilter := f;
      FetchLeads(source);
    }

    method SetActiveTab(tab: FollowUpTab)
      modifies this
      ensures activeTab == tab
      ensures selectedLead == old(selectedLead) && leads == old(leads)
      ensures searchQuery == old(searchQuery) && statusFilter == old(statusFilter)
    {
      activeTab := tab;
    }

    /** `handleLeadSelect`: the lead becomes the selected one and, when a
        socket exists, a `join-lead-chat` for it is emitted. No
        `leave-lead-chat` is ever emitted for the previously selected lead. */
    method HandleLeadSelect(lead: Lead, hasSocket: bool) returns (emitted: seq<ClientEvent>)
      modifies this
      ensures selectedLead == Some(lead)
      ensures emitted == (if hasSocket then [JoinLeadChat(lead.id)] else [])
      ensures forall e | e in emitted :: !e.LeaveLeadChat?
      ensures activeTab == old(activeTab) && leads == old(leads)
      ensures searchQuery == old(searchQuery) && statusFilter == old(statusFilter)
    {
      selectedLead := Some(lead);
      emitted := if hasSocket then [JoinLeadChat(lead.id)] else [];
    }

    /** The list on screen. */
    function Listed(): (r: seq<Lead>)
      reads this
      ensures forall l :: l in r <==>
                l in leads && MatchesSearch(l, searchQuery) &&
                (statusFilter == "all" || StatusName(l.status) == statusFilter)
      ensures IsSubseq(r, leads)
    {
      FilteredLeads(leads, searchQuery, statusFilter)
    }
  }
}
