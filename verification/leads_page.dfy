/** The leads table page (apps/web-dashboard/pages/leads/LeadsPage.tsx):
    duplicate detection, the combined filter, and row selection. */
module LeadsPage {
  import opened Optional
  import opened Text
  import opened Collections
  import opened Types
  import opened FilterContext

  datatype Channel = Line | Facebook | WhatsApp

  /** The page's own lead record; `email` is `''` when unknown and `project`
      is `undefined` when the lead named none. */
  datatype PageLead = PageLead(
    id: string,
    name: string,
    phone: string,
    email: string,
    source: LeadSource,
    channel: Option<Channel>,
    status: LeadStatus,
    project: Option<string>,
    lastActivity: string,
    notes: string,
    createdAt: string)

  // ---------------------------------------------------------------------
  // Duplicate detection

  datatype ContactField = Phone | Email

  function Contact(l: PageLead, f: ContactField): string {
    match f
    case Phone => l.phone
    case Email => l.email
  }

  /** Leads `i` and `j` share a non-empty value of field `f`. */
  predicate SharesField(leads: seq<PageLead>, i: int, j: int, f: ContactField)
    requires 0 <= i < |leads| && 0 <= j < |leads|
  {
    Contact(leads[i], f) != "" && Contact(leads[i], f) == Contact(leads[j], f)
  }

  /** Some other lead shares lead `i`'s non-empty phone or non-empty email. */
  predicate HasTwin(leads: seq<PageLead>, i: int)
    requires 0 <= i < |leads|
  {
    exists j | 0 <= j < |leads| && j != i :: SharesField(leads, i, j, Phone) || SharesField(leads, i, j, Email)
  }

  /** The intended result of `detectDuplicates`: the ids of the leads that have a twin. */
  function DuplicateIds(leads: seq<PageLead>): set<string> {
    set i | 0 <= i < |leads| && HasTwin(leads, i) :: leads[i].id
  }

  /** The leads of `ls` whose field `f` equals `k`, in order: one map group. */
  function WithKey(ls: seq<PageLead>, f: ContactField, k: string): (g: seq<PageLead>)
    ensures |g| <= |ls|
    ensures forall l :: l in g <==> l in ls && Contact(l, f) == k
  {
    if ls == [] then []
    else
      var last := ls[|ls| - 1];
      var init := ls[..|ls| - 1];
      assert ls == init + [last];
      WithKey(init, f, k) + (if Contact(last, f) == k then [last] else [])
  }

  /** A group holds two or more leads exactly when two distinct positions carry the key. */
  lemma {:induction false} WithKeyPair(ls: seq<PageLead>, f: ContactField, k: string)
    ensures |WithKey(ls, f, k)| > 1 <==>
              exists i, j | 0 <= i < j < |ls| :: Contact(ls[i], f) == k && Contact(ls[j], f) == k
  {
    if ls != [] {
      var last := ls[|ls| - 1];
      var init := ls[..|ls| - 1];
      assert forall i | 0 <= i < |init| :: init[i] == ls[i];
      WithKeyPair(init, f, k);
      if Contact(last, f) == k {
        if |WithKey(init, f, k)| >= 1 {
          var l := WithKey(init, f, k)[0];
          assert l in init;
          var i :| 0 <= i < |init| && init[i] == l;
          assert Contact(ls[i], f) == k && Contact(ls[|ls| - 1], f) == k;
        } else {
          forall i | 0 <= i < |init|
            ensures Contact(ls[i], f) != k
          {
            assert init[i] in init;
          }
        }
      }
    }
  }

  /** The groups built from `ls` for field `f`, as `phoneMap`/`emailMap` hold them. */
  ghost predicate Grouped(groups: map<string, seq<PageLead>>, ls: seq<PageLead>, f: ContactField) {
    && "" !in groups
    && (forall k | k in groups :: groups[k] == WithKey(ls, f, k))
    && (forall k | k != "" && WithKey(ls, f, k) != [] :: k in groups)
  }

  /** The ids of every lead in a group of two or more. */
  function LargeGroupIds(groups: map<string, seq<PageLead>>): set<string> {
    set k, l | k in groups && |groups[k]| > 1 && l in groups[k] :: l.id
  }

  /** Lead `i` has a twin through field `f`. */
  predicate TwinBy(leads: seq<PageLead>, i: int, f: ContactField)
    requires 0 <= i < |leads|
  {
    exists j | 0 <= j < |leads| && j != i :: SharesField(leads, i, j, f)
  }

  /** The large groups of one field are exactly the leads with a twin through it. */
  lemma {:induction false} LargeGroupsAreTwins(groups: map<string, seq<PageLead>>, leads: seq<PageLead>, f: ContactField)
    requires Grouped(groups, leads, f)
    ensures LargeGroupIds(groups) == set i | 0 <= i < |leads| && TwinBy(leads, i, f) :: leads[i].id
  {
    var twins := set i | 0 <= i < |leads| && TwinBy(leads, i, f) :: leads[i].id;
    forall id | id in LargeGroupIds(groups)
      ensures id in twins
    {
      var k, l :| k in groups && |groups[k]| > 1 && l in groups[k] && l.id == id;
      WithKeyPair(leads, f, k);
      var i :| 0 <= i < |leads| && leads[i] == l;
      var a, b :| 0 <= a < b < |leads| && Contact(leads[a], f) == k && Contact(leads[b], f) == k;
      var j := if a != i then a else b;
      assert SharesField(leads, i, j, f);
    }
    forall id | id in twins
      ensures id in LargeGroupIds(groups)
    {
      var i :| 0 <= i < |leads| && TwinBy(leads, i, f) && leads[i].id == id;
      var j :| 0 <= j < |leads| && j != i && SharesField(leads, i, j, f);
      var k := Contact(leads[i], f);
      assert leads[i] in WithKey(leads, f, k);
      assert k in groups;
      if i < j {
        WithKeyPair(leads, f, k);
      } else {
        WithKeyPair(leads, f, k);
        assert Contact(leads[j], f) == k && Contact(leads[i], f) == k;
      }
    }
  }

  /** The group table after one more lead: the lead is appended to the group
      of its field value, if that value is non-empty. */
  function AddToGroup(groups: map<string, seq<PageLead>>, lead: PageLead, f: ContactField): map<string, seq<PageLead>> {
    var key := Contact(lead, f);
    if key == "" then groups
    else groups[key := (if key in groups then groups[key] else []) + [lead]]
  }

  lemma {:induction false} AddToGroupStep(groups: map<string, seq<PageLead>>, ls: seq<PageLead>, lead: PageLead, f: ContactField)
    requires Grouped(groups, ls, f)
    ensures Grouped(AddToGroup(groups, lead, f), ls + [lead], f)
  {
    var ls' := ls + [lead];
    assert ls'[..|ls'| - 1] == ls;
    var g' := AddToGroup(groups, lead, f);
    forall k
      ensures WithKey(ls', f, k) == WithKey(ls, f, k) + (if Contact(lead, f) == k then [lead] else [])
    {
    }
    forall k | k in g'
      ensures g'[k] == WithKey(ls', f, k)
    {
      if k == Contact(lead, f) && k !in groups {
        assert WithKey(ls, f, k) == [];
      }
    }
  }

  /** The group table after `forEach` has visited every lead of `ls`. */
  function GroupTable(ls: seq<PageLead>, f: ContactField): map<string, seq<PageLead>> {
    if ls == [] then map[]
    else AddToGroup(GroupTable(ls[..|ls| - 1], f), ls[|ls| - 1], f)
  }

  /** The table holds, for each non-empty key, the group of leads carrying it. */
  lemma {:induction false} GroupTableGrouped(ls: seq<PageLead>, f: ContactField)
    ensures Grouped(GroupTable(ls, f), ls, f)
  {
    if ls != [] {
      var init := ls[..|ls| - 1];
      GroupTableGrouped(init, f);
      AddToGroupStep(GroupTable(init, f), init, ls[|ls| - 1], f);
      assert init + [ls[|ls| - 1]] == ls;
    }
  }

  /** One `forEach` over the leads, appending each lead with a non-empty
      field `f` to the group of that value. */
  method GroupBy(leads: seq<PageLead>, f: ContactField) returns (groups: map<string, seq<PageLead>>)
    ensures groups == GroupTable(leads, f)
  {
    groups := map[];
    var i := 0;
    while i < |leads|
      invariant 0 <= i <= |leads|
      invariant groups == GroupTable(leads[..i], f)
    {
      var lead := leads[i];
      var key := Contact(lead, f);
      assert leads[..i + 1][..i] == leads[..i];
      if key != "" {
        var existing := if key in groups then groups[key] else [];
        groups := groups[key := existing + [lead]];
      }
      i := i + 1;
    }
    assert leads[..i] == leads;
  }

  /** Visiting one more key `k` adds the ids of its group if it has two or more leads. */
  lemma {:induction false} LargeGroupIdsStep(groups: map<string, seq<PageLead>>, pending: set<string>, k: string)
    requires k in pending && pending <= groups.Keys
    ensures LargeGroupIds(groups - (pending - {k})) ==
            LargeGroupIds(groups - pending) + (if |groups[k]| > 1 then set l | l in groups[k] :: l.id else {})
  {
    var after := groups - (pending - {k});
    var before := groups - pending;
    assert after == before[k := groups[k]];
    forall id | id in LargeGroupIds(after)
      ensures id in LargeGroupIds(before) || (|groups[k]| > 1 && id in set l | l in groups[k] :: l.id)
    {
      var k': string, l: PageLead :| k' in after && |after[k']| > 1 && l in after[k'] && l.id == id;
      if k' != k {
        assert k' in before;
      }
    }
    forall id | id in LargeGroupIds(before)
      ensures id in LargeGroupIds(after)
    {
      var k': string, l: PageLead :| k' in before && |before[k']| > 1 && l in before[k'] && l.id == id;
      assert k' in after && after[k'] == before[k'];
    }
    if |groups[k]| > 1 {
      forall l | l in groups[k]
        ensures l.id in LargeGroupIds(after)
      {
        assert k in after && after[k] == groups[k];
      }
    }
  }

  /** `group.forEach(lead => duplicateIds.add(lead.id))` for every group of two or more. */
  method AddLargeGroups(groups: map<string, seq<PageLead>>, dups: set<string>) returns (out: set<string>)
    ensures out == dups + LargeGroupIds(groups)
  {
    out := dups;
    var pending := groups.Keys;
    assert groups - pending == map[];
    while pending != {}
      invariant pending <= groups.Keys
      invariant out == dups + LargeGroupIds(groups - pending)
      decreases pending
    {
      var k :| k in pending;
      var group := groups[k];
      ghost var before := out;
      if |group| > 1 {
        var j := 0;
        while j < |group|
          invariant 0 <= j <= |group|
          invariant out == before + set l | l in group[..j] :: l.id
        {
          assert group[..j + 1] == group[..j] + [group[j]];
          out := out + {group[j].id};
          j := j + 1;
        }
        assert group[..j] == group;
      }
      LargeGroupIdsStep(groups, pending, k);
      pending := pending - {k};
    }
    assert groups - {} == groups;
  }

  /** `detectDuplicates`: the ids of the leads that share a non-empty phone
      or a non-empty email with another lead. */
  method DetectDuplicates(leads: seq<PageLead>) returns (duplicateIds: set<string>)
    ensures duplicateIds == DuplicateIds(leads)
  {
    var phoneMap := GroupBy(leads, Phone);
    var emailMap := GroupBy(leads, Email);
    duplicateIds := {};
    duplicateIds := AddLargeGroups(phoneMap, duplicateIds);
    duplicateIds := AddLargeGroups(emailMap, duplicateIds);
    GroupTableGrouped(leads, Phone);
    GroupTableGrouped(leads, Email);
    LargeGroupsAreTwins(phoneMap, leads, Phone);
    LargeGroupsAreTwins(emailMap, leads, Email);
  }

  /** Only ids of leads in the input are reported. */
  lemma {:induction false} DuplicatesComeFromInput(leads: seq<PageLead>, id: string)
    requires id in DuplicateIds(leads)
    ensures exists i | 0 <= i < |leads| :: leads[i].id == id && HasTwin(leads, i)
  {
  }

  /** Empty phones and emails never match: a list in which no non-empty
      phone or email repeats has no duplicates. */
  lemma {:induction false} EmptyContactsNeverDuplicate(leads: seq<PageLead>)
    requires forall i, j | 0 <= i < |leads| && 0 <= j < |leads| && i != j ::
               (leads[i].phone == leads[j].phone ==> leads[i].phone == "") &&
               (leads[i].email == leads[j].email ==> leads[i].email == "")
    ensures DuplicateIds(leads) == {}
  {
    forall i | 0 <= i < |leads|
      ensures !HasTwin(leads, i)
    {
    }
  }

  // ---------------------------------------------------------------------
  // Filtering

  /** The search box: the lower-cased query occurs in the lower-cased name,
      email or notes, or in the phone number as typed. */
  predicate MatchesSearch(lead: PageLead, searchQuery: string) {
    var query := Lower(searchQuery);
    || Includes(Lower(lead.name), query)
    || Includes(lead.phone, query)
    || Includes(Lower(lead.email), query)
    || Includes(Lower(lead.notes), query)
  }

  /** The project selector: `'all'`, `'unspecified'` (no project) or one project name. */
  predicate MatchesProject(lead: PageLead, project: string) {
    if project == "all" then true
    else if project == "unspecified" then lead.project.None?
    else lead.project == Some(project)
  }

  /** The `filteredLeads` predicate. `dayOf` stands for
      `new Date(createdAt).toISOString().split('T')[0]`. */
  predicate Keep(lead: PageLead, searchQuery: string, f: Filters, duplicateIds: set<string>, dayOf: string -> string) {
    && (searchQuery == "" || MatchesSearch(lead, searchQuery))
    && (f.dateFrom == "" || !JsLess(dayOf(lead.createdAt), f.dateFrom))
    && (f.dateTo == "" || !JsLess(f.dateTo, dayOf(lead.createdAt)))
    && (!f.showDuplicates || lead.id in duplicateIds)
    && (f.source == AllSources || lead.source == f.source.source)
    && (f.status == "all" || StatusName(lead.status) == f.status)
    && MatchesProject(lead, f.project)
  }

  function FilteredLeads(leads: seq<PageLead>, searchQuery: string, f: Filters,
                         duplicateIds: set<string>, dayOf: string -> string): seq<PageLead>
  {
    Filter(leads, l => Keep(l, searchQuery, f, duplicateIds, dayOf))
  }

  /** The filtered list is the input with some leads deleted, order kept. */
  lemma FilteredIsSubseq(leads: seq<PageLead>, searchQuery: string, f: Filters,
                         duplicateIds: set<string>, dayOf: string -> string)
    ensures IsSubseq(FilteredLeads(leads, searchQuery, f, duplicateIds, dayOf), leads)
  {
    FilterIsSubseq(leads, l => Keep(l, searchQuery, f, duplicateIds, dayOf));
  }

  /** With an empty search and the initial filters every lead is shown. */
  lemma DefaultsKeepAll(leads: seq<PageLead>, duplicateIds: set<string>, dayOf: string -> string)
    ensures FilteredLeads(leads, "", Initial(), duplicateIds, dayOf) == leads
  {
    FilterKeepsAll(leads, l => Keep(l, "", Initial(), duplicateIds, dayOf));
  }

  /** What the duplicate and project selectors guarantee of every shown lead. */
  lemma ShownLeadsMatchSelectors(leads: seq<PageLead>, searchQuery: string, f: Filters,
                                 duplicateIds: set<string>, dayOf: string -> string, l: PageLead)
    requires l in FilteredLeads(leads, searchQuery, f, duplicateIds, dayOf)
    ensures l in leads
    ensures f.showDuplicates ==> l.id in duplicateIds
    ensures f.project == "unspecified" ==> l.project.None?
    ensures f.project != "all" && f.project != "unspecified" ==> l.project == Some(f.project)
    ensures f.source.OnlySource? ==> l.source == f.source.source
  {
  }

  // ---------------------------------------------------------------------
  // Selection

  /** `selectedLeads` after `toggleSelectLead(id)`. */
  function Toggled(selected: set<string>, id: string): (r: set<string>)
    ensures forall x :: x in r <==> (x in selected <==> x != id)
  {
    if id in selected then selected - {id} else selected + {id}
  }

  /** Toggling the same id twice restores the selection. */
  lemma ToggleTwice(selected: set<string>, id: string)
    ensures Toggled(Toggled(selected, id), id) == selected
  {
  }

  /** The ids of a list of leads. */
  function Ids(leads: seq<PageLead>): (r: set<string>)
    ensures forall id :: id in r <==> exists l | l in leads :: l.id == id
  {
    set l | l in leads :: l.id
  }

  /** `selectedLeads` after `toggleSelectAll`: the choice is made on sizes alone. */
  function SelectAll(selected: set<string>, filtered: seq<PageLead>): set<string> {
    if |selected| == |filtered| then {} else Ids(filtered)
  }

  /** Distinct ids make the id set as large as the list. */
  lemma {:induction false} DistinctIdsCount(leads: seq<PageLead>)
    requires forall i, j | 0 <= i < j < |leads| :: leads[i].id != leads[j].id
    ensures |Ids(leads)| == |leads|
  {
    if leads != [] {
      var rest := leads[1..];
      DistinctIdsCount(rest);
      assert Ids(leads) == Ids(rest) + {leads[0].id};
      assert leads[0].id !in Ids(rest);
    }
  }

  /** With distinct ids, clicking "select all" twice from an empty selection
      selects every shown lead and then clears the selection again. */
  lemma SelectAllRoundTrip(filtered: seq<PageLead>)
    requires forall i, j | 0 <= i < j < |filtered| :: filtered[i].id != filtered[j].id
    ensures SelectAll({}, filtered) == Ids(filtered)
    ensures SelectAll(SelectAll({}, filtered), filtered) == {}
  {
    DistinctIdsCount(filtered);
  }

  /** Because only sizes are compared, a selection of leads that are no longer
      shown is cleared rather than replaced when it has as many entries as
      the shown list. */
  lemma SelectAllComparesSizesOnly(filtered: seq<PageLead>, selected: set<string>)
    requires |selected| == |filtered|
    ensures SelectAll(selected, filtered) == {}
  {
  }

  /** The page's selection state. */
  class LeadSelection {
    var selectedLeads: set<string>

    constructor ()
      ensures selectedLeads == {}
    {
      selectedLeads := {};
    }

    /** Copies the set, adds or deletes `leadId`, and stores the copy. */
    method ToggleSelectLead(leadId: string)
      modifies this
      ensures selectedLeads == Toggled(old(selectedLeads), leadId)
    {
      var newSelected := selectedLeads;
      if leadId in newSelected {
        newSelected := newSelected - {leadId};
      } else {
        newSelected := newSelected + {leadId};
      }
      selectedLeads := newSelected;
    }

    method ToggleSelectAll(filteredLeads: seq<PageLead>)
      modifies this
      ensures selectedLeads == SelectAll(old(selectedLeads), filteredLeads)
    {
      if |selectedLeads| == |filteredLeads| {
        selectedLeads := {};
      } else {
        selectedLeads := Ids(filteredLeads);
      }
    }
  }
}
