/** The dashboard-wide lead filters (apps/web-dashboard/contexts/FilterContext.tsx). */
module FilterContext {
  import opened Optional

  datatype LeadSource = Form | Chat

  /** `selectedSource`: `'all' | 'form' | 'chat'`. */
  datatype SourceChoice = AllSources | OnlySource(source: LeadSource)

  /** The six filter values at one moment. */
  datatype Filters = Filters(
    dateFrom: string,
    dateTo: string,
    project: string,
    source: SourceChoice,
    status: string,
    showDuplicates: bool)

  /** The provider's initial state, which `resetFilters` restores. */
  function Initial(): (f: Filters)
    ensures f.dateFrom == "" && f.dateTo == ""
    ensures f.project == "all" && f.source == AllSources && f.status == "all"
    ensures !f.showDuplicates
  {
    Filters("", "", "all", AllSources, "all", false)
  }

  /** The provider's state: six independent fields, each with its own setter. */
  class FilterStore {
    var dateFrom: string
    var dateTo: string
    var selectedProject: string
    var selectedSource: SourceChoice
    var selectedStatus: string
    var showDuplicates: bool

    function Snapshot(): Filters
      reads this
    {
      Filters(dateFrom, dateTo, selectedProject, selectedSource, selectedStatus, showDuplicates)
    }

    constructor ()
      ensures Snapshot() == Initial()
    {
      dateFrom, dateTo := "", "";
      selectedProject, selectedSource, selectedStatus := "all", AllSources, "all";
      showDuplicates := false;
    }

    method SetDateFrom(v: string)
      modifies this
      ensures Snapshot() == old(Snapshot()).(dateFrom := v)
    {
      dateFrom := v;
    }

    method SetDateTo(v: string)
      modifies this
      ensures Snapshot() == old(Snapshot()).(dateTo := v)
    {
      dateTo := v;
    }

    method SetSelectedProject(v: string)
      modifies this
      ensures Snapshot() == old(Snapshot()).(project := v)
    {
      selectedProject := v;
    }

    method SetSelectedSource(v: SourceChoice)
      modifies this
      ensures Snapshot() == old(Snapshot()).(source := v)
    {
      selectedSource := v;
    }

    method SetSelectedStatus(v: string)
      modifies this
      ensures Snapshot() == old(Snapshot()).(status := v)
    {
      selectedStatus := v;
    }

    method SetShowDuplicates(v: bool)
      modifies this
      ensures Snapshot() == old(Snapshot()).(showDuplicates := v)
    {
      showDuplicates := v;
    }

    /** Assigns the six fields in turn; the result does not depend on the
        previous state, so resetting twice is the same as resetting once. */
    method ResetFilters()
      modifies this
      ensures Snapshot() == Initial()
    {
      dateFrom := "";
      dateTo := "";
      selectedProject := "all";
      selectedSource := AllSources;
      selectedStatus := "all";
      showDuplicates := false;
    }
  }

  const OutsideProvider := "useFilters must be used within a FilterProvider"

  /** `useFilters()`: the nearest provider's store, or the error it throws
      when no provider encloses the caller. */
  function UseFilters(context: Option<FilterStore>): (r: Result<FilterStore, string>)
    ensures r.Err? <==> context.None?
    ensures context.Some? ==> r == Ok(context.value)
    ensures r.Err? ==> r.error == OutsideProvider
  {
    match context
    case None => Err(OutsideProvider)
    case Some(store) => Ok(store)
  }
}
