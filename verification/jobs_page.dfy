/** The jobs list page: the split of the loaded jobs into the active,
    completed and cancelled tabs, and the filter record the list request is
    built from, kept as page state and updated by the filter handlers. */
module JobsPage {
  import opened Wrappers
  import opened Types
  import opened Folds
  import opened JobService

  predicate IsActiveJob(j: Job) {
    j.status != COMPLETED && j.status != CANCELLED
  }

  predicate IsCompletedJob(j: Job) {
    j.status == COMPLETED
  }

  predicate IsCancelledJob(j: Job) {
    j.status == CANCELLED
  }

  /** The three tabs. */
  datatype Tabs = Tabs(active: seq<Job>, completed: seq<Job>, cancelled: seq<Job>)

  function Partition(jobs: seq<Job>): (r: Tabs)
    ensures forall j :: j in r.active ==> j in jobs && j.status != 9 && j.status != 10
    ensures forall j :: j in r.completed ==> j in jobs && j.status == 9
    ensures forall j :: j in r.cancelled ==> j in jobs && j.status == 10
  {
    Tabs(Filter(jobs, IsActiveJob), Filter(jobs, IsCompletedJob), Filter(jobs, IsCancelledJob))
  }

  /** Every job lands in exactly one tab: the three lists together hold the
      loaded jobs, each as often as it was loaded. */
  lemma {:induction false} PartitionIsExact(jobs: seq<Job>)
    ensures var t := Partition(jobs);
      multiset(t.active) + multiset(t.completed) + multiset(t.cancelled) == multiset(jobs)
    decreases |jobs|
  {
    if jobs != [] {
      var rest := jobs[..|jobs| - 1];
      var j := jobs[|jobs| - 1];
      assert jobs == rest + [j];
      PartitionIsExact(rest);
    }
  }

  /** A job is in the active tab exactly when it is neither completed nor
      cancelled, and each tab keeps the loaded order. */
  lemma PartitionMembership(jobs: seq<Job>, pre: seq<Job>, post: seq<Job>)
    ensures forall j :: j in Partition(jobs).active <==> j in jobs && j.status != 9 && j.status != 10
    ensures forall j :: j in Partition(jobs).completed <==> j in jobs && j.status == 9
    ensures forall j :: j in Partition(jobs).cancelled <==> j in jobs && j.status == 10
    ensures Partition(pre + post).active == Partition(pre).active + Partition(post).active
    ensures Partition(pre + post).completed == Partition(pre).completed + Partition(post).completed
    ensures Partition(pre + post).cancelled == Partition(pre).cancelled + Partition(post).cancelled
  {
    FilterMembership(jobs, IsActiveJob);
    FilterMembership(jobs, IsCompletedJob);
    FilterMembership(jobs, IsCancelledJob);
    FilterAppend(pre, post, IsActiveJob);
    FilterAppend(pre, post, IsCompletedJob);
    FilterAppend(pre, post, IsCancelledJob);
  }

  /** The page's filter state. `filters` is the request's parameter record,
      keyed by parameter name. */
  class JobsFilterState {
    var filters: map<string, JsValue>
    var searchTerm: string

    constructor ()
      ensures filters == map[] && searchTerm == ""
    {
      filters := map[];
      searchTerm := "";
    }

    /** `handleFilterChange`: set one key, keep all the others. */
    method HandleFilterChange(key: string, value: JsValue)
      modifies this
      ensures key in filters && filters[key] == value
      ensures forall k :: k != key ==> (k in filters <==> k in old(filters))
      ensures forall k :: k != key && k in filters ==> filters[k] == old(filters)[k]
      ensures searchTerm == old(searchTerm)
    {
      filters := filters[key := value];
    }

    /** `handleDateRangeChange`: a range with both ends sets both dates;
        anything else removes both date keys. Other keys are kept. */
    method HandleDateRangeChange(range: Option<(Option<string>, Option<string>)>)
      modifies this
      ensures range.Some? && range.value.0.Some? && range.value.1.Some? ==>
        filters == old(filters)["startDate" := Str(range.value.0.value)]["endDate" := Str(range.value.1.value)]
      ensures !(range.Some? && range.value.0.Some? && range.value.1.Some?) ==>
        filters == old(filters) - {"startDate", "endDate"}
      ensures searchTerm == old(searchTerm)
    {
      if range.Some? && range.value.0.Some? && range.value.1.Some? {
        filters := filters["startDate" := Str(range.value.0.value)]["endDate" := Str(range.value.1.value)];
      } else {
        filters := filters - {"startDate", "endDate"};
      }
    }

    /** `handleSearch`: remember the term and filter by it. */
    method HandleSearch(value: string)
      modifies this
      ensures searchTerm == value
      ensures filters == old(filters)["searchTerm" := Str(value)]
    {
      searchTerm := value;
      filters := filters["searchTerm" := Str(value)];
    }

    /** `handleFilterReset`: no filters and no search term. */
    method HandleFilterReset()
      modifies this
      ensures filters == map[] && searchTerm == ""
    {
      filters := map[];
      searchTerm := "";
    }

    /** The parameters of the list request made with the current filters. */
    function RequestParams(): (r: map<string, JsValue>)
      reads this
      ensures r == Cleaned(filters)
      ensures forall k :: k in r <==> k in filters && !IsBlank(filters[k])
      ensures forall k :: k in r ==> r[k] == filters[k]
    {
      GetAllParams(Some(filters))
    }
  }

  /** A cleared date range sends no date parameter, whatever was set before. */
  lemma ClearedRangeSendsNoDates(before: map<string, JsValue>)
    ensures "startDate" !in Cleaned(before - {"startDate", "endDate"})
    ensures "endDate" !in Cleaned(before - {"startDate", "endDate"})
  {
  }

  /** An empty search sends no search parameter. */
  lemma EmptySearchSendsNothing(before: map<string, JsValue>)
    ensures "searchTerm" !in Cleaned(before["searchTerm" := Str("")])
  {
  }

  /** After a reset the list request carries no parameters. */
  lemma ResetSendsNoParams()
    ensures GetAllParams(Some(map[])) == map[]
  {
  }
}
