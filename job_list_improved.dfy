/**
 * The paginated job list on the home page
 * (components/job-list-improved.tsx). It reads pages through
 * `Api.GetJobs`: page 1 replaces the list, later pages are appended,
 * "load more" is off while sample data is shown, and "retry" starts again
 * from page 1.
 *
 * Each fetch runs to completion before the next event; React's batching
 * of state updates is read as the updates taking effect in order.
 */
module JobListImprovedComponent {
  import opened Js
  import Api

  const SAMPLE_NOTICE := "Showing sample jobs. Sign in to see all available positions and access full features."
  const LOAD_FAILED := "Unable to load jobs. Please try again."

  /** The jobs a response contributes: `response.data.results || []`. */
  function ResultsOf(response: Api.ApiResponse<Api.JobPage>): seq<Api.Job>
    requires response.data.Some?
  {
    response.data.value.results.GetOr([])
  }

  class JobListImproved {
    var jobs: seq<Api.Job>
    var loading: bool
    var error: Option<string>
    var page: int
    var hasMore: bool
    var isUsingFallback: bool

    /** Pages are counted from 1. */
    ghost predicate Valid()
      reads this
    {
      page >= 1
    }

    /** The state before the first fetch. */
    constructor ()
      ensures Valid()
      ensures jobs == [] && loading && error.None? && page == 1 && hasMore && !isUsingFallback
    {
      jobs := [];
      loading := true;
      error := None;
      page := 1;
      hasMore := true;
      isUsingFallback := false;
    }

    /** Whether the "Load More Jobs" button is shown. */
    function ShowsLoadMore(): (r: bool)
      reads this
      ensures r ==> hasMore && !isUsingFallback
      ensures hasMore && !isUsingFallback ==> r
    {
      hasMore && !isUsingFallback
    }

    /**
     * `fetchJobs(pageNum)` once `getJobs(pageNum)` has answered `response`.
     * With data: page 1 replaces the jobs, other pages are appended,
     * `hasMore` follows `next` and sample data sets its notice. Without
     * data: the jobs stay and an error is set. `page` is not touched.
     */
    method FetchJobs(pageNum: int, response: Api.ApiResponse<Api.JobPage>)
      modifies this
      ensures page == old(page) && !loading
      ensures response.data.Some? && pageNum == 1 ==> jobs == ResultsOf(response)
      ensures response.data.Some? && pageNum != 1 ==> jobs == old(jobs) + ResultsOf(response)
      ensures response.data.Some? ==> hasMore == Truthy(response.data.value.next)
      ensures response.data.Some? ==> isUsingFallback == response.isFromFallback
      ensures response.data.Some? ==> error == if response.isFromFallback then Some(SAMPLE_NOTICE) else None
      ensures response.data.None? ==>
        jobs == old(jobs) && hasMore == old(hasMore) && isUsingFallback == old(isUsingFallback) &&
        error == Some(LOAD_FAILED)
      ensures response.isFromFallback && response.data.Some? ==> !ShowsLoadMore()
    {
      loading := true;
      error := None;
      if response.data.Some? {
        var jobsArray := response.data.value.results.GetOr([]);
        if pageNum == 1 {
          jobs := jobsArray;
        } else {
          jobs := jobs + jobsArray;
        }
        hasMore := Truthy(response.data.value.next);
        isUsingFallback := response.isFromFallback;
        if response.isFromFallback {
          error := Some(SAMPLE_NOTICE);
        }
      } else {
        error := Some(LOAD_FAILED);
      }
      loading := false;
    }

    /**
     * `loadMore`: nothing while sample data is shown; otherwise fetch the
     * next page, which is appended because pages start at 1.
     * `response` is what `getJobs` answers for that next page.
     */
    method LoadMore(response: Api.ApiResponse<Api.JobPage>)
      requires Valid()
      modifies this
      ensures Valid()
      ensures old(isUsingFallback) ==>
        jobs == old(jobs) && page == old(page) && loading == old(loading) && error == old(error) &&
        hasMore == old(hasMore) && isUsingFallback
      ensures !old(isUsingFallback) ==> page == old(page) + 1 && !loading
      ensures !old(isUsingFallback) && response.data.Some? ==>
        jobs == old(jobs) + ResultsOf(response) &&
        hasMore == Truthy(response.data.value.next) &&
        isUsingFallback == response.isFromFallback &&
        error == if response.isFromFallback then Some(SAMPLE_NOTICE) else None
      ensures !old(isUsingFallback) && response.data.None? ==>
        jobs == old(jobs) && hasMore == old(hasMore) && !isUsingFallback && error == Some(LOAD_FAILED)
    {
      if !isUsingFallback {
        var nextPage := page + 1;
        page := nextPage;
        FetchJobs(nextPage, response);
      }
    }

    /**
     * `retry`: back to page 1 with an empty list, then fetch page 1.
     * `response` is what `getJobs(1)` answers.
     */
    method Retry(response: Api.ApiResponse<Api.JobPage>)
      modifies this
      ensures Valid() && page == 1 && !loading
      ensures response.data.Some? ==>
        jobs == ResultsOf(response) &&
        hasMore == Truthy(response.data.value.next) &&
        isUsingFallback == response.isFromFallback &&
        error == if response.isFromFallback then Some(SAMPLE_NOTICE) else None
      ensures response.data.None? ==>
        jobs == [] && hasMore == old(hasMore) && isUsingFallback == old(isUsingFallback) &&
        error == Some(LOAD_FAILED)
    {
      page := 1;
      jobs := [];
      FetchJobs(1, response);
    }
  }

  /**
   * With the real client behind it: after any fetch the list has data, so
   * the "Unable to load jobs" branch is not taken; sample data switches
   * "load more" off and, on page 1, shows all eight sample jobs.
   */
  method FetchThroughClient(list: JobListImproved, pageNum: int, o: Api.Outcome<Api.JobPage>)
    modifies list
    ensures list.error != Some(LOAD_FAILED)
    ensures list.isUsingFallback <==> Api.GetJobs(pageNum, o).isFromFallback
    ensures list.isUsingFallback ==> !list.ShowsLoadMore() && list.error == Some(SAMPLE_NOTICE)
    ensures list.isUsingFallback && pageNum == 1 ==> list.jobs == Api.FALLBACK_JOBS
  {
    list.FetchJobs(pageNum, Api.GetJobs(pageNum, o));
  }
}
