/**
 * The older job list (components/job-list.tsx). It calls `fetch` on the
 * jobs endpoint itself rather than the API client, accepts either a page
 * object or a bare array, and on a failed first load shows two built-in
 * sample jobs.
 *
 * The `jobs` the failure path inspects is the list as it stands when the
 * fetch ends; the stale-closure reading a React render could give is not
 * modelled.
 */
module JobListComponent {
  import opened Js
  import Api

  /**
   * The parsed JSON body, as far as the list reads it:
   * - `PageObject`: an object with a `results` array;
   * - `BareArray`: a JSON array (it has neither `results` nor `next`);
   * - `FalsyValue`: `0`, `false` or `""`, whose `results` and `next` are
   *   undefined.
   */
  datatype JobsBody =
    | PageObject(results: seq<Api.Job>, next: Option<string>)
    | BareArray(items: seq<Api.Job>)
    | FalsyValue

  /**
   * How the one `fetch` settles: an ok response with its body, a response
   * that is not ok, or a rejection of `fetch`, `response.text()` or
   * `response.json()` (a `null` body also ends here, as the `TypeError`
   * that reading `null.results` raises).
   */
  datatype FetchOutcome =
    | OkBody(body: JobsBody)
    | NotOk(status: int, statusText: string)
    | Failed(reason: Thrown)

  /** `data.results || data || []`. */
  function JobsArray(body: JobsBody): (r: seq<Api.Job>)
    ensures body.PageObject? ==> r == body.results
    ensures body.BareArray? ==> r == body.items
    ensures body.FalsyValue? ==> r == []
  {
    match body
    case PageObject(results, _) => results
    case BareArray(items) => items
    case FalsyValue => []
  }

  /** `!!data.next`. */
  predicate HasNext(body: JobsBody) {
    body.PageObject? && Truthy(body.next)
  }

  const FAILED_PREFIX := "Failed to load jobs. "
  const NETWORK_HINT := "Network connection failed. Please check your internet connection."
  const TRY_LATER := "Please try again later."

  /** What the `catch` block receives for a failed fetch. */
  function ThrownBy(o: FetchOutcome): (t: Thrown)
    requires !o.OkBody?
    ensures o.NotOk? ==> t == ErrorObject(false, Api.StatusLine(o.status, o.statusText))
    ensures o.Failed? ==> t == o.reason
  {
    match o
    case NotOk(status, statusText) => ErrorObject(false, Api.StatusLine(status, statusText))
    case Failed(reason) => reason
  }

  /** The error message built in the `catch` block. */
  function ErrorMessage(t: Thrown): (s: string)
    ensures |s| >= |FAILED_PREFIX| && s[..|FAILED_PREFIX|] == FAILED_PREFIX
    ensures t.ErrorObject? && t.isTypeError && Contains(t.message, "fetch") ==> s == FAILED_PREFIX + NETWORK_HINT
    ensures t.ErrorObject? && !(t.isTypeError && Contains(t.message, "fetch")) ==> s == FAILED_PREFIX + t.message
    ensures t.NonError? ==> s == FAILED_PREFIX + TRY_LATER
  {
    if t.ErrorObject? && t.isTypeError && Contains(t.message, "fetch") then FAILED_PREFIX + NETWORK_HINT
    else if t.ErrorObject? then FAILED_PREFIX + t.message
    else FAILED_PREFIX + TRY_LATER
  }

  /** A response that is not ok reports its status line. */
  lemma NotOkReportsStatusLine(status: int, statusText: string)
    ensures ErrorMessage(ThrownBy(NotOk(status, statusText))) == FAILED_PREFIX + Api.StatusLine(status, statusText)
  {
  }

  /** The two jobs shown when the first load fails; both are dated "now". */
  const SAMPLE_JOBS: seq<Api.Job> := [
    Api.Job(1, "Senior Software Engineer", "Tech Corp", "San Francisco, CA",
        "$120,000 - $160,000", "full-time",
        "We are looking for a senior software engineer to join our team...",
        Api.MsBeforeLoad(0), "Technology", "Software"),
    Api.Job(2, "Product Manager", "Innovation Inc", "New York, NY",
        "$100,000 - $140,000", "full-time",
        "Join our product team to drive innovation and growth...",
        Api.MsBeforeLoad(0), "Product", "Technology")
  ]

  class JobList {
    var jobs: seq<Api.Job>
    var loading: bool
    var error: Option<string>
    var page: int
    var hasMore: bool

    ghost predicate Valid()
      reads this
    {
      page >= 1
    }

    constructor ()
      ensures Valid()
      ensures jobs == [] && loading && error.None? && page == 1 && hasMore
    {
      jobs := [];
      loading := true;
      error := None;
      page := 1;
      hasMore := true;
    }

    /**
     * `fetchJobs(pageNum)`: on success page 1 replaces the jobs and later
     * pages are appended, the error is cleared and `hasMore` follows
     * `next`. On failure the error message is set and, only when this was
     * page 1 and nothing is shown yet, the two sample jobs are installed
     * with `hasMore` false. `loading` is false afterwards.
     */
    method FetchJobs(pageNum: int, o: FetchOutcome)
      modifies this
      ensures page == old(page) && !loading
      ensures o.OkBody? && pageNum == 1 ==> jobs == JobsArray(o.body)
      ensures o.OkBody? && pageNum != 1 ==> jobs == old(jobs) + JobsArray(o.body)
      ensures o.OkBody? ==> hasMore == HasNext(o.body) && error.None?
      ensures !o.OkBody? ==> error == Some(ErrorMessage(ThrownBy(o)))
      ensures !o.OkBody? && pageNum == 1 && old(jobs) == [] ==> jobs == SAMPLE_JOBS && !hasMore
      ensures !o.OkBody? && !(pageNum == 1 && old(jobs) == []) ==> jobs == old(jobs) && hasMore == old(hasMore)
    {
      loading := true;
      match o {
        case OkBody(data) =>
          var jobsArray := JobsArray(data);
          if pageNum == 1 {
            jobs := jobsArray;
          } else {
            jobs := jobs + jobsArray;
          }
          hasMore := HasNext(data);
          error := None;
        case _ =>
          error := Some(ErrorMessage(ThrownBy(o)));
          if pageNum == 1 && |jobs| == 0 {
            jobs := SAMPLE_JOBS;
            hasMore := false;
          }
      }
      loading := false;
    }

    /** `loadMore`: fetch the page after the current one; it is appended. */
    method LoadMore(o: FetchOutcome)
      requires Valid()
      modifies this
      ensures Valid() && page == old(page) + 1 && !loading
      ensures o.OkBody? ==> jobs == old(jobs) + JobsArray(o.body) && hasMore == HasNext(o.body) && error.None?
      ensures !o.OkBody? ==>
        jobs == old(jobs) && hasMore == old(hasMore) && error == Some(ErrorMessage(ThrownBy(o)))
    {
      var nextPage := page + 1;
      page := nextPage;
      FetchJobs(nextPage, o);
    }
  }
}
