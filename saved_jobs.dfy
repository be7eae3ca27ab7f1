/**
 * The saved-jobs page (app/saved-jobs/page.tsx): loading the user's saved
 * jobs with the details of each job, removing one, and the page's own copy
 * of the relative-age text.
 *
 * `getSavedJobs` and `unsaveJob` are not part of this model's API client,
 * so their answers are inputs. Each detail lookup goes through
 * `Api.GetJob`; the lookups run one after the other here.
 */
module SavedJobsComponent {
  import opened Js
  import Api
  import JobCardComponent

  /** The fields of a saved-job record that the page uses. */
  datatype SavedJob = SavedJob(id: int, job: int)

  datatype SavedJobList = SavedJobList(results: Option<seq<SavedJob>>)

  /** `{...savedJob, job_details}`. */
  datatype SavedJobWithDetails = SavedJobWithDetails(saved: SavedJob, details: Option<Api.Job>)

  const LOAD_FAILED := "Failed to load saved jobs"
  const NETWORK_FAILED := "Network error occurred"

  /**
   * This page's `formatDate`, written out as its own chain of tests. It
   * prints the same age text as the job card for every date.
   */
  function FormatDate(diffMs: int): (s: string)
    ensures s == JobCardComponent.FormatDate(diffMs)
  {
    var days := CeilDiv(Abs(diffMs), JobCardComponent.DAY_MS);
    if days == 1 then "1 day ago"
    else if days < 7 then NatToString(days) + " days ago"
    else if days < 30 then NatToString(CeilDiv(days, 7)) + " weeks ago"
    else NatToString(CeilDiv(days, 30)) + " months ago"
  }

  /** `jobs.map(savedJob => ({...savedJob, job_details: (await getJob(savedJob.job)).data}))`. */
  function AttachDetails(jobs: seq<SavedJob>, fetchDetail: nat -> Api.Outcome<Api.Job>): (r: seq<SavedJobWithDetails>)
    ensures |r| == |jobs|
    ensures forall i :: 0 <= i < |jobs| ==> r[i] == SavedJobWithDetails(jobs[i], Api.GetJob(jobs[i].job, fetchDetail(i)).data)
  {
    seq(|jobs|, i requires 0 <= i < |jobs| => SavedJobWithDetails(jobs[i], Api.GetJob(jobs[i].job, fetchDetail(i)).data))
  }

  predicate HasDetails(e: SavedJobWithDetails) {
    e.details.Some?
  }

  /** The list the page shows: entries whose detail lookup gave data, in their saved order. */
  function WithDetails(jobs: seq<SavedJob>, fetchDetail: nat -> Api.Outcome<Api.Job>): (shown: seq<SavedJobWithDetails>)
    ensures forall e :: e in shown ==> e.details.Some?
    ensures forall e :: multiset(shown)[e] == if e.details.Some? then multiset(AttachDetails(jobs, fetchDetail))[e] else 0
    ensures IsSubsequence(shown, AttachDetails(jobs, fetchDetail))
  {
    Filter(AttachDetails(jobs, fetchDetail), HasDetails)
  }

  /**
   * What the shown list holds: saved entries only, and entry `i` (with
   * its saved fields unchanged) exactly when the lookup of its job gave
   * data. A lookup gives none only when the API answer was not data with
   * status 200 and the job is not one of the sample jobs 1 to 8.
   */
  lemma WithDetailsKeepsEntriesWithDetails(jobs: seq<SavedJob>, fetchDetail: nat -> Api.Outcome<Api.Job>)
    ensures var shown := WithDetails(jobs, fetchDetail);
      && (forall e :: e in shown ==> e.saved in jobs)
      && forall i :: 0 <= i < |jobs| ==>
           (SavedJobWithDetails(jobs[i], Api.GetJob(jobs[i].job, fetchDetail(i)).data) in shown
            <==> Api.GetJob(jobs[i].job, fetchDetail(i)).data.Some?)
    ensures forall i :: 0 <= i < |jobs| ==>
      (Api.GetJob(jobs[i].job, fetchDetail(i)).data.None? <==>
        !(Api.MakeRequest(fetchDetail(i)).data.Some? && Api.MakeRequest(fetchDetail(i)).status == 200) &&
        !(1 <= jobs[i].job <= 8))
  {
    var attached := AttachDetails(jobs, fetchDetail);
    forall e | e in WithDetails(jobs, fetchDetail) ensures e.saved in jobs {
      var i :| 0 <= i < |attached| && attached[i] == e;
      assert e.saved == jobs[i];
    }
  }

  /**
   * `savedJobs.filter(job => job.id !== savedJobId)`: drops exactly the
   * entries with that saved-job id, keeps every other entry with its
   * multiplicity and in order, and changes nothing when no entry has it.
   */
  function RemoveSaved(jobs: seq<SavedJobWithDetails>, savedJobId: int): (r: seq<SavedJobWithDetails>)
    ensures forall e :: e in r <==> e in jobs && e.saved.id != savedJobId
    ensures forall e :: multiset(r)[e] == if e.saved.id != savedJobId then multiset(jobs)[e] else 0
    ensures IsSubsequence(r, jobs)
    ensures (forall e :: e in jobs ==> e.saved.id != savedJobId) ==> r == jobs
  {
    Filter(jobs, (e: SavedJobWithDetails) => e.saved.id != savedJobId)
  }

  /** The page's state. `error` is "" when there is none. */
  class SavedJobsPage {
    var savedJobs: seq<SavedJobWithDetails>
    var loading: bool
    var error: string
    var removingJob: Option<int>

    constructor ()
      ensures savedJobs == [] && loading && error == "" && removingJob.None?
    {
      savedJobs := [];
      loading := true;
      error := "";
      removingJob := None;
    }

    /**
     * `fetchSavedJobs`: with data, show the entries whose details could be
     * looked up; on 401/403 redirect to the login page without an error;
     * on any other answer without data, or a failed fetch, set an error.
     * `loading` is false at the end.
     */
    method FetchSavedJobs(list: Fetch<Api.ApiResponse<SavedJobList>>, fetchDetail: nat -> Api.Outcome<Api.Job>)
      returns (redirect: Option<string>)
      modifies this
      ensures !loading && removingJob == old(removingJob)
      ensures list.Resolved? && list.value.data.Some? ==>
        savedJobs == WithDetails(list.value.data.value.results.GetOr([]), fetchDetail) &&
        error == old(error) && redirect.None?
      ensures list.Resolved? && list.value.data.None? && Api.IsAuthError(list.value.status) ==>
        savedJobs == old(savedJobs) && error == old(error) && redirect == Some("/login")
      ensures list.Resolved? && list.value.data.None? && !Api.IsAuthError(list.value.status) ==>
        savedJobs == old(savedJobs) && error == LOAD_FAILED && redirect.None?
      ensures list.Rejected? ==> savedJobs == old(savedJobs) && error == NETWORK_FAILED && redirect.None?
    {
      loading := true;
      redirect := None;
      match list {
        case Resolved(response) =>
          if response.data.Some? {
            var jobs := response.data.value.results.GetOr([]);
            var jobsWithDetails := AttachDetails(jobs, fetchDetail);
            savedJobs := Filter(jobsWithDetails, HasDetails);
          } else if Api.IsAuthError(response.status) {
            redirect := Some("/login");
          } else {
            error := LOAD_FAILED;
          }
        case Rejected(_) =>
          error := NETWORK_FAILED;
      }
      loading := false;
    }

    /**
     * `handleRemoveJob(savedJobId)`: on status 204 or an answer without an
     * error text, drop the entries with that id; otherwise, or when the
     * request fails, keep the list. `removingJob` is cleared at the end.
     */
    method HandleRemoveJob(savedJobId: int, answer: Fetch<Api.ApiResponse<()>>)
      modifies this
      ensures removingJob.None? && loading == old(loading) && error == old(error)
      ensures answer.Resolved? && (answer.value.status == 204 || !Truthy(answer.value.error)) ==>
        savedJobs == RemoveSaved(old(savedJobs), savedJobId)
      ensures !(answer.Resolved? && (answer.value.status == 204 || !Truthy(answer.value.error))) ==>
        savedJobs == old(savedJobs)
    {
      removingJob := Some(savedJobId);
      match answer {
        case Resolved(response) =>
          if response.status == 204 || !Truthy(response.error) {
            savedJobs := RemoveSaved(savedJobs, savedJobId);
          }
        case Rejected(_) =>
      }
      removingJob := None;
    }
  }
}
