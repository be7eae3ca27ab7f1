/**
 * The job card (components/job-card.tsx): the relative-age text shown for
 * `posted_at`, and the save button's `isSaved`/`saving` state.
 *
 * The clock and date parsing are not modelled: the age text is a function
 * of the millisecond difference `now - posted_at`.
 */
module JobCardComponent {
  import opened Js
  import Api

  /** `1000 * 60 * 60 * 24`. */
  const DAY_MS: nat := 1000 * 60 * 60 * 24

  /** `Math.ceil(Math.abs(diffTime) / DAY_MS)`: whole days, rounded up. */
  function DiffDays(diffMs: int): (d: nat)
    ensures Abs(diffMs) <= d * DAY_MS < Abs(diffMs) + DAY_MS
    ensures d == 0 <==> diffMs == 0
  {
    CeilDiv(Abs(diffMs), DAY_MS)
  }

  /** The unit and count the age text reports. */
  datatype Age = Days(n: nat) | Weeks(n: nat) | Months(n: nat)

  /**
   * Which bucket a day count falls in: under a week in days, under 30 days
   * in weeks rounded up (1 to 5), and otherwise in 30-day months rounded up.
   */
  function Bucket(days: nat): (a: Age)
    ensures a.Days? <==> days < 7
    ensures a.Days? ==> a.n == days
    ensures a.Weeks? <==> 7 <= days < 30
    ensures a.Weeks? ==> 1 <= a.n <= 5 && days <= a.n * 7 < days + 7
    ensures a.Months? <==> days >= 30
    ensures a.Months? ==> a.n >= 1 && days <= a.n * 30 < days + 30
  {
    if days < 7 then Days(days)
    else if days < 30 then Weeks(CeilDiv(days, 7))
    else Months(CeilDiv(days, 30))
  }

  /** The text for a bucket; a single day is the only singular form. */
  function Render(a: Age): string {
    match a
    case Days(n) => if n == 1 then "1 day ago" else NatToString(n) + " days ago"
    case Weeks(n) => NatToString(n) + " weeks ago"
    case Months(n) => NatToString(n) + " months ago"
  }

  /**
   * `formatDate(posted_at)` given `now - posted_at` in milliseconds, by
   * its cases on the day count: exactly one day, fewer than seven days,
   * fewer than thirty days, and the rest.
   */
  function FormatDate(diffMs: int): (s: string)
    ensures var d := DiffDays(diffMs);
      && (d == 1 ==> s == "1 day ago")
      && (d != 1 && d < 7 ==> s == NatToString(d) + " days ago")
      && (7 <= d < 30 ==> s == NatToString(CeilDiv(d, 7)) + " weeks ago" && 1 <= CeilDiv(d, 7) <= 5)
      && (30 <= d ==> s == NatToString(CeilDiv(d, 30)) + " months ago" && 1 <= CeilDiv(d, 30))
  {
    Render(Bucket(DiffDays(diffMs)))
  }

  /** The text after the count. */
  function Suffix(a: Age): string {
    match a
    case Days(n) => if n == 1 then " day ago" else " days ago"
    case Weeks(_) => " weeks ago"
    case Months(_) => " months ago"
  }

  /** Every age text is the decimal count followed by a unit phrase. */
  lemma RenderIsCountThenSuffix(a: Age)
    ensures Render(a) == NatToString(a.n) + Suffix(a)
  {
    if a.Days? && a.n == 1 {
      assert NatToString(1) == "1";
    }
  }

  /** The age text determines unit and count: two buckets with the same text are the same. */
  lemma RenderInjective(a: Age, b: Age)
    ensures Render(a) == Render(b) ==> a == b
  {
    if Render(a) == Render(b) {
      RenderIsCountThenSuffix(a);
      RenderIsCountThenSuffix(b);
      DigitsThenNonDigit(NatToString(a.n), Suffix(a), NatToString(b.n), Suffix(b));
      NatToStringInjective(a.n, b.n);
    }
  }

  /** A date `k` days in the past or `k` days in the future gets the same text. */
  lemma FormatDateSymmetric(diffMs: int)
    ensures FormatDate(-diffMs) == FormatDate(diffMs)
  {
  }

  /**
   * Two millisecond differences get the same text exactly when they fall
   * in the same bucket with the same count.
   */
  lemma FormatDateSameText(ms1: int, ms2: int)
    ensures FormatDate(ms1) == FormatDate(ms2) <==> Bucket(DiffDays(ms1)) == Bucket(DiffDays(ms2))
  {
    RenderInjective(Bucket(DiffDays(ms1)), Bucket(DiffDays(ms2)));
  }

  /** The card of one job, with the state of its save button. */
  class JobCard {
    const job: Api.Job
    var isSaved: bool
    var saving: bool

    /** Between handler runs no save request is in flight. */
    ghost predicate Valid()
      reads this
    {
      !saving
    }

    constructor (job: Api.Job)
      ensures Valid() && this.job == job && !isSaved
    {
      this.job := job;
      isSaved := false;
      saving := false;
    }

    /**
     * `handleSaveJob`: without a token, redirect to the login page and send
     * nothing; otherwise send the save request (`saveJob` forwards
     * `makeRequest`'s answer) and mark the job saved when the answer has
     * data. `saving` is true while the request is in flight.
     */
    method HandleSaveJob(inBrowser: bool, store: map<string, string>, o: Api.Outcome<()>)
      returns (requested: bool, redirect: Option<string>)
      requires Valid()
      modifies this
      ensures Valid()
      ensures requested <==> Api.IsAuthenticated(inBrowser, store)
      ensures isSaved == (old(isSaved) || (requested && Api.MakeRequest(o).data.Some?))
      ensures old(isSaved) ==> isSaved
      ensures !requested ==> redirect == Some("/login")
      ensures requested ==>
        (redirect == if Api.MakeRequest(o).data.None? && Api.IsAuthError(Api.MakeRequest(o).status) then Some("/login") else None)
    {
      if !Api.IsAuthenticated(inBrowser, store) {
        requested := false;
        redirect := Some("/login");
        return;
      }
      saving := true;
      requested := true;
      redirect := None;
      var response := Api.MakeRequest(o);
      if response.data.Some? {
        isSaved := true;
      } else if Api.IsAuthError(response.status) {
        redirect := Some("/login");
      }
      saving := false;
    }
  }
}
