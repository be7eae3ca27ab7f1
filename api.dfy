/**
 * The REST client of the job board (`ApiClient` in lib/api.ts): how a
 * request is prepared, how one request outcome is shaped into an
 * `ApiResponse`, and the per-endpoint policy that decides when a response
 * is passed through, replaced by an empty page, or replaced by the
 * built-in sample data.
 *
 * The network is not modelled: each operation takes the `Outcome` of its
 * one request as an input. The stored token is an input too: `inBrowser`
 * is `typeof window !== 'undefined'` and `store` is `localStorage`.
 */
module Api {
  import opened Js

  /** `ApiResponse<T>`; an absent `isFromFallback` is `false`. */
  datatype ApiResponse<+T> = ApiResponse(data: Option<T>, error: Option<string>, status: int, isFromFallback: bool)

  /**
   * How the one `fetch` of a request settles.
   * - `Ok`: `response.ok`; `body` is the parsed JSON, None when it is a
   *   falsy JSON value (`null`, `false`, `0`, `""`).
   * - `NotOk`: a response outside 200-299; `bodyText` is what
   *   `response.text()` gave, None when reading it threw.
   * - `Threw`: `fetch` or `response.json()` rejected.
   */
  datatype Outcome<+T> =
    | Ok(status: int, body: Option<T>)
    | NotOk(status: int, statusText: string, bodyText: Option<string>)
    | Threw(reason: Thrown)

  /** `posted_at`: an ISO text, or the sample data's `new Date(Date.now() - ms)`. */
  datatype Posted = Iso(text: string) | MsBeforeLoad(ms: nat)

  datatype Job = Job(
    id: int, title: string, companyName: string, location: string, salary: string,
    jobType: string, description: string, postedAt: Posted, categoryName: string, industry: string)

  /** One page of `/jobs/`; `results` may be missing in what the server sends. */
  datatype JobPage = JobPage(count: int, next: Option<string>, previous: Option<string>, results: Option<seq<Job>>)

  datatype Category = Category(id: int, categoryName: string)

  datatype CategoryList = CategoryList(results: Option<seq<Category>>)

  /** The `RequestInit` handed to `fetch`, with the URL it goes to. */
  datatype Request = Request(url: string, httpMethod: string, mode: string, headers: map<string, string>, body: Option<string>)

  const API_BASE_URL := "https://mysite-z2xs.onrender.com/api"
  const NETWORK_ERROR := "Network error occurred"
  const JOB_NOT_FOUND := "Job not found"
  const INVALID_LOGIN_RESPONSE := "Invalid response format from server"
  const NO_TOKEN := "No authentication token"

  predicate IsAuthError(status: int) {
    status == 401 || status == 403
  }

  /** `isAuthenticated()`: false on the server, otherwise whether a non-empty token is stored. */
  function IsAuthenticated(inBrowser: bool, store: map<string, string>): (r: bool)
    ensures r <==> inBrowser && "token" in store && store["token"] != ""
  {
    inBrowser && Truthy(Get(store, "token"))
  }

  /**
   * The request `makeRequest` sends: the fixed JSON headers, plus
   * `Authorization: Bearer <token>` exactly when a non-empty token is
   * stored. No caller passes `options.headers`, so the way `...options`
   * would overwrite the merged header map is not visible here.
   */
  method PrepareRequest(baseUrl: string, endpoint: string, httpMethod: Option<string>, body: Option<string>,
                        inBrowser: bool, store: map<string, string>)
    returns (req: Request)
    ensures req.url == baseUrl + endpoint && req.mode == "cors" && req.body == body
    ensures req.httpMethod == httpMethod.GetOr("GET")
    ensures req.headers.Keys == {"Content-Type", "Accept"} + (if IsAuthenticated(inBrowser, store) then {"Authorization"} else {})
    ensures req.headers["Content-Type"] == "application/json" && req.headers["Accept"] == "application/json"
    ensures ("Authorization" in req.headers) <==> IsAuthenticated(inBrowser, store)
    ensures IsAuthenticated(inBrowser, store) ==> req.headers["Authorization"] == "Bearer " + store["token"]
  {
    var headers := map["Content-Type" := "application/json", "Accept" := "application/json"];
    var token := if inBrowser then Get(store, "token") else None;
    if Truthy(token) {
      headers := headers["Authorization" := "Bearer " + token.value];
    }
    req := Request(baseUrl + endpoint, httpMethod.GetOr("GET"), "cors", headers, body);
  }

  /** The error text of a response that is not ok and whose body is empty. */
  function StatusLine(status: int, statusText: string): (s: string)
    ensures |s| >= 8 + |statusText| && s[..5] == "HTTP " && s[|s| - |statusText|..] == statusText
  {
    "HTTP " + (IntToString(status) + (": " + statusText))
  }

  /** The error line determines the status and the status text it was made from. */
  lemma StatusLineDeterminesStatus(a: int, b: int, ta: string, tb: string)
    ensures StatusLine(a, ta) == StatusLine(b, tb) ==> a == b && ta == tb
  {
    if StatusLine(a, ta) == StatusLine(b, tb) {
      var ra, rb := ": " + ta, ": " + tb;
      DropCommonPrefix("HTTP ", IntToString(a) + ra, IntToString(b) + rb);
      IntThenNonDigit(a, ra, b, rb);
      DropCommonPrefix(": ", ta, tb);
    }
  }

  lemma DropCommonPrefix(p: string, x: string, y: string)
    requires p + x == p + y
    ensures x == y
  {
    assert x == (p + x)[|p|..];
    assert y == (p + y)[|p|..];
  }

  /** A printed integer followed by a non-digit splits in only one way. */
  lemma IntThenNonDigit(a: int, ra: string, b: int, rb: string)
    requires |ra| >= 1 && !IsDigit(ra[0]) && ra[0] != '-' && |rb| >= 1 && !IsDigit(rb[0]) && rb[0] != '-'
    requires IntToString(a) + ra == IntToString(b) + rb
    ensures a == b && ra == rb
  {
    var ia, ib := IntToString(a), IntToString(b);
    assert ia[0] == (ia + ra)[0] && ib[0] == (ib + rb)[0];
    if a >= 0 {
      DigitsThenNonDigit(ia, ra, ib, rb);
      NatToStringInjective(a, b);
    } else {
      var na, nb := NatToString(-a), NatToString(-b);
      assert ia + ra == "-" + (na + ra);
      assert ib + rb == "-" + (nb + rb);
      DropCommonPrefix("-", na + ra, nb + rb);
      DigitsThenNonDigit(na, ra, nb, rb);
      NatToStringInjective(-a, -b);
    }
  }

  /** `makeRequest`: one request outcome shaped into an `ApiResponse`; it never throws. */
  function MakeRequest<T>(o: Outcome<T>): (r: ApiResponse<T>)
    ensures !r.isFromFallback
    ensures r.data.Some? ==> o.Ok?
    ensures r.error.Some? <==> !o.Ok?
    ensures o.Ok? ==> r.data == o.body && r.status == o.status
    ensures o.NotOk? ==> r.status == o.status && Truthy(r.error)
    ensures o.NotOk? && Truthy(o.bodyText) ==> r.error == o.bodyText
    ensures o.NotOk? && !Truthy(o.bodyText) ==> r.error == Some(StatusLine(o.status, o.statusText))
    ensures o.Threw? ==> r.status == 0
    ensures o.Threw? ==> r.error == Some(if o.reason.ErrorObject? then o.reason.message else NETWORK_ERROR)
  {
    match o
    case Ok(status, body) => ApiResponse(body, None, status, false)
    case NotOk(status, statusText, bodyText) =>
      ApiResponse(None, Some(if Truthy(bodyText) then bodyText.value else StatusLine(status, statusText)), status, false)
    case Threw(reason) =>
      ApiResponse(None, Some(if reason.ErrorObject? then reason.message else NETWORK_ERROR), 0, false)
  }

  // ---------------------------------------------------------------------
  // Sample data
  // ---------------------------------------------------------------------

  const FALLBACK_CATEGORIES: seq<Category> := [
    Category(1, "Technology"),
    Category(2, "Marketing"),
    Category(3, "Design"),
    Category(4, "Sales"),
    Category(5, "Finance"),
    Category(6, "Healthcare"),
    Category(7, "Education"),
    Category(8, "Engineering"),
    Category(9, "Customer Service"),
    Category(10, "Operations")
  ]

  const FALLBACK_JOBS: seq<Job> := [
    Job(1, "Senior Software Engineer", "Tech Corp", "San Francisco, CA",
        "$120,000 - $160,000", "full-time",
        "We are looking for a senior software engineer to join our team and help build scalable web applications. You'll work with React, Node.js, and cloud technologies to create innovative solutions that serve millions of users worldwide.",
        MsBeforeLoad(86400000), "Technology", "Software"),
    Job(2, "Product Manager", "Innovation Inc", "New York, NY",
        "$100,000 - $140,000", "full-time",
        "Join our product team to drive innovation and growth. You'll be responsible for product strategy, roadmap planning, and cross-functional collaboration with engineering and design teams to deliver exceptional user experiences.",
        MsBeforeLoad(172800000), "Product", "Technology"),
    Job(3, "UX Designer", "Design Studio", "Los Angeles, CA",
        "$80,000 - $110,000", "full-time",
        "We're seeking a talented UX designer to create intuitive and engaging user experiences for our digital products. Experience with Figma, user research, prototyping, and design systems required.",
        MsBeforeLoad(259200000), "Design", "Creative"),
    Job(4, "Data Scientist", "Analytics Pro", "Austin, TX",
        "$110,000 - $150,000", "full-time",
        "Join our data science team to extract insights from large datasets and build predictive models using Python and machine learning. Experience with SQL, pandas, scikit-learn, and data visualization tools preferred.",
        MsBeforeLoad(345600000), "Data Science", "Technology"),
    Job(5, "Marketing Manager", "Growth Co", "Chicago, IL",
        "$70,000 - $95,000", "full-time",
        "Lead our marketing efforts across digital channels. Experience with SEO, content marketing, social media, email marketing, and marketing automation tools required. Help us scale our customer acquisition and retention strategies.",
        MsBeforeLoad(432000000), "Marketing", "Marketing"),
    Job(6, "DevOps Engineer", "Cloud Systems", "Seattle, WA",
        "$105,000 - $135,000", "full-time",
        "We're looking for a DevOps engineer to help us build and maintain our cloud infrastructure. Experience with AWS, Docker, Kubernetes, Terraform, and CI/CD pipelines required. Join our mission to scale reliable systems.",
        MsBeforeLoad(518400000), "Technology", "Cloud Computing"),
    Job(7, "Sales Representative", "SalesPro Inc", "Miami, FL",
        "$60,000 - $90,000 + Commission", "full-time",
        "Join our dynamic sales team and help drive revenue growth. We're looking for motivated individuals with excellent communication skills and a passion for building relationships with clients in the B2B space.",
        MsBeforeLoad(604800000), "Sales", "Sales"),
    Job(8, "Financial Analyst", "Finance Plus", "Boston, MA",
        "$75,000 - $95,000", "full-time",
        "We're seeking a detail-oriented financial analyst to join our team. You'll be responsible for financial modeling, budgeting, forecasting, and providing insights to support strategic business decisions and growth initiatives.",
        MsBeforeLoad(691200000), "Finance", "Finance")
  ]

  /** The sample jobs are numbered 1 to 8 in order. */
  lemma FallbackJobIds()
    ensures |FALLBACK_JOBS| == 8
    ensures forall k :: 0 <= k < |FALLBACK_JOBS| ==> FALLBACK_JOBS[k].id == k + 1
  {
  }

  /** The sample categories are numbered 1 to 10 in order. */
  lemma FallbackCategoryIds()
    ensures |FALLBACK_CATEGORIES| == 10
    ensures forall k :: 0 <= k < |FALLBACK_CATEGORIES| ==> FALLBACK_CATEGORIES[k].id == k + 1
  {
  }

  // ---------------------------------------------------------------------
  // Jobs
  // ---------------------------------------------------------------------

  /** `getFallbackJobs(page)`: all sample jobs on page 1, none on any other page. */
  function FallbackJobs(page: int): (r: ApiResponse<JobPage>)
    ensures r.data.Some? && r.data.value.count == 8
    ensures r.data.value.next.None? && r.data.value.previous.None?
    ensures r.data.value.results == Some(if page == 1 then FALLBACK_JOBS else [])
    ensures r.status == 200 && r.isFromFallback && r.error.None?
  {
    ApiResponse(Some(JobPage(|FALLBACK_JOBS|, None, None, Some(if page == 1 then FALLBACK_JOBS else []))), None, 200, true)
  }

  /** The page `getJobs` answers an authentication failure with. */
  const EMPTY_PAGE := JobPage(0, None, None, Some([]))

  /**
   * `getJobs(page)`: a page with data is passed through with a missing
   * `results` replaced by `[]`; a 401/403 failure with an error text
   * becomes an empty page that keeps status and error; anything else
   * becomes the sample data.
   */
  function GetJobs(page: int, o: Outcome<JobPage>): (r: ApiResponse<JobPage>)
    ensures r.data.Some? && r.data.value.results.Some?
    ensures MakeRequest(o).data.Some? ==>
      r == MakeRequest(o).(data := Some(MakeRequest(o).data.value.(results := Some(MakeRequest(o).data.value.results.GetOr([])))))
    ensures MakeRequest(o).data.None? && Truthy(MakeRequest(o).error) && IsAuthError(MakeRequest(o).status) ==>
      r == ApiResponse(Some(EMPTY_PAGE), MakeRequest(o).error, MakeRequest(o).status, false)
    ensures MakeRequest(o).data.None? && !(Truthy(MakeRequest(o).error) && IsAuthError(MakeRequest(o).status)) ==>
      r == FallbackJobs(page)
  {
    var response := MakeRequest(o);
    if response.data.Some? then
      var data := response.data.value;
      response.(data := Some(if data.results.None? then data.(results := Some([])) else data))
    else if Truthy(response.error) then
      if !IsAuthError(response.status) then FallbackJobs(page)
      else ApiResponse(Some(EMPTY_PAGE), response.error, response.status, false)
    else FallbackJobs(page)
  }

  /**
   * Which outcomes of the jobs request end in sample data: an ok response
   * whose body is falsy, a response that is not ok with a status other
   * than 401/403, and every thrown error (its status is 0).
   */
  lemma GetJobsFallsBackWhen(page: int, o: Outcome<JobPage>)
    ensures GetJobs(page, o).isFromFallback <==>
      match o
      case Ok(_, body) => body.None?
      case NotOk(status, _, _) => !IsAuthError(status)
      case Threw(_) => true
    ensures GetJobs(page, o).isFromFallback ==> GetJobs(page, o) == FallbackJobs(page)
  {
  }

  /** An ok response with a body keeps its status and its jobs, and is not sample data. */
  lemma GetJobsPassesOkPage(page: int, status: int, body: JobPage)
    ensures var r := GetJobs(page, Ok(status, Some(body)));
      r.status == status && !r.isFromFallback && r.error.None? &&
      r.data.value.results == Some(body.results.GetOr([])) &&
      r.data.value.count == body.count && r.data.value.next == body.next
  {
  }

  // ---------------------------------------------------------------------
  // One job
  // ---------------------------------------------------------------------

  /** `jobs.find(job => job.id === id)`. */
  function FindJob(jobs: seq<Job>, id: int): (r: Option<Job>)
    ensures r.Some? ==> r.value in jobs && r.value.id == id
    ensures r.Some? ==> exists k :: 0 <= k < |jobs| && jobs[k] == r.value && NoIdBefore(jobs, id, k)
    ensures r.None? <==> forall j :: j in jobs ==> j.id != id
  {
    if jobs == [] then None
    else if jobs[0].id == id then Some(jobs[0])
    else
      var r := FindJob(jobs[1..], id);
      if r.Some? then
        var k :| 0 <= k < |jobs[1..]| && jobs[1..][k] == r.value && NoIdBefore(jobs[1..], id, k);
        assert jobs[k + 1] == r.value && NoIdBefore(jobs, id, k + 1);
        r
      else r
  }

  /** No job before position `k` has the id. */
  predicate NoIdBefore(jobs: seq<Job>, id: int, k: int)
    requires k <= |jobs|
  {
    forall i :: 0 <= i < k ==> jobs[i].id != id
  }

  /** Looking up a sample job finds exactly the ids 1 to 8, each at its own position. */
  lemma FindFallbackJob(id: int)
    ensures FindJob(FALLBACK_JOBS, id) == if 1 <= id <= 8 then Some(FALLBACK_JOBS[id - 1]) else None
  {
    FallbackJobIds();
    var r := FindJob(FALLBACK_JOBS, id);
    if 1 <= id <= 8 {
      assert FALLBACK_JOBS[id - 1].id == id;
      var k :| 0 <= k < |FALLBACK_JOBS| && FALLBACK_JOBS[k] == r.value;
      assert k == id - 1;
    }
  }

  /**
   * `getJob(id)`: the API answer is passed through only when it has data
   * and status 200; otherwise the sample job with that id, or 404.
   */
  function GetJob(id: int, o: Outcome<Job>): (r: ApiResponse<Job>)
    ensures r.data.Some? <==> r.status == 200
    ensures MakeRequest(o).data.Some? && MakeRequest(o).status == 200 ==> r == MakeRequest(o)
    ensures !(MakeRequest(o).data.Some? && MakeRequest(o).status == 200) ==>
      r == if 1 <= id <= 8 then ApiResponse(Some(FALLBACK_JOBS[id - 1]), None, 200, true)
           else ApiResponse(None, Some(JOB_NOT_FOUND), 404, false)
    ensures r.isFromFallback ==> r.data.Some? && r.data.value.id == id && r.data.value in FALLBACK_JOBS
  {
    FindFallbackJob(id);
    var response := MakeRequest(o);
    if response.data.Some? && response.status == 200 then response
    else
      var fallbackJob := FindJob(FALLBACK_JOBS, id);
      if fallbackJob.Some? then ApiResponse(fallbackJob, None, 200, true)
      else ApiResponse(None, Some(JOB_NOT_FOUND), 404, false)
  }

  // ---------------------------------------------------------------------
  // Job ids coming from a route
  // ---------------------------------------------------------------------

  /** What an id is at run time: `getJob` is typed for a number but is also handed route strings. */
  datatype IdValue = Number(n: int) | Text(text: string)

  /** `job.id === id` for a numeric `job.id`: a string is never strictly equal to a number. */
  predicate StrictEqualsId(jobId: int, id: IdValue) {
    id.Number? && id.n == jobId
  }

  /** `jobs.find(job => job.id === id)` for an id of either run-time type. */
  function FindJobStrict(jobs: seq<Job>, id: IdValue): (r: Option<Job>)
    ensures id.Number? ==> r == FindJob(jobs, id.n)
    ensures id.Text? ==> r.None?
  {
    if jobs == [] then None
    else if StrictEqualsId(jobs[0].id, id) then Some(jobs[0])
    else FindJobStrict(jobs[1..], id)
  }

  /**
   * `getJob(id)` as written, for an id of either run-time type. A string
   * id finds no sample job, so a failed request always ends in 404.
   */
  function GetJobAsWritten(id: IdValue, o: Outcome<Job>): (r: ApiResponse<Job>)
    ensures id.Number? ==> r == GetJob(id.n, o)
    ensures id.Text? && !(MakeRequest(o).data.Some? && MakeRequest(o).status == 200) ==>
      r == ApiResponse(None, Some(JOB_NOT_FOUND), 404, false)
  {
    var response := MakeRequest(o);
    if response.data.Some? && response.status == 200 then response
    else
      var fallbackJob := FindJobStrict(FALLBACK_JOBS, id);
      if fallbackJob.Some? then ApiResponse(fallbackJob, None, 200, true)
      else ApiResponse(None, Some(JOB_NOT_FOUND), 404, false)
  }

  /**
   * The detail page of sample job 1, reached at `/jobs/1` while the API is
   * unreachable, passes the route text "1" and gets 404, although sample
   * job 1 exists and the numeric lookup returns it.
   */
  lemma SampleJobRouteNotFoundAsWritten()
    ensures FALLBACK_JOBS[0].id == 1
    ensures GetJobAsWritten(Text("1"), Threw(NonError)) == ApiResponse(None, Some(JOB_NOT_FOUND), 404, false)
    ensures GetJob(1, Threw(NonError)).data == Some(FALLBACK_JOBS[0])
  {
    FindFallbackJob(1);
  }

  /** `Number(param)` for a plain decimal route parameter; None stands for `NaN`. */
  function RouteNumber(param: string): (n: Option<nat>)
    ensures n.Some? <==> param != [] && AllDigits(param)
  {
    if param != [] && AllDigits(param) then Some(ParseNat(param)) else None
  }

  /**
   * The lookup the detail page evidently intends: the route parameter read
   * as a number first. `NaN` equals no id, like a string.
   */
  function GetJobForRoute(param: string, o: Outcome<Job>): (r: ApiResponse<Job>)
    ensures RouteNumber(param).Some? ==> r == GetJob(RouteNumber(param).value, o)
    ensures RouteNumber(param).None? && !(MakeRequest(o).data.Some? && MakeRequest(o).status == 200) ==>
      r == ApiResponse(None, Some(JOB_NOT_FOUND), 404, false)
  {
    match RouteNumber(param)
    case Some(n) => GetJob(n, o)
    case None => GetJobAsWritten(Text(param), o)
  }

  /**
   * A card's link `/jobs/${job.id}` leads to the same answer as the numeric
   * lookup; for a sample job and a failed request, that is the sample job.
   */
  lemma RouteOfJobIdFindsJob(id: nat, o: Outcome<Job>)
    ensures GetJobForRoute(IntToString(id), o) == GetJob(id, o)
    ensures 1 <= id <= 8 && !(MakeRequest(o).data.Some? && MakeRequest(o).status == 200) ==>
      GetJobForRoute(IntToString(id), o).data == Some(FALLBACK_JOBS[id - 1])
  {
    ParseNatToString(id);
  }

  // ---------------------------------------------------------------------
  // Categories
  // ---------------------------------------------------------------------

  /** `getFallbackCategories()`. */
  function FallbackCategories(): (r: ApiResponse<CategoryList>)
    ensures r.data == Some(CategoryList(Some(FALLBACK_CATEGORIES)))
    ensures r.status == 200 && r.isFromFallback && r.error.None?
  {
    ApiResponse(Some(CategoryList(Some(FALLBACK_CATEGORIES))), None, 200, true)
  }

  /** `getCategories()`: always data with status 200; the API answer only when it has data and status 200. */
  function GetCategories(o: Outcome<CategoryList>): (r: ApiResponse<CategoryList>)
    ensures r.data.Some? && r.status == 200
    ensures r.isFromFallback <==> !(o.Ok? && o.body.Some? && o.status == 200)
    ensures !r.isFromFallback ==> r == MakeRequest(o)
    ensures r.isFromFallback ==> r == FallbackCategories()
  {
    var response := MakeRequest(o);
    if response.data.Some? && response.status == 200 then response
    else FallbackCategories()
  }

  // ---------------------------------------------------------------------
  // Authentication
  // ---------------------------------------------------------------------

  /**
   * `login(credentials)`: data or an error text is passed through; an
   * answer with neither becomes a 500 with a fixed message.
   */
  function Login<T>(o: Outcome<T>): (r: ApiResponse<T>)
    ensures r.data.Some? || Truthy(r.error)
    ensures MakeRequest(o).data.Some? || Truthy(MakeRequest(o).error) ==> r == MakeRequest(o)
    ensures MakeRequest(o).data.None? && !Truthy(MakeRequest(o).error) ==>
      r == ApiResponse(None, Some(INVALID_LOGIN_RESPONSE), 500, false)
    ensures r.data.None? && r.status == 500 ==> r.error == Some(INVALID_LOGIN_RESPONSE) || o.NotOk?
  {
    var response := MakeRequest(o);
    if response.data.Some? then response
    else if Truthy(response.error) then response
    else ApiResponse(None, Some(INVALID_LOGIN_RESPONSE), 500, false)
  }

  /** `getProfile()`: 401 without a request when no token is stored, else the request's answer. */
  function GetProfile<T>(inBrowser: bool, store: map<string, string>, o: Outcome<T>): (r: ApiResponse<T>)
    ensures !IsAuthenticated(inBrowser, store) ==> r == ApiResponse(None, Some(NO_TOKEN), 401, false)
    ensures IsAuthenticated(inBrowser, store) ==> r == MakeRequest(o)
  {
    if !IsAuthenticated(inBrowser, store) then ApiResponse(None, Some(NO_TOKEN), 401, false)
    else MakeRequest(o)
  }

  /** `getProfileResume()`: the same guard in front of the resume endpoint. */
  function GetProfileResume<T>(inBrowser: bool, store: map<string, string>, o: Outcome<T>): (r: ApiResponse<T>)
    ensures !IsAuthenticated(inBrowser, store) ==> r == ApiResponse(None, Some(NO_TOKEN), 401, false)
    ensures IsAuthenticated(inBrowser, store) ==> r == MakeRequest(o)
  {
    if !IsAuthenticated(inBrowser, store) then ApiResponse(None, Some(NO_TOKEN), 401, false)
    else MakeRequest(o)
  }

  /** Without a token the profile answer does not depend on any request outcome: no request is made. */
  lemma ProfileNeedsNoRequestWhenSignedOut<T>(inBrowser: bool, store: map<string, string>, o1: Outcome<T>, o2: Outcome<T>)
    requires !IsAuthenticated(inBrowser, store)
    ensures GetProfile(inBrowser, store, o1) == GetProfile(inBrowser, store, o2)
    ensures GetProfileResume(inBrowser, store, o1) == GetProfileResume(inBrowser, store, o2)
    ensures GetProfile(inBrowser, store, o1).data.None? && GetProfile(inBrowser, store, o1).status == 401
  {
  }
}
