# Job portal front end: API client and list components in Dafny

This project models the core of a job-board web front end. That core has three parts:

- the REST client `ApiClient` (lib/api.ts). It prepares requests, turns one `fetch` outcome into an `ApiResponse`, and decides per endpoint when an answer is passed through, replaced by an empty page, or replaced by built-in sample data.
- the components built on it: the job card, the saved-jobs page, the two job lists and the navigation bar.
- their state: which jobs are shown, whether "load more" is offered, which error text is shown, and what `localStorage` holds for `token` and `user`.

The model is split into modules:

- `Js` (js.dfy): the JavaScript semantics the code relies on. This covers `undefined`/`null` as `Option`, truthiness of strings, `localStorage.getItem`, template-literal number printing with a parse round trip, `Math.ceil` of a division, `includes`, ASCII `toUpperCase`, and `filter`.
- `Api` (api.dfy): the client.
- `JobCardComponent`, `SavedJobsComponent`, `JobListImprovedComponent`, `JobListComponent` and `NavbarComponent`: one module per component.
  - React state becomes a class whose fields the handler methods update.
  - Pure computations (age text, initials, filters) become functions with lemmas.

The network, the clock and JSON parsing are not modelled. Each operation takes the outcome of its one request as a parameter:

- `Api.Outcome`: ok with a body, not ok with status and body text, or thrown.
- `Js.Fetch`: a promise that resolved or rejected.

The stored token is a parameter too: `inBrowser` for `typeof window !== 'undefined'`, and a `map<string, string>` for `localStorage`. Dates enter as the millisecond difference `now - posted_at`.

## Model

| member | source | states |
|---|---|---|
| Js.Get | lib/api.ts:93 | `getItem` gives the stored value exactly when the key is present, and nothing otherwise |
| Js.NatToString | components/job-card.tsx:39-41 | `${n}` is a non-empty string of decimal digits with no leading zero |
| Js.ParseNatToString | components/job-card.tsx:39-41 | reading the printed number back gives the number: printing loses nothing |
| Js.NatToStringInjective | components/job-card.tsx:39-41 | different counts print differently |
| Js.DigitsThenNonDigit | components/job-card.tsx:39-41 | a digit run followed by a text starting with a non-digit splits in only one way |
| Js.CeilDiv | components/job-card.tsx:36 | `Math.ceil(a / b)` is the least q with a <= q*b |
| Js.Abs | components/job-card.tsx:35 | `Math.abs` is non-negative and equals x or -x |
| Js.IntToString | lib/api.ts:51 | the status in the error line is printed in decimal, with a minus sign when negative |
| Js.Filter | app/saved-jobs/page.tsx:75 | `filter` keeps exactly the elements satisfying the test, each as many times as it occurs, in order; the list is unchanged when all pass |
| Js.ContainsIffOccurs | components/job-list.tsx:74 | `includes` is true exactly when the text occurs at some position of the string |
| Js.ToUpper | components/navbar.tsx:191 | same length; each ASCII lower-case letter becomes its capital, every other character stays; no lower-case letter remains |
| Api.IsAuthenticated | lib/api.ts:91-95 | signed in exactly when in a browser with a non-empty stored token |
| Api.PrepareRequest | lib/api.ts:22-44 | URL is base plus endpoint; method defaults to GET; mode is cors; JSON Content-Type and Accept headers; an `Authorization: Bearer <token>` header exactly when signed in |
| Api.StatusLine | lib/api.ts:51 | the line starts "HTTP " and ends with the status text |
| Api.StatusLineDeterminesStatus | lib/api.ts:51 | two error lines are equal only for the same status and status text |
| Api.MakeRequest | lib/api.ts:17-88 | never marks sample data. Data only from an ok response, with its status. An error exactly when not ok. A non-ok answer keeps its status and reports the body text, or `HTTP <status>: <statusText>` when that text is empty or unreadable. A thrown error gives status 0 and its message, or "Network error occurred" |
| Api.FallbackJobs | lib/api.ts:171-187 | count 8, no next/previous, all eight sample jobs on page 1 and none elsewhere, status 200, marked as sample data |
| Api.FallbackJobIds | lib/api.ts:408-505 | the sample job at position k has id k+1 |
| Api.FallbackCategoryIds | lib/api.ts:394-405 | ten sample categories, the one at position k has id k+1 |
| Api.GetJobs | lib/api.ts:98-169 | always a page with a results list. Data is passed through, with missing results replaced by `[]`. A 401/403 with an error text becomes an empty page with that status and error. Anything else becomes the sample page |
| Api.GetJobsFallsBackWhen | lib/api.ts:98-169 | sample jobs are shown exactly for a falsy ok body, a non-ok status other than 401/403, or a thrown error |
| Api.GetJobsPassesOkPage | lib/api.ts:114-121 | an ok page keeps its status, count, next link and jobs, and is not sample data |
| Api.FindJob | lib/api.ts:198 | `find` gives the first job of the list with that id, and nothing exactly when no job has it |
| Api.FindFallbackJob | lib/api.ts:198 | among the sample jobs exactly ids 1 to 8 are found, each at position id-1 |
| Api.GetJob | lib/api.ts:189-229 | status 200 exactly when there is data. The API job only for data with status 200. Otherwise the sample job with that id, or 404 "Job not found" |
| Api.FindJobStrict | lib/api.ts:198 | `find` with `===` agrees with the numeric lookup for a number id and finds nothing for a string id |
| Api.GetJobAsWritten | lib/api.ts:189-229 | a number id answers as `getJob`; a string id with a failed request always gives 404 |
| Api.SampleJobRouteNotFoundAsWritten | lib/api.ts:198-210 | the route text "1" (the job detail page passes its route parameter, lines 22 and 40 of app/jobs/[id]/page.tsx) with an unreachable API gives 404, although sample job 1 exists and the numeric lookup finds it |
| Api.RouteNumber | lib/api.ts:189 | a route parameter reads as a number exactly when it is a non-empty run of digits |
| Api.GetJobForRoute | lib/api.ts:189-210 | a numeric route parameter answers as `getJob` of that number; any other text finds no sample job |
| Api.RouteOfJobIdFindsJob | components/job-card.tsx:76 | the link `/jobs/${job.id}` answers as `getJob(job.id)`, so a sample card leads to its sample job when the API fails |
| Api.FallbackCategories | lib/api.ts:364-372 | the ten sample categories with status 200, marked as sample data |
| Api.GetCategories | lib/api.ts:347-362 | always data with status 200; sample data exactly when the answer is not an ok body with status 200 |
| Api.Login | lib/api.ts:247-276 | the result has data or an error text. Data or an error is passed through. Otherwise 500 "Invalid response format from server" |
| Api.GetProfile | lib/api.ts:293-311 | 401 "No authentication token" when signed out, else the request's answer |
| Api.GetProfileResume | lib/api.ts:313-330 | the same guard in front of the resume request |
| Api.ProfileNeedsNoRequestWhenSignedOut | lib/api.ts:295-300 | when signed out, the answer does not depend on any request outcome |
| JobCardComponent.DiffDays | components/job-card.tsx:35-36 | whole days rounded up; zero exactly for a zero difference |
| JobCardComponent.Bucket | components/job-card.tsx:38-41 | under 7 days in days; 7 to 29 days in weeks rounded up (1 to 5); from 30 days in 30-day months rounded up |
| JobCardComponent.RenderIsCountThenSuffix | components/job-card.tsx:38-41 | every age text is the decimal count followed by its unit phrase |
| JobCardComponent.RenderInjective | components/job-card.tsx:38-41 | the age text determines the unit and the count |
| JobCardComponent.FormatDate | components/job-card.tsx:32-42 | the four branches: "1 day ago", "<d> days ago", "<ceil(d/7)> weeks ago", "<ceil(d/30)> months ago" |
| JobCardComponent.FormatDateSymmetric | components/job-card.tsx:35 | past and future dates the same distance away get the same text |
| JobCardComponent.FormatDateSameText | components/job-card.tsx:32-42 | two dates get the same text exactly when they fall in the same bucket with the same count |
| JobCardComponent.JobCard.HandleSaveJob | components/job-card.tsx:44-69 | a request exactly when signed in, otherwise go to /login. Saved once the answer has data, and never unsaved. A 401/403 without data goes to /login. `saving` is back to false |
| SavedJobsComponent.FormatDate | app/saved-jobs/page.tsx:106-116 | the page's age text equals the job card's for every date |
| SavedJobsComponent.AttachDetails | app/saved-jobs/page.tsx:60-73 | one entry per saved job, each with the data of `getJob(savedJob.job)` |
| SavedJobsComponent.WithDetails | app/saved-jobs/page.tsx:75 | only entries with details are shown, each entry with details as often as it occurs, in saved order |
| SavedJobsComponent.WithDetailsKeepsEntriesWithDetails | app/saved-jobs/page.tsx:55-75 | every shown entry is a saved one, and each saved entry is shown exactly when its lookup gave data. A lookup gives none only when the API answer was not data with status 200 and the job is not sample job 1 to 8 |
| SavedJobsComponent.RemoveSaved | app/saved-jobs/page.tsx:95 | removal drops exactly the entries with that id, keeps every other entry as often as it occurs and in order, and changes nothing when no entry has the id |
| SavedJobsComponent.SavedJobsPage.FetchSavedJobs | app/saved-jobs/page.tsx:50-87 | data shows the entries with details. 401/403 goes to /login. Another answer without data gives "Failed to load saved jobs". A failed request gives "Network error occurred". `loading` ends false |
| SavedJobsComponent.SavedJobsPage.HandleRemoveJob | app/saved-jobs/page.tsx:89-104 | on status 204 or no error text, the entry is removed; otherwise the list is unchanged. `removingJob` is cleared |
| JobListImprovedComponent.JobListImproved.ShowsLoadMore | components/job-list-improved.tsx:128 | the button shows exactly when there are more pages and no sample data |
| JobListImprovedComponent.JobListImproved.FetchJobs | components/job-list-improved.tsx:19-50 | with data, page 1 replaces and later pages append; `hasMore` follows `next`; the sample flag is taken over and sets the notice. Without data, the jobs stay and "Unable to load jobs" is set. Sample data hides "load more" |
| JobListImprovedComponent.JobListImproved.LoadMore | components/job-list-improved.tsx:56-62 | nothing changes while sample data is shown. Otherwise the page advances by one. With data, the page's jobs are appended and `hasMore`, the sample flag and the notice follow the response. Without data, the jobs, `hasMore` and the flag stay and "Unable to load jobs" is set |
| JobListImprovedComponent.JobListImproved.Retry | components/job-list-improved.tsx:64-68 | back to page 1. With data, the list is page 1's jobs, and `hasMore`, the sample flag and the notice follow the response. Without data, the list is empty and "Unable to load jobs" is set |
| JobListImprovedComponent.FetchThroughClient | components/job-list-improved.tsx:19-50 | through the real client, "Unable to load jobs" is never shown. The sample flag matches the client's. Sample data switches "load more" off, shows the notice, and on page 1 shows the eight sample jobs |
| JobListComponent.JobsArray | components/job-list.tsx:58 | `data.results || data || []`: the results of a page object, the items of a bare array, or nothing |
| JobListComponent.ThrownBy | components/job-list.tsx:48-52 | a non-ok response throws an Error whose message is the status line; a rejection passes its reason on |
| JobListComponent.ErrorMessage | components/job-list.tsx:72-82 | always starts "Failed to load jobs. ". A TypeError mentioning fetch gives the network hint. Another Error gives its message. A non-Error gives "Please try again later." |
| JobListComponent.NotOkReportsStatusLine | components/job-list.tsx:48-82 | a non-ok response is reported as "Failed to load jobs. HTTP <status>: <statusText>" |
| JobListComponent.JobList.FetchJobs | components/job-list.tsx:29-117 | on success, page 1 replaces and later pages append; `hasMore` follows `next`; the error is cleared. On failure the error is set, and only a first load with nothing shown installs the two sample jobs with `hasMore` false |
| JobListComponent.JobList.LoadMore | components/job-list.tsx:123-127 | the page advances by one. On success the jobs are appended, `hasMore` follows `next` and the error is cleared. On failure the jobs and `hasMore` stay and the error message is set |
| NavbarComponent.StoredUser | components/navbar.tsx:90-100 | id, name and email are kept; token, first and last name only when non-empty; the profile when present |
| NavbarComponent.SplitOnSpace | components/navbar.tsx:191 | `split(' ')` always gives at least one piece |
| NavbarComponent.SplitOnSpaceRoundTrip | components/navbar.tsx:191 | the pieces hold no space and joined with single spaces give back the name |
| NavbarComponent.FirstCharsOfSplit | components/navbar.tsx:191 | the first characters of the split pieces are exactly the characters that start a word |
| NavbarComponent.Initials | components/navbar.tsx:191 | the initials are the upper-cased word-start characters, or "U" when there are none; never empty |
| NavbarComponent.BlankNameShowsU | components/navbar.tsx:191 | an empty or all-space name shows "U" |
| NavbarComponent.Without | components/navbar.tsx:109-110 | `removeItem` drops exactly the given keys and keeps every other value |
| NavbarComponent.SeenStore | components/navbar.tsx:70-79 | a stored user that does not parse is removed; otherwise the store is unchanged |
| NavbarComponent.SeenUser | components/navbar.tsx:70-79 | a stored user that parses is shown; otherwise the shown user is unchanged |
| NavbarComponent.Navbar.CheckAuthStatus | components/navbar.tsx:49-127 | the profile is requested exactly in a browser with a non-empty token. Without a token, the stored user is removed and nobody is shown. Data stores and shows the rebuilt user. 401/403 or a failed request removes token and user. Any other answer keeps what the stored user gave. `loading` ends false |
| NavbarComponent.Navbar.HandleLogout | components/navbar.tsx:129-150 | logout is sent exactly when signed in; token and user are removed in every case; nobody is shown; the page goes to "/" |

## Left out

- The network, `console` logging, the clock and `JSON.parse`/`JSON.stringify` are inputs (request outcomes, millisecond differences, a parse result, a `stringify` function).
- The `catch` blocks in `getJob`, `login`, `getCategories`, `getProfile` (lib/api.ts:304) and `getProfileResume` (lib/api.ts:323) are not modelled: `makeRequest` catches every error itself and nothing else in them throws, so they cannot run.
- Api.GetJobs: the ok body is a `JobPage` or a falsy value, so a truthy primitive JSON body (`true`, a number, a non-empty string) is left out. For such a body, `response.data.results = []` (lib/api.ts:118-120) throws a TypeError in the class's strict-mode code. The `catch` at lib/api.ts:149-166 then takes status `undefined || 500`, which is not 401/403, and returns the sample page.
- `createJob`, `register`, `logout` and `saveJob` are plain forwards of `makeRequest` and have no member of their own; `saveJob` enters `JobCard.HandleSaveJob` through `Api.MakeRequest`.
- `getMe`, `getSavedJobs`, `unsaveJob` and `getApplications` are called by the components but are not defined in lib/api.ts. Their answers are parameters (`Js.Fetch` of an `ApiResponse`).
- Api.PrepareRequest: does not model how `...options` after the merged `headers` would replace them, because no caller passes `options.headers`.
- JobCardComponent.DiffDays: floating-point rounding of `Math.ceil(diff / 86400000)` is not modelled; division is exact.
- Date parsing is left out. An unparsable `posted_at` makes the JavaScript difference `NaN` and the text "NaN months ago"; the model always has a number.
- Some age texts come out oddly as written, and the model keeps them: "1 weeks ago" (7 days), "1 months ago" (30 days), and "2 months ago" (31 days, because of rounding up).
- SavedJobsComponent.SavedJobsPage.HandleRemoveJob: follows `status === 204 || !response.error`, so an answer with an empty error text also counts as removed.
- The per-job `try`/`catch` in `fetchSavedJobs` is not modelled: `getJob` never throws, so no entry loses its details that way.
- The saved-jobs and the applications pages' sign-in redirects in `useEffect` and in the render are not modelled; the applications page is outside this model.
- The detail lookups of `Promise.all` run in parallel in app/saved-jobs/page.tsx; the model runs them one after another. The result is the same because each lookup depends only on its own answer.
- JobListComponent.JobsArray: an object body without `results` would store the object itself as the job list, and a truthy primitive body reaches `data.results || data` (components/job-list.tsx:58) too: `true`, `5` or `"x"` is stored as the "job list" (a string then reads as a list of its characters). The model's body is a page object, a bare array or a falsy value, so it has neither case, and a `null` body (whose `data.results` throws a TypeError) is given as a failed fetch.
- JobListComponent.JobList.FetchJobs: the first-load check reads the list as it stands when the fetch ends, not a stale React closure.
- NavbarComponent.Navbar.CheckAuthStatus: a stored user that is the empty string is not removed, because the code tests its truthiness; the model follows the code. The outer `catch` is not modelled, since nothing inside it throws once `JSON` is an input.
- Js.ToUpper, NavbarComponent.Initials: `toUpperCase` is modelled on ASCII letters only; other characters are kept as they are. `n[0]` takes one UTF-16 unit, modelled as one `char`.
- The dropdown's copy of the initials (components/navbar.tsx:204) has no "U" default; only the avatar's expression is modelled.
- Api.RouteNumber: reads only plain decimal text; the other strings `Number` accepts (surrounding spaces, `1e0`, `0x1`) are read as not a number.
- The job detail and application pages themselves are not part of this model; only their call of `getJob` with the route text is.
- Rendering (JSX, icons, routing beyond the redirect targets) is not part of this model.

## Findings

| source | as written | input that shows it | evidently intended | confidence | as-written member | corrected member |
|---|---|---|---|---|---|---|
| lib/api.ts:198 with app/jobs/[id]/page.tsx:22-40 | the detail pages pass the route parameter, a string, to `getJob`. `fallbackJobs.find(job => job.id === id)` compares a number with a string by `===`, which is never true | `/jobs/1` (the link of sample job 1, components/job-card.tsx:76) while the API request fails: the answer is 404 "Job not found" | the route parameter is read as a number, so the sample job's page shows the sample job | high (by the semantics of `===`) for the code as shown; less certain in practice: app/jobs/[id]/page.tsx:16 imports a `Job` type that this lib/api.ts does not export and passes a string to `getJob(id: number)`, so the page may have been written against another version of the client, and app/jobs/[id]/apply/page.tsx:28 expects 24-digit hexadecimal ids; not executed | Api.GetJobAsWritten, Api.SampleJobRouteNotFoundAsWritten | Api.GetJobForRoute, Api.RouteOfJobIdFindsJob |
