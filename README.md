# Employer dashboard of the job portal, modelled in Dafny

This project models the employer side of a job-portal web front end. It is a
set of React pages over a REST API. The model takes out the logic those pages
hold between the HTTP calls and proves what the pages promise:

- **Job detail** (`JobDetail`)
  - a job from the API is normalised into an edit form;
  - each input writes exactly one field, and the requirement list never gets shorter than one row;
  - saving builds the update payload: blank requirements are dropped, at most the
    compensation sub-record of the active pricing mode is sent, vacancies are at
    least 1, and empty optional fields are omitted;
  - the page class holds the fetch, edit, save, cancel and delete cycle.
- **Applications to a job** (`ApplicationList`): which status buttons each
  card offers, and how a confirmed, successful status change rewrites exactly
  one application of the list.
- **Dashboard shell** (`Superpanel`): the view state machine over
  `activeModule` and `selectedJob`, and the `renderModule` dispatch.
- **My Jobs** (`JobList`):
  - the ownership filter by employer id;
  - locating the payload segment of the stored JSON Web Token and mapping it from
    the base64url alphabet (section 5 of RFC 4648) to the standard one;
  - deletion by id.
- **Profile, post-job and sign-up forms** (`EmployerProfile`, `JobPost`,
  `Signup`): the field update rules (including the nested `profile.*` names of
  sign-up), the request bodies, and the message and loading flags after
  success, failure and cancel.
- **Route table** (`App`): the login guard, the catch-all redirect, and the
  fact that every path shows a page after at most one redirect.

`Common` holds the JavaScript semantics the pages rely on:

- `a || b` on strings, and the server-message fallbacks;
- `Array.prototype.filter`, `String.prototype.split` with one separator character,
  `startsWith`, `includes` and `trim`;
- `parseInt` without a radix, after the steps of section 19.2.5 of ECMA-262, on exact integers
  (the rounding to a double and the exponent form of large numbers are not modelled; see "Left out").

Everything the pages get from outside is a parameter of the model:

- the server's answer is a `Response<T>`: `Ok(data)`, or `Fail` with the optional
  `msg` and `message` of the error body;
- a confirmation dialog is a `confirmed: bool`;
- the stored login flag is an `Option<string>`;
- the token decoding (`atob`, `decodeURIComponent`, `JSON.parse`) is a function
  returning an optional payload.

Each asynchronous handler is split in two methods:

- a `Begin…` method for what happens before the request (the loading flags, the
  request body);
- a `Finish…` method for what happens once the answer is in.

This makes the in-flight state (for example, `updateLoading` equal to the
application's id) a state of the model.

Behaviour of the code worth noting:

- Applications: the code has no `shortlisted`, `offer` or `withdrawn` status.
  `hired` and `rejected` are not terminal: their cards still offer "View",
  which sets the status back to `viewed` (`HiredCanBeReopened`).
- Requirements: a submission whose requirements are all blank is not refused.
  The `requirements` key is just left out of the payload (`BuildPayload`).
- Job form: it has no skills and no categories. Categories are fetched but never used.

## Model

| member | source | states |
|---|---|---|
| JobDetail.LoadRequirements | src/components/employer/JobDetail.jsx:79-84 | a loaded job always gives a non-empty requirement list: a non-empty array as is, a non-empty string as a one-element list, anything else as `['']` |
| JobDetail.LoadCompensation | src/components/employer/JobDetail.jsx:86-107 | both sub-records are always present; a missing sub-record is all `''`, and a present one takes each field or `''` |
| JobDetail.FormFromJob | src/components/employer/JobDetail.jsx:76-120 | the form has at least one requirement row and nonzero vacancies; each scalar field is the job's value when truthy, else its default (`remote`, `hourly`, `active`, vacancies 1, `''`); the requirements and compensation are the `LoadRequirements` and `LoadCompensation` normalisations of the job's |
| JobDetail.VacanciesFromInput | src/components/employer/JobDetail.jsx:141-142 | a vacancies edit stores the parsed integer, or 1 when parsing gives NaN or 0; the result is never 0 |
| JobDetail.VacanciesEchoKeepsValue | src/components/employer/JobDetail.jsx:142 | the number input shows the stored value, and handing that text back stores the same value again (a `parseInt` round trip) |
| JobDetail.ApplyChange | src/components/employer/JobDetail.jsx:124-145 | a change never touches the requirement list, and only the name `vacancies` can change the vacancies (never to 0) |
| JobDetail.ParseCompensationName | src/components/employer/JobDetail.jsx:127-130 | `compensation.<mode>.<field>` splits on its dots into mode and field |
| JobDetail.HourlyChangeWritesOneField | src/components/employer/JobDetail.jsx:127-140 | a change to an hourly input writes that field and leaves every other input, the requirements and the vacancies as they were |
| JobDetail.FixedPriceChangeWritesOneField | src/components/employer/JobDetail.jsx:127-140 | the same for the two fixed-price inputs |
| JobDetail.TopLevelChangeWritesOneField | src/components/employer/JobDetail.jsx:143-145 | a change to a top-level text input writes that field only |
| JobDetail.VacanciesChangeWritesOnlyVacancies | src/components/employer/JobDetail.jsx:141-142 | a vacancies change replaces the vacancies and nothing else |
| JobDetail.AddRequirement | src/components/employer/JobDetail.jsx:157-159 | appends exactly one `''` and keeps the existing rows |
| JobDetail.ReplaceRequirement | src/components/employer/JobDetail.jsx:151-155 | replaces row i only; the length and all other rows are unchanged |
| JobDetail.RemoveRequirement | src/components/employer/JobDetail.jsx:161-166 | with more than one row, deletes exactly row i and keeps the order of the rest; with one row, does nothing; the length never drops below 1 |
| JobDetail.SubmittedRequirements | src/components/employer/JobDetail.jsx:178 | the sent requirements are exactly the rows whose trimmed text is non-empty, in their original order: a subsequence of the rows in which each non-blank row occurs as often as in the form and no blank row occurs |
| JobDetail.CompensationToSend | src/components/employer/JobDetail.jsx:192-217 | `hourly` is sent only for pricing type `hourly` with a rate or estimated hours; `fixedPrice` only for `fixed_price` with a budget or duration; nothing otherwise |
| JobDetail.BuildPayload | src/components/employer/JobDetail.jsx:178-217 | vacancies sent are at least 1 (and equal the form's when positive); empty location and timezone are omitted; requirements are omitted exactly when every row is blank, and otherwise are the non-empty `SubmittedRequirements` of the rows; the compensation is `CompensationToSend` of the form |
| JobDetail.PayloadCompensationMatchesPricing | src/components/employer/JobDetail.jsx:192-217 | the compensation key matches the pricing type, and the values of the other pricing mode never influence the payload |
| JobDetail.HourBoundsAloneSendNothing | src/components/employer/JobDetail.jsx:194-196 | minimum and maximum hours alone do not send an hourly compensation |
| JobDetail.HourlyRateOnlyPayload | src/components/employer/JobDetail.jsx:193-204 | a rate of "25" alone sends `{hourly: {hourlyRate: 25}}` with the other keys left out |
| JobDetail.ReloadKeepsForm | src/components/employer/JobDetail.jsx:168-229 | when the server stores the payload as sent, the reloaded form keeps every text field, drops only the blank requirement rows, clamps vacancies and keeps only the compensation sub-record that was sent; an empty number input comes back empty and any other comes back as the number round trip `echo` shows it |
| JobDetail.ReloadKeepsCanonicalCompensation | src/components/employer/JobDetail.jsx:194-217 | when every number input is empty or a canonical numeral (which `String(parseFloat(s))` gives back unchanged), the compensation sub-record that was sent comes back exactly as typed |
| JobDetail.ReloadIdempotent | src/components/employer/JobDetail.jsx:168-229 | with canonical numerals in the number inputs, saving again without edits changes nothing |
| JobDetail.ZeroRateDropsCompensation | src/components/employer/JobDetail.jsx:194-205 | an hourly rate typed as `0` is sent, comes back empty through `n \|\| ''`, and with only a minimum of hours left the next save sends no compensation at all |
| JobDetail.JobTypeLabel | src/components/employer/JobDetail.jsx:263-270 | `on_site` and `hybrid` show their own badge, and any other job type (`remote`, none, or an unknown string) shows the "Remote" badge |
| JobDetail.PricingTypeLabel | src/components/employer/JobDetail.jsx:272-278 | `fixed_price` shows the "Fixed Price" badge, and any other pricing type (`hourly`, none, or an unknown string) shows the "Hourly" badge |
| JobDetail.JobDetailPage.constructor | src/components/employer/JobDetail.jsx:8-31 | initial state: the given job (in the form when present), not editing; fetch loading only without a job but with an id |
| JobDetail.JobDetailPage.FinishFetchJob | src/components/employer/JobDetail.jsx:54-74 | a fetched job replaces the job and the form; a failure sets the error message with its fallback; fetch loading ends |
| JobDetail.JobDetailPage.StartEditing | src/components/employer/JobDetail.jsx:434 | the Edit button enters edit mode |
| JobDetail.JobDetailPage.HandleChange | src/components/employer/JobDetail.jsx:124-149 | the form becomes `ApplyChange` of the old form, and error and success are cleared |
| JobDetail.JobDetailPage.HandleRequirementChange | src/components/employer/JobDetail.jsx:151-155 | the form's requirements become `ReplaceRequirement` of the old ones, and the row invariant is kept |
| JobDetail.JobDetailPage.AddRequirementRow | src/components/employer/JobDetail.jsx:157-159 | the form's requirements become `AddRequirement` of the old ones |
| JobDetail.JobDetailPage.RemoveRequirementRow | src/components/employer/JobDetail.jsx:161-166 | the form's requirements become `RemoveRequirement` of the old ones; at least one row remains |
| JobDetail.JobDetailPage.BeginUpdate | src/components/employer/JobDetail.jsx:168-190 | loading is set, messages are cleared, and the request body is `BuildPayload` of the form |
| JobDetail.JobDetailPage.FinishUpdate | src/components/employer/JobDetail.jsx:219-234 | success stores the returned job, rebuilds the form from it, leaves edit mode and tells the parent; failure keeps job, form and mode and sets the error; loading ends either way |
| JobDetail.JobDetailPage.CancelEdit | src/components/employer/JobDetail.jsx:702-747 | leaves edit mode and rebuilds the form from the job with the load normalisation, discarding every edit |
| JobDetail.JobDetailPage.BeginDelete | src/components/employer/JobDetail.jsx:237-243 | a declined confirmation sends nothing and changes nothing |
| JobDetail.JobDetailPage.FinishDelete | src/components/employer/JobDetail.jsx:245-255 | success tells the parent the job's id and keeps loading set; failure sets the error and clears loading |
| ApplicationList.OfferedActions | src/components/employer/ApplicationList.jsx:227-266 | each button is offered exactly under its render condition, without repeats; every card has at least one button, and no button would set the current status |
| ApplicationList.ClosedStatusesOfferOnlyView | src/components/employer/ApplicationList.jsx:227-266 | a card offers only "View" if and only if its status is `hired` or `rejected`; an unknown status offers all four |
| ApplicationList.HiredCanBeReopened | src/components/employer/ApplicationList.jsx:227-246 | `hired` is not final: "View" sets it to `viewed`, after which "Interview" is offered again |
| ApplicationList.TargetStatus | src/components/employer/ApplicationList.jsx:229-259 | each button asks for one of the four statuses `viewed`, `interview`, `hired`, `rejected` |
| ApplicationList.Offered | src/components/employer/ApplicationList.jsx:227-266 | the render condition of each button; no offered button asks for the status the application already has, and a hired or rejected application offers exactly "View" |
| ApplicationList.StatusTone | src/components/employer/ApplicationList.jsx:68-77 | the five known statuses have their own badge colour (emerald exactly for `hired`, rose exactly for `rejected`) and an unknown status string is slate |
| ApplicationList.SetStatus | src/components/employer/ApplicationList.jsx:58-60 | the list keeps its length and order; the applications with the matching id get the new status and all others are unchanged |
| ApplicationList.SetStatusKeepsIdentity | src/components/employer/ApplicationList.jsx:58-60 | no id and no field other than status changes; repeating the update changes nothing; an id nobody has leaves the list as it was |
| ApplicationList.UpdatedCardDropsItsAction | src/components/employer/ApplicationList.jsx:58-60 | after a successful update the card no longer offers the button that caused it |
| ApplicationList.ApplicationListPage.constructor | src/components/employer/ApplicationList.jsx:8-12 | starts with no applications, loading, no error and nothing in flight |
| ApplicationList.ApplicationListPage.BeginFetch | src/components/employer/ApplicationList.jsx:14-35 | a fetch is made only when the page has a job id, and it sets loading |
| ApplicationList.ApplicationListPage.FinishFetch | src/components/employer/ApplicationList.jsx:14-29 | success replaces the list and clears the error; failure sets the error with its fallback; loading ends either way |
| ApplicationList.ApplicationListPage.BeginStatusUpdate | src/components/employer/ApplicationList.jsx:45-50 | a declined confirmation sends nothing and changes nothing; otherwise the application's id is marked in flight, which disables the buttons of exactly the cards with that id (`ButtonsDisabled`) |
| ApplicationList.ApplicationListPage.FinishStatusUpdate | src/components/employer/ApplicationList.jsx:52-65 | success applies `SetStatus`; failure leaves the list and alerts the server message or 'Failed to update application status'; the in-flight mark is cleared either way, so no card's buttons stay disabled |
| Superpanel.Render | src/components/superpanel.jsx:115-147 | `dashboard` shows the three module cards; `jobdetail` shows the selected job; `applicationlist` gets the selected job's id exactly when a job is selected; the three module keys show their module; any key outside the six views shows nothing |
| Superpanel.ConsistentRendersSomething | src/components/superpanel.jsx:115-147 | in every reachable state something is shown, and the job pages always get a job |
| Superpanel.Dashboard.constructor | src/components/superpanel.jsx:21-23 | starts on the dashboard, sidebar closed, no selected job |
| Superpanel.Dashboard.JobPosted | src/components/superpanel.jsx:30 | a successful post switches to `myjobs` |
| Superpanel.Dashboard.OpenJob | src/components/superpanel.jsx:39-46 | View and Edit both select the job and switch to `jobdetail` |
| Superpanel.Dashboard.BackFromJobDetail | src/components/superpanel.jsx:121 | back from the detail page goes to `myjobs` and keeps the selected job |
| Superpanel.Dashboard.JobUpdated | src/components/superpanel.jsx:122-124 | an update replaces the selected job and keeps the view |
| Superpanel.Dashboard.JobDeleted | src/components/superpanel.jsx:125-128 | a delete switches to `myjobs` and clears the selected job |
| Superpanel.Dashboard.ViewApplications | src/components/superpanel.jsx:129-132 | selects the job and switches to `applicationlist` |
| Superpanel.Dashboard.BackFromApplications | src/components/superpanel.jsx:141 | back from the applications goes to `jobdetail` with the same job |
| Superpanel.Dashboard.OpenCard | src/components/superpanel.jsx:85 | a dashboard card opens its module |
| Superpanel.Dashboard.SidebarSelect | src/components/superpanel.jsx:162-164 | a sidebar entry opens its view and closes the mobile sidebar |
| Superpanel.Dashboard.OpenSidebar | src/components/superpanel.jsx:229 | the menu button opens the sidebar |
| Superpanel.Dashboard.CloseSidebar | src/components/superpanel.jsx:244 | the overlay and the close button close the sidebar |
| Superpanel.Dashboard.Screen | src/components/superpanel.jsx:115-147 | the screen is never empty, and the detail view shows the selected job |
| Superpanel.ApplicationsRoundTrip | src/components/superpanel.jsx:129-141 | viewing the applications and coming back returns to the same job's detail page |
| JobList.EmployerJobs | src/components/employer/JobList.jsx:38-40 | with a user id, the kept jobs are exactly those whose employer is that id or has that `_id`; without one, all jobs |
| JobList.EmployerJobsKeepOrder | src/components/employer/JobList.jsx:38-40 | the kept jobs keep their original order, and each owned job keeps its multiplicity |
| JobList.RemoveJob | src/components/employer/JobList.jsx:67 | after a delete no job with that id remains, and every other job does |
| JobList.RemoveJobKeepsOthers | src/components/employer/JobList.jsx:67 | the others keep their order and multiplicity; an unknown id removes nothing |
| JobList.PayloadSegment | src/components/employer/JobList.jsx:22 | the second dot-separated segment exists exactly when the token has a dot, and it contains no dot |
| JobList.PayloadSegmentOfToken | src/components/employer/JobList.jsx:22 | a `header.payload.signature` token yields its payload part |
| JobList.ToStandardBase64 | src/components/employer/JobList.jsx:23 | each `-` becomes `+` and each `_` becomes `/`, all else unchanged |
| JobList.StandardBase64RoundTrip | src/components/employer/JobList.jsx:23 | on base64url text the mapping loses nothing (mapping back gives the input) |
| JobList.CurrentUserId | src/components/employer/JobList.jsx:17-32 | the id is `payload.user.id` when truthy, else `payload.id`; no token, no second segment or a failed decode gives no id |
| JobList.UnreadableTokenKeepsAllJobs | src/components/employer/JobList.jsx:20-40 | a token that cannot be read keeps the whole list |
| JobList.JobListPage.constructor | src/components/employer/JobList.jsx:9-12 | starts with no jobs, loading, no error, nothing being deleted |
| JobList.JobListPage.BeginFetch | src/components/employer/JobList.jsx:16 | a fetch sets loading |
| JobList.JobListPage.FinishFetch | src/components/employer/JobList.jsx:14-49 | success keeps `EmployerJobs` of the answer for the token's user and clears the error; failure sets the error with its fallback; loading ends |
| JobList.JobListPage.BeginDelete | src/components/employer/JobList.jsx:55-61 | a declined confirmation changes nothing; otherwise the job is marked in flight, which disables the delete button of exactly the cards with that id (`DeleteDisabled`) |
| JobList.JobListPage.FinishDelete | src/components/employer/JobList.jsx:63-72 | success applies `RemoveJob`; failure keeps the list and alerts the message or 'Failed to delete job'; the mark is cleared either way, so no delete button stays disabled |
| EmployerProfile.FormFromUser | src/components/employer/EmployerProfile.jsx:34-40 | name and e-mail come from the top level and the company fields from the nested profile: every input is its source value when truthy and `''` otherwise |
| EmployerProfile.ApplyChange | src/components/employer/EmployerProfile.jsx:52-54 | the named input takes the value, every other input keeps its value, and an unknown name changes nothing |
| EmployerProfile.UpdatePayload | src/components/employer/EmployerProfile.jsx:67-74 | the update body carries every input's value except the e-mail's, which has no place in it |
| EmployerProfile.PayloadIgnoresEmail | src/components/employer/EmployerProfile.jsx:67-74 | two forms give the same update body exactly when they differ at most in the e-mail: the e-mail is never sent, and every other input is |
| EmployerProfile.UpdateEchoKeepsEdits | src/components/employer/EmployerProfile.jsx:67-90 | when the server stores the body as sent, the rebuilt form shows the user's edits |
| EmployerProfile.ProfilePage.constructor | src/components/employer/EmployerProfile.jsx:9-22 | starts with no profile, loading, not editing, and an empty form |
| EmployerProfile.ProfilePage.BeginFetch | src/components/employer/EmployerProfile.jsx:26-27 | a fetch sets loading and clears the error |
| EmployerProfile.ProfilePage.FinishFetch | src/components/employer/EmployerProfile.jsx:24-46 | success stores the profile and fills the form from it; failure sets the error with its fallback; loading ends |
| EmployerProfile.ProfilePage.StartEditing | src/components/employer/EmployerProfile.jsx:147 | the Edit button enters edit mode |
| EmployerProfile.ProfilePage.HandleChange | src/components/employer/EmployerProfile.jsx:52-57 | the form becomes `ApplyChange` of the old one, and error and success are cleared |
| EmployerProfile.ProfilePage.BeginUpdate | src/components/employer/EmployerProfile.jsx:59-74 | update loading is set, messages are cleared, and the body is built from the form |
| EmployerProfile.ProfilePage.FinishUpdate | src/components/employer/EmployerProfile.jsx:76-95 | success replaces the profile, leaves edit mode and rebuilds the form from the answer; failure keeps form and mode and sets the error with its fallback; update loading ends |
| EmployerProfile.ProfilePage.Cancel | src/components/employer/EmployerProfile.jsx:98-111 | leaves edit mode, clears both messages, and restores the form from the stored profile if there is one |
| JobPost.ApplyChange | src/components/employer/JobPost.jsx:21-23 | the named input takes the value, every other input keeps its value, and an unknown name changes nothing |
| JobPost.FillingEveryInput | src/components/employer/JobPost.jsx:21-23 | typing into the six inputs in turn fills the form with exactly those values, whatever it held before |
| JobPost.JobPostPage.constructor | src/components/employer/JobPost.jsx:9-19 | all six fields start empty, no messages, not loading |
| JobPost.JobPostPage.HandleChange | src/components/employer/JobPost.jsx:21-26 | the form becomes `ApplyChange` of the old one, and error and success are cleared |
| JobPost.JobPostPage.BeginSubmit | src/components/employer/JobPost.jsx:28-36 | loading is set, messages are cleared, and the posted body is the form unchanged |
| JobPost.JobPostPage.FinishSubmit | src/components/employer/JobPost.jsx:40-57 | success sets the message and empties all six fields; `onSuccess` is scheduled exactly on success when it was given; failure keeps the form and sets the error with its fallback; loading ends |
| JobPost.FailedPostKeepsForm | src/components/employer/JobPost.jsx:28-57 | a failed submit keeps every character typed and shows a non-empty error |
| Signup.ApplyChange | src/components/login/signup.jsx:21-39 | a `profile.*` name changes only the nested profile; any other name leaves the profile alone |
| Signup.ProfileNameParses | src/components/login/signup.jsx:24-25 | `profile.<key>`, with or without a further dotted part, addresses `key` |
| Signup.ProfileChangeWritesOneField | src/components/login/signup.jsx:24-32 | a company input writes exactly its nested field |
| Signup.TopLevelChangeWritesOneField | src/components/login/signup.jsx:33-38 | a top-level input writes exactly that field |
| Signup.OutcomeMessage | src/components/login/signup.jsx:56-66 | the message is never empty: the success text for an ok response; for a failed response the server message when it has one and "Registration failed" otherwise; the generic text after an exception |
| Signup.SuccessStyled | src/components/login/signup.jsx:107-113 | the green style needs the text to contain "successful": a styled message is at least ten characters long and holds every letter of that word |
| Signup.OwnMessagesStyled | src/components/login/signup.jsx:107-113 | the success text gets success styling, and both failure texts do not |
| Signup.StylingFollowsText | src/components/login/signup.jsx:107-113 | styling reads the text: a failure whose server message contains "successful" is shown as a success |
| Signup.SignupPage.constructor | src/components/login/signup.jsx:5-17 | role starts as `employer`, all other fields empty, no message, not loading |
| Signup.SignupPage.HandleChange | src/components/login/signup.jsx:21-39 | the form becomes `ApplyChange` of the old one |
| Signup.SignupPage.BeginSubmit | src/components/login/signup.jsx:41-52 | the message is cleared (so its box is hidden), loading is set, and the body is the form |
| Signup.SignupPage.FinishSubmit | src/components/login/signup.jsx:56-69 | the message is `OutcomeMessage` of the outcome and its box is shown, loading ends, and a navigation to `/superlogin` is scheduled exactly on success |
| App.ProtectedRoute | src/App.js:9-12 | the child is rendered if and only if the stored flag is exactly "true"; otherwise it redirects to `/login` |
| App.CatchAllRoute | src/App.js:15-18 | always a replacing redirect: to `/dashboard` exactly when logged in, otherwise to `/login` |
| App.Resolve | src/App.js:22-40 | `/login` and `/signup` always show their page; the panel is shown exactly for `/dashboard` when logged in; every redirect goes to `/login` or, only when logged in and from another path, to `/dashboard` |
| App.EveryPathSettles | src/App.js:22-40 | every path shows a page after at most one redirect; the panel is reached exactly when logged in and not on a public path; a logged-out visitor of any other path ends on the login page |
| App.OnlyDashboardIsGuarded | src/App.js:24-38 | `/dashboard` shows the panel exactly when logged in; `/login` and `/signup` always show; `/` goes through the catch-all |
| App.SignupRedirectSettles | src/App.js:39 | the sign-up redirect target `/superlogin` is no route: the catch-all sends it on to `/login`, or to the dashboard when the flag is set |

## Left out

- Transport: HTTP requests, `localStorage`, `window.confirm`, `alert`, `setTimeout` and navigation are not modelled.
  Their results are parameters (a `Response<T>`, a `confirmed` flag, the stored flag and token), and the side effects are results of the methods.
- The JSON decoding of the token (`atob`, `decodeURIComponent`, `JSON.parse`) is a function parameter that may fail. Only the segment split and the alphabet mapping are modelled.
- JobDetail.BuildPayload: compensation numbers stay the text they would be parsed from.
  `parseFloat` is floating point, so the model proves which keys are present, not their numeric values.
- JobDetail.ReloadKeepsForm, JobDetail.ReloadIdempotent: the text a number comes back as (`parseFloat`, then `n || ''` on reload) is a parameter `echo`.
  It is only known to give back canonical numerals unchanged and to turn zero (`0`, `0.0`) and non-numbers into `''` (`Common.NumberEcho`).
  So idempotence is promised only when every number input is empty or canonical; `ZeroRateDropsCompensation` shows a form for which it fails.
- JobDetail.VacanciesFromInput, JobDetail.VacanciesEchoKeepsValue: `parseInt` gives the exact integer its digits denote.
  The page rounds it to a double beyond 2^53, and `String` writes numbers from 1e21 on in exponent form (`1e+21`, which reads back as 1), so the round trip is promised only where the page's numbers are exact.
- JobDetail.FormFromJob: numbers coming from the server (rates, hours, budget) are modelled as strings.
  Vacancies is modelled as an optional integer.
  The display of large numbers and the formatting of a number back into an input are not modelled.
- JobDetail.JobTypeLabel, JobDetail.PricingTypeLabel, ApplicationList.StatusTone: a key that names an inherited `Object.prototype` member (`constructor`, `toString`, `__proto__`, ...) makes the page's lookup return that member, so the badge gets no label or class; the model treats such keys like any other unknown string and gives the default badge.
- JobDetail.ApplyChange, EmployerProfile.ApplyChange, JobPost.ApplyChange, Signup.ApplyChange:
  - a name the form has no field for changes nothing in the model;
  - in the pages, such a name adds a key that nothing reads;
  - every input the pages render has a modelled name.
- Signup.ApplyChange: the name `profile` without a dot would replace the nested object by a string in the page. The model treats it as an unknown name.
- JobDetail.JobDetailPage: the category and subcategory lists are fetched but never used, so they are not modelled.
- Rendering: JSX, Tailwind class strings, animations and date formatting are not modelled.
  The badge colours and labels are modelled as small enumerations.
- React timing: effect scheduling, concurrent requests, unmounting, and the stale `applications` and `jobs` closures of the update handlers are not modelled.
  Every handler runs atomically on the current state.
- Route matching: the router's case-insensitive and trailing-slash matching is not modelled. Paths are compared exactly.
- Logout in `src/components/superpanel.jsx` (clearing storage and redirecting) is not modelled. It is only browser I/O.
- `src/components/login/superlogin.jsx` is not part of this model. It only sends the login request, stores the token and redirects.
- `src/index.js` and the separate super-admin front end are not part of this model. They are provider wiring and fetch-and-render pages without local logic.
