# Job-matching front end: event-handler core

This project models the logic inside the event handlers of a React front end for a
job-matching service. Candidates onboard, see matched jobs and apply. Employers onboard,
post jobs and review applicants. An admin approves or rejects employers.

The model covers six components:

- **Candidate onboarding** (`CandidateOnboarding`). A five-step wizard:
  - resume upload through a signed URL;
  - editing of the skill list;
  - a final submission that is meant to store the profile under `"onboarding"` in local
    storage and go to `/login`. As written it throws before any request; see Findings.
- **Employer onboarding** (`EmployerOnboarding`). A three-step wizard:
  - an ID-card upload with a MIME allow-list and a two-phase signed upload;
  - a submission that stores the record under `"employerOnboarding"`.
- **Job posting** (`PostJob`). A board of jobs and a form with a skill list. A new job is
  numbered `jobs.length + 1` and placed in front.
- **Matches** (`Matches`):
  - three sort orders (score, company, salary) applied to a copy of the list;
  - the `getMin` salary parser;
  - the applied-set and the score badge.
- **Applicants** (`Applicants`). The status filter, the status and score colour mappings,
  and the status label.
- **Admin dashboard** (`AdminDashboard`):
  - fetching the pending employers, with the `loading` flag and the `[]` default. The page
    makes this request as soon as it mounts (the `useEffect` at
    src/components/Admin/AdminDashboard.jsx:52-54); `FetchEmployers` is that call;
  - mapping a decision to a request;
  - removing a decided employer;
  - logout.

Helper modules hold what several components share:
- `Common`: Option, Result, the ReferenceError a read of an undeclared name throws, `Math.min`.
- `Text`: JavaScript `trim` and capitalisation.
- `Decimal`: `String(n)` and `parseInt` on digit strings.
- `Seqs`: array `filter` and remove-by-index.
- `Net`: files, signed targets, replies, the request log.
- `Wizard`: the step controller.
- `Bands`: score bands.

How the components are modelled:

- **State cells.** A component's state cells are the fields of a Dafny class. Each handler is
  a method whose `modifies` clause names the cells it sets.
- **Network replies.** Every reply is a parameter of the handler:
  - whether a signed target came back;
  - whether the PUT succeeded;
  - the status code of a submission, or a network error.
- **Request log.** Each class records the requests it issues in a `sent` log. Each entry holds
  the busy flag (`uploading`, `saving` or `loading`) as it was when the request went out.
- **Local storage and navigation.** These are the fields `saved`/`storage` and `location`.
- **States at rest.**
  - In both wizards, `Valid()` means the step is in 1..n and neither `uploading` nor `saving`
    is set. Every event handler requires it and keeps it.
  - The candidate wizard also has `errorPage`, set when rendering throws. Every handler requires
    it to be unset.
  - On the job board, `Valid()` is the id numbering n, n-1, …, 1 from the front, which every
    handler keeps.
  - On the admin dashboard, `Valid()` means no list request is in flight.
  - The matches page has no invariant beyond its field types.
  - The helpers `Transfer` and `Resolve` require `Valid()` and keep it. `Submit` and
    `HandleLogout` do not depend on it.

## Model

| member | source | states |
|---|---|---|
| Common.Min | src/components/User/Onboarding.jsx:94 | `Math.min` is at most both arguments and equal to one of them |
| Text.TrimStart | src/components/User/Onboarding.jsx:85 | Leading white space removed: the result is a suffix that does not start with a space, and every dropped character is a space |
| Text.TrimEnd | src/components/User/Onboarding.jsx:85 | Trailing white space removed: the result is a prefix that does not end with a space, and every dropped character is a space |
| Text.TrimBothIsSlice | src/components/User/Onboarding.jsx:85 | Trimming the start and then the end leaves a slice of the input with only white space on either side |
| Text.Trim | src/components/User/Onboarding.jsx:85 | `trim()` is a slice of the input with only white space before and after it; it is empty exactly when the input is all white space, and otherwise starts and ends with a non-space |
| Text.Upper | src/components/Company/Applicants.jsx:170 | `toUpperCase` maps a–z to A–Z and leaves every other character alone |
| Text.Capitalize | src/components/Company/Applicants.jsx:170-171 | Same length; the first character upper-cased; the rest unchanged |
| Decimal.DigitChar | src/components/Company/PostJob.jsx:78 | The character written for a digit is a digit and reads back as that digit |
| Decimal.Value | src/components/User/Matches.jsx:85 | `parseInt` of a non-empty digit string, most significant digit first; a string not starting with 0 denotes a positive number |
| Decimal.Show | src/components/Company/PostJob.jsx:78 | `String(n)` is a non-empty digit string with no leading zero unless n is 0 |
| Decimal.ValueOfShow | src/components/User/Matches.jsx:85 | `parseInt` of `String(n)` is n |
| Decimal.ShowOfValue | src/components/User/Matches.jsx:85 | A digit string without a leading zero is what `String` writes for the number `parseInt` reads from it |
| Decimal.ShowInjective | src/components/Company/PostJob.jsx:78 | Different numbers give different id strings |
| Seqs.Filter | src/components/Company/Applicants.jsx:77 | `filter` keeps every element satisfying the predicate as often as it occurs and drops every other |
| Seqs.FilterConcat | src/components/Company/Applicants.jsx:77 | `filter` distributes over concatenation, so kept elements keep their relative order |
| Seqs.RemoveIndex | src/components/User/Onboarding.jsx:90-91 | `filter((_, x) => x !== i)` removes exactly position i when it is in range, and nothing otherwise |
| Net.Succeeded | src/components/User/Onboarding.jsx:118 | A reply counts as saved exactly when its status is 200 or 201 |
| Net.Accepts | src/components/User/Onboarding.jsx:55-57 | A file passes the upload guard when one was chosen and its type is on the allow-list |
| Wizard.Offered | src/components/User/Onboarding.jsx:271-285 | Back is rendered above the first step, Next below the last |
| Wizard.Step | src/components/User/Onboarding.jsx:94 | An offered Next or Back keeps the step in 1..n and moves it by exactly one, with Next never passing n |
| Wizard.RunStaysInRange | src/components/User/Onboarding.jsx:271-285 | Whatever the sequence of clicks on the rendered buttons, the step stays within 1..n |
| Wizard.RunNextReaches | src/components/User/Onboarding.jsx:94 | k presses of Next from step s reach `min(s + k, n)`, so every step is reachable |
| Bands.BandOf | src/components/Company/Applicants.jsx:94-98 | High exactly from 90, middle exactly from 80 to 89, low exactly below 80 |
| Bands.BandMonotone | src/components/User/Matches.jsx:143-149 | A higher score never lands in a lower band |
| CandidateOnboarding.WithField | src/components/User/Onboarding.jsx:172-198 | An input edit sets its own field and leaves every other field, the skills, auto-apply and the resume URL as they were |
| CandidateOnboarding.PayloadOf | src/components/User/Onboarding.jsx:100-110 | The intended payload carries the user id, the resume URL and every other profile field, each under its own key |
| CandidateOnboarding.PayloadDeterminesProfile | src/components/User/Onboarding.jsx:100-110 | Two profiles give the same payload iff they are equal: no profile field is dropped |
| CandidateOnboarding.PayloadAsWritten | src/components/User/Onboarding.jsx:100-102 | As written, building the payload throws a ReferenceError for `resumeURL`, whatever the profile |
| CandidateOnboarding.Commit | src/components/User/Onboarding.jsx:73 | The intended commit sets the resume URL to the read URL and changes nothing else |
| CandidateOnboarding.CommitAsWritten | src/components/User/Onboarding.jsx:73 | As written, the commit updater throws a ReferenceError for `publicURL`, whatever the state and target |
| CandidateOnboarding.Onboarding.constructor | src/components/User/Onboarding.jsx:35-51 | Starts on step 1 with the empty profile, nothing sent, nothing stored |
| CandidateOnboarding.Onboarding.HandleNext | src/components/User/Onboarding.jsx:94 | The step becomes `min(step + 1, 5)` and stays in 1..5 |
| CandidateOnboarding.Onboarding.HandleBack | src/components/User/Onboarding.jsx:271-279 | Offered only above step 1; goes back exactly one step |
| CandidateOnboarding.Onboarding.HandleSkillInput | src/components/User/Onboarding.jsx:217 | The skill input holds the typed text |
| CandidateOnboarding.Onboarding.HandleEdit | src/components/User/Onboarding.jsx:172-198 | The profile becomes the one-field edit of the old profile |
| CandidateOnboarding.Onboarding.HandleAutoApply | src/components/User/Onboarding.jsx:247 | Only auto-apply changes, to the checkbox value |
| CandidateOnboarding.Onboarding.HandleAddSkill | src/components/User/Onboarding.jsx:84-89 | If the input is not blank, its trim is appended and the input cleared; otherwise nothing changes |
| CandidateOnboarding.Onboarding.HandleRemoveSkill | src/components/User/Onboarding.jsx:90-91 | Skill i is removed and the rest keep their order; an out-of-range i changes nothing |
| CandidateOnboarding.Onboarding.Transfer | src/components/User/Onboarding.jsx:55-80 | No request for a missing or non-PDF file; otherwise the signed-URL request, then the PUT if a target came back, both while uploading; `done` exactly when the file was accepted and both succeeded; `uploading` ends false |
| CandidateOnboarding.Onboarding.HandleResumeUpload | src/components/User/Onboarding.jsx:54-81 | As written: the same requests; the profile never changes; the wizard gives way to the error page exactly when the file is a PDF and both requests succeed |
| CandidateOnboarding.Onboarding.HandleResumeUploadFixed | src/components/User/Onboarding.jsx:54-81 | As intended: the resume URL is committed exactly when the file is a PDF and both requests succeed |
| CandidateOnboarding.Onboarding.Submit | src/components/User/Onboarding.jsx:112-133 | A payload that threw sends nothing; otherwise one POST; status 200/201 stores the profile under "onboarding" and navigates to /login; any other reply writes nothing |
| CandidateOnboarding.Onboarding.HandleComplete | src/components/User/Onboarding.jsx:97-134 | As written: no request, no storage, no navigation, and `saving` ends false |
| CandidateOnboarding.Onboarding.HandleCompleteFixed | src/components/User/Onboarding.jsx:97-134 | As intended: one POST of the whole profile with the token while saving; storage and navigation exactly on 200/201 |
| CandidateOnboarding.ScenarioAsWritten | src/components/User/Onboarding.jsx:54-81 | Uploading a PDF with both requests succeeding ends on the error page, with the resume URL empty, nothing stored and only the two upload requests sent |
| CandidateOnboarding.ScenarioCompleteAsWritten | src/components/User/Onboarding.jsx:97-134 | Filling the title, walking to step 5 and completing against a 201 server sends no request, stores nothing and stays on step 5 |
| CandidateOnboarding.Scenario | src/components/User/Onboarding.jsx:54-134 | The same run with the intended handlers submits the read URL and title, stores the profile and navigates to /login |
| EmployerOnboarding.WithField | src/components/Company/EmployerOnboarding.jsx:169-191 | An input edit sets its own field and leaves every other field and both URLs as they were |
| EmployerOnboarding.PayloadOf | src/components/Company/EmployerOnboarding.jsx:102-109 | The payload carries the user id, the ID-card URL, LinkedIn, company name, company location and position, each under its own key |
| EmployerOnboarding.PayloadOmitsOnlyUploadURL | src/components/Company/EmployerOnboarding.jsx:102-109 | Two records give the same payload iff they differ at most in `uploadURL`: it is the only field not sent |
| EmployerOnboarding.Commit | src/components/Company/EmployerOnboarding.jsx:83-87 | Exactly `uploadURL` and `idCardURL` are overwritten from the target; every other field is kept |
| EmployerOnboarding.Onboarding.constructor | src/components/Company/EmployerOnboarding.jsx:43-57 | Starts on step 1 with the empty record, nothing sent, nothing stored |
| EmployerOnboarding.Onboarding.CompleteEnabled | src/components/Company/EmployerOnboarding.jsx:223-228 | The Complete button is rendered on the last step and disabled while saving |
| EmployerOnboarding.Onboarding.HandleNext | src/components/Company/EmployerOnboarding.jsx:223-224 | Offered only below step 3; advances exactly one step |
| EmployerOnboarding.Onboarding.HandleBack | src/components/Company/EmployerOnboarding.jsx:214-216 | Offered only above step 1; goes back exactly one step |
| EmployerOnboarding.Onboarding.HandleEdit | src/components/Company/EmployerOnboarding.jsx:169-191 | The record becomes the one-field edit of the old record |
| EmployerOnboarding.Onboarding.HandleIdCardUpload | src/components/Company/EmployerOnboarding.jsx:60-96 | A missing file or a type other than PNG/JPEG/PDF sends nothing and changes nothing. Otherwise both requests carry the file's own type and go out while uploading. The two URLs are committed only when both succeed, and `uploading` ends false |
| EmployerOnboarding.Onboarding.HandleComplete | src/components/Company/EmployerOnboarding.jsx:99-131 | Callable only when Complete is enabled (last step, not saving). One POST of the payload while saving. 200/201 stores the whole record under "employerOnboarding" and navigates to /login; any other reply writes nothing |
| PostJob.WithField | src/components/Company/PostJob.jsx:120-191 | An input edit sets its own field and leaves every other field and the skills as they were |
| PostJob.FormComplete | src/components/Company/PostJob.jsx:113-191 | The form submits only with title, experience, location and description filled, the inputs marked `required` |
| PostJob.NewJob | src/components/Company/PostJob.jsx:77-82 | The new job's id is `String(jobs.length + 1)`, it has 0 applicants and the given date, and its other fields are the form's |
| PostJob.Posted | src/components/Company/PostJob.jsx:83 | The new job is in front, the old jobs follow in order, the length grows by one, and n..1 numbering is kept |
| PostJob.IdsDistinct | src/components/Company/PostJob.jsx:78 | On a board numbered by posting, all ids differ |
| PostJob.NewJobIdIsFresh | src/components/Company/PostJob.jsx:78 | On such a board, the new job's id is not yet taken |
| PostJob.Board.constructor | src/components/Company/PostJob.jsx:38-59 | Starts with the seed job, the form hidden and empty |
| PostJob.Board.ToggleForm | src/components/Company/PostJob.jsx:98 | The header button flips `showForm` |
| PostJob.Board.HandleSkillInput | src/components/Company/PostJob.jsx:159 | The skill input holds the typed text |
| PostJob.Board.HandleEdit | src/components/Company/PostJob.jsx:120-191 | The form becomes the one-field edit of the old form |
| PostJob.Board.HandleAddSkill | src/components/Company/PostJob.jsx:61-66 | If the input is not blank, it is appended untrimmed and the input cleared; otherwise nothing changes |
| PostJob.Board.HandleRemoveSkill | src/components/Company/PostJob.jsx:68-73 | Skill `index` is removed and the rest keep their order; an out-of-range index changes nothing |
| PostJob.Board.HandleSubmit | src/components/Company/PostJob.jsx:75-86 | The board becomes `Posted(jobs, form, today)`; the form is reset and hidden; the numbering invariant is kept |
| Matches.BeforeDash | src/components/User/Matches.jsx:85 | `split("-")[0]` is the longest dash-free prefix |
| Matches.KeepDigits | src/components/User/Matches.jsx:85 | `replace(/\D/g, "")` is the digit filter of the text: only digits remain, each as often as in the text, in their order |
| Matches.GetMin | src/components/User/Matches.jsx:83-86 | "" gives 0; no digits before the first dash gives NaN; any number is a multiple of 1000 |
| Matches.RangeDigits | src/components/User/Matches.jsx:85 | The digits read from "$<digits>k - …" are exactly `digits` |
| Matches.DigitsOfAmount | src/components/User/Matches.jsx:85 | The digits of "$<digits>k " are exactly `digits` |
| Matches.BeforeDashWhole | src/components/User/Matches.jsx:85 | Text without a dash is its own `split("-")[0]` |
| Matches.GetMinBeforeDash | src/components/User/Matches.jsx:83-86 | For any text p without a dash but with a digit, and anything after the dash, the minimum is 1000 times the number spelled by the digits of p |
| Matches.GetMinWithoutDash | src/components/User/Matches.jsx:83-86 | A salary without a dash but with a digit has minimum 1000 times the number its digits spell |
| Matches.GetMinOfRange | src/components/User/Matches.jsx:83-86 | A salary "$<n>k - …" has minimum n × 1000 |
| Matches.GetMinExample | src/components/User/Matches.jsx:37 | "$150k - $180k" has minimum 150000 |
| Matches.KeyOf | src/components/User/Matches.jsx:79-90 | "company" and "salary" pick their orders; every other key falls back to the score order |
| Matches.InOrder | src/components/User/Matches.jsx:81-89 | a may precede b exactly when the comparator gives at most 0: `b.matchScore - a.matchScore`, `localeCompare`, or the salary difference, where a NaN minimum counts as 0 |
| Matches.InOrderTotal | src/components/User/Matches.jsx:79-90 | For every key, any two jobs are ordered one way or the other |
| Matches.OrderedAt | src/components/User/Matches.jsx:77-91 | In a neighbour-sorted list under a transitive comparator, the job at position i is in order with the one at any later position j |
| Matches.SortedPairwise | src/components/User/Matches.jsx:77-91 | When the comparator is transitive, neighbour order gives order between any two positions |
| Matches.ScoreOrderDescends | src/components/User/Matches.jsx:88-89 | Sorted by score, scores never increase down the list |
| Matches.SalaryOrderDescends | src/components/User/Matches.jsx:82-87 | Sorted by salary, with every salary parsing, minimum salaries never increase down the list |
| Matches.CompanyOrderAscends | src/components/User/Matches.jsx:80-81 | Sorted by company with a transitive comparison, companies ascend down the list |
| Matches.SortInPlace | src/components/User/Matches.jsx:81-89 | `sort` in place: the array is a permutation of itself and every two neighbours are in comparator order |
| Matches.SortedJobs | src/components/User/Matches.jsx:77-91 | The result is a permutation of the job list in the chosen key's order (for a consistent comparator); the list itself is a value and stays unchanged |
| Matches.BadgeClass | src/components/User/Matches.jsx:143-149 | Green exactly from 90, blue exactly from 80 to 89, yellow exactly below 80 |
| Matches.MatchesPage.constructor | src/components/User/Matches.jsx:73-74 | Starts sorted by score with nothing applied |
| Matches.MatchesPage.SelectSort | src/components/User/Matches.jsx:116-119 | The sort key becomes the clicked option |
| Matches.MatchesPage.HandleApply | src/components/User/Matches.jsx:94-98 | The set gains the id and keeps its earlier members; applying twice changes nothing more |
| Matches.MatchesPage.HandleReject | src/components/User/Matches.jsx:101-103 | No state changes |
| Applicants.Filtered | src/components/Company/Applicants.jsx:74-77 | "all" gives the whole list; any other filter gives exactly the applicants with that status, each as often as in the list |
| Applicants.FilteredKeepsOrder | src/components/Company/Applicants.jsx:77 | Filtering a concatenation filters each part, so applicants keep their order |
| Applicants.StatusColor | src/components/Company/Applicants.jsx:79-92 | The gray class exactly for a status other than new, shortlisted, hired and rejected |
| Applicants.StatusColorsDistinct | src/components/Company/Applicants.jsx:79-92 | The four known statuses get four different classes |
| Applicants.MatchScoreColor | src/components/Company/Applicants.jsx:94-98 | Green exactly from 90, blue exactly from 80 to 89, yellow exactly below 80: disjoint and covering |
| Applicants.StatusLabel | src/components/Company/Applicants.jsx:170-171 | The label is the status with its first character upper-cased and the rest unchanged |
| AdminDashboard.AcceptSendsNoBodyAsWritten | src/components/Admin/AdminDashboard.jsx:61-78 | As written, an accept is a PATCH whose body is empty |
| AdminDashboard.DecisionConfigAsWritten | src/components/Admin/AdminDashboard.jsx:59-78 | As written: PATCH acceptEmployer with `employerId` as a stray configuration key and no body for "accepted"; DELETE rejectEmployer with `{employerId: id}` as the body otherwise |
| AdminDashboard.DecisionConfig | src/components/Admin/AdminDashboard.jsx:59-78 | PATCH acceptEmployer exactly for "accepted", DELETE rejectEmployer otherwise, always with `{employerId: id}` as the body |
| AdminDashboard.DecisionConfigFixesOnlyBody | src/components/Admin/AdminDashboard.jsx:59-78 | The corrected request has the written method and url; only the accept body differs |
| AdminDashboard.WithoutEmployer | src/components/Admin/AdminDashboard.jsx:81 | Exactly the entries with that id leave; every other entry keeps its multiplicity |
| AdminDashboard.WithoutEmployerKeepsOrder | src/components/Admin/AdminDashboard.jsx:81 | Removal distributes over concatenation, so the survivors keep their order |
| AdminDashboard.WithoutAbsentEmployer | src/components/Admin/AdminDashboard.jsx:81 | Removing an id no entry has leaves the list as it was |
| AdminDashboard.WithoutPresentEmployerShrinks | src/components/Admin/AdminDashboard.jsx:81 | Removing an id some entry has shortens the list |
| AdminDashboard.FetchedList | src/components/Admin/AdminDashboard.jsx:33 | The fetched `data.data` when present, the empty list otherwise |
| AdminDashboard.ShowsDecisionButtons | src/components/Admin/AdminDashboard.jsx:205-228 | Accept and Reject are rendered only for an employer not verified yet |
| AdminDashboard.Pending | src/components/Admin/AdminDashboard.jsx:189-228 | The ids of the listed employers whose rows show Accept and Reject |
| AdminDashboard.PendingAfterDecision | src/components/Admin/AdminDashboard.jsx:81 | After a successful decision on an id, the rows with buttons are the earlier ones less that id |
| AdminDashboard.Dashboard.constructor | src/components/Admin/AdminDashboard.jsx:8-15 | Starts not loading, with no employers and nothing sent; the mount-time GET is `FetchEmployers` |
| AdminDashboard.Dashboard.FetchEmployers | src/components/Admin/AdminDashboard.jsx:18-50 | One GET while loading; a reply installs `data.data` or []; a failure keeps the list; `loading` ends false |
| AdminDashboard.Dashboard.Resolve | src/components/Admin/AdminDashboard.jsx:73-95 | The given request goes out; success removes exactly that id, shortens the list and drops it from the rows with buttons; failure changes nothing |
| AdminDashboard.Dashboard.HandleDecision | src/components/Admin/AdminDashboard.jsx:57-96 | As written, for a listed unverified employer: one request as written (an accept carries no body); success removes that id, shortens the list and takes its buttons away; failure changes nothing |
| AdminDashboard.Dashboard.HandleDecisionFixed | src/components/Admin/AdminDashboard.jsx:57-96 | As intended: the same, with `{employerId: id}` as the body of either request |
| AdminDashboard.Dashboard.HandleLogout | src/components/Admin/AdminDashboard.jsx:98-102 | Local storage is emptied and the page becomes /adminlogin |

## Left out

- HTTP, the signed-URL store and the PUT transfer are not modelled. Each reply is a handler
  parameter: whether a target came back, whether the PUT succeeded, the status or a network
  error. Request bodies are kept as records, with no JSON encoding.
- The router's default error page is modelled only as the candidate wizard's `errorPage`
  flag. Its content, and the discarding of the wizard's state that comes with it, are not
  modelled; no handler runs once the flag is set.
- `alert`, `console.log` and `console.error` are not modelled; they have no effect on state.
- Rendering, animation, the sidebar's `activeTab` and `emp.name || "Unnamed Employer"` are not
  modelled. Only the colour and label mappings are kept.
- The date `new Date().toISOString().split("T")[0]` is not computed. `PostJob.Board.HandleSubmit`
  takes the day as a parameter.
- `localeCompare` is not modelled; the company order is a parameter. `Matches.SortedJobs`
  assumes it is total. `Matches.CompanyOrderAscends` also assumes it is transitive.
- Matches.SortedJobs: states a permutation in comparator order, not the stability that
  `Array.prototype.sort` guarantees.
- Matches.SortedJobs: with the salary key and a salary without digits, `getMin` gives NaN and
  the comparator is not consistent. The ECMAScript definition of
  `Array.prototype.sort` then leaves the order implementation-defined. The neighbour order the model proves there is its
  own sort's, not one the program guarantees.
- Matches.GetMin: does not model `parseInt` on more than about 15 digits. There the
  floating-point result loses precision, while the model keeps the exact integer.
- Text.Upper: covers only ASCII letters, with no Unicode case mapping and no case change that
  alters a string's length.
- Concurrency is not modelled. Handlers run one at a time, each to completion. Overlapping
  runs of the async handlers (a second click during an upload) are not guarded in the source
  and are not modelled either.
- A missing `userId` or `authToken` in local storage (`getItem` returning null) is not
  modelled; both are taken as strings.
- AdminLogin.jsx, Profile.jsx, Settings.jsx, the dashboards, layouts, landing pages, login and
  signup are not part of this model. Each is markup or one request with fields copied through.

## Findings

| source | as written | input that shows it | evidently intended | confidence | as-written member | corrected member |
|---|---|---|---|---|---|---|
| src/components/User/Onboarding.jsx:73 | The commit updater reads `publicURL`, which no scope declares (the handler names its value `resumeURL`). React applies the updater while rendering, after the handler's `try` is left, so the ReferenceError escapes line 75. The route has no error element, so the router's default error page replaces the wizard. The resume URL is never stored and the wizard's state is lost | A PDF whose signed-URL request and PUT both succeed | Store the read URL returned with the signed URL into `data.resumeURL` and change nothing else | high, not executed | CandidateOnboarding.ScenarioAsWritten | CandidateOnboarding.Onboarding.HandleResumeUploadFixed |
| src/components/User/Onboarding.jsx:102 | The payload reads a bare `resumeURL`, declared only inside the upload handler. Building the payload throws, the catch shows "Error saving details.", and no request goes out. Nothing is stored and no navigation happens | Any click on "Complete Setup" | POST `data.resumeURL` with the rest of the profile; on 200/201 store the profile and navigate to /login | high, not executed | CandidateOnboarding.ScenarioCompleteAsWritten | CandidateOnboarding.Onboarding.HandleCompleteFixed |
| src/components/Admin/AdminDashboard.jsx:64 | The accept payload `{ employerId: id }` is spread into the axios configuration as a top-level key, and axios sends no body for it. The reject branch wraps its payload in `data` and is sent correctly | A click on Accept for any pending employer | PATCH acceptEmployer with body `{ employerId: id }` | medium, not executed | AdminDashboard.Dashboard.HandleDecision | AdminDashboard.Dashboard.HandleDecisionFixed |
