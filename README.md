# HR management demo: a verified model of its logic

The application is an HR-management demo. A React front end keeps job postings and candidates in
browser storage and shows dashboards and AI demo tools. An Express back end wraps a language
model for résumé parsing, candidate–job matching and related features. This project models the
parts of both that decide something, and proves what they do:

- the front end:
  - the job board: search and filter, delete, status toggle, create and reset;
  - the candidate list: search, colour classifications, add, edit and delete;
  - the dashboard's counts and their demo defaults;
  - the translation lookup and language choice;
  - the AI tools page's file-name dispatch;
  - the login page's display-name derivation.
- the back end:
  - the AI service: ranking, fallback, the rethrow of every failure as a 500, and prompt defaults;
  - the AI controller's required-field checks and response envelope;
  - the authentication controller over a user table;
  - the error handler;
  - the AI router's role lists and upload filter.

Each source file is one module. Where the page or the controller updates state, the module holds
a class with `seq`/`map` fields. Each of its methods is specified by a pure function over the old
state, and the lemmas are about those functions. Where the code is a pure expression, the module
uses functions.

Modules: `Wrappers` (Option, Result) · `JsStrings` (the JavaScript string operations used,
ASCII case only) · `Lists` (`filter`, counting, order) · `Jobs` · `Candidates` · `Dashboard` ·
`Translations` · `AITools` · `Login` · `ErrorHandler` · `AIService` · `AIController` ·
`AuthController` · `AIRoutes`.

The quirks of the code are kept, each with a lemma that exhibits it:

- ids are `length + 1`, so a new id can collide with a live one (`Jobs.NewJobIdCanCollide`);
- the "All Departments" option emits `""`, which hides every default job
  (`Jobs.AllDepartmentsOptionHidesDefaults`);
- in Polish, the status options emit translated text that matches no job
  (`Translations.PolishStatusOptionsHideDefaultJobs`);
- `||` treats `""` and `0` as missing (`ErrorHandler.ZeroStatusBecomes500`,
  `AIService.EmptyRequirementsGetDefault`);
- a 404 raised inside the AI service is rethrown as a 500 (`AIService.MissingJobIs500`,
  `AIService.NotFoundBecomes500`);
- `changePassword` ignores the route's length validator (`AuthController.ShortNewPasswordAccepted`);
- the dashboard's charts are drawn once, from the first render's empty lists, so they never show the
  stored candidates (`Dashboard.DrawnCharts`; see "Findings").

Two more facts about the code that the model keeps:

- the error handler sends the stack only when `NODE_ENV` is exactly `development`
  (`ErrorHandler.HandleError`);
- a login body without a password gives a 401 for an unknown address but a 500 from
  `bcrypt.compare` for a registered one (`AuthController.MissingPasswordRevealsAccount`).

## Model

| member | source | states |
|---|---|---|
| JsStrings.ToLower | frontend/src/pages/Jobs.tsx:48 | `toLowerCase` keeps the length and maps each character on its own, ASCII upper case to lower case |
| JsStrings.ToLowerIdempotent | frontend/src/pages/Jobs.tsx:48 | lower-casing twice is lower-casing once |
| JsStrings.Includes | frontend/src/pages/Jobs.tsx:48 | `s.includes(t)` holds iff `t` occurs in `s` at some index |
| JsStrings.Split | frontend/src/pages/Candidates.tsx:72 | `split(',')` gives one more piece than there are commas, and no piece holds a comma |
| JsStrings.JoinSplit | frontend/src/pages/Candidates.tsx:72 | joining the pieces with the separator gives the input back |
| JsStrings.Trim | frontend/src/pages/Candidates.tsx:72 | `trim` returns the middle slice of the input; everything cut off is whitespace, and the result neither starts nor ends with whitespace |
| JsStrings.TrimUnicodeSpaces | frontend/src/pages/Candidates.tsx:72 | `trim` also removes non-ASCII space separators such as U+3000 and U+2003 |
| JsStrings.TrimIdempotent | frontend/src/pages/Candidates.tsx:72 | trimming twice is trimming once |
| JsStrings.DecimalString | frontend/src/pages/Dashboard.tsx:42-45 | `n.toString()` is a non-empty digit string with no leading zero unless `n` is 0 |
| JsStrings.ParseDecimalString | frontend/src/pages/Dashboard.tsx:42-45 | reading a count's decimal string back gives the count |
| JsStrings.OrElse | backend/src/middleware/errorHandler.ts:21 | `v \|\| d` on a string is `v` when present and non-empty, otherwise `d` |
| Lists.Filter | frontend/src/pages/Jobs.tsx:46 | `filter(p)` keeps exactly the elements satisfying `p` and is never longer than its input |
| Lists.FilterMultiplicity | frontend/src/pages/Jobs.tsx:46 | `filter` keeps every copy of a passing element and no copy of a failing one |
| Lists.FilterIsSubsequence | frontend/src/pages/Jobs.tsx:46 | `filter` keeps the original order |
| Lists.CountComplement | frontend/src/pages/Dashboard.tsx:36-39 | the counts of a predicate and of its negation add up to the length |
| Jobs.FilteredJobs | frontend/src/pages/Jobs.tsx:46-60 | a job is shown iff its lower-cased title or department contains the lower-cased term, the department filter is 'All Departments' or equals its department, and the status filter is 'All Status' or equals its status; every copy of a shown job is kept, and the result is an order-preserving subsequence |
| Jobs.UnfilteredShowsAll | frontend/src/pages/Jobs.tsx:46-60 | an empty search with both sentinels shows every job, in order |
| Jobs.AllDepartmentsOptionKeepsOnlyEmptyDepartment | frontend/src/pages/Jobs.tsx:169 | with the value the "All Departments" option emits (`""`), only jobs whose department is `""` pass |
| Jobs.AllDepartmentsOptionHidesDefaults | frontend/src/pages/Jobs.tsx:169 | so choosing that option on the default jobs shows none |
| Jobs.WithoutJob | frontend/src/pages/Jobs.tsx:76-77 | delete keeps exactly the jobs whose id differs, every copy of each, in order, and shrinks the list by the number of jobs with that id |
| Jobs.ToggledStatus | frontend/src/pages/Jobs.tsx:85 | the new status is 'Draft' iff the old one is 'Active'; it is always 'Active' or 'Draft' |
| Jobs.ToggleWhere | frontend/src/pages/Jobs.tsx:82-87 | toggle keeps the length, leaves jobs with other ids unchanged, and changes only the status of jobs with the id |
| Jobs.ToggleTwiceRestores | frontend/src/pages/Jobs.tsx:82-87 | toggling twice restores the list iff every targeted job was 'Active' or 'Draft' |
| Jobs.NewJob | frontend/src/pages/Jobs.tsx:102-111 | the new job has id `length + 1`, no applicants and status 'Active', and copies the form's fields |
| Jobs.NewJobIdCanCollide | frontend/src/pages/Jobs.tsx:76-114 | after deleting job 1 from the defaults, the next new job gets id 5, which job 5 still holds |
| Jobs.JobsPage.constructor | frontend/src/pages/Jobs.tsx:16-39 | the saved list or the defaults, both filter sentinels, an empty search and the empty form |
| Jobs.JobsPage.Visible | frontend/src/pages/Jobs.tsx:46-60 | the shown jobs are the ones passing the three current filters, each with all its copies, in list order |
| Jobs.JobsPage.SetSearchTerm | frontend/src/pages/Jobs.tsx:161 | sets the search term; nothing else changes |
| Jobs.JobsPage.SetDepartmentFilter | frontend/src/pages/Jobs.tsx:164-174 | sets the department filter to the emitted value; nothing else changes |
| Jobs.JobsPage.SetStatusFilter | frontend/src/pages/Jobs.tsx:175-183 | sets the status filter to the emitted value; nothing else changes |
| Jobs.JobsPage.ClearFilters | frontend/src/pages/Jobs.tsx:208-213 | "Clear all" restores the sentinels, after which every job is visible |
| Jobs.JobsPage.EditNewJob | frontend/src/pages/Jobs.tsx:292 | a form edit replaces the form; the list and the filters are unchanged |
| Jobs.JobsPage.DeleteJob | frontend/src/pages/Jobs.tsx:76-80 | the list becomes `WithoutJob` of the old list; nothing else changes |
| Jobs.JobsPage.ToggleStatus | frontend/src/pages/Jobs.tsx:82-89 | the list becomes `ToggleWhere` of the old list; nothing else changes |
| Jobs.JobsPage.ResetToDefaults | frontend/src/pages/Jobs.tsx:91-96 | a confirmed reset makes the list the five default jobs; a cancelled one changes nothing |
| Jobs.JobsPage.SubmitNewJob | frontend/src/pages/Jobs.tsx:98-127 | prepends `NewJob` to the old list (one longer, old jobs unchanged behind it) and clears the form |
| Candidates.FilteredCandidates | frontend/src/pages/Candidates.tsx:41-45 | a candidate is shown iff the lower-cased term occurs in its lower-cased name, e-mail or position; every copy of a shown candidate is kept, in order |
| Candidates.EmptySearchShowsAll | frontend/src/pages/Candidates.tsx:41-45 | an empty search shows every candidate |
| Candidates.SearchIgnoresCase | frontend/src/pages/Candidates.tsx:41-45 | a term and its lower-cased form select the same candidates |
| Candidates.ScoreBandOf | frontend/src/pages/Candidates.tsx:57-63 | green iff ≥ 90, blue iff 80–89, yellow iff 70–79, orange iff 60–69, red iff < 60 |
| Candidates.ScoreBandMonotone | frontend/src/pages/Candidates.tsx:57-63 | a higher score never gets a lower band |
| Candidates.ScoreBandClassInjective | frontend/src/pages/Candidates.tsx:58-62 | the five bands have five different classes |
| Candidates.StatusColor | frontend/src/pages/Candidates.tsx:47-55 | the four listed statuses get their classes; the gray default is given iff the status is none of them ('Hired' included) |
| Candidates.VisibleSkills | frontend/src/pages/Candidates.tsx:167 | a row shows the first min(3, \|skills\|) skills, a prefix of the list |
| Candidates.ParseSkills | frontend/src/pages/Candidates.tsx:72 | one skill per comma-separated piece (comma count + 1), each piece trimmed |
| Candidates.ParseSkillsKeepsEmptyPieces | frontend/src/pages/Candidates.tsx:72 | empty pieces are kept: `""` gives `[""]` and `"a, ,b"` gives `["a", "", "b"]` |
| Candidates.ParseSkillsTrims | frontend/src/pages/Candidates.tsx:72 | `" Go,C "` gives `["Go", "C"]` |
| Candidates.NewCandidate | frontend/src/pages/Candidates.tsx:67-75 | the new candidate has id `length + 1`, copies the form, and its skills are `ParseSkills` of the form's text: comma count + 1 pieces, each trimmed |
| Candidates.ReplaceById | frontend/src/pages/Candidates.tsx:94-96 | save-edit keeps the length and replaces exactly the entries with the selected id by the selected record |
| Candidates.ReplaceByIdIdempotent | frontend/src/pages/Candidates.tsx:94-96 | saving the same edit twice equals saving it once |
| Candidates.ReplaceUnknownIdIsIdentity | frontend/src/pages/Candidates.tsx:94-96 | saving a record whose id nobody has changes nothing |
| Candidates.WithoutCandidate | frontend/src/pages/Candidates.tsx:104 | delete keeps exactly the candidates with other ids, every copy of each, in order |
| Candidates.CandidatesPage.constructor | frontend/src/pages/Candidates.tsx:15-34 | the saved list or the defaults, an empty search, the empty form, nothing selected |
| Candidates.CandidatesPage.Visible | frontend/src/pages/Candidates.tsx:41-45 | the shown rows are the candidates matching the current search, each with all its copies, in order |
| Candidates.CandidatesPage.SetSearchTerm | frontend/src/pages/Candidates.tsx:128 | sets the search term; nothing else changes |
| Candidates.CandidatesPage.EditNewCandidate | frontend/src/pages/Candidates.tsx:216-238 | a form edit replaces the form; nothing else changes |
| Candidates.CandidatesPage.SelectCandidate | frontend/src/pages/Candidates.tsx:82-90 | selects a record for viewing or editing; nothing else changes |
| Candidates.CandidatesPage.AddCandidate | frontend/src/pages/Candidates.tsx:65-80 | appends `NewCandidate` (old list unchanged in front of it) and clears the form |
| Candidates.CandidatesPage.SaveEdit | frontend/src/pages/Candidates.tsx:92-100 | with a selection the list becomes `ReplaceById`; with none nothing changes |
| Candidates.CandidatesPage.DeleteCandidate | frontend/src/pages/Candidates.tsx:102-108 | a confirmed delete makes the list `WithoutCandidate`; a cancelled one changes nothing |
| Dashboard.ActiveJobs | frontend/src/pages/Dashboard.tsx:37 | counts the 'Active' jobs: at most `totalJobs`, plus the others gives `totalJobs`, positive when any job is active |
| Dashboard.InterviewingCandidates | frontend/src/pages/Dashboard.tsx:39 | counts the 'Interviewing' candidates: at most `totalCandidates`, plus the others gives `totalCandidates` |
| Dashboard.Stats | frontend/src/pages/Dashboard.tsx:41-46 | four cards in fixed order with fixed keys (`label`, used only as the React key; every card's heading is `t('dashboard.totalCandidates')`), changes and colours; each value is a digit string that reads back as its count |
| Dashboard.OrDefault | frontend/src/pages/Dashboard.tsx:118 | `n \|\| d` on a count is `n` unless `n` is 0 |
| Dashboard.PipelineCounts | frontend/src/pages/Dashboard.tsx:118-122 | the five pipeline counts recomputed on every render: each is its status count, or 42/28/15/8/5 when that count is 0, so none is 0 |
| Dashboard.StatusCountsAdd | frontend/src/pages/Dashboard.tsx:118-122 | the five status counts add up to the number of candidates in the pipeline |
| Dashboard.PipelineWithinTotal | frontend/src/pages/Dashboard.tsx:118-122 | when every status is represented the five pipeline counts sum to at most `totalCandidates` |
| Dashboard.LastApplicationsPoint | frontend/src/pages/Dashboard.tsx:130-145 | the expression for the last Applications point on a candidate list: `totalCandidates`, or 95 when there are none (the chart evaluates it only on the empty list, see `DrawnCharts`) |
| Dashboard.LastHiresPoint | frontend/src/pages/Dashboard.tsx:154 | the expression for the last Hires point on a candidate list: the Hired count plus 17, so at least 18, and 22 when nobody is hired (evaluated only on the empty list, see `DrawnCharts`) |
| Dashboard.NoCandidatesShowsDemoFigures | frontend/src/pages/Dashboard.tsx:38-154 | with no candidates the cards say 0 while the pipeline and trend show demo numbers |
| Dashboard.DefaultJobsFigures | frontend/src/pages/Dashboard.tsx:37 | the default jobs have 4 active |
| Dashboard.DefaultCandidatesFigures | frontend/src/pages/Dashboard.tsx:39 | the default candidates have 2 interviewing |
| Dashboard.DefaultPipelineFigures | frontend/src/pages/Dashboard.tsx:118-122 | the default candidates give the pipeline counts 1, 1, 2, 1, 5 (the last a demo number); these are not what the chart draws |
| Dashboard.IntendedCharts | frontend/src/pages/Dashboard.tsx:124-154 | the chart figures for a candidate list: each bar its status count or demo number, the last Applications point the list's length when non-empty, the last Hires point the Hired count (or 5) plus 17 |
| Dashboard.DrawnCharts | frontend/src/pages/Dashboard.tsx:13-14 | the charts drawn are always the bars 42/28/15/8/5 and the points 95 and 22, whatever is stored |
| Dashboard.DrawnChartsIgnoreStorage | frontend/src/pages/Dashboard.tsx:124-269 | any two stored lists give the same drawn charts |
| Dashboard.DefaultCandidatesChartedAsDemo | frontend/src/pages/Dashboard.tsx:118-122 | with the default candidates stored the bars drawn are 42, 28, 15, 8, 5 while the list gives 1, 1, 2, 1, 5 |
| Dashboard.DashboardPage.constructor | frontend/src/pages/Dashboard.tsx:13-33 | mounting draws the charts from the empty initial lists, then loads each stored list, if any |
| Dashboard.DashboardPage.Poll | frontend/src/pages/Dashboard.tsx:25-30 | every stored list replaces the one on screen; the charts stay as drawn |
| Translations.Translate | frontend/src/context/LanguageContext.tsx:300-303 | `t(key)` is the current table's entry when present and non-empty, otherwise the key |
| Translations.InitialLanguage | frontend/src/context/LanguageContext.tsx:287-290 | Polish iff the stored value is exactly 'Polish'; English otherwise |
| Translations.LanguageContext.constructor | frontend/src/context/LanguageContext.tsx:287-290 | the provider starts in `InitialLanguage` of the stored value |
| Translations.LanguageContext.T | frontend/src/context/LanguageContext.tsx:300-303 | `t(key)` is the current language's entry when present and non-empty, otherwise the key |
| Translations.LanguageContext.SetLanguage | frontend/src/context/LanguageContext.tsx:296-298 | after `setLanguage(l)` every lookup reads `l`'s table |
| Translations.SameKeys | frontend/src/context/LanguageContext.tsx:13-284 | a key has an English entry iff it has a Polish one |
| Translations.UnlistedKeyUnchanged | frontend/src/context/LanguageContext.tsx:300-303 | 'settings.saved', listed in neither table, comes back unchanged in both languages |
| Translations.NoFallbackBetweenLanguages | frontend/src/context/LanguageContext.tsx:301-302 | each language reads only its own table ('jobs.active' is 'Aktywna' in Polish, 'Active' in English) |
| Translations.AllStatusEntries | frontend/src/context/LanguageContext.tsx:44 | 'jobs.allStatus' is 'All Status' in English and 'Wszystkie Statusy' in Polish (line 179) |
| Translations.ActiveEntries | frontend/src/context/LanguageContext.tsx:46 | 'jobs.active' is 'Active' in English and 'Aktywna' in Polish (line 181) |
| Translations.DraftEntries | frontend/src/context/LanguageContext.tsx:48 | 'jobs.draft' is 'Draft' in English and 'Szkic' in Polish (line 183) |
| Translations.EnglishStatusOptionsMatchFilter | frontend/src/pages/Jobs.tsx:180-182 | in English the status options emit exactly the filter's values |
| Translations.ForeignStatusHidesDefaultJobs | frontend/src/pages/Jobs.tsx:56-57 | a status filter that is neither the sentinel, 'Active' nor 'Draft' hides every default job |
| Translations.PolishStatusOptionsHideDefaultJobs | frontend/src/pages/Jobs.tsx:180-182 | in Polish every status option, 'All Status' included, hides every default job |
| AITools.DemoFor | frontend/src/pages/AITools.tsx:22-75 | the lower-cased name selects John Doe iff it has 'john' or 'frontend'; otherwise Sarah Williams iff 'sarah' or 'data'; otherwise Mike Johnson iff 'mike' or 'devops'; otherwise the generic profile |
| AITools.DispatchIgnoresCase | frontend/src/pages/AITools.tsx:22 | lower-casing the name first selects the same profile |
| AITools.FirstRuleWins | frontend/src/pages/AITools.tsx:26-38 | "john_data.pdf" and "JOHN_DATA.PDF" both give John Doe |
| AITools.GenericProfileHasNoCertifications | frontend/src/pages/AITools.tsx:62-75 | a profile lists no certifications iff it is the generic one |
| AITools.DemoMatchesStrictlyDescending | frontend/src/pages/AITools.tsx:88-93 | four demo matches with strictly decreasing scores |
| AITools.AIToolsPage.constructor | frontend/src/pages/AITools.tsx:7-11 | no file, not loading, no results |
| AITools.AIToolsPage.SelectFile | frontend/src/pages/AITools.tsx:117 | the file input sets the selected file; nothing else changes |
| AITools.AIToolsPage.HandleFileUpload | frontend/src/pages/AITools.tsx:13-18 | with no file an error toast and nothing else; with a file loading starts and the name is captured for the timer |
| AITools.AIToolsPage.FinishFileUpload | frontend/src/pages/AITools.tsx:21-80 | the result is the profile the name selects, loading stops, and a success toast is added |
| AITools.AIToolsPage.HandleMatching | frontend/src/pages/AITools.tsx:83-84 | matching starts loading; nothing else changes |
| AITools.AIToolsPage.FinishMatching | frontend/src/pages/AITools.tsx:87-98 | the result is the demo match list, loading stops, and a success toast is added |
| AITools.UploadScenario | frontend/src/pages/AITools.tsx:13-80 | select, upload and timer together show the selected file's profile and stop loading |
| Login.Username | frontend/src/pages/Login.tsx:16 | the part before the first '@' (the whole address when there is none): a prefix without '@' |
| Login.DisplayName | frontend/src/pages/Login.tsx:17 | same length; first character upper-cased, the rest unchanged; empty stays empty |
| Login.DisplayNameKeepsLetters | frontend/src/pages/Login.tsx:17 | the display name lower-cases to the same string as the username |
| Login.DisplayNameIdempotent | frontend/src/pages/Login.tsx:17 | capitalising twice is capitalising once |
| Login.HandleLogin | frontend/src/pages/Login.tsx:12-24 | stores 'true' and the display name, greets with it, and goes to /dashboard |
| Login.PasswordIgnored | frontend/src/pages/Login.tsx:12-21 | any password logs in, with the same effects for the same address |
| Login.EmptyUsernameGivesEmptyName | frontend/src/pages/Login.tsx:16-17 | an address starting with '@' gives an empty display name |
| Login.UsernameExample | frontend/src/pages/Login.tsx:16 | "jane.doe@example.com" gives "jane.doe" |
| Login.DisplayNameExample | frontend/src/pages/Login.tsx:17 | "jane.doe" gives "Jane.doe" |
| ErrorHandler.NewApiError | backend/src/middleware/errorHandler.ts:43-47 | `ApiError(m, s)` has message `m`, status `s` or 500 when omitted, and `isOperational` true |
| ErrorHandler.PlainError | backend/src/middleware/errorHandler.ts:9-12 | a plain `Error` has no status and no operational flag, and keeps the stack it was created with |
| ErrorHandler.StackHead | backend/src/middleware/errorHandler.ts:47 | the first line of a recorded stack: the error's name, followed by ': ' and the message unless the message is empty |
| ErrorHandler.StatusOf | backend/src/middleware/errorHandler.ts:20 | the status is `err.statusCode` when set and non-zero, otherwise 500; never 0 |
| ErrorHandler.HandleError | backend/src/middleware/errorHandler.ts:14-36 | status `StatusOf(err)`; `success: false`; the message, or 'Internal Server Error' when empty; the stack iff NODE_ENV is exactly 'development' |
| ErrorHandler.ApiErrorReachesClient | backend/src/middleware/errorHandler.ts:20-21 | an `ApiError` with a message and a non-zero status reaches the client as thrown |
| ErrorHandler.PlainErrorIs500 | backend/src/middleware/errorHandler.ts:20 | an error without a status becomes a 500 |
| ErrorHandler.ZeroStatusBecomes500 | backend/src/middleware/errorHandler.ts:20 | `ApiError(m, 0)` is answered with 500 |
| ErrorHandler.StackHiddenOutsideDevelopment | backend/src/middleware/errorHandler.ts:35 | outside development the body has no stack and does not depend on it |
| ErrorHandler.OperationalFlagIgnored | backend/src/middleware/errorHandler.ts:14-36 | the response does not depend on `isOperational` |
| AIRoutes.ManagersAllowedEverywhere | backend/src/routes/ai.routes.ts:32-110 | HR_MANAGER and ADMIN are allowed on all seven routes |
| AIRoutes.InterviewerRoutes | backend/src/routes/ai.routes.ts:69-98 | INTERVIEWER is allowed exactly on sentiment-analysis and interview-questions |
| AIRoutes.RecruiterRoutes | backend/src/routes/ai.routes.ts:32-86 | RECRUITER is allowed exactly on parse-resume, match-candidates, analyze-resume and generate-job-description |
| AIRoutes.UploadCheck | backend/src/routes/ai.routes.ts:14-25 | an upload passes iff there is none, or its type is PDF/DOC/DOCX and it is at most 5·1024·1024 bytes; a refused type carries the filter's message; no refusal has a status, and every refusal has a stack |
| AIRoutes.Stages | backend/src/routes/ai.routes.ts:32-110 | every route runs authenticate, then authorize with its roles, and ends with the controller; only parse-resume has the upload, between them |
| AIRoutes.Handle | backend/src/routes/ai.routes.ts:32-38 | no user is refused at authentication and a role outside the list at authorization; the controller is reached iff the role is allowed and, on parse-resume, the upload passes; a refused upload is a 500 |
| AIRoutes.FileIgnoredOffParseResume | backend/src/routes/ai.routes.ts:45-110 | the six other routes treat requests with and without a file alike |
| AIRoutes.WrongTypeIs500 | backend/src/routes/ai.routes.ts:17-24 | a wrong file type from an allowed user gets a 500 with the filter's message, and in development the body carries the filter error's stack, 'Error: ' and the message |
| AIRoutes.SizeLimitIsInclusive | backend/src/routes/ai.routes.ts:16 | a PDF of exactly 5 242 880 bytes passes; one byte more is refused |
| AIService.ReplyText | backend/src/services/ai.service.ts:73 | the text parsed is the content when present and non-empty, otherwise '{}' |
| AIService.Reply | backend/src/services/ai.service.ts:57-73 | a failed call gives nothing; otherwise the parse of `ReplyText` |
| AIService.EmptyReplyReadAsEmptyObject | backend/src/services/ai.service.ts:177 | a null or empty reply is parsed as '{}' |
| AIService.ServiceError | backend/src/services/ai.service.ts:128 | the rethrown error: the fixed message, status 500, operational, with the stack of a fresh `ApiError` |
| AIService.Rethrow | backend/src/services/ai.service.ts:127-129 | success passes through; any error, whatever its status, becomes a 500 with the fixed message |
| AIService.AskModel | backend/src/services/ai.service.ts:228-231 | succeeds iff the reply parses, with the parsed value; otherwise a 500 with the fixed message |
| AIService.ParseResume | backend/src/services/ai.service.ts:33-82 | succeeds iff the read, the reply and the deletion all succeed; the upload is deleted iff it succeeds; failure is a 500 'Failed to parse resume' |
| AIService.CalculateMatchScore | backend/src/services/ai.service.ts:135-187 | the parsed score, or 50/50/50 'Unable to perform AI analysis' when the call or the parse fails |
| AIService.EntryFor | backend/src/services/ai.service.ts:114-121 | the entry has the candidate's id, 'first last' as name, and the score's four fields |
| AIService.Entries | backend/src/services/ai.service.ts:107-123 | one entry per application, in order, each from that candidate's own score |
| AIService.FailedCallOnlyAffectsItsCandidate | backend/src/services/ai.service.ts:178-186 | a failing call gives its candidate the fallback and leaves every other entry unchanged |
| AIService.SortByScore | backend/src/services/ai.service.ts:126 | the sort is a permutation ordered by non-increasing match score |
| AIService.SortKeepsTies | backend/src/services/ai.service.ts:126 | entries with equal scores keep their order (the sort is stable) |
| AIService.MatchInner | backend/src/services/ai.service.ts:102-104 | inside the try a missing job is a 404 'Job not found' |
| AIService.MatchCandidatesToJob | backend/src/services/ai.service.ts:88-130 | succeeds iff the job is found, with a score-ordered permutation of one entry per application; any failure is a 500 'Failed to match candidates' |
| AIService.MissingJobIs500 | backend/src/services/ai.service.ts:102-129 | the 404 for a missing job leaves the service as a 500 |
| AIService.EveryApplicantRanked | backend/src/services/ai.service.ts:107-126 | every applicant's entry appears in the ranking |
| AIService.AnalyzeResumeContent | backend/src/services/ai.service.ts:192-232 | the model is asked about the résumé, with the job description only when it is truthy; the result is the parsed reply, or a 500 'Failed to analyze resume' when the call or the parse fails |
| AIService.EmptyJobDescriptionOmitted | backend/src/services/ai.service.ts:200 | an empty job description gives the same result as none |
| AIService.AnalyzeSentiment | backend/src/services/ai.service.ts:237-275 | the model is asked about the text, with the context only when it is truthy; the result is the parsed reply, or a 500 'Failed to analyze sentiment' when the call or the parse fails |
| AIService.JoinedRequirements | backend/src/services/ai.service.ts:293 | `requirements?.join(', ')` is absent iff the list is |
| AIService.JobDescriptionFields | backend/src/services/ai.service.ts:290-293 | the prompt uses 'Not specified', 'Mid-level' and 'Standard requirements' for a missing or empty department, level or joined list |
| AIService.EmptyRequirementsGetDefault | backend/src/services/ai.service.ts:293 | no list, `[]` and `[""]` all give 'Standard requirements' |
| AIService.SeveralRequirementsKept | backend/src/services/ai.service.ts:293 | two or more requirements are always used as joined |
| AIService.GenerateJobDescription | backend/src/services/ai.service.ts:280-326 | succeeds iff the reply to the defaulted prompt parses, with the parsed value; otherwise a 500 'Failed to generate job description' |
| AIService.EmptyFieldsActAsMissing | backend/src/services/ai.service.ts:291-292 | an empty department or level gives the same result as a missing one |
| AIService.GenerateInterviewQuestions | backend/src/services/ai.service.ts:331-389 | a job that is not found, or a candidate lookup that throws, gives a 500 'Failed to generate interview questions'; otherwise the result is the parsed reply to the prompt with the type or 'technical', the job, and the candidate when an id is given and found (none when no id is given or it is not found) |
| AIService.NoCandidateIdSkipsLookup | backend/src/services/ai.service.ts:345-350 | without a candidate id the candidate table is not consulted |
| AIService.UnknownCandidateIgnored | backend/src/services/ai.service.ts:345-359 | an unknown candidate id acts like no id |
| AIService.PredictSuccess | backend/src/services/ai.service.ts:394-449 | a missing candidate or job gives a 500; with both found, the result is the parsed reply to the prompt holding the match score's overall and skills figures, the candidate's years and the job's level, or a 500 'Failed to predict success'; a failed scoring call puts 50/50 in the prompt |
| AIService.NotFoundBecomes500 | backend/src/services/ai.service.ts:341-448 | the 404s of interview questions and prediction leave the service as 500s |
| AIController.Reply | backend/src/controllers/ai.controller.ts:26-35 | a service result is a 200 `{ success: true, message, data }`; a service error goes to `next` unchanged |
| AIController.ParseResume | backend/src/controllers/ai.controller.ts:15-36 | validation errors give 400 'Validation failed' first, then a missing file 400 'No resume file provided'; otherwise the service's result or error |
| AIController.MatchCandidates | backend/src/controllers/ai.controller.ts:41-59 | a falsy jobId is a 400 and the service is not called; otherwise the service's result or error |
| AIController.AnalyzeResume | backend/src/controllers/ai.controller.ts:64-85 | a falsy resumeText is a 400; otherwise the service's result or error |
| AIController.SentimentAnalysis | backend/src/controllers/ai.controller.ts:90-108 | a falsy text is a 400; otherwise the service's result or error |
| AIController.GenerateJobDescription | backend/src/controllers/ai.controller.ts:113-136 | a falsy position is a 400; otherwise the service's result or error for the four fields |
| AIController.GenerateInterviewQuestions | backend/src/controllers/ai.controller.ts:141-163 | a falsy jobId is a 400; otherwise the service's result or error |
| AIController.PredictCandidateSuccess | backend/src/controllers/ai.controller.ts:168-186 | a 400 unless both ids are truthy; otherwise the service's result or error |
| AIController.FieldChecksAnswer400 | backend/src/controllers/ai.controller.ts:45-47 | a failed field check reaches the client as a 400 with its message |
| AIController.EmptyJobIdRefused | backend/src/controllers/ai.controller.ts:45-47 | an empty jobId is refused like a missing one |
| AIController.UnknownJobAnswers500 | backend/src/controllers/ai.controller.ts:41-59 | an unknown job id reaches the client as a 500 'Failed to match candidates' |
| AIController.KnownJobAnswersRanking | backend/src/controllers/ai.controller.ts:49-55 | a known job answers 200 with one entry per applicant, ordered by score |
| AuthController.Credentials | backend/src/controllers/auth.controller.ts:43-52 | the reply carries the user's id, e-mail and role, and a token for them expiring after JWT_EXPIRE or '24h' |
| AuthController.RegisterOutcome | backend/src/controllers/auth.controller.ts:16-57 | validation failure 400, then an existing address 409, each with the table unchanged; otherwise a 201 and a new user with the next id, the password's hash and the role or 'RECRUITER'; existing users are untouched and the table stays well formed |
| AuthController.RoleDefaultsToRecruiter | backend/src/controllers/auth.controller.ts:38 | a missing or empty role is stored as 'RECRUITER', any other as given |
| AuthController.LoginOutcome | backend/src/controllers/auth.controller.ts:59-93 | an unknown address or a wrong password is a 401 'Invalid credentials' with the table unchanged; a missing password for a registered address is bcrypt's plain error (a 500), also with the table unchanged; a match records the login time on that user only and answers 200 |
| AuthController.UniformLoginError | backend/src/controllers/auth.controller.ts:63-71 | an unknown address (with or without a password) and a wrong password give identical outcomes |
| AuthController.MissingPasswordRevealsAccount | backend/src/controllers/auth.controller.ts:61-69 | without a password an unknown address is a 401 and a registered one a 500, so the status tells which addresses are registered |
| AuthController.RegisterThenLogin | backend/src/controllers/auth.controller.ts:30-89 | a new user can log in with the same password and gets the same id, role and token |
| AuthController.ChangePasswordOutcome | backend/src/controllers/auth.controller.ts:132-155 | an id with no user, a missing current password, or a missing new password after a right current one, is a plain error (a 500); a wrong current password is a 401; every error leaves the table unchanged; otherwise only that user's hash becomes the new password's hash |
| AuthController.ChangeThenLogin | backend/src/controllers/auth.controller.ts:140-149 | after a change the new password logs in and the old one does not, unless they hash alike |
| AuthController.ShortNewPasswordAccepted | backend/src/controllers/auth.controller.ts:145 | a one-character new password is accepted |
| AuthController.UserStore.Register | backend/src/controllers/auth.controller.ts:16-57 | reply and new table are `RegisterOutcome` of the old table; the table stays well formed |
| AuthController.UserStore.Login | backend/src/controllers/auth.controller.ts:59-93 | reply and new table are `LoginOutcome` of the old table; the table stays well formed |
| AuthController.UserStore.ChangePassword | backend/src/controllers/auth.controller.ts:132-155 | reply and new table are `ChangePasswordOutcome` of the old table; the table stays well formed |

## Findings

| source | as written | input that shows it | evidently intended | confidence | as-written member | corrected member |
|---|---|---|---|---|---|---|
| frontend/src/pages/Dashboard.tsx:124-269 | The chart effect's dependency list is empty, so the charts are drawn once, from the first render's state. At that point the candidate list is still `[]`, because storage is loaded into state afterwards. | The default candidates stored: the bars drawn are 42, 28, 15, 8, 5 and the last points 95 and 22. The list gives 1, 1, 2, 1, 5. | The charts follow the stored candidates, as the stat cards do. The comments at lines 117 and 125 say the data is dynamic. | high; not executed | Dashboard.DrawnCharts | Dashboard.IntendedCharts |

## Left out

- The language model: prompts, model names, temperatures and token limits are not modelled.
  - A call is an input: it fails or returns optional content.
  - `JSON.parse` is a function parameter that accepts or rejects the text.
  - So `AIService.CalculateMatchScore` does not model a reply that parses to something other than a complete score object. An object missing the score fields gives `undefined` scores in the source.
  - `AIService.MatchCandidatesToJob` does not model non-object replies either. A reply of `null` parses without throwing; reading `score.overall` on it then throws inside the matching `try`, and the whole request becomes the 500.
- The database (Prisma):
  - The user table is a map keyed by e-mail, and the id generator is a counter.
  - In the AI service a record lookup is found, not found, or a thrown error. In the authentication controller the table is a map, so a lookup is found or not found and never throws. Other database failures, such as a failed `create` or `update`, are not modelled.
- Cryptography and time:
  - bcrypt is a deterministic hash given to the store, with `compare` as hash equality; the salt and cost factor are not modelled.
  - A token is the payload and expiry given to `jwt.sign`; signing and the secret are not modelled.
  - The clock is a parameter.
- Request validation (express-validator) is a boolean input where a handler reads it, as register does. The login and change-password handlers never read their validators' results, so those checks are not modelled.
- The validators' sanitizers are not modelled either. `normalizeEmail()` on the register and login routes rewrites the address, and `trim()` on register rewrites the names, before the handler reads them. `AuthController`'s `email`, `firstName` and `lastName` are therefore the values after sanitizing. On raw text, "Ann@Example.com" and "ann@example.com" would be two table keys; in the server they are one.
- `AIController.ParseResume`: no validators are wired on the parse-resume route, so the validation branch cannot fire in the running server; it is modelled as written.
- The authenticate and authorize middleware are not part of this model. A request is taken to pass authentication when it carries a user, and authorization when that user's role is in the route's list.
- Upload details that are multer's behaviour:
  - the 'File too large' message;
  - the type filter seeing a file before its size is counted;
  - the storage of uploaded files.
- `AuthController.ChangePasswordOutcome`: for a user id missing from the table, the thrown message is the JavaScript engine's wording for reading `password` of `null`. The route normally guarantees the user exists.
- Concurrency: `Promise.all` over the applications is modelled as a sequential map, because each candidate's score depends only on its own call.
- Browser storage, `useEffect` persistence and the AI page's timers:
  - storage contents are constructor inputs, and each dashboard poll is a call to `Dashboard.DashboardPage.Poll`;
  - each timer callback is a separate method.
- Rendering:
  - charts: only the figures drawn are modelled, the five bars and the last point of each line; the floating-point points before them and the chart objects are not;
  - JSX, modals, navigation and routing;
  - the toasts, except the ones the AI page adds.
- Each `window.confirm` answer is a method parameter.
- The AI page's `summary` strings and the rendering of its results.
- `Candidates.ScoreBandOf`, `Candidates.CandidatesPage.SaveEdit`: scores are integers. In the source, clearing the edit form's score field stores `parseInt("")`, which is NaN, and `getScoreColor(NaN)` gives red; NaN is not modelled.
- `ErrorHandler.HandleError`: the `logger.error` call is not modelled, because it writes to the server log and does not change the response.
- Error stacks are modelled by their first line (`ErrorHandler.StackHead`). The lines naming the call sites, which the runtime appends, are not modelled, so in development the `stack` sent to the client is shorter in the model than in the server.
- `Translations.Translate`, `Candidates.StatusColor`: the tables are maps holding only their own keys. In the source they are object literals, so `dict[key]` also finds inherited `Object.prototype` members. `t('constructor')` gives a function, not the key, and `getStatusColor('toString')` gives a function, not gray. Such keys are not modelled.
- Case mapping covers ASCII only; `toLowerCase` and `toUpperCase` on other characters are left unchanged.
- Request bodies whose fields are not strings (numbers, arrays, objects) are not modelled. In the AI controller every field is an optional string, or an optional list of strings for `requirements`. In the authentication controller the passwords of login and change-password are optional strings; the other fields are strings.
- `AuthController.RegisterOutcome`: a missing `email`, `password` or name is not modelled. The route's validators refuse a missing address or password, and the handler checks their result, so such a request is the validation 400.
- `AuthController.LoginOutcome`: a body without `email` is not modelled; what the database does with an undefined unique key is outside this model.
- `AIService.MatchCandidatesToJob`: the model's reply is a function of the candidate, so two applications by the same candidate get one shared reply. The source makes a separate call per application, and those two calls could answer differently.
- `getProfile`, `updateProfile` and `refreshToken` in the authentication controller are not part of this model. Neither are the other pages, components and route files, the dark-mode context, or the server bootstrap.
