# Exam portal front end: a Dafny model

This project models the local logic of a React front end for an online exam portal.

- **Students** take a timed multiple-choice exam once a day, within a clock-hour window, and a separate 15-minute coding exercise.
- **Admins** search students and reset their test, add questions one by one or from a spreadsheet, and add coding questions with test cases.

Everything outside the browser is a parameter of the model:

- the fetched data;
- the outcome of each post (success, HTTP 403, other failure);
- the student's answer to a confirmation prompt;
- the hour of the day and the ISO timestamp.

The modules follow the component files:

- `ExamInterface` (exam_interface.dfy) covers src/ExamInterface.jsx:
  - The session is a class with the screen's fields. Each handler is a method, and the method's `ensures` gives the whole new state.
  - The submit handler is the function `Submit` of the state it reads. The scoring loop is a method proved against the specification functions `CorrectCount` and `Details`. `NullCount`, the function behind the attempted and unanswered counts, is used directly by the handler.
- `CodingExam` (coding_exam.dfy) covers src/CodingExam.jsx: the countdown, question selection on load, the Run and Submit actions, and the lock (`finalSubmitted || timer === 0`).
- `ResetStudents` (reset_students.dfy) covers src/ResetStudentsPage.jsx: the case-insensitive search filter, the table body and the confirmed reset.
- `ManageQuestions` (manage_questions.dfy) covers src/ManageQuestions.jsx:
  - the add-question form, where an `optionK` input rewrites `options[K]`;
  - the admin check;
  - the two uploads;
  - the avatar initials.
- `AdminCodingForm` (admin_coding_form.dfy) covers src/AdminCodingForm.jsx. The test cases are objects, and editing one writes into that object in place.
- `StudentDashboard` (student_dashboard.dfy) covers src/StudentDashboard.jsx: the once-per-day check, the start buttons, the average score and the avatar initial.
- Shared modules:
  - `Countdown`: the one-second updater used by both timers.
  - `Text`: ASCII case mapping, `startsWith`, `includes`, and `split`/`join`.
  - `Decimal`: decimal printing and parsing.
  - `Forms`: form values and `Number()`.
  - `Wrappers`: `Option`, for JavaScript's `null`/`undefined`.
  - `Arith`: bounds on an exact quotient, used for the score and the average.

## Model

| member | source | states |
|---|---|---|
| `ExamInterface.ExamSession.constructor` | src/ExamInterface.jsx:10-17 | The mount state: loading, no questions, an empty answer map, index 0, 3600 seconds, not submitted, no results, timer running. |
| `ExamInterface.ExamSession.FinishLoad` | src/ExamInterface.jsx:27-38 | After a successful fetch, the screen holds the fetched questions and one answer entry per question index, every entry null. After a failure, it shows the load-failed message. Either way, loading ends. |
| `ExamInterface.ExamSession.SelectAnswer` | src/ExamInterface.jsx:85-87 | Entry `i` becomes the chosen option. Every other entry and every other field is unchanged. The null count drops by one exactly when entry `i` was null. |
| `ExamInterface.ExamSession.NextQuestion` | src/ExamInterface.jsx:89-93 | The index moves forward only when it is below n-1, so it stays inside [0, n-1]. Nothing else changes. |
| `ExamInterface.ExamSession.PreviousQuestion` | src/ExamInterface.jsx:95-99 | The index moves back only when it is above 0, so it stays inside [0, n-1]. Nothing else changes. |
| `ExamInterface.ExamSession.JumpTo` | src/ExamInterface.jsx:238 | A question-number button sets the index to that question and changes nothing else. |
| `ExamInterface.ExamSession.Tick` | src/ExamInterface.jsx:44-53 | Above 1, the clock loses one second and nothing else changes. At 1 or below, the clock shows 0, the interval stops, and the submit handler runs on the current state. The clock never goes negative and strictly decreases. |
| `ExamInterface.ExamSession.SubmitExam` | src/ExamInterface.jsx:101-158 | The new state and the outside effect are exactly those of `Submit` applied to the state before the call. |
| `ExamInterface.ExamSession.ConfirmSubmit` | src/ExamInterface.jsx:160-168 | The prompt appears exactly when some answer is null, and it quotes that count. The handler runs exactly when there is no prompt or the student confirms. Declining changes nothing. |
| `ExamInterface.ExamSession.SubmitDisabled` | src/ExamInterface.jsx:222 | The submit button is disabled exactly when every entry of the answer map is null. |
| `ExamInterface.ExamSession.View` | src/ExamInterface.jsx:170-284 | The screens are checked in order. Loading shows the loading screen. Otherwise an error shows its message, and then an empty list shows the no-questions screen. The summary of the stored results appears exactly when the exam was submitted, and the question screen exactly when it was not. The question screen shows the current question. "Previous" is disabled exactly at the first question, and "Next" is offered exactly below the last. Submit is disabled exactly when every answer is null. |
| `ExamInterface.ScoreAnswers` | src/ExamInterface.jsx:109-119 | The loop's counter equals the number of questions whose stored answer equals the key. Its details are the per-question details, in question order. |
| `ExamInterface.NullCount` | src/ExamInterface.jsx:122 | The number of null answers is at most the number of entries. |
| `ExamInterface.CorrectCount` | src/ExamInterface.jsx:111-112 | There are never more correct answers than answered questions, because a null answer is never correct. |
| `ExamInterface.TallyPartitions` | src/ExamInterface.jsx:121-124 | correct + wrong + unanswered = total, attempted + unanswered = total, and unanswered is the null count. No count is negative, including wrong. There is one detail per question. |
| `ExamInterface.ScoreBounds` | src/ExamInterface.jsx:121 | With at least one question, the score `100 * correct / n` is defined and lies in [0, 100]. |
| `ExamInterface.AllNullIff` | src/ExamInterface.jsx:222 | The null count equals the number of entries exactly when every entry is null. |
| `ExamInterface.NoNullIff` | src/ExamInterface.jsx:161-167 | The null count is zero exactly when every entry holds an answer. |
| `ExamInterface.FullMarksIff` | src/ExamInterface.jsx:110-112 | The correct count equals the number of questions exactly when every stored answer equals its key. |
| `ExamInterface.NullCountAfterAnswer` | src/ExamInterface.jsx:85-87 | Answering question `i` lowers the null count by one if `i` was unanswered, and otherwise keeps it. |
| `ExamInterface.WorkedExample` | src/ExamInterface.jsx:109-124 | Answers [1, null, 0] against keys [1, 2, 0] give correct 2, attempted 2, unanswered 1, wrong 0 and score 200/3. |
| `ExamInterface.SubmitFinalizesBeforePost` | src/ExamInterface.jsx:136-155 | The state after a submission does not depend on the post's outcome: results and the submitted flag are set first and never rolled back. Inside the window the exam is marked submitted. |
| `ExamInterface.SubmitOutsideWindow` | src/ExamInterface.jsx:102-107 | Before 10:00 or from 18:00 on, the handler changes nothing and sends nothing. |
| `ExamInterface.SubmitCompletesOnlyOnSuccess` | src/ExamInterface.jsx:144-157 | `onComplete` receives the summary exactly when the hour is in the window, the post succeeded and the callback was provided. |
| `ExamInterface.ExpiryAsWrittenDropsAnswers` | src/ExamInterface.jsx:44-53 | As written, an expiry inside the window records an empty summary (0 questions) and posts no answers, whatever was answered. |
| `ExamInterface.ParseFormatTime` | src/ExamInterface.jsx:79-83 | The `m:ss` display reads back as the number of seconds it was made from: minutes * 60 + seconds = the input, with the seconds zero-padded to two digits. |
| `CodingExam.StarterFor` | src/CodingExam.jsx:24 | The starter code for the language, or the empty string when the question has none. |
| `CodingExam.CodingSession.constructor` | src/CodingExam.jsx:7-15 | The mount state: no questions, C++, empty code, 900 seconds, no results, not submitted, unlocked. |
| `CodingExam.CodingSession.QuestionsFetched` | src/CodingExam.jsx:18-26 | A non-empty list selects its first question and loads that question's starter code for the current language. An empty list changes only the list, so the selection stays as it was. |
| `CodingExam.CodingSession.ChangeLanguage` | src/CodingExam.jsx:80 | The selector changes only the language, and it still works when the screen is locked. |
| `CodingExam.CodingSession.Tick` | src/CodingExam.jsx:30-41 | The timer loses one second above 1 and becomes 0 at or below 1, where the interval stops. It never goes negative and strictly decreases. Expiry changes nothing else and leaves the screen locked. |
| `CodingExam.CodingSession.EditCode` | src/CodingExam.jsx:95-101 | A locked editor ignores edits. Otherwise the code becomes the typed text. |
| `CodingExam.CodingSession.ClickRun` | src/CodingExam.jsx:43-56 | A request is sent exactly when the screen is unlocked and a question is selected. It carries the code, the language, the question id and the student id. A compiled report is stored. `finalSubmitted` is never set. |
| `CodingExam.CodingSession.ClickSubmit` | src/CodingExam.jsx:58-73 | The same guard and request as Run. A successful post stores the report and sets `finalSubmitted`. A failure changes nothing. |
| `CodingExam.LockIsPermanent` | src/CodingExam.jsx:100-105 | Once the screen is locked, any sequence of events leaves it locked: language changes, fetches, edits, Run and Submit clicks and interval ticks. `finalSubmitted` is never cleared, the timer never rises, and no compile request is sent. |
| `ResetStudents.Shown` | src/ResetStudentsPage.jsx:127-131 | A student is shown exactly when the lower-cased name or roll number contains the lower-cased term. Each is shown as often as it occurs, in the original order (a subsequence). |
| `ResetStudents.ShownIgnoresTermCase` | src/ResetStudentsPage.jsx:129-130 | Two search terms that differ only in letter case show the same students. |
| `ResetStudents.ShownIgnoresUpperCase` | src/ResetStudentsPage.jsx:130 | Typing the term in capitals shows the same students. |
| `ResetStudents.EmptyTermShowsIdentified` | src/ResetStudentsPage.jsx:128-131 | An empty term shows every student with a name or a roll number, and never one with neither. |
| `ResetStudents.TableRows` | src/ResetStudentsPage.jsx:120-136 | The "No students found" row appears exactly when the fetched list is empty. Otherwise row `i` is the `i`-th shown student, with one row per shown student. |
| `ResetStudents.HandleReset` | src/ResetStudentsPage.jsx:27-42 | A request is sent, and an alert shown, exactly when the admin confirms. The request carries the student's id. The alert is the server's message when it sends a non-empty one. Otherwise it is the default success or failure text. |
| `Text.ContainsIff` | src/ResetStudentsPage.jsx:129 | `includes` holds exactly when the needle occurs at some offset of the haystack. |
| `ManageQuestions.ManageQuestionsPage.constructor` | src/ManageQuestions.jsx:9-19 | The initial form has empty text fields, four empty options and `correctAnswerIndex` 0, with no file, message, error or admin name. |
| `ManageQuestions.ManageQuestionsPage.HandleInputChange` | src/ManageQuestions.jsx:67-77 | The input `optionK` replaces only `options[K]` and keeps the length of the options. Any other input sets only its own field. Nothing else changes. |
| `ManageQuestions.ManageQuestionsPage.FetchAdminName` | src/ManageQuestions.jsx:51-65 | A failed fetch sets the unauthorized error. A role other than `admin`, a missing one included, sets the access-denied error and leaves the name unset. An admin's name becomes the name shown, or `Admin` when it is missing or empty. |
| `ManageQuestions.ManageQuestionsPage.HandleAddQuestion` | src/ManageQuestions.jsx:79-93 | The whole form is posted, options included. Success shows the server's message and clears the error. Failure shows the server's message or the default, and clears the message. |
| `ManageQuestions.ManageQuestionsPage.ChooseExcelFile` | src/ManageQuestions.jsx:16 | Choosing a file changes only the chosen file. |
| `ManageQuestions.ManageQuestionsPage.HandleExcelUpload` | src/ManageQuestions.jsx:95-113 | Nothing is sent and nothing changes when no file is chosen. Otherwise the outcome sets the message or the error, as the add form does. |
| `ManageQuestions.AdminInitials` | src/ManageQuestions.jsx:121 | `AD` for an empty name. Otherwise there is at most one character per space-separated word, none of them a space or a lower-case letter. |
| `ManageQuestions.InitialsOfWords` | src/ManageQuestions.jsx:121 | For a name of non-empty words joined by single spaces, the initials are exactly the upper-cased first letters of the words, in order. |
| `ManageQuestions.FirstChars` | src/ManageQuestions.jsx:121 | Each character taken comes from the head of a non-empty word, and there are no more characters than words. |
| `Text.SplitJoin` | src/ManageQuestions.jsx:121 | `split` undoes `join` for pieces that contain no separator. |
| `Text.JoinSplit` | src/ManageQuestions.jsx:121 | `join` undoes `split`: the pieces of a string, rejoined, give the string back. |
| `Text.SplitPartsHaveNoSeparator` | src/ManageQuestions.jsx:121 | No piece of a split contains the separator. |
| `AdminCodingForm.CodingQuestionForm.constructor` | src/AdminCodingForm.jsx:5-15 | The initial form: empty text fields, duration 900, exactly one empty test case. |
| `AdminCodingForm.CodingQuestionForm.HandleChange` | src/AdminCodingForm.jsx:17-19 | Only the named field changes, to the typed string. The test cases are untouched. |
| `AdminCodingForm.CodingQuestionForm.HandleTestCaseChange` | src/AdminCodingForm.jsx:21-25 | One field of entry `i` takes the value. The length, the other entries, the other field and the form are unchanged, and the list keeps the same objects. |
| `AdminCodingForm.CodingQuestionForm.AddTestCase` | src/AdminCodingForm.jsx:27-29 | A new empty test case is appended, and the earlier entries (the same objects) keep their values. |
| `AdminCodingForm.CodingQuestionForm.HandleSubmit` | src/AdminCodingForm.jsx:31-65 | The posted question is assembled from the form and the test cases. After a successful post both return to their initial values. After a failure both are kept. |
| `AdminCodingForm.AssembleNestsAndConverts` | src/AdminCodingForm.jsx:34-45 | The starter code is nested under `starterCode`, one entry per language, and the test cases are posted as they are. A duration typed as digits is posted as that number, and the untouched default posts 900. |
| `Forms.ToNumber` | src/AdminCodingForm.jsx:43 | A number stays as it is, the empty string reads as 0, and a finite result from a string means the string was all digits. |
| `Forms.ToNumberOfPrinted` | src/AdminCodingForm.jsx:76 | A whole number typed into the number input reads back as that number. |
| `StudentDashboard.TodayOf` | src/StudentDashboard.jsx:45 | The first ten characters of the ISO timestamp (the UTC date), which prefix the timestamp. |
| `StudentDashboard.SomeDateStartsWith` | src/StudentDashboard.jsx:46 | True exactly when some entry's date starts with the given day. |
| `StudentDashboard.SubmittedTodayIff` | src/StudentDashboard.jsx:45-47 | The day's check holds exactly when some stored date has the same first ten characters (`YYYY-MM-DD`) as now. |
| `StudentDashboard.NewResultDecidesToday` | src/StudentDashboard.jsx:45-47 | A new result stamped on the same UTC day makes the check succeed. One stamped on another day leaves the check's answer as it was. |
| `StudentDashboard.Dashboard.constructor` | src/StudentDashboard.jsx:13-17 | Every flag starts false, and nothing has been navigated to. |
| `StudentDashboard.Dashboard.CheckTodaySubmission` | src/StudentDashboard.jsx:38-51 | A successful fetch sets `alreadySubmitted` to the day's check and changes nothing else. A failed fetch changes nothing. |
| `StudentDashboard.Dashboard.CheckCodeSubmission` | src/StudentDashboard.jsx:53-61 | `alreadySubmittedCode` takes the endpoint's flag. A failed fetch changes nothing. |
| `StudentDashboard.Dashboard.StartMcqTest` | src/StudentDashboard.jsx:82-88 | Raises the already-submitted modal when the day's check held, and otherwise the instructions, never both. Nothing else changes. |
| `StudentDashboard.Dashboard.StartCodingTest` | src/StudentDashboard.jsx:90-96 | Raises the code modal when the coding test was submitted, and otherwise navigates to `/coding-exam`. Nothing else changes. |
| `StudentDashboard.Dashboard.ConfirmStart` | src/StudentDashboard.jsx:98-100 | The instructions' Start button navigates to `/exam` and changes nothing else. |
| `StudentDashboard.Dashboard.CancelInstructions` | src/StudentDashboard.jsx:145 | Cancel closes the instructions and changes nothing else. |
| `StudentDashboard.Dashboard.CloseSubmissionModal` | src/StudentDashboard.jsx:158 | OK closes the already-submitted modal and changes nothing else. |
| `StudentDashboard.Dashboard.CloseCodeModal` | src/StudentDashboard.jsx:170 | OK closes the coding already-submitted modal and changes nothing else. |
| `StudentDashboard.AverageScoreSpec` | src/StudentDashboard.jsx:103 | With no results the average is 0. Otherwise the average times the number of results is the sum of the scores. |
| `StudentDashboard.AverageScoreBounds` | src/StudentDashboard.jsx:103 | The average of a non-empty list lies between any lower and upper bound of its scores. |
| `StudentDashboard.StudentInitial` | src/StudentDashboard.jsx:102 | One character: `?` when the name is missing or empty. Otherwise the name's first character, upper-cased. |
| `Countdown.NextStep` | src/ExamInterface.jsx:45-52 | The updater never returns a negative value and strictly lowers a positive one. It returns 0 exactly in its expiry branch. |
| `Countdown.AfterTicks` | src/CodingExam.jsx:32-38 | Starting from `start`, the counter after `t` ticks is `start - t`, floored at 0. |
| `Countdown.ExpiresFirstAtTickStart` | src/ExamInterface.jsx:46-50 | From a start of at least 1, the expiry branch is first taken by tick number `start`. With 3600 that is the 3600th second. |
| `Decimal.ParseNatToString` | src/ExamInterface.jsx:82 | Reading back the decimal text of a number gives the number. |
| `Decimal.ParseLeadingZero` | src/ExamInterface.jsx:82 | The padding `0` in front of the seconds does not change the value read. |

## Left out

- Remote effects are outside the model: the axios calls, `localStorage`, `navigate`, `alert`, `window.confirm` and `window.location`. Their results are parameters (fetched data, post outcome, confirm answer, stored student id). A navigation is recorded as the route it targets.
- Rendering is outside the model: chart.js (the doughnut and the score-trend line), the Monaco editor and the page layout. `ExamInterface.ExamSession.View` keeps only which screen is chosen.
- The copy, paste, context-menu and developer-tools key blockers (src/ExamInterface.jsx:55-75) are left out. They are browser event plumbing.
- `setInterval` timing is left out. One tick is one method call. A cleared interval never fires again, so both `Tick` methods require the timer to be running.
- Floating point is left out: `score.toFixed(2)`, the feedback thresholds that compare that string with numbers (src/ExamInterface.jsx:184-186), and `averageScore.toFixed(2)`.
  - The exam score is the exact ratio `ExamInterface.ScorePercent`.
  - The average is an exact `real`, without rounding.
- `toLowerCase`/`toUpperCase` are modelled on ASCII letters only. Other letters are left as they are, so Unicode case folding is not modelled.
- `Forms.ToNumber`: only the empty string and strings of decimal digits are read as numbers. `Number()` also accepts surrounding spaces, signs, decimals, exponents and hexadecimal, which the model reads as NaN. This is weaker than JavaScript's conversion, and it does not matter for a number input holding a whole duration.
- `ManageQuestions.ManageQuestionsPage.HandleInputChange` requires the input name to be one the form renders (`companyId`, `subject`, `question`, `correctAnswerIndex`, or `option0` up to the last option). Other names, such as an `optionK` beyond the array (which would grow it with holes), cannot come from the rendered form.
- `ExamInterface.ExamSession.FinishLoad` models the first load only: it requires the loading state. The effect's reload when `examId` changes (src/ExamInterface.jsx:77) is left out, because src/App.jsx:12 mounts the screen without an `examId` (and without `onComplete`), so the id never changes.
- `ExamInterface.ExamSession.Tick` submits on the live state, not on the stale state the code captures at mount. The code as written is modelled separately, as recorded under Findings.
- The exam has no at-most-once guard. `handleSubmitExam` never checks `examSubmitted`, so a timer expiry after a manual submission submits again, and the model keeps this. `handleAnswerSelect` has no guard either. Once the exam is submitted, the summary screen simply renders no options, and `ExamInterface.ExamSession.SelectAnswer` is not restricted by the submitted flag.
- The timer is not stopped by a manual submission, in the code or in the model.
- `StudentDashboard.TodayOf` takes the date from the UTC timestamp of `toISOString`, not from the local date. Near midnight this can differ from the student's calendar day. The hour used by the exam window is the browser's local hour, which the code labels IST.
- `fetchQuestions` and `fetchCompanies` in src/ManageQuestions.jsx are left out. They only fill the question list and the company dropdown, and the refetch after an upload is not modelled.
- `fetchResultSummary`, the student profile fetch and its error screen in src/StudentDashboard.jsx are left out. The average is stated over the fetched score list.
- The logout handlers are left out. They only clear `localStorage` and navigate.
- The dashboard's Start Coding button is commented out in the source (src/StudentDashboard.jsx:187). `StudentDashboard.Dashboard.StartCodingTest` models the handler nonetheless.
- `CodingExam.CodingSession.QuestionsFetched` takes an already-fetched list. The coding screen's fetch has no error handling, and a rejected fetch is not modelled. Neither are overlapping fetches after quick language changes, which can resolve in any order.
- `ResetStudents.HandleReset` and the admin pages do not model a failed student or company fetch, which only shows an alert or logs to the console.
- src/ViewReports.jsx, src/AdminDashboard.jsx, src/StudentLogin.jsx and src/App.jsx are not part of this model. They are fetching, routing and spreadsheet export. Their one piece of local logic is the initials expression modelled by `ManageQuestions.AdminInitials`.

## Findings

| source | as written | input that shows it | evidently intended | confidence | as-written member | corrected member |
|---|---|---|---|---|---|---|
| src/ExamInterface.jsx:44-53 | The interval is created once at mount, with dependencies `[examId]`. At expiry it calls the `handleSubmitExam` of the first render. That closure still sees `questions = []` and `selectedAnswers = {}`, so it records an empty summary and posts no answers. | A session with at least one question, answered or not, whose clock reaches 0 between 10:00 and 18:00. | Expiry submits the student's current answers, as the manual submit does. | not executed | `ExamInterface.ExpiryAsWrittenDropsAnswers` | `ExamInterface.ExamSession.Tick` |
