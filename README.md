# Planity frontend — a Dafny model of its page logic

Planity is a React study planner. Its pages fetch tasks, reminders, study
sessions and a weekly timetable from a REST service and derive what they
show from them: dashboard statistics, a progress overview, a task list with
badges, a calendar, subject countdown timers, a study stopwatch, reminder
countdowns, and the login and sign-up forms. This project models that logic
in Dafny and proves what each page promises about it.

How the model is organised:

- Timestamps are integer milliseconds. `now` is a parameter wherever a page
  reads `new Date()`. The local weekday name and the local `"HH:MM"` are
  parameters of the dashboard.
- Each service call is replaced by the outcome the handler receives: a
  `Response` (resolved with a body holding what the handler reads — the
  list behind `res?.data?.X || []`, or `success` on the task page —
  resolved with a body lacking it, or thrown with a message) or an
  `Option` failure message.
- Component state becomes a class whose fields are the `useState` values.
  Each handler is a method whose `ensures` give the whole new state.
- Derivations written inline in the components (filters, sorts, counts,
  formatters, validators) are functions. Their properties are stated as
  `ensures` clauses or as lemmas.

Modules:

- Shared modules: `Optional`, `Text` (white space, `trim`, ASCII
  `toLowerCase`, `toString`, `padStart`, `parseInt`, string order),
  `Numeric` (`Math.round` and `Math.floor` on exact ratios, JavaScript `%`),
  `Sorting` (stable `sort`, `filter`, `slice`), `Records` (the service's
  records and the completion test) and `Forms` (form objects and the rules
  the login and sign-up pages share).
- One module per page: `StudentDashboard`, `ProgressTracker`, `TaskManager`,
  `TaskSchedule`, `Timetable`, `SubjectPage`, `StudySessionTracker`,
  `RemindersPage`, `Signup`, `Login`.

## Model

| member | source | states |
|---|---|---|
| Text.Trim | src/Components/Pages/SignupPage/Signup.jsx:78-82 | the result has no white space at either end and is empty exactly when the input is blank |
| Text.TrimInfix | src/Components/Pages/SignupPage/Signup.jsx:78-82 | the result is the infix of the input between a blank prefix and a blank suffix |
| Text.TrimUnique | src/Components/Pages/SignupPage/Signup.jsx:78-82 | any infix between blank margins that neither starts nor ends with white space is the result, so the result is pinned down |
| Text.CodeUnits | src/Components/Pages/SignupPage/Signup.jsx:67-68 | `length` counts UTF-16 code units: between one and two per character |
| Text.CodeUnitsConcat | src/Components/Pages/SignupPage/Signup.jsx:67-68 | the length of a concatenation is the sum of the lengths |
| Text.CodeUnitsBmp | src/Components/Pages/SignupPage/Signup.jsx:67-68 | without characters above U+FFFF the length is the number of characters |
| Text.TrimIdempotent | src/Components/Features/Timetable.jsx:62-64 | trimming twice is trimming once |
| Text.ToLower | src/Components/Pages/StudentPage/Student.jsx:119 | same length, each character lower-cased on its own |
| Text.ToLowerIdempotent | src/Components/Pages/StudentPage/Student.jsx:303 | lower-casing twice is lower-casing once |
| Text.NatToStringValue | src/Components/Pages/SubjectPage/SubjectPage.jsx:50-52 | the decimal digits of a number read back as that number |
| Text.PadStart2 | src/Components/Pages/SubjectPage/SubjectPage.jsx:50-52 | the text is at least two long, ends with the input and is filled with "0" in front |
| Text.PaddedValue | src/Components/Pages/StudySessionTracker/StudySessionTracker.jsx:75-76 | a padded number is all digits, reads back as the number, and is two long below 100 |
| Text.DigitPrefix | src/Components/Features/Taskmanager.jsx:59 | the longest run of digits at the start of a text |
| Text.ParseInt | src/Components/Features/Taskmanager.jsx:59 | `parseInt` gives a number exactly when digits follow the leading white space and the sign |
| Text.ParseIntWithSuffix | src/Components/Features/Reminders.jsx:55 | a printed integer followed by a non-digit reads back as that integer |
| Text.ParseIntOfIntToString | src/Components/Pages/SubjectPage/SubjectPage.jsx:73-113 | `parseInt` inverts `toString` on every integer, negative ones included |
| Text.StrLeTotal | src/Components/Pages/StudentPage/Student.jsx:153 | any two strings are ordered one way or the other |
| Text.StrLeTransitive | src/Components/Pages/StudentPage/Student.jsx:153 | the string order is transitive |
| Text.StrLeAntisymmetric | src/Components/Features/Timetable.jsx:35 | strings ordered both ways are equal |
| Numeric.RoundDiv | src/Components/Pages/StudentPage/Student.jsx:185 | the result is the integer nearest to the ratio, halves rounded up |
| Numeric.Percentage | src/Components/Features/progressTracker.jsx:46 | 0 for no tasks, otherwise the rounded percentage; within [0, 100] when the part is at most the whole; 100 for all and 0 for none |
| Numeric.HoursFromMs | src/Components/Features/progressTracker.jsx:90 | the nearest whole number of hours, never negative for a non-negative duration |
| Numeric.HoursMinutes | src/Components/Features/Reminders.jsx:53-54 | the whole hours and the minutes below 60 of a positive span, bracketing it to the minute |
| Numeric.DivMono | src/Components/Features/Reminders.jsx:53 | floor division keeps the order |
| Numeric.JsRem | src/Components/Pages/SubjectPage/SubjectPage.jsx:48-49 | JavaScript's `%`: the dividend minus the remainder is a multiple of the divisor, the remainder is smaller than the divisor in size and takes the dividend's sign |
| Numeric.JsRemNonNegative | src/Components/Pages/SubjectPage/SubjectPage.jsx:48-49 | for a non-negative dividend JavaScript's `%` is the Euclidean remainder |
| Numeric.RemainderUnique | src/Components/Pages/SubjectPage/SubjectPage.jsx:48-49 | the remainder in `[0, b)` leaving a multiple of `b` is unique |
| Sorting.Insert | src/Components/Features/progressTracker.jsx:59 | one more element, the same multiset plus the inserted one |
| Sorting.Sort | src/Components/Features/progressTracker.jsx:59 | a permutation of the input, of the same length |
| Sorting.SortStable | src/Components/Features/progressTracker.jsx:59 | stability: the elements tied with any given one come out in their input order |
| Sorting.InsertSorted | src/Components/Features/progressTracker.jsx:59 | insertion keeps an ordered sequence ordered |
| Sorting.SortSorted | src/Components/Features/progressTracker.jsx:59-65 | for a consistent comparator the sorted copy is ordered |
| Sorting.SortedHeadLeast | src/Components/Pages/StudentPage/Student.jsx:153-156 | the head of an ordered sequence precedes all its elements |
| Sorting.SortedTake | src/Components/Features/progressTracker.jsx:57-66 | the first n of a sorted copy are ordered, a sub-multiset of the input, and every element left out sorts at or after every element kept |
| Sorting.SortedTakeStable | src/Components/Features/progressTracker.jsx:57-66 | the tied elements kept are a prefix of the tied elements of the input, in input order |
| Sorting.SortHeadFirstLeast | src/Components/Pages/StudentPage/Student.jsx:262-266 | the head of the stable sort is the first of the least elements: every element before it is put strictly after it |
| Sorting.SortHeadIndex | src/Components/Pages/StudentPage/Student.jsx:262-266 | the head of the sorted copy sits at an index before which the comparator puts every element strictly after it |
| Sorting.InsertHead | src/Components/Pages/StudentPage/Student.jsx:262-266 | the head of an insertion is the new element when it may precede the old head, else the old head |
| Sorting.FilterPrefix | src/Components/Features/progressTracker.jsx:60 | filtering a prefix gives a prefix of the filtered sequence |
| Sorting.Take | src/Components/Features/progressTracker.jsx:60 | `slice(0, n)` is the prefix of length min(n, length) |
| Sorting.Filter | src/Components/Features/Taskmanager.jsx:102 | exactly the elements satisfying the test, each as often as the input has it |
| Records.ErrorText | src/Components/Features/Reminders.jsx:21 | a non-empty message is shown as it is, and the text is never empty when the fallback is not |
| Records.CompletionSignals | src/Components/Pages/StudentPage/Student.jsx:116-120 | the flag alone, or the status "completed" in lower, title or upper case, marks a task completed; without the flag the statuses "", Pending, In Progress and Overdue do not |
| Records.SubjectLabel | src/Components/Features/progressTracker.jsx:50 | the subject when it has one, and never an empty label |
| Records.CompletedPlusPending | src/Components/Features/progressTracker.jsx:23-30 | completed plus pending is the number of tasks |
| Records.DueLePreorder | src/Components/Features/progressTracker.jsx:65 | the due-date comparator is a total preorder |
| Records.FlattenWeek | src/Components/Features/Timetable.jsx:30-32 | the flattened week has as many entries as all days together |
| Records.StampDay | src/Components/Features/Timetable.jsx:31 | each entry of a day gets that day when it carries none |
| Records.FlattenWeekAt | src/Components/Features/Timetable.jsx:30-32 | entry i of day d is at its place in the flat list, in key order then entry order, stamped with the key when it has no day |
| Forms.SetField | src/Components/Pages/LoginPage/Login.jsx:39-42 | the named field holds the value and no other field changes |
| Forms.ClearError | src/Components/Pages/LoginPage/Login.jsx:45-50 | the field's error reads "", no other error changes, and an object without that error is returned as it is |
| Forms.ClearErrorIdempotent | src/Components/Pages/SignupPage/Signup.jsx:52-57 | clearing twice is clearing once, and clearing one field keeps another's error |
| Forms.EmailError | src/Components/Pages/LoginPage/Login.jsx:56-60 | "Email is required" exactly for a blank email, "Please enter a valid email" exactly for a non-blank one without the address shape, none otherwise |
| Forms.PasswordError | src/Components/Pages/LoginPage/Login.jsx:62-66 | "Password is required" exactly for an empty password, the length message exactly for 1 to 5 UTF-16 code units, none otherwise |
| Forms.EmailExamples | src/Components/Pages/SignupPage/Signup.jsx:88 | the search is unanchored and needs text between "@" and "." and after the "." |
| Signup.CountMet | src/Components/Pages/SignupPage/Signup.jsx:65-73 | no more points than rules |
| Signup.Strength | src/Components/Pages/SignupPage/Signup.jsx:65-73 | the strength is between 0 and 5 |
| Signup.StrengthUnfolded | src/Components/Pages/SignupPage/Signup.jsx:67-71 | the strength is one point each for a length of 6 and of 8 UTF-16 code units, an upper-case letter, a digit and a symbol |
| Signup.CountStrength | src/Components/Pages/SignupPage/Signup.jsx:65-73 | the step-by-step count equals the strength |
| Signup.CharTestsGrow | src/Components/Pages/SignupPage/Signup.jsx:69-71 | a character test that passes keeps passing when text is appended |
| Signup.StrengthGrows | src/Components/Pages/SignupPage/Signup.jsx:65-73 | appending to a password never lowers its strength |
| Signup.StrengthExtremes | src/Components/Pages/SignupPage/Signup.jsx:65-73 | strength 5 exactly when all five rules pass; examples at the low end |
| Signup.StrengthText | src/Components/Pages/SignupPage/Signup.jsx:138-141 | the table entry below 5, "Very Weak" from 5 on |
| Signup.StrengthColor | src/Components/Pages/SignupPage/Signup.jsx:143-146 | the table colour below 5, "#dc3545" from 5 on |
| Signup.StrongestLabelledVeryWeak | src/Components/Pages/SignupPage/Signup.jsx:138-146 | a password meeting every rule is labelled "Very Weak" in red, ranked below strength 4 |
| Signup.IntendedStrengthText | src/Components/Pages/SignupPage/Signup.jsx:138-141 | the label is always one of the five table entries |
| Signup.IntendedStrengthColor | src/Components/Pages/SignupPage/Signup.jsx:143-146 | the colour is always one of the five table colours |
| Signup.IntendedLabelMonotone | src/Components/Pages/SignupPage/Signup.jsx:138-146 | a stronger password never gets a weaker label; below 5 the labels agree with the page, and 5 shows "Strong" in green |
| Signup.NameError | src/Components/Pages/SignupPage/Signup.jsx:78-84 | each of the three name messages exactly when its rule is the first to fail |
| Signup.ConfirmError | src/Components/Pages/SignupPage/Signup.jsx:98-102 | "Please confirm your password" exactly when empty, "Passwords do not match" exactly when different |
| Signup.ClassError | src/Components/Pages/SignupPage/Signup.jsx:104-106 | an error exactly for a blank class |
| Signup.ErrorsOfFields | src/Components/Pages/SignupPage/Signup.jsx:75-107 | one key per failing rule holding that rule's message, and no other key |
| Signup.AcceptedForms | src/Components/Pages/SignupPage/Signup.jsx:108-109 | the error object is empty exactly when every field rule passes |
| Signup.Payload | src/Components/Pages/SignupPage/Signup.jsx:123 | the form without `confirmPassword`, every other field kept |
| Signup.Page.HandleChange | src/Components/Pages/SignupPage/Signup.jsx:44-63 | sets the field, clears only its error, and recomputes the strength on a password change |
| Signup.Page.ValidateForm | src/Components/Pages/SignupPage/Signup.jsx:75-110 | shows the error object of the form and answers whether it is empty |
| Signup.Page.HandleSubmit | src/Components/Pages/SignupPage/Signup.jsx:112-136 | an invalid form sends nothing; a valid one sends the payload |
| Login.ErrorsOfFields | src/Components/Pages/LoginPage/Login.jsx:53-67 | one key per failing rule holding that rule's message, and no other key |
| Login.LoginErrorMessages | src/Components/Pages/LoginPage/Login.jsx:56-66 | each field's message, field by field, with both directions of presence |
| Login.AcceptedLogins | src/Components/Pages/LoginPage/Login.jsx:68-69 | the form is accepted exactly when its error object is empty, exactly when the email is non-blank and address-shaped and the password has six characters |
| Login.NoErrorsIff | src/Components/Pages/LoginPage/Login.jsx:69 | the error object is empty exactly when both rules pass |
| Login.StoredUser | src/Components/Pages/LoginPage/Login.jsx:87-90 | the user's fields with `token` set to the response's token |
| Login.StoredUserRestored | src/Components/Pages/LoginPage/Login.jsx:87-92 | storing again keeps only the newest token |
| Login.AfterLogin | src/Components/Pages/LoginPage/Login.jsx:85-96 | success stores the user with its token, and the email when "remember me" is ticked; any other outcome stores nothing |
| Login.Submit | src/Components/Pages/LoginPage/Login.jsx:72-107 | a rejected form is not sent and changes no storage; an accepted one is sent as it stands and the response decides storage |
| Login.Page.HandleChange | src/Components/Pages/LoginPage/Login.jsx:37-51 | sets the field and clears only that field's error |
| Login.Page.TogglePassword | src/Components/Pages/LoginPage/Login.jsx:199 | flips the password visibility only |
| Login.Page.SetRememberMe | src/Components/Pages/LoginPage/Login.jsx:214 | sets the checkbox only |
| Login.Page.ValidateForm | src/Components/Pages/LoginPage/Login.jsx:53-70 | shows the error object and answers whether it is empty |
| Login.Page.HandleSubmit | src/Components/Pages/LoginPage/Login.jsx:72-107 | the state `Submit` describes; loading ends false once a form is sent |
| ProgressTracker.OverdueTasks | src/Components/Features/progressTracker.jsx:32-36 | exactly the dated tasks due before now that are not completed |
| ProgressTracker.UpcomingTasks | src/Components/Features/progressTracker.jsx:38-44 | exactly the dated tasks due in [now, now + 7 days] that are not completed |
| ProgressTracker.OverdueUpcomingDisjoint | src/Components/Features/progressTracker.jsx:32-44 | no task is both overdue and upcoming |
| ProgressTracker.OverduePlusUpcomingWithinPending | src/Components/Features/progressTracker.jsx:27-44 | overdue plus upcoming never exceeds pending |
| ProgressTracker.CountLabelCompleted | src/Components/Features/progressTracker.jsx:53 | a group never has more completed tasks than tasks |
| ProgressTracker.SubjectKeys | src/Components/Features/progressTracker.jsx:49-55 | the group keys are distinct, cover every task's label and name non-empty groups |
| ProgressTracker.GroupTotalsSum | src/Components/Features/progressTracker.jsx:49-55 | the group totals add up to the number of tasks |
| ProgressTracker.CountLabelSnoc | src/Components/Features/progressTracker.jsx:50-53 | one more task grows only its own group, by one |
| ProgressTracker.GroupBySubject | src/Components/Features/progressTracker.jsx:49-55 | the accumulator loop yields, for each key in first-seen order, that label's total and completed count |
| ProgressTracker.Row | src/Components/Features/progressTracker.jsx:58 | a row carries the group's counts and their rounded percentage |
| ProgressTracker.SubjectRows | src/Components/Features/progressTracker.jsx:57-58 | one row per group key, in key order |
| ProgressTracker.SubjectRowsBounded | src/Components/Features/progressTracker.jsx:57-58 | every row is a non-empty group with a percentage in [0, 100] |
| ProgressTracker.PctDescLePreorder | src/Components/Features/progressTracker.jsx:59 | the ranking comparator is a total preorder |
| ProgressTracker.TopSubjects | src/Components/Features/progressTracker.jsx:57-60 | min(4, rows) rows, a sub-multiset of the groups, in non-increasing percentage, and no row left out has a higher percentage than a row kept |
| ProgressTracker.TopSubjectsStable | src/Components/Features/progressTracker.jsx:57-60 | rows of equal percentage keep the grouping's order |
| ProgressTracker.DatedTasks | src/Components/Features/progressTracker.jsx:64 | exactly the tasks with a due date |
| ProgressTracker.UpcomingList | src/Components/Features/progressTracker.jsx:63-66 | min(5, dated) tasks, a sub-multiset of the dated ones, ascending by due date, and no dated task left out is due before a task kept |
| ProgressTracker.UpcomingListStable | src/Components/Features/progressTracker.jsx:63-66 | tasks due at the same moment keep their order in the fetched list |
| ProgressTracker.UpcomingListKeepsCompletedPast | src/Components/Features/progressTracker.jsx:38-66 | a completed past task is listed yet counted neither upcoming nor overdue |
| ProgressTracker.StatsConsistent | src/Components/Features/progressTracker.jsx:22-69 | completed + pending = total, overdue + upcoming ≤ pending, completion in [0, 100] and 0 without tasks, at most 4 subjects and 5 listed tasks |
| ProgressTracker.ComputeStats | src/Components/Features/progressTracker.jsx:22-69 | the memo computed with the grouping loop equals the statistics specified on the tasks |
| ProgressTracker.WeeklyStudyHours | src/Components/Features/progressTracker.jsx:89-90 | the weekly total rounded to whole hours, 0 when the service gives none |
| ProgressTracker.Progress.Load | src/Components/Features/progressTracker.jsx:78-104 | a failed task fetch keeps the tasks and sets the error; a rejected weekly call keeps the old figure |
| StudentDashboard.CompletedCount | src/Components/Pages/StudentPage/Student.jsx:116-120 | the completed count is the tasks minus the pending ones |
| StudentDashboard.DueSoonTasks | src/Components/Pages/StudentPage/Student.jsx:126-134 | a reordering of the filter of uncompleted tasks due within seven days (each as often as in the list), ascending by due date |
| StudentDashboard.DueSoonTasksStable | src/Components/Pages/StudentPage/Student.jsx:126-136 | tasks due at the same moment keep their list order, which decides which five the dashboard shows |
| StudentDashboard.UpcomingTasks | src/Components/Pages/StudentPage/Student.jsx:136 | the first min(5, due soon) of them, still due soon and ordered |
| StudentDashboard.DayIndex | src/Components/Pages/StudentPage/Student.jsx:159-168 | the position in the Sunday-first week, -1 exactly for a name that is not a day |
| StudentDashboard.Tomorrow | src/Components/Pages/StudentPage/Student.jsx:168 | always a day name; Sunday for a name that is not a day |
| StudentDashboard.TomorrowWraps | src/Components/Pages/StudentPage/Student.jsx:159-168 | each day is followed by the next of the Sunday-first week, Saturday by Sunday |
| StudentDashboard.DayIndexOf | src/Components/Pages/StudentPage/Student.jsx:159-168 | each day name is found at its own position |
| StudentDashboard.StartLePreorder | src/Components/Pages/StudentPage/Student.jsx:149-172 | the start-time comparator is a total preorder |
| StudentDashboard.EarliestStart | src/Components/Pages/StudentPage/Student.jsx:149-172 | none exactly for no entries, else an entry starting no later than any other |
| StudentDashboard.EarliestStartFirst | src/Components/Pages/StudentPage/Student.jsx:149-172 | on a tie the first of the tied entries in list order: every entry before it starts strictly later |
| StudentDashboard.SortedFirstEarliest | src/Components/Pages/StudentPage/Student.jsx:153-156 | the head of the sorted entries is an entry that starts first |
| StudentDashboard.NextClass | src/Components/Pages/StudentPage/Student.jsx:149-173 | the earliest class later today if any, else the earliest of the Sunday-first next day, else none; never from another day |
| StudentDashboard.SessionMs | src/Components/Pages/StudentPage/Student.jsx:177-183 | end minus start when both are known and end is later, else 0 |
| StudentDashboard.TotalStudyMs | src/Components/Pages/StudentPage/Student.jsx:176-184 | the study total is never negative |
| StudentDashboard.TotalStudyMsAppend | src/Components/Pages/StudentPage/Student.jsx:176-184 | the total is additive over any split of the sessions |
| StudentDashboard.TotalStudyMsBoundsEach | src/Components/Pages/StudentPage/Student.jsx:176-184 | no session contributes more than the total |
| StudentDashboard.StudyHours | src/Components/Pages/StudentPage/Student.jsx:185 | the total rounded to whole hours, never negative |
| StudentDashboard.DayKeyBack | src/Components/Pages/StudentPage/Student.jsx:195-197 | stepping back i days moves the UTC day key back by i |
| StudentDashboard.StreakFrom | src/Components/Pages/StudentPage/Student.jsx:193-200 | the run from i days back stays within the 30-day window |
| StudentDashboard.CurrentStreak | src/Components/Pages/StudentPage/Student.jsx:193-200 | the loop's streak is at most 30, every day in it has a session, the first day back outside it has none unless the 30-day window ended, and it equals the specified streak |
| StudentDashboard.StreakMonotone | src/Components/Pages/StudentPage/Student.jsx:188-200 | fewer study days never give a longer streak |
| StudentDashboard.NoStudyTodayNoStreak | src/Components/Pages/StudentPage/Student.jsx:198-199 | no session today means streak 0 |
| StudentDashboard.ThreeDayStreak | src/Components/Pages/StudentPage/Student.jsx:193-200 | three consecutive days give 3; a gap after today gives 1 |
| StudentDashboard.NewerPreorders | src/Components/Pages/StudentPage/Student.jsx:203-232 | the newest-first comparators are total preorders |
| StudentDashboard.NewestTasks | src/Components/Pages/StudentPage/Student.jsx:203-209 | a permutation of the tasks, newest first |
| StudentDashboard.NewestSessions | src/Components/Pages/StudentPage/Student.jsx:226-232 | a permutation of the sessions, newest first |
| StudentDashboard.NewestTasksStable | src/Components/Pages/StudentPage/Student.jsx:203-209 | tasks with equal recency keys keep their list order, which decides the three shown |
| StudentDashboard.NewestSessionsStable | src/Components/Pages/StudentPage/Student.jsx:226-232 | sessions with equal recency keys keep their list order, which decides the two shown |
| StudentDashboard.TaskLines | src/Components/Pages/StudentPage/Student.jsx:210-224 | the lines of the three newest tasks, each "success" or "primary" |
| StudentDashboard.SessionLines | src/Components/Pages/StudentPage/Student.jsx:233-240 | the lines of the two newest sessions, each "info" |
| StudentDashboard.ReminderLines | src/Components/Pages/StudentPage/Student.jsx:242-248 | the line of the first reminder, if any, as "warning" |
| StudentDashboard.ConcatTake | src/Components/Pages/StudentPage/Student.jsx:250-256 | the concatenation cut to n, position by position |
| StudentDashboard.RecentActivities | src/Components/Pages/StudentPage/Student.jsx:203-256 | at most five lines: task lines, then session lines, then the reminder line |
| StudentDashboard.ReminderDateLePreorder | src/Components/Pages/StudentPage/Student.jsx:264-266 | the reminder-date comparator is a total preorder |
| StudentDashboard.NextReminder | src/Components/Pages/StudentPage/Student.jsx:262-266 | a dated reminder due no later than any dated one, none exactly when no reminder is dated |
| StudentDashboard.NextReminderFirst | src/Components/Pages/StudentPage/Student.jsx:262-266 | on a tie the first of the earliest dated reminders in list order: every dated reminder before it is due strictly later |
| StudentDashboard.FirstEarliestDated | src/Components/Pages/StudentPage/Student.jsx:262-266 | the head of the sorted dated reminders is the first of the earliest in list order |
| StudentDashboard.ReminderToast | src/Components/Pages/StudentPage/Student.jsx:259-280 | the warning is raised exactly when none was shown yet and the next reminder is still ahead, and reads "Upcoming: {title} in {h}h {m}m" with the whole hours and leftover minutes until it |
| StudentDashboard.UpcomingDeadlines | src/Components/Pages/StudentPage/Student.jsx:288 | all reminders plus all due-soon tasks, without deduplication, so at least the reminders plus the listed upcoming tasks |
| StudentDashboard.CompletionPercentage | src/Components/Pages/StudentPage/Student.jsx:316-319 | 0 without tasks, within [0, 100] when completed ≤ total |
| StudentDashboard.PriorityColor | src/Components/Pages/StudentPage/Student.jsx:302-314 | each colour exactly for its lower-cased priority, "secondary" for any other |
| StudentDashboard.PriorityColorIgnoresCase | src/Components/Pages/StudentPage/Student.jsx:303 | the colour ignores ASCII case |
| StudentDashboard.Snapshot | src/Components/Pages/StudentPage/Student.jsx:110-291 | the total is the number of tasks and completed ≤ total, streak ≤ 30, the deadline count is at least the listed tasks plus the listed reminders, and the lists hold at most 5, 3 and 5 entries |
| StudentDashboard.Dashboard.LoadDashboard | src/Components/Pages/StudentPage/Student.jsx:98-297 | a failed fetch replaces nothing; otherwise every shown value comes from the snapshot and the warning is raised at most once per browser session |
| TaskManager.MarkCompleted | src/Components/Features/Taskmanager.jsx:86-90 | same length; tasks with the id become Completed with the flag set, the others are unchanged |
| TaskManager.MarkCompletedIdempotent | src/Components/Features/Taskmanager.jsx:86-90 | completing twice is completing once, and the dashboard reads the task as completed |
| TaskManager.RemoveById | src/Components/Features/Taskmanager.jsx:102 | exactly the tasks without the id survive; length drops by the number carrying it |
| TaskManager.CountId | src/Components/Features/Taskmanager.jsx:102 | never more than the tasks |
| TaskManager.RemoveByIdAppend | src/Components/Features/Taskmanager.jsx:102 | deletion works piece by piece, so survivors keep their order |
| TaskManager.RemoveByIdKeepsOthers | src/Components/Features/Taskmanager.jsx:102 | a task without the id stays between its neighbours' survivors |
| TaskManager.BadgesCover | src/Components/Features/Taskmanager.jsx:249-259 | every task is in some badge, and Pending overlaps neither other badge |
| TaskManager.BadgeCounts | src/Components/Features/Taskmanager.jsx:249-259 | the badges add up to the total plus the completed tasks marked Overdue |
| TaskManager.BadgeStricterThanDashboard | src/Components/Features/Taskmanager.jsx:249 | the badge implies the dashboard's completion, not the reverse |
| TaskManager.PriorityVariant | src/Components/Features/Taskmanager.jsx:110-117 | each variant exactly for its exact-case priority, "secondary" otherwise |
| TaskManager.StatusVariant | src/Components/Features/Taskmanager.jsx:119-126 | each variant exactly for its exact-case status, "secondary" otherwise |
| TaskManager.PriorityVariantCaseSensitive | src/Components/Features/Taskmanager.jsx:110-117 | "high" is not "High" here |
| TaskManager.PayloadOf | src/Components/Features/Taskmanager.jsx:57-60 | the form with estimatedTime left out when empty |
| TaskManager.PayloadOfNumber | src/Components/Features/Taskmanager.jsx:59 | a typed integer is sent as that integer |
| TaskManager.Manager.FetchTasks | src/Components/Features/Taskmanager.jsx:26-39 | success replaces the list, a thrown call sets the error, loading ends false |
| TaskManager.Manager.HandleInputChange | src/Components/Features/Taskmanager.jsx:41-46 | sets one form field only |
| TaskManager.Manager.HandleAddTask | src/Components/Features/Taskmanager.jsx:48-80 | a form missing title, subject or due date only sets the error; otherwise the payload is sent and success appends exactly the created task and resets the form |
| TaskManager.Manager.ToggleTaskCompletion | src/Components/Features/Taskmanager.jsx:82-96 | on success exactly the tasks with the id are completed |
| TaskManager.Manager.DeleteTask | src/Components/Features/Taskmanager.jsx:98-108 | on success exactly the tasks with the id are removed |
| TaskSchedule.NormalStatus | src/Components/Pages/TaskSchedule/TaskSchedule.jsx:26 | the own status if any, else Completed or Pending from the flag; never empty |
| TaskSchedule.Normalise | src/Components/Pages/TaskSchedule/TaskSchedule.jsx:21-27 | id, title, description and due date carried over, status normalised |
| TaskSchedule.NormaliseAll | src/Components/Pages/TaskSchedule/TaskSchedule.jsx:21-27 | one normalised task per task, in order |
| TaskSchedule.FilteredTasks | src/Components/Pages/TaskSchedule/TaskSchedule.jsx:46-49 | exactly the dated tasks on the selected local day |
| TaskSchedule.FilteredTasksByDay | src/Components/Pages/TaskSchedule/TaskSchedule.jsx:46-49 | two moments of one local day select the same tasks |
| TaskSchedule.NextStatus | src/Components/Pages/TaskSchedule/TaskSchedule.jsx:52 | Pending exactly for Completed, Completed otherwise |
| TaskSchedule.NextStatusInvolution | src/Components/Pages/TaskSchedule/TaskSchedule.jsx:52 | two flips restore exactly Completed and Pending; anything else ends Pending |
| TaskSchedule.SetStatus | src/Components/Pages/TaskSchedule/TaskSchedule.jsx:55 | only the status changes, and only on tasks with the id |
| TaskSchedule.Schedule.LoadTasks | src/Components/Pages/TaskSchedule/TaskSchedule.jsx:16-35 | the normalised tasks on success, none for a body without them, the error on a thrown call |
| TaskSchedule.Schedule.HandleTaskClick | src/Components/Pages/TaskSchedule/TaskSchedule.jsx:39 | selects the task only |
| TaskSchedule.Schedule.HandleDateChange | src/Components/Pages/TaskSchedule/TaskSchedule.jsx:41-44 | sets the date and clears the selection |
| TaskSchedule.Schedule.ToggleTaskStatus | src/Components/Pages/TaskSchedule/TaskSchedule.jsx:51-63 | the flipped status goes to the tasks with the id, and to the selection only when it has that id; a failure only sets the error |
| Timetable.WeekdayIndex | src/Components/Features/Timetable.jsx:9-35 | the Monday-first position, -1 exactly for a name that is not a day |
| Timetable.EntryLePreorder | src/Components/Features/Timetable.jsx:35 | the weekday-then-start comparator is a total preorder |
| Timetable.WeekEntries | src/Components/Features/Timetable.jsx:30-35 | a permutation of the flattened week |
| Timetable.WeekEntriesOrdered | src/Components/Features/Timetable.jsx:34-35 | ordered by weekday, then start time; exactly the flattened entries |
| Timetable.WeekEntriesStable | src/Components/Features/Timetable.jsx:30-35 | entries with the same weekday and start time keep their flattened order |
| Timetable.WeekEntriesShowAll | src/Components/Features/Timetable.jsx:30-36 | every entry filed under a day is shown, stamped with that day when it has none |
| Timetable.SetField | src/Components/Features/Timetable.jsx:45-47 | sets one form field only |
| Timetable.PayloadOf | src/Components/Features/Timetable.jsx:58-65 | fields carried over, subject trimmed, room trimmed or left out when blank |
| Timetable.PayloadRoundTrip | src/Components/Features/Timetable.jsx:50-65 | a saved form sends a non-empty subject, and typing the sent body back in sends it again |
| Timetable.Loaded | src/Components/Features/Timetable.jsx:25-41 | the sorted entries on success, none for a body without a week, the error on a thrown call |
| Timetable.Page.LoadEntries | src/Components/Features/Timetable.jsx:25-41 | the state `Loaded` describes |
| Timetable.Page.HandleInputChange | src/Components/Features/Timetable.jsx:45-47 | sets one form field only |
| Timetable.Page.HandleSave | src/Components/Features/Timetable.jsx:49-82 | a form failing the guard only sets the error; otherwise the payload is sent, and success resets the form to "Lecture" and reloads |
| SubjectPage.TickTimer | src/Components/Pages/SubjectPage/SubjectPage.jsx:36-38 | a running countdown with time left loses one second; any other is unchanged; never below zero |
| SubjectPage.Lookup | src/Components/Pages/SubjectPage/SubjectPage.jsx:58 | the countdown under an id, none exactly when no entry has it |
| SubjectPage.Put | src/Components/Pages/SubjectPage/SubjectPage.jsx:62-68 | the id now holds the countdown; other ids keep theirs |
| SubjectPage.Remove | src/Components/Pages/SubjectPage/SubjectPage.jsx:118-119 | the id has no countdown; other ids keep theirs |
| SubjectPage.TickAll | src/Components/Pages/SubjectPage/SubjectPage.jsx:34-40 | every entry ticked once, in place |
| SubjectPage.TickAllLookup | src/Components/Pages/SubjectPage/SubjectPage.jsx:34-40 | after a tick each id has its countdown ticked once, and no id appears or vanishes |
| SubjectPage.TickTimesRunning | src/Components/Pages/SubjectPage/SubjectPage.jsx:32-42 | n ticks take n seconds off a running countdown, stopping at zero, and leave a stopped one alone |
| SubjectPage.FormatHmsRoundTrip | src/Components/Pages/SubjectPage/SubjectPage.jsx:46-53 | "HH:MM:SS" with MM and SS below 60, and h·3600 + m·60 + s gives back the count |
| SubjectPage.ClockSplit | src/Components/Pages/SubjectPage/SubjectPage.jsx:47-49 | hours, minutes and seconds split the count, with JavaScript's `%` |
| SubjectPage.FindSubject | src/Components/Pages/SubjectPage/SubjectPage.jsx:56 | a subject with the id from the list, none exactly when there is none |
| SubjectPage.CurrentTimer | src/Components/Pages/SubjectPage/SubjectPage.jsx:58-61 | the stored countdown, else the subject's full time, stopped |
| SubjectPage.Toggled | src/Components/Pages/SubjectPage/SubjectPage.jsx:62-68 | the running flag flips and the time left stays |
| SubjectPage.ToggledTwice | src/Components/Pages/SubjectPage/SubjectPage.jsx:55-70 | toggling twice gives back the countdown |
| SubjectPage.Rename | src/Components/Pages/SubjectPage/SubjectPage.jsx:78-82 | the subjects with the id get the new name and time; others unchanged |
| SubjectPage.FormSeconds | src/Components/Pages/SubjectPage/SubjectPage.jsx:73-74 | seconds exactly when the name is set and the minutes parse, and then minutes · 60 |
| SubjectPage.EditUnchangedKeepsTime | src/Components/Pages/SubjectPage/SubjectPage.jsx:73-113 | opening a subject for editing and saving it unchanged keeps its time |
| SubjectPage.FormSecondsOfMinutes | src/Components/Pages/SubjectPage/SubjectPage.jsx:73-74 | printed minutes read back as that many minutes |
| SubjectPage.Page.constructor | src/Components/Pages/SubjectPage/SubjectPage.jsx:21-29 | the two seed subjects, no countdowns, empty form, not editing |
| SubjectPage.Page.Tick | src/Components/Pages/SubjectPage/SubjectPage.jsx:33-41 | the countdowns ticked once, nothing else changed |
| SubjectPage.Page.ToggleTimer | src/Components/Pages/SubjectPage/SubjectPage.jsx:55-70 | the subject's countdown toggled, first created stopped at full time; other ids untouched |
| SubjectPage.Page.HandleAddSubject | src/Components/Pages/SubjectPage/SubjectPage.jsx:72-107 | no change without a name or numeric minutes; an edit renames and resets the countdown; an add appends the subject with a stopped full countdown |
| SubjectPage.Page.HandleEdit | src/Components/Pages/SubjectPage/SubjectPage.jsx:109-114 | opens the form on the subject with its time in minutes |
| SubjectPage.Page.HandleDelete | src/Components/Pages/SubjectPage/SubjectPage.jsx:116-121 | the subjects with the id and its countdown go; other subjects and countdowns stay |
| StudySessionTracker.FormatMmSsRoundTrip | src/Components/Pages/StudySessionTracker/StudySessionTracker.jsx:74-78 | "MM:SS" with SS below 60, and 60·MM + SS gives back the count |
| StudySessionTracker.DurationLabelReads | src/Components/Pages/StudySessionTracker/StudySessionTracker.jsx:127 | the label reads back as the stored duration (0 included), else the rounded minutes, else "-" |
| StudySessionTracker.NotesOf | src/Components/Pages/StudySessionTracker/StudySessionTracker.jsx:62 | trimmed notes, left out exactly when blank |
| StudySessionTracker.LoadedSessions | src/Components/Pages/StudySessionTracker/StudySessionTracker.jsx:25-35 | the listed sessions, none for a body without them, the old ones on a thrown call |
| StudySessionTracker.Stopwatch.LoadSessions | src/Components/Pages/StudySessionTracker/StudySessionTracker.jsx:25-35 | the sessions `LoadedSessions` gives, nothing else |
| StudySessionTracker.Stopwatch.Tick | src/Components/Pages/StudySessionTracker/StudySessionTracker.jsx:15-23 | one more second exactly while running |
| StudySessionTracker.Stopwatch.StartTimer | src/Components/Pages/StudySessionTracker/StudySessionTracker.jsx:39-54 | nothing while running or for a blank subject; otherwise the trimmed subject is sent and the stopwatch runs once the service answers |
| StudySessionTracker.Stopwatch.StopTimer | src/Components/Pages/StudySessionTracker/StudySessionTracker.jsx:56-72 | nothing while stopped, which stays stopped; otherwise it stops and resets time, notes and subject even when ending the session fails |
| RemindersPage.Countdown | src/Components/Features/Reminders.jsx:44-60 | one line per reminder, in order, with its id |
| RemindersPage.CountdownTextKinds | src/Components/Features/Reminders.jsx:47-51 | empty exactly without a date, "Due now" exactly once the moment has come |
| RemindersPage.CountdownTextReads | src/Components/Features/Reminders.jsx:53-55 | the text reads back as the whole hours, then the minutes below 60, left |
| RemindersPage.HoursText | src/Components/Features/Reminders.jsx:55 | both numbers of "{h}h {m}m left" read back |
| RemindersPage.CountdownCountsDown | src/Components/Features/Reminders.jsx:53-55 | a later moment never shows more hours left |
| RemindersPage.RequestOf | src/Components/Features/Reminders.jsx:32-33 | the trimmed title and the local date-time text |
| RemindersPage.Loaded | src/Components/Features/Reminders.jsx:15-23 | the listed reminders, none for a body without them, the error on a thrown call |
| RemindersPage.Page.Load | src/Components/Features/Reminders.jsx:15-23 | the state `Loaded` describes |
| RemindersPage.Page.AddReminder | src/Components/Features/Reminders.jsx:27-42 | nothing for a blank title or missing date or time; a failure sets the error; success clears the inputs and reloads |

## Left out

- HTTP transport, JSON parsing, toasts, navigation and `useEffect` redirects are replaced by the outcome each handler receives. This includes the login and sign-up redirect for a stored user.
- `localStorage` is modelled as two fields of the login page. `sessionStorage` is modelled as the dashboard's "warning shown" flag.
- `new Date(string)` parsing is left out: dates are already integer milliseconds or None, and None stands both for an absent date and for one that `new Date` cannot parse (each line below that starts with a member name and mentions an unparseable date says where the two differ in the source; elsewhere the source drops an unparseable date just as an absent one: a NaN comparison is false, `isNaN` guards it, or "Invalid Date" matches no day). The reminder request is kept as the local date-time text it would parse.
- StudentDashboard.NextReminder: an unparseable reminder date is skipped. The source keeps the reminder, which its NaN comparator may sort first; then `due - nowTs > 0` fails and no toast is shown (Student.jsx:262-271). StudentDashboard.ReminderToast therefore shows the toast for the next parseable reminder where the source may show none.
- StudentDashboard.ReminderToast: see the line above for unparseable dates. Also, a reminder without a title is modelled with the title "", so the model shows "Upcoming:  in …" where the source interpolates `${nextReminder.title}` as "Upcoming: undefined in …" (Student.jsx:274).
- StudentDashboard.TaskActivity: a task whose due date is unparseable gets the time `Recently`. The source prints "Due Invalid Date" (Student.jsx:217-219).
- StudentDashboard.SessionActivity: an unparseable `endTime` falls back to the start time. The source prints "Invalid Date" for it, with no fallback (Student.jsx:237-239).
- StudentDashboard.ReminderActivity: an unparseable reminder date gets the time `Upcoming`. The source prints "Invalid Date" (Student.jsx:245-247). A reminder without a title reads "Reminder: " where the source prints "Reminder: undefined" (Student.jsx:243), because an absent title is modelled as "".
- StudentDashboard.RecencyKey: an unparseable `updatedAt` (or `createdAt`) falls back to the next field. The source takes the first present field, parseable or not, and compares NaN (Student.jsx:207-208); the same holds for the `endTime || startTime` key of sessions (Student.jsx:229-230). StudentDashboard.NewestTasks and StudentDashboard.NewestSessions inherit this.
- Timetable.WeekEntries: an entry without `startTime` is read as "" and sorted first within its day. In the source, `a.startTime.localeCompare(b.startTime)` (Timetable.jsx:35) throws a TypeError when the sort passes such an entry as `a` against an entry of the same weekday, and then `loadEntries` keeps the old entries and shows the error (Timetable.jsx:37-40); passed as `b`, it is compared as the text "undefined". Which of the two happens depends on the engine's sort, so neither is modelled. Timetable.Loaded and Timetable.Page.LoadEntries inherit this.
- `toLocaleDateString`, `toLocaleString` and `toTimeString` are left out. The local weekday and "HH:MM" are inputs. Activity times keep the timestamp, not its printed form.
- `setDate(+7)` is modelled as adding seven 24-hour days, which ignores daylight-saving shifts.
- `toDateString` equality is modelled as the same day after a fixed zone offset.
- `toISOString().slice(0, 10)` is modelled as the UTC day number.
- Floating point is not modelled. `Math.round` and `Math.floor` are taken on exact integer ratios. A fractional `estimatedTime` or minutes value is not modelled.
- TaskManager.PayloadOf: a field that `parseInt` cannot read is sent as no number (None), where the source sends NaN.
- `localeCompare` and the string `>` are both modelled as code-point order (Text.StrLe), and `toLowerCase` as ASCII lower-casing. Code-point order differs from the code-unit order of `>` only between characters above U+FFFF and those from U+E000 to U+FFFF. Locale collation agrees with it on well-formed `"HH:MM"` times, which have digits around one colon in a fixed place.
- StudentDashboard.NewestTasks: a task with none of `updatedAt`, `createdAt` and `dueDate` is placed after every dated task. In the source the comparator returns NaN for such a task, so where it lands depends on the engine's sort.
- StudentDashboard.NewestSessions: a session with neither an end nor a start time is placed after every dated session, for the same reason: the source's comparator returns NaN for it.
- StudentDashboard.Dashboard.LoadDashboard: the load is all or nothing. In the source, `setUpcomingTasks` and `setUpcomingReminders` (Student.jsx:136-137) and `setNextClass` (Student.jsx:156, 172) have already run when a later step throws: `localeCompare` on a class without `startTime` (Student.jsx:153, 171) or `toISOString` on an unparseable session start (Student.jsx:191). The partial update is not modelled.
- RemindersPage.CountdownText: an unparseable reminder date is modelled as no date, so the text is empty. The source shows "NaNh NaNm left" for it (Reminders.jsx:47-55).
- ProgressTracker.DatedTasks: an unparseable due date is modelled as no date, so the task is dropped. The source keeps it in the upcoming list, where the NaN comparator places it (progressTracker.jsx:64-65).
- StudySessionTracker.DurationLabel: an unparseable start or end time is modelled as a missing one, so the label is "-". The source shows "NaN min" (StudySessionTracker.jsx:125-127).
- Regular expressions are written as predicates over characters. JavaScript's `\s` is an abstract white-space predicate.
- Object key enumeration is modelled as insertion order. JavaScript lists integer-like subject names first in `bySubject`.
- ProgressTracker.GroupBySubject: every label gets its own fresh tally. In the source, `acc[s] || {...}` (progressTracker.jsx:50) reads inherited properties of the plain object: a subject named "constructor", "toString", "valueOf" or "hasOwnProperty" finds the built-in function, `.total += 1` gives NaN, and the row shows NaN counts and 0%; a subject named "__proto__" updates `Object.prototype` and never appears in `Object.entries`. The model does not capture these names; ProgressTracker.SubjectRows, ProgressTracker.TopSubjects and ProgressTracker.ComputeStats inherit this.
- Shallow copies, state aliasing, React batching and StrictMode double calls are not modelled. Each handler is one step applied to the state it reads.
- The `Date.now()` id of a new subject is a parameter.
- The purely presentational values are left out: the progress-bar widths, the weekly productivity object and the session list's subject text.
- The seven-day window of `loadSessions` is left to the service, which the source already trusts.
- Record fields of the user object are strings.
- SubjectPage.Page.ToggleTimer: requires that the subject or its countdown exists. The source throws a TypeError otherwise.
- SubjectPage.Page.HandleEdit: requires the page invariant and a listed subject, so that the time is whole minutes. Other times would show a fraction, and every time the page stores is whole minutes.

## Findings

| source | as written | input that shows it | evidently intended | confidence | as-written member | corrected member |
|---|---|---|---|---|---|---|
| src/Components/Pages/SignupPage/Signup.jsx:138-146 | the five-entry tables are indexed by a strength that reaches 5, so the strongest password falls back to "Very Weak" in red | the password "Abcdef1!" meets all five rules: strength 5, label "Very Weak", colour #dc3545 | strength 5 shows the top entry, "Strong" in green, so a stronger password never looks weaker | not executed | Signup.StrongestLabelledVeryWeak | Signup.IntendedLabelMonotone |
