# SignBridge front end and landmark recorder, modelled in Dafny

SignBridge is a site for learning Indian Sign Language. It also ships a small Python tool that records sign clips. This project models the parts of it that make decisions, and proves what those decisions guarantee.

- **Session** (`AuthContext.dfy`): the provider holds the signed-in user, a loading flag and an authenticated flag. The session persists as two browser-storage entries, `user` and `authToken`. A deterministic mock service stands in for the network.
  - Proved: login, signup, logout and progress updates change exactly what they should.
  - Proved: a persisted session is restored on the next start.
  - Proved: progress only rises, and lessons are never listed twice.
- **Forms** (`Login.dfy`, `SignUp.dfy`, `Patterns.dfy`): field-by-field validation with one message per field. Both forms test the e-mail regular expression, and the sign-up form also tests the password look-aheads. Each test is written out as the substring property it decides.
  - Proved: validation passes exactly when every rule accepts.
  - Proved: a valid form is always accepted by the mock service.
  - Proved: a submission changes the session and navigation exactly as the component does.
- **Lessons** (`LearningModule.dfy`): the six-lesson catalogue is marked with the learner's completions, filtered by category and search text, and completing a lesson reports a progress percentage.
  - Proved: the first view shows exactly the basics.
  - Proved: the search ignores case.
  - Proved: completing a pending lesson adds exactly one completion.
  - Proved: repeating a completion pushes the reported percentage past 100.
- **Dashboard** (`UserDashboard.dfy`): mock statistics derived from the user, a badge count, the progress percentage, the study-time label and the activity icons.
  - Proved: every study-time label reads back as its duration.
- **Resources** (`ResourcesPage.dfy`): six resources, narrowed by a search term, a category and a level.
  - Proved: the three successive filter passes equal one filter by all three tests.
  - Proved: every control change refilters the list.
- **Responsive helpers** (`Responsive.dfy`): the breakpoint table, the breakpoint tests and device classes as functions of the window width, and the Tailwind class-string builders.
- **Accessibility helpers** (`Accessibility.dfy`): the validation ARIA attributes, the focus trap's Tab handling with the saved focus (a `Document` class), the Enter/Escape dispatch, the `AccessibleInput` ARIA strings, and the hexadecimal colour split behind `checkContrast`, including ECMAScript's `parseInt` and ToInt32.
- **Recorder** (`CaptureLandmarks.dfy`): the 1629-entry feature vector of one frame and the capture loop over the camera/clock/keyboard passes. Fewer than two frames are not saved. A saved clip has a fixed path and payload.

Shared helpers:

- `Text.dfy`: JavaScript's white space, `trim`, ASCII `toLowerCase`, `includes`, and decimal rendering.
- `Seqs.dfy`: `filter` and its algebra.
- `Numbers.dfy`: `Math.round` of a percentage.
- `Wrappers.dfy`: `Option`.

Inputs from outside the program are parameters:

- `Date.now()` is `now`.
- `JSON.parse` of a stored text that the app did not write as a user record is `jsonParse`.
- A failing service call is `fault`.
- The window width is `width`.
- The random id suffix is `randomSuffix`.
- Each pass of the recorder loop is a `Tick` holding the clock, the camera read, the detector's output and the key code.
- `datetime.now()` is `timestamp`.

Component state that the source updates lives in classes: `AuthProvider`, `Storage`, `LoginForm`, `SignUpForm`, `LearningPage`, `Dashboard`, `ResourcesView` and `Document`. Each method states the whole new state. `AuthProvider` also records the requests it sends to the authentication service, so that a form's submission can be seen to call the service exactly when the form is valid. `LoadLessons` marks the lesson records in place, and is modelled on an array. The recorder's loop is a `while` loop proved against the function `Collected`.

The mock login returns progress 25 and the lessons `lesson1` and `lesson2`. A malformed stored user makes `JSON.parse` throw, and loading never ends. A stored `null` next to a token restores a session that is authenticated but has no user.

## Model

| member | source | states |
|---|---|---|
| AuthContext.SessionToken | Frontend/src/context/AuthContext.jsx:147 | the mock's token is never empty, so a stored token is always truthy |
| AuthContext.SimulateLogin | Frontend/src/context/AuthContext.jsx:134-154 | login is granted exactly when e-mail and password are both non-empty; a grant echoes the e-mail and carries `demo-jwt-token-<now>`; a refusal says "Invalid credentials" |
| AuthContext.SimulateSignup | Frontend/src/context/AuthContext.jsx:155-167 | signup is granted exactly when name, e-mail and password are all non-empty; otherwise "Missing required fields" |
| AuthContext.BuildUser | Frontend/src/context/AuthContext.jsx:41-48 | identity fields are copied; a missing or empty avatar becomes null, missing progress 0, missing lessons [] and present values are kept |
| AuthContext.LoginOutcome | Frontend/src/context/AuthContext.jsx:30-66 | success exactly when the call does not fault and both credentials are non-empty; the user is the demo record (id 1, name "Demo User", the given e-mail, progress 25, two lessons, no avatar); failures carry the fault or the refusal message |
| AuthContext.SignupOutcome | Frontend/src/context/AuthContext.jsx:68-89 | success exactly when the call does not fault and all three fields are non-empty; failures carry the fault or the refusal message |
| AuthContext.UpdatedUser | Frontend/src/context/AuthContext.jsx:98-111 | progress is the larger of old and reported; the lesson is appended only when absent (old list is a prefix, set of ids grows by exactly the lesson, no duplicates introduced); no other field changes |
| AuthContext.UpdatedUserIdempotent | Frontend/src/context/AuthContext.jsx:101-107 | reporting the same lesson and progress twice equals reporting it once |
| AuthContext.MaxReported | Frontend/src/context/AuthContext.jsx:103 | the running maximum is at least the start and every report, and equals one of them |
| AuthContext.ApplyReportsSummary | Frontend/src/context/AuthContext.jsx:98-111 | after any sequence of reports, progress is the maximum ever reported, every reported and earlier lesson is recorded, and none twice |
| AuthContext.ApplyReportsProgress | Frontend/src/context/AuthContext.jsx:103 | after any sequence of reports, progress is the running maximum |
| AuthContext.ApplyReportsKeeps | Frontend/src/context/AuthContext.jsx:104-106 | a recorded lesson stays recorded through any sequence of reports |
| AuthContext.ApplyReportsRecords | Frontend/src/context/AuthContext.jsx:104-106 | every reported lesson is recorded after the sequence |
| AuthContext.ApplyReportsUnique | Frontend/src/context/AuthContext.jsx:104-106 | no lesson is recorded twice after any sequence of reports |
| AuthContext.ProgressNeverFalls | Frontend/src/context/AuthContext.jsx:103-106 | reporting 40 then 25 for one lesson leaves progress 40 and the lesson listed once |
| AuthContext.Storage.SetItem | Frontend/src/context/AuthContext.jsx:54-55 | the store maps the key to the new value and keeps every other entry |
| AuthContext.Storage.RemoveItem | Frontend/src/context/AuthContext.jsx:94-95 | the store loses the key and keeps every other entry |
| AuthContext.AuthProvider.constructor | Frontend/src/context/AuthContext.jsx:14-16 | initial state: no user, loading, not authenticated, no service request sent |
| AuthContext.AuthProvider.Restore | Frontend/src/context/AuthContext.jsx:19-28 | with both entries present and truthy: a stored record is restored, authenticated, and loading ends; a stored text that JSON.parse rejects stops the effect with loading still on; a text that parses to `null` or another non-record value leaves the session authenticated with no user; without both entries only loading ends; the session invariant (authenticated implies both entries; a user is authenticated and is the stored record) is kept |
| AuthContext.AuthProvider.Login | Frontend/src/context/AuthContext.jsx:30-66 | exactly one login request is sent; the result is `LoginOutcome`; on success the user is set, authenticated, and exactly the `user` and `authToken` entries are written; on failure nothing changes; loading ends on every path |
| AuthContext.AuthProvider.Signup | Frontend/src/context/AuthContext.jsx:68-89 | exactly one signup request is sent; the result is `SignupOutcome`; the session is untouched; loading ends on every path |
| AuthContext.AuthProvider.Logout | Frontend/src/context/AuthContext.jsx:91-96 | no user, not authenticated, exactly the two entries removed |
| AuthContext.AuthProvider.UpdateProgress | Frontend/src/context/AuthContext.jsx:98-111 | without a user nothing changes; otherwise the user becomes `UpdatedUser` and only the `user` entry is rewritten |
| AuthContext.LoginThenRestart | Frontend/src/context/AuthContext.jsx:19-28 | a successful login followed by a fresh mount on the same store restores that user, authenticated |
| AuthContext.LogoutThenRestart | Frontend/src/context/AuthContext.jsx:91-96 | after logout a fresh mount is unauthenticated with no user |
| AuthContext.RestoreStoredNull | Frontend/src/context/AuthContext.jsx:23-26 | a stored `null` next to a token restores an authenticated session without a user, with loading over |
| AuthContext.LogoutTwice | Frontend/src/context/AuthContext.jsx:91-96 | logging out twice leaves the same state as once |
| Login.PasswordCheck | Frontend/src/components/Auth/Login.jsx:27-31 | no message exactly when the password has at least six characters; "required" for an empty one, "at least 6" for one to five characters |
| Login.Validate | Frontend/src/components/Auth/Login.jsx:16-34 | messages only under `email` and `password`; empty exactly when the e-mail matches `\S+@\S+\.\S+` and the password has six or more characters; each key present exactly when its check fails, with that check's message |
| Login.ValidFormIsGranted | Frontend/src/components/Auth/Login.jsx:36-49 | a form that passes validation is always accepted by the mock service |
| Login.GeneralError | Frontend/src/components/Auth/Login.jsx:61 | the general message is the service's error when truthy, otherwise the fallback; never empty |
| Login.FieldName | Frontend/src/components/Auth/Login.jsx:71-74 | each input has its own `name`, and the mapping is one-to-one |
| Login.ClearedError | Frontend/src/components/Auth/Login.jsx:77-80 | typing blanks a pending message under that name and keeps every other message and the key set |
| Login.LoginForm.constructor | Frontend/src/components/Auth/Login.jsx:6-12 | empty inputs, unticked checkbox, no errors, not submitting |
| Login.LoginForm.HandleChange | Frontend/src/components/Auth/Login.jsx:70-81 | only the changed input takes the new value (the checkbox its flag) and its message is cleared |
| Login.LoginForm.HandleSubmit | Frontend/src/components/Auth/Login.jsx:36-68 | callable only while the submit button (line 167) is enabled (not submitting, session not loading); an invalid form shows exactly its validation messages, sends no request and leaves the whole session (user, flags, storage) as it was; a valid one sends exactly one login request; success writes the session (plus `rememberMe` when ticked) and navigates to `/home`; failure shows one general message and leaves user, authentication and storage alone; the inputs never change |
| Patterns.EmailPatternWindow | Frontend/src/components/Auth/Login.jsx:22 | `\S+@\S+\.\S+` matches somewhere exactly when there is an `@` after a non-blank character, then a non-empty non-blank run, a `.` and one more non-blank character |
| Patterns.EmailPatternSearches | Frontend/src/components/Auth/SignUp.jsx:44 | the test searches anywhere in the value, so "my mail b@c.in" passes, while "", "@b.in" and "a@b." fail |
| Patterns.SingleLinePassword | Frontend/src/components/Auth/SignUp.jsx:53 | on a value without line breaks, the three look-aheads hold exactly when a lowercase letter, an uppercase letter and a digit each occur |
| Patterns.PasswordClassesAcrossLines | Frontend/src/components/Auth/SignUp.jsx:53 | `.` does not cross line breaks, so "ab\nC1" fails the look-ahead test |
| Patterns.EmailCheck | Frontend/src/components/Auth/Login.jsx:20-24 | no message exactly when the pattern matches; "required" for an empty value, "valid address" for a non-empty value that does not match |
| Patterns.FiveChecks | Frontend/src/components/Auth/SignUp.jsx:31-70 | five checks recorded in order under distinct keys: the result is empty exactly when all pass, and each key is present exactly when its check fails, holding that check's message |
| SignUp.NameCheck | Frontend/src/components/Auth/SignUp.jsx:35-39 | no message exactly when the trimmed name has at least two characters; "required" when it trims to empty; "at least 2" for one character |
| SignUp.NameCheckIgnoresBlanks | Frontend/src/components/Auth/SignUp.jsx:35-37 | any white space before and after the name changes no verdict of the name rule |
| SignUp.PasswordCheck | Frontend/src/components/Auth/SignUp.jsx:49-55 | no message exactly when the password has eight or more characters and passes the look-ahead test; each earlier failing rule gives its own message |
| SignUp.PasswordRuleOnOneLine | Frontend/src/components/Auth/SignUp.jsx:49-55 | a one-line password passes exactly when it is long enough and holds a lowercase letter, an uppercase letter and a digit |
| SignUp.ConfirmCheck | Frontend/src/components/Auth/SignUp.jsx:58-62 | no message exactly when the confirmation is non-empty and equal to the password; otherwise "please confirm" or "do not match" |
| SignUp.TermsCheck | Frontend/src/components/Auth/SignUp.jsx:65-67 | no message exactly when the terms are accepted |
| SignUp.Validate | Frontend/src/components/Auth/SignUp.jsx:31-70 | messages only under the five field names; empty exactly when every rule accepts; each field's key is present exactly when its rule fails, holding that rule's message |
| SignUp.ValidFormIsGranted | Frontend/src/components/Auth/SignUp.jsx:72-85 | a form that passes validation is always accepted by the mock service |
| SignUp.GeneralError | Frontend/src/components/Auth/SignUp.jsx:93 | the general message is the service's error when truthy, otherwise the fallback; never empty |
| SignUp.FieldName | Frontend/src/components/Auth/SignUp.jsx:19-22 | each input has its own `name`, and the mapping is one-to-one |
| SignUp.Changed | Frontend/src/components/Auth/SignUp.jsx:18-23 | exactly the changed input takes the event's value, the checkbox its `checked` flag |
| SignUp.ChangeKeepsOtherVerdicts | Frontend/src/components/Auth/SignUp.jsx:18-23 | editing one input leaves the verdicts of the rules that do not read it unchanged |
| SignUp.SignUpForm.constructor | Frontend/src/components/Auth/SignUp.jsx:6-14 | empty inputs, unticked checkbox, no errors, not submitting |
| SignUp.SignUpForm.HandleChange | Frontend/src/components/Auth/SignUp.jsx:18-29 | the input changes, a truthy message under its name is blanked, every other message and the key set stay |
| SignUp.SignUpForm.HandleSubmit | Frontend/src/components/Auth/SignUp.jsx:72-100 | callable only while the submit button (line 251) is enabled, that is, not submitting and the session not loading; an invalid form shows exactly its messages and sends no request, with the loading flag untouched; a valid one sends exactly one signup request with the untrimmed name; success navigates to `/login` without signing in; failure shows one general message; submitting ends |
| LearningModule.AllLessonsFacts | Frontend/src/components/LearningModule.jsx:16-83 | the catalogue holds six lessons with distinct ids, none completed, from `basic-1` to `adv-1` |
| LearningModule.LoadLessons | Frontend/src/components/LearningModule.jsx:100-107 | the catalogue flattened in category order; each lesson's `completed` flag is set in place to whether the signed-in user lists its id; without a user no flag changes |
| LearningModule.FilteredLessons | Frontend/src/components/LearningModule.jsx:114-119 | a lesson is shown exactly when it is in the list, in the selected category (or "all"), and its lower-cased title or description contains the lower-cased term |
| LearningModule.ShowAll | Frontend/src/components/LearningModule.jsx:114-119 | category "all" with an empty search shows the whole list unchanged |
| LearningModule.EmptySearchMatches | Frontend/src/components/LearningModule.jsx:116-117 | the empty search term matches every lesson |
| LearningModule.BasicsShown | Frontend/src/components/LearningModule.jsx:11 | with the default category every basics lesson passes the filter |
| LearningModule.OthersHidden | Frontend/src/components/LearningModule.jsx:11 | with the default category no intermediate or advanced lesson passes |
| LearningModule.DefaultView | Frontend/src/components/LearningModule.jsx:11-12 | the first view of the catalogue shows exactly the three basics lessons, in order |
| LearningModule.ToLowerIdempotent | Frontend/src/components/LearningModule.jsx:116-117 | lower-casing twice equals lower-casing once |
| LearningModule.SearchIgnoresCase | Frontend/src/components/LearningModule.jsx:116-117 | searching for a term or its lower-cased form shows the same lessons |
| LearningModule.CompletedCount | Frontend/src/components/LearningModule.jsx:132 | the count is at most the number of lessons, and equals it exactly when every lesson is completed |
| LearningModule.MarkCompleted | Frontend/src/components/LearningModule.jsx:127-129 | same length; every lesson with the id is flagged completed; every other field and lesson is unchanged |
| LearningModule.CountAfterMark | Frontend/src/components/LearningModule.jsx:127-132 | with distinct ids, completing a pending lesson adds one to the completed count, and completing a done or unknown lesson adds nothing |
| LearningModule.CompletionProgress | Frontend/src/components/LearningModule.jsx:132-133 | the reported value is `Math.round` of 100·(completed+1)/n, given as its defining bounds |
| LearningModule.PendingProgressIsShare | Frontend/src/components/LearningModule.jsx:125-134 | for a pending lesson the reported value is the rounded share of completed lessons after the click, between 0 and 100 |
| LearningModule.RepeatedCompletionOvershoots | Frontend/src/components/LearningModule.jsx:132-133 | completing a lesson again when all six are done reports 117, because the count is not guarded |
| LearningModule.GetDifficultyColor | Frontend/src/components/LearningModule.jsx:139-146 | each of the three levels has its own colour, and exactly the other values get grey |
| LearningModule.CatalogueColoured | Frontend/src/components/LearningModule.jsx:139-146 | no catalogue lesson gets the grey fallback |
| LearningModule.LearningPage.constructor | Frontend/src/components/LearningModule.jsx:9-13 | no lessons, no current lesson, category "basics", empty search, loading |
| LearningModule.LearningPage.Open | Frontend/src/components/LearningModule.jsx:85-112 | an unauthenticated visitor is sent to `/login` and the page keeps loading; otherwise the marked catalogue is loaded and loading ends |
| LearningModule.LearningPage.StartLesson | Frontend/src/components/LearningModule.jsx:121-123 | the lesson becomes current and nothing else changes |
| LearningModule.LearningPage.SelectCategory | Frontend/src/components/LearningModule.jsx:11 | only the category changes |
| LearningModule.LearningPage.SetSearchTerm | Frontend/src/components/LearningModule.jsx:12 | only the search term changes |
| LearningModule.LearningPage.CompleteLesson | Frontend/src/components/LearningModule.jsx:125-137 | the lessons become `MarkCompleted`; the session's `updateProgress` receives the progress computed from the lessons before the click; the lesson view closes |
| UserDashboard.CompletedOf | Frontend/src/components/UserDashboard.jsx:31 | the user's completed-lesson count, 0 without a user |
| UserDashboard.LoadUserStats | Frontend/src/components/UserDashboard.jsx:29-40 | 75 lessons, a 7-day streak, 240 minutes, the user's completed count; four achievements numbered 1-4: the first two earned, the third exactly when ten or more lessons are completed, the fourth never |
| UserDashboard.BadgeCount | Frontend/src/components/UserDashboard.jsx:148 | the number of earned badges is at most the number of achievements |
| UserDashboard.BadgesShown | Frontend/src/components/UserDashboard.jsx:148 | the dashboard shows three badges when ten or more lessons are completed, otherwise two |
| UserDashboard.ProgressPercentage | Frontend/src/components/UserDashboard.jsx:60-62 | 0 without lessons; otherwise `Math.round` of the completed share as its defining bounds, within 0..100 when completed ≤ total |
| UserDashboard.DemoProgress | Frontend/src/components/UserDashboard.jsx:60-62 | the demo account's two lessons out of 75 show as 3%; the unloaded statistics show 0% |
| UserDashboard.JsRemainder | Frontend/src/components/UserDashboard.jsx:66 | JavaScript's `%`: the mathematical remainder for a non-negative dividend, negated for a negative one |
| UserDashboard.FormatTime | Frontend/src/components/UserDashboard.jsx:64-68 | from 60 minutes on, the label is "<minutes / 60>h <minutes mod 60>m"; below 60 it is "<minutes>m"; a negative duration shows only its truncated remainder, "-<|minutes| mod 60>m"; every label ends in "m" |
| UserDashboard.FormatTimeRoundTrip | Frontend/src/components/UserDashboard.jsx:64-68 | every non-negative duration's label reads back as that duration, so distinct durations get distinct labels |
| UserDashboard.HoursLabelParses | Frontend/src/components/UserDashboard.jsx:67 | a "<h>h <m>m" label with h > 0 reads back as 60·h + m |
| UserDashboard.MinutesLabelRoundTrip | Frontend/src/components/UserDashboard.jsx:67 | a duration under an hour is labelled "<m>m" and reads back |
| UserDashboard.FormatTimeExamples | Frontend/src/components/UserDashboard.jsx:64-68 | 240 shows as "4h 0m", 45 as "45m", and -90 as "-30m" (floored hours, truncating remainder) |
| UserDashboard.GetActivityIcon | Frontend/src/components/UserDashboard.jsx:70-77 | each of the three activity types has its own icon, and exactly the other types get the fallback |
| UserDashboard.RecentActivityIcons | Frontend/src/components/UserDashboard.jsx:45-52 | every activity in the fixed list gets its own icon, not the fallback |
| UserDashboard.Dashboard.constructor | Frontend/src/components/UserDashboard.jsx:8-15 | zeroed statistics and no activity |
| UserDashboard.Dashboard.Open | Frontend/src/components/UserDashboard.jsx:17-25 | an unauthenticated visitor is sent to `/login` with nothing loaded; otherwise the statistics and the activity list load |
| UserDashboard.Dashboard.HandleLogout | Frontend/src/components/UserDashboard.jsx:55-58 | the session ends (both entries removed) and the visitor goes to `/` |
| ResourcesPage.Visible | Frontend/src/components/ResourcesPage.jsx:118-141 | a resource is shown exactly when it is in the list and passes every active control: the search (title, description or a tag, ignoring ASCII case), the category and the level |
| ResourcesPage.FilterResources | Frontend/src/components/ResourcesPage.jsx:118-141 | the up-to-three successive filter passes, each skipped for a control that imposes nothing, give the one-pass filter by all three tests |
| ResourcesPage.EmptyTermMatches | Frontend/src/components/ResourcesPage.jsx:122 | the empty term matches every resource, so skipping the search pass for it changes nothing |
| ResourcesPage.ClearedShowsAll | Frontend/src/components/ResourcesPage.jsx:334-338 | with every control cleared all resources are shown, in order |
| ResourcesPage.NarrowingHides | Frontend/src/components/ResourcesPage.jsx:130-138 | choosing a category or a level only hides resources |
| ResourcesPage.DictionaryCategory | Frontend/src/components/ResourcesPage.jsx:14-99 | the dictionary category shows exactly the first resource |
| ResourcesPage.TagsShown | Frontend/src/components/ResourcesPage.jsx:301 | a card shows the first three tags, or all of them when there are fewer |
| ResourcesPage.GetResourceIcon | Frontend/src/components/ResourcesPage.jsx:149-157 | each of the four resource types has its own icon, and exactly the other types get the fallback |
| ResourcesPage.GetDifficultyColor | Frontend/src/components/ResourcesPage.jsx:159-166 | each of the three lower-case levels has its own colour, and exactly the other values get grey |
| ResourcesPage.MockResourcesLabelled | Frontend/src/components/ResourcesPage.jsx:14-99 | every listed resource gets its own icon and a coloured level |
| ResourcesPage.ResourcesView.constructor | Frontend/src/components/ResourcesPage.jsx:6-11 | nothing loaded, no search text, both selects on "all", loading |
| ResourcesPage.ResourcesView.LoadResources | Frontend/src/components/ResourcesPage.jsx:101-116 | the fixed list is loaded, loading ends, and the shown list is the current filter of it |
| ResourcesPage.ResourcesView.SetSearchTerm | Frontend/src/components/ResourcesPage.jsx:105-107 | only the search text changes, and the shown list is refiltered |
| ResourcesPage.ResourcesView.SetCategory | Frontend/src/components/ResourcesPage.jsx:105-107 | only the category changes, and the shown list is refiltered |
| ResourcesPage.ResourcesView.SetDifficulty | Frontend/src/components/ResourcesPage.jsx:105-107 | only the level changes, and the shown list is refiltered |
| ResourcesPage.ResourcesView.ClearFilters | Frontend/src/components/ResourcesPage.jsx:334-338 | all three controls are reset and every loaded resource is shown again |
| Responsive.ThresholdsIncrease | Frontend/src/utils/responsive.js:5-12 | the six thresholds strictly increase along the table, and the names are distinct |
| Responsive.Threshold | Frontend/src/utils/responsive.js:5-12 | a key has a threshold exactly when it names a breakpoint, and then it is that breakpoint's minimum width |
| Responsive.UseBreakpoint | Frontend/src/utils/responsive.js:39-42 | true exactly when the key names a breakpoint whose threshold the width reaches; an unknown key gives false (a comparison with `undefined`) |
| Responsive.UseBreakpointMonotone | Frontend/src/utils/responsive.js:39-42 | a wider window reaches every breakpoint a narrower one reaches |
| Responsive.CurrentBreakpoint | Frontend/src/utils/responsive.js:45-55 | the largest breakpoint whose threshold the width reaches, and "xs" exactly for widths below 640, including those below 475 |
| Responsive.CurrentBreakpointMonotone | Frontend/src/utils/responsive.js:45-55 | the current breakpoint never falls as the window widens |
| Responsive.ExactlyOneDevice | Frontend/src/utils/responsive.js:58-71 | mobile is below 768, tablet 768 to 1023, desktop 1024 and up; every width is exactly one of them |
| Responsive.ResponsiveClassesAppend | Frontend/src/utils/responsive.js:117-124 | the entries keep their order: splitting a configuration splits its class string at one space |
| Responsive.ResponsiveClassesSingle | Frontend/src/utils/responsive.js:119-122 | a single entry gives its classes, under the `<breakpoint>:` prefix unless it is "base" |
| Responsive.ResponsiveClassesExample | Frontend/src/utils/responsive.js:117-124 | `{ base: "p-2", md: "p-4" }` gives "p-2 md:p-4" |
| Responsive.GetContainerMaxWidth | Frontend/src/utils/responsive.js:127-136 | sm to 2xl give `max-w-screen-<key>`; exactly "xs" and the unknown keys give `max-w-full` |
| Responsive.WithDefaults | Frontend/src/utils/responsive.js:140-146 | every key gets a value: a given one is kept and an omitted one takes the helper's default |
| Responsive.TextLadderDefaults | Frontend/src/utils/responsive.js:139-149 | for each of xs, sm, md, lg and xl, leaving the size out gives the same classes as passing its default (text-sm, text-base, text-lg, text-xl, text-2xl) |
| Responsive.SpacingLadderDefaults | Frontend/src/utils/responsive.js:152-162 | for each of xs, sm, md, lg and xl, leaving the spacing out gives the same classes as passing its default (p-2, p-4, p-6, p-8, p-10) |
| Responsive.GridLadderDefaults | Frontend/src/utils/responsive.js:165-175 | for each of xs, sm, md, lg and xl, leaving the column count out gives the same classes as passing its default (1, 1, 2, 3, 4) |
| Responsive.XsValueIsBase | Frontend/src/utils/responsive.js:148 | the xs value is emitted both unprefixed and under `xs:`, so it applies below 475 pixels too |
| Responsive.TextWithNothingGiven | Frontend/src/utils/responsive.js:139-149 | with nothing given, the text classes grow from text-sm to text-2xl |
| Responsive.GridWithNothingGiven | Frontend/src/utils/responsive.js:165-175 | with nothing given, the grid is one column up to sm, then two, three and four columns |
| Accessibility.GetValidationAria | Frontend/src/utils/accessibility.js:117-124 | no attributes exactly when there is no error; otherwise exactly `aria-invalid` = "true" and `aria-describedby` = "<fieldId>-error" |
| Accessibility.TrapReaction | Frontend/src/utils/accessibility.js:16-30 | the default is prevented exactly on Tab with Shift from the first element or without Shift from the last; then focus wraps to the other end; in every other case focus stays |
| Accessibility.TrapKeepsFocusInside | Frontend/src/utils/accessibility.js:16-33 | with the trap active (browser Tab order assumed to follow the elements), Tab and Shift+Tab cycle through the elements modulo their number and never leave them |
| Accessibility.WithoutTrapFocusEscapes | Frontend/src/utils/accessibility.js:20-28 | without the handler's wrap, Tab from the last element and Shift+Tab from the first leave the elements |
| Accessibility.Dispatch | Frontend/src/utils/accessibility.js:44-52 | Enter calls `onEnter` exactly when given, Escape calls `onEscape` exactly when given, any other key does nothing |
| Accessibility.Document.constructor | Frontend/src/utils/accessibility.js:9-14 | `count` focusable elements, none focused, no saved focus |
| Accessibility.Document.ActivateTrap | Frontend/src/utils/accessibility.js:33 | activating the trap focuses the first element when there is one |
| Accessibility.Document.HandleTabKey | Frontend/src/utils/accessibility.js:16-30 | the new focus and the prevented flag are exactly `TrapReaction`; the saved focus is untouched |
| Accessibility.Document.Save | Frontend/src/utils/accessibility.js:139-141 | the focused element is remembered and focus does not move |
| Accessibility.Document.Restore | Frontend/src/utils/accessibility.js:144-148 | focus returns to the remembered element when `save` ran before, and otherwise stays |
| Accessibility.SaveTrapRestore | Frontend/src/utils/accessibility.js:137-148 | saving, pressing a key in the trap and restoring leaves focus where it was |
| Accessibility.InputId | Frontend/src/utils/accessibility.js:229 | the given id when non-empty, otherwise `input-` and the random suffix |
| Accessibility.AriaInvalid | Frontend/src/utils/accessibility.js:252 | "true" exactly when there is an error, "false" exactly when there is none |
| Accessibility.DescribedByCases | Frontend/src/utils/accessibility.js:243-251 | `aria-describedby` is empty, the description's id, the error's id, or both in that order, one space apart |
| Accessibility.InputAgreesWithValidationAria | Frontend/src/utils/accessibility.js:117-124 | an input with an error and no description carries the same two attributes that `getValidationAria` gives |
| Accessibility.HexValue | Frontend/src/utils/accessibility.js:272 | the value of k hexadecimal digits is below 16^k |
| Accessibility.ParseInt16 | Frontend/src/utils/accessibility.js:272 | `parseInt(s, 16)` of a non-empty string of hexadecimal digits is its value |
| Accessibility.ToInt32 | Frontend/src/utils/accessibility.js:273-275 | the 32-bit signed conversion `>>` applies: the result is within range, equal to the value when in range, congruent to it modulo 2^32, and 0 for NaN |
| Accessibility.Channels | Frontend/src/utils/accessibility.js:273-275 | each channel is between 0 and 255 |
| Accessibility.ChannelsRecombine | Frontend/src/utils/accessibility.js:272-275 | a 24-bit value splits into three channels that recombine to it |
| Accessibility.SixDigitColour | Frontend/src/utils/accessibility.js:272-275 | a `#rrggbb` colour parses to a 24-bit value whose channels recombine to it |
| Accessibility.ShortColourIsNotExpanded | Frontend/src/utils/accessibility.js:272-275 | "#fff" is read as 0xfff, not expanded: red 0, green 15, blue 255 |
| Accessibility.ContrastVerdict | Frontend/src/utils/accessibility.js:289-293 | the ratio is returned unchanged; AA holds exactly from 4.5 and AAA exactly from 7 |
| Accessibility.AAAImpliesAA | Frontend/src/utils/accessibility.js:291-292 | passing AAA implies passing AA; a ratio from 4.5 up to 7 passes AA only |
| CaptureLandmarks.PartList | capture_landmarks.py:20-24 | a missing part gives n zeros; a detected part gives its coordinates, three per point |
| CaptureLandmarks.Flatten | capture_landmarks.py:22 | three entries per point, x, y and z of point i at 3i, 3i+1 and 3i+2 |
| CaptureLandmarks.LandmarksToList | capture_landmarks.py:18-29 | the vector's length is the sum of the four parts' lengths (left hand, right hand, pose, face) |
| CaptureLandmarks.FeatureLayout | capture_landmarks.py:19-29 | with 21, 21, 33 and 468 points the vector has 1629 entries, and the parts occupy 0..63, 63..126, 126..225 and 225..1629 |
| CaptureLandmarks.NothingDetected | capture_landmarks.py:20-29 | a frame where nothing was detected is 1629 zeros |
| CaptureLandmarks.LeftHandFirst | capture_landmarks.py:25-29 | the first left-hand point's x, y and z open the vector |
| CaptureLandmarks.EscapeCodes | capture_landmarks.py:65 | no key (-1) is not Escape; 27, and any code whose low byte is 27, is |
| CaptureLandmarks.Collected | capture_landmarks.py:47-66 | the loop collects at most one frame per pass |
| CaptureLandmarks.CollectedFrames | capture_landmarks.py:47-55 | frame k comes from the k-th pass, whose read succeeded within the duration, and holds that pass's time and feature vector |
| CaptureLandmarks.NoTimeNoFrames | capture_landmarks.py:47 | a duration already over at the first test collects nothing |
| CaptureLandmarks.EscapeOnFirstFrame | capture_landmarks.py:57-66 | with the preview on, Escape on the first frame ends the recording with that one frame stored |
| CaptureLandmarks.KeysIgnoredWithoutPreview | capture_landmarks.py:57-66 | without the preview the keyboard is never read, so the frames do not depend on it |
| CaptureLandmarks.PathJoin | capture_landmarks.py:37 | an absolute second part replaces the first; otherwise the parts are joined with one `/` |
| CaptureLandmarks.ClipPathShape | capture_landmarks.py:37-77 | for a relative sign and an output folder without a trailing slash the clip is `<out>/<sign>/<sign>_<timestamp>.json` |
| CaptureLandmarks.Capture | capture_landmarks.py:45-66 | the loop's frames are exactly `Collected` over the passes |
| CaptureLandmarks.Record | capture_landmarks.py:35-87 | fewer than two frames saves nothing; otherwise the clip path and the payload (label, timestamp, frame count, frames) for the collected frames |
| Text.Trim | Frontend/src/components/Auth/SignUp.jsx:35 | `trim()`: the result has no white space at either end and is an infix of the input with only white space around it |
| Text.TrimIdempotent | Frontend/src/components/Auth/SignUp.jsx:37 | trimming a trimmed name changes nothing |
| Text.ToLower | Frontend/src/components/LearningModule.jsx:116 | `toLowerCase()` on ASCII: same length, each upper-case letter mapped to lower case, every other character kept |
| Text.ParseNatToString | Frontend/src/components/UserDashboard.jsx:67 | the decimal rendering of a number in a template literal reads back as that number |
| Text.IntToString | Frontend/src/components/UserDashboard.jsx:67 | a non-negative number renders as its digits; a negative one as "-" and the digits of its magnitude |
| Numbers.RoundPercent | Frontend/src/components/LearningModule.jsx:133 | `Math.round(part / whole * 100)` as its defining bounds (halves rounded up), between 0 and 100 when 0 ≤ part ≤ whole |
| Seqs.Filter | Frontend/src/components/ResourcesPage.jsx:123-137 | `Array.prototype.filter`: no longer than the input, and keeps exactly the elements that pass |
| Seqs.FilterFilter | Frontend/src/components/ResourcesPage.jsx:118-138 | filtering twice in a row equals filtering once by both tests |
| Seqs.FilterAppend | Frontend/src/components/LearningModule.jsx:100-119 | filtering a concatenation filters each part and keeps their order |

## Left out

- LearningModule.LearningPage.CompleteLesson: requires a non-empty lesson list. With none loaded, the source divides by zero and reports a non-finite progress, which the integer model does not represent.
- Accessibility.ParseInt16: its contract covers only a non-empty all-digit string, which is what `checkContrast` passes for a well-formed colour. The sign, `0x` prefix and partial-digit branches are in the body but not stated.
- Accessibility.TrapKeepsFocusInside: it assumes that the browser's own Tab move follows the trap's elements in document order (`DefaultTab`). The browser's tab order is not part of the source.
- Accessibility.ParseInt16: it does not model double precision. `parseInt` of more than 13 hexadecimal digits loses precision in JavaScript, and the model's integers are exact.
- CaptureLandmarks.FeatureLayout: it assumes the part sizes in the source's comment (21, 21, 33 and 468 points). With refined face landmarks, the detector may report more face points, and then only the general length rule of `LandmarksToList` applies.
- Numbers.RoundPercent: it rounds the exact rational percentage. Floating-point error right at a half is not modelled.
- Browser hooks that only read the window or the device are left out: `useScreenSize`, `useIsTouchDevice` and `useSafeArea`. The width they provide is the parameter `width`.
- React state as seen through stale closures or batched updates is not modelled. Effects are modelled as running right after the change that triggers them, and the resize and keydown listeners and their removal are left out.
- `getResponsiveClasses` receives its configuration as an ordered list of pairs. JavaScript's reordering of integer-like object keys is not modelled.
- The luminance computation of `checkContrast` is left out, because it is floating point and uses `Math.pow`. `ContrastVerdict` takes the ratio as given.
- `useScreenReader`, `useReducedMotion`, `useHighContrast`, `SkipLink`, `LiveRegion` and `AccessibleButton` are left out. They render markup or read media queries and make no decision.
- `manageFocus.first` depends on a DOM query and is left out.
- The `AccessibleInput` id suffix from `Math.random()` is the parameter `randomSuffix`.
- In the recorder, these are left out, because they are I/O or foreign libraries:
  - the camera, MediaPipe and the preview drawing and window;
  - `ensure_dir`;
  - the JSON file write and `print`;
  - the command-line entry point.
  `Record` returns the path and the payload that would be written.
- `JSON.stringify` and `JSON.parse` of the user record are modelled by storing the record itself (`Entry.UserRecord`). `JSON.parse` of any other stored text is the parameter `jsonParse`, which says whether the text is rejected, is `null`, or is some other value. Storage write failures are not modelled.
- AuthContext.AuthProvider.Restore: a stored text that parses to a value other than `null` and the app's own record (such as `{}` or `42`) is kept as "authenticated with no user". The source keeps that value as its user, and a later `updateProgress` on it would throw. The model's user is a record or nothing, so it does not represent that value.
- The mock service's one-second delay and the pages' loading timers are modelled as immediate.
- `useAuth` outside a provider, which throws, is not modelled.
- String lengths count characters, not UTF-16 code units, so a name or password with characters outside the Basic Multilingual Plane is measured differently.
- `toLowerCase` is limited to ASCII letters.
- The change handlers take the form's own inputs as a `Field` value. Events naming other inputs are not modelled.
- The forms' `catch` of an unexpected error is not modelled: it is unreachable, because `login` and `signup` never throw.
- `alert`, `console.log` and the rendered markup are left out. `navigate` is the returned path.
- The loading-spinner renders are left out.
