# EduPlan data layer in Dafny

A model of the data layer of `EduPlanApp` (`script.js`), a browser-local study
planner. It covers five parts:

- **Account registry** (`Accounts`, `App.EduPlanApp.Signup/Login/Logout`).
  Sign-up checks the username first and the email second, and it refuses a
  duplicate of either. Otherwise it appends exactly one record with the default
  preferences (theme `"light"`, notifications on). Log-in picks the first
  account whose username or email equals the identifier and whose password is
  equal.
- **Browser store** (`Storage`). localStorage is a `map<string, Stored>`. Its
  keys are `"users"` and `"currentUser"`, plus `"tasks_<id>"` and
  `"sessions_<id>"` for each account. A missing key reads as an empty list,
  as `|| '[]'` and the `userTasks ? … : []` fallbacks do.
- **Per-account task list** (`App.EduPlanApp.LoadUserData/SaveUserData/AddTask`).
  The in-memory list and the session log are fields of the application object.
  Saving overwrites both whole collections under the signed-in account's keys.
- **Dashboard statistics** (`Statistics`). These are counts over the task list:
  completed, pending, due today, and per status. They also include the
  productivity percentage and the total study time.
- **Countdown timer** (`Countdown`, `App.Timer`, `App.EduPlanApp.SetupTimer/StartTimer/TimerTick`).
  The timer is a state machine over `duration`, `remaining` and `isRunning`.
  Each call of `TimerTick` stands for one run of the one-second interval
  callback.

Values the program takes from the clock are parameters: the `Date.now()` ids,
the ISO timestamps and today's date. Deadlines are abstract calendar dates
`Date(year, month, day)`.

Three behaviours of the code that the model keeps:

- Sign-up and log-in report success as a boolean. The reason for a refusal
  is `Accounts.CheckSignup`'s result; the code shows it only as a
  notification.
- Nothing clears the timer's interval, so `isRunning` stays true and
  `remaining` goes on below zero; every tick from the 1500th on signals
  completion. After exactly 1500 ticks, completion has been signalled once
  (`Countdown.StartedTimerCompletes`).
- The log-in identifier is compared with usernames and emails alike. So after a
  successful sign-up, log-in with the new username can select an older account
  whose email is that string (`Accounts.LoginCanSelectEarlierAccount`).

`loadUserData`, `saveUserData` and `addTask` read `this.currentUser.id`, which
throws a TypeError when nobody is signed in (the task form can be submitted
then). The three methods model that path: they return `ok == false` and change
nothing.

## Model

| member | source | states |
|---|---|---|
| `Storage.KeysAreDistinct` | script.js:110-119 | the per-account task and session keys never equal each other, `"users"` or `"currentUser"`, and each is one-to-one in the account id |
| `Storage.SaveCollections` | script.js:117-120 | after saving, the account's stored tasks and sessions are exactly the given lists; the registry, the remembered session and every other account's collections are unchanged |
| `Accounts.FirstIndex` | script.js:36-38 | `find`: the result is the index of the first accepted record, and it is absent exactly when no record is accepted |
| `Accounts.Authenticate` | script.js:35-38 | log-in finds an account iff some stored account has the identifier as username or email and has the same password; what it finds is the first such account |
| `Accounts.CheckSignup` | script.js:53-63 | the result is a duplicate-username refusal iff the username is taken; it is a duplicate-email refusal iff the username is free and the email is taken; it is a pass iff both are free |
| `Accounts.SignupKeepsAccountsDistinct` | script.js:52-81 | if usernames and emails were pairwise distinct, they stay distinct after an accepted sign-up appends its record |
| `Accounts.AuthenticateAfterAppend` | script.js:36-38 | with one more account at the end, log-in returns the earlier match if there is one; otherwise it returns the new account if it matches, and nothing if it does not |
| `Accounts.SignupThenLogin` | script.js:52-81 | after an accepted sign-up, log-in with the new username or the new email and the new password succeeds |
| `Accounts.LoginCanSelectEarlierAccount` | script.js:36-38 | a concrete registry in which sign-up of "bob" passes, yet log-in as "bob" selects the older account whose email is "bob" |
| `Statistics.Filter` | script.js:163-173 | `filter`: the result is no longer than the input, holds only accepted tasks of the input, and holds every accepted task |
| `Statistics.FilterMultiplicity` | script.js:163-173 | `filter` keeps every accepted task as many times as it occurs in the input and drops every other one |
| `Statistics.FilterCountsPositions` | script.js:163-173 | the length of a filtered list is the number of positions of the input whose task is accepted |
| `Statistics.IsToday` | script.js:346-351 | a date is today iff its day, month and year equal today's |
| `Statistics.FilterComplement` | script.js:162-164 | completed plus pending is the total: two complementary filters together count every task once |
| `Statistics.FilterStricter` | script.js:164-167 | a stricter filter keeps no more tasks; this gives due-today <= pending |
| `Statistics.FilterDisjoint` | script.js:171-173 | the "todo", "progress" and "review" counts together are at most the total |
| `Statistics.Productivity` | script.js:177 | the result is 0 for no tasks; otherwise it is the nearest integer to 100*completed/total with halves rounded up; it is at most 100, is 100 when all tasks are done, and is 0 when none is |
| `Statistics.TotalDuration` | script.js:181 | `reduce` from 0: the sum is 0 for an empty log, the one duration for a one-session log, and non-negative when every duration is |
| `Statistics.TotalDurationConcat` | script.js:181 | the sum over two logs joined is the sum of their sums |
| `Statistics.UpdateStats` | script.js:161-186 | the dashboard figures: the total is the number of tasks; each of completed, pending, due today, "todo", "progress" and "review" is the number of positions whose task is of that kind; study time is the sum of the session durations; productivity is `Productivity` of completed and total |
| `Statistics.StatsCountIdentities` | script.js:162-173 | completed + pending = total; due-today <= pending; the three status counts sum to at most the total |
| `Statistics.StatsProductivity` | script.js:177 | the dashboard productivity is at most 100, is 0 for no tasks, and is 100*completed/total rounded half up |
| `Statistics.CompletedNeverDueToday` | script.js:165-167 | every task counted as due today is pending and has today's date as its deadline |
| `Statistics.StatsAfterNewTask` | script.js:122-141 | after a new pending "todo" task is appended, the total, pending and "todo" counts rise by one and the completed count is unchanged |
| `Countdown.Start` | script.js:198-200 | starting a running timer changes nothing; otherwise the timer becomes running with its time unchanged |
| `Countdown.Tick` | script.js:201-208 | a tick takes exactly one second off and signals completion iff the time left afterwards is at most zero |
| `Countdown.RunTakesSeconds` | script.js:201-202 | after n ticks, n seconds have gone and nothing else has changed |
| `Countdown.CompletionsCount` | script.js:201-208 | with r >= 1 seconds left, the first r-1 ticks are silent and each later tick signals completion |
| `Countdown.CompletionsWhenExpired` | script.js:205-207 | once no time is left, every tick signals completion |
| `Countdown.StartedTimerCompletes` | script.js:189-208 | from the set-up state (1500 s, not running), a started timer reaches 0 after 1500 ticks; completion is first signalled on tick 1500 and again on every later tick |
| `App.Timer.constructor` | script.js:189-196 | a new timer has 1500 seconds as duration and time left, and is not running |
| `App.EduPlanApp.constructor` | script.js:16-31 | start-up restores the remembered session, if one is saved, with that account's collections; otherwise the lists are empty; the timer is set up |
| `App.EduPlanApp.LoadUserData` | script.js:109-115 | with an account signed in, the in-memory lists become its stored collections, empty where none is saved; with none, the TypeError path changes nothing |
| `App.EduPlanApp.SaveUserData` | script.js:117-120 | with an account signed in, the store becomes the old store with both of its collections overwritten by the in-memory lists; with none, the store is unchanged; the registry is never touched |
| `App.EduPlanApp.Login` | script.js:33-50 | success iff a stored account matches; on success the first match is signed in and remembered, and its collections are loaded; on failure nothing changes |
| `App.EduPlanApp.Signup` | script.js:52-85 | accepted iff username and email are both free; a refusal changes nothing; acceptance appends exactly one record, signs it in and remembers it; distinct usernames and emails stay distinct; the new credentials then log in |
| `App.EduPlanApp.Logout` | script.js:87-92 | no account is signed in, the remembered session is removed, and the registry is unchanged |
| `App.EduPlanApp.AddTask` | script.js:122-143 | with an account signed in, appends exactly one task and leaves earlier tasks in place; the new task has status "todo", is not completed, has no completion time and belongs to that account; the saved list equals the in-memory list; with none, nothing changes |
| `App.EduPlanApp.SetupTimer` | script.js:189-196 | the timer is replaced by a fresh one in the set-up state |
| `App.EduPlanApp.StartTimer` | script.js:198-210 | the timer state becomes `Countdown.Start` of the old state: a no-op when already running |
| `App.EduPlanApp.TimerTick` | script.js:201-208 | the timer state and the completion signal are `Countdown.Tick` of the old state |
| `App.RegistrationScenario` | script.js:52-143 | registering "alice" succeeds; registering "alice" again with another email is refused; logging in as "alice" succeeds; an added task is then the one pending "todo" task |

## Left out

- The DOM and the UI are left out because they carry no data contract. This covers screen switching, the greeting, the random quote, notifications, form handlers, tab and section switching, and the injected CSS.
- The form handlers' checks are left out with the rest of the DOM glue. These are the password confirmation and the non-empty title, subject and deadline checks for a task.
- `renderTasks`, `openQuickTaskModal`, `openTimerModal`, `updateTimerDisplay`, `completeTimer` and `setupDashboard` only log or call other members, so they are left out. Completion of the timer is the boolean that `TimerTick` returns.
- JSON serialisation is left out: the store holds parsed values. A key that holds a value of another shape reads as empty.
- Date parsing is left out. Deadlines are already calendar dates, so `new Date(string)`, its UTC-versus-local-time shift and invalid dates are not modelled.
- `Statistics.Productivity`: the result is exact rational rounding, `(200*K + N) / (2*N)`. IEEE-754 rounding of `K / N * 100` before `Math.round` is not modelled.
- The study-time text (`toFixed(1)` of the total divided by 60) and the `"<completed>/5"` goals label are string formatting, so they are left out. Only the integer sum of durations is modelled.
- Study sessions keep only `duration`, the one field the code reads. Nothing in this code creates a session.
- The interval handle and `setInterval` scheduling are left out. Each tick is an explicit `TimerTick` call, and only a started timer is ticked.
- The TypeError thrown by `loadUserData`, `saveUserData` and `addTask` with nobody signed in is the result `ok == false` with nothing changed; its propagation to the form handler is not modelled.
- Ids and timestamps come from the caller. The model does not assume they are fresh. A sign-up whose id equals an existing account's id loads that account's saved collections, as the code would.

