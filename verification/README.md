# Work-time launcher: time accounting and project catalog in Dafny

This project models the core of a desktop launcher. The launcher keeps a catalog
of software projects (name and path), opens them in Visual Studio Code, and
shows how long the user has worked.

The model covers two processes.

- **Renderer process** (`src/renderer.ts`). It holds the module-level
  `projects` list. It loads the list from local storage and fills in default
  values. It adds a project after trimming the name and path, deletes projects
  by path, and merges timer-update payloads into the first project with a
  matching path. It also defines `getRecentTwoWeeksPlayTime`, a trailing
  two-week total over a project's `dailyTimes` day buckets. Nothing in the file
  calls it: the two-week figure it displays is the `twoWeeksTimes` value that
  arrives in the update payload.
- **Main process** (`src/main.ts`). It holds a single global `timerState.seconds`,
  persisted in `timer.json`. Loading is fail-soft. A one-second interval counts a
  second and saves only while the editor process is detected, and every tick
  notifies the window. `startTimer` and `stopTimer` manage the interval.
  `getCodePath` picks the editor executable from `which code` and a fixed
  fallback list.

Modules:

- `Wrappers` (`wrappers.dfy`): `Option`.
- `JsText` (`js_text.dfy`): ECMAScript `String.prototype.trim`.
- `DailyTimes` (`daily_times.dfy`): day buckets and the trailing-window sum, with
  its properties.
- `Renderer` (`renderer.dfy`): project records, `loadProjects`, the add, delete
  and update handlers, and the `Catalog` class for the module-level list.
- `MainProcess` (`main_process.dfy`): the timer record and its file, the state
  machine of ticks, starts, stops and window events as pure step functions, the
  `TimerProcess` class whose handlers are proved to follow them, and
  `GetCodePath`.

Days are integers. The key conversion (`setDate` in local time, then
`toISOString().split("T")[0]`) is a function parameter `dateKey`. The key is the
UTC date of the current clock time moved to that local day. East of UTC, for part
of each day, the key for today is the previous calendar date, so which keys are
summed depends on the time of day of the call. The lemmas that need distinct days to have
distinct keys say so with `InjectiveKeys(dateKey)`. Reading the clock, `JSON.parse`,
`fs.existsSync`, the `ps`/`grep` command and the confirmation dialog are also
parameters (`today`, `parse`, `pathExists`, `ProbeResult`, `confirmed`).

Facts about the code that the model keeps:

- A bucket dated `D` is counted exactly when `today - 13 <= D <= today`
  (`TwoWeekWindowBounds`).
- `loadProjects` is not fail-soft. Non-empty text that `JSON.parse` rejects, or
  JSON that is not an array, raises an exception, modelled as `Corrupt`. That
  exception escapes `let projects = loadProjects()` at line 90 of
  `src/renderer.ts`, so the script stops and no handler is ever registered; the
  model's `Catalog` exists only when loading succeeded.
- `startTimer` has no guard. A second start schedules a second interval, and a
  later stop cancels only the newest one (`StartTwiceLeavesInterval`).
- There is no per-project timer in the main process. `dailyTimes` reaches the
  renderer only through the update payload.

## Model

| member | source | states |
|---|---|---|
| `JsText.Trim` | src/renderer.ts:112-113 | The trimmed string neither starts nor ends with white space, and it is empty exactly when the input is all white space. |
| `JsText.TrimInfix` | src/renderer.ts:112-113 | The trimmed string is an infix of the input with only white space on either side. |
| `JsText.TrimIdempotent` | src/renderer.ts:112-113 | Trimming twice gives the same result as trimming once. |
| `DailyTimes.WindowSumIsWindowTotal` | src/renderer.ts:202-207 | If distinct days have distinct keys, the window sum equals the total of exactly the buckets dated in the window: each is counted once and no other bucket is counted. |
| `DailyTimes.WindowIgnoresOutside` | src/renderer.ts:198-210 | Overwriting or removing a bucket whose key is outside the window leaves the window sum unchanged. |
| `DailyTimes.WindowMissingIsZero` | src/renderer.ts:206 | An absent key contributes exactly what a bucket holding 0 would. |
| `DailyTimes.WindowNonNegative` | src/renderer.ts:198-210 | If every bucket is non-negative, the window sum is non-negative. |
| `DailyTimes.WindowAtMostTotal` | src/renderer.ts:198-210 | If keys are distinct and buckets non-negative, the window sum lies between 0 and the total of all buckets. |
| `DailyTimes.WindowSingleBucket` | src/renderer.ts:202-207 | A single bucket dated `day` is counted in an `n`-day window exactly when `today - n < day <= today`. |
| `Renderer.RecentTwoWeeksPlayTime` | src/renderer.ts:198-210 | The loop returns the window sum of the project's buckets for today and the 13 days before it, and it only reads the project. The function has no caller in the file. |
| `Renderer.TwoWeekWindowBounds` | src/renderer.ts:202-207 | The two-week window includes today and the day 13 days back, and nothing earlier or later. |
| `Renderer.WithDefaults` | src/renderer.ts:22-26 | Name, path and `twoWeeksTimes` are kept. A missing `totalTime` becomes 0 and a missing `dailyTimes` becomes `{}`. Present values are kept. |
| `Renderer.WithDefaultsOfStored` | src/renderer.ts:13-26 | A record written by `saveProjects` gets no defaults, and filling in defaults twice is the same as once. |
| `Renderer.LoadProjects` | src/renderer.ts:18-27 | With nothing stored the result is `[]`. Text that does not parse is an error. Otherwise the length and order are kept, a missing `totalTime` becomes 0, a missing `dailyTimes` becomes `{}`, and every other field is unchanged. |
| `Renderer.LoadAfterSave` | src/renderer.ts:13-27 | Loading a saved list gives back the same list. |
| `Renderer.PrepareProject` | src/renderer.ts:111-122 | A project is accepted exactly when both inputs exist and neither is all white space. The new entry has the trimmed name and path, `totalTime` 0, empty `dailyTimes` and `twoWeeksTimes` 0. |
| `Renderer.Catalog.AddProject` | src/renderer.ts:103-137 | On acceptance, exactly that entry is appended and the list is saved. Otherwise the list and the store are unchanged. |
| `Renderer.FirstWithPath` | src/renderer.ts:162-164 | Returns the position of the first project with the path, and none exactly when no project has that path. |
| `Renderer.RemovePath` | src/renderer.ts:171-173 | No project with the path is left. A project is kept exactly when its path differs. |
| `Renderer.RemovePathConcat` | src/renderer.ts:171-173 | The filter distributes over concatenation, so the kept projects stay in their original order. |
| `Renderer.RemovePathNoMatch` | src/renderer.ts:171-173 | If no project has the path, the filter changes nothing. |
| `Renderer.Catalog.DeleteProject` | src/renderer.ts:155-180 | With no selection, no matching project, or a declined confirmation, the list and the store are unchanged, and each case is reported. Otherwise every project with the path is removed, order is kept, and the list is saved. |
| `Renderer.Merged` | src/renderer.ts:239-241 | The project takes the payload's `seconds` as `totalTime`, its `dailyTimes` and its `twoWeeksTimes`. Its name and path do not change. |
| `Renderer.MergeUpdate` | src/renderer.ts:236-244 | The length is kept. Only the first project with the payload's path takes the new `totalTime`, `dailyTimes` and `twoWeeksTimes`, and every other entry is unchanged. |
| `Renderer.MergeUpdateNoMatch` | src/renderer.ts:237-238 | An update for a path no project has leaves the list unchanged. |
| `Renderer.MergeUpdateIdempotent` | src/renderer.ts:236-244 | Delivering the same update twice has the same effect as delivering it once. |
| `Renderer.Catalog.OnTimerUpdate` | src/renderer.ts:234-246 | The list becomes `MergeUpdate` of the old list. It is saved exactly when some project has the path. |
| `Renderer.Catalog.constructor` | src/renderer.ts:90 | The catalog starts with the list `loadProjects` returns for the stored item, and nothing saved yet. |
| `Renderer.Catalog.SaveProjects` | src/renderer.ts:13-15 | The store holds the current list. |
| `MainProcess.NatText` | src/main.ts:151 | The decimal text of a number is non-empty, all digits, has no leading zero, and denotes the number. |
| `MainProcess.IntText` | src/main.ts:151 | The decimal text of an integer, with a minus sign when negative, denotes the integer. |
| `MainProcess.SerializeTimerState` | src/main.ts:150-152 | The saved text starts with `{`, so it is never blank. |
| `MainProcess.SerializeCarriesSeconds` | src/main.ts:150-152 | The saved text is `{"seconds":`, a decimal text that denotes the seconds, and `}`. |
| `MainProcess.SerializeInjective` | src/main.ts:150-152 | Different records are saved as different texts. |
| `MainProcess.LoadTimerState` | src/main.ts:154-172 | A missing file, a blank file or unparsable content gives `{seconds: 0}`. Otherwise the result is the parsed record. |
| `MainProcess.LoadAfterSave` | src/main.ts:150-172 | Loading the saved text gives back the saved record. |
| `MainProcess.Boot` | src/main.ts:174 | At start-up the timer is what `loadTimerState` returns for the file, the file is untouched, there is no window, nothing has been sent, nothing is scheduled and `intervalId` is unassigned. |
| `MainProcess.EditorRunning` | src/main.ts:139-144 | An erroring check means not running. A successful check means running exactly when it printed something. |
| `MainProcess.FailedProbeCountsNothing` | src/main.ts:139-144 | When the running check errors, the tick treats the editor as not running, so the seconds and the file are unchanged. |
| `MainProcess.ProbeOutputDecides` | src/main.ts:186-191 | A successful check with output makes the tick add one second and save it. With empty output the seconds and the file are unchanged. |
| `MainProcess.AfterStart` | src/main.ts:176-197 | A start adds a new interval and makes it `intervalId`. When handles are fresh the new handle is not already live, and handles stay fresh. With `initialCheck` and an open window the current seconds are sent, and otherwise nothing. The next handle moves on by one. The timer and the file are untouched. |
| `MainProcess.AfterStop` | src/main.ts:199-201 | A stop removes only the interval in `intervalId`, or nothing when it is unassigned. Nothing else changes, and handles stay fresh. |
| `MainProcess.AfterTick` | src/main.ts:186-196 | A tick adds one second exactly when the editor runs, and then saves the new seconds. An open window is sent the current seconds either way. The schedule and the window are untouched. |
| `MainProcess.TicksCountActive` | src/main.ts:186-191 | Over any run of ticks, the seconds rise by exactly the number of ticks that found the editor running. |
| `MainProcess.TicksPersist` | src/main.ts:188-191 | After any active tick the file holds the current seconds. With no active tick, neither the seconds nor the file change. |
| `MainProcess.TicksNotify` | src/main.ts:193-195 | Every tick sends the current seconds to an open window, whether or not the editor runs. Nothing is sent when no window is open. |
| `MainProcess.StopIdempotent` | src/main.ts:199-201 | Stopping twice is the same as stopping once, and a stop never changes the seconds, the file or the messages. |
| `MainProcess.StartTwiceLeavesInterval` | src/main.ts:176-197 | From any state, after two starts and one stop the first interval is still scheduled, so starting is not idempotent. |
| `MainProcess.StartThenStop` | src/main.ts:176-201 | When handles are never reused, a start followed by a stop leaves exactly the intervals that were live before. From a stopped state, nothing is scheduled. |
| `MainProcess.CountRunningAll` | src/main.ts:187-189 | If every check reports a running editor, all ticks are active. |
| `MainProcess.AllRunningTicks` | src/main.ts:186-196 | With an open window, a run of ticks that all find the editor running adds one second per tick and saves the final seconds. It sends one update per tick, the last being the final seconds, and keeps the earlier messages. |
| `MainProcess.FreshStartActiveTicks` | src/main.ts:174-196 | With no file at start, k active ticks leave `{seconds: k}`, saved and read back as k. The window receives k + 1 updates, the first being 0 and the last k. |
| `MainProcess.TimerProcess.constructor` | src/main.ts:174 | The module state is the start-up state, with the timer loaded from the file. |
| `MainProcess.TimerProcess.SaveTimerState` | src/main.ts:150-152 | The whole record overwrites the file. |
| `MainProcess.TimerProcess.NotifyWindow` | src/main.ts:193-195 | The current seconds are sent exactly when a window is open. |
| `MainProcess.TimerProcess.StartTimer` | src/main.ts:176-197 | The state follows `AfterStart`. With `initialCheck` the seconds go to an open window, a fresh interval is scheduled, and its handle replaces `intervalId`. |
| `MainProcess.TimerProcess.OnTick` | src/main.ts:186-196 | The state follows `AfterTick`: the seconds are incremented and saved only when the editor runs, and the window is notified either way. |
| `MainProcess.TimerProcess.StopTimer` | src/main.ts:199-201 | The state follows `AfterStop`: only the interval in `intervalId` is cancelled. |
| `MainProcess.TimerProcess.CreateWindow` | src/main.ts:16-49 | The window opens, then the timer starts with the initial check. |
| `MainProcess.TimerProcess.OnWindowClosed` | src/main.ts:45-47 | `mainWindow` becomes null. |
| `MainProcess.TimerProcess.OnAllWindowsClosed` | src/main.ts:112-117 | The timer stops. |
| `MainProcess.TimerProcess.OnActivate` | src/main.ts:119-123 | A window is recreated only when `mainWindow` is null, and not while it is still undefined. |
| `MainProcess.TimerProcess.OnBeforeQuit` | src/main.ts:125-127 | The current record is saved. |
| `MainProcess.GetCodePath` | src/main.ts:51-82 | Returns the trimmed `which code` path if it exists. Otherwise it returns the first existing fallback in list order, and no earlier fallback exists. If none exists, the result is the "not installed" error. |

## Left out

- Window creation and display placement, the HTML rendering of the catalog, the context menu, and the alert and confirm dialogs are UI. The answer to the confirm dialog is a parameter.
- JavaScript numbers are modelled as unbounded `int`. They are exact only up to 2^53, beyond which `seconds++` no longer changes the value.
- `formatTimeInHours` uses floating-point division and `toFixed`.
- Process inspection (`exec` of `ps aux | grep`) is a foreign call. Only its result (error flag and stdout) enters the model.
- The "launch-project" handler is not modelled: it spawns the editor, calls `getCodePath` twice, and pipes stdout and stderr. The handler registration that `createWindow` repeats on each call is also left out.
- Local storage, `fs` and `JSON.parse` are not modelled. File and item contents are `Option<string>`, and parsing is a parameter that returns `None` where `JSON.parse` throws. For the project list it also returns `None` for JSON that is not an array, on which `projects.map` throws. Parsed values that are not well formed (a `seconds` that is not a number, `NaN`, a record without `name` or `path`) are not modelled.
- The JSON text of the project list is not modelled. `Catalog.saved` holds the list that `saveProjects` last wrote.
- Date arithmetic is not modelled. Days are integers and the key conversion is the parameter `dateKey`.
- `WindowSumIsWindowTotal`, `WindowAtMostTotal`, `WindowSingleBucket` and `TwoWeekWindowBounds` assume distinct days have distinct keys. Converting a local day to its UTC date can break this around a daylight-saving change.
- `setInterval` scheduling and the asynchronous running check are not modelled in time. Each tick is one atomic step. The initial check's message under `startTimer(true)` is sent immediately, not when the check resolves.
- Projects are values in a sequence, so aliasing of the element that the update handler changes in place is not modelled. No other reference to it exists in the source.
- IPC channel names are not modelled. The main process sends "update-timer", while the renderer listens on "update-totalTimer", and on "update-project-timer", which the main process never sends.
- Per-project timers, the writing of `dailyTimes` and a per-project time store do not exist in `src/main.ts`, so they are not modelled.
- `tailwind.config.js` is build configuration.
