# Eye-health app for children: a verified model of its core

The app is a Next.js front end that helps parents watch over their
children's eyes. This project models the parts of it that hold logic, one
Dafny module per source file:

- **the screen-time page**: a stopwatch for a child's screen session.
  It is started, paused, resumed, reset and recorded against a backend. A
  1-second tick recomputes the elapsed seconds from a clock anchor and
  raises an alert level, and a 10-second sync refetches the server's
  status. It has two parts:
  - `ScreenTimeSession`: the page's fields as one value, one function per
    handler, and the lemmas about them.
  - `ScreenTimePage.Controller`: a class with those fields. Each method is
    proved to perform exactly its function's transition.
- **its display pieces**: the minutes/seconds split, the seconds text and
  the colour per alert level (`TimerDisplay`), and the buttons offered per
  state (`ControlButtons`).
- **the authentication middleware**: which paths are public, and where a
  request is redirected with or without the `access_token` cookie
  (`Middleware`).
- **the distance checker**: three screens.
  - The measuring screen takes the largest detected face every 100 ms,
    averages the last ten readings and reports after fifty
    (`MeasuringScreen`).
  - The result screen classifies the distance and saves it
    (`ResultScreen`).
  - The page switches between the screens (`DistanceCheckPage`).
- **the record dashboard**:
  - the vision chart, which merges the eye tests of each day and orders the
    rows (`RecordVision`)
  - the screen-time totals per day, and the latest distance check with its
    status texts and colours (`RecordUsage`)
  - the page object with its fetch handlers (`RecordPage`)
- **the sign-up form**: password checks, registration, automatic login and
  the move to the verification screen (`SignupPage`).
- **the "jump" eye exercise**: a character pops up in a quarter of the
  screen that differs from the last one; after 40 s the exercise is logged
  and the page returns to the menu (`JumpPage`).

How the world outside the page appears in the model:

- **Network calls** are parameters, holding each call's outcome:
  - `Response<T>` is an ok response with its body, a non-ok status, or a
    thrown error.
  - `Call<T>` is an awaited helper that resolves or rejects.
- **Timers** are flags saying whether an interval or timeout is live.
- **The clock** is an integer number of milliseconds.
- **JavaScript semantics** are written out where they matter:
  - `%` truncates toward zero.
  - `Math.round` rounds halves up.
  - `|| null` and `|| 0` treat 0 and NaN as falsy.
  - `!selectedChildId` is also true for child id 0.

Two behaviours of the screen-time page are easy to misread:

- **The alert level.** One might expect the level to be a function of
  elapsed seconds. The tick handler (`src/app/screentime/page.tsx:121-140`)
  only raises the level past 600 and 1800 seconds, and otherwise keeps the
  previous one. See `ScreenTimeSession.TickAlertKeepsStaleLevel`.
- **Recording.** One might expect recording to reset the session whatever
  the server answers, as reset does. `handleRecord`
  (`src/app/screentime/page.tsx:258-287`) resets only on an ok response.
  See `ScreenTimeSession.RecordOnlyOnOk`.

## Model

| member | source | states |
|---|---|---|
| ScreenTimeSession.AnchorLaw | src/app/screentime/page.tsx:105-131 | the anchor `now - initial*1000` makes a tick read `initial` at once and `initial + d/1000` after d ms |
| ScreenTimeSession.TickSecondsMonotone | src/app/screentime/page.tsx:129-131 | the elapsed seconds never decrease as the clock advances |
| ScreenTimeSession.LevelMonotone | src/app/screentime/page.tsx:133-138 | the alert evaluator (1 past 600 s, 2 past 1800 s) is monotone in elapsed seconds |
| ScreenTimeSession.TickAlertConsistent | src/app/screentime/page.tsx:133-138 | a tick's level agrees with the evaluator whenever the previous level did and time did not go backwards |
| ScreenTimeSession.TickAlertKeepsStaleLevel | src/app/screentime/page.tsx:133-138 | at or below 600 s a tick keeps whatever level came before, so a level 2 can survive at 30 s |
| ScreenTimeSession.ApplyPreservesInv | src/app/screentime/page.tsx:52-287 | every handler and timer firing keeps the fields consistent: the pause flag equals its ref, both timers run together, a running timer has an anchor and is unpaused, and a paused record is inactive at the snapshot |
| ScreenTimeSession.InitPreservesInv | src/app/screentime/page.tsx:26-49 | `init` ends consistent and with loading over, whatever the settings and status calls return |
| ScreenTimeSession.TickEffect | src/app/screentime/page.tsx:121-140 | a tick sets the elapsed seconds to floor((now - anchor)/1000), writes the alert level `TickAlert` gives for them, marks the session active, keeps the id and the message, and changes no other field; with no status it does nothing |
| ScreenTimeSession.LocalTimerStartEffect | src/app/screentime/page.tsx:105-120 | starting the local timer unpaused anchors it so that it reads the initial seconds at once and sets the shown seconds to them |
| ScreenTimeSession.PausedBlocksEverything | src/app/screentime/page.tsx:76-156 | while paused no timer starts, no fetch is sent and a response in flight changes nothing but the in-flight count |
| ScreenTimeSession.PauseDuringFetch | src/app/screentime/page.tsx:76-103 | a pause between sending a status request and its response makes the response have no effect |
| ScreenTimeSession.FetchResolveEffect | src/app/screentime/page.tsx:83-100 | an ok, unpaused response installs the server's record and runs both timers exactly when it is active, anchored at its elapsed seconds; any other outcome changes nothing |
| ScreenTimeSession.VisibilityFetchIff | src/app/screentime/page.tsx:52-63 | the visibility listener fetches if and only if the page is visible, the shown session is active and not paused |
| ScreenTimeSession.PauseEffect | src/app/screentime/page.tsx:195-212 | pause stops both timers, snapshots the elapsed seconds, keeps the shown seconds and sends nothing |
| ScreenTimeSession.StartEffect | src/app/screentime/page.tsx:158-193 | a paused start resumes from the snapshot without a call; otherwise an ok start call installs the returned record at 0 s and starts both timers, and any other outcome only ends loading |
| ScreenTimeSession.ResetIsUnconditional | src/app/screentime/page.tsx:214-256 | reset ends in the same idle state (idle record, 0 s, no timers, not paused) whatever the end call returns |
| ScreenTimeSession.RecordOnlyOnOk | src/app/screentime/page.tsx:258-287 | record resets exactly as reset on an ok end call and otherwise only ends loading |
| ScreenTimeSession.RunPreservesInv | src/app/screentime/page.tsx:52-287 | any sequence of events keeps the fields consistent |
| ScreenTimeSession.PausedRunIsFrozen | src/app/screentime/page.tsx:76-156 | while paused, no sequence of timer firings, responses, visibility changes or pauses changes the shown seconds, the record or the snapshot |
| ScreenTimeSession.TickRunReadsClock | src/app/screentime/page.tsx:121-140 | after any run of ticks the elapsed seconds are those of the last tick measured from the anchor, however many ticks were missed |
| ScreenTimeSession.TickRunAlertAgrees | src/app/screentime/page.tsx:121-140 | along ticks with non-decreasing times, a level that agrees with the evaluator keeps agreeing and never decreases |
| ScreenTimeSession.FreshStartThenTicks | src/app/screentime/page.tsx:158-193 | after an ok fresh start at t0 every run of ticks shows the whole seconds since t0 |
| ScreenTimeSession.ResumeContinuity | src/app/screentime/page.tsx:158-172 | resuming after a pause at E shows E at once and E + 1 one second later |
| ScreenTimePage.Controller.constructor | src/app/screentime/page.tsx:13-21 | the page's initial fields form the initial session |
| ScreenTimePage.Controller.DisplayedSeconds | src/app/screentime/page.tsx:314 | the `seconds` prop is the snapshot while paused, the record's elapsed seconds otherwise, and 0 with no record |
| ScreenTimePage.Controller.Controls | src/app/screentime/page.tsx:289-327 | while loading with no status only the loading text renders and no button; otherwise the buttons are those of `ControlButtons` for the shown activity, the pause flag and loading |
| ScreenTimePage.Controller.ClearTimers | src/app/screentime/page.tsx:65-74 | the fields after `clearTimers` are `AfterClear` of the old ones |
| ScreenTimePage.Controller.StartLocalTimer | src/app/screentime/page.tsx:105-120 | the fields after `startLocalTimer` are `AfterLocalTimerStart` of the old ones |
| ScreenTimePage.Controller.StartSyncTimer | src/app/screentime/page.tsx:143-156 | the fields after `startSyncTimer` are `AfterSyncTimerStart` of the old ones |
| ScreenTimePage.Controller.Tick | src/app/screentime/page.tsx:121-140 | the fields after a tick are `AfterTick` of the old ones |
| ScreenTimePage.Controller.BeginFetchStatus | src/app/screentime/page.tsx:76-83 | the fields and whether a request went out are `AfterFetchIssue` of the old fields |
| ScreenTimePage.Controller.CompleteFetchStatus | src/app/screentime/page.tsx:84-103 | the fields after the status response are `AfterFetchResolve` of the old ones |
| ScreenTimePage.Controller.SyncFire | src/app/screentime/page.tsx:151-155 | the fields after the 10-second interval are `AfterSyncFire` of the old ones |
| ScreenTimePage.Controller.OnVisibilityChange | src/app/screentime/page.tsx:52-63 | the fields after the visibility listener are `AfterVisibility` of the old ones |
| ScreenTimePage.Controller.HandleStart | src/app/screentime/page.tsx:158-193 | the fields after `handleStart` are `AfterStart` of the old ones |
| ScreenTimePage.Controller.HandlePause | src/app/screentime/page.tsx:195-212 | the fields after `handlePause` are `AfterPause` of the old ones |
| ScreenTimePage.Controller.ResetLocally | src/app/screentime/page.tsx:214-256 | the local part of reset: idle record, 0 s, no timers, not paused |
| ScreenTimePage.Controller.HandleReset | src/app/screentime/page.tsx:214-256 | the fields after `handleReset` are `AfterReset` of the old ones |
| ScreenTimePage.Controller.HandleRecord | src/app/screentime/page.tsx:258-287 | the fields after `handleRecord` are `AfterRecord` of the old ones |
| ScreenTimePage.Controller.Init | src/app/screentime/page.tsx:26-49 | the fields after `init` are `AfterInit` of the old ones |
| ScreenTimePage.Controller.Unmount | src/app/screentime/page.tsx:48 | unmounting clears both timers and changes nothing else |
| ScreenTimePage.ControlsMatchSession | src/app/screentime/page.tsx:289-327 | on a consistent page, record is offered only when paused with no timer running, stop only when not paused with a record, start exactly when the shown session is not active and the loading screen is not up, and nothing on the loading screen |
| TimerDisplay.JsRemainder60 | src/components/screentime/TimerDisplay.tsx:10-14 | `total % 60` lies strictly between -60 and 60 and equals the Euclidean remainder for non-negative totals |
| TimerDisplay.FormatTime | src/components/screentime/TimerDisplay.tsx:10-14 | a non-negative total splits into minutes and seconds 0..59 that add back to it; a negative one gives seconds in -59..0 |
| TimerDisplay.FormatTimeInjective | src/components/screentime/TimerDisplay.tsx:10-14 | different non-negative totals show differently |
| TimerDisplay.FormatTimeNegative | src/components/screentime/TimerDisplay.tsx:10-14 | for -1 the floor and the truncated remainder give -1 min -1 s, which does not add back up |
| TimerDisplay.NatToStringRoundTrip | src/components/screentime/TimerDisplay.tsx:45 | the decimal text of a number reads back as that number |
| TimerDisplay.PadStart | src/components/screentime/TimerDisplay.tsx:45 | the text is padded on the left with the fill up to the width and ends with the original |
| TimerDisplay.SecondsTextTwoDigits | src/components/screentime/TimerDisplay.tsx:45 | every second of a minute is shown as exactly its two digits |
| TimerDisplay.SecondsTextReadsBack | src/components/screentime/TimerDisplay.tsx:10-14 | the seconds text of any non-negative total has two characters and reads back as the total modulo 60 |
| TimerDisplay.Colors | src/components/screentime/TimerDisplay.tsx:18-24 | level 2 gets the pink palette, level 1 the yellow one and every other value the blue one, in both directions |
| ControlButtons.Buttons | src/components/screentime/ControlButtons.tsx:14-110 | active: stop, reset; else paused: start, reset, record; else: start; every button is disabled exactly while loading |
| ControlButtons.OfferedIff | src/components/screentime/ControlButtons.tsx:14-110 | record is offered iff stopped and not active, stop iff active, start iff not active, reset iff active or paused |
| ControlButtons.ActionsDistinct | src/components/screentime/ControlButtons.tsx:14-110 | no handler is offered twice |
| Middleware.Decide | src/middleware.ts:9-21 | a request is sent to '/' iff it has no token and a private path, to '/home' iff it has a token and asks for '/', and otherwise passes |
| Middleware.IsPublicIff | src/middleware.ts:9 | the public paths are exactly '/', '/signup' and the six prefixes |
| Middleware.PrivateBySecondChar | src/middleware.ts:9 | a path whose second character starts no public prefix is private unless it is '/signup' |
| Middleware.SignupExactVerifyPrefix | src/middleware.ts:9 | '/signup' is an exact match ('/signup/extra' is private) while '/verify' is a prefix ('/verify/resend' is public) |
| Middleware.Pathname | src/middleware.ts:6 | the path the middleware tests is the part of the address before its query or fragment |
| Middleware.PathnameOfQuery | src/middleware.ts:6 | a path followed by a query string has that path as its pathname |
| Middleware.PassThroughCases | src/middleware.ts:11-21 | a public path without a token, and any path but '/' with a token, pass through |
| Middleware.NoRedirectLoop | src/middleware.ts:11-21 | following a redirect with the same cookie is never redirected again |
| ResultScreen.Classify | src/components/DistanceCheck/ResultScreen.jsx:8-26 | danger iff under 20 cm, warning iff 20 to 29 cm, normal iff 30 cm or more, with that level's texts, colour and picture |
| ResultScreen.VerdictFor | src/components/DistanceCheck/ResultScreen.jsx:8-26 | each level's verdict carries that level |
| ResultScreen.VerdictsDistinguishable | src/components/DistanceCheck/ResultScreen.jsx:8-26 | different levels differ in message, colour and picture |
| ResultScreen.Payload | src/components/DistanceCheck/ResultScreen.jsx:36-40 | the saved body has child 1, the distance, and an alert flag set iff the verdict is danger |
| ResultScreen.Screen.ButtonsEnabled | src/components/DistanceCheck/ResultScreen.jsx:28-54 | both buttons are enabled iff not saving |
| ResultScreen.Screen.HandleSave | src/components/DistanceCheck/ResultScreen.jsx:28-54 | the payload is posted; an ok response calls `onSave` once and leaves saving on; any failure alerts once and turns saving off |
| ResultScreen.Screen.HandleSaveAsWritten | src/components/DistanceCheck/ResultScreen.jsx:31 | as written the URL throws before any request: always one alert, never `onSave` |
| ResultScreen.SaveDiscrepancy | src/components/DistanceCheck/ResultScreen.jsx:28-54 | as written no distance is ever saved; with the endpoint defined an ok response saves it |
| MeasuringScreen.LargestIndex | src/components/DistanceCheck/MeasuringScreen.jsx:60-62 | the chosen face has the largest box area, and every later face is strictly smaller (the last of equal faces wins) |
| MeasuringScreen.SumBounds | src/components/DistanceCheck/MeasuringScreen.jsx:71-73 | the sum of readings in [lo, hi] lies between n·lo and n·hi |
| MeasuringScreen.RoundedMeanBetween | src/components/DistanceCheck/MeasuringScreen.jsx:71-73 | the rounded mean of readings in [lo, hi] lies in [lo, hi] |
| MeasuringScreen.Window | src/components/DistanceCheck/MeasuringScreen.jsx:66-69 | the buffer holds the last min(n, 10) readings |
| MeasuringScreen.WindowPush | src/components/DistanceCheck/MeasuringScreen.jsx:66-69 | push then shift when over ten turns the window of the readings into the window of the readings plus the new one |
| MeasuringScreen.BufferFacts | src/components/DistanceCheck/MeasuringScreen.jsx:66-73 | the buffer is the most recent readings, at most ten, and the shown mean stays between their smallest and largest |
| MeasuringScreen.Measurer.constructor | src/components/DistanceCheck/MeasuringScreen.jsx:9-17 | the screen starts loading, with no reading and the camera-preparing message |
| MeasuringScreen.Measurer.BeginLoading | src/components/DistanceCheck/MeasuringScreen.jsx:26-29 | loading the detector shows the model-loading message and nothing else changes |
| MeasuringScreen.Measurer.FinishLoading | src/components/DistanceCheck/MeasuringScreen.jsx:26-42 | on success loading ends, the interval starts and the face prompt shows; on failure the screen stays loading with the error message |
| MeasuringScreen.Measurer.OnInterval | src/components/DistanceCheck/MeasuringScreen.jsx:49-93 | an unready video changes nothing; no face shows the not-found message; otherwise the largest face's reading is added, the rounded mean of the last ten is shown, progress is 2 % per reading, and at fifty the interval stops and reports that mean |
| DistanceCheckPage.Page.Rendered | src/app/distance-check/page.jsx:59-66 | exactly one screen is rendered, the one of the current step, and the result screen gets the measured distance |
| DistanceCheckPage.Page.HandleStart | src/app/distance-check/page.jsx:27-29 | start moves to measuring |
| DistanceCheckPage.Page.HandleMeasurementComplete | src/app/distance-check/page.jsx:31-34 | a completed measurement is stored and the result step shown |
| DistanceCheckPage.Page.HandleRetry | src/app/distance-check/page.jsx:36-39 | retry goes back to measuring and drops the old result |
| DistanceCheckPage.Page.HandleSaveComplete | src/app/distance-check/page.jsx:41-43 | saving only shows an alert; the step does not change |
| DistanceCheckPage.RetryShowsLatest | src/app/distance-check/page.jsx:24-66 | after a retry the result screen shows the latest measurement, not the first |
| SignupPage.Validate | src/app/signup/page.tsx:26-34 | no error iff the password has at least 6 characters and matches; the length error iff it is shorter; the mismatch error iff long enough but different |
| SignupPage.VerifyUrl | src/app/signup/page.tsx:45 | the verification address starts with '/verify?session_id=' |
| SignupPage.FailureMessage | src/app/signup/page.tsx:47-48 | a failed request shows the server's non-empty detail, otherwise the default text, never an empty message |
| SignupPage.SignupForm.HandleSubmit | src/app/signup/page.tsx:22-52 | an invalid form makes no request and shows its error; otherwise register then login are called, loading ends false, and the page moves to the verification address iff both succeed |
| SignupPage.VerifyUrlIsPublic | src/middleware.ts:9 | the pathname of the verification address the form moves to is '/verify', which is public, so the middleware lets a visitor without a token through |
| JumpPage.PickQuadrant | src/app/merelax/eye-tracking/jump/page.tsx:84-88 | the quarter is in 0..3 and never the previous one; the draw is kept unless it repeats, then the next quarter round |
| JumpPage.EveryOtherQuadrantReachable | src/app/merelax/eye-tracking/jump/page.tsx:84-88 | every quarter other than the previous one is picked by some draw |
| JumpPage.BaseOffset | src/app/merelax/eye-tracking/jump/page.tsx:96-97 | quarters 2 and 3 are in the lower half and the odd ones in the right half |
| JumpPage.BaseOffsetInjective | src/app/merelax/eye-tracking/jump/page.tsx:96-97 | the four quarters have four different corners |
| JumpPage.Coordinate | src/app/merelax/eye-tracking/jump/page.tsx:99-100 | each coordinate lies from 10 % to under 40 % into its quarter |
| JumpPage.PositionsSeparated | src/app/merelax/eye-tracking/jump/page.tsx:96-100 | positions in different quarters never coincide |
| JumpPage.Game.constructor | src/app/merelax/eye-tracking/jump/page.tsx:14-22 | not started, not completed, nothing running |
| JumpPage.Game.Start | src/app/merelax/eye-tracking/jump/page.tsx:66-79 | starting runs the spawn loop and the end timer, with no previous quarter |
| JumpPage.Game.SpawnTick | src/app/merelax/eye-tracking/jump/page.tsx:82-104 | a tick shows the character in the picked quarter, at the coordinates of that quarter, and records it as the previous one |
| JumpPage.Game.HideCharacter | src/app/merelax/eye-tracking/jump/page.tsx:106-108 | the character is hidden and nothing else changes |
| JumpPage.Game.HandleComplete | src/app/merelax/eye-tracking/jump/page.tsx:24-57 | without a child (or with id 0) nothing happens; otherwise the exercise is logged once, the message is the log's or the fallback, the game completes, both effects stop and the return is scheduled |
| JumpPage.Game.EndTimerFires | src/app/merelax/eye-tracking/jump/page.tsx:66-72 | the 40 s timer completes the game iff a child is selected; otherwise the spawn loop keeps running |
| JumpPage.TwoTicks | src/app/merelax/eye-tracking/jump/page.tsx:66-115 | two ticks show different quarters, and the game keeps running after its end timer iff no child is selected |
| RecordVision.OrNull | src/app/record/page.tsx:113-116 | a parsed value becomes null iff it is NaN or 0, and is kept otherwise |
| RecordVision.MapEyeTest | src/app/record/page.tsx:111-117 | a 30 cm test fills only the 30 cm columns, a 300 cm test only the 3 m ones, any other distance none |
| RecordVision.MapEyeTests | src/app/record/page.tsx:108-121 | one reading per test, in the same order |
| RecordVision.StartTime | src/app/record/page.tsx:315-318 | the window starts 6 or 29 days before now, at the same time of day |
| RecordVision.OldestDate | src/app/record/page.tsx:321-338 | a day's row is dated by a reading of that day |
| RecordVision.OldestDateIff | src/app/record/page.tsx:321-338 | a day has a row iff one of its readings is inside the window |
| RecordVision.LatestImpliesOldest | src/app/record/page.tsx:321-345 | a day with a value in some column has a row |
| RecordVision.LatestFieldIsNewest | src/app/record/page.tsx:323-345 | a row's column holds the value of the newest counted reading of that day with a non-null value there |
| RecordVision.InsertPerm | src/app/record/page.tsx:347-353 | inserting a row keeps every row and adds it once |
| RecordVision.InsertSorted | src/app/record/page.tsx:347-353 | inserting into sorted rows keeps them sorted |
| RecordVision.InsertDistinct | src/app/record/page.tsx:347-353 | inserting a row of a new day keeps the days distinct |
| RecordVision.SortFacts | src/app/record/page.tsx:347-353 | sorting gives a sorted permutation with the same days |
| RecordVision.BuildGroups | src/app/record/page.tsx:321-345 | visiting the readings oldest first gives one row per day with a reading in the window, dated by its oldest reading, holding the newest non-null value of each column |
| RecordVision.ValuesFacts | src/app/record/page.tsx:347 | the listed rows have distinct days, exactly the days with a reading in the window |
| RecordVision.GroupByDay | src/app/record/page.tsx:321-353 | the chart rows are sorted with distinct days, exactly the days with a reading in the window, each dated by its oldest reading and holding per column the newest non-null value |
| RecordVision.NewYearOrder | src/app/record/page.tsx:348-353 | ordering by month and day puts 1 January before the 31 December before it; calendar order does not |
| RecordVision.SameYearOrdersAgree | src/app/record/page.tsx:348-353 | for rows of one year, sorted by month and day iff sorted by calendar date |
| RecordVision.CalendarOrderChronological | src/app/record/page.tsx:348-353 | with the calendar order any two rows are in chronological order |
| RecordUsage.UsageStatus | src/app/record/page.tsx:156-160 | too long iff over 120 minutes, moderate iff 61 to 120, appropriate iff at most 60 |
| RecordUsage.Minutes | src/app/record/page.tsx:146 | missing minutes count as 0 |
| RecordUsage.DistinctKeys | src/app/record/page.tsx:142-153 | the days of the totals are listed without repetition |
| RecordUsage.DailyPoints | src/app/record/page.tsx:156-166 | one point per day |
| RecordUsage.DistinctKeysFacts | src/app/record/page.tsx:142-153 | the days listed are exactly the days of the entries |
| RecordUsage.TotalForAppend | src/app/record/page.tsx:142-153 | a day's total over two batches is the sum of their totals |
| RecordUsage.TotalForAbsent | src/app/record/page.tsx:142-153 | a day with no entries totals 0 |
| RecordUsage.AggregateDaily | src/app/record/page.tsx:140-166 | the block throws iff some start time is not a valid date; otherwise one point per day in order of first appearance with that day's total minutes and its status |
| RecordUsage.LatestDistance | src/app/record/page.tsx:124-137 | no check gives 0 cm dated now with no data; otherwise the newest check, too close iff under 30 cm |
| RecordUsage.DistanceStatusColor | src/app/record/page.tsx:196-203 | green iff appropriate, yellow iff too close, grey for anything else |
| RecordUsage.DistanceStatusText | src/app/record/page.tsx:205-212 | the appropriate text iff appropriate, the too-close text iff too close, the no-data text for anything else |
| RecordUsage.ScreenTimeColor | src/app/record/page.tsx:214-221 | the helper `getScreenTimeColor`, which the page defines but never calls: green, yellow, red for appropriate, moderate, too long, in both directions, grey for anything else |
| RecordUsage.BarColor | src/app/record/page.tsx:544-549 | the usage bars' fill: yellow iff moderate, red iff too long, green for every other status |
| RecordUsage.BarColorIff | src/app/record/page.tsx:544-549 | a day's bar has the colour the unused helper would give its status: red iff over 120 minutes, yellow iff 61 to 120, green iff at most 60 |
| RecordUsage.ShownDistanceStatus | src/app/record/page.tsx:431-448 | with no data the card uses 'no_data', otherwise the data's non-empty status |
| RecordUsage.UsageColorIff | src/app/record/page.tsx:156-160 | were the unused helper applied, a computed day status would never get grey: red iff over 120 minutes, green iff at most 60 |
| RecordUsage.DistanceCardIff | src/app/record/page.tsx:124-137 | the card shows the no-data text and grey iff the child has no check, and yellow iff the newest is under 30 cm |
| RecordPage.Dashboard.constructor | src/app/record/page.tsx:45-52 | no children, no selection, no data, weekly views, loading |
| RecordPage.Dashboard.FetchChildren | src/app/record/page.tsx:68-96 | without a user nothing changes and the spinner stays; otherwise loading ends, an ok list is stored and its first child selected when there is one |
| RecordPage.Dashboard.FetchesOnChange | src/app/record/page.tsx:62-66 | the data effect fetches iff a child id other than 0 is selected |
| RecordPage.Dashboard.SelectChild | src/app/record/page.tsx:257 | a child's button selects that child and changes nothing else |
| RecordPage.Dashboard.SetVisionPeriod | src/app/record/page.tsx:282-292 | the vision card's weekly/monthly buttons set its period and change nothing else |
| RecordPage.Dashboard.SetScreenTimeView | src/app/record/page.tsx:466-476 | the screen-time card's weekly/monthly buttons set its view and change nothing else |
| RecordPage.Dashboard.FetchChildDashboardData | src/app/record/page.tsx:99-182 | with no truthy selection or a failed request nothing changes; otherwise the vision readings and the latest distance are set, and the screen-time points iff every start time is valid |
| RecordPage.Dashboard.VisionChart | src/app/record/page.tsx:315-353 | no readings gives the empty-state message; otherwise the rows of the window sorted by month and then day, one per day, holding per column the newest non-null value |
| RecordPage.Dashboard.VisionChartChronological | src/app/record/page.tsx:315-353 | the same rows as the chart, in calendar order |
| RecordPage.ChartColumnsRouteByDistance | src/app/record/page.tsx:108-121 | a 30 cm column only ever shows a value from a 30 cm test, a 3 m column only from a 300 cm one |

## Left out

- Network, timers and the clock: every request is a parameter holding its outcome (ok body, non-ok status, thrown error). Each timer is a flag saying whether it is live. The time is an integer number of milliseconds. URLs, headers and JSON parsing are not modelled.
- Interleavings of `await`: every handler runs to completion in the model. The one race that matters on the screen-time page, a pause while a status request is in flight, is modelled by splitting `fetchStatus` at its `await`. Overlapping runs of `handleStart` or of the measuring interval are not modelled.
- Sounds, speech, background music, animations and styling are not modelled. These are `playSound`, `playSuccessSound`, and the audio of the exercise and measuring pages.
- `alert()` calls and console output are modelled only as counters of alerts shown.
- MeasuringScreen.Face: the distance `estimateDistance` gives for a face (`Math.round(9000 / width)` on a floating-point box width) is an input of the model, because face detection and its floating-point boxes are not modelled. The webcam's ready state is a boolean parameter.
- MeasuringScreen.Measurer.OnInterval: progress is the integer percentage `2 * count`. The source computes `(count / 50) * 100` in floating point, which equals it up to rounding: for counts 7, 14, 28 and 29 it gives 14.000000000000002, 28.000000000000004, 56.00000000000001 and 57.99999999999999.
- RecordVision.StartTime: the window start is `now` minus whole days in milliseconds. A daylight-saving change inside the window (`setDate` keeps the local time of day) is not modelled.
- RecordVision: dates are already given in the viewer's time zone. `toLocaleDateString` and `new Date(...)` parsing are not modelled, and neither is `parseFloat` on the eye values (its result is a parameter: a number or NaN).
- RecordUsage.AggregateDaily: each record's day key (`toISOString().split('T')[0]`) is an input. A missing key stands for an invalid start time, where the source throws.
- RecordUsage.LatestDistance: the distance is a real number, and `new Date().toISOString()` is the parameter `nowIso`.
- RecordPage: the distance card's rendering of `distance_cm` and of the check date as locale text is not modelled; only the status, its text and its colour are.
- JumpPage.Game.SpawnTick: `Math.random()` is a parameter. The quadrant draw is an integer in 0..3 and each coordinate draw a real in [0, 1). The percent strings are kept as numbers.
- JumpPage.Game.HandleComplete: the 3-second race between the exercise log and its timeout is one `Call` parameter. The delayed navigation is a flag. Success means the message is the log's `message` field.
- SignupPage.Validate: `password.length` counts UTF-16 code units in the source but characters in the model. The two differ only for characters outside the Basic Multilingual Plane.
- TimerDisplay: the JSX layout is not modelled; only the text and colours the display computes are.
- The other pages and contexts of the app are not part of this model: home, dashboard, settings, test, blink, the exercise menu, the authentication context, the child selector and the hooks.

## Findings

| source | as written | input that shows it | evidently intended | confidence | as-written member | corrected member |
|---|---|---|---|---|---|---|
| src/components/DistanceCheck/ResultScreen.jsx:31 | the save URL uses the bare identifier `NEXT_PUBLIC_API_ENDPOINT`, which is declared nowhere; only `process.env.NEXT_PUBLIC_*` is replaced at build time, so building the URL throws a ReferenceError | any press of the save button: the catch block always runs, the failure alert shows and `onSave` is never called | the endpoint taken from `process.env.NEXT_PUBLIC_API_ENDPOINT`, as on the other pages, so an ok response calls `onSave` | high, not executed | ResultScreen.Screen.HandleSaveAsWritten (shown by ResultScreen.SaveDiscrepancy) | ResultScreen.Screen.HandleSave |
| src/app/record/page.tsx:348-353 | the chart rows are sorted by the month and day of their 'M/D' key, ignoring the year | a monthly window from 20 December to 18 January: readings on 31 December and 1 January are drawn with 1/1 before 12/31 | the rows in chronological order, which is the order of their dates | medium, not executed | RecordPage.Dashboard.VisionChart (shown by RecordVision.NewYearOrder) | RecordPage.Dashboard.VisionChartChronological |
