# Time-series replay: controller and output name

`create_replay.py` turns a CSV time series into one HTML page that replays
the series on a chart. This project models the two parts of it that carry
logic of their own:

- **The replay controller** embedded in the page's script. It keeps
  `currentIndex` (a cursor over the n resampled samples) and `isPlaying`. It
  also keeps `intervalId`, the handle of the repeating timer that runs
  `advanceFrame`. The page's event handlers change these fields: tick, Play,
  Pause, Reset, the Play/Pause button, the speed selector and chart clicks. A
  chart click uses `findClosestTimestampIndex`, a linear scan for the sample
  nearest the clicked time.
- **The output file name**: `replay_for_` + the input's base name without its
  last extension + `.html`.

Modules:

- `Nearest` (nearest.dfy) holds the scan as a method with a loop. It is
  proved against `IsClosest`: no sample is closer, and every earlier sample
  is strictly farther. It is also proved equal to `Closest`, a separate
  recursive definition.
- `Replay` (replay.dfy) holds each handler as a pure function on a `State`
  value, an `Event` type, and `Run` over event sequences. Lemmas about whole
  sequences sit beside them. The class `ReplayController` has the handlers'
  fields. Each of its methods updates them in place, as the script does, and
  its `ensures` ties the new fields to the matching function.
- `OutputName` (output_name.dfy) holds `basename`, `splitext` and the output
  name.

Timestamps are JavaScript `Date` values used as integer milliseconds, so
`targetDate - timestamps[i]` is an integer difference.

The browser's timer table is modelled explicitly: a map from handle to period.
`setInterval` returns a new handle each time, and `clearInterval` stops the
timer its handle names. The script never sets `intervalId` back to `null`, so
after a pause it names a stopped timer; the model keeps that stale handle.
The proved invariant says:

- every running timer is the one `intervalId` names, so at most one runs;
- every handle handed out so far, running or stale, is below the next one, so a new timer never reuses a handle;
- a timer runs exactly while `isPlaying` holds;
- the cursor is a valid index whenever there is at least one sample.

When there are no samples, `advanceFrame` sets the cursor to
`timestamps.length - 1 = -1`, and Play sets it back to 0. The model keeps
this, and for n = 0 the invariant says the cursor is -1 or 0.

A timer firing is the `Tick` event. It reaches `advanceFrame` only while a
timer is running.

Three behaviours of the code a reader may not expect, which the model follows as written:

- Speed change while playing does not restart the timer (see Findings).
- Replaying 10 samples from index 0: after 9 ticks the cursor is on index 9
  and the replay is still playing. The 10th tick pauses it at index 9
  (`TenSamples`).
- A chart click calls `pauseReplay` only when playing. Otherwise it leaves
  the timer table alone.

## Model

| member | source | states |
|---|---|---|
| `Nearest.Dist` | create_replay.py:101 | the distance `Math.abs(time - timestamps[i])` is a non-negative number equal to one of the two differences |
| `Nearest.Closest` | create_replay.py:101 | for a non-empty series, the index returned is the first closest sample: no sample is closer to the target, and every earlier one is strictly farther |
| `Nearest.ClosestIsUnique` | create_replay.py:101 | at most one index is the first closest sample, so the scan's result is determined |
| `Nearest.ClosestTimestampIndex` | create_replay.py:101 | -1 exactly when there are no samples; otherwise the first closest index |
| `Nearest.FindClosestTimestampIndex` | create_replay.py:101 | the left-to-right scan returns -1 exactly for an empty series; otherwise an index in [0, n) that minimises the distance to the target and is the smallest such index (the strict `<` keeps earlier samples on ties); it equals the recursive definition |
| `Nearest.MidpointGoesToEarlier` | create_replay.py:101 | a target exactly halfway between two samples, with every other sample farther away, selects the earlier sample |
| `Replay.Initial` | create_replay.py:85 | the page starts paused at cursor 0, with no timer registered and no handle stored (`intervalId == None`), the cursor valid for every series length, and the speed the selected 50x option gives (20 ms, create_replay.py:76) one of the offered presets, equal to `DefaultSpeed` |
| `Replay.InitialInv` | create_replay.py:85 | the initial state (cursor 0, paused, no timer, 20 ms selected) satisfies the controller invariant |
| `Replay.AtMostOneTimer` | create_replay.py:105-106 | under the invariant at most one browser timer runs, and one runs exactly while playing |
| `Replay.Cleared` | create_replay.py:106 | `clearInterval(intervalId)` leaves no timer running under the handle, removes only the timer the handle names and keeps every other timer with its period, and stops every running timer when the handle names all of them |
| `Replay.Started` | create_replay.py:105 | `setInterval` adds exactly one timer, with the given period, under the handle `nextId` (the table's handles become the old ones plus `nextId`), after which `nextId` grows; when every issued handle is below `nextId` that handle is not in use and the property still holds afterwards; every other timer is kept with its period and nothing else changes |
| `Replay.AfterPause` | create_replay.py:106 | pause sets not playing and no timer running; cursor, selector and handle stay; under the invariant the timer table becomes empty; the invariant is kept |
| `Replay.AfterPlay` | create_replay.py:105 | while playing, Play changes nothing; from paused it sets playing, rewinds the cursor to 0 exactly when it is at or past the last index, and leaves exactly one timer, at the selected period, under a new handle; the invariant is kept |
| `Replay.AfterTick` | create_replay.py:104 | when cursor + 1 < n the cursor moves by exactly one and nothing else changes; otherwise the controller pauses, no timer runs and the cursor is n - 1; the invariant is kept |
| `Replay.AfterReset` | create_replay.py:107 | in any state: cursor 0, paused, no timer running, selector unchanged; the invariant is kept |
| `Replay.AfterToggle` | create_replay.py:108 | the Play/Pause button flips the play state; pausing keeps the cursor and stops the timer, playing starts one at the selected period |
| `Replay.AfterSpeedChange` | create_replay.py:110 | as written, a speed change only sets the selector: cursor, play state, handle and running timer are all unchanged, in either state |
| `Replay.SpeedChangeKeepsOldInterval` | create_replay.py:110 | playing at 20 ms and selecting 1000 ms leaves the 20 ms timer running |
| `Replay.AfterSpeedChangeRestart` | create_replay.py:110 | corrected handler: while playing, the timer is restarted at the new period with the cursor kept and exactly one timer left; while paused only the selector changes; the invariant is kept |
| `Replay.AfterClick` | create_replay.py:94-97 | after a click the controller is paused; with samples, the cursor is the first sample nearest the clicked time; with none, the cursor stays; the invariant is kept and no timer runs |
| `Replay.RunAppend` | create_replay.py:104-110 | handling two event sequences one after the other is handling their concatenation |
| `Replay.Step` | create_replay.py:105-110 | one event: a timer tick, `playReplay`, `pauseReplay`, the reset button, the play/pause toggle, a speed change or a chart click; a tick with no timer registered changes nothing and a tick with one is `advanceFrame`; every event the page can produce (a speed among the presets) keeps the invariant; timer handles only grow. `Play` and `Pause` are modelled as standalone events although the page wires only the toggle to them |
| `Replay.Run` | create_replay.py:104-110 | the events applied in order; no events leave the state as it is, and timer handles only grow along any sequence |
| `Replay.RunKeepsInv` | create_replay.py:104-110 | every sequence of page events keeps the invariant |
| `Replay.ReachableStates` | create_replay.py:85-110 | from the initial state, whatever events arrive: with at least one sample the cursor stays in [0, n - 1], at most one timer runs, and one runs exactly while playing |
| `Replay.TicksWhilePlaying` | create_replay.py:104 | while playing and before the last sample, k ticks move the cursor by exactly k and change nothing else |
| `Replay.ReplayToEnd` | create_replay.py:104-106 | from cursor 0 while playing, the first n - 1 ticks reach the last index still playing, and the n-th tick pauses there with no timer left |
| `Replay.TickOnLast` | create_replay.py:104 | a tick on the last sample while playing pauses there and stops the timer |
| `Replay.TenSamples` | create_replay.py:104-105 | ten samples, Play from the initial state: nine ticks show index 9 still playing, the tenth pauses on index 9 |
| `Replay.PlayIdempotent` | create_replay.py:105 | pressing Play twice has the effect of pressing it once |
| `Replay.ReplayController.constructor` | create_replay.py:85 | a new controller is in the initial state and satisfies the invariant |
| `Replay.ReplayController.ClearInterval` | create_replay.py:106 | the fields change as `Cleared` says |
| `Replay.ReplayController.SetInterval` | create_replay.py:105 | returns the new handle; the fields change as `Started` says |
| `Replay.ReplayController.PauseReplay` | create_replay.py:106 | the fields change as `AfterPause` says and the invariant is kept |
| `Replay.ReplayController.PlayReplay` | create_replay.py:105 | the fields change as `AfterPlay` says and the invariant is kept |
| `Replay.ReplayController.AdvanceFrame` | create_replay.py:104 | the fields change as `AfterTick` says and the invariant is kept |
| `Replay.ReplayController.ResetReplay` | create_replay.py:107 | the fields change as `AfterReset` says and the invariant is kept |
| `Replay.ReplayController.OnPlayPauseClick` | create_replay.py:108 | the fields change as `AfterToggle` says and the invariant is kept |
| `Replay.ReplayController.OnSpeedChange` | create_replay.py:110 | the fields change as `AfterSpeedChange` says; a preset value keeps the invariant |
| `Replay.ReplayController.OnChartClick` | create_replay.py:94-97 | uses the scanning method; the fields change as `AfterClick` says and the invariant is kept |
| `Replay.ReplayController.Dispatch` | create_replay.py:104-110 | delivering one event changes the fields as `Step` says; page events keep the invariant |
| `OutputName.LastIndexOf` | create_replay.py:14 | the position of the last occurrence of a character, or -1 when it does not occur |
| `OutputName.LastIndexOfIs` | create_replay.py:14 | the last-occurrence properties determine that position |
| `OutputName.Basename` | create_replay.py:14 | the base name has no '/', is a suffix of the path, and is preceded by '/' when shorter than the path |
| `OutputName.SplitExt` | create_replay.py:134 | root + extension is the name; a non-empty extension starts with its only '.' and follows a root that is not all dots; there is an extension exactly when some '.' has a non-dot character before it |
| `OutputName.NoSplitPoint` | create_replay.py:134 | if the last '.' has only dots before it, so does every '.' |
| `OutputName.Stem` | create_replay.py:134 | the stem is a prefix of the name |
| `OutputName.OutputFilename` | create_replay.py:134-135 | the output name starts with `replay_for_`, ends with `.html` and has no '/', so it is written in the working directory |
| `OutputName.BasenameOf` | create_replay.py:14 | a directory part ending in '/' followed by a name without '/' has that name as its base name |
| `OutputName.StemOf` | create_replay.py:134 | a name that is not all dots, followed by one extension without '.', has that name as its stem |
| `OutputName.StemOfWhole` | create_replay.py:134 | a name where every '.' has only dots before it (".env", "data") is its own stem |
| `OutputName.OutputFilenameOf` | create_replay.py:134-135 | for any directory part, a path `dir/name.ext` gives `replay_for_name.html` |
| `OutputName.OutputFilenameWhole` | create_replay.py:134-135 | for any directory part, a path whose base name has no extension to remove (no '.' with a non-dot before it) gives `replay_for_<name>.html` with the whole name |
| `OutputName.CsvExample` | create_replay.py:134-135 | `dir/data.csv` gives `replay_for_data.html` |
| `OutputName.DotfileExample` | create_replay.py:134-135 | `cfg/.env` gives `replay_for_.env.html`, because a leading dot does not start an extension |
| `OutputName.TwoExtensionsExample` | create_replay.py:134-135 | `in/a.b.csv` gives `replay_for_a.b.html`: only the last extension goes |

## Left out

- Loading and preparing the data (`read_csv`, `set_index('Time')`, sorting, 1-second resampling with float means, `dropna`) is left out. It is foreign-library behaviour over floating point.
- JSON serialisation (`to_json(orient='split')`, `json.loads`) is left out. It is library output that the source does not show.
- The HTML and CSS template, the Plotly calls (`newPlot`, `relayout`), the value cards and `toFixed(2)` formatting are left out. `updateReplayPosition` and the button label and colour changes are dropped from the handlers. They are display only and do not touch the modelled state.
- Real timer scheduling is left out. A timer firing is the explicit `Tick` event, and time does not pass between events.
- Parsing the selector's string with `parseInt` is left out. The selector's value is modelled as the integer it parses to, from the presets 1000, 200, 100, 20 and 10.
- Clicked positions that do not parse as dates (a `NaN` distance) are left out, because timestamps are integers.
- The error reporting, printing, `sys.argv`, `sys.exit` and file writing are left out. They are I/O. When loading fails, `create_replay_app_from_file` returns `None`, and unpacking that into two names at line 129 raises an exception instead of ending quietly. This path is not modelled.
- `os.path.basename` and `os.path.splitext` are modelled for POSIX paths only, with '/' as the one separator.
- Replay.Step: events follow the code as written, so a speed change while playing does not restart the timer. The corrected handler `AfterSpeedChangeRestart` is proved to keep `Inv` on each step; the event-sequence lemmas are stated for the handler as written only.

## Findings

| source | as written | input that shows it | evidently intended | confidence | as-written member | corrected member |
|---|---|---|---|---|---|---|
| create_replay.py:110 | the speed selector's change handler calls `playReplay` only when playing, and `playReplay` then returns at once, so the old timer keeps running | playing at 50x (20 ms), select 1x (1000 ms): frames still advance every 20 ms until the next pause and play | while playing, restart the timer at the newly selected period (the `clearInterval`/`setInterval` that `playReplay` skips), keeping the cursor | high, not executed | `Replay.SpeedChangeKeepsOldInterval` | `Replay.AfterSpeedChangeRestart` |
