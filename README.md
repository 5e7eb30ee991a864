# Leveler: a model of the player's application state

Leveler is a small desktop window. It plays the local MP3 files in its folder, keeps a to-do list, and awards experience points (xp) that roll over into levels. Points come from listening and from finishing tasks. A timer fires every 60 seconds and awards 1 point if, at that moment, the engine is playing and not paused. Finishing a task awards 10 points. This project models the in-memory state behind that window. The model leaves out the widgets, the audio library and the JSON files. It proves what each event handler does to that state.

- `Progression` (progression.dfy) covers the xp/level pair. `Award` is the closed form of one `add_xp` call. The lemmas say how awards compose: a run of awards equals one award of their sum, and starting from a fresh profile gives level `1 + total / 60` and xp `total % 60`.
- `Playback` (playback.dfy) covers the player as a value: the track index, the `paused` flag, the play button's label (`showingPause`) and the engine's `get_busy()` answer (`busy`). Each handler is a transition function. Its contract states the move between the three phases the user sees (Stopped, Playing, Paused). It also states that the `Consistent` invariant is kept: a paused player shows "play", and a stopped player has nothing running.
- `Text` (text.dfy) is Python's `str.strip()`, using Python's set of whitespace code points.
- `Leveler` (leveler.dfy) holds the class `App`, whose fields are the script's module-level variables and whose methods are its handlers. Each method's `ensures` ties the new state to the functions above. The module also holds `LoadName` (the name-file rule), `RemoveAt` (`list.pop`) and two scenario clients built only from the method contracts.

Three behaviours of the source are easy to misread; the model follows the source:
- Toggling while the button shows "pause" but the engine has already gone idle restarts the current track. It does not pause. This happens when the track ended before the 1-second poll noticed.
- `add_xp` leaves experience in [0, 60) only when the old xp plus the amount is non-negative (`Award`'s `p.xp + amount >= 0 ==> Normal(r)`). The loaded values are taken as they are, so `Normal` is a property proved of `Award`, not an invariant of `App`.
- `rename` accepts any non-empty answer, including one that is only whitespace. Only `load_name` strips and falls back to the default. So such a name reverts to the default after a restart (`RenameSurvivesReload`).

## Model

| member | source | states |
|---|---|---|
| `Progression.Award` | leveler.py:65-70 | Adding xp keeps `60*level + xp` equal to the old total plus the amount. Afterwards xp is below 60, and also non-negative when the sum was. The level never falls, and it changes only when the sum reaches 60. |
| `Progression.AwardNonNegative` | leveler.py:67-70 | For a non-negative sum, the level rises by exactly `(xp + amount) / 60` and xp becomes `(xp + amount) % 60`. |
| `Progression.AwardTwice` | leveler.py:65-70 | Awarding `a` and then a non-negative `b` ends where awarding `a + b` once ends. |
| `Progression.AwardAllIsAwardOfSum` | leveler.py:65-70 | Any run of non-negative awards, starting below 60 xp, equals one award of their sum. |
| `Progression.FromStart` | leveler.py:39-44 | From the default profile (0 xp, level 1), any run of non-negative awards ends at level `1 + total / 60` with `total % 60` xp. |
| `Progression.UnitAwards` | leveler.py:76-78 | `n` one-point ticks give the same xp and level as one award of `n` points. |
| `Progression.ThresholdTicksOneLevel` | leveler.py:65-78 | From a state with xp in [0, 60), 60 one-point ticks raise the level by exactly one and leave xp where it was. |
| `Leveler.App.AddXp` | leveler.py:65-74 | The while loop that subtracts 60 and raises the level ends exactly in `Award(old progress, amount)`. Only `xp` and `level` change. |
| `Playback.EarnsXpWhilePlaying` | leveler.py:76-78 | The tick's award condition (engine busy and not paused) holds, in a consistent player, exactly when the player is Playing with the engine busy. |
| `Leveler.App.XpTick` | leveler.py:76-79 | One tick awards exactly 1 xp when the engine is busy and not paused. Otherwise the progress is unchanged. |
| `Playback.InitialConsistent` | leveler.py:19-20 | The startup player (first track, not paused, button showing "play", engine idle) is consistent and Stopped. |
| `Leveler.App.constructor` | leveler.py:16-20 | Startup needs a non-empty track list. It starts on track 0, not paused, showing "play", with the engine idle. It takes the loaded progress and tasks, and the name given by `LoadName`. |
| `Playback.PlayMusic` | leveler.py:103-107 | Playing the current track leaves the engine busy and `paused` cleared. The track and the button label stay the same. |
| `Leveler.App.PlayMusic` | leveler.py:103-108 | Changes only `busy` and `paused`, exactly as `Playback.PlayMusic` says. |
| `Playback.Toggle` | leveler.py:110-117 | Engine idle: play, not paused, button "pause". Busy and paused: resume, button "pause". Busy and playing: pause, button "play". The track never changes, the engine is busy afterwards, and consistency is kept. The phase goes Stopped→Playing, Playing→Paused, Paused→Playing, or Playing→Playing when the track already ran out. |
| `Playback.ToggleWhilePausedIgnoresBusy` | leveler.py:112-115 | For a consistent paused player, toggling gives the same state whether the engine reports busy or idle: resuming and restarting the track leave the same modelled state. |
| `Playback.PauseResume` | leveler.py:114-117 | From Playing with the engine busy, two toggles restore the exact state. |
| `Leveler.App.TogglePlay` | leveler.py:110-117 | The new player state is `Toggle(old state)`, and the object invariant holds. |
| `Playback.Next` | leveler.py:119-122 | The index becomes `(i + 1) % count`, so it stays in range: the following track, or track 0 after the last one. The player ends Playing: not paused, button "pause", engine busy. |
| `Leveler.App.NextSong` | leveler.py:119-122 | The new player state is `Next(old state, number of tracks)`, and the object invariant holds. |
| `Playback.SongEnd` | leveler.py:82-86 | Clears `paused` and sets the button to "play", which gives Stopped. The track and the engine are untouched. The result is consistent exactly when the engine is idle. |
| `Leveler.App.OnSongEnd` | leveler.py:82-86 | Called with the engine idle, it gives `SongEnd(old state)` and keeps the object invariant. |
| `Playback.CheckEnd` | leveler.py:88-90 | When the button shows "pause" and the engine is idle, the player becomes Stopped with `paused` cleared. Otherwise nothing changes. In phase terms, only Playing with an idle engine moves, and it moves to Stopped. |
| `Leveler.App.CheckSongEnd` | leveler.py:88-91 | One poll gives `CheckEnd(old state)` and keeps the object invariant. |
| `Text.Strip` | leveler.py:135 | `strip()` returns a slice of the input that neither starts nor ends with whitespace, and everything it cuts off is whitespace. It is empty exactly when the input is blank. |
| `Leveler.App.AddTask` | leveler.py:134-138 | Blank entry text leaves the task list unchanged. Any other text appends its stripped form at the end. Nothing but `tasks` changes. |
| `Leveler.RemoveAt` | leveler.py:143 | `pop(k)` shortens the list by one and keeps the order of the rest. Exactly one copy of the element at `k` leaves the multiset. |
| `Leveler.App.DeleteSelected` | leveler.py:140-144 | With no selection, nothing changes. With a selection, the first selected index is popped and exactly 10 xp is awarded through `Award`. |
| `Leveler.App.Rename` | leveler.py:94-100 | A cancelled or empty answer keeps the old name. Any other answer becomes the name as typed. |
| `Leveler.LoadName` | leveler.py:50-55 | The loaded name is never empty and has no surrounding whitespace. It is the stripped file text, or "레가" when the file is missing or blank. |
| `Leveler.LoadNameStable` | leveler.py:50-59 | Saving the loaded name and loading it again gives the same name. |
| `Leveler.RenameSurvivesReload` | leveler.py:94-100 | A name accepted by `rename` comes back unchanged from the name file exactly when it has no surrounding whitespace. A whitespace-only name comes back as the default. |
| `Leveler.PlaylistScenario` | leveler.py:110-122 | With tracks a and b, the sequence toggle, toggle, toggle, next, next gives phases Playing, Paused, Playing, Playing, Playing on tracks 0, 0, 0, 1, 0. |
| `Leveler.CompleteTaskScenario` | leveler.py:140-144 | At 55 xp on level 3, completing a task gives level 4 with 5 xp and removes that task. |

## Left out

- Widgets: window construction, styling, the song label, the level label text and the refresh of the list box (leveler.py:146-230 and the `config` calls in the handlers). Only the play button's label is kept, as `showingPause`, because `check_song_end` reads it back.
- Audio library: `load`, `play`, `pause`, `unpause` are not modelled. The engine is just the `busy` flag. Starting a track sets it, and `App.TrackFinishes` clears it when a track ends. Pausing and resuming leave it unchanged. This is pygame 1's behaviour, where a paused track still reports busy. From pygame 2.0.1, `get_busy()` is false while paused, so `toggle_play` takes its first branch and restarts the track instead of resuming it (leveler.py:112-113). `ToggleWhilePausedIgnoresBusy` shows the modelled state is the same either way. The playback position, which differs, is not modelled.
- `set_volume` (leveler.py:124-125): a float conversion handed to the audio library. It touches no modelled state.
- File I/O: `load_tasks`, `save_tasks`, `load_xp`, `save_xp`, `save_name` (leveler.py:29-48, 57-59). The constructor takes the loaded xp, level and tasks as parameters. The save after each change is not modelled. Only `load_name`'s strip-and-default rule is modelled (`LoadName`).
- Every save and every track load is assumed to succeed. In the source, such an error aborts the handler part-way, and the model does not capture that path. Three effects follow. If `save_tasks` raises in `delete_selected`, the task stays popped, no xp is awarded and the list box goes stale (leveler.py:143-144). If `save_xp` raises inside `xp_tick`, the rescheduling `root.after` call is never reached and the xp timer stops for good (leveler.py:74, 78-79). If `music.load` raises in `next_song`, the index has already advanced (leveler.py:105, 121-122).
- Malformed saved files, which raise in the source: not modelled. Saved tasks are assumed to be strings.
- Saved xp and level are assumed to be integers. `load_xp` accepts any JSON value there, a float for example (leveler.py:43).
- Reading name.txt is assumed to return exactly what `save_name` wrote. Text-mode newline translation turns an inner "\r" into "\n", so `RenameSurvivesReload`'s "unchanged" holds only for names without "\r".
- Startup plumbing: the frozen-bundle path choice and the `*.mp3` glob (leveler.py:9-16). An empty track list aborts startup in the source (leveler.py:17-18). Here it is the constructor's precondition.
- Timers: the `root.after` self-rescheduling (leveler.py:79, 91, 227-228). One call of `XpTick` or `CheckSongEnd` is one firing of the timer.
- The rename dialog (leveler.py:96): its answer is the parameter `entered`, and `None` stands for a cancelled dialog.
- Leveler.App.DeleteSelected: requires the first selected index to be within the task list. The list box always mirrors `tasks`, so the `IndexError` that `pop` would raise on a bad index is not modelled.
