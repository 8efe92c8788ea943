# Gammy's adaptive controller, modelled in Dafny

Gammy adjusts the screen's brightness to what is displayed and shifts its
colour temperature over the day. This project models the decision logic,
taken out of its threads and written as step methods over explicit state:

- **Temperature schedule** (`Temperature`, `Schedule`). A four-state machine
  HIGH → LOWERING → LOW → INCREASING → HIGH is driven by two boundaries,
  `time_start` and `time_end`. Each boundary is an "HH:MM:SS" string pinned
  to a Julian day number. A clock tick moves into LOWERING in the low period.
  A user override (`force`) re-aims the direction. A wake-up picks a target
  step, and an easing loop moves the step there frame by frame. Only an
  INCREASING ease aims at `temp_high` and ends in HIGH; an ease that starts
  in HIGH or LOW aims at `temp_low` and ends in LOW. So with a persisted HIGH
  and `auto_temp` on, the first plain wake lowers the temperature.
- **Brightness** (`Brightness`). The brightness target is computed from the
  image brightness and clamped to `[min_br, max_br]`. The easing loop that
  reaches it gives way to a newer value, to `auto_br` being switched off,
  and to quitting.
- **Capture gating** (`Capture`). A new image brightness is published to the
  brightness thread only when the accumulated drift exceeds `threshold`, or
  when a publish is forced. Activation forces one, and so does a change of
  `min_br`, `max_br` or `offset`.
- **Configuration** (`Cfg`, `Startup`). This covers the compiled-in defaults
  and the settings path on Linux and on Windows. `save` and `read` are
  modelled over the outcomes of their file operations. Last comes the step
  initialisation at start-up.

Each thread's wake-up or tick is one method call. What the world supplies is
a parameter:

- the current instant (a Julian day and the milliseconds into it);
- per frame: the option values, the quit flag and the easing curve's value;
- the outcome of each file operation;
- the environment variables.

`brt_slider_steps` and `max_temp_kelvin` come from defs.h, which is not part
of this model, so they are parameters too. `remap` comes from utils.h, which
is not part of this model either. The caller passes it in as an integer
function, already truncated as the source's `int(...)` truncates it.

## Model

| member | source | states |
|---|---|---|
| Cfg.Default | src/cfg.cpp:16-39 | every default value: `min_br` is half the steps and at most `max_br`, which equals the steps and `brightness`; `offset` is a third of the steps; state HIGH at step 0; threshold 36; the schedule runs from "17:00:00" to "06:00:00"; automatic brightness is on and automatic temperature is off |
| Cfg.ConfigPath | src/cfg.cpp:117-144 | the path is empty exactly when neither `XDG_CONFIG_HOME` nor `HOME` is set; otherwise it ends in "/gammy" after `XDG_CONFIG_HOME` when that is set, and after `HOME` + "/.config" when it is not |
| Cfg.Find | src/cfg.cpp:153 | `wstring::find` yields the first index at or after the start where the pattern occurs, or nothing when it occurs nowhere there |
| Cfg.ExecutablePath | src/cfg.cpp:146-158 | the result is missing exactly when "gammy.exe" does not occur (the erase throws); otherwise the module path with its first "gammy.exe" removed, followed by "gammysettings.cfg", so it always ends in that name |
| Cfg.Store.constructor | src/cfg.cpp:41-47 | `cfg` starts as exactly the defaults, and the file is not yet written |
| Cfg.Store.Save | src/cfg.cpp:49-76 | with an empty path, or a file that cannot be opened, the file is left alone; a serialisation error leaves it truncated and partly written; otherwise it holds `cfg` |
| Cfg.Store.Read | src/cfg.cpp:78-114 | an unopenable file changes nothing; an empty file keeps `cfg` and saves it; a parsed file replaces `cfg`; a malformed one resets `cfg` to exactly the defaults and saves them |
| Schedule.At | src/main.cpp:78-79 | a boundary instant lies on the day number it was pinned to, and a valid time is a whole number of minutes into that day |
| Schedule.LaterIsStrictOrder | src/main.cpp:89-90 | the `>` on date-times that `checkDates` uses is irreflexive, asymmetric, transitive and total on distinct instants |
| Schedule.AtOrder | src/main.cpp:78-79 | on one day a boundary is later exactly when its hour is later, or its hour is the same and its minute later; a boundary on a later day is later whatever its time |
| Schedule.Substr | src/main.cpp:46-47 | `substr` fails exactly when the position is past the end, and otherwise yields the `min(n, rest)` characters that follow the position |
| Schedule.SkipSpace | src/main.cpp:49 | `stoi` skips exactly the leading run of white space: every character dropped is white space, what remains is a suffix of the input, and it does not start with white space |
| Schedule.DigitRun | src/main.cpp:49 | the length of the leading run of decimal digits: all of them digits, followed by a non-digit or the end |
| Schedule.DigitsValue | src/main.cpp:49 | the value of `n` decimal digits is below 10 to the `n`, and a single digit stands for its own value |
| Schedule.Magnitude | src/main.cpp:49 | there is a magnitude exactly when the string starts with a digit |
| Schedule.Convert | src/main.cpp:49 | after the white space, a value is produced only inside the `int` range and only when a digit comes first or right after the first character |
| Schedule.Stoi | src/main.cpp:49 | `stoi` yields only values inside the 32-bit `int` range, and only when the string holds a digit; its value on each form of input is given by the lemmas below |
| Schedule.StoiAfterSpace | src/main.cpp:49 | leading white space does not change what `stoi` converts |
| Schedule.ConvertDigits | src/main.cpp:49 | unsigned digits up to the first non-digit convert to their value when it is at most 2147483647, and throw otherwise |
| Schedule.ConvertMinusDigits | src/main.cpp:49 | a `-` and digits convert exactly when minus their value is at least -2147483648, and then to minus that value |
| Schedule.ConvertPlusDigits | src/main.cpp:49 | a `+` and digits convert as the digits alone do |
| Schedule.ConvertSignNoDigits | src/main.cpp:49 | a sign not followed by a digit throws |
| Schedule.ConvertNoDigits | src/main.cpp:49 | a string starting with neither a sign nor a digit throws |
| Schedule.StoiDigits | src/main.cpp:49 | white space, then the longest run of digits, converts to the run's value when that fits in an `int` and throws otherwise, whatever follows |
| Schedule.ParseTime | src/main.cpp:44-50 | `setTime` fails on any string of three characters or fewer, because the minute's `substr(3, 2)` throws or yields nothing to convert |
| Schedule.StoiTwoDigits | src/main.cpp:49 | `stoi` converts each two-digit string "00" … "99" to its number |
| Schedule.ParseTimeDigits | src/main.cpp:44-50 | `setTime` reads the hour from characters 0-1 and the minute from characters 3-4, whatever the separator and the seconds are |
| Schedule.StoiOneDigit | src/main.cpp:49 | a digit followed by a non-digit converts to that digit |
| Schedule.ParseTimeOneDigit | src/main.cpp:44-50 | a single-digit hour or minute is read together with the character after it, so it still converts to that digit |
| Schedule.SevenThirtyReadsSeven | src/main.cpp:44-50 | "7:30:00" is read as 07:00, because the minute comes from characters 3-4, "0:" |
| Schedule.ParseTimeReadsFields | src/main.cpp:46-47 | two strings that agree on characters 0, 1, 3 and 4 give the same time: the separator and the seconds are ignored |
| Schedule.BoundsOf | src/main.cpp:75-76 | a boundary converts only from a string longer than three characters |
| Schedule.DefaultStartParses | src/cfg.cpp:32 | the default start "17:00:00" converts to 17:00 |
| Schedule.DefaultEndParses | src/cfg.cpp:33 | the default end "06:00:00" converts to 06:00 |
| Temperature.Forced | src/main.cpp:193-203 | after a forced wake, the state is LOWERING or LOW exactly when the start boundary is reached; a change is always into LOWERING (start reached) or INCREASING (not reached), so at most one of the two rules fires; the state stays as it is exactly when it already agrees with the boundary |
| Temperature.SpeedMinutes | src/main.cpp:281-283 | a float `temp_speed` is used as it is, and any other number is replaced by 30 minutes |
| Temperature.LastReset | src/main.cpp:307-341 | the last frame that re-checks the interval lies among the frames considered |
| Temperature.LastResetIsLast | src/main.cpp:307-341 | the frame found re-checks the interval and no later one does; nothing is found exactly when no frame re-checks it |
| Temperature.DefaultBounds | src/main.cpp:73-76 | with the default configuration both boundaries convert, to 17:00 and 06:00 |
| Temperature.Controller.constructor | src/main.cpp:59-112 | no override is pending, the interval runs from today to tomorrow, the persisted state and step are kept, and the interval invariant `Valid` holds |
| Temperature.Controller.SetDates | src/main.cpp:73-82 | succeeds exactly when both boundaries convert, and then pins each one to its own day number |
| Temperature.Controller.CheckDates | src/main.cpp:84-94 | `start_r` says whether now is past the start; `end_r` says whether the start is reached and now is past the end, so `end_r` implies `start_r` |
| Temperature.Controller.ResetInterval | src/main.cpp:96-106 | shifting moves both day numbers by exactly one day, and not shifting moves neither; afterwards the boundaries and reached flags are recomputed and the interval invariant holds |
| Temperature.Controller.Start | src/main.cpp:108-132 | the interval starts today; it ends today exactly when the persisted state is LOW and today's start is not yet reached, and tomorrow otherwise; the first ease is fast and a change is pending exactly when `auto_temp` is on |
| Temperature.Controller.ClockTick | src/main.cpp:146-169 | with `auto_temp` off nothing changes; otherwise the reached flags are recomputed; the low period sets LOWERING and requests a change; any other period leaves state and request alone; `fast_change` is cleared; a tick never produces INCREASING, because the high period cannot hold |
| Temperature.Controller.Override | src/main.cpp:189-219 | a forced wake re-checks the interval without shifting it: the boundary times become the converted ones and the reached flags are recomputed against them; the state moves to `Forced` of the old one, the next ease is fast exactly when the state changed (or it was fast already), and `force` is cleared |
| Temperature.Controller.ChooseTarget | src/main.cpp:226-287 | with `auto_temp` off nothing is planned; the target is the remapped `temp_high` while INCREASING and `temp_low` otherwise; a target equal to the step plans nothing and keeps `fast_change`; otherwise the ease starts at the step, lasts 2 seconds when fast and `temp_speed` × 60 seconds otherwise, and `fast_change` is cleared |
| Temperature.Controller.Wake | src/main.cpp:176-287 | a forced wake applies the override (new boundary times and reached flags, `Forced` state) and keeps `needs_change`, while any other wake clears `needs_change` and leaves the state, boundary times and flags alone; the step is never changed by a wake; a boundary that does not convert stops the thread only on a forced wake |
| Temperature.Controller.RunFrame | src/main.cpp:307-341 | a raised override is recorded first, so it stays pending when the frame stops on `auto_temp` off or on quit; one frame stops on `auto_temp` off, on quit, on a preempting override (LOWERING before the start becomes INCREASING, INCREASING after it becomes LOWERING, next ease fast, `force` kept), or when the eased step reaches the end (INCREASING becomes HIGH, anything else LOW); a frame that re-checks the interval is preempted exactly when its direction goes against the start boundary (`KeepsDirection` fails); otherwise the step takes the eased value and `force` is cleared; a frame that re-checks the interval leaves the boundaries converted and checked at its instant, and any other frame leaves them unchanged |
| Temperature.Controller.FrameOverride | src/main.cpp:311-330 | a pending override in the easing loop re-checks the interval; it stops the loop with `force` kept and the next ease fast exactly when LOWERING meets an unreached start (becoming INCREASING) or INCREASING a reached one (becoming LOWERING); otherwise `force` is cleared and the state is kept |
| Temperature.Controller.RunFrames | src/main.cpp:307-341 | the loop completes only on a frame whose eased value is the end, with the final state HIGH after INCREASING and LOW otherwise; the step is the last applied value; every applied frame had `auto_temp` on and no quit, and every applied frame that re-checked the interval kept the direction (`NonePreempted`); after completing, or running out of frames, no override is left pending unless none was applied and one was pending before; after stopping on `auto_temp` off or quit, an override is pending exactly when one was pending before the first frame or the stopping frame raised one; each way out is characterised; the boundary times and reached flags are those checked by the last frame that re-checked the interval, and unchanged when none did |
| Brightness.Args.constructor | src/main.cpp:352-363 | the slot starts at 0 with nothing pending |
| Brightness.Args.Publish | src/main.cpp:544-549 | a publish overwrites the slot and marks it pending |
| Brightness.Args.Take | src/main.cpp:384-386 | taking yields the slot's value and clears the pending mark |
| Brightness.Clamp | src/main.cpp:390 | `std::clamp` lies within the bounds, keeps a value inside them, and moves a value outside them to the bound it passed |
| Brightness.Target | src/main.cpp:389-390 | the brightness target always lies in `[min_br, max_br]`; it equals the unclamped `brt_slider_steps - remap(img_br) + offset` when that fits, and the crossed bound otherwise |
| Brightness.TargetAntitone | src/main.cpp:389-390 | with a monotone `remap`, a brighter image never gets a higher brightness target |
| Brightness.Adjuster.constructor | src/main.cpp:29 | `brt_step` starts at the value given |
| Brightness.Adjuster.Wake | src/main.cpp:374-396 | with quit set the thread stops and takes nothing; otherwise it takes the pending value; exactly when the target equals `brt_step` nothing is planned; otherwise the ease runs from `brt_step` to a target in `[min_br, max_br]`; `brt_step` is unchanged |
| Brightness.Adjuster.RunFrames | src/main.cpp:398-430 | the loop stops as soon as a value is pending, `auto_br` is off, quit is set, or `brt_step` reaches the target; completion happens only at the target; every applied frame saw nothing pending, `auto_br` on and no quit; a value published in the middle of the loop is the one left in the slot; when the loop stops early, it stops for a new value exactly when one was pending at entry or the stopping frame published one |
| Capture.Abs | src/main.cpp:537 | `abs` is non-negative and equals its argument or its negation |
| Capture.Step | src/main.cpp:536-562 | the drift from the previous brightness is added to `img_delta`; a publish happens exactly when the sum exceeds `threshold` or a publish is forced, and resets the sum; without one, the sum never decreases; `force` is set exactly when `min_br`, `max_br` or `offset` changed; the current values become the previous ones |
| Capture.RunTo | src/main.cpp:532-562 | before any pass the state is the starting one; after passes, the previous brightness, `min_br`, `max_br` and `offset` are those of the last sample |
| Capture.LastPublishedIndex | src/main.cpp:536-549 | the last published pass lies among the passes considered |
| Capture.LastPublishedIsLast | src/main.cpp:536-549 | the pass found was published and no later one was; nothing is found exactly when no pass published |
| Capture.Drift | src/main.cpp:537 | the summed drift is never negative |
| Capture.ForcedPublishes | src/main.cpp:527-549 | with a publish forced, the first pass publishes, so any non-empty run publishes; after one pass the slot holds its brightness and `img_delta` is 0 |
| Capture.UnpublishedDriftAccumulates | src/main.cpp:532-562 | while nothing is published, `img_delta` is its start value plus every drift seen, and it never exceeds the threshold of the last pass |
| Capture.Gate.constructor | src/main.cpp:494-502 | the accumulator and the previous values start at 0, with no publish forced |
| Capture.Gate.Activate | src/main.cpp:520-530 | with `auto_br` on the next publish is forced; with it off nothing changes |
| Capture.Gate.Tick | src/main.cpp:536-562 | one pass moves the gating state exactly as `Step` does; a publish hands the brightness over and marks it pending; without one the slot is untouched |
| Capture.Gate.Gated | src/main.cpp:532-562 | samples are gated while `auto_br` stays on and quit is not set; the state is that of `RunTo` after them; the slot holds the brightness of the last published sample, or its old value; a value is pending exactly when one was before or a sample was published |
| Capture.Gate.Record | src/main.cpp:520-562 | with `auto_br` off neither the gating state nor the slot changes; otherwise the gating is forced and the samples gated as `Gated` states; the first gated sample is always published; the slot then holds the brightness of the last published sample; the previous values are those of the last sample; after any gated sample a value is pending |
| Startup.Boot | src/main.cpp:596-609 | after `read`, `brt_step` is the saved `brightness` when automatic brightness is off and `brt_slider_steps` otherwise; `temp_step` restarts at 0 when automatic temperature is on; for an empty or malformed file, the saved file holds the configuration as loaded (or is partly written when serialisation throws), and it is untouched otherwise; a malformed file therefore starts from the defaults at full brightness |

## Left out

- Threads, condition variables and mutexes. Each wake-up, tick or frame is one sequential call. Interleavings are not modelled, such as a clock tick rewriting `temp_state` in the middle of an easing loop that does not hold the lock. Values that another thread sets between frames arrive with the frame.
- `w.quit` after the waits, and shutdown coordination. Quitting appears only as the flag the loops test.
- The real clock and `QDateTime`. The current instant is a parameter. The clock's once-a-second wait and the frame sleeps are not modelled.
- The easing functions, `FPS`, and the `double` duration and `time_incr` arithmetic. The easing curve's value for each frame is supplied with the frame. The planned duration is reported as a real.
- The bodies of `remap` and `calcBrightness` (utils.h is not part of this model). `remap` is an integer function passed by the caller. `calcBrightness`'s result arrives with each capture sample.
- Temperature.Controller.Wake: the controller receives `time_start` and `time_end` already converted, as `Schedule.BoundsOf` converts them. A configuration change during a call is not modelled.
- Schedule.ParseTime: `QTime` of an out-of-range hour or minute gives an invalid time, and comparisons against it are not modelled. The converted numbers are kept as they are.
- A conversion that throws terminates the process in the source. Here it is a failed result (`Halt` or `Halted`), after which the model does nothing further.
- Temperature.Controller.ChooseTarget: a `temp_speed` that is not a float is replaced by 30 in the configuration. Only the minutes used are modelled.
- A persisted `temp_state` outside 0-3, and options of the wrong JSON type. The configuration record is well typed.
- The JSON library, file streams, serialisation and logging. `save` and `read` are modelled over the outcomes of the file operations.
- `GetModuleFileNameW` truncating long paths. The module path is a parameter.
- Cfg.ExecutablePath works on `string` rather than wide strings. That changes nothing in the search-and-erase logic.
- Capture.Gate.Tick: `img_delta` is an unbounded integer, so the 32-bit overflow of an accumulator that is never reset is not modelled.
- Screen capture (DXGI, GDI, X11), buffer resizing, gamma setting, the window and its slider callbacks. These are foreign or UI code.
- The signal handler and the Qt set-up in `main`.
- The logic commented out in `adjustTemperature`. Nothing in the model shifts the interval by a day, because `resetInterval(true)` appears only there.
- Brightness.Target: requires `min_br <= max_br`, which is `std::clamp`'s own precondition. Brightness.Adjuster.Wake inherits it. A configuration read from disk does not guarantee it, and where it fails the source's behaviour is undefined, so that case is not modelled.
- Schedule.ParseTime: indexes characters, while `std::string::substr` indexes bytes of the UTF-8 text. For "1é:05" the source's `substr(3, 2)` is ":0" and `stoi` throws, while the model reads characters 3-4, "05", and gives 01:05. The two agree on ASCII strings.
