# Teleprompter autoscroll engine and speed controller

This project models the logic of the Speak'O! teleprompter page
(`src/pages/TelePrompter.jsx`). The page shows a script in a scrollable stage and
scrolls it automatically at a speed the user sets in pixels per second. Three
modules make up the model:

- `SpeedControl` (`speed_control.dfy`) models `clamp`, `setSpeedClamped`, `incSpeed`
  and `decSpeed` with the bounds `SPEED_MIN = 10`, `SPEED_MAX = 100` and
  `SPEED_STEP = 10`. JavaScript numbers are the datatype `JsNumber`: a real, the two
  infinities, or NaN. `Math.round` rounds halves towards +Infinity, and
  `Math.min`/`Math.max` return NaN when either argument is NaN.
- `Lines` (`lines.dfy`) models how the script becomes paragraphs. The text is split
  on `"\n"` with JavaScript `split` semantics, so `""` gives `[""]`. `join("\n")`
  turns `[]` into `""`. An empty line is shown as a non-breaking space. The module
  also covers the page's initial 80-line script and the sample used by its runtime
  self-test.
- `Autoscroll` (`autoscroll.dfy`) models the animation-frame loop. There are pure
  functions for one frame (`FrameOf`), for the effect's restart (`Restarted`) and for
  a sequence of frames (`Run`, `Stepped`, `Fed`). The class `Teleprompter` holds the
  page's mutable state: `scrollTop`, the stage heights, the speed, the run flag, the
  pending-frame flag, the previous timestamp and the accumulator. Its methods are
  proved to follow those functions and to keep the class invariant `Valid()`.

Browser parts are explicit. Timestamps are parameters. `scheduled` stands for a
pending `requestAnimationFrame`: asking for a frame sets it, and
`cancelAnimationFrame` or the callback firing clears it. Time and the accumulator
are `real`.

A state change and the React commit that follows it are one method. The
`[speed, running]` effect's cleanup cancels the pending frame, and its body restarts
the loop if the flag is on. React skips the effect when the new speed equals the old
one, so `ChangeSpeed` restarts only when the stored speed actually changes. `Frame`
requires only `Valid()`. It does not require a pending frame, so a late callback is
covered too. A frame that finds the flag off changes nothing; `Valid()` then already
says that no frame is pending.

`scrollBy(0, step)` is modelled like the fallback assignment at line 41, as
`min(offset + step, max)` floored at 0. The browser also pulls `scrollTop` back
inside the stage when the content shrinks. `Teleprompter.Resize` models that
browser behaviour; it is not code of the page. The stage scrolls by hand too
(`overflowY: "auto"`), and each frame reads the live `scrollTop`.
`Teleprompter.UserScroll` models a manual scroll; the loop goes on from the new
offset.

## Model

| member | source | states |
|---|---|---|
| `SpeedControl.Min` | src/pages/TelePrompter.jsx:100 | `Math.min`: NaN exactly when an argument is NaN, otherwise one of the arguments and no larger than either |
| `SpeedControl.Max` | src/pages/TelePrompter.jsx:100 | `Math.max`: NaN exactly when an argument is NaN, otherwise one of the arguments and no smaller than either |
| `SpeedControl.Clamp` | src/pages/TelePrompter.jsx:100 | with finite bounds lo <= hi: NaN stays NaN, a value at or above hi (or +Infinity) gives hi, one at or below lo (or -Infinity) gives lo, one in between is returned unchanged |
| `SpeedControl.Round` | src/pages/TelePrompter.jsx:101 | `Math.round` of a finite number is an integer within half a unit of it (halves go up); infinities and NaN pass through |
| `SpeedControl.SetSpeedClamped` | src/pages/TelePrompter.jsx:96-101 | for every input that is not NaN the stored speed is an integer in [10, 100]; NaN gives NaN and nothing else does; a rounded input at or above 100 (or +Infinity) is stored as 100, one at or below 10 (or -Infinity) as 10, one in between as it is |
| `SpeedControl.ClampedSpeed` | src/pages/TelePrompter.jsx:101 | the stored speed as an integer, always in [10, 100] |
| `SpeedControl.IncSpeed` | src/pages/TelePrompter.jsx:102 | `incSpeed` always yields a speed in [10, 100] |
| `SpeedControl.DecSpeed` | src/pages/TelePrompter.jsx:103 | `decSpeed` always yields a speed in [10, 100] |
| `SpeedControl.ClampWithin` | src/pages/TelePrompter.jsx:100 | clamping any non-NaN number (infinities included) into [lo, hi] yields a finite value in [lo, hi] |
| `SpeedControl.ClampOutside` | src/pages/TelePrompter.jsx:100 | values beyond a bound, infinities included, are sent to that bound |
| `SpeedControl.ClampFixesInside` | src/pages/TelePrompter.jsx:100 | a value already in [lo, hi] is left unchanged |
| `SpeedControl.ClampIdempotent` | src/pages/TelePrompter.jsx:100 | clamping twice equals clamping once, for every input |
| `SpeedControl.RoundHalfUp` | src/pages/TelePrompter.jsx:101 | n + 0.5 rounds to n + 1, so -2.5 rounds to -2 |
| `SpeedControl.SetSpeedKeepsValidSpeed` | src/pages/TelePrompter.jsx:96-101 | an integer speed already in [10, 100] is stored unchanged |
| `SpeedControl.SetSpeedIdempotent` | src/pages/TelePrompter.jsx:101 | applying `setSpeedClamped` to its own result changes nothing |
| `SpeedControl.SetSpeedExamples` | src/pages/TelePrompter.jsx:96-101 | 150 is stored as 100 and -5 as 10; 54.5 rounds to 55; +Infinity gives 100, -Infinity gives 10, NaN gives NaN |
| `SpeedControl.IncSpeedSteps` | src/pages/TelePrompter.jsx:102 | at 100 `incSpeed` stays at 100; at 90 or below it adds exactly 10; above 90 it gives 100; it never lowers the speed |
| `SpeedControl.DecSpeedSteps` | src/pages/TelePrompter.jsx:103 | at 10 `decSpeed` stays at 10; at 20 or above it subtracts exactly 10; below 20 it gives 10; it never raises the speed |
| `SpeedControl.IncDecInverse` | src/pages/TelePrompter.jsx:102-103 | away from the bounds, one decrement undoes one increment and vice versa |
| `Lines.Split` | src/pages/TelePrompter.jsx:178 | `split("\n")` gives one more piece than the text has newlines, and no piece contains a newline |
| `Lines.Join` | src/pages/TelePrompter.jsx:58 | `join("\n")` starts with the first line, and newline-free lines give exactly one newline fewer than there are lines |
| `Lines.SplitNewlineFreePrefix` | src/pages/TelePrompter.jsx:178 | a newline-free prefix only extends the first piece of the split |
| `Lines.JoinSplit` | src/pages/TelePrompter.jsx:178 | joining the pieces of any split with `"\n"` gives back the text |
| `Lines.SplitJoin` | src/pages/TelePrompter.jsx:58-59 | splitting the `"\n"`-join of one or more newline-free lines gives back exactly those lines, so their number is preserved |
| `Lines.EmptyJoinSplitsToOneLine` | src/pages/TelePrompter.jsx:58-59 | the only exception: the join of no lines splits into one empty line |
| `Lines.DisplayLine` | src/pages/TelePrompter.jsx:179 | a displayed paragraph is never empty, and a non-empty line is displayed as it is |
| `Lines.Render` | src/pages/TelePrompter.jsx:178-179 | one paragraph per line; no paragraph is empty; each is its line, or a non-breaking space for an empty line |
| `Lines.NatToString` | src/pages/TelePrompter.jsx:58 | a number's decimal form is a non-empty string of digits with no leading zero, and the digits denote the number |
| `Lines.Repeat` | src/pages/TelePrompter.jsx:9 | `s.repeat(n)` has length n times that of s and only characters of s |
| `Lines.RepeatAt` | src/pages/TelePrompter.jsx:9 | `s.repeat(n)` is n copies of s in order: character j of copy k is character j of s |
| `Lines.Sample` | src/pages/TelePrompter.jsx:58 | the self-test's sample has n newline-free lines, each starting with "L" followed by the decimal digits of its 1-based index (`NatToString(i + 1)`) |
| `Lines.SampleLineCount` | src/pages/TelePrompter.jsx:58-59 | for every n >= 1, the join of "L1" ... "Ln" splits into n lines |
| `Lines.SelfTestSample` | src/pages/TelePrompter.jsx:58-59 | the self-test's three sample lines split back into 3 |
| `Lines.InitialLine` | src/pages/TelePrompter.jsx:9 | a line of the initial script has no newline, and its length is that of 8 copies of "Baris contoh ke-<n>. " |
| `Lines.InitialText` | src/pages/TelePrompter.jsx:9 | the initial script holds exactly 79 newlines |
| `Lines.InitialTextLines` | src/pages/TelePrompter.jsx:9 | the initial script splits back into its 80 lines, in order, and renders 80 paragraphs |
| `Autoscroll.ElapsedMs` | src/pages/TelePrompter.jsx:33 | the elapsed time a frame uses never exceeds 100 ms, however long the gap; it is the real gap when that is shorter |
| `Autoscroll.Feed` | src/pages/TelePrompter.jsx:37 | speed * dt / 1000 is never negative for a forward step of time, and is at most speed / 10 pixels within the 100 ms cap |
| `Autoscroll.StepOf` | src/pages/TelePrompter.jsx:38 | below one pixel nothing is stepped; from one pixel up, at least one whole pixel is stepped and a fraction in [0, 1) is left |
| `Autoscroll.ScrollBy` | src/pages/TelePrompter.jsx:40-41 | the new offset lies in [0, max(0, max)]; it never goes back; it is offset + step when that fits, and exactly max(0, max) when the step would go past the bottom |
| `Autoscroll.FrameOf` | src/pages/TelePrompter.jsx:31-49 | with the flag off nothing changes and nothing is scheduled; otherwise the baseline moves to `now`, and the loop reschedules and keeps running exactly when the offset is below max; the carry loses exactly the pixels stepped and stays below 1; the invariant is kept; the offset never goes back; every running frame, including the one that ends the loop, moves the offset to `min(offset + step, max)` (`ScrollBy`), where step is the floor of the accumulator once it holds a pixel |
| `Autoscroll.Restarted` | src/pages/TelePrompter.jsx:24-53 | after the cleanup and the effect, a frame is pending exactly when the flag is on; a restart empties the accumulator and takes `now` as baseline; the offset is untouched |
| `Autoscroll.Run` | src/pages/TelePrompter.jsx:31-51 | after any sequence of frames the offset is in [0, max(0, scrollHeight - clientHeight)], the carry is below 1, a frame is pending only while running, and the offset never went back; a stopped loop is left as it is |
| `Autoscroll.Stepped` | src/pages/TelePrompter.jsx:38-42 | the pixels stepped over a sequence of frames are never negative, and none are stepped once the loop is stopped |
| `Autoscroll.Fed` | src/pages/TelePrompter.jsx:33-37 | the pixels fed to the accumulator are none once the loop is stopped, and never negative for timestamps that never go back and a non-negative speed |
| `Autoscroll.StoppedStaysStopped` | src/pages/TelePrompter.jsx:32 | once the flag is off, further frames change nothing, step nothing and accumulate nothing |
| `Autoscroll.Conservation` | src/pages/TelePrompter.jsx:37-42 | pixels stepped plus the remaining carry equal the initial carry plus the sum of speed * dt / 1000 over the frames that ran |
| `Autoscroll.CarryStaysFractional` | src/pages/TelePrompter.jsx:37-42 | with timestamps that never go back and a non-negative speed, the carry stays in [0, 1) |
| `Autoscroll.OffsetTracksSteps` | src/pages/TelePrompter.jsx:38-42 | while the loop keeps running, the offset has moved by exactly the pixels stepped |
| `Autoscroll.ScrolledWithinOnePixel` | src/pages/TelePrompter.jsx:33-42 | from an empty accumulator, with a non-negative speed, timestamps that never go back, and the loop still running after the last frame (so not clamped at the bottom), the distance scrolled is at most the sum of speed * dt / 1000 and less than one pixel short of it |
| `Autoscroll.NothingToScroll` | src/pages/TelePrompter.jsx:36-48 | when the viewport is at least as tall as the content, the first frame stops the loop at offset 0 |
| `Autoscroll.ResumeWithoutJump` | src/pages/TelePrompter.jsx:28-37 | after a pause and a resume, a frame at the resume time leaves the offset where it was paused, with an empty carry |
| `Autoscroll.TenPixelsPerSecondFrom` | src/pages/TelePrompter.jsx:31-49 | speed 10, max 300, frames 100 ms apart, from any offset k below 300: the loop ends at offset 300 with the flag off and nothing pending |
| `Autoscroll.TenPixelsPerSecondReachesBottom` | src/pages/TelePrompter.jsx:31-49 | from the top, 300 frames over 30 s bring a 1000-pixel script in a 700-pixel stage to offset 300, and the loop switches itself off |
| `Autoscroll.HalfPixelFramesFrom` | src/pages/TelePrompter.jsx:31-49 | speed 10, max 300, frames 50 ms apart, from any offset k below 300: each frame feeds half a pixel, the accumulator alternates between 0.5 and 0, and the loop ends at offset 300 with the flag off |
| `Autoscroll.HalfPixelFramesReachBottom` | src/pages/TelePrompter.jsx:31-49 | from the top, 600 frames of 50 ms over 30 s bring the 1000-pixel script in a 700-pixel stage to offset 300, and the loop switches itself off |
| `Autoscroll.Teleprompter.constructor` | src/pages/TelePrompter.jsx:12-13 | the page starts at the top with speed 10, paused, nothing pending |
| `Autoscroll.Teleprompter.MaxOffset` | src/pages/TelePrompter.jsx:36 | the largest offset never lies past the content, and there is nothing to scroll once the viewport is as tall as the content |
| `Autoscroll.Teleprompter.Frame` | src/pages/TelePrompter.jsx:31-49 | the frame callback changes the state exactly as `FrameOf` says and keeps `Valid()` |
| `Autoscroll.Teleprompter.Restart` | src/pages/TelePrompter.jsx:24-53 | the effect re-run changes the state exactly as `Restarted` says and makes it `Valid()` |
| `Autoscroll.Teleprompter.ToggleRunning` | src/pages/TelePrompter.jsx:193 | play/pause flips the flag and restarts the loop as `Restarted` says |
| `Autoscroll.Teleprompter.ChangeSpeed` | src/pages/TelePrompter.jsx:101 | the stored speed is the clamped input; the loop restarts only when the speed actually changed |
| `Autoscroll.Teleprompter.IncreaseSpeed` | src/pages/TelePrompter.jsx:102 | the speed becomes `IncSpeed` of the old one, restarting the loop only if it changed |
| `Autoscroll.Teleprompter.DecreaseSpeed` | src/pages/TelePrompter.jsx:103 | the speed becomes `DecSpeed` of the old one, restarting the loop only if it changed |
| `Autoscroll.Teleprompter.ResetScroll` | src/pages/TelePrompter.jsx:67 | the offset becomes 0, and the flag, the pending frame and the accumulator are untouched |
| `Autoscroll.Teleprompter.UserScroll` | src/pages/TelePrompter.jsx:88 | a manual scroll to any offset inside the stage moves only the offset; the loop, the flag and the accumulator are untouched |
| `Autoscroll.Teleprompter.Resize` | src/pages/TelePrompter.jsx:169 | after an edit changes the stage's heights, the offset is pulled back inside the new stage and nothing else changes |

## Left out

- Rendering, styles, icons, the mirror and editor-panel toggles: view wiring with no behaviour to verify.
- `requestAnimationFrame`, `cancelAnimationFrame` and `performance.now`: the `scheduled` flag and caller-supplied timestamps stand in for them. The browser's choice of frame times is not modelled.
- The first frame can see a negative elapsed time, because the baseline is taken when the effect runs. The carry properties that need a non-negative accumulator are therefore stated for timestamps that never go back. `Conservation` and the invariant kept by `Run` hold for all timestamps.
- Teleprompter.ChangeSpeed: requires an input that is not NaN. Real callers pass the range input's numeric value or `speed ± 10`. The pure `SetSpeedClamped` does model NaN propagating.
- IEEE floating point, `Number(...)` coercion of strings, and negative zero: numbers are mathematical reals.
- The browser's own clamping in `scrollBy` is assumed to equal the fallback's `min(scrollTop + step, max)`, floored at 0. Fractional `scrollTop` values are not modelled.
- The `!el` guard at line 26: the stage element is taken to be mounted.
- React's render and commit timing: a state change and its effect re-run are one atomic step. A frame can therefore not fall between a click and its commit.
- The console self-tests at lines 56-65 are not modelled as such. Their split/join assertion is `Lines.SelfTestSample`, and the `scrollTop` type check has no counterpart.
- `src/hooks/useLocalStorage.js`: a thin wrapper over `localStorage` and JSON, whose behaviour is entirely foreign calls. It is not part of this model.
