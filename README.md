# Can I see Fuji? — a Dafny model of the watch app's core

The watch app shows, for two regions around Mt. Fuji (North and South), how visible
the mountain will be in the morning and in the afternoon. The phone sends scores; the
watch stores them in a 2 x 2 table of `int8_t` values where -1 means "not loaded yet".
It shows a loading window until all four cells are loaded and the main window after
that. For the selected region the main window shows the region's name, a text label and
a coloured bubble per score, and a procedurally drawn weather icon (sun, partly cloudy,
mostly cloudy, very cloudy).

The model has eight modules in seven files: one module per C file of the core, except
that `src/c/app/ui.c` is split into `Layout` (pure arithmetic) and `Ui` (state), plus
`IntTypes` and `CInt` for the C integer rules:

- `IntTypes` and `CInt` (`cint.dfy`): `int8_t`, `int16_t` and `int32_t` as newtypes.
  The two's-complement conversions (`Wrap8`, `Wrap16`) and C's truncating division
  (`DivC`) are written out.
- `Data` (`data.dfy`): `src/c/app/data.c`. The class `ScoreStore` holds the score array
  and the selected region. Its methods are proved against the table value `Contents()`
  and against `Get`, `Set` and `Progress`.
- `Utility` (`utility.dfy`): `src/c/utility/utility.c`. Score labels and bubble colours
  are stated as one partition of `int8_t` into four visibility classes.
- `Layout` (`layout.dfy`): the pure rectangle arithmetic of `src/c/app/ui.c`. The
  rectangular and round builds are both covered. On round screens `PLATFORM_SCALE` is an
  uninterpreted function.
- `Ui` (`ui.dfy`): the window and label state of `src/c/app/ui.c`. The class `Ui` holds
  the view, the two window handles (present or not) and the texts and frames of the
  region and score labels. `UpdateRegion` is proved to change only the region label;
  every other state-changing method is proved to produce a state given by a function (`WithScore`,
  `WithAll`, `Opened`, `Initialised`).
- `Communication` (`communication.dfy`): `src/c/app/communication.c`. `Decode` maps a
  message to a command, `Apply` gives the command's writes to the table, `EffectOf`
  gives its display reaction and `Respond` the resulting UI state. `InboxReceived` is the
  handler, with the same branches and the same call order, proved to follow them.
  `SendUpdateAllMessage` is the three-step send with early returns.
- `Graphics` (`graphics.dfy`): `src/c/utility/graphics.c`. An icon is the list of
  primitives it draws, in order: lines with a stroke colour, and filled paths. The
  drawing functions are methods with the source's loops, proved equal to specification
  functions. The properties of the icons are lemmas about those functions.

Coordinates wrap exactly as in C. `center_x`, `center_y` and `top_y` are `int8_t`, every
`GPoint`/`GRect` field is `int16_t`, and the arithmetic is done in `int` and converted.
Lemmas that need exact arithmetic say when nothing wraps (`Interior`, `IsInt16`).
On rectangular screens the afternoon icon is drawn at the afternoon bubble's
y = 100 plus PADDING (src/c/app/ui.c:136-137), so at y = 106, with size `DRAWING_SIZE`,
a macro whose definition is not part of this model. `Ui.AfternoonIconWraps` shows that
the sun's `int8_t` `center_y` wraps to a negative value exactly when that size is at
least 44; `SunCentreWraps` gives the instance y = 106, size 44, where `center_y` is -128.

Two behaviours of the code are easy to miss:

- Only a complete `new_scores` message can switch from the loading window to the main
  window (src/c/app/communication.c:56-59). A `new_score` message only writes its cell and
  refreshes one label, even when it completes the table. So four `new_score` messages
  leave the loading window up (`Communication.NewScoresOneByOneStayLoading`).
- The switch is tied to the progress going from below 4 to 4, rather than to the first full load.
  If a -1 ever arrived after the first full load, a later complete `new_scores` would call
  `show_main_window` again. The model covers this case (`Ui.Opened`, with the main window
  already present). There the labels keep their old text, because the handler does not
  call `update_all` in that branch and the main window's load handler has already run.
  `Communication.DisplayStaysCurrent` therefore excludes exactly this case.

## Model

| member | source | states |
|---|---|---|
| CInt.Wrap8 | src/c/utility/graphics.c:10-11 | the conversion of an `int` to `int8_t` keeps every value in -128..127 |
| CInt.Wrap8Congruent | src/c/utility/graphics.c:10-11 | the `int8_t` conversion of any `int` is congruent to it modulo 256 (two's complement wrap) |
| CInt.Wrap16 | src/c/app/ui.c:48-50 | the conversion of an `int` to `int16_t` (a `GRect` field) keeps every value in -32768..32767 |
| CInt.Wrap16Congruent | src/c/app/ui.c:48-50 | the `int16_t` conversion of any `int` is congruent to it modulo 65536 |
| CInt.DivC | src/c/utility/graphics.c:9 | C's `/` for a positive divisor: the remainder has the sign of the dividend and is smaller than the divisor |
| Data.Index | src/c/app/data.h:5-9 | REGION_NORTH is array index 0 and REGION_SOUTH index 1 |
| Data.Set | src/c/app/data.c:27-37 | after writing cell (r, t), reading (r, t) gives the score and the other three cells are unchanged |
| Data.Progress | src/c/app/data.c:44-56 | the load progress is at most 4 |
| Data.ProgressByCells | src/c/app/data.c:44-56 | the progress is the sum of the four per-cell increments, in the order the source tests the cells |
| Data.ProgressFull | src/c/app/data.c:44-56 | progress is 4 exactly when no cell holds -1 |
| Data.ProgressAfterSet | src/c/app/data.c:27-56 | writing a cell moves the progress by +1 (a -1 cell gets a score), by -1 (a score is replaced by -1), or not at all |
| Data.InitialProgress | src/c/app/data.c:3-8 | initially every cell is -1 and the progress is 0 |
| Data.ScoreStore.constructor | src/c/app/data.c:3-8 | the static initialisers: all four cells -1, region North |
| Data.ScoreStore.GetCurrentRegion | src/c/app/data.c:10-13 | returns the selected region |
| Data.ScoreStore.GetCurrentRegionScore | src/c/app/data.c:15-25 | returns the given time's cell of the selected region and nothing else |
| Data.ScoreStore.SetRegionScore | src/c/app/data.c:27-37 | the table afterwards is `Set` of the table before: one cell written, three unchanged |
| Data.ScoreStore.SetCurrentRegion | src/c/app/data.c:39-42 | only the selector changes; no score cell changes |
| Data.ScoreStore.GetDataLoadedProgress | src/c/app/data.c:44-56 | the counted progress equals `Progress` of the table and lies in 0..4 |
| Utility.Classify | src/c/utility/utility.c:4-13 | every `int8_t` score, -1 included, lies in the range of the class it is given |
| Utility.ClassesDisjoint | src/c/utility/utility.c:6-12 | no score lies in two classes |
| Utility.ScoreText | src/c/utility/utility.c:4-13 | the label is one of the four texts |
| Utility.ScoreTextByClass | src/c/utility/utility.c:4-13 | the label is that of the score's class (>= 8, 6..7, 3..5, < 3) and of no other class |
| Utility.BoundaryLabels | src/c/utility/utility.c:6-12 | -1 and 2 are "Not\nVisible", 3 and 5 "Barely\nVisible", 6 and 7 "Partly\nVisible", 8 and 10 "Visible" |
| Utility.ScoreBubbleColor | src/c/utility/utility.c:15-28 | the black-and-white build gives white for every score; the colour build never gives white |
| Utility.ScoreColorByClass | src/c/utility/utility.c:20-26 | the colour-build colour is that of the score's class and of no other class |
| Utility.TextAndColorAgree | src/c/utility/utility.c:4-28 | two scores share a label exactly when they share a colour-build bubble colour |
| Utility.LabelLines | src/c/utility/utility.c:6-12 | only the "Visible" label has no newline: it takes one line, the other three take two |
| Layout.BubbleRect | src/c/app/ui.c:23-36 | the morning bubble's y is 2 * PADDING + REGION_BUBBLE_HEIGHT on either screen; on rectangular screens x = PADDING, h = TIME_BUBBLE_HEIGHT, w = bounds.w - 2 * PADDING, and the afternoon y is PADDING below the morning bubble's bottom; on round screens x is the scaled inset and h the scaled bubble height |
| Layout.ScoreRect | src/c/app/ui.c:38-51 | the score rectangle is SCORE_BUBBLE_HEIGHT high, 2 * PADDING less for one line; x = bounds.w / 2 + PADDING; on rectangular screens y is the bubble's y + (TIME_BUBBLE_HEIGHT - SCORE_BUBBLE_HEIGHT) / 2, plus PADDING for one line, and w = bounds.w / 2 - 2 * PADDING - 10 |
| Layout.LineCount | src/c/app/ui.c:265 | the line count is 1 or 2, and 1 exactly when the score is at least 8 |
| Layout.RectangularMorningBubble | src/c/app/ui.c:32-34 | the rectangular morning bubble is (6, 32, w - 12, 62) |
| Layout.RectangularAfternoonBubble | src/c/app/ui.c:32-34 | the rectangular afternoon bubble is (6, 100, w - 12, 62) |
| Layout.AfternoonBelowMorning | src/c/app/ui.c:23-36 | where y does not wrap, the afternoon bubble starts PADDING below the morning bubble's bottom, has the same height, and the two do not overlap |
| Layout.RoundBubblesSymmetric | src/c/app/ui.c:25-30 | on round screens x = inset and x + w = bounds.w - inset |
| Layout.ScoreRectX | src/c/app/ui.c:38-51 | the score rectangle's x is bounds.w / 2 + PADDING for either time period and line count |
| Layout.SingleLineSameCentre | src/c/app/ui.c:38-51 | the one-line rectangle is PADDING lower and 2 * PADDING shorter than the two-line one, so both have the same vertical centre |
| Layout.RectangularScoreRectCentred | src/c/app/ui.c:38-51 | on rectangular screens the two-line score rectangle lies 14 below the bubble's top, is 34 high, and is vertically centred in the bubble and within its height |
| Layout.RectangularScoreRectInside | src/c/app/ui.c:38-51 | on rectangular screens the score rectangle, for either line count, lies horizontally inside its bubble, in the bubble's right half |
| Ui.RegionName | src/c/app/ui.c:62-65 | the region label reads "North" exactly for North and "South" exactly for South |
| Ui.Toggle | src/c/app/ui.c:67-71 | the toggle always selects the other region |
| Ui.ToggleTwice | src/c/app/ui.c:67-71 | toggling twice restores the region |
| Ui.WithAll | src/c/app/ui.c:281-287 | after update_all the labels show the selected region's name and scores; view and windows are unchanged |
| Ui.InitialView | src/c/app/ui.c:340-362 | ui_init shows Main exactly when the four cells are loaded and Loading exactly when the progress is below 4; a main window shown at start displays the table |
| Ui.OpenedShowsMain | src/c/app/ui.c:321-338 | after show_main_window the main window exists and is shown and the loading window is gone; a newly created window shows the table, an existing one keeps its labels |
| Ui.RefreshedCell | src/c/app/ui.c:270-279 | refreshing the label of the written time period keeps the display equal to the current region's scores |
| Ui.OtherRegionWrite | src/c/app/communication.c:30-35 | a score written for the region not on screen needs no refresh: the display is still correct |
| Ui.LabelFitsRect | src/c/app/ui.c:275-277 | the label text has exactly as many lines as the rectangle chosen for it |
| Ui.IconMatchesLabel | src/c/utility/graphics.c:146-156 | the icon and the label follow one threshold chain: sun with "Visible", partly cloudy with "Partly\nVisible", mostly cloudy with "Barely\nVisible", very cloudy with "Not\nVisible" |
| Ui.AfternoonIconWraps | src/c/app/ui.c:136-137 | on rectangular screens the afternoon icon is drawn at y = 106, and the sun's `int8_t` `center_y` there is negative exactly when the size is at least 44 |
| Ui.Ui.constructor | src/c/app/ui.c:7-21 | before ui_init there is no window, neither window handle is set, and the store is the given one |
| Ui.Ui.UpdateRegion | src/c/app/ui.c:62-65 | only the region label changes, to the selected region's name |
| Ui.Ui.UpdateScore | src/c/app/ui.c:270-279 | only the label of the given time period changes: the score's text and the frame for its line count |
| Ui.Ui.UpdateAll | src/c/app/ui.c:281-287 | the new UI state is `WithAll` for the stored table and the selected region |
| Ui.Ui.RegionToggleClick | src/c/app/ui.c:67-71 | the other region is selected, no score changes, and the display is redrawn for the new region |
| Ui.Ui.DrawScoreBubble | src/c/app/ui.c:261-268 | the bubble's fill is the score's colour and its rectangle is the score rectangle for the score's line count |
| Ui.Ui.ShowMainWindow | src/c/app/ui.c:321-338 | the new UI state is `Opened` of the old one |
| Ui.Ui.UiInit | src/c/app/ui.c:340-362 | the new UI state is `Initialised` of the old one: the main window filled in when the table is complete, the loading window otherwise |
| Communication.ParseRegion | src/c/app/communication.c:26 | the region is North exactly for the string "north"; any other string is South |
| Communication.ParseTime | src/c/app/communication.c:27 | the period is Morning exactly for the string "morning"; any other string is Afternoon |
| Communication.Narrow | src/c/app/communication.c:51-54 | the `(int8_t)` cast of a received `int32` keeps a value in -128..127 and is congruent to it modulo 256 in every case |
| Communication.Decode | src/c/app/communication.c:6-65 | a message is "ready" exactly for type "ready"; it is a new score exactly for type "new_score" with region, time and score all present; it is a bulk update exactly for type "new_scores" with all four scores present; every other message is ignored |
| Communication.UnknownMessageIgnored | src/c/app/communication.c:8-10 | a message without a type, or with an unknown type, changes neither the table nor the display |
| Communication.ReadyOnlyRequests | src/c/app/communication.c:12-16 | "ready" changes no score and no label; its only effect is the update request |
| Communication.IncompleteMessageDropped | src/c/app/communication.c:20-47 | a "new_score" or "new_scores" missing any required field is dropped whole: no cell is written and nothing is redrawn |
| Communication.NewScoreFields | src/c/app/communication.c:26-28 | the region is North exactly for "north", the time Morning exactly for "morning", and the score is the `int32` value modulo 256, equal to it when it fits `int8_t` |
| Communication.NewScoresFields | src/c/app/communication.c:42-54 | a complete bulk update puts each key's value, cast to `int8_t`, into the cell the key names (northMorning into North/Morning, and so on) and the result does not depend on the old table |
| Communication.NewScoreWritesOneCell | src/c/app/communication.c:30-35 | a new score writes exactly its cell, refreshes that time period's label exactly when its region is on screen, and moves the progress by the change in that cell |
| Communication.NewScoresOverwrite | src/c/app/communication.c:51-54 | a bulk update sets all four cells; the result does not depend on the old table |
| Communication.ShowMainOnFirstLoad | src/c/app/communication.c:49-63 | the main window is shown exactly for a bulk update that takes the progress from below 4 to 4 |
| Communication.ShowMainByCells | src/c/app/communication.c:49-63 | equivalently: some cell held -1 before, and none of the four received scores is -1 |
| Communication.RepeatedNewScores | src/c/app/communication.c:49-63 | receiving the same bulk update twice leaves the table as after the first, and the second only redraws, never showing the main window |
| Communication.OnlyShowMainSwitches | src/c/app/communication.c:56-63 | no reaction except showing the main window changes the view or the set of windows |
| Communication.NewScoresOneByOneStayLoading | src/c/app/communication.c:18-38 | four new-score messages, one per cell, take the table from all -1 to progress 4 but leave the loading window up |
| Communication.DisplayStaysCurrent | src/c/app/communication.c:30-63 | if the labels showed the selected region's scores before a message, they do afterwards, except when an existing main window is shown again |
| Communication.SendUpdateAllMessage | src/c/app/communication.c:68-94 | the calls made are begin, write, send in that order, stopping at the first failure; every call before the last one made succeeded; the result is true exactly when all three succeed |
| Communication.InboxReceived | src/c/app/communication.c:6-65 | the table afterwards is `Apply` of the decoded command, the selected region is unchanged, the UI state is `Respond` to `EffectOf`, and a send happens (with its outcome reported) exactly for "ready" |
| Graphics.Gap | src/c/utility/graphics.c:9 | the gap is half the slack left by the box and the two rays, truncated toward zero |
| Graphics.SunRays | src/c/utility/graphics.c:27-47 | the ray table has eight entries |
| Graphics.RayLines | src/c/utility/graphics.c:49-53 | one line per ray |
| Graphics.DrawSun | src/c/utility/graphics.c:4-54 | the loop over the ray table draws `Sun`: the box, then one line per ray |
| Graphics.SunLines | src/c/utility/graphics.c:13-53 | the sun is twelve sun-coloured lines: the four box sides, then the eight rays in table order |
| Graphics.SunBoxClosed | src/c/utility/graphics.c:21-24 | the box's four lines form a closed chain, whatever wraps |
| Graphics.SunBoxSquare | src/c/utility/graphics.c:16-24 | away from the int16_t limits the box is a square of side sun_box_size with its top-left corner at pos + (ray_length + gap, ray_length + gap) |
| Graphics.SunBoxCentred | src/c/utility/graphics.c:9-19 | with non-negative slack the box is centred up to one pixel |
| Graphics.SunStraightRays | src/c/utility/graphics.c:33-36 | the four straight rays are axis-parallel, of length ray_length, with their outer ends on the edges pos.y, pos.y + size, pos.x and pos.x + size |
| Graphics.SunDiagonalRays | src/c/utility/graphics.c:39-46 | each diagonal ray starts at a corner moved inward by gap and runs angle_ray_length inward on both axes |
| Graphics.SunCentreWraps | src/c/utility/graphics.c:10-11 | `center_y` is an `int8_t`: pos.y = 106 and size = 44 give -128 |
| Graphics.SegmentDirections | src/c/utility/graphics.c:63-86 | the table has 16 segments, each with dx and dy in {-1, 0, 1} |
| Graphics.CloudPath | src/c/utility/graphics.c:91-93 | the path has one point more than there are segments |
| Graphics.Outline | src/c/utility/graphics.c:113-123 | the outline has one line per segment walked |
| Graphics.DrawCloud | src/c/utility/graphics.c:56-124 | draws `Cloud`: the filled path when asked to, then the outline |
| Graphics.TracePath | src/c/utility/graphics.c:91-106 | the loop writes a fresh array equal to the cloud path |
| Graphics.TraceOutline | src/c/utility/graphics.c:113-123 | the loop draws the outline: one line from each point to the next |
| Graphics.WalkIsCloudPath | src/c/utility/graphics.c:95-106 | a sequence that starts at the start point and moves by one segment per point is the cloud path |
| Graphics.CloudShape | src/c/utility/graphics.c:95-123 | the 17-point path starts at (center_x, top_y), each point is the previous one moved by its segment, and the 16 outline lines join consecutive points of that same path |
| Graphics.CloudOutlineOnly | src/c/utility/graphics.c:89-123 | without fill the cloud is exactly the outline lines |
| Graphics.CloudPointExact | src/c/utility/graphics.c:100-106 | a walk of unit steps from an `int8_t` point never wraps `int16_t`: each point is the start plus the moves so far |
| Graphics.CloudMoves16 | src/c/utility/graphics.c:69-86 | over the whole outline the vertical moves cancel and the horizontal ones sum to l(0.40) + l(0.41) - l(0.19) - l(0.12) - l(0.18) - 3 l(0.11) |
| Graphics.CloudEnd | src/c/utility/graphics.c:95-106 | the last path point is level with the first and lies that net horizontal move to its right |
| Graphics.IconFor | src/c/utility/graphics.c:146-156 | sun exactly for score >= 8, partly cloudy for 6..7, mostly cloudy for 3..5, very cloudy for every lower score including -1 |
| Graphics.DrawPartlyCloudy | src/c/utility/graphics.c:126-130 | draws the sun at pos, then the smaller cloud |
| Graphics.DrawMostlyCloudy | src/c/utility/graphics.c:132-136 | draws the smaller sun, then the full-size cloud |
| Graphics.DrawVeryCloudy | src/c/utility/graphics.c:138-144 | draws the back cloud, then the front cloud, both of size size - adjustment_size |
| Graphics.DrawScoreImage | src/c/utility/graphics.c:146-156 | draws the icon `IconFor` picks |
| Graphics.PartlyCloudyLayers | src/c/utility/graphics.c:126-130 | partly cloudy is a full sun followed by a filled cloud over it |
| Graphics.MostlyCloudyLayers | src/c/utility/graphics.c:132-136 | mostly cloudy is a sun followed by a filled cloud over it |
| Graphics.VeryCloudyLayers | src/c/utility/graphics.c:138-144 | very cloudy is exactly two filled clouds and no sun line |
| Graphics.SunLayers | src/c/utility/graphics.c:148-149 | the sun icon is the twelve sun lines alone |
| Graphics.IconLayers | src/c/utility/graphics.c:146-156 | per score: the sun alone (>= 8), a sun under a cloud (3..7), two clouds (< 3); an icon has a sun line exactly when the score is at least 3 |

## Left out

- `src/pkjs/index.js` (the phone side: weather requests and the floating-point scoring) is not part of this model.
- `src/c/app/app.c` (start-up, tick-timer subscription and the event loop) is not part of this model. Nor are `data_init`, `data_deinit`, `ui_deinit` and `communication_init`, which only set up or tear down SDK resources.
- Pebble SDK calls are reduced to values. Windows are flags and a view. A text layer is the text and frame it is given. Drawing is the list of primitives. Messages are records of optional fields, and the outbox calls' results are the parameter `Link`. Fonts, colours beyond the bubble fill, bitmaps, `layer_mark_dirty` and logging are left out.
- `update_date` (src/c/app/ui.c:53-60) reads the clock; `UpdateAll` does not model the date label.
- The layer creation in `main_window_load` and `loading_window_load`, the unload handlers, `canvas_update_proc`, the image layers' update procedures and `click_config_provider` are not modelled. Their only modelled trace is that a newly pushed main window runs `update_all` once (src/c/app/ui.c:244), which is part of `Ui.Opened`.
- Ui.Ui.ShowMainWindow: assumes the SDK runs a window's load handler only when the window is first pushed. A re-shown main window therefore keeps its labels.
- Ui.Ui.UpdateScore: the labels are recorded even while the main window's layers do not exist (a `new_score` for the selected region while the loading window is up). The model does not capture what the SDK does with such a call on a null layer.
- Floating-point arithmetic with its rounding and truncating conversions (`round(size * 0.15)` and the like in src/c/utility/graphics.c:6-8, 102, 117, 140-141; and the truncating `double` to integer conversions of `size * 0.66`, `pos.y + size * 0.07` and `pos.y - (size * 0.14)` passed as `int8_t` arguments or `GPoint` fields at 129, 134 and 135) is not modelled. The resulting values are parameters (`SunLengths`, the `Fraction -> int8` length functions, `IconMetrics`).
- `PLATFORM_SCALE` is an uninterpreted function (`Screen.Round(scale)`).
- Graphics.IconMetrics: `adjustment_y` is -round(pos.x * 0.1) in src/c/utility/graphics.c:140, derived from the x coordinate; it is a free parameter, so the model does not tie it to `pos.x`.
- Graphics.Gap: the `double` to `int8_t` conversion of `gap` is undefined behaviour in C when out of range. The model requires the gap to fit (`GapFits`) rather than choosing a result.
- The cast of `s_main_window` (a `Window *`) to `Layer *` in `update_score` is not modelled. The layout takes the bounds as the `Geometry` parameter.
- The `int16_t size` parameter in src/c/utility/graphics.h against `int8_t size` in src/c/utility/graphics.c is a declaration mismatch. The model uses `int8_t`, as the definition does.
- Communication.Decode: C strings are compared as Dafny strings; a tuple of the wrong type (a string where an integer is expected) is not modelled.
