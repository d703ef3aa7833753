# stm32_lcd_ui in Dafny

A model of the core of a small retained-mode touchscreen UI toolkit for STM32
displays, with proofs about it. Three pieces are modelled:

- **Widget registry and touch dispatch** (`src/lcd_ui.c`). A context holds a
  caller-supplied buffer of widget references, the number registered, and a
  touch session: `touchActive` and the latched `activeWidget`. Adding and
  clearing widgets are bounded array updates. `lcd_ui_handle_touch` is a
  two-state machine. On a new press it hit-tests the widgets in registration
  order, using an expanded box with a margin per widget type, and latches the
  first match. While the finger stays down the latched widget never changes
  (drag-lock), and a latched slider gets every tick. On release a latched
  button's `on_touch` fires and the session is cleared. The default slider
  handler maps x to 0..100 by clamped integer interpolation and drives a linked
  progress bar. The drawing arithmetic (knob position, fill width, text
  position) is modelled as pure functions.
- **Touch signal normaliser** (`src/touch_ui.c`). Each raw sample is compared
  with the stored state and classified as pressed, released, moved or no event;
  then the state is updated.
- **ARGB colours** (`include/lcd_ui_colours.h`). Byte packing and unpacking, and
  the clamps of the darken, lighten and channel-scaling utilities.

Files: `uint.dfy` (C's fixed-width unsigned types and the modulo-2^16 and
2^32 conversions), `colours.dfy`, `touch_ui.dfy`, `lcd_geometry.dfy` (the pure
arithmetic of `lcd_ui.c`), `lcd_ui.dfy` (widgets, context, dispatch) and
`scenarios.dfy`. The scenarios are client methods that use the contracts to
derive representative interaction sequences: a sixth widget rejected by a
registry of five, a button tap firing once, the earlier of two overlapping
widgets winning, a slider staying latched and updated while the finger leaves
every widget, and a press, move, hold still, release sequence through the normaliser.

Modelling choices:

- Coordinates are `uint16_t` and every store into a `uint16_t` variable is
  reduced modulo 2^16 (`Uint.Wrap16`), as C does. So the hit box's far edges
  and the slider's range wrap exactly as in the source. Lemmas that speak of
  the intended geometry state the no-wrap condition they need
  (`HitBoxFits`, `SliderFits`).
- A widget's geometry, type, callbacks and user data are constants. The toolkit
  never writes them. It writes only the slider value, the progress percent and
  the text alignment, and these are mutable fields.
- Callbacks are not run. Each call the toolkit makes (`on_touch`,
  `slider_update_callback`, and the redraw requests of the slider handler) is
  appended to the context's ghost `Log`. The model assumes callbacks do not
  change the context or the widgets.
- The opaque `user_data` pointer is modelled as an optional widget, because the
  default slider handler casts it to the linked progress bar.
- A latched widget implies a touch in progress, but not the other way round:
  a press over empty space sets `touch_active` and leaves `active_widget` null
  (`src/lcd_ui.c:284-285`, with no match in the loop that follows).
  `Context.Valid()` holds "latched implies active", and every operation
  preserves it.
- The screen size is written only by `lcd_ui_init`, so it is a constant of the
  context, fixed by the constructor and read by `ScreenWidth` and
  `ScreenHeight`, which give 0 for a missing context.
- The default slider handler divides by the slider's range without a guard. A
  range of zero occurs, for example, for a square slider of even height. This
  is a precondition (`SliderRange(w.rect) != 0`), and `HandleTouch` requires it
  only of the widget a press tick is actually routed to.

## Model

| member | source | states |
|---|---|---|
| Colours.MakeArgb | include/lcd_ui_colours.h:53-65 | alpha lands in bits 31..24, red in 23..16, green in 15..8, blue in 7..0 |
| Colours.DecomposeArgb | include/lcd_ui_colours.h:73-81 | packing the extracted channels again gives back every 32-bit value |
| Colours.DecomposeMake | include/lcd_ui_colours.h:53-81 | unpacking a packed colour gives back exactly the four channels |
| Colours.ClampChannel | include/lcd_ui_colours.h:102-130 | a scaled channel in [0, 255] is kept, a negative one becomes 0, one above 255 becomes 255 |
| Colours.ScaleColourByFactor | include/lcd_ui_colours.h:91-137 | the result keeps the input's alpha byte, and each RGB channel is the clamped product of the input channel |
| Colours.ScaleByIdentity | include/lcd_ui_colours.h:91-137 | a per-channel product that changes no channel leaves the colour unchanged |
| Colours.ScaleColourByPercentage | include/lcd_ui_colours.h:147-153 | alpha kept, each channel the clamped product at the given percentage |
| Colours.ScaleAtHundredIsIdentity | include/lcd_ui_colours.h:147-153 | scaling at 100 percent returns the colour unchanged, given the exact product at factor 1.0 |
| Colours.DarkenPercentage | include/lcd_ui_colours.h:166-170 | darkening scales by 100 minus the amount, the amount clamped to at most 100, so by a value in [0, 100] |
| Colours.LightenPercentage | include/lcd_ui_colours.h:184-189 | lightening scales by 100 plus the amount, capped at 200, so by a value in [100, 200] |
| Colours.DarkenColour | include/lcd_ui_colours.h:162-172 | alpha kept, each channel the clamped product at the darkening percentage |
| Colours.LightenColour | include/lcd_ui_colours.h:181-191 | alpha kept, each channel the clamped product at the lightening percentage |
| Colours.ZeroShadeIsIdentity | include/lcd_ui_colours.h:162-191 | darkening or lightening by 0 returns the colour unchanged |
| TouchUi.Step | src/touch_ui.c:34-96 | pressed iff up then down; released iff down then up; moved iff down and still down at another position; otherwise none; never held or double-tap; the event echoes x, y and the time stamp; the new press flag is the sample's; the position follows the sample while pressed and stays while not; the press time stamp changes exactly on a pressed event |
| TouchUi.RunEndsAtLastSample | src/touch_ui.c:86-93 | after any non-empty sequence of samples the stored press flag is the last sample's, and after a press its position |
| TouchUi.EventsAlternate | src/touch_ui.c:57-79 | over any sequence of samples, presses and releases alternate and moves occur only between a press and its release |
| TouchUi.Init | src/touch_ui.c:20-32 | with a context and a driver: binds the driver and resets the state to not pressed, position (0, 0), time stamp 0; with no driver: changes nothing |
| TouchUi.ProcessInput | src/touch_ui.c:34-96 | a missing context yields a none event over the sample; otherwise the event returned and the state stored are those of Step |
| LcdGeometry.HitBoxExact | src/lcd_ui.c:291-314 | when the expanded box does not wrap, `HitBoxContains` holds exactly for points within `Margin` (6 for buttons, height/5 for sliders, 2 otherwise) of the rectangle on every side, far edges exclusive: the whole margin band is hittable and nothing beyond it |
| LcdGeometry.HitBoxCoversRect | src/lcd_ui.c:291-314 | every point of a widget's own rectangle is inside its expanded hit box |
| LcdGeometry.HitBoxWithinMargin | src/lcd_ui.c:291-314 | a point in the hit box is within the type's margin of the rectangle: 6 for buttons, height/5 for sliders, 2 otherwise, with exclusive far edges |
| LcdGeometry.SliderEnds | src/lcd_ui.c:239-244 | for geometry that does not wrap, `SliderMinX` is x + height/2, `SliderMaxX` is x + width - height/2, both lie within the widget with min below max, and `SliderRange` is their distance |
| LcdGeometry.ClampToRange | src/lcd_ui.c:246-247 | a point inside [min_x, max_x] is kept, one below min_x becomes min_x, one above max_x becomes max_x, and the result lies in the range; when the ends have wrapped, every point at or above min_x becomes max_x |
| LcdGeometry.Percent | src/lcd_ui.c:249-252 | the truncated percentage of a part no larger than the whole is at most 100, is 100 for the whole and 0 for nothing |
| LcdGeometry.SliderValue | src/lcd_ui.c:239-252 | the default slider handler's value lies in [0, 100] for every touch x and every geometry with a non-zero range, wrap-around included |
| LcdGeometry.SliderValueInRange | src/lcd_ui.c:239-252 | inside the usable range the value is (x - min_x) * 100 / (max_x - min_x), truncated |
| LcdGeometry.SliderValueSaturates | src/lcd_ui.c:246-252 | the value is 0 for x at or left of min_x and 100 for x at or right of max_x |
| LcdGeometry.SliderValueMonotone | src/lcd_ui.c:239-252 | the value never decreases as x increases, for every geometry with a non-zero range, including ends that have wrapped past each other |
| LcdGeometry.SliderValueExample | src/lcd_ui.c:239-252 | a slider at x 0, width 100, height 20 has usable range [10, 90], and a touch at 50 gives 50 |
| LcdGeometry.KnobOffset | src/lcd_ui.c:187-188 | for a value of at most 100 the uint32_t product does not wrap, and the offset is value * usable / 100, at most the usable width |
| LcdGeometry.KnobX | src/lcd_ui.c:186-194 | for a slider at least as wide as high, the clamped knob ends at or before the widget's right edge, whatever the stored value |
| LcdGeometry.KnobStaysInside | src/lcd_ui.c:186-194 | for a slider at least as wide as high, the knob ends at or before the widget's right edge; for a value of at most 100 it starts at x + value * (width - height) / 100, inside the widget |
| LcdGeometry.FillWidth | src/lcd_ui.c:155-156 | a progress bar's fill is at most its width for percent at most 100, all of it at 100 and none at 0 |
| LcdGeometry.TextX | src/lcd_ui.c:105-121 | left or out-of-range alignment puts the text at x; text no wider than the button stays inside it; right alignment ends it at the right edge; centring leaves gaps that differ by at most 1 |
| LcdGeometry.TextY | src/lcd_ui.c:123 | text no taller than the button is centred vertically inside it, the gaps differing by at most 1 |
| LcdUi.FirstHit | src/lcd_ui.c:287-319 | the index found is the first widget in registration order whose hit box holds the point; no earlier widget holds it; the length means no widget does |
| LcdUi.EarliestRegistrationWins | src/lcd_ui.c:287-319 | among overlapping hit boxes the earliest registered widget is latched |
| LcdUi.DefaultSliderCalls | src/lcd_ui.c:256-269 | the handler's calls in order: the value report with SliderValue first exactly when a value callback is set, the linked bar's redraw just before the last when there is one, and the slider's own redraw last; no on_touch call |
| LcdUi.PressCalls | src/lcd_ui.c:322-338 | a press tick gives no callback to a widget that is not a slider, or when nothing is latched; a latched slider with on_touch gets exactly that call at the touch point, and one without gets the default handler's calls |
| LcdUi.ReleaseCalls | src/lcd_ui.c:342-351 | a release fires exactly one callback if the latched widget is a button with on_touch, and none otherwise; that callback is the button's own on_touch at the release coordinates |
| LcdUi.Context.AddWidgetAsWritten | src/lcd_ui.c:62-77 | the widget is stored and counted as by AddWidget; an alignment beyond right makes the repair target the slot at the new count, one past the stored widget, and the stored widget's alignment is left as it was |
| LcdUi.AlignRepairOverrunsBuffer | src/lcd_ui.c:71-76 | adding a widget with alignment 3 to an empty registry of capacity 1 fills the registry, the repair targets the slot at the buffer's length, outside it, and the widget keeps alignment 3 |
| LcdUi.Context.constructor | src/lcd_ui.c:22-40 | initialisation binds the buffer and capacity, fixes the screen size the driver reports for the context's life (constant fields, read by `ScreenWidth` and `ScreenHeight`), empties the registry and starts with no touch session |
| LcdUi.Context.ClearWidgets | src/lcd_ui.c:50-61 | count 0 and every slot in [0, capacity) null; slots beyond the capacity and the touch session untouched |
| LcdUi.Context.AddWidget | src/lcd_ui.c:62-77 | below capacity the widget is stored at index count and the count grows by one, other slots unchanged; a null widget or a full registry changes nothing; an alignment beyond right becomes left on the stored widget |
| LcdUi.Context.FindWidgetAt | src/lcd_ui.c:287-319 | the hit-test loop returns the first registered widget whose hit box holds the point, or null |
| LcdUi.Context.DefaultSliderTouch | src/lcd_ui.c:231-270 | the slider value becomes SliderValue at x; a linked progress bar gets 100 minus it; the value callback and the redraws are made in the source's order |
| LcdUi.Context.HandleTouch | src/lcd_ui.c:272-356 | a new press latches the hit-test result, possibly none, and sets the touch active; a press while active keeps the latched widget; each press tick forwards to a latched slider through on_touch or the default handler, and to nothing else; a release fires a latched button's on_touch once, then clears the session; latched implies active is preserved; no widget beyond the latched slider and its linked bar changes |

## Left out

- Display and touch drivers (`src/lcd_ui_bsp_driver.c`, `src/touch_ui_bsp_driver.c`, `include/lcd_ui_driver.h`, `include/touch_ui_driver.h`): thin wrappers over board support calls that are not part of this model. `driver->init()` in `lcd_ui_init` is not modelled. The screen size it reports is a constructor parameter. `driver->initialize()` in `touch_ui_init` is not modelled either.
- `touch_ui_read_state` and `lcd_ui_reset_screen`: driver pass-throughs. The widget clear that `lcd_ui_reset_screen` performs is `ClearWidgets`.
- Drawing: `draw_widget`, `lcd_ui_render` and `lcd_ui_redraw_widget` issue `draw_rect`/`draw_text` calls, and these are not modelled. Only the redraw requests of the slider handler are logged. Their positions are modelled as functions: `KnobX`, `FillWidth`, `TextX` and `TextY`. `TextX` takes the text width as a parameter, because `strlen` and the font metrics come from the driver. The track geometry and the knob colour (`lighten_colour(text_color, 40)`) are not modelled separately.
- Null guards in `src/lcd_ui.c`: a Dafny method's receiver is never null, so the `!ctx` early returns of the context operations are not modelled. The same goes for the null `driver` and `widget_buffer` checks in `lcd_ui_init`. The null context of the screen-size getters and of the touch normaliser, and the null widget of `lcd_ui_add_widget`, are modelled.
- ScaleColourByFactor: the float products `(int)((float)channel * factor)` are an uninterpreted parameter, so only alpha preservation and the [0, 255] clamp are proved, not that a factor below 1.0 darkens and one above lightens.
- ScaleColourByPercentage: inherits the uninterpreted float product; alpha preservation and the clamp at the given percentage are proved, the direction of the change is not.
- DarkenColour: inherits the uninterpreted float product; only alpha preservation and the clamp at DarkenPercentage are proved, not that the colour gets darker.
- LightenColour: inherits the uninterpreted float product; only alpha preservation and the clamp at LightenPercentage are proved, not that the colour gets lighter.
- Context.AddWidgetAsWritten: the repair's write through `ctx->widgets[ctx->widget_count]` is not performed; the slot is returned instead, because it may lie outside the buffer or hold no widget, and when it holds an earlier stale widget, that widget's alignment change is not modelled.
- Named colour constants (`colour_white` and the others): plain constants with nothing to prove.
- Callback effects: `on_touch` and `slider_update_callback` are arbitrary user code. Only their invocations are recorded; whatever they might do to the context or the widgets is not modelled.
- `user_data` is treated as an optional widget, not an arbitrary pointer. For buttons and custom slider handlers it is only passed along, and the log does not record it.
- `is_pressed` is a `uint8_t` in `lcd_ui_handle_touch`, and any non-zero value counts as pressed; the model takes a `bool`.
- The buffer passed to `lcd_ui_init` must hold `capacity` slots. This is the constructor's precondition, because the C code cannot check it.

## Findings

| source | as written | input that shows it | evidently intended | confidence | as-written member | corrected member |
|---|---|---|---|---|---|---|
| src/lcd_ui.c:71-76 | after storing the widget and incrementing the count, the alignment repair writes `ctx->widgets[ctx->widget_count]->text_align`, the slot after the new widget | capacity 1, empty registry, a widget with `text_align` 3: the repair dereferences slot 1, outside the buffer, and the inserted widget keeps alignment 3 | reset the alignment of the widget just inserted | high; not executed | LcdUi.AlignRepairOverrunsBuffer | LcdUi.Context.AddWidget |
