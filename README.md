# SemiCircles: transition engine and palette swap, in Dafny

SemiCircles is an animated wallpaper. A grid of coloured semicircles
rotates or slides between cells over a background of palette bands. This
project models its core in three modules:

- `Easing` (`easing.dfy`, from `src/easing.rs`). The easing curves, over
  the reals. Bounce and cubic are exact piecewise polynomials. In the
  elastic curves `powf` and `sin` are uninterpreted: they come from a
  `MathLib` value, so only the explicit `x == 0` and `x == 1` branches
  have fixed results.
- `Sketch` (`sketch.dfy`, from `src/sketch.rs`, the library build). It
  covers:
  - the grid geometry (`GridNew`, `Contains`, `ScreenPos`);
  - the semicircle values and their transitions (`Finalise`, `GetPos`,
    `GetOrientation`);
  - building the grid (`NewObjects`, with the in-place `Shuffle`);
  - the per-tick step (`Settle`/`FinaliseStale`, `Triggered`/`Trigger`);
  - the hue sweep of the palette generator (`Palette`, `Hue`);
  - the `Model` class with its constructor and `Update`.
  `src/main.rs` repeats all of this line for line, with the same
  constants, except the `Model` struct, its constructor and `update`.
  Those are modelled a second time in module `Desktop`.
- `Desktop` (`desktop.dfy`, from `src/main.rs`, the desktop binary). Its
  own `Model`, whose `Update` adds the palette swap: in the 2 s before
  each 60 s boundary one palette entry per quarter second is copied from
  the next palette, and at the boundary the palette is cut over.

Representation choices:
- Grid positions are integer pairs (`Cell`). The source stores them as
  float vectors with whole values; they start integral and only move by
  unit vectors.
- Orientations are integer counts of quarter turns, never reduced mod 4.
  `random_orientation` gives k/4·TAU, which equals k·FRAC_PI_2 over the
  reals. `GetOrientation` returns radians, using the f32 value of PI
  written out exactly.
- Times, sizes and hues are reals. Colours are linear-sRGB triples. The
  Okhsl-to-sRGB conversion `hsv` is a function parameter.
- Every random draw is a parameter:
  - `Draw`: one for each new object;
  - `ShufflePicks`: the swap indices of the shuffle;
  - `TriggerDraw`: the object index, the two coin flips and the direction;
  - `hInit`: the hue that starts a new palette.
- `Vec<SemiCircle>` in the source holds plain values with no sharing. So
  the objects are an `array<SemiCircle>` of datatype values. An update
  in place writes a new value into the slot: the finalise pass of
  `update` does `objects[i] := Finalise(t, objects[i])`, and `trigger`
  writes the chosen slot. The palettes are Rust arrays, which are `Copy`.
  `model.palette = model.new_palette` copies one, so each palette is a
  `seq` field that is reassigned.

The class invariant `Valid` has three parts:
- both palettes have 8 entries;
- the grid is well formed;
- every object is `Placed`: its cell, the cell its transition heads for,
  and its palette index are all in range.

Both `Update` methods keep it. The reason is that `trigger` only accepts
a translation towards a cell that the grid contains.

`GridInfo::new` does not clamp the grid to at least one row. A window
shorter than one tile gets zero rows and no objects, and then a due
`trigger` would call `random_range(0, 0)`. `Update` therefore requires
`draw.index < objects.Length` whenever the trigger is due.

## Model

| member | source | states |
|---|---|---|
| `Easing.EaseOutElastic` | src/easing.rs:5-15 | defined as the source, with `powf` and `sin` from `MathLib`; endpoints in `ElasticEndpoints` |
| `Easing.EaseInOutElastic` | src/easing.rs:17-29 | defined as the source, with `powf` and `sin` from `MathLib`; endpoints in `ElasticEndpoints` |
| `Easing.EaseOutBounce` | src/easing.rs:35-51 | defined as the source; properties in `OutBounceEndpoints` and `OutBounceBounded` |
| `Easing.EaseInBounce` | src/easing.rs:53-55 | defined as the source; properties in `InBounceProperties` |
| `Easing.EaseInOutBounce` | src/easing.rs:57-63 | defined as the source; properties in `InOutBounceKeyValues` and `InOutBounceSymmetric` |
| `Easing.EaseInOutCubic` | src/easing.rs:65-71 | defined as the source; properties in `InOutCubicKeyValues` and `InOutCubicSymmetric` |
| `Easing.ElasticEndpoints` | src/easing.rs:5-29 | both elastic curves give 0 at x = 0 and 1 at x = 1, whatever `powf` and `sin` are |
| `Easing.OutBounceEndpoints` | src/easing.rs:35-51 | `ease_out_bounce(0) = 0` and `ease_out_bounce(1) = 1` exactly: the last branch gives 7.5625·(1/22)² + 0.984375 |
| `Easing.OutBounceBounded` | src/easing.rs:39-50 | for x in [0, 1], `ease_out_bounce(x)` lies in [0, 1]; each branch's shifted square stays under its offset's complement |
| `Easing.InBounceProperties` | src/easing.rs:53-55 | `ease_in_bounce` is 0 at 0 and 1 at 1 and lies in [0, 1] on [0, 1] |
| `Easing.InOutBounceKeyValues` | src/easing.rs:57-63 | `ease_in_out_bounce` is 0, 0.5 and 1 at x = 0, 0.5 and 1 |
| `Easing.InOutBounceSymmetric` | src/easing.rs:57-63 | `ease_in_out_bounce(1 - x) = 1 - ease_in_out_bounce(x)` for every x |
| `Easing.InOutCubicKeyValues` | src/easing.rs:65-71 | `ease_in_out_cubic` is 0, 0.5 and 1 at x = 0, 0.5 and 1 |
| `Easing.InOutCubicSymmetric` | src/easing.rs:65-71 | `ease_in_out_cubic(1 - x) = 1 - ease_in_out_cubic(x)` for every x |
| `Sketch.Lerp` | src/sketch.rs:443-445 | defined as the source; properties in `LerpEndpoints` |
| `Sketch.LerpEndpoints` | src/sketch.rs:443-445 | `lerp(a, b, 0) = a` and `lerp(a, b, 1) = b` |
| `Sketch.LerpVec2` | src/sketch.rs:153 | `Vec2::lerp` as the vector library defines it, self + (rhs - self)·s; used by `GetPos`, whose properties are in `PosAtRest`, `PoseBeforeStart` and `PoseAfterEnd` |
| `Sketch.Clamp` | src/sketch.rs:151-152 | `clamp(0, 1)` of the progress: with min ≤ max the result lies in [min, max]; a value already in range is returned unchanged, one below min gives min and one above max gives max (same call at src/sketch.rs:167-168) |
| `Sketch.FRem` | src/sketch.rs:428 | the float `%`: a - b·trunc(a/b), the remainder taking the sign of a; properties in `FRemBound` |
| `Sketch.FRemBound` | src/sketch.rs:428 | for a ≥ 0 and b > 0, `a % b` lies in [0, b) and equals a - b·floor(a/b) |
| `Sketch.Contains` | src/sketch.rs:92-99 | `contains(p)` holds iff 0 ≤ p.x < num_tiles.x and 0 ≤ p.y < num_tiles.y (same code at src/main.rs:73-80) |
| `Sketch.GridNew` | src/sketch.rs:176-198 | tile_size·16 = width; 16 columns; num_tiles.y rows with num_tiles.y·tile_size ≤ height < (num_tiles.y + 1)·tile_size; the stored height is num_tiles.y·tile_size; duration 3 s, delay 1 s (same code at src/main.rs:157-180) |
| `Sketch.GridNewExample` | src/sketch.rs:176-198 | a 1600×900 window gives tile size 100, 16×9 tiles and a grid height of 900 |
| `Sketch.ScreenPos` | src/sketch.rs:158-161 | the last three lines of `get_pos`: -wh/2 + tile_size/2 + tile_size·p; properties in `ScreenPosInjective` and `ScreenPosExample` |
| `Sketch.ScreenPosInjective` | src/sketch.rs:158-161 | with tile_size > 0, distinct cells map to distinct screen points |
| `Sketch.ScreenPosExample` | src/sketch.rs:158-161 | cell (0, 0) of the 1600×900 grid is drawn at (-750, -400) |
| `Sketch.Finalise` | src/sketch.rs:42-50 | the transition is cleared; a rotation sets the orientation and keeps the cell; a translation sets the cell and keeps the orientation; shape and colour never change (same code at src/main.rs:37-45) |
| `Sketch.GetPos` | src/sketch.rs:148-162 | defined as the source, easing a translation with `ease_out_elastic`; properties in `PosAtRest`, `PoseBeforeStart`, `PoseAfterEnd`, `SettleIsSeamless` and `TriggeredIsSeamless` |
| `Sketch.GetOrientation` | src/sketch.rs:164-173 | defined as the source, easing a rotation with `ease_in_out_elastic`; properties in `OrientationAtRest`, `PoseBeforeStart`, `PoseAfterEnd`, `SettleIsSeamless` and `TriggeredIsSeamless` |
| `Sketch.PosAtRest` | src/sketch.rs:148-162 | with no translation in flight, `get_pos` is -wh/2 + tile_size/2 + tile_size·pos, the same at every time |
| `Sketch.OrientationAtRest` | src/sketch.rs:164-173 | with no rotation in flight, `get_orientation` is the stored orientation, the same at every time |
| `Sketch.PoseBeforeStart` | src/sketch.rs:148-173 | at or before a transition's start the progress clamps to 0, and an object is drawn at its stored cell and orientation |
| `Sketch.PoseAfterEnd` | src/sketch.rs:148-173 | from start + duration on the progress clamps to 1, and an object is drawn at its transition's target; a transition of the other kind leaves that quantity as stored |
| `Sketch.Layout` | src/sketch.rs:201-219 | the pushed sequence has one object per draw: two per cell |
| `Sketch.LayoutAt` | src/sketch.rs:204-218 | push 2(x·ny + y) + c of the nested loops is copy c of cell (x, y), built from its own draw |
| `Sketch.LayoutObjects` | src/sketch.rs:204-218 | every pushed object is idle, inside the grid, has colour < palette_len and an orientation of 0 to 3 quarter turns |
| `Sketch.LayoutCoversGrid` | src/sketch.rs:204-218 | every cell of the grid receives the two objects at positions 2(x·ny + y) and 2(x·ny + y) + 1, and no other pushed object lies in that cell |
| `Sketch.Shuffle` | src/sketch.rs:221 | the Fisher-Yates shuffle in place leaves the multiset of objects unchanged |
| `Sketch.PermutedLayout` | src/sketch.rs:221 | any permutation of the pushed objects keeps the idle, in-grid, colour and orientation properties |
| `Sketch.NewObjects` | src/sketch.rs:201-224 | exactly 2·num_tiles.x·num_tiles.y objects, forming a permutation of the pushed sequence; each is idle, inside the grid, has colour < palette_len and 0 to 3 quarter turns (same code at src/main.rs:182-205) |
| `Sketch.Settle` | src/sketch.rs:365-373 | an object whose transition is older than 1.2 durations ends idle at its target, keeping shape and colour; any other object is unchanged; no stale transition remains |
| `Sketch.FinaliseStale` | src/sketch.rs:364-373 | the loop of `update` leaves every object settled and no other change (same code at src/main.rs:286-294) |
| `Sketch.Direction` | src/sketch.rs:32-34 | `random_direction` by its drawn index: -X, X, Y or -Y; each is a unit vector along one axis |
| `Sketch.Triggered` | src/sketch.rs:381-407 | a busy object, or a translation towards a cell outside the grid, is left unchanged; otherwise the transition becomes (orientation ± 1 quarter turn or pos + unit vector, time); cell, orientation, shape and colour never change; an accepted translation heads for a cell the grid contains |
| `Sketch.Trigger` | src/sketch.rs:381-407 | only the chosen object changes, and it becomes `Triggered` of itself (same code at src/main.rs:320-346) |
| `Sketch.SettleKeepsPlaced` | src/sketch.rs:43-49 | finalising keeps an object's cell and target cell inside the grid |
| `Sketch.TriggeredKeepsPlaced` | src/sketch.rs:398-403 | triggering keeps an object's cell and target cell inside the grid |
| `Sketch.SettleIsSeamless` | src/sketch.rs:366-371 | finalising a stale transition does not move the drawn pose: one past 1.2 durations is already at its target |
| `Sketch.TriggeredIsSeamless` | src/sketch.rs:406 | starting a transition at `time` does not move the drawn pose at `time` |
| `Sketch.Curve` | src/sketch.rs:437-441 | defined as the source, with `sin`, `cos` and `powf` from `MathLib`; used by `Palette` |
| `Sketch.Hue` | src/sketch.rs:424-428 | defined as the source, lerp(h_init, h_init + 1, i/8) % 1; properties in `HueIsFraction` and `HueStep` |
| `Sketch.Palette` | src/sketch.rs:409-435 | `palette` produces exactly 8 colours, so the conversion to a fixed-size array cannot fail (same code at src/main.rs:348-374) |
| `Sketch.HueIsFraction` | src/sketch.rs:424-428 | for h_init in [0, 1), hue i is the fractional part of h_init + i/8 and lies in [0, 1) |
| `Sketch.HueStep` | src/sketch.rs:424-428 | consecutive hues differ by 1/8 modulo 1 |
| `Sketch.ShapeInputIncreasing` | src/sketch.rs:416-425 | the shape inputs x_i = 0.3 + 0.25·i/8 rise strictly and stay in [0.3, 0.55) |
| `Sketch.Model.constructor` | src/sketch.rs:69-82 | the grid matches the window, both palettes are generated, the watermarks are 0, the objects are a permutation of the layout and all idle; the invariant holds |
| `Sketch.Model.Update` | src/sketch.rs:364-379 | every object is settled; exactly when time - last_anim_time > transition_delay, the chosen object is then triggered and last_anim_time := time; the invariant is kept |
| `Desktop.AsUsize` | src/main.rs:307 | the saturating `as usize` of an integral float, sending negatives to 0; used by `SwapIndex` |
| `Desktop.SwapIndex` | src/main.rs:305-307 | defined as the source, floor((1 - seconds_left/2)·8) as usize; properties in `SwapIndexSchedule`, `SwapIndexWrites` and `SwapIndexMonotone` |
| `Desktop.SwapIndexSchedule` | src/main.rs:301-311 | in the window (seconds_left ≤ 2) the saturating cast never clips, so u = floor((1 - seconds_left/2)·8) ≥ 0; u = k exactly while seconds_left is in (2 - (k+1)/4, 2 - k/4] |
| `Desktop.SwapIndexWrites` | src/main.rs:303-310 | in the window, an entry is written (u < 8) iff seconds_left > 0; u = 0 at seconds_left = 2 |
| `Desktop.SwapIndexMonotone` | src/main.rs:303-307 | as time advances through the window, u never decreases |
| `Desktop.PreSwap` | src/main.rs:301-311 | in the window only entry u changes, becoming new_palette[u], and only when u < 8; outside it nothing changes |
| `Desktop.PreSwapSweep` | src/main.rs:305-310 | strictly before the cut, each frame in the window writes exactly the entry u < 8 |
| `Desktop.Model.constructor` | src/main.rs:207-233 | as for the library build: the grid, both palettes, zero watermarks and a permutation of the layout |
| `Desktop.Model.Update` | src/main.rs:285-318 | the object step is as in the library build. When last_p_swap_time + 60 ≤ time: palette := old new_palette, new_palette := a fresh palette, last_p_swap_time := time. Otherwise only the window's pre-swap write happens, and new_palette and last_p_swap_time are unchanged. The invariant is kept |

## Left out

- Rendering is not modelled: `view`, `SemiCircle::draw` (the 200-point arcs and the striped rings) and `draw_palette_bg`. They only issue draw calls.
- The event handlers are not modelled: palette regeneration on key R, mouse press or touch, and quitting on mouse move in the desktop binary. They are input plumbing.
- Window and app bootstrapping is not modelled: `src/lib.rs`, `run_app`, `run_app_canvas`, `create_window`, `create_window_canvas`, the thread-local `MODEL`, and the desktop model's window id.
- `hsv` (the Okhsl conversion of the `palette` crate) and the `powf`, `sin` and `cos` of `curve` and of the elastic curves are uninterpreted function parameters. They are foreign and transcendental code.
- `ease_out_circ` is not modelled. It is unused and needs a square root.
- Randomness is replaced by parameters, so uniformity is not modelled. `Shuffle` runs the swap pattern of the random crate's `shuffle` from given indices.
- Shuffle: its contract states only that the result is a permutation of the input, which is all the source relies on. It does not say which permutation.
- f32 arithmetic is not modelled: rounding, NaN, infinities, and the `as i32` / `as usize` conversions beyond the saturation at 0. Everything is exact over reals and integers.
- Sketch.GridNew: requires width > 0, because a zero width divides by zero. It also requires height ≥ 0, as every window rectangle has.
- Sketch.GetPos and Sketch.GetOrientation: require a non-zero transition duration, because the progress divides by it. `GridInfo::new` always uses 3 s.
- Sketch.Model.Update and Desktop.Model.Update: when the trigger is due they require the drawn index to be below the number of objects. The source would panic on an empty object list.
