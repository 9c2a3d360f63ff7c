# Dongle status screen: particle field and bongo-cat animation

This project is a Dafny model of the two algorithmic parts of the dongle screen's display code. Both parts carry contracts proved for all inputs; what is abstracted is listed under Left out.

- **The particle field** is in `custom_status_screen.c`. A 31-bit linear congruential generator (`pseudo_rand`) uses a static seed that starts at 12345. `init_particles` seeds fifteen particles from it, five draws per particle. `update_particles` moves every particle by its velocity and wraps it at the edges of the 240 x 135 canvas. `draw_particles` clears the canvas and draws a 3x3 core per particle, plus a 5x5 half-opacity halo for each bright particle.
- **The bongo-cat widget** is in `widgets/bongo_cat.c`. `set_animation` picks a target animation from the caps-lock bit and the typing speed, in a fixed priority order. It sends commands to the animated image only when the target differs from the global `current_anim_state`. `bongo_cat_wpm_status_update_cb` runs `set_animation` once per widget in the append-only `widgets` registry.

Files:

- `bytes.dfy` (module `Bytes`): the 8-bit value type shared by both parts.
- `pseudo_random.dfy` (module `PseudoRandom`): the generator step, the seed after n draws, and the mask.
- `status_screen.dfy` (module `StatusScreen`): particles, the wrap rule, the draw-command list, and the class `ParticleField`. The class holds the static seed and the `particles[15]` array, and it updates that array in place.
- `bongo_cat.dfy` (module `BongoCat`): animation states, frame tables, the target decision, the command groups, and the class `Widgets`. The class holds `current_anim_state`, the registry and a ghost log of the commands issued.

How the model represents the program:

- **Seed.** The seed is a `bv32`. Its `*` and `+` wrap modulo 2^32, as `uint32_t` does.
- **Coordinates and velocities.** In the program these are floats. In exact arithmetic they are whole hundredths of a pixel: integer starting positions, and velocities k/100 for k in -50..49. The model keeps them as integers in hundredths, so the rounding of the float operations is not modelled. Drawing uses `(int)(x / 2)`, which truncates toward zero, and `Pixel` spells that out.
- **Canvas and animated-image calls.** These become values, `StatusScreen.Command` and `BongoCat.Command`. `draw_particles` returns its list of commands. `set_animation` appends its commands to the log.
- **Inputs.** The indicator profile (an 8-bit mask) and the words-per-minute value (`uint8_t`) are parameters. A widget is identified by the handle of its animated-image object.

Behaviour of the code worth knowing, all proved:

- **The wrap is not a true torus.** A coordinate that falls below zero is set to exactly `CANVAS_WIDTH` (or `CANVAS_HEIGHT`), and one that reaches the far edge is set to 0. The proved range is therefore the closed [0, 240] x [0, 135], and `UnderflowLandsOnEdge` shows the edge value is reached. `StepIsNearlyToroidal` bounds how far this is from wrapping modulo the extent.
- **One animation state for all widgets.** `current_anim_state` is a single global. On a change of target, only the first registered widget receives commands. Every later widget sees the state already equal to the target, and so does a second registration of the same handle, so they receive nothing. `FanOutFirstOnly` and `SecondWidgetStarved` prove this.
- **The halo is drawn after the core.** Each bright particle's 5x5 halo comes right after its 3x3 core in the command list, so the halo is painted over the core. `RenderAt` states the order.

## Model

| member | source | states |
|---|---|---|
| PseudoRandom.Wrapped | boards/shields/dongle_screen/src/custom_status_screen.c:59 | definition: the multiply-add `seed * 1103515245 + 12345` in bv32 arithmetic, which wraps modulo 2^32 as `uint32_t` does (no contract of its own) |
| PseudoRandom.Mask | boards/shields/dongle_screen/src/custom_status_screen.c:59 | the mask `& 0x7fffffff` is the unsigned remainder modulo 2^31, so its result is below 2^31 |
| PseudoRandom.NextSeed | boards/shields/dongle_screen/src/custom_status_screen.c:57-61 | one draw is the wrapped 32-bit value `seed * 1103515245 + 12345` modulo 2^31, so every seed `pseudo_rand` produces is below 2^31 |
| PseudoRandom.SeedAfter | boards/shields/dongle_screen/src/custom_status_screen.c:57-61 | the seed after n calls of `pseudo_rand`; after at least one call it is below 2^31 |
| PseudoRandom.SeedAfterFive | boards/shields/dongle_screen/src/custom_status_screen.c:64-70 | five successive draws move the generator from draw n to draw n + 5 |
| PseudoRandom.FirstDraws | boards/shields/dongle_screen/src/custom_status_screen.c:58-60 | from the static seed 12345, the 1st, 2nd and 5th draws are 1406932606, 654583775 and 1109335178 |
| StatusScreen.Spawn | boards/shields/dongle_screen/src/custom_status_screen.c:65-69 | a particle built from five draws has x an integer in [0, 239], y an integer in [0, 134], vx and vy in {-50..49}/100, and brightness in [100, 255] |
| StatusScreen.Ensemble | boards/shields/dongle_screen/src/custom_status_screen.c:63-71 | the array `init_particles` writes for a given seed: exactly 15 particles, particle i from draws 5i+1..5i+5, every one within the initial bounds |
| StatusScreen.FirstParticle | boards/shields/dongle_screen/src/custom_status_screen.c:58-69 | from seed 12345 the first particle is x = 46, y = 95, vx = -0.26, vy = 0.23, brightness 246 |
| StatusScreen.Wrap | boards/shields/dongle_screen/src/custom_status_screen.c:78-88 | the wrap of one coordinate: the result lies in [0, extent]; a value already in [0, extent) is kept; the result is the extent itself exactly when the value is below zero |
| StatusScreen.ParticleField.constructor | boards/shields/dongle_screen/src/custom_status_screen.c:51-58 | at start-up the seed is 12345 and all 15 particles are zero |
| StatusScreen.ParticleField.PseudoRand | boards/shields/dongle_screen/src/custom_status_screen.c:57-61 | the seed advances one step, and the value returned is the new seed, in [0, 2^31) |
| StatusScreen.ParticleField.SpawnParticle | boards/shields/dongle_screen/src/custom_status_screen.c:65-69 | one particle takes exactly five draws, in the order x, y, vx, vy, brightness |
| StatusScreen.ParticleField.InitParticles | boards/shields/dongle_screen/src/custom_status_screen.c:63-71 | the array becomes the fixed ensemble of the seed (particle i from draws 5i+1..5i+5); exactly 75 draws are used; every particle satisfies the initial bounds |
| StatusScreen.Step | boards/shields/dongle_screen/src/custom_status_screen.c:75-88 | after a move, every particle has 0 <= x <= 240 and 0 <= y <= 135, from any prior position and velocity; the coordinate is exactly 240 (or 135) if and only if x + vx (or y + vy) < 0; velocity and brightness are unchanged |
| StatusScreen.StepAll | boards/shields/dongle_screen/src/custom_status_screen.c:73-90 | one `update_particles` over a whole ensemble: the count is kept, every particle ends on the closed canvas, and each velocity and brightness is kept |
| StatusScreen.StepIsNearlyToroidal | boards/shields/dongle_screen/src/custom_status_screen.c:75-88 | compared with a true torus: a moved coordinate in [0, extent] equals itself modulo the extent; one past the far edge becomes 0, and one below zero becomes the extent, each at most one velocity step from where the torus would put it |
| StatusScreen.UnderflowLandsOnEdge | boards/shields/dongle_screen/src/custom_status_screen.c:78-79 | a particle at the origin moving left and up lands on (240, 135), outside the half-open range |
| StatusScreen.ParticleField.UpdateParticles | boards/shields/dongle_screen/src/custom_status_screen.c:73-90 | the array, updated in place, is the old array with each particle stepped on its own; every particle ends up on the closed canvas |
| StatusScreen.Ticks | boards/shields/dongle_screen/src/custom_status_screen.c:73-90 | any number of ticks keeps the particle count and every velocity and brightness; after at least one tick from any state, every particle is on the closed canvas |
| StatusScreen.Pixel | boards/shields/dongle_screen/src/custom_status_screen.c:99-100 | `(int)(x / 2)` truncates toward zero, also for negative coordinates |
| StatusScreen.Palette | boards/shields/dongle_screen/src/custom_status_screen.c:103-110 | the colour is 0x4d80ff, 0x80ffff or 0xcc66ff exactly when i mod 3 is 0, 1 or 2 |
| StatusScreen.ParticleCommands | boards/shields/dongle_screen/src/custom_status_screen.c:99-120 | one rectangle for a dim particle and two for one brighter than 150, all in the particle's palette colour; the core sits at (x/2 - 1, y/2 - 1) with opacity = brightness; the halo strictly encloses the core on every side, at half its opacity |
| StatusScreen.Render | boards/shields/dongle_screen/src/custom_status_screen.c:92-122 | `draw_particles` as a command list: it starts with the background fill 0x0a0a2e at full opacity and holds at least one command per particle after it |
| StatusScreen.BrightCountSnoc | boards/shields/dongle_screen/src/custom_status_screen.c:117 | appending a particle adds one to the count of bright particles exactly when its brightness is above 150 |
| StatusScreen.Rects | boards/shields/dongle_screen/src/custom_status_screen.c:98-121 | definition: the commands of the particle loop, particle by particle in index order (each particle's core, then its halo when bright); its properties are stated by `RectsShape` and `RectsAt` |
| StatusScreen.RectsShape | boards/shields/dongle_screen/src/custom_status_screen.c:98-121 | the particle loop draws one rectangle per particle plus one per bright particle, and only rectangles |
| StatusScreen.RenderShape | boards/shields/dongle_screen/src/custom_status_screen.c:93-121 | the command list starts with the background fill 0x0a0a2e at full opacity, followed only by rectangles: 15 plus the number of particles brighter than 150 |
| StatusScreen.RectsAt | boards/shields/dongle_screen/src/custom_status_screen.c:98-121 | the commands of particle i appear, in order, right after those of all earlier particles |
| StatusScreen.RenderAt | boards/shields/dongle_screen/src/custom_status_screen.c:99-120 | particle i's core rectangle is at (x/2 - 1, y/2 - 1), size 3 x 3, with the colour for i mod 3 (0x4d80ff, 0x80ffff or 0xcc66ff) and opacity = brightness; if brightness > 150, a halo at (x/2 - 2, y/2 - 2), size 5 x 5, opacity brightness / 2, comes right after it |
| StatusScreen.DrawParticle | boards/shields/dongle_screen/src/custom_status_screen.c:99-120 | one iteration of the drawing loop issues exactly the commands of that particle |
| StatusScreen.ParticleField.DrawParticles | boards/shields/dongle_screen/src/custom_status_screen.c:92-122 | the commands issued are the rendering of the current particles; no particle is modified |
| StatusScreen.ParticleField.Tick | boards/shields/dongle_screen/src/custom_status_screen.c:124-127 | one timer tick is an update followed by a redraw of the updated particles |
| StatusScreen.ParticleField.Start | boards/shields/dongle_screen/src/custom_status_screen.c:146-147 | screen creation initialises the particles and draws them once; the seed ends 75 draws further on, where a later start-up would continue |
| StatusScreen.StartFromPowerOn | boards/shields/dongle_screen/src/custom_status_screen.c:51-58 | the first frame after power-on is a fixed function of the seed 12345 |
| BongoCat.Target | boards/shields/dongle_screen/src/widgets/bongo_cat.c:82-124 | the target state is never `none` |
| BongoCat.CapsLock | boards/shields/dongle_screen/src/widgets/bongo_cat.c:82 | caps lock is on exactly when bit 1 of the indicator profile is set |
| BongoCat.Frames | boards/shields/dongle_screen/src/widgets/bongo_cat.c:38-66 | every state plays a non-empty frame table, and the tap table is played exactly by the slow, mid and fast states |
| BongoCat.Duration | boards/shields/dongle_screen/src/widgets/bongo_cat.c:38-48 | every animation duration passed to `lv_animimg_set_duration` (the time of one pass through the whole frame table) lies between the fast 200 ms and the idle 1000 ms |
| BongoCat.Group | boards/shields/dongle_screen/src/widgets/bongo_cat.c:86-122 | switching a widget issues exactly four commands, all to that widget, starting with set src and ending with start |
| BongoCat.Animate | boards/shields/dongle_screen/src/widgets/bongo_cat.c:81-125 | one `set_animation` call as a value: the shared state becomes the target, and either nothing or one group of four commands is issued, all to that widget |
| BongoCat.FanOut | boards/shields/dongle_screen/src/widgets/bongo_cat.c:132-135 | the update callback's loop as a value: with any widget registered the shared state ends as the target, otherwise it is unchanged; every command goes to a registered widget |
| BongoCat.TargetTable | boards/shields/dongle_screen/src/widgets/bongo_cat.c:82-124 | smash if and only if profile bit 0x02 is set, for every wpm; otherwise idle iff wpm < 5, slow iff 5 <= wpm < 40, mid iff 40 <= wpm < 70, fast iff wpm >= 70 |
| BongoCat.Thresholds | boards/shields/dongle_screen/src/widgets/bongo_cat.c:92-116 | boundary cases: 4 gives idle, 5 slow, 39 slow, 40 mid, 69 mid, 70 fast; caps lock gives smash at wpm 0 and at wpm 255 |
| BongoCat.OnlyCapsBitMatters | boards/shields/dongle_screen/src/widgets/bongo_cat.c:21 | two profiles that agree on bit 0x02 give the same target |
| BongoCat.FasterNeverSlower | boards/shields/dongle_screen/src/widgets/bongo_cat.c:38-48 | without caps lock, a higher wpm never gives a longer animation duration |
| BongoCat.GroupTable | boards/shields/dongle_screen/src/widgets/bongo_cat.c:38-66 | each command group is set src, set duration, repeat infinite, start; idle plays the 4 idle frames at 1000 ms; slow, mid and fast play the same 2 tap frames at 400, 300 and 200 ms; smash plays the 10-entry smash table at 600 ms |
| BongoCat.AnimateIdempotent | boards/shields/dongle_screen/src/widgets/bongo_cat.c:85-122 | a call issues nothing if and only if the target equals the current state; a second identical call is always a no-op |
| BongoCat.FanOutSettled | boards/shields/dongle_screen/src/widgets/bongo_cat.c:132-135 | once the shared state equals the target, no further widget receives a command |
| BongoCat.FanOutFirstOnly | boards/shields/dongle_screen/src/widgets/bongo_cat.c:79-135 | with one shared state, an update sets the state to the target (if any widget is registered) and sends one command group to the first widget only when the target changes, and nothing otherwise |
| BongoCat.RepeatedUpdateSilent | boards/shields/dongle_screen/src/widgets/bongo_cat.c:132-135 | repeating an update issues nothing, whatever the registry; with a widget registered, the state stays the target |
| BongoCat.SecondWidgetStarved | boards/shields/dongle_screen/src/widgets/bongo_cat.c:79-135 | with two distinct widgets and the initial state, the second widget never receives a command |
| BongoCat.Widgets.constructor | boards/shields/dongle_screen/src/widgets/bongo_cat.c:25-79 | the state starts as `none`, and the registry and the command log start empty |
| BongoCat.Widgets.Play | boards/shields/dongle_screen/src/widgets/bongo_cat.c:86-89 | the four calls are issued in the order src, duration, repeat infinite, start |
| BongoCat.Widgets.SetAnimation | boards/shields/dongle_screen/src/widgets/bongo_cat.c:81-125 | afterwards the shared state equals the target, and so is never `none`; the log grows by one command group exactly when the state changed, and by nothing otherwise |
| BongoCat.Widgets.UpdateCb | boards/shields/dongle_screen/src/widgets/bongo_cat.c:132-135 | the registry is unchanged; the state and the new log entries are `set_animation` folded over the registry in list order, which means only the first widget receives commands, and only on a change |
| BongoCat.Widgets.Register | boards/shields/dongle_screen/src/widgets/bongo_cat.c:147 | the widget is appended at the end with no de-duplication; earlier entries are unchanged |
| BongoCat.TwoWidgetsOneUpdate | boards/shields/dongle_screen/src/widgets/bongo_cat.c:132-147 | after two registrations and two caps-lock updates, the only commands in the log are one smash group for the first widget |

## Left out

- `zmk_display_status_screen` (custom_status_screen.c:129-185) creates LVGL objects, sets styles and places widgets, which is layout. Only its start-up of the particle system (lines 146-147) is modelled, as `ParticleField.Start`.
- `k_timer_init` and `k_timer_start` (a 50 ms period) are kernel timing. `ParticleField.Tick` models what one timer callback does.
- The LVGL primitives (`lv_canvas_*`, `lv_animimg_*`) are foreign calls and are recorded as command values. Clipping of rectangles that fall partly outside the 120 x 68 buffer happens inside LVGL and is not modelled.
- Float rounding of `x += vx` and of `k / 100.0f` is not modelled. Coordinates are exact hundredths.
- NextSeed: its modulo-2^31 statement is about the multiply-add taken in bv32 arithmetic (which wraps modulo 2^32, as `uint32_t` does), not about the unbounded integer product, because the solver cannot relate bv32 multiplication to integer multiplication within the resource limit.
- `bongo_cat_wpm_status_get_state` and the `ZMK_DISPLAY_WIDGET_LISTENER` and `ZMK_SUBSCRIPTION` macros (bongo_cat.c:127-141) are not modelled. The macros come from ZMK's display and event-manager headers, outside this repository, as do the event manager and its work queue. `bongo_cat_wpm_status_get_state` casts every event it receives to a wpm event, including the indicator event. The words-per-minute value is therefore a plain parameter of `UpdateCb`.
- `widget_bongo_cat_init()` at bongo_cat.c:149 is generated by the `ZMK_DISPLAY_WIDGET_LISTENER` macro in ZMK's display headers, outside this repository. It is not modelled.
- `zmk_hid_indicators_get_current_profile()` is a foreign read, so the profile is a parameter. `UpdateCb` passes the same profile to every widget, which assumes the profile does not change during one update.
- `lv_animimg_create` and `lv_obj_center` (bongo_cat.c:144-145) are foreign. The animated-image handle is a parameter of `Register`.
- `zmk_widget_bongo_cat_obj` (bongo_cat.c:154) only returns `widget->obj` and is not modelled.
- The registry is modelled as a sequence, so appending the same handle twice just gives two entries. In the program, appending a node that is already in `sys_slist_t` relinks that node, which can corrupt the list; this is not modelled.
- Image assets (the `LV_IMG_DECLARE` lines) are opaque frame identifiers.
- Concurrency between the timer, the display work queue and event dispatch is not modelled. Every operation is one atomic step.
