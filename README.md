# Product showcase loop: fog particles, cycle sequencer, glyph split

A model of the animation core of an unattended product showcase. The page
cycles through a product catalog forever. Each product gets a timed
reveal, idle float and exit on one timeline. Behind it, a pool of fog
particles drifts, one update per display frame.

Four modules, one per part of `animation.js`:

- `Fog` (`fog.dfy`): the particle system. `ParticleState` is the value of
  one particle. `Respawn` is what `reset` assigns, and `Step` is one
  `update`: move by the velocity, spend one unit of life, reset if the guard
  holds. `StepAll` is one frame over the pool. The imperative code keeps
  its form. `Particle` is a class whose `Reset` and `Update` overwrite its
  fields in place. `FogField` holds the pool as a `seq<Particle>`
  field that `Push` extends. `Populate` is the counted loop of the fog
  start, `AnimateFog` is the per-frame loop over the pool, and `InitFog`
  combines them. Each method's `ensures` ties the new state to the value
  functions, and the lemmas about those functions carry the bounds.
- `Glyphs` (`glyphs.dfy`): `SplitTextToSpans`. It turns a name into one
  hidden inline-block glyph per character, in order, and turns a space
  into U+00A0.
- `Schedule` (`schedule.dfy`): every sub-animation of one cycle's timeline
  as an entry with phase, target, start offset, duration, repeat count,
  yoyo flag and stagger. All entries share one clock. `StaggerStarts`
  gives the start time of each element of a staggered entry.
- `Cycle` (`cycle.dfy`): `AnimateCycle` picks the product at
  `batchIndex mod length` and chains to `batchIndex + 1`. `CycleFrom` and
  `NthCycle` follow that chain from the start at batch index 0.

Inputs the code reads from its host are parameters:

- The canvas width and height are naturals, because a canvas is measured
  in whole pixels.
- Each random draw is a `real`. The lemmas assume it lies in [0, 1),
  through `ValidDraws`.
- A frame's update takes one `Draws` per particle. The draws are used only
  when that particle is reset.

Arithmetic is exact `real` arithmetic.

Three behaviours of the code worth stating outright, because a reader
might expect otherwise:

- **Length of a cycle.** A cycle's timeline ends at 9.7 s, or later when
  the name reveal ends later. The card float starts at 1.7 s, runs 4 s and
  repeats once, so it ends at 9.7 s. The background drift ends at 8 s. The
  exit phase ends at 7.4 s. The name reveal over n glyphs ends at
  0.8 + 0.05 · (n − 1) s plus the library's default duration. That passes
  9.7 s for a long enough name. `Schedule.TimelineEnd` states that the
  timeline ends at the later of the two. The next cycle is scheduled 0.5 s
  after the whole timeline completes.
- **Empty catalog.** This is not a quiet no-op. `batchIndex % 0` is NaN,
  so `PRODUCTS[NaN]` is `undefined`. `renderProduct` then throws when it reads `image_url`. The throw reaches
  the `catch` in `loadProducts`, which logs it. After that no timeline
  exists, so no further cycle is ever scheduled. The model shows this as
  `Halted`: nothing is shown and nothing is chained.
- **Pool size.** The pool is not reset when the fog starts: `initFog`
  appends 30 particles to whatever the array already holds, and `InitFog` models exactly that. `FogField`'s constructor
  starts with an empty pool, as the page does.

## Model

| member | source | states |
|---|---|---|
| `Fog.Respawn` | animation.js:38-46 | definition: the state `reset` assigns from seven draws and the canvas size; its ranges are `Fog.RespawnInRange` |
| `Fog.Advance` | animation.js:49-51 | definition: the move by the velocity and the one-unit life decrement; its effect is `Fog.StepWithoutReset` |
| `Fog.Expired` | animation.js:53 | definition: the reset guard; its meaning after the move is `Fog.ExpiredAfterMoveIff` |
| `Fog.Step` | animation.js:48-56 | definition: one `update`, the move then the guarded reset; its contracts are `Fog.StepWithoutReset`, `Fog.StepWithReset`, `Fog.StepBounds` and `Fog.StepKeepsSettled` |
| `Fog.RespawnInRange` | animation.js:38-46 | with draws in [0, 1): 0 ≤ x ≤ width and x < width when width > 0, likewise y with height; -0.25 ≤ vx < 0.25, -0.1 ≤ vy < 0.1, 50 ≤ size < 250, 0 ≤ alpha < 0.05, 0 ≤ life < 1000 |
| `Fog.StepWithoutReset` | animation.js:48-55 | when the guard is false after the move, x and y have grown by vx and vy, life has dropped by exactly 1 and is still positive, and vx, vy, size and alpha are unchanged |
| `Fog.StepWithReset` | animation.js:53-55 | when the guard holds after the move, the outcome is the reset state from the draws, whatever the particle was before |
| `Fog.ExpiredAfterMoveIff` | animation.js:48-53 | the reset happens if and only if life − 1 ≤ 0, or x + vx < -200, or x + vx > width + 200 |
| `Fog.StepIgnoresY` | animation.js:48-55 | the vertical position never decides a reset; changing it changes only the outcome's y, and not even that when the particle is reset |
| `Fog.StepBounds` | animation.js:38-55 | after any update, with valid draws, -200 ≤ x ≤ width + 200 and life ≥ 0 |
| `Fog.StepKeepsSettled` | animation.js:38-55 | the ranges of vx, vy, size, alpha and life hold again after every update, at any canvas size |
| `Fog.StepAll` | animation.js:80-83 | one frame keeps the pool's length and order and updates element i with its own draws, once |
| `Fog.SpawnAll` | animation.js:72-74 | the particles pushed at start are one reset each, in order |
| `Fog.SpawnAllSettled` | animation.js:70-74 | a freshly spawned pool satisfies every field range and lies inside the slack |
| `Fog.StepAllKeepsSettled` | animation.js:78-83 | a frame keeps a settled pool settled and puts every particle inside the slack |
| `Fog.Particle.constructor` | animation.js:34-36 | a new particle's state is the reset state |
| `Fog.Particle.Reset` | animation.js:38-46 | the fields become the reset state computed from the draws and the canvas size |
| `Fog.Particle.Update` | animation.js:48-56 | the new state is `Step` of the old state |
| `Fog.FogField.constructor` | animation.js:24-26 | the pool starts empty, with the canvas size given |
| `Fog.FogField.Resize` | animation.js:28-31 | the bounds become the window's size, and no particle and no pool slot changes |
| `Fog.FogField.Push` | animation.js:73 | exactly one fresh, distinct particle is appended, in the reset state |
| `Fog.FogField.Populate` | animation.js:72-74 | exactly 30 fresh particles are appended after the existing ones, and the pool's states become the old states followed by the 30 reset states |
| `Fog.FogField.AnimateFog` | animation.js:78-85 | the pool sequence is unchanged, the states become `StepAll` of the old states, and a settled pool stays settled inside the slack |
| `Fog.FogField.InitFog` | animation.js:70-76 | resize, append 30 particles, then run one frame; the final states are that frame applied to the old pool plus the spawned particles |
| `Glyphs.GlyphFor` | animation.js:13-16 | definition: the span made for one character; its contract is the per-character clause of `Glyphs.SplitTextToSpans` |
| `Glyphs.SplitTextToSpans` | animation.js:9-21 | one glyph per character (same length), each inline-block at opacity 0, whose content is the character, or U+00A0 for a space |
| `Glyphs.TextOf` | animation.js:11-17 | the element's text after the split is the glyph contents in order |
| `Glyphs.SplitConcat` | animation.js:12-19 | splitting a concatenation gives the two splits concatenated, so glyphs follow the text's order |
| `Glyphs.SplitTextHasNoSpaces` | animation.js:14 | the split text has the text's length and contains no plain space |
| `Glyphs.SplitRoundTrip` | animation.js:12-20 | for a text without U+00A0, turning U+00A0 back into a space gives the original text |
| `Schedule.Timeline` | animation.js:159-195 | definition: the thirteen entry constants in the order the timeline adds them; its contracts are the `Schedule` lemmas below |
| `Schedule.Span` | animation.js:162-195 | definition: an entry's duration times its repeat count plus one; its use is `Schedule.TimedEntriesEnd` |
| `Schedule.EndOf` | animation.js:162-195 | definition: an entry's offset, plus the stagger tail over its elements, plus its span; its use is `Schedule.TimedEntriesEnd` |
| `Schedule.InPhaseConcat` | animation.js:159-195 | helper for `Schedule.TimelinePhases`: taking one phase's entries of a concatenation gives the two filtered parts in order |
| `Schedule.InPhaseUniform` | animation.js:159-195 | helper for `Schedule.TimelinePhases`: filtering a single-phase table keeps all of it under its own phase and none of it under another |
| `Schedule.TimelinePhases` | animation.js:159-195 | the timeline's reveal, idle and exit entries are exactly the three phase tables, in order |
| `Schedule.PhaseTableOffsets` | animation.js:162-195 | the three phase tables have offsets 0, 0, 0.2, 0.4, 0.8, 1.0, 1.2; then 1.7, 2; then 6.5, 6.6, 6.6, 6.8 |
| `Schedule.RevealOffsets` | animation.js:161-176 | the reveal entries start at 0, 0, 0.2, 0.4, 0.8, 1.0 and 1.2 s |
| `Schedule.PhaseTargets` | animation.js:161-195 | in order, the reveal animates the background, spotlight, card, image, name glyphs, underline and details; the exit animates the text block, card, image and spotlight |
| `Schedule.IdleOffsets` | animation.js:178-181 | the idle entries start at 1.7 and 2 s, and each repeats once as a yoyo |
| `Schedule.ExitOffsets` | animation.js:183-195 | the exit mark is 6.5 s; the exit entries start at the mark, then 0.1, 0.1 and 0.3 s after it, so the text fades before the card leaves and the card leaves before the spotlight goes out |
| `Schedule.OffsetsConcat` | animation.js:159-195 | helper for `Schedule.TimelineInStartOrder`: the offsets of a concatenation are the two offset lists concatenated |
| `Schedule.SortedAppend` | animation.js:159-195 | helper for `Schedule.TimelineInStartOrder`: two non-decreasing lists separated by a midpoint concatenate to a non-decreasing list |
| `Schedule.TimelineInStartOrder` | animation.js:159-195 | the timeline's entries are added in non-decreasing order of start offset |
| `Schedule.PhasesSeparated` | animation.js:159-195 | every reveal entry starts before every idle entry, and every idle entry before every exit entry |
| `Schedule.TimedEntriesEnd` | animation.js:162-195 | every entry except the name reveal has an explicit duration and ends by 9.7 s; the card float ends at exactly 9.7 s; every exit entry ends by 7.4 s, and the card's exit ends at exactly 7.4 s |
| `Schedule.TimelineEnd` | animation.js:162-195 | with the name reveal over n > 0 glyphs, that reveal ends at 0.8 + 0.05 · (n − 1) plus the default duration, and every entry ends by the later of 9.7 s and that time; both times are reached by an entry |
| `Schedule.StaggerStarts` | animation.js:174 | a staggered entry over n elements gives n start times, element i starting at offset + stagger · i |
| `Schedule.StaggerIncreasing` | animation.js:174 | with a positive stagger, each element starts strictly after the one before it |
| `Schedule.GlyphRevealStarts` | animation.js:140-174 | the name reveal has one start time per character, glyph i starts at 0.8 + 0.05 · i s, after the card entrance begins |
| `Cycle.AnimateCycle` | animation.js:126-147 | an empty catalog halts; otherwise the cycle shows the entry whose index is the remainder of the batch index divided by the length (below the length, batch index = quotient · length + index) and chains to batch index + 1 |
| `Cycle.CycleFrom` | animation.js:144-149 | definition: the n-th cycle of the completion chain from a batch index; its contract is `Cycle.ChainAdvances` |
| `Cycle.NthCycle` | animation.js:199-201 | definition: the n-th cycle after `startCycle` starts at batch index 0; its contracts are `Cycle.NthCycleShows` and the lemmas after it |
| `Cycle.ChainAdvances` | animation.js:144-149 | following the completion chain n times from batch index b gives the cycle for batch index b + n |
| `Cycle.NthCycleShows` | animation.js:126-128 | for a non-empty catalog, the n-th cycle after start shows entry n mod length and chains to n + 1 |
| `Cycle.EmptyCatalogShowsNothing` | animation.js:126-130 | with an empty catalog no cycle ever shows a product |
| `Cycle.NextCycleShowsNextEntry` | animation.js:127 | consecutive cycles show consecutive entries, wrapping from the last entry to the first |
| `Cycle.CyclesRepeat` | animation.js:127-128 | cycle n + length shows the same entry as cycle n |
| `Cycle.EveryEntryShown` | animation.js:127-128 | any length consecutive cycles include one that shows entry j, for every entry j |
| `Cycle.TwoEntryCatalog` | animation.js:127-128 | for catalog [A, B], cycles 0, 1 and 2 show A, B and A |

## Left out

- Rendering: `draw` (radial gradient, `arc`, `fill`) and the per-frame
  `clearRect`. These are canvas output with no checkable result.
- Loading: `fetch`, JSON parsing, the `data.products || []` fallback and
  the `catch` that logs errors. These are network I/O. The catalog is a
  parameter, and the empty-catalog failure is the `Halted` outcome.
- Presentation: `renderProduct`, the `querySelector` and `getElementById`
  lookups, and the DOM side of `splitTextToSpans` (clearing
  `innerHTML`, `appendChild`). Glyphs are values rather than DOM nodes.
  Their order is the sequence order.
- The tween library:
  - the initial `gsap.set` states (lines 152-156);
  - the property values each tween moves towards;
  - easing curves and interpolation;
  - the library's own default duration for the name reveal. It is left
    open as `LibraryDefault`, and `EndOf` takes it as a parameter;
  - the 0.5 s `delayedCall` buffer before the next cycle. Only the
    chaining to `batchIndex + 1` is modelled.
- Host plumbing: `requestAnimationFrame` self-scheduling, the `resize` and
  `DOMContentLoaded` listeners, and `startCycle` being called from
  `loadProducts`. `NthCycle` starts at batch index 0, as `startCycle`
  does. `FogField.Resize` is the body of `resizeCanvas`.
- `Math.random`: draws are inputs, and the lemmas assume they lie in
  [0, 1).
- Floating point: positions, velocities, life and offsets are exact reals.
  For example, `6.5 + 0.1` is exactly 6.6 here. A batch index is
  unbounded, whereas a JavaScript number loses integer precision past 2^53.
- The unused constants `PRODUCTS_PER_CYCLE` and `CYCLE_DURATION`, and the
  variable `currentBatchIndex` (animation.js:6), which is declared and never
  read or written. They affect no behaviour. There is no mutable cycle
  counter: the batch index is an argument passed along the chain, as in
  `animateCycle`.
- Fog.RespawnInRange: promises `x < width` only when the width is
  positive. With a zero-width canvas the reset puts x at 0 = width, so
  the strict bound cannot hold.
- Glyphs.SplitTextToSpans: one glyph per Unicode scalar value. The code's
  `text.split("")` splits by UTF-16 code unit, so a character outside the
  Basic Multilingual Plane (an emoji, a rare CJK ideograph) becomes two
  spans there, each holding a lone surrogate. Dafny's `char` is a scalar
  value, so the model gives it one glyph. For text inside the Basic
  Multilingual Plane the two agree.
- Schedule.GlyphRevealStarts: one start time per Unicode scalar value. The
  code staggers over UTF-16 code units, so a character outside the Basic
  Multilingual Plane gets two start times there and one here.
