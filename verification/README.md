# Particle field of the interactive birthday page, in Dafny

The page decorates its canvas with a field of small hearts and sparks. The
particle field lives in `script.js`. This project models that field:

- `random(min, max)`.
- The `Particle` class, with its constructor and its `update(dt)` step.
- The clamp, spawn, update and sweep steps of the animation callback `frame(now)`.
- The two spawners, `burstParticles(cx, cy, count)` and `confettiBurst(n)`.

Three modules, one per concern:

- `draws.dfy` (module `Draws`) makes the randomness explicit.
  - Every `Math.random()` value becomes an input of type `Unit`, a real in [0, 1).
  - `Random(u, lo, hi)` is `random(lo, hi)` for the draw `u`.
  - The `Math.cos` and `Math.sin` of an angle drawn from [-π, 0) become one input of type `Heading`. A `Heading` is a point of the lower half of the unit circle.
  - `Round` is `Math.round`.
- `particles.dfy` (module `Particles`) holds one particle.
  - `PState` holds the value of every field of a particle.
  - `Spawn` is the state the constructor builds.
  - `Step` is one `update(dt)`, and `Fade` is the opacity rule inside it.
  - `Particle` is a class whose constructor and `Update` method change their fields in place, exactly as these functions describe.
- `field.dfy` (module `Field`) holds the shared `particles` array.
  - `ParticleField` is a class. It holds the array as a sequence of `Particle` objects, together with `width`, `height` and `lastTime`.
  - `Frame`, `BurstParticles` and `ConfettiBurst` update that state in place.
  - Each method's contract ties the particles' values, `Snapshot()`, to a function of the old values: `Advance`, `Bursts` and `Confetti`.
  - Lemmas about those functions state what a frame and a spawner promise.

Some facts about the code that the model makes explicit:

- A frame steps every particle by `min(40, now - lastTime)` (script.js:119). Nothing stops that step from being negative, for example when `now` is earlier than the time recorded when the page loaded.
  - The opacity bounds therefore hold for particles of non-negative age (`AdvanceOpacityBounded`).
  - A negative age up to the lifetime gives a negative opacity (`Fade`).
- The sweep at script.js:130 keeps a particle while `t < life + 800`, while the fade-out at script.js:82 ends 600 ms after the lifetime.
  - A particle therefore spends its last 200 ms fully transparent before it is removed (`InvisibleButAlive`).
  - No visible particle is ever swept (`SweptAreInvisible`).
- The comment at script.js:221 says "push upward/outward", but the vertical velocity `Math.sin(angle) * random(-6, -2)` at script.js:224, with the angle in [-π, 0), is a product of a non-positive and a negative number. It lies in [0, 6], so on the canvas, where y grows downward, burst particles are thrown sideways and down (`BurstVelocity`).
- `confettiBurst` (script.js:230-237) does not burst from a point: each spark is placed independently over the middle band of the viewport: in a viewport wider than 200 px, 100 px or more from either side, and between 20% and 60% of its height (`ConfettiParticleShaped`).
- `opts.size || random(...)` and `opts.life || random(...)` (script.js:70-71) treat a size or lifetime of 0 as missing (`Spawn`).
- Nothing bounds the number of live particles: the spawners and the ambient spawn only append, and only the sweep removes (`AdvanceGrowth`, `BurstsShaped`, `ConfettiShowerShaped`).

## Model

| member | source | states |
|---|---|---|
| Draws.Random | script.js:64 | a draw scaled onto [lo, hi): the value lies in [lo, hi) when lo < hi, equals lo when lo = hi, and lies in (hi, lo] when hi < lo |
| Draws.RandomOnto | script.js:64 | every value of [lo, hi) is produced by exactly one draw |
| Draws.RandomMonotone | script.js:64 | a larger draw never gives a smaller value when lo <= hi, and never a larger one when hi <= lo (the mirrored interval) |
| Draws.Round | script.js:232 | `Math.round`: the result n satisfies x - 0.5 < n <= x + 0.5, so ties round up |
| Draws.RoundScaledDraw | script.js:232 | `Math.round(Math.random() * k)` is one of 0, 1, ..., k |
| Particles.Fade | script.js:81-82 | opacity of age t: in [0, 1] when t >= 0; exactly 1 from 200 ms up to the lifetime; after the lifetime, 0 exactly when t >= life + 600; before it, 0 exactly at t = 0; negative for a negative age up to the lifetime |
| Particles.FadeInRises | script.js:81 | up to the lifetime the opacity never decreases with age |
| Particles.FadeOutFalls | script.js:82 | past the lifetime the opacity never increases with age |
| Particles.FadeFallsAfterRamp | script.js:81-82 | with a lifetime of at least 200 ms, the opacity never increases from age 200 on |
| Particles.Step | script.js:77-83 | one `update(dt)` on values: age plus dt, position plus velocity times dt, opacity the fade of the new age; the lemmas below state what it keeps and how steps compose |
| Particles.StepKeepsAttributes | script.js:77-83 | `update(dt)` changes only age (by dt), position (by velocity times dt) and opacity (to the fade of the new age, in [0, 1] for a non-negative age) |
| Particles.StepZero | script.js:77-83 | a step of 0 ms leaves age and position unchanged |
| Particles.StepsCompose | script.js:77-83 | a step of a then b ms equals one step of a + b ms |
| Particles.StepEachIsOneStep | script.js:77-83 | any non-empty sequence of steps equals one step of their sum |
| Particles.DefaultColor | script.js:75 | a heart defaults to rgba(255, 90, 150, a) with a in [0.6, 1), a spark to rgba(255, 220, 240, a) with a in [0.5, 0.95) |
| Particles.Spawn | script.js:67-76 | a new particle: at (x, y), age 0, opacity 0, vx in [-0.3, 0.3), vy in [-1.2, -0.2); size, lifetime, shape and colour from `opts` when given (size and lifetime when non-zero), otherwise size in [8, 22), lifetime in [1600, 3600), a heart exactly when the shape draw exceeds 0.5, and the default colour of its shape |
| Particles.SpawnCoherent | script.js:67-76 | a new particle whose lifetime option is missing or non-negative has a positive lifetime, and its opacity 0 is the fade of its age 0 |
| Particles.StepCoherent | script.js:77-83 | after `update(dt)` the opacity is again the fade of the age |
| Particles.CoherentOpacity | script.js:81-82 | a particle whose opacity follows its non-negative age is drawn with an opacity in [0, 1] |
| Particles.Particle.constructor | script.js:67-76 | the new object's fields are `Spawn(x, y, opts, d)` |
| Particles.Particle.Update | script.js:77-83 | each field's new value, and the new state is `Step(old state, dt)` |
| Field.ClampStep | script.js:119 | the step is min(40, elapsed): at most 40 and at most the elapsed time, equal to the elapsed time exactly when that is at most 40, non-negative when the elapsed time is |
| Field.Alive | script.js:130 | the sweep's test: a particle stays while its age is below its lifetime plus 800 ms |
| Field.KeepLive | script.js:130 | the sweep never makes the field larger |
| Field.KeepLiveMembers | script.js:130 | a particle survives the sweep exactly when it was in the field and its age is below lifetime + 800 |
| Field.KeepLiveAppend | script.js:130 | sweeping two parts in sequence equals sweeping each part, so the sweep keeps relative order |
| Field.KeepLiveAllAlive | script.js:130 | a field whose particles are all alive is unchanged by the sweep |
| Field.KeepLiveSelects | script.js:130 | the k-th survivor is the particle at the k-th surviving position of the old field |
| Field.LiveIndicesIncrease | script.js:130 | the surviving positions are strictly increasing and within the old field |
| Field.LiveIndicesExact | script.js:130 | a position survives exactly when its particle is alive |
| Field.StepAll | script.js:128 | `forEach(p => p.update(dt))`: the i-th particle becomes `Step` of the i-th |
| Field.StepAllCoherent | script.js:128 | updating every particle keeps each opacity equal to the fade of its age |
| Field.KeepLiveCoherent | script.js:130 | the sweep keeps each opacity equal to the fade of its age |
| Field.Advance | script.js:124-130 | one frame on values: append the ambient particle if one was spawned, step every particle by dt, then sweep; `Frame` is proved to compute it and the lemmas below state what it promises |
| Field.AdvanceCoherent | script.js:124-130 | a whole frame, spawn included, keeps every particle's opacity equal to the fade of its age |
| Field.AdvanceGrowth | script.js:124-130 | a frame adds at most one particle, and only with an ambient spawn; each particle after it is an old or spawned one stepped by dt, and alive |
| Field.FrameAgesAtMostMaxStep | script.js:119-130 | in one frame each particle ages by the clamped step, never by more than 40 ms |
| Field.AdvanceKeepsExactlyAlive | script.js:128-130 | without a spawn a frame is update then sweep, and a stepped particle is kept exactly when it is alive |
| Field.AdvanceOpacityBounded | script.js:119-130 | while the clock does not run backwards, a frame over a field of non-negative ages whose opacities follow their ages (and an ambient particle of age 0) leaves only particles of non-negative age with opacity in [0, 1] |
| Field.SweptAreInvisible | script.js:130 | a particle the sweep removes has opacity 0 |
| Field.InvisibleButAlive | script.js:130 | between lifetime + 600 and lifetime + 800 a particle is kept but has opacity 0 |
| Field.Ambient | script.js:124-125 | a particle is spawned exactly when the chance draw is below 0.08, at age 0, opacity 0, with its opacity following its age |
| Field.AmbientSpawn | script.js:124-125 | the ambient particle starts 10 px below the bottom edge, 20 px or more from either side when the canvas is wider than 40 px, with size in [8, 18), lifetime in [1600, 3600), the slow upward velocity vx in [-0.3, 0.3), vy in [-1.2, -0.2), and is a heart exactly when the shape draw exceeds 0.6 |
| Field.BurstVelocity | script.js:222-224 | the burst velocity has vx in (-3.2, 3.2) and vy in [0, 6] |
| Field.BurstParticle | script.js:220-224 | a burst particle starts at age 0 and opacity 0, with its opacity following its age |
| Field.BurstParticleShaped | script.js:220-224 | a burst particle starts within 30 px across and 12 px up or down of the centre, with lifetime in [800, 1400), size in [6, 20), vx in (-3.2, 3.2), vy in [0, 6], and is a heart exactly when the shape draw exceeds 0.4 |
| Field.Bursts | script.js:218-227 | the particles of a burst on values: one `BurstParticle` per draw, appended in draw order; `BurstParticles` is proved to append it |
| Field.BurstsShaped | script.js:218-227 | a burst of n draws has exactly n particles, each of them within those bounds |
| Field.BurstsAt | script.js:218-227 | the k-th particle of a burst is built from the k-th draw |
| Field.ConfettiColor | script.js:232 | the confetti fill is rgba(r, g, b, 0.9) with r in [200, 255], g in [130, 210], b in [200, 230] |
| Field.ConfettiParticle | script.js:232-234 | a confetti spark starts at age 0 and opacity 0, with its opacity following its age |
| Field.ConfettiParticleShaped | script.js:232-234 | a confetti spark starts 100 px or more from either side (viewport wider than 200 px), between 20% and 60% of the height (positive height), is a spark with lifetime in [1800, 3200), size in [6, 14), vx in [-2.5, 2.5), vy in [-6, -2), and has the confetti colour |
| Field.Confetti | script.js:230-237 | the sparks of a confetti shower on values: one `ConfettiParticle` per draw, appended in draw order; `ConfettiBurst` is proved to append it |
| Field.ConfettiShowerShaped | script.js:230-237 | a shower of n draws has exactly n sparks, each of them within those bounds |
| Field.ConfettiAt | script.js:230-237 | the k-th spark of a shower is built from the k-th draw |
| Field.LiveParticles | script.js:130 | `filter` on the objects: the kept objects' values are the sweep of the old values, every kept object comes from the old field, and no object is kept twice |
| Field.NewBurstParticle | script.js:220-224 | a fresh particle object whose fields are `BurstParticle` of its draws |
| Field.NewConfettiParticle | script.js:232-234 | a fresh particle object whose fields are `ConfettiParticle` of its draws |
| Field.ParticleField.constructor | script.js:56-62 | an empty field of the given size, holding the given start time |
| Field.ParticleField.Frame | script.js:118-133 | `frame(now)`: `lastTime` becomes `now`; the new values are `Advance` of the old ones by the clamped step with this frame's ambient spawn; the size is unchanged; every object is an old one or a fresh one; the field stays valid (distinct objects, opacity following age) |
| Field.ParticleField.AddAmbient | script.js:124-126 | the spawn step appends the ambient particle when one is drawn, as a fresh object after the existing ones |
| Field.ParticleField.UpdateAll | script.js:128 | every particle object is updated once: the new values are `StepAll` of the old |
| Field.ParticleField.Sweep | script.js:130 | the new values are `KeepLive` of the old, and every remaining object was in the old field |
| Field.ParticleField.Push | script.js:225 | `particles.push(p)`: the object is appended, and its value after the old values |
| Field.ParticleField.AddBurstParticle | script.js:220-225 | one turn of the burst loop appends a freshly created object whose value is the particle of the i-th draw, after the existing objects |
| Field.ParticleField.BurstParticles | script.js:218-227 | the new values are the old ones followed by `Bursts` of the draws, one per turn (none when count <= 0); every object in the field afterwards is an old one or a freshly created one; size and `lastTime` unchanged |
| Field.ParticleField.AddConfettiParticle | script.js:232-235 | one turn of the confetti loop appends a freshly created object whose value is the spark of the i-th draw, after the existing objects |
| Field.ParticleField.ConfettiBurst | script.js:230-237 | the new values are the old ones followed by `Confetti` of the draws, one per turn (none when n <= 0); every object in the field afterwards is an old one or a freshly created one; size and `lastTime` unchanged |

## Left out

- Drawing is not modelled: `draw`, `drawHeart`, `drawSpark`, `clearRect` and the draw loop of `frame`. They paint the canvas and change no state of the field.
- Scheduling is not modelled: `requestAnimationFrame` and `performance.now()`. The frame's time `now` and the initial `lastTime` are parameters.
- `resizeCanvas` is not modelled. The field's width and height are set by its constructor and never change.
- `Math.random()` is not modelled as a generator.
  - Each call is an input draw in [0, 1), grouped per spawn (`AmbientDraws`, `BurstDraws`, `ConfettiDraws`, `ParticleDraws`).
  - The order in which the calls happen is not modelled.
- `Math.cos` and `Math.sin` are not computed. A burst takes their values as one `Heading` input: a point of the lower half of the unit circle. The angle itself is not modelled.
- JavaScript numbers are exact reals in the model. IEEE-754 rounding, NaN and infinities are not modelled.
- Colours are `Rgba` values rather than CSS strings.
- The loop counts of `burstParticles` and `confettiBurst` are integers. A fractional count, which the JavaScript loop would round up, is not modelled.
- Field.ParticleField.BurstParticles states that the existing particles keep their values, that the new values follow them, and that every object is an old one or a fresh one. It does not state that the old objects stay at the same positions. `Push` and the one-turn methods do state it for each step.
- Field.ParticleField.ConfettiBurst: same as for `BurstParticles`.
- Field.LiveParticles and Field.ParticleField.Sweep state that every kept object was in the old field, that none repeats and that their values are the sweep of the old values in order. They do not state that the objects themselves keep their relative order.
- The rest of `script.js` is not part of this model: audio, the book and its pages, the play control, the opening sequence and keyboard handling.
