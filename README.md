# Particle pool of the OpenGL particle lab, in Dafny

This project models the particle system of a small OpenGL lab program. It
covers the particle record and its lifecycle in `src/Particle.cpp`:
`randFloat`, `load`, `rebirth` and `update`. It also covers the pool driver
in `src/main.cpp`: `initParticles`, `updateParticles` (update every particle,
advance the clock, depth-sort the pool) and the CPU-buffer loop of
`updateGeom`, which flattens the first `numP` particles into the fixed arrays
`points[900]` and `pointColors[1200]`.

The model keeps the program's imperative form:

- `Particles.Particle` is a class with the fields of the C++ particle. Its
  methods `Rebirth`, `Load` and `Update` assign them in place.
  - Each method is proved against a pure function of the old state: `Reborn`
    for a rebirth, `Stepped` for an update.
  - The lifecycle properties are proved about those functions.
- `Pool.Application` is a class holding the pool (`particles`), the two
  arrays, the clock `t`, the step `h`, `g` and `keyToggles`.
  - `InitParticles` appends in a loop.
  - `UpdateParticles` updates in a loop, advances `t` and sorts.
  - `UpdateGeom` fills the arrays slot by slot.

Floating point is modelled by `real` arithmetic.

`rand()` is not global state here. Each rebirth is handed the eleven samples
(`Draws`) of `rand() / RAND_MAX` that its eleven `randFloat` calls would draw,
in source order. A sample lies in the closed interval [0, 1], since `rand()`
can return `RAND_MAX`. `UpdateParticles` takes one such block per particle.
A block is used only if that particle is reborn.

`Particle.h` (the constructor, `getPosition`, `getColor`, `ParticleSorter`) and
`MatrixStack` are not part of this model. Three consequences:

- `getPosition` and `getColor` are taken to return `x` and `color`.
- A new particle starts with every field zero.
- The sorter's comparison is `key(a) < key(b)`. `key` is a parameter: any real
  depth key of a particle's state, as the camera matrix would define it.

After a rebirth, `update` does not return early. It still takes the Euler step
and recomputes alpha (src/Particle.cpp:50-57), so a reborn particle ends one
step of `h * v` away from its birth point.

The rebirth test `abs(max(x.y, x.x)) > 1` is modelled exactly as written. It
is not a unit-square test: a particle far below -1 on one axis stays while the
other axis lies in [-1, 1] (`EscapedMeans`, `EscapedExamples`).

## Model

| member | source | states |
|---|---|---|
| Random.RandFloat | src/Particle.cpp:14-18 | for a sample r in [0, 1], the result lies in the closed range between l and h (either order); r = 0 gives l and r = 1 gives h |
| Particles.Reborn | src/Particle.cpp:27-46 | the reborn particle is `Newborn` at t: charge is ±1 (−1 exactly when the first sample maps below 0.5), m = 1, d in [0, 0.02], x = (0, 0, z) with z in [−3, −2], each component of v in [−0.1, 0.1], lifespan in [100, 200] and equal to randFloat of the seventh sample, tEnd = t + lifespan, scale in [0.2, 1], r and g in [0, 0.1], b in [0.25, 0.5], alpha = 1 |
| Particles.Particle.Rebirth | src/Particle.cpp:27-46 | rebirth(t) assigns the fields in place so that the new state is `Reborn(t, rs)`, hence `Newborn` at t |
| Particles.Particle.Load | src/Particle.cpp:20-24 | load() has the effect of rebirth(0): the state is `Reborn(0, rs)`, it is `Newborn` at 0 and tEnd == lifespan |
| Particles.Stepped | src/Particle.cpp:48-58 | one update: the Euler step is taken from the reborn particle when the rebirth test holds and from the old one otherwise; alpha is (tEnd − t) / lifespan of the resulting particle; after a rebirth alpha is 1 |
| Particles.Particle.Update | src/Particle.cpp:48-58 | update(t, h, g, keyToggles) changes the fields to `Stepped(old state, t, h, rs)`, which does not depend on g or keyToggles; the drawn ranges are preserved |
| Particles.EscapedMeans | src/Particle.cpp:50-53 | the rebirth test holds exactly when x.x > 1, or x.y > 1, or both are below −1 |
| Particles.EscapedExamples | src/Particle.cpp:50-53 | the test is strict: (1, 0) and (0.5, −5) are not reborn, (1.5, 0) is |
| Particles.WellFormedCanStep | src/Particle.cpp:38-57 | a particle with drawn ranges has a positive lifespan, so the division in update is defined |
| Particles.StepInside | src/Particle.cpp:50-57 | without a rebirth, update moves x by h * v, sets alpha to (tEnd − t) / lifespan and leaves v, charge, m, d, lifespan, tEnd, scale and the rgb colour unchanged |
| Particles.StepEscaped | src/Particle.cpp:50-57 | with a rebirth, update leaves a particle with the drawn ranges, tEnd = t + lifespan, alpha = 1, v and charge from the rebirth and x = (h·v.x, h·v.y, z + h·v.z) from the birth point (0, 0, z) |
| Particles.StepPreservesWellFormed | src/Particle.cpp:48-58 | every update keeps the drawn ranges of charge, m, d, v, lifespan, scale and colour |
| Particles.Run | src/Particle.cpp:48-58 | successive updates at t, t + h, ... keep the drawn ranges |
| Particles.RunInsideFlown | src/Particle.cpp:50-57 | successive updates that never meet the rebirth test are n moves-and-fades with no rebirth |
| Particles.FlownKeeps | src/Particle.cpp:55-57 | such a flight keeps v, charge, m, d, tEnd, scale and the rgb colour |
| Particles.FlownPosition | src/Particle.cpp:56 | after n updates without a rebirth, x = x₀ + (n·h)·v |
| Particles.FlownFade | src/Particle.cpp:57 | after n ≥ 1 updates without a rebirth, alpha = (tEnd − last) / lifespan, where last is the time of the n-th update |
| Particles.FlownAlpha | src/Particle.cpp:57 | after n ≥ 1 updates without a rebirth, alpha = (tEnd − (t + (n − 1)·h)) / lifespan, the share of life left at the last update |
| Pool.Application.constructor | src/main.cpp:40-66 | the pool is empty, numP = 300, points has 900 = 3·numP slots, pointColors 1200 = 4·numP, t = 0, h = 0.01, g = (0, −0.01, 0), all 256 key toggles are off |
| Pool.Application.InitParticles | src/main.cpp:180-190 | numP new particles are appended, none of them aliasing an existing one, the old ones are kept, and the k-th new one is `Reborn(0, draws[k])`, i.e. satisfies every post-load property |
| Pool.Application.UpdateEach | src/main.cpp:253-257 | every particle is updated exactly once, all with the same t: particle j ends as `Stepped(its old state, t, h, draws[j])` |
| Pool.Application.UpdateParticles | src/main.cpp:251-267 | after the update loop t == old t + h; the pool is then a permutation of the updated particles, ordered by the sort key; each particle's state is `Stepped` of its old state at the old t |
| Pool.SortByKey | src/main.cpp:264-266 | the result is a permutation of the input, ordered by the key, with no particle duplicated; particles themselves are not changed |
| Pool.Insert | src/main.cpp:266 | one pass of the sort: with the prefix before i ordered, the result is a permutation whose prefix up to i is ordered |
| Pool.PermutationKeepsDistinct | src/main.cpp:266 | reordering a pool without shared particles cannot create a shared one |
| Pool.PermutationKeepsInv | src/main.cpp:266 | reordering the pool keeps every particle's drawn ranges |
| Pool.Application.UpdateGeom | src/main.cpp:218-235 | the CPU arrays become exactly the flattened positions and adjusted colours of the first numP particles; every write is in bounds |
| Pool.FlatPositionsAt | src/main.cpp:228-230 | slots 3i, 3i+1, 3i+2 of the position buffer are pos.x, pos.y, pos.z of particle i |
| Pool.FlatColorsAt | src/main.cpp:231-234 | slots 4i..4i+3 of the colour buffer are r + a/10, g + g/10, b + b/10 and a of particle i |
| Pool.ExportedSlots | src/main.cpp:224-234 | for each particle of a pool, its three position slots and four colour slots hold exactly those values |
| Pool.FlatColorsInvertible | src/main.cpp:231-234 | the colour adjustment loses nothing: each particle's colour is recovered from its four slots |
| Pool.FlatDeterministic | src/main.cpp:218-235 | the buffers depend only on the particles' positions and colours |
| Pool.Application.UpdateGeomTwice | src/main.cpp:218-235 | exporting twice from an unchanged pool writes identical arrays |

## Left out

- The OpenGL, GLFW and GLSL calls, including buffer upload and draw: these are side effects on a foreign library.
- The shader, texture and mesh loading (`init`, `initTex`, the mesh part of `initGeom`): file I/O and external libraries.
- The window and event callbacks (`keyCallback` and the others), the `main` loop and the matrix setup of `render`: UI plumbing with no bearing on the particle state.
- `rand()`'s global state: each rebirth receives its own block of samples. The model does not capture that the C program hands each rebirthing particle the next eleven values of a single shared stream.
- Float rounding: arithmetic is over the reals. For example, alpha is exactly 1 right after a rebirth only over the reals.
- Particles.Particle.Update: requires that the particle is either about to be reborn or has a non-zero lifespan. Real division by zero is undefined, where a float would give inf or NaN. Every particle built by `InitParticles` meets this (`WellFormedCanStep`).
- `MatrixStack` and the body of `ParticleSorter`: the sort key is an uninterpreted parameter.
- Pool.SortByKey: `std::sort` is not stable and does not specify which permutation it returns among equal keys. The model's insertion sort yields one admissible result, and the contract states only what every admissible result satisfies.
- `getPosition` and `getColor` in `Particle.h` are not part of this model; they are taken to return `x` and `color`.
- The constructor of `Particle` is not part of this model either; the new particle starts zeroed, and `Load` overwrites every field.
- The `abs` and `max` of the rebirth test are taken to be the floating-point overloads. An integer `abs` would truncate first.
- Pool.Application.UpdateGeom: states the array contents as `FlatPositions`/`FlatColors` of the first numP states; the per-slot values are stated by `ExportedSlots` and `FlatPositionsAt`/`FlatColorsAt`.
