# GameEngine physics core in Dafny

Three small real-time 2D simulations share one physics core.

- **Rotating snowflake.** A concave body is fanned into triangles about its vertex mean. The triangles are checked against a probe polygon (the mouse circle's outline) with the Separating-Axis Theorem (SAT). The body's rotation angle accumulates every frame.
- **Fire.** Particles are emitted in batches at an origin. Each frame they are pushed upward and by turbulence, take a damped Verlet step, age, darken towards embers and shrink. Dead particles are pruned from the live list during the pass.
- **Cloth.** A 15 × 10 grid of point masses with its top row pinned. Springs join each mass to its right-hand and lower neighbour. Each tick applies every spring force, then gravity and a damped Verlet step per mass. A click pushes the masses near the mouse upward.

Files, one module each:

| file | module | models |
|---|---|---|
| `vectors.dfy` | `Vectors` | 2D vectors over `real`, the damped Verlet position update and its force-free decay |
| `lists.dfy` | `Lists` | lists without repeated entries (the object lists the loops mutate) |
| `snowflake.dfy` | `SnowflakeSim` | `GameEngine/simulation1.py`: decomposition, axes, projection, overlap, SAT, concave collision, angle accumulation |
| `fire.dfy` | `FireSim` | `GameEngine/simulation2.py`: `FireParticle`, `FireSystem` |
| `cloth.dfy` | `ClothSim` | `GameEngine/simulation3.py`: `Particle`, `Spring`, grid and spring construction, the tick, the click |

How the source appears in the model:

- **Imperative source code becomes classes.** Each class has the source's fields and `modifies` clauses: `FireParticle`, `FireSystem`, `Particle`, `Spring`, `Cloth` and `RotatingSnowflake`.
- **Each mutating method is specified against a pure function of the object's value state.**
  - A fire particle's state is a `ParticleState` and a cloth mass's is a `PointState`.
  - `FireSim.Step` is one frame of a fire particle.
  - `ClothSim.TickStates` is one cloth tick, and `ClothSim.Run` is any number of ticks.
  - The lemmas about the simulations are proved on these functions.
- **Loops with early exit that mutate nothing stay loops.** `SatCollision` and `ConcaveCollision` are `for` loops. Each is proved equal to a pure outcome function (`SatOutcome`, `ConcaveOutcome`), which also models the `ValueError` that `min` raises on an empty vertex list.
- **Arithmetic is exact.** Coordinates are real numbers, and colour channels and lifetimes are integers.
- **Lengths are handed in, not computed.** A caller that needs a Euclidean length (`np.linalg.norm`) passes it in, together with the fact `IsNorm(v, d)`, i.e. `d >= 0 && d * d == v·v`.
- **Random draws are parameters.** This covers the particle size and lifetime draws and the turbulence.

## Model

| member | source | states |
|---|---|---|
| `Vectors.GlideDecays` | GameEngine/simulation3.py:39-41 | with no acceleration, every Verlet step multiplies the implicit velocity (last displacement) by the damping factor: after `n` steps it is `damping^n` times the initial one |
| `SnowflakeSim.Centroid` | GameEngine/simulation1.py:51 | `np.mean(vertices, axis=0)`: the component-wise sum of the vertices divided by their number; defined for a non-empty polygon |
| `SnowflakeSim.Next` | GameEngine/simulation1.py:54 | the successor index is below `n` and equals `(i + 1) % n`, wrapping the last vertex to 0 |
| `SnowflakeSim.DecomposeConcave` | GameEngine/simulation1.py:50-57 | exactly one part per vertex; part `i` is `[centre, v[i], v[i+1]]` with the last part wrapping to `v[0]`; every part starts at the vertex mean; an empty polygon gives no parts |
| `SnowflakeSim.GetAxes` | GameEngine/simulation1.py:69-71 | one axis per vertex; axis `i` is perpendicular to edge `v[i] - v[i-1]` (edge 0 from the last vertex), as long as it, and on its left (cross product with the edge non-negative, equal to the squared edge length) |
| `SnowflakeSim.Projections` | GameEngine/simulation1.py:75 | one projection per vertex |
| `SnowflakeSim.ProjectionsAt` | GameEngine/simulation1.py:75 | projection `i` is vertex `i`'s dot product with the axis |
| `SnowflakeSim.MinOfIsLeast` | GameEngine/simulation1.py:76 | `min` is below every entry and is one of them |
| `SnowflakeSim.MaxOfIsGreatest` | GameEngine/simulation1.py:76 | `max` is above every entry and is one of them |
| `SnowflakeSim.Project` | GameEngine/simulation1.py:74-76 | `project`: the interval from the least to the greatest of the vertices' dot products with the axis; defined for a non-empty polygon (the empty case is the error in `SatOutcome`); its properties are `ProjectSpans` |
| `SnowflakeSim.ProjectSpans` | GameEngine/simulation1.py:74-76 | `lo <= hi`; every vertex's dot product lies in `[lo, hi]`; both ends are attained by some vertex |
| `SnowflakeSim.Overlap` | GameEngine/simulation1.py:78-79 | `overlap`: not (the first interval ends strictly before the second begins, or the second strictly before the first); its properties are `OverlapSymmetric` and `OverlapIffCommonPoint` |
| `SnowflakeSim.OverlapSymmetric` | GameEngine/simulation1.py:78-79 | `overlap(p, q) == overlap(q, p)` |
| `SnowflakeSim.OverlapIffCommonPoint` | GameEngine/simulation1.py:79 | two well-formed intervals overlap if and only if they share a point, so intervals that merely touch overlap |
| `SnowflakeSim.SatCollision` | GameEngine/simulation1.py:60-67 | the loop's answer is `SatOutcome`: for non-empty bodies `False` exactly when some axis of either body separates the projections; both bodies empty gives `True`; exactly one empty raises |
| `SnowflakeSim.SharedVertexNotSeparated` | GameEngine/simulation1.py:62-66 | no axis separates two bodies that share a vertex |
| `SnowflakeSim.SharedVertexCollides` | GameEngine/simulation1.py:60-67 | bodies sharing a vertex always collide |
| `SnowflakeSim.SelfCollides` | GameEngine/simulation1.py:60-67 | a body checked against itself collides |
| `SnowflakeSim.SatSymmetric` | GameEngine/simulation1.py:61-67 | the verdict (and the error) does not depend on the order of the two bodies, although the axes are tried in another order |
| `SnowflakeSim.ApartIffBelow` | GameEngine/simulation1.py:74-79 | one body's interval ends strictly before the other's begins if and only if every vertex of the first projects strictly below every vertex of the second |
| `SnowflakeSim.BelowScaled` | GameEngine/simulation1.py:72 | scaling the axis by a positive factor keeps every pair of vertex projections in order |
| `SnowflakeSim.SeparatesUnderScaling` | GameEngine/simulation1.py:72 | dividing an axis by its positive length cannot change whether it separates two bodies, so the un-normalised axes give the same verdict |
| `SnowflakeSim.ZeroAxisNeverSeparates` | GameEngine/simulation1.py:72 | the axis of a zero-length edge never separates |
| `SnowflakeSim.ConcaveCollision` | GameEngine/simulation1.py:129-133 | the loop's answer is `ConcaveOutcome`: parts in order, first hit answers `True`, an error from a part propagates, no hit gives `False` |
| `SnowflakeSim.ConcaveIffSomePart` | GameEngine/simulation1.py:129-133 | with a non-empty probe and non-empty parts, the result is `True` if and only if some part passes the SAT test; an empty part list gives `False` |
| `SnowflakeSim.RotateAsWritten` | GameEngine/simulation1.py:118-123 | one call as written: the angle grows by the step, the vertices are turned by the whole new angle |
| `SnowflakeSim.AsWrittenCompounds` | GameEngine/simulation1.py:118-123 | after `n` calls the angle is `n·δ` but the vertices have turned by `δ·n(n+1)/2` |
| `SnowflakeSim.AsWrittenCounterexample` | GameEngine/simulation1.py:118-123 | two calls with any step `δ ≠ 0`: angle `2δ`, vertices turned `3δ` |
| `SnowflakeSim.RotateByDelta` | GameEngine/simulation1.py:118 | the angle grows by the step and the vertices are turned by the step, so the gap between the two is kept |
| `SnowflakeSim.ByDeltaTracksAngle` | GameEngine/simulation1.py:118 | after `n` incremental calls the vertices have turned by exactly the accumulated angle `n·δ` |
| `SnowflakeSim.RotatingSnowflake.constructor` | GameEngine/simulation1.py:105-109 | centre as given, angle 0, nothing turned yet |
| `SnowflakeSim.RotatingSnowflake.Rotate` | GameEngine/simulation1.py:111-118 | `angle += rotation_speed * dt`, the vertices turned by the same increment; keeps "turned equals angle" |
| `FireSim.Darken` | GameEngine/simulation2.py:42-43 | the result is at or above the floors 100/0/0; channels at or above their floors never increase; the colour is unchanged exactly when it is already the ember colour |
| `FireSim.DarkenNClosedForm` | GameEngine/simulation2.py:43 | after `k` fades each channel is its start minus 3k, 5k or 10k, clamped at its floor |
| `FireSim.FadedExactlyFrom52` | GameEngine/simulation2.py:26 | the start colour (255, 200, 100) has reached the ember colour exactly from fade 52 on |
| `FireSim.Shrink` | GameEngine/simulation2.py:44 | the size stays at least 1, never increases from 1 or more, and decreases exactly when above 1 |
| `FireSim.ShrinkNClosedForm` | GameEngine/simulation2.py:44 | after `k` frames the size is `s - 0.2k`, clamped at 1 |
| `FireSim.RemoveFirst` | GameEngine/simulation2.py:77 | `list.remove` removes one occurrence: one shorter, the same multiset minus the entry |
| `FireSim.RemoveFirstSplit` | GameEngine/simulation2.py:77 | the first occurrence is the one removed; everything before it is kept in place |
| `FireSim.Step` | GameEngine/simulation2.py:72-75 | one frame of the loop body of `update` on a particle's state: the acceleration plus buoyancy `(0, -0.2)` plus the turbulence draw, a damped (0.95) Verlet step that clears the acceleration, lifetime − 1, one fade, one shrink; its properties are `StepKeepsHealthy`, `StepsAge`, `RemovedOnItsLastFrame` |
| `FireSim.NewbornHealthy` | GameEngine/simulation2.py:19-25 | a particle born with size in 10..20 and lifetime in 80..150 is within the healthy ranges |
| `FireSim.StepKeepsHealthy` | GameEngine/simulation2.py:70-75 | a healthy particle that survives a frame is still healthy |
| `FireSim.StepsAge` | GameEngine/simulation2.py:39-44 | after `n` frames the lifetime has dropped by exactly `n`, colour and size are `n` fades and `n` shrinks |
| `FireSim.RemovedOnItsLastFrame` | GameEngine/simulation2.py:41-48 | a particle with lifetime `L >= 1` is dead after frame `n` if and only if `n >= L` |
| `FireSim.FireParticle.constructor` | GameEngine/simulation2.py:19-26 | born at `(x, y)` with `previous_position == position`, zero acceleration, the drawn size and lifetime, the start colour |
| `FireSim.FireParticle.ApplyForce` | GameEngine/simulation2.py:28-30 | the force is added to the acceleration and nothing else changes |
| `FireSim.FireParticle.VerletIntegration` | GameEngine/simulation2.py:32-37 | new previous = old position; new position = old position + 0.95·(old position − old previous) + acceleration; acceleration reset to 0; nothing else changes |
| `FireSim.FireParticle.Update` | GameEngine/simulation2.py:39-44 | lifetime decreases by exactly 1, the colour fades once, the size shrinks once |
| `FireSim.FireParticle.IsDead` | GameEngine/simulation2.py:46-48 | `is_dead`: the lifetime is at most 0 |
| `FireSim.Living` | GameEngine/simulation2.py:76-77 | the particles that are not dead, in order: each entry of the list survives exactly when not dead |
| `FireSim.FireSystem.constructor` | GameEngine/simulation2.py:58-61 | origin and emission rate as given, no particles |
| `FireSim.FireSystem.Emit` | GameEngine/simulation2.py:63-66 | appends exactly `emission_rate` new particles (none for a negative rate), each fresh and born at the origin with its draws; the old entries are unchanged and in order; the list stays repetition-free and healthy |
| `FireSim.FireSystem.Spawn` | GameEngine/simulation2.py:66 | a fresh particle in the newborn state at the origin |
| `FireSim.FireSystem.Update` | GameEngine/simulation2.py:68-77 | every particle of the old list has taken exactly one frame (`Step`); the new list is exactly the old particles that are not dead, in their order; a particle stays exactly when its old lifetime exceeded 1; the list stays repetition-free and healthy |
| `FireSim.FireSystem.Sweep` | GameEngine/simulation2.py:70-77 | the loop over the copy advances every particle once and leaves the live list equal to the survivors |
| `FireSim.FireSystem.Visit` | GameEngine/simulation2.py:70-77 | one iteration keeps the loop invariant: the visited prefix is advanced and filtered, the rest untouched |
| `FireSim.FireSystem.AdvanceAt` | GameEngine/simulation2.py:72-75 | advancing entry `k` touches no other entry of the list |
| `FireSim.FireSystem.Advance` | GameEngine/simulation2.py:72-75 | buoyancy, turbulence, Verlet step and update together are one `Step` |
| `FireSim.LivingIsSurvivors` | GameEngine/simulation2.py:76-77 | once lifetimes dropped by one, the living particles are the survivors judged on the old states |
| `FireSim.FrameOutcome` | GameEngine/simulation2.py:68-77 | after a frame: the living list is the survivors, repetition-free, all healthy, and a particle lives on exactly when its old lifetime exceeded 1 |
| `FireSim.LivingDistinct` | GameEngine/simulation2.py:77 | pruning a repetition-free list leaves it repetition-free |
| `ClothSim.Accelerate` | GameEngine/simulation3.py:33-35 | `apply_force` on a state: a pinned particle is returned unchanged, a free one has the force added to its acceleration |
| `ClothSim.Advance` | GameEngine/simulation3.py:37-42 | `verlet` on a state: a pinned particle is returned unchanged, a free one takes the damped Verlet step, its previous position becomes its position and its acceleration 0 |
| `ClothSim.PinnedIgnoresTick` | GameEngine/simulation3.py:33-42 | forces and Verlet steps leave a pinned particle exactly as it is |
| `ClothSim.FreeParticleStep` | GameEngine/simulation3.py:33-42 | a free particle accumulates the force without moving; its step sets previous := position, position += DAMPING·(position − previous) + acceleration, and clears the acceleration |
| `ClothSim.Particle.constructor` | GameEngine/simulation3.py:27-31 | at `(x, y)`, previous position equal, zero acceleration, pinned as given |
| `ClothSim.Particle.ApplyForce` | GameEngine/simulation3.py:33-35 | the new state is `Accelerate` of the old: unchanged when pinned, acceleration plus force otherwise |
| `ClothSim.Particle.Verlet` | GameEngine/simulation3.py:37-42 | the new state is `Advance` of the old: unchanged when pinned, one damped Verlet step otherwise |
| `ClothSim.SpringForce` | GameEngine/simulation3.py:56 | the force on the first end: `STIFFNESS · (distance − rest_length) · delta / distance`, with `delta` from the first end to the second; defined for a non-zero distance |
| `ClothSim.PullPair` | GameEngine/simulation3.py:52-58 | `apply_spring_force` on the two ends' states: both unchanged when the distance is 0, otherwise `apply_force(force)` on the first and `apply_force(-force)` on the second; its properties are `PullPairFrame`, `PullPairBalanced`, `SpringPushAlong`, `PullPairCoincident`, `PullPairAtRest` |
| `ClothSim.PullPairFrame` | GameEngine/simulation3.py:51-58 | a spring changes only accelerations, and never a pinned end's |
| `ClothSim.PullPairBalanced` | GameEngine/simulation3.py:56-58 | the forces on the two ends are exact negations: with both free the sum of their accelerations is unchanged |
| `ClothSim.SpringPushAlong` | GameEngine/simulation3.py:52-58 | the push along the spring is `STIFFNESS·(distance − rest)·distance`, toward the other end on A and away on B: stretched springs pull the ends together, compressed ones push them apart |
| `ClothSim.PullPairCoincident` | GameEngine/simulation3.py:52-55 | a spring whose ends coincide (current distance 0) changes neither end, whatever its rest length |
| `ClothSim.PullPairAtRest` | GameEngine/simulation3.py:56-58 | a spring whose current distance equals its rest length changes neither end |
| `ClothSim.NormOfNegation` | GameEngine/simulation3.py:49-53 | the length of `a − b` equals the length of `b − a` |
| `ClothSim.Spring.constructor` | GameEngine/simulation3.py:46-49 | the endpoints as given and the rest length equal to their distance at construction |
| `ClothSim.Spring.ApplySpringForce` | GameEngine/simulation3.py:51-58 | the two ends' new states are the spring's pull on their old states (nothing when the distance is 0); a spring from a particle to itself changes nothing |
| `ClothSim.FreshSpringAtRest` | GameEngine/simulation3.py:49-56 | a freshly built spring, measured from either end, applies zero force |
| `ClothSim.PullFrame` | GameEngine/simulation3.py:51-58 | a spring touches only its own two ends, moves neither, keeps pins |
| `ClothSim.SpringPhaseFrame` | GameEngine/simulation3.py:110-111 | the whole spring loop moves no particle and leaves every pinned particle as it was |
| `ClothSim.TickKeepsPinned` | GameEngine/simulation3.py:110-114 | a tick leaves every pinned particle exactly as it was and changes no pin |
| `ClothSim.PinnedNeverMove` | GameEngine/simulation3.py:110-114 | over any number of ticks, whatever the springs measure, pinned particles never change |
| `ClothSim.GustEffect` | GameEngine/simulation3.py:105-107 | a click moves nothing and pins nothing; exactly the free particles closer than `SPACING` get `(0, −10)` added to their acceleration |
| `ClothSim.CellIndex` | GameEngine/simulation3.py:73 | index `y * NUM_X + x` has column `x` and row `y` |
| `ClothSim.RightNeighbour` | GameEngine/simulation3.py:68-75 | a particle not ending its row is `SPACING` from the next one as built |
| `ClothSim.LowerNeighbour` | GameEngine/simulation3.py:68-77 | a particle is `SPACING` from the one `NUM_X` further on as built |
| `ClothSim.PinnedIffTopRow` | GameEngine/simulation3.py:65-68 | particle `idx` is built pinned if and only if `idx < NUM_X`, i.e. it is in row 0 |
| `ClothSim.AdjacentInRange` | GameEngine/simulation3.py:71-77 | every grid spring's ends are two different indices below `NUM_X * NUM_Y` |
| `ClothSim.LinksStep` | GameEngine/simulation3.py:71-77 | adding one particle's springs extends the ordered, complete list one particle further |
| `ClothSim.Cloth.constructor` | GameEngine/simulation3.py:61-77 | `NUM_X * NUM_Y` fresh distinct particles, particle `i` at its grid position and pinned iff in row 0; `(NUM_X−1)·NUM_Y + NUM_X·(NUM_Y−1)` springs, exactly the right-hand and lower neighbours in loop order, each at rest length `SPACING` |
| `ClothSim.Cloth.BuildParticles` | GameEngine/simulation3.py:65-68 | `NUM_X * NUM_Y` fresh distinct particles, particle `i` in state `Initial(i)` |
| `ClothSim.Cloth.BuildRow` | GameEngine/simulation3.py:66-68 | one row appended: `NUM_X` fresh particles in column order, earlier entries kept |
| `ClothSim.Cloth.AppendParticle` | GameEngine/simulation3.py:67-68 | one fresh particle at the next grid position appended, earlier entries kept |
| `ClothSim.Cloth.NewParticle` | GameEngine/simulation3.py:67-68 | the particle at column `x`, row `y`: `(x·SPACING + WIDTH // 4, y·SPACING)`, pinned iff `y == 0` |
| `ClothSim.Cloth.BuildSprings` | GameEngine/simulation3.py:71-77 | the spring list is every right and lower neighbour pair, in loop order, each once, with `(NUM_X−1)·NUM_Y + NUM_X·(NUM_Y−1)` entries and rest length `SPACING` |
| `ClothSim.Cloth.LinkRow` | GameEngine/simulation3.py:72-77 | one row adds `NUM_X − 1` right springs and, unless last, `NUM_X` lower ones |
| `ClothSim.Cloth.LinkCell` | GameEngine/simulation3.py:73-77 | the springs of particle `idx`: right one when `x < NUM_X − 1`, then lower one when `y < NUM_Y − 1` |
| `ClothSim.Cloth.LinkRight` | GameEngine/simulation3.py:74-75 | the right-hand spring exactly when not at the end of a row |
| `ClothSim.Cloth.LinkDown` | GameEngine/simulation3.py:76-77 | the lower spring exactly when not in the last row |
| `ClothSim.Cloth.AddSpring` | GameEngine/simulation3.py:75 | one spring between particles `i` and `j` appended |
| `ClothSim.Cloth.Tick` | GameEngine/simulation3.py:110-114 | the new states are `TickStates` of the old: all springs in list order, then gravity and a Verlet step for each particle; the structure stays valid |
| `ClothSim.Cloth.ApplySprings` | GameEngine/simulation3.py:110-111 | the spring loop leaves the particles in the states of `SpringPhase` |
| `ClothSim.Cloth.PullAt` | GameEngine/simulation3.py:111 | spring `k` acts on its two ends only |
| `ClothSim.PhaseGrows` | GameEngine/simulation3.py:110-111 | the spring loop one spring further is one more pull |
| `ClothSim.Cloth.ApplyGravity` | GameEngine/simulation3.py:112-114 | the particle loop leaves the particles in the states of `Fall` |
| `ClothSim.Cloth.FallAt` | GameEngine/simulation3.py:113-114 | gravity and a Verlet step for particle `i` only |
| `ClothSim.Cloth.Click` | GameEngine/simulation3.py:102-107 | the new states are `Gust` of the old: the wind added to each particle closer than `SPACING` to the mouse |
| `ClothSim.Cloth.ClickAt` | GameEngine/simulation3.py:105-107 | the click's effect on particle `i` only |

## Left out

- Window, event polling, frame pacing, drawing and rendering (`draw`, `render_cloth`, `render_particles`) and the `while running` loops: presentation and I/O.
- `create_detailed_snowflake`, `CircleRigidBody` and the rotation matrix applied to the vertices in `rotate`: they need sine and cosine. `RotatingSnowflake` keeps the angle and how far its vertices have turned.
- Floating point: all arithmetic is exact (`real`, `int`), so rounding, overflow and NaN are not modelled.
- `np.linalg.norm` is not computed. Each caller receives the length with `IsNorm`: spring lengths in `Spring.constructor`, `ApplySpringForce`, `Tick`; distances from the mouse in `Click`.
- `SnowflakeSim.GetAxes` does not divide by the axis length. `SeparatesUnderScaling` shows this cannot change a verdict. A zero-length edge gives a NaN axis in the source, where every comparison is false, so it never separates there; `ZeroAxisNeverSeparates` shows the same for the model's zero axis.
- Random draws (`random.randint` for size and lifetime, `np.random.uniform` for turbulence) are method parameters. `FireParticle.velocity` is drawn but never read and is dropped, together with its draw. The draw-time alpha is presentation.
- `FireSim.RemoveFirst` requires the entry to be present: `list.remove` raising `ValueError` on a missing entry is not modelled, since its one caller proves the particle is in the list.
- `FireParticle.color` is a tuple; it is an `Rgb` datatype. `size` starts as an `int` and becomes a `float` after the first update; it is a `real` throughout, with the same values.
- The mouse and click events are inputs: `Click` receives each particle's distance from the mouse.

## Findings

| source | as written | input that shows it | evidently intended | confidence | as-written member | corrected member |
|---|---|---|---|---|---|---|
| GameEngine/simulation1.py:118-123 | `rotate` adds the step to `self.angle` and then rotates the already rotated `self.vertices` by the whole accumulated angle, so each frame turns the shape further than the last | two calls with any step `δ ≠ 0` (the main loop uses `π/18 · 1/60`): the angle is `2δ`, the vertices have turned `3δ`; after `n` calls they have turned `δ·n(n+1)/2` | a constant 10° per second (line 145): each call turns the vertices by the step only, so the shape is always turned by the accumulated angle | not executed | `SnowflakeSim.AsWrittenCounterexample` | `SnowflakeSim.RotatingSnowflake.Rotate` |
