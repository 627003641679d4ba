# Cloth simulation: a Dafny model of the solver and its surroundings

This project models the core of a small 2-D cloth simulator. That core is
a position-based Verlet solver: particles are joined by breakable
distance links. Around it sit the pieces of the main loop that act on
the solver: mouse drag and erase, wind-zone selection and the
Space-key toggle. The model also covers the pan/zoom viewport handler
and the renderer, which flattens the links into a line buffer.

The files:

- `vectors.dfy` (module `Vectors`): `sf::Vector2f` as `Vec2` over reals, plus the exact
  helpers of `MathVec2`/`Math`: sign, dot, cross and normal. The square root behind
  `MathVec2::length` is a parameter `length` of type `LengthFn`. The only fact known
  about it is that it is never negative.
- `handle_store.dfy` (module `HandleStore`): the handle-indexed store that holds
  particles and links. It is a map from ID to value with a fresh-ID counter. A handle
  is an ID, and it resolves while that ID is in the map. The store's dense order is
  assumed to be the increasing order of live IDs, given by `Layout()` (see "## Left out").
- `particle.dfy` (module `Particles`): `Particle` is a value. Its mutating members
  `update`, `updateDerivatives` and `move` are member functions that return the
  updated particle.
- `constraints.dfy` (module `Constraints`): `LinkConstraint`, its validity predicate,
  and `solve` as a function. `solve` returns the updated link and particle store,
  since in the code it moves both endpoints through their handles.
- `solver_cycle.dfy` (module `SolverCycle`): the solver's per-frame cycle as functions
  of the two stores (`World`). The cycle is prune, then `sub_steps` rounds of
  gravity → friction → integrate → relaxation → derivatives. The file also holds
  the properties that hold across the cycle.
- `physics.dfy` (module `Physics`): class `PhysicSolver`. It has the code's fields and
  its loops, and each method is proved equal to the function above that specifies it.
- `main_app.dfy` (module `ClothApp`): `isInRadius`, `applyForceOnCloth`, the erase
  loop, the drag force, the wind-zone list, and class `App`. `App` holds the
  main-loop flags, their callbacks and one frame of the main loop.
- `viewport.dfy` (module `Viewport`): `ViewportHandler::State` and `ViewportHandler`
  as classes. The `sf::Transform` is a 2×3 affine matrix.
- `renderer.hpp`'s `Renderer` is in `renderer.dfy` (module `Rendering`), with the
  vertex buffer as a sequence.

Two places where the code behaves differently from what a reader might
expect, and the model follows the code:

- a link breaks only when it is stretched strictly beyond
  `distance * max_elongation_ratio`;
- `solve` has no explicit zero-length guard. Its division by the current length is
  safe only because it happens inside the `dist > distance` test, with
  `distance >= 0`. The precondition of `Constraints.Impulse` makes the verifier
  check this.

## Model

| member | source | states |
|---|---|---|
| Vectors.Sign | include/engine/common/math.hpp:10-13 | the result is −1 exactly when v < 0, otherwise 1 (also for 0); it is ±1 and `r * v >= 0` |
| Vectors.Normal | include/engine/common/math.hpp:62-65 | the normal is orthogonal to v, has v's squared length, and `cross(v, normal(v)) == dot(v, v)` |
| Vectors.DotSymmetric | include/engine/common/math.hpp:50-53 | `dot` (`Vectors.Dot`) is symmetric: `dot(a, b) == dot(b, a)` |
| Vectors.CrossAntisymmetric | include/engine/common/math.hpp:56-59 | `cross` (`Vectors.Cross`) is antisymmetric: `cross(a, b) == -cross(b, a)` |
| Vectors.CrossSelfIsZero | include/engine/common/math.hpp:56-59 | `cross(v, v) == 0` |
| Vectors.NormalTwiceIsNegation | include/engine/common/math.hpp:62-65 | `normal(normal(v)) == -v` |
| HandleStore.Store.Insert | include/engine/physics/physics.hpp:93 | emplace_back stores the value under a fresh ID that did not resolve before; every other entry is unchanged and the size grows by one |
| HandleStore.Store.Erase | include/engine/physics/physics.hpp:86 | erase removes exactly that ID; the other entries and the ID counter are unchanged, and no later insert reuses the ID |
| HandleStore.Store.Set | include/engine/physics/physics.hpp:94 | writing through a live handle changes that entry only |
| HandleStore.Store.LayoutBelow | include/renderer.hpp:32-35 | the dense order lists live IDs only, strictly increasing |
| HandleStore.LayoutBelowSize | include/renderer.hpp:32-35 | the dense prefix below n has one entry per live ID below n |
| HandleStore.LayoutBelowComplete | include/renderer.hpp:32-35 | every live ID below n occurs in the dense prefix below n |
| HandleStore.LayoutSize | include/renderer.hpp:32-35 | `data` has exactly `size()` entries and holds every live entry |
| HandleStore.Empty | include/engine/physics/physics.hpp:23-30 | a fresh store has no entry and size 0 |
| HandleStore.InsertAll | include/engine/physics/physics.hpp:93 | inserting any sequence of values keeps the store well formed and never lowers its ID counter |
| HandleStore.ErasedStaysAbsent | include/engine/physics/physics.hpp:86-93 | an erased ID does not resolve again, whatever is inserted afterwards |
| Particles.Particle.Update | include/engine/physics/particle.hpp:31-37 | a pinned particle, of any mass, is returned unchanged; a moving one gets `position_old = position`, `velocity += forces/mass*dt`, `position += velocity'*dt`; forces, mass, pin, id and colour are never changed |
| Particles.Particle.UpdateDerivatives | include/engine/physics/particle.hpp:39-43 | `velocity*dt == position - position_old` and forces are zeroed, pinned or not; nothing else changes |
| Particles.Particle.Move | include/engine/physics/particle.hpp:45-49 | no-op when pinned; otherwise `position += v` and nothing else changes |
| Particles.DefaultParticle | include/engine/physics/particle.hpp:8-17 | default particle: mass 1, moving, white, id 0, everything else zero |
| Particles.ParticleAt | include/engine/physics/particle.hpp:19-23 | `position == position_old == pos`, mass 1, moving, no velocity or force |
| Particles.ParticleWithMass | include/engine/physics/particle.hpp:25-29 | `position == position_old == pos` and the given mass, moving |
| Particles.Run | include/engine/physics/particle.hpp:31-49 | any sequence of update, updateDerivatives and move keeps mass, pin flag and id |
| Particles.PinnedNeverMoves | include/engine/physics/particle.hpp:31-49 | a pinned particle stays pinned and keeps its position under any such sequence |
| Constraints.NewLink | include/engine/physics/constraints.hpp:11-24 | rest distance is the length of `p_1.position - p_2.position`; strength 1, ratio 1.5, not broken, so the new link is valid |
| Constraints.MoveEndpoints | include/engine/physics/constraints.hpp:45-46 | `p_1.move(-p/m_1)`, `p_2.move(p/m_2)`: for two distinct endpoints, a free one ends at `position - p/m_1` (resp. `position + p/m_2`) and a pinned one stays; a link whose two handles are the same particle leaves it in place; no other particle and no other field changes |
| Constraints.Solve | include/engine/physics/constraints.hpp:32-48 | invalid link (`Constraints.LinkConstraint.IsValid`: both handles resolve and not broken) or length ≤ rest distance: nothing changes; otherwise `broken` becomes exactly `length > distance * ratio` and the particles become `MoveEndpoints` with `Impulse` of the current length, in the same call; only the endpoints move, pinned ones never, and no other field of the link changes |
| Constraints.ImpulseWeightsExcess | include/engine/physics/constraints.hpp:41-43 | `Impulse` is mass weighted: the impulse times `m_1 + m_2` is the excess length times the strength along the link's direction, for any masses |
| Constraints.CorrectionConservesMomentum | include/engine/physics/constraints.hpp:43-46 | for two free endpoints the displacements are exactly `d_1 = -p/m_1` and `d_2 = p/m_2`, so `m_1·d_1 + m_2·d_2 == 0` |
| Constraints.EqualMassesMoveOppositely | include/engine/physics/constraints.hpp:43-46 | with equal masses m the first endpoint moves by exactly `-p/m` and the second by the opposite displacement |
| Constraints.UnitMassesMoveByImpulse | include/engine/physics/constraints.hpp:41-46 | with unit masses the first endpoint moves by exactly `-p` and the second by `p`, so the separation becomes `v - 2p` |
| Constraints.UnitImpulse | include/engine/physics/constraints.hpp:41-43 | with unit masses and strength 1, `Impulse` is half the excess length `(dist - distance)/2` along the link's unit direction `v/dist` |
| Constraints.RestoredComponent | include/engine/physics/constraints.hpp:41-46 | per coordinate, taking half the excess off each end leaves `rest/dist` of the separation |
| Constraints.RestoredVector | include/engine/physics/constraints.hpp:41-46 | taking half the excess along the direction off both ends leaves the direction scaled to the rest distance |
| Constraints.UnitLinkRestoresRestLength | include/engine/physics/constraints.hpp:39-46 | with unit masses and strength 1, one solve puts the endpoints' separation at the rest distance along the old direction |
| Constraints.ThresholdLengthDoesNotBreak | include/engine/physics/constraints.hpp:40 | stretched exactly to `distance * ratio` the link is corrected but stays unbroken (the threshold is strict) |
| SolverCycle.SameBodiesChain | include/engine/physics/physics.hpp:32-43 | "same bodies, pins held" composes across consecutive stages |
| SolverCycle.SameBodiesKeepValid | include/engine/physics/physics.hpp:32-43 | a stage that keeps the bodies keeps the particle store's invariants |
| SolverCycle.SameLinksKeepValid | include/engine/physics/physics.hpp:73-80 | a stage that only touches `broken` keeps the link store's invariants |
| SolverCycle.Gravity | include/engine/physics/physics.hpp:45-50 | every particle's forces grow by `gravity * mass`; nothing else changes |
| SolverCycle.AirFriction | include/engine/physics/physics.hpp:52-57 | every particle's forces drop by `velocity * friction_coef`, with no mass factor; nothing else changes |
| SolverCycle.Positions | include/engine/physics/physics.hpp:59-64 | every particle becomes its `update(dt)`; bodies and pins held |
| SolverCycle.Derivatives | include/engine/physics/physics.hpp:66-71 | every particle becomes its `updateDerivatives(dt)`; bodies and pins held |
| SolverCycle.SolveAt | include/engine/physics/physics.hpp:76-78 | solving one link keeps both stores' invariants |
| SolverCycle.SolvePass | include/engine/physics/physics.hpp:76-78 | one pass over the links in dense order keeps both stores' invariants |
| SolverCycle.Relax | include/engine/physics/physics.hpp:73-80 | `solver_iterations` passes keep both stores' invariants |
| SolverCycle.SolveAtKeeps | include/engine/physics/physics.hpp:76-78 | a solve keeps every particle's mass, pin and colour, holds pinned particles and changes no link except `broken` |
| SolverCycle.SolvePassKeeps | include/engine/physics/physics.hpp:76-78 | the same for a whole pass |
| SolverCycle.RelaxKeeps | include/engine/physics/physics.hpp:73-80 | the same for all relaxation passes |
| SolverCycle.Substep | include/engine/physics/physics.hpp:37-41 | one round of gravity → friction → positions → constraints → derivatives keeps both stores' invariants |
| SolverCycle.SubstepKeeps | include/engine/physics/physics.hpp:37-41 | one round keeps the bodies, holds pinned particles and changes no link except `broken` |
| SolverCycle.Substeps | include/engine/physics/physics.hpp:36-42 | n rounds keep both stores' invariants |
| SolverCycle.SubstepsKeep | include/engine/physics/physics.hpp:36-42 | n rounds keep the bodies, hold pinned particles and change no link except `broken` |
| SolverCycle.PruneBelow | include/engine/physics/physics.hpp:84-88 | after the IDs below n are visited, a link is kept iff it is beyond n or valid; kept links unchanged |
| SolverCycle.Prune | include/engine/physics/physics.hpp:82-89 | exactly the invalid links are removed and every valid one survives unchanged; particles untouched |
| SolverCycle.SubStepDt | include/engine/physics/physics.hpp:34 | `dt / sub_steps` is nonzero when dt is and there are sub-steps |
| SolverCycle.Step | include/engine/physics/physics.hpp:32-43 | a full update keeps both stores' invariants |
| SolverCycle.StepKeeps | include/engine/physics/physics.hpp:32-43 | a frame adds, removes and re-weights no particle, moves no pinned particle, and leaves exactly the links valid at its start, each unchanged except possibly `broken` |
| SolverCycle.PruneAdvance | include/engine/physics/physics.hpp:84-88 | visiting ID n erases it iff it is live and invalid |
| SolverCycle.NoSubStepsOnlyPrunes | include/engine/physics/physics.hpp:34-36 | with `sub_steps == 0` an update only prunes |
| SolverCycle.ErasedEndpointDropsLink | include/engine/physics/physics.hpp:82-89 | after an update no link refers to a particle that was erased before it |
| SolverCycle.NoParticlesNoLinks | include/engine/physics/physics.hpp:82-89 | once every particle is gone, an update leaves no link |
| Physics.PhysicSolver.constructor | include/engine/physics/physics.hpp:23-30 | empty stores, `solver_iterations == 1`, `sub_steps == 16`, `gravity == (gx, gy)`, `friction_coef == fc` |
| Physics.PhysicSolver.WithDefaults | include/engine/physics/physics.hpp:8-30 | the defaults: gravity (0, 1500), friction 0.5 |
| Physics.PhysicSolver.Update | include/engine/physics/physics.hpp:32-43 | the new stores are `Step` of the old ones: prune once, then `sub_steps` rounds with `dt/sub_steps` |
| Physics.PhysicSolver.SubStep | include/engine/physics/physics.hpp:37-41 | the body of the sub-step loop is one `Substep` |
| Physics.PhysicSolver.ApplyGravity | include/engine/physics/physics.hpp:45-50 | the particle store becomes `Gravity` of the old one |
| Physics.PhysicSolver.ApplyAirFriction | include/engine/physics/physics.hpp:52-57 | the particle store becomes `AirFriction` of the old one |
| Physics.PhysicSolver.UpdatePositions | include/engine/physics/physics.hpp:59-64 | the particle store becomes `Positions` of the old one |
| Physics.PhysicSolver.UpdateDerivatives | include/engine/physics/physics.hpp:66-71 | the particle store becomes `Derivatives` of the old one |
| Physics.PhysicSolver.SolveConstraints | include/engine/physics/physics.hpp:73-80 | both stores become `Relax` of the old ones, with `solver_iterations` complete passes |
| Physics.PhysicSolver.SolveLink | include/engine/physics/physics.hpp:77 | `l.solve()` on one live link |
| Physics.PhysicSolver.RemoveBrokenLinks | include/engine/physics/physics.hpp:82-89 | the link store becomes `Prune` of the old one |
| Physics.PhysicSolver.AddParticle | include/engine/physics/physics.hpp:91-96 | a fresh ID holds a particle at `position` with `position_old == position` and `id` set to that ID; other particles, links and parameters unchanged |
| Physics.PhysicSolver.AddLink | include/engine/physics/physics.hpp:98-103 | the next link ID holds a new link between the two particles, its `id` set, the given ratio (1.5 by default) and the rest distance of their current positions; particles and other links unchanged |
| ClothApp.BoundaryIsOutside | src/main.cpp:146-150 | `isInRadius` (`ClothApp.IsInRadius`) is strict: a particle at exactly `radius` is not in the radius |
| ClothApp.ZeroRadiusSelectsNothing | src/main.cpp:146-150 | radius 0 selects no particle |
| ClothApp.RadiusSignIrrelevant | src/main.cpp:146-150 | a negative radius selects what its absolute value does |
| ClothApp.LargerRadiusSelectsMore | src/main.cpp:146-150 | for non-negative radii, whatever a radius selects a larger one selects too |
| ClothApp.Pushed | src/main.cpp:152-159 | exactly the in-radius particles get `forces + force`; all others are unchanged |
| ClothApp.PushKeepsBodies | src/main.cpp:152-159 | pushing moves no particle and keeps bodies, pins and the store's invariants |
| ClothApp.PushThenPullRestores | src/main.cpp:152-159 | pushing with `force` and then with `-force` restores the store |
| ClothApp.ApplyForceOnCloth | src/main.cpp:152-159 | the solver's particles become `Pushed` of the old ones |
| ClothApp.ErasedBelow | src/main.cpp:125-129 | after the IDs below n are visited, a particle is kept iff it is beyond n or out of the radius; kept ones unchanged |
| ClothApp.Erased | src/main.cpp:123-130 | a particle is kept iff it is not in the radius; kept particles unchanged |
| ClothApp.EraseIdempotent | src/main.cpp:123-130 | erasing twice at the same place is erasing once |
| ClothApp.EraseAdvance | src/main.cpp:125-129 | visiting ID n erases it iff it is live and in the radius |
| ClothApp.EraseInRadius | src/main.cpp:123-130 | the solver's particles become `Erased` of the old ones |
| ClothApp.DragForceProperties | src/main.cpp:117-118 | the drag force (`ClothApp.DragForce`, `(mouse - last) * mouse_drag_force`) is zero when the mouse is still, additive in `mouse_drag_force` and odd in it |
| ClothApp.SelectWinds | src/main.cpp:88-107 | the configured zones in order if there are any; otherwise the two default zones unless default wind is disabled; otherwise none |
| ClothApp.Blown | src/main.cpp:132-134 | the wind only adds forces: no particle moves, bodies and pins are held |
| ClothApp.Interacted | src/main.cpp:115-134 | drag, erase and wind keep the particle store's invariants |
| ClothApp.PinnedSurvivorStays | src/main.cpp:111-135 | a pinned particle not erased by the mouse is where it was after the frame |
| ClothApp.App.constructor | src/main.cpp:50-53 | not dragging, not erasing, wind blowing |
| ClothApp.App.PressRight | src/main.cpp:55-58 | dragging starts at the current world mouse position |
| ClothApp.App.ReleaseRight | src/main.cpp:59-61 | dragging stops |
| ClothApp.App.PressMiddle | src/main.cpp:62-64 | erasing starts |
| ClothApp.App.ReleaseMiddle | src/main.cpp:65-67 | erasing stops |
| ClothApp.App.PressSpace | src/main.cpp:69-72 | Space toggles `wind_blowing` |
| ClothApp.App.Frame | src/main.cpp:110-135 | one frame: drag with `(mouse - last) * mouse_drag_force` and `last := mouse` when dragging, then erase, then the wind if blowing, then `update(1/60)` |
| Viewport.CombineIsComposition | include/engine/render/viewport_handler.hpp:29-32 | the matrix product applies the right factor first |
| Viewport.ViewTransform | include/engine/render/viewport_handler.hpp:26-33 | the composed transform takes `offset` to `center` |
| Viewport.ViewTransformMaps | include/engine/render/viewport_handler.hpp:29-32 | the composed transform is `p ↦ center + zoom*(p - offset)` |
| Viewport.ScreenOfWorld | include/engine/render/viewport_handler.hpp:26-40 | the screen point of the mouse's world point is the mouse position |
| Viewport.WorldOfScreen | include/engine/render/viewport_handler.hpp:26-40 | the world point of a point's screen position is the point |
| Viewport.PanKeepsWorldPoint | include/engine/render/viewport_handler.hpp:94-100 | after panning by `(old - new)/zoom` the new mouse position is over the old world point |
| Viewport.WheelFactor | include/engine/render/viewport_handler.hpp:63-70 | the wheel factor is nonzero: above 1 for w > 0, between 0 and 1 for w < 0 |
| Viewport.WheelUpThenDownRestores | include/engine/render/viewport_handler.hpp:63-70 | one step up and one step down, in either order, restore the zoom |
| Viewport.State.constructor | include/engine/render/viewport_handler.hpp:19-24 | `center = size/2`, `offset = center/base_zoom`, `zoom = base_zoom`, not clicking |
| Viewport.State.UpdateState | include/engine/render/viewport_handler.hpp:26-33 | the transform becomes the composed view transform |
| Viewport.State.UpdateMousePosition | include/engine/render/viewport_handler.hpp:35-40 | `mouse_position = m`, `mouse_world_position = offset + (m - center)/zoom` |
| Viewport.ViewportHandler.constructor | include/engine/render/viewport_handler.hpp:45-49 | the state as constructed, with its transform computed |
| Viewport.ViewportHandler.AddOffset | include/engine/render/viewport_handler.hpp:51-55 | `offset += v/zoom`, transform recomputed |
| Viewport.ViewportHandler.Zoom | include/engine/render/viewport_handler.hpp:57-61 | `zoom *= f`, transform recomputed |
| Viewport.ViewportHandler.WheelZoom | include/engine/render/viewport_handler.hpp:63-70 | w = 0 changes nothing; otherwise zoom is multiplied by 1.2 or by 1/1.2 |
| Viewport.ViewportHandler.Reset | include/engine/render/viewport_handler.hpp:72-76 | `zoom == 1` and `offset == center` |
| Viewport.ViewportHandler.GetTransform | include/engine/render/viewport_handler.hpp:78-81 | the state's transform, which maps p to `center + zoom*(p - offset)` |
| Viewport.ViewportHandler.Click | include/engine/render/viewport_handler.hpp:83-87 | sets `clicking` and the mouse position only |
| Viewport.ViewportHandler.Unclick | include/engine/render/viewport_handler.hpp:89-92 | clears `clicking` only |
| Viewport.ViewportHandler.SetMousePosition | include/engine/render/viewport_handler.hpp:94-100 | offset moves by `(old_mouse - new_mouse)/zoom` only while clicking, and then the world point under the cursor stays the same |
| Viewport.ViewportHandler.SetFocus | include/engine/render/viewport_handler.hpp:102-106 | sets only `offset`, transform recomputed |
| Viewport.ViewportHandler.SetZoom | include/engine/render/viewport_handler.hpp:108-112 | sets only `zoom`, transform recomputed |
| Viewport.ViewportHandler.GetMouseWorldPosition | include/engine/render/viewport_handler.hpp:114-117 | the stored world mouse position |
| Viewport.ViewportHandler.GetScreenCoords | include/engine/render/viewport_handler.hpp:119-122 | `center + zoom*(p - offset)`, and its world point is p again |
| Rendering.FrameLeavesEndpointsLive | include/engine/physics/physics.hpp:32-43 | after an update every link's two handles resolve, so the renderer may dereference them |
| Rendering.Resized | include/renderer.hpp:33 | resizing to n keeps the first vertices and appends default ones |
| Rendering.LinkVertex | include/renderer.hpp:36-43 | the vertex takes the particle's position; its colour too in Default mode, none in Gradient mode |
| Rendering.LinksInLayout | include/renderer.hpp:35 | link i is the one at dense position i |
| Rendering.WriteLinkVertices | include/renderer.hpp:34-44 | vertices 2i and 2i + 1 hold link i's first and second endpoint |
| Rendering.Renderer.constructor | include/renderer.hpp:18-23 | empty buffer, Default colour mode |
| Rendering.Renderer.SetColorMode | include/renderer.hpp:25-28 | changes only the colour mode |
| Rendering.Renderer.UpdateVA | include/renderer.hpp:30-45 | the buffer has `2 × constraints.size()` vertices; vertex 2i (2i + 1) is at link i's first (second) particle, coloured as it in Default mode; the solver is not modified |

## Left out

- Floating point: every `float` is a real, with no claim about rounding, infinities or NaN.
- `MathVec2::length` (a square root) is the parameter `length`, known only to be non-negative. `normalize`, `angle`, `rotate`, `Math::sigm`, `sigm_0` and `radToDeg` need sqrt, trig or exp and are not modelled.
- The handle store (`CIVector`, `civ::Ref`) is not part of this model. It is abstracted as a map with an ID counter.
- HandleStore.Store.Layout: the order a range-for visits, and the order of the `data` vector, is ASSUMED to be the increasing order of live IDs. Nothing available supports this: a store that fills an erased slot with its last entity visits in another order. Three things rest on it:
  - the Gauss-Seidel order in which `SolverCycle.SolvePass`, `SolverCycle.Relax` and `Physics.PhysicSolver.SolveConstraints` solve the links, where each solve sees the earlier moves;
  - the vertex order of `Rendering.WriteLinkVertices` and `Rendering.Renderer.UpdateVA`;
  - the order in which `applyForceOnCloth`, the erase loop and the solver's per-particle loops visit the particles. Here the order does not affect the result.
- What erasing during a range-for does to that iteration is not modelled: the erase loops visit every ID and remove exactly the matching ones.
- In-place updates of particles and links: they are values in the stores. `update`, `updateDerivatives`, `move` and `solve` return the new value, and the solver writes it back under the same ID. Aliasing between two handles to one particle is therefore not modelled. A link whose two handles are equal is still covered, because `MoveEndpoints` applies both moves to the same entry one after the other.
- Integer widths: `uint32_t` counters are unbounded naturals.
- Physics.PhysicSolver.Update: requires `dt != 0` when there are sub-steps, because the float code would divide by zero into infinities. With no sub-steps, `dt/0` is computed but never used, and the model does not compute it.
- Viewport.ViewportHandler.Zoom, Viewport.ViewportHandler.SetZoom and the constructors of Viewport: require nonzero zoom factors. A zero zoom makes the float code divide into infinities.
- Physics.PhysicSolver.AddLink: requires both endpoints to be live, since the rest distance dereferences both handles.
- Physics.PhysicSolver.SubStep, Physics.PhysicSolver.SolveLink and Rendering.WriteLinkVertices: these only decompose the code's loop bodies; they are not separate functions in the code.
- `PhysicSolver::map` calls an arbitrary callback and is not modelled.
- The wind: `WindManager::update` and the `Wind` type live in `wind.hpp`, which is not part of this model. The frame takes the forces the wind adds as a parameter, and `Blown` assumes the wind only adds forces.
- Window and event plumbing: the callback registration, the Slash-key print of the viewport state, the message printed by the Space callback, and `Renderer::render`'s draw call.
- Configuration parsing (`config.cpp`) and `Profiler`: file I/O and clocks. The configured values are parameters of the model.
- Cloth construction (`buildCloth`) and the initial zoom are not modelled.
