# bevy_pixel_perfect: the per-camera update, in Dafny

`bevy_pixel_perfect` is a Bevy plugin that renders a 2D scene at a fixed
virtual resolution, keeps the camera on whole virtual pixels, and can make
the picture chunkier by halving the virtual resolution ("joins"). This project
models the simulation-side core of the plugin in `src/lib.rs`:

- the two components, `PixelPerfectCamera` (resolution, subpixel translation,
  bar colour, bar offset) and `PixelPerfectPixelation` (`joins` and a private
  `starting_resolution`), with `PixelPerfectCamera::default` and
  `PixelPerfectPixelation::from_joins`;
- the three systems: `pixelate_added` captures the camera's resolution when a
  pixelation is newly added; `update_pixelation_resolution` asserts
  `joins >= 0`, sets the resolution to `starting_resolution * 2^-joins` and
  the projection's scale to `2^joins`; `update_transform` writes the floor of
  the subpixel translation into the camera's transform and keeps its depth;
- Bevy's change detection as the systems' query filters see it
  (`Added<T>`, `Changed<T>`), with change ticks: every component keeps the tick
  it was inserted at and the tick of its last mutable access, every system
  keeps the tick of its last run, and a filter matches when the component's
  tick is newer than that last run;
- the order the plugin configures in `PostUpdate`: `pixelate_added`, then
  `update_pixelation_resolution` (the `Pixelation` set), then
  `update_transform` (the `TransformPropagate` set).

Files and modules:

- `geometry.dfy` (`Geometry`): `Vec2`, `Vec3`, `Color`, and the floor.
  `f32` is idealised as `real`.
- `components.dfy` (`Components`): the components and their defaults.
- `entities.dfy` (`Entities`): a camera entity with its change ticks, and the
  writes application code can make between frames (write the camera, write
  `joins`, insert or remove the pixelation).
- `systems.dfy` (`Systems`): each system as what one iteration of its query
  loop does to one entity (`None` is the failed assertion), the exact power
  of two, and `RunFrame`, one frame on one entity.
- `frames.dfy` (`Frames`): what frames and sequences of frames do to a camera.
- `world.dfy` (`Schedule`): class `World` holding the entities, the world's
  change tick and each system's last run. Each system is a method that loops
  over the entities and updates them in place, proved against the per-entity
  function. `RunPostUpdate` runs the three in the plugin's order.
- `scenarios.dfy` (`Scenarios`): two worked examples that drive `World`,
  built from small step methods (one frame, an attach frame, a joins write
  followed by a frame, a joins write that panics).

Notes on how the code behaves:

- `update_transform` runs only for cameras whose `PixelPerfectCamera` changed
  (`Changed<PixelPerfectCamera>`, src/lib.rs:157), not every frame. The
  invariant `World.Valid` shows this loses nothing: a camera is either marked
  changed or already snapped, so after every frame each camera is snapped.
- The starting resolution is captured by a separate system, `pixelate_added`,
  not by `update_pixelation_resolution`. That system's write marks the
  pixelation changed, so `update_pixelation_resolution` still sees a newly
  added pixelation in the same frame.
- Only negative `joins` fails an assertion (src/lib.rs:190). Nothing checks
  that the resolution is positive. `Frames.FramePreservesPositiveResolution`
  states when it stays positive.
- `update_pixelation_resolution` writes the camera on every change of the
  pixelation, even when the value is the same. That marks the camera changed,
  so `update_transform` runs in the same frame.

Inserting a pixelation over one already present is a change, not an
addition, in Bevy. The old added tick is kept and nothing is captured again.
A fresh `from_joins` value then brings its zero starting resolution, and the
camera's resolution becomes zero (`Frames.ReinsertedPixelationZeroesResolution`).
Assigning a whole new value through a mutable query
(`*pixelation = PixelPerfectPixelation::from_joins(j)`) is the same
transition as `AttachPixelation` over an existing pixelation, since the
struct, `from_joins` and `Default` are public: it keeps the added tick, marks
the component changed, and zeroes the resolution the same way.

## Model

| member | source | states |
|---|---|---|
| Geometry.FloorReal | src/lib.rs:160-162 | the floor is a whole number at most the input and within one of it |
| Geometry.Floor | src/lib.rs:160-162 | `Vec2::floor` is component-wise: each component is whole, at most the input's, and within one pixel below it |
| Geometry.WholeWithinOneIsFloor | src/lib.rs:160-162 | any whole number within one pixel at or below a position is exactly its floor, so the snap is unique |
| Geometry.FloorMonotonic | src/lib.rs:160-162 | the floor never reverses motion: a larger position never snaps lower |
| Geometry.FloorRoundsTowardNegativeInfinity | src/lib.rs:160-162 | a negative fractional position snaps down, away from zero (-0.3 to -1), not toward zero |
| Components.DefaultCamera | src/lib.rs:145-154 | the default camera has a 256 by 256 resolution, zero subpixel translation, opaque black bars and zero bar offset |
| Components.DefaultPixelation | src/lib.rs:127-134 | the default pixelation has no joins and a zero starting resolution |
| Components.FromJoins | src/lib.rs:136-143 | `from_joins(j)` has `joins == j` and keeps the default zero starting resolution |
| Entities.CameraEntity.PixelationAdded | src/lib.rs:170 | the `Added<PixelPerfectPixelation>` filter: only an entity with a pixelation matches, nothing matches for a system that ran after every tick of the entity, and an addition whose changed tick is not older than its added tick is also a change |
| Entities.CameraEntity.PixelationChanged | src/lib.rs:186 | the `Changed<PixelPerfectPixelation>` filter: only an entity with a pixelation matches, and nothing matches for a system that ran after every tick of the entity |
| Entities.CameraEntity.CameraChanged | src/lib.rs:157 | the `Changed<PixelPerfectCamera>` filter: nothing matches for a system that ran after every tick of the entity |
| Entities.Spawned | src/lib.rs:106-111 | spawning a camera bundle inserts every component at the current tick, with or without a pixelation |
| Entities.WriteCamera | src/lib.rs:113-124 | writing the public camera fields marks the camera changed and touches no other component |
| Entities.WriteJoins | src/lib.rs:128-133 | a field write to `joins` keeps the starting resolution and the added tick, and marks the pixelation changed |
| Entities.AttachPixelation | src/lib.rs:126-134 | inserting a pixelation on a camera without one makes it newly added; over an existing one it keeps the old added tick and is only marked changed |
| Entities.DetachPixelation | src/lib.rs:126-134 | removing the pixelation leaves the camera, with the resolution it last got, untouched |
| Systems.Pow2 | src/lib.rs:192 | 2^n is at least one |
| Systems.ScaleFactor | src/lib.rs:192 | the scale factor `2^-joins` lies in (0, 1] and is the reciprocal of 2^joins |
| Systems.Pow2Add | src/lib.rs:129-131 | powers of two add their exponents |
| Systems.ScaleFactorHalves | src/lib.rs:129-131 | each further join halves the scale factor |
| Systems.ScaleFactorAdd | src/lib.rs:129-131 | joins compose: `a + b` joins scale by the product of the factors for `a` and `b` |
| Systems.SnappedTranslation | src/lib.rs:160-163 | the written translation keeps the depth and puts x and y on the whole pixel at or below the subpixel translation |
| Systems.SnappedIsFloor | src/lib.rs:160-163 | a snapped transform's x and y are exactly the floors of the subpixel translation |
| Systems.PixelateAdded | src/lib.rs:167-177 | only a newly added pixelation gets `starting_resolution := camera.resolution`, keeping its joins and marked changed; the camera, transform and projection are never written |
| Systems.UpdatePixelationResolution | src/lib.rs:179-197 | fails exactly when a changed pixelation has negative joins; otherwise a changed pixelation sets the resolution to start times `2^-joins` and the projection scale to `2^joins`, their product being one, so the resolution zoomed by the projection is the start; the pixelation is never written; unchanged entities are left as they are |
| Systems.UpdateTransform | src/lib.rs:156-165 | a changed camera gets a snapped transform with the same depth, rotation and scale; nothing else is written, and an unchanged camera is left as it is |
| Systems.NextRuns | src/lib.rs:48-54 | in a frame the `Pixelation` systems run before `TransformPropagate`, each after the world's previous tick |
| Systems.RunFrame | src/lib.rs:64-73 | one frame on one entity: `pixelate_added`, then `update_pixelation_resolution`, then `update_transform`; `None` is the panic, which skips `update_transform`; the frame keeps the subpixel translation, depth, rotation, scale and the presence of a pixelation |
| Frames.FramePanicsExactlyOnNegativeJoins | src/lib.rs:189-190 | a frame fails the assertion exactly when a newly added or changed pixelation has negative joins |
| Frames.FrameSnapsCoherentCamera | src/lib.rs:64-73 | after a frame without a panic a coherent camera is snapped, and, because `update_transform` runs after `update_pixelation_resolution`, the camera leaves the frame with no change `update_transform` has not yet seen: no one-frame lag |
| Frames.FrameCapturesOnAttach | src/lib.rs:167-177 | a newly attached pixelation captures the resolution at attach time, not its default, and the same frame applies its joins |
| Frames.FirstAttachWithoutJoinsKeepsResolution | src/lib.rs:64-69 | because `pixelate_added` runs before `update_pixelation_resolution`, attaching with no joins keeps the resolution and leaves the projection unzoomed |
| Frames.FrameKeepsStartingResolution | src/lib.rs:179-197 | a frame that sees no new pixelation never rewrites the starting resolution |
| Frames.FrameAppliesJoins | src/lib.rs:192-195 | a joins change rescales from the captured starting resolution, not the current one |
| Frames.PixelateAddedCapturesOnce | src/lib.rs:167-177 | the capture is one-shot: `pixelate_added` run again with no new insertion writes nothing |
| Frames.UpdatePixelationResolutionRunsOnce | src/lib.rs:179-197 | `update_pixelation_resolution` run again with no write to the pixelation writes nothing |
| Frames.UpdateTransformRunsOnce | src/lib.rs:156-165 | `update_transform` run again with no write to the camera writes nothing |
| Frames.QuietFrameChangesNothing | src/lib.rs:157 | with nothing changed since each system's last run, a frame writes nothing |
| Frames.SecondFrameChangesNothing | src/lib.rs:48-73 | a second frame without application writes changes nothing |
| Frames.FramePreservesPositiveResolution | src/lib.rs:192-194 | a positive resolution stays positive through a frame when any captured starting resolution is positive |
| Frames.StartingResolutionSurvivesJoinChanges | src/lib.rs:131-133 | attach, set `joins` to j, then back to 0, with a frame after each: the resolution goes to the attach-time value times `2^-j`, then back to the attach-time value |
| Frames.ReinsertedPixelationZeroesResolution | src/lib.rs:136-143 | inserting `from_joins(j)` over a pixelation that already captured gives a zero resolution, since nothing is captured again |
| Schedule.World.constructor | src/lib.rs:31-35 | a new world has no cameras and every tick at zero |
| Schedule.World.Spawn | src/lib.rs:106-111 | spawning appends the new camera entity and keeps the world valid |
| Schedule.World.SetCamera | src/lib.rs:113-124 | writing a camera replaces that entity by `WriteCamera` and keeps the world valid |
| Schedule.World.SetJoins | src/lib.rs:128-133 | writing joins replaces that entity by `WriteJoins` and keeps the world valid |
| Schedule.World.InsertPixelation | src/lib.rs:126-134 | inserting a pixelation, or assigning a whole new one through a mutable query, replaces that entity by `AttachPixelation` |
| Schedule.World.RemovePixelation | src/lib.rs:126-134 | removing a pixelation replaces that entity by `DetachPixelation` |
| Schedule.World.PixelateAddedSystem | src/lib.rs:167-177 | the loop over the query applies `PixelateAdded` to every entity and records the run |
| Schedule.World.UpdatePixelationResolutionSystem | src/lib.rs:179-197 | the loop applies `UpdatePixelationResolution` in order and stops at the first failed assertion, leaving the rest untouched |
| Schedule.World.UpdateTransformSystem | src/lib.rs:156-165 | the loop applies `UpdateTransform` to every entity; afterwards every camera is snapped |
| Schedule.World.RunPostUpdate | src/lib.rs:48-73 | the three systems run in the plugin's order; without a panic every entity goes through `RunFrame` and every camera is snapped; a panic ends the frame before `update_transform` |
| Scenarios.PixelationRoundTrip | src/lib.rs:156-197 | a 128 by 128 camera at (-0.3, 2.7) snaps to (-1, 2); one join gives 64 by 64 zoomed by 2; back to 0 joins gives 128 by 128 |
| Scenarios.SpawnWithPixelation | src/lib.rs:179-197 | a default camera spawned with 2 joins shows 64 by 64 zoomed by 4 and keeps 256 by 256 as its start; joins of -1 then fail the assertion |

## Left out

- Fractional `joins`: `joins` is a whole number (`int`), so `2^-joins` is exact. The `powf` of a fractional `f32` and all `f32` rounding are not modelled.
- Systems.ScaleFactor: defined for whole, non-negative joins only; the fractional joins the pixelate example steps through are not covered.
- `src/render.rs` in full (pipeline, bind-group layout, sampler, render pass, draw call) and the WGSL shader: GPU work through foreign calls, with nothing to state beyond skipping a view when a resource is missing.
- The extract and uniform plugins, `Msaa::Off`, asset loading and render-graph wiring in `PixelPerfectPlugin::build` and `finish`: host wiring. Only the order of the three systems is kept.
- The ordering against Bevy's `CameraUpdateSystem` and `TransformSystem::TransformPropagate` (src/lib.rs:56-63): those host systems are not modelled. A modelled frame ends where they would start.
- The `println!` in `pixelate_added`: output only.
- `bar_color` and `bar_offset`: carried as fields that no system touches. Only the shader reads them.
- Change ticks are unbounded naturals. Bevy's 32-bit tick wrap-around and its periodic tick clamping are not modelled.
- Query iteration order is the order of the entity sequence. Entities without a `PixelPerfectCamera` match no query; entities missing a `Transform` or an `OrthographicProjection` match only some of the three queries (`pixelate_added` needs neither, `update_transform` needs no projection); neither kind is modelled.
- The camera's transform is written only by `update_transform`. Application writes to `Transform` are not modelled, since the camera's own doc asks for `subpixel_translation` instead.
- After a panic the application ends. The model gives the state at the panic but no later frame.
- `Camera2dBundle`'s own defaults (transform depth, projection near and far) are Bevy's. `Spawn` takes the transform and projection as parameters.
- `examples/*.rs`: demo applications.
