/** Worked examples driving `Schedule.World`, verified: what an application
    sees when it drives the plugin frame by frame. Each step that an
    application takes on a world holding one camera is a small method of its
    own. */
module Scenarios {
  import opened Geometry
  import opened Components
  import opened Entities
  import opened Systems
  import opened Frames
  import opened Schedule

  /** One frame of a world that holds a single camera and does not panic. */
  method FrameOfOne(world: World) returns (e: CameraEntity)
    requires world.Valid() && |world.entities| == 1
    requires RunFrame(world.entities[0], world.runs, world.tick).Some?
    modifies world
    ensures world.Valid() && world.entities == [e]
    ensures Some(e) == RunFrame(old(world.entities[0]), old(world.runs), old(world.tick))
    ensures world.tick == old(world.tick) + 3 && world.runs == NextRuns(old(world.tick))
    ensures Snapped(e)
  {
    var panicked, stop := world.RunPostUpdate();
    assert !panicked;
    e := world.entities[0];
    assert world.entities == [e];
  }

  /** The frame after a pixelation was attached: it captures the camera's
      resolution and applies the joins to it, and the pixelation no longer
      counts as added afterwards. */
  method AttachedFrame(world: World) returns (e: CameraEntity)
    requires world.Valid() && |world.entities| == 1
    requires world.entities[0].PixelationAdded(world.runs.pixelateAdded)
    requires world.entities[0].pixelation.value.component.joins >= 0
    modifies world
    ensures world.Valid() && world.entities == [e] && Snapped(e)
    ensures e.pixelation.Some? && !e.PixelationAdded(world.runs.pixelateAdded)
    ensures var before := old(world.entities[0]);
      var joins := before.pixelation.value.component.joins;
      && e.camera.subpixelTranslation == before.camera.subpixelTranslation
      && e.transform.translation.z == before.transform.translation.z
      && e.pixelation.value.component == before.pixelation.value.component.(startingResolution := before.camera.resolution)
      && e.camera.resolution == before.camera.resolution.Scale(ScaleFactor(joins))
      && e.projection.scale == Pow2(joins)
  {
    ghost var before := world.entities[0];
    FrameCapturesOnAttach(before, world.runs, world.tick);
    e := FrameOfOne(world);
  }

  /** Writing a non-negative `joins` to an already captured pixelation, then
      a frame: the resolution is rescaled from the captured starting
      resolution. */
  method SetJoinsAndFrame(world: World, joins: nat) returns (e: CameraEntity)
    requires world.Valid() && |world.entities| == 1
    requires world.entities[0].pixelation.Some?
    requires !world.entities[0].PixelationAdded(world.runs.pixelateAdded)
    modifies world
    ensures world.Valid() && world.entities == [e]
    ensures world.tick == old(world.tick) + 4 && world.runs == NextRuns(old(world.tick) + 1)
    ensures e.pixelation.Some? && !e.PixelationAdded(world.runs.pixelateAdded)
    ensures var p := old(world.entities[0].pixelation.value.component);
      && e.pixelation.value.component == p.(joins := joins)
      && e.camera.resolution == p.startingResolution.Scale(ScaleFactor(joins))
      && e.projection.scale == Pow2(joins)
  {
    world.SetJoins(0, joins);
    ghost var written := world.entities[0];
    FrameAppliesJoins(written, world.runs, world.tick);
    FrameKeepsStartingResolution(written, world.runs, world.tick);
    e := FrameOfOne(world);
  }

  /** Writing a negative `joins`, then a frame: the frame panics. */
  method SetJoinsAndPanic(world: World, joins: int) returns (panicked: bool)
    requires world.Valid() && |world.entities| == 1
    requires world.entities[0].pixelation.Some? && joins < 0
    modifies world
    ensures panicked
  {
    world.SetJoins(0, joins);
    ghost var written := world.entities[0];
    FramePanicsExactlyOnNegativeJoins(written, world.runs, world.tick);
    ghost var stop;
    panicked, stop := world.RunPostUpdate();
  }

  /** A 128 by 128 camera at subpixel position (-0.3, 2.7) gets a pixelation
      with no joins; `joins` then goes to 1 and back to 0, with a frame after
      each step. The first frame keeps the resolution and snaps the camera to
      (-1, 2) at its own depth; one join halves the resolution and zooms the
      projection by 2; going back to 0 joins restores 128 by 128. */
  method PixelationRoundTrip() returns (attached: Vec2, position: Vec3, joined: Vec2, zoom: real, restored: Vec2)
    ensures attached == Vec2(128.0, 128.0)
    ensures position == Vec3(-1.0, 2.0, 10.0)
    ensures joined == Vec2(64.0, 64.0) && zoom == 2.0
    ensures restored == Vec2(128.0, 128.0)
  {
    var world := new World();
    var camera := DefaultCamera().(resolution := Splat(128.0), subpixelTranslation := Vec2(-0.3, 2.7));
    var transform := Transform(Vec3(0.0, 0.0, 10.0), Quat(0.0, 0.0, 0.0, 1.0), Vec3(1.0, 1.0, 1.0));
    var id := world.Spawn(camera, transform, OrthographicProjection(0.0, 1000.0, 1.0), None);
    var e0 := FrameOfOne(world);
    assert e0.pixelation.None? && e0.camera == camera;

    world.InsertPixelation(0, FromJoins(0));
    var e1 := AttachedFrame(world);
    assert ScaleFactor(0) == 1.0;
    attached := e1.camera.resolution;
    position := e1.transform.translation;
    assert position == Vec3(-1.0, 2.0, 10.0) by {
      assert e1.camera.subpixelTranslation == Vec2(-0.3, 2.7);
      SnappedIsFloor(e1);
    }
    assert e1.pixelation.value.component.startingResolution == Vec2(128.0, 128.0);

    var e2 := SetJoinsAndFrame(world, 1);
    assert Pow2(1) == 2.0;
    assert ScaleFactor(1) == 0.5;
    joined := e2.camera.resolution;
    zoom := e2.projection.scale;

    var e3 := SetJoinsAndFrame(world, 0);
    restored := e3.camera.resolution;
  }

  /** A camera spawned with the default 256 by 256 resolution and a
      pixelation of 2 joins in the same bundle: the first frame captures
      256 by 256 and shows it at 64 by 64, zoomed by 4. A later frame with
      `joins` set to -1 panics. */
  method SpawnWithPixelation() returns (resolution: Vec2, zoom: real, starting: Vec2, panicsOnNegative: bool)
    ensures resolution == Vec2(64.0, 64.0) && zoom == 4.0
    ensures starting == Vec2(256.0, 256.0)
    ensures panicsOnNegative
  {
    var world := new World();
    var transform := Transform(Vec3(0.0, 0.0, 10.0), Quat(0.0, 0.0, 0.0, 1.0), Vec3(1.0, 1.0, 1.0));
    var id := world.Spawn(DefaultCamera(), transform, OrthographicProjection(0.0, 1000.0, 1.0), Some(FromJoins(2)));
    var e := AttachedFrame(world);
    assert Pow2(2) == 4.0;
    assert ScaleFactor(2) == 0.25;
    resolution := e.camera.resolution;
    zoom := e.projection.scale;
    starting := e.pixelation.value.component.startingResolution;

    panicsOnNegative := SetJoinsAndPanic(world, -1);
  }
}
