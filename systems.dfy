/** The plugin's three systems, each as what one iteration of its query loop
    does to one camera entity, and a frame of the `PostUpdate` schedule as
    the three in the plugin's order. These functions are the specification
    the loops in `Schedule.World` are proved against. */
module Systems {
  import opened Geometry
  import opened Components
  import opened Entities

  /** 2^n, exactly. */
  function Pow2(n: nat): (p: real)
    ensures p >= 1.0
  {
    if n == 0 then 1.0 else 2.0 * Pow2(n - 1)
  }

  /** `2.0f32.powf(-joins)` for a whole, non-negative number of joins:
      a factor in (0, 1] whose reciprocal is 2^joins. */
  function ScaleFactor(joins: nat): (s: real)
    ensures 0.0 < s <= 1.0
    ensures s * Pow2(joins) == 1.0
  {
    1.0 / Pow2(joins)
  }

  /** Powers of two add their exponents. */
  lemma {:induction false} Pow2Add(a: nat, b: nat)
    ensures Pow2(a + b) == Pow2(a) * Pow2(b)
  {
    if a > 0 {
      Pow2Add(a - 1, b);
      assert Pow2(a + b) == 2.0 * Pow2(a - 1 + b);
    }
  }

  /** Each further join halves the scale factor, and so the resolution. */
  lemma ScaleFactorHalves(joins: nat)
    ensures ScaleFactor(joins + 1) * 2.0 == ScaleFactor(joins)
  {
  }

  /** Joins compose: `a + b` joins scale by the product of the two factors. */
  lemma ScaleFactorAdd(a: nat, b: nat)
    ensures ScaleFactor(a + b) == ScaleFactor(a) * ScaleFactor(b)
  {
    Pow2Add(a, b);
    var pa, pb := Pow2(a), Pow2(b);
    assert ScaleFactor(a + b) == 1.0 / (pa * pb);
    assert (1.0 / pa) * (1.0 / pb) == 1.0 / (pa * pb);
  }

  /** The translation `update_transform` writes: the floor of the subpixel
      translation on x and y, and the given depth. */
  function SnappedTranslation(subpixel: Vec2, z: real): (t: Vec3)
    ensures t.z == z
    ensures IsWhole(t.x) && IsWhole(t.y)
    ensures t.x <= subpixel.x < t.x + 1.0 && t.y <= subpixel.y < t.y + 1.0
  {
    Floor(subpixel).Extend(z)
  }

  /** The camera's transform sits on the whole virtual pixel at or below
      its subpixel translation, on both axes. */
  predicate Snapped(e: CameraEntity) {
    var t, s := e.transform.translation, e.camera.subpixelTranslation;
    IsWhole(t.x) && IsWhole(t.y) && t.x <= s.x < t.x + 1.0 && t.y <= s.y < t.y + 1.0
  }

  /** A snapped transform is exactly the component-wise floor. */
  lemma SnappedIsFloor(e: CameraEntity)
    requires Snapped(e)
    ensures e.transform.translation.x == FloorReal(e.camera.subpixelTranslation.x)
    ensures e.transform.translation.y == FloorReal(e.camera.subpixelTranslation.y)
  {
    var t, s := e.transform.translation, e.camera.subpixelTranslation;
    WholeWithinOneIsFloor(s.x, t.x);
    WholeWithinOneIsFloor(s.y, t.y);
  }

  /** Either `update_transform` will see the camera as changed, or the
      transform already matches the subpixel translation. */
  predicate Coherent(e: CameraEntity, transformLastRun: nat) {
    e.CameraChanged(transformLastRun) || Snapped(e)
  }

  /** `pixelate_added`, for one entity: a pixelation added since the system
      last ran captures the camera's current resolution as its starting
      resolution (a mutable access, so the pixelation is marked changed).
      The camera is never written. */
  function PixelateAdded(e: CameraEntity, lastRun: nat, thisRun: nat): (r: CameraEntity)
    ensures r.camera == e.camera && r.cameraTicks == e.cameraTicks
    ensures r.transform == e.transform && r.projection == e.projection
    ensures !e.PixelationAdded(lastRun) ==> r == e
    ensures e.PixelationAdded(lastRun) ==>
      && r.pixelation.Some?
      && r.pixelation.value.component.startingResolution == e.camera.resolution
      && r.pixelation.value.component.joins == e.pixelation.value.component.joins
      && r.pixelation.value.ticks.added == e.pixelation.value.ticks.added
      && r.pixelation.value.ticks.changed == thisRun
  {
    match e.pixelation
    case Some(a) =>
      if a.ticks.AddedSince(lastRun) then
        var captured := a.component.(startingResolution := e.camera.resolution);
        e.(pixelation := Some(Attached(captured, a.ticks.(changed := thisRun))))
      else
        e
    case None => e
  }

  /** `update_pixelation_resolution`, for one entity; `None` is the failed
      `joins >= 0` assertion. A pixelation changed since the system last ran
      sets the camera's resolution to the starting resolution scaled by
      2^-joins and the projection's scale to 2^joins, so that the scaled
      resolution, zoomed by the projection, covers the starting resolution.
      The pixelation itself, and so the starting resolution, is never written. */
  function UpdatePixelationResolution(e: CameraEntity, lastRun: nat, thisRun: nat): (r: Option<CameraEntity>)
    ensures r.None? <==> e.PixelationChanged(lastRun) && e.pixelation.value.component.joins < 0
    ensures r.Some? ==> r.value.pixelation == e.pixelation && r.value.transform == e.transform
    ensures !e.PixelationChanged(lastRun) ==> r == Some(e)
    ensures r.Some? && e.PixelationChanged(lastRun) ==>
      var p := e.pixelation.value.component;
      && p.joins >= 0
      && r.value.camera == e.camera.(resolution := p.startingResolution.Scale(ScaleFactor(p.joins)))
      && r.value.projection == e.projection.(scale := Pow2(p.joins))
      && r.value.projection.scale * ScaleFactor(p.joins) == 1.0
      && r.value.camera.resolution.Scale(r.value.projection.scale) == p.startingResolution
      && r.value.cameraTicks == e.cameraTicks.(changed := thisRun)
  {
    match e.pixelation
    case Some(a) =>
      if !a.ticks.ChangedSince(lastRun) then
        Some(e)
      else if a.component.joins < 0 then
        None
      else
        var start := a.component.startingResolution;
        var scaleFactor := ScaleFactor(a.component.joins);
        assert start.Scale(scaleFactor).Scale(1.0 / scaleFactor) == start by {
          assert start.x * scaleFactor * (1.0 / scaleFactor) == start.x * (scaleFactor * (1.0 / scaleFactor));
          assert start.y * scaleFactor * (1.0 / scaleFactor) == start.y * (scaleFactor * (1.0 / scaleFactor));
        }
        Some(e.(camera := e.camera.(resolution := start.Scale(scaleFactor)),
                cameraTicks := e.cameraTicks.(changed := thisRun),
                projection := e.projection.(scale := 1.0 / scaleFactor)))
    case None => Some(e)
  }

  /** `update_transform`, for one entity: a camera changed since the system
      last ran gets its transform snapped to its subpixel translation; depth,
      rotation and scale are kept. Nothing else is written. */
  function UpdateTransform(e: CameraEntity, lastRun: nat): (r: CameraEntity)
    ensures r.camera == e.camera && r.cameraTicks == e.cameraTicks
    ensures r.projection == e.projection && r.pixelation == e.pixelation
    ensures r.transform.rotation == e.transform.rotation && r.transform.scale == e.transform.scale
    ensures r.transform.translation.z == e.transform.translation.z
    ensures e.CameraChanged(lastRun) ==> Snapped(r)
    ensures !e.CameraChanged(lastRun) ==> r == e
  {
    if e.CameraChanged(lastRun) then
      var t := SnappedTranslation(e.camera.subpixelTranslation, e.transform.translation.z);
      e.(transform := e.transform.(translation := t))
    else
      e
  }

  /** The tick at which each system of the plugin last ran. */
  datatype SystemRuns = SystemRuns(pixelateAdded: nat, pixelationResolution: nat, transform: nat) {
    predicate AtMost(tick: nat) {
      pixelateAdded <= tick && pixelationResolution <= tick && transform <= tick
    }
  }

  /** The last runs after a frame that started at world tick `tick`: each
      system takes the next tick, in the plugin's order. */
  function NextRuns(tick: nat): (runs: SystemRuns)
    ensures runs.pixelateAdded < runs.pixelationResolution < runs.transform
    ensures tick < runs.pixelateAdded && runs.AtMost(tick + 3)
  {
    SystemRuns(tick + 1, tick + 2, tick + 3)
  }

  /** One `PostUpdate` frame on one entity: `pixelate_added`, then
      `update_pixelation_resolution` (the `Pixelation` set), then
      `update_transform` (the `TransformPropagate` set). `None` is the panic,
      which ends the frame before `update_transform`. The plugin never moves
      the camera: a frame keeps its subpixel translation, its depth, rotation
      and scale, and whether it has a pixelation. */
  function RunFrame(e: CameraEntity, runs: SystemRuns, tick: nat): (r: Option<CameraEntity>)
    ensures r.Some? ==> r.value.camera.subpixelTranslation == e.camera.subpixelTranslation
    ensures r.Some? ==> r.value.transform.translation.z == e.transform.translation.z
    ensures r.Some? ==> r.value.transform.rotation == e.transform.rotation && r.value.transform.scale == e.transform.scale
    ensures r.Some? ==> (r.value.pixelation.Some? <==> e.pixelation.Some?)
  {
    var added := PixelateAdded(e, runs.pixelateAdded, tick + 1);
    match UpdatePixelationResolution(added, runs.pixelationResolution, tick + 2)
    case None => None
    case Some(resized) => Some(UpdateTransform(resized, runs.transform))
  }
}
