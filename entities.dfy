/** A pixel perfect camera entity as the host's entity store keeps it: its
    components, the change ticks Bevy keeps beside them, and the ways
    application code can touch them between frames. */
module Entities {
  import opened Geometry
  import opened Components

  /** The ticks at which a component was inserted and last mutably accessed. */
  datatype ComponentTicks = ComponentTicks(added: nat, changed: nat) {

    /** The `Added<T>` filter, for a system that last ran at `lastRun`. */
    predicate AddedSince(lastRun: nat) {
      added > lastRun
    }

    /** The `Changed<T>` filter; insertion counts as a change. */
    predicate ChangedSince(lastRun: nat) {
      changed > lastRun
    }

    predicate AtMost(tick: nat) {
      added <= tick && changed <= tick
    }
  }

  /** Ticks of a component inserted at `now`. */
  function Inserted(now: nat): (t: ComponentTicks)
    ensures t.added == now && t.changed == now
  {
    ComponentTicks(now, now)
  }

  /** A `PixelPerfectPixelation` attached to an entity, with its ticks. */
  datatype Attached = Attached(component: PixelPerfectPixelation, ticks: ComponentTicks)

  /** One camera entity spawned from a `PixelPerfectCameraBundle`: the
      `PixelPerfectCamera`, the camera's `Transform` and
      `OrthographicProjection`, and an optional pixelation. Only the two
      plugin components' change ticks are kept: no filter reads the others. */
  datatype CameraEntity = CameraEntity(
    camera: PixelPerfectCamera,
    cameraTicks: ComponentTicks,
    transform: Transform,
    projection: OrthographicProjection,
    pixelation: Option<Attached>
  ) {

    /** The entity matches `Added<PixelPerfectPixelation>` for `lastRun`:
        only an entity with a pixelation can, a system that ran at or after
        every tick of the entity sees nothing, and an insertion (whose
        changed tick is never older than its added tick) is also a change. */
    predicate PixelationAdded(lastRun: nat): (b: bool)
      ensures b ==> pixelation.Some?
      ensures TicksAtMost(lastRun) ==> !b
      ensures b && pixelation.value.ticks.added <= pixelation.value.ticks.changed ==> PixelationChanged(lastRun)
    {
      pixelation.Some? && pixelation.value.ticks.AddedSince(lastRun)
    }

    /** The entity matches `Changed<PixelPerfectPixelation>` for `lastRun`:
        only an entity with a pixelation can, and a system that ran at or
        after every tick of the entity sees nothing. */
    predicate PixelationChanged(lastRun: nat): (b: bool)
      ensures b ==> pixelation.Some?
      ensures TicksAtMost(lastRun) ==> !b
    {
      pixelation.Some? && pixelation.value.ticks.ChangedSince(lastRun)
    }

    /** The entity matches `Changed<PixelPerfectCamera>` for `lastRun`; a
        system that ran at or after every tick of the entity sees nothing. */
    predicate CameraChanged(lastRun: nat): (b: bool)
      ensures TicksAtMost(lastRun) ==> !b
    {
      cameraTicks.ChangedSince(lastRun)
    }

    /** No tick of the entity is later than the world's tick. */
    predicate TicksAtMost(tick: nat) {
      cameraTicks.AtMost(tick) &&
      (pixelation.Some? ==> pixelation.value.ticks.AtMost(tick))
    }
  }

  /** Spawning a camera bundle at tick `now`, optionally with a pixelation
      in the same bundle: every component is new. */
  function Spawned(camera: PixelPerfectCamera, transform: Transform, projection: OrthographicProjection,
                   pixelation: Option<PixelPerfectPixelation>, now: nat): (e: CameraEntity)
    ensures e.camera == camera && e.transform == transform && e.projection == projection
    ensures e.cameraTicks == Inserted(now) && e.TicksAtMost(now)
    ensures pixelation.Some? <==> e.pixelation.Some?
    ensures pixelation.Some? ==> e.pixelation.value == Attached(pixelation.value, Inserted(now))
  {
    CameraEntity(camera, Inserted(now), transform, projection,
                 match pixelation
                 case None => None
                 case Some(p) => Some(Attached(p, Inserted(now))))
  }

  /** Application code writing the camera component at tick `now`, e.g.
      moving `subpixelTranslation` or resizing `resolution`: a mutable
      access marks the component changed. */
  function WriteCamera(e: CameraEntity, camera: PixelPerfectCamera, now: nat): (r: CameraEntity)
    ensures r.camera == camera && r.cameraTicks.changed == now
    ensures r.cameraTicks.added == e.cameraTicks.added
    ensures r.transform == e.transform && r.projection == e.projection && r.pixelation == e.pixelation
  {
    e.(camera := camera, cameraTicks := e.cameraTicks.(changed := now))
  }

  /** Application code setting the `joins` field at tick `now`. The field
      write leaves the private starting resolution as captured. Without a
      pixelation on the entity there is nothing to write. */
  function WriteJoins(e: CameraEntity, joins: int, now: nat): (r: CameraEntity)
    ensures e.pixelation.None? ==> r == e
    ensures e.pixelation.Some? ==>
      && r.pixelation.Some?
      && r.pixelation.value.component.joins == joins
      && r.pixelation.value.component.startingResolution == e.pixelation.value.component.startingResolution
      && r.pixelation.value.ticks.added == e.pixelation.value.ticks.added
      && r.pixelation.value.ticks.changed == now
    ensures r.camera == e.camera && r.cameraTicks == e.cameraTicks
    ensures r.transform == e.transform && r.projection == e.projection
  {
    match e.pixelation
    case None => e
    case Some(a) =>
      e.(pixelation := Some(Attached(a.component.(joins := joins), a.ticks.(changed := now))))
  }

  /** Inserting a pixelation at tick `now`. On an entity without one it is
      a new component (added and changed). Inserting over an existing one
      replaces the value but, as Bevy does for a component that is already
      present, only marks it changed: it keeps its old added tick. Assigning
      a whole new value through a mutable query is the same transition. */
  function AttachPixelation(e: CameraEntity, p: PixelPerfectPixelation, now: nat): (r: CameraEntity)
    ensures r.pixelation.Some? && r.pixelation.value.component == p && r.pixelation.value.ticks.changed == now
    ensures e.pixelation.None? ==> r.pixelation.value.ticks.added == now
    ensures e.pixelation.Some? ==> r.pixelation.value.ticks.added == e.pixelation.value.ticks.added
    ensures r.camera == e.camera && r.cameraTicks == e.cameraTicks
    ensures r.transform == e.transform && r.projection == e.projection
  {
    var ticks := match e.pixelation
                 case None => Inserted(now)
                 case Some(a) => a.ticks.(changed := now);
    e.(pixelation := Some(Attached(p, ticks)))
  }

  /** Removing the pixelation: the camera keeps whatever resolution the
      pixelation last gave it. */
  function DetachPixelation(e: CameraEntity): (r: CameraEntity)
    ensures r.pixelation.None?
    ensures r.camera == e.camera && r.cameraTicks == e.cameraTicks
    ensures r.transform == e.transform && r.projection == e.projection
  {
    e.(pixelation := None)
  }
}
