/** The host world as the plugin sees it: the camera entities, the world's
    change tick and the last run of each of the plugin's systems. The three
    systems are loops over their query that update the entities in place,
    and `RunPostUpdate` runs them in the order the plugin configures. */
module Schedule {
  import opened Geometry
  import opened Components
  import opened Entities
  import opened Systems

  class World {
    var entities: seq<CameraEntity>
    var tick: nat
    var runs: SystemRuns

    /** No tick lies in the future, and every camera is either marked changed
        for `update_transform` or already snapped. */
    ghost predicate Valid()
      reads this
    {
      && runs.AtMost(tick)
      && forall k :: 0 <= k < |entities| ==>
           entities[k].TicksAtMost(tick) && Coherent(entities[k], runs.transform)
    }

    constructor ()
      ensures Valid()
      ensures entities == [] && tick == 0 && runs == SystemRuns(0, 0, 0)
    {
      entities := [];
      tick := 0;
      runs := SystemRuns(0, 0, 0);
    }

    /** Spawning a camera bundle, optionally with a pixelation. */
    method Spawn(camera: PixelPerfectCamera, transform: Transform, projection: OrthographicProjection,
                 pixelation: Option<PixelPerfectPixelation>) returns (id: nat)
      requires Valid()
      modifies this
      ensures Valid()
      ensures tick == old(tick) + 1 && runs == old(runs)
      ensures id == |old(entities)|
      ensures entities == old(entities) + [Spawned(camera, transform, projection, pixelation, tick)]
    {
      tick := tick + 1;
      id := |entities|;
      entities := entities + [Spawned(camera, transform, projection, pixelation, tick)];
    }

    /** Application code writing a camera component between frames. */
    method SetCamera(id: nat, camera: PixelPerfectCamera)
      requires Valid() && id < |entities|
      modifies this
      ensures Valid()
      ensures tick == old(tick) + 1 && runs == old(runs)
      ensures entities == old(entities)[id := WriteCamera(old(entities)[id], camera, tick)]
    {
      tick := tick + 1;
      entities := entities[id := WriteCamera(entities[id], camera, tick)];
    }

    /** Application code writing a pixelation's `joins` between frames. */
    method SetJoins(id: nat, joins: int)
      requires Valid() && id < |entities|
      modifies this
      ensures Valid()
      ensures tick == old(tick) + 1 && runs == old(runs)
      ensures entities == old(entities)[id := WriteJoins(old(entities)[id], joins, tick)]
    {
      tick := tick + 1;
      entities := entities[id := WriteJoins(entities[id], joins, tick)];
    }

    /** Application code inserting a pixelation on a camera, or assigning a
        whole new pixelation value through a mutable query. */
    method InsertPixelation(id: nat, p: PixelPerfectPixelation)
      requires Valid() && id < |entities|
      modifies this
      ensures Valid()
      ensures tick == old(tick) + 1 && runs == old(runs)
      ensures entities == old(entities)[id := AttachPixelation(old(entities)[id], p, tick)]
    {
      tick := tick + 1;
      entities := entities[id := AttachPixelation(entities[id], p, tick)];
    }

    /** Application code removing a camera's pixelation. */
    method RemovePixelation(id: nat)
      requires Valid() && id < |entities|
      modifies this
      ensures Valid()
      ensures tick == old(tick) && runs == old(runs)
      ensures entities == old(entities)[id := DetachPixelation(old(entities)[id])]
    {
      entities := entities[id := DetachPixelation(entities[id])];
    }

    /** The `pixelate_added` system: one pass over the entities whose
        pixelation was added since its last run. */
    method PixelateAddedSystem()
      requires Valid()
      modifies this
      ensures Valid()
      ensures tick == old(tick) + 1 && runs == old(runs).(pixelateAdded := tick)
      ensures |entities| == |old(entities)|
      ensures forall k :: 0 <= k < |entities| ==>
        entities[k] == PixelateAdded(old(entities)[k], old(runs).pixelateAdded, tick)
    {
      tick := tick + 1;
      var i := 0;
      while i < |entities|
        invariant i <= |entities| == |old(entities)|
        invariant tick == old(tick) + 1 && runs == old(runs)
        invariant forall k :: 0 <= k < i ==>
          entities[k] == PixelateAdded(old(entities)[k], runs.pixelateAdded, tick)
        invariant forall k :: i <= k < |entities| ==> entities[k] == old(entities)[k]
      {
        entities := entities[i := PixelateAdded(entities[i], runs.pixelateAdded, tick)];
        i := i + 1;
      }
      runs := runs.(pixelateAdded := tick);
    }

    /** The `update_pixelation_resolution` system: one pass over the entities
        whose pixelation changed since its last run. It panics at the first
        one with negative joins (`stop` is its index, or the number of
        entities when none fails): the entities before it are updated, the
        rest untouched, and the system does not complete its run. */
    method UpdatePixelationResolutionSystem() returns (panicked: bool, ghost stop: nat)
      requires Valid()
      modifies this
      ensures Valid()
      ensures tick == old(tick) + 1
      ensures runs == if panicked then old(runs) else old(runs).(pixelationResolution := tick)
      ensures |entities| == |old(entities)| && stop <= |entities|
      ensures panicked <==> stop < |entities|
      ensures forall k :: 0 <= k < stop ==>
        UpdatePixelationResolution(old(entities)[k], old(runs).pixelationResolution, tick) == Some(entities[k])
      ensures stop < |entities| ==>
        UpdatePixelationResolution(old(entities)[stop], old(runs).pixelationResolution, tick).None?
      ensures forall k :: stop <= k < |entities| ==> entities[k] == old(entities)[k]
    {
      tick := tick + 1;
      panicked := false;
      var i := 0;
      while i < |entities|
        invariant i <= |entities| == |old(entities)|
        invariant tick == old(tick) + 1 && runs == old(runs)
        invariant forall k :: 0 <= k < i ==>
          UpdatePixelationResolution(old(entities)[k], runs.pixelationResolution, tick) == Some(entities[k])
        invariant forall k :: i <= k < |entities| ==> entities[k] == old(entities)[k]
        invariant Valid()
      {
        var updated := UpdatePixelationResolution(entities[i], runs.pixelationResolution, tick);
        if updated.None? {
          return true, i;
        }
        entities := entities[i := updated.value];
        i := i + 1;
      }
      stop := i;
      runs := runs.(pixelationResolution := tick);
    }

    /** The `update_transform` system: one pass over the cameras changed since
        its last run. Afterwards every camera is snapped. */
    method UpdateTransformSystem()
      requires Valid()
      modifies this
      ensures Valid()
      ensures tick == old(tick) + 1 && runs == old(runs).(transform := tick)
      ensures |entities| == |old(entities)|
      ensures forall k :: 0 <= k < |entities| ==>
        entities[k] == UpdateTransform(old(entities)[k], old(runs).transform)
      ensures forall k :: 0 <= k < |entities| ==> Snapped(entities[k])
    {
      tick := tick + 1;
      var i := 0;
      while i < |entities|
        invariant i <= |entities| == |old(entities)|
        invariant tick == old(tick) + 1 && runs == old(runs)
        invariant forall k :: 0 <= k < i ==>
          entities[k] == UpdateTransform(old(entities)[k], runs.transform) && Snapped(entities[k])
        invariant forall k :: i <= k < |entities| ==> entities[k] == old(entities)[k]
      {
        entities := entities[i := UpdateTransform(entities[i], runs.transform)];
        i := i + 1;
      }
      runs := runs.(transform := tick);
    }

    /** One frame of the plugin's part of `PostUpdate`: the `Pixelation` set
        (`pixelate_added`, then `update_pixelation_resolution`), then the
        `TransformPropagate` set (`update_transform`). A panic in the first
        set ends the frame at entity `stop`, the entities before it having been
        through both systems of the set and the rest through the first only.
        Without a panic, every entity has gone through
        `RunFrame` and every camera is snapped. */
    method RunPostUpdate() returns (panicked: bool, ghost stop: nat)
      requires Valid()
      modifies this
      ensures Valid()
      ensures |entities| == |old(entities)|
      ensures panicked <==> exists k :: 0 <= k < |old(entities)| && RunFrame(old(entities)[k], old(runs), old(tick)).None?
      ensures panicked ==> tick == old(tick) + 2 && runs == old(runs).(pixelateAdded := old(tick) + 1)
      ensures panicked ==> stop < |entities| && RunFrame(old(entities)[stop], old(runs), old(tick)).None?
      ensures panicked ==> forall k :: 0 <= k < |entities| ==>
        var added := PixelateAdded(old(entities)[k], old(runs).pixelateAdded, old(tick) + 1);
        if k < stop then UpdatePixelationResolution(added, old(runs).pixelationResolution, old(tick) + 2) == Some(entities[k])
        else entities[k] == added
      ensures !panicked ==> tick == old(tick) + 3 && runs == NextRuns(old(tick))
      ensures !panicked ==> forall k :: 0 <= k < |entities| ==>
        RunFrame(old(entities)[k], old(runs), old(tick)) == Some(entities[k])
      ensures !panicked ==> forall k :: 0 <= k < |entities| ==> Snapped(entities[k])
    {
      ghost var before := entities;
      PixelateAddedSystem();
      ghost var added := entities;
      panicked, stop := UpdatePixelationResolutionSystem();
      if panicked {
        assert RunFrame(before[stop], old(runs), old(tick)).None?;
        return;
      }
      ghost var resized := entities;
      UpdateTransformSystem();
      forall k | 0 <= k < |entities|
        ensures RunFrame(before[k], old(runs), old(tick)) == Some(entities[k])
      {
        assert added[k] == PixelateAdded(before[k], old(runs).pixelateAdded, old(tick) + 1);
        assert UpdatePixelationResolution(added[k], old(runs).pixelationResolution, old(tick) + 2) == Some(resized[k]);
      }
    }
  }
}
