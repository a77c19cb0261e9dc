/** What one `PostUpdate` frame, and a sequence of frames with application
    writes between them, does to a camera entity. */
module Frames {
  import opened Geometry
  import opened Components
  import opened Entities
  import opened Systems

  /** The frame panics exactly when the entity carries a pixelation that
      `update_pixelation_resolution` will see as changed (newly added, or
      written since its last run) and whose joins are negative. */
  lemma FramePanicsExactlyOnNegativeJoins(e: CameraEntity, runs: SystemRuns, tick: nat)
    requires runs.AtMost(tick)
    ensures RunFrame(e, runs, tick).None? <==>
      && (e.PixelationAdded(runs.pixelateAdded) || e.PixelationChanged(runs.pixelationResolution))
      && e.pixelation.value.component.joins < 0
  {
  }

  /** After a frame that does not panic, the transform of every coherent
      camera sits on the floor of its subpixel translation. No one-frame lag:
      `update_transform` runs after `update_pixelation_resolution`, so it has
      already consumed that system's camera write, and the camera leaves the
      frame with no change that `update_transform` has not seen. */
  lemma FrameSnapsCoherentCamera(e: CameraEntity, runs: SystemRuns, tick: nat)
    requires runs.AtMost(tick) && Coherent(e, runs.transform)
    ensures RunFrame(e, runs, tick).Some? ==> Snapped(RunFrame(e, runs, tick).value)
    ensures e.TicksAtMost(tick) && RunFrame(e, runs, tick).Some? ==>
      !RunFrame(e, runs, tick).value.CameraChanged(NextRuns(tick).transform)
  {
  }

  /** A pixelation attached since the last frame captures the camera's
      resolution as it is at attach time, whatever the pixelation was built
      with, and the same frame applies its joins to it. */
  lemma FrameCapturesOnAttach(e: CameraEntity, runs: SystemRuns, tick: nat)
    requires runs.AtMost(tick)
    requires e.PixelationAdded(runs.pixelateAdded) && e.pixelation.value.component.joins >= 0
    ensures var r := RunFrame(e, runs, tick);
      var joins := e.pixelation.value.component.joins;
      && r.Some?
      && r.value.pixelation.Some?
      && r.value.pixelation.value.component.startingResolution == e.camera.resolution
      && r.value.camera.resolution == e.camera.resolution.Scale(ScaleFactor(joins))
      && r.value.projection.scale == Pow2(joins)
  {
  }

  /** Attaching a pixelation with no joins leaves the resolution as it was
      and the projection unzoomed. */
  lemma FirstAttachWithoutJoinsKeepsResolution(e: CameraEntity, runs: SystemRuns, tick: nat)
    requires runs.AtMost(tick)
    requires e.PixelationAdded(runs.pixelateAdded) && e.pixelation.value.component.joins == 0
    ensures var r := RunFrame(e, runs, tick);
      r.Some? && r.value.camera.resolution == e.camera.resolution && r.value.projection.scale == 1.0
  {
  }

  /** A frame that sees no new pixelation never rewrites the starting
      resolution: the pixelation comes out as it went in. */
  lemma FrameKeepsStartingResolution(e: CameraEntity, runs: SystemRuns, tick: nat)
    requires !e.PixelationAdded(runs.pixelateAdded)
    ensures var r := RunFrame(e, runs, tick);
      r.Some? ==> r.value.pixelation == e.pixelation
  {
  }

  /** A pixelation whose joins were written since the last frame rescales
      the resolution from the captured starting resolution, not from the
      camera's current resolution. */
  lemma FrameAppliesJoins(e: CameraEntity, runs: SystemRuns, tick: nat)
    requires !e.PixelationAdded(runs.pixelateAdded) && e.PixelationChanged(runs.pixelationResolution)
    requires e.pixelation.value.component.joins >= 0
    ensures var r := RunFrame(e, runs, tick);
      var p := e.pixelation.value.component;
      && r.Some?
      && r.value.camera.resolution == p.startingResolution.Scale(ScaleFactor(p.joins))
      && r.value.projection.scale == Pow2(p.joins)
  {
  }

  /** `pixelate_added` captures once: run again later, with no new insertion
      in between, it writes nothing. */
  lemma PixelateAddedCapturesOnce(e: CameraEntity, lastRun: nat, thisRun: nat, nextRun: nat)
    requires e.TicksAtMost(thisRun) && thisRun <= nextRun
    ensures var r := PixelateAdded(e, lastRun, thisRun);
      PixelateAdded(r, thisRun, nextRun) == r
  {
  }

  /** `update_pixelation_resolution` run again with no write to the
      pixelation in between writes nothing; its own write to the camera
      does not re-trigger it. */
  lemma UpdatePixelationResolutionRunsOnce(e: CameraEntity, lastRun: nat, thisRun: nat, nextRun: nat)
    requires e.TicksAtMost(thisRun) && thisRun <= nextRun
    ensures var r := UpdatePixelationResolution(e, lastRun, thisRun);
      r.Some? ==> UpdatePixelationResolution(r.value, thisRun, nextRun) == r
  {
  }

  /** `update_transform` run again with no write to the camera in between
      writes nothing. */
  lemma UpdateTransformRunsOnce(e: CameraEntity, lastRun: nat, thisRun: nat)
    requires e.TicksAtMost(thisRun)
    ensures var r := UpdateTransform(e, lastRun);
      UpdateTransform(r, thisRun) == r
  {
  }

  /** With nothing changed since each system's last run, a frame writes
      nothing at all. */
  lemma QuietFrameChangesNothing(e: CameraEntity, runs: SystemRuns, tick: nat)
    requires !e.CameraChanged(runs.transform)
    requires !e.PixelationAdded(runs.pixelateAdded) && !e.PixelationChanged(runs.pixelationResolution)
    ensures RunFrame(e, runs, tick) == Some(e)
  {
  }

  /** Idempotence: a second frame with no application write in between
      changes nothing, because each system's own writes are older than its
      next run. */
  lemma SecondFrameChangesNothing(e: CameraEntity, runs: SystemRuns, tick: nat)
    requires e.TicksAtMost(tick) && runs.AtMost(tick)
    ensures var r := RunFrame(e, runs, tick);
      r.Some? ==> RunFrame(r.value, NextRuns(tick), tick + 3) == r
  {
  }

  /** A frame keeps a positive resolution positive, provided any pixelation
      already captured a positive starting resolution (one not yet captured
      takes the camera's own). */
  lemma FramePreservesPositiveResolution(e: CameraEntity, runs: SystemRuns, tick: nat)
    requires e.camera.resolution.Positive()
    requires e.pixelation.Some? && !e.PixelationAdded(runs.pixelateAdded) ==>
      e.pixelation.value.component.startingResolution.Positive()
    ensures var r := RunFrame(e, runs, tick);
      r.Some? ==> r.value.camera.resolution.Positive()
  {
  }

  /** The captured starting resolution survives joins changes: attach a
      pixelation with no joins, set `joins` to `j`, then back to 0, with a
      frame after each step; the resolution goes to the attach-time value
      scaled by 2^-j, then back to the attach-time value itself. */
  lemma StartingResolutionSurvivesJoinChanges(e: CameraEntity, runs: SystemRuns, tick: nat, j: nat)
    requires e.pixelation.None? && runs.AtMost(tick)
    ensures
      var f1 := RunFrame(AttachPixelation(e, FromJoins(0), tick + 1), runs, tick + 1);
      && f1.Some? && f1.value.camera.resolution == e.camera.resolution
      && var f2 := RunFrame(WriteJoins(f1.value, j, tick + 5), NextRuns(tick + 1), tick + 5);
      && f2.Some? && f2.value.camera.resolution == e.camera.resolution.Scale(ScaleFactor(j))
      && var f3 := RunFrame(WriteJoins(f2.value, 0, tick + 9), NextRuns(tick + 5), tick + 9);
      && f3.Some? && f3.value.camera.resolution == e.camera.resolution
  {
  }

  /** Inserting a fresh pixelation over one that already captured its
      starting resolution is only a change, not an addition, so nothing is
      captured again: the frame scales the zero default starting resolution
      and the camera's resolution collapses to zero. */
  lemma ReinsertedPixelationZeroesResolution(e: CameraEntity, runs: SystemRuns, tick: nat, j: nat)
    requires runs.AtMost(tick)
    requires e.pixelation.Some? && !e.PixelationAdded(runs.pixelateAdded)
    ensures var r := RunFrame(AttachPixelation(e, FromJoins(j), tick + 1), runs, tick + 1);
      r.Some? && r.value.camera.resolution == Zero2
  {
  }
}
