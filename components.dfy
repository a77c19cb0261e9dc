/** The components of a pixel perfect camera entity, and their defaults. */
module Components {
  import opened Geometry

  datatype Option<T> = None | Some(value: T)

  /** `PixelPerfectCamera`: marks a camera as pixel perfect. */
  datatype PixelPerfectCamera = PixelPerfectCamera(
    resolution: Vec2,           // the virtual resolution of the image
    subpixelTranslation: Vec2,  // the continuous camera position, used instead of the transform's
    barColor: Color,            // colour of the bars at the edge of the image; only the shader reads it
    barOffset: Vec2             // inset of the bars in virtual pixels; only the shader reads it
  )

  /** `PixelPerfectPixelation`: joins pixels together by halving the resolution.
      `joins` is public and must be non-negative; `startingResolution` is
      private to the plugin, so only the plugin's systems can write it. */
  datatype PixelPerfectPixelation = PixelPerfectPixelation(joins: int, startingResolution: Vec2)

  /** The rotation part of a `Transform`; no system of the plugin reads it. */
  datatype Quat = Quat(x: real, y: real, z: real, w: real)

  /** Bevy's `Transform`; the plugin writes only `translation`. */
  datatype Transform = Transform(translation: Vec3, rotation: Quat, scale: Vec3)

  /** Bevy's `OrthographicProjection`; the plugin writes only `scale`. */
  datatype OrthographicProjection = OrthographicProjection(near: real, far: real, scale: real)

  /** `PixelPerfectCamera::default()`: a 256 by 256 virtual screen at the origin,
      with opaque black bars that do not cut into the view. */
  function DefaultCamera(): (c: PixelPerfectCamera)
    ensures c.resolution.Positive() && c.resolution.x == c.resolution.y == 256.0
    ensures c.subpixelTranslation == Zero2
    ensures c.barColor.alpha == 1.0 && c.barColor == Black
    ensures c.barOffset == Zero2
  {
    PixelPerfectCamera(Splat(256.0), Zero2, Black, Zero2)
  }

  /** `PixelPerfectPixelation::default()`: no joins, nothing captured yet. */
  function DefaultPixelation(): (p: PixelPerfectPixelation)
    ensures p.joins == 0 && p.startingResolution == Zero2
  {
    PixelPerfectPixelation(0, Zero2)
  }

  /** `PixelPerfectPixelation::from_joins`: the given joins, and the default
      (zero) starting resolution, which the plugin overwrites on attach. */
  function FromJoins(joins: int): (p: PixelPerfectPixelation)
    ensures p.joins == joins
    ensures p.startingResolution == DefaultPixelation().startingResolution == Zero2
  {
    DefaultPixelation().(joins := joins)
  }
}
