/**
 * Camera settings for the sandwich-assembly scene: the two tiled cameras
 * (wrist and front), the tables of alternative poses and viewer positions,
 * and the three functions that write them into an environment
 * configuration in place.
 */
module CameraConfig {
  import opened Geometry

  /** A rotation as a quaternion in (w, x, y, z) order. */
  datatype Quat = Quat(w: real, x: real, y: real, z: real)

  /** The state of a camera's mounting offset. */
  datatype Offset = Offset(pos: Vec3, rot: Quat, convention: string)

  /** The state of a pinhole lens. */
  datatype Lens = Lens(
    focalLength: real,
    focusDistance: real,
    horizontalAperture: real,
    clippingRange: (real, real),
    lockCamera: bool)

  /** The state of a tiled camera, with its offset and lens. */
  datatype Camera = Camera(
    primPath: string,
    offset: Offset,
    dataTypes: seq<string>,
    spawn: Lens,
    width: nat,
    height: nat,
    updatePeriod: real)

  /** A row of an alternative-pose table. */
  datatype CameraStyle = CameraStyle(pos: Vec3, rot: Quat, focalLength: real, aperture: real)

  /** A row of the viewer table. */
  datatype ViewerStyle = ViewerStyle(eye: Vec3, lookat: Vec3)

  // ---------------------------------------------------------------------------
  // Constant settings

  const SandwichWristCamera: Camera := Camera(
    "{ENV_REGEX_NS}/Robot/gripper/wrist_camera",
    Offset(Vec3(0.02, 0.08, -0.03), Quat(-0.35, -0.93, -0.05, 0.08), "ros"),
    ["rgb"],
    Lens(32.0, 400.0, 40.0, (0.005, 20.0), true),
    640, 480, 1.0 / 30.0)

  const SandwichFrontCamera: Camera := Camera(
    "{ENV_REGEX_NS}/Robot/base/front_camera",
    Offset(Vec3(-0.2, -0.8, 0.7), Quat(0.2, -0.98, 0.0, 0.0), "ros"),
    ["rgb"],
    Lens(24.0, 400.0, 45.0, (0.1, 30.0), true),
    640, 480, 1.0 / 30.0)

  const AlternativeWristPositions: map<string, CameraStyle> := map[
    "close_detail" := CameraStyle(Vec3(0.01, 0.06, -0.02), Quat(-0.4, -0.91, -0.04, 0.05), 36.0, 35.0),
    "wide_view" := CameraStyle(Vec3(0.03, 0.10, -0.04), Quat(-0.3, -0.95, -0.06, 0.10), 28.0, 45.0),
    "angled_down" := CameraStyle(Vec3(0.02, 0.05, -0.01), Quat(-0.45, -0.89, -0.03, 0.06), 32.0, 38.0)]

  const AlternativeFrontPositions: map<string, CameraStyle> := map[
    "high_overview" := CameraStyle(Vec3(-0.1, -1.0, 1.0), Quat(0.3, -0.95, 0.0, 0.0), 20.0, 50.0),
    "side_angle" := CameraStyle(Vec3(-0.5, -0.6, 0.8), Quat(0.15, -0.85, 0.35, -0.35), 26.0, 42.0),
    "close_workspace" := CameraStyle(Vec3(-0.3, -0.6, 0.6), Quat(0.25, -0.97, 0.0, 0.0), 30.0, 40.0)]

  const SandwichViewerPositions: map<string, ViewerStyle> := map[
    "diagonal_overview" := ViewerStyle(Vec3(1.5, -1.5, 1.8), Vec3(0.0, 0.0, 0.9)),
    "side_view" := ViewerStyle(Vec3(2.0, 0.0, 1.5), Vec3(0.0, 0.0, 0.9)),
    "front_elevated" := ViewerStyle(Vec3(0.0, -2.0, 2.0), Vec3(0.0, 0.0, 0.9)),
    "close_action" := ViewerStyle(Vec3(0.5, -1.0, 1.2), Vec3(0.0, 0.0, 0.9))]

  /** Default arguments of the alternative-camera and viewer functions. */
  const DefaultWristStyle: string := "close_detail"
  const DefaultFrontStyle: string := "high_overview"
  const DefaultViewerStyle: string := "diagonal_overview"

  // ---------------------------------------------------------------------------
  // What a style lookup does to a state

  /** The offset after looking `style` up in `table`: pose replaced when found, untouched otherwise. */
  function RestyledOffset(o: Offset, style: string, table: map<string, CameraStyle>): Offset {
    if style in table then o.(pos := table[style].pos, rot := table[style].rot) else o
  }

  /** The lens after looking `style` up in `table`: focal length and aperture replaced when found. */
  function RestyledLens(l: Lens, style: string, table: map<string, CameraStyle>): Lens {
    if style in table then l.(focalLength := table[style].focalLength, horizontalAperture := table[style].aperture) else l
  }

  /** The viewer's (eye, lookat) after looking `style` up in the viewer table. */
  function PlacedViewer(eye: Vec3, lookat: Vec3, style: string): (Vec3, Vec3) {
    if style in SandwichViewerPositions then (SandwichViewerPositions[style].eye, SandwichViewerPositions[style].lookat)
    else (eye, lookat)
  }

  // ---------------------------------------------------------------------------
  // Configuration objects

  class OffsetCfg {
    var pos: Vec3
    var rot: Quat
    var convention: string

    function Value(): Offset
      reads this
    {
      Offset(pos, rot, convention)
    }

    constructor (o: Offset)
      ensures Value() == o
    {
      pos, rot, convention := o.pos, o.rot, o.convention;
    }

    /** Overwrites the pose with the style's, when the style is in the table. */
    method Restyle(style: string, table: map<string, CameraStyle>)
      modifies this
      ensures Value() == RestyledOffset(old(Value()), style, table)
    {
      if style in table {
        pos := table[style].pos;
        rot := table[style].rot;
      }
    }
  }

  class PinholeCameraCfg {
    var focalLength: real
    var focusDistance: real
    var horizontalAperture: real
    var clippingRange: (real, real)
    var lockCamera: bool

    function Value(): Lens
      reads this
    {
      Lens(focalLength, focusDistance, horizontalAperture, clippingRange, lockCamera)
    }

    constructor (l: Lens)
      ensures Value() == l
    {
      focalLength, focusDistance, horizontalAperture := l.focalLength, l.focusDistance, l.horizontalAperture;
      clippingRange, lockCamera := l.clippingRange, l.lockCamera;
    }

    /** Overwrites focal length and aperture with the style's, when the style is in the table. */
    method Restyle(style: string, table: map<string, CameraStyle>)
      modifies this
      ensures Value() == RestyledLens(old(Value()), style, table)
    {
      if style in table {
        focalLength := table[style].focalLength;
        horizontalAperture := table[style].aperture;
      }
    }
  }

  /** A tiled camera; its offset and lens objects are edited in place, never replaced. */
  class TiledCameraCfg {
    var primPath: string
    const offset: OffsetCfg
    var dataTypes: seq<string>
    const spawn: PinholeCameraCfg
    var width: nat
    var height: nat
    var updatePeriod: real

    function Value(): Camera
      reads this, offset, spawn
    {
      Camera(primPath, offset.Value(), dataTypes, spawn.Value(), width, height, updatePeriod)
    }

    constructor (c: Camera)
      ensures Value() == c
      ensures fresh(offset) && fresh(spawn)
    {
      primPath, dataTypes := c.primPath, c.dataTypes;
      width, height, updatePeriod := c.width, c.height, c.updatePeriod;
      offset := new OffsetCfg(c.offset);
      spawn := new PinholeCameraCfg(c.spawn);
    }
  }

  class SceneCfg {
    var wrist: TiledCameraCfg
    var front: TiledCameraCfg

    constructor (wrist: TiledCameraCfg, front: TiledCameraCfg)
      ensures this.wrist == wrist && this.front == front
    {
      this.wrist, this.front := wrist, front;
    }
  }

  class ViewerCfg {
    var eye: Vec3
    var lookat: Vec3

    constructor (eye: Vec3, lookat: Vec3)
      ensures this.eye == eye && this.lookat == lookat
    {
      this.eye, this.lookat := eye, lookat;
    }
  }

  /** The parts of an environment configuration the camera functions touch. */
  class EnvCfg {
    const scene: SceneCfg
    const viewer: ViewerCfg

    constructor (scene: SceneCfg, viewer: ViewerCfg)
      ensures this.scene == scene && this.viewer == viewer
    {
      this.scene, this.viewer := scene, viewer;
    }
  }

  /** The two module-level camera objects, shared by every configuration they are assigned to. */
  class SandwichCameras {
    const wrist: TiledCameraCfg
    const front: TiledCameraCfg

    constructor ()
      ensures wrist.Value() == SandwichWristCamera && front.Value() == SandwichFrontCamera
      ensures wrist.offset != front.offset && wrist.spawn != front.spawn
    {
      wrist := new TiledCameraCfg(SandwichWristCamera);
      front := new TiledCameraCfg(SandwichFrontCamera);
    }
  }

  // ---------------------------------------------------------------------------
  // The three apply functions

  /**
   * Points the scene's wrist and front cameras at the shared constant
   * objects (not copies) and returns the same configuration.
   */
  method ApplySandwichCameraConfig(env: EnvCfg, cams: SandwichCameras) returns (r: EnvCfg)
    modifies env.scene
    ensures r == env
    ensures env.scene.wrist == cams.wrist && env.scene.front == cams.front
    ensures env.scene.wrist.Value() == old(cams.wrist.Value()) && env.scene.front.Value() == old(cams.front.Value())
  {
    env.scene.wrist := cams.wrist;
    env.scene.front := cams.front;
    r := env;
  }

  /**
   * Looks the wrist style up in its table and, when found, overwrites the
   * wrist camera's pose, focal length and aperture; then does the same for
   * the front camera with its own table. When both cameras share an offset
   * or a lens object, the front style is written last and wins.
   */
  method ApplyAlternativeCameras(env: EnvCfg, wristStyle: string, frontStyle: string) returns (r: EnvCfg)
    modifies env.scene.wrist.offset, env.scene.wrist.spawn, env.scene.front.offset, env.scene.front.spawn
    ensures r == env
    ensures env.scene.wrist == old(env.scene.wrist) && env.scene.front == old(env.scene.front)
    ensures env.scene.wrist.offset != env.scene.front.offset ==>
      && env.scene.wrist.offset.Value() == RestyledOffset(old(env.scene.wrist.offset.Value()), wristStyle, AlternativeWristPositions)
      && env.scene.front.offset.Value() == RestyledOffset(old(env.scene.front.offset.Value()), frontStyle, AlternativeFrontPositions)
    ensures env.scene.wrist.offset == env.scene.front.offset ==>
      env.scene.front.offset.Value() ==
        RestyledOffset(RestyledOffset(old(env.scene.front.offset.Value()), wristStyle, AlternativeWristPositions),
                       frontStyle, AlternativeFrontPositions)
    ensures env.scene.wrist.spawn != env.scene.front.spawn ==>
      && env.scene.wrist.spawn.Value() == RestyledLens(old(env.scene.wrist.spawn.Value()), wristStyle, AlternativeWristPositions)
      && env.scene.front.spawn.Value() == RestyledLens(old(env.scene.front.spawn.Value()), frontStyle, AlternativeFrontPositions)
    ensures env.scene.wrist.spawn == env.scene.front.spawn ==>
      env.scene.front.spawn.Value() ==
        RestyledLens(RestyledLens(old(env.scene.front.spawn.Value()), wristStyle, AlternativeWristPositions),
                     frontStyle, AlternativeFrontPositions)
  {
    var wrist, front := env.scene.wrist, env.scene.front;
    if wristStyle in AlternativeWristPositions {
      wrist.offset.Restyle(wristStyle, AlternativeWristPositions);
      wrist.spawn.Restyle(wristStyle, AlternativeWristPositions);
    }
    if frontStyle in AlternativeFrontPositions {
      front.offset.Restyle(frontStyle, AlternativeFrontPositions);
      front.spawn.Restyle(frontStyle, AlternativeFrontPositions);
    }
    r := env;
  }

  /** Sets the viewer's eye and look-at point from the table when the style is in it. */
  method ApplyViewerPosition(env: EnvCfg, style: string) returns (r: EnvCfg)
    modifies env.viewer
    ensures r == env
    ensures (env.viewer.eye, env.viewer.lookat) == PlacedViewer(old(env.viewer.eye), old(env.viewer.lookat), style)
  {
    if style in SandwichViewerPositions {
      env.viewer.eye := SandwichViewerPositions[style].eye;
      env.viewer.lookat := SandwichViewerPositions[style].lookat;
    }
    r := env;
  }

  // ---------------------------------------------------------------------------
  // Properties

  /** The default style arguments name rows that exist in their tables. */
  lemma DefaultStylesPresent()
    ensures DefaultWristStyle in AlternativeWristPositions
    ensures DefaultFrontStyle in AlternativeFrontPositions
    ensures DefaultViewerStyle in SandwichViewerPositions
  {
  }

  /** An unknown style leaves an offset and a lens as they were. */
  lemma UnknownStyleChangesNothing(o: Offset, l: Lens, style: string, table: map<string, CameraStyle>)
    requires style !in table
    ensures RestyledOffset(o, style, table) == o
    ensures RestyledLens(l, style, table) == l
  {
  }

  /**
   * A known style sets exactly the position, rotation, focal length and
   * aperture of its row; the convention, focus distance, clipping range and
   * lock flag keep their values.
   */
  lemma KnownStyleSetsExactlyFourFields(o: Offset, l: Lens, style: string, table: map<string, CameraStyle>)
    requires style in table
    ensures var o' := RestyledOffset(o, style, table);
      o'.pos == table[style].pos && o'.rot == table[style].rot && o'.convention == o.convention
    ensures var l' := RestyledLens(l, style, table);
      && l'.focalLength == table[style].focalLength && l'.horizontalAperture == table[style].aperture
      && l'.focusDistance == l.focusDistance && l'.clippingRange == l.clippingRange && l'.lockCamera == l.lockCamera
  {
  }

  /** When two lookups land on the same object, a known second style overrides the first completely. */
  lemma SecondStyleWins(o: Offset, l: Lens, first: string, second: string,
                        t1: map<string, CameraStyle>, t2: map<string, CameraStyle>)
    requires second in t2
    ensures RestyledOffset(RestyledOffset(o, first, t1), second, t2) == RestyledOffset(o, second, t2)
    ensures RestyledLens(RestyledLens(l, first, t1), second, t2) == RestyledLens(l, second, t2)
  {
  }

  /** Restyling twice with the same style is the same as restyling once. */
  lemma RestyleIdempotent(o: Offset, l: Lens, style: string, table: map<string, CameraStyle>)
    ensures RestyledOffset(RestyledOffset(o, style, table), style, table) == RestyledOffset(o, style, table)
    ensures RestyledLens(RestyledLens(l, style, table), style, table) == RestyledLens(l, style, table)
  {
  }

  /** An unknown viewer style is a no-op; a known one sets exactly eye and look-at point from its row. */
  lemma ViewerPlacement(eye: Vec3, lookat: Vec3, style: string)
    ensures style !in SandwichViewerPositions ==> PlacedViewer(eye, lookat, style) == (eye, lookat)
    ensures style in SandwichViewerPositions ==>
      PlacedViewer(eye, lookat, style) == (SandwichViewerPositions[style].eye, SandwichViewerPositions[style].lookat)
  {
  }

  /** Every viewer preset looks at the same point above the table centre. */
  lemma ViewerPresetsShareTarget()
    ensures forall style | style in SandwichViewerPositions :: SandwichViewerPositions[style].lookat == Vec3(0.0, 0.0, 0.9)
  {
  }

  /**
   * The constant cameras differ only in where they are mounted and in their
   * lens: both render RGB at 640x480 and 30 frames per second with a locked
   * camera and a focus distance of 400.
   */
  lemma SandwichCamerasShareFormat()
    ensures SandwichWristCamera.(primPath := SandwichFrontCamera.primPath, offset := SandwichFrontCamera.offset,
                                 spawn := SandwichWristCamera.spawn.(focalLength := SandwichFrontCamera.spawn.focalLength,
                                                                     horizontalAperture := SandwichFrontCamera.spawn.horizontalAperture,
                                                                     clippingRange := SandwichFrontCamera.spawn.clippingRange))
         == SandwichFrontCamera
    ensures SandwichWristCamera.dataTypes == ["rgb"] && SandwichWristCamera.width == 640 && SandwichWristCamera.height == 480
    ensures SandwichWristCamera.updatePeriod * 30.0 == 1.0
  {
  }
}
