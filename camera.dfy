/**
 * The orbit camera: yaw, pitch and zoom distance around the centre of the
 * voxel scene, driven by mouse clicks, mouse drags and a per-frame tick.
 * Every change of the view is published to the shader program; the
 * matrix math behind a publication is not modelled, only the pose it was
 * computed from.
 */
module OrbitCamera {
  import VoxelGenerator

  /** Radians of yaw or pitch per pixel of drag. */
  const RotateRate: real := 0.01
  /** Zoom distance per second while a zoom key is held. */
  const ZoomRate: real := 0.25 * VoxelGenerator.VoxelWidth * VoxelGenerator.VoxelCount as real
  /** M_PI to 16 significant digits. */
  const Pi: real := 3.141592653589793
  /** Largest pitch magnitude, just short of straight up or down. */
  const MaxY: real := 0.499 * Pi
  /** Smallest zoom distance (the C++ class calls this floor MAX_ZOOM). */
  const MaxZoom: real := 0.01
  /** GLUT's button state for a press. */
  const GlutDown: int := 0

  /** The view parameters one publication of the camera matrices was computed from. */
  datatype Pose = Pose(yaw: real, pitch: real, zoom: real)

  /** Distance between two angles on the real line. */
  function Dist(a: real, b: real): real
  {
    if a < b then b - a else a - b
  }

  /** The pitch clamp of a drag: the allowed pitch nearest to p. */
  function ClampPitch(p: real): (c: real)
    ensures -MaxY <= c <= MaxY
    ensures forall q :: -MaxY <= q <= MaxY ==> Dist(c, p) <= Dist(q, p)
  {
    if p > MaxY then MaxY
    else if p < -MaxY then -MaxY
    else p
  }

  /** Clamping leaves an allowed pitch alone, and so clamping twice is clamping once. */
  lemma ClampPitchKeepsAllowed(p: real)
    ensures -MaxY <= p <= MaxY ==> ClampPitch(p) == p
    ensures ClampPitch(ClampPitch(p)) == ClampPitch(p)
  {
  }

  /** A larger pitch never clamps to a smaller one. */
  lemma ClampPitchMonotone(p: real, q: real)
    requires p <= q
    ensures ClampPitch(p) <= ClampPitch(q)
  {
  }

  /** The zoom after a zoom-in tick of dt seconds: moved in, but never past the floor. */
  function ZoomedIn(zoom: real, dt: real): (z: real)
    ensures z >= MaxZoom
    ensures z >= zoom - ZoomRate * dt
    ensures z == zoom - ZoomRate * dt || z == MaxZoom
  {
    var z := zoom - ZoomRate * dt;
    if z < MaxZoom then MaxZoom else z
  }

  class Camera {
    /** The shader program the matrices are published to. */
    const shader: int
    /** Yaw, in radians (field x of the C++ class). */
    var yaw: real
    /** Pitch, in radians (field y of the C++ class). */
    var pitch: real
    /** Distance from the orbit target. */
    var zoom: real
    /** Cursor position of the last press or drag. */
    var mxPrev: int
    var myPrev: int
    /** Every publication of the camera matrices so far, oldest first. */
    ghost var published: seq<Pose>

    /** The pitch never leaves the allowed range. */
    ghost predicate Valid()
      reads this
    {
      -MaxY <= pitch <= MaxY
    }

    function CurrentPose(): Pose
      reads this
    {
      Pose(yaw, pitch, zoom)
    }

    /** Looks straight along the depth axis from 2.5 grid lengths away, and publishes. */
    constructor (shader: int)
      ensures Valid()
      ensures this.shader == shader
      ensures yaw == 0.0 && pitch == 0.0 && zoom == 2.5 * VoxelGenerator.VoxelCount as real
      ensures mxPrev == 0 && myPrev == 0
      ensures published == [Pose(0.0, 0.0, 40.0)]
    {
      this.shader := shader;
      yaw := 0.0;
      pitch := 0.0;
      zoom := 2.5 * VoxelGenerator.VoxelCount as real;
      mxPrev := 0;
      myPrev := 0;
      published := [];
      new;
      UpdateCameraMatrix();
    }

    /** Recomputes the camera-to-world matrix and view position from the pose and uploads them. */
    method UpdateCameraMatrix()
      modifies this`published
      ensures published == old(published) + [CurrentPose()]
    {
      published := published + [CurrentPose()];
    }

    /**
     * The per-frame tick: 'z' held zooms in (down to the floor), otherwise
     * 'x' held zooms out (without a ceiling); the matrices are republished
     * only when a key is held.
     */
    method Update(deltaT: real, zHeld: bool, xHeld: bool)
      modifies this`zoom, this`published
      ensures zHeld ==> zoom == ZoomedIn(old(zoom), deltaT)
      ensures !zHeld && xHeld ==> zoom == old(zoom) + ZoomRate * deltaT
      ensures !zHeld && !xHeld ==> zoom == old(zoom)
      ensures published ==
        if zHeld || xHeld then old(published) + [CurrentPose()] else old(published)
      ensures yaw == old(yaw) && pitch == old(pitch)
      ensures mxPrev == old(mxPrev) && myPrev == old(myPrev)
      ensures old(Valid()) ==> Valid()
    {
      if zHeld {
        zoom := zoom - ZoomRate * deltaT;
        if zoom < MaxZoom {
          zoom := MaxZoom;
        }
        UpdateCameraMatrix();
      } else if xHeld {
        zoom := zoom + ZoomRate * deltaT;
        UpdateCameraMatrix();
      }
    }

    /** A press records the cursor as the drag anchor; any other button event is ignored. */
    method MouseClicked(button: int, state: int, mx: int, my: int)
      modifies this`mxPrev, this`myPrev
      ensures state == GlutDown ==> mxPrev == mx && myPrev == my
      ensures state != GlutDown ==> mxPrev == old(mxPrev) && myPrev == old(myPrev)
      ensures yaw == old(yaw) && pitch == old(pitch) && zoom == old(zoom)
      ensures published == old(published)
      ensures old(Valid()) ==> Valid()
    {
      if state == GlutDown {
        mxPrev := mx;
        myPrev := my;
      }
    }

    /**
     * A drag turns the camera by the cursor's movement since the anchor
     * (yaw freely, pitch clamped), republishes, and moves the anchor.
     */
    method MouseDragged(mx: int, my: int)
      modifies this`yaw, this`pitch, this`mxPrev, this`myPrev, this`published
      ensures Valid()
      ensures yaw == old(yaw) - RotateRate * (mx - old(mxPrev)) as real
      ensures pitch == ClampPitch(old(pitch) + RotateRate * (old(myPrev) - my) as real)
      ensures zoom == old(zoom)
      ensures mxPrev == mx && myPrev == my
      ensures published == old(published) + [Pose(yaw, pitch, zoom)]
      ensures mx == old(mxPrev) && my == old(myPrev) ==>
        yaw == old(yaw) && (old(Valid()) ==> pitch == old(pitch))
    {
      yaw := yaw - RotateRate * (mx - mxPrev) as real;
      pitch := pitch + RotateRate * (myPrev - my) as real;
      if pitch > MaxY {
        pitch := MaxY;
      } else if pitch < -MaxY {
        pitch := -MaxY;
      }
      UpdateCameraMatrix();
      mxPrev := mx;
      myPrev := my;
    }
  }

  /** A sequence of zoom-in ticks never takes the zoom below the floor, whatever it started at. */
  method ZoomInTicks(camera: Camera, ticks: seq<real>)
    modifies camera
    ensures |ticks| > 0 ==> camera.zoom >= MaxZoom
    ensures camera.yaw == old(camera.yaw) && camera.pitch == old(camera.pitch)
  {
    for i := 0 to |ticks|
      invariant i > 0 ==> camera.zoom >= MaxZoom
      invariant camera.yaw == old(camera.yaw) && camera.pitch == old(camera.pitch)
    {
      camera.Update(ticks[i], true, false);
    }
  }

  /** Pitch stays in range over any sequence of drags, however far a single drag reaches. */
  method DragAlong(camera: Camera, path: seq<(int, int)>)
    modifies camera
    ensures |path| > 0 || old(camera.Valid()) ==> camera.Valid()
    ensures camera.zoom == old(camera.zoom)
    ensures |path| > 0 ==> camera.mxPrev == path[|path| - 1].0 && camera.myPrev == path[|path| - 1].1
  {
    for i := 0 to |path|
      invariant i > 0 || old(camera.Valid()) ==> camera.Valid()
      invariant camera.zoom == old(camera.zoom)
      invariant i > 0 ==> camera.mxPrev == path[i - 1].0 && camera.myPrev == path[i - 1].1
    {
      camera.MouseDragged(path[i].0, path[i].1);
    }
  }

  /** The drag of 100 pixels to the right from a fresh camera turns it by -1 radian and does not tilt it. */
  method DragScenario() returns (camera: Camera)
    ensures camera.yaw == -1.0 && camera.pitch == 0.0 && camera.zoom == 40.0
  {
    camera := new Camera(0);
    camera.MouseClicked(0, GlutDown, 200, 300);
    camera.MouseDragged(300, 300);
  }
}
