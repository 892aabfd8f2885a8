/** Value types shared by the Light Pilot model: vectors, rotations, the enum-valued
    properties the add-on reads and writes, operator return codes, and the geometry
    helpers of the host's math library, passed in as uninterpreted functions. */
module Types {

  datatype Option<T> = None | Some(value: T)

  /** A 3D vector (a location or a direction). */
  datatype Vec3 = Vec3(x: real, y: real, z: real)

  /** A rotation quaternion. */
  datatype Quat = Quat(w: real, x: real, y: real, z: real)

  /** An Euler rotation. */
  datatype Euler = Euler(x: real, y: real, z: real)

  /** An object's `rotation_mode`: which of its rotation properties is in use. */
  datatype RotationMode = Quaternion | XYZ | XZY | YXZ | YZX | ZXY | ZYX | AxisAngle

  /** The `type` of a light datablock. */
  datatype LightKind = Point | Sun | Spot | Area

  /** An object's datablock: a light of some kind, or anything else. An object's `type`
      is `'LIGHT'` exactly when its data is a light. */
  datatype ObjectData = LightData(kind: LightKind) | OtherData

  /** The viewport's `view_perspective`. */
  datatype Perspective = Persp | Ortho | CameraView

  /** The viewport's bound `camera`: no camera, or the camera object of that name. */
  datatype CameraRef = NoCamera | CameraObject(name: string)

  datatype EventType = Esc | OtherEventType
  datatype EventValue = Press | OtherEventValue
  /** An input event delivered to the running modal operator. */
  datatype Event = Event(kind: EventType, value: EventValue)

  /** The six viewport properties involved: the region's `view_location`,
      `view_rotation`, `view_distance` and `view_perspective`, and the space's
      `use_local_camera` and `camera`. */
  datatype View = View(
    location: Vec3,
    rotation: Quat,
    distance: real,
    perspective: Perspective,
    localCamera: bool,
    camera: CameraRef)

  /** The type of the area the operator runs in. */
  datatype AreaType = View3DArea | OtherArea

  /** The operator return codes the add-on uses. */
  datatype Status = RunningModal | Cancelled | Finished | PassThrough

  /** The floating-point geometry the add-on delegates to the host's math library,
      taken as given functions:
      - `eye`: the viewer's eye position, the translation of the inverted view matrix
        the host builds from the viewport (from the pivot, rotation and distance, or from
        the bound camera in camera perspective);
      - `viewForward`: the viewport's forward axis, the negated, normalised third row of
        the 3x3 part of that same view matrix;
      - `lightForward`: an object's world orientation applied to (0, 0, -1), normalised;
      - `trackQuat`: `to_track_quat('-Z', 'Y')` of a direction;
      - `toEuler`: a quaternion's `to_euler` in the given rotation order;
      - `eulerToQuat`: an object's `rotation_euler.to_quaternion()`, whose rotation order
        comes from the object's rotation mode. */
  datatype Geometry = Geometry(
    eye: View -> Vec3,
    viewForward: View -> Vec3,
    lightForward: Quat -> Vec3,
    trackQuat: Vec3 -> Quat,
    toEuler: (Quat, RotationMode) -> Euler,
    eulerToQuat: (Euler, RotationMode) -> Quat)

  /** The view distance set on entering pilot mode, so that the eye sits practically at
      the pivot. */
  const PilotDistance: real := 0.001

  /** Light kinds whose orientation the add-on drives: `SUN`, `SPOT` and `AREA`. */
  predicate HasDirection(data: ObjectData)
  {
    data.LightData? && (data.kind == Sun || data.kind == Spot || data.kind == Area)
  }

  /** The one event the running operator treats as a cancel: ESC pressed. */
  predicate IsEscPress(e: Event)
  {
    e.kind == Esc && e.value == Press
  }
}
