/** The viewport state the add-on saves, retargets onto a light and restores. */
module ViewState {
  import opened Types

  /** The saved-view dictionary: each entry is either present (`Some`) or absent. */
  datatype Snapshot = Snapshot(
    location: Option<Vec3>,
    rotation: Option<Quat>,
    distance: Option<real>,
    perspective: Option<Perspective>,
    localCamera: Option<bool>,
    camera: Option<CameraRef>)

  /** The dictionary with no entries. */
  const Empty := Snapshot(None, None, None, None, None, None)

  /** A dictionary is false in a condition exactly when it has no entries. */
  predicate IsEmpty(s: Snapshot)
  {
    s == Empty
  }

  /** Every one of the six entries is present. */
  predicate Complete(s: Snapshot)
  {
    && s.location.Some? && s.rotation.Some? && s.distance.Some?
    && s.perspective.Some? && s.localCamera.Some? && s.camera.Some?
  }

  /** The saved-view dictionary built when pilot mode starts. */
  function Capture(v: View): (s: Snapshot)
    ensures Complete(s) && !IsEmpty(s)
  {
    Snapshot(Some(v.location), Some(v.rotation), Some(v.distance),
             Some(v.perspective), Some(v.localCamera), Some(v.camera))
  }

  /** Writes back every entry present in `s`; the camera entry is skipped when it holds
      no camera. */
  function Restore(v: View, s: Snapshot): (r: View)
    ensures IsEmpty(s) ==> r == v
  {
    View(if s.location.Some? then s.location.value else v.location,
         if s.rotation.Some? then s.rotation.value else v.rotation,
         if s.distance.Some? then s.distance.value else v.distance,
         if s.perspective.Some? then s.perspective.value else v.perspective,
         if s.localCamera.Some? then s.localCamera.value else v.localCamera,
         if s.camera.Some? && s.camera.value != NoCamera then s.camera.value else v.camera)
  }

  /** `now` holds the saved values of `before`: all six properties, except that a bound
      camera that was absent is not put back. */
  predicate Recovers(now: View, before: View)
  {
    && now.location == before.location
    && now.rotation == before.rotation
    && now.distance == before.distance
    && now.perspective == before.perspective
    && now.localCamera == before.localCamera
    && (before.camera != NoCamera ==> now.camera == before.camera)
  }

  /** Restoring the dictionary saved from `before` recovers `before`; when `before` had no
      camera, the current camera stays. */
  lemma RestoreCaptured(v: View, before: View)
    ensures Recovers(Restore(v, Capture(before)), before)
    ensures before.camera == NoCamera ==> Restore(v, Capture(before)).camera == v.camera
  {
  }

  /** The view rotation chosen on entering pilot mode for a light with the given
      datablock, rotation mode and rotations: a SUN, SPOT or AREA light is looked along
      from its world orientation; any other light lends its own rotation property, the
      quaternion in QUATERNION mode and otherwise the Euler rotation in that order. */
  function PilotRotation(data: ObjectData, mode: RotationMode, quat: Quat, euler: Euler,
                         worldRotation: Quat, geo: Geometry): (r: Quat)
    ensures HasDirection(data) ==> r == geo.trackQuat(geo.lightForward(worldRotation))
    ensures !HasDirection(data) && mode == Quaternion ==> r == quat
    ensures !HasDirection(data) && mode != Quaternion ==> r == geo.eulerToQuat(euler, mode)
  {
    if HasDirection(data) then geo.trackQuat(geo.lightForward(worldRotation))
    else if mode == Quaternion then quat
    else geo.eulerToQuat(euler, mode)
  }

  /** For a SUN, SPOT or AREA light the chosen view rotation depends on the world
      orientation alone: its rotation mode and rotation properties play no part. */
  lemma DirectedRotationIgnoresLocalRotation(data: ObjectData, worldRotation: Quat, geo: Geometry,
                                              mode1: RotationMode, quat1: Quat, euler1: Euler,
                                              mode2: RotationMode, quat2: Quat, euler2: Euler)
    requires HasDirection(data)
    ensures PilotRotation(data, mode1, quat1, euler1, worldRotation, geo)
            == PilotRotation(data, mode2, quat2, euler2, worldRotation, geo)
  {
  }

  /** For any other light in an Euler mode, the chosen view rotation depends on the rotation
      order: the same angles read in two orders may give two different rotations. */
  lemma UndirectedRotationFollowsOrder(data: ObjectData, worldRotation: Quat, quat: Quat,
                                       euler: Euler, geo: Geometry, mode1: RotationMode,
                                       mode2: RotationMode)
    requires !HasDirection(data) && mode1 != Quaternion && mode2 != Quaternion
    requires geo.eulerToQuat(euler, mode1) != geo.eulerToQuat(euler, mode2)
    ensures PilotRotation(data, mode1, quat, euler, worldRotation, geo)
            != PilotRotation(data, mode2, quat, euler, worldRotation, geo)
  {
  }

  /** The viewport after it has been moved onto a light at `lightLocation`. */
  function Retarget(v: View, lightLocation: Vec3, rotation: Quat): (r: View)
    ensures r.perspective == Persp && !r.localCamera
    ensures r.location == lightLocation && r.rotation == rotation && r.distance == PilotDistance
    ensures r.camera == v.camera
  {
    View(lightLocation, rotation, PilotDistance, Persp, false, v.camera)
  }

  /** Saving a view, retargeting it onto any light and writing the saved entries back
      gives the original view back, bit for bit. */
  lemma RetargetRoundTrip(v: View, lightLocation: Vec3, rotation: Quat)
    ensures Restore(Retarget(v, lightLocation, rotation), Capture(v)) == v
  {
  }
}
