/** How a running pilot session copies the viewport's eye transform onto the light. */
module LightSync {
  import opened Types
  import opened ViewState

  /** The transform properties of an object the add-on reads or writes. */
  datatype Pose = Pose(
    location: Vec3,
    rotationMode: RotationMode,
    rotationQuaternion: Quat,
    rotationEuler: Euler)

  /** The pose of a light with datablock `data` after one synchronisation with view `v`:
      the light moves to the viewer's eye; a sun, spot or area light is also turned to
      look along the view, through whichever rotation property its mode uses. */
  function SyncPose(p: Pose, data: ObjectData, v: View, geo: Geometry): (r: Pose)
    ensures r.location == geo.eye(v)
    ensures r.rotationMode == p.rotationMode
    ensures !HasDirection(data) ==>
              r.rotationQuaternion == p.rotationQuaternion && r.rotationEuler == p.rotationEuler
    ensures HasDirection(data) && p.rotationMode == Quaternion ==>
              r.rotationQuaternion == ViewTrack(v, geo) && r.rotationEuler == p.rotationEuler
    ensures HasDirection(data) && p.rotationMode != Quaternion ==>
              r.rotationEuler == geo.toEuler(ViewTrack(v, geo), p.rotationMode)
              && r.rotationQuaternion == p.rotationQuaternion
  {
    var moved := p.(location := geo.eye(v));
    if !HasDirection(data) then moved
    else if p.rotationMode == Quaternion then moved.(rotationQuaternion := ViewTrack(v, geo))
    else moved.(rotationEuler := geo.toEuler(ViewTrack(v, geo), p.rotationMode))
  }

  /** The rotation that points a light along the viewport's forward axis. */
  function ViewTrack(v: View, geo: Geometry): Quat
  {
    geo.trackQuat(geo.viewForward(v))
  }

  /** Synchronising again against an unchanged view changes nothing more. */
  lemma SyncPoseIdempotent(p: Pose, data: ObjectData, v: View, geo: Geometry)
    ensures SyncPose(SyncPose(p, data, v, geo), data, v, geo) == SyncPose(p, data, v, geo)
  {
  }
}
