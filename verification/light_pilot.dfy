/** The add-on's operators over mutable host objects. Each method changes the objects
    step by step, and its postcondition ties the new state to the matching function of
    SessionMachine applied to the old state. */
module LightPilot {
  import opened Types
  import opened ViewState
  import opened LightSync
  import SM = SessionMachine

  /** A scene object: its name, its datablock and the transform properties the add-on
      reads and writes. `worldRotation` stands for the orientation of the world matrix,
      which the host keeps up to date. */
  class SceneObject {
    const name: string
    var data: ObjectData
    var location: Vec3
    var rotationMode: RotationMode
    var rotationQuaternion: Quat
    var rotationEuler: Euler
    var worldRotation: Quat

    constructor (name: string, data: ObjectData, p: Pose, worldRotation: Quat)
      ensures this.name == name && Value() == SM.Obj(data, p, worldRotation)
    {
      this.name := name;
      this.data := data;
      this.location := p.location;
      this.rotationMode := p.rotationMode;
      this.rotationQuaternion := p.rotationQuaternion;
      this.rotationEuler := p.rotationEuler;
      this.worldRotation := worldRotation;
    }

    function Value(): SM.Obj
      reads this
    {
      SM.Obj(data, Pose(location, rotationMode, rotationQuaternion, rotationEuler), worldRotation)
    }
  }

  /** The host's data the add-on touches: the objects by name and the scene's
      `lightpilot_active_light` property. */
  class Scene {
    var objects: map<string, SceneObject>
    var activeLight: Option<string>

    /** Every object is filed under its own name (so distinct names are distinct
        objects). */
    ghost predicate Valid()
      reads this
    {
      forall k :: k in objects ==> objects[k].name == k
    }

    function Objects(): map<string, SM.Obj>
      reads this`objects, objects.Values
    {
      map k | k in objects :: objects[k].Value()
    }
  }

  /** The 3D viewport: the region's view properties and the space's camera settings. */
  class View3D {
    var location: Vec3
    var rotation: Quat
    var distance: real
    var perspective: Perspective
    var localCamera: bool
    var camera: CameraRef

    constructor (v: View)
      ensures State() == v
    {
      location, rotation, distance := v.location, v.rotation, v.distance;
      perspective, localCamera, camera := v.perspective, v.localCamera, v.camera;
    }

    function State(): View
      reads this
    {
      View(location, rotation, distance, perspective, localCamera, camera)
    }
  }

  /** The add-on's module-level state. */
  class PilotGlobals {
    var isPiloting: bool
    var pilotedLight: SceneObject?
    var previousViewState: Snapshot

    /** The state when the add-on is loaded. */
    constructor ()
      ensures Value() == SM.Initial
    {
      isPiloting, pilotedLight, previousViewState := false, null, Empty;
    }

    function Value(): SM.Globals
      reads this
    {
      SM.Globals(isPiloting, if pilotedLight == null then None else Some(pilotedLight.name),
                 previousViewState)
    }
  }

  /** The objects as a value stay the same while neither the map nor any object in it
      is written. */
  twostate lemma ObjectsUnchanged(scene: Scene)
    requires unchanged(scene`objects)
    requires forall o :: o in old(scene.objects.Values) ==> unchanged(o)
    ensures scene.Objects() == old(scene.Objects())
  {
  }

  /** The whole state as a value. */
  ghost function WorldOf(g: PilotGlobals, view: View3D, scene: Scene): SM.World
    reads g, view, scene, scene.objects.Values
  {
    SM.World(g.Value(), view.State(), scene.Objects(), scene.activeLight)
  }

  /** The modal operator that pilots the object named `lightObject`. */
  class PilotModalOperator {
    const lightObject: string

    constructor (lightObject: string)
      ensures this.lightObject == lightObject
    {
      this.lightObject := lightObject;
    }

    /** Saves the viewport and moves it onto the light, or cancels when there is no
        object of that name. */
    method Invoke(g: PilotGlobals, view: View3D, scene: Scene, geo: Geometry) returns (status: Status)
      requires scene.Valid()
      modifies g, view, scene`activeLight
      ensures (WorldOf(g, view, scene), status) == SM.Invoke(old(WorldOf(g, view, scene)), lightObject, geo)
      ensures lightObject in old(scene.objects) ==> g.pilotedLight == old(scene.objects[lightObject])
    {
      if lightObject in scene.objects {
        var lightObj := scene.objects[lightObject];
        ghost var v0 := view.State();
        ghost var o := lightObj.Value();
        g.previousViewState := Capture(view.State());
        view.perspective := Persp;
        view.localCamera := false;
        view.location := lightObj.location;
        view.distance := PilotDistance;
        if HasDirection(lightObj.data) {
          var forward := geo.lightForward(lightObj.worldRotation);
          view.rotation := geo.trackQuat(forward);
        } else if lightObj.rotationMode == Quaternion {
          view.rotation := lightObj.rotationQuaternion;
        } else {
          view.rotation := geo.eulerToQuat(lightObj.rotationEuler, lightObj.rotationMode);
        }
        assert view.State() == Retarget(v0, o.pose.location, SM.ObjRotation(o, geo));
        view.distance := PilotDistance;
        g.isPiloting := true;
        g.pilotedLight := lightObj;
        scene.activeLight := Some(lightObj.name);
        status := RunningModal;
        ObjectsUnchanged(scene);
      } else {
        status := Cancelled;
      }
    }

    /** Handles one event: ends the session when piloting was switched off or the area
        is no longer a 3D viewport; otherwise, while the light exists, copies the eye
        transform onto it and ends the session on ESC. */
    method Modal(g: PilotGlobals, area: AreaType, e: Event, view: View3D, scene: Scene, geo: Geometry)
      returns (status: Status)
      requires scene.Valid()
      modifies g, view, scene`activeLight
      modifies if lightObject in scene.objects then {scene.objects[lightObject]} else {}
      ensures (WorldOf(g, view, scene), status)
              == SM.Tick(old(WorldOf(g, view, scene)), lightObject, area, e, geo)
    {
      if !g.isPiloting || area != View3DArea {
        status := Cleanup(g, view, scene);
        return;
      }
      if lightObject in scene.objects {
        var lightObj := scene.objects[lightObject];
        ghost var before := WorldOf(g, view, scene);
        var viewerLocation := geo.eye(view.State());
        lightObj.location := viewerLocation;
        if HasDirection(lightObj.data) {
          var forward := geo.viewForward(view.State());
          var quat := geo.trackQuat(forward);
          if lightObj.rotationMode == Quaternion {
            lightObj.rotationQuaternion := quat;
          } else {
            lightObj.rotationEuler := geo.toEuler(quat, lightObj.rotationMode);
          }
        }
        SyncedObjects(scene, before, geo);
        if IsEscPress(e) {
          status := Cleanup(g, view, scene);
          return;
        }
      }
      status := PassThrough;
    }

    /** After the light has been written, the objects as a value are those of `before`
        with the light synchronised. */
    lemma SyncedObjects(scene: Scene, before: SM.World, geo: Geometry)
      requires scene.Valid() && lightObject in scene.objects
      requires lightObject in before.objects && scene.objects.Keys == before.objects.Keys
      requires forall k :: k in scene.objects && k != lightObject ==> scene.objects[k].Value() == before.objects[k]
      requires scene.objects[lightObject].Value() == SM.SyncLight(before, lightObject, geo).objects[lightObject]
      ensures scene.Objects() == SM.SyncLight(before, lightObject, geo).objects
    {
    }

    /** Ends the session; always answers FINISHED. */
    method Cleanup(g: PilotGlobals, view: View3D, scene: Scene) returns (status: Status)
      modifies g, view, scene`activeLight
      ensures status == Finished
      ensures WorldOf(g, view, scene) == SM.Cleanup(old(WorldOf(g, view, scene)))
    {
      g.isPiloting := false;
      g.pilotedLight := null;
      RestoreViewState(g, view);
      if scene.activeLight.Some? {
        scene.activeLight := None;
      }
      status := Finished;
      ObjectsUnchanged(scene);
    }

    /** Writes each saved entry back onto the viewport, then empties the saved
        dictionary; does nothing when it is empty. */
    method RestoreViewState(g: PilotGlobals, view: View3D)
      modifies g`previousViewState, view
      ensures view.State() == Restore(old(view.State()), old(g.previousViewState))
      ensures IsEmpty(g.previousViewState)
    {
      var saved := g.previousViewState;
      if !IsEmpty(saved) {
        if saved.perspective.Some? {
          view.perspective := saved.perspective.value;
        }
        if saved.localCamera.Some? {
          view.localCamera := saved.localCamera.value;
        }
        if saved.camera.Some? && saved.camera.value != NoCamera {
          view.camera := saved.camera.value;
        }
        if saved.location.Some? {
          view.location := saved.location.value;
        }
        if saved.rotation.Some? {
          view.rotation := saved.rotation.value;
        }
        if saved.distance.Some? {
          view.distance := saved.distance.value;
        }
        g.previousViewState := Empty;
      }
    }
  }

  /** The pilot command: starts the modal operator on the active object, a light. The
      host runs it only when the command's availability check holds, and the active
      object is always one of the scene's objects, filed under its name. */
  method PilotExecute(active: SceneObject, g: PilotGlobals, view: View3D, scene: Scene, geo: Geometry)
    returns (status: Status, op: PilotModalOperator)
    requires SM.PilotPoll(Some(active.Value()))
    requires scene.Valid()
    requires active.name in scene.objects && scene.objects[active.name] == active
    modifies g, view, scene`activeLight
    ensures fresh(op) && op.lightObject == active.name
    ensures WorldOf(g, view, scene) == SM.Invoke(old(WorldOf(g, view, scene)), active.name, geo).0
    ensures g.isPiloting && g.pilotedLight == active && scene.activeLight == Some(active.name)
    ensures status == Finished
  {
    op := new PilotModalOperator(active.name);
    var _ := op.Invoke(g, view, scene, geo);
    status := Finished;
  }

  /** The exit command: only lowers the piloting flag. */
  method ExitExecute(g: PilotGlobals) returns (status: Status)
    modifies g`isPiloting
    ensures g.Value() == SM.ExitExecute(old(g.Value()))
    ensures status == Finished
  {
    g.isPiloting := false;
    status := Finished;
  }
}
