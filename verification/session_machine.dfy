/** The light-pilot session as a state machine over values: the add-on's module-level
    state, the viewport, the scene's objects and the scene's active-light property,
    with one function per operator entry point. The imperative model in module
    LightPilot is proved to follow these functions step by step. */
module SessionMachine {
  import opened Types
  import opened ViewState
  import opened LightSync

  /** The module-level state: `is_piloting`, `piloted_light` (the piloted object, given
      by its name) and `previous_view_state`. */
  datatype Globals = Globals(isPiloting: bool, pilotedLight: Option<string>, previousViewState: Snapshot)

  /** A scene object as the add-on sees it: its datablock, its pose, and the orientation
      of its world matrix. */
  datatype Obj = Obj(data: ObjectData, pose: Pose, worldRotation: Quat)

  /** Everything a session reads or writes: the globals, the viewport, the objects by
      name, and the scene property `lightpilot_active_light`. */
  datatype World = World(globals: Globals, view: View, objects: map<string, Obj>, activeLight: Option<string>)

  /** The state before any session: not piloting, nothing saved. */
  const Initial := Globals(false, None, Empty)

  /** Whether the pilot command is available for the active object: exactly when there
      is an active object and it is a light. */
  function PilotPoll(active: Option<Obj>): (r: bool)
    ensures r <==> active.Some? && active.value.data.LightData?
  {
    match active
    case None => false
    case Some(o) => o.data.LightData?
  }

  /** Whether the exit command is available: exactly while piloting. */
  function ExitPoll(g: Globals): (r: bool)
    ensures r <==> g.isPiloting
  {
    g.isPiloting
  }

  /** The exit command only lowers the piloting flag; the running operator notices it
      on its next event and cleans up there. */
  function ExitExecute(g: Globals): (r: Globals)
    ensures !r.isPiloting
    ensures r.pilotedLight == g.pilotedLight && r.previousViewState == g.previousViewState
  {
    g.(isPiloting := false)
  }

  /** Writes the saved entries back onto the viewport and empties the saved dictionary,
      if it has any entries; otherwise nothing changes. */
  function RestoreViewState(w: World): (r: World)
    ensures IsEmpty(r.globals.previousViewState)
    ensures IsEmpty(w.globals.previousViewState) ==> r == w
    ensures r.view == Restore(w.view, w.globals.previousViewState)
    ensures r.objects == w.objects && r.activeLight == w.activeLight
    ensures r.globals.isPiloting == w.globals.isPiloting && r.globals.pilotedLight == w.globals.pilotedLight
  {
    if IsEmpty(w.globals.previousViewState) then w
    else w.(view := Restore(w.view, w.globals.previousViewState),
            globals := w.globals.(previousViewState := Empty))
  }

  /** Ends a session: clears the flag and the piloted light, restores the saved view,
      and removes the active-light property. */
  function Cleanup(w: World): (r: World)
    ensures r.globals == Initial && r.activeLight.None?
    ensures r.view == Restore(w.view, w.globals.previousViewState)
    ensures r.objects == w.objects
  {
    var stopped := w.(globals := w.globals.(isPiloting := false, pilotedLight := None));
    RestoreViewState(stopped).(activeLight := None)
  }

  /** The view rotation used when piloting object `o`. */
  function ObjRotation(o: Obj, geo: Geometry): Quat
  {
    PilotRotation(o.data, o.pose.rotationMode, o.pose.rotationQuaternion,
                  o.pose.rotationEuler, o.worldRotation, geo)
  }

  /** Starts piloting the object called `name`. Whether a session is already running is
      not checked. */
  function Invoke(w: World, name: string, geo: Geometry): (r: (World, Status))
    ensures name !in w.objects ==> r == (w, Cancelled)
    ensures name in w.objects ==>
              && r.1 == RunningModal
              && r.0.globals == Globals(true, Some(name), Capture(w.view))
              && r.0.view == Retarget(w.view, w.objects[name].pose.location, ObjRotation(w.objects[name], geo))
              && r.0.objects == w.objects
              && r.0.activeLight == Some(name)
  {
    if name !in w.objects then (w, Cancelled)
    else
      var o := w.objects[name];
      var view := Retarget(w.view, o.pose.location, ObjRotation(o, geo));
      (World(Globals(true, Some(name), Capture(w.view)), view, w.objects, Some(name)), RunningModal)
  }

  /** The objects after the light called `name` has been synchronised with the view. */
  function SyncLight(w: World, name: string, geo: Geometry): (r: World)
    requires name in w.objects
    ensures r.globals == w.globals && r.view == w.view && r.activeLight == w.activeLight
    ensures r.objects.Keys == w.objects.Keys
    ensures forall k :: k in w.objects && k != name ==> r.objects[k] == w.objects[k]
    ensures r.objects[name].data == w.objects[name].data
    ensures r.objects[name].worldRotation == w.objects[name].worldRotation
    ensures r.objects[name].pose == SyncPose(w.objects[name].pose, w.objects[name].data, w.view, geo)
  {
    var o := w.objects[name];
    w.(objects := w.objects[name := o.(pose := SyncPose(o.pose, o.data, w.view, geo))])
  }

  /** One event delivered to the running operator for the object called `name`. */
  function Tick(w: World, name: string, area: AreaType, e: Event, geo: Geometry): (r: (World, Status))
    ensures r.1 == Finished || r.1 == PassThrough
    ensures r.1 == Finished <==>
              !w.globals.isPiloting || area != View3DArea || (name in w.objects && IsEscPress(e))
    ensures !w.globals.isPiloting || area != View3DArea ==> r.0 == Cleanup(w)
    ensures w.globals.isPiloting && area == View3DArea && name !in w.objects ==> r == (w, PassThrough)
    ensures w.globals.isPiloting && area == View3DArea && name in w.objects ==>
              r.0 == (if IsEscPress(e) then Cleanup(SyncLight(w, name, geo)) else SyncLight(w, name, geo))
  {
    if !w.globals.isPiloting || area != View3DArea then (Cleanup(w), Finished)
    else if name in w.objects then
      var synced := SyncLight(w, name, geo);
      if IsEscPress(e) then (Cleanup(synced), Finished) else (synced, PassThrough)
    else (w, PassThrough)
  }

  /** What can happen between two steps of the running operator: the user moves the
      viewport, an object is deleted, the exit command is issued (only when its poll
      allows it), or the host delivers an event to the operator. */
  datatype HostAction =
    | Navigate(v: View)
    | Delete(n: string)
    | Exit
    | Dispatch(area: AreaType, e: Event)

  /** The effect of a host action other than an event delivery. */
  function Apply(w: World, a: HostAction): (r: World)
    requires !a.Dispatch?
    ensures r.globals.previousViewState == w.globals.previousViewState
    ensures r.objects.Keys <= w.objects.Keys
  {
    match a
    case Navigate(v) => w.(view := v)
    case Delete(n) => w.(objects := w.objects - {n})
    case Exit => if ExitPoll(w.globals) then w.(globals := ExitExecute(w.globals)) else w
  }

  /** Runs the operator for the object called `name` through the host actions `acts`,
      stopping at the first event it answers with FINISHED; the flag says whether it
      did. A finished run always ends idle; an unfinished one still holds the saved
      view it started with. */
  function Run(w: World, name: string, acts: seq<HostAction>, geo: Geometry): (r: (World, bool))
    ensures r.1 ==> r.0.globals == Initial && r.0.activeLight.None?
    ensures !r.1 ==> r.0.globals.previousViewState == w.globals.previousViewState
    ensures r.0.objects.Keys <= w.objects.Keys
    decreases |acts|
  {
    if acts == [] then (w, false)
    else if acts[0].Dispatch? then
      var (next, status) := Tick(w, name, acts[0].area, acts[0].e, geo);
      if status == Finished then (next, true) else Run(next, name, acts[1..], geo)
    else Run(Apply(w, acts[0]), name, acts[1..], geo)
  }

  /** Whatever the user does to the viewport while piloting, once the operator finishes
      the viewport holds the view that was saved. */
  lemma {:induction false} RunRestoresView(w: World, before: View, name: string,
                                           acts: seq<HostAction>, geo: Geometry)
    requires w.globals.previousViewState == Capture(before)
    requires Run(w, name, acts, geo).1
    ensures Recovers(Run(w, name, acts, geo).0.view, before)
    decreases |acts|
  {
    if acts[0].Dispatch? {
      var (next, status) := Tick(w, name, acts[0].area, acts[0].e, geo);
      if status != Finished {
        RunRestoresView(next, before, name, acts[1..], geo);
      }
    } else {
      RunRestoresView(Apply(w, acts[0]), before, name, acts[1..], geo);
    }
  }

  /** Starting a session on an existing light and running it until it finishes puts the
      viewport back as it was before the start. */
  lemma InvokeThenFinishRestores(w: World, name: string, acts: seq<HostAction>, geo: Geometry)
    requires name in w.objects
    requires Run(Invoke(w, name, geo).0, name, acts, geo).1
    ensures Recovers(Run(Invoke(w, name, geo).0, name, acts, geo).0.view, w.view)
  {
    RunRestoresView(Invoke(w, name, geo).0, w.view, name, acts, geo);
  }

  /** Once the piloted light has gone, events in a 3D viewport never end the session,
      ESC included, and change nothing. */
  lemma {:induction false} VanishedLightKeepsSession(w: World, name: string,
                                                     acts: seq<HostAction>, geo: Geometry)
    requires w.globals.isPiloting && name !in w.objects
    requires forall i :: 0 <= i < |acts| ==> acts[i].Dispatch? && acts[i].area == View3DArea
    ensures Run(w, name, acts, geo) == (w, false)
    decreases |acts|
  {
    if acts != [] {
      VanishedLightKeepsSession(w, name, acts[1..], geo);
    }
  }

  /** The operator never writes the rotation of a light without a direction (a point
      light): over a whole run of host actions its rotation mode and both rotation
      properties stay as they were; only its location follows the view. */
  lemma {:induction false} UndirectedLightKeepsRotation(w: World, name: string,
                                                        acts: seq<HostAction>, geo: Geometry)
    requires name in w.objects && !HasDirection(w.objects[name].data)
    ensures var f := Run(w, name, acts, geo).0;
            name in f.objects ==>
              && f.objects[name].data == w.objects[name].data
              && f.objects[name].pose.rotationMode == w.objects[name].pose.rotationMode
              && f.objects[name].pose.rotationQuaternion == w.objects[name].pose.rotationQuaternion
              && f.objects[name].pose.rotationEuler == w.objects[name].pose.rotationEuler
    decreases |acts|
  {
    if acts != [] {
      var next := if acts[0].Dispatch? then Tick(w, name, acts[0].area, acts[0].e, geo).0
                  else Apply(w, acts[0]);
      if name in next.objects {
        assert next.objects[name].data == w.objects[name].data;
        assert next.objects[name].pose.rotationQuaternion == w.objects[name].pose.rotationQuaternion;
        assert next.objects[name].pose.rotationEuler == w.objects[name].pose.rotationEuler;
        UndirectedLightKeepsRotation(next, name, acts[1..], geo);
      }
    }
  }

  /** Starting on an existing light and stopping straight away gives back the viewport
      exactly as it was, and leaves the session idle. */
  lemma InvokeThenCleanupRestores(w: World, name: string, geo: Geometry)
    requires name in w.objects
    ensures Cleanup(Invoke(w, name, geo).0).view == w.view
    ensures Cleanup(Invoke(w, name, geo).0).globals == Initial
  {
  }

  /** Stopping twice is the same as stopping once. */
  lemma CleanupIdempotent(w: World)
    ensures Cleanup(Cleanup(w)) == Cleanup(w)
  {
  }

  /** After the exit command, the next event finishes the session whatever it is, and the
      outcome is that of a direct cleanup. */
  lemma ExitThenTickCleansUp(w: World, name: string, area: AreaType, e: Event, geo: Geometry)
    ensures Tick(w.(globals := ExitExecute(w.globals)), name, area, e, geo) == (Cleanup(w), Finished)
  {
  }

  /** Starting a second session while one runs saves the first session's viewport, so
      stopping then leaves the viewport on the light rather than where the user was. */
  lemma DoubleInvokeLosesSavedView(w: World, name: string, geo: Geometry)
    requires name in w.objects
    ensures var first := Invoke(w, name, geo).0;
            var second := Invoke(first, name, geo).0;
            && second.globals.previousViewState == Capture(first.view)
            && Cleanup(second).view == first.view
  {
  }
}
