# Light Pilot session model

Light Pilot is a Blender add-on that lets the user "pilot" a scene light. It binds the 3D
viewport to the light, so that moving the viewport moves the light. This project models
its session state machine in Dafny:

- the module-level state `is_piloting`, `piloted_light` and `previous_view_state`;
- the modal operator's `invoke`: save the viewport, then move it onto the light;
- its `modal`: copy the viewer's eye transform onto the light on every event, or end the session;
- its `cleanup` and `restore_view_state`: clear the state and write the saved view back;
- the availability checks and `execute` of the pilot and exit operators.

Files:

- `types.dfy` (module `Types`) holds the value types: vectors, quaternions, Euler
  rotations, rotation modes, light kinds, perspective, camera, events, area types and
  operator return codes, and the six viewport properties the add-on saves (`View`).
  The math library's geometry is a record of given functions (`Geometry`). Those
  functions are the eye position and the forward axis of a viewport, a light's forward
  axis, `to_track_quat('-Z', 'Y')`, `to_euler` in a given order and an object's
  `rotation_euler.to_quaternion()` in the order its rotation mode names.
- `view_state.dfy` (module `ViewState`) holds the saved-view dictionary and the
  rotation chosen when the viewport is moved onto a light.
  The saved dictionary is a `Snapshot` with one optional entry per key.
  It also holds capture, restore, the retargeting done by `invoke`, and their round trip.
- `light_sync.dfy` (module `LightSync`) holds what one event does to the piloted light's pose.
- `session_machine.dfy` (module `SessionMachine`) is the whole session as a state machine
  over values. Each operator entry point is a function. `Run` drives the running operator
  through user and host actions: navigation, deletion, the exit command and event delivery.
  The lemmas are about whole sessions.
- `light_pilot.dfy` (module `LightPilot`) is the imperative model. It has classes for
  scene objects, the scene, the 3D view and the module-level state, plus the operators'
  methods. Each method updates fields step by step, as the add-on does. Its postcondition
  equates the new state with the matching `SessionMachine` function applied to the old state.

Three behaviours of the code that a reader might not expect are kept as written:

- A second start is not rejected. `invoke` never looks at `is_piloting`, and the pilot
  command is available whenever the active object is a light. So a second start overwrites the
  saved view with the piloting view (`SessionMachine.DoubleInvokeLosesSavedView`).
- A light that has been deleted does not end the session. The event is passed through,
  and ESC is ignored until the exit command is issued or the area changes
  (`SessionMachine.VanishedLightKeepsSession`).
- The exit command only lowers the flag. The cleanup happens on the operator's next
  event, whatever that event is (`SessionMachine.ExitThenTickCleansUp`).

## Model

| member | source | states |
|---|---|---|
| SessionMachine.PilotPoll | LightPilotforBlender.py:191-195 | the pilot command is available exactly when there is an active object and it is a light |
| SessionMachine.ExitPoll | LightPilotforBlender.py:209-213 | the exit command is available exactly while piloting |
| SessionMachine.ExitExecute | LightPilotforBlender.py:215-220 | the exit command clears the piloting flag and keeps the piloted light and the saved view |
| LightPilot.ExitExecute | LightPilotforBlender.py:215-220 | the imperative exit command changes the module-level state exactly as `SessionMachine.ExitExecute` does, and returns FINISHED |
| LightPilot.PilotExecute | LightPilotforBlender.py:197-200 | given that the active object is the scene's object of its name, the pilot command creates a modal operator for that name, has the effect of `SessionMachine.Invoke` on it, and so always starts piloting: the flag is up, the piloted light is the active object itself and the scene property names it; it returns FINISHED |
| LightPilot.PilotGlobals.constructor | LightPilotforBlender.py:20-23 | at load time the add-on is not piloting, has no piloted light and has an empty saved view |
| ViewState.Capture | LightPilotforBlender.py:126-133 | the saved dictionary holds all six entries (location, rotation, distance, perspective, local camera, camera), so it is not empty |
| ViewState.Restore | LightPilotforBlender.py:101-113 | writing back an empty dictionary changes nothing |
| ViewState.RestoreCaptured | LightPilotforBlender.py:101-133 | restoring the dictionary captured from view `u` puts back `u`'s location, rotation, distance, perspective and local-camera flag, and `u`'s camera unless it was None, in which case the current camera stays |
| ViewState.PilotRotation | LightPilotforBlender.py:149-162 | the view rotation on entering pilot mode: for SUN, SPOT or AREA the track quaternion of the light's world forward axis; for any other light its `rotation_quaternion` in QUATERNION mode, otherwise its `rotation_euler` converted in the order of its rotation mode |
| ViewState.DirectedRotationIgnoresLocalRotation | LightPilotforBlender.py:149-156 | for SUN, SPOT or AREA the chosen rotation depends on the world orientation only, not on the rotation mode or rotation properties |
| ViewState.UndirectedRotationFollowsOrder | LightPilotforBlender.py:157-162 | for any other light in an Euler mode, two rotation orders that convert the same angles differently give different view rotations |
| ViewState.Retarget | LightPilotforBlender.py:135-165 | after retargeting: perspective PERSP, local camera off, pivot at the light's location, the chosen rotation, distance 0.001; the bound camera is untouched |
| ViewState.RetargetRoundTrip | LightPilotforBlender.py:98-165 | capturing a view, retargeting it onto any light and restoring gives the original view back exactly |
| LightSync.SyncPose | LightPilotforBlender.py:48-67 | the light moves to the viewer's eye. A SUN, SPOT or AREA light turns to look along the view: in QUATERNION mode only `rotation_quaternion` changes, otherwise only `rotation_euler` changes. Any other light keeps both rotations. The rotation mode never changes |
| LightSync.SyncPoseIdempotent | LightPilotforBlender.py:48-67 | synchronising again against an unchanged view changes nothing more |
| SessionMachine.RestoreViewState | LightPilotforBlender.py:98-116 | writes the saved entries back and empties the dictionary; with an empty dictionary nothing changes; the flag, piloted light, objects and scene property are untouched |
| SessionMachine.Cleanup | LightPilotforBlender.py:80-96 | afterwards not piloting, no piloted light, empty saved view and no active-light property; the viewport is the restore of the saved view; objects untouched |
| SessionMachine.Invoke | LightPilotforBlender.py:118-182 | for a missing name: CANCELLED and nothing changes. For an existing name: RUNNING_MODAL, piloting that name, the saved view is the captured current view, the viewport is retargeted onto the light, and the scene property names the light |
| SessionMachine.SyncLight | LightPilotforBlender.py:43-67 | only the named light changes, and its new pose is `SyncPose` of the current view; globals, viewport and other objects are untouched |
| SessionMachine.Tick | LightPilotforBlender.py:35-78 | answers FINISHED or PASS_THROUGH. It is FINISHED exactly when piloting is off, the area is not a 3D view, or the light exists and the event is an ESC press. With piloting off or another area, it cleans up whatever the event. A missing light changes nothing. With the light present, the light is synchronised and the session cleans up on ESC |
| SessionMachine.Run | LightPilotforBlender.py:35-96 | a run that finishes always ends idle (not piloting, nothing saved, no property); a run that has not finished keeps the saved view; the operator creates no objects |
| SessionMachine.RunRestoresView | LightPilotforBlender.py:98-116 | however the viewport is navigated while piloting, when the operator finishes, the viewport recovers the saved view |
| SessionMachine.InvokeThenFinishRestores | LightPilotforBlender.py:118-179 | start on an existing light, then run until the operator finishes: the viewport recovers its pre-start view |
| SessionMachine.InvokeThenCleanupRestores | LightPilotforBlender.py:126-165 | a start directly followed by a cleanup restores the viewport exactly and leaves the session idle |
| SessionMachine.VanishedLightKeepsSession | LightPilotforBlender.py:43-78 | once the light is gone, events in a 3D view, ESC included, neither end the session nor change anything |
| SessionMachine.UndirectedLightKeepsRotation | LightPilotforBlender.py:54-67 | the operator never writes the rotation mode or either rotation property of a light that is not SUN, SPOT or AREA, over a whole run of host actions |
| SessionMachine.CleanupIdempotent | LightPilotforBlender.py:80-116 | stopping twice is the same as stopping once |
| SessionMachine.ExitThenTickCleansUp | LightPilotforBlender.py:35-40 | after the exit command, the next event finishes the session, with the same outcome as a direct cleanup |
| SessionMachine.DoubleInvokeLosesSavedView | LightPilotforBlender.py:118-133 | a second start saves the first session's piloting view, so a later cleanup leaves the viewport on the light |
| LightPilot.PilotModalOperator.Invoke | LightPilotforBlender.py:118-182 | the imperative `invoke` has exactly the effect and result of `SessionMachine.Invoke`, and `piloted_light` is then the scene's object itself, not only its name |
| LightPilot.PilotModalOperator.Modal | LightPilotforBlender.py:35-78 | the imperative `modal` has exactly the effect and result of `SessionMachine.Tick`, and it writes at most the named light |
| LightPilot.PilotModalOperator.Cleanup | LightPilotforBlender.py:80-96 | the imperative `cleanup` has exactly the effect of `SessionMachine.Cleanup` and returns FINISHED |
| LightPilot.PilotModalOperator.RestoreViewState | LightPilotforBlender.py:98-116 | the imperative `restore_view_state` leaves the viewport as `ViewState.Restore` of the saved entries, and leaves the dictionary empty |

## Left out

- Floating-point geometry is left out. The view matrix inverse, its forward row, `to_track_quat`, `to_euler` and `to_quaternion` are given functions (`Types.Geometry`). So the model does not show that the eye lands on the light at distance 0.001, or that the view direction matches the light's direction.
- `LightPilot.SceneObject.worldRotation` stands for `matrix_world.to_quaternion()`. The host keeps it up to date, and the model does not recompute it after the light's rotation is written.
- The host actions between two events (`SessionMachine.HostAction`) are navigation, deletion, the exit command and event delivery. Since `modal` passes events through, the user can also edit objects (transform, rotation mode, light type), create objects and rename them during a session; those are not modelled. So `SessionMachine.Run` and `SessionMachine.UndirectedLightKeepsRotation` say what the operator does, not what the user may do beside it.
- `eye` and `viewForward` are given functions of the six viewport properties. In camera perspective the host builds the view matrix from the bound camera's transform, which the model takes as fixed inside those functions.
- `LightSync.SyncPose`: `to_euler` is taken as total. It therefore does not model the error the math library raises for an `AXIS_ANGLE` rotation mode.
- `SessionMachine.Invoke` and `SessionMachine.Tick`: an object whose datablock is not a light is treated like a point light. The add-on reads `data.type` on it, which for objects without such an attribute (a mesh, an empty) raises an error instead.
- `LightPilot.PilotExecute` requires the pilot command's availability check, and that the active object is the scene's object of its name. The host calls `execute` only when that check holds, and `context.object` is always an entry of `bpy.data.objects`.
- User feedback (`report`), the sidebar redraw loop (`tag_redraw`, lines 74-76) and `modal_handler_add` are left out. The model keeps only the return codes.
- Blender's own reactions to property assignments are not modelled (for example, what setting `view_perspective` does to the view).
- Undo (`bl_options`) and the `bl_info` metadata are not modelled.
- The region's and the space's properties are merged into one `View3D`. `bpy.data.objects` and the scene's custom property are merged into one `Scene`.
- After a double start the host runs two modal operators side by side. The model follows one operator; the double start is stated over values by `SessionMachine.DoubleInvokeLosesSavedView`.
- The panel's `draw` (lines 231-309) is UI layout and is not modelled.
- Keymap registration and `register`/`unregister` (lines 313-379) are host glue. Their one state effect, `is_piloting = False` on unload, is not modelled.
