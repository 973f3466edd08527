# Forklift patrol and VR interaction controller, modelled in Dafny

This project models the two pieces of logic in a Unity VR warehouse scene.

- **The forklift patrol** (`Assets/ForkliftAI.cs`). A forklift turns towards its
  current waypoint, drives to it, waits, and then heads for the other waypoint.
  `forklift.dfy` holds the module `ForkliftPatrol`. Its pure state machine over
  phase, freeze flag, target and suspended coroutines is `Tick`, `EnterWait`,
  `CompleteWait` and `Step`. The class `ForkliftAI` mirrors the MonoBehaviour:
  its fields are updated in place, and each method's `ensures` ties the new
  state to the state machine.
- **The interaction controller** (`Assets/UserContext.cs`). Each frame it
  resolves the right-hand controller's primary and secondary buttons. When no
  valid device is present it uses the left mouse button instead. If the ray
  from the controller hits a tagged object while a button reads pressed, it
  looks the tag up in an ordered list. It then shows the entry's description
  and plays the entry's clip. `interaction.dfy` holds the module `Interaction`.
  It contains the first-match lookup (`FindIndex`, `Find`), the button
  resolution, the dispatch as pure functions, and the class `UserContext`
  whose methods are proved against them.
- `engine.dfy` holds `Option` (an assignable reference) and `Outcome`. An
  `Outcome` says whether a callback completed or ended in a
  NullReferenceException, which the engine logs before going on to the next
  frame.

The engine's floating-point and device calls become inputs:

- the `Mathf.DeltaAngle` test becomes `converged`;
- the `Vector3.Distance` test becomes `arrived`;
- the new heading and position are plain values;
- whether the device behind a held handle is still connected, the validity of
  a freshly fetched XR device, the button values it reports,
  `Input.GetMouseButtonDown(0)` and the ray's hit (the tag of the object hit)
  are fields of `Frame`. A handle that was valid lapses when its device
  disconnects; an invalid handle never becomes valid again.

The coroutine `WaitAtWaypoint` is split at its `yield`. The part before it runs
at once on arrival (`EnterWait`). The part after it is the event `WaitElapsed`,
which the engine can deliver only for a suspended coroutine.

Behaviour of the code that the model keeps:

- The controller does **no edge detection**. A valid device overwrites both
  button flags every frame (UserContext.cs:74-75), so a held button
  dispatches again on every frame whose ray hits (`HeldButtonReplays`).
- On a lookup miss the text is blanked **without a null check**
  (UserContext.cs:131), while the match path checks (line 137). With no text
  field assigned, a miss therefore throws: `HandleTag` returns
  `NullReference` and changes nothing.
- In the frame in which a device is re-acquired, neither the device nor
  the mouse is read. Both flags keep their previous values (`ResolveButtons`).
- With the mouse fallback only the primary flag is written (lines 82-89). The
  secondary flag keeps whatever the device last reported. So when the device
  disconnects while its secondary button is held, every later frame whose
  ray hits a tagged object dispatches again with no button pressed
  (`StaleSecondaryReplays`).
- A missing `rightControllerTransform` throws after the buttons are resolved
  (line 97), so that frame dispatches nothing (`Step`).
- A target that is `null` throws in both phase methods before anything is
  written (ForkliftAI.cs:61, 85), so that frame changes nothing (`Tick`).

## Model

| member | source | states |
|---|---|---|
| `ForkliftPatrol.Swap` | Assets/ForkliftAI.cs:114 | the new target is waypoint B when the old one is A, and A otherwise; it is always one of the two |
| `ForkliftPatrol.SwapTwice` | Assets/ForkliftAI.cs:114 | with distinct waypoints, a swap always changes the target and two swaps restore it |
| `ForkliftPatrol.Initial` | Assets/ForkliftAI.cs:31-38 | the state after Start (rotating, not waiting, heading for A, no coroutine) satisfies the patrol invariant |
| `ForkliftPatrol.EnterWait` | Assets/ForkliftAI.cs:105-108 | on arrival the phase becomes WaitAtTarget and the flag is set in the same frame; the target is kept and one coroutine is suspended |
| `ForkliftPatrol.CompleteWait` | Assets/ForkliftAI.cs:111-118 | wait completion swaps the target (it changes whenever the waypoints differ), returns to RotateToTarget, clears the flag, resumes the coroutine, and keeps the invariant |
| `ForkliftPatrol.Tick` | Assets/ForkliftAI.cs:40-99 | a frame changes nothing while waiting; it never changes the target; in RotateToTarget it moves on to MoveToTarget exactly when converged and otherwise changes nothing; in MoveToTarget arrival enters the wait with the flag set in that frame, and no arrival changes nothing; a null target changes nothing; phases only advance by one; the invariant (flag iff WaitAtTarget, target is A or B, one coroutine exactly while waiting) is kept |
| `ForkliftPatrol.Step` | Assets/ForkliftAI.cs:40-119 | only a wait completion changes the target; under the invariant every event keeps it and advances the phase by at most one |
| `ForkliftPatrol.TraceKeepsInv` | Assets/ForkliftAI.cs:40-119 | every state of every feasible run from an invariant state satisfies the invariant |
| `ForkliftPatrol.TracePhasesInOrder` | Assets/ForkliftAI.cs:44-53 | in every run consecutive phases follow Rotate, Move, Wait, Rotate with no phase skipped |
| `ForkliftPatrol.TraceAlternatesTarget` | Assets/ForkliftAI.cs:114-118 | with distinct waypoints the target after a run is the starting one after an even number of completed waits and the other waypoint after an odd number |
| `ForkliftPatrol.FirstLeg` | Assets/ForkliftAI.cs:31-119 | from Start, converging, arriving and completing the wait visits Rotate, Move, Wait and then Rotate towards waypoint B |
| `ForkliftPatrol.ForkliftAI.constructor` | Assets/ForkliftAI.cs:7-29 | a loaded component has no target yet, is not waiting, is in the enum's first phase and has no coroutine |
| `ForkliftPatrol.ForkliftAI.Start` | Assets/ForkliftAI.cs:31-38 | records the X and Z Euler angles, targets waypoint A, enters RotateToTarget; the invariant then holds |
| `ForkliftPatrol.ForkliftAI.Update` | Assets/ForkliftAI.cs:40-54 | the new state is `Tick` of the old; the invariant is kept; only a rotation frame changes the Euler angles (to recorded X, new Y, recorded Z) and only a movement frame the position; a null target reports a NullReferenceException |
| `ForkliftPatrol.ForkliftAI.RotateTowardsTarget` | Assets/ForkliftAI.cs:59-77 | the heading becomes (recorded X, new Y, recorded Z), the position is kept, and the phase moves on exactly when converged |
| `ForkliftPatrol.ForkliftAI.MoveTowardsTarget` | Assets/ForkliftAI.cs:82-99 | the position becomes the stepped one, the rotation is kept, and arrival starts the wait in the same frame |
| `ForkliftPatrol.ForkliftAI.WaitAtWaypointEnter` | Assets/ForkliftAI.cs:105-108 | the part of the coroutine before its yield: the state becomes `EnterWait` of the old |
| `ForkliftPatrol.ForkliftAI.WaitAtWaypointResume` | Assets/ForkliftAI.cs:111-119 | the part after the yield: the state becomes `CompleteWait` of the old and the invariant is kept |
| `Interaction.FindIndex` | Assets/UserContext.cs:122 | the index found holds an entry whose tag equals the hit tag and no earlier entry matches; when nothing is found no entry matches |
| `Interaction.Find` | Assets/UserContext.cs:122 | the result is absent exactly when no entry's tag equals the hit tag, and otherwise is a list entry with that tag |
| `Interaction.FindIsFirst` | Assets/UserContext.cs:122 | the first entry in list order whose tag matches is the one returned |
| `Interaction.FindTail` | Assets/UserContext.cs:122 | a non-matching head entry does not affect the lookup |
| `Interaction.FindConcat` | Assets/UserContext.cs:122 | looking up in a concatenation searches the first part first and the second only on a miss |
| `Interaction.ShowAndPlay` | Assets/UserContext.cs:135-155 | an assigned text becomes exactly the description and an unassigned one stays unassigned; the audio log grows by exactly the clip when both source and clip are assigned and is otherwise unchanged |
| `Interaction.HandleTag` | Assets/UserContext.cs:118-133 | a match shows and plays that entry; a miss blanks an assigned text and leaves the audio alone; a miss with no text field throws and changes nothing; a clip is played only on a match with an assigned clip |
| `Interaction.ResolveButtons` | Assets/UserContext.cs:62-90 | the device is re-fetched only when the held handle is invalid in this frame, and a still-valid handle is kept; a valid device overwrites both flags; without a valid device the primary flag is the mouse-down of this frame and the secondary flag is kept; in the frame of re-acquisition both flags are kept |
| `Interaction.Step` | Assets/UserContext.cs:58-116 | the buttons are resolved first; text and audio change only when the ray hits while a flag reads pressed, and then exactly as `HandleTag` says; a missing controller transform throws; every other frame completes |
| `Interaction.HeldButtonReplays` | Assets/UserContext.cs:72-109 | with a connected device and a held primary button, n frames hitting a registered tag with a clip play that clip n times |
| `Interaction.StaleSecondaryReplays` | Assets/UserContext.cs:80-109 | once the secondary flag is set and the device is gone, n frames hitting a registered tag with a clip and no mouse click play that clip n times and the flag stays set |
| `Interaction.DisconnectKeepsSecondary` | Assets/UserContext.cs:62-90 | in the frame a device with its secondary button held disconnects and cannot be re-fetched, the handle becomes invalid, the primary flag follows the mouse and the secondary flag stays set |
| `Interaction.NoHitKeepsUi` | Assets/UserContext.cs:102-115 | frames whose ray hits nothing never change the text or the audio |
| `Interaction.CrateScenario` | Assets/UserContext.cs:80-126 | a mouse click while hitting "Box1", registered as "A wooden crate", sets the text to exactly "A wooden crate" and plays its clip |
| `Interaction.UserContext.constructor` | Assets/UserContext.cs:20-34 | a loaded component holds the inspector's references, both flags false and an invalid device handle |
| `Interaction.UserContext.Start` | Assets/UserContext.cs:36-56 | fetches the device handle and changes nothing else |
| `Interaction.UserContext.Update` | Assets/UserContext.cs:58-116 | the new buttons, text and audio and the outcome are those of `Step`; the tag list is not modified |
| `Interaction.UserContext.HandleObjectTag` | Assets/UserContext.cs:118-133 | text, audio and outcome are those of `HandleTag`; the buttons and the tag list are kept |
| `Interaction.UserContext.UpdateUIAndPlayAudio` | Assets/UserContext.cs:135-155 | text and audio become `ShowAndPlay` of the old ones; the buttons and the tag list are kept |

## Left out

- Quaternion and Euler arithmetic (`Quaternion.LookRotation`, `Mathf.MoveTowardsAngle`, `Mathf.DeltaAngle`), vector normalisation, `Vector3.Distance` and `Time.deltaTime` scaling: floating-point library code outside the repository. They appear only as the inputs `converged`, `arrived`, `newY` and `newPosition`. So `moveSpeed`, `rotationSpeed` and `arrivalThreshold`, and the bounds on step size, are not modelled.
- `WaitForSeconds` timing and coroutine scheduling: only the resumption event is modelled, not when it comes. So `waitTimeAtWaypoint` is not modelled.
- `Physics.Raycast`, ray construction, `raycastDistance` and colliders: engine physics. The hit and its tag are inputs.
- `InputDevices.GetDeviceAtXRNode`, `TryGetFeatureValue`, `InputDevice.isValid` and `Input.GetMouseButtonDown`: device input. Their results are inputs. The two validity checks of one frame (UserContext.cs:62 and 80) see the same answer for the same handle.
- `AudioSource.PlayOneShot` playback, TextMeshPro rendering, and all `Debug.Log`, `LogWarning`, `LogError` and `DrawRay` output: sinks with no logic. Playback is a log of clips and the text field is an optional string.
- Unity's overloaded `==` on destroyed objects: references compare by identity.
- Null entries inside `tagInfoList`: Unity's serializer does not produce them.
- Inspector edits at run time: the waypoints and the presence of `rightControllerTransform` are constants of the model.
- `ForkliftPatrol.ForkliftAI.Start`: requires the flag and the coroutine count to hold their initial values. The engine runs Start before any Update, and the method itself does not reset them.
