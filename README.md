# Measure Tool session controller

A model of the session controller of PowerToys' Measure Tool: the `Core`
object that starts a bounds-selection session or a measurement session over
every monitor, tears a session down, and holds the state records the overlay
windows and screen-capture threads share.

- `tool_state.dfy`, module `ToolState`: the records of `ToolState.h`
  (common state, bounds-tool state, measure-tool state and its `Mode`) as
  datatypes, with constants for their default-constructed values.
- `session.dfy`, module `Session`: everything the controller owns as one
  value (`CoreState`), each operation as a function on it (`Reset`,
  `StartBounds`, `StartMeasure`, `SetCompletionEvent`, `SetToolbarBox`),
  and the lemmas about them.
- `measure_tool_core.dfy`, module `MeasureToolCore`: the class `Core`. Its
  fields are the controller's members. Its methods update them step by step
  as the C++ code does, and each one's postcondition equates the new state
  with the matching `Session` function of the old one. `Valid()` is the
  capture-thread invariant: capture threads exist only in a measurement
  session, one per overlay, on that overlay's window and monitor.

The controller's collaborators are inputs:
- `Settings::LoadFromFile` is the `loaded: Settings` parameter.
- `MonitorInfo::GetMonitors` is the `monitors` sequence.
- `OverlayUIState::Create` is `create: MonitorInfo -> Option<WindowHandle>`.
  It yields the new window's handle, or `None` when creation fails.

Overlays and capture threads are value tokens kept in sequences. The
`Serialized<>` lock around the measure state becomes direct field access.

Two behaviours of the code that the model keeps:
- A reset keeps the completion callback, the toolbar box and the cursor
  position (`ResetKeepsCallerState`). Of the common state, it rewrites only the
  line colour and `closeOnOtherMonitors`.
- The toolbar box's coordinates go through a cast to a 32-bit `LONG`
  (`AsLong`), so values of 2^31 and above wrap to negative coordinates.

Assumptions about files that are not part of this model:
- `serialized.h`: `Serialized<T>::Reset` default-constructs `T`.
- `monitors.h`: a default `Box` holds the zero `RECT`.
- `Settings.h`: a default `Settings` holds the defaults `Settings.h` is assumed
  to give (orange-red line, continuous capture on, tolerance 30, feet on,
  per-channel detection off).

## Model

| member | source | states |
|---|---|---|
| ToolState.ByteToUnit | src/modules/MeasureTool/MeasureToolCore/PowerToys.MeasureToolCore.cpp:70-72 | a line-colour channel lies in [0, 1] and scales back to the settings byte it came from |
| ToolState.ColorFromBytesInjective | src/modules/MeasureTool/MeasureToolCore/PowerToys.MeasureToolCore.cpp:70-72 | two different settings colours never give the same line colour |
| ToolState.DefaultCommonStateValues | src/modules/MeasureTool/MeasureToolCore/ToolState.h:24-33 | a default CommonState has no completion callback, closeOnOtherMonitors false, a zero cursor position and an orange-red line |
| ToolState.FreshBoundsPerScreenIsIdle | src/modules/MeasureTool/MeasureToolCore/ToolState.h:35-45 | a fresh bounds PerScreen has no drag start and no measurements; a default bounds state has an empty per-screen map and a null common-state pointer |
| ToolState.DefaultGlobalValues | src/modules/MeasureTool/MeasureToolCore/ToolState.h:56-63 | the default measure configuration: tolerance 30, continuous capture on, feet on, per-channel detection off, mode Cross |
| ToolState.PixelToleranceIsAByte | src/modules/MeasureTool/MeasureToolCore/ToolState.h:58 | the pixel tolerance always lies in 0..255 |
| ToolState.ModeHasThreeValues | src/modules/MeasureTool/MeasureToolCore/ToolState.h:49-54 | a mode is Horizontal, Vertical or Cross |
| ToolState.FreshMeasurePerScreenIsZero | src/modules/MeasureTool/MeasureToolCore/ToolState.h:65-69 | a fresh measure PerScreen has both half-screen flags false and all measured edges zero |
| Session.ModeFor | src/modules/MeasureTool/MeasureToolCore/PowerToys.MeasureToolCore.cpp:100-104 | Cross iff both flags are set; Horizontal iff only horizontal is set; Vertical iff horizontal is not set, whatever vertical is |
| Session.EveryModeIsChosenBySomeFlags | src/modules/MeasureTool/MeasureToolCore/PowerToys.MeasureToolCore.cpp:100-104 | the mode mapping reaches every mode |
| Session.AsLong | src/modules/MeasureTool/MeasureToolCore/PowerToys.MeasureToolCore.cpp:144-147 | the cast yields the 32-bit signed value congruent to the argument modulo 2^32, equal to it below 2^31 |
| Session.AsLongUndoesAsUnsigned | src/modules/MeasureTool/MeasureToolCore/PowerToys.MeasureToolCore.cpp:139-148 | a signed coordinate passed through an unsigned 32-bit parameter is stored unchanged |
| Session.ResetEndsSession | src/modules/MeasureTool/MeasureToolCore/PowerToys.MeasureToolCore.cpp:50-74 | after a reset: no overlays, no capture threads, empty per-screen maps, tool states attached to the common state, default measure configuration, closeOnOtherMonitors false, settings reloaded, line colour from the settings |
| Session.ResetKeepsCallerState | src/modules/MeasureTool/MeasureToolCore/PowerToys.MeasureToolCore.cpp:50-74 | a reset keeps the completion callback, the toolbar box and the cursor position |
| Session.ResetIdempotent | src/modules/MeasureTool/MeasureToolCore/PowerToys.MeasureToolCore.cpp:50-74 | two resets with the same settings leave what one reset leaves |
| Session.SucceededIndices | src/modules/MeasureTool/MeasureToolCore/PowerToys.MeasureToolCore.cpp:115-122 | the positions of the monitors whose overlay creation succeeds: each in range and succeeding, strictly increasing, none missing |
| Session.CreatedOverlaysFollowMonitors | src/modules/MeasureTool/MeasureToolCore/PowerToys.MeasureToolCore.cpp:83-92 | there is one overlay per monitor whose creation succeeds, in monitor order, and it carries the handle creation returned; failed monitors are skipped |
| Session.CaptureThreadsMatchOverlays | src/modules/MeasureTool/MeasureToolCore/PowerToys.MeasureToolCore.cpp:115-128 | there are as many capture threads as overlays, and the k-th thread runs on the k-th overlay's window and monitor |
| Session.StartBoundsOutcome | src/modules/MeasureTool/MeasureToolCore/PowerToys.MeasureToolCore.cpp:76-94 | a bounds session has no capture threads, its overlays are bounds overlays on the succeeding monitors in order, and the measure configuration keeps its defaults |
| Session.StartMeasureOutcome | src/modules/MeasureTool/MeasureToolCore/PowerToys.MeasureToolCore.cpp:96-130 | a measure session has one capture thread per overlay, both on the succeeding monitors in order; its mode follows the flags and it copies four values from the reloaded settings |
| Session.StartDiscardsEarlierSession | src/modules/MeasureTool/MeasureToolCore/PowerToys.MeasureToolCore.cpp:76-130 | a new session of either kind depends on the old state only through what a reset keeps, so earlier overlays and threads are discarded |
| Session.SetToolbarBoxStores | src/modules/MeasureTool/MeasureToolCore/PowerToys.MeasureToolCore.cpp:139-148 | the box stores left=fromX, top=fromY, right=toX, bottom=toY as LONGs and changes nothing else |
| Session.SettersSurviveSessions | src/modules/MeasureTool/MeasureToolCore/PowerToys.MeasureToolCore.cpp:132-148 | the completion callback and toolbar box that were set survive the start of either kind of session |
| Session.InitialStateSatisfiesCapturerInvariant | src/modules/MeasureTool/MeasureToolCore/PowerToys.MeasureToolCore.h:24-32 | a newly constructed controller satisfies the capture-thread invariant |
| Session.ResetEstablishesCapturerInvariant | src/modules/MeasureTool/MeasureToolCore/PowerToys.MeasureToolCore.cpp:53-62 | a reset establishes the capture-thread invariant |
| Session.StartBoundsEstablishesCapturerInvariant | src/modules/MeasureTool/MeasureToolCore/PowerToys.MeasureToolCore.cpp:83-92 | a bounds session establishes the capture-thread invariant |
| Session.StartMeasureEstablishesCapturerInvariant | src/modules/MeasureTool/MeasureToolCore/PowerToys.MeasureToolCore.cpp:115-128 | a measure session establishes the capture-thread invariant |
| Session.CompletionEventKeepsCapturerInvariant | src/modules/MeasureTool/MeasureToolCore/PowerToys.MeasureToolCore.cpp:132-137 | setting the completion callback preserves the capture-thread invariant |
| Session.ToolbarBoxKeepsCapturerInvariant | src/modules/MeasureTool/MeasureToolCore/PowerToys.MeasureToolCore.cpp:139-148 | setting the toolbar box preserves the capture-thread invariant |
| MeasureToolCore.Core.constructor | src/modules/MeasureTool/MeasureToolCore/PowerToys.MeasureToolCore.cpp:33-39 | every member default-constructed, and the capture-thread invariant holds |
| MeasureToolCore.Core.ResetState | src/modules/MeasureTool/MeasureToolCore/PowerToys.MeasureToolCore.cpp:50-74 | the new state is Session.Reset of the old one; it establishes the capture-thread invariant |
| MeasureToolCore.Core.StartBoundsTool | src/modules/MeasureTool/MeasureToolCore/PowerToys.MeasureToolCore.cpp:76-94 | the new state is Session.StartBounds of the old one; the loop invariant keeps the overlays equal to those created over the monitors seen so far |
| MeasureToolCore.Core.StartMeasureTool | src/modules/MeasureTool/MeasureToolCore/PowerToys.MeasureToolCore.cpp:96-130 | the new state is Session.StartMeasure of the old one; the loop invariant keeps overlays and threads equal to those started over the monitors seen so far |
| MeasureToolCore.Core.SetToolCompletionEvent | src/modules/MeasureTool/MeasureToolCore/PowerToys.MeasureToolCore.cpp:132-137 | only the completion callback changes; the capture-thread invariant is preserved |
| MeasureToolCore.Core.SetToolbarBoundingBox | src/modules/MeasureTool/MeasureToolCore/PowerToys.MeasureToolCore.cpp:139-148 | only the toolbar box changes; the capture-thread invariant is preserved |

## Left out

- The cursor polling thread (`Core::MouseCaptureThread`), its stop signal and the destructor's stop-and-join sequence are concurrency. So is the transient `closeOnOtherMonitors = true` during a reset, which only other threads can observe. The model is single-threaded.
- Joining the capture threads before the list is cleared is not modelled. Threads are tokens, and a reset simply drops them.
- `gpuAccessLock` and the `Serialized<>` locking are not modelled. Access to the measure state is direct.
- The line colour is modelled with exact reals (`byte / 255`). Single-precision rounding is not modelled.
- `GetDPIScaleForWindow` is left out. It is a foreign DPI query with a floating-point result.
- `Trace::*` telemetry and logger set-up are left out. They are fire-and-forget calls with no effect on the state.
- The `DEBUG_PRIMARY_MONITOR_ONLY` build variant is left out.
- `Settings::LoadFromFile`, `MonitorInfo::GetMonitors`, `OverlayUIState::Create` and `StartCapturingThread` are not part of this model. They are inputs or tokens. Any change `OverlayUIState::Create` makes to the per-screen maps is therefore not captured.
- The line colour's alpha channel is left out. `D2D1::ColorF` carries one: `OrangeRed` sets it to 1.0, and a reset never writes it.
- The overlay factory is a pure function of the monitor descriptor, so the model does not guarantee distinct window handles. Two equal descriptors, or the same monitor in two sessions, get the same handle, whereas `OverlayUIState::Create` makes a new window on every call.
- The overlay label buffer (`overlayBoxText`) is left out. It belongs to the renderer and the controller never touches it.
- The captured-texture and bitmap fields of the measure `PerScreen` record are left out. They are GPU resources.
- The edge analyser, the screen capturer and the overlay renderer are not part of this model. This includes firing the completion callback when a session's overlays close.
