/**
 * The measure tool's session controller, as functions on a value that holds
 * everything the controller owns. The collaborators the controller calls into
 * are inputs here: the settings loaded from disk are a `Settings` record, the
 * monitor enumeration is a sequence, and overlay creation is a function that
 * yields the new overlay's window handle, or None when creation fails.
 */
module Session {
  import opened ToolState

  /** The user settings the controller reads at every reset. */
  datatype Settings = Settings(
    lineColor: Rgb,
    continuousCapture: bool,
    drawFeetOnCross: bool,
    pixelTolerance: uint8,
    perColorChannelEdgeDetection: bool)

  /** The defaults `Settings.h` is assumed to give: orange-red lines, continuous capture, tolerance 30, feet on, aggregate detection. */
  const DefaultSettings := Settings(OrangeRed, true, true, 30, false)

  datatype MonitorInfo = MonitorInfo(id: nat, area: Rect)

  /** Which tool state an overlay window was created over. */
  datatype ToolKind = BoundsTool | MeasureTool

  /** An overlay window owned by the controller. */
  datatype Overlay = Overlay(window: WindowHandle, monitor: MonitorInfo, tool: ToolKind)

  /** A screen-capture thread, started for one overlay window on one monitor. */
  datatype CaptureThread = CaptureThread(window: WindowHandle, monitor: MonitorInfo)

  /** Overlay creation for one monitor: the new window's handle, or None on failure. */
  type OverlayFactory = MonitorInfo -> Option<WindowHandle>

  /** Everything the controller owns, except the cursor polling thread. */
  datatype CoreState = CoreState(
    overlays: seq<Overlay>,
    captureThreads: seq<CaptureThread>,
    bounds: BoundsToolState,
    measure: MeasureToolState,
    common: CommonState,
    settings: Settings)

  /** The state of a freshly constructed controller: every member default-constructed. */
  const InitialState := CoreState([], [], DefaultBoundsToolState, DefaultMeasureToolState, DefaultCommonState, DefaultSettings)

  // ---------------------------------------------------------------------------
  // Specification of the controller's operations

  /**
   * Tear the session down and re-arm it with freshly loaded settings: no
   * overlays, no capture threads, default tool states attached to the common
   * state, the line colour taken from the settings, and the
   * close-on-other-monitors flag cleared. The completion callback, the toolbar
   * box and the cursor position are kept.
   */
  function Reset(s: CoreState, loaded: Settings): CoreState
  {
    s.(overlays := [],
       captureThreads := [],
       bounds := DefaultBoundsToolState.(attachedToCommon := true),
       measure := DefaultMeasureToolState.(attachedToCommon := true),
       settings := loaded,
       common := s.common.(lineColor := ColorFromBytes(loaded.lineColor), closeOnOtherMonitors := false))
  }

  /** The measuring mode chosen from the two axis flags of a measure session. */
  function ModeFor(horizontal: bool, vertical: bool): (m: Mode)
    ensures m == Cross <==> horizontal && vertical
    ensures m == Horizontal <==> horizontal && !vertical
    ensures m == Vertical <==> !horizontal
  {
    if horizontal then (if vertical then Cross else Horizontal) else Vertical
  }

  /** The measure configuration of a new session: the chosen mode and four values copied from the settings. */
  function Configure(g: Global, horizontal: bool, vertical: bool, settings: Settings): Global
  {
    g.(mode := ModeFor(horizontal, vertical),
       continuousCapture := settings.continuousCapture,
       drawFeetOnCross := settings.drawFeetOnCross,
       pixelTolerance := settings.pixelTolerance,
       perColorChannelEdgeDetection := settings.perColorChannelEdgeDetection)
  }

  /** The overlays created over `monitors`, in monitor order, skipping those whose creation fails. */
  function CreatedOverlays(monitors: seq<MonitorInfo>, create: OverlayFactory, tool: ToolKind): seq<Overlay>
  {
    if monitors == [] then []
    else
      var last := monitors[|monitors| - 1];
      CreatedOverlays(monitors[..|monitors| - 1], create, tool)
      + match create(last)
        case Some(w) => [Overlay(w, last, tool)]
        case None => []
  }

  /** The capture threads started over `monitors`, one for each monitor whose overlay creation succeeds. */
  function StartedCaptureThreads(monitors: seq<MonitorInfo>, create: OverlayFactory): seq<CaptureThread>
  {
    if monitors == [] then []
    else
      var last := monitors[|monitors| - 1];
      StartedCaptureThreads(monitors[..|monitors| - 1], create)
      + match create(last)
        case Some(w) => [CaptureThread(w, last)]
        case None => []
  }

  /** Reset, then one bounds overlay per monitor whose overlay creation succeeds. */
  function StartBounds(s: CoreState, loaded: Settings, monitors: seq<MonitorInfo>, create: OverlayFactory): CoreState
  {
    Reset(s, loaded).(overlays := CreatedOverlays(monitors, create, BoundsTool))
  }

  /**
   * Reset, configure the measure tool from the two axis flags and the reloaded
   * settings, then one measure overlay and one capture thread per monitor
   * whose overlay creation succeeds.
   */
  function StartMeasure(s: CoreState, horizontal: bool, vertical: bool, loaded: Settings,
                        monitors: seq<MonitorInfo>, create: OverlayFactory): CoreState
  {
    var r := Reset(s, loaded);
    r.(measure := r.measure.(global := Configure(r.measure.global, horizontal, vertical, r.settings)),
       overlays := CreatedOverlays(monitors, create, MeasureTool),
       captureThreads := StartedCaptureThreads(monitors, create))
  }

  function SetCompletionEvent(s: CoreState, trigger: Callback): CoreState
  {
    s.(common := s.common.(sessionCompletedCallback := Some(trigger)))
  }

  /**
   * `static_cast<long>` of an unsigned 32-bit value on a platform whose long
   * is 32 bits wide: the one LONG with the same bit pattern.
   */
  function AsLong(u: uint32): (r: int32)
    ensures (r as int - u as int) % 0x1_0000_0000 == 0
    ensures u < 0x8000_0000 ==> r as int == u as int
  {
    if u < 0x8000_0000 then u as int as int32 else (u as int - 0x1_0000_0000) as int32
  }

  /** The 32-bit pattern of a LONG read as unsigned, which is how a signed coordinate reaches an unsigned parameter. */
  function AsUnsigned(x: int32): uint32
  {
    (x as int % 0x1_0000_0000) as uint32
  }

  /** A LONG passed through an unsigned 32-bit parameter and cast back is unchanged. */
  lemma AsLongUndoesAsUnsigned(x: int32)
    ensures AsLong(AsUnsigned(x)) == x
  {
  }

  function ToolbarBox(fromX: uint32, fromY: uint32, toX: uint32, toY: uint32): Box
  {
    Box(Rect(AsLong(fromX), AsLong(fromY), AsLong(toX), AsLong(toY)))
  }

  function SetToolbarBox(s: CoreState, fromX: uint32, fromY: uint32, toX: uint32, toY: uint32): CoreState
  {
    s.(common := s.common.(toolbarBoundingBox := ToolbarBox(fromX, fromY, toX, toY)))
  }

  // ---------------------------------------------------------------------------
  // The mode mapping

  /** Every mode is reachable from some pair of axis flags. */
  lemma EveryModeIsChosenBySomeFlags(m: Mode)
    ensures exists horizontal: bool, vertical: bool :: ModeFor(horizontal, vertical) == m
  {
    match m
    case Cross => assert ModeFor(true, true) == Cross;
    case Horizontal => assert ModeFor(true, false) == Horizontal;
    case Vertical => assert ModeFor(false, false) == Vertical;
  }

  // ---------------------------------------------------------------------------
  // Reset

  /** After a reset nothing of the previous session remains and the defaults are back. */
  lemma ResetEndsSession(s: CoreState, loaded: Settings)
    ensures var r := Reset(s, loaded);
      && r.overlays == [] && r.captureThreads == []
      && r.bounds.perScreen == map[] && r.bounds.attachedToCommon
      && r.measure.perScreen == map[] && r.measure.attachedToCommon
      && r.measure.global == DefaultGlobal
      && !r.common.closeOnOtherMonitors
      && r.settings == loaded
      && r.common.lineColor == ColorFromBytes(loaded.lineColor)
  {
  }

  /** A reset keeps the completion callback, the toolbar box and the cursor position. */
  lemma ResetKeepsCallerState(s: CoreState, loaded: Settings)
    ensures var r := Reset(s, loaded);
      && r.common.sessionCompletedCallback == s.common.sessionCompletedCallback
      && r.common.toolbarBoundingBox == s.common.toolbarBoundingBox
      && r.common.cursorPosSystemSpace == s.common.cursorPosSystemSpace
  {
  }

  /** Resetting twice with the same settings leaves what resetting once leaves. */
  lemma ResetIdempotent(s: CoreState, loaded: Settings)
    ensures Reset(Reset(s, loaded), loaded) == Reset(s, loaded)
  {
  }

  // ---------------------------------------------------------------------------
  // Creation over the monitor list

  /** The positions of the monitors whose overlay creation succeeds, in increasing order. */
  function SucceededIndices(monitors: seq<MonitorInfo>, create: OverlayFactory): (idx: seq<nat>)
    ensures forall k :: 0 <= k < |idx| ==> idx[k] < |monitors| && create(monitors[idx[k]]).Some?
    ensures forall k, j :: 0 <= k < j < |idx| ==> idx[k] < idx[j]
    ensures forall i :: 0 <= i < |monitors| && create(monitors[i]).Some? ==> i in idx
  {
    if monitors == [] then []
    else
      var n := |monitors| - 1;
      SucceededIndices(monitors[..n], create) + (if create(monitors[n]).Some? then [n] else [])
  }

  /**
   * The created overlays are exactly the monitors whose creation succeeds, in
   * monitor order: the k-th overlay sits on the k-th succeeding monitor and
   * carries the handle its creation returned.
   */
  lemma {:induction false} CreatedOverlaysFollowMonitors(monitors: seq<MonitorInfo>, create: OverlayFactory, tool: ToolKind)
    ensures var ov := CreatedOverlays(monitors, create, tool);
      var idx := SucceededIndices(monitors, create);
      && |ov| == |idx|
      && forall k :: 0 <= k < |ov| ==>
           ov[k].monitor == monitors[idx[k]] && create(monitors[idx[k]]) == Some(ov[k].window) && ov[k].tool == tool
  {
    if monitors != [] {
      var n := |monitors| - 1;
      CreatedOverlaysFollowMonitors(monitors[..n], create, tool);
    }
  }

  /** One capture thread per created overlay, pairwise on the same window and monitor. */
  lemma {:induction false} CaptureThreadsMatchOverlays(monitors: seq<MonitorInfo>, create: OverlayFactory, tool: ToolKind)
    ensures var ov := CreatedOverlays(monitors, create, tool);
      var th := StartedCaptureThreads(monitors, create);
      && |th| == |ov|
      && forall k :: 0 <= k < |th| ==> th[k] == CaptureThread(ov[k].window, ov[k].monitor)
  {
    if monitors != [] {
      var n := |monitors| - 1;
      CaptureThreadsMatchOverlays(monitors[..n], create, tool);
    }
  }

  // ---------------------------------------------------------------------------
  // The two start operations

  /**
   * A bounds session has no capture threads; its overlays are bounds overlays
   * on the succeeding monitors in monitor order; the measure configuration
   * stays at its defaults.
   */
  lemma {:induction false} StartBoundsOutcome(s: CoreState, loaded: Settings, monitors: seq<MonitorInfo>, create: OverlayFactory)
    ensures var r := StartBounds(s, loaded, monitors, create);
      var idx := SucceededIndices(monitors, create);
      && r.captureThreads == []
      && |r.overlays| == |idx|
      && (forall k :: 0 <= k < |r.overlays| ==>
            r.overlays[k].monitor == monitors[idx[k]] && create(monitors[idx[k]]) == Some(r.overlays[k].window)
            && r.overlays[k].tool == BoundsTool)
      && r.measure.global == DefaultGlobal
      && r.settings == loaded
      && !r.common.closeOnOtherMonitors
  {
    CreatedOverlaysFollowMonitors(monitors, create, BoundsTool);
  }

  /**
   * A measure session has exactly one capture thread per overlay, both on the
   * succeeding monitors in monitor order; its mode follows the axis flags and
   * its tolerance and flags are the reloaded settings' values.
   */
  lemma {:induction false} StartMeasureOutcome(s: CoreState, horizontal: bool, vertical: bool, loaded: Settings,
                            monitors: seq<MonitorInfo>, create: OverlayFactory)
    ensures var r := StartMeasure(s, horizontal, vertical, loaded, monitors, create);
      var idx := SucceededIndices(monitors, create);
      && |r.overlays| == |idx| && |r.captureThreads| == |idx|
      && (forall k :: 0 <= k < |r.overlays| ==>
            r.overlays[k].monitor == monitors[idx[k]] && create(monitors[idx[k]]) == Some(r.overlays[k].window)
            && r.overlays[k].tool == MeasureTool
            && r.captureThreads[k] == CaptureThread(r.overlays[k].window, r.overlays[k].monitor))
      && r.measure.global.mode == ModeFor(horizontal, vertical)
      && r.measure.global.continuousCapture == loaded.continuousCapture
      && r.measure.global.drawFeetOnCross == loaded.drawFeetOnCross
      && r.measure.global.pixelTolerance == loaded.pixelTolerance
      && r.measure.global.perColorChannelEdgeDetection == loaded.perColorChannelEdgeDetection
      && r.settings == loaded
      && !r.common.closeOnOtherMonitors
  {
    CreatedOverlaysFollowMonitors(monitors, create, MeasureTool);
    CaptureThreadsMatchOverlays(monitors, create, MeasureTool);
  }

  /** The two states agree on everything a reset keeps. */
  predicate SameCallerState(s: CoreState, t: CoreState)
  {
    && s.common.sessionCompletedCallback == t.common.sessionCompletedCallback
    && s.common.toolbarBoundingBox == t.common.toolbarBoundingBox
    && s.common.cursorPosSystemSpace == t.common.cursorPosSystemSpace
  }

  /**
   * Starting a session discards whatever the previous one left: two states
   * that agree on what a reset keeps start the same session.
   */
  lemma StartDiscardsEarlierSession(s: CoreState, t: CoreState, horizontal: bool, vertical: bool, loaded: Settings,
                                    monitors: seq<MonitorInfo>, create: OverlayFactory)
    requires SameCallerState(s, t)
    ensures StartBounds(s, loaded, monitors, create) == StartBounds(t, loaded, monitors, create)
    ensures StartMeasure(s, horizontal, vertical, loaded, monitors, create) == StartMeasure(t, horizontal, vertical, loaded, monitors, create)
  {
  }

  // ---------------------------------------------------------------------------
  // The setters

  /** The toolbar box holds the four coordinates as LONGs; a coordinate below 2^31 is stored as given. */
  lemma SetToolbarBoxStores(s: CoreState, fromX: uint32, fromY: uint32, toX: uint32, toY: uint32)
    ensures var b := SetToolbarBox(s, fromX, fromY, toX, toY).common.toolbarBoundingBox.inner;
      && b.left == AsLong(fromX) && b.top == AsLong(fromY) && b.right == AsLong(toX) && b.bottom == AsLong(toY)
      && (fromX < 0x8000_0000 ==> b.left as int == fromX as int)
      && (fromY < 0x8000_0000 ==> b.top as int == fromY as int)
      && (toX < 0x8000_0000 ==> b.right as int == toX as int)
      && (toY < 0x8000_0000 ==> b.bottom as int == toY as int)
    ensures var t := SetToolbarBox(s, fromX, fromY, toX, toY);
      t.(common := t.common.(toolbarBoundingBox := s.common.toolbarBoundingBox)) == s
  {
  }

  /** The setters' values survive any number of resets and session starts. */
  lemma SettersSurviveSessions(s: CoreState, trigger: Callback, fromX: uint32, fromY: uint32, toX: uint32, toY: uint32,
                               horizontal: bool, vertical: bool, loaded: Settings,
                               monitors: seq<MonitorInfo>, create: OverlayFactory)
    ensures var t := SetToolbarBox(SetCompletionEvent(s, trigger), fromX, fromY, toX, toY);
      && StartMeasure(t, horizontal, vertical, loaded, monitors, create).common.sessionCompletedCallback == Some(trigger)
      && StartMeasure(t, horizontal, vertical, loaded, monitors, create).common.toolbarBoundingBox == ToolbarBox(fromX, fromY, toX, toY)
      && StartBounds(t, loaded, monitors, create).common.sessionCompletedCallback == Some(trigger)
      && StartBounds(t, loaded, monitors, create).common.toolbarBoundingBox == ToolbarBox(fromX, fromY, toX, toY)
  {
  }

  // ---------------------------------------------------------------------------
  // The capture-thread invariant

  /**
   * Capture threads exist only in a measure session, one per overlay and on
   * its window and monitor; a bounds session has none.
   */
  ghost predicate OneCapturerPerMeasureOverlay(s: CoreState)
  {
    || (s.captureThreads == [] && forall k :: 0 <= k < |s.overlays| ==> s.overlays[k].tool == BoundsTool)
    || (&& |s.captureThreads| == |s.overlays|
        && forall k :: 0 <= k < |s.overlays| ==>
             s.overlays[k].tool == MeasureTool
             && s.captureThreads[k] == CaptureThread(s.overlays[k].window, s.overlays[k].monitor))
  }

  lemma InitialStateSatisfiesCapturerInvariant()
    ensures OneCapturerPerMeasureOverlay(InitialState)
  {
  }

  /** A reset leaves no overlays and no threads, which satisfies the invariant. */
  lemma ResetEstablishesCapturerInvariant(s: CoreState, loaded: Settings)
    ensures OneCapturerPerMeasureOverlay(Reset(s, loaded))
  {
  }

  lemma StartBoundsEstablishesCapturerInvariant(s: CoreState, loaded: Settings, monitors: seq<MonitorInfo>, create: OverlayFactory)
    ensures OneCapturerPerMeasureOverlay(StartBounds(s, loaded, monitors, create))
  {
    StartBoundsOutcome(s, loaded, monitors, create);
  }

  lemma StartMeasureEstablishesCapturerInvariant(s: CoreState, horizontal: bool, vertical: bool, loaded: Settings,
                                                 monitors: seq<MonitorInfo>, create: OverlayFactory)
    ensures OneCapturerPerMeasureOverlay(StartMeasure(s, horizontal, vertical, loaded, monitors, create))
  {
    StartMeasureOutcome(s, horizontal, vertical, loaded, monitors, create);
  }

  /** The setters touch neither overlays nor threads, so they preserve the invariant. */
  lemma CompletionEventKeepsCapturerInvariant(s: CoreState, trigger: Callback)
    requires OneCapturerPerMeasureOverlay(s)
    ensures OneCapturerPerMeasureOverlay(SetCompletionEvent(s, trigger))
  {
  }

  lemma ToolbarBoxKeepsCapturerInvariant(s: CoreState, fromX: uint32, fromY: uint32, toX: uint32, toY: uint32)
    requires OneCapturerPerMeasureOverlay(s)
    ensures OneCapturerPerMeasureOverlay(SetToolbarBox(s, fromX, fromY, toX, toY))
  {
  }
}
