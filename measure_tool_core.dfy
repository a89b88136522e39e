/**
 * The measure tool's session controller, as the object whose members the C++
 * code updates in place. Every method is proved against the matching
 * function of module Session, and keeps the capture-thread invariant.
 */
module MeasureToolCore {
  import opened ToolState
  import opened Session

  class Core {
    var overlayUIStates: seq<Overlay>
    var screenCaptureThreads: seq<CaptureThread>
    var boundsToolState: BoundsToolState
    var measureToolState: MeasureToolState
    var commonState: CommonState
    var settings: Settings

    /** Everything the controller owns, as one value. */
    function State(): CoreState
      reads this
    {
      CoreState(overlayUIStates, screenCaptureThreads, boundsToolState, measureToolState, commonState, settings)
    }

    ghost predicate Valid()
      reads this
    {
      OneCapturerPerMeasureOverlay(State())
    }

    /** Every member default-constructed; no session is running yet. */
    constructor ()
      ensures State() == InitialState
      ensures Valid()
    {
      overlayUIStates := [];
      screenCaptureThreads := [];
      boundsToolState := DefaultBoundsToolState;
      measureToolState := DefaultMeasureToolState;
      commonState := DefaultCommonState;
      settings := DefaultSettings;
    }

    /**
     * Tear the session down and reload the settings (`loaded` is what the
     * settings file yields). The capture threads would be joined before the
     * list is cleared; joining is not modelled.
     */
    method ResetState(loaded: Settings)
      modifies this
      ensures State() == Reset(old(State()), loaded)
      ensures Valid()
    {
      // Raised while the overlays are torn down, cleared once the session is re-armed.
      commonState := commonState.(closeOnOtherMonitors := true);
      overlayUIStates := [];
      boundsToolState := DefaultBoundsToolState.(attachedToCommon := true);
      screenCaptureThreads := [];
      measureToolState := DefaultMeasureToolState;
      measureToolState := measureToolState.(attachedToCommon := true);

      settings := loaded;

      commonState := commonState.(lineColor := commonState.lineColor.(r := ByteToUnit(settings.lineColor.r)));
      commonState := commonState.(lineColor := commonState.lineColor.(g := ByteToUnit(settings.lineColor.g)));
      commonState := commonState.(lineColor := commonState.lineColor.(b := ByteToUnit(settings.lineColor.b)));
      commonState := commonState.(closeOnOtherMonitors := false);
      ResetEstablishesCapturerInvariant(old(State()), loaded);
    }

    /** Reset, then one bounds overlay per monitor whose overlay creation succeeds. */
    method StartBoundsTool(loaded: Settings, monitors: seq<MonitorInfo>, create: OverlayFactory)
      modifies this
      ensures State() == StartBounds(old(State()), loaded, monitors, create)
      ensures Valid()
    {
      ResetState(loaded);
      ghost var reset := State();

      for i := 0 to |monitors|
        invariant State() == reset.(overlays := CreatedOverlays(monitors[..i], create, BoundsTool))
      {
        assert monitors[..i + 1][..i] == monitors[..i];
        var overlayUI := create(monitors[i]);
        if overlayUI.None? {
          continue;
        }
        overlayUIStates := overlayUIStates + [Overlay(overlayUI.value, monitors[i], BoundsTool)];
      }
      assert monitors[..|monitors|] == monitors;
      StartBoundsEstablishesCapturerInvariant(old(State()), loaded, monitors, create);
    }

    /**
     * Reset, configure the measure tool from the axis flags and the reloaded
     * settings, then one overlay and one capture thread per monitor whose
     * overlay creation succeeds.
     */
    method StartMeasureTool(horizontal: bool, vertical: bool, loaded: Settings,
                            monitors: seq<MonitorInfo>, create: OverlayFactory)
      modifies this
      ensures State() == StartMeasure(old(State()), horizontal, vertical, loaded, monitors, create)
      ensures Valid()
    {
      ResetState(loaded);

      var global := measureToolState.global;
      global := global.(mode := ModeFor(horizontal, vertical));
      global := global.(continuousCapture := settings.continuousCapture);
      global := global.(drawFeetOnCross := settings.drawFeetOnCross);
      global := global.(pixelTolerance := settings.pixelTolerance);
      global := global.(perColorChannelEdgeDetection := settings.perColorChannelEdgeDetection);
      measureToolState := measureToolState.(global := global);
      ghost var configured := State();

      for i := 0 to |monitors|
        invariant State() == configured.(overlays := CreatedOverlays(monitors[..i], create, MeasureTool),
                                         captureThreads := StartedCaptureThreads(monitors[..i], create))
      {
        assert monitors[..i + 1][..i] == monitors[..i];
        var overlayUI := create(monitors[i]);
        if overlayUI.None? {
          continue;
        }
        screenCaptureThreads := screenCaptureThreads + [CaptureThread(overlayUI.value, monitors[i])];
        overlayUIStates := overlayUIStates + [Overlay(overlayUI.value, monitors[i], MeasureTool)];
      }
      assert monitors[..|monitors|] == monitors;
      StartMeasureEstablishesCapturerInvariant(old(State()), horizontal, vertical, loaded, monitors, create);
    }

    method SetToolCompletionEvent(trigger: Callback)
      modifies this
      ensures State() == SetCompletionEvent(old(State()), trigger)
      ensures old(Valid()) ==> Valid()
    {
      commonState := commonState.(sessionCompletedCallback := Some(trigger));
      if old(Valid()) {
        CompletionEventKeepsCapturerInvariant(old(State()), trigger);
      }
    }

    method SetToolbarBoundingBox(fromX: uint32, fromY: uint32, toX: uint32, toY: uint32)
      modifies this
      ensures State() == SetToolbarBox(old(State()), fromX, fromY, toX, toY)
      ensures old(Valid()) ==> Valid()
    {
      commonState := commonState.(toolbarBoundingBox := Box(Rect(AsLong(fromX), AsLong(fromY), AsLong(toX), AsLong(toY))));
      if old(Valid()) {
        ToolbarBoxKeepsCapturerInvariant(old(State()), fromX, fromY, toX, toY);
      }
    }
  }
}
