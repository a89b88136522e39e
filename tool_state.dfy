/**
 * The state records the measure tool's threads share: the common session
 * state, the bounds tool's per-screen drag state, and the measure tool's
 * configuration and per-screen edge state. Each record comes with the value a
 * default-constructed record of the C++ code has.
 */
module ToolState {

  newtype uint8 = x: int | 0 <= x < 0x100
  newtype uint32 = x: int | 0 <= x < 0x1_0000_0000
  /** A Win32 LONG: 32 bits wide and signed. */
  newtype int32 = x: int | -0x8000_0000 <= x < 0x8000_0000

  datatype Option<+T> = None | Some(value: T)

  /** An opaque window handle (HWND); the per-screen maps are keyed by it. */
  datatype WindowHandle = WindowHandle(id: nat)

  /** An opaque `std::function<void()>`; only its identity is observable. */
  datatype Callback = Callback(id: nat)

  /** Win32 POINT and RECT, in screen pixels. */
  datatype Point = Point(x: int32, y: int32)
  datatype Rect = Rect(left: int32, top: int32, right: int32, bottom: int32)

  const ZeroPoint := Point(0, 0)
  const ZeroRect := Rect(0, 0, 0, 0)

  /** A rectangle wrapper; a default Box holds the zero RECT. */
  datatype Box = Box(inner: Rect)

  /** Direct2D points and rectangles; their float coordinates are modelled as reals. */
  datatype PointF = PointF(x: real, y: real)
  datatype RectF = RectF(left: real, top: real, right: real, bottom: real)

  /** An RGB colour as three bytes, and as Direct2D's unit-interval components. */
  datatype Rgb = Rgb(r: uint8, g: uint8, b: uint8)
  datatype ColorF = ColorF(r: real, g: real, b: real)

  /** D2D1::ColorF::OrangeRed is the packed colour 0xFF4500. */
  const OrangeRed := Rgb(0xFF, 0x45, 0x00)

  /** One colour channel scaled from 0..255 to 0..1, as `byte / 255.f` does. */
  function ByteToUnit(b: uint8): (u: real)
    ensures 0.0 <= u <= 1.0
    ensures u * 255.0 == b as real
  {
    b as real / 255.0
  }

  function ColorFromBytes(c: Rgb): ColorF
  {
    ColorF(ByteToUnit(c.r), ByteToUnit(c.g), ByteToUnit(c.b))
  }

  /** Two different byte colours never scale to the same unit colour. */
  lemma ColorFromBytesInjective(c: Rgb, d: Rgb)
    requires ColorFromBytes(c) == ColorFromBytes(d)
    ensures c == d
  {
  }

  // ---------------------------------------------------------------------------
  // CommonState

  /**
   * State shared by every overlay of a session. The cursor position is written
   * by the cursor polling thread, which is not part of this model; the overlay
   * label text buffer belongs to the renderer and is not modelled either.
   */
  datatype CommonState = CommonState(
    sessionCompletedCallback: Option<Callback>,
    lineColor: ColorF,
    toolbarBoundingBox: Box,
    cursorPosSystemSpace: Point,
    closeOnOtherMonitors: bool)

  const DefaultCommonState := CommonState(None, ColorFromBytes(OrangeRed), Box(ZeroRect), ZeroPoint, false)

  lemma DefaultCommonStateValues()
    ensures DefaultCommonState.sessionCompletedCallback == None
    ensures !DefaultCommonState.closeOnOtherMonitors
    ensures DefaultCommonState.cursorPosSystemSpace.x == 0 && DefaultCommonState.cursorPosSystemSpace.y == 0
    ensures DefaultCommonState.lineColor == ColorF(1.0, 69.0 / 255.0, 0.0)
  {
  }

  // ---------------------------------------------------------------------------
  // BoundsToolState

  /** A screen's drag in progress (if any) and the rectangles committed so far, in order. */
  datatype BoundsPerScreen = BoundsPerScreen(currentRegionStart: Option<PointF>, measurements: seq<RectF>)

  const FreshBoundsPerScreen := BoundsPerScreen(None, [])

  /**
   * `attachedToCommon` stands for the `commonState` back-pointer: false while
   * it is null, true once it points at the owning session's common state.
   */
  datatype BoundsToolState = BoundsToolState(perScreen: map<WindowHandle, BoundsPerScreen>, attachedToCommon: bool)

  const DefaultBoundsToolState := BoundsToolState(map[], false)

  lemma FreshBoundsPerScreenIsIdle()
    ensures FreshBoundsPerScreen.currentRegionStart.None?
    ensures |FreshBoundsPerScreen.measurements| == 0
    ensures DefaultBoundsToolState.perScreen.Keys == {}
    ensures !DefaultBoundsToolState.attachedToCommon
  {
  }

  // ---------------------------------------------------------------------------
  // MeasureToolState

  datatype Mode = Horizontal | Vertical | Cross

  /** The measure tool's configuration, read by every overlay of a session. */
  datatype Global = Global(
    pixelTolerance: uint8,
    continuousCapture: bool,
    drawFeetOnCross: bool,
    perColorChannelEdgeDetection: bool,
    mode: Mode)

  const DefaultGlobal := Global(30, true, true, false, Cross)

  lemma DefaultGlobalValues()
    ensures DefaultGlobal.pixelTolerance == 30
    ensures DefaultGlobal.continuousCapture && DefaultGlobal.drawFeetOnCross
    ensures !DefaultGlobal.perColorChannelEdgeDetection
    ensures DefaultGlobal.mode == Cross
  {
  }

  /** `pixelTolerance` is a byte, so every configuration keeps it within 0..255. */
  lemma PixelToleranceIsAByte(g: Global)
    ensures 0 <= g.pixelTolerance as int <= 255
  {
  }

  /** Every mode is one of the three the tool knows. */
  lemma ModeHasThreeValues(m: Mode)
    ensures m == Horizontal || m == Vertical || m == Cross
  {
  }

  /**
   * The per-screen edge state. The captured texture and the bitmap converted
   * from it are GPU resources and are not modelled.
   */
  datatype MeasurePerScreen = MeasurePerScreen(cursorInLeftScreenHalf: bool, cursorInTopScreenHalf: bool, measuredEdges: Rect)

  const FreshMeasurePerScreen := MeasurePerScreen(false, false, ZeroRect)

  lemma FreshMeasurePerScreenIsZero()
    ensures !FreshMeasurePerScreen.cursorInLeftScreenHalf && !FreshMeasurePerScreen.cursorInTopScreenHalf
    ensures FreshMeasurePerScreen.measuredEdges.left == 0 && FreshMeasurePerScreen.measuredEdges.top == 0
    ensures FreshMeasurePerScreen.measuredEdges.right == 0 && FreshMeasurePerScreen.measuredEdges.bottom == 0
  {
  }

  /** As for the bounds tool, `attachedToCommon` stands for the `commonState` back-pointer. */
  datatype MeasureToolState = MeasureToolState(global: Global, perScreen: map<WindowHandle, MeasurePerScreen>, attachedToCommon: bool)

  const DefaultMeasureToolState := MeasureToolState(DefaultGlobal, map[], false)
}
