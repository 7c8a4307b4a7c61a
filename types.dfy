// Entities shared by the extension's runtime: settings records, geometry,
// and the compositor's view of a window (utils/types.ts, utils/constants.ts).
module Types {
  import opened Wrappers

  /** Identity of a Meta.WindowActor (and of the Meta.Window it shows). */
  type ActorId = nat

  datatype Padding = Padding(left: real, right: real, top: real, bottom: real)
  datatype KeepRoundedCorners = KeepRoundedCorners(maximized: bool, fullscreen: bool)
  /** RGBA border colour, each channel in [0, 1]. */
  datatype Color = Color(r: real, g: real, b: real, a: real)

  datatype RoundedCornerSettings = RoundedCornerSettings(
    keepRoundedCorners: KeepRoundedCorners,
    borderRadius: real,
    smoothing: real,
    padding: Padding,
    borderColor: Color,
    enabled: bool)

  datatype BoxShadow = BoxShadow(
    opacity: real,
    spreadRadius: real,
    blurOffset: real,
    verticalOffset: real,
    horizontalOffset: real)

  /** Corner bounds of the area to round: (x1, y1) top left, (x2, y2) bottom right. */
  datatype Bounds = Bounds(x1: real, y1: real, x2: real, y2: real)

  /** A Mtk/Meta rectangle. */
  datatype Rect = Rect(x: real, y: real, width: real, height: real)

  /** A four-number tuple [x, y, width, height] of offsets. */
  datatype Quad = Quad(x: real, y: real, width: real, height: real)

  datatype AppType = LibAdwaita | LibHandy | Other

  /** Meta.WindowType. */
  datatype WindowType =
    | Normal | Desktop | Dock | Dialog | ModalDialog | Toolbar | Menu | Utility
    | Splashscreen | DropdownMenu | PopupMenu | Tooltip | Notification | Combo
    | Dnd | OverrideOther

  /** Meta.WindowClientType. */
  datatype ClientType = Wayland | X11

  /** The compositor's view of one Meta.Window. */
  datatype MetaWindow = MetaWindow(
    gtkApplicationId: Option<string>,
    wmClassInstance: Option<string>,
    windowType: WindowType,
    maximizedHorizontally: bool,
    maximizedVertically: bool,
    fullscreen: bool,
    clientType: ClientType,
    appearsFocused: bool,
    monitor: int,
    /** Contents of /proc/<pid>/maps; None when reading it fails. */
    maps: Option<string>,
    frameRect: Rect,
    bufferRect: Rect)

  /** A Meta.WindowActor: its window and its own allocation. */
  datatype WindowActor = WindowActor(
    win: MetaWindow,
    x: real,
    y: real,
    width: real,
    height: real,
    visible: bool)

  /**
   * Display state the scale factor depends on: whether mutter runs as a
   * Wayland compositor, whether 'scale-monitor-framebuffer' is among its
   * experimental features, the scale of each monitor and the current monitor.
   */
  datatype Display = Display(
    isWayland: bool,
    scaleMonitorFramebuffer: bool,
    monitorScale: int -> real,
    currentMonitor: int,
    /** Scale factor of the St theme context of the stage. */
    themeScale: real)

  /** The preferences the runtime reads, as a record. */
  datatype Prefs = Prefs(
    blacklist: seq<string>,
    whitelist: bool,
    skipLibadwaitaApp: bool,
    skipLibhandyApp: bool,
    tweakKittyTerminal: bool,
    borderWidth: real,
    global: RoundedCornerSettings,
    custom: map<string, RoundedCornerSettings>,
    focusedShadow: BoxShadow,
    unfocusedShadow: BoxShadow)

  /** Padding, in logical pixels, around a window's shadow actor. */
  const SHADOW_PADDING: real := 80.0

  /** Extra clipping for kitty's self-drawn shadow: [x1, y1, x2, y2]. */
  const KITTY_SHADOW: Bounds := Bounds(11.0, 35.0, 11.0, 11.0)

  /** Application id of the Desktop Icons NG window. */
  const DING_APP_ID: string := "com.rastersoft.ding"

  const ROUNDED_CORNERS_EFFECT: string := "Rounded Corners Effect"
  const CLIP_SHADOW_EFFECT: string := "Clip Shadow Effect"

  /** JavaScript line terminators: what `.` in a regular expression does not match. */
  predicate IsLineTerminator(c: char)
  {
    c == '\n' || c == '\r' || c == '\U{2028}' || c == '\U{2029}'
  }

  /** Whether t occurs in s as a contiguous substring (String.prototype.includes). */
  predicate Contains(s: string, t: string)
  {
    exists i | 0 <= i <= |s| - |t| :: OccursAt(s, t, i)
  }

  /** t occurs in s starting at index i. */
  predicate OccursAt(s: string, t: string, i: int)
  {
    0 <= i <= |s| - |t| && s[i..i + |t|] == t
  }
}
