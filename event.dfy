/** The event dispatcher of src/event/event.c.  X queries the handler makes
    (`XQueryPointer`, `XGetWindowAttributes`, `XGetInputFocus`, `is_dialog`)
    arrive as fields of the event; X requests leave as a list of `Command`s.
    `Step` states what one call of `mocha_handle_event` does to the world
    (client list, state table, drag state); the methods below do it in place
    on the registry and the drag-state object, and are proved to agree. */
module Event {
  import opened XServer
  import opened Client
  import ConfigFile

  const BUTTON1: nat := 1
  const BUTTON3: nat := 3

  /** The smallest width or height an interactive resize produces. */
  const MIN_RESIZE: int := 50

  /** `struct DragState`, as a value. */
  datatype Drag = Drag(
    active: Window, startX: int, startY: int,
    winX: int, winY: int, winW: int, winH: int,
    dragging: bool, resizing: bool)

  /** `struct DragState drag_state = {0}`. */
  const INITIAL_DRAG: Drag := Drag(NONE, 0, 0, 0, 0, 0, 0, false, false)

  /** Result of `XQueryPointer` on the root: failure, or the child under the pointer. */
  datatype PointerQuery = QueryFailed | PointerOver(child: Window)

  /** The keysyms the handler distinguishes (`XLookupKeysym(&event.xkey, 0)`). */
  datatype Key =
    | Key0 | KeyQ | KeyC | KeyZ | KeyF | KeyX | KeyM
    | AudioRaiseVolume | AudioLowerVolume | AudioMute
    | OtherKey(sym: nat)

  /** The events `mocha_handle_event` reacts to, each with the answers to the
      queries its case makes; `alt` is `state & Mod1Mask`. */
  datatype Event =
    | ButtonPress(window: Window, x: int, y: int, xRoot: int, yRoot: int,
                  button: nat, alt: bool, pointer: PointerQuery, childGeom: Geometry)
    | ButtonRelease
    | MotionNotify(xRoot: int, yRoot: int)
    | KeyPress(key: Key, alt: bool, focused: Window, pointer: PointerQuery, targetGeom: Geometry)
    | MapRequest(window: Window, isDialog: bool)
    | ConfigureRequest(window: Window, x: int, y: int, width: int, height: int,
                       above: Window, detail: int, valueMask: bv64)
    | EnterNotify(window: Window)
    | LeaveNotify(window: Window)
    | DestroyNotify(window: Window)
    | OtherEvent

  /** What the handler reads besides the event: the root and taskbar windows,
      the display size, the tiling area and `tiling_enabled`. */
  datatype Env = Env(root: Window, taskbar: Window, screenW: int, screenH: int,
                     area: TileArea, tiling: bool)

  /** Everything `mocha_handle_event` can change: the client list, the state table, the drag state. */
  datatype World = World(clients: seq<Window>, states: seq<ClientState>, drag: Drag)

  ghost predicate WorldValid(w: World)
  {
    |w.clients| <= MAX_CLIENTS && |w.states| == MAX_CLIENTS
  }

  /** The world of a freshly started window manager. */
  function InitialWorld(): (w: World)
    ensures WorldValid(w)
  {
    World([], seq(MAX_CLIENTS, _ => INITIAL_STATE), INITIAL_DRAG)
  }

  function StateOf(w: World, v: Window): ClientState
    requires WorldValid(w)
  {
    w.states[Slot(v)]
  }

  function WithState(w: World, v: Window, st: ClientState): (r: World)
    requires WorldValid(w)
    ensures WorldValid(r)
  {
    w.(states := w.states[Slot(v) := st])
  }

  // ---------------------------------------------------------------- window operations

  /** `minimize_window(w)`: unmap and flag, only when not already minimized. */
  function MinimizeStep(st: ClientState, w: Window): (ClientState, seq<Command>)
  {
    if !st.isMinimized then (st.(isMinimized := true), [UnmapWindow(w)]) else (st, [])
  }

  /** `restore_window(w)`: map, raise, focus and clear the flag, only when minimized. */
  function RestoreStep(st: ClientState, w: Window): (ClientState, seq<Command>)
  {
    if st.isMinimized then (st.(isMinimized := false), [MapWindow(w), RaiseWindow(w), SetInputFocus(w)])
    else (st, [])
  }

  /** The geometry part of `toggle_maximize_window(w)`: leaving fullscreen moves
      back to the saved geometry; entering it saves `current` (the window's
      attributes) and covers the screen less the border on each side. */
  function ToggleStep(st: ClientState, w: Window, current: Geometry, screenW: int, screenH: int)
    : (ClientState, Command)
  {
    var b := ConfigFile.BORDER_WIDTH;
    if st.isFullscreen then
      (st.(isFullscreen := false), MoveResizeWindow(w, st.saved))
    else
      (st.(saved := current, isFullscreen := true),
       MoveResizeWindow(w, Geometry(0, 0, screenW - 2 * b, screenH - 2 * b)))
  }

  /** `update_window_borders(focused)`: one border colour per client, in registry order. */
  function Borders(s: seq<Window>, focused: Window): seq<Command>
  {
    seq(|s|, i requires 0 <= i < |s| =>
      SetBorderColor(s[i], if s[i] == focused then FocusColor else NormalColor))
  }

  // ---------------------------------------------------------------- pointer interaction

  /** The new drag state after a ButtonPress (`managed` is `is_managed_client(child)`). */
  function PressDrag(d: Drag, ev: Event, managed: bool, tiling: bool): Drag
    requires ev.ButtonPress?
  {
    match ev.pointer
    case QueryFailed => d
    case PointerOver(child) =>
      if child != NONE && managed then
        var a := d.(active := child, startX := ev.xRoot, startY := ev.yRoot,
                    winX := ev.childGeom.x, winY := ev.childGeom.y,
                    winW := ev.childGeom.width, winH := ev.childGeom.height);
        if tiling then
          if ev.alt && ev.button == BUTTON1 then a.(dragging := true)
          else if ev.button == BUTTON3 then a.(resizing := true)
          else a
        else
          if ev.button == BUTTON1 then a.(dragging := true)
          else if ev.button == BUTTON3 then a.(resizing := true)
          else a
      else d.(active := NONE)
  }

  /** A press on the taskbar goes to the dock's click handler; every press is replayed. */
  function PressCommands(ev: Event, env: Env): seq<Command>
    requires ev.ButtonPress?
  {
    (if ev.window == env.taskbar then [DockClick(ev.x, ev.y)] else []) + [ReplayPointer]
  }

  /** `d > 50 ? d : 50`. */
  function Clamp(v: int): (r: int)
    ensures r >= MIN_RESIZE
    ensures v > MIN_RESIZE ==> r == v
    ensures v <= MIN_RESIZE ==> r == MIN_RESIZE
  {
    if v > MIN_RESIZE then v else MIN_RESIZE
  }

  /** The requests of a MotionNotify (`managed` is `is_managed_client(active_window)`). */
  function MotionCommands(d: Drag, managed: bool, xRoot: int, yRoot: int): seq<Command>
  {
    if d.active != NONE && managed then
      var dx := xRoot - d.startX;
      var dy := yRoot - d.startY;
      if d.dragging then [MoveWindow(d.active, d.winX + dx, d.winY + dy)]
      else if d.resizing then [ResizeWindow(d.active, Clamp(d.winW + dx), Clamp(d.winH + dy))]
      else []
    else []
  }

  // ---------------------------------------------------------------- keyboard

  /** The window a shortcut acts on: the child under the pointer, or the
      focused window when the query fails or finds None or the root. */
  function KeyTarget(pointer: PointerQuery, root: Window, focused: Window): Window
  {
    match pointer
    case QueryFailed => focused
    case PointerOver(c) => if c == NONE || c == root then focused else c
  }

  datatype KeyAction =
    | DoShutdown
    | DoSpawn(cmd: string)
    | DoLaunchMenu
    | DoMaximize(w: Window)
    | DoDestroy(w: Window)
    | DoMinimize(w: Window)
    | DoVolume(cmd: string)
    | NoAction

  const RAISE_VOLUME_CMD: string := "amixer set Master 5%+ || pactl set-sink-volume @DEFAULT_SINK@ +5% > /dev/null"
  const LOWER_VOLUME_CMD: string := "amixer set Master 5%- || pactl set-sink-volume @DEFAULT_SINK@ -5% > /dev/null"
  const MUTE_CMD: string := "amixer set Master toggle || pactl set-sink-mute @DEFAULT_SINK@ toggle > /dev/null"

  /** The if-else chain of the KeyPress case: the first matching branch wins. */
  function KeyActionFor(alt: bool, key: Key, target: Window): KeyAction
  {
    var usable := target != NONE && target != POINTER_ROOT;
    if alt && key == Key0 then DoShutdown
    else if alt && key == KeyQ then DoSpawn("ghostty &")
    else if alt && key == KeyC then DoSpawn("chromium &")
    else if alt && key == KeyZ then DoLaunchMenu
    else if alt && key == KeyF && usable then DoMaximize(target)
    else if alt && key == KeyX && usable then DoDestroy(target)
    else if alt && key == KeyM && usable then DoMinimize(target)
    else if key == AudioRaiseVolume then DoVolume(RAISE_VOLUME_CMD)
    else if key == AudioLowerVolume then DoVolume(LOWER_VOLUME_CMD)
    else if key == AudioMute then DoVolume(MUTE_CMD)
    else NoAction
  }

  function KeyStep(w: World, ev: Event, env: Env): (r: (World, seq<Command>))
    requires WorldValid(w) && ev.KeyPress?
    ensures WorldValid(r.0)
  {
    match KeyActionFor(ev.alt, ev.key, KeyTarget(ev.pointer, env.root, ev.focused))
    case DoShutdown => (w, [Shutdown])
    case DoSpawn(cmd) => (w, [Spawn(cmd)])
    case DoLaunchMenu => (w, [LaunchMenu])
    case DoMaximize(v) =>
      var r := ToggleStep(StateOf(w, v), v, ev.targetGeom, env.screenW, env.screenH);
      (WithState(w, v, r.0), [r.1] + Borders(w.clients, v))
    case DoDestroy(v) => (w, [DestroyWindow(v)])
    case DoMinimize(v) =>
      var r := MinimizeStep(StateOf(w, v), v);
      (WithState(w, v, r.0), r.1)
    case DoVolume(cmd) => (w, [Spawn(cmd), VolumeToast])
    case NoAction => (w, [])
  }

  // ---------------------------------------------------------------- window lifecycle

  /** The requests of the tiling pass, when tiling is enabled. */
  function Retile(s: seq<Window>, env: Env): seq<Command>
  {
    if env.tiling then TileLayout(s, env.area) else []
  }

  /** MapRequest: a dialog is replaced by a file manager and destroyed; any
      other window is registered, bordered, tiled, mapped and focused. */
  function MapStep(w: World, win: Window, isDialog: bool, env: Env): (r: (World, seq<Command>))
    requires WorldValid(w)
    ensures WorldValid(r.0)
  {
    if isDialog then (w, [Spawn("thunar &"), DestroyWindow(win)])
    else
      var s := AddClient(w.clients, win);
      (w.(clients := s),
       [SetBorderWidth(win, ConfigFile.BORDER_WIDTH), SetBorderColor(win, NormalColor)]
       + Retile(s, env)
       + [MapWindow(win), SetInputFocus(win), SetBorderColor(win, FocusColor), UpdateDockIcons])
  }

  /** ConfigureRequest: the client's geometry and stacking, but always our border width. */
  function ConfigureCommand(ev: Event): Command
    requires ev.ConfigureRequest?
  {
    ConfigureWindow(ev.window, ev.valueMask | CW_BORDER_WIDTH,
                    WindowChanges(ev.x, ev.y, ev.width, ev.height,
                                  ConfigFile.BORDER_WIDTH, ev.above, ev.detail))
  }

  /** DestroyNotify: drop the window from the registry, retile, repaint the taskbar. */
  function DestroyStep(w: World, win: Window, env: Env): (r: (World, seq<Command>))
    requires WorldValid(w)
    ensures WorldValid(r.0)
  {
    RemoveFirstMultiset(w.clients, win);
    var s := RemoveFirst(w.clients, win);
    (w.(clients := s), Retile(s, env) + [RepaintTaskbar, UpdateDockIcons])
  }

  /** One call of `mocha_handle_event`. */
  function Step(w: World, ev: Event, env: Env): (r: (World, seq<Command>))
    requires WorldValid(w)
    ensures WorldValid(r.0)
  {
    match ev
    case ButtonPress(_, _, _, _, _, _, _, pointer, _) =>
      var managed := pointer.PointerOver? && pointer.child in w.clients;
      (w.(drag := PressDrag(w.drag, ev, managed, env.tiling)), PressCommands(ev, env))
    case ButtonRelease => (w.(drag := w.drag.(dragging := false, resizing := false)), [])
    case MotionNotify(x, y) => (w, MotionCommands(w.drag, w.drag.active in w.clients, x, y))
    case KeyPress(_, _, _, _, _) => KeyStep(w, ev, env)
    case MapRequest(win, isDialog) => MapStep(w, win, isDialog, env)
    case ConfigureRequest(_, _, _, _, _, _, _, _) => (w, [ConfigureCommand(ev)])
    case EnterNotify(win) => (w, [SetInputFocus(win)] + Borders(w.clients, win))
    case LeaveNotify(_) => (w, Borders(w.clients, NONE))
    case DestroyNotify(win) => DestroyStep(w, win, env)
    case OtherEvent => (w, [])
  }

  // ---------------------------------------------------------------- in place

  /** `struct DragState`, updated through the pointer the event loop passes. */
  class DragState {
    var activeWindow: Window
    var startX: int
    var startY: int
    var winX: int
    var winY: int
    var winW: int
    var winH: int
    var dragging: bool
    var resizing: bool

    function Value(): Drag
      reads this
    {
      Drag(activeWindow, startX, startY, winX, winY, winW, winH, dragging, resizing)
    }

    constructor ()
      ensures Value() == INITIAL_DRAG
    {
      activeWindow := NONE;
      startX, startY := 0, 0;
      winX, winY, winW, winH := 0, 0, 0, 0;
      dragging, resizing := false, false;
    }
  }

  /** The world as the registry and the drag-state object hold it. */
  ghost function Snapshot(reg: Registry, drag: DragState): World
    reads reg, reg.clients, reg.states, drag
    requires reg.Valid()
  {
    World(reg.Managed(), reg.states[..], drag.Value())
  }

  /** `update_window_borders(focused)`. */
  method UpdateWindowBorders(reg: Registry, focused: Window) returns (cmds: seq<Command>)
    requires reg.Valid()
    ensures cmds == Borders(reg.Managed(), focused)
  {
    cmds := [];
    var i := 0;
    while i < reg.count
      invariant i <= reg.count
      invariant |cmds| == i
      invariant forall k :: 0 <= k < i ==>
        cmds[k] == SetBorderColor(reg.clients[k], if reg.clients[k] == focused then FocusColor else NormalColor)
    {
      var w := reg.clients[i];
      if w == focused {
        cmds := cmds + [SetBorderColor(w, FocusColor)];
      } else {
        cmds := cmds + [SetBorderColor(w, NormalColor)];
      }
      i := i + 1;
    }
  }

  /** `minimize_window(w)`. */
  method MinimizeWindow(reg: Registry, w: Window) returns (cmds: seq<Command>)
    requires reg.Valid()
    modifies reg.states
    ensures reg.states[..] == old(reg.states[..])[Slot(w) := MinimizeStep(old(reg.State(w)), w).0]
    ensures cmds == MinimizeStep(old(reg.State(w)), w).1
  {
    var state := reg.State(w);
    cmds := [];
    if !state.isMinimized {
      cmds := [UnmapWindow(w)];
      state := state.(isMinimized := true);
    }
    reg.SetState(w, state);
  }

  /** `restore_window(w)`. */
  method RestoreWindow(reg: Registry, w: Window) returns (cmds: seq<Command>)
    requires reg.Valid()
    modifies reg.states
    ensures reg.states[..] == old(reg.states[..])[Slot(w) := RestoreStep(old(reg.State(w)), w).0]
    ensures cmds == RestoreStep(old(reg.State(w)), w).1
  {
    var state := reg.State(w);
    cmds := [];
    if state.isMinimized {
      cmds := [MapWindow(w), RaiseWindow(w), SetInputFocus(w)];
      state := state.(isMinimized := false);
    }
    reg.SetState(w, state);
  }

  /** `toggle_maximize_window(w)`; `attr` is what `XGetWindowAttributes(w)` reports. */
  method ToggleMaximizeWindow(reg: Registry, w: Window, attr: Geometry, screenW: int, screenH: int)
    returns (cmds: seq<Command>)
    requires reg.Valid()
    modifies reg.states
    ensures reg.states[..]
         == old(reg.states[..])[Slot(w) := ToggleStep(old(reg.State(w)), w, attr, screenW, screenH).0]
    ensures cmds == [ToggleStep(old(reg.State(w)), w, attr, screenW, screenH).1] + Borders(reg.Managed(), w)
  {
    var state := reg.State(w);
    var border := ConfigFile.BORDER_WIDTH;
    var c: Command;
    if state.isFullscreen {
      c := MoveResizeWindow(w, state.saved);
      state := state.(isFullscreen := false);
    } else {
      state := state.(saved := attr);
      c := MoveResizeWindow(w, Geometry(0, 0, screenW - 2 * border, screenH - 2 * border));
      state := state.(isFullscreen := true);
    }
    reg.SetState(w, state);
    var borders := UpdateWindowBorders(reg, w);
    cmds := [c] + borders;
  }

  method HandleButtonPress(reg: Registry, drag: DragState, ev: Event, env: Env) returns (cmds: seq<Command>)
    requires reg.Valid() && ev.ButtonPress?
    modifies drag
    ensures Snapshot(reg, drag) == Step(old(Snapshot(reg, drag)), ev, env).0
    ensures cmds == Step(old(Snapshot(reg, drag)), ev, env).1
  {
    if ev.pointer.PointerOver? {
      var child := ev.pointer.child;
      var managed := false;
      if child != NONE {
        managed := reg.IsManaged(child);
      }
      if child != NONE && managed {
        drag.activeWindow := child;
        drag.startX := ev.xRoot;
        drag.startY := ev.yRoot;
        drag.winX := ev.childGeom.x;
        drag.winY := ev.childGeom.y;
        drag.winW := ev.childGeom.width;
        drag.winH := ev.childGeom.height;
        if env.tiling {
          if ev.alt && ev.button == BUTTON1 {
            drag.dragging := true;
          } else if ev.button == BUTTON3 {
            drag.resizing := true;
          }
        } else {
          if ev.button == BUTTON1 {
            drag.dragging := true;
          } else if ev.button == BUTTON3 {
            drag.resizing := true;
          }
        }
      } else {
        drag.activeWindow := NONE;
      }
    }
    cmds := [];
    if ev.window == env.taskbar {
      cmds := [DockClick(ev.x, ev.y)];
    }
    cmds := cmds + [ReplayPointer];
  }

  method HandleMotion(reg: Registry, drag: DragState, ev: Event) returns (cmds: seq<Command>)
    requires reg.Valid() && ev.MotionNotify?
    ensures cmds == MotionCommands(drag.Value(), drag.activeWindow in reg.Managed(), ev.xRoot, ev.yRoot)
  {
    cmds := [];
    if drag.activeWindow != NONE {
      var managed := reg.IsManaged(drag.activeWindow);
      if managed {
        var dx := ev.xRoot - drag.startX;
        var dy := ev.yRoot - drag.startY;
        if drag.dragging {
          cmds := [MoveWindow(drag.activeWindow, drag.winX + dx, drag.winY + dy)];
        } else if drag.resizing {
          var newWidth := if drag.winW + dx > 50 then drag.winW + dx else 50;
          var newHeight := if drag.winH + dy > 50 then drag.winH + dy else 50;
          cmds := [ResizeWindow(drag.activeWindow, newWidth, newHeight)];
        }
      }
    }
  }

  method HandleKeyPress(reg: Registry, drag: DragState, ev: Event, env: Env) returns (cmds: seq<Command>)
    requires reg.Valid() && ev.KeyPress?
    modifies reg.states
    ensures reg.Valid()
    ensures Snapshot(reg, drag) == KeyStep(old(Snapshot(reg, drag)), ev, env).0
    ensures cmds == KeyStep(old(Snapshot(reg, drag)), ev, env).1
  {
    var target := KeyTarget(ev.pointer, env.root, ev.focused);
    match KeyActionFor(ev.alt, ev.key, target)
    case DoShutdown => cmds := [Shutdown];
    case DoSpawn(cmd) => cmds := [Spawn(cmd)];
    case DoLaunchMenu => cmds := [LaunchMenu];
    case DoMaximize(v) => cmds := ToggleMaximizeWindow(reg, v, ev.targetGeom, env.screenW, env.screenH);
    case DoDestroy(v) => cmds := [DestroyWindow(v)];
    case DoMinimize(v) => cmds := MinimizeWindow(reg, v);
    case DoVolume(cmd) => cmds := [Spawn(cmd), VolumeToast];
    case NoAction => cmds := [];
  }

  method HandleMapRequest(reg: Registry, drag: DragState, ev: Event, env: Env) returns (cmds: seq<Command>)
    requires reg.Valid() && ev.MapRequest?
    modifies reg, reg.clients
    ensures reg.Valid()
    ensures Snapshot(reg, drag) == Step(old(Snapshot(reg, drag)), ev, env).0
    ensures cmds == Step(old(Snapshot(reg, drag)), ev, env).1
  {
    var w := ev.window;
    if ev.isDialog {
      cmds := [Spawn("thunar &"), DestroyWindow(w)];
      return;
    }
    reg.Add(w);
    cmds := [SetBorderWidth(w, ConfigFile.BORDER_WIDTH), SetBorderColor(w, NormalColor)];
    if env.tiling {
      var tiles := reg.Tile(env.area);
      cmds := cmds + tiles;
    }
    cmds := cmds + [MapWindow(w), SetInputFocus(w), SetBorderColor(w, FocusColor), UpdateDockIcons];
  }

  method HandleDestroyNotify(reg: Registry, drag: DragState, ev: Event, env: Env) returns (cmds: seq<Command>)
    requires reg.Valid() && ev.DestroyNotify?
    modifies reg, reg.clients
    ensures reg.Valid()
    ensures Snapshot(reg, drag) == Step(old(Snapshot(reg, drag)), ev, env).0
    ensures cmds == Step(old(Snapshot(reg, drag)), ev, env).1
  {
    reg.Remove(ev.window);
    cmds := [];
    if env.tiling {
      cmds := reg.Tile(env.area);
    }
    cmds := cmds + [RepaintTaskbar, UpdateDockIcons];
  }

  /** `mocha_handle_event(event, taskbar, drag_state, taskbar_height, tiling_enabled)`. */
  method HandleEvent(reg: Registry, drag: DragState, ev: Event, env: Env) returns (cmds: seq<Command>)
    requires reg.Valid()
    modifies reg, reg.clients, reg.states, drag
    ensures reg.Valid()
    ensures Snapshot(reg, drag) == Step(old(Snapshot(reg, drag)), ev, env).0
    ensures cmds == Step(old(Snapshot(reg, drag)), ev, env).1
  {
    match ev
    case ButtonPress(_, _, _, _, _, _, _, _, _) =>
      cmds := HandleButtonPress(reg, drag, ev, env);
    case ButtonRelease =>
      drag.dragging := false;
      drag.resizing := false;
      cmds := [];
    case MotionNotify(_, _) =>
      cmds := HandleMotion(reg, drag, ev);
    case KeyPress(_, _, _, _, _) =>
      cmds := HandleKeyPress(reg, drag, ev, env);
    case MapRequest(_, _) =>
      cmds := HandleMapRequest(reg, drag, ev, env);
    case ConfigureRequest(_, _, _, _, _, _, _, _) =>
      cmds := [ConfigureWindow(ev.window, ev.valueMask | CW_BORDER_WIDTH,
                               WindowChanges(ev.x, ev.y, ev.width, ev.height,
                                             ConfigFile.BORDER_WIDTH, ev.above, ev.detail))];
    case EnterNotify(win) =>
      var borders := UpdateWindowBorders(reg, win);
      cmds := [SetInputFocus(win)] + borders;
    case LeaveNotify(_) =>
      cmds := UpdateWindowBorders(reg, NONE);
    case DestroyNotify(_) =>
      cmds := HandleDestroyNotify(reg, drag, ev, env);
    case OtherEvent =>
      cmds := [];
  }
}
