/** The display-server collaborator, reduced to what the window manager core
    sees of it: window identifiers, rectangles, and the requests the core
    sends.  Every Xlib call the core makes becomes one `Command` in an output
    list, in the order the C code issues it, so each event handler is a
    sequential function from (state, event) to (state, commands). */
module XServer {

  /** An X resource identifier (an `XID`, an unsigned long). */
  type Window = nat

  /** `None` in X11. */
  const NONE: Window := 0

  /** `PointerRoot` in X11 (the value 1L in X.h). */
  const POINTER_ROOT: Window := 1

  /** `CWBorderWidth` bit of an `XWindowChanges` value mask (1 << 4 in X.h). */
  const CW_BORDER_WIDTH: bv64 := 16

  /** Position and size of a window, as in `XWindowAttributes`. */
  datatype Geometry = Geometry(x: int, y: int, width: int, height: int)

  /** The two border colours the core paints with: `border_color` and `focus_color`. */
  datatype BorderColor = NormalColor | FocusColor

  /** The fields of an `XWindowChanges` record that `ConfigureRequest` fills in. */
  datatype WindowChanges = WindowChanges(
    x: int, y: int, width: int, height: int,
    borderWidth: int, sibling: Window, stackMode: int)

  /** One request to the display server or to another collaborator. */
  datatype Command =
    | MoveWindow(w: Window, x: int, y: int)                          // XMoveWindow
    | ResizeWindow(w: Window, width: int, height: int)               // XResizeWindow
    | MoveResizeWindow(w: Window, g: Geometry)                       // XMoveResizeWindow
    | MapWindow(w: Window)                                           // XMapWindow
    | UnmapWindow(w: Window)                                         // XUnmapWindow
    | RaiseWindow(w: Window)                                         // XRaiseWindow
    | SetInputFocus(w: Window)                                       // XSetInputFocus
    | DestroyWindow(w: Window)                                       // XDestroyWindow
    | SetBorderWidth(w: Window, px: int)                             // XSetWindowBorderWidth
    | SetBorderColor(w: Window, color: BorderColor)                  // XSetWindowBorder
    | ConfigureWindow(w: Window, mask: bv64, changes: WindowChanges) // XConfigureWindow
    | ReplayPointer                                                  // XAllowEvents(ReplayPointer)
    | Spawn(cmd: string)                                             // system(cmd)
    | Shutdown                                                       // mocha_shutdown()
    | LaunchMenu                                                     // mocha_launch_menu()
    | VolumeToast                                                    // show_volume_toast()
    | DockClick(x: int, y: int)                                      // mocha_handle_dock_click(x, y)
    | RepaintTaskbar                                                 // XSendEvent(Expose) to the taskbar
    | UpdateDockIcons                                                // mocha_update_dock_icons()

  /** The window a geometry or stacking command is addressed to, if any. */
  predicate Targets(c: Command, w: Window)
  {
    match c
    case MoveWindow(v, _, _) => v == w
    case ResizeWindow(v, _, _) => v == w
    case MoveResizeWindow(v, _) => v == w
    case MapWindow(v) => v == w
    case UnmapWindow(v) => v == w
    case RaiseWindow(v) => v == w
    case SetInputFocus(v) => v == w
    case DestroyWindow(v) => v == w
    case SetBorderWidth(v, _) => v == w
    case SetBorderColor(v, _) => v == w
    case ConfigureWindow(v, _, _) => v == w
    case _ => false
  }
}
