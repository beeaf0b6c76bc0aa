/** Properties of the event dispatcher: single-event guarantees of each case of
    `mocha_handle_event`, and what sequences of events do to the world. */
module EventLemmas {
  import opened XServer
  import opened Client
  import opened Event
  import ConfigFile

  // ---------------------------------------------------------------- window operations

  /** A second minimize changes nothing and issues nothing. */
  lemma MinimizeIdempotent(st: ClientState, w: Window)
    ensures MinimizeStep(st, w).0.isMinimized
    ensures !st.isMinimized ==> MinimizeStep(st, w) == (st.(isMinimized := true), [UnmapWindow(w)])
    ensures st.isMinimized ==> MinimizeStep(st, w) == (st, [])
    ensures MinimizeStep(MinimizeStep(st, w).0, w) == (MinimizeStep(st, w).0, [])
  {
  }

  /** Restore undoes a minimize: the state is back and the window is mapped, raised, focused. */
  lemma RestoreUndoesMinimize(st: ClientState, w: Window)
    requires !st.isMinimized
    ensures RestoreStep(MinimizeStep(st, w).0, w) == (st, [MapWindow(w), RaiseWindow(w), SetInputFocus(w)])
    ensures RestoreStep(st, w) == (st, [])
  {
  }

  /** Two maximize toggles from the normal layout restore the geometry it had before. */
  lemma MaximizeRoundTrip(st: ClientState, w: Window, current: Geometry, later: Geometry, sw: int, sh: int)
    requires !st.isFullscreen
    ensures var b := ConfigFile.BORDER_WIDTH;
            var r1 := ToggleStep(st, w, current, sw, sh);
            var r2 := ToggleStep(r1.0, w, later, sw, sh);
            && r1.0.isFullscreen && r1.0.saved == current
            && r1.1 == MoveResizeWindow(w, Geometry(0, 0, sw - 2 * b, sh - 2 * b))
            && r2.1 == MoveResizeWindow(w, current)
            && r2.0 == st.(saved := current)
  {
  }

  /** The state table is shared between windows congruent modulo `MAX_CLIENTS`:
      minimizing `v` also marks `v + k * MAX_CLIENTS` as minimized. */
  lemma MinimizeAliases(w: World, ev: Event, env: Env, k: nat)
    requires WorldValid(w) && ev.KeyPress? && ev.alt && ev.key == KeyM
    requires ev.pointer.PointerOver? && ev.pointer.child > POINTER_ROOT
    requires ev.pointer.child != env.root
    ensures StateOf(Step(w, ev, env).0, ev.pointer.child + k * MAX_CLIENTS).isMinimized
  {
    SlotAliases(ev.pointer.child, k);
  }

  // ---------------------------------------------------------------- focus highlight

  /** The border pass colours every client, in order, and exactly the focused one with the focus colour. */
  lemma BordersHighlightExactlyFocused(s: seq<Window>, focused: Window)
    ensures |Borders(s, focused)| == |s|
    ensures forall i :: 0 <= i < |s| ==>
      Borders(s, focused)[i].SetBorderColor? && Borders(s, focused)[i].w == s[i] &&
      (Borders(s, focused)[i].color == FocusColor <==> s[i] == focused)
  {
  }

  /** LeaveNotify highlights no client (None is never a managed window). */
  lemma LeaveHighlightsNone(w: World, win: Window, env: Env)
    requires WorldValid(w) && NONE !in w.clients
    ensures Step(w, LeaveNotify(win), env).0 == w
    ensures forall c :: c in Step(w, LeaveNotify(win), env).1 ==> c.SetBorderColor? && c.color == NormalColor
  {
    var cmds := Step(w, LeaveNotify(win), env).1;
    forall c | c in cmds
      ensures c.SetBorderColor? && c.color == NormalColor
    {
      var i :| 0 <= i < |cmds| && cmds[i] == c;
      assert w.clients[i] != NONE;
    }
  }

  /** EnterNotify focuses the entered window, then highlights it alone. */
  lemma EnterFocusesEntered(w: World, win: Window, env: Env)
    requires WorldValid(w)
    ensures Step(w, EnterNotify(win), env).0 == w
    ensures Step(w, EnterNotify(win), env).1[0] == SetInputFocus(win)
    ensures Step(w, EnterNotify(win), env).1[1..] == Borders(w.clients, win)
  {
  }

  // ---------------------------------------------------------------- pointer interaction

  /** A press over a managed child anchors the drag at the pointer and the
      child's geometry and sets the mode from the button (and Alt when tiling). */
  lemma PressOverManaged(w: World, ev: Event, env: Env)
    requires WorldValid(w) && ev.ButtonPress?
    requires ev.pointer.PointerOver? && ev.pointer.child != NONE && ev.pointer.child in w.clients
    ensures var d := Step(w, ev, env).0.drag;
            && d.active == ev.pointer.child
            && d.startX == ev.xRoot && d.startY == ev.yRoot
            && d.winX == ev.childGeom.x && d.winY == ev.childGeom.y
            && d.winW == ev.childGeom.width && d.winH == ev.childGeom.height
    ensures var d := Step(w, ev, env).0.drag;
            var drags := if env.tiling then ev.alt && ev.button == BUTTON1 else ev.button == BUTTON1;
            && d.dragging == (w.drag.dragging || drags)
            && d.resizing == (w.drag.resizing || (!drags && ev.button == BUTTON3))
    ensures Step(w, ev, env).0.clients == w.clients && Step(w, ev, env).0.states == w.states
  {
  }

  /** A press anywhere else clears the active window and keeps everything else;
      a failed pointer query changes nothing. */
  lemma PressOverUnmanaged(w: World, ev: Event, env: Env)
    requires WorldValid(w) && ev.ButtonPress?
    ensures ev.pointer.QueryFailed? ==> Step(w, ev, env).0 == w
    ensures ev.pointer.PointerOver? && (ev.pointer.child == NONE || ev.pointer.child !in w.clients) ==>
              Step(w, ev, env).0 == w.(drag := w.drag.(active := NONE))
  {
  }

  /** Every press is replayed to the client; only a press on the taskbar reaches the dock. */
  lemma PressReplays(w: World, ev: Event, env: Env)
    requires WorldValid(w) && ev.ButtonPress?
    ensures var cmds := Step(w, ev, env).1;
            && |cmds| >= 1 && cmds[|cmds| - 1] == ReplayPointer
            && (DockClick(ev.x, ev.y) in cmds <==> ev.window == env.taskbar)
  {
  }

  /** After a release, motion issues no move and no resize. */
  lemma ReleaseStopsMotion(w: World, x: int, y: int, env: Env)
    requires WorldValid(w)
    ensures var w1 := Step(w, ButtonRelease, env).0;
            && !w1.drag.dragging && !w1.drag.resizing
            && w1.clients == w.clients && w1.states == w.states && w1.drag.active == w.drag.active
            && Step(w1, MotionNotify(x, y), env) == (w1, [])
  {
  }

  /** Motion changes no state, and acts only on a managed active window that is dragged or resized. */
  lemma MotionNeedsManagedActive(w: World, x: int, y: int, env: Env)
    requires WorldValid(w)
    ensures Step(w, MotionNotify(x, y), env).0 == w
    ensures var cmds := Step(w, MotionNotify(x, y), env).1;
            cmds != [] ==>
              && w.drag.active != NONE && w.drag.active in w.clients
              && (w.drag.dragging || w.drag.resizing)
              && |cmds| == 1 && Targets(cmds[0], w.drag.active)
  {
  }

  /** Dragging wins over resizing and moves by the pointer's offset from the anchor. */
  lemma DragMovesByDelta(w: World, x: int, y: int, env: Env)
    requires WorldValid(w) && w.drag.active != NONE && w.drag.active in w.clients && w.drag.dragging
    ensures Step(w, MotionNotify(x, y), env).1
         == [MoveWindow(w.drag.active, w.drag.winX + (x - w.drag.startX), w.drag.winY + (y - w.drag.startY))]
  {
  }

  /** Resizing grows each side by the pointer's offset, but never below 50. */
  lemma ResizeFloor(w: World, x: int, y: int, env: Env)
    requires WorldValid(w) && w.drag.active != NONE && w.drag.active in w.clients
    requires !w.drag.dragging && w.drag.resizing
    ensures var c := Step(w, MotionNotify(x, y), env).1;
            var dw := w.drag.winW + (x - w.drag.startX);
            var dh := w.drag.winH + (y - w.drag.startY);
            && |c| == 1 && c[0].ResizeWindow? && c[0].w == w.drag.active
            && c[0].width >= MIN_RESIZE && c[0].height >= MIN_RESIZE
            && (dw > MIN_RESIZE ==> c[0].width == dw) && (dw <= MIN_RESIZE ==> c[0].width == MIN_RESIZE)
            && (dh > MIN_RESIZE ==> c[0].height == dh) && (dh <= MIN_RESIZE ==> c[0].height == MIN_RESIZE)
  {
  }

  /** Destroying the window being dragged leaves the mode flags set, but later
      motion does nothing, since the window is no longer managed (when it was
      registered once). */
  lemma {:induction false} DestroyActiveStopsMotion(w: World, x: int, y: int, env: Env)
    requires WorldValid(w) && multiset(w.clients)[w.drag.active] <= 1
    ensures var w1 := Step(w, DestroyNotify(w.drag.active), env).0;
            && w1.drag == w.drag
            && Step(w1, MotionNotify(x, y), env).1 == []
  {
    RemoveFirstMembership(w.clients, w.drag.active);
  }

  /** A window registered twice is still managed after one DestroyNotify, so dragging continues. */
  lemma {:induction false} DuplicateActiveSurvivesDestroy(w: World, x: int, y: int, env: Env)
    requires WorldValid(w) && multiset(w.clients)[w.drag.active] >= 2
    requires w.drag.active != NONE && w.drag.dragging
    ensures var w1 := Step(w, DestroyNotify(w.drag.active), env).0;
            var d := w.drag;
            Step(w1, MotionNotify(x, y), env).1 == [MoveWindow(d.active, d.winX + (x - d.startX), d.winY + (y - d.startY))]
  {
    RemoveFirstMembership(w.clients, w.drag.active);
  }

  // ---------------------------------------------------------------- keyboard

  /** The shortcut target is the child under the pointer unless the query failed
      or found None or the root, in which case it is the focused window. */
  lemma KeyTargetChoice(pointer: PointerQuery, root: Window, focused: Window)
    ensures var t := KeyTarget(pointer, root, focused);
            if pointer.PointerOver? && pointer.child != NONE && pointer.child != root
            then t == pointer.child else t == focused
  {
  }

  /** Maximize, destroy and minimize fire exactly for Alt with their key and a
      target that is neither None nor PointerRoot. */
  lemma WindowShortcuts(alt: bool, key: Key, t: Window)
    ensures var usable := t != NONE && t != POINTER_ROOT;
            && (KeyActionFor(alt, key, t).DoMaximize? <==> alt && key == KeyF && usable)
            && (KeyActionFor(alt, key, t).DoDestroy? <==> alt && key == KeyX && usable)
            && (KeyActionFor(alt, key, t).DoMinimize? <==> alt && key == KeyM && usable)
    ensures KeyActionFor(alt, key, t).DoMaximize? ==> KeyActionFor(alt, key, t).w == t
    ensures KeyActionFor(alt, key, t).DoDestroy? ==> KeyActionFor(alt, key, t).w == t
    ensures KeyActionFor(alt, key, t).DoMinimize? ==> KeyActionFor(alt, key, t).w == t
  {
  }

  /** Alt shortcuts without a usable target fall through to nothing; keys
      without Alt do nothing except the three volume keys, which work either way. */
  lemma UnboundKeysDoNothing(alt: bool, key: Key, t: Window)
    ensures (key == KeyF || key == KeyX || key == KeyM) && (t == NONE || t == POINTER_ROOT) ==>
              KeyActionFor(alt, key, t) == NoAction
    ensures !alt && key != AudioRaiseVolume && key != AudioLowerVolume && key != AudioMute ==>
              KeyActionFor(alt, key, t) == NoAction
    ensures key == AudioRaiseVolume ==> KeyActionFor(alt, key, t) == DoVolume(RAISE_VOLUME_CMD)
    ensures key == AudioLowerVolume ==> KeyActionFor(alt, key, t) == DoVolume(LOWER_VOLUME_CMD)
    ensures key == AudioMute ==> KeyActionFor(alt, key, t) == DoVolume(MUTE_CMD)
  {
  }

  /** Alt+F twice on the same window brings it back to the geometry it had. */
  lemma MaximizeTwiceRestores(w: World, ev1: Event, ev2: Event, env: Env)
    requires WorldValid(w)
    requires ev1.KeyPress? && ev1.alt && ev1.key == KeyF
    requires ev2.KeyPress? && ev2.alt && ev2.key == KeyF
    requires ev1.pointer.PointerOver? && ev1.pointer.child > POINTER_ROOT && ev1.pointer.child != env.root
    requires ev2.pointer == ev1.pointer
    requires !StateOf(w, ev1.pointer.child).isFullscreen
    ensures var v := ev1.pointer.child;
            var r1 := Step(w, ev1, env);
            var r2 := Step(r1.0, ev2, env);
            && StateOf(r1.0, v).isFullscreen
            && r2.1[0] == MoveResizeWindow(v, ev1.targetGeom)
            && r2.0 == w.(states := w.states[Slot(v) := StateOf(w, v).(saved := ev1.targetGeom)])
  {
  }

  // ---------------------------------------------------------------- lifecycle

  /** A dialog is replaced by a file manager and destroyed; nothing is registered. */
  lemma DialogNeverRegistered(w: World, win: Window, env: Env)
    requires WorldValid(w)
    ensures Step(w, MapRequest(win, true), env) == (w, [Spawn("thunar &"), DestroyWindow(win)])
  {
  }

  /** Any other window is appended to the registry (when there is room), gets
      the border width and the normal colour, is retiled with the others when
      tiling, then mapped, focused and highlighted. */
  lemma MapAdmits(w: World, win: Window, env: Env)
    requires WorldValid(w)
    ensures var r := Step(w, MapRequest(win, false), env);
            && r.0 == w.(clients := AddClient(w.clients, win))
            && r.1 == [SetBorderWidth(win, ConfigFile.BORDER_WIDTH), SetBorderColor(win, NormalColor)]
                      + Retile(r.0.clients, env)
                      + [MapWindow(win), SetInputFocus(win), SetBorderColor(win, FocusColor), UpdateDockIcons]
    ensures |w.clients| < MAX_CLIENTS ==> Step(w, MapRequest(win, false), env).0.clients == w.clients + [win]
    ensures |w.clients| >= MAX_CLIENTS ==> Step(w, MapRequest(win, false), env).0 == w
    ensures !env.tiling ==> |Step(w, MapRequest(win, false), env).1| == 6
  {
  }

  /** DestroyNotify removes the first registration only, retiles when tiling,
      and repaints the taskbar; state table and drag state are untouched. */
  lemma DestroyRemoves(w: World, win: Window, env: Env)
    requires WorldValid(w)
    ensures var r := Step(w, DestroyNotify(win), env);
            && r.0 == w.(clients := RemoveFirst(w.clients, win))
            && r.1 == Retile(RemoveFirst(w.clients, win), env) + [RepaintTaskbar, UpdateDockIcons]
  {
  }

  /** Client state is never reset: a window minimized, destroyed and mapped again
      is still marked minimized, so Alt+M on it issues nothing. */
  lemma StaleStateSurvivesRemap(w: World, win: Window, key: Event, env: Env)
    requires WorldValid(w) && StateOf(w, win).isMinimized
    requires key.KeyPress? && key.alt && key.key == KeyM
    requires key.pointer == PointerOver(win) && win > POINTER_ROOT && win != env.root
    ensures var w1 := Step(Step(w, DestroyNotify(win), env).0, MapRequest(win, false), env).0;
            && StateOf(w1, win).isMinimized
            && Step(w1, key, env) == (w1, [])
  {
    var w1 := Step(Step(w, DestroyNotify(win), env).0, MapRequest(win, false), env).0;
    assert w1.states == w.states;
    assert w1.states[Slot(win) := w1.states[Slot(win)]] == w1.states;
  }

  /** A configure request always gets the border width 5 and the `CWBorderWidth`
      bit; the rest of the mask and the requested geometry pass through. */
  lemma ConfigureForcesBorder(w: World, ev: Event, env: Env)
    requires WorldValid(w) && ev.ConfigureRequest?
    ensures var r := Step(w, ev, env);
            && r.0 == w && |r.1| == 1 && r.1[0].ConfigureWindow? && r.1[0].w == ev.window
            && r.1[0].changes.borderWidth == ConfigFile.BORDER_WIDTH
            && r.1[0].mask & CW_BORDER_WIDTH == CW_BORDER_WIDTH
            && r.1[0].mask & !CW_BORDER_WIDTH == ev.valueMask & !CW_BORDER_WIDTH
            && r.1[0].changes.x == ev.x && r.1[0].changes.y == ev.y
            && r.1[0].changes.width == ev.width && r.1[0].changes.height == ev.height
            && r.1[0].changes.sibling == ev.above && r.1[0].changes.stackMode == ev.detail
  {
  }

  // ---------------------------------------------------------------- invariants

  /** Only MapRequest and DestroyNotify change the registry, and only KeyPress the state table. */
  lemma StepFrame(w: World, ev: Event, env: Env)
    requires WorldValid(w)
    ensures !ev.MapRequest? && !ev.DestroyNotify? ==> Step(w, ev, env).0.clients == w.clients
    ensures !ev.KeyPress? ==> Step(w, ev, env).0.states == w.states
    ensures !ev.ButtonPress? && !ev.ButtonRelease? ==> Step(w, ev, env).0.drag == w.drag
  {
  }

  /** The world after a run of events. */
  function Run(w: World, evs: seq<Event>, env: Env): (r: World)
    requires WorldValid(w)
    ensures WorldValid(r)
    decreases |evs|
  {
    if evs == [] then w else Run(Step(w, evs[0], env).0, evs[1..], env)
  }

  /** With only pointer and keyboard events, the set of managed windows never changes. */
  lemma {:induction false} PointerEventsKeepRegistry(w: World, evs: seq<Event>, env: Env)
    requires WorldValid(w)
    requires forall i :: 0 <= i < |evs| ==> !evs[i].MapRequest? && !evs[i].DestroyNotify?
    ensures Run(w, evs, env).clients == w.clients
    decreases |evs|
  {
    if evs != [] {
      StepFrame(w, evs[0], env);
      PointerEventsKeepRegistry(Step(w, evs[0], env).0, evs[1..], env);
    }
  }
}
