/** The client registry of src/util/client.c: the fixed-capacity array
    `managed_clients` with its counter, the per-window `client_states` table
    indexed by `w % MAX_CLIENTS`, the master/stack tiling geometry of
    `mocha_tile_clients`, and the bounded dock-icon table. */
module Client {
  import opened XServer
  import opened CString
  import ConfigFile

  /** `MAX_CLIENTS`: capacity of the client array and size of the state table. */
  const MAX_CLIENTS: nat := 1024

  /** Pixels between tiled windows (the local `gap` of `mocha_tile_clients`). */
  const GAP: int := 10

  /** `ClientState`, with the `is_minimized` flag the event code relies on. */
  datatype ClientState = ClientState(isFullscreen: bool, isMinimized: bool, saved: Geometry)

  /** The zero-initialised state record every table slot starts with. */
  const INITIAL_STATE: ClientState := ClientState(false, false, Geometry(0, 0, 0, 0))

  /** The table slot `mocha_get_client_state` returns for `w`. */
  function Slot(w: Window): (k: nat)
    ensures k < MAX_CLIENTS
  {
    w % MAX_CLIENTS
  }

  /** Windows whose identifiers differ by a multiple of MAX_CLIENTS share one state record. */
  lemma {:induction false} SlotAliases(w: Window, k: nat)
    ensures Slot(w + k * MAX_CLIENTS) == Slot(w)
  {
    if k > 0 {
      SlotAliases(w, k - 1);
      assert w + k * MAX_CLIENTS == (w + (k - 1) * MAX_CLIENTS) + MAX_CLIENTS;
    }
  }

  // ---------------------------------------------------------------- registry contents

  /** The client list after `mocha_add_managed_client(w)`. */
  function AddClient(s: seq<Window>, w: Window): seq<Window>
  {
    if |s| < MAX_CLIENTS then s + [w] else s
  }

  /** The client list after `mocha_remove_managed_client(w)`. */
  function RemoveFirst(s: seq<Window>, w: Window): seq<Window>
  {
    if s == [] then []
    else if s[0] == w then s[1..]
    else [s[0]] + RemoveFirst(s[1..], w)
  }

  /** With room, adding puts `w` at index `|s|`; when full, nothing changes. */
  lemma AddAppends(s: seq<Window>, w: Window)
    ensures |s| < MAX_CLIENTS ==>
              |AddClient(s, w)| == |s| + 1 && AddClient(s, w)[|s|] == w && AddClient(s, w)[..|s|] == s
    ensures |s| >= MAX_CLIENTS ==> AddClient(s, w) == s
  {
  }

  /** Adding checks for no duplicate: a window added twice holds two slots. */
  lemma AddTwiceHoldsTwoSlots(s: seq<Window>, w: Window)
    requires |s| + 2 <= MAX_CLIENTS
    ensures multiset(AddClient(AddClient(s, w), w))[w] == multiset(s)[w] + 2
  {
  }

  /** Removing drops exactly the first occurrence of `w` and keeps the order of
      everything else: the entries before it stay, the entries after it move
      left by one. */
  lemma {:induction false} RemoveFirstAt(s: seq<Window>, w: Window, i: nat)
    requires i < |s| && s[i] == w && w !in s[..i]
    ensures RemoveFirst(s, w) == s[..i] + s[i + 1..]
  {
    if i > 0 {
      assert s[0] != w by { assert s[..i][0] == s[0]; }
      assert s[1..][..i - 1] == s[1..i];
      RemoveFirstAt(s[1..], w, i - 1);
      assert s[1..][i..] == s[i + 1..];
      assert [s[0]] + s[1..i] == s[..i];
    }
  }

  /** Removing a window that is not present changes nothing. */
  lemma {:induction false} RemoveAbsent(s: seq<Window>, w: Window)
    requires w !in s
    ensures RemoveFirst(s, w) == s
  {
    if s != [] {
      assert w !in s[1..];
      RemoveAbsent(s[1..], w);
    }
  }

  /** Removing takes one copy of `w` out (if there is one) and nothing else,
      so the count drops by exactly one when `w` is present. */
  lemma {:induction false} RemoveFirstMultiset(s: seq<Window>, w: Window)
    ensures multiset(RemoveFirst(s, w)) == multiset(s) - multiset{w}
    ensures |RemoveFirst(s, w)| == if w in s then |s| - 1 else |s|
  {
    if s != [] {
      var t := s[1..];
      assert s == [s[0]] + t;
      assert multiset(s) == multiset{s[0]} + multiset(t);
      RemoveFirstMultiset(t, w);
      if s[0] != w {
        assert RemoveFirst(s, w) == [s[0]] + RemoveFirst(t, w);
        assert multiset(RemoveFirst(s, w)) == multiset{s[0]} + multiset(RemoveFirst(t, w));
        assert w in s <==> w in t;
      }
    }
  }

  /** A window held once is gone after one removal; one held twice is still there. */
  lemma RemoveFirstMembership(s: seq<Window>, w: Window)
    ensures multiset(s)[w] <= 1 ==> w !in RemoveFirst(s, w)
    ensures multiset(s)[w] >= 2 ==> w in RemoveFirst(s, w)
  {
    RemoveFirstMultiset(s, w);
    assert multiset(RemoveFirst(s, w))[w] == if multiset(s)[w] > 0 then multiset(s)[w] - 1 else 0;
  }

  // ---------------------------------------------------------------- tiling geometry

  /** The screen (height already reduced by the taskbar) and the usable area
      the `* 0.95` step derives from it, both given. */
  datatype TileArea = TileArea(screenW: int, screenH: int, usableW: int, usableH: int)

  /** C's `/` on `int` for a positive divisor: rounds toward zero. */
  function CDiv(a: int, b: int): (q: int)
    requires b > 0
    ensures a >= 0 ==> q * b <= a < q * b + b
    ensures a < 0 ==> q * b - b < a <= q * b
  {
    if a >= 0 then a / b else -((-a) / b)
  }

  function OffsetX(a: TileArea): int { CDiv(a.screenW - a.usableW, 2) }
  function OffsetY(a: TileArea): int { CDiv(a.screenH - a.usableH, 2) }

  /** `master_w`: half the usable width less half a gap, or all of it when alone. */
  function MasterWidth(n: nat, a: TileArea): int
  {
    if n > 1 then CDiv(a.usableW, 2) - GAP / 2 else a.usableW
  }

  /** `stack_w`: what is left of the usable width right of the master and a gap. */
  function StackWidth(n: nat, a: TileArea): int
  {
    a.usableW - MasterWidth(n, a) - GAP
  }

  /** `stack_h`: an equal share of the usable height for each of the n - 1 stacked windows. */
  function StackHeight(n: nat, a: TileArea): int
  {
    if n - 1 > 0 then CDiv(a.usableH - (n - 2) * GAP, n - 1) else 0
  }

  /** The geometry `mocha_tile_clients` gives the i-th of n clients; sizes are
      the cell's less twice the border width. */
  function CellGeometry(i: nat, n: nat, a: TileArea): Geometry
    requires i < n
  {
    var b := ConfigFile.BORDER_WIDTH;
    if i == 0 then
      Geometry(OffsetX(a), OffsetY(a), MasterWidth(n, a) - 2 * b, a.usableH - 2 * b)
    else
      Geometry(OffsetX(a) + MasterWidth(n, a) + GAP, OffsetY(a) + (i - 1) * (StackHeight(n, a) + GAP),
               StackWidth(n, a) - 2 * b, StackHeight(n, a) - 2 * b)
  }

  /** The requests `mocha_tile_clients` issues for client list `ws`, in order. */
  function TileLayout(ws: seq<Window>, a: TileArea): (cmds: seq<Command>)
  {
    seq(|ws|, i requires 0 <= i < |ws| => MoveResizeWindow(ws[i], CellGeometry(i, |ws|, a)))
  }

  /** One request per client, addressed to that client, in registry order; none for no clients. */
  lemma TileLayoutShape(ws: seq<Window>, a: TileArea)
    ensures |TileLayout(ws, a)| == |ws|
    ensures forall i :: 0 <= i < |ws| ==> TileLayout(ws, a)[i].MoveResizeWindow? && TileLayout(ws, a)[i].w == ws[i]
    ensures ws == [] ==> TileLayout(ws, a) == []
  {
  }

  /** A lone client gets the whole usable area, less the border on each side. */
  lemma TileSingle(w: Window, a: TileArea)
    ensures TileLayout([w], a) == [MoveResizeWindow(w, Geometry(OffsetX(a), OffsetY(a),
              a.usableW - 2 * ConfigFile.BORDER_WIDTH, a.usableH - 2 * ConfigFile.BORDER_WIDTH))]
  {
  }

  /** With two or more clients, master, gap and stack column exactly span the
      usable width, the stack column starts one gap right of the master cell,
      and every stacked window is as wide and as tall as every other. */
  lemma TileColumns(n: nat, i: nat, j: nat, a: TileArea)
    requires 1 <= i < n && 1 <= j < n
    ensures MasterWidth(n, a) + GAP + StackWidth(n, a) == a.usableW
    ensures CellGeometry(i, n, a).x == CellGeometry(0, n, a).x + CellGeometry(0, n, a).width + 2 * ConfigFile.BORDER_WIDTH + GAP
    ensures CellGeometry(i, n, a).width == CellGeometry(j, n, a).width
    ensures CellGeometry(i, n, a).height == CellGeometry(j, n, a).height
  {
  }

  /** Consecutive stack cells do not overlap: the next starts a gap below the end of the previous. */
  lemma StackCellsAdjacent(n: nat, k: nat, a: TileArea)
    requires 1 <= k && k + 1 < n
    ensures CellGeometry(k + 1, n, a).y == CellGeometry(k, n, a).y + StackHeight(n, a) + GAP
  {
  }

  /** Where the last stack cell ends. When the usable height can hold the
      n - 2 gaps between stacked windows, it ends at or before the bottom of
      the usable area and less than n - 1 pixels above it; when it cannot,
      the cell height rounds toward zero and the last cell ends at or below
      the bottom, less than n - 1 pixels past it. */
  lemma StackFits(n: nat, a: TileArea)
    requires n >= 2
    ensures a.usableH - (n - 2) * GAP >= 0 ==>
              OffsetY(a) + a.usableH - (n - 1) < CellGeometry(n - 1, n, a).y + StackHeight(n, a) <= OffsetY(a) + a.usableH
    ensures a.usableH - (n - 2) * GAP < 0 ==>
              OffsetY(a) + a.usableH <= CellGeometry(n - 1, n, a).y + StackHeight(n, a) < OffsetY(a) + a.usableH + (n - 1)
  {
    var m := n - 1;
    var q := StackHeight(n, a);
    assert CellGeometry(n - 1, n, a).y + q == OffsetY(a) + q * m + (m - 1) * GAP by {
      assert (m - 1) * (q + GAP) == (m - 1) * q + (m - 1) * GAP;
    }
  }

  /** 97 clients on the 1804x949 area: the 96 stacked windows and their 95
      gaps need 950 pixels, the cell height rounds to 0 and the last cell ends
      one pixel below the usable area. */
  lemma StackOverrun()
    ensures var a := TileArea(1920, 1020, 1804, 949);
            StackHeight(97, a) == 0
            && CellGeometry(96, 97, a).y + StackHeight(97, a) == OffsetY(a) + a.usableH + 1
  {
  }

  /** The three-client layout on a 1920x1080 screen with a 60-pixel taskbar
      (usable area 1920*0.95 - 20 = 1804 by 1020*0.95 - 20 = 949). */
  lemma ThreeClientExample(x: Window, y: Window, z: Window)
    ensures TileLayout([x, y, z], TileArea(1920, 1020, 1804, 949))
         == [MoveResizeWindow(x, Geometry(58, 35, 887, 939)),
             MoveResizeWindow(y, Geometry(965, 35, 887, 459)),
             MoveResizeWindow(z, Geometry(965, 514, 887, 459))]
  {
  }

  // ---------------------------------------------------------------- the registry object

  /** The globals `managed_clients`, `num_managed_clients` and `client_states`. */
  class Registry {
    const clients: array<Window>
    const states: array<ClientState>
    var count: nat

    ghost predicate Valid()
      reads this
    {
      clients.Length == MAX_CLIENTS && states.Length == MAX_CLIENTS && count <= MAX_CLIENTS
    }

    /** The managed windows in registry order: `managed_clients[0 .. num_managed_clients)`. */
    function Managed(): (s: seq<Window>)
      reads this, clients
      requires Valid()
      ensures |s| <= MAX_CLIENTS
    {
      clients[..count]
    }

    /** `*mocha_get_client_state(w)`. */
    function State(w: Window): ClientState
      reads this, states
      requires Valid()
    {
      states[Slot(w)]
    }

    /** The zero-initialised globals. */
    constructor ()
      ensures Valid() && fresh(clients) && fresh(states)
      ensures Managed() == []
      ensures forall k :: 0 <= k < MAX_CLIENTS ==> states[k] == INITIAL_STATE
    {
      clients := new Window[MAX_CLIENTS];
      states := new ClientState[MAX_CLIENTS](_ => INITIAL_STATE);
      count := 0;
    }

    /** `mocha_add_managed_client(w)`: append when below capacity, else drop silently. */
    method Add(w: Window)
      requires Valid()
      modifies this, clients
      ensures Valid()
      ensures Managed() == AddClient(old(Managed()), w)
      ensures states[..] == old(states[..])
    {
      if count < MAX_CLIENTS {
        clients[count] := w;
        count := count + 1;
        assert clients[..count] == old(clients[..count]) + [w];
      }
    }

    /** `mocha_remove_managed_client(w)`: find the first occurrence, shift the
        rest left by one, shorten by one; the state table is not touched. */
    method Remove(w: Window)
      requires Valid()
      modifies this, clients
      ensures Valid()
      ensures Managed() == RemoveFirst(old(Managed()), w)
      ensures states[..] == old(states[..])
    {
      ghost var s := Managed();
      var i := 0;
      while i < count
        invariant 0 <= i <= count == |s|
        invariant clients[..count] == s
        invariant w !in s[..i]
      {
        if clients[i] == w {
          ShiftDown(i);
          count := count - 1;
          RemoveFirstAt(s, w, i);
          return;
        }
        assert s[..i + 1] == s[..i] + [s[i]];
        i := i + 1;
      }
      RemoveAbsent(s, w);
    }

    /** The inner loop of `mocha_remove_managed_client`: entries after `i` move
        one place down, overwriting entry `i`. */
    method ShiftDown(i: nat)
      requires Valid() && i < count
      modifies clients
      ensures clients[..count - 1] == old(clients[..count])[..i] + old(clients[..count])[i + 1..]
    {
      ghost var s := clients[..count];
      var j := i;
      while j < count - 1
        invariant i <= j <= count - 1
        invariant forall k :: 0 <= k < i ==> clients[k] == s[k]
        invariant forall k :: i <= k < j ==> clients[k] == s[k + 1]
        invariant forall k :: j <= k < count ==> clients[k] == s[k]
      {
        clients[j] := clients[j + 1];
        j := j + 1;
      }
      assert clients[..count - 1] == s[..i] + s[i + 1..];
    }

    /** `is_managed_client(w)`: a linear scan of the client array. */
    method IsManaged(w: Window) returns (b: bool)
      requires Valid()
      ensures b == (w in Managed())
    {
      var i := 0;
      while i < count
        invariant 0 <= i <= count
        invariant w !in clients[..i]
      {
        if clients[i] == w {
          assert clients[..count][i] == w;
          return true;
        }
        assert clients[..i + 1] == clients[..i] + [clients[i]];
        i := i + 1;
      }
      assert clients[..i] == Managed();
      return false;
    }

    /** A write through the pointer `mocha_get_client_state(w)` returns: every
        window in the same slot sees the new record. */
    method SetState(w: Window, st: ClientState)
      requires Valid()
      modifies states
      ensures states[..] == old(states[..])[Slot(w) := st]
      ensures forall v: Window :: State(v) == if Slot(v) == Slot(w) then st else old(State(v))
    {
      states[Slot(w)] := st;
    }

    /** The geometry loop of `mocha_tile_clients`: one MoveResize per client, in order. */
    method Tile(a: TileArea) returns (cmds: seq<Command>)
      requires Valid()
      ensures cmds == TileLayout(Managed(), a)
    {
      var n := 0;
      while n < count
        invariant n <= count
      {
        n := n + 1;
      }
      cmds := [];
      if n == 0 {
        return;
      }
      var i := 0;
      while i < count
        invariant i <= count == n
        invariant |cmds| == i
        invariant forall k :: 0 <= k < i ==> cmds[k] == MoveResizeWindow(clients[k], CellGeometry(k, n, a))
      {
        cmds := cmds + [MoveResizeWindow(clients[i], CellGeometry(i, n, a))];
        i := i + 1;
      }
    }
  }

  // ---------------------------------------------------------------- dock icons

  /** The parts of a `DockIcon` that `mocha_add_dock_icon` sets. */
  datatype DockIcon = DockIcon(name: string, command: string, isRunning: bool, window: Window)

  /** The icon `mocha_add_dock_icon` stores: `strncpy` with `sizeof(field) - 1`
      keeps at most that many characters, not running, no window. */
  function NewIcon(name: string, command: string, nameSize: nat, commandSize: nat): (icon: DockIcon)
    requires nameSize >= 1 && commandSize >= 1
    ensures icon.name <= name && |icon.name| == if |name| < nameSize then |name| else nameSize - 1
    ensures icon.command <= command && |icon.command| == if |command| < commandSize then |command| else commandSize - 1
    ensures !icon.isRunning && icon.window == NONE
  {
    DockIcon(Take(name, nameSize - 1), Take(command, commandSize - 1), false, NONE)
  }

  /** The globals `dock_icons` and `num_dock_icons`; the array length is
      `MAX_DOCK_ICONS` and the two sizes are those of the `name` and `command` fields. */
  class Dock {
    const icons: array<DockIcon>
    const nameSize: nat
    const commandSize: nat
    var count: nat

    ghost predicate Valid()
      reads this
    {
      count <= icons.Length && nameSize >= 1 && commandSize >= 1
    }

    function Icons(): (s: seq<DockIcon>)
      reads this, icons
      requires Valid()
      ensures |s| <= icons.Length
    {
      icons[..count]
    }

    constructor (capacity: nat, nameSize: nat, commandSize: nat)
      requires nameSize >= 1 && commandSize >= 1
      ensures Valid() && fresh(icons) && icons.Length == capacity
      ensures this.nameSize == nameSize && this.commandSize == commandSize
      ensures Icons() == []
    {
      icons := new DockIcon[capacity](_ => DockIcon("", "", false, NONE));
      this.nameSize := nameSize;
      this.commandSize := commandSize;
      count := 0;
    }

    /** `mocha_add_dock_icon(name, command)`: a no-op once the table is full. */
    method AddIcon(name: string, command: string)
      requires Valid()
      modifies this, icons
      ensures Valid()
      ensures Icons() == if old(count) < icons.Length
                         then old(Icons()) + [NewIcon(name, command, nameSize, commandSize)]
                         else old(Icons())
    {
      if count >= icons.Length {
        return;
      }
      icons[count] := NewIcon(name, command, nameSize, commandSize);
      count := count + 1;
      assert icons[..count] == old(icons[..count]) + [icons[count - 1]];
    }
  }
}
