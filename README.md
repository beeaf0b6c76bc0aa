# mocha window manager core, modelled in Dafny

mocha is a small X11 window manager. This project models its core and proves
properties about it. The core has four parts:

- **client registry and tiling** (`src/util/client.c`). The array of managed windows has
  a fixed capacity of 1024. Adding appends, with no duplicate check. Removing
  shifts the later entries left. The per-window state table is indexed by `w % 1024`.
  The master/stack tiling geometry and the bounded dock-icon table are also here.
- **event dispatcher** (`src/event/event.c`). This covers:
  - the drag state machine (press, release, motion, and the 50-pixel resize floor);
  - keyboard target resolution and the first-match shortcut chain;
  - minimize, restore and the maximize toggle with its saved geometry;
  - map-request admission (dialogs are destroyed), destroy-notify removal, the
    forced border width on configure, and the focus-highlight pass.
- **configuration reader** (`src/util/config.c`): `trim`, the line loop of
  `parse_config` (comments, `{`/`}` blocks, `key = value`, quotes, the 32-entry
  keybind table), and `get_border_width` (the constant 5).
- **desktop entries** (`src/util/app.c`). This covers the in-place `%`-code blanking
  of `cleanup_exec_command`, the line dispatch of `parse_desktop_file`, the
  admission filter of `find_applications` (capacity 512, run once), and
  `find_app_by_wmclass`.

The event handlers do not call X. An answer the C code gets from the server
(`XQueryPointer`, `XGetWindowAttributes`, `XGetInputFocus`, `is_dialog`) is a field
of the incoming `Event`. Every request the C code sends becomes an `XServer.Command`,
in the order the C code issues it. `Event.Step` is the pure meaning of one call
of `mocha_handle_event`. It maps (client list, state table, drag state, event) to the
new state plus the list of commands. The imperative handlers work in place on
`Client.Registry` (the globals `managed_clients`, `num_managed_clients` and
`client_states`) and `Event.DragState` (`*drag_state`), and they are proved to agree
with `Step`.

Files (one module each):

- `wrappers.dfy`: `Option`.
- `cstring.dfy`: the C string routines used (`isspace`, `strncpy`, `strncmp`,
  `strstr`, `strchr`, `%[^\n]`).
- `xserver.dfy`: window ids, geometry, commands.
- `config.dfy`, `client.dfy`, `event.dfy`, `event_lemmas.dfy`, `app.dfy`.

Facts about the code that the model keeps:

- `MAX_CLIENTS` is 1024.
- `mocha_add_managed_client` does no duplicate check, so a window can be registered twice.
- Neither `mocha_add_managed_client` nor `mocha_remove_managed_client` resets the window's `ClientState`.
- The event code reads and writes `is_minimized`, although `include/util/client.h` does not declare it.

## Model

| member | source | states |
|---|---|---|
| Client.Slot | src/util/client.c:36-38 | the state record of a window is the table slot `w mod 1024`, always in range |
| Client.AddClient | src/util/client.c:43-47 | `mocha_add_managed_client` on the list of windows; properties in `AddAppends` and `AddTwiceHoldsTwoSlots` |
| Client.RemoveFirst | src/util/client.c:52-62 | `mocha_remove_managed_client` on the list of windows; properties in `RemoveFirstAt`, `RemoveAbsent`, `RemoveFirstMultiset` and `RemoveFirstMembership` |
| Client.SlotAliases | src/util/client.c:36-38 | windows congruent modulo 1024 share one state record |
| Client.AddAppends | src/util/client.c:43-47 | below capacity, adding appends `w` at index `count` and keeps the earlier entries; when full, the list is unchanged |
| Client.AddTwiceHoldsTwoSlots | src/util/client.c:43-47 | with no duplicate check, a window added twice occupies two more slots |
| Client.RemoveFirstAt | src/util/client.c:52-62 | removal deletes exactly the first occurrence and keeps the entries before and after it in order |
| Client.RemoveAbsent | src/util/client.c:52-62 | removing a window that is not present changes nothing |
| Client.RemoveFirstMultiset | src/util/client.c:52-62 | removal takes away one copy of `w` and nothing else, so the count drops by one exactly when `w` was present |
| Client.RemoveFirstMembership | src/util/client.c:52-62 | a window registered once is gone after removal; one registered twice is still managed |
| Client.CDiv | src/util/client.c:128-129 | C division of a non-negative value rounds down, and of a negative value rounds toward zero |
| Client.OffsetX | src/util/client.c:128 | `offset_x`: half the unused screen width, centring the usable area |
| Client.OffsetY | src/util/client.c:129 | `offset_y`: half the unused screen height |
| Client.MasterWidth | src/util/client.c:131 | `master_w`; with `StackWidth` it spans the usable width (`TileColumns`) |
| Client.StackWidth | src/util/client.c:132 | `stack_w`; its relation to the master column is `TileColumns` |
| Client.StackHeight | src/util/client.c:133-136 | `stack_h`; the stack cells it gives are bounded by `StackFits` and spaced by `StackCellsAdjacent` |
| Client.CellGeometry | src/util/client.c:140-149 | the geometry of the i-th client; its properties are `TileSingle`, `TileColumns`, `StackCellsAdjacent` and `StackFits` |
| Client.TileLayout | src/util/client.c:111-153 | the requests of `mocha_tile_clients`; their shape is `TileLayoutShape` |
| Client.TileLayoutShape | src/util/client.c:117-152 | tiling issues one MoveResize per client, in registry order, and none when there are no clients |
| Client.TileSingle | src/util/client.c:131-143 | a lone client gets the whole usable area at the centring offset, less twice the border |
| Client.TileColumns | src/util/client.c:131-148 | master width plus gap plus stack width is the usable width; every stack cell starts right after the master column and has the same width |
| Client.StackCellsAdjacent | src/util/client.c:133-148 | consecutive stack cells are exactly one cell height plus the gap apart |
| Client.StackFits | src/util/client.c:133-148 | when the usable height holds the n - 2 gaps, the last stack cell ends at or above the bottom of the usable area and less than n - 1 pixels above it; when it does not, it ends at or below the bottom and less than n - 1 pixels past it |
| Client.StackOverrun | src/util/client.c:133-148 | 97 clients on the 1804x949 area get a cell height of 0, and the last stack cell ends one pixel below the usable area |
| Client.ThreeClientExample | src/util/client.c:111-153 | three clients on 1920x1020 with a 1804x949 usable area get the concrete geometries the C arithmetic yields |
| Client.Registry.Managed | src/util/client.c:29-31 | the managed list never exceeds the capacity |
| Client.Registry.constructor | src/util/client.c:29-31 | the registry starts empty, with every state record zeroed |
| Client.Registry.Add | src/util/client.c:43-47 | the new list is `AddClient` of the old one; the state table is untouched |
| Client.Registry.Remove | src/util/client.c:52-62 | the nested shift loop leaves `RemoveFirst` of the old list; the state table is untouched |
| Client.Registry.ShiftDown | src/util/client.c:55-57 | the shift loop moves every entry after `i` one place down and keeps those before it |
| Client.Registry.IsManaged | src/event/event.c:74-79 | the scan answers true exactly when `w` is in the managed list |
| Client.Registry.SetState | src/util/client.c:36-38 | a write through the slot pointer updates that slot, and every window in the same slot sees it |
| Client.Registry.Tile | src/util/client.c:111-153 | the counting loop and the geometry loop produce exactly `TileLayout` of the managed list |
| Client.NewIcon | src/util/client.c:230-238 | a stored icon keeps exactly the first `size - 1` characters of a name or command that does not fit its field, and all of one that does; it is not running and has no window |
| Client.Dock.constructor | src/util/client.c:33-34 | the dock table starts empty |
| Client.Dock.AddIcon | src/util/client.c:230-238 | below capacity one icon is appended; when full the table is unchanged |
| CString.Take | src/util/config.c:60 | `strncpy` keeps a prefix of at most `n` characters |
| CString.IsSpace | src/util/config.c:18 | `isspace` in the C locale |
| CString.HasPrefix | src/util/app.c:36 | `strncmp(s, p, strlen(p)) == 0`; two keys that differ early exclude each other (`PrefixesExclude`) |
| CString.Contains | src/util/app.c:162 | `strstr(s, sub) != NULL`; an occurrence anywhere is found (`ContainsAt`) |
| CString.ContainsAt | src/util/app.c:162 | an occurrence at any position is found by `strstr` |
| CString.IndexOf | src/util/config.c:45 | `strchr` finds the first position of the character, or none exactly when it is absent |
| CString.UpToNewline | src/util/app.c:37 | a `%[^\n]` conversion reads a newline-free prefix that stops at the first newline |
| ConfigFile.LeadingSpaces | src/util/config.c:18 | the first loop of `trim` steps over whitespace and stops at the first non-space |
| ConfigFile.DropTrailing | src/util/config.c:19-20 | the second loop cuts off only trailing whitespace, and the result does not end in whitespace |
| ConfigFile.TrimmedSpec | src/util/config.c:17-22 | `trim` yields the infix between the leading and trailing whitespace: empty exactly for all-space input, and neither end is whitespace |
| ConfigFile.Trim | src/util/config.c:17-22 | the two pointer loops of `trim` compute `Trimmed` |
| ConfigFile.SkipLeading | src/util/config.c:18 | the first loop stops at the first non-space character, after exactly the leading whitespace |
| ConfigFile.TrailingEnd | src/util/config.c:19-20 | the second loop never moves back past the first kept character and leaves exactly the input without its trailing whitespace |
| ConfigFile.TrimIdempotent | src/util/config.c:17-22 | trimming an already trimmed string changes nothing |
| ConfigFile.Trimmed | src/util/config.c:17-22 | the string `trim` returns; its properties are `TrimmedSpec` and `TrimIdempotent` |
| ConfigFile.DigitPrefix | src/util/config.c:90 | `atoi` reads the longest run of decimal digits |
| ConfigFile.Word | src/util/config.c:38 | `%s` reads up to the first whitespace |
| ConfigFile.BlockName | src/util/config.c:37-40 | a block name is at most 31 characters |
| ConfigFile.Unquote | src/util/config.c:50-54 | a value starting with `"` loses that quote and is cut exactly at the next `"`, or runs to the end when there is none; other values are kept |
| ConfigFile.KnownKeys | src/util/config.c:58-97 | the keys each block assigns; other keys are ignored (`UnknownKeyIgnored`) |
| ConfigFile.Assign | src/util/config.c:58-97 | the assignment chain for one `key = value` in a block, with each field cut to its size; properties in `UnknownKeyIgnored`, `LaterAssignmentWins`, `AssignKeybinds` and `AssignKeepsKeybinds` |
| ConfigFile.ApplyLine | src/util/config.c:35-56 | one pass of the line loop: skip, enter a block, leave a block, or assign; properties in `BlankAndCommentLinesSkipped`, `OpenBraceEntersBlock`, `CloseBraceLeavesBlock` and `KeyValueSplitsAtFirstEquals` |
| ConfigFile.ParseLines | src/util/config.c:34-98 | the state after the loop has read a sequence of lines; properties in `KeybindsBounded` and `KeybindsOnlyGrow` |
| ConfigFile.ParseConfig | src/util/config.c:24-102 | an unopenable file gives status 1 and an untouched configuration; otherwise the line loop computes `ParseLines` from outside any block, with status 0 |
| ConfigFile.ParseConfigLine | src/util/config.c:35-97 | the body of the line loop performs exactly one `ApplyLine` step |
| ConfigFile.BlankAndCommentLinesSkipped | src/util/config.c:35-36 | blank and `#` lines change neither the configuration nor the block |
| ConfigFile.OpenBraceEntersBlock | src/util/config.c:37-40 | a line with `{` sets the block to its first word, even when it also contains `=` or `}` |
| ConfigFile.CloseBraceLeavesBlock | src/util/config.c:41-44 | a line with `}` and no `{` resets the block to empty |
| ConfigFile.KeyValueSplitsAtFirstEquals | src/util/config.c:45-54 | a key/value line splits at its first `=`, trims both sides and unquotes the value |
| ConfigFile.UnknownKeyIgnored | src/util/config.c:58-97 | a key its block does not know leaves the configuration unchanged |
| ConfigFile.LaterAssignmentWins | src/util/config.c:58-97 | outside `keybinds`, assigning a key twice is the same as assigning it only the second time |
| ConfigFile.TilingEnabledIsAtoi | src/util/config.c:89-90 | `tiling_enabled` takes the `atoi` of its value |
| ConfigFile.Atoi | src/util/config.c:89-94 | `atoi`: skip leading whitespace, then read a signed number; its meaning is given by `AtoiReadsNumber` |
| ConfigFile.SignedDigits | src/util/config.c:89-94 | an optional `-` or `+`, then the value of the digits that follow; 0 when none follow |
| ConfigFile.AtoiReadsNumber | src/util/config.c:89-94 | after whitespace and an optional sign, a run of digits followed by a non-digit reads as the signed decimal value of the digits |
| ConfigFile.DigitsValue | src/util/config.c:89-94 | the decimal value of a digit string, most significant digit first |
| ConfigFile.DigitsValueBound | src/util/config.c:89-94 | the value of n digits is below 10^n |
| ConfigFile.AtoiExamples | src/util/config.c:89-94 | `" -42x"` reads as -42 and `"on"` as 0 |
| ConfigFile.KeybindAppendedWhileRoom | src/util/config.c:76-83 | in `keybinds` a pair is appended while fewer than 32 are stored, and dropped afterwards |
| ConfigFile.ApplyLineKeybinds | src/util/config.c:76-83 | one line either keeps the keybinds or appends exactly one while there is room |
| ConfigFile.AssignKeybinds | src/util/config.c:58-97 | one assignment leaves the keybinds alone, or appends exactly one while fewer than 32 are stored |
| ConfigFile.AssignKeepsKeybinds | src/util/config.c:58-97 | assignments outside `keybinds` never touch the keybind table |
| ConfigFile.KeybindsBounded | src/util/config.c:76-83 | over any file the keybind count never exceeds 32 |
| ConfigFile.KeybindsOnlyGrow | src/util/config.c:76-83 | over any file existing keybinds are kept, in order |
| Event.InitialWorld | src/main.c:297 | the starting world is valid: empty registry, full state table, zeroed drag state |
| Event.Clamp | src/event/event.c:224-229 | a resized side is its new length when above 50, else exactly 50 |
| Event.MinimizeStep | src/event/event.c:30-36 | `minimize_window` on a state record; properties in `MinimizeIdempotent` |
| Event.RestoreStep | src/event/event.c:38-46 | `restore_window` on a state record; properties in `RestoreUndoesMinimize` |
| Event.ToggleStep | src/event/event.c:48-70 | `toggle_maximize_window` on a state record; properties in `MaximizeRoundTrip` |
| Event.Borders | src/event/event.c:81-92 | `update_window_borders`; its property is `BordersHighlightExactlyFocused` |
| Event.PressDrag | src/event/event.c:170-199 | the drag state after a ButtonPress; properties in `PressOverManaged` and `PressOverUnmanaged` |
| Event.PressCommands | src/event/event.c:201-205 | the requests of a ButtonPress; property in `PressReplays` |
| Event.MotionCommands | src/event/event.c:214-241 | the requests of a MotionNotify; properties in `MotionNeedsManagedActive`, `DragMovesByDelta` and `ResizeFloor` |
| Event.KeyTarget | src/event/event.c:248-256 | the shortcut target; property in `KeyTargetChoice` |
| Event.KeyActionFor | src/event/event.c:257-289 | the first matching shortcut; properties in `WindowShortcuts` and `UnboundKeysDoNothing` |
| Event.ConfigureCommand | src/event/event.c:317-331 | the request a ConfigureRequest is answered with; property in `ConfigureForcesBorder` |
| Event.MapStep | src/event/event.c:293-315 | a map request keeps the registry within capacity |
| Event.DestroyStep | src/event/event.c:429-440 | a destroy notification keeps the registry within capacity |
| Event.KeyStep | src/event/event.c:243-291 | a key press keeps the state table whole |
| Event.Step | src/event/event.c:160-447 | every event keeps the registry within capacity and the state table whole |
| Event.DragState.constructor | src/main.c:297 | the drag state starts zeroed |
| Event.UpdateWindowBorders | src/event/event.c:81-92 | the loop emits `Borders` of the managed list |
| Event.MinimizeWindow | src/event/event.c:30-36 | the slot gets `MinimizeStep` of the old state, with its commands |
| Event.RestoreWindow | src/event/event.c:38-46 | the slot gets `RestoreStep` of the old state, with its commands |
| Event.ToggleMaximizeWindow | src/event/event.c:48-72 | the slot gets `ToggleStep` of the old state; the move/resize is followed by the border pass for `w` |
| Event.HandleButtonPress | src/event/event.c:164-207 | a press updates the drag state and issues commands exactly as `Step` says |
| Event.HandleMotion | src/event/event.c:214-241 | motion issues `MotionCommands` of the drag state |
| Event.HandleKeyPress | src/event/event.c:243-291 | a key press updates the state table and issues commands exactly as `KeyStep` says |
| Event.HandleMapRequest | src/event/event.c:293-315 | a map request updates the registry and issues commands exactly as `Step` says |
| Event.HandleDestroyNotify | src/event/event.c:429-440 | a destroy notification updates the registry and issues commands exactly as `Step` says |
| Event.HandleEvent | src/event/event.c:160-447 | `mocha_handle_event` leaves the registry, state table and drag state as `Step` says, and issues its command list |
| EventLemmas.MinimizeIdempotent | src/event/event.c:30-36 | minimize unmaps and flags only a window that is not minimized; a second minimize changes nothing and issues nothing |
| EventLemmas.RestoreUndoesMinimize | src/event/event.c:38-46 | restore after minimize gives back the state and maps, raises and focuses; restoring a window that is not minimized is a no-op |
| EventLemmas.MaximizeRoundTrip | src/event/event.c:48-70 | maximize saves the current geometry and fills the screen less the borders; the second toggle moves back to exactly the saved geometry and clears the flag |
| EventLemmas.MinimizeAliases | src/util/client.c:36-38 | minimizing `v` through Alt+M also marks `v + k*1024` minimized |
| EventLemmas.BordersHighlightExactlyFocused | src/event/event.c:81-92 | every client gets one border command, in order, and the focus colour goes exactly to the focused one |
| EventLemmas.LeaveHighlightsNone | src/event/event.c:423-426 | on LeaveNotify no client is highlighted |
| EventLemmas.EnterFocusesEntered | src/event/event.c:334-339 | EnterNotify focuses the window, then runs the border pass for it |
| EventLemmas.PressOverManaged | src/event/event.c:170-195 | a press over a managed child records the pointer and the child's geometry; it sets dragging for (Alt+)Button1 and resizing for Button3, depending on tiling |
| EventLemmas.PressOverUnmanaged | src/event/event.c:170-199 | a press elsewhere sets the active window to None and keeps the rest; a failed query changes nothing |
| EventLemmas.PressReplays | src/event/event.c:201-205 | every press ends with ReplayPointer, and only presses on the taskbar reach the dock click handler |
| EventLemmas.ReleaseStopsMotion | src/event/event.c:209-223 | release clears both modes, after which motion issues nothing |
| EventLemmas.MotionNeedsManagedActive | src/event/event.c:214-241 | motion changes no state, and acts only on a managed active window that is in a mode |
| EventLemmas.DragMovesByDelta | src/event/event.c:217-222 | dragging wins over resizing and moves to the anchor geometry plus the pointer offset |
| EventLemmas.ResizeFloor | src/event/event.c:223-229 | resizing sets each side to the anchor size plus the offset when above 50, else to 50 |
| EventLemmas.DestroyActiveStopsMotion | src/event/event.c:429-431 | destroying the dragged window (registered once) keeps the mode flags, but later motion does nothing |
| EventLemmas.DuplicateActiveSurvivesDestroy | src/util/client.c:52-62 | a dragged window registered twice is still dragged after one destroy notification |
| EventLemmas.KeyTargetChoice | src/event/event.c:248-256 | the shortcut target is the child under the pointer, or the focused window when the query fails or finds None or the root |
| EventLemmas.WindowShortcuts | src/event/event.c:257-273 | maximize, destroy and minimize fire exactly for Alt plus their key with a target that is neither None nor PointerRoot, and act on that target |
| EventLemmas.UnboundKeysDoNothing | src/event/event.c:257-289 | window shortcuts without a usable target, and keys without Alt other than the volume keys, do nothing; the volume keys work with or without Alt |
| EventLemmas.MaximizeTwiceRestores | src/event/event.c:265-267 | Alt+F twice on one window returns it to exactly its earlier geometry and leaves only the saved geometry changed |
| EventLemmas.DialogNeverRegistered | src/event/event.c:296-300 | a dialog is never registered; a file manager is spawned and the dialog destroyed |
| EventLemmas.MapAdmits | src/event/event.c:302-313 | any other window is appended when there is room, bordered, retiled when tiling, then mapped, focused and highlighted; when the registry is full it is still mapped but not registered |
| EventLemmas.DestroyRemoves | src/event/event.c:429-439 | a destroy notification removes the first registration, retiles when tiling and repaints the taskbar |
| EventLemmas.StaleStateSurvivesRemap | src/util/client.c:43-62 | a minimized window that is destroyed and mapped again is still marked minimized, so Alt+M on it does nothing |
| EventLemmas.ConfigureForcesBorder | src/event/event.c:317-331 | a configure request always gets border width 5 and the `CWBorderWidth` bit; the other mask bits and the requested geometry pass through |
| EventLemmas.StepFrame | src/event/event.c:163-444 | only map and destroy events change the registry, only key presses the state table, only presses and releases the drag state |
| EventLemmas.PointerEventsKeepRegistry | src/event/event.c:163-444 | a run of events without map or destroy events never changes the registry |
| App.Cleaned | src/util/app.c:18-27 | cleanup keeps the length of the command |
| App.CleanupExec | src/util/app.c:18-27 | the in-place pointer loop leaves `Cleaned` of the old buffer |
| App.CleanedHasNoPercent | src/util/app.c:18-27 | no `%` is left after cleanup |
| App.CleanedPointwise | src/util/app.c:18-27 | each character is either kept or blanked; every `%` is blanked, and so is the character after a `%` that does not itself follow a `%` |
| App.PercentRun | src/util/app.c:19-25 | the length of the run of `%` just before a position: every character in it is `%`, and the one before it is not |
| App.CleanedChar | src/util/app.c:18-27 | the full effect of the cleanup: a character becomes a space exactly when it is a `%` or follows an odd run of `%`, and is kept otherwise |
| App.CleanedBlanksFollower | src/util/app.c:22-24 | the character right after a `%` that does not itself follow a `%` is blanked |
| App.CleanedIdentity | src/util/app.c:18-27 | a command without `%` is left alone |
| App.CleanedIdempotent | src/util/app.c:18-27 | cleaning twice is the same as cleaning once |
| App.CleanedExamples | src/util/app.c:18-27 | `%u` becomes two spaces, `%%` becomes two spaces and keeps the next character, and a trailing `%` becomes one space |
| App.ParseDesktopFile | src/util/app.c:29-52 | an unopenable file leaves the entry unchanged; otherwise the line loop computes `DesktopLines` |
| App.ParseDesktopLine | src/util/app.c:36-49 | the body of the line loop performs exactly one `DesktopLine` step |
| App.ScanField | src/util/app.c:37 | what `sscanf(line, "<key>%[^\n]", field)` leaves in the field; property in `ScanFieldReads` |
| App.DesktopLine | src/util/app.c:36-49 | one line of a desktop file; properties in `DesktopLineDispatch` and `FieldLinesSet` |
| App.DesktopLines | src/util/app.c:35-50 | the entry after a sequence of lines; properties in `LaterLineWins` and `ExecStaysClean` |
| App.DesktopFile | src/util/app.c:29-52 | `parse_desktop_file` on a file that may not open; the method `ParseDesktopFile` is proved equal to it |
| App.PrefixesExclude | src/util/app.c:36-49 | two keys that differ in their first two characters never both start a line |
| App.DesktopLineDispatch | src/util/app.c:36-49 | the five key prefixes exclude each other, so each key line sets only its own field, and other lines are ignored |
| App.ScanFieldReads | src/util/app.c:37 | the conversion reads the value up to the newline, and keeps the old field when the value is empty |
| App.FieldLinesSet | src/util/app.c:36-44 | `Name=`, `Icon=` and `StartupWMClass=` lines set their field to the value; `Exec=` sets the cleaned value |
| App.NoDisplayHides | src/util/app.c:45-48 | `NoDisplay=true` empties the name |
| App.LaterLineWins | src/util/app.c:35-44 | for `Name=`, `Exec=`, `Icon=` and `StartupWMClass=`, a later line overrides an earlier one; `Exec=` stores the cleaned value |
| App.LastLineWins | src/util/app.c:35-44 | whatever lines came before, a final `Name=`, `Exec=`, `Icon=` or `StartupWMClass=` line with a value decides its field |
| App.ExecStaysClean | src/util/app.c:38-40 | once the command has no `%`, no later line brings one back |
| App.ScanEntry | src/util/app.c:161-169 | a `.desktop` entry is parsed into the current slot and every other slot is kept; other entries change nothing; the count goes up by one exactly when the parsed entry has a name and a command |
| App.ScanEntries | src/util/app.c:161-170 | a directory scan keeps the count within 512 and never lowers it |
| App.ScanDirs | src/util/app.c:141-173 | the whole scan keeps the count within 512 |
| App.ScanEntriesAdmits | src/util/app.c:161-169 | in one directory only entries with a non-empty name and command are counted |
| App.ScanDirsAdmits | src/util/app.c:141-173 | every counted application has a non-empty name and command |
| App.ScanSaturated | src/util/app.c:161 | once the table is full, the remaining entries change nothing |
| App.OtherEntriesSkipped | src/util/app.c:162 | entries whose name lacks `.desktop` are skipped |
| App.IsDesktopName | src/util/app.c:162 | the `strstr(name, ".desktop")` filter; property in `OtherEntriesSkipped` |
| App.Admitted | src/util/app.c:165-167 | every counted slot has a name and a command; kept by `ScanEntriesAdmits` and `ScanDirsAdmits` |
| App.StaleFieldsLeak | src/util/app.c:165-168 | a rejected entry's fields stay in its slot, so a name-only file followed by a command-only file yields one application with both |
| App.AppTable.Apps | src/util/app.c:14-16 | the found applications number at most 512, and each has a name and a command |
| App.AppTable.constructor | src/util/app.c:14-16 | the table starts empty and not loaded |
| App.AppTable.FindApplications | src/util/app.c:134-175 | the first call scans the directories into the table as `ScanDirs` says and sets the loaded flag; later calls change nothing |
| App.AppTable.ScanDirectory | src/util/app.c:161-170 | the `readdir` loop over one directory, which stops once 512 applications are stored, computes `ScanEntries` |
| App.AppTable.FindAppByWmClass | src/util/app.c:177-185 | None for a missing class; otherwise the first application whose non-empty class equals the argument, or None when there is none |

## Left out

- Rendering: `round_corners` (XShape masks), cairo/Xft drawing of the dock, toasts and the quote window, icon loading (`load_app_icon`, `find_icon_path`) and wallpaper handling. These are graphics library calls, partly in floating point. The Expose case of `mocha_handle_event` only draws, so it is treated like any other ignored event.
- `mocha_handle_dock_click`: its hit test uses `sqrt`/`pow`. A press on the taskbar becomes the `DockClick` command.
- The `* 0.95` step of `mocha_tile_clients`: it is floating point. `usable_w`/`usable_h` (and the screen size less the taskbar) are inputs (`Client.TileArea`).
- `show_volume_toast`, `system(...)`, `mocha_shutdown`, `mocha_launch_menu`, `mocha_update_dock_icons`, and the taskbar repaint event: each becomes an abstract command (`VolumeToast`, `Spawn`, `Shutdown`, `LaunchMenu`, `UpdateDockIcons`, `RepaintTaskbar`). They depend on processes, X properties and the icon tables.
- `is_dialog`, `get_wm_class` and the X queries: their answers are fields of the event.
- `XSync`/`XFlush` and the final `XSync` of the dispatcher: these are not state changes of the core.
- File and directory I/O (`fopen`, `fgets`, `opendir`, `readdir`, `getenv("HOME")`): a file is given as its lines, a directory as its entries, and a failure to open as None.
- `fgets` splits lines longer than 511 characters into several lines. The model takes lines as given.
- `src/ui/toast.c`, `src/mocha_launcher.c`, `src/main.c` and `src/util/mocha_util.c` are not part of this model, except as the callers they are.
- The header declaring `struct DragState`, `DockIcon` and `MAX_DOCK_ICONS` is not part of this model. The dock capacity and field sizes are therefore parameters of `Client.Dock`.
- ConfigFile.Assign: `strncpy` with the full field size leaves a field unterminated when the value fills it. The model reads such a field back as exactly the copied characters.
- App.DesktopLine: `sscanf` into a 256-byte field can overflow it for a longer value. The model stores the whole value.
- Event.KeyTarget: the model assumes one screen. Both `XQueryPointer` calls pass the global `root` as `root_return`, which overwrites it; on one screen the value written back is `root` itself, so `Env.root` stays constant. With several screens the global could change, and the model does not capture that.
- ConfigFile.Atoi: the `int` range of `atoi` is not modelled. The value of a long digit string is unbounded here.
- Client.CDiv and all tiling arithmetic: `int` is unbounded here. 32-bit overflow of the C arithmetic, and the unsigned width/height parameters of the X calls, are not modelled.
- Event.Step: `restore_window` is never reached from the dispatcher. It is modelled as `Event.RestoreWindow` but has no event.
- Event.HandleKeyPress: the source evaluates the shortcut chain inline. The model first computes the chosen action (`KeyActionFor`) and then performs it, which is the same order of effects.
- App.ParseDesktopFile: the `icon_surface = NULL` reset is not modelled, because icon surfaces are left out.
- `mocha_draw_dock`'s repositioning of dock icons is left out. The dock icon coordinates are drawing state.
