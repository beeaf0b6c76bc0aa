/** Desktop-entry handling of src/util/app.c: the `%`-code blanking of Exec
    lines, the line dispatch of `parse_desktop_file`, the scan that fills the
    application table, and the lookup by window class.  Opening files and
    directories is left to the caller: a file is its lines (None when it cannot
    be opened) and a directory its entries (None when it cannot be opened). */
module App {
  import opened Wrappers
  import opened CString

  /** `MAX_APPS`, the capacity of the `apps` table. */
  const MAX_APPS: nat := 512

  /** `AppInfo` without its icon surface. */
  datatype AppInfo = AppInfo(name: string, exec: string, icon: string, wmClass: string)

  /** A zero-initialised table slot. */
  const EMPTY_APP: AppInfo := AppInfo("", "", "", "")

  // ---------------------------------------------------------------- cleanup_exec_command

  /** `cleanup_exec_command`: each `%` the scan meets becomes a space, and so does
      the character after it; the scan then resumes two places further on. */
  function Cleaned(s: string): (r: string)
    ensures |r| == |s|
    decreases |s|
  {
    if s == [] then []
    else if s[0] == '%' then
      if |s| == 1 then [' '] else [' ', ' '] + Cleaned(s[2..])
    else [s[0]] + Cleaned(s[1..])
  }

  /** The pointer loop of `cleanup_exec_command`, in place on the buffer. */
  method CleanupExec(a: array<char>)
    modifies a
    ensures a[..] == Cleaned(old(a[..]))
  {
    ghost var s := a[..];
    var i := 0;
    while i < a.Length
      invariant 0 <= i <= a.Length
      invariant Cleaned(s) == a[..i] + Cleaned(a[i..])
    {
      ghost var before, rest := a[..i], a[i..];
      if a[i] == '%' {
        CleanedPercent(rest);
        a[i] := ' ';
        if i + 1 < a.Length {
          a[i + 1] := ' ';
          assert a[i + 1..] == [' '] + rest[2..];
        } else {
          assert a[i + 1..] == [];
        }
        assert a[..i + 1] == before + [' '];
      } else {
        assert a[..i + 1] == before + [a[i]];
        assert rest[1..] == a[i + 1..];
      }
      i := i + 1;
    }
    assert a[i..] == [];
    assert a[..i] == a[..];
  }

  /** Blanking a `%` and the character after it, seen from the cleaned suffix. */
  lemma CleanedPercent(t: string)
    requires t != [] && t[0] == '%'
    ensures |t| == 1 ==> Cleaned(t) == [' '] + Cleaned([])
    ensures |t| > 1 ==> Cleaned(t) == [' '] + Cleaned([' '] + t[2..])
  {
    if |t| > 1 {
      assert ([' '] + t[2..])[1..] == t[2..];
    }
  }

  /** No `%` survives the cleanup. */
  lemma {:induction false} CleanedHasNoPercent(s: string)
    ensures '%' !in Cleaned(s)
    decreases |s|
  {
    if s != [] {
      if s[0] == '%' {
        if |s| > 1 {
          CleanedHasNoPercent(s[2..]);
        }
      } else {
        CleanedHasNoPercent(s[1..]);
      }
    }
  }

  /** Each character is kept or blanked, every `%` is blanked, and so is the
      character after a `%` that does not itself follow a `%`. */
  lemma {:induction false} CleanedPointwise(s: string)
    ensures forall j :: 0 <= j < |s| ==> Cleaned(s)[j] == s[j] || Cleaned(s)[j] == ' '
    ensures forall j :: 0 <= j < |s| && s[j] == '%' ==> Cleaned(s)[j] == ' '
    ensures forall j :: 0 < j < |s| && s[j - 1] == '%' && (j == 1 || s[j - 2] != '%') ==> Cleaned(s)[j] == ' '
    decreases |s|
  {
    forall j | 0 < j < |s| && s[j - 1] == '%' && (j == 1 || s[j - 2] != '%')
      ensures Cleaned(s)[j] == ' '
    {
      CleanedBlanksFollower(s, j - 1);
    }
    if s != [] {
      if s[0] == '%' {
        if |s| > 1 {
          CleanedPointwise(s[2..]);
          assert forall j :: 2 <= j < |s| ==> Cleaned(s)[j] == Cleaned(s[2..])[j - 2];
        }
      } else {
        CleanedPointwise(s[1..]);
        assert forall j :: 1 <= j < |s| ==> Cleaned(s)[j] == Cleaned(s[1..])[j - 1];
      }
    }
  }

  /** The number of `%` characters immediately before index `j`. */
  function PercentRun(s: string, j: nat): (r: nat)
    requires j <= |s|
    ensures r <= j
    ensures forall k :: j - r <= k < j ==> s[k] == '%'
    ensures r < j ==> s[j - r - 1] != '%'
  {
    if j == 0 || s[j - 1] != '%' then 0 else 1 + PercentRun(s, j - 1)
  }

  /** The run before `j` seen from a suffix starting at `k`: it is cut at `k`. */
  lemma {:induction false} PercentRunSuffix(s: string, k: nat, j: nat)
    requires k <= j <= |s|
    ensures PercentRun(s[k..], j - k) == if PercentRun(s, j) <= j - k then PercentRun(s, j) else j - k
    decreases j
  {
    if j > k && s[j - 1] == '%' {
      assert s[k..][j - k - 1] == s[j - 1];
      PercentRunSuffix(s, k, j - 1);
    } else if j > k {
      assert s[k..][j - k - 1] == s[j - 1];
    }
  }

  /** The whole effect of the cleanup: the `j`-th character is blanked exactly
      when it is a `%`, or it follows an odd run of `%` (the first `%` of each
      pair starts a field code and the character after it is blanked with it). */
  lemma {:induction false} CleanedChar(s: string, j: nat)
    requires j < |s|
    ensures Cleaned(s)[j] == if s[j] == '%' || PercentRun(s, j) % 2 == 1 then ' ' else s[j]
    decreases |s|
  {
    if s[0] == '%' && |s| > 1 {
      if j >= 2 {
        assert Cleaned(s)[j] == Cleaned(s[2..])[j - 2];
        CleanedChar(s[2..], j - 2);
        PercentRunSuffix(s, 2, j);
        assert s[2..][j - 2] == s[j];
        if PercentRun(s, j) > j - 2 {
          assert s[0] == '%' && s[1] == '%';
          assert PercentRun(s, j) == j;
        }
      } else if j == 1 {
        assert PercentRun(s, 1) == 1;
      }
    } else if s[0] != '%' && j >= 1 {
      assert Cleaned(s)[j] == Cleaned(s[1..])[j - 1];
      CleanedChar(s[1..], j - 1);
      PercentRunSuffix(s, 1, j);
      assert s[1..][j - 1] == s[j];
    }
  }

  /** The character right after a `%` that does not itself follow a `%` is blanked. */
  lemma CleanedBlanksFollower(s: string, j: nat)
    requires j + 1 < |s| && s[j] == '%' && (j == 0 || s[j - 1] != '%')
    ensures Cleaned(s)[j + 1] == ' '
  {
    CleanedChar(s, j + 1);
    assert PercentRun(s, j + 1) == 1;
  }

  /** A command without `%` codes is left alone. */
  lemma {:induction false} CleanedIdentity(s: string)
    requires '%' !in s
    ensures Cleaned(s) == s
    decreases |s|
  {
    if s != [] {
      assert s[0] in s;
      assert forall c :: c in s[1..] ==> c in s;
      CleanedIdentity(s[1..]);
    }
  }

  /** Cleaning twice is cleaning once. */
  lemma CleanedIdempotent(s: string)
    ensures Cleaned(Cleaned(s)) == Cleaned(s)
  {
    CleanedHasNoPercent(s);
    CleanedIdentity(Cleaned(s));
  }

  /** A field code and the character after it become two spaces; in `%%` the
      second `%` is the blanked follower, so the character after it is kept. */
  lemma CleanedExamples()
    ensures Cleaned("ls %u") == "ls   "
    ensures Cleaned("a%%b") == "a  b"
    ensures Cleaned("%") == " "
  {
    assert "ls %u"[1..] == "s %u" && "s %u"[1..] == " %u" && " %u"[1..] == "%u" && "%u"[2..] == [];
    assert "a%%b"[1..] == "%%b" && "%%b"[2..] == "b" && "b"[1..] == [];
  }

  // ---------------------------------------------------------------- parse_desktop_file

  /** `sscanf(line, "<key>%[^\n]", field)`: the rest of the line up to the newline,
      or the field unchanged when that is empty (the conversion fails). */
  function ScanField(line: string, key: string, field: string): string
    requires HasPrefix(line, key)
  {
    var v := UpToNewline(line[|key|..]);
    if v == [] then field else v
  }

  /** One line of a desktop file; the first matching prefix wins. */
  function DesktopLine(info: AppInfo, line: string): AppInfo
  {
    if HasPrefix(line, "Name=") then info.(name := ScanField(line, "Name=", info.name))
    else if HasPrefix(line, "Exec=") then info.(exec := Cleaned(ScanField(line, "Exec=", info.exec)))
    else if HasPrefix(line, "Icon=") then info.(icon := ScanField(line, "Icon=", info.icon))
    else if HasPrefix(line, "StartupWMClass=") then
      info.(wmClass := ScanField(line, "StartupWMClass=", info.wmClass))
    else if HasPrefix(line, "NoDisplay=") then
      if Contains(line, "true") then info.(name := "") else info
    else info
  }

  /** The lines of a file, in order. */
  function DesktopLines(info: AppInfo, lines: seq<string>): AppInfo
  {
    if lines == [] then info
    else DesktopLine(DesktopLines(info, lines[..|lines| - 1]), lines[|lines| - 1])
  }

  /** `parse_desktop_file` on a file that may fail to open. */
  function DesktopFile(info: AppInfo, file: Option<seq<string>>): AppInfo
  {
    match file
    case None => info
    case Some(lines) => DesktopLines(info, lines)
  }

  /** One pass of the `fgets` loop of `parse_desktop_file`. */
  method ParseDesktopLine(info: AppInfo, line: string) returns (r: AppInfo)
    ensures r == DesktopLine(info, line)
  {
    r := info;
    if HasPrefix(line, "Name=") {
      var v := UpToNewline(line[5..]);
      if v != [] { r := r.(name := v); }
    } else if HasPrefix(line, "Exec=") {
      var v := UpToNewline(line[5..]);
      var exec := if v != [] then v else r.exec;
      var buf := new char[|exec|](k requires 0 <= k < |exec| => exec[k]);
      assert buf[..] == exec;
      CleanupExec(buf);
      r := r.(exec := buf[..]);
    } else if HasPrefix(line, "Icon=") {
      var v := UpToNewline(line[5..]);
      if v != [] { r := r.(icon := v); }
    } else if HasPrefix(line, "StartupWMClass=") {
      var v := UpToNewline(line[15..]);
      if v != [] { r := r.(wmClass := v); }
    } else if HasPrefix(line, "NoDisplay=") {
      if Contains(line, "true") { r := r.(name := ""); }
    }
  }

  /** `parse_desktop_file(path, info)`: fills `*info` line by line. */
  method ParseDesktopFile(file: Option<seq<string>>, info: AppInfo) returns (r: AppInfo)
    ensures r == DesktopFile(info, file)
  {
    r := info;
    if file.None? {
      return;
    }
    var lines := file.value;
    var i := 0;
    while i < |lines|
      invariant i <= |lines|
      invariant r == DesktopLines(info, lines[..i])
    {
      r := ParseDesktopLine(r, lines[i]);
      assert lines[..i + 1][..i] == lines[..i];
      i := i + 1;
    }
    assert lines[..i] == lines;
  }

  /** The two first characters of a line with a given prefix. */
  lemma PrefixHead(line: string, p: string)
    requires |p| >= 2 && HasPrefix(line, p)
    ensures line[0] == p[0] && line[1] == p[1]
  {
    assert line[..|p|][0] == line[0] && line[..|p|][1] == line[1];
  }

  /** The five prefixes exclude each other, so each key line sets its own
      field whatever the order of the tests, and any other line is ignored. */
  lemma DesktopLineDispatch(info: AppInfo, line: string)
    ensures HasPrefix(line, "Name=") ==>
              DesktopLine(info, line) == info.(name := ScanField(line, "Name=", info.name))
    ensures HasPrefix(line, "Exec=") ==>
              DesktopLine(info, line) == info.(exec := Cleaned(ScanField(line, "Exec=", info.exec)))
    ensures HasPrefix(line, "Icon=") ==>
              DesktopLine(info, line) == info.(icon := ScanField(line, "Icon=", info.icon))
    ensures HasPrefix(line, "StartupWMClass=") ==>
              DesktopLine(info, line) == info.(wmClass := ScanField(line, "StartupWMClass=", info.wmClass))
    ensures HasPrefix(line, "NoDisplay=") ==>
              DesktopLine(info, line) == if Contains(line, "true") then info.(name := "") else info
    ensures !HasPrefix(line, "Name=") && !HasPrefix(line, "Exec=") && !HasPrefix(line, "Icon=")
            && !HasPrefix(line, "StartupWMClass=") && !HasPrefix(line, "NoDisplay=") ==>
              DesktopLine(info, line) == info
  {
    if HasPrefix(line, "Exec=") {
      PrefixesExclude(line, "Exec=", "Name=");
    }
    if HasPrefix(line, "Icon=") {
      PrefixesExclude(line, "Icon=", "Name=");
      PrefixesExclude(line, "Icon=", "Exec=");
    }
    if HasPrefix(line, "StartupWMClass=") {
      PrefixesExclude(line, "StartupWMClass=", "Name=");
      PrefixesExclude(line, "StartupWMClass=", "Exec=");
      PrefixesExclude(line, "StartupWMClass=", "Icon=");
    }
    if HasPrefix(line, "NoDisplay=") {
      PrefixesExclude(line, "NoDisplay=", "Name=");
      PrefixesExclude(line, "NoDisplay=", "Exec=");
      PrefixesExclude(line, "NoDisplay=", "Icon=");
      PrefixesExclude(line, "NoDisplay=", "StartupWMClass=");
    }
  }

  /** Two keys that differ in their first two characters never both start a line. */
  lemma PrefixesExclude(line: string, p: string, q: string)
    requires |p| >= 2 && |q| >= 2 && (p[0] != q[0] || p[1] != q[1]) && HasPrefix(line, p)
    ensures !HasPrefix(line, q)
  {
    PrefixHead(line, p);
    if HasPrefix(line, q) {
      PrefixHead(line, q);
    }
  }

  /** On a line `key + value + "\n"` the conversion reads exactly `value`, and
      fails (keeping the field) when `value` is empty. */
  lemma ScanFieldReads(key: string, value: string, field: string)
    requires '\n' !in value
    ensures HasPrefix(key + value + "\n", key)
    ensures ScanField(key + value + "\n", key, field) == if value == [] then field else value
  {
    var line := key + value + "\n";
    assert line[..|key|] == key;
    assert line[|key|..] == value + "\n";
    var r := UpToNewline(value + "\n");
    assert |r| == |value|;
    assert r == value;
  }

  /** `Name=`, `Icon=` and `StartupWMClass=` lines with a value set that field to
      it; an `Exec=` line sets the command to its value with the codes blanked. */
  lemma FieldLinesSet(info: AppInfo, value: string)
    requires value != [] && '\n' !in value
    ensures DesktopLine(info, "Name=" + value + "\n") == info.(name := value)
    ensures DesktopLine(info, "Exec=" + value + "\n") == info.(exec := Cleaned(value))
    ensures DesktopLine(info, "Icon=" + value + "\n") == info.(icon := value)
    ensures DesktopLine(info, "StartupWMClass=" + value + "\n") == info.(wmClass := value)
  {
    ScanFieldReads("Name=", value, info.name);
    DesktopLineDispatch(info, "Name=" + value + "\n");
    ScanFieldReads("Exec=", value, info.exec);
    DesktopLineDispatch(info, "Exec=" + value + "\n");
    ScanFieldReads("Icon=", value, info.icon);
    DesktopLineDispatch(info, "Icon=" + value + "\n");
    ScanFieldReads("StartupWMClass=", value, info.wmClass);
    DesktopLineDispatch(info, "StartupWMClass=" + value + "\n");
  }

  /** `NoDisplay=true` hides the entry by emptying its name. */
  lemma NoDisplayHides(info: AppInfo)
    ensures DesktopLine(info, "NoDisplay=true\n") == info.(name := "")
  {
    var line := "NoDisplay=true\n";
    assert HasPrefix(line, "NoDisplay=");
    assert HasPrefix(line[10..], "true");
    ContainsAt(line, "true", 10);
    DesktopLineDispatch(info, line);
  }

  /** A later line for the same key overrides an earlier one. */
  lemma LaterLineWins(info: AppInfo, lines: seq<string>, a: string, b: string)
    requires a != [] && b != [] && '\n' !in a && '\n' !in b
    ensures DesktopLines(info, lines + ["Name=" + a + "\n", "Name=" + b + "\n"]).name == b
    ensures DesktopLines(info, lines + ["Exec=" + a + "\n", "Exec=" + b + "\n"]).exec == Cleaned(b)
    ensures DesktopLines(info, lines + ["Icon=" + a + "\n", "Icon=" + b + "\n"]).icon == b
    ensures DesktopLines(info, lines + ["StartupWMClass=" + a + "\n", "StartupWMClass=" + b + "\n"]).wmClass == b
  {
    var n1, n2 := "Name=" + a + "\n", "Name=" + b + "\n";
    var e1, e2 := "Exec=" + a + "\n", "Exec=" + b + "\n";
    var i1, i2 := "Icon=" + a + "\n", "Icon=" + b + "\n";
    var w1, w2 := "StartupWMClass=" + a + "\n", "StartupWMClass=" + b + "\n";
    assert lines + [n1, n2] == (lines + [n1]) + [n2];
    assert lines + [e1, e2] == (lines + [e1]) + [e2];
    assert lines + [i1, i2] == (lines + [i1]) + [i2];
    assert lines + [w1, w2] == (lines + [w1]) + [w2];
    LastLineWins(info, lines + [n1], b);
    LastLineWins(info, lines + [e1], b);
    LastLineWins(info, lines + [i1], b);
    LastLineWins(info, lines + [w1], b);
  }

  /** Whatever came before, a final key line decides its field. */
  lemma LastLineWins(info: AppInfo, lines: seq<string>, b: string)
    requires b != [] && '\n' !in b
    ensures DesktopLines(info, lines + ["Name=" + b + "\n"]).name == b
    ensures DesktopLines(info, lines + ["Exec=" + b + "\n"]).exec == Cleaned(b)
    ensures DesktopLines(info, lines + ["Icon=" + b + "\n"]).icon == b
    ensures DesktopLines(info, lines + ["StartupWMClass=" + b + "\n"]).wmClass == b
  {
    var prev := DesktopLines(info, lines);
    FieldLinesSet(prev, b);
    LastLineSets(info, lines, "Name=" + b + "\n");
    LastLineSets(info, lines, "Exec=" + b + "\n");
    LastLineSets(info, lines, "Icon=" + b + "\n");
    LastLineSets(info, lines, "StartupWMClass=" + b + "\n");
  }

  lemma LastLineSets(info: AppInfo, lines: seq<string>, line: string)
    ensures DesktopLines(info, lines + [line]) == DesktopLine(DesktopLines(info, lines), line)
  {
    assert (lines + [line])[..|lines|] == lines;
  }

  /** Once the command is clean it stays clean, whatever lines follow. */
  lemma {:induction false} ExecStaysClean(info: AppInfo, lines: seq<string>)
    requires '%' !in info.exec
    ensures '%' !in DesktopLines(info, lines).exec
    decreases |lines|
  {
    if lines != [] {
      ExecStaysClean(info, lines[..|lines| - 1]);
      var line := lines[|lines| - 1];
      if !HasPrefix(line, "Name=") && HasPrefix(line, "Exec=") {
        CleanedHasNoPercent(ScanField(line, "Exec=", DesktopLines(info, lines[..|lines| - 1]).exec));
      }
    }
  }

  // ---------------------------------------------------------------- find_applications

  /** A directory entry: its file name and the file's lines. */
  datatype DirEntry = DirEntry(name: string, file: Option<seq<string>>)

  predicate IsDesktopName(name: string)
  {
    Contains(name, ".desktop")
  }

  /** One entry read while slot `count` is free: a desktop file is parsed into
      the slot as it stands, and kept only with a name and a command. */
  function ScanEntry(slots: seq<AppInfo>, count: nat, e: DirEntry): (r: (seq<AppInfo>, nat))
    requires count < |slots|
    ensures |r.0| == |slots| && count <= r.1 <= count + 1
    ensures forall j :: 0 <= j < |slots| && j != count ==> r.0[j] == slots[j]
    ensures !IsDesktopName(e.name) ==> r == (slots, count)
    ensures IsDesktopName(e.name) ==> r.0[count] == DesktopFile(slots[count], e.file)
    ensures r.1 == count + 1 <==> IsDesktopName(e.name) && r.0[count].name != [] && r.0[count].exec != []
  {
    if IsDesktopName(e.name) then
      var info := DesktopFile(slots[count], e.file);
      (slots[count := info], if info.name != [] && info.exec != [] then count + 1 else count)
    else (slots, count)
  }

  /** The entries of one directory, read while the table has room. */
  function ScanEntries(slots: seq<AppInfo>, count: nat, es: seq<DirEntry>): (r: (seq<AppInfo>, nat))
    requires |slots| == MAX_APPS && count <= MAX_APPS
    ensures |r.0| == MAX_APPS && count <= r.1 <= MAX_APPS
    decreases |es|
  {
    if es == [] then (slots, count)
    else
      var p := ScanEntries(slots, count, es[..|es| - 1]);
      if p.1 < MAX_APPS then ScanEntry(p.0, p.1, es[|es| - 1]) else p
  }

  /** The application directories in order; one that cannot be opened is skipped. */
  function ScanDirs(slots: seq<AppInfo>, count: nat, dirs: seq<Option<seq<DirEntry>>>): (r: (seq<AppInfo>, nat))
    requires |slots| == MAX_APPS && count <= MAX_APPS
    ensures |r.0| == MAX_APPS && count <= r.1 <= MAX_APPS
    decreases |dirs|
  {
    if dirs == [] then (slots, count)
    else
      var p := ScanDirs(slots, count, dirs[..|dirs| - 1]);
      match dirs[|dirs| - 1]
      case None => p
      case Some(es) => ScanEntries(p.0, p.1, es)
  }

  /** Every kept entry has a name and a command. */
  ghost predicate Admitted(slots: seq<AppInfo>, count: nat)
  {
    count <= |slots| && forall j :: 0 <= j < count ==> slots[j].name != [] && slots[j].exec != []
  }

  lemma {:induction false} ScanEntriesAdmits(slots: seq<AppInfo>, count: nat, es: seq<DirEntry>)
    requires |slots| == MAX_APPS && count <= MAX_APPS && Admitted(slots, count)
    ensures Admitted(ScanEntries(slots, count, es).0, ScanEntries(slots, count, es).1)
    decreases |es|
  {
    if es != [] {
      ScanEntriesAdmits(slots, count, es[..|es| - 1]);
    }
  }

  /** The scan keeps only entries with a name and a command. */
  lemma {:induction false} ScanDirsAdmits(slots: seq<AppInfo>, count: nat, dirs: seq<Option<seq<DirEntry>>>)
    requires |slots| == MAX_APPS && count <= MAX_APPS && Admitted(slots, count)
    ensures Admitted(ScanDirs(slots, count, dirs).0, ScanDirs(slots, count, dirs).1)
    decreases |dirs|
  {
    if dirs != [] {
      ScanDirsAdmits(slots, count, dirs[..|dirs| - 1]);
      var p := ScanDirs(slots, count, dirs[..|dirs| - 1]);
      if dirs[|dirs| - 1].Some? {
        ScanEntriesAdmits(p.0, p.1, dirs[|dirs| - 1].value);
      }
    }
  }

  /** Once the table is full, further entries change nothing. */
  lemma {:induction false} ScanSaturated(slots: seq<AppInfo>, count: nat, es: seq<DirEntry>, k: nat)
    requires |slots| == MAX_APPS && count <= MAX_APPS && k <= |es|
    requires k == |es| || ScanEntries(slots, count, es[..k]).1 == MAX_APPS
    ensures ScanEntries(slots, count, es) == ScanEntries(slots, count, es[..k])
    decreases |es|
  {
    if k == |es| {
      assert es[..k] == es;
    } else {
      assert es[..|es| - 1][..k] == es[..k];
      ScanSaturated(slots, count, es[..|es| - 1], k);
    }
  }

  /** Entries whose name does not contain ".desktop" are skipped. */
  lemma OtherEntriesSkipped(slots: seq<AppInfo>, count: nat, es: seq<DirEntry>, e: DirEntry)
    requires |slots| == MAX_APPS && count <= MAX_APPS && !IsDesktopName(e.name)
    ensures ScanEntries(slots, count, es + [e]) == ScanEntries(slots, count, es)
  {
    assert (es + [e])[..|es|] == es;
  }

  lemma DesktopNames()
    ensures IsDesktopName("a.desktop") && IsDesktopName("b.desktop")
  {
    assert HasPrefix("a.desktop"[1..], ".desktop");
    ContainsAt("a.desktop", ".desktop", 1);
    assert HasPrefix("b.desktop"[1..], ".desktop");
    ContainsAt("b.desktop", ".desktop", 1);
  }

  lemma NameOnlyFile(info: AppInfo)
    ensures DesktopFile(info, Some(["Name=Foo\n"])) == info.(name := "Foo")
  {
    var line := "Name=" + "Foo" + "\n";
    assert line == "Name=Foo\n";
    FieldLinesSet(info, "Foo");
    assert DesktopLine(info, line) == info.(name := "Foo");
    assert [line][..0] == [];
    assert DesktopLines(info, [line]) == DesktopLine(info, line);
  }

  lemma ExecOnlyFile(info: AppInfo)
    ensures DesktopFile(info, Some(["Exec=bar\n"])) == info.(exec := "bar")
  {
    var line := "Exec=" + "bar" + "\n";
    assert line == "Exec=bar\n";
    FieldLinesSet(info, "bar");
    CleanedIdentity("bar");
    assert DesktopLine(info, line) == info.(exec := "bar");
    assert [line][..0] == [];
    assert DesktopLines(info, [line]) == DesktopLine(info, line);
  }

  /** A rejected entry is not cleared: its fields stay in the slot, and the
      next desktop file is parsed on top of them.  Here a file with only a name
      and a file with only a command make one application out of the two. */
  lemma StaleFieldsLeak(slots: seq<AppInfo>)
    requires |slots| == MAX_APPS && slots[0] == EMPTY_APP
    ensures var es := [DirEntry("a.desktop", Some(["Name=Foo\n"])), DirEntry("b.desktop", Some(["Exec=bar\n"]))];
            ScanEntries(slots, 0, es) == (slots[0 := AppInfo("Foo", "bar", "", "")], 1)
  {
    var a := DirEntry("a.desktop", Some(["Name=Foo\n"]));
    var b := DirEntry("b.desktop", Some(["Exec=bar\n"]));
    DesktopNames();
    NameOnlyFile(EMPTY_APP);
    var s1 := slots[0 := EMPTY_APP.(name := "Foo")];
    assert ScanEntry(slots, 0, a) == (s1, 0);
    assert [a][..0] == [];
    assert ScanEntries(slots, 0, [a]) == (s1, 0);
    ExecOnlyFile(s1[0]);
    var leaked := AppInfo("Foo", "bar", "", "");
    assert s1[0].(exec := "bar") == leaked;
    assert leaked.name != [] && leaked.exec != [];
    assert s1[0 := leaked] == slots[0 := leaked];
    assert ScanEntry(s1, 0, b) == (slots[0 := AppInfo("Foo", "bar", "", "")], 1);
    assert [a, b][..1] == [a];
  }

  /** The global `apps` table with `app_count` and `apps_loaded`. */
  class AppTable {
    const apps: array<AppInfo>
    var appCount: nat
    var appsLoaded: bool

    ghost predicate Valid()
      reads this, apps
    {
      apps.Length == MAX_APPS && appCount <= MAX_APPS && Admitted(apps[..], appCount)
    }

    /** The applications found so far. */
    function Apps(): (s: seq<AppInfo>)
      reads this, apps
      requires Valid()
      ensures |s| <= MAX_APPS
      ensures forall app :: app in s ==> app.name != [] && app.exec != []
    {
      apps[..appCount]
    }

    constructor ()
      ensures Valid() && Apps() == [] && !appsLoaded
      ensures apps[..] == seq(MAX_APPS, _ => EMPTY_APP)
    {
      apps := new AppInfo[MAX_APPS](_ => EMPTY_APP);
      appCount := 0;
      appsLoaded := false;
    }

    /** `find_applications()`: scans the directories once; later calls return at once. */
    method FindApplications(dirs: seq<Option<seq<DirEntry>>>)
      requires Valid()
      modifies this, apps
      ensures Valid() && appsLoaded
      ensures old(appsLoaded) ==> appCount == old(appCount) && apps[..] == old(apps[..])
      ensures !old(appsLoaded) ==> (apps[..], appCount) == ScanDirs(old(apps[..]), 0, dirs)
    {
      if appsLoaded {
        return;
      }
      appCount := 0;
      var d := 0;
      while d < |dirs|
        invariant apps.Length == MAX_APPS && appCount <= MAX_APPS && d <= |dirs|
        invariant (apps[..], appCount) == ScanDirs(old(apps[..]), 0, dirs[..d])
      {
        assert dirs[..d + 1][..d] == dirs[..d];
        if dirs[d].Some? {
          ScanDirectory(dirs[d].value);
        }
        d := d + 1;
      }
      assert dirs[..d] == dirs;
      ScanDirsAdmits(old(apps[..]), 0, dirs);
      appsLoaded := true;
    }

    /** The `readdir` loop of `find_applications` over one opened directory. */
    method ScanDirectory(entries: seq<DirEntry>)
      requires apps.Length == MAX_APPS && appCount <= MAX_APPS
      modifies this`appCount, apps
      ensures (apps[..], appCount) == ScanEntries(old(apps[..]), old(appCount), entries)
    {
      ghost var start, startCount := apps[..], appCount;
      var k := 0;
      while k < |entries| && appCount < MAX_APPS
        invariant appCount <= MAX_APPS && k <= |entries|
        invariant (apps[..], appCount) == ScanEntries(start, startCount, entries[..k])
      {
        assert entries[..k + 1][..k] == entries[..k];
        var e := entries[k];
        if Contains(e.name, ".desktop") {
          var info := ParseDesktopFile(e.file, apps[appCount]);
          apps[appCount] := info;
          if info.name != [] && info.exec != [] {
            appCount := appCount + 1;
          }
        }
        k := k + 1;
      }
      ScanSaturated(start, startCount, entries, k);
    }

    /** `find_app_by_wmclass(wm_class)`: the first application whose non-empty
        window class equals the argument. */
    method FindAppByWmClass(cls: Option<string>) returns (r: Option<nat>)
      requires Valid()
      ensures cls.None? ==> r.None?
      ensures r.Some? ==> r.value < appCount && apps[r.value].wmClass != [] && apps[r.value].wmClass == cls.value
      ensures r.Some? ==> forall j :: 0 <= j < r.value ==> !(apps[j].wmClass != [] && apps[j].wmClass == cls.value)
      ensures cls.Some? && r.None? ==>
                forall j :: 0 <= j < appCount ==> !(apps[j].wmClass != [] && apps[j].wmClass == cls.value)
    {
      if cls.None? {
        return None;
      }
      var i := 0;
      while i < appCount
        invariant i <= appCount
        invariant forall j :: 0 <= j < i ==> !(apps[j].wmClass != [] && apps[j].wmClass == cls.value)
      {
        if apps[i].wmClass != [] && apps[i].wmClass == cls.value {
          return Some(i);
        }
        i := i + 1;
      }
      return None;
    }
  }
}
