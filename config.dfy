/** The configuration reader of src/util/config.c: `trim`, the per-line state
    machine of `parse_config` (blank and comment lines, `{` and `}` block
    markers, `key = value` pairs filed by block) and `get_border_width`.
    The file is given as the sequence of lines `fgets` would return. */
module ConfigFile {
  import opened Wrappers
  import opened CString

  const MAX_COLOR_LEN: nat := 16
  const MAX_KEYBIND_LEN: nat := 32
  const MAX_CMD_LEN: nat := 256
  const MAX_BINDS: nat := 32
  const MAX_PATH_LEN: nat := 256
  /** Size of `wallpaper_mode`. */
  const MAX_MODE_LEN: nat := 32
  /** Width of the `%31s` conversion that reads a block name. */
  const MAX_BLOCK_NAME: nat := 31

  /** `get_border_width()`: every managed window's border is this wide. */
  const BORDER_WIDTH: int := 5

  datatype Colors = Colors(
    border: string, focus: string, panel: string, foreground: string,
    accent: string, wallpaper: string, wallpaperMode: string)

  datatype Keybind = Keybind(key: string, action: string)

  datatype Features = Features(tilingEnabled: int, quotesEnabled: int, borderRadius: int)

  /** `struct Config`; `keybinds` holds the first `num_keybinds` entries of the array. */
  datatype Config = Config(
    colors: Colors, keybinds: seq<Keybind>, features: Features,
    launcherCmd: string, execOne: string)

  /** The zero-initialised global `config`. */
  const EMPTY_CONFIG: Config :=
    Config(Colors("", "", "", "", "", "", ""), [], Features(0, 0, 0), "", "")

  ghost predicate AllSpace(s: string)
  {
    forall i :: 0 <= i < |s| ==> IsSpace(s[i])
  }

  // ---------------------------------------------------------------- trim

  /** Number of whitespace characters `trim`'s first loop steps over. */
  function LeadingSpaces(s: string): (n: nat)
    ensures n <= |s|
    ensures forall i :: 0 <= i < n ==> IsSpace(s[i])
    ensures n < |s| ==> !IsSpace(s[n])
  {
    if s != [] && IsSpace(s[0]) then 1 + LeadingSpaces(s[1..]) else 0
  }

  /** `s` without its trailing whitespace (what the NUL writes of `trim` cut off). */
  function DropTrailing(s: string): (r: string)
    ensures r <= s
    ensures forall i :: |r| <= i < |s| ==> IsSpace(s[i])
    ensures r != [] ==> !IsSpace(r[|r| - 1])
  {
    if s != [] && IsSpace(s[|s| - 1]) then DropTrailing(s[..|s| - 1]) else s
  }

  /** The string `trim` returns: `s` without its leading and trailing whitespace. */
  function Trimmed(s: string): (t: string)
  {
    DropTrailing(s[LeadingSpaces(s)..])
  }

  /** `trim` removes all leading and all trailing whitespace and nothing else:
      the result is an infix of `s`, everything around it is whitespace, it
      neither starts nor ends with whitespace, and it is empty exactly when
      `s` is all whitespace. */
  lemma TrimmedSpec(s: string)
    ensures var t := Trimmed(s);
            && (t == [] <==> AllSpace(s))
            && (t != [] ==> !IsSpace(t[0]) && !IsSpace(t[|t| - 1]))
            && LeadingSpaces(s) + |t| <= |s|
            && s[LeadingSpaces(s)..LeadingSpaces(s) + |t|] == t
            && AllSpace(s[..LeadingSpaces(s)])
            && AllSpace(s[LeadingSpaces(s) + |t|..])
  {
    var lo := LeadingSpaces(s);
    var t := Trimmed(s);
    assert s[lo..][..|t|] == t;
    assert s[lo..lo + |t|] == t;
    forall i | lo + |t| <= i < |s| ensures IsSpace(s[i]) {
      assert s[i] == s[lo..][i - lo];
    }
    assert AllSpace(s[lo + |t|..]);
  }

  /** `trim(char *str)`: skip leading whitespace, then walk `end` back from the
      last character writing NULs over whitespace, never past `str`. */
  method Trim(s: string) returns (t: string)
    ensures t == Trimmed(s)
  {
    var start := SkipLeading(s);
    if start == |s| {
      return [];
    }
    var end := TrailingEnd(s, start);
    t := s[start..end];
  }

  /** The first loop of `trim`: the index of the first non-space character. */
  method SkipLeading(s: string) returns (start: nat)
    ensures start == LeadingSpaces(s)
  {
    start := 0;
    while start < |s| && IsSpace(s[start])
      invariant start <= |s|
      invariant LeadingSpaces(s) == start + LeadingSpaces(s[start..])
    {
      SkipSpace(s, start);
      start := start + 1;
    }
  }

  /** The second loop of `trim`: `end` walks back over whitespace, never past
      the first kept character, and the result ends just after it. */
  method TrailingEnd(s: string, start: nat) returns (end: nat)
    requires start < |s| && !IsSpace(s[start])
    ensures start < end <= |s| && s[start..end] == DropTrailing(s[start..])
  {
    end := |s|;
    assert s[start..end] == s[start..];
    while end > start + 1 && IsSpace(s[end - 1])
      invariant start < end <= |s|
      invariant DropTrailing(s[start..]) == DropTrailing(s[start..end])
    {
      DropLast(s, start, end);
      end := end - 1;
    }
    assert s[start..end][end - start - 1] == s[end - 1];
  }

  lemma SkipSpace(s: string, start: nat)
    requires start < |s| && IsSpace(s[start])
    ensures LeadingSpaces(s[start..]) == 1 + LeadingSpaces(s[start + 1..])
  {
    assert s[start..][1..] == s[start + 1..];
  }

  lemma DropLast(s: string, start: nat, end: nat)
    requires start < end <= |s| && IsSpace(s[end - 1])
    ensures DropTrailing(s[start..end]) == DropTrailing(s[start..end - 1])
  {
    assert s[start..end][..end - start - 1] == s[start..end - 1];
  }

  lemma TrimIdempotent(s: string)
    ensures Trimmed(Trimmed(s)) == Trimmed(s)
  {
    var t := Trimmed(s);
    TrimmedSpec(s);
    assert LeadingSpaces(t) == 0;
    assert t[0..] == t;
    assert DropTrailing(t) == t;
  }

  // ---------------------------------------------------------------- atoi

  predicate IsDigit(c: char)
  {
    '0' <= c <= '9'
  }

  /** The longest prefix of `s` made of decimal digits. */
  function DigitPrefix(s: string): (d: string)
    ensures d <= s
    ensures forall i :: 0 <= i < |d| ==> IsDigit(d[i])
    ensures |d| < |s| ==> !IsDigit(s[|d|])
  {
    if s != [] && IsDigit(s[0]) then [s[0]] + DigitPrefix(s[1..]) else []
  }

  /** The value of a string of decimal digits, most significant first. */
  function DigitsValue(d: string): nat
    requires forall i :: 0 <= i < |d| ==> IsDigit(d[i])
  {
    if d == [] then 0
    else 10 * DigitsValue(d[..|d| - 1]) + DigitValue(d[|d| - 1])
  }

  function DigitValue(c: char): (n: nat)
    requires IsDigit(c)
    ensures n < 10
  {
    c as int - '0' as int
  }

  /** `atoi`: optional leading whitespace, then a signed number. */
  function Atoi(s: string): int
  {
    SignedDigits(s[LeadingSpaces(s)..])
  }

  /** An optional sign, then as many digits as follow; anything else yields 0. */
  function SignedDigits(t: string): int
  {
    if t != [] && t[0] == '-' then 0 - DigitsValue(DigitPrefix(t[1..])) as int
    else if t != [] && t[0] == '+' then DigitsValue(DigitPrefix(t[1..]))
    else DigitsValue(DigitPrefix(t))
  }

  /** `atoi` on leading whitespace, an optional sign and a run of digits
      followed by anything that is not a digit: the signed decimal value of
      the digits. */
  lemma {:induction false} AtoiReadsNumber(ws: string, sign: string, d: string, rest: string)
    requires AllSpace(ws) && (sign == "" || sign == "-" || sign == "+")
    requires d != [] && forall i :: 0 <= i < |d| ==> IsDigit(d[i])
    requires rest == [] || !IsDigit(rest[0])
    ensures Atoi(ws + sign + d + rest) == if sign == "-" then -(DigitsValue(d) as int) else DigitsValue(d)
  {
    var t := sign + d + rest;
    ConcatAssoc(ws + sign, d, rest);
    ConcatAssoc(ws, sign, d + rest);
    ConcatAssoc(sign, d, rest);
    DigitPrefixOf(d, rest);
    assert (d + rest)[0] == d[0];
    SignedNumber(sign, d + rest);
    AtoiSkipsSpaces(ws, t);
  }

  lemma ConcatAssoc(a: string, b: string, c: string)
    ensures a + b + c == a + (b + c)
  {
  }

  lemma {:induction false} AtoiSkipsSpaces(ws: string, t: string)
    requires AllSpace(ws) && t != [] && !IsSpace(t[0])
    ensures Atoi(ws + t) == SignedDigits(t)
  {
    LeadingSpacesSkip(ws, t);
    assert (ws + t)[|ws|..] == t;
  }

  lemma {:induction false} SignedNumber(sign: string, u: string)
    requires |sign| <= 1 && (sign != [] ==> sign[0] == '-' || sign[0] == '+')
    requires u != [] && IsDigit(u[0])
    ensures var t := sign + u;
            t != [] && !IsSpace(t[0])
            && SignedDigits(t) == if sign != [] && sign[0] == '-' then 0 - DigitsValue(DigitPrefix(u)) as int
                                  else DigitsValue(DigitPrefix(u))
  {
    var t := sign + u;
    if sign == [] {
      assert t == u;
    } else {
      assert t[0] == sign[0] && t[1..] == u;
    }
  }

  lemma {:induction false} LeadingSpacesSkip(ws: string, t: string)
    requires AllSpace(ws) && t != [] && !IsSpace(t[0])
    ensures LeadingSpaces(ws + t) == |ws|
    decreases |ws|
  {
    if ws == [] {
      assert ws + t == t;
    } else {
      assert (ws + t)[0] == ws[0];
      assert (ws + t)[1..] == ws[1..] + t;
      LeadingSpacesSkip(ws[1..], t);
    }
  }

  lemma {:induction false} DigitPrefixOf(d: string, rest: string)
    requires forall i :: 0 <= i < |d| ==> IsDigit(d[i])
    requires rest == [] || !IsDigit(rest[0])
    ensures DigitPrefix(d + rest) == d
    decreases |d|
  {
    if d == [] {
      assert d + rest == rest;
    } else {
      assert (d + rest)[0] == d[0];
      assert (d + rest)[1..] == d[1..] + rest;
      DigitPrefixOf(d[1..], rest);
    }
  }

  function Pow10(n: nat): nat
  {
    if n == 0 then 1 else 10 * Pow10(n - 1)
  }

  /** The value of `n` digits is below 10^n. */
  lemma {:induction false} DigitsValueBound(d: string)
    requires forall i :: 0 <= i < |d| ==> IsDigit(d[i])
    ensures DigitsValue(d) < Pow10(|d|)
    decreases |d|
  {
    if d != [] {
      DigitsValueBound(d[..|d| - 1]);
    }
  }

  /** `atoi(" -42x")` is -42 and `atoi("on")` is 0. */
  lemma AtoiExamples()
    ensures Atoi(" -42x") == -42 && Atoi("on") == 0
  {
    var ws, sign, d, rest := " ", "-", "42", "x";
    assert ws + sign + d + rest == " -42x";
    assert d[..1] == "4";
    AtoiReadsNumber(ws, sign, d, rest);
    var on := "on";
    assert on[LeadingSpaces(on)..] == on;
    assert DigitPrefix(on) == [];
  }

  // ---------------------------------------------------------------- one line

  /** The longest prefix of `s` without whitespace (what `%s` reads). */
  function Word(s: string): (w: string)
    ensures w <= s
    ensures forall i :: 0 <= i < |w| ==> !IsSpace(w[i])
    ensures |w| < |s| ==> IsSpace(s[|w|])
  {
    if s != [] && !IsSpace(s[0]) then [s[0]] + Word(s[1..]) else []
  }

  /** `sscanf(l, "%31s", current_block)`: the line's first word, cut to 31 characters. */
  function BlockName(l: string): (b: string)
    ensures |b| <= MAX_BLOCK_NAME
  {
    Take(Word(l[LeadingSpaces(l)..]), MAX_BLOCK_NAME)
  }

  /** A value that begins with `"` loses that quote and is cut at the next one. */
  function Unquote(v: string): (r: string)
    ensures v != [] && v[0] == '"' ==> r <= v[1..] && '"' !in r
    ensures v != [] && v[0] == '"' && |r| + 1 < |v| ==> v[|r| + 1] == '"'
    ensures !(v != [] && v[0] == '"') ==> r == v
  {
    if v != [] && v[0] == '"' then
      match IndexOf(v[1..], '"')
      case None => v[1..]
      case Some(q) => v[1..][..q]
    else v
  }

  /** The keys each block recognises; any other key is ignored. */
  function KnownKeys(block: string): set<string>
  {
    if block == "colors" then {"border", "focus", "panel", "accent", "foreground", "wallpaper"}
    else if block == "wallpaper" then {"image", "mode"}
    else if block == "keybinds" then {}
    else {"launcher-command", "exec-one", "tiling_enabled", "quotes_enabled", "border_radius", "wallpaper"}
  }

  /** The assignment chain of `parse_config` for one `key = value` pair in `block`. */
  function Assign(cfg: Config, block: string, k: string, v: string): Config
  {
    if block == "colors" then
      if k == "border" then cfg.(colors := cfg.colors.(border := Take(v, MAX_COLOR_LEN)))
      else if k == "focus" then cfg.(colors := cfg.colors.(focus := Take(v, MAX_COLOR_LEN)))
      else if k == "panel" then cfg.(colors := cfg.colors.(panel := Take(v, MAX_COLOR_LEN)))
      else if k == "accent" then cfg.(colors := cfg.colors.(accent := Take(v, MAX_COLOR_LEN)))
      else if k == "foreground" then cfg.(colors := cfg.colors.(foreground := Take(v, MAX_COLOR_LEN)))
      else if k == "wallpaper" then cfg.(colors := cfg.colors.(wallpaper := Take(v, MAX_PATH_LEN)))
      else cfg
    else if block == "wallpaper" then
      if k == "image" then cfg.(colors := cfg.colors.(wallpaper := Take(v, MAX_PATH_LEN)))
      else if k == "mode" then cfg.(colors := cfg.colors.(wallpaperMode := Take(v, MAX_MODE_LEN)))
      else cfg
    else if block == "keybinds" then
      if |cfg.keybinds| < MAX_BINDS then
        cfg.(keybinds := cfg.keybinds + [Keybind(Take(k, MAX_KEYBIND_LEN), Take(v, MAX_CMD_LEN))])
      else cfg
    else
      if k == "launcher-command" then cfg.(launcherCmd := Take(v, MAX_CMD_LEN))
      else if k == "exec-one" then cfg.(execOne := Take(v, MAX_CMD_LEN))
      else if k == "tiling_enabled" then cfg.(features := cfg.features.(tilingEnabled := Atoi(v)))
      else if k == "quotes_enabled" then cfg.(features := cfg.features.(quotesEnabled := Atoi(v)))
      else if k == "border_radius" then cfg.(features := cfg.features.(borderRadius := Atoi(v)))
      else if k == "wallpaper" then cfg.(colors := cfg.colors.(wallpaper := Take(v, MAX_PATH_LEN)))
      else cfg
  }

  /** One iteration of the `fgets` loop: the new configuration and current block. */
  function ApplyLine(cfg: Config, block: string, line: string): (Config, string)
  {
    var l := Trimmed(line);
    if l == [] || l[0] == '#' then (cfg, block)
    else if '{' in l then (cfg, BlockName(l))
    else if '}' in l then (cfg, "")
    else match IndexOf(l, '=')
      case None => (cfg, block)
      case Some(e) => (Assign(cfg, block, Trimmed(l[..e]), Unquote(Trimmed(l[e + 1..]))), block)
  }

  /** The state after the loop has consumed `lines`. */
  function ParseLines(cfg: Config, block: string, lines: seq<string>): (Config, string)
    decreases |lines|
  {
    if lines == [] then (cfg, block)
    else
      var prev := ParseLines(cfg, block, lines[..|lines| - 1]);
      ApplyLine(prev.0, prev.1, lines[|lines| - 1])
  }

  /** `parse_config(filename, cfg)`: `file` is None when `fopen` fails, in which
      case the status is 1 and the configuration is untouched; otherwise the
      lines are read in order, starting outside any block, and the status is 0. */
  method ParseConfig(file: Option<seq<string>>, cfg: Config) returns (status: int, result: Config)
    ensures file.None? ==> status == 1 && result == cfg
    ensures file.Some? ==> status == 0 && result == ParseLines(cfg, "", file.value).0
  {
    if file.None? {
      return 1, cfg;
    }
    var lines := file.value;
    result := cfg;
    var block := "";
    var i := 0;
    while i < |lines|
      invariant 0 <= i <= |lines|
      invariant (result, block) == ParseLines(cfg, "", lines[..i])
    {
      ParseLinesSnoc(cfg, "", lines, i);
      result, block := ParseConfigLine(result, block, lines[i]);
      i := i + 1;
    }
    assert lines[..|lines|] == lines;
    status := 0;
  }

  lemma ParseLinesSnoc(cfg: Config, block: string, lines: seq<string>, i: nat)
    requires i < |lines|
    ensures var prev := ParseLines(cfg, block, lines[..i]);
            ParseLines(cfg, block, lines[..i + 1]) == ApplyLine(prev.0, prev.1, lines[i])
  {
    assert lines[..i + 1][..i] == lines[..i];
  }

  /** The body of the `fgets` loop of `parse_config`. */
  method ParseConfigLine(cfg: Config, block: string, line: string) returns (result: Config, newBlock: string)
    ensures (result, newBlock) == ApplyLine(cfg, block, line)
  {
    result, newBlock := cfg, block;
    var l := Trim(line);
    if l == [] || l[0] == '#' {
      // skipped
    } else if '{' in l {
      newBlock := BlockName(l);
    } else if '}' in l {
      newBlock := "";
    } else {
      var eq := IndexOf(l, '=');
      if eq.Some? {
        var k := Trim(l[..eq.value]);
        var v := Trim(l[eq.value + 1..]);
        v := Unquote(v);
        result := Assign(cfg, block, k, v);
      }
    }
  }

  // ---------------------------------------------------------------- properties

  /** Empty lines and comment lines change nothing. */
  lemma BlankAndCommentLinesSkipped(cfg: Config, block: string, line: string)
    requires AllSpace(line) || (Trimmed(line) != [] && Trimmed(line)[0] == '#')
    ensures ApplyLine(cfg, block, line) == (cfg, block)
  {
  }

  /** A line holding `{` names the block and is not read as `key = value`,
      even when it also holds `=` or `}`. */
  lemma OpenBraceEntersBlock(cfg: Config, block: string, line: string)
    requires !AllSpace(line) && Trimmed(line)[0] != '#' && '{' in Trimmed(line)
    ensures ApplyLine(cfg, block, line).0 == cfg
    ensures ApplyLine(cfg, block, line).1 == BlockName(Trimmed(line))
    ensures |ApplyLine(cfg, block, line).1| <= MAX_BLOCK_NAME
  {
  }

  /** A line holding `}` (and no `{`) leaves the block. */
  lemma CloseBraceLeavesBlock(cfg: Config, block: string, line: string)
    requires !AllSpace(line) && Trimmed(line)[0] != '#'
    requires '{' !in Trimmed(line) && '}' in Trimmed(line)
    ensures ApplyLine(cfg, block, line) == (cfg, "")
  {
  }

  /** A `key = value` line splits at the FIRST `=`; both halves are trimmed and
      the value unquoted; the block stays. */
  lemma KeyValueSplitsAtFirstEquals(cfg: Config, block: string, line: string, e: nat)
    requires var l := Trimmed(line);
             l != [] && l[0] != '#' && '{' !in l && '}' !in l
             && e < |l| && l[e] == '=' && '=' !in l[..e]
    ensures ApplyLine(cfg, block, line)
         == (Assign(cfg, block, Trimmed(Trimmed(line)[..e]), Unquote(Trimmed(Trimmed(line)[e + 1..]))), block)
  {
    var l := Trimmed(line);
    var r := IndexOf(l, '=');
    assert r.Some? && r.value == e;
  }

  /** A key the current block does not know leaves the configuration unchanged. */
  lemma UnknownKeyIgnored(cfg: Config, block: string, k: string, v: string)
    requires block != "keybinds" && k !in KnownKeys(block)
    ensures Assign(cfg, block, k, v) == cfg
  {
  }

  /** Outside the keybinds block a later assignment to a key overrides an earlier one. */
  lemma LaterAssignmentWins(cfg: Config, block: string, k: string, v1: string, v2: string)
    requires block != "keybinds"
    ensures Assign(Assign(cfg, block, k, v1), block, k, v2) == Assign(cfg, block, k, v2)
  {
  }

  /** Features outside any named block take the `atoi` of their value. */
  lemma TilingEnabledIsAtoi(cfg: Config, v: string)
    ensures Assign(cfg, "", "tiling_enabled", v).features.tilingEnabled == Atoi(v)
  {
  }

  /** In the keybinds block a pair is appended while fewer than 32 are stored;
      once 32 are stored, further pairs are dropped. */
  lemma KeybindAppendedWhileRoom(cfg: Config, k: string, v: string)
    ensures |cfg.keybinds| < MAX_BINDS ==>
      Assign(cfg, "keybinds", k, v)
        == cfg.(keybinds := cfg.keybinds + [Keybind(Take(k, MAX_KEYBIND_LEN), Take(v, MAX_CMD_LEN))])
    ensures |cfg.keybinds| >= MAX_BINDS ==> Assign(cfg, "keybinds", k, v) == cfg
  {
  }

  /** A single line either leaves the keybinds alone or appends one while fewer than 32 are stored. */
  lemma ApplyLineKeybinds(cfg: Config, block: string, line: string)
    ensures var kb := ApplyLine(cfg, block, line).0.keybinds;
            kb == cfg.keybinds
            || (|cfg.keybinds| < MAX_BINDS && |kb| == |cfg.keybinds| + 1 && kb[..|cfg.keybinds|] == cfg.keybinds)
  {
    var l := Trimmed(line);
    if !(l == [] || l[0] == '#' || '{' in l || '}' in l) {
      var eq := IndexOf(l, '=');
      if eq.Some? {
        var k, v := Trimmed(l[..eq.value]), Unquote(Trimmed(l[eq.value + 1..]));
        assert ApplyLine(cfg, block, line).0 == Assign(cfg, block, k, v);
        AssignKeybinds(cfg, block, k, v);
      }
    }
  }

  /** One assignment either leaves the keybinds alone or appends one while there is room. */
  lemma AssignKeybinds(cfg: Config, block: string, k: string, v: string)
    ensures var kb := Assign(cfg, block, k, v).keybinds;
            kb == cfg.keybinds
            || (|cfg.keybinds| < MAX_BINDS && |kb| == |cfg.keybinds| + 1 && kb[..|cfg.keybinds|] == cfg.keybinds)
  {
    if block == "keybinds" {
      KeybindAppendedWhileRoom(cfg, k, v);
    } else {
      AssignKeepsKeybinds(cfg, block, k, v);
    }
  }

  lemma AssignKeepsKeybinds(cfg: Config, block: string, k: string, v: string)
    requires block != "keybinds"
    ensures Assign(cfg, block, k, v).keybinds == cfg.keybinds
  {
  }

  /** No line ever raises the keybind count past MAX_BINDS. */
  lemma {:induction false} KeybindsBounded(cfg: Config, block: string, lines: seq<string>)
    requires |cfg.keybinds| <= MAX_BINDS
    ensures |ParseLines(cfg, block, lines).0.keybinds| <= MAX_BINDS
    decreases |lines|
  {
    if lines != [] {
      KeybindsBounded(cfg, block, lines[..|lines| - 1]);
      var prev := ParseLines(cfg, block, lines[..|lines| - 1]);
      ApplyLineKeybinds(prev.0, prev.1, lines[|lines| - 1]);
    }
  }

  /** Whatever the lines, the keybinds already present are kept, in order. */
  lemma {:induction false} KeybindsOnlyGrow(cfg: Config, block: string, lines: seq<string>)
    ensures cfg.keybinds <= ParseLines(cfg, block, lines).0.keybinds
    decreases |lines|
  {
    if lines != [] {
      KeybindsOnlyGrow(cfg, block, lines[..|lines| - 1]);
      var prev := ParseLines(cfg, block, lines[..|lines| - 1]);
      ApplyLineKeybinds(prev.0, prev.1, lines[|lines| - 1]);
    }
  }
}
