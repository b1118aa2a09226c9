/**
 * The Utilities plugin's pure helpers: the command grid, escape handling,
 * the `commands` description, `uname` field selection and `echo` splitting.
 * Platform values, the plugin registry and value expansion are parameters.
 */
module UtilitiesPlugin {
  import opened Wrappers
  import Text

  // ---------------------------------------------------------------------------
  // MessageFormatter.grid

  /** `rows[start::step]`. */
  function Chunk(rows: seq<string>, start: nat, step: nat): seq<string>
    requires step > 0
    decreases |rows| - start
  {
    if start >= |rows| then [] else [rows[start]] + Chunk(rows, start + step, step)
  }

  /** Element `k` of `rows[start::step]` is `rows[start + k*step]`, and it exists exactly when that index does. */
  lemma {:induction false} ChunkIndex(rows: seq<string>, start: nat, step: nat, k: nat)
    requires step > 0
    ensures k < |Chunk(rows, start, step)| <==> start + k * step < |rows|
    ensures k < |Chunk(rows, start, step)| ==> Chunk(rows, start, step)[k] == rows[start + k * step]
    decreases |rows| - start
  {
    if start >= |rows| {
      assert k * step >= 0;
    } else if k > 0 {
      ChunkIndex(rows, start + step, step, k - 1);
      assert start + step + (k - 1) * step == start + k * step;
    }
  }

  /** Python's `max(len(col) for col in cols)`, with 0 when there are none. */
  function Longest(cols: seq<seq<string>>): (m: nat)
    ensures forall k :: 0 <= k < |cols| ==> |cols[k]| <= m
    ensures cols != [] ==> exists k :: 0 <= k < |cols| && |cols[k]| == m
  {
    if cols == [] then 0
    else
      var rest := Longest(cols[1..]);
      assert forall k :: 1 <= k < |cols| ==> cols[k] == cols[1..][k - 1];
      if |cols[0]| >= rest then |cols[0]| else rest
  }

  /** The width of grid column `c`: its longest entry. */
  function ColumnWidth(rows: seq<string>, columns: nat, c: nat): nat
    requires columns > 0
  {
    Text.MaxLength(Chunk(rows, c, columns))
  }

  /** How many entries line `r` holds: a full line of `columns`, or what is left. */
  function CellCount(rows: seq<string>, columns: nat, r: nat): nat {
    if r * columns >= |rows| then 0
    else if |rows| - r * columns < columns then |rows| - r * columns
    else columns
  }

  /** Line `r` of the grid, cut into its padded entries: `rows[r*columns + c]` under column `c`. */
  function Cells(rows: seq<string>, columns: nat, r: nat): seq<string>
    requires columns > 0
  {
    seq(CellCount(rows, columns, r), c requires 0 <= c < CellCount(rows, columns, r) =>
      Text.LJust(rows[r * columns + c], ColumnWidth(rows, columns, c)))
  }

  /** The lines of the grid: one per `columns` entries, so ceil(|rows| / columns) of them. */
  function GridLines(rows: seq<string>, columns: nat): seq<string>
    requires columns > 0
  {
    seq(|Chunk(rows, 0, columns)|, r requires 0 <= r < |Chunk(rows, 0, columns)| => Text.Join(Cells(rows, columns, r), "  "))
  }

  /** Line `r` exists exactly when entry `r*columns` does: there are ceil(|rows| / columns) lines. */
  lemma GridLineCount(rows: seq<string>, columns: nat, r: nat)
    requires columns > 0
    ensures r < |GridLines(rows, columns)| <==> r * columns < |rows|
    ensures r < |GridLines(rows, columns)| ==>
      0 < CellCount(rows, columns, r) <= columns &&
      GridLines(rows, columns)[r] == Text.Join(Cells(rows, columns, r), "  ")
  {
    ChunkIndex(rows, 0, columns, r);
  }

  /** Every entry of a column is padded to the same width, the longest of the column. */
  lemma CellsPadded(rows: seq<string>, columns: nat, r: nat, c: nat)
    requires columns > 0 && c < CellCount(rows, columns, r)
    ensures Text.StartsWith(Cells(rows, columns, r)[c], rows[r * columns + c])
    ensures |Cells(rows, columns, r)[c]| == ColumnWidth(rows, columns, c)
  {
    var i := r * columns + c;
    assert c + r * columns == i;
    ChunkIndex(rows, c, columns, r);
    assert Chunk(rows, c, columns)[r] == rows[i];
  }

  /** Column `c` is never longer than column 0. */
  lemma ChunkShorter(rows: seq<string>, columns: nat, c: nat)
    requires columns > 0
    ensures |Chunk(rows, c, columns)| <= |Chunk(rows, 0, columns)|
  {
    var m := |Chunk(rows, c, columns)|;
    if m > 0 {
      ChunkIndex(rows, c, columns, m - 1);
      ChunkIndex(rows, 0, columns, m - 1);
    }
  }

  /** The grid's columns, `[rows[i::columns] for i in range(columns)]`. */
  function Columns(rows: seq<string>, columns: nat): (cols: seq<seq<string>>)
    requires columns > 0
    ensures |cols| == columns
  {
    seq(columns, i requires 0 <= i < columns => Chunk(rows, i, columns))
  }

  /** The line-building loop of `grid`, given its columns and their widths. */
  method Layout(rows: seq<string>, columns: nat, chunks: seq<seq<string>>, widths: seq<nat>) returns (text: string)
    requires columns > 0 && chunks == Columns(rows, columns)
    requires |widths| == columns && forall c :: 0 <= c < columns ==> widths[c] == ColumnWidth(rows, columns, c)
    ensures text == Text.Join(GridLines(rows, columns), "\n")
  {
    var maxRows := Longest(chunks);
    assert maxRows == |Chunk(rows, 0, columns)| by {
      var k :| 0 <= k < columns && |chunks[k]| == maxRows;
      ChunkShorter(rows, columns, k);
    }
    var lines: seq<string> := [];
    var r := 0;
    while r < maxRows
      invariant 0 <= r <= maxRows
      invariant lines == GridLines(rows, columns)[..r]
    {
      var line := LayoutRow(rows, columns, chunks, widths, r);
      lines := lines + [line];
      r := r + 1;
    }
    assert lines == GridLines(rows, columns);
    text := Text.Join(lines, "\n");
  }

  /** One pass of the inner loop of `grid`: the padded entries of row `r`, joined by two spaces. */
  method LayoutRow(rows: seq<string>, columns: nat, chunks: seq<seq<string>>, widths: seq<nat>, r: nat) returns (line: string)
    requires columns > 0 && chunks == Columns(rows, columns)
    requires |widths| == columns && forall c :: 0 <= c < columns ==> widths[c] == ColumnWidth(rows, columns, c)
    ensures line == Text.Join(Cells(rows, columns, r), "  ")
  {
    var parts: seq<string> := [];
    var c := 0;
    while c < columns
      invariant 0 <= c <= columns
      invariant parts == CellsUpTo(rows, columns, r, c)
    {
      CellsStep(rows, columns, r, c);
      if r < |chunks[c]| {
        parts := parts + [Text.LJust(chunks[c][r], widths[c])];
      }
      c := c + 1;
    }
    assert CellsUpTo(rows, columns, r, columns) == Cells(rows, columns, r);
    line := Text.Join(parts, "  ");
  }

  /** The entries of row `r` under the first `c` columns. */
  function CellsUpTo(rows: seq<string>, columns: nat, r: nat, c: nat): seq<string>
    requires columns > 0
  {
    var n := CellCount(rows, columns, r);
    Cells(rows, columns, r)[..if c < n then c else n]
  }

  lemma CellsStep(rows: seq<string>, columns: nat, r: nat, c: nat)
    requires columns > 0 && c < columns
    ensures r < |Chunk(rows, c, columns)| ==>
      r * columns + c < |rows| && Chunk(rows, c, columns)[r] == rows[r * columns + c] &&
      CellsUpTo(rows, columns, r, c + 1) ==
        CellsUpTo(rows, columns, r, c) + [Text.LJust(rows[r * columns + c], ColumnWidth(rows, columns, c))]
    ensures r >= |Chunk(rows, c, columns)| ==> CellsUpTo(rows, columns, r, c + 1) == CellsUpTo(rows, columns, r, c)
  {
    ChunkIndex(rows, c, columns, r);
    assert c + r * columns == r * columns + c;
    var cells := Cells(rows, columns, r);
    if r < |Chunk(rows, c, columns)| {
      assert c < CellCount(rows, columns, r);
      assert cells[..c + 1] == cells[..c] + [cells[c]];
    }
  }

  /**
   * `MessageFormatter.grid` as written: `None` is the ValueError that `max()`
   * raises on an empty column, which happens whenever there are fewer
   * entries than columns (or no columns at all).
   */
  method Grid(rows: seq<string>, columns: int) returns (out: Option<string>)
    ensures rows == [] ==> out == Some("")
    ensures rows != [] && (columns <= 0 || |rows| < columns) ==> out == None
    ensures rows != [] && 0 < columns <= |rows| ==> out == Some(Text.Join(GridLines(rows, columns), "\n"))
  {
    if rows == [] {
      return Some("");
    }
    if columns <= 0 {
      return None;
    }
    var chunks := Columns(rows, columns);
    ChunkIndex(rows, 0, columns, 0);
    if |rows| < columns {
      ChunkIndex(rows, |rows|, columns, 0);
    }
    assert (exists c :: 0 <= c < columns && chunks[c] == []) <==> |rows| < columns by {
      forall c | 0 <= c < columns
        ensures chunks[c] == [] <==> c >= |rows|
      {
        ChunkIndex(rows, c, columns, 0);
      }
      if |rows| < columns {
        assert chunks[|rows|] == [];
      }
    }
    if exists c :: 0 <= c < columns && chunks[c] == [] {
      return None;
    }
    var widths := seq(columns, i requires 0 <= i < columns => Text.MaxLength(chunks[i]));
    var text := Layout(rows, columns, chunks, widths);
    out := Some(text);
  }

  /** `grid` with an empty column given width 0, as `max(..., default=0)` would: every non-empty list lays out. */
  method GridCorrected(rows: seq<string>, columns: int) returns (out: Option<string>)
    ensures rows == [] ==> out == Some("")
    ensures rows != [] && columns <= 0 ==> out == None
    ensures rows != [] && columns > 0 ==> out == Some(Text.Join(GridLines(rows, columns), "\n"))
  {
    if rows == [] {
      return Some("");
    }
    if columns <= 0 {
      return None;
    }
    var chunks := Columns(rows, columns);
    var widths := seq(columns, i requires 0 <= i < columns => Text.MaxLength(chunks[i]));
    var text := Layout(rows, columns, chunks, widths);
    out := Some(text);
  }

  /** Fewer entries than columns: one line, each entry at its own width. */
  lemma ShortGridOneLine(rows: seq<string>, columns: nat)
    requires 0 < |rows| < columns
    ensures |GridLines(rows, columns)| == 1
    ensures GridLines(rows, columns)[0] == Text.Join(Cells(rows, columns, 0), "  ")
    ensures |Cells(rows, columns, 0)| == |rows|
  {
    GridLineCount(rows, columns, 0);
    GridLineCount(rows, columns, 1);
  }

  /** A two-command registry: the grid as written raises, the corrected one lays the names out on one line. */
  method GridExample() returns (asWritten: Option<string>, corrected: Option<string>)
    ensures asWritten == None
    ensures corrected.Some? && corrected.value == Text.Join(GridLines(["help", "commands"], 6), "\n")
    ensures |GridLines(["help", "commands"], 6)| == 1
  {
    var rows := ["help", "commands"];
    asWritten := Grid(rows, 6);
    corrected := GridCorrected(rows, 6);
    ShortGridOneLine(rows, 6);
  }

  // ---------------------------------------------------------------------------
  // MessageFormatter.escape_sequences

  const TabEscape := "\\t"

  /** `escape_sequences`: every literal backslash-t becomes four spaces. */
  function EscapeSequences(text: string): string {
    Text.Replace(text, TabEscape, "    ")
  }

  /** Replacing backslash-t by spaces can only start with `t` where the input did. */
  lemma EscapeHead(s: string)
    requires EscapeSequences(s) != [] && EscapeSequences(s)[0] == 't'
    ensures s != [] && s[0] == 't'
  {
  }

  /** No backslash-t survives the replacement. */
  lemma {:induction false} EscapeLeavesNone(s: string)
    ensures !Text.Contains(EscapeSequences(s), TabEscape)
    decreases |s|
  {
    if |s| < 2 {
      assert EscapeSequences(s) == s;
    } else if s[..2] == TabEscape {
      EscapeLeavesNone(s[2..]);
      SpacesThenNone(EscapeSequences(s[2..]));
      assert EscapeSequences(s) == "    " + EscapeSequences(s[2..]);
    } else {
      EscapeLeavesNone(s[1..]);
      var rest := EscapeSequences(s[1..]);
      assert EscapeSequences(s) == [s[0]] + rest;
      if rest != [] && rest[0] == 't' {
        EscapeHead(s[1..]);
        assert s[0] != '\\' by {
          assert s[..2] == [s[0], s[1]];
        }
      }
      CharThenNone(s[0], rest);
    }
  }

  lemma SpacesThenNone(rest: string)
    requires !Text.Contains(rest, TabEscape)
    ensures !Text.Contains("    " + rest, TabEscape)
  {
    var out := "    " + rest;
    forall i | 0 <= i <= |out| - 2
      ensures !Text.OccursAt(out, TabEscape, i)
    {
      if i >= 4 {
        assert out[i..i + 2] == rest[i - 4..i - 2];
        assert !Text.OccursAt(rest, TabEscape, i - 4);
      } else {
        assert out[i] == ' ';
      }
    }
  }

  lemma CharThenNone(c: char, rest: string)
    requires !Text.Contains(rest, TabEscape)
    requires c == '\\' ==> rest == [] || rest[0] != 't'
    ensures !Text.Contains([c] + rest, TabEscape)
  {
    var out := [c] + rest;
    forall i | 0 <= i <= |out| - 2
      ensures !Text.OccursAt(out, TabEscape, i)
    {
      if i >= 1 {
        assert out[i..i + 2] == rest[i - 1..i + 1];
        assert !Text.OccursAt(rest, TabEscape, i - 1);
      } else {
        assert out[..2] == [c, rest[0]];
      }
    }
  }

  /** Replacement leaves a string without the pattern unchanged. */
  lemma {:induction false} ReplaceAbsent(s: string, pat: string, rep: string)
    requires |pat| > 0 && !Text.Contains(s, pat)
    ensures Text.Replace(s, pat, rep) == s
    decreases |s|
  {
    if |s| >= |pat| {
      assert !Text.OccursAt(s, pat, 0);
      assert !Text.Contains(s[1..], pat) by {
        forall i | 0 <= i <= |s| - 1 - |pat|
          ensures !Text.OccursAt(s[1..], pat, i)
        {
          Text.OccursAtShift(s, pat, i);
        }
      }
      ReplaceAbsent(s[1..], pat, rep);
      assert [s[0]] + s[1..] == s;
    }
  }

  /** Escaping twice is escaping once. */
  lemma EscapeIdempotent(s: string)
    ensures EscapeSequences(EscapeSequences(s)) == EscapeSequences(s)
  {
    EscapeLeavesNone(s);
    ReplaceAbsent(EscapeSequences(s), TabEscape, "    ");
  }

  // ---------------------------------------------------------------------------
  // command_commands

  /** The verb-and-count part of the `commands` reply. */
  function Description(commandCount: nat, pluginCount: nat): (d: string)
    ensures commandCount == 1 ==> Text.StartsWith(d, "is 1 command from")
    ensures commandCount != 1 ==> Text.StartsWith(d, "are ")
  {
    var verb := if commandCount == 1 then "is 1 command" else "are " + Text.NatToString(commandCount) + " commands";
    var source := if pluginCount == 1 then " from a single plugin" else " from " + Text.NatToString(pluginCount) + " plugins";
    assert (verb + source)[..4] == verb[..4];
    assert commandCount == 1 ==> (verb + source)[..17] == "is 1 command from";
    verb + source
  }

  /**
   * The command count can be read back from the description: the singular
   * form appears exactly for one command, and otherwise the count is the
   * word after "are".
   */
  lemma CommandCountReadsBack(commandCount: nat, pluginCount: nat)
    ensures commandCount == 1 <==> Text.StartsWith(Description(commandCount, pluginCount), "is ")
    ensures commandCount != 1 ==> CountAfterAre(Description(commandCount, pluginCount), commandCount)
  {
    var source := if pluginCount == 1 then " from a single plugin" else " from " + Text.NatToString(pluginCount) + " plugins";
    if commandCount != 1 {
      WordAfterAre(commandCount, " commands" + source);
      assert Description(commandCount, pluginCount) == "are " + Text.NatToString(commandCount) + (" commands" + source);
    } else {
      assert Description(commandCount, pluginCount) == "is 1 command" + source;
    }
  }

  /** `d` starts with "are " and the count, followed by a space. */
  predicate CountAfterAre(d: string, count: nat) {
    var n := Text.NatToString(count);
    |d| > 4 + |n| && d[..4] == "are " && d[4 + |n|] == ' ' && Text.ParseInt(d[4..4 + |n|]) == Some(count as int)
  }

  /** A count written after "are " is read back by `int()`, up to the space that follows it. */
  lemma WordAfterAre(count: nat, tail: string)
    requires |tail| > 0 && tail[0] == ' '
    ensures CountAfterAre("are " + Text.NatToString(count) + tail, count)
    ensures !Text.StartsWith("are " + Text.NatToString(count) + tail, "is ")
  {
    var n := Text.NatToString(count);
    var d := "are " + n + tail;
    assert d[4..4 + |n|] == n;
    assert d[4 + |n|] == tail[0];
    assert d[0] == 'a';
    Text.ParseIntToString(count);
  }

  /**
   * The plugin count can be read back from the description: the singular
   * form appears exactly for one plugin, and otherwise the count is the
   * word before "plugins".
   */
  lemma PluginCountReadsBack(commandCount: nat, pluginCount: nat)
    ensures pluginCount == 1 <==> Text.EndsWith(Description(commandCount, pluginCount), " from a single plugin")
    ensures pluginCount != 1 ==> (
      var d, m := Description(commandCount, pluginCount), Text.NatToString(pluginCount);
      |d| > 9 + |m| && Text.EndsWith(d, " plugins") && d[|d| - 9 - |m|] == ' ' &&
      Text.ParseInt(d[|d| - 8 - |m|..|d| - 8]) == Some(pluginCount as int))
  {
    var d, m := Description(commandCount, pluginCount), Text.NatToString(pluginCount);
    var verb := if commandCount == 1 then "is 1 command" else "are " + Text.NatToString(commandCount) + " commands";
    if pluginCount != 1 {
      assert d == verb + " from " + m + " plugins";
      assert d[|d| - 8..] == " plugins";
      assert d[|d| - 8 - |m|..|d| - 8] == m;
      assert d[|d| - 9 - |m|] == ' ';
      Text.ParseIntToString(pluginCount);
      assert d[|d| - 21..] != " from a single plugin" by {
        if |d| >= 21 {
          assert d[|d| - 21..][13..] == d[|d| - 8..];
        }
      }
    } else {
      assert d == verb + " from a single plugin";
      assert d[|d| - 21..] == " from a single plugin";
    }
  }

  lemma DescriptionExamples()
    ensures Description(1, 1) == "is 1 command from a single plugin"
    ensures Description(12, 3) == "are 12 commands from 3 plugins"
  {
    SeveralDescription(12, 3);
  }

  lemma SeveralDescription(commands: nat, plugins: nat)
    requires commands == 12 && plugins == 3
    ensures Description(commands, plugins) == "are 12 commands from 3 plugins"
  {
    assert Text.NatToString(commands) == "12" by {
      assert commands / 10 == 1 && commands % 10 == 2;
    }
    assert Text.NatToString(plugins) == "3";
  }

  /** The number of distinct plugin modules among the registered commands. */
  function PluginCount(commands: seq<string>, moduleOf: string -> string): nat {
    |set k | 0 <= k < |commands| :: moduleOf(commands[k])|
  }

  /** The `commands` reply around a laid-out grid. */
  function CommandsMessage(commands: seq<string>, moduleOf: string -> string, grid: string): string {
    "There " + Description(|commands|, PluginCount(commands, moduleOf)) +
    " available, these commands are:\n" + grid
  }

  /**
   * `command_commands` as written, over the registry's sorted command names:
   * `None` is the ValueError the grid raises with fewer than six commands.
   */
  method Commands(commands: seq<string>, moduleOf: string -> string) returns (reply: Option<string>)
    ensures commands == [] ==> reply == Some("No commands available")
    ensures 0 < |commands| < 6 ==> reply == None
    ensures |commands| >= 6 ==> reply == Some(CommandsMessage(commands, moduleOf, Text.Join(GridLines(commands, 6), "\n")))
  {
    if commands == [] {
      return Some("No commands available");
    }
    var grid := Grid(commands, 6);
    if grid.None? {
      return None;
    }
    reply := Some(CommandsMessage(commands, moduleOf, grid.value));
  }

  /** `command_commands` over the corrected grid: any non-empty registry gets its list. */
  method CommandsCorrected(commands: seq<string>, moduleOf: string -> string) returns (reply: Option<string>)
    ensures commands == [] ==> reply == Some("No commands available")
    ensures commands != [] ==> reply == Some(CommandsMessage(commands, moduleOf, Text.Join(GridLines(commands, 6), "\n")))
  {
    if commands == [] {
      return Some("No commands available");
    }
    var grid := GridCorrected(commands, 6);
    reply := Some(CommandsMessage(commands, moduleOf, grid.value));
  }

  // ---------------------------------------------------------------------------
  // command_uname

  /** The platform values uname reports. */
  datatype Platform = Platform(system: string, node: string, release: string, version: string, machine: string)

  const OsName := "GNU/Linux"

  /** uname's six fields in their fixed order. */
  function Fields(p: Platform): (fs: seq<string>)
    ensures |fs| == 6
  {
    [p.system, p.node, p.release, p.version, p.machine, OsName]
  }

  /** The options that select field `f`; `-a`/`--all` select every field. */
  function Selectors(f: nat): set<string>
    requires f < 6
  {
    var own :=
      if f == 0 then {"-s", "--kernel-name"}
      else if f == 1 then {"-n", "--nodename"}
      else if f == 2 then {"-r", "--kernel-release"}
      else if f == 3 then {"-v", "--kernel-version"}
      else if f == 4 then {"-m", "--machine"}
      else {"-o", "--operating-system"};
    own + {"-a", "--all"}
  }

  /** Some option selects field `f`. */
  predicate Selected(opts: seq<string>, f: nat)
    requires f < 6
  {
    exists i :: 0 <= i < |opts| && opts[i] in Selectors(f)
  }

  /** The selected fields from `f` on, in the fixed order. */
  function PickFrom(p: Platform, opts: seq<string>, f: nat): seq<string>
    requires f <= 6
    decreases 6 - f
  {
    if f == 6 then [] else (if Selected(opts, f) then [Fields(p)[f]] else []) + PickFrom(p, opts, f + 1)
  }

  /** The fields uname prints for a non-empty option list. */
  function Picked(p: Platform, opts: seq<string>): seq<string> {
    PickFrom(p, opts, 0)
  }

  /** The option loop of `command_uname`: which of the six fields the options switch on. */
  method SelectFlags(opts: seq<string>) returns (flags: seq<bool>)
    ensures |flags| == 6
    ensures forall f :: 0 <= f < 6 ==> (flags[f] <==> Selected(opts, f))
  {
    flags := [false, false, false, false, false, false];
    var i := 0;
    while i < |opts|
      invariant 0 <= i <= |opts| && |flags| == 6
      invariant forall f :: 0 <= f < 6 ==> (flags[f] <==> Selected(opts[..i], f))
    {
      var opt := opts[i];
      assert opts[..i + 1] == opts[..i] + [opt];
      SelectedStep(opts[..i], opt);
      flags := SelectOne(flags, opt);
      i := i + 1;
    }
    assert opts[..|opts|] == opts;
  }

  /** The body of the option loop: one option sets the flags it selects. */
  method SelectOne(flags: seq<bool>, opt: string) returns (next: seq<bool>)
    requires |flags| == 6
    ensures |next| == 6
    ensures forall f :: 0 <= f < 6 ==> (next[f] <==> flags[f] || opt in Selectors(f))
  {
    next := flags;
    if opt in Selectors(0) {
      next := next[0 := true];
    }
    if opt in Selectors(1) {
      next := next[1 := true];
    }
    if opt in Selectors(2) {
      next := next[2 := true];
    }
    if opt in Selectors(3) {
      next := next[3 := true];
    }
    if opt in Selectors(4) {
      next := next[4 := true];
    }
    if opt in Selectors(5) {
      next := next[5 := true];
    }
  }

  /** The fields whose flag is set, from `f` on. */
  function FlagsFrom(p: Platform, flags: seq<bool>, f: nat): seq<string>
    requires |flags| == 6 && f <= 6
    decreases 6 - f
  {
    if f == 6 then [] else (if flags[f] then [Fields(p)[f]] else []) + FlagsFrom(p, flags, f + 1)
  }

  lemma {:induction false} FlagsPick(p: Platform, opts: seq<string>, flags: seq<bool>, f: nat)
    requires |flags| == 6 && f <= 6
    requires forall g :: 0 <= g < 6 ==> (flags[g] <==> Selected(opts, g))
    ensures FlagsFrom(p, flags, f) == PickFrom(p, opts, f)
    decreases 6 - f
  {
    if f < 6 {
      FlagsPick(p, opts, flags, f + 1);
    }
  }

  /** The output half of `command_uname`: the set fields in their fixed order. */
  method Assemble(p: Platform, flags: seq<bool>) returns (parts: seq<string>)
    requires |flags| == 6
    ensures parts == FlagsFrom(p, flags, 0)
  {
    var fs := Fields(p);
    parts := [];
    ghost var before := parts;
    ghost var whole := FlagsFrom(p, flags, 0);
    assert parts + FlagsFrom(p, flags, 0) == whole;
    before := parts;
    if flags[0] {
      parts := parts + [fs[0]];
    }
    FlagsStep(p, flags, before, parts, 0, whole);
    before := parts;
    if flags[1] {
      parts := parts + [fs[1]];
    }
    FlagsStep(p, flags, before, parts, 1, whole);
    before := parts;
    if flags[2] {
      parts := parts + [fs[2]];
    }
    FlagsStep(p, flags, before, parts, 2, whole);
    before := parts;
    if flags[3] {
      parts := parts + [fs[3]];
    }
    FlagsStep(p, flags, before, parts, 3, whole);
    before := parts;
    if flags[4] {
      parts := parts + [fs[4]];
    }
    FlagsStep(p, flags, before, parts, 4, whole);
    before := parts;
    if flags[5] {
      parts := parts + [fs[5]];
    }
    FlagsStep(p, flags, before, parts, 5, whole);
    assert FlagsFrom(p, flags, 6) == [];
    assert parts + [] == parts;
  }

  /** Taking field `f` or not keeps the collected parts a prefix of the result. */
  lemma FlagsStep(p: Platform, flags: seq<bool>, before: seq<string>, after: seq<string>, f: nat, whole: seq<string>)
    requires |flags| == 6 && f < 6
    requires before + FlagsFrom(p, flags, f) == whole
    requires after == before + (if flags[f] then [Fields(p)[f]] else [])
    ensures after + FlagsFrom(p, flags, f + 1) == whole
  {
    var opt := if flags[f] then [Fields(p)[f]] else [];
    assert FlagsFrom(p, flags, f) == opt + FlagsFrom(p, flags, f + 1);
    assert (before + opt) + FlagsFrom(p, flags, f + 1) == before + (opt + FlagsFrom(p, flags, f + 1));
  }

  /** `command_uname` after option parsing: `Err` is getopt's error message. */
  method Uname(parsed: Result<seq<string>, string>, p: Platform) returns (reply: string)
    ensures parsed.Err? ==> reply == "Invalid option: " + parsed.error
    ensures parsed.Ok? && parsed.value == [] ==> reply == Text.Join(Fields(p), " ")
    ensures parsed.Ok? && parsed.value != [] ==> reply == Text.Join(Picked(p, parsed.value), " ")
  {
    if parsed.Err? {
      return "Invalid option: " + parsed.error;
    }
    var opts := parsed.value;
    if opts == [] {
      return Text.Join(Fields(p), " ");
    }
    var flags := SelectFlags(opts);
    var parts := Assemble(p, flags);
    FlagsPick(p, opts, flags, 0);
    reply := Text.Join(parts, " ");
  }

  lemma SelectedStep(opts: seq<string>, opt: string)
    ensures forall f :: 0 <= f < 6 ==> (Selected(opts + [opt], f) <==> Selected(opts, f) || opt in Selectors(f))
  {
    forall f | 0 <= f < 6
      ensures Selected(opts + [opt], f) <==> Selected(opts, f) || opt in Selectors(f)
    {
      if Selected(opts, f) {
        var i :| 0 <= i < |opts| && opts[i] in Selectors(f);
        assert (opts + [opt])[i] == opts[i];
      }
      if opt in Selectors(f) {
        assert (opts + [opt])[|opts|] == opt;
      }
      if Selected(opts + [opt], f) && !(opt in Selectors(f)) {
        var i :| 0 <= i < |opts| + 1 && (opts + [opt])[i] in Selectors(f);
        assert i < |opts| && opts[i] == (opts + [opt])[i];
      }
    }
  }

  /** Only which options occur matters: their order and repetition do not change the output. */
  lemma {:induction false} PickFromSameOptions(p: Platform, a: seq<string>, b: seq<string>, f: nat)
    requires f <= 6
    requires forall o :: o in a <==> o in b
    ensures PickFrom(p, a, f) == PickFrom(p, b, f)
    decreases 6 - f
  {
    if f < 6 {
      assert Selected(a, f) <==> Selected(b, f) by {
        if Selected(a, f) {
          var i :| 0 <= i < |a| && a[i] in Selectors(f);
          assert a[i] in b;
          var j :| 0 <= j < |b| && b[j] == a[i];
        }
        if Selected(b, f) {
          var j :| 0 <= j < |b| && b[j] in Selectors(f);
          assert b[j] in a;
          var i :| 0 <= i < |a| && a[i] == b[j];
        }
      }
      PickFromSameOptions(p, a, b, f + 1);
    }
  }

  /** `-a` prints every field, exactly as no option at all does. */
  lemma {:induction false} PickAll(p: Platform, opts: seq<string>, f: nat)
    requires f <= 6
    requires "-a" in opts || "--all" in opts
    ensures PickFrom(p, opts, f) == Fields(p)[f..]
    decreases 6 - f
  {
    if f < 6 {
      var i :| 0 <= i < |opts| && (opts[i] == "-a" || opts[i] == "--all");
      assert Selected(opts, f);
      PickAll(p, opts, f + 1);
    }
  }

  /** Options given out of order still print in the fixed order. */
  lemma UnameOrderExample(p: Platform)
    ensures Picked(p, ["-m", "-s", "-m"]) == [p.system, p.machine]
  {
    var opts := ["-m", "-s", "-m"];
    assert opts[1] in Selectors(0);
    assert opts[0] in Selectors(4);
    assert !Selected(opts, 1) && !Selected(opts, 2) && !Selected(opts, 3) && !Selected(opts, 5);
  }

  // ---------------------------------------------------------------------------
  // command_echo

  const NewlineEscape := "\\n"

  /** The messages `echo -e` sends for an expanded text: one per piece between literal backslash-n. */
  function EchoPieces(message: string): (pieces: seq<string>)
    ensures Text.Join(pieces, NewlineEscape) == EscapeSequences(message)
    ensures forall k :: 0 <= k < |pieces| ==> !Text.Contains(pieces[k], NewlineEscape) && !Text.Contains(pieces[k], TabEscape)
  {
    var escaped := EscapeSequences(message);
    var pieces := Text.Split(escaped, NewlineEscape);
    assert forall k :: 0 <= k < |pieces| ==> !Text.Contains(pieces[k], TabEscape) by {
      EscapeLeavesNone(message);
      forall k | 0 <= k < |pieces|
        ensures !Text.Contains(pieces[k], TabEscape)
      {
        SplitPieceInside(pieces, k, NewlineEscape, TabEscape);
      }
    }
    pieces
  }

  /** A pattern absent from a joined string is absent from each joined piece. */
  lemma {:induction false} SplitPieceInside(pieces: seq<string>, k: nat, sep: string, pat: string)
    requires k < |pieces| && !Text.Contains(Text.Join(pieces, sep), pat)
    ensures !Text.Contains(pieces[k], pat)
    decreases |pieces|
  {
    var whole := Text.Join(pieces, sep);
    if |pieces| > 1 {
      var tail := Text.Join(pieces[1..], sep);
      assert whole == pieces[0] + (sep + tail);
      if k == 0 {
        InfixAbsent(pieces[0], sep + tail, pat, 0);
      } else {
        InfixAbsent(pieces[0] + sep, tail, pat, |pieces[0] + sep|);
        assert pieces[0] + sep + tail == whole;
        SplitPieceInside(pieces[1..], k - 1, sep, pat);
      }
    }
  }

  /** If `pat` is absent from `a + b` it is absent from both parts. */
  lemma InfixAbsent(a: string, b: string, pat: string, off: nat)
    requires !Text.Contains(a + b, pat)
    requires off == 0 || off == |a|
    ensures off == 0 ==> !Text.Contains(a, pat)
    ensures off == |a| ==> !Text.Contains(b, pat)
  {
    if off == 0 && Text.Contains(a, pat) {
      var i :| 0 <= i <= |a| - |pat| && Text.OccursAt(a, pat, i);
      assert (a + b)[i..i + |pat|] == a[i..i + |pat|];
      assert Text.OccursAt(a + b, pat, i);
    }
    if off == |a| && Text.Contains(b, pat) {
      var i :| 0 <= i <= |b| - |pat| && Text.OccursAt(b, pat, i);
      assert (a + b)[|a| + i..|a| + i + |pat|] == b[i..i + |pat|];
      assert Text.OccursAt(a + b, pat, |a| + i);
    }
  }

  /**
   * `command_echo` after option parsing (`Err` is getopt's error message):
   * the messages it passes to `send_message`. `expand` stands for the plugin
   * manager's value substitution.
   */
  method Echo(parsed: Result<(seq<string>, seq<string>), string>, expand: string -> string) returns (messages: seq<string>)
    ensures parsed.Err? ==> messages == ["Invalid option: " + parsed.error]
    ensures parsed.Ok? && "-e" in parsed.value.0 ==> messages == EchoPieces(expand(Text.Join(parsed.value.1, " ")))
    ensures parsed.Ok? && "-e" !in parsed.value.0 ==> messages == [expand(Text.Join(parsed.value.1, " "))]
  {
    if parsed.Err? {
      return ["Invalid option: " + parsed.error];
    }
    var (opts, remaining) := parsed.value;
    var enableEscapes := false;
    var suppressNewline := false;
    var i := 0;
    while i < |opts|
      invariant 0 <= i <= |opts|
      invariant enableEscapes <==> "-e" in opts[..i]
    {
      assert opts[..i + 1] == opts[..i] + [opts[i]];
      if opts[i] == "-e" {
        enableEscapes := true;
      } else if opts[i] == "-n" {
        suppressNewline := true;
      }
      i := i + 1;
    }
    assert opts[..|opts|] == opts;
    var message := if remaining == [] then "" else Text.Join(remaining, " ");
    message := expand(message);
    if enableEscapes {
      messages := EchoPieces(message);
    } else {
      messages := [message];
    }
  }
}
