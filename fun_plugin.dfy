/**
 * The Fun plugin's helpers: digit art rendering and borders, dice rolling
 * and its report, and the count checks of the `digits` and `coin` commands.
 * Random draws are a parameter: `randint(a, b, i)` is the value the `i`-th
 * call `randint(a, b)` returns.
 */
module FunPlugin {
  import opened Wrappers
  import Text

  // ---------------------------------------------------------------------------
  // Glyph maps and border styles

  /** The block glyphs: five rows of six cells each. */
  const DigitArtBlock: map<char, seq<string>> :=
    map[
      '0' := ["██████", "██  ██", "██  ██", "██  ██", "██████"],
      '1' := ["    ██", "    ██", "    ██", "    ██", "    ██"],
      '2' := ["██████", "    ██", "██████", "██    ", "██████"],
      '3' := ["██████", "    ██", "██████", "    ██", "██████"],
      '4' := ["██  ██", "██  ██", "██████", "    ██", "    ██"],
      '5' := ["██████", "██    ", "██████", "    ██", "██████"],
      '6' := ["██████", "██    ", "██████", "██  ██", "██████"],
      '7' := ["██████", "    ██", "    ██", "    ██", "    ██"],
      '8' := ["██████", "██  ██", "██████", "██  ██", "██████"],
      '9' := ["██████", "██  ██", "██████", "    ██", "██████"],
      ':' := ["      ", "  ██  ", "      ", "  ██  ", "      "]
    ]

  /** The braille glyphs: three rows each. */
  const DigitArtBraille: map<char, seq<string>> :=
    map[
      '0' := ["⣾⠛⢻⡆", "⣿⠀⢸⡇", "⢿⣤⣼⠇"],
      '1' := ["⢸⡇", "⢸⡇", "⢸⡇"],
      '2' := ["⠙⠛⢻⡆", "⣴⠶⠾⠃", "⢿⣤⣤⡀"],
      '3' := ["⠙⠛⢻⡆", "⠰⠶⢾⡇", "⣠⣤⣼⠇"],
      '4' := ["⣿⠀⢸⡇", "⠻⠶⢾⡇", "⠀⠀⢸⡇"],
      '5' := ["⣾⠛⠛⠁", "⠻⠶⢶⡄", "⢠⣤⣼⠇"],
      '6' := ["⣾⠛⠛⠁", "⣿⠶⢶⡄", "⢿⣤⣼⠇"],
      '7' := ["⠙⠛⢻⡇", "⠀⠀⢸⡇", "⠀⠀⢸⡇"],
      '8' := ["⣾⠛⢻⡆", "⣿⠶⢾⡇", "⢿⣤⣼⠇"],
      '9' := ["⣾⠛⢻⡆", "⠻⠶⢾⡇", "⢠⣤⣼⠇"],
      ':' := ["⢀⡀", "⢈⡁", "⠈⠁"]
    ]

  /** `DIGIT_STYLES`, by name. */
  function DigitStyle(name: string): Option<map<char, seq<string>>> {
    if name == "block" then Some(DigitArtBlock)
    else if name == "braille" then Some(DigitArtBraille)
    else None
  }

  /** One border style: corners, horizontal and vertical pieces. */
  datatype Border = Border(tl: char, tr: char, bl: char, br: char, h: char, v: char)

  /** `BORDER_STYLES`, by name. */
  function BorderStyle(name: string): Option<Border> {
    if name == "single" then Some(Border('┌', '┐', '└', '┘', '─', '│'))
    else if name == "double" then Some(Border('╔', '╗', '╚', '╝', '═', '║'))
    else if name == "rounded" then Some(Border('╭', '╮', '╰', '╯', '─', '│'))
    else if name == "heavy" then Some(Border('┏', '┓', '┗', '┛', '━', '┃'))
    else None
  }

  // ---------------------------------------------------------------------------
  // add_border

  /** The framed box around `lines`, every line padded to the longest. */
  function Framed(lines: seq<string>, b: Border): (box: seq<string>)
    ensures |box| == |lines| + 2
  {
    var w := Text.MaxLength(lines);
    [[b.tl] + Text.Repeat(b.h, w + 2) + [b.tr]] +
    seq(|lines|, i requires 0 <= i < |lines| => [b.v, ' '] + Text.LJust(lines[i], w) + [' ', b.v]) +
    [[b.bl] + Text.Repeat(b.h, w + 2) + [b.br]]
  }

  /** Row `i + 1` of the box is line `i`, padded and between the side pieces. */
  lemma FramedRow(lines: seq<string>, b: Border, i: nat)
    requires i < |lines|
    ensures |Framed(lines, b)[i + 1]| == Text.MaxLength(lines) + 4
    ensures Framed(lines, b)[i + 1][..2] == [b.v, ' ']
    ensures Text.StartsWith(Framed(lines, b)[i + 1][2..], lines[i])
  {
    var w := Text.MaxLength(lines);
    var padded := Text.LJust(lines[i], w);
    var row := [b.v, ' '] + padded + [' ', b.v];
    assert Framed(lines, b)[i + 1] == row;
    assert row[2..] == padded + [' ', b.v];
    assert padded[..|lines[i]|] == lines[i];
    assert row[2..][..|lines[i]|] == lines[i];
  }

  /** A box is rectangular, `w + 4` wide, with each original line at the left of its row. */
  lemma FramedShape(lines: seq<string>, b: Border)
    ensures forall i :: 0 <= i < |Framed(lines, b)| ==> |Framed(lines, b)[i]| == Text.MaxLength(lines) + 4
    ensures forall i :: 0 <= i < |lines| ==>
      Framed(lines, b)[i + 1][..2] == [b.v, ' '] && Text.StartsWith(Framed(lines, b)[i + 1][2..], lines[i])
    ensures Framed(lines, b)[0][0] == b.tl && Framed(lines, b)[|lines| + 1][0] == b.bl
  {
    var w := Text.MaxLength(lines);
    var box := Framed(lines, b);
    forall i | 0 <= i < |lines|
      ensures |box[i + 1]| == w + 4
      ensures box[i + 1][..2] == [b.v, ' '] && Text.StartsWith(box[i + 1][2..], lines[i])
    {
      FramedRow(lines, b, i);
    }
    forall i | 0 <= i < |box|
      ensures |box[i]| == w + 4
    {
      if 0 < i < |box| - 1 {
        assert i == (i - 1) + 1;
        FramedRow(lines, b, i - 1);
      }
    }
  }

  /** `add_border`: unchanged without lines or with an unknown style, else the framed box. */
  method AddBorder(lines: seq<string>, style: string) returns (bordered: seq<string>)
    ensures lines == [] || BorderStyle(style).None? ==> bordered == lines
    ensures lines != [] && BorderStyle(style).Some? ==> bordered == Framed(lines, BorderStyle(style).value)
  {
    if lines == [] {
      return lines;
    }
    if BorderStyle(style).None? {
      return lines;
    }
    var b := BorderStyle(style).value;
    var w := Text.MaxLength(lines);
    var padded := seq(|lines|, i requires 0 <= i < |lines| => lines[i] + Text.Repeat(' ', w - |lines[i]|));
    bordered := [[b.tl] + Text.Repeat(b.h, w + 2) + [b.tr]];
    var i := 0;
    while i < |padded|
      invariant 0 <= i <= |padded|
      invariant bordered == Framed(lines, b)[..i + 1]
    {
      bordered := bordered + [[b.v, ' '] + padded[i] + [' ', b.v]];
      i := i + 1;
    }
    bordered := bordered + [[b.bl] + Text.Repeat(b.h, w + 2) + [b.br]];
  }

  // ---------------------------------------------------------------------------
  // render_ascii_text

  /** `''.join(c for c in text if c in char_map)`. */
  function Supported(text: string, charMap: map<char, seq<string>>): (f: string)
    ensures forall k :: 0 <= k < |f| ==> f[k] in charMap
    ensures forall c :: c in text && c in charMap ==> c in f
    ensures forall c :: c in f ==> c in text
  {
    if text == [] then []
    else
      var rest := Supported(text[1..], charMap);
      assert forall c :: c in text ==> c == text[0] || c in text[1..];
      if text[0] in charMap then [text[0]] + rest else rest
  }

  /** Some glyph of `f` has fewer rows than the first one. */
  predicate Ragged(f: string, charMap: map<char, seq<string>>)
    requires f != [] && forall k :: 0 <= k < |f| ==> f[k] in charMap
  {
    exists k :: 0 <= k < |f| && |charMap[f[k]]| < |charMap[f[0]]|
  }

  /** Row `r` of every glyph of `f`, left to right. */
  function GlyphRow(f: string, charMap: map<char, seq<string>>, r: nat): seq<string>
    requires forall k :: 0 <= k < |f| ==> f[k] in charMap && r < |charMap[f[k]]|
  {
    seq(|f|, k requires 0 <= k < |f| => charMap[f[k]][r])
  }

  /** The rendered art of `f`: one line per row of the first glyph, glyphs separated by a space. */
  function Rendered(f: string, charMap: map<char, seq<string>>): (lines: seq<string>)
    requires f != [] && (forall k :: 0 <= k < |f| ==> f[k] in charMap) && !Ragged(f, charMap)
    ensures |lines| == |charMap[f[0]]|
  {
    seq(|charMap[f[0]]|, r requires 0 <= r < |charMap[f[0]]| => Text.Join(GlyphRow(f, charMap, r), " "))
  }

  /**
   * `render_ascii_text`: `Some([])` when no character is supported, `None` the
   * IndexError of a glyph shorter than the first, else the rendered rows.
   */
  method RenderAsciiText(text: string, charMap: map<char, seq<string>>) returns (out: Option<seq<string>>)
    ensures Supported(text, charMap) == [] ==> out == Some([])
    ensures Supported(text, charMap) != [] && Ragged(Supported(text, charMap), charMap) ==> out == None
    ensures Supported(text, charMap) != [] && !Ragged(Supported(text, charMap), charMap) ==>
      out == Some(Rendered(Supported(text, charMap), charMap))
  {
    var filtered := Supported(text, charMap);
    if filtered == [] {
      return Some([]);
    }
    var charArt := seq(|filtered|, k requires 0 <= k < |filtered| => charMap[filtered[k]]);
    var height := |charArt[0]|;
    var lines: seq<string> := [];
    var row := 0;
    while row < height
      invariant 0 <= row <= height
      invariant forall k :: 0 <= k < |filtered| ==> charArt[k] == charMap[filtered[k]]
      invariant forall k :: 0 <= k < |filtered| ==> |charMap[filtered[k]]| >= row
      invariant |lines| == row
      invariant forall r :: 0 <= r < row ==> lines[r] == Text.Join(GlyphRow(filtered, charMap, r), " ")
    {
      if exists k :: 0 <= k < |filtered| && row >= |charArt[k]| {
        return None;
      }
      var parts := seq(|filtered|, k requires 0 <= k < |filtered| => charArt[k][row]);
      assert parts == GlyphRow(filtered, charMap, row);
      lines := lines + [Text.Join(parts, " ")];
      row := row + 1;
    }
    assert !Ragged(filtered, charMap);
    assert lines == Rendered(filtered, charMap);
    out := Some(lines);
  }

  /** Every block glyph has five rows of six cells. */
  lemma BlockGlyphs()
    ensures forall c :: c in DigitArtBlock ==> |DigitArtBlock[c]| == 5
    ensures forall c, r :: c in DigitArtBlock && 0 <= r < 5 ==> |DigitArtBlock[c][r]| == 6
  {
  }

  /** With the block glyphs, a line of `k` characters is `7k - 1` cells wide. */
  lemma BlockLineWidth(f: string, r: nat)
    requires f != [] && forall k :: 0 <= k < |f| ==> f[k] in DigitArtBlock
    requires r < 5
    ensures !Ragged(f, DigitArtBlock)
    ensures |Rendered(f, DigitArtBlock)| == 5
    ensures |Rendered(f, DigitArtBlock)[r]| == 7 * |f| - 1
  {
    BlockGlyphs();
    Text.JoinLength(GlyphRow(f, DigitArtBlock, r), " ", 6);
  }

  // ---------------------------------------------------------------------------
  // roll_dice and format_dice_results

  /** The outcome of `roll_dice`: refused with its message, rolled, or `randint` raising ValueError. */
  datatype Roll = Refused(message: string) | Rolled(results: seq<int>) | RandintRaised

  /** `randint(a, b, i)` honours `randint`'s range whenever the range is not empty. */
  ghost predicate HonestRandint(randint: (int, int, nat) -> int) {
    forall a, b, i :: a <= b ==> a <= randint(a, b, i) <= b
  }

  /** `roll_dice(count, sides)`. */
  function RollDice(count: int, sides: int, randint: (int, int, nat) -> int): (r: Roll)
    ensures r.Rolled? <==> 1 <= count <= 150 && 2 <= sides <= 150
    ensures r.RandintRaised? <==> 1 <= count <= 150 && sides < 0
    ensures r.Rolled? ==> |r.results| == count && forall k :: 0 <= k < count ==> r.results[k] == randint(1, sides, k)
    ensures r.Rolled? && HonestRandint(randint) ==> forall k :: 0 <= k < count ==> 1 <= r.results[k] <= sides
  {
    if count <= 0 then Refused("You appear to be rolling thin air.")
    else if count > 150 then Refused("That's too many dice! Maximum is 150.")
    else if sides == 0 then Refused("A zero sided die is not possible, however a two sided die is.")
    else if sides == 1 then Refused("A one sided die is not possible, however a two sided die is.")
    else if sides > 150 then Refused("That's too many sides! Maximum is 150.")
    else if sides < 0 then RandintRaised
    else Rolled(seq(count, k requires 0 <= k < count => randint(1, sides, k)))
  }

  /** The checks run in order: a bad count is reported before a bad side count. */
  lemma RollOrderExample(randint: (int, int, nat) -> int)
    ensures RollDice(0, 0, randint) == Refused("You appear to be rolling thin air.")
    ensures RollDice(151, 1, randint) == Refused("That's too many dice! Maximum is 150.")
    ensures RollDice(3, -4, randint) == RandintRaised
  {
  }

  function Sum(xs: seq<int>): int {
    if xs == [] then 0 else xs[0] + Sum(xs[1..])
  }

  /** The roll list of `format_dice_results` for two or more dice. */
  function DiceList(results: seq<int>): string
    requires |results| >= 2
  {
    TextList(RollStrings(results))
  }

  /** The rolls written out: "a x and a y" for two, "x, y, and a z" for more. */
  function TextList(strs: seq<string>): string
    requires |strs| >= 2
  {
    var last := strs[|strs| - 1];
    if |strs| == 2 then "a " + strs[0] + " and a " + last
    else Text.Join(strs[..|strs| - 1], ", ") + ", and a " + last
  }

  /** `[str(r) for r in rolls]`. */
  function RollStrings(rolls: seq<int>): (r: seq<string>)
    ensures |r| == |rolls| && forall k :: 0 <= k < |rolls| ==> r[k] == Text.IntToString(rolls[k])
  {
    seq(|rolls|, k requires 0 <= k < |rolls| => Text.IntToString(rolls[k]))
  }

  /** `format_dice_results` for the results of a successful roll. */
  function FormatDiceResults(count: int, sides: int, results: seq<int>): string
    requires count >= 1 && |results| == count
  {
    if count == 1 then
      "You rolled a single die with " + Text.IntToString(sides) + " sides and got a " + Text.IntToString(results[0]) + "."
    else
      "You rolled " + Text.IntToString(count) + DiceReport(sides, results)
  }

  /** What follows the dice count in the report for several dice. */
  function DiceReport(sides: int, results: seq<int>): string
    requires |results| >= 2
  {
    " dice with " + Text.IntToString(sides) + " sides and got " + DiceList(results) + ". Total: " + Text.IntToString(Sum(results))
  }

  /** Every roll appears in the list. */
  lemma DiceListMentions(results: seq<int>, k: nat)
    requires |results| >= 2 && k < |results|
    ensures Text.Contains(DiceList(results), Text.IntToString(results[k]))
  {
    TextListMentions(RollStrings(results), k);
  }

  lemma TextListMentions(strs: seq<string>, k: nat)
    requires |strs| >= 2 && k < |strs|
    ensures Text.Contains(TextList(strs), strs[k])
  {
    if |strs| == 2 {
      PairMentions(strs, k);
    } else if k < |strs| - 1 {
      EarlierMentioned(strs, k);
    } else {
      LastMentioned(strs);
    }
  }

  lemma PairMentions(strs: seq<string>, k: nat)
    requires |strs| == 2 && k < 2
    ensures Text.Contains(TextList(strs), strs[k])
  {
    var front := "a " + strs[0] + " and a ";
    if k == 0 {
      Text.ContainsInfix("a ", strs[0], " and a ");
      Text.ContainsPrefix(front, strs[1], strs[0]);
    } else {
      Text.ContainsEnd(front, strs[1]);
    }
  }

  lemma EarlierMentioned(strs: seq<string>, k: nat)
    requires |strs| > 2 && k < |strs| - 1
    ensures Text.Contains(TextList(strs), strs[k])
  {
    var n := |strs|;
    var joined := Text.Join(strs[..n - 1], ", ");
    assert strs[..n - 1][k] == strs[k];
    Text.JoinContains(strs[..n - 1], ", ", k);
    Text.ContainsPrefix(joined, ", and a ", strs[k]);
    Text.ContainsPrefix(joined + ", and a ", strs[n - 1], strs[k]);
  }

  lemma LastMentioned(strs: seq<string>)
    requires |strs| > 2
    ensures Text.Contains(TextList(strs), strs[|strs| - 1])
  {
    var n := |strs|;
    Text.ContainsEnd(Text.Join(strs[..n - 1], ", ") + ", and a ", strs[n - 1]);
  }

  /** The one-die report names its roll and never reads like the report for several dice. */
  lemma FormatOneDie(sides: int, results: seq<int>)
    requires |results| == 1
    ensures Text.StartsWith(FormatDiceResults(1, sides, results), "You rolled a single die")
    ensures Text.Contains(FormatDiceResults(1, sides, results), Text.IntToString(results[0]))
  {
    var single := "You rolled a single die";
    var head := single + " with " + Text.IntToString(sides) + " sides and got a ";
    var m := FormatDiceResults(1, sides, results);
    assert m == head + Text.IntToString(results[0]) + ".";
    assert m[..|single|] == single;
    Text.ContainsInfix(head, Text.IntToString(results[0]), ".");
  }

  /** The report for several dice ends with the total of the rolls. */
  lemma FormatSeveralTotal(count: int, sides: int, results: seq<int>)
    requires count >= 2 && |results| == count
    ensures Text.EndsWith(FormatDiceResults(count, sides, results), ". Total: " + Text.IntToString(Sum(results)))
  {
    var total := ". Total: " + Text.IntToString(Sum(results));
    var report := DiceReport(sides, results);
    var front := " dice with " + Text.IntToString(sides) + " sides and got " + DiceList(results);
    assert report == front + total;
    var m := "You rolled " + Text.IntToString(count) + report;
    assert m == ("You rolled " + Text.IntToString(count) + front) + total;
    assert m[|m| - |total|..] == total;
  }

  /** The report for several dice starts with their count, so it never has the single-die form. */
  lemma FormatSeveralForm(count: int, sides: int, results: seq<int>)
    requires count >= 2 && |results| == count
    ensures !Text.StartsWith(FormatDiceResults(count, sides, results), "You rolled a single die")
  {
    var d := Text.IntToString(count);
    var single := "You rolled a single die";
    assert d == Text.NatToString(count);
    assert !Text.IsDigit(single[11]);
    assert FormatDiceResults(count, sides, results) == "You rolled " + d + DiceReport(sides, results);
    PrefixDigitAt("You rolled ", d, DiceReport(sides, results), single);
  }

  /** A string whose character after `head` is a digit does not start with a pattern that has a letter there. */
  lemma PrefixDigitAt(head: string, digits: string, rest: string, p: string)
    requires digits != [] && Text.IsDigit(digits[0])
    requires |p| > |head| && !Text.IsDigit(p[|head|])
    ensures !Text.StartsWith(head + digits + rest, p)
  {
    var m := head + digits + rest;
    assert m[|head|] == digits[0];
    if |p| <= |m| {
      assert m[..|p|][|head|] == m[|head|];
    }
  }

  /** The report for several dice names every roll. */
  lemma FormatSeveralMentions(count: int, sides: int, results: seq<int>, k: nat)
    requires count >= 2 && |results| == count && k < count
    ensures Text.Contains(FormatDiceResults(count, sides, results), Text.IntToString(results[k]))
  {
    var head := " dice with " + Text.IntToString(sides) + " sides and got ";
    var total := ". Total: " + Text.IntToString(Sum(results));
    assert DiceReport(sides, results) == head + DiceList(results) + total;
    DiceListMentions(results, k);
    Text.ContainsSuffix(head, DiceList(results), Text.IntToString(results[k]));
    Text.ContainsPrefix(head + DiceList(results), total, Text.IntToString(results[k]));
    Text.ContainsSuffix("You rolled " + Text.IntToString(count), DiceReport(sides, results), Text.IntToString(results[k]));
  }

  // ---------------------------------------------------------------------------
  // command_digits and command_coin checks

  /** `''.join(c for c in text if c.isdigit())`, for ASCII digits. */
  function DigitsOf(text: string): (d: string)
    ensures forall k :: 0 <= k < |d| ==> Text.IsDigit(d[k])
    ensures forall c :: c in text && Text.IsDigit(c) ==> c in d
    ensures forall c :: c in d ==> c in text
  {
    if text == [] then []
    else
      var rest := DigitsOf(text[1..]);
      assert forall c :: c in text ==> c == text[0] || c in text[1..];
      if Text.IsDigit(text[0]) then [text[0]] + rest else rest
  }

  /** The argument checks of `command_digits`: the digits to render, or the reply that refuses them. */
  function DigitsArgument(remaining: seq<string>): (r: Result<string, string>)
    ensures r.Ok? <==> remaining != [] && 1 <= |DigitsOf(Text.Join(remaining, ""))| <= 20
    ensures r.Ok? ==> r.value == DigitsOf(Text.Join(remaining, ""))
    ensures r.Err? && remaining != [] ==>
      (r.error == "No valid digits provided" <==> DigitsOf(Text.Join(remaining, "")) == [])
  {
    if remaining == [] then Err("Usage: digits [-s STYLE] [-b] NUMBER [NUMBER...]")
    else
      var digits := DigitsOf(Text.Join(remaining, ""));
      if digits == [] then Err("No valid digits provided")
      else if |digits| > 20 then Err("Too many digits! Maximum is 20.")
      else Ok(digits)
  }

  /** Accepted digits render in the block style without error: five lines of `7k - 1` cells. */
  lemma DigitsRenderBlock(remaining: seq<string>, r: nat)
    requires DigitsArgument(remaining).Ok? && r < 5
    ensures Supported(DigitsArgument(remaining).value, DigitArtBlock) == DigitsArgument(remaining).value
    ensures |Rendered(DigitsArgument(remaining).value, DigitArtBlock)| == 5
    ensures |Rendered(DigitsArgument(remaining).value, DigitArtBlock)[r]| == 7 * |DigitsArgument(remaining).value| - 1
  {
    var d := DigitsArgument(remaining).value;
    assert forall c :: Text.IsDigit(c) ==> c in DigitArtBlock;
    SupportedAll(d, DigitArtBlock);
    BlockLineWidth(d, r);
  }

  lemma {:induction false} SupportedAll(text: string, charMap: map<char, seq<string>>)
    requires forall k :: 0 <= k < |text| ==> text[k] in charMap
    ensures Supported(text, charMap) == text
    decreases |text|
  {
    if text != [] {
      SupportedAll(text[1..], charMap);
      assert [text[0]] + text[1..] == text;
    }
  }

  /** The count checks of `command_coin`: `Some` is the refusal. */
  function CoinRefusal(count: int): (r: Option<string>)
    ensures r.None? <==> 1 <= count <= 100
  {
    if count <= 0 then Some("You need to flip at least one coin!")
    else if count > 100 then Some("That's too many coins! Maximum is 100.")
    else None
  }

  /** The flips: `Heads` when the `i`-th `randint(0, 1)` is 0. */
  function Flips(count: nat, randint: (int, int, nat) -> int): (fs: seq<string>)
    ensures |fs| == count
  {
    seq(count, i requires 0 <= i < count => if randint(0, 1, i) == 0 then "Heads" else "Tails")
  }

  /** `results.count(x)`. */
  function Occurrences(xs: seq<string>, x: string): nat {
    if xs == [] then 0 else (if xs[0] == x then 1 else 0) + Occurrences(xs[1..], x)
  }

  /** Every flip is heads or tails, so the two tallies add up to the number of coins. */
  lemma {:induction false} TallyTotal(xs: seq<string>)
    requires forall k :: 0 <= k < |xs| ==> xs[k] == "Heads" || xs[k] == "Tails"
    ensures Occurrences(xs, "Heads") + Occurrences(xs, "Tails") == |xs|
    decreases |xs|
  {
    if xs != [] {
      TallyTotal(xs[1..]);
    }
  }

  /** The reply of `command_coin` for a coin count that `int()` accepted. */
  function CoinReply(count: int, randint: (int, int, nat) -> int): string {
    match CoinRefusal(count)
    case Some(refusal) => refusal
    case None =>
      var results := Flips(count, randint);
      if count == 1 then "You flipped: " + results[0]
      else
        var summary := "Heads: " + Text.NatToString(Occurrences(results, "Heads")) +
          ", Tails: " + Text.NatToString(Occurrences(results, "Tails"));
        "You flipped " + Text.IntToString(count) + " coins: " + Text.Join(results[..count - 1], ", ") +
        ", and " + results[count - 1] + ". (" + summary + ")"
  }

  /** Outside 1..100 the reply is the refusal; inside, heads and tails account for every coin. */
  lemma CoinFacts(count: int, randint: (int, int, nat) -> int)
    ensures CoinRefusal(count).Some? ==> CoinReply(count, randint) == CoinRefusal(count).value
    ensures 1 <= count <= 100 ==>
      Occurrences(Flips(count, randint), "Heads") + Occurrences(Flips(count, randint), "Tails") == count
  {
    if 1 <= count <= 100 {
      TallyTotal(Flips(count, randint));
    }
  }
}
