/**
 * formatTextAsMarkdown and the fence stripping of getJsonDict
 * (doc/processing.py). The formatter is one pass over the lines of the
 * text that remembers whether it is inside a table: the method is that
 * loop, proved against `FormatFrom`, which says what each line becomes.
 */
module DocMarkdown {
  import opened Text

  /** What an empty text is formatted as. */
  const NoContent: string := "# No Content\n\n*No text content was available for formatting.*"

  /** What every run of three or more line breaks becomes. */
  const Rule: string := "\n\n---\n\n"

  // ---------------------------------------------------------------------
  // One line

  /** `"|" in line and len(line.split("|")) >= 3`. */
  predicate IsTableLine(line: string) {
    '|' in line && |Split(line, '|')| >= 3
  }

  /** A table line is one with at least two bars. */
  lemma TableLineBars(line: string)
    ensures IsTableLine(line) <==> CountChar(line, '|') >= 2
  {
    SplitCount(line, '|');
    if '|' !in line {
      CountCharAbsent(line, '|');
    }
  }

  /** `["---"] * columnCount`. */
  function Cells(n: nat): (r: seq<string>)
    ensures |r| == n && forall k :: 0 <= k < n ==> r[k] == "---"
  {
    seq(n, _ => "---")
  }

  /** `"|" + "|".join(["---"] * columnCount) + "|"`. */
  function Separator(columnCount: nat): string {
    "|" + Join(Cells(columnCount), "|") + "|"
  }

  /** `---|` once per column. */
  function CellsText(n: nat): string {
    if n == 0 then "" else "---|" + CellsText(n - 1)
  }

  /** The separator row: a bar, then one `---` cell per column, each
      closed by a bar. */
  lemma {:induction false} SeparatorCells(n: nat)
    requires n >= 1
    ensures Separator(n) == "|" + CellsText(n)
    ensures CountChar(Separator(n), '|') == n + 1
  {
    JoinCells(n);
    CellsBars(n);
    CountCharConcat("|", CellsText(n), '|');
  }

  lemma {:induction false} JoinCells(n: nat)
    requires n >= 1
    ensures Join(Cells(n), "|") + "|" == CellsText(n)
  {
    if n > 1 {
      JoinCells(n - 1);
      assert Cells(n)[1..] == Cells(n - 1);
      assert Join(Cells(n), "|") == "---" + "|" + Join(Cells(n - 1), "|");
    }
  }

  lemma {:induction false} CellsBars(n: nat)
    ensures CountChar(CellsText(n), '|') == n
  {
    if n > 0 {
      CellsBars(n - 1);
      CountCharConcat("---|", CellsText(n - 1), '|');
      assert CountChar("---|", '|') == 1;
    }
  }

  /** Length of the run of characters satisfying `p` that starts at `i`. */
  function Run(s: string, i: nat, p: char -> bool): (n: nat)
    requires i <= |s|
    ensures i + n <= |s|
    ensures forall k :: i <= k < i + n ==> p(s[k])
    ensures i + n == |s| || !p(s[i + n])
    decreases |s| - i
  {
    if i == |s| || !p(s[i]) then 0 else 1 + Run(s, i + 1, p)
  }

  /** `[\d\.]`. */
  predicate IsNumbering(c: char) { IsDigit(c) || c == '.' }

  /** `re.match(r"^[\d\.]+\s+[A-Z]", line)`: digits and dots, whitespace,
      then a capital. The three classes are disjoint, so the greedy runs
      are the only way to match. */
  predicate SubsectionStart(s: string) {
    var a := Run(s, 0, IsNumbering);
    var b := Run(s, a, IsSpace);
    a >= 1 && b >= 1 && a + b < |s| && IsAsciiUpper(s[a + b])
  }

  /** A line that is neither blank nor part of a table: a section heading
      when it is all capitals of length 4 to 99, a subsection heading when
      it starts with a number and is shorter than 100, else the original
      line untouched. */
  function Heading(original: string, line: string): string {
    if IsUpper(line) && |line| < 100 && |line| > 3 then "### " + line
    else if SubsectionStart(line) && |line| < 100 then "#### " + line
    else original
  }

  /** What one line writes and the table flag after it. */
  datatype Step = Step(out: seq<string>, inTable: bool)

  function LineStep(original: string, inTable: bool): Step {
    var line := Strip(original);
    if line == "" then Step([""], inTable)
    else if IsTableLine(line) then
      if !inTable then Step([line, Separator(|Split(line, '|')| - 1)], true)
      else Step([line], true)
    else Step([Heading(original, line)], false)
  }

  /** The lines written for `lines[k..]`, entered with the table flag. */
  function FormatFrom(lines: seq<string>, k: nat, inTable: bool): seq<string>
    requires k <= |lines|
    decreases |lines| - k
  {
    if k == |lines| then []
    else
      var step := LineStep(lines[k], inTable);
      step.out + FormatFrom(lines, k + 1, step.inTable)
  }

  // ---------------------------------------------------------------------
  // What the pass does to tables

  /** The first line of `lines[k..]` is written first. */
  lemma FormatStep(lines: seq<string>, k: nat, inTable: bool)
    requires k < |lines|
    ensures FormatFrom(lines, k, inTable)
            == LineStep(lines[k], inTable).out + FormatFrom(lines, k + 1, LineStep(lines[k], inTable).inTable)
  {
  }

  lemma StartStep(original: string)
    requires IsTableLine(Strip(original))
    ensures LineStep(original, false)
            == Step([Strip(original), Separator(CountChar(Strip(original), '|'))], true)
  {
    SplitCount(Strip(original), '|');
  }

  lemma InTableStep(original: string)
    requires TableRow(original)
    ensures LineStep(original, true) == Step([Strip(original)], true)
  {
  }

  /** A table line met outside a table is written stripped, followed by a
      separator with one cell per bar in it, and opens a table run. */
  lemma TableStart(lines: seq<string>, k: nat)
    requires k < |lines| && IsTableLine(Strip(lines[k]))
    ensures var line := Strip(lines[k]);
            FormatFrom(lines, k, false)
            == [line, Separator(CountChar(line, '|'))] + FormatFrom(lines, k + 1, true)
  {
    StartStep(lines[k]);
    FormatStep(lines, k, false);
  }

  /** `lines[k..j]`, each stripped. */
  function StrippedFrom(lines: seq<string>, k: nat, j: nat): (r: seq<string>)
    requires k <= j <= |lines|
    ensures |r| == j - k && forall i :: k <= i < j ==> r[i - k] == Strip(lines[i])
    decreases j - k
  {
    if k == j then [] else [Strip(lines[k])] + StrippedFrom(lines, k + 1, j)
  }

  /** A line that keeps a table run going: blank or a table line. */
  predicate TableRow(line: string) {
    Strip(line) == "" || IsTableLine(Strip(line))
  }

  /** Every line of `lines[k..j]` keeps the run going. */
  predicate RowsFrom(lines: seq<string>, k: nat, j: nat)
    requires k <= j <= |lines|
    decreases j - k
  {
    k == j || (TableRow(lines[k]) && RowsFrom(lines, k + 1, j))
  }

  lemma RowStep(lines: seq<string>, k: nat)
    requires k < |lines| && TableRow(lines[k])
    ensures FormatFrom(lines, k, true) == [Strip(lines[k])] + FormatFrom(lines, k + 1, true)
  {
    InTableStep(lines[k]);
    FormatStep(lines, k, true);
  }

  /** Inside a table run, table lines and blank lines are written stripped
      and nothing else is added: no second separator, and the run goes on
      past blank lines. */
  lemma {:induction false} TableRun(lines: seq<string>, k: nat, j: nat)
    requires k <= j <= |lines| && RowsFrom(lines, k, j)
    ensures FormatFrom(lines, k, true) == StrippedFrom(lines, k, j) + FormatFrom(lines, j, true)
    decreases j - k
  {
    if k < j {
      RowStep(lines, k);
      TableRun(lines, k + 1, j);
      ConcatAssoc([Strip(lines[k])], StrippedFrom(lines, k + 1, j), FormatFrom(lines, j, true));
    }
  }

  /** Any other non-blank line closes the run: the next table line starts
      a new table with its own separator. */
  lemma TableEnd(lines: seq<string>, k: nat, inTable: bool)
    requires k < |lines| && Strip(lines[k]) != "" && !IsTableLine(Strip(lines[k]))
    ensures FormatFrom(lines, k, inTable)
            == [Heading(lines[k], Strip(lines[k]))] + FormatFrom(lines, k + 1, false)
  {
    FormatStep(lines, k, inTable);
  }

  /** A blank line is written as an empty line and leaves the table flag
      as it was. */
  lemma BlankLine(lines: seq<string>, k: nat, inTable: bool)
    requires k < |lines| && Strip(lines[k]) == ""
    ensures FormatFrom(lines, k, inTable) == [""] + FormatFrom(lines, k + 1, inTable)
  {
    FormatStep(lines, k, inTable);
  }

  lemma StepSize(original: string, inTable: bool)
    ensures 1 <= |LineStep(original, inTable).out| <= 2
    ensures !IsTableLine(Strip(original)) ==> |LineStep(original, inTable).out| == 1
  {
  }

  /** Every line writes at least one line, and only a table's first line
      writes two. */
  lemma {:induction false} FormatLength(lines: seq<string>, k: nat, inTable: bool)
    requires k <= |lines|
    ensures |lines| - k <= |FormatFrom(lines, k, inTable)| <= 2 * (|lines| - k)
    decreases |lines| - k
  {
    if k < |lines| {
      FormatStep(lines, k, inTable);
      StepSize(lines[k], inTable);
      FormatLength(lines, k + 1, LineStep(lines[k], inTable).inTable);
    }
  }

  /** Without table lines the output has one line per input line. */
  lemma {:induction false} FormatWithoutTables(lines: seq<string>, k: nat, inTable: bool)
    requires k <= |lines|
    requires forall i :: k <= i < |lines| ==> !IsTableLine(Strip(lines[i]))
    ensures |FormatFrom(lines, k, inTable)| == |lines| - k
    decreases |lines| - k
  {
    if k < |lines| {
      FormatStep(lines, k, inTable);
      StepSize(lines[k], inTable);
      FormatWithoutTables(lines, k + 1, LineStep(lines[k], inTable).inTable);
    }
  }

  // ---------------------------------------------------------------------
  // Runs of line breaks: re.sub(r"\n{3,}", "\n\n---\n\n", text)

  /** How many line breaks `s` starts with. */
  function Breaks(s: string): (n: nat)
    ensures n <= |s|
    ensures forall k :: 0 <= k < n ==> s[k] == '\n'
    ensures n == |s| || s[n] != '\n'
  {
    if |s| == 0 || s[0] != '\n' then 0 else 1 + Breaks(s[1..])
  }

  /** The leftmost match is the leading run of breaks when it has three or
      more; otherwise the text before the next break is copied. */
  function Collapse(s: string): string
    decreases |s|
  {
    if |s| == 0 then ""
    else
      var n := Breaks(s);
      if n >= 3 then Rule + Collapse(s[n..])
      else if n == 0 then [s[0]] + Collapse(s[1..])
      else s[..n] + Collapse(s[n..])
  }

  /** No three line breaks in a row. */
  predicate NoTriple(s: string) {
    forall i :: 0 <= i < |s| - 2 ==> !(s[i] == '\n' && s[i + 1] == '\n' && s[i + 2] == '\n')
  }

  lemma NoTripleJoin(a: string, b: string)
    requires NoTriple(a) && NoTriple(b) && (|b| == 0 || b[0] != '\n')
    ensures NoTriple(a + b)
  {
    var t := a + b;
    forall i | 0 <= i < |t| - 2 ensures !(t[i] == '\n' && t[i + 1] == '\n' && t[i + 2] == '\n') {
      if i >= |a| {
        assert t[i] == b[i - |a|] && t[i + 1] == b[i - |a| + 1] && t[i + 2] == b[i - |a| + 2];
      } else if i + 2 < |a| {
        assert t[i] == a[i] && t[i + 1] == a[i + 1] && t[i + 2] == a[i + 2];
      } else {
        assert t[|a|] == b[0];
      }
    }
  }

  lemma NoTripleCons(c: char, b: string)
    requires c != '\n' && NoTriple(b)
    ensures NoTriple([c] + b)
  {
    var t := [c] + b;
    forall i | 1 <= i < |t| - 2 ensures !(t[i] == '\n' && t[i + 1] == '\n' && t[i + 2] == '\n') {
      assert t[i] == b[i - 1] && t[i + 1] == b[i] && t[i + 2] == b[i + 1];
    }
  }

  lemma NoTripleSuffix(s: string, n: nat)
    requires NoTriple(s) && n <= |s|
    ensures NoTriple(s[n..])
  {
    var t := s[n..];
    forall i | 0 <= i < |t| - 2 ensures !(t[i] == '\n' && t[i + 1] == '\n' && t[i + 2] == '\n') {
      assert t[i] == s[n + i] && t[i + 1] == s[n + i + 1] && t[i + 2] == s[n + i + 2];
    }
  }

  /** Without three breaks in a row, no run of breaks reaches three. */
  lemma BreaksBelowThree(s: string)
    requires NoTriple(s)
    ensures Breaks(s) < 3
  {
    if |s| >= 3 {
      assert !(s[0] == '\n' && s[1] == '\n' && s[2] == '\n');
    }
  }

  /** The result never holds three line breaks in a row, and it starts
      with the same character as the text when that is not a line break. */
  lemma {:induction false} CollapseNoTriple(s: string)
    ensures NoTriple(Collapse(s))
    ensures |s| > 0 && s[0] != '\n' ==> |Collapse(s)| > 0 && Collapse(s)[0] == s[0]
    decreases |s|
  {
    if |s| > 0 {
      var n := Breaks(s);
      if n >= 3 {
        CollapseNoTriple(s[n..]);
        assert NoTriple(Rule);
        NoTripleJoin(Rule, Collapse(s[n..]));
      } else if n == 0 {
        CollapseNoTriple(s[1..]);
        NoTripleCons(s[0], Collapse(s[1..]));
      } else {
        CollapseNoTriple(s[n..]);
        NoTripleJoin(s[..n], Collapse(s[n..]));
      }
    }
  }

  /** Text with no run of three line breaks is left as it is. */
  lemma {:induction false} CollapseKeeps(s: string)
    requires NoTriple(s)
    ensures Collapse(s) == s
    decreases |s|
  {
    if |s| > 0 {
      var n := Breaks(s);
      BreaksBelowThree(s);
      if n == 0 {
        NoTripleSuffix(s, 1);
        CollapseKeeps(s[1..]);
        assert [s[0]] + s[1..] == s;
      } else {
        NoTripleSuffix(s, n);
        CollapseKeeps(s[n..]);
        assert s[..n] + s[n..] == s;
      }
    }
  }

  /** So collapsing twice is collapsing once. */
  lemma CollapseIdempotent(s: string)
    ensures Collapse(Collapse(s)) == Collapse(s)
  {
    CollapseNoTriple(s);
    CollapseKeeps(Collapse(s));
  }

  lemma {:induction false} BreaksOfRun(n: nat, rest: string)
    requires |rest| == 0 || rest[0] != '\n'
    ensures Breaks(Repeat('\n', n) + rest) == n
  {
    if n > 0 {
      BreaksOfRun(n - 1, rest);
      assert (Repeat('\n', n) + rest)[1..] == Repeat('\n', n - 1) + rest;
    }
  }

  /** A run of three or more line breaks, followed by anything else,
      becomes the rule. */
  lemma CollapseRun(n: nat, rest: string)
    requires n >= 3 && (|rest| == 0 || rest[0] != '\n')
    ensures Collapse(Repeat('\n', n) + rest) == Rule + Collapse(rest)
  {
    var s := Repeat('\n', n) + rest;
    BreaksOfRun(n, rest);
    assert s[n..] == rest;
  }

  // ---------------------------------------------------------------------
  // formatTextAsMarkdown

  /** The formatted text: the placeholder for empty input; otherwise
      CRLF made LF, every line formatted, the lines joined, and runs of
      blank lines turned into rules. */
  function Markdown(text: string): string {
    if text == "" then NoContent
    else Collapse(Join(FormatFrom(Split(ReplaceAll(text, "\r\n", "\n"), '\n'), 0, false), "\n"))
  }

  /** The body of the loop: what one line appends, and the two flags after
      it. `tableHeaderRow` is set on the first line of a table and cleared
      on the next; nothing reads it. */
  method FormatLine(originalLine: string, inTable: bool, tableHeaderRow: bool)
    returns (out: seq<string>, nowInTable: bool, nowHeaderRow: bool)
    ensures Step(out, nowInTable) == LineStep(originalLine, inTable)
    ensures nowHeaderRow == if IsTableLine(Strip(originalLine)) then !inTable else tableHeaderRow
  {
    nowInTable, nowHeaderRow := inTable, tableHeaderRow;
    var line := Strip(originalLine);
    if line == "" {
      return [""], nowInTable, nowHeaderRow;
    }
    if '|' in line && |Split(line, '|')| >= 3 {
      if !inTable {
        nowInTable := true;
        nowHeaderRow := true;
        var columnCount := |Split(line, '|')| - 1;
        out := [line, "|" + Join(Cells(columnCount), "|") + "|"];
      } else {
        if tableHeaderRow {
          nowHeaderRow := false;
        }
        out := [line];
      }
    } else {
      nowInTable := false;
      if IsUpper(line) && |line| < 100 && |line| > 3 {
        out := ["### " + line];
      } else if SubsectionStart(line) && |line| < 100 {
        out := ["#### " + line];
      } else {
        out := [originalLine];
      }
    }
  }

  /** The pass over the lines, with its two flags. */
  method FormatLines(lines: seq<string>) returns (formattedLines: seq<string>)
    ensures formattedLines == FormatFrom(lines, 0, false)
  {
    formattedLines := [];
    var inTable := false;
    var tableHeaderRow := false;
    for k := 0 to |lines|
      invariant formattedLines + FormatFrom(lines, k, inTable) == FormatFrom(lines, 0, false)
    {
      var out;
      ghost var wasInTable := inTable;
      out, inTable, tableHeaderRow := FormatLine(lines[k], inTable, tableHeaderRow);
      FormatStep(lines, k, wasInTable);
      ConcatAssoc(formattedLines, out, FormatFrom(lines, k + 1, inTable));
      formattedLines := formattedLines + out;
    }
    assert formattedLines + [] == formattedLines;
  }

  method FormatTextAsMarkdown(text: string) returns (r: string)
    ensures r == Markdown(text)
    ensures text == "" ==> r == NoContent
    ensures text != "" ==> NoTriple(r)
  {
    if text == "" {
      return NoContent;
    }
    var formattedText := ReplaceAll(text, "\r\n", "\n");
    var lines := Split(formattedText, '\n');
    var formattedLines := FormatLines(lines);
    r := Collapse(Join(formattedLines, "\n"));
    CollapseNoTriple(Join(formattedLines, "\n"));
  }

  // ---------------------------------------------------------------------
  // getJsonDict: data.removeprefix("```json").removesuffix("```")

  /** `s.removeprefix(p)`. */
  function RemovePrefix(s: string, p: string): string {
    if |p| <= |s| && s[..|p|] == p then s[|p|..] else s
  }

  /** `s.removesuffix(p)`. */
  function RemoveSuffix(s: string, p: string): string {
    if |p| <= |s| && s[|s| - |p|..] == p then s[..|s| - |p|] else s
  }

  /** The text handed to the JSON parser. */
  function StripJsonFence(data: string): string {
    RemoveSuffix(RemovePrefix(data, "```json"), "```")
  }

  /** A fenced reply gives back exactly what was inside the fence, even
      when that itself starts or ends with a fence: one of each is
      removed. */
  lemma FenceRoundTrip(x: string)
    ensures StripJsonFence("```json" + x + "```") == x
  {
    var data := "```json" + x + "```";
    assert data[..7] == "```json";
    assert data[7..] == x + "```";
    var y := x + "```";
    assert y[|y| - 3..] == "```";
    assert y[..|y| - 3] == x;
  }

  /** Text without the fences is passed through. */
  lemma UnfencedKept(data: string)
    requires !(|data| >= 7 && data[..7] == "```json")
    requires !(|data| >= 3 && data[|data| - 3..] == "```")
    ensures StripJsonFence(data) == data
  {
  }
}
