/** The report table and section table CSVs
    (Scripts/Predictive_Report/report_and_section_table_csv.py): rows of
    `Title` / `Makeup | Change | Effect` lines found in the formatted report,
    each written as a small self-describing CSV. */
module TableCsv {
  import opened Wrappers
  import opened Strings

  const SaveDir := "Predictive_Report/Ai_Responses/Report_and_Section_Tables"

  // =====================================================================
  // The percent suffix
  // =====================================================================

  /** A value with `%` appended unless it already ends in one. */
  function EnsurePercent(v: string): (r: string)
    ensures EndsWith(r, "%")
    ensures StartsWith(r, v) && |r| <= |v| + 1
  {
    if EndsWith(v, "%") then v else v + "%"
  }

  /** Adding the suffix twice is adding it once. */
  lemma EnsurePercentIdempotent(v: string)
    ensures EnsurePercent(EnsurePercent(v)) == EnsurePercent(v)
  {
  }

  /** `30` and `30%` give the same cell, `30%`. */
  lemma EnsurePercentSame(v: string)
    requires !EndsWith(v, "%")
    ensures EnsurePercent(v + "%") == EnsurePercent(v) == v + "%"
  {
    assert (v + "%")[|v + "%"| - 1..] == "%";
  }

  // =====================================================================
  // The two writers
  // =====================================================================

  /** One matched table line: title, makeup, change and effect. */
  datatype TableRow = TableRow(title: string, makeup: string, change: string, effect: string)

  /** The CSV row of a table line: the title, then the three values with
      the percent suffix. */
  function CsvLine(row: TableRow): seq<string> {
    [row.title, EnsurePercent(row.makeup), EnsurePercent(row.change), EnsurePercent(row.effect)]
  }

  /** The rows of a formatted table CSV: two label rows, a blank row, the
      header, then one row per table line, in order. */
  function FormattedTable(label1: string, value1: string, label2: string, value2: string,
                          header: seq<string>, rows: seq<TableRow>): (r: seq<seq<string>>)
    ensures |r| == 4 + |rows|
  {
    [[label1, value1], [label2, value2], [], header]
      + seq(|rows|, k requires 0 <= k < |rows| => CsvLine(rows[k]))
  }

  /** The rows of a formatted table CSV, written one by one. */
  method WriteTable(label1: string, value1: string, label2: string, value2: string,
                    header: seq<string>, rows: seq<TableRow>) returns (csv: seq<seq<string>>)
    ensures csv == FormattedTable(label1, value1, label2, value2, header, rows)
  {
    csv := [[label1, value1], [label2, value2], [], header];
    for k := 0 to |rows|
      invariant csv == FormattedTable(label1, value1, label2, value2, header, rows[..k])
    {
      var row := rows[k];
      csv := csv + [[row.title, EnsurePercent(row.makeup), EnsurePercent(row.change), EnsurePercent(row.effect)]];
      assert rows[..k + 1] == rows[..k] + [row];
    }
    assert rows[..|rows|] == rows;
  }

  /** Every formatted table has its two labels, a blank row and its header
      in front of the data, and each data row is its table line with every
      value ending in `%`. */
  lemma FormattedTableShape(label1: string, value1: string, label2: string, value2: string,
                            header: seq<string>, rows: seq<TableRow>, k: nat)
    requires k < |rows|
    ensures var t := FormattedTable(label1, value1, label2, value2, header, rows);
      && t[0] == [label1, value1] && t[1] == [label2, value2] && t[2] == [] && t[3] == header
      && |t[4 + k]| == 4 && t[4 + k][0] == rows[k].title
      && EndsWith(t[4 + k][1], "%") && EndsWith(t[4 + k][2], "%") && EndsWith(t[4 + k][3], "%")
      && StartsWith(t[4 + k][1], rows[k].makeup)
      && StartsWith(t[4 + k][2], rows[k].change)
      && StartsWith(t[4 + k][3], rows[k].effect)
  {
  }

  const SectionHeader: seq<string> := ["sub_section_title", "sub_section_makeup", "sub_section_change", "sub_section_effect"]
  const ReportHeader: seq<string> := ["section_title", "section_makeup", "section_change", "section_effect"]

  /** How the CSV writer writes a section number that was never set: as an
      empty cell. */
  function Cell(v: Option<string>): string {
    match v case Some(s) => s case None => ""
  }

  /** `write_section_table_formatted`, without the write. */
  method WriteSectionTableFormatted(sectionNo: Option<string>, sectionTitle: string, rows: seq<TableRow>)
    returns (csv: seq<seq<string>>)
    ensures csv == FormattedTable("section_no", Cell(sectionNo), "section_title", sectionTitle, SectionHeader, rows)
  {
    csv := WriteTable("section_no", Cell(sectionNo), "section_title", sectionTitle, SectionHeader, rows);
  }

  /** `write_report_table_formatted`, without the write. */
  method WriteReportTableFormatted(reportChangeTitle: string, reportChange: string, rows: seq<TableRow>)
    returns (csv: seq<seq<string>>)
    ensures csv == FormattedTable("report_change_title", reportChangeTitle, "report_change", reportChange, ReportHeader, rows)
  {
    csv := WriteTable("report_change_title", reportChangeTitle, "report_change", reportChange, ReportHeader, rows);
  }

  // =====================================================================
  // The regular expressions
  // =====================================================================

  /** The first line break from `a` on, or the end of the text. */
  function LineEnd(s: string, a: nat): (q: nat)
    requires a <= |s|
    ensures a <= q <= |s|
    ensures q < |s| ==> s[q] == '\n'
    decreases |s| - a
  {
    if a == |s| || s[a] == '\n' then a else LineEnd(s, a + 1)
  }

  lemma {:induction false} LineEndOneLine(s: string, a: nat)
    requires a <= |s|
    ensures '\n' !in s[a..LineEnd(s, a)]
    decreases |s| - a
  {
    if a < |s| && s[a] != '\n' {
      LineEndOneLine(s, a + 1);
      assert s[a..LineEnd(s, a)] == [s[a]] + s[a + 1..LineEnd(s, a)];
    }
  }

  /** `prefix(.+?)\n` at `p`: the rest of the line, when it is not empty and
      a line break ends it. The lazy group cannot cross a line break, so it
      ends at the first one. */
  function LineGroupAt(s: string, p: nat, prefix: string): Option<string>
    requires p <= |s|
  {
    if !StartsWith(s[p..], prefix) then None
    else
      var a := p + |prefix|;
      var q := LineEnd(s, a);
      if q == a || q == |s| then None else Some(s[a..q])
  }

  /** `re.search(prefix(.+?)\n)` from position `p` on. */
  function LineSearch(s: string, prefix: string, p: nat): Option<string>
    requires p <= |s|
    decreases |s| - p
  {
    match LineGroupAt(s, p, prefix)
    case Some(g) => Some(g)
    case None => if p == |s| then None else LineSearch(s, prefix, p + 1)
  }

  /** The report change title: the line after `Report Change Title:`,
      stripped, or `Unknown`. */
  function ReportChangeTitle(text: string): string {
    match LineSearch(text, "Report Change Title:\n", 0)
    case Some(g) => Trim(g)
    case None => "Unknown"
  }

  /** The report change: the line after `Report Change:`, stripped, or "". */
  function ReportChange(text: string): string {
    match LineSearch(text, "Report Change:\n", 0)
    case Some(g) => Trim(g)
    case None => ""
  }

  /** Where the report table body ends, searched from `a`: the first line
      break followed by `Section #:` or ending the text. */
  function ReportBlockEnd(s: string, a: nat): (r: Option<nat>)
    requires a <= |s|
    ensures r.Some? ==> a <= r.value < |s|
    decreases |s| - a
  {
    if a == |s| then None
    else if StartsWith(s[a..], "\nSection #:") || (a + 1 == |s| && s[a] == '\n') then Some(a)
    else ReportBlockEnd(s, a + 1)
  }

  /** `re.search(r"Report Table:\n(.*?)(?=\n(?:Section #:|\Z))", DOTALL)`
      from position `p` on: the body of the report table. */
  function ReportTableText(s: string, p: nat): Option<string>
    requires p <= |s|
    decreases |s| - p
  {
    var head := "Report Table:\n";
    if StartsWith(s[p..], head) && ReportBlockEnd(s, p + |head|).Some? then
      Some(s[p + |head|..ReportBlockEnd(s, p + |head|).value])
    else if p == |s| then None
    else ReportTableText(s, p + 1)
  }

  /** The end of `[\d.]+` starting at `a` (`a` when there is none). */
  function DigitDotEnd(s: string, a: nat): (r: nat)
    requires a <= |s|
    ensures a <= r <= |s|
    decreases |s| - a
  {
    if a < |s| && (IsDigit(s[a]) || s[a] == '.') then DigitDotEnd(s, a + 1) else a
  }

  lemma {:induction false} DigitDotRun(s: string, a: nat, i: nat)
    requires a <= |s| && a <= i < DigitDotEnd(s, a)
    ensures IsDigit(s[i]) || s[i] == '.'
    decreases |s| - a
  {
    if i > a {
      DigitDotRun(s, a + 1, i);
    }
  }

  /** The end of `[+\-]?[\d.]+%` starting at `a`. Without the sign the
      digits would have to start on the sign, and the greedy run cannot give
      back a character to the `%`, so the match is unique. */
  function SignedEnd(s: string, a: nat): (r: Option<nat>)
    requires a <= |s|
    ensures r.Some? ==> a < r.value <= |s| && s[r.value - 1] == '%'
  {
    var b := if a < |s| && (s[a] == '+' || s[a] == '-') then a + 1 else a;
    var e := DigitDotEnd(s, b);
    if e == b || e == |s| || s[e] != '%' then None else Some(e + 1)
  }

  /** `prefix(.+?)\n` at `p` for the title of a table line: the group,
      stripped, and where it ends. The lazy group cannot cross a line break,
      so it ends at the first one. */
  function TitleAt(s: string, p: nat, prefix: string): (r: Option<(string, nat)>)
    requires p <= |s|
    ensures r.Some? ==> p + |prefix| < r.value.1 < |s|
  {
    if !StartsWith(s[p..], prefix) then None
    else
      var q := LineEnd(s, p + |prefix|);
      if q == p + |prefix| || q == |s| then None else Some((Trim(s[p + |prefix|..q]), q))
  }

  /** `prefix([\d.]+)%?` at `q`: the group, stripped, and where the match
      ends. The optional `%` is taken when present: leaving it would put a
      `%` where ` | ` must follow. */
  function MakeupAt(s: string, q: nat, prefix: string): (r: Option<(string, nat)>)
    requires q <= |s|
    ensures r.Some? ==> q < r.value.1 <= |s|
  {
    if !StartsWith(s[q..], prefix) || |prefix| == 0 then None
    else
      var c := q + |prefix|;
      var e := DigitDotEnd(s, c);
      if e == c then None
      else Some((Trim(s[c..e]), if e < |s| && s[e] == '%' then e + 1 else e))
  }

  /** `prefix([+\-]?[\d.]+%)` at `b`: the group, stripped, and where it
      ends; the group ends in `%`. */
  function SignedAt(s: string, b: nat, prefix: string): (r: Option<(string, nat)>)
    requires b <= |s|
    ensures r.Some? ==> b < r.value.1 <= |s| && EndsWith(r.value.0, "%")
  {
    if !StartsWith(s[b..], prefix) then None
    else
      match SignedEnd(s, b + |prefix|)
      case None => None
      case Some(e) =>
        PercentStripped(s[b + |prefix|..e]);
        Some((Trim(s[b + |prefix|..e]), e))
  }

  /** The table line pattern at `p` for `kind` (`Section` or
      `Sub-Section`):
      `kind Title: (.+?)\nkind Makeup: ([\d.]+)%? \| kind Change: ([+\-]?[\d.]+%) \| kind Effect: ([+\-]?[\d.]+%)`.
      The result is the row, its groups stripped, and where the match ends;
      the change and effect of a matched line end in `%`. */
  function RowAt(s: string, p: nat, kind: string): (r: Option<(TableRow, nat)>)
    requires p <= |s|
    ensures r.Some? ==> p < r.value.1 <= |s|
    ensures r.Some? ==> EndsWith(r.value.0.change, "%") && EndsWith(r.value.0.effect, "%")
  {
    match TitleAt(s, p, kind + " Title: ")
    case None => None
    case Some(t) =>
      match MakeupAt(s, t.1, "\n" + kind + " Makeup: ")
      case None => None
      case Some(m) =>
        match SignedAt(s, m.1, " | " + kind + " Change: ")
        case None => None
        case Some(c) =>
          match SignedAt(s, c.1, " | " + kind + " Effect: ")
          case None => None
          case Some(e) => Some((TableRow(t.0, m.0, c.0, e.0), e.1))
  }

  /** Stripping a string that ends in `%` keeps the `%` at its end. */
  lemma PercentStripped(g: string)
    requires g != [] && g[|g| - 1] == '%'
    ensures EndsWith(Trim(g), "%")
  {
    var t := TrimStart(g);
    TrimStartDrops(g);
    assert t != [] by {
      assert !IsSpace(g[|g| - 1]);
    }
    assert t[|t| - 1] == '%';
    TrimEndSpaces(t, []);
    assert t + [] == t;
    assert Trim(g) == t;
  }

  /** `re.finditer` of the table line pattern from `p` on: the matches
      left to right, each search resuming where the last match ended. */
  function FindRows(s: string, kind: string, p: nat): seq<TableRow>
    requires p <= |s|
    decreases |s| - p
  {
    match RowAt(s, p, kind)
    case Some(m) => [m.0] + FindRows(s, kind, m.1)
    case None => if p == |s| then [] else FindRows(s, kind, p + 1)
  }

  /** The change and effect of every row found already end in `%`, so the
      writers leave them as they are. */
  lemma {:induction false} FoundRowsPercent(s: string, kind: string, p: nat)
    requires p <= |s|
    ensures forall row | row in FindRows(s, kind, p) ::
      EnsurePercent(row.change) == row.change && EnsurePercent(row.effect) == row.effect
    decreases |s| - p
  {
    var r := RowAt(s, p, kind);
    if r.Some? {
      FoundRowsPercent(s, kind, r.value.1);
      assert FindRows(s, kind, p) == [r.value.0] + FindRows(s, kind, r.value.1);
    } else if p < |s| {
      FoundRowsPercent(s, kind, p + 1);
      assert FindRows(s, kind, p) == FindRows(s, kind, p + 1);
    }
  }

  // =====================================================================
  // run_prompt: the report table
  // =====================================================================

  /** A CSV file the run writes: its path and its rows. */
  datatype CsvFile = CsvFile(path: string, rows: seq<seq<string>>)

  /** The table lines of the report table. */
  function ReportRows(text: string): seq<TableRow> {
    match ReportTableText(text, 0)
    case None => []
    case Some(t) => FindRows(t, "Section", 0)
  }

  function ReportTablePath(title: string, runId: string): string {
    SaveDir + "/Report_Table_" + Replace(title, " ", "_") + "_" + runId + ".csv"
  }

  /** The report table file: written only when at least one table line
      matched. */
  function ReportTableFile(text: string, runId: string): Option<CsvFile> {
    var rows := ReportRows(text);
    if rows == [] then None
    else
      var title := ReportChangeTitle(text);
      Some(CsvFile(ReportTablePath(title, runId),
                   FormattedTable("report_change_title", title, "report_change", ReportChange(text), ReportHeader, rows)))
  }

  /** The report table exists exactly when a table line matched; it is named
      after the change title with its spaces turned into underscores, and
      holds one data row per matched line after the four leading rows. */
  lemma ReportTableShape(text: string, runId: string)
    ensures ReportTableFile(text, runId).Some? <==> ReportRows(text) != []
    ensures ReportTableFile(text, runId).Some? ==>
      var title := ReportChangeTitle(text);
      && ReportTableFile(text, runId).value.path
         == SaveDir + "/Report_Table_" + Replace(title, " ", "_") + "_" + runId + ".csv"
      && ' ' !in Replace(title, " ", "_")
      && |ReportTableFile(text, runId).value.rows| == 4 + |ReportRows(text)|
      && ReportTableFile(text, runId).value.rows[0] == ["report_change_title", title]
      && ReportTableFile(text, runId).value.rows[1] == ["report_change", ReportChange(text)]
  {
    ReplaceCharRemoves(ReportChangeTitle(text), ' ', "_");
  }

  // =====================================================================
  // run_prompt: the section tables
  // =====================================================================

  /** A line that ends the body of a `Section Tables:` block. */
  predicate IsStopLine(l: string) {
    StartsWith(l, "Section #:") || StartsWith(l, "Section Title:") || StartsWith(l, "Sub-Section #:")
    || StartsWith(l, "Report Change") || StartsWith(l, "Report Table")
  }

  /** Where the body of a block starting at `i` ends: the first stop line,
      or the end. */
  function BufferEnd(lines: seq<string>, i: nat): (j: nat)
    requires i <= |lines|
    ensures i <= j <= |lines|
    ensures j < |lines| ==> IsStopLine(Trim(lines[j]))
    decreases |lines| - i
  {
    if i == |lines| || IsStopLine(Trim(lines[i])) then i else BufferEnd(lines, i + 1)
  }

  /** `line.split(":", 1)[1].strip()` for a line starting `Section #:`. */
  function SectionNumber(line: string): string
    requires StartsWith(line, "Section #:")
  {
    Trim(line[10..])
  }

  /** The name of a section table; a section number never set shows as
      `None`. */
  function SectionTablePath(sectionNo: Option<string>, title: string, runId: string): string {
    var no := match sectionNo case Some(n) => n case None => "None";
    SaveDir + "/Section_Table_" + no + "_" + Replace(title, " ", "_") + "_" + runId + ".csv"
  }

  /** `None.replace(...)`: a table with rows found before any section
      title. */
  const NoTitleError := "'NoneType' object has no attribute 'replace'"

  /** The tables after the block whose body is `lines[i + 1..j]`: one more
      when a table line matched; an error when one did before any section
      title. */
  function AddTable(lines: seq<string>, i: nat, j: nat, sectionNo: Option<string>,
                    sectionTitle: Option<string>, tables: seq<CsvFile>, runId: string): Result<seq<CsvFile>>
    requires i < j <= |lines|
  {
    var rows := FindRows(Join(lines[i + 1..j], "\n"), "Sub-Section", 0);
    if rows == [] then Ok(tables)
    else if sectionTitle.None? then Err(NoTitleError)
    else
      Ok(tables + [CsvFile(SectionTablePath(sectionNo, sectionTitle.value, runId),
                           FormattedTable("section_no", Cell(sectionNo), "section_title", sectionTitle.value,
                                          SectionHeader, rows))])
  }

  /** Where the section-table scan stands: the current section number and
      title, and the tables so far. */
  datatype ScanState = ScanState(sectionNo: Option<string>, sectionTitle: Option<string>, tables: seq<CsvFile>)

  const StartState := ScanState(None, None, [])

  /** One step of the section-table scan at line `i`: the line to look at
      next and the new state, or the error a table raised. A `Section #:`
      line sets the number, a `Section Title:` line followed by another line
      takes that line as the title, and a `Section Tables:` line reads the
      block's body. With `skipStop` the line that ended the body is passed
      over, as the source's second `i += 1` does; without it that line is
      looked at next. */
  function ScanStep(lines: seq<string>, i: nat, st: ScanState, runId: string, skipStop: bool)
    : (r: Result<(nat, ScanState)>)
    requires i < |lines|
    ensures r.Ok? ==> i < r.value.0
  {
    var line := Trim(lines[i]);
    if StartsWith(line, "Section #:") then
      Ok((i + 1, st.(sectionNo := Some(SectionNumber(line)))))
    else if line == "Section Title:" && i + 1 < |lines| then
      Ok((i + 2, st.(sectionTitle := Some(Trim(lines[i + 1])))))
    else if line == "Section Tables:" then
      var j := BufferEnd(lines, i + 1);
      match AddTable(lines, i, j, st.sectionNo, st.sectionTitle, st.tables, runId)
      case Err(e) => Err(e)
      case Ok(tables) => Ok((if skipStop then j + 1 else j, st.(tables := tables)))
    else
      Ok((i + 1, st))
  }

  /** The section-table scan from line `i` on. */
  function ScanFrom(lines: seq<string>, i: nat, st: ScanState, runId: string, skipStop: bool)
    : Result<seq<CsvFile>>
    decreases |lines| - i
  {
    if i >= |lines| then Ok(st.tables)
    else
      match ScanStep(lines, i, st, runId, skipStop)
      case Err(e) => Err(e)
      case Ok(next) => ScanFrom(lines, next.0, next.1, runId, skipStop)
  }

  /** The section tables of the text as the source computes them: the line
      that ends a block's body is passed over. */
  function SectionTables(text: string, runId: string): Result<seq<CsvFile>> {
    ScanFrom(Lines(text), 0, StartState, runId, true)
  }

  /** The section tables of the text, the line that ends a block's body
      looked at like any other. */
  function CorrectedSectionTables(text: string, runId: string): Result<seq<CsvFile>> {
    ScanFrom(Lines(text), 0, StartState, runId, false)
  }

  /** The body of the `Section Tables:` block at line `i`: gathered up to
      the next stop line, searched for table lines, and written as a section
      table when any matched. */
  method ReadTableBlock(lines: seq<string>, i: nat, currentSectionNo: Option<string>,
                        currentSectionTitle: Option<string>, tables: seq<CsvFile>, runId: string)
    returns (j: nat, r: Result<seq<CsvFile>>)
    requires i < |lines|
    ensures j == BufferEnd(lines, i + 1)
    ensures r == AddTable(lines, i, j, currentSectionNo, currentSectionTitle, tables, runId)
  {
    var buffer: seq<string> := [];
    j := i + 1;
    while j < |lines| && !IsStopLine(Trim(lines[j]))
      invariant i < j <= |lines|
      invariant buffer == lines[i + 1..j]
      invariant BufferEnd(lines, j) == BufferEnd(lines, i + 1)
      decreases |lines| - j
    {
      buffer := buffer + [lines[j]];
      j := j + 1;
    }
    var sectionRows := FindRows(Join(buffer, "\n"), "Sub-Section", 0);
    if sectionRows == [] {
      return j, Ok(tables);
    }
    if currentSectionTitle.None? {
      return j, Err(NoTitleError);
    }
    var csv := WriteSectionTableFormatted(currentSectionNo, currentSectionTitle.value, sectionRows);
    r := Ok(tables + [CsvFile(SectionTablePath(currentSectionNo, currentSectionTitle.value, runId), csv)]);
  }

  /** The section-table scan, with the line that ends a block's body
      looked at next. */
  method ScanSectionTables(lines: seq<string>, runId: string) returns (r: Result<seq<CsvFile>>)
    ensures r == ScanFrom(lines, 0, StartState, runId, false)
  {
    var i := 0;
    var currentSectionNo: Option<string> := None;
    var currentSectionTitle: Option<string> := None;
    var tables: seq<CsvFile> := [];
    while i < |lines|
      invariant i <= |lines|
      invariant ScanFrom(lines, i, ScanState(currentSectionNo, currentSectionTitle, tables), runId, false)
                == ScanFrom(lines, 0, StartState, runId, false)
      decreases |lines| - i
    {
      var line := Trim(lines[i]);
      if StartsWith(line, "Section #:") {
        currentSectionNo := Some(Trim(line[10..]));
        i := i + 1;
      } else if line == "Section Title:" && i + 1 < |lines| {
        currentSectionTitle := Some(Trim(lines[i + 1]));
        i := i + 2;
      } else if line == "Section Tables:" {
        var added;
        i, added := ReadTableBlock(lines, i, currentSectionNo, currentSectionTitle, tables, runId);
        if added.Err? {
          return Err(added.message);
        }
        tables := added.value;
      } else {
        i := i + 1;
      }
    }
    return Ok(tables);
  }

  /** The section-table scan as the source writes it: after a block's body
      the loop's own `i += 1` moves past the line that ended the body. */
  method ScanSectionTablesAsWritten(lines: seq<string>, runId: string) returns (r: Result<seq<CsvFile>>)
    ensures r == ScanFrom(lines, 0, StartState, runId, true)
  {
    var i := 0;
    var currentSectionNo: Option<string> := None;
    var currentSectionTitle: Option<string> := None;
    var tables: seq<CsvFile> := [];
    while i < |lines|
      invariant ScanFrom(lines, i, ScanState(currentSectionNo, currentSectionTitle, tables), runId, true)
                == ScanFrom(lines, 0, StartState, runId, true)
      decreases |lines| - i
    {
      var line := Trim(lines[i]);
      if StartsWith(line, "Section #:") {
        currentSectionNo := Some(Trim(line[10..]));
        i := i + 1;
      } else if line == "Section Title:" && i + 1 < |lines| {
        currentSectionTitle := Some(Trim(lines[i + 1]));
        i := i + 2;
      } else if line == "Section Tables:" {
        TablesLineStep(lines, i, ScanState(currentSectionNo, currentSectionTitle, tables), runId, true);
        var j, added := ReadTableBlock(lines, i, currentSectionNo, currentSectionTitle, tables, runId);
        if added.Err? {
          return Err(added.message);
        }
        tables := added.value;
        // the loop's own `i += 1`, taken after the line that ended the body
        i := j + 1;
      } else {
        i := i + 1;
      }
    }
    return Ok(tables);
  }

  /** The step at a `Section Tables:` line reads the block's body and goes
      on after it, or after the line that ended it when `skipStop` is set. */
  lemma TablesLineStep(lines: seq<string>, i: nat, st: ScanState, runId: string, skipStop: bool)
    requires i < |lines| && Trim(lines[i]) == "Section Tables:"
    ensures var j := BufferEnd(lines, i + 1);
      ScanStep(lines, i, st, runId, skipStop)
      == match AddTable(lines, i, j, st.sectionNo, st.sectionTitle, st.tables, runId)
         case Err(e) => Err(e)
         case Ok(tables) => Ok((if skipStop then j + 1 else j, st.(tables := tables)))
  {
    assert !StartsWith(Trim(lines[i]), "Section #:") by {
      assert Trim(lines[i])[8] != "Section #:"[8];
    }
  }

  /** The step at a `Section #:` line sets the section number. */
  lemma NumberLineStep(lines: seq<string>, j: nat, st: ScanState, runId: string, skipStop: bool)
    requires j < |lines| && StartsWith(Trim(lines[j]), "Section #:")
    ensures ScanStep(lines, j, st, runId, skipStop)
            == Ok((j + 1, st.(sectionNo := Some(SectionNumber(Trim(lines[j]))))))
  {
  }

  /** As written, the scan goes on after the line that ended a table
      block's body, so that line is never looked at: a `Section #:` line
      right after a block leaves the section number as it was. */
  lemma AsWrittenSkipsStopLine(lines: seq<string>, i: nat, st: ScanState, runId: string)
    requires i < |lines| && Trim(lines[i]) == "Section Tables:"
    requires AddTable(lines, i, BufferEnd(lines, i + 1), st.sectionNo, st.sectionTitle, st.tables, runId).Ok?
    ensures var j := BufferEnd(lines, i + 1);
      var st' := st.(tables := AddTable(lines, i, j, st.sectionNo, st.sectionTitle, st.tables, runId).value);
      ScanStep(lines, i, st, runId, true) == Ok((j + 1, st'))
  {
    TablesLineStep(lines, i, st, runId, true);
  }

  /** Corrected, the line that ended a table block's body is looked at
      next, so a `Section #:` line right after a block sets the section
      number. */
  lemma CorrectedReadsSectionLine(lines: seq<string>, i: nat, st: ScanState, runId: string,
                                  j: nat, tables: seq<CsvFile>)
    requires i < |lines| && Trim(lines[i]) == "Section Tables:"
    requires j == BufferEnd(lines, i + 1) && j < |lines|
    requires StartsWith(Trim(lines[j]), "Section #:")
    requires AddTable(lines, i, j, st.sectionNo, st.sectionTitle, st.tables, runId) == Ok(tables)
    ensures ScanStep(lines, i, st, runId, false) == Ok((j, st.(tables := tables)))
    ensures ScanStep(lines, j, st.(tables := tables), runId, false)
            == Ok((j + 1, st.(tables := tables, sectionNo := Some(SectionNumber(Trim(lines[j]))))))
  {
    TablesLineStep(lines, i, st, runId, false);
    NumberLineStep(lines, j, st.(tables := tables), runId, false);
  }

  /** A concrete case: with section 1 current, a `Section Tables:` line
      followed by `Section #: 2` leaves the as-written scan at section 1 on
      the line after, while the corrected scan is at section 2 there. */
  lemma StaleSectionNumber(rest: seq<string>, runId: string)
    ensures var lines := ["Section Tables:", "Section #: 2"] + rest;
      var st := ScanState(Some("1"), None, []);
      && ScanStep(lines, 0, st, runId, true) == Ok((2, st))
      && ScanStep(lines, 0, st, runId, false) == Ok((1, st))
      && ScanStep(lines, 1, st, runId, false) == Ok((2, ScanState(Some("2"), None, [])))
  {
    var lines := ["Section Tables:", "Section #: 2"] + rest;
    var st := ScanState(Some("1"), None, []);
    assert Trim(lines[0]) == "Section Tables:" by {
      TrimOfTrimmed("Section Tables:");
    }
    assert Trim(lines[1]) == "Section #: 2" by {
      TrimOfTrimmed("Section #: 2");
    }
    assert BufferEnd(lines, 1) == 1 by {
      assert StartsWith(Trim(lines[1]), "Section #:");
    }
    assert AddTable(lines, 0, 1, st.sectionNo, st.sectionTitle, st.tables, runId) == Ok([]) by {
      assert lines[1..1] == [];
      assert FindRows("", "Sub-Section", 0) == [];
    }
    assert SectionNumber("Section #: 2") == "2" by {
      assert "Section #: 2"[10..] == " 2";
      TrimSpaced(" ", "2", "");
      assert " " + "2" + "" == " 2";
    }
    TablesLineStep(lines, 0, st, runId, true);
    TablesLineStep(lines, 0, st, runId, false);
    NumberLineStep(lines, 1, st, runId, false);
  }

  /** A body that runs to the end of the lines ends there. */
  lemma {:induction false} BufferEndFree(lines: seq<string>, i: nat)
    requires i <= |lines|
    requires forall m :: i <= m < |lines| ==> !IsStopLine(Trim(lines[m]))
    ensures BufferEnd(lines, i) == |lines|
    decreases |lines| - i
  {
    if i < |lines| {
      BufferEndFree(lines, i + 1);
    }
  }

  /** A concrete report: section 1 (titled `A`, current when the lines
      start) ends with an empty `Section Tables:` block, directly followed
      by section 2, titled `B`, whose `Section Tables:` block has `body`. */
  function StaleLines(body: seq<string>): seq<string> {
    ["Section Tables:", "Section #: 2", "Section Title:", "B", "Section Tables:"] + body
  }

  const StaleStart := ScanState(Some("1"), Some("A"), [])

  /** The table section 2's block gives when labelled with number `no`. */
  function StaleTable(body: seq<string>, no: string, runId: string): CsvFile {
    CsvFile(SectionTablePath(Some(no), "B", runId),
            FormattedTable("section_no", no, "section_title", "B", SectionHeader,
                           FindRows(Join(body, "\n"), "Sub-Section", 0)))
  }

  /** How the lines of the concrete report read. */
  lemma StaleLinesRead(body: seq<string>, runId: string)
    requires forall m :: 0 <= m < |body| ==> !IsStopLine(Trim(body[m]))
    ensures var lines := StaleLines(body);
      && Trim(lines[0]) == "Section Tables:" && Trim(lines[4]) == "Section Tables:"
      && Trim(lines[1]) == "Section #: 2" && Trim(lines[2]) == "Section Title:" && Trim(lines[3]) == "B"
      && !StartsWith(Trim(lines[2]), "Section #:")
      && BufferEnd(lines, 1) == 1 && BufferEnd(lines, 5) == |lines| && lines[5..|lines|] == body
      && SectionNumber(Trim(lines[1])) == "2"
      && AddTable(lines, 0, 1, StaleStart.sectionNo, StaleStart.sectionTitle, [], runId) == Ok([])
  {
    var lines := StaleLines(body);
    TrimOfTrimmed("Section Tables:");
    TrimOfTrimmed("Section #: 2");
    TrimOfTrimmed("Section Title:");
    TrimOfTrimmed("B");
    assert Trim(lines[2])[8] != "Section #:"[8];
    assert StartsWith(Trim(lines[1]), "Section #:");
    assert lines[5..] == body;
    BufferEndFree(lines, 5);
    assert lines[1..1] == [];
    assert FindRows("", "Sub-Section", 0) == [];
    assert "Section #: 2"[10..] == " 2";
    TrimSpaced(" ", "2", "");
    assert " " + "2" + "" == " 2";
  }

  /** As written, section 2's table is labelled with section 1. */
  lemma StaleAsWritten(body: seq<string>, runId: string)
    requires forall m :: 0 <= m < |body| ==> !IsStopLine(Trim(body[m]))
    requires FindRows(Join(body, "\n"), "Sub-Section", 0) != []
    ensures ScanFrom(StaleLines(body), 0, StaleStart, runId, true) == Ok([StaleTable(body, "1", runId)])
  {
    var lines := StaleLines(body);
    var st := StaleStart;
    var stB := st.(sectionTitle := Some("B"));
    StaleLinesRead(body, runId);
    TablesLineStep(lines, 0, st, runId, true);
    assert ScanStep(lines, 2, st, runId, true) == Ok((4, stB));
    TablesLineStep(lines, 4, stB, runId, true);
    assert ScanFrom(lines, 0, st, runId, true) == ScanFrom(lines, 2, st, runId, true);
    assert ScanFrom(lines, 2, st, runId, true) == ScanFrom(lines, 4, stB, runId, true);
    assert lines[4 + 1..|lines|] == body;
    assert FindRows(Join(lines[4 + 1..|lines|], "\n"), "Sub-Section", 0) == FindRows(Join(body, "\n"), "Sub-Section", 0);
    assert Cell(Some("1")) == "1";
    assert [] + [StaleTable(body, "1", runId)] == [StaleTable(body, "1", runId)];
    assert AddTable(lines, 4, |lines|, Some("1"), Some("B"), [], runId) == Ok([StaleTable(body, "1", runId)]);
    assert ScanFrom(lines, 4, stB, runId, true)
           == ScanFrom(lines, |lines| + 1, stB.(tables := [StaleTable(body, "1", runId)]), runId, true);
  }

  /** Corrected, section 2's table is labelled with section 2. */
  lemma StaleCorrected(body: seq<string>, runId: string)
    requires forall m :: 0 <= m < |body| ==> !IsStopLine(Trim(body[m]))
    requires FindRows(Join(body, "\n"), "Sub-Section", 0) != []
    ensures ScanFrom(StaleLines(body), 0, StaleStart, runId, false) == Ok([StaleTable(body, "2", runId)])
  {
    var lines := StaleLines(body);
    var st := StaleStart;
    var st1 := st.(sectionNo := Some("2"));
    var st2 := ScanState(Some("2"), Some("B"), []);
    StaleLinesRead(body, runId);
    TablesLineStep(lines, 0, st, runId, false);
    NumberLineStep(lines, 1, st, runId, false);
    assert ScanStep(lines, 2, st1, runId, false) == Ok((4, st2));
    TablesLineStep(lines, 4, st2, runId, false);
    assert ScanFrom(lines, 0, st, runId, false) == ScanFrom(lines, 1, st, runId, false);
    assert ScanFrom(lines, 1, st, runId, false) == ScanFrom(lines, 2, st1, runId, false);
    assert ScanFrom(lines, 2, st1, runId, false) == ScanFrom(lines, 4, st2, runId, false);
    assert lines[4 + 1..|lines|] == body;
    assert FindRows(Join(lines[4 + 1..|lines|], "\n"), "Sub-Section", 0) == FindRows(Join(body, "\n"), "Sub-Section", 0);
    assert Cell(Some("2")) == "2";
    assert [] + [StaleTable(body, "2", runId)] == [StaleTable(body, "2", runId)];
    assert AddTable(lines, 4, |lines|, Some("2"), Some("B"), [], runId) == Ok([StaleTable(body, "2", runId)]);
    assert ScanFrom(lines, 4, st2, runId, false)
           == ScanFrom(lines, |lines|, st2.(tables := [StaleTable(body, "2", runId)]), runId, false);
  }

  /** On the concrete report the two scans write section 2's table under
      different names: `Section_Table_1_B_…` as written,
      `Section_Table_2_B_…` corrected. */
  lemma StaleSectionFileName(body: seq<string>, runId: string)
    requires forall m :: 0 <= m < |body| ==> !IsStopLine(Trim(body[m]))
    requires FindRows(Join(body, "\n"), "Sub-Section", 0) != []
    ensures ScanFrom(StaleLines(body), 0, StaleStart, runId, true) == Ok([StaleTable(body, "1", runId)])
    ensures ScanFrom(StaleLines(body), 0, StaleStart, runId, false) == Ok([StaleTable(body, "2", runId)])
    ensures StaleTable(body, "1", runId).path != StaleTable(body, "2", runId).path
  {
    StaleAsWritten(body, runId);
    StaleCorrected(body, runId);
    var n := |SaveDir + "/Section_Table_"|;
    assert StaleTable(body, "1", runId).path[n] == '1';
    assert StaleTable(body, "2", runId).path[n] == '2';
  }

  // ---------------------------------------------------------------------
  // Which section a table belongs to
  // ---------------------------------------------------------------------

  /** The number of the last `Section #:` line before line `i`, if any. */
  function LatestNumber(lines: seq<string>, i: nat): Option<string>
    requires i <= |lines|
  {
    if i == 0 then None
    else if StartsWith(Trim(lines[i - 1]), "Section #:") then Some(SectionNumber(Trim(lines[i - 1])))
    else LatestNumber(lines, i - 1)
  }

  /** The title given by the last `Section Title:` line whose following
      line also lies before line `i`: that following line, stripped. */
  function LatestTitle(lines: seq<string>, i: nat): Option<string>
    requires i <= |lines|
  {
    if i < 2 then None
    else if Trim(lines[i - 2]) == "Section Title:" then Some(Trim(lines[i - 1]))
    else LatestTitle(lines, i - 1)
  }

  /** The table rows of the `Section Tables:` block at line `p`. */
  function BlockRows(lines: seq<string>, p: nat): seq<TableRow>
    requires p < |lines|
  {
    FindRows(Join(lines[p + 1..BufferEnd(lines, p + 1)], "\n"), "Sub-Section", 0)
  }

  /** `t` is the table of the `Section Tables:` block at line `p`, named and
      labelled with the latest section number and title before that line. */
  predicate TableOfBlock(lines: seq<string>, p: nat, runId: string, t: CsvFile) {
    && p < |lines| && Trim(lines[p]) == "Section Tables:"
    && LatestTitle(lines, p).Some? && BlockRows(lines, p) != []
    && t == CsvFile(SectionTablePath(LatestNumber(lines, p), LatestTitle(lines, p).value, runId),
                    FormattedTable("section_no", Cell(LatestNumber(lines, p)),
                                   "section_title", LatestTitle(lines, p).value,
                                   SectionHeader, BlockRows(lines, p)))
  }

  /** `t` is the table of some `Section Tables:` block at or after line
      `from`. */
  ghost predicate TableOfBlockFrom(lines: seq<string>, from: nat, runId: string, t: CsvFile) {
    exists p :: from <= p && TableOfBlock(lines, p, runId, t)
  }

  /** The `Section Tables:` block at line `p` has rows but no section title
      comes before it. */
  predicate UntitledBlock(lines: seq<string>, p: nat) {
    p < |lines| && Trim(lines[p]) == "Section Tables:"
    && LatestTitle(lines, p).None? && BlockRows(lines, p) != []
  }

  /** No line that follows a `Section Title:` line is itself a `Section #:`
      or a `Section Title:` line: every title is ordinary text. */
  predicate TitlesPlain(lines: seq<string>) {
    forall k :: 0 <= k < |lines| - 1 && Trim(lines[k]) == "Section Title:" ==>
      !StartsWith(Trim(lines[k + 1]), "Section #:") && Trim(lines[k + 1]) != "Section Title:"
  }

  /** Lines that are not `Section #:` lines leave the latest number as it
      was. */
  lemma {:induction false} LatestNumberSkip(lines: seq<string>, i: nat, j: nat)
    requires i <= j <= |lines|
    requires forall m :: i <= m < j ==> !StartsWith(Trim(lines[m]), "Section #:")
    ensures LatestNumber(lines, j) == LatestNumber(lines, i)
    decreases j - i
  {
    if i < j {
      LatestNumberSkip(lines, i, j - 1);
    }
  }

  /** Lines that are not `Section Title:` lines leave the latest title as
      it was. */
  lemma {:induction false} LatestTitleSkip(lines: seq<string>, i: nat, j: nat)
    requires i <= j <= |lines|
    requires forall m :: 0 <= m && i - 1 <= m < j - 1 ==> Trim(lines[m]) != "Section Title:"
    ensures LatestTitle(lines, j) == LatestTitle(lines, i)
    decreases j - i
  {
    if i < j {
      LatestTitleSkip(lines, i, j - 1);
    }
  }

  /** The body of a block holds no stop line. */
  lemma {:induction false} BodyFree(lines: seq<string>, i: nat, m: nat)
    requires i <= |lines| && i <= m < BufferEnd(lines, i)
    ensures !IsStopLine(Trim(lines[m]))
    decreases m - i
  {
    if i < m {
      BodyFree(lines, i + 1, m);
    }
  }

  /** Where the corrected scan looks at line `i`, its number and title are
      the latest ones before `i`. */
  predicate ScanAgrees(lines: seq<string>, i: nat, st: ScanState)
    requires i <= |lines|
  {
    && st.sectionNo == LatestNumber(lines, i)
    && st.sectionTitle == LatestTitle(lines, i)
    && (0 < i < |lines| ==> Trim(lines[i - 1]) != "Section Title:")
  }

  /** One step of the corrected scan keeps the scan in agreement with the
      latest number and title. */
  lemma CorrectedStepAgrees(lines: seq<string>, i: nat, st: ScanState, runId: string)
    requires i < |lines| && TitlesPlain(lines) && ScanAgrees(lines, i, st)
    requires ScanStep(lines, i, st, runId, false).Ok?
    ensures var next := ScanStep(lines, i, st, runId, false).value;
      next.0 <= |lines| && ScanAgrees(lines, next.0, next.1)
  {
    var line := Trim(lines[i]);
    if StartsWith(line, "Section #:") {
      NumberLineAgrees(lines, i, st, runId);
    } else if line == "Section Title:" && i + 1 < |lines| {
      TitleLineAgrees(lines, i, st, runId);
    } else if line == "Section Tables:" {
      TablesLineStep(lines, i, st, runId, false);
      var j := BufferEnd(lines, i + 1);
      TablesLineAgrees(lines, i, st,
                       AddTable(lines, i, j, st.sectionNo, st.sectionTitle, st.tables, runId).value);
    } else {
      OtherLineAgrees(lines, i, st, runId);
    }
  }

  lemma NumberLineAgrees(lines: seq<string>, i: nat, st: ScanState, runId: string)
    requires i < |lines| && ScanAgrees(lines, i, st)
    requires StartsWith(Trim(lines[i]), "Section #:")
    ensures ScanAgrees(lines, i + 1, st.(sectionNo := Some(SectionNumber(Trim(lines[i])))))
  {
    var line := Trim(lines[i]);
    assert line != "Section Title:" by { assert line[8] != "Section Title:"[8]; }
    LatestTitleSkip(lines, i, i + 1);
  }

  lemma TitleLineAgrees(lines: seq<string>, i: nat, st: ScanState, runId: string)
    requires i + 1 < |lines| && TitlesPlain(lines) && ScanAgrees(lines, i, st)
    requires Trim(lines[i]) == "Section Title:"
    ensures ScanAgrees(lines, i + 2, st.(sectionTitle := Some(Trim(lines[i + 1]))))
  {
    assert !StartsWith(Trim(lines[i]), "Section #:") by { assert Trim(lines[i])[8] != "Section #:"[8]; }
    LatestNumberSkip(lines, i, i + 2);
  }

  lemma TablesLineAgrees(lines: seq<string>, i: nat, st: ScanState, tables: seq<CsvFile>)
    requires i < |lines| && ScanAgrees(lines, i, st)
    requires Trim(lines[i]) == "Section Tables:"
    ensures ScanAgrees(lines, BufferEnd(lines, i + 1), st.(tables := tables))
  {
    var line := Trim(lines[i]);
    var j := BufferEnd(lines, i + 1);
    forall m | i + 1 <= m < j ensures !StartsWith(Trim(lines[m]), "Section #:")
      && Trim(lines[m]) != "Section Title:" {
      BodyFree(lines, i + 1, m);
      StopLineTitle(Trim(lines[m]));
    }
    assert !StartsWith(line, "Section #:") by { assert line[8] != "Section #:"[8]; }
    LatestNumberSkip(lines, i, j);
    LatestTitleSkip(lines, i, j);
  }

  lemma StopLineTitle(l: string)
    requires !IsStopLine(l)
    ensures l != "Section Title:"
  {
    if l == "Section Title:" {
      assert StartsWith(l, "Section Title:");
    }
  }

  lemma OtherLineAgrees(lines: seq<string>, i: nat, st: ScanState, runId: string)
    requires i < |lines| && ScanAgrees(lines, i, st)
    requires !StartsWith(Trim(lines[i]), "Section #:")
    requires Trim(lines[i]) == "Section Title:" ==> i + 1 == |lines|
    ensures ScanAgrees(lines, i + 1, st)
  {
    LatestTitleSkip(lines, i, i + 1);
  }

  /** From a line where it agrees with the latest number and title, the
      corrected scan keeps the tables it has and adds only tables of blocks
      it meets, each named and labelled with the latest section number and
      title before its `Section Tables:` line; it fails only on a block with
      rows and no title before it. */
  lemma {:induction false} CorrectedScanFrom(lines: seq<string>, i: nat, st: ScanState, runId: string)
    requires i <= |lines| && TitlesPlain(lines) && ScanAgrees(lines, i, st)
    ensures var r := ScanFrom(lines, i, st, runId, false);
      && (r.Ok? ==>
            && |st.tables| <= |r.value| && r.value[..|st.tables|] == st.tables
            && forall k :: |st.tables| <= k < |r.value| ==> TableOfBlockFrom(lines, i, runId, r.value[k]))
      && (r.Err? ==> exists p :: i <= p && UntitledBlock(lines, p))
    decreases |lines| - i
  {
    if i < |lines| {
      var line := Trim(lines[i]);
      match ScanStep(lines, i, st, runId, false)
      case Err(e) => {
        TablesErrStep(lines, i, st, runId);
        assert UntitledBlock(lines, i);
      }
      case Ok(next) => {
        CorrectedStepAgrees(lines, i, st, runId);
        CorrectedScanFrom(lines, next.0, next.1, runId);
        StepTables(lines, i, st, runId);
        var r := ScanFrom(lines, i, st, runId, false);
        assert r == ScanFrom(lines, next.0, next.1, runId, false);
        if r.Ok? {
          var n := |next.1.tables|;
          assert |st.tables| <= n;
          assert r.value[..n] == next.1.tables;
          assert next.1.tables[..|st.tables|] == st.tables;
          assert r.value[..|st.tables|] == r.value[..n][..|st.tables|];
          forall k | |st.tables| <= k < |r.value|
            ensures TableOfBlockFrom(lines, i, runId, r.value[k])
          {
            if k < n {
              assert r.value[k] == next.1.tables[k];
              var c :| next.1.tables == st.tables + [c] && TableOfBlock(lines, i, runId, c);
              assert r.value[k] == c;
            } else {
              assert TableOfBlockFrom(lines, next.0, runId, r.value[k]);
              var p :| next.0 <= p && TableOfBlock(lines, p, runId, r.value[k]);
              assert i <= p;
            }
          }
        }
      }
    }
  }

  /** A step of the corrected scan that fails is at a block with rows and
      no title before it. */
  lemma TablesErrStep(lines: seq<string>, i: nat, st: ScanState, runId: string)
    requires i < |lines| && ScanAgrees(lines, i, st)
    requires ScanStep(lines, i, st, runId, false).Err?
    ensures UntitledBlock(lines, i)
  {
    var line := Trim(lines[i]);
    assert line == "Section Tables:";
    TablesLineStep(lines, i, st, runId, false);
  }

  /** A step of the corrected scan keeps the tables so far and adds at most
      the table of the block at that line. */
  lemma StepTables(lines: seq<string>, i: nat, st: ScanState, runId: string)
    requires i < |lines| && ScanAgrees(lines, i, st)
    requires ScanStep(lines, i, st, runId, false).Ok?
    ensures var t := ScanStep(lines, i, st, runId, false).value.1.tables;
      || t == st.tables
      || (exists c :: t == st.tables + [c] && TableOfBlock(lines, i, runId, c))
  {
    var line := Trim(lines[i]);
    if line == "Section Tables:" {
      TablesLineStep(lines, i, st, runId, false);
      var j := BufferEnd(lines, i + 1);
      var added := AddTable(lines, i, j, st.sectionNo, st.sectionTitle, st.tables, runId);
      if BlockRows(lines, i) != [] {
        var c := added.value[|st.tables|];
        assert added.value == st.tables + [c];
        assert TableOfBlock(lines, i, runId, c);
      }
    }
  }

  /** The corrected scan over a text whose titles are ordinary lines: every
      table it writes is the table of one `Section Tables:` block, carrying
      the number of the last `Section #:` line and the title after the last
      `Section Title:` line before that block; it fails only when a block
      with rows comes before any section title. */
  lemma CorrectedTablesCarryLatest(lines: seq<string>, runId: string)
    requires TitlesPlain(lines)
    ensures var r := ScanFrom(lines, 0, StartState, runId, false);
      && (r.Ok? ==> forall t :: t in r.value ==> TableOfBlockFrom(lines, 0, runId, t))
      && (r.Err? ==> exists p :: UntitledBlock(lines, p))
  {
    CorrectedScanFrom(lines, 0, StartState, runId);
    var r := ScanFrom(lines, 0, StartState, runId, false);
    if r.Ok? {
      forall t | t in r.value ensures TableOfBlockFrom(lines, 0, runId, t) {
        var k :| 0 <= k < |r.value| && r.value[k] == t;
      }
    }
  }

  // =====================================================================
  // run_prompt
  // =====================================================================

  datatype TablesResult = TablesResult(runId: string, reportTable: Option<CsvFile>, sectionTables: seq<CsvFile>)

  /** `run_prompt` of the table CSVs, the files returned rather than
      written; `runId` is the request's `run_id` or a fresh one and
      `formatCombine` the formatted report ("" when missing). A table with
      rows before any section title raises, as the source does. */
  method RunTableCsv(formatCombine: string, runId: string) returns (r: Result<TablesResult>)
    ensures r.Err? <==> SectionTables(formatCombine, runId).Err?
    ensures r.Ok? ==>
      r.value == TablesResult(runId, ReportTableFile(formatCombine, runId), SectionTables(formatCombine, runId).value)
  {
    var reportChangeTitle := ReportChangeTitle(formatCombine);
    var reportChange := ReportChange(formatCombine);
    var reportTable: Option<CsvFile> := None;
    var tableText := ReportTableText(formatCombine, 0);
    if tableText.Some? {
      var reportRows := FindRows(tableText.value, "Section", 0);
      if reportRows != [] {
        var csv := WriteReportTableFormatted(reportChangeTitle, reportChange, reportRows);
        reportTable := Some(CsvFile(ReportTablePath(reportChangeTitle, runId), csv));
      }
    }
    var sectionTables := ScanSectionTablesAsWritten(Lines(formatCombine), runId);
    if sectionTables.Err? {
      return Err(sectionTables.message);
    }
    r := Ok(TablesResult(runId, reportTable, sectionTables.value));
  }
}
