/** The report formatter (Scripts/Predictive_Report/format_combine.py): case
    helpers, a line-oriented pass that lays out the combined report, and the
    spacing of the table headers. */
module FormatCombine {
  import opened Wrappers
  import opened Strings
  import opened British

  // =====================================================================
  // to_title_case
  // =====================================================================

  /** Words kept in lower case unless they come first. */
  const SmallWords: set<string> := {
    "a", "an", "and", "as", "at", "but", "by", "for", "in", "nor", "of", "on",
    "or", "so", "the", "to", "up", "yet"}

  const Acronyms: set<string> := {"UK", "EU", "US", "UN"}

  /** A hyphen-free piece of a word: an acronym in capitals, anything else
      capitalised. */
  function FormatPart(part: string): (r: string)
    ensures ToLower(r) == ToLower(part)
  {
    LowerOfUpper(part);
    if ToUpper(part) in Acronyms then ToUpper(part) else Capitalize(part)
  }

  function FormatParts(parts: seq<string>): (r: seq<string>)
    ensures |r| == |parts|
    ensures forall k :: 0 <= k < |r| ==> r[k] == FormatPart(parts[k])
  {
    seq(|parts|, k requires 0 <= k < |parts| => FormatPart(parts[k]))
  }

  /** `format_word`. A word with hyphens is split at them and each part is
      formatted on its own; the parts hold no hyphen, so the source's
      recursive call on a part always takes the hyphen-free branch. */
  function FormatWord(word: string): string {
    if '-' in word then Join(FormatParts(Split(word, "-")), "-") else FormatPart(word)
  }

  /** Formatting a word changes only the case of its letters. */
  lemma FormatWordLower(word: string)
    ensures ToLower(FormatWord(word)) == ToLower(word)
  {
    if '-' in word {
      var parts := Split(word, "-");
      assert ToLower("-") == "-";
      JoinLowerEq(FormatParts(parts), parts, "-");
      JoinSplit(word, "-");
    }
  }

  /** A hyphenated word is formatted part by part: splitting the result at
      its hyphens gives the formatted parts of the original. */
  lemma FormatWordByParts(word: string)
    requires '-' in word
    ensures Split(FormatWord(word), "-") == FormatParts(Split(word, "-"))
  {
    var parts := Split(word, "-");
    var formatted := FormatParts(parts);
    SplitCharFree(word, '-');
    forall k | 0 <= k < |formatted| ensures '-' !in formatted[k] {
      NonLetterInLower(formatted[k], '-');
      NonLetterInLower(parts[k], '-');
    }
    SplitJoinChar(formatted, '-');
  }

  /** The i-th word of a title: the first word and every word that is not a
      small word are formatted, a small word elsewhere is lower-cased. */
  function TitleWord(word: string, i: nat): string {
    if i == 0 || ToLower(word) !in SmallWords then FormatWord(word) else ToLower(word)
  }

  function TitleWords(words: seq<string>): (r: seq<string>)
    ensures |r| == |words|
    ensures forall i :: 0 <= i < |r| ==> r[i] == TitleWord(words[i], i)
  {
    seq(|words|, i requires 0 <= i < |words| => TitleWord(words[i], i))
  }

  /** `to_title_case` */
  function TitleCase(text: string): string {
    Join(TitleWords(Words(Trim(text))), " ")
  }

  /** Title case keeps the words, in order, with single spaces between them:
      the words of the result are the title-cased words of the input, and
      each differs from its original only in the case of its letters. */
  lemma TitleCaseWords(text: string)
    ensures var words := Words(Trim(text));
      && Words(TitleCase(text)) == TitleWords(words)
      && |Words(TitleCase(text))| == |words|
      && forall i :: 0 <= i < |words| ==> ToLower(Words(TitleCase(text))[i]) == ToLower(words[i])
  {
    var words := Words(Trim(text));
    var titled := TitleWords(words);
    forall i | 0 <= i < |words| ensures ToLower(titled[i]) == ToLower(words[i]) && IsWord(titled[i]) {
      FormatWordLower(words[i]);
      LowerOfLower(words[i]);
      SameLowerIsWord(titled[i], words[i]);
    }
    WordsOfJoin(titled);
  }

  lemma LowerOfLower(s: string)
    ensures ToLower(ToLower(s)) == ToLower(s)
  {
  }

  // =====================================================================
  // to_sentence_case, to_paragraph_case
  // =====================================================================

  /** `to_sentence_case`: the trimmed text with its first character in upper
      case; blank text gives "". */
  function SentenceCase(text: string): (r: string)
    ensures var t := Trim(text);
      && |r| == |t|
      && (t != [] ==> r[0] == UpperChar(t[0]) && r[1..] == t[1..])
  {
    var t := Trim(text);
    if t == "" then "" else [UpperChar(t[0])] + t[1..]
  }

  /** The sentence-cased non-blank lines, in order. */
  function ParagraphLines(lines: seq<string>): (r: seq<string>)
    ensures |r| <= |lines|
    ensures forall k :: 0 <= k < |r| ==> r[k] != "" && !IsLowerChar(r[k][0])
  {
    if lines == [] then []
    else
      var p := Trim(lines[0]);
      (if p != "" then [SentenceCase(p)] else []) + ParagraphLines(lines[1..])
  }

  /** `to_paragraph_case` */
  function ParagraphCase(text: string): string {
    Join(ParagraphLines(Split(text, "\n")), "\n")
  }

  lemma {:induction false} ParagraphLinesFree(lines: seq<string>)
    requires forall k :: 0 <= k < |lines| ==> '\n' !in lines[k]
    ensures forall k :: 0 <= k < |ParagraphLines(lines)| ==> '\n' !in ParagraphLines(lines)[k]
    decreases |lines|
  {
    if lines != [] {
      ParagraphLinesFree(lines[1..]);
      var p := Trim(lines[0]);
      TrimKeepsFree(lines[0], '\n');
      if p != "" {
        TrimOfTrimmed(p);
        var s := SentenceCase(p);
        assert s == [UpperChar(p[0])] + p[1..];
        assert p[0] != '\n';
      }
    }
  }

  /** Paragraph case has no blank lines: its lines are exactly the
      sentence-cased non-blank lines of the input, in order. */
  lemma ParagraphCaseLines(text: string)
    ensures ParagraphLines(Split(text, "\n")) == [] ==> ParagraphCase(text) == ""
    ensures ParagraphLines(Split(text, "\n")) != [] ==>
      Split(ParagraphCase(text), "\n") == ParagraphLines(Split(text, "\n"))
  {
    SplitCharFree(text, '\n');
    ParagraphLinesFree(Split(text, "\n"));
    if ParagraphLines(Split(text, "\n")) != [] {
      SplitJoinChar(ParagraphLines(Split(text, "\n")), '\n');
    }
  }

  // =====================================================================
  // format_bullet_points
  // =====================================================================

  /** The item of a bullet line: trimmed, leading dashes removed, trimmed
      again. */
  function BulletItem(line: string): string {
    Trim(StripStartChar(Trim(line), '-'))
  }

  /** The bullet line of a non-blank line. */
  function Bullet(line: string): (r: string)
    ensures StartsWith(r, "- ")
  {
    var r := "- " + BulletItem(line);
    assert r[..2] == "- ";
    r
  }

  /** One `- item` line per non-blank line. */
  function BulletLines(lines: seq<string>): (r: seq<string>)
    ensures |r| <= |lines|
  {
    if lines == [] then []
    else if Trim(lines[0]) == "" then BulletLines(lines[1..])
    else [Bullet(lines[0])] + BulletLines(lines[1..])
  }

  /** `format_bullet_points` */
  function BulletPoints(text: string): string {
    Join(BulletLines(Lines(text)), "\n")
  }

  /** A bullet line gives back its own item. */
  lemma BulletItemOfBullet(item: string)
    requires IsTrimmed(item)
    ensures BulletItem("- " + item) == item
    ensures Trim("- " + item) != ""
  {
    var b := "- " + item;
    if item == [] {
      assert b == "- ";
      assert TrimStart(b) == b;
      assert TrimEnd(b) == TrimEnd("-");
      assert Trim(b) == "-";
      assert StripStartChar("-", '-') == StripStartChar("", '-');
    } else {
      assert b[|b| - 1] == item[|item| - 1];
      TrimOfTrimmed(b);
      assert b[1..] == " " + item;
      assert StripStartChar(b, '-') == " " + item;
      TrimStartSpaces(" ", item);
      assert Trim(" " + item) == TrimEnd(item);
    }
  }

  lemma {:induction false} BulletLinesFixed(lines: seq<string>)
    ensures BulletLines(BulletLines(lines)) == BulletLines(lines)
    decreases |lines|
  {
    if lines != [] {
      BulletLinesFixed(lines[1..]);
      if Trim(lines[0]) != "" {
        var item := BulletItem(lines[0]);
        BulletItemOfBullet(item);
        var once := BulletLines(lines);
        assert once == ["- " + item] + BulletLines(lines[1..]);
        assert once[1..] == BulletLines(lines[1..]);
        assert Bullet(once[0]) == once[0];
      }
    }
  }

  lemma {:induction false} BulletLinesFree(lines: seq<string>)
    requires forall k :: 0 <= k < |lines| ==> '\n' !in lines[k]
    ensures forall k :: 0 <= k < |BulletLines(lines)| ==>
      BulletLines(lines)[k] != "" && '\n' !in BulletLines(lines)[k]
    decreases |lines|
  {
    if lines != [] {
      BulletLinesFree(lines[1..]);
      var rest := BulletLines(lines[1..]);
      if Trim(lines[0]) != "" {
        BulletFree(lines[0]);
        var r := BulletLines(lines);
        assert r == [Bullet(lines[0])] + rest;
        forall k | 0 <= k < |r| ensures r[k] != "" && '\n' !in r[k] {
          if k > 0 {
            assert r[k] == rest[k - 1];
          }
        }
      } else {
        assert BulletLines(lines) == rest;
      }
    }
  }

  /** The bullet line of a line without a line break has none either. */
  lemma BulletFree(line: string)
    requires '\n' !in line
    ensures Bullet(line) != "" && '\n' !in Bullet(line)
  {
    TrimKeepsFree(line, '\n');
    var stripped := StripStartChar(Trim(line), '-');
    assert '\n' !in stripped;
    TrimKeepsFree(stripped, '\n');
  }

  /** Formatting bullet points twice is formatting them once. */
  lemma BulletPointsIdempotent(text: string)
    ensures BulletPoints(BulletPoints(text)) == BulletPoints(text)
  {
    var bullets := BulletLines(Lines(text));
    BulletLinesFree(Lines(text));
    LinesOfJoin(bullets);
    BulletLinesFixed(Lines(text));
  }

  // =====================================================================
  // asset_formatters
  // =====================================================================

  datatype Formatter = TitleFormat | ParagraphFormat | BulletFormat | SentenceFormat | Verbatim

  const TitleKeys: set<string> := {
    "Client", "Main Question", "Report", "Report Title", "Report Sub-Title",
    "Report Change Title", "Report Table", "Section Title", "Section Header",
    "Section Sub-Header", "Section Theme", "Section Tables", "Section Related Article Title",
    "Section Related Article Date", "Section Related Article Source", "Sub-Section Title",
    "Sub-Section Header", "Sub-Section Sub-Header", "Sub-Section Related Article Title",
    "Sub-Section Related Article Date", "Sub-Section Related Article Source"}

  const ParagraphKeys: set<string> := {
    "About Client", "Executive Summary", "Section Summary", "Section Related Article Summary",
    "Section Related Article Relevance", "Sub-Section Summary",
    "Sub-Section Related Article Summary", "Sub-Section Related Article Relevance", "Conclusion"}

  const BulletKeys: set<string> := {"Key Findings", "Recommendations"}

  const SentenceKeys: set<string> := {
    "Call to Action", "Section Insight", "Section Statistic", "Section Recommendation",
    "Sub-Section Statistic"}

  /** `asset_formatters.get(key, identity)`; "Website", "Year" and unknown
      keys keep their value. */
  function FormatterFor(key: string): Formatter {
    if key in TitleKeys then TitleFormat
    else if key in ParagraphKeys then ParagraphFormat
    else if key in BulletKeys then BulletFormat
    else if key in SentenceKeys then SentenceFormat
    else Verbatim
  }

  function ApplyFormatter(f: Formatter, value: string): string {
    match f
    case TitleFormat => TitleCase(value)
    case ParagraphFormat => ParagraphCase(value)
    case BulletFormat => BulletPoints(value)
    case SentenceFormat => SentenceCase(value)
    case Verbatim => value
  }

  // =====================================================================
  // reformat_assets
  // =====================================================================

  /** Keys whose lines are copied verbatim by the standard formatting. */
  const InlineKeys: set<string> := {
    "Section #:", "Section Makeup:", "Section Change:", "Section Effect:",
    "Sub-Section #:", "Sub-Section Makeup:", "Sub-Section Change:", "Sub-Section Effect:"}

  /** The loop state: the index of the next line, the two table modes and
      the lines emitted so far. */
  datatype ReformatState = ReformatState(i: nat, inReport: bool, inTables: bool, out: seq<string>)

  /** Lines `i`..`i + 2` trim to lines starting with `k0`, `k1`, `k2`. */
  predicate Triple(lines: seq<string>, i: nat, k0: string, k1: string, k2: string) {
    i + 2 < |lines|
    && StartsWith(Trim(lines[i]), k0)
    && StartsWith(Trim(lines[i + 1]), k1)
    && StartsWith(Trim(lines[i + 2]), k2)
  }

  /** The three trimmed lines on one line, separated by " | ". */
  function Piped(lines: seq<string>, i: nat): string
    requires i + 2 < |lines|
  {
    Trim(lines[i]) + " | " + Trim(lines[i + 1]) + " | " + Trim(lines[i + 2])
  }

  /** A table entry: a title line followed by the Makeup/Change/Effect
      triple of the same level. */
  predicate TableEntry(lines: seq<string>, i: nat, level: string) {
    i + 3 < |lines|
    && StartsWith(Trim(lines[i]), level + " Title:")
    && Triple(lines, i + 1, level + " Makeup:", level + " Change:", level + " Effect:")
  }

  predicate OutsideTriple(lines: seq<string>, i: nat, level: string) {
    Triple(lines, i, level + " Makeup:", level + " Change:", level + " Effect:")
  }

  /** The standard formatting of one line. */
  function StandardLines(line: string, out: seq<string>): seq<string> {
    if ':' in line then
      var key := line[..IndexOf(line, ':')];
      var fullKey := Trim(key) + ":";
      var value := Trim(line[IndexOf(line, ':') + 1..]);
      if fullKey in InlineKeys then [line]
      else
        (if out != [] && Trim(out[|out| - 1]) != "" then [""] else [])
        + [fullKey]
        + (if value != "" then [ApplyFormatter(FormatterFor(Trim(key)), value)] else [])
    else [line]
  }

  /** A section or sub-section marker line, which ends both table modes. */
  predicate IsMarker(stripped: string) {
    StartsWith(stripped, "Section #:") || StartsWith(stripped, "Sub-Section #:")
  }

  /** The rest of a pass once the two table headers are ruled out and the
      modes are updated: a table entry, a Makeup/Change/Effect triple, or
      the standard formatting of one line. */
  function BodyStep(lines: seq<string>, i: nat, inReport: bool, inTables: bool, out: seq<string>)
    : (r: ReformatState)
    requires i < |lines|
    ensures i < r.i <= |lines|
  {
    if inReport && TableEntry(lines, i, "Section") then
      ReformatState(i + 4, inReport, inTables, out + ["", Trim(lines[i]), Piped(lines, i + 1)])
    else if inTables && TableEntry(lines, i, "Sub-Section") then
      ReformatState(i + 4, inReport, inTables, out + ["", Trim(lines[i]), Piped(lines, i + 1)])
    else if !inReport && !inTables && OutsideTriple(lines, i, "Section") then
      ReformatState(i + 3, inReport, inTables, out + ["", Piped(lines, i)])
    else if !inReport && !inTables && OutsideTriple(lines, i, "Sub-Section") then
      ReformatState(i + 3, inReport, inTables, out + ["", Piped(lines, i)])
    else
      ReformatState(i + 1, inReport, inTables, out + StandardLines(lines[i], out))
  }

  /** One pass of the loop of `reformat_assets`. */
  function ReformatStep(lines: seq<string>, st: ReformatState): (r: ReformatState)
    requires st.i < |lines|
    ensures st.i < r.i <= |lines|
  {
    var stripped := Trim(lines[st.i]);
    if stripped == "Report Table:" then ReformatState(st.i + 1, true, false, st.out + [stripped])
    else if stripped == "Section Tables:" then ReformatState(st.i + 1, false, true, st.out + [stripped])
    else if IsMarker(stripped) then BodyStep(lines, st.i, false, false, st.out)
    else BodyStep(lines, st.i, st.inReport, st.inTables, st.out)
  }

  /** The lines emitted from state `st` to the end. */
  function ReformatFrom(lines: seq<string>, st: ReformatState): seq<string>
    requires st.i <= |lines|
    decreases |lines| - st.i
  {
    if st.i == |lines| then st.out else ReformatFrom(lines, ReformatStep(lines, st))
  }

  const ReformatStart := ReformatState(0, false, false, [])

  /** The lines `reformat_assets` emits for the given lines. */
  function ReformatLines(lines: seq<string>): seq<string> {
    ReformatFrom(lines, ReformatStart)
  }

  /** The text `reformat_assets` returns. */
  function Reformatted(text: string): string {
    Join(ReformatLines(Split(text, "\n")), "\n")
  }

  /** `reformat_assets` */
  method ReformatAssets(text: string) returns (r: string)
    ensures r == Reformatted(text)
  {
    var lines := Split(text, "\n");
    var formatted: seq<string> := [];
    var insideReportTable := false;
    var insideSectionTables := false;
    var i := 0;
    while i < |lines|
      invariant i <= |lines|
      invariant ReformatFrom(lines, ReformatState(i, insideReportTable, insideSectionTables, formatted))
             == ReformatLines(lines)
      decreases |lines| - i
    {
      i, insideReportTable, insideSectionTables, formatted :=
        ReformatLine(lines, i, insideReportTable, insideSectionTables, formatted);
    }
    r := Join(formatted, "\n");
  }

  /** One pass of the loop: the lines it consumes and the lines it emits. */
  method ReformatLine(lines: seq<string>, i: nat, inReport: bool, inTables: bool, formatted: seq<string>)
    returns (i': nat, inReport': bool, inTables': bool, formatted': seq<string>)
    requires i < |lines|
    ensures ReformatState(i', inReport', inTables', formatted')
         == ReformatStep(lines, ReformatState(i, inReport, inTables, formatted))
  {
    var stripped := Trim(lines[i]);
    if stripped == "Report Table:" {
      return i + 1, true, false, formatted + [stripped];
    }
    if stripped == "Section Tables:" {
      return i + 1, false, true, formatted + [stripped];
    }
    inReport', inTables' := inReport, inTables;
    if StartsWith(stripped, "Section #:") || StartsWith(stripped, "Sub-Section #:") {
      inReport', inTables' := false, false;
    }
    i', formatted' := ReformatBody(lines, i, inReport', inTables', formatted);
  }

  /** The table entries, triples and standard lines of one pass. */
  method ReformatBody(lines: seq<string>, i: nat, inReport: bool, inTables: bool, formatted: seq<string>)
    returns (i': nat, formatted': seq<string>)
    requires i < |lines|
    ensures ReformatState(i', inReport, inTables, formatted') == BodyStep(lines, i, inReport, inTables, formatted)
  {
    var stripped := Trim(lines[i]);
    if inReport && TableEntry(lines, i, "Section") {
      return i + 4,
        formatted + ["", stripped, Trim(lines[i + 1]) + " | " + Trim(lines[i + 2]) + " | " + Trim(lines[i + 3])];
    }
    if inTables && TableEntry(lines, i, "Sub-Section") {
      return i + 4,
        formatted + ["", stripped, Trim(lines[i + 1]) + " | " + Trim(lines[i + 2]) + " | " + Trim(lines[i + 3])];
    }
    if !inReport && !inTables && OutsideTriple(lines, i, "Section") {
      return i + 3, formatted + ["", stripped + " | " + Trim(lines[i + 1]) + " | " + Trim(lines[i + 2])];
    }
    if !inReport && !inTables && OutsideTriple(lines, i, "Sub-Section") {
      return i + 3, formatted + ["", stripped + " | " + Trim(lines[i + 1]) + " | " + Trim(lines[i + 2])];
    }
    i' := i + 1;
    formatted' := FormatStandardLine(lines[i], formatted);
  }

  /** The standard formatting of one line, appended to the lines so far. */
  method FormatStandardLine(line: string, formatted: seq<string>) returns (out: seq<string>)
    ensures out == formatted + StandardLines(line, formatted)
  {
    if ':' !in line {
      return formatted + [line];
    }
    var colon := IndexOf(line, ':');
    var key := line[..colon];
    var fullKey := Trim(key) + ":";
    var value := Trim(line[colon + 1..]);
    if fullKey in InlineKeys {
      return formatted + [line];
    }
    var blank: seq<string> := [];
    if formatted != [] && Trim(formatted[|formatted| - 1]) != "" {
      blank := [""];
    }
    var formattedValue: seq<string> := [];
    if value != "" {
      formattedValue := [ApplyFormatter(FormatterFor(Trim(key)), value)];
    }
    out := formatted + (blank + [fullKey] + formattedValue);
  }

  /** A line without a colon is copied unchanged. */
  lemma ColonFreeStep(lines: seq<string>, st: ReformatState)
    requires st.i < |lines| && ':' !in lines[st.i]
    ensures ReformatStep(lines, st).i == st.i + 1
    ensures ReformatStep(lines, st).out == st.out + [lines[st.i]]
  {
    var line := lines[st.i];
    var stripped := Trim(line);
    TrimKeepsFree(line, ':');
    ColonFreeNotHeader(stripped);
    var inReport := st.inReport && !IsMarker(stripped);
    var inTables := st.inTables && !IsMarker(stripped);
    assert ReformatStep(lines, st) == BodyStep(lines, st.i, inReport, inTables, st.out);
    ColonFreeBody(lines, st.i, inReport, inTables, st.out);
  }

  /** A trimmed line without a colon is no table header and starts no
      title or Makeup line. */
  lemma ColonFreeNotHeader(stripped: string)
    requires ':' !in stripped
    ensures stripped != "Report Table:" && stripped != "Section Tables:"
    ensures !StartsWith(stripped, "Section Title:") && !StartsWith(stripped, "Sub-Section Title:")
    ensures !StartsWith(stripped, "Section Makeup:") && !StartsWith(stripped, "Sub-Section Makeup:")
  {
    assert "Report Table:"[12] == ':';
    assert "Section Tables:"[14] == ':';
    ColonInPrefix(stripped, "Section Title:", 13);
    ColonInPrefix(stripped, "Sub-Section Title:", 17);
    ColonInPrefix(stripped, "Section Makeup:", 14);
    ColonInPrefix(stripped, "Sub-Section Makeup:", 18);
  }

  /** The body of a pass copies a line without a colon. */
  lemma ColonFreeBody(lines: seq<string>, i: nat, inReport: bool, inTables: bool, out: seq<string>)
    requires i < |lines| && ':' !in lines[i]
    requires !StartsWith(Trim(lines[i]), "Section Title:") && !StartsWith(Trim(lines[i]), "Sub-Section Title:")
    requires !StartsWith(Trim(lines[i]), "Section Makeup:") && !StartsWith(Trim(lines[i]), "Sub-Section Makeup:")
    ensures BodyStep(lines, i, inReport, inTables, out) == ReformatState(i + 1, inReport, inTables, out + [lines[i]])
  {
    assert !TableEntry(lines, i, "Section") && !TableEntry(lines, i, "Sub-Section");
    assert !OutsideTriple(lines, i, "Section") && !OutsideTriple(lines, i, "Sub-Section");
    assert StandardLines(lines[i], out) == [lines[i]];
  }

  /** A string starting with a prefix that holds a colon holds a colon. */
  lemma ColonInPrefix(s: string, prefix: string, at: nat)
    requires at < |prefix| && prefix[at] == ':'
    ensures StartsWith(s, prefix) ==> ':' in s
  {
    if StartsWith(s, prefix) {
      assert s[at] == prefix[at];
    }
  }

  lemma {:induction false} ColonFreeFrom(lines: seq<string>, st: ReformatState)
    requires st.i <= |lines| && st.out == lines[..st.i]
    requires forall k :: 0 <= k < |lines| ==> ':' !in lines[k]
    ensures ReformatFrom(lines, st) == lines
    decreases |lines| - st.i
  {
    if st.i == |lines| {
      assert lines[..st.i] == lines;
    } else {
      ColonFreeStep(lines, st);
      var next := ReformatStep(lines, st);
      assert lines[..st.i + 1] == lines[..st.i] + [lines[st.i]];
      ColonFreeFrom(lines, next);
    }
  }

  /** Text without any colon passes through `reformat_assets` unchanged: it
      has no keys, table headers or Makeup/Change/Effect lines. */
  lemma ReformatColonFree(text: string)
    requires ':' !in text
    ensures Reformatted(text) == text
  {
    var lines := Split(text, "\n");
    SplitKeepsFree(text, "\n", ':');
    ColonFreeFrom(lines, ReformatStart);
    JoinSplit(text, "\n");
  }

  /** Inside the report table, a Section Title line with its Makeup, Change
      and Effect lines becomes a blank line, the title and one piped line. */
  lemma SectionEntryCollapses(lines: seq<string>, st: ReformatState)
    requires st.i < |lines| && st.inReport && TableEntry(lines, st.i, "Section")
    ensures ReformatStep(lines, st)
         == ReformatState(st.i + 4, true, st.inTables, st.out + ["", Trim(lines[st.i]), Piped(lines, st.i + 1)])
  {
    var stripped := Trim(lines[st.i]);
    assert StartsWith(stripped, "Section Title:");
    TitleNotHeader(stripped, "Section Title:");
    NotSectionMarker(stripped, "Section Title:");
    assert stripped != "Report Table:" && stripped != "Section Tables:" && !IsMarker(stripped);
    assert ReformatStep(lines, st) == BodyStep(lines, st.i, true, st.inTables, st.out);
  }

  /** Inside the section tables, a Sub-Section Title line with its Makeup,
      Change and Effect lines becomes a blank line, the title and one piped
      line. */
  lemma SubSectionEntryCollapses(lines: seq<string>, st: ReformatState)
    requires st.i < |lines| && !st.inReport && st.inTables && TableEntry(lines, st.i, "Sub-Section")
    ensures ReformatStep(lines, st)
         == ReformatState(st.i + 4, false, true, st.out + ["", Trim(lines[st.i]), Piped(lines, st.i + 1)])
  {
    var stripped := Trim(lines[st.i]);
    assert StartsWith(stripped, "Sub-Section Title:");
    TitleNotHeader(stripped, "Sub-Section Title:");
    NotSectionMarker(stripped, "Sub-Section Title:");
    assert stripped != "Report Table:" && stripped != "Section Tables:" && !IsMarker(stripped);
    assert ReformatStep(lines, st) == BodyStep(lines, st.i, false, true, st.out);
  }

  /** A title line is not a section or sub-section marker line. */
  lemma NotSectionMarker(s: string, prefix: string)
    requires prefix == "Section Title:" || prefix == "Sub-Section Title:"
    ensures StartsWith(s, prefix) ==> !StartsWith(s, "Section #:") && !StartsWith(s, "Sub-Section #:")
  {
    if StartsWith(s, prefix) {
      if prefix == "Section Title:" {
        assert s[8] == 'T' && "Section #:"[8] == '#';
        assert s[1] == 'e' && "Sub-Section #:"[1] == 'u';
      } else {
        assert s[12] == 'T' && "Sub-Section #:"[12] == '#';
        assert s[1] == 'u' && "Section #:"[1] == 'e';
      }
    }
  }

  lemma TitleNotHeader(s: string, prefix: string)
    requires prefix == "Section Title:" || prefix == "Sub-Section Title:"
    ensures StartsWith(s, prefix) ==> s != "Report Table:" && s != "Section Tables:"
  {
    if StartsWith(s, prefix) {
      if prefix == "Section Title:" {
        assert s[8] == 'T';
        assert "Section Tables:"[8] == 'T';
        assert s[9] == 'i';
        assert "Section Tables:"[9] == 'a';
        assert s[0] == 'S';
      } else {
        assert s[0] == 'S';
        assert s[1] == 'u';
        assert "Section Tables:"[1] == 'e';
      }
    }
  }

  /** Outside the table modes, a Makeup/Change/Effect triple becomes a blank
      line and one piped line. */
  lemma OutsideTripleCollapses(lines: seq<string>, st: ReformatState)
    requires st.i < |lines| && !st.inReport && !st.inTables
    requires OutsideTriple(lines, st.i, "Section") || OutsideTriple(lines, st.i, "Sub-Section")
    ensures ReformatStep(lines, st) == ReformatState(st.i + 3, false, false, st.out + ["", Piped(lines, st.i)])
  {
    var stripped := Trim(lines[st.i]);
    if OutsideTriple(lines, st.i, "Section") {
      assert stripped[8] == 'M';
      assert "Report Table:"[0] == 'R';
      assert "Section Tables:"[8] == 'T';
    } else {
      assert stripped[12] == 'M';
      assert "Report Table:"[0] == 'R';
      assert stripped[0] == 'S' && stripped[1] == 'u';
      assert "Section Tables:"[1] == 'e';
    }
  }

  /** A key line that is not an inline key becomes a `Key:` line, preceded by
      a blank line unless the previous emitted line is blank, and followed by
      its formatted value when the value is not empty. */
  lemma KeyLineLayout(line: string, out: seq<string>)
    requires ':' in line
    ensures var key := Trim(line[..IndexOf(line, ':')]);
      var value := Trim(line[IndexOf(line, ':') + 1..]);
      var emitted := StandardLines(line, out);
      && (key + ":" in InlineKeys ==> emitted == [line])
      && (key + ":" !in InlineKeys ==>
            var lead := if out != [] && Trim(out[|out| - 1]) != "" then 1 else 0;
            && |emitted| == lead + 1 + (if value != "" then 1 else 0)
            && (lead == 1 ==> emitted[0] == "")
            && emitted[lead] == key + ":"
            && (value != "" ==> emitted[lead + 1] == ApplyFormatter(FormatterFor(key), value)))
  {
  }

  // =====================================================================
  // normalise_table_headers
  // =====================================================================

  /** The loop of `normalise_table_headers` from line `i`, with `out` the
      lines emitted so far. */
  function HeadersFrom(lines: seq<string>, keyword: string, i: nat, out: seq<string>): seq<string>
    requires i <= |lines|
    decreases |lines| - i
  {
    if i == |lines| then out
    else if Trim(lines[i]) == keyword then
      var out' := (if out != [] && Trim(out[|out| - 1]) != "" then out + [""] else out) + [keyword];
      var skip := i + 1 < |lines| && Trim(lines[i + 1]) == "";
      HeadersFrom(lines, keyword, if skip then i + 2 else i + 1, out')
    else HeadersFrom(lines, keyword, i + 1, out + [lines[i]])
  }

  /** The text `normalise_table_headers` returns. */
  function NormalisedHeaders(text: string, keyword: string): string {
    Join(HeadersFrom(Split(text, "\n"), keyword, 0, []), "\n")
  }

  /** `normalise_table_headers` */
  method NormaliseTableHeaders(text: string, keyword: string) returns (r: string)
    ensures r == NormalisedHeaders(text, keyword)
  {
    var lines := Split(text, "\n");
    var newLines: seq<string> := [];
    var i := 0;
    while i < |lines|
      invariant i <= |lines|
      invariant HeadersFrom(lines, keyword, i, newLines) == HeadersFrom(lines, keyword, 0, [])
      decreases |lines| - i
    {
      if Trim(lines[i]) == keyword {
        if newLines != [] && Trim(newLines[|newLines| - 1]) != "" {
          newLines := newLines + [""];
        }
        newLines := newLines + [keyword];
        if i + 1 < |lines| && Trim(lines[i + 1]) == "" {
          i := i + 1;
        }
      } else {
        newLines := newLines + [lines[i]];
      }
      i := i + 1;
    }
    r := Join(newLines, "\n");
  }

  /** In the emitted lines every keyword line after the first line follows a
      blank line. */
  predicate BlankBeforeKeyword(out: seq<string>, keyword: string) {
    forall j :: 0 < j < |out| && out[j] == keyword ==> Trim(out[j - 1]) == ""
  }

  /** A blank line stands before every keyword line the pass emits. */
  lemma {:induction false} HeadersBlankBefore(lines: seq<string>, keyword: string, i: nat, out: seq<string>)
    requires i <= |lines| && keyword != "" && IsTrimmed(keyword)
    requires BlankBeforeKeyword(out, keyword)
    ensures BlankBeforeKeyword(HeadersFrom(lines, keyword, i, out), keyword)
    decreases |lines| - i
  {
    if i < |lines| {
      if Trim(lines[i]) == keyword {
        var padded := if out != [] && Trim(out[|out| - 1]) != "" then out + [""] else out;
        assert Trim("") == "";
        assert BlankBeforeKeyword(padded + [keyword], keyword);
        var skip := i + 1 < |lines| && Trim(lines[i + 1]) == "";
        HeadersBlankBefore(lines, keyword, if skip then i + 2 else i + 1, padded + [keyword]);
      } else {
        if lines[i] == keyword {
          TrimOfTrimmed(keyword);
        }
        assert BlankBeforeKeyword(out + [lines[i]], keyword);
        HeadersBlankBefore(lines, keyword, i + 1, out + [lines[i]]);
      }
    }
  }

  lemma {:induction false} HeadersAbsentFrom(lines: seq<string>, keyword: string, i: nat)
    requires i <= |lines|
    requires forall k :: 0 <= k < |lines| ==> Trim(lines[k]) != keyword
    ensures HeadersFrom(lines, keyword, i, lines[..i]) == lines
    decreases |lines| - i
  {
    if i == |lines| {
      assert lines[..i] == lines;
    } else {
      assert lines[..i + 1] == lines[..i] + [lines[i]];
      HeadersAbsentFrom(lines, keyword, i + 1);
    }
  }

  /** Text without the keyword line is left unchanged. */
  lemma HeadersUnchangedWithoutKeyword(text: string, keyword: string)
    requires forall k :: 0 <= k < |Split(text, "\n")| ==> Trim(Split(text, "\n")[k]) != keyword
    ensures NormalisedHeaders(text, keyword) == text
  {
    var lines := Split(text, "\n");
    assert lines[..0] == [];
    HeadersAbsentFrom(lines, keyword, 0);
    JoinSplit(text, "\n");
  }

  /** Whether input line `k` is a blank line directly after a keyword
      line. */
  predicate BlankAfterKeyword(lines: seq<string>, keyword: string, k: nat)
    requires k < |lines|
  {
    k > 0 && Trim(lines[k - 1]) == keyword && Trim(lines[k]) == ""
  }

  /** The input lines from `k` on that survive: every blank line directly
      after a keyword line is dropped, a keyword line becomes the bare
      keyword, and every other line is kept as it is. */
  function KeptFrom(lines: seq<string>, keyword: string, k: nat): seq<string>
    requires k <= |lines|
    decreases |lines| - k
  {
    if k == |lines| then []
    else if BlankAfterKeyword(lines, keyword, k) then KeptFrom(lines, keyword, k + 1)
    else [if Trim(lines[k]) == keyword then keyword else lines[k]] + KeptFrom(lines, keyword, k + 1)
  }

  /** The kept lines with a blank line put in front of each keyword line
      whose previous line is not blank; `prevFilled` says whether the line
      before `xs` is a non-blank one. */
  function Padded(xs: seq<string>, keyword: string, prevFilled: bool): seq<string>
    decreases |xs|
  {
    if xs == [] then []
    else (if xs[0] == keyword && prevFilled then ["", keyword] else [xs[0]])
         + Padded(xs[1..], keyword, Trim(xs[0]) != "")
  }

  lemma PaddedCons(x: string, rest: seq<string>, keyword: string, prevFilled: bool)
    ensures Padded([x] + rest, keyword, prevFilled)
            == (if x == keyword && prevFilled then ["", keyword] else [x]) + Padded(rest, keyword, Trim(x) != "")
  {
    assert ([x] + rest)[0] == x && ([x] + rest)[1..] == rest;
  }

  /** Whether the last line emitted so far is not blank. */
  predicate LastFilled(out: seq<string>) {
    out != [] && Trim(out[|out| - 1]) != ""
  }

  /** The lines emitted for a keyword line. */
  function PadKeyword(out: seq<string>, keyword: string): seq<string> {
    (if LastFilled(out) then out + [""] else out) + [keyword]
  }

  /** The line looked at after a keyword line: the one after the blank line
      that follows it, if one does. */
  function KeywordNext(lines: seq<string>, i: nat): nat
    requires i < |lines|
  {
    if i + 1 < |lines| && Trim(lines[i + 1]) == "" then i + 2 else i + 1
  }

  /** A keyword line: the keyword, padded, and the blank line after it
      passed over. */
  lemma KeywordLineKept(lines: seq<string>, keyword: string, i: nat, out: seq<string>)
    requires i < |lines| && keyword != "" && IsTrimmed(keyword) && Trim(lines[i]) == keyword
    requires !BlankAfterKeyword(lines, keyword, i)
    ensures KeywordNext(lines, i) <= |lines|
    ensures KeywordNext(lines, i) < |lines| ==> !BlankAfterKeyword(lines, keyword, KeywordNext(lines, i))
    ensures HeadersFrom(lines, keyword, i, out) == HeadersFrom(lines, keyword, KeywordNext(lines, i), PadKeyword(out, keyword))
    ensures KeptFrom(lines, keyword, i) == [keyword] + KeptFrom(lines, keyword, KeywordNext(lines, i))
  {
    TrimOfTrimmed(keyword);
    if i + 1 < |lines| && Trim(lines[i + 1]) == "" {
      assert BlankAfterKeyword(lines, keyword, i + 1);
      assert Trim(lines[i + 1]) != keyword;
    }
  }

  /** Emitting a padded keyword is padding the keyword. */
  lemma KeywordPadded(out: seq<string>, keyword: string, rest: seq<string>)
    requires keyword != "" && IsTrimmed(keyword)
    ensures LastFilled(PadKeyword(out, keyword))
    ensures PadKeyword(out, keyword) + Padded(rest, keyword, true)
            == out + Padded([keyword] + rest, keyword, LastFilled(out))
  {
    TrimOfTrimmed(keyword);
    var p := PadKeyword(out, keyword);
    assert p[|p| - 1] == keyword;
    PaddedKeywordCons(out, keyword, rest);
  }

  /** The lines emitted for a keyword, then the rest padded, are the
      padding of the keyword and the rest. */
  lemma PaddedKeywordCons(out: seq<string>, keyword: string, rest: seq<string>)
    requires Trim(keyword) == keyword && keyword != ""
    ensures PadKeyword(out, keyword) + Padded(rest, keyword, true)
            == out + Padded([keyword] + rest, keyword, LastFilled(out))
  {
    PaddedCons(keyword, rest, keyword, LastFilled(out));
    var tail := Padded(rest, keyword, true);
    if LastFilled(out) {
      assert (out + [""]) + [keyword] + tail == out + (["", keyword] + tail);
    } else {
      assert out + [keyword] + tail == out + ([keyword] + tail);
    }
  }

  /** Any other line: kept as it is. */
  lemma OtherLineKept(lines: seq<string>, keyword: string, i: nat, out: seq<string>)
    requires i < |lines| && keyword != "" && IsTrimmed(keyword) && Trim(lines[i]) != keyword
    requires !BlankAfterKeyword(lines, keyword, i)
    ensures i + 1 < |lines| ==> !BlankAfterKeyword(lines, keyword, i + 1)
    ensures HeadersFrom(lines, keyword, i, out) == HeadersFrom(lines, keyword, i + 1, out + [lines[i]])
    ensures KeptFrom(lines, keyword, i) == [lines[i]] + KeptFrom(lines, keyword, i + 1)
    ensures lines[i] != keyword
  {
    TrimOfTrimmed(keyword);
  }

  /** From a line that is not a dropped blank line, the pass emits the
      padded kept lines after what it has emitted so far. */
  lemma {:induction false} HeadersFromKept(lines: seq<string>, keyword: string, i: nat, out: seq<string>)
    requires i <= |lines| && keyword != "" && IsTrimmed(keyword)
    requires i < |lines| ==> !BlankAfterKeyword(lines, keyword, i)
    ensures HeadersFrom(lines, keyword, i, out)
            == out + Padded(KeptFrom(lines, keyword, i), keyword, LastFilled(out))
    decreases |lines| - i
  {
    if i == |lines| {
      assert out + [] == out;
    } else if Trim(lines[i]) == keyword {
      var next := KeywordNext(lines, i);
      KeywordLineKept(lines, keyword, i, out);
      HeadersFromKept(lines, keyword, next, PadKeyword(out, keyword));
      KeywordStepKept(lines, keyword, i, out);
    } else {
      OtherLineKept(lines, keyword, i, out);
      HeadersFromKept(lines, keyword, i + 1, out + [lines[i]]);
      OtherStepKept(lines, keyword, i, out);
    }
  }

  lemma KeywordStepKept(lines: seq<string>, keyword: string, i: nat, out: seq<string>)
    requires i < |lines| && keyword != "" && IsTrimmed(keyword) && Trim(lines[i]) == keyword
    requires !BlankAfterKeyword(lines, keyword, i)
    requires KeywordNext(lines, i) <= |lines|
    requires HeadersFrom(lines, keyword, KeywordNext(lines, i), PadKeyword(out, keyword))
      == PadKeyword(out, keyword)
         + Padded(KeptFrom(lines, keyword, KeywordNext(lines, i)), keyword, LastFilled(PadKeyword(out, keyword)))
    ensures HeadersFrom(lines, keyword, i, out)
            == out + Padded(KeptFrom(lines, keyword, i), keyword, LastFilled(out))
  {
    KeywordLineKept(lines, keyword, i, out);
    KeywordPadded(out, keyword, KeptFrom(lines, keyword, KeywordNext(lines, i)));
  }

  lemma OtherStepKept(lines: seq<string>, keyword: string, i: nat, out: seq<string>)
    requires i < |lines| && keyword != "" && IsTrimmed(keyword) && Trim(lines[i]) != keyword
    requires !BlankAfterKeyword(lines, keyword, i)
    requires HeadersFrom(lines, keyword, i + 1, out + [lines[i]])
      == (out + [lines[i]]) + Padded(KeptFrom(lines, keyword, i + 1), keyword, LastFilled(out + [lines[i]]))
    ensures HeadersFrom(lines, keyword, i, out)
            == out + Padded(KeptFrom(lines, keyword, i), keyword, LastFilled(out))
  {
    OtherLineKept(lines, keyword, i, out);
    PaddedCons(lines[i], KeptFrom(lines, keyword, i + 1), keyword, LastFilled(out));
    assert LastFilled(out + [lines[i]]) == (Trim(lines[i]) != "");
  }

  /** `normalise_table_headers` for a trimmed, non-empty keyword: the blank
      line directly after a keyword line is removed, a keyword line becomes
      the bare keyword with a blank line put in front of it unless it is the
      first line or already follows a blank line, and every other line is
      left untouched. */
  lemma NormalisedHeadersKept(text: string, keyword: string)
    requires keyword != "" && IsTrimmed(keyword)
    ensures NormalisedHeaders(text, keyword)
            == Join(Padded(KeptFrom(Split(text, "\n"), keyword, 0), keyword, false), "\n")
  {
    HeadersFromKept(Split(text, "\n"), keyword, 0, []);
    var xs := Padded(KeptFrom(Split(text, "\n"), keyword, 0), keyword, false);
    assert [] + xs == xs;
  }

  /** Padding only adds blank lines: the non-blank lines are the kept
      lines' non-blank lines, in order. */
  lemma {:induction false} PaddedFilled(xs: seq<string>, keyword: string, prevFilled: bool)
    requires keyword != ""
    ensures Filled(Padded(xs, keyword, prevFilled)) == Filled(xs)
    decreases |xs|
  {
    if xs != [] {
      PaddedFilled(xs[1..], keyword, Trim(xs[0]) != "");
      var head := if xs[0] == keyword && prevFilled then ["", keyword] else [xs[0]];
      FilledAppend(head, Padded(xs[1..], keyword, Trim(xs[0]) != ""));
      FilledAppend([xs[0]], xs[1..]);
      assert [xs[0]] + xs[1..] == xs;
      if xs[0] == keyword && prevFilled {
        assert Trim("") == "";
        FilledAppend([""], [keyword]);
        assert [""] + [keyword] == head;
      }
    }
  }

  /** The lines that are not blank, in order. */
  function Filled(xs: seq<string>): seq<string>
    decreases |xs|
  {
    if xs == [] then [] else (if Trim(xs[0]) != "" then [xs[0]] else []) + Filled(xs[1..])
  }

  lemma {:induction false} FilledAppend(a: seq<string>, b: seq<string>)
    ensures Filled(a + b) == Filled(a) + Filled(b)
    decreases |a|
  {
    if a != [] {
      assert (a + b)[1..] == a[1..] + b;
      FilledAppend(a[1..], b);
    } else {
      assert a + b == b;
    }
  }

  // =====================================================================
  // run_prompt
  // =====================================================================

  /** The fixed header with the client details, each formatted for its
      field. */
  function Header(client: string, website: string, context: string, question: string,
                  report: string, year: string): string {
    "Client:\n"
    + (TitleCase(client) + "\n\n"
       + "Website:\n" + website + "\n\n"
       + "About Client:\n" + ParagraphCase(context) + "\n\n"
       + "Main Question:\n" + TitleCase(question) + "\n\n"
       + "Report:\n" + TitleCase(report) + "\n\n"
       + "Year:\n" + year + "\n\n")
  }

  /** The combined report after spelling conversion, layout and header
      spacing. */
  function FormattedBody(combine: string, dict: map<string, string>): string {
    NormalisedHeaders(NormalisedHeaders(Reformatted(ToBritish(combine, dict)), "Report Table:"),
                      "Section Tables:")
  }

  const MissingCombine := "Missing 'combine' content in input data."

  /** The storage path of a formatted report. */
  function FormattedPath(runId: string): string {
    "The_Big_Question/Predictive_Report/Ai_Responses/Format_Combine/" + runId + ".txt"
  }

  datatype FormatResponse =
    | FormatSuccess(runId: string, path: string, content: string)
    | FormatError(message: string)

  /** `run_prompt` of the formatter. The inputs are the request's fields
      ("" when missing), `runId` is the fresh identifier the source draws
      from `uuid4`, and the dictionary is a parameter. The storage write and
      read-back are left out; the content is the text that is written. */
  method RunFormatCombine(client: string, website: string, context: string, question: string,
                          report: string, year: string, combine: string, dict: map<string, string>,
                          runId: string)
    returns (r: FormatResponse)
    ensures Trim(combine) == "" <==> r.FormatError?
    ensures r.FormatError? ==> r.message == MissingCombine
    ensures r.FormatSuccess? ==>
      && r.runId == runId
      && r.path == FormattedPath(runId)
      && r.content == Trim(Header(Trim(client), Trim(website), Trim(context), Trim(question),
                                  Trim(report), Trim(year))
                           + Trim(FormattedBody(Trim(combine), dict)))
      && StartsWith(r.content, "Client:")
  {
    var combineText := Trim(combine);
    if combineText == "" {
      return FormatError(MissingCombine);
    }
    var text := ToBritish(combineText, dict);
    text := ReformatAssets(text);
    text := NormaliseTableHeaders(text, "Report Table:");
    text := NormaliseTableHeaders(text, "Section Tables:");
    var header := Header(Trim(client), Trim(website), Trim(context), Trim(question), Trim(report), Trim(year));
    var finalText := header + Trim(text);
    HeaderOpens(header, Trim(text));
    r := FormatSuccess(runId, FormattedPath(runId), Trim(finalText));
  }

  /** The report opens with the client heading: stripping keeps the first
      seven characters, none of which is whitespace. */
  lemma HeaderOpens(header: string, body: string)
    requires StartsWith(header, "Client:\n")
    ensures StartsWith(Trim(header + body), "Client:")
  {
    var s := header + body;
    assert s[..8] == "Client:\n";
    TrimStartDrops(s);
    assert !IsSpace(s[0]);
    assert TrimStart(s) == s;
    TrimEndDrops(s);
    assert !IsSpace(s[6]);
    assert |TrimEnd(s)| > 6;
    assert Trim(s)[..7] == s[..7];
  }
}
