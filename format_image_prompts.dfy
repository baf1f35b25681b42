/** Formatting the image prompts (Scripts/Image_Prompts/format_image_prompts.py):
    only `Key: value` lines are kept, each value converted to British
    spelling and capitalised, each entry followed by a blank line. */
module FormatImagePrompts {
  import opened Wrappers
  import opened Strings
  import opened British

  // =====================================================================
  // to_paragraph_case (the variant that keeps every line)
  // =====================================================================

  /** `p[:1].upper() + p[1:]`: the first character in upper case. */
  function UpperFirst(p: string): (r: string)
    ensures |r| == |p|
    ensures p != [] ==> r[0] == UpperChar(p[0]) && r[1..] == p[1..]
  {
    if p == [] then [] else [UpperChar(p[0])] + p[1..]
  }

  function UpperFirstAll(lines: seq<string>): (r: seq<string>)
    ensures |r| == |lines|
    ensures forall k :: 0 <= k < |r| ==> r[k] == UpperFirst(lines[k])
  {
    seq(|lines|, k requires 0 <= k < |lines| => UpperFirst(lines[k]))
  }

  /** `to_paragraph_case`: every line, blank ones included, with its first
      character in upper case. */
  function ParagraphCase(text: string): string {
    Join(UpperFirstAll(Split(text, "\n")), "\n")
  }

  /** Paragraph case keeps the lines: as many lines as the input, line `k`
      being input line `k` with its first character upper-cased. */
  lemma ParagraphCaseKeepsLines(text: string)
    ensures Split(ParagraphCase(text), "\n") == UpperFirstAll(Split(text, "\n"))
    ensures |Split(ParagraphCase(text), "\n")| == |Split(text, "\n")|
  {
    var lines := Split(text, "\n");
    SplitCharFree(text, '\n');
    var upper := UpperFirstAll(lines);
    forall k | 0 <= k < |upper| ensures '\n' !in upper[k] {
      if lines[k] != [] {
        assert upper[k] == [UpperChar(lines[k][0])] + lines[k][1..];
        assert lines[k][0] != '\n';
      }
    }
    SplitJoinChar(upper, '\n');
  }

  // =====================================================================
  // format_image_prompts_block
  // =====================================================================

  /** `[A-Za-z0-9 \-]` */
  predicate IsKeyChar(c: char) {
    IsLetter(c) || IsDigit(c) || c == ' ' || c == '-'
  }

  /** Where `^([A-Z][A-Za-z0-9 \-]*?):` matches `s`: the index of its first
      colon. The lazy repetition cannot pass a colon (the class holds none),
      so a match ends at the first colon, and only if every character
      between the capital letter and that colon is in the class. */
  function KeyEnd(s: string): (r: Option<nat>)
    ensures r.Some? ==> 0 < r.value < |s| && s[r.value] == ':' && IsUpperChar(s[0])
  {
    if s != [] && IsUpperChar(s[0]) && ':' in s
       && forall i :: 1 <= i < IndexOf(s, ':') ==> IsKeyChar(s[i])
    then Some(IndexOf(s, ':'))
    else None
  }

  /** The formatted line of a matching line `s`: the key, `: `, and the
      value (the rest after the colon, trimmed) converted to British
      spelling and paragraph-cased. */
  function Entry(s: string, j: nat, dict: map<string, string>): string
    requires j < |s|
  {
    Trim(s[..j]) + ": " + ParagraphCase(ToBritish(Trim(s[j + 1..]), dict))
  }

  /** The lines emitted for the lines, in order: for each non-blank line
      that matches, its entry and a blank line. */
  function PromptLines(lines: seq<string>, dict: map<string, string>): seq<string>
    decreases |lines|
  {
    if lines == [] then []
    else PromptStep(PromptLines(lines[..|lines| - 1], dict), lines[|lines| - 1], dict)
  }

  /** One line of the loop: a blank or non-matching line adds nothing, a
      matching line adds its entry and a blank line. */
  function PromptStep(out: seq<string>, line: string, dict: map<string, string>): seq<string> {
    var s := Trim(line);
    if s == "" then out
    else match KeyEnd(s)
      case Some(j) => out + [Entry(s, j, dict), ""]
      case None => out
  }

  /** The text `format_image_prompts_block` returns. */
  function FormattedBlock(block: string, dict: map<string, string>): string {
    Trim(Join(PromptLines(Split(Trim(block), "\n"), dict), "\n"))
  }

  /** `format_image_prompts_block` */
  method FormatImagePromptsBlock(block: string, dict: map<string, string>) returns (r: string)
    ensures r == FormattedBlock(block, dict)
  {
    var lines := Split(Trim(block), "\n");
    var outputLines: seq<string> := [];
    for i := 0 to |lines|
      invariant outputLines == PromptLines(lines[..i], dict)
    {
      PromptLinesSnoc(lines, i, dict);
      outputLines := FormatPromptLine(outputLines, lines[i], dict);
    }
    assert lines[..|lines|] == lines;
    r := Trim(Join(outputLines, "\n"));
  }

  lemma PromptLinesSnoc(lines: seq<string>, i: nat, dict: map<string, string>)
    requires i < |lines|
    ensures PromptLines(lines[..i + 1], dict) == PromptStep(PromptLines(lines[..i], dict), lines[i], dict)
  {
    assert lines[..i + 1][..i] == lines[..i];
  }

  /** One pass of the loop of `format_image_prompts_block`. */
  method FormatPromptLine(outputLines: seq<string>, line: string, dict: map<string, string>)
    returns (out: seq<string>)
    ensures out == PromptStep(outputLines, line, dict)
  {
    var s := Trim(line);
    if s == "" {
      return outputLines;
    }
    var m := KeyEnd(s);
    if m.None? {
      return outputLines;
    }
    var j := m.value;
    var cleanedValue := ToBritish(Trim(s[j + 1..]), dict);
    var paragraphed := ParagraphCase(cleanedValue);
    out := outputLines + [Trim(s[..j]) + ": " + paragraphed, ""];
  }

  /** Each entry starts with its key, which starts with a capital letter,
      followed by `: `. */
  lemma EntryStartsWithKey(s: string, dict: map<string, string>)
    requires KeyEnd(s).Some?
    ensures var j := KeyEnd(s).value;
      && Trim(s[..j]) != []
      && IsUpperChar(Trim(s[..j])[0])
      && StartsWith(Entry(s, j, dict), Trim(s[..j]) + ": ")
  {
    var j := KeyEnd(s).value;
    var key := s[..j];
    TrimStartDrops(key);
    assert TrimStart(key) == key by {
      assert !IsSpace(key[0]);
    }
    TrimEndDrops(key);
    assert TrimEnd(key)[0] == key[0];
    var e := Entry(s, j, dict);
    var p := Trim(key) + ": ";
    assert e[..|p|] == p;
  }

  /** Every emitted line pair is an entry followed by a blank line: the
      output has even length and a blank line at every odd position. */
  lemma {:induction false} PromptLinesPairs(lines: seq<string>, dict: map<string, string>)
    ensures |PromptLines(lines, dict)| % 2 == 0
    ensures forall k :: 0 <= k < |PromptLines(lines, dict)| && k % 2 == 1 ==> PromptLines(lines, dict)[k] == ""
    decreases |lines|
  {
    if lines != [] {
      var prev := PromptLines(lines[..|lines| - 1], dict);
      PromptLinesPairs(lines[..|lines| - 1], dict);
      PromptStepPairs(prev, lines[|lines| - 1], dict);
    }
  }

  /** A step keeps the output an even-length sequence of entry and blank
      line pairs. */
  lemma PromptStepPairs(out: seq<string>, line: string, dict: map<string, string>)
    requires |out| % 2 == 0
    requires forall k :: 0 <= k < |out| && k % 2 == 1 ==> out[k] == ""
    ensures |PromptStep(out, line, dict)| % 2 == 0
    ensures forall k :: 0 <= k < |PromptStep(out, line, dict)| && k % 2 == 1 ==> PromptStep(out, line, dict)[k] == ""
  {
    var r := PromptStep(out, line, dict);
    if r != out {
      var s := Trim(line);
      var j := KeyEnd(s).value;
      assert r == out + [Entry(s, j, dict), ""];
      PairAppended(out, Entry(s, j, dict));
    }
  }

  lemma PairAppended(out: seq<string>, e: string)
    requires |out| % 2 == 0
    requires forall k :: 0 <= k < |out| && k % 2 == 1 ==> out[k] == ""
    ensures |out + [e, ""]| % 2 == 0
    ensures forall k :: 0 <= k < |out + [e, ""]| && k % 2 == 1 ==> (out + [e, ""])[k] == ""
  {
    forall k | 0 <= k < |out + [e, ""]| && k % 2 == 1
      ensures (out + [e, ""])[k] == ""
    {
      if k >= |out| {
        assert k == |out| + 1;
      }
    }
  }

  /** A block none of whose lines has a `Key:` prefix formats to nothing. */
  lemma {:induction false} NoKeysNoOutput(lines: seq<string>, dict: map<string, string>)
    requires forall k :: 0 <= k < |lines| ==> KeyEnd(Trim(lines[k])).None?
    ensures PromptLines(lines, dict) == []
    decreases |lines|
  {
    if lines != [] {
      NoKeysNoOutput(lines[..|lines| - 1], dict);
    }
  }

  // =====================================================================
  // run_prompt
  // =====================================================================

  /** The two formatted blocks separated by one blank line, stripped. */
  function CombinedOutput(report: string, section: string): string {
    Trim(report + "\n\n" + section)
  }

  /** The storage path of the formatted prompts. */
  function FormattedPromptsPath(runId: string): string {
    "Predictive_Report/Ai_Responses/Format_Image_Prompts/" + runId + ".txt"
  }

  datatype FormatResponse = FormatSuccess(runId: string, path: string, content: string)

  /** `run_prompt` of the image-prompt formatter, with the storage write and
      read-back left out (the content is the text written), `runId` the
      fresh identifier and the dictionary a parameter. */
  method RunFormatImagePrompts(reportBlock: string, sectionBlock: string, dict: map<string, string>,
                               runId: string)
    returns (r: FormatResponse)
    ensures r.runId == runId && r.path == FormattedPromptsPath(runId)
    ensures r.content == CombinedOutput(FormattedBlock(reportBlock, dict), FormattedBlock(sectionBlock, dict))
  {
    var formattedReport := FormatImagePromptsBlock(reportBlock, dict);
    var formattedSection := FormatImagePromptsBlock(sectionBlock, dict);
    var combinedOutput := Trim(formattedReport + "\n\n" + formattedSection);
    TrimIdempotent(formattedReport + "\n\n" + formattedSection);
    r := FormatSuccess(runId, FormattedPromptsPath(runId), Trim(combinedOutput));
  }

  /** When one of the blocks formats to nothing, the output is the other
      block alone, with no blank lines around it. */
  lemma CombinedWithEmpty(block: string)
    requires IsTrimmed(block)
    ensures CombinedOutput(block, "") == block
    ensures CombinedOutput("", block) == block
  {
    var s1 := block + "\n\n" + "";
    var s2 := "" + "\n\n" + block;
    assert s1 == block + "\n\n";
    assert s2 == "\n\n" + block;
    TrimSpaced("", block, "\n\n");
    TrimSpaced("\n\n", block, "");
    assert "" + block + "\n\n" == s1;
    assert "\n\n" + block + "" == s2;
  }
}
