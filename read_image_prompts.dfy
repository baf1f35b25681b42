/** Reading the report image prompts back
    (Scripts/Image_Prompts/read_report_image_prompts.py): a flattener that
    turns JSON-like model output into indented `key: value` text, and a
    read loop with exponential back-off. */
module ReadImagePrompts {
  import opened Wrappers
  import opened Strings

  // =====================================================================
  // flatten_json_like_text
  // =====================================================================

  /** A code-fence line or a blank line: skipped. */
  predicate IsSkipped(line: string) {
    StartsWith(Trim(line), "```") || Trim(line) == ""
  }

  /** The clean-up of a kept line: brackets removed, trailing commas
      stripped, every `",` removed (the source does this twice, and the
      first pass can create a new `",`), then the enclosing quotes
      stripped. */
  function CleanJsonLine(line: string): string {
    var noBrackets := Replace(Replace(Trim(line), "[", ""), "]", "");
    var noCommas := StripEndChar(noBrackets, ',');
    StripChar(Replace(Replace(noCommas, "\",", ""), "\",", ""), '"')
  }

  /** `"  " * level`; a level below one gives no indentation. */
  function Indent(level: int): (r: string)
    ensures |r| == if level <= 0 then 0 else 2 * level
    ensures forall i :: 0 <= i < |r| ==> r[i] == ' '
    decreases level
  {
    if level <= 0 then "" else "  " + Indent(level - 1)
  }

  /** The text before the first colon (all of it without a colon), trimmed
      and stripped of quotes. */
  function JsonKey(clean: string): string {
    StripChar(Trim(clean[..IndexOf(clean, ':')]), '"')
  }

  /** The text after the first colon, trimmed and stripped of quotes. */
  function JsonValue(clean: string): string
    requires ':' in clean
  {
    StripChar(Trim(clean[IndexOf(clean, ':') + 1..]), '"')
  }

  predicate OpensBlock(clean: string) {
    EndsWith(clean, "{") || EndsWith(clean, "{,")
  }

  /** The indentation level and the lines emitted so far. */
  datatype FlatState = FlatState(level: int, out: seq<string>)

  /** One line of the loop. */
  function FlatStep(st: FlatState, line: string): FlatState {
    if IsSkipped(line) then st
    else
      var clean := CleanJsonLine(line);
      if StartsWith(clean, "}") then
        st.(level := if st.level - 1 > 0 then st.level - 1 else 0)
      else if OpensBlock(clean) then
        FlatState(st.level + 1, st.out + [Indent(st.level) + JsonKey(clean) + ":"])
      else if ':' in clean then
        st.(out := st.out + [Indent(st.level) + JsonKey(clean) + ": " + JsonValue(clean)])
      else
        st.(out := st.out + [Indent(st.level) + clean])
  }

  /** The state after the lines, in order, from level 0. */
  function FlatRun(lines: seq<string>): FlatState
    decreases |lines|
  {
    if lines == [] then FlatState(0, [])
    else FlatStep(FlatRun(lines[..|lines| - 1]), lines[|lines| - 1])
  }

  /** The text `flatten_json_like_text` returns. */
  function Flattened(text: string): string {
    Join(FlatRun(Lines(Trim(text))).out, "\n")
  }

  /** `flatten_json_like_text` */
  method FlattenJsonLikeText(text: string) returns (r: string)
    ensures r == Flattened(text)
  {
    var lines := Lines(Trim(text));
    var result: seq<string> := [];
    var indentLevel := 0;
    for i := 0 to |lines|
      invariant FlatState(indentLevel, result) == FlatRun(lines[..i])
    {
      assert lines[..i + 1][..i] == lines[..i];
      indentLevel, result := FlattenLine(indentLevel, result, lines[i]);
    }
    assert lines[..|lines|] == lines;
    r := Join(result, "\n");
  }

  /** One pass of the loop of `flatten_json_like_text`. */
  method FlattenLine(indentLevel: int, result: seq<string>, line: string)
    returns (indentLevel': int, result': seq<string>)
    ensures FlatState(indentLevel', result') == FlatStep(FlatState(indentLevel, result), line)
  {
    if IsSkipped(line) {
      return indentLevel, result;
    }
    var clean := CleanJsonLine(line);
    if StartsWith(clean, "}") {
      return if indentLevel - 1 > 0 then indentLevel - 1 else 0, result;
    }
    if OpensBlock(clean) {
      return indentLevel + 1, result + [Indent(indentLevel) + JsonKey(clean) + ":"];
    }
    if ':' in clean {
      return indentLevel, result + [Indent(indentLevel) + JsonKey(clean) + ": " + JsonValue(clean)];
    }
    return indentLevel, result + [Indent(indentLevel) + clean];
  }

  /** The indentation level never drops below zero, and no input line
      gives more than one output line. */
  lemma {:induction false} FlatRunBounds(lines: seq<string>)
    ensures FlatRun(lines).level >= 0
    ensures |FlatRun(lines).out| <= |lines|
    decreases |lines|
  {
    if lines != [] {
      FlatRunBounds(lines[..|lines| - 1]);
      FlatStepBounds(FlatRun(lines[..|lines| - 1]), lines[|lines| - 1]);
    }
  }

  /** One line keeps the level non-negative and adds at most one output
      line. */
  lemma FlatStepBounds(st: FlatState, line: string)
    requires st.level >= 0
    ensures FlatStep(st, line).level >= 0
    ensures |FlatStep(st, line).out| <= |st.out| + 1
  {
    if !IsSkipped(line) {
      var clean := CleanJsonLine(line);
      if StartsWith(clean, "}") {
      } else if OpensBlock(clean) {
        assert FlatStep(st, line).out == st.out + [Indent(st.level) + JsonKey(clean) + ":"];
      } else if ':' in clean {
        assert FlatStep(st, line).out == st.out + [Indent(st.level) + JsonKey(clean) + ": " + JsonValue(clean)];
      } else {
        assert FlatStep(st, line).out == st.out + [Indent(st.level) + clean];
      }
    }
  }

  /** Fence lines and blank lines change nothing; a closing-brace line only
      lowers the level, to no less than zero. */
  lemma SkippedAndClosingLines(st: FlatState, line: string)
    ensures IsSkipped(line) ==> FlatStep(st, line) == st
    ensures !IsSkipped(line) && StartsWith(CleanJsonLine(line), "}") ==>
      FlatStep(st, line).out == st.out
      && FlatStep(st, line).level == (if st.level > 0 then st.level - 1 else 0)
  {
  }

  /** A line opening a block emits `key:` at the current indentation and
      raises the level by one. */
  lemma OpeningLine(st: FlatState, line: string)
    requires !IsSkipped(line) && !StartsWith(CleanJsonLine(line), "}") && OpensBlock(CleanJsonLine(line))
    ensures FlatStep(st, line).level == st.level + 1
    ensures FlatStep(st, line).out == st.out + [Indent(st.level) + JsonKey(CleanJsonLine(line)) + ":"]
  {
  }

  /** A `key: value` line that opens no block emits `key: value` at the
      current indentation, quotes stripped from both sides. */
  lemma KeyValueLine(st: FlatState, line: string)
    requires !IsSkipped(line)
    requires var clean := CleanJsonLine(line);
      !StartsWith(clean, "}") && !OpensBlock(clean) && ':' in clean
    ensures FlatStep(st, line).level == st.level
    ensures var clean := CleanJsonLine(line);
      FlatStep(st, line).out
      == st.out + [Indent(st.level) + JsonKey(clean) + ": " + JsonValue(clean)]
  {
  }

  // =====================================================================
  // run_prompt: the read loop
  // =====================================================================

  const MaxRetries: nat := 6
  const RetryDelaySeconds: nat := 2

  function Pow2(k: nat): (r: nat)
    ensures r >= 1
  {
    if k == 0 then 1 else 2 * Pow2(k - 1)
  }

  /** The wait after failed attempt `k` (counting from 0). */
  function Delay(k: nat): nat {
    RetryDelaySeconds * Pow2(k)
  }

  /** The waits after the first `k` failed attempts, in order. */
  function Delays(k: nat): (r: seq<nat>)
    ensures |r| == k
    ensures forall j :: 0 <= j < k ==> r[j] == Delay(j)
  {
    if k == 0 then [] else Delays(k - 1) + [Delay(k - 1)]
  }

  function Sum(s: seq<nat>): nat {
    if s == [] then 0 else Sum(s[..|s| - 1]) + s[|s| - 1]
  }

  /** The waits double each time: after `k` failures the reader has waited
      2·(2^k − 1) seconds. */
  lemma {:induction false} DelaysSum(k: nat)
    ensures Sum(Delays(k)) == RetryDelaySeconds * (Pow2(k) - 1)
  {
    if k > 0 {
      DelaysSum(k - 1);
      assert Delays(k)[..k - 1] == Delays(k - 1);
    }
  }

  /** The full schedule: 2, 4, 8, 16, 32 and 64 seconds, 126 in all. */
  lemma FullSchedule()
    ensures Delays(MaxRetries) == [2, 4, 8, 16, 32, 64]
    ensures Sum(Delays(MaxRetries)) == 126
  {
    DelaysSum(MaxRetries);
    assert Pow2(6) == 64;
  }

  /** The outcome of read attempt `k`: the content, or None when the read
      failed. Attempts past the end of the sequence fail. */
  function Attempt(outcomes: seq<Option<string>>, k: nat): Option<string> {
    if k < |outcomes| then outcomes[k] else None
  }

  /** The first attempt from `k` on, within the limit, whose read succeeds. */
  function FirstSuccessFrom(outcomes: seq<Option<string>>, k: nat): (r: Option<nat>)
    requires k <= MaxRetries
    ensures r.Some? ==>
      && k <= r.value < MaxRetries
      && Attempt(outcomes, r.value).Some?
      && forall j :: k <= j < r.value ==> Attempt(outcomes, j).None?
    ensures r.None? ==> forall j :: k <= j < MaxRetries ==> Attempt(outcomes, j).None?
    decreases MaxRetries - k
  {
    if k == MaxRetries then None
    else if Attempt(outcomes, k).Some? then Some(k)
    else FirstSuccessFrom(outcomes, k + 1)
  }

  const NotAvailable := "Report Image Prompts file not yet available. Try again later."
  const MissingRunId := "Unhandled server error: Missing run_id in request payload"

  datatype ReadResponse =
    | ReadSuccess(runId: string, prompts: string)
    | ReadTimeout(runId: string, message: string)
    | ReadFailure(message: string)

  /** The storage path the prompts are read from. */
  function PromptsPath(runId: string): string {
    "The_Big_Question/Predictive_Report/Ai_Responses/Report_Image_Prompts/" + runId + ".txt"
  }

  /** `run_prompt` of the reader. `runId` is the request's `run_id` ("" when
      missing); `outcomes[k]` is what attempt `k` of reading `PromptsPath`
      gives. `waits` lists the back-off sleeps in order. */
  method ReadReportImagePrompts(runId: string, outcomes: seq<Option<string>>)
    returns (r: ReadResponse, waits: seq<nat>)
    ensures runId == "" ==> r == ReadFailure(MissingRunId) && waits == []
    ensures runId != "" ==>
      var first := FirstSuccessFrom(outcomes, 0);
      && (first.Some? ==>
            && r == ReadSuccess(runId, Replace(Flattened(Attempt(outcomes, first.value).value), "{:", ""))
            && waits == Delays(first.value))
      && (first.None? ==> r == ReadTimeout(runId, NotAvailable) && waits == Delays(MaxRetries))
  {
    waits := [];
    if runId == "" {
      return ReadFailure(MissingRunId), waits;
    }
    var retries := 0;
    while retries < MaxRetries
      invariant retries <= MaxRetries
      invariant waits == Delays(retries)
      invariant FirstSuccessFrom(outcomes, retries) == FirstSuccessFrom(outcomes, 0)
    {
      var outcome := Attempt(outcomes, retries);
      if outcome.Some? {
        var flattened := FlattenJsonLikeText(outcome.value);
        return ReadSuccess(runId, Replace(flattened, "{:", "")), waits;
      }
      waits := waits + [Delay(retries)];
      retries := retries + 1;
    }
    r := ReadTimeout(runId, NotAvailable);
  }

  /** The reader gives up only after six failed attempts, and then it has
      waited 126 seconds. */
  lemma GivesUpAfterSixFailures(outcomes: seq<Option<string>>)
    ensures FirstSuccessFrom(outcomes, 0).None? <==>
      forall j :: 0 <= j < MaxRetries ==> Attempt(outcomes, j).None?
  {
  }
}
