/** The content CSV of the predictive report
    (Scripts/Predictive_Report/csv_content.py): table bodies are cut out of
    the formatted report, the intro and outro assets become one column
    each, and every sub-section becomes one row carrying its section's
    fields and all intro and outro values. */
module CsvContent {
  import opened Wrappers
  import opened Strings
  import opened Dicts

  // =====================================================================
  // strip_excluded_blocks
  // =====================================================================

  const ReportTableHead := "Report Table:\n"
  const SectionTablesHead := "Section Tables:\n"
  const SectionStop := "\nSection #:"
  const SubSectionStop := "\nSub-Section #:"

  /** Where a lazy body searched from `from` ends: the first position from
      `from` on where `stop` begins, or the end of the text. */
  function NextStop(s: string, from: nat, stop: string): (q: nat)
    requires from <= |s|
    ensures from <= q <= |s|
    decreases |s| - from
  {
    if from == |s| || StartsWith(s[from..], stop) then from else NextStop(s, from + 1, stop)
  }

  /** The first such position is the one `NextStop` finds. */
  lemma {:induction false} NextStopAt(s: string, from: nat, stop: string, q: nat)
    requires from <= q <= |s|
    requires forall j :: from <= j < q ==> !StartsWith(s[j..], stop)
    requires q == |s| || StartsWith(s[q..], stop)
    ensures NextStop(s, from, stop) == q
    decreases q - from
  {
    if from < q {
      NextStopAt(s, from + 1, stop, q);
    }
  }

  /** One substitution `(head)(.*?)(?=stop|\Z)` -> `head` over the whole
      text, matches taken left to right: each occurrence of `head` is kept
      and what follows it, up to the next `stop` or the end, is dropped. */
  function StripBlocks(s: string, head: string, stop: string): (r: string)
    requires |head| > 0
    ensures |r| <= |s|
    decreases |s|
  {
    if s == [] then []
    else if StartsWith(s, head) then head + StripBlocks(s[NextStop(s, |head|, stop)..], head, stop)
    else [s[0]] + StripBlocks(s[1..], head, stop)
  }

  /** `strip_excluded_blocks`: the body of the report table, up to the next
      section, and the body of the section tables, up to the next
      sub-section, are removed; both header lines stay. */
  function StripExcludedBlocks(text: string): string {
    StripBlocks(StripBlocks(text, ReportTableHead, SectionStop), SectionTablesHead, SubSectionStop)
  }

  /** A text in which `head` does not occur is left as it is. */
  lemma {:induction false} StripBlocksAbsent(s: string, head: string, stop: string)
    requires |head| > 0
    requires forall j :: 0 <= j <= |s| ==> !StartsWith(s[j..], head)
    ensures StripBlocks(s, head, stop) == s
    decreases |s|
  {
    if s != [] {
      assert s[0..] == s;
      forall j | 0 <= j <= |s[1..]| ensures !StartsWith(s[1..][j..], head) {
        assert s[1..][j..] == s[j + 1..];
      }
      StripBlocksAbsent(s[1..], head, stop);
      assert [s[0]] + s[1..] == s;
    }
  }

  /** A header followed by a body that holds no `stop` keeps the header and
      loses the body: the text resumes at the `stop` (or the end). */
  lemma StripBlocksBlock(s: string, x: string, head: string, body: string, rest: string, stop: string)
    requires |head| > 0 && s == x + head + body + rest
    requires forall j :: 0 <= j < |x| ==> !StartsWith(s[j..], head)
    requires forall j :: |x| + |head| <= j < |x| + |head| + |body| ==> !StartsWith(s[j..], stop)
    requires rest == [] || StartsWith(rest, stop)
    ensures StripBlocks(s, head, stop) == x + head + StripBlocks(rest, head, stop)
  {
    var a := |x|;
    var b := |x| + |head| + |body|;
    assert s[..a] == x && s[a..a + |head|] == head && s[b..] == rest;
    StripBlocksAt(s, a, head, b, stop);
  }

  /** `s` holds `head` at `a` and no earlier, and the lazy body after it
      ends at `b`. */
  predicate BlockAt(s: string, a: nat, head: string, b: nat, stop: string) {
    && |head| > 0 && a + |head| <= b <= |s| && s[a..a + |head|] == head
    && (forall j :: 0 <= j < a ==> !StartsWith(s[j..], head))
    && (forall j :: a + |head| <= j < b ==> !StartsWith(s[j..], stop))
    && (b == |s| || StartsWith(s[b..], stop))
  }

  /** `StripBlocksBlock` by positions: the header at `a`, its body up to
      `b`. */
  lemma {:induction false} StripBlocksAt(s: string, a: nat, head: string, b: nat, stop: string)
    requires BlockAt(s, a, head, b, stop)
    ensures StripBlocks(s, head, stop) == s[..a] + head + StripBlocks(s[b..], head, stop)
    decreases a
  {
    if a == 0 {
      StripBlocksAtHead(s, head, b, stop);
    } else {
      StripBlocksShift(s, a, head, b, stop);
      StripBlocksAt(s[1..], a - 1, head, b - 1, stop);
      StripBlocksAtStep(s, a, head, b, stop);
    }
  }

  /** One character before the header: `StripBlocksAt` on `s[1..]` gives it
      on `s`. */
  lemma StripBlocksAtStep(s: string, a: nat, head: string, b: nat, stop: string)
    requires |head| > 0 && 0 < a <= b <= |s| && !StartsWith(s[0..], head)
    requires StripBlocks(s[1..], head, stop)
      == s[1..][..a - 1] + head + StripBlocks(s[1..][b - 1..], head, stop)
    ensures StripBlocks(s, head, stop) == s[..a] + head + StripBlocks(s[b..], head, stop)
  {
    StripBlocksCons(s, head, stop);
    assert s[1..][b - 1..] == s[b..];
    var t := StripBlocks(s[b..], head, stop);
    assert [s[0]] + (s[1..][..a - 1] + head + t) == ([s[0]] + s[1..][..a - 1]) + head + t;
    assert [s[0]] + s[1..][..a - 1] == s[..a];
  }

  /** The header at the very start. */
  lemma StripBlocksAtHead(s: string, head: string, b: nat, stop: string)
    requires BlockAt(s, 0, head, b, stop)
    ensures StripBlocks(s, head, stop) == s[..0] + head + StripBlocks(s[b..], head, stop)
  {
    assert s[..|head|] == head;
    NextStopAt(s, |head|, stop, b);
    assert s[..0] + head == head;
  }

  /** A text that does not open with `head` keeps its first character. */
  lemma StripBlocksCons(s: string, head: string, stop: string)
    requires |head| > 0 && s != [] && !StartsWith(s[0..], head)
    ensures StripBlocks(s, head, stop) == [s[0]] + StripBlocks(s[1..], head, stop)
  {
    assert s[0..] == s;
  }

  /** The conditions of `StripBlocksAt` carry over from `s` to `s[1..]`. */
  lemma StripBlocksShift(s: string, a: nat, head: string, b: nat, stop: string)
    requires 0 < a && BlockAt(s, a, head, b, stop)
    ensures !StartsWith(s[0..], head)
    ensures BlockAt(s[1..], a - 1, head, b - 1, stop)
  {
    assert s[1..][a - 1..a - 1 + |head|] == s[a..a + |head|];
    forall j | 0 <= j < a - 1 ensures !StartsWith(s[1..][j..], head) {
      assert s[1..][j..] == s[j + 1..];
    }
    forall j | a - 1 + |head| <= j < b - 1 ensures !StartsWith(s[1..][j..], stop) {
      assert s[1..][j..] == s[j + 1..];
    }
    assert s[1..][b - 1..] == s[b..];
  }

  // =====================================================================
  // Intro and outro keys
  // =====================================================================

  const IntroKeys: seq<string> := [
    "Client:", "Website:", "About Client:", "Main Question:", "Report:", "Year:",
    "Report Title:", "Report Sub-Title:", "Executive Summary:", "Key Findings:",
    "Call to Action:", "Report Change Title:", "Report Change:"]
  const OutroKeys: seq<string> := ["Conclusion:", "Recommendations:"]
  const AllKeys: seq<string> := IntroKeys + OutroKeys

  /** The CSV column of a key: trailing colons removed, lower case, spaces
      turned into underscores. */
  function ColumnName(key: string): string {
    Replace(ToLower(StripEndChar(key, ':')), " ", "_")
  }

  /** `s.replace(" ", "_")`, character by character. */
  function Underscored(s: string): (r: string)
    ensures |r| == |s|
    ensures forall i :: 0 <= i < |s| ==> r[i] == if s[i] == ' ' then '_' else s[i]
  {
    seq(|s|, i requires 0 <= i < |s| => if s[i] == ' ' then '_' else s[i])
  }

  lemma {:induction false} ReplaceSpaces(s: string)
    ensures Replace(s, " ", "_") == Underscored(s)
    decreases |s|
  {
    if s != [] {
      ReplaceSpaces(s[1..]);
      assert Underscored(s) == [if s[0] == ' ' then '_' else s[0]] + Underscored(s[1..]);
    }
  }

  /** A column name is the key without its colon, in lower case, with no
      space: one character shorter than the key and starting with the
      key's first letter in lower case. */
  lemma ColumnNameShape(key: string)
    requires |key| >= 2 && key[|key| - 1] == ':' && key[|key| - 2] != ':'
    ensures |ColumnName(key)| == |key| - 1
    ensures forall i :: 0 <= i < |key| - 1 ==>
      ColumnName(key)[i] == if key[i] == ' ' then '_' else LowerChar(key[i])
    ensures ' ' !in ColumnName(key)
    ensures forall i :: 0 <= i < |ColumnName(key)| ==> !IsUpperChar(ColumnName(key)[i])
  {
    var b := key[..|key| - 1];
    assert StripEndChar(key, ':') == StripEndChar(b, ':');
    assert StripEndChar(b, ':') == b;
    ReplaceSpaces(ToLower(b));
  }

  /** The columns of the keys, in key order. */
  function Columns(keys: seq<string>): (r: seq<string>)
    ensures |r| == |keys|
    ensures forall i :: 0 <= i < |keys| ==> r[i] == ColumnName(keys[i])
  {
    seq(|keys|, i requires 0 <= i < |keys| => ColumnName(keys[i]))
  }

  /** The intro and outro columns, in key order. */
  function AllColumns(): seq<string> {
    Columns(AllKeys)
  }

  /** The column of one of `keys` is among their columns. */
  lemma ColumnOfKey(keys: seq<string>, key: string)
    requires key in keys
    ensures ColumnName(key) in Columns(keys)
  {
    var i :| 0 <= i < |keys| && keys[i] == key;
    assert Columns(keys)[i] == ColumnName(key);
  }

  // =====================================================================
  // extract_intro_outro_assets
  // =====================================================================

  /** The key being read, the lines buffered for it and the columns found
      so far. */
  datatype AssetScan = AssetScan(currentKey: Option<string>, buffer: seq<string>, assets: Dict)

  /** `commit_buffer`'s value: the buffered lines joined and stripped, with
      line breaks written as the two characters `\n`. */
  function CleanValue(buf: seq<string>): string {
    Replace(Replace(Trim(Join(buf, "\n")), "\r\n", "\n"), "\n", "\\n")
  }

  /** `commit_buffer` */
  function Commit(assets: Dict, key: string, buf: seq<string>): Dict {
    Put(assets, ColumnName(key), CleanValue(buf))
  }

  /** A blank line whose next line ends in a colon. */
  predicate ClosesKey(lines: seq<string>, i: nat)
    requires i < |lines|
  {
    Trim(lines[i]) == "" && i + 1 < |lines| && EndsWith(Trim(lines[i + 1]), ":")
  }

  /** Line `i` of the loop. A key line commits the open key when its buffer
      is not empty and opens the new key; under an open key a blank line
      before a colon-ended line commits the key, even with an empty buffer,
      and closes it, and any other line is buffered as it is; lines under no
      key are dropped. */
  function AssetStep(st: AssetScan, keys: seq<string>, lines: seq<string>, i: nat): AssetScan
    requires i < |lines|
  {
    var stripped := Trim(lines[i]);
    if stripped in keys then
      AssetScan(Some(stripped), [], Flush(st))
    else if st.currentKey.None? then st
    else if ClosesKey(lines, i) then
      AssetScan(None, [], Commit(st.assets, st.currentKey.value, st.buffer))
    else st.(buffer := st.buffer + [lines[i]])
  }

  /** The columns once the open key, if its buffer is not empty, has been
      committed. */
  function Flush(st: AssetScan): Dict {
    if st.currentKey.Some? && st.buffer != [] then Commit(st.assets, st.currentKey.value, st.buffer)
    else st.assets
  }

  /** The state after the first `n` lines. */
  function AssetRun(keys: seq<string>, lines: seq<string>, n: nat): AssetScan
    requires n <= |lines|
    decreases n
  {
    if n == 0 then AssetScan(None, [], []) else AssetStep(AssetRun(keys, lines, n - 1), keys, lines, n - 1)
  }

  /** `asset_map.setdefault(column, "")` for the columns of `keys`, in
      order. */
  function WithDefaults(d: Dict, keys: seq<string>): Dict
    decreases |keys|
  {
    if keys == [] then d
    else SetDefault(WithDefaults(d, keys[..|keys| - 1]), ColumnName(keys[|keys| - 1]), "")
  }

  /** The dictionary `extract_intro_outro_assets` returns. */
  function IntroOutroAssets(text: string): Dict {
    var lines := Lines(text);
    WithDefaults(Flush(AssetRun(AllKeys, lines, |lines|)), AllKeys)
  }

  /** `extract_intro_outro_assets` */
  method ExtractIntroOutroAssets(text: string) returns (assetMap: Dict)
    ensures assetMap == IntroOutroAssets(text)
  {
    var lines := Lines(text);
    var currentKey, buffer;
    currentKey, buffer, assetMap := ScanAssetLines(lines);
    if currentKey.Some? && buffer != [] {
      assetMap := Put(assetMap, ColumnName(currentKey.value), CleanValue(buffer));
    }
    assetMap := AddDefaults(assetMap, AllKeys);
  }

  /** The line loop of `extract_intro_outro_assets`. */
  method ScanAssetLines(lines: seq<string>) returns (currentKey: Option<string>, buffer: seq<string>, assetMap: Dict)
    ensures AssetScan(currentKey, buffer, assetMap) == AssetRun(AllKeys, lines, |lines|)
  {
    currentKey, buffer, assetMap := None, [], [];
    for i := 0 to |lines|
      invariant AssetScan(currentKey, buffer, assetMap) == AssetRun(AllKeys, lines, i)
    {
      currentKey, buffer, assetMap := ScanAssetLine(currentKey, buffer, assetMap, lines, i);
    }
  }

  /** The `setdefault` loop of `extract_intro_outro_assets`. */
  method AddDefaults(flushed: Dict, keys: seq<string>) returns (assetMap: Dict)
    ensures assetMap == WithDefaults(flushed, keys)
  {
    assetMap := flushed;
    for k := 0 to |keys|
      invariant assetMap == WithDefaults(flushed, keys[..k])
    {
      assert keys[..k + 1][..k] == keys[..k];
      var column := ColumnName(keys[k]);
      if column !in Keys(assetMap) {
        assetMap := assetMap + [(column, "")];
      }
    }
    assert keys[..|keys|] == keys;
  }

  /** One pass of the loop of `extract_intro_outro_assets`. */
  method ScanAssetLine(currentKey: Option<string>, buffer: seq<string>, assetMap: Dict,
                       lines: seq<string>, i: nat)
    returns (currentKey': Option<string>, buffer': seq<string>, assetMap': Dict)
    requires i < |lines|
    ensures AssetScan(currentKey', buffer', assetMap') == AssetStep(AssetScan(currentKey, buffer, assetMap), AllKeys, lines, i)
  {
    var stripped := Trim(lines[i]);
    if stripped in AllKeys {
      assetMap' := assetMap;
      if currentKey.Some? && buffer != [] {
        assetMap' := Put(assetMap, ColumnName(currentKey.value), CleanValue(buffer));
      }
      return Some(stripped), [], assetMap';
    }
    if currentKey.None? {
      return currentKey, buffer, assetMap;
    }
    if stripped == "" && i + 1 < |lines| && EndsWith(Trim(lines[i + 1]), ":") {
      return None, [], Put(assetMap, ColumnName(currentKey.value), CleanValue(buffer));
    }
    return currentKey, buffer + [lines[i]], assetMap;
  }

  /** A committed value is one line: its line breaks are written as `\n`. */
  lemma CleanValueOneLine(buf: seq<string>)
    ensures '\n' !in CleanValue(buf)
  {
    ReplaceCharRemoves(Replace(Trim(Join(buf, "\n")), "\r\n", "\n"), '\n', "\\n");
  }

  /** What the scan holds at every step: an open key is one of the keys,
      and each column is the column of a key, held once. */
  predicate ScanValid(st: AssetScan, keys: seq<string>) {
    && (st.currentKey.Some? ==> st.currentKey.value in keys)
    && Distinct(Keys(st.assets))
    && forall c :: c in Keys(st.assets) ==> c in Columns(keys)
  }

  lemma CommitValid(keys: seq<string>, assets: Dict, key: string, buf: seq<string>)
    requires key in keys
    requires Distinct(Keys(assets)) && forall c :: c in Keys(assets) ==> c in Columns(keys)
    ensures Distinct(Keys(Commit(assets, key, buf)))
    ensures forall c :: c in Keys(Commit(assets, key, buf)) ==> c in Columns(keys)
  {
    PutDistinct(assets, ColumnName(key), CleanValue(buf));
    PutKeys(assets, ColumnName(key), CleanValue(buf));
    ColumnOfKey(keys, key);
  }

  /** The scan stays valid line after line, and so does its final flush. */
  lemma {:induction false} AssetRunValid(keys: seq<string>, lines: seq<string>, n: nat)
    requires n <= |lines|
    ensures ScanValid(AssetRun(keys, lines, n), keys)
    ensures ScanValid(AssetScan(None, [], Flush(AssetRun(keys, lines, n))), keys)
    decreases n
  {
    if n > 0 {
      AssetRunValid(keys, lines, n - 1);
      AssetRunStepValid(keys, lines, n);
    }
    FlushValid(keys, AssetRun(keys, lines, n));
  }

  /** Each line of the scan keeps it valid. */
  lemma AssetRunStepValid(keys: seq<string>, lines: seq<string>, n: nat)
    requires 0 < n <= |lines| && ScanValid(AssetRun(keys, lines, n - 1), keys)
    ensures ScanValid(AssetRun(keys, lines, n), keys)
  {
    var st := AssetRun(keys, lines, n - 1);
    FlushValid(keys, st);
    if st.currentKey.Some? {
      CommitValid(keys, st.assets, st.currentKey.value, st.buffer);
    }
  }

  /** Committing the open key keeps the scan valid. */
  lemma FlushValid(keys: seq<string>, st: AssetScan)
    requires ScanValid(st, keys)
    ensures ScanValid(AssetScan(None, [], Flush(st)), keys)
  {
    if st.currentKey.Some? {
      CommitValid(keys, st.assets, st.currentKey.value, st.buffer);
    }
  }

  /** Adding the defaults keeps each column once, adds the missing
      columns of `keys` mapped to "", and keeps every other value. */
  lemma {:induction false} WithDefaultsGet(d: Dict, keys: seq<string>, c: string)
    requires Distinct(Keys(d))
    ensures Distinct(Keys(WithDefaults(d, keys)))
    ensures c in Keys(WithDefaults(d, keys)) <==> c in Keys(d) || c in Columns(keys)
    ensures Get(WithDefaults(d, keys), c) ==
      if c in Keys(d) then Get(d, c) else if c in Columns(keys) then Some("") else None
    decreases |keys|
  {
    if keys != [] {
      var init := keys[..|keys| - 1];
      var last := ColumnName(keys[|keys| - 1]);
      var w := WithDefaults(d, init);
      WithDefaultsGet(d, init, c);
      WithDefaultsGet(d, init, last);
      SetDefaultGet(w, last, "", c);
      ColumnsSnoc(keys);
      if last !in Keys(w) {
        assert Keys(w + [(last, "")]) == Keys(w) + [last];
      }
    }
  }

  lemma ColumnsSnoc(keys: seq<string>)
    requires keys != []
    ensures Columns(keys) == Columns(keys[..|keys| - 1]) + [ColumnName(keys[|keys| - 1])]
  {
  }

  /** `extract_intro_outro_assets` has exactly one entry for each of the
      fifteen intro and outro columns and no other; a column no key line
      filled is "". */
  lemma IntroOutroColumns(text: string, c: string)
    ensures Distinct(Keys(IntroOutroAssets(text)))
    ensures c in Keys(IntroOutroAssets(text)) <==> c in AllColumns()
    ensures var flushed := Flush(AssetRun(AllKeys, Lines(text), |Lines(text)|));
      c in AllColumns() && c !in Keys(flushed) ==> Get(IntroOutroAssets(text), c) == Some("")
  {
    var lines := Lines(text);
    AssetRunValid(AllKeys, lines, |lines|);
    WithDefaultsGet(Flush(AssetRun(AllKeys, lines, |lines|)), AllKeys, c);
  }

  /** Lines before the first key line are dropped. */
  lemma {:induction false} NoKeyYet(keys: seq<string>, lines: seq<string>, n: nat)
    requires n <= |lines|
    requires forall m :: 0 <= m < n ==> Trim(lines[m]) !in keys
    ensures AssetRun(keys, lines, n) == AssetScan(None, [], [])
    decreases n
  {
    if n > 0 {
      NoKeyYet(keys, lines, n - 1);
    }
  }

  /** Under an open key every line that is neither a key line nor a closing
      blank line is buffered, verbatim and in order. */
  lemma {:induction false} BufferedLines(keys: seq<string>, lines: seq<string>, i: nat, n: nat)
    requires i < n <= |lines|
    requires Trim(lines[i]) in keys
    requires forall m :: i < m < n ==> Trim(lines[m]) !in keys && !ClosesKey(lines, m)
    ensures AssetRun(keys, lines, n).currentKey == Some(Trim(lines[i]))
    ensures AssetRun(keys, lines, n).buffer == lines[i + 1..n]
    decreases n
  {
    if n > i + 1 {
      BufferedLines(keys, lines, i, n - 1);
      BufferedStep(keys, lines, i, n);
    } else {
      KeyOpened(keys, lines, i);
    }
  }

  /** A key line opens its key with an empty buffer. */
  lemma KeyOpened(keys: seq<string>, lines: seq<string>, i: nat)
    requires i < |lines| && Trim(lines[i]) in keys
    ensures AssetRun(keys, lines, i + 1).currentKey == Some(Trim(lines[i]))
    ensures AssetRun(keys, lines, i + 1).buffer == lines[i + 1..i + 1]
  {
  }

  /** Under an open key a line that neither opens nor closes a key is
      appended to the buffer. */
  lemma BufferedStep(keys: seq<string>, lines: seq<string>, i: nat, n: nat)
    requires i + 1 < n <= |lines|
    requires Trim(lines[n - 1]) !in keys && !ClosesKey(lines, n - 1)
    requires AssetRun(keys, lines, n - 1).currentKey == Some(Trim(lines[i]))
    requires AssetRun(keys, lines, n - 1).buffer == lines[i + 1..n - 1]
    ensures AssetRun(keys, lines, n).currentKey == Some(Trim(lines[i]))
    ensures AssetRun(keys, lines, n).buffer == lines[i + 1..n]
  {
    assert lines[i + 1..n] == lines[i + 1..n - 1] + [lines[n - 1]];
  }

  /** A key line followed by non-empty text and then another key line: the
      text, cleaned, becomes the key's column. */
  lemma KeyValueCommitted(keys: seq<string>, lines: seq<string>, i: nat, j: nat)
    requires i + 1 < j < |lines|
    requires Trim(lines[i]) in keys && Trim(lines[j]) in keys
    requires forall m :: i < m < j ==> Trim(lines[m]) !in keys && !ClosesKey(lines, m)
    ensures Get(AssetRun(keys, lines, j + 1).assets, ColumnName(Trim(lines[i])))
      == Some(CleanValue(lines[i + 1..j]))
  {
    BufferedLines(keys, lines, i, j);
    var st := AssetRun(keys, lines, j);
    PutGet(st.assets, ColumnName(Trim(lines[i])), CleanValue(st.buffer), ColumnName(Trim(lines[i])));
  }

  // =====================================================================
  // The regular expressions of parse_sections_and_subsections
  // =====================================================================

  /** The patterns the parser searches for, each a literal prefix followed
      by one group:
      - `Lazy(prefix, term, dotAll)` is `prefix(.*?)term`, with `.`
        matching a line break only when `dotAll` holds;
      - `Digits(prefix)` is `prefix(\d+)`;
      - `Dotted(prefix)` is `prefix(\d+\.\d+)`;
      - `Percent(prefix)` is `prefix([\+\-]?\d+\.\d+%)`. */
  datatype Pattern =
    | Lazy(prefix: string, term: string, dotAll: bool)
    | Digits(prefix: string)
    | Dotted(prefix: string)
    | Percent(prefix: string)

  /** Where a lazy group starting at `from` ends: the first position where
      `term` follows, the group not crossing a line break unless `dotAll`. */
  function LazyEnd(s: string, from: nat, term: string, dotAll: bool): (r: Option<nat>)
    requires from <= |s|
    ensures r.Some? ==> from <= r.value <= |s| && StartsWith(s[r.value..], term)
    decreases |s| - from
  {
    if StartsWith(s[from..], term) then Some(from)
    else if from == |s| || (!dotAll && s[from] == '\n') then None
    else LazyEnd(s, from + 1, term, dotAll)
  }

  /** The end of the run of digits starting at `a` (`a` itself when there
      is none). */
  function DigitsEnd(s: string, a: nat): (r: nat)
    requires a <= |s|
    ensures a <= r <= |s|
    decreases |s| - a
  {
    if a < |s| && IsDigit(s[a]) then DigitsEnd(s, a + 1) else a
  }

  /** The end of `\d+\.\d+` starting at `a`. Greedy digit runs cannot give
      back a digit to the `.` or to the end, so the match, when there is
      one, is the one with the longest runs. */
  function DottedEnd(s: string, a: nat): (r: Option<nat>)
    requires a <= |s|
    ensures r.Some? ==> a < r.value <= |s|
  {
    var e1 := DigitsEnd(s, a);
    if e1 == a || e1 == |s| || s[e1] != '.' then None
    else
      var e2 := DigitsEnd(s, e1 + 1);
      if e2 == e1 + 1 then None else Some(e2)
  }

  /** The end of `[\+\-]?\d+\.\d+%` starting at `a`. Without the sign the
      digits would have to start on the sign, so a sign is always taken. */
  function PercentEnd(s: string, a: nat): (r: Option<nat>)
    requires a <= |s|
    ensures r.Some? ==> a < r.value <= |s| && s[r.value - 1] == '%'
  {
    var b := if a < |s| && (s[a] == '+' || s[a] == '-') then a + 1 else a;
    match DottedEnd(s, b)
    case None => None
    case Some(e) => if e < |s| && s[e] == '%' then Some(e + 1) else None
  }

  /** Where the group of `pat` ends when it starts at `a`, if the rest of
      the pattern matches there. */
  function GroupEnd(s: string, a: nat, pat: Pattern): (r: Option<nat>)
    requires a <= |s|
    ensures r.Some? ==> a <= r.value <= |s|
    ensures r.Some? && pat.Percent? ==> a < r.value && s[r.value - 1] == '%'
  {
    match pat
    case Lazy(_, term, dotAll) => LazyEnd(s, a, term, dotAll)
    case Digits(_) =>
      var e := DigitsEnd(s, a);
      if e == a then None else Some(e)
    case Dotted(_) => DottedEnd(s, a)
    case Percent(_) => PercentEnd(s, a)
  }

  /** The group of `pat` matched at position `p`, if it matches there. */
  function MatchAt(s: string, p: nat, pat: Pattern): (r: Option<string>)
    requires p <= |s|
    ensures r.Some? ==> StartsWith(s[p..], pat.prefix) && p + |pat.prefix| <= |s|
    ensures r.Some? ==> var a := p + |pat.prefix|;
      GroupEnd(s, a, pat).Some? && r.value == s[a..GroupEnd(s, a, pat).value]
  {
    if !StartsWith(s[p..], pat.prefix) then None
    else
      var a := p + |pat.prefix|;
      match GroupEnd(s, a, pat)
      case Some(q) => Some(s[a..q])
      case None => None
  }

  /** Where `re.search` finds `pat`: the leftmost position from `p` on
      at which it matches. */
  function SearchAt(s: string, pat: Pattern, p: nat): (r: Option<nat>)
    requires p <= |s|
    ensures r.Some? ==> p <= r.value <= |s| && MatchAt(s, r.value, pat).Some?
    decreases |s| - p
  {
    if MatchAt(s, p, pat).Some? then Some(p)
    else if p == |s| then None
    else SearchAt(s, pat, p + 1)
  }

  /** No match is skipped: there is none before the position found, and
      none at all when nothing is found. */
  lemma {:induction false} SearchAtLeftmost(s: string, pat: Pattern, p: nat, j: nat)
    requires p <= j <= |s|
    ensures SearchAt(s, pat, p).Some? && j < SearchAt(s, pat, p).value ==> MatchAt(s, j, pat).None?
    ensures SearchAt(s, pat, p).None? ==> MatchAt(s, j, pat).None?
    decreases |s| - p
  {
    if MatchAt(s, p, pat).None? && p < |s| && p < j {
      SearchAtLeftmost(s, pat, p + 1, j);
    }
  }

  /** `re.search(...)` and its group. */
  function Search(s: string, pat: Pattern): Option<string> {
    match SearchAt(s, pat, 0)
    case Some(m) => MatchAt(s, m, pat)
    case None => None
  }

  /** A field: the matched group, stripped, or "" when nothing matches. */
  function FieldValue(s: string, pat: Pattern): string {
    match Search(s, pat)
    case Some(g) => Trim(g)
    case None => ""
  }

  /** A group that may not cross a line break holds none. */
  lemma {:induction false} LazyEndOneLine(s: string, from: nat, term: string)
    requires from <= |s|
    ensures LazyEnd(s, from, term, false).Some? ==> '\n' !in s[from..LazyEnd(s, from, term, false).value]
    decreases |s| - from
  {
    if !StartsWith(s[from..], term) && from < |s| && s[from] != '\n' {
      LazyEndOneLine(s, from + 1, term);
      if LazyEnd(s, from + 1, term, false).Some? {
        var q := LazyEnd(s, from + 1, term, false).value;
        assert s[from..q] == [s[from]] + s[from + 1..q];
      }
    }
  }

  /** A one-line field holds no line break. */
  lemma OneLineField(s: string, prefix: string, term: string)
    ensures '\n' !in FieldValue(s, Lazy(prefix, term, false))
  {
    var pat := Lazy(prefix, term, false);
    if SearchAt(s, pat, 0).Some? {
      var m := SearchAt(s, pat, 0).value;
      LazyEndOneLine(s, m + |prefix|, term);
      TrimKeepsFree(MatchAt(s, m, pat).value, '\n');
    }
  }

  /** A change or effect field is empty or a percentage. */
  lemma PercentField(s: string, pat: Pattern)
    requires pat.Percent?
    ensures var v := FieldValue(s, pat);
      v == "" || v[|v| - 1] == '%'
  {
    match Search(s, pat)
    case None =>
    case Some(g) =>
      var m := SearchAt(s, pat, 0).value;
      var a := m + |pat.prefix|;
      PercentGroup(s, a, pat, g);
      PercentTrimmed(g);
  }

  /** A percentage group ends in `%`. */
  lemma PercentGroup(s: string, a: nat, pat: Pattern, g: string)
    requires pat.Percent? && a <= |s|
    requires GroupEnd(s, a, pat).Some? && g == s[a..GroupEnd(s, a, pat).value]
    ensures g != [] && g[|g| - 1] == '%'
  {
  }

  /** Stripping a string that ends in `%` keeps the `%` at its end. */
  lemma PercentTrimmed(g: string)
    requires g != [] && g[|g| - 1] == '%'
    ensures Trim(g) != [] && Trim(g)[|Trim(g)| - 1] == '%'
  {
    var t := TrimStart(g);
    TrimStartDrops(g);
    assert t != [] by {
      assert !IsSpace(g[|g| - 1]);
    }
    assert t[|t| - 1] == '%';
    TrimEndSpaces(t, []);
    assert t + [] == t;
  }

  // =====================================================================
  // Cutting the text into section and sub-section blocks
  // =====================================================================

  /** The markers blocks are cut before: `Section #: ` and a digit, or
      `Sub-Section #: ` and a number `d.d`. */
  datatype Marker = SectionMark | SubSectionMark

  predicate MarkerAt(t: string, m: Marker) {
    match m
    case SectionMark => MatchAt(t, 0, Digits("Section #: ")).Some?
    case SubSectionMark => MatchAt(t, 0, Dotted("Sub-Section #: ")).Some?
  }

  /** `re.split(r"\n(?=marker)", s)`: the text cut at each line break that
      a marker follows, the line break itself dropped. */
  function SplitMarked(s: string, m: Marker): (r: seq<string>)
    ensures |r| >= 1
    decreases |s|
  {
    if s == [] then [""]
    else if s[0] == '\n' && MarkerAt(s[1..], m) then [""] + SplitMarked(s[1..], m)
    else
      var rest := SplitMarked(s[1..], m);
      [[s[0]] + rest[0]] + rest[1..]
  }

  /** The blocks put back together with line breaks give the text, and each
      cut is followed by a marker. */
  lemma {:induction false} SplitMarkedJoin(s: string, m: Marker)
    ensures Join(SplitMarked(s, m), "\n") == s
    ensures forall k :: 1 <= k < |SplitMarked(s, m)| ==> MarkerAt(Join(SplitMarked(s, m)[k..], "\n"), m)
    decreases |s|
  {
    if s != [] {
      var rest := SplitMarked(s[1..], m);
      SplitMarkedJoin(s[1..], m);
      var r := SplitMarked(s, m);
      if s[0] == '\n' && MarkerAt(s[1..], m) {
        assert r[1..] == rest;
        forall k | 1 <= k < |r| ensures MarkerAt(Join(r[k..], "\n"), m) {
          assert r[k..] == rest[k - 1..];
          if k == 1 {
            assert rest[0..] == rest;
          }
        }
      } else {
        JoinCons(s[0], rest[0], rest[1..], "\n");
        assert [rest[0]] + rest[1..] == rest;
        assert [s[0]] + s[1..] == s;
        forall k | 1 <= k < |r| ensures MarkerAt(Join(r[k..], "\n"), m) {
          assert r[k..] == rest[k..];
        }
      }
    }
  }

  // =====================================================================
  // parse_sections_and_subsections
  // =====================================================================

  /** The section fields after `section_no`, each with its pattern. */
  const SectionFields: seq<(string, Pattern)> := [
    ("section_title", Lazy("Section Title:\n", "\n", false)),
    ("section_header", Lazy("Section Header:\n", "\n", false)),
    ("section_subheader", Lazy("Section Sub-Header:\n", "\n", false)),
    ("section_theme", Lazy("Section Theme:\n", "\n", false)),
    ("section_summary", Lazy("Section Summary:\n", "\nSection Makeup:", true)),
    ("section_makeup", Lazy("Section Makeup: ", " |", false)),
    ("section_change", Percent("Section Change: ")),
    ("section_effect", Percent("Section Effect: ")),
    ("section_insight", Lazy("Section Insight:\n", "\n", false)),
    ("section_statistic", Lazy("Section Statistic:\n", "\n", false)),
    ("section_recommendation", Lazy("Section Recommendation:\n", "\n", false)),
    ("section_related_article_title", Lazy("Section Related Article Title:\n", "\n", false)),
    ("section_related_article_date", Lazy("Section Related Article Date:\n", "\n", false)),
    ("section_related_article_summary", Lazy("Section Related Article Summary:\n", "\n", false)),
    ("section_related_article_relevance", Lazy("Section Related Article Relevance:\n", "\n", false)),
    ("section_related_article_source", Lazy("Section Related Article Source:\n", "\n", false))
  ]

  /** The sub-section fields after `sub_section_no`, each with its pattern. */
  const SubSectionFields: seq<(string, Pattern)> := [
    ("sub_section_title", Lazy("Sub-Section Title:\n", "\n", false)),
    ("sub_section_header", Lazy("Sub-Section Header:\n", "\n", false)),
    ("sub_section_subheader", Lazy("Sub-Section Sub-Header:\n", "\n", false)),
    ("sub_section_summary", Lazy("Sub-Section Summary:\n", "\nSub-Section Makeup:", true)),
    ("sub_section_makeup", Lazy("Sub-Section Makeup: ", " |", false)),
    ("sub_section_change", Percent("Sub-Section Change: ")),
    ("sub_section_effect", Percent("Sub-Section Effect: ")),
    ("sub_section_statistic", Lazy("Sub-Section Statistic:\n", "\n", false)),
    ("sub_section_related_article_title", Lazy("Sub-Section Related Article Title:\n", "\n", false)),
    ("sub_section_related_article_date", Lazy("Sub-Section Related Article Date:\n", "\n", false)),
    ("sub_section_related_article_summary", Lazy("Sub-Section Related Article Summary:\n", "\n", false)),
    ("sub_section_related_article_relevance", Lazy("Sub-Section Related Article Relevance:\n", "\n", false)),
    ("sub_section_related_article_source", Lazy("Sub-Section Related Article Source:\n", "\n", false))
  ]

  /** Every field of the list, each the value found in `s` or "". */
  function FieldValues(s: string, fields: seq<(string, Pattern)>): (r: Dict)
    ensures Keys(r) == Keys(fields)
  {
    seq(|fields|, i requires 0 <= i < |fields| => (fields[i].0, FieldValue(s, fields[i].1)))
  }

  /** The section columns, then the sub-section columns: the columns of
      every row. */
  function RowColumns(): seq<string> {
    ["section_no"] + Keys(SectionFields) + ["sub_section_no"] + Keys(SubSectionFields)
  }

  /** `section_data` of a block: None when the block has no section
      number. */
  function SectionData(block: string): Option<Dict> {
    match Search(block, Digits("Section #: "))
    case None => None
    case Some(no) => Some([("section_no", Trim(no))] + FieldValues(block, SectionFields))
  }

  /** `sub_data` of a sub-block: None when it has no sub-section number. */
  function SubSectionData(sub: string): Option<Dict> {
    match Search(sub, Dotted("Sub-Section #: "))
    case None => None
    case Some(no) => Some([("sub_section_no", Trim(no))] + FieldValues(sub, SubSectionFields))
  }

  /** The rows of a section's sub-blocks, in order: `{**section_data,
      **sub_data}` for each sub-block with a sub-section number. */
  function SubRows(sectionData: Dict, subs: seq<string>): seq<Dict>
    decreases |subs|
  {
    if subs == [] then []
    else
      SubRows(sectionData, subs[..|subs| - 1])
      + match SubSectionData(subs[|subs| - 1])
        case None => []
        case Some(sub) => [Merge(sectionData, sub)]
  }

  /** The rows of one section block. */
  function BlockRows(block: string): seq<Dict> {
    match SectionData(block)
    case None => []
    case Some(sd) => SubRows(sd, SplitMarked(block, SubSectionMark))
  }

  /** The rows of the blocks, in order. */
  function RowsOf(blocks: seq<string>): seq<Dict>
    decreases |blocks|
  {
    if blocks == [] then [] else RowsOf(blocks[..|blocks| - 1]) + BlockRows(blocks[|blocks| - 1])
  }

  /** The rows `parse_sections_and_subsections` returns. */
  function SectionRows(text: string): seq<Dict> {
    RowsOf(SplitMarked(text, SectionMark))
  }

  /** `parse_sections_and_subsections` */
  method ParseSectionsAndSubsections(text: string) returns (rows: seq<Dict>)
    ensures rows == SectionRows(text)
  {
    rows := [];
    var sectionBlocks := SplitMarked(text, SectionMark);
    for i := 0 to |sectionBlocks|
      invariant rows == RowsOf(sectionBlocks[..i])
    {
      var blockRows := ParseSectionBlock(sectionBlocks[i]);
      RowsOfSnoc(sectionBlocks, i);
      rows := rows + blockRows;
    }
    assert sectionBlocks[..|sectionBlocks|] == sectionBlocks;
  }

  lemma RowsOfSnoc(blocks: seq<string>, i: nat)
    requires i < |blocks|
    ensures RowsOf(blocks[..i + 1]) == RowsOf(blocks[..i]) + BlockRows(blocks[i])
  {
    assert blocks[..i + 1][..i] == blocks[..i];
  }

  /** One pass of the outer loop: the rows of one section block. */
  method ParseSectionBlock(block: string) returns (rows: seq<Dict>)
    ensures rows == BlockRows(block)
  {
    rows := [];
    var sectionNo := Search(block, Digits("Section #: "));
    if sectionNo.None? {
      return;
    }
    var sectionData := [("section_no", Trim(sectionNo.value))] + FieldValues(block, SectionFields);
    var subBlocks := SplitMarked(block, SubSectionMark);
    rows := ParseSubBlocks(sectionData, subBlocks);
  }

  /** The inner loop: one row per sub-block with a sub-section number. */
  method ParseSubBlocks(sectionData: Dict, subBlocks: seq<string>) returns (rows: seq<Dict>)
    ensures rows == SubRows(sectionData, subBlocks)
  {
    rows := [];
    for j := 0 to |subBlocks|
      invariant rows == SubRows(sectionData, subBlocks[..j])
    {
      SubRowsSnoc(sectionData, subBlocks, j);
      var subNo := Search(subBlocks[j], Dotted("Sub-Section #: "));
      if subNo.Some? {
        var subData := [("sub_section_no", Trim(subNo.value))] + FieldValues(subBlocks[j], SubSectionFields);
        rows := rows + [Merge(sectionData, subData)];
      }
    }
    assert subBlocks[..|subBlocks|] == subBlocks;
  }

  lemma SubRowsSnoc(sectionData: Dict, subs: seq<string>, j: nat)
    requires j < |subs|
    ensures SubRows(sectionData, subs[..j + 1]) == SubRows(sectionData, subs[..j])
      + match SubSectionData(subs[j])
        case None => []
        case Some(sub) => [Merge(sectionData, sub)]
  {
    assert subs[..j + 1][..j] == subs[..j];
  }

  /** The section columns of a row. */
  function SectionColumns(): seq<string> {
    ["section_no"] + Keys(SectionFields)
  }

  /** The sub-section columns of a row. */
  function SubSectionColumns(): seq<string> {
    ["sub_section_no"] + Keys(SubSectionFields)
  }

  lemma SectionColumnsDistinct()
    ensures Distinct(SectionColumns())
  {
  }

  lemma SubSectionColumnsDistinct()
    ensures Distinct(SubSectionColumns())
  {
  }

  /** Section columns start with `se`, sub-section columns with `su`. */
  lemma SectionColumnsPrefix()
    ensures forall i :: 0 <= i < |SectionColumns()| ==>
      |SectionColumns()[i]| > 1 && SectionColumns()[i][0] == 's' && SectionColumns()[i][1] == 'e'
  {
  }

  lemma SubSectionColumnsPrefix()
    ensures forall j :: 0 <= j < |SubSectionColumns()| ==>
      |SubSectionColumns()[j]| > 1 && SubSectionColumns()[j][0] == 's' && SubSectionColumns()[j][1] == 'u'
  {
  }

  /** No column of a row is there twice. */
  lemma RowColumnsDistinct()
    ensures Distinct(SectionColumns()) && Distinct(SubSectionColumns())
    ensures forall i, j :: 0 <= i < |SectionColumns()| && 0 <= j < |SubSectionColumns()| ==>
      SectionColumns()[i] != SubSectionColumns()[j]
    ensures RowColumns() == SectionColumns() + SubSectionColumns()
    ensures Distinct(RowColumns())
    ensures forall i :: 0 <= i < |RowColumns()| ==> RowColumns()[i][0] == 's'
  {
    SectionColumnsDistinct();
    SubSectionColumnsDistinct();
    SectionColumnsPrefix();
    SubSectionColumnsPrefix();
    assert RowColumns() == SectionColumns() + SubSectionColumns();
  }

  /** Every row of a section has the section columns, then the
      sub-section columns. */
  lemma {:induction false} SubRowsColumns(sectionData: Dict, subs: seq<string>)
    requires Keys(sectionData) == SectionColumns()
    ensures forall k :: 0 <= k < |SubRows(sectionData, subs)| ==>
      Keys(SubRows(sectionData, subs)[k]) == RowColumns()
    decreases |subs|
  {
    if subs != [] {
      SubRowsColumns(sectionData, subs[..|subs| - 1]);
      var last := SubSectionData(subs[|subs| - 1]);
      if last.Some? {
        var sub := last.value;
        RowColumnsDistinct();
        assert Keys(sub) == SubSectionColumns();
        forall i | 0 <= i < |sub| ensures sub[i].0 !in Keys(sectionData) {
          assert sub[i].0 == SubSectionColumns()[i];
        }
        MergeDisjoint(sectionData, sub);
        KeysConcat(sectionData, sub);
      }
    }
  }

  /** Every row `parse_sections_and_subsections` returns carries every
      section and sub-section column, in that order; fields not found are
      "". */
  lemma {:induction false} RowsHaveAllColumns(blocks: seq<string>)
    ensures forall k :: 0 <= k < |RowsOf(blocks)| ==> Keys(RowsOf(blocks)[k]) == RowColumns()
    decreases |blocks|
  {
    if blocks != [] {
      RowsHaveAllColumns(blocks[..|blocks| - 1]);
      var block := blocks[|blocks| - 1];
      var sd := SectionData(block);
      if sd.Some? {
        assert Keys(sd.value) == SectionColumns();
        SubRowsColumns(sd.value, SplitMarked(block, SubSectionMark));
      }
    }
  }

  // =====================================================================
  // run_prompt: merging the rows and ordering the columns
  // =====================================================================

  /** The storage path of the content CSV. */
  function CsvPath(runId: string): string {
    "The_Big_Question/Predictive_Report/Ai_Responses/csv_Content/" + runId + ".csv"
  }

  /** The column order: the intro and outro columns in the order the
      dictionary holds them, then the section and sub-section columns. */
  function HeaderOrder(introOutro: Dict): seq<string> {
    Keys(introOutro) + RowColumns()
  }

  /** One CSV row: the row's value in each column, "" where it has none. */
  function CsvRow(header: seq<string>, row: Dict): (r: seq<string>)
    ensures |r| == |header|
  {
    seq(|header|, j requires 0 <= j < |header| =>
      match Get(row, header[j]) case Some(v) => v case None => "")
  }

  /** The rows of the content CSV: the header, then each section row merged
      into the intro and outro values. */
  function ContentTable(formatCombine: string): seq<seq<string>> {
    var rawText := StripExcludedBlocks(formatCombine);
    TableOf(IntroOutroAssets(rawText), SectionRows(rawText))
  }

  /** The header, then each section row merged into the intro and outro
      values. */
  function TableOf(introOutro: Dict, rows: seq<Dict>): seq<seq<string>> {
    var header := HeaderOrder(introOutro);
    [header] + seq(|rows|, k requires 0 <= k < |rows| => CsvRow(header, Merge(introOutro, rows[k])))
  }

  datatype CsvResponse = CsvResponse(runId: string, path: string, table: seq<seq<string>>)

  /** `run_prompt` of the content CSV, with the storage write and read-back
      left out (the table is what is written), `runId` the request's
      `run_id` or a fresh one and `formatCombine` the formatted report ("" when
      missing). */
  method RunCsvContent(formatCombine: string, runId: string) returns (r: CsvResponse)
    ensures r == CsvResponse(runId, CsvPath(runId), ContentTable(formatCombine))
  {
    var rawText := StripExcludedBlocks(formatCombine);
    var introOutro := ExtractIntroOutroAssets(rawText);
    var sectionRows := ParseSectionsAndSubsections(rawText);
    var mergedRows := seq(|sectionRows|, k requires 0 <= k < |sectionRows| => Merge(introOutro, sectionRows[k]));
    var header := Keys(introOutro) + RowColumns();
    var table := [header] + seq(|mergedRows|, k requires 0 <= k < |mergedRows| => CsvRow(header, mergedRows[k]));
    r := CsvResponse(runId, CsvPath(runId), table);
  }

  /** No intro or outro column is a section or sub-section column: the
      former never start with `s`, the latter always do. */
  lemma IntroColumnsApart(c: string)
    requires c in AllColumns()
    ensures c !in RowColumns()
  {
    IntroColumnStart(c);
    RowColumnsDistinct();
  }

  /** An intro or outro column does not start with `s`. */
  lemma IntroColumnStart(c: string)
    requires c in AllColumns()
    ensures |c| > 0 && c[0] != 's'
  {
    var i :| 0 <= i < |AllKeys| && AllColumns()[i] == c;
    var key := AllKeys[i];
    KeyShape(key);
    ColumnNameShape(key);
    assert c[0] == LowerChar(key[0]);
  }

  /** The shape of one intro or outro key. */
  lemma KeyShape(key: string)
    requires key in AllKeys
    ensures |key| >= 2 && key[|key| - 1] == ':' && key[|key| - 2] != ':'
    ensures key[0] != 'S' && key[0] != 's' && key[0] != ' '
  {
    KeysShape();
  }

  lemma KeysShape()
    ensures forall i :: 0 <= i < |AllKeys| ==>
      var k := AllKeys[i];
      |k| >= 2 && k[|k| - 1] == ':' && k[|k| - 2] != ':' && k[0] != 'S' && k[0] != 's' && k[0] != ' '
  {
  }

  /** Every data row of the CSV has one cell per column, and the section
      row it comes from carries every section and sub-section column. */
  lemma ContentTableRowShape(formatCombine: string, k: nat)
    requires 1 <= k < |ContentTable(formatCombine)|
    ensures var rawText := StripExcludedBlocks(formatCombine);
      var introOutro := IntroOutroAssets(rawText);
      var row := ContentTable(formatCombine)[k];
      && |row| == |ContentTable(formatCombine)[0]| == |introOutro| + |RowColumns()|
      && k - 1 < |SectionRows(rawText)|
      && Keys(SectionRows(rawText)[k - 1]) == RowColumns()
  {
    var rawText := StripExcludedBlocks(formatCombine);
    ContentTableRow(formatCombine, k);
    RowsHaveAllColumns(SplitMarked(rawText, SectionMark));
  }

  /** The cells of a data row of the CSV: the intro and outro values first,
      the same in every row, then the row's section and sub-section
      values. */
  lemma ContentTableCells(formatCombine: string, k: nat, j: nat)
    requires 1 <= k < |ContentTable(formatCombine)|
    ensures var rawText := StripExcludedBlocks(formatCombine);
      var introOutro := IntroOutroAssets(rawText);
      var row := ContentTable(formatCombine)[k];
      && k - 1 < |SectionRows(rawText)|
      && |row| == |introOutro| + |SectionRows(rawText)[k - 1]|
      && (j < |introOutro| ==> row[j] == introOutro[j].1)
      && (|introOutro| <= j < |row| ==> row[j] == SectionRows(rawText)[k - 1][j - |introOutro|].1)
  {
    RawTableCells(StripExcludedBlocks(formatCombine), k, j);
  }

  /** The cells of a data row of the table built from the text left once
      the excluded blocks are removed. */
  lemma RawTableCells(rawText: string, k: nat, j: nat)
    requires 1 <= k < |TableOf(IntroOutroAssets(rawText), SectionRows(rawText))|
    ensures var introOutro := IntroOutroAssets(rawText);
      var row := TableOf(introOutro, SectionRows(rawText))[k];
      && k - 1 < |SectionRows(rawText)|
      && |row| == |introOutro| + |SectionRows(rawText)[k - 1]|
      && (j < |introOutro| ==> row[j] == introOutro[j].1)
      && (|introOutro| <= j < |row| ==> row[j] == SectionRows(rawText)[k - 1][j - |introOutro|].1)
  {
    SectionRowApart(rawText, k - 1);
    TableOfCells(IntroOutroAssets(rawText), SectionRows(rawText), k, j);
  }

  /** Row `k` of the CSV is section row `k - 1` merged into the intro and
      outro values, under the header of row 0. */
  lemma ContentTableRow(formatCombine: string, k: nat)
    requires 1 <= k < |ContentTable(formatCombine)|
    ensures var rawText := StripExcludedBlocks(formatCombine);
      var introOutro := IntroOutroAssets(rawText);
      && |ContentTable(formatCombine)| == |SectionRows(rawText)| + 1
      && ContentTable(formatCombine)[0] == HeaderOrder(introOutro)
      && ContentTable(formatCombine)[k]
         == CsvRow(HeaderOrder(introOutro), Merge(introOutro, SectionRows(rawText)[k - 1]))
  {
    var rawText := StripExcludedBlocks(formatCombine);
    TableOfRow(IntroOutroAssets(rawText), SectionRows(rawText), k);
  }

  lemma TableOfRow(introOutro: Dict, rows: seq<Dict>, k: nat)
    requires 1 <= k < |TableOf(introOutro, rows)|
    ensures |TableOf(introOutro, rows)| == |rows| + 1
    ensures TableOf(introOutro, rows)[0] == HeaderOrder(introOutro)
    ensures TableOf(introOutro, rows)[k] == CsvRow(HeaderOrder(introOutro), Merge(introOutro, rows[k - 1]))
  {
  }

  /** The cells of row `k` of a table whose section row shares no column
      with the intro and outro values. */
  lemma TableOfCells(introOutro: Dict, rows: seq<Dict>, k: nat, j: nat)
    requires 1 <= k < |TableOf(introOutro, rows)|
    requires 0 <= k - 1 < |rows| ==> Apart(introOutro, rows[k - 1])
    ensures var row := TableOf(introOutro, rows)[k];
      && k - 1 < |rows|
      && |row| == |introOutro| + |rows[k - 1]|
      && (j < |introOutro| ==> row[j] == introOutro[j].1)
      && (|introOutro| <= j < |row| ==> row[j] == rows[k - 1][j - |introOutro|].1)
  {
    TableOfRow(introOutro, rows, k);
    if j < |introOutro| + |rows[k - 1]| {
      MergedRowCells(introOutro, rows[k - 1], j);
    }
  }

  /** A section row and the intro and outro values have no column in
      common, and neither repeats a column; the header is the columns of
      the one, then those of the other. */
  predicate Apart(introOutro: Dict, sectionRow: Dict) {
    && HeaderOrder(introOutro) == Keys(introOutro) + Keys(sectionRow)
    && Distinct(Keys(introOutro)) && Distinct(Keys(sectionRow))
    && forall i :: 0 <= i < |sectionRow| ==> sectionRow[i].0 !in Keys(introOutro)
  }

  /** Every section row is apart from the intro and outro values. */
  lemma SectionRowApart(rawText: string, k: int)
    ensures 0 <= k < |SectionRows(rawText)| ==> Apart(IntroOutroAssets(rawText), SectionRows(rawText)[k])
  {
    if 0 <= k < |SectionRows(rawText)| {
      SectionRowIsApart(rawText, k);
    }
  }

  lemma SectionRowIsApart(rawText: string, k: nat)
    requires k < |SectionRows(rawText)|
    ensures Apart(IntroOutroAssets(rawText), SectionRows(rawText)[k])
  {
    var introOutro := IntroOutroAssets(rawText);
    var sectionRow := SectionRows(rawText)[k];
    RowsHaveAllColumns(SplitMarked(rawText, SectionMark));
    assert Keys(sectionRow) == RowColumns();
    RowColumnsDistinct();
    IntroOutroColumns(rawText, "");
    forall i | 0 <= i < |sectionRow| ensures sectionRow[i].0 !in Keys(introOutro) {
      assert sectionRow[i].0 in RowColumns();
      if sectionRow[i].0 in Keys(introOutro) {
        IntroOutroColumns(rawText, sectionRow[i].0);
        IntroColumnsApart(sectionRow[i].0);
      }
    }
  }

  /** A row merged from two dictionaries with no key in common, written
      under the keys of both: the cells of the first, then those of the
      second. */
  lemma MergedRowCells(a: Dict, b: Dict, j: nat)
    requires Distinct(Keys(a)) && Distinct(Keys(b))
    requires forall i :: 0 <= i < |b| ==> b[i].0 !in Keys(a)
    requires j < |a| + |b|
    ensures CsvRow(Keys(a) + Keys(b), Merge(a, b))[j] == if j < |a| then a[j].1 else b[j - |a|].1
  {
    MergeDisjoint(a, b);
    var header := Keys(a) + Keys(b);
    if j < |a| {
      GetConcat(a, b, a[j].0);
      GetAt(a, j);
    } else {
      var i := j - |a|;
      assert header[j] == b[i].0;
      GetConcat(a, b, b[i].0);
      GetAt(b, i);
    }
  }
}
