/** The aggregator that merges the four language-model text blocks of a run
    (thinking, section assets, report assets, tables) into one document laid
    out in a fixed template order (Scripts/Predictive_Report/combine.py). */
module Combine {
  import opened Wrappers
  import opened Strings

  /** The two characters backslash and `n` with which a cleaned block joins
      its lines (not a line break). */
  const LiteralNewline: string := "\\n"

  lemma LiteralNewlineChars()
    ensures |LiteralNewline| == 2 && LiteralNewline[0] == '\\' && LiteralNewline[1] == 'n'
    ensures '\n' !in LiteralNewline && '\r' !in LiteralNewline
  {
  }

  // =====================================================================
  // clean_text_block
  // =====================================================================

  /** Every "\r\n" and then every remaining "\r" becomes "\n". */
  function UnifyLineBreaks(text: string): (r: string)
    ensures '\r' !in r
  {
    var once := Replace(text, "\r\n", "\n");
    ReplaceCharRemoves(once, '\r', "\n");
    Replace(once, "\r", "\n")
  }

  /** The trimmed lines that are not blank, in order. */
  function NonBlankTrimmed(lines: seq<string>): (r: seq<string>)
    ensures forall k :: 0 <= k < |r| ==> r[k] != "" && IsTrimmed(r[k])
  {
    if lines == [] then []
    else
      var t := Trim(lines[0]);
      (if t == "" then [] else [t]) + NonBlankTrimmed(lines[1..])
  }

  lemma {:induction false} NonBlankTrimmedFree(lines: seq<string>, d: char)
    requires forall k :: 0 <= k < |lines| ==> d !in lines[k]
    ensures forall k :: 0 <= k < |NonBlankTrimmed(lines)| ==> d !in NonBlankTrimmed(lines)[k]
  {
    if lines != [] {
      TrimKeepsFree(lines[0], d);
      NonBlankTrimmedFree(lines[1..], d);
    }
  }

  /** The lines a block is cleaned into. */
  function CleanLines(text: string): (r: seq<string>)
    ensures forall k :: 0 <= k < |r| ==> r[k] != "" && IsTrimmed(r[k]) && '\n' !in r[k] && '\r' !in r[k]
  {
    var u := UnifyLineBreaks(text);
    var t := Trim(u);
    TrimKeepsFree(u, '\r');
    SplitCharFree(t, '\n');
    SplitKeepsFree(t, "\n", '\r');
    NonBlankTrimmedFree(Split(t, "\n"), '\r');
    NonBlankTrimmedFree(Split(t, "\n"), '\n');
    NonBlankTrimmed(Split(t, "\n"))
  }

  /** `clean_text_block`: the block's non-blank lines, trimmed, on one line
      joined by the two characters backslash and `n`. */
  function CleanTextBlock(text: string): (r: string)
    ensures '\n' !in r && '\r' !in r
  {
    var lines := CleanLines(text);
    LiteralNewlineChars();
    JoinKeepsFree(lines, LiteralNewline, '\n');
    JoinKeepsFree(lines, LiteralNewline, '\r');
    Join(lines, LiteralNewline)
  }

  /** A single line without line breaks and without surrounding blanks
      cleans to itself. */
  lemma CleanLinesOfCleanLine(r: string)
    requires '\n' !in r && '\r' !in r && IsTrimmed(r)
    ensures CleanLines(r) == if r == "" then [] else [r]
  {
    ReplaceAbsent(r, "\r\n", "\n");
    ReplaceAbsent(r, "\r", "\n");
    assert UnifyLineBreaks(r) == r;
    TrimOfTrimmed(r);
    SplitOfCharFree(r, '\n');
    assert Split(Trim(UnifyLineBreaks(r)), "\n") == [r];
    if r == "" {
      assert NonBlankTrimmed([r]) == [] + NonBlankTrimmed([]);
    } else {
      assert [r][1..] == [];
      assert NonBlankTrimmed([r]) == [r] + NonBlankTrimmed([]);
    }
  }

  lemma JoinedLinesTrimmed(ls: seq<string>)
    requires forall k :: 0 <= k < |ls| ==> ls[k] != "" && IsTrimmed(ls[k])
    ensures IsTrimmed(Join(ls, LiteralNewline))
  {
    if ls != [] {
      JoinEnds(ls, LiteralNewline);
      assert ls[0] != "" && IsTrimmed(ls[0]);
      assert ls[|ls| - 1] != "" && IsTrimmed(ls[|ls| - 1]);
    }
  }

  /** Cleaning a cleaned block changes nothing. */
  lemma CleanTextBlockIdempotent(text: string)
    ensures CleanTextBlock(CleanTextBlock(text)) == CleanTextBlock(text)
  {
    var r := CleanTextBlock(text);
    JoinedLinesTrimmed(CleanLines(text));
    CleanLinesOfCleanLine(r);
    if r != "" {
      assert Join([r], LiteralNewline) == r;
    }
  }

  // =====================================================================
  // normalise_key
  // =====================================================================

  /** `normalise_key`: every "MakeUp" becomes "Makeup". */
  function NormaliseKey(key: string): (r: string)
    ensures !Occurs(r, "MakeUp")
  {
    NoMakeUpAfterReplace(key);
    Replace(key, "MakeUp", "Makeup")
  }

  /** A prefix of the replaced text that holds no `M` was already in the
      original text. */
  lemma {:induction false} ReplacedPrefix(t: string, w: string)
    ensures StartsWith(Replace(t, "MakeUp", "Makeup"), w) && 'M' !in w ==> StartsWith(t, w)
    decreases |t|
  {
    var r := Replace(t, "MakeUp", "Makeup");
    if w != [] && |t| >= 6 {
      if t[..6] == "MakeUp" {
        assert r[0] == 'M';
      } else {
        var r' := Replace(t[1..], "MakeUp", "Makeup");
        assert r == [t[0]] + r';
        ReplacedPrefix(t[1..], w[1..]);
        if StartsWith(r, w) {
          assert StartsWith(r', w[1..]);
        }
        if 'M' !in w {
          assert 'M' !in w[1..];
        }
      }
    }
  }

  lemma {:induction false} NoMakeUpAfterReplace(s: string)
    ensures !Occurs(Replace(s, "MakeUp", "Makeup"), "MakeUp")
    decreases |s|
  {
    var r := Replace(s, "MakeUp", "Makeup");
    if |s| < 6 {
    } else if s[..6] == "MakeUp" {
      var r' := Replace(s[6..], "MakeUp", "Makeup");
      NoMakeUpAfterReplace(s[6..]);
      assert r == "Makeup" + r';
      forall i | 0 <= i <= |r| - 6 ensures !StartsWith(r[i..], "MakeUp") {
        if i == 0 {
          assert r[4] == 'u';
        } else if i < 6 {
          assert r[i] == "Makeup"[i];
        } else {
          assert r[i..] == r'[i - 6..];
        }
      }
    } else {
      var r' := Replace(s[1..], "MakeUp", "Makeup");
      NoMakeUpAfterReplace(s[1..]);
      assert r == [s[0]] + r';
      forall i | 0 <= i <= |r| - 6 ensures !StartsWith(r[i..], "MakeUp") {
        if i == 0 {
          if StartsWith(r, "MakeUp") {
            assert r'[..5] == r[1..6] == "MakeUp"[1..];
            assert StartsWith(r', "akeUp");
            ReplacedPrefix(s[1..], "akeUp");
            assert false;
          }
        } else {
          assert r[i..] == r'[i - 1..];
        }
      }
    }
  }

  /** A text without "MakeUp" is left alone by a replacement of it. */
  lemma {:induction false} ReplaceNotOccurring(s: string, pat: string, rep: string)
    requires |pat| > 0 && !Occurs(s, pat)
    ensures Replace(s, pat, rep) == s
    decreases |s|
  {
    if |s| >= |pat| {
      assert s[..|pat|] != pat by { assert !StartsWith(s[0..], pat); }
      assert !Occurs(s[1..], pat) by {
        forall i | 0 <= i <= |s[1..]| - |pat| ensures !StartsWith(s[1..][i..], pat) {
          assert s[1..][i..] == s[i + 1..];
        }
      }
      ReplaceNotOccurring(s[1..], pat, rep);
      assert [s[0]] + s[1..] == s;
    }
  }

  /** Normalising twice is normalising once. */
  lemma NormaliseKeyIdempotent(key: string)
    ensures NormaliseKey(NormaliseKey(key)) == NormaliseKey(key)
  {
    ReplaceNotOccurring(NormaliseKey(key), "MakeUp", "Makeup");
  }

  /** Behind any prefix without `M` (such as "Section " or "Sub-Section "),
      the spellings "MakeUp" and "Makeup" give the same key. */
  lemma NormaliseKeySpellings(prefix: string)
    requires 'M' !in prefix
    ensures NormaliseKey(prefix + "MakeUp") == prefix + "Makeup"
    ensures NormaliseKey(prefix + "Makeup") == prefix + "Makeup"
  {
    ReplacePrefixFree(prefix, "MakeUp", "MakeUp", "Makeup");
    ReplacePrefixFree(prefix, "Makeup", "MakeUp", "Makeup");
    assert Replace("MakeUp", "MakeUp", "Makeup") == "Makeup" + Replace("", "MakeUp", "Makeup");
    assert "Makeup"[..6] != "MakeUp" by { assert "Makeup"[4] != "MakeUp"[4]; }
    ReplaceAbsent("akeup", "MakeUp", "Makeup");
    assert "Makeup"[1..] == "akeup";
  }

  lemma SectionMakeupKeysAgree()
    ensures NormaliseKey("Section MakeUp") == NormaliseKey("Section Makeup") == "Section Makeup"
    ensures NormaliseKey("Sub-Section MakeUp") == NormaliseKey("Sub-Section Makeup") == "Sub-Section Makeup"
  {
    assert 'M' !in "Section " by {
      forall i | 0 <= i < |"Section "| ensures "Section "[i] != 'M' { }
    }
    assert 'M' !in "Sub-Section " by {
      forall i | 0 <= i < |"Sub-Section "| ensures "Sub-Section "[i] != 'M' { }
    }
    NormaliseKeySpellings("Section ");
    NormaliseKeySpellings("Sub-Section ");
    assert "Section " + "MakeUp" == "Section MakeUp";
    assert "Section " + "Makeup" == "Section Makeup";
    assert "Sub-Section " + "MakeUp" == "Sub-Section MakeUp";
    assert "Sub-Section " + "Makeup" == "Sub-Section Makeup";
  }

  // =====================================================================
  // Lines of a cleaned block, markers and key/value lines
  // =====================================================================

  /** `block.split('\\n')`: the lines of a cleaned block. */
  function BlockLines(block: string): seq<string> {
    Split(block, LiteralNewline)
  }

  /** The number of a marker line `prefix` followed by a digit: the first
      run of digits after the prefix (the prefixes hold no digits). */
  function MarkerNumber(line: string, prefix: string): Option<nat> {
    if StartsWith(line, prefix) && |line| > |prefix| && IsDigit(line[|prefix|]) then
      var rest := line[|prefix|..];
      Some(DigitsValue(rest[..DigitRunLength(rest)]))
    else None
  }

  /** `^Section \d+` */
  function SectionMarker(line: string): Option<nat> {
    MarkerNumber(line, "Section ")
  }

  /** `^Sub-Section \d+` */
  function SubSectionMarker(line: string): Option<nat> {
    MarkerNumber(line, "Sub-Section ")
  }

  /** The key of `key: value`: the text before the first colon, trimmed and
      normalised. */
  function KeyOf(line: string): string {
    NormaliseKey(Trim(line[..IndexOf(line, ':')]))
  }

  /** The value of `key: value`: the text after the first colon, trimmed. */
  function ValueOf(line: string): string
    requires ':' in line
  {
    Trim(line[IndexOf(line, ':') + 1..])
  }

  // =====================================================================
  // parse_hierarchical_blocks
  // =====================================================================

  /** A section's own fields and its sub-sections' fields. */
  datatype SectionData = SectionData(meta: map<string, string>, subsections: map<nat, map<string, string>>)

  type Structure = map<nat, SectionData>

  /** The parser's state: the current section, the current sub-section and
      the structure built so far. */
  datatype HierState = HierState(section: Option<nat>, sub: Option<nat>, structure: Structure)

  const HierStart := HierState(None, None, map[])

  /** `structure[section]["meta"][key] = value`, or the same under
      `["subsections"][sub]`; missing entries are created empty first. */
  function Store(structure: Structure, section: nat, sub: Option<nat>, key: string, value: string): (r: Structure)
    ensures r.Keys == structure.Keys + {section}
  {
    var sd := if section in structure then structure[section] else SectionData(map[], map[]);
    match sub
    case None => structure[section := sd.(meta := sd.meta[key := value])]
    case Some(n) =>
      var fields := if n in sd.subsections then sd.subsections[n] else map[];
      structure[section := sd.(subsections := sd.subsections[n := fields[key := value]])]
  }

  /** The value stored for `key` in a section's meta (`sub` = None) or in one
      of its sub-sections. */
  function Lookup(structure: Structure, section: nat, sub: Option<nat>, key: string): Option<string> {
    if section !in structure then None
    else
      var sd := structure[section];
      match sub
      case None => if key in sd.meta then Some(sd.meta[key]) else None
      case Some(n) =>
        if n in sd.subsections && key in sd.subsections[n] then Some(sd.subsections[n][key]) else None
  }

  /** A store sets exactly the one field it names. */
  lemma StoreLookup(structure: Structure, section: nat, sub: Option<nat>, key: string, value: string,
                    section': nat, sub': Option<nat>, key': string)
    ensures Lookup(Store(structure, section, sub, key, value), section', sub', key')
         == if section == section' && sub == sub' && key == key' then Some(value)
            else Lookup(structure, section', sub', key')
  {
  }

  /** A line that is neither marker but holds a colon: a field. */
  predicate IsFieldLine(line: string) {
    SectionMarker(line).None? && SubSectionMarker(line).None? && ':' in line
  }

  /** One line of `parse_hierarchical_blocks`. */
  function HierStep(st: HierState, line: string): HierState {
    if SectionMarker(line).Some? then
      st.(section := SectionMarker(line), sub := None)
    else if SubSectionMarker(line).Some? then
      st.(sub := SubSectionMarker(line))
    else if ':' in line && st.section.Some? then
      st.(structure := Store(st.structure, st.section.value, st.sub, KeyOf(line), ValueOf(line)))
    else st
  }

  /** The state after the lines, in order, starting from `st`. */
  function HierRun(st: HierState, lines: seq<string>): HierState
    decreases |lines|
  {
    if lines == [] then st
    else HierStep(HierRun(st, lines[..|lines| - 1]), lines[|lines| - 1])
  }

  /** The state after the blocks, in order; the current section and
      sub-section carry over from one block to the next. */
  function HierBlocks(blocks: seq<string>): HierState
    decreases |blocks|
  {
    if blocks == [] then HierStart
    else HierRun(HierBlocks(blocks[..|blocks| - 1]), BlockLines(blocks[|blocks| - 1]))
  }

  /** `parse_hierarchical_blocks` */
  method ParseHierarchicalBlocks(blocks: seq<string>) returns (structure: Structure)
    ensures structure == HierBlocks(blocks).structure
  {
    structure := map[];
    var currentSection: Option<nat> := None;
    var currentSub: Option<nat> := None;
    var b := 0;
    while b < |blocks|
      invariant 0 <= b <= |blocks|
      invariant HierState(currentSection, currentSub, structure) == HierBlocks(blocks[..b])
    {
      var lines := BlockLines(blocks[b]);
      ghost var before := HierBlocks(blocks[..b]);
      var i := 0;
      while i < |lines|
        invariant 0 <= i <= |lines|
        invariant HierState(currentSection, currentSub, structure) == HierRun(before, lines[..i])
      {
        var line := lines[i];
        if SectionMarker(line).Some? {
          currentSection := SectionMarker(line);
          currentSub := None;
        } else if SubSectionMarker(line).Some? {
          currentSub := SubSectionMarker(line);
        } else if ':' in line {
          var key := KeyOf(line);
          var value := ValueOf(line);
          if currentSection.Some? {
            structure := Store(structure, currentSection.value, currentSub, key, value);
          }
        }
        assert lines[..i + 1][..i] == lines[..i];
        i := i + 1;
      }
      assert lines[..i] == lines;
      assert blocks[..b + 1][..b] == blocks[..b];
      b := b + 1;
    }
    assert blocks[..b] == blocks;
  }

  /** Running two stretches of lines one after the other is running their
      concatenation. */
  lemma {:induction false} HierRunAppend(st: HierState, a: seq<string>, b: seq<string>)
    ensures HierRun(st, a + b) == HierRun(HierRun(st, a), b)
    decreases |b|
  {
    if b == [] {
      assert a + b == a;
    } else {
      HierRunAppend(st, a, b[..|b| - 1]);
      assert (a + b)[..|a + b| - 1] == a + b[..|b| - 1];
    }
  }

  /** All lines of the blocks, in order. */
  function AllLines(blocks: seq<string>): seq<string>
    decreases |blocks|
  {
    if blocks == [] then [] else AllLines(blocks[..|blocks| - 1]) + BlockLines(blocks[|blocks| - 1])
  }

  /** Parsing block after block is parsing all their lines as one run: the
      parser carries its current section and sub-section across blocks. */
  lemma {:induction false} HierBlocksIsOneRun(blocks: seq<string>)
    ensures HierBlocks(blocks) == HierRun(HierStart, AllLines(blocks))
    decreases |blocks|
  {
    if blocks != [] {
      var init := blocks[..|blocks| - 1];
      HierBlocksIsOneRun(init);
      HierRunAppend(HierStart, AllLines(init), BlockLines(blocks[|blocks| - 1]));
    }
  }

  /** The cursor (section, sub-section) in force before line `i`. */
  function CursorBefore(lines: seq<string>, i: nat): (Option<nat>, Option<nat>)
    requires i <= |lines|
  {
    var st := HierRun(HierStart, lines[..i]);
    (st.section, st.sub)
  }

  /** Line `i` is a field line for `key` read while the cursor stands at
      section `section` and sub-section `sub`. */
  predicate WritesField(lines: seq<string>, i: nat, section: nat, sub: Option<nat>, key: string)
    requires i < |lines|
  {
    IsFieldLine(lines[i]) && KeyOf(lines[i]) == key && CursorBefore(lines, i) == (Some(section), sub)
  }

  /** No line after `i` writes the same field. */
  predicate LastWrite(lines: seq<string>, i: nat, section: nat, sub: Option<nat>, key: string)
    requires i < |lines|
  {
    WritesField(lines, i, section, sub, key)
    && forall j :: i < j < |lines| ==> !WritesField(lines, j, section, sub, key)
  }

  lemma WritesFieldPrefix(lines: seq<string>, n: nat, i: nat, section: nat, sub: Option<nat>, key: string)
    requires i < n <= |lines|
    ensures WritesField(lines[..n], i, section, sub, key) == WritesField(lines, i, section, sub, key)
  {
    assert lines[..n][..i] == lines[..i];
  }

  lemma WritesFieldPrefixAll(lines: seq<string>, n: nat, section: nat, sub: Option<nat>, key: string)
    requires n <= |lines|
    ensures forall i :: 0 <= i < n ==>
      WritesField(lines[..n], i, section, sub, key) == WritesField(lines, i, section, sub, key)
  {
    forall i | 0 <= i < n
      ensures WritesField(lines[..n], i, section, sub, key) == WritesField(lines, i, section, sub, key)
    {
      WritesFieldPrefix(lines, n, i, section, sub, key);
    }
  }

  /** A last write in all lines but the last stays the last write when the
      last line does not write the field. */
  lemma LastWriteExtends(lines: seq<string>, i: nat, section: nat, sub: Option<nat>, key: string)
    requires i < |lines| - 1
    requires LastWrite(lines[..|lines| - 1], i, section, sub, key)
    requires !WritesField(lines, |lines| - 1, section, sub, key)
    ensures LastWrite(lines, i, section, sub, key)
  {
    var n := |lines| - 1;
    assert WritesField(lines, i, section, sub, key) by {
      WritesFieldPrefix(lines, n, i, section, sub, key);
    }
    forall j | i < j < |lines| ensures !WritesField(lines, j, section, sub, key) {
      if j < n {
        assert !WritesField(lines[..n], j, section, sub, key);
        WritesFieldPrefix(lines, n, j, section, sub, key);
      }
    }
  }

  /** The index of the last line that writes the field, if any. */
  function LastWriter(lines: seq<string>, section: nat, sub: Option<nat>, key: string): (r: Option<nat>)
    ensures r.Some? ==> r.value < |lines| && LastWrite(lines, r.value, section, sub, key)
    ensures r.None? ==> forall i :: 0 <= i < |lines| ==> !WritesField(lines, i, section, sub, key)
    decreases |lines|
  {
    if lines == [] then None
    else
      var n := |lines| - 1;
      if WritesField(lines, n, section, sub, key) then Some(n)
      else
        WritesFieldPrefixAll(lines, n, section, sub, key);
        var w := LastWriter(lines[..n], section, sub, key);
        if w.Some? then
          LastWriteExtends(lines, w.value, section, sub, key);
          w
        else w
  }

  /** What the parser stores: a field holds the value of the last field line
      for that key read under that section and sub-section; a key never
      written there is absent (so field lines read before any section marker
      leave nothing). */
  lemma {:induction false} StoredIsLastWrite(lines: seq<string>, section: nat, sub: Option<nat>, key: string)
    ensures var w := LastWriter(lines, section, sub, key);
      Lookup(HierRun(HierStart, lines).structure, section, sub, key)
      == if w.Some? then Some(ValueOf(lines[w.value])) else None
    decreases |lines|
  {
    if lines != [] {
      var n := |lines| - 1;
      StoredIsLastWrite(lines[..n], section, sub, key);
      LastLineLookup(lines, section, sub, key);
      if !WritesField(lines, n, section, sub, key) {
        var w := LastWriter(lines[..n], section, sub, key);
        if w.Some? {
          assert lines[..n][w.value] == lines[w.value];
        }
      }
    }
  }

  /** The last line either writes the field or leaves it as it was. */
  lemma LastLineLookup(lines: seq<string>, section: nat, sub: Option<nat>, key: string)
    requires lines != []
    ensures var n := |lines| - 1;
      Lookup(HierRun(HierStart, lines).structure, section, sub, key)
      == if WritesField(lines, n, section, sub, key) then Some(ValueOf(lines[n]))
         else Lookup(HierRun(HierStart, lines[..n]).structure, section, sub, key)
  {
    var n := |lines| - 1;
    var st := HierRun(HierStart, lines[..n]);
    var x := lines[n];
    assert HierRun(HierStart, lines) == HierStep(st, x);
    HierStepLookup(st, x, section, sub, key);
  }

  lemma HierStepLookup(st: HierState, x: string, section: nat, sub: Option<nat>, key: string)
    ensures Lookup(HierStep(st, x).structure, section, sub, key)
      == if IsFieldLine(x) && KeyOf(x) == key && st.section == Some(section) && st.sub == sub
         then Some(ValueOf(x)) else Lookup(st.structure, section, sub, key)
  {
    if IsFieldLine(x) && st.section.Some? {
      StoreLookup(st.structure, st.section.value, st.sub, KeyOf(x), ValueOf(x), section, sub, key);
    }
  }

  /** Field lines before the first section marker leave no trace, whatever
      sub-section markers they hold. */
  lemma {:induction false} BeforeFirstSectionDiscarded(pre: seq<string>, rest: seq<string>)
    requires forall k :: 0 <= k < |pre| ==> SectionMarker(pre[k]).None?
    requires rest != [] && SectionMarker(rest[0]).Some?
    ensures HierRun(HierStart, pre + rest) == HierRun(HierStart, rest)
  {
    NoSectionYet(pre);
    var mid := HierRun(HierStart, pre);
    HierRunAppend(HierStart, pre, rest);
    HierRunAppend(mid, [rest[0]], rest[1..]);
    HierRunAppend(HierStart, [rest[0]], rest[1..]);
    assert [rest[0]] + rest[1..] == rest;
    assert [rest[0]][..0] == [];
    assert HierRun(mid, [rest[0]]) == HierRun(HierStart, [rest[0]]);
  }

  lemma {:induction false} NoSectionYet(pre: seq<string>)
    requires forall k :: 0 <= k < |pre| ==> SectionMarker(pre[k]).None?
    ensures HierRun(HierStart, pre).section.None? && HierRun(HierStart, pre).structure == map[]
    decreases |pre|
  {
    if pre != [] {
      NoSectionYet(pre[..|pre| - 1]);
    }
  }

  /** A section marker opens that section with no sub-section; a
      sub-section marker changes only the sub-section; neither stores. */
  lemma MarkersMoveTheCursor(st: HierState, line: string)
    ensures SectionMarker(line).Some? ==>
      HierStep(st, line) == HierState(SectionMarker(line), None, st.structure)
    ensures SectionMarker(line).None? && SubSectionMarker(line).Some? ==>
      HierStep(st, line) == HierState(st.section, SubSectionMarker(line), st.structure)
  {
  }

  // =====================================================================
  // parse_section_tables
  // =====================================================================

  /** `^[A-Z][A-Za-z \-]+:$`: a capitalised heading such as "Energy Costs:". */
  predicate IsTableHeading(line: string) {
    |line| >= 3 && IsUpperChar(line[0]) && line[|line| - 1] == ':'
    && forall i :: 1 <= i < |line| - 1 ==> IsLetter(line[i]) || line[i] == ' ' || line[i] == '-'
  }

  /** The heading's title: `line.strip(':')`. */
  function HeadingTitle(line: string): (t: string)
    requires IsTableHeading(line)
    ensures t == line[..|line| - 1] && |t| >= 2
  {
    var t := StripChar(line, ':');
    assert StripStartChar(line, ':') == line;
    assert StripEndChar(line[..|line| - 1], ':') == line[..|line| - 1];
    t
  }

  function LinesOf(tables: map<string, seq<string>>, title: string): seq<string> {
    if title in tables then tables[title] else []
  }

  datatype TablesState = TablesState(title: Option<string>, tables: map<string, seq<string>>)

  const TablesStart := TablesState(None, map[])

  /** One line of `parse_section_tables`. */
  function TablesStep(st: TablesState, line: string): TablesState {
    if IsTableHeading(line) then st.(title := Some(HeadingTitle(line)))
    else if st.title.Some? && st.title.value != "" then
      st.(tables := st.tables[st.title.value := LinesOf(st.tables, st.title.value) + [line]])
    else st
  }

  function TablesRun(st: TablesState, lines: seq<string>): TablesState
    decreases |lines|
  {
    if lines == [] then st
    else TablesStep(TablesRun(st, lines[..|lines| - 1]), lines[|lines| - 1])
  }

  /** `parse_section_tables`: only the tables block is read. */
  method ParseSectionTables(tablesBlock: string) returns (tables: map<string, seq<string>>)
    ensures tables == TablesRun(TablesStart, BlockLines(tablesBlock)).tables
  {
    var lines := BlockLines(tablesBlock);
    tables := map[];
    var currentTitle: Option<string> := None;
    var i := 0;
    while i < |lines|
      invariant 0 <= i <= |lines|
      invariant TablesState(currentTitle, tables) == TablesRun(TablesStart, lines[..i])
    {
      var line := lines[i];
      if IsTableHeading(line) {
        currentTitle := Some(HeadingTitle(line));
      } else if currentTitle.Some? && currentTitle.value != "" {
        tables := tables[currentTitle.value := LinesOf(tables, currentTitle.value) + [line]];
      }
      assert lines[..i + 1][..i] == lines[..i];
      i := i + 1;
    }
    assert lines[..i] == lines;
  }

  lemma {:induction false} TablesRunAppend(st: TablesState, a: seq<string>, b: seq<string>)
    ensures TablesRun(st, a + b) == TablesRun(TablesRun(st, a), b)
    decreases |b|
  {
    if b == [] {
      assert a + b == a;
    } else {
      TablesRunAppend(st, a, b[..|b| - 1]);
      assert (a + b)[..|a + b| - 1] == a + b[..|b| - 1];
    }
  }

  /** Lines before the first heading are dropped. */
  lemma {:induction false} TablesBeforeHeadingDropped(pre: seq<string>, rest: seq<string>)
    requires forall k :: 0 <= k < |pre| ==> !IsTableHeading(pre[k])
    ensures TablesRun(TablesStart, pre + rest) == TablesRun(TablesStart, rest)
  {
    NoHeadingNoTable(pre);
    TablesRunAppend(TablesStart, pre, rest);
  }

  lemma {:induction false} NoHeadingNoTable(pre: seq<string>)
    requires forall k :: 0 <= k < |pre| ==> !IsTableHeading(pre[k])
    ensures TablesRun(TablesStart, pre) == TablesStart
    decreases |pre|
  {
    if pre != [] {
      NoHeadingNoTable(pre[..|pre| - 1]);
    }
  }

  /** The lines after a heading, up to the next heading, are appended in
      order to that heading's table. */
  lemma {:induction false} TableBodyAppended(st: TablesState, heading: string, body: seq<string>)
    requires IsTableHeading(heading)
    requires forall k :: 0 <= k < |body| ==> !IsTableHeading(body[k])
    ensures var t := HeadingTitle(heading);
      TablesRun(st, [heading] + body)
      == TablesState(Some(t), if body == [] then st.tables else st.tables[t := LinesOf(st.tables, t) + body])
    decreases |body|
  {
    var t := HeadingTitle(heading);
    if body == [] {
      assert [heading] + body == [heading];
      assert [heading][..0] == [];
    } else {
      var n := |body| - 1;
      TableBodyAppended(st, heading, body[..n]);
      assert ([heading] + body)[..|[heading] + body| - 1] == [heading] + body[..n];
      var prev := TablesRun(st, [heading] + body[..n]);
      assert TablesRun(st, [heading] + body) == TablesStep(prev, body[n]);
      var old_ := LinesOf(st.tables, t);
      if n > 0 {
        assert prev.tables == st.tables[t := old_ + body[..n]];
        assert LinesOf(prev.tables, t) == old_ + body[..n];
        assert old_ + body[..n] + [body[n]] == old_ + body;
        assert prev.tables[t := old_ + body[..n] + [body[n]]] == st.tables[t := old_ + body];
      } else {
        assert prev.tables == st.tables;
        assert body == [body[n]];
      }
    }
  }

  // =====================================================================
  // extract_key_value_pairs_by_block
  // =====================================================================

  /** `^[A-Z][A-Za-z\s\-&]+:$`: a heading inside "Section Tables". */
  predicate IsScopedTableHeading(line: string) {
    |line| >= 3 && IsUpperChar(line[0]) && line[|line| - 1] == ':'
    && forall i :: 1 <= i < |line| - 1 ==>
         IsLetter(line[i]) || IsSpace(line[i]) || line[i] == '-' || line[i] == '&'
  }

  /** One heading of a block's "Section Tables" content and its lines, kept
      in the order the headings first received a line. */
  datatype TableEntry = TableEntry(heading: string, lines: seq<string>)

  /** `section_table_content[heading].append(line)` on an insertion-ordered
      dictionary. */
  function AppendEntry(entries: seq<TableEntry>, heading: string, line: string): (r: seq<TableEntry>)
    ensures |r| == |entries| || |r| == |entries| + 1
  {
    if entries == [] then [TableEntry(heading, [line])]
    else if entries[0].heading == heading then [entries[0].(lines := entries[0].lines + [line])] + entries[1..]
    else [entries[0]] + AppendEntry(entries[1..], heading, line)
  }

  /** Each heading followed by its lines. */
  function FormatEntries(entries: seq<TableEntry>): seq<string> {
    if entries == [] then []
    else [entries[0].heading + ":"] + entries[0].lines + FormatEntries(entries[1..])
  }

  /** The value a key is committed with: its lines joined by backslash-n and
      trimmed. */
  function Joined(value: seq<string>): string {
    Trim(Join(value, LiteralNewline))
  }

  /** Committing the current key, when there is one (an empty key counts as
      none, as in the source's truth test). */
  function Commit(pairs: map<string, string>, key: string, value: seq<string>): map<string, string> {
    if key != "" then pairs[key := Joined(value)] else pairs
  }

  /** The scanner's state. `heading` (the current section-table heading)
      survives from block to block; `failed` records that a table line came
      before any heading, where the source reads an unbound variable. */
  datatype KvState = KvState(
    failed: bool,
    pairs: map<string, string>,
    heading: Option<string>,
    key: string,
    value: seq<string>,
    inReport: bool,
    inTables: bool,
    entries: seq<TableEntry>)

  const KvStart := KvState(false, map[], None, "", [], false, false, [])

  /** One line of `extract_key_value_pairs_by_block`. */
  function KvStep(st: KvState, line: string): KvState {
    if st.failed then st
    else if StartsWith(line, "Report Table:") then
      st.(pairs := Commit(st.pairs, st.key, st.value), key := "Report Table", value := [],
          inReport := true, inTables := false)
    else if StartsWith(line, "Section Tables:") then
      st.(pairs := Commit(st.pairs, st.key, st.value), key := "", value := [],
          inReport := false, inTables := true)
    else if st.inReport then
      st.(value := st.value + [line])
    else if st.inTables then
      if IsScopedTableHeading(line) then st.(heading := Some(StripEndChar(line, ':')))
      else if st.heading.None? then st.(failed := true)
      else st.(entries := AppendEntry(st.entries, st.heading.value, line))
    else if ':' in line then
      var v := ValueOf(line);
      st.(pairs := Commit(st.pairs, st.key, st.value), key := KeyOf(line),
          value := if v != "" then [v] else [])
    else if st.key != "" then
      st.(value := st.value + [Trim(line)])
    else st
  }

  function KvRun(st: KvState, lines: seq<string>): KvState
    decreases |lines|
  {
    if lines == [] then st
    else KvStep(KvRun(st, lines[..|lines| - 1]), lines[|lines| - 1])
  }

  /** Per-block variables start afresh; the pairs and the table heading do
      not. */
  function KvBeginBlock(st: KvState): KvState {
    st.(key := "", value := [], inReport := false, inTables := false, entries := [])
  }

  /** The commits at the end of a block. */
  function KvEndBlock(st: KvState): KvState {
    if st.failed then st
    else
      var p1 := if st.key != "" && !st.inReport && !st.inTables then Commit(st.pairs, st.key, st.value)
                else st.pairs;
      var p2 := if st.inReport then p1["Report Table" := Joined(st.value)] else p1;
      var p3 := if st.inTables then p2["Section Tables" := Join(FormatEntries(st.entries), LiteralNewline)]
                else p2;
      st.(pairs := p3)
  }

  function KvBlock(st: KvState, block: string): KvState {
    KvEndBlock(KvRun(KvBeginBlock(st), BlockLines(block)))
  }

  function KvBlocks(blocks: seq<string>): KvState
    decreases |blocks|
  {
    if blocks == [] then KvStart else KvBlock(KvBlocks(blocks[..|blocks| - 1]), blocks[|blocks| - 1])
  }

  /** The message of the error raised when a table line precedes every
      heading. */
  const UnboundHeading := "cannot access local variable 'current_section' where it is not associated with a value"

  /** One block of `extract_key_value_pairs_by_block`: `failed` when a table
      line comes before every heading, otherwise the pairs and the heading
      after the block. */
  method ExtractBlock(ghost st: KvState, pairs0: map<string, string>, heading0: Option<string>, block: string)
    returns (failed: bool, pairs: map<string, string>, heading: Option<string>)
    requires !st.failed && st.pairs == pairs0 && st.heading == heading0
    ensures failed == KvBlock(st, block).failed
    ensures !failed ==> KvBlock(st, block).pairs == pairs && KvBlock(st, block).heading == heading
  {
    pairs, heading := pairs0, heading0;
    var lines := BlockLines(block);
    ghost var start := KvBeginBlock(st);
    var currentKey := "";
    var currentValue: seq<string> := [];
    var insideReportTable := false;
    var insideSectionTables := false;
    var entries: seq<TableEntry> := [];
    var i := 0;
    while i < |lines|
      invariant 0 <= i <= |lines|
      invariant KvRun(start, lines[..i])
             == KvState(false, pairs, heading, currentKey, currentValue, insideReportTable,
                        insideSectionTables, entries)
    {
      var line := lines[i];
      assert lines[..i + 1][..i] == lines[..i];
      assert KvRun(start, lines[..i + 1])
          == KvStep(KvState(false, pairs, heading, currentKey, currentValue, insideReportTable,
                            insideSectionTables, entries), line);
      if StartsWith(line, "Report Table:") {
        pairs := Commit(pairs, currentKey, currentValue);
        currentKey := "Report Table";
        currentValue := [];
        insideReportTable := true;
        insideSectionTables := false;
      } else if StartsWith(line, "Section Tables:") {
        pairs := Commit(pairs, currentKey, currentValue);
        currentKey := "";
        insideReportTable := false;
        insideSectionTables := true;
        currentValue := [];
      } else if insideReportTable {
        currentValue := currentValue + [line];
      } else if insideSectionTables {
        if IsScopedTableHeading(line) {
          heading := Some(StripEndChar(line, ':'));
        } else if heading.None? {
          KvFailedPrefix(start, lines[..i + 1], lines);
          return true, pairs, heading;
        } else {
          entries := AppendEntry(entries, heading.value, line);
        }
      } else if ':' in line {
        var key := KeyOf(line);
        var value := ValueOf(line);
        pairs := Commit(pairs, currentKey, currentValue);
        currentKey := key;
        currentValue := if value != "" then [value] else [];
      } else if currentKey != "" {
        currentValue := currentValue + [Trim(line)];
      }
      i := i + 1;
    }
    assert lines[..i] == lines;
    if currentKey != "" && !insideReportTable && !insideSectionTables {
      pairs := pairs[currentKey := Joined(currentValue)];
    }
    if insideReportTable {
      pairs := pairs["Report Table" := Joined(currentValue)];
    }
    if insideSectionTables {
      pairs := pairs["Section Tables" := Join(FormatEntries(entries), LiteralNewline)];
    }
    failed := false;
  }

  /** `extract_key_value_pairs_by_block` */
  method ExtractKeyValuePairs(blocks: seq<string>) returns (r: Result<map<string, string>>)
    ensures KvBlocks(blocks).failed ==> r == Err(UnboundHeading)
    ensures !KvBlocks(blocks).failed ==> r == Ok(KvBlocks(blocks).pairs)
  {
    var pairs: map<string, string> := map[];
    var heading: Option<string> := None;
    var b := 0;
    while b < |blocks|
      invariant 0 <= b <= |blocks|
      invariant !KvBlocks(blocks[..b]).failed
      invariant KvBlocks(blocks[..b]).pairs == pairs && KvBlocks(blocks[..b]).heading == heading
    {
      var failed;
      failed, pairs, heading := ExtractBlock(KvBlocks(blocks[..b]), pairs, heading, blocks[b]);
      KvBlocksStep(blocks, b);
      if failed {
        KvBlocksFailedStays(blocks, b + 1);
        return Err(UnboundHeading);
      }
      b := b + 1;
    }
    assert blocks[..b] == blocks;
    r := Ok(pairs);
  }

  /** The blocks up to `b` are those before it, then block `b`. */
  lemma KvBlocksStep(blocks: seq<string>, b: nat)
    requires b < |blocks|
    ensures KvBlocks(blocks[..b + 1]) == KvBlock(KvBlocks(blocks[..b]), blocks[b])
  {
    var prefix := blocks[..b + 1];
    assert prefix[..b] == blocks[..b] && prefix[b] == blocks[b];
  }

  lemma {:induction false} KvRunAppend(st: KvState, a: seq<string>, b: seq<string>)
    ensures KvRun(st, a + b) == KvRun(KvRun(st, a), b)
    decreases |b|
  {
    if b == [] {
      assert a + b == a;
    } else {
      KvRunAppend(st, a, b[..|b| - 1]);
      assert (a + b)[..|a + b| - 1] == a + b[..|b| - 1];
    }
  }

  lemma {:induction false} KvFailedStays(st: KvState, lines: seq<string>)
    requires st.failed
    ensures KvRun(st, lines) == st
    decreases |lines|
  {
    if lines != [] {
      KvFailedStays(st, lines[..|lines| - 1]);
    }
  }

  lemma {:induction false} KvBlocksFailedStays(blocks: seq<string>, n: nat)
    requires n <= |blocks| && KvBlocks(blocks[..n]).failed
    ensures KvBlocks(blocks).failed
    decreases |blocks| - n
  {
    if n < |blocks| {
      assert blocks[..n + 1][..n] == blocks[..n];
      KvFailedStays(KvBeginBlock(KvBlocks(blocks[..n])), BlockLines(blocks[n]));
      KvBlocksFailedStays(blocks, n + 1);
    } else {
      assert blocks[..n] == blocks;
    }
  }

  /** A failure in the first lines of a run is its outcome. */
  lemma KvFailedPrefix(st: KvState, done: seq<string>, lines: seq<string>)
    requires |done| <= |lines| && done == lines[..|done|]
    requires KvRun(st, done).failed
    ensures KvRun(st, lines).failed
  {
    var rest := lines[|done|..];
    assert done + rest == lines;
    KvRunAppend(st, done, rest);
    KvFailedStays(KvRun(st, done), rest);
  }

  /** After "Report Table:", every line up to the next "Report Table:" or
      "Section Tables:" line is buffered verbatim and nothing is committed. */
  lemma {:induction false} ReportTableBuffersVerbatim(st: KvState, lines: seq<string>)
    requires !st.failed && st.inReport
    requires forall k :: 0 <= k < |lines| ==>
      !StartsWith(lines[k], "Report Table:") && !StartsWith(lines[k], "Section Tables:")
    ensures KvRun(st, lines) == st.(value := st.value + lines)
    decreases |lines|
  {
    if lines == [] {
      assert st.value + lines == st.value;
    } else {
      var n := |lines| - 1;
      ReportTableBuffersVerbatim(st, lines[..n]);
      assert st.value + lines[..n] + [lines[n]] == st.value + lines;
    }
  }

  /** Outside the table scopes, colon-less lines continue the current key:
      each is appended, trimmed, and nothing is committed. */
  lemma {:induction false} ContinuationLinesAppend(st: KvState, lines: seq<string>)
    requires !st.failed && !st.inReport && !st.inTables && st.key != ""
    requires forall k :: 0 <= k < |lines| ==> ':' !in lines[k]
    ensures KvRun(st, lines) == st.(value := st.value + TrimAll(lines))
    decreases |lines|
  {
    if lines == [] {
      assert st.value + TrimAll(lines) == st.value;
    } else {
      var n := |lines| - 1;
      ContinuationLinesAppend(st, lines[..n]);
      NoColonNoPrefix(lines[n]);
      assert st.value + TrimAll(lines[..n]) + [Trim(lines[n])] == st.value + TrimAll(lines);
    }
  }

  function TrimAll(lines: seq<string>): (r: seq<string>)
    ensures |r| == |lines|
    decreases |lines|
  {
    if lines == [] then [] else TrimAll(lines[..|lines| - 1]) + [Trim(lines[|lines| - 1])]
  }

  lemma NoColonNoPrefix(line: string)
    ensures StartsWith(line, "Report Table:") ==> ':' in line
    ensures StartsWith(line, "Section Tables:") ==> ':' in line
  {
    if StartsWith(line, "Report Table:") {
      assert line[12] == "Report Table:"[12];
    }
    if StartsWith(line, "Section Tables:") {
      assert line[14] == "Section Tables:"[14];
    }
  }

  /** A new key line commits the previous key's buffered lines and starts
      its own buffer with its value. */
  lemma NewKeyCommitsPrevious(st: KvState, line: string)
    requires !st.failed && !st.inReport && !st.inTables
    requires ':' in line && !StartsWith(line, "Report Table:") && !StartsWith(line, "Section Tables:")
    ensures st.key != "" ==> KvStep(st, line).pairs == st.pairs[st.key := Joined(st.value)]
    ensures KvStep(st, line).key == KeyOf(line)
    ensures KvStep(st, line).value == (if ValueOf(line) != "" then [ValueOf(line)] else [])
  {
  }

  // =====================================================================
  // build_output
  // =====================================================================

  const IntroKeys: seq<string> := [
    "Report Title", "Report Sub-Title", "Executive Summary", "Key Findings",
    "Call to Action", "Report Change Title", "Report Change", "Report Table"]

  const OutroKeys: seq<string> := ["Conclusion", "Recommendations"]

  const SectionFieldKeys: seq<string> := [
    "Section Title", "Section Header", "Section Sub-Header", "Section Theme",
    "Section Summary", "Section Makeup", "Section Change", "Section Effect",
    "Section Insight", "Section Statistic", "Section Recommendation",
    "Section Related Article Title", "Section Related Article Date",
    "Section Related Article Summary", "Section Related Article Relevance",
    "Section Related Article Source"]

  const SubSectionFieldKeys: seq<string> := [
    "Sub-Section Title", "Sub-Section Header", "Sub-Section Sub-Header",
    "Sub-Section Summary", "Sub-Section Makeup", "Sub-Section Change", "Sub-Section Effect",
    "Sub-Section Statistic", "Sub-Section Related Article Title",
    "Sub-Section Related Article Date", "Sub-Section Related Article Summary",
    "Sub-Section Related Article Relevance", "Sub-Section Related Article Source"]

  predicate StrictlyIncreasing(s: seq<nat>) {
    forall i, j :: 0 <= i < j < |s| ==> s[i] < s[j]
  }

  lemma MaxExists(s: set<nat>)
    requires s != {}
    ensures exists m :: m in s && forall x :: x in s ==> x <= m
    decreases s
  {
    var y :| y in s;
    if s != {y} {
      MaxExists(s - {y});
      var m :| m in s - {y} && forall x :: x in s - {y} ==> x <= m;
      var top := if y > m then y else m;
      forall x | x in s ensures x <= top {
        if x != y {
          assert x in s - {y};
        }
      }
      assert top in s;
    } else {
      assert forall x :: x in s ==> x <= y;
    }
  }

  function MaxOf(s: set<nat>): (m: nat)
    requires s != {}
    ensures m in s && forall x :: x in s ==> x <= m
  {
    MaxExists(s);
    var m :| m in s && forall x :: x in s ==> x <= m;
    m
  }

  /** `sorted(s)`: the numbers of the set in ascending order. */
  function SortedNats(s: set<nat>): (r: seq<nat>)
    ensures StrictlyIncreasing(r)
    ensures forall x :: x in s <==> x in r
    decreases s
  {
    if s == {} then []
    else
      var m := MaxOf(s);
      var r := SortedNats(s - {m}) + [m];
      assert forall x :: x in s - {m} ==> x < m;
      r
  }

  /** The intro or outro keys present in `kv`, each as a `Key:` line followed
      by its value. */
  function KeyBlockLines(kv: map<string, string>, keys: seq<string>): seq<string>
    decreases |keys|
  {
    if keys == [] then []
    else
      var k := keys[|keys| - 1];
      KeyBlockLines(kv, keys[..|keys| - 1]) + (if k in kv then [k + ":", kv[k]] else [])
  }

  /** The template fields present in `fields`, in template order, each as a
      `Key: value` line. */
  function FieldLines(fields: map<string, string>, keys: seq<string>): seq<string>
    decreases |keys|
  {
    if keys == [] then []
    else
      var k := keys[|keys| - 1];
      FieldLines(fields, keys[..|keys| - 1]) + (if k in fields then [k + ": " + fields[k]] else [])
  }

  /** The matching table, when the section's title is a table heading. */
  function SectionTableLines(meta: map<string, string>, tables: map<string, seq<string>>): seq<string> {
    if "Section Title" in meta && meta["Section Title"] != "" && meta["Section Title"] in tables then
      ["Section Tables:"] + tables[meta["Section Title"]]
    else []
  }

  function SubSectionLines(n: nat, m: nat, fields: map<string, string>): seq<string> {
    ["", "Sub-Section #: " + NatToString(n) + "." + NatToString(m)] + FieldLines(fields, SubSectionFieldKeys)
  }

  function SubSectionsLines(n: nat, subs: map<nat, map<string, string>>, nums: seq<nat>): seq<string>
    requires forall k :: 0 <= k < |nums| ==> nums[k] in subs
    decreases |nums|
  {
    if nums == [] then []
    else
      var m := nums[|nums| - 1];
      SubSectionsLines(n, subs, nums[..|nums| - 1]) + SubSectionLines(n, m, subs[m])
  }

  function SectionLines(n: nat, sd: SectionData, tables: map<string, seq<string>>): seq<string> {
    ["", "Section #: " + NatToString(n)]
    + FieldLines(sd.meta, SectionFieldKeys)
    + SectionTableLines(sd.meta, tables)
    + SubSectionsLines(n, sd.subsections, SortedNats(sd.subsections.Keys))
  }

  function SectionsLines(structure: Structure, tables: map<string, seq<string>>, nums: seq<nat>): seq<string>
    requires forall k :: 0 <= k < |nums| ==> nums[k] in structure
    decreases |nums|
  {
    if nums == [] then []
    else
      var n := nums[|nums| - 1];
      SectionsLines(structure, tables, nums[..|nums| - 1]) + SectionLines(n, structure[n], tables)
  }

  /** The lines `build_output` emits, in template order. */
  function OutputLines(kv: map<string, string>, structure: Structure, tables: map<string, seq<string>>): seq<string> {
    KeyBlockLines(kv, IntroKeys)
    + SectionsLines(structure, tables, SortedNats(structure.Keys))
    + [""]
    + KeyBlockLines(kv, OutroKeys)
  }

  /** The intro or outro loop of `build_output`. */
  method EmitKeyBlock(kv: map<string, string>, keys: seq<string>) returns (lines: seq<string>)
    ensures lines == KeyBlockLines(kv, keys)
  {
    lines := [];
    for k := 0 to |keys|
      invariant lines == KeyBlockLines(kv, keys[..k])
    {
      var key := keys[k];
      assert keys[..k + 1][..k] == keys[..k];
      if key in kv {
        lines := lines + [key + ":", kv[key]];
      }
    }
    assert keys[..|keys|] == keys;
  }

  /** The field loop of a section or sub-section in `build_output`. */
  method EmitFields(fields: map<string, string>, keys: seq<string>) returns (lines: seq<string>)
    ensures lines == FieldLines(fields, keys)
  {
    lines := [];
    for f := 0 to |keys|
      invariant lines == FieldLines(fields, keys[..f])
    {
      var key := keys[f];
      assert keys[..f + 1][..f] == keys[..f];
      if key in fields {
        lines := lines + [key + ": " + fields[key]];
      }
    }
    assert keys[..|keys|] == keys;
  }

  /** The sub-section loop of a section in `build_output`. */
  method EmitSubSections(n: nat, subs: map<nat, map<string, string>>, nums: seq<nat>) returns (lines: seq<string>)
    requires forall k :: 0 <= k < |nums| ==> nums[k] in subs
    ensures lines == SubSectionsLines(n, subs, nums)
  {
    lines := [];
    for u := 0 to |nums|
      invariant lines == SubSectionsLines(n, subs, nums[..u])
    {
      var m := nums[u];
      var fields := EmitFields(subs[m], SubSectionFieldKeys);
      lines := lines + ["", "Sub-Section #: " + NatToString(n) + "." + NatToString(m)] + fields;
      assert nums[..u + 1][..u] == nums[..u];
    }
    assert nums[..|nums|] == nums;
  }

  /** One section of `build_output`. */
  method EmitSection(n: nat, section: SectionData, tables: map<string, seq<string>>) returns (lines: seq<string>)
    ensures lines == SectionLines(n, section, tables)
  {
    var head := ["", "Section #: " + NatToString(n)];
    var fields := EmitFields(section.meta, SectionFieldKeys);
    var table: seq<string> := [];
    if "Section Title" in section.meta && section.meta["Section Title"] != ""
       && section.meta["Section Title"] in tables {
      table := ["Section Tables:"] + tables[section.meta["Section Title"]];
    }
    var subs := EmitSubSections(n, section.subsections, SortedNats(section.subsections.Keys));
    lines := head + fields + table + subs;
  }

  /** The section loop of `build_output`. */
  method EmitSections(structure: Structure, tables: map<string, seq<string>>, nums: seq<nat>)
    returns (lines: seq<string>)
    requires forall k :: 0 <= k < |nums| ==> nums[k] in structure
    ensures lines == SectionsLines(structure, tables, nums)
  {
    lines := [];
    for s := 0 to |nums|
      invariant lines == SectionsLines(structure, tables, nums[..s])
    {
      var section := EmitSection(nums[s], structure[nums[s]], tables);
      lines := lines + section;
      assert nums[..s + 1][..s] == nums[..s];
    }
    assert nums[..|nums|] == nums;
  }

  /** `build_output` */
  method BuildOutput(kv: map<string, string>, structure: Structure, tables: map<string, seq<string>>)
    returns (text: string)
    ensures text == Join(OutputLines(kv, structure, tables), "\n")
  {
    var intro := EmitKeyBlock(kv, IntroKeys);
    var sections := EmitSections(structure, tables, SortedNats(structure.Keys));
    var outro := EmitKeyBlock(kv, OutroKeys);
    text := Join(intro + sections + [""] + outro, "\n");
  }

  /** A section's table is emitted exactly when its "Section Title" is
      non-empty and is, character for character, a table heading; the
      table's lines then follow the "Section Tables:" line. */
  lemma SectionTableOnlyOnExactTitle(n: nat, sd: SectionData, tables: map<string, seq<string>>)
    ensures var lines := SectionLines(n, sd, tables);
      var fields := FieldLines(sd.meta, SectionFieldKeys);
      var withTable := "Section Title" in sd.meta && sd.meta["Section Title"] != ""
                       && sd.meta["Section Title"] in tables;
      && lines[..2 + |fields|] == ["", "Section #: " + NatToString(n)] + fields
      && (withTable ==> lines[2 + |fields|..3 + |fields| + |tables[sd.meta["Section Title"]]|]
                         == ["Section Tables:"] + tables[sd.meta["Section Title"]])
      && (!withTable ==> lines == ["", "Section #: " + NatToString(n)] + fields
                                  + SubSectionsLines(n, sd.subsections, SortedNats(sd.subsections.Keys)))
  {
  }

  // =====================================================================
  // run_prompt
  // =====================================================================

  datatype CombineResponse =
    | CombineSuccess(runId: string, path: string, structuredOutput: string)
    | CombineError(message: string)

  /** The four cleaned blocks, in the order the source lists them. */
  function FlatBlocks(thinking: string, sectionAssets: string, reportAssets: string, tables: string): seq<string> {
    [CleanTextBlock(thinking), CleanTextBlock(sectionAssets), CleanTextBlock(reportAssets), CleanTextBlock(tables)]
  }

  /** `run_prompt` of the aggregator, with the storage write and read-back
      left out: the read-back is taken to return what was written. A missing
      run id is replaced by `freshId`. */
  method RunCombine(thinking: string, sectionAssets: string, reportAssets: string, tables: string,
                    runId: string, freshId: string)
    returns (response: CombineResponse)
    ensures var flat := FlatBlocks(thinking, sectionAssets, reportAssets, tables);
      var id := if runId != "" then runId else freshId;
      && (KvBlocks(flat).failed <==> response.CombineError?)
      && (response.CombineSuccess? ==>
            && response.runId == id
            && response.path == "Predictive_Report/Ai_Responses/Combine/" + id + ".txt"
            && response.structuredOutput
               == Trim(Replace(Join(OutputLines(KvBlocks(flat).pairs, HierBlocks(flat).structure,
                                                TablesRun(TablesStart, BlockLines(flat[3])).tables), "\n"),
                               LiteralNewline, "\n")))
  {
    var id := if runId != "" then runId else freshId;
    var flat := FlatBlocks(thinking, sectionAssets, reportAssets, tables);
    var kv := ExtractKeyValuePairs(flat);
    if kv.Err? {
      return CombineError(kv.message);
    }
    var structure := ParseHierarchicalBlocks(flat);
    var sectionTables := ParseSectionTables(flat[3]);
    var formatted := BuildOutput(kv.value, structure, sectionTables);
    var finalOutput := Replace(formatted, LiteralNewline, "\n");
    var path := "Predictive_Report/Ai_Responses/Combine/" + id + ".txt";
    response := CombineSuccess(id, path, Trim(finalOutput));
  }
}
