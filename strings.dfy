/** The string operations of the Python standard library that the pipeline
    relies on (`strip`, `split`, `join`, `replace`, `splitlines`, `upper`,
    `lower`, `capitalize`, `title`, `isupper`), restricted to ASCII case
    mapping and ASCII whitespace. */
module Strings {

  // ---------------------------------------------------------------------
  // Characters
  // ---------------------------------------------------------------------

  /** Python's `str.isspace` on the ASCII range: space, \t \n \v \f \r and
      the four separators \x1c .. \x1f. */
  predicate IsSpace(c: char) {
    c == ' ' || ('\t' <= c <= '\r') || ('\U{1C}' <= c <= '\U{1F}')
  }

  predicate IsUpperChar(c: char) { 'A' <= c <= 'Z' }
  predicate IsLowerChar(c: char) { 'a' <= c <= 'z' }
  predicate IsLetter(c: char) { IsUpperChar(c) || IsLowerChar(c) }
  predicate IsDigit(c: char) { '0' <= c <= '9' }

  function UpperChar(c: char): (r: char)
    ensures IsLowerChar(c) ==> IsUpperChar(r)
    ensures !IsLowerChar(c) ==> r == c
    ensures IsSpace(r) == IsSpace(c)
  {
    if IsLowerChar(c) then (c as int - 32) as char else c
  }

  function LowerChar(c: char): (r: char)
    ensures IsUpperChar(c) ==> IsLowerChar(r)
    ensures !IsUpperChar(c) ==> r == c
    ensures IsSpace(r) == IsSpace(c)
  {
    if IsUpperChar(c) then (c as int + 32) as char else c
  }

  lemma LowerUpperChar(c: char)
    ensures LowerChar(UpperChar(c)) == LowerChar(c)
  {
  }

  // ---------------------------------------------------------------------
  // Prefixes, suffixes, occurrences
  // ---------------------------------------------------------------------

  predicate StartsWith(s: string, p: string) {
    |p| <= |s| && s[..|p|] == p
  }

  predicate EndsWith(s: string, p: string) {
    |p| <= |s| && s[|s| - |p|..] == p
  }

  /** `p in s` for strings: `p` occurs somewhere in `s`. */
  predicate Occurs(s: string, p: string) {
    exists i :: 0 <= i <= |s| - |p| && StartsWith(s[i..], p)
  }

  // ---------------------------------------------------------------------
  // strip / lstrip / rstrip
  // ---------------------------------------------------------------------

  /** `s.lstrip()` */
  function TrimStart(s: string): (r: string)
    ensures |r| <= |s|
    ensures r == [] || !IsSpace(r[0])
  {
    if s != [] && IsSpace(s[0]) then TrimStart(s[1..]) else s
  }

  /** `lstrip` removes a prefix of whitespace. */
  lemma {:induction false} TrimStartDrops(s: string)
    ensures TrimStart(s) == s[|s| - |TrimStart(s)|..]
    ensures forall i :: 0 <= i < |s| - |TrimStart(s)| ==> IsSpace(s[i])
    decreases |s|
  {
    if s != [] && IsSpace(s[0]) {
      TrimStartDrops(s[1..]);
    }
  }

  /** `s.rstrip()` */
  function TrimEnd(s: string): (r: string)
    ensures |r| <= |s|
    ensures r == [] || !IsSpace(r[|r| - 1])
  {
    if s != [] && IsSpace(s[|s| - 1]) then TrimEnd(s[..|s| - 1]) else s
  }

  /** `rstrip` removes a suffix of whitespace. */
  lemma {:induction false} TrimEndDrops(s: string)
    ensures TrimEnd(s) == s[..|TrimEnd(s)|]
    ensures forall i :: |TrimEnd(s)| <= i < |s| ==> IsSpace(s[i])
    decreases |s|
  {
    if s != [] && IsSpace(s[|s| - 1]) {
      TrimEndDrops(s[..|s| - 1]);
    }
  }

  /** `s.strip()`: the longest infix that neither starts nor ends with
      whitespace, everything around it being whitespace. */
  function Trim(s: string): (r: string)
    ensures |r| <= |s|
    ensures r == [] || (!IsSpace(r[0]) && !IsSpace(r[|r| - 1]))
  {
    var t := TrimStart(s);
    var r := TrimEnd(t);
    TrimEndDrops(t);
    assert r != [] ==> r[0] == t[0];
    r
  }

  /** What `Trim` keeps: an infix with only whitespace around it. */
  lemma TrimInfix(s: string)
    ensures exists k :: TrimmedAt(s, Trim(s), k)
  {
    var t := TrimStart(s);
    TrimStartDrops(s);
    TrimEndDrops(t);
    assert Trim(s) == TrimEnd(t);
    assert TrimmedAt(s, TrimEnd(t), |s| - |t|);
  }

  /** `r` is the infix of `s` at `k` and everything around it is whitespace. */
  predicate TrimmedAt(s: string, r: string, k: int) {
    0 <= k <= |s| - |r| && r == s[k..k + |r|]
    && (forall i :: 0 <= i < k ==> IsSpace(s[i]))
    && (forall i :: k + |r| <= i < |s| ==> IsSpace(s[i]))
  }

  /** A string that neither starts nor ends with whitespace. */
  predicate IsTrimmed(s: string) {
    s == [] || (!IsSpace(s[0]) && !IsSpace(s[|s| - 1]))
  }

  lemma TrimOfTrimmed(s: string)
    requires IsTrimmed(s)
    ensures Trim(s) == s
  {
    TrimInfix(s);
  }

  lemma TrimIdempotent(s: string)
    ensures Trim(Trim(s)) == Trim(s)
  {
    TrimOfTrimmed(Trim(s));
  }

  /** Leading whitespace before a string that does not start with whitespace
      is what `lstrip` removes. */
  lemma {:induction false} TrimStartSpaces(a: string, x: string)
    requires forall i :: 0 <= i < |a| ==> IsSpace(a[i])
    requires x == [] || !IsSpace(x[0])
    ensures TrimStart(a + x) == x
    decreases |a|
  {
    if a != [] {
      assert (a + x)[1..] == a[1..] + x;
      TrimStartSpaces(a[1..], x);
    } else {
      assert a + x == x;
    }
  }

  /** Trailing whitespace after a string that does not end with whitespace
      is what `rstrip` removes. */
  lemma {:induction false} TrimEndSpaces(x: string, b: string)
    requires forall i :: 0 <= i < |b| ==> IsSpace(b[i])
    requires x == [] || !IsSpace(x[|x| - 1])
    ensures TrimEnd(x + b) == x
    decreases |b|
  {
    if b != [] {
      assert (x + b)[..|x + b| - 1] == x + b[..|b| - 1];
      TrimEndSpaces(x, b[..|b| - 1]);
    } else {
      assert x + b == x;
    }
  }

  /** Whitespace around a trimmed string is exactly what `strip` removes. */
  lemma TrimSpaced(a: string, x: string, b: string)
    requires forall i :: 0 <= i < |a| ==> IsSpace(a[i])
    requires forall i :: 0 <= i < |b| ==> IsSpace(b[i])
    requires IsTrimmed(x)
    ensures Trim(a + x + b) == x
  {
    var s := a + x + b;
    if x == [] {
      TrimEmpty(s);
    } else {
      assert s == a + (x + b);
      TrimStartSpaces(a, x + b);
      TrimEndSpaces(x, b);
    }
  }

  /** Trim is empty exactly when the string is all whitespace. */
  lemma {:induction false} TrimEmpty(s: string)
    ensures Trim(s) == [] <==> forall i :: 0 <= i < |s| ==> IsSpace(s[i])
  {
    TrimInfix(s);
    if Trim(s) != [] {
      var k :| TrimmedAt(s, Trim(s), k);
      assert s[k] == Trim(s)[0];
    }
  }

  /** `s.lstrip(c)` for a single character `c` */
  function StripStartChar(s: string, c: char): (r: string)
    ensures |r| <= |s| && r == s[|s| - |r|..]
    ensures r == [] || r[0] != c
  {
    if s != [] && s[0] == c then StripStartChar(s[1..], c) else s
  }

  /** `s.rstrip(c)` for a single character `c` */
  function StripEndChar(s: string, c: char): (r: string)
    ensures |r| <= |s| && r == s[..|r|]
    ensures r == [] || r[|r| - 1] != c
  {
    if s != [] && s[|s| - 1] == c then StripEndChar(s[..|s| - 1], c) else s
  }

  /** `s.strip(c)` for a single character `c` */
  function StripChar(s: string, c: char): string {
    StripEndChar(StripStartChar(s, c), c)
  }

  // ---------------------------------------------------------------------
  // split / join / replace
  // ---------------------------------------------------------------------

  /** `s.split(sep)`: the pieces between the non-overlapping occurrences of
      `sep`, found left to right. */
  function Split(s: string, sep: string): (r: seq<string>)
    requires |sep| > 0
    ensures |r| >= 1
    decreases |s|
  {
    if |s| < |sep| then [s]
    else if s[..|sep|] == sep then [""] + Split(s[|sep|..], sep)
    else
      var rest := Split(s[1..], sep);
      [[s[0]] + rest[0]] + rest[1..]
  }

  /** `sep.join(parts)` */
  function Join(parts: seq<string>, sep: string): string {
    if |parts| == 0 then ""
    else if |parts| == 1 then parts[0]
    else parts[0] + sep + Join(parts[1..], sep)
  }

  lemma JoinCons(c: char, p: string, ps: seq<string>, sep: string)
    ensures Join([[c] + p] + ps, sep) == [c] + Join([p] + ps, sep)
  {
    if |ps| > 0 {
      assert ([[c] + p] + ps)[1..] == ps;
      assert ([p] + ps)[1..] == ps;
    }
  }

  /** Joining the pieces of a split with the same separator gives back the
      original string. */
  lemma {:induction false} JoinSplit(s: string, sep: string)
    requires |sep| > 0
    ensures Join(Split(s, sep), sep) == s
    decreases |s|
  {
    if |s| < |sep| {
    } else if s[..|sep|] == sep {
      JoinSplit(s[|sep|..], sep);
      JoinSplitAtSep(s, sep);
    } else {
      JoinSplit(s[1..], sep);
      JoinSplitAtChar(s, sep);
    }
  }

  /** `JoinSplit` when the text opens with the separator. */
  lemma JoinSplitAtSep(s: string, sep: string)
    requires 0 < |sep| <= |s| && s[..|sep|] == sep
    requires Join(Split(s[|sep|..], sep), sep) == s[|sep|..]
    ensures Join(Split(s, sep), sep) == s
  {
    SplitAtSep(s, sep);
    JoinBlankHead(Split(s[|sep|..], sep), sep);
    assert s == s[..|sep|] + s[|sep|..];
  }

  lemma SplitAtSep(s: string, sep: string)
    requires 0 < |sep| <= |s| && s[..|sep|] == sep
    ensures Split(s, sep) == [""] + Split(s[|sep|..], sep)
  {
  }

  lemma JoinBlankHead(rest: seq<string>, sep: string)
    requires |rest| >= 1
    ensures Join([""] + rest, sep) == sep + Join(rest, sep)
  {
    assert ([""] + rest)[1..] == rest;
  }

  /** `JoinSplit` when the text does not open with the separator. */
  lemma JoinSplitAtChar(s: string, sep: string)
    requires 0 < |sep| <= |s| && s[..|sep|] != sep
    requires Join(Split(s[1..], sep), sep) == s[1..]
    ensures Join(Split(s, sep), sep) == s
  {
    var rest := Split(s[1..], sep);
    JoinCons(s[0], rest[0], rest[1..], sep);
    assert [rest[0]] + rest[1..] == rest;
    assert s == [s[0]] + s[1..];
  }

  /** No piece of a split on a one-character separator contains it. */
  lemma {:induction false} SplitCharFree(s: string, c: char)
    ensures forall k :: 0 <= k < |Split(s, [c])| ==> c !in Split(s, [c])[k]
    decreases |s|
  {
    if |s| >= 1 {
      SplitCharFree(s[1..], c);
      if s[..1] != [c] {
        assert s[0] != c;
      }
    }
  }

  lemma JoinAppendPart(parts: seq<string>, p: string, sep: string)
    requires |parts| > 0
    ensures Join(parts + [p], sep) == Join(parts, sep) + sep + p
    decreases |parts|
  {
    if |parts| == 1 {
      assert parts + [p] == [parts[0], p];
      assert [parts[0], p][1..] == [p];
    } else {
      assert (parts + [p])[1..] == parts[1..] + [p];
      JoinAppendPart(parts[1..], p, sep);
    }
  }

  /** Splitting a join of separator-free parts on a one-character separator
      gives back the parts. */
  lemma {:induction false} SplitJoinChar(parts: seq<string>, c: char)
    requires |parts| >= 1
    requires forall k :: 0 <= k < |parts| ==> c !in parts[k]
    ensures Split(Join(parts, [c]), [c]) == parts
    decreases |parts|, |parts[0]|
  {
    var p0 := parts[0];
    if |parts| == 1 {
      SplitOfCharFree(p0, c);
    } else {
      var tail := Join(parts[1..], [c]);
      assert Join(parts, [c]) == p0 + [c] + tail;
      if p0 == [] {
        var s := [c] + tail;
        assert s[..1] == [c];
        assert s[1..] == tail;
        SplitJoinChar(parts[1..], c);
        assert Split(s, [c]) == [""] + parts[1..];
        assert [""] + parts[1..] == parts;
        assert p0 + [c] + tail == s;
      } else {
        var s := p0 + [c] + tail;
        var parts' := [p0[1..]] + parts[1..];
        assert parts'[1..] == parts[1..];
        assert Join(parts', [c]) == p0[1..] + [c] + tail;
        SplitJoinChar(parts', c);
        assert s[..1] == [p0[0]];
        assert s[1..] == p0[1..] + [c] + tail;
        var rest := Split(s[1..], [c]);
        assert rest == parts';
        assert [p0[0]] + p0[1..] == p0;
        assert [[p0[0]] + p0[1..]] + parts[1..] == parts;
      }
    }
  }

  lemma {:induction false} SplitOfCharFree(p: string, c: char)
    requires c !in p
    ensures Split(p, [c]) == [p]
    decreases |p|
  {
    if |p| >= 1 {
      assert p[..1] != [c] by { assert p[0] != c; }
      SplitOfCharFree(p[1..], c);
      assert [p[0]] + p[1..] == p;
    }
  }

  /** `s.replace(pat, rep)`: every non-overlapping occurrence of `pat`,
      found left to right, replaced by `rep`. */
  function Replace(s: string, pat: string, rep: string): string
    requires |pat| > 0
    decreases |s|
  {
    if |s| < |pat| then s
    else if s[..|pat|] == pat then rep + Replace(s[|pat|..], pat, rep)
    else [s[0]] + Replace(s[1..], pat, rep)
  }

  /** Replacing a character by a string that does not contain it leaves no
      occurrence of the character. */
  lemma {:induction false} ReplaceCharRemoves(s: string, c: char, rep: string)
    requires c !in rep
    ensures c !in Replace(s, [c], rep)
    decreases |s|
  {
    if |s| >= 1 {
      ReplaceCharRemoves(s[1..], c, rep);
    }
  }

  /** Where the first character of the pattern does not occur, replacing
      changes nothing. */
  lemma {:induction false} ReplaceAbsent(s: string, pat: string, rep: string)
    requires |pat| > 0 && pat[0] !in s
    ensures Replace(s, pat, rep) == s
    decreases |s|
  {
    if |s| >= |pat| {
      assert s[..|pat|] != pat by { assert s[0] != pat[0]; }
      ReplaceAbsent(s[1..], pat, rep);
      assert [s[0]] + s[1..] == s;
    }
  }

  /** A prefix free of the pattern's first character passes through a
      replacement unchanged. */
  lemma {:induction false} ReplacePrefixFree(p: string, s: string, pat: string, rep: string)
    requires |pat| > 0 && pat[0] !in p
    ensures Replace(p + s, pat, rep) == p + Replace(s, pat, rep)
    decreases |p|
  {
    if p != [] {
      var t := p + s;
      assert t[0] == p[0];
      if |t| < |pat| {
        assert Replace(t, pat, rep) == t;
        assert Replace(s, pat, rep) == s;
      } else {
        assert t[..|pat|] != pat;
        assert t[1..] == p[1..] + s;
        ReplacePrefixFree(p[1..], s, pat, rep);
        assert Replace(t, pat, rep) == [t[0]] + Replace(t[1..], pat, rep);
        assert [p[0]] + p[1..] == p;
        assert [p[0]] + (p[1..] + Replace(s, pat, rep)) == p + Replace(s, pat, rep);
      }
    } else {
      assert p + s == s;
    }
  }

  // ---------------------------------------------------------------------
  // splitlines
  // ---------------------------------------------------------------------

  /** `s.splitlines()`, with "\n" as the only line boundary: the empty string
      has no lines and a final line break does not open an empty last line. */
  function Lines(s: string): (r: seq<string>)
    ensures forall k :: 0 <= k < |r| ==> '\n' !in r[k]
  {
    if s == "" then []
    else
      var p := Split(s, "\n");
      SplitCharFree(s, '\n');
      if p[|p| - 1] == "" then p[..|p| - 1] else p
  }

  /** `splitlines` undoes a "\n"-join of line-break-free lines, provided the
      last line is not empty. */
  lemma LinesOfJoin(parts: seq<string>)
    requires forall k :: 0 <= k < |parts| ==> '\n' !in parts[k]
    requires parts == [] || parts[|parts| - 1] != ""
    ensures Lines(Join(parts, "\n")) == parts
  {
    if parts != [] {
      SplitJoinChar(parts, '\n');
      if Join(parts, "\n") == "" {
        JoinSplit("", "\n");
        assert false;
      }
    }
  }

  // ---------------------------------------------------------------------
  // Case mapping
  // ---------------------------------------------------------------------

  /** `s.upper()` */
  function ToUpper(s: string): (r: string)
    ensures |r| == |s|
    ensures forall i :: 0 <= i < |s| ==> r[i] == UpperChar(s[i])
  {
    seq(|s|, i requires 0 <= i < |s| => UpperChar(s[i]))
  }

  /** `s.lower()` */
  function ToLower(s: string): (r: string)
    ensures |r| == |s|
    ensures forall i :: 0 <= i < |s| ==> r[i] == LowerChar(s[i])
  {
    seq(|s|, i requires 0 <= i < |s| => LowerChar(s[i]))
  }

  /** `s.capitalize()`: first character upper-cased, the rest lower-cased. */
  function Capitalize(s: string): (r: string)
    ensures |r| == |s|
    ensures ToLower(r) == ToLower(s)
    ensures s != [] ==> r[0] == UpperChar(s[0]) && r[1..] == ToLower(s[1..])
  {
    if s == [] then []
    else
      var r := [UpperChar(s[0])] + ToLower(s[1..]);
      LowerUpperChar(s[0]);
      r
  }

  /** `s.isupper()`: at least one cased character and none in lower case. */
  predicate IsUpperWord(s: string) {
    (exists i :: 0 <= i < |s| && IsUpperChar(s[i]))
    && forall i :: 0 <= i < |s| ==> !IsLowerChar(s[i])
  }

  /** `s.title()`: a letter is upper-cased when the character before it is
      not a letter and lower-cased when it is; `prevCased` says whether the
      character before `s` was a letter. */
  function TitleFrom(s: string, prevCased: bool): (r: string)
    ensures |r| == |s|
    decreases |s|
  {
    if s == [] then []
    else
      var c := if prevCased then LowerChar(s[0]) else UpperChar(s[0]);
      [c] + TitleFrom(s[1..], IsLetter(s[0]))
  }

  function Title(s: string): (r: string)
    ensures |r| == |s|
  {
    TitleFrom(s, false)
  }

  /** Title-casing character by character: a letter is upper-cased at the
      start of a word (after a non-letter, or first when `prevCased` is
      false) and lower-cased inside one. */
  lemma {:induction false} TitleFromChars(s: string, prevCased: bool)
    ensures forall i :: 0 <= i < |s| ==>
      TitleFrom(s, prevCased)[i]
      == (if (i == 0 && !prevCased) || (i > 0 && !IsLetter(s[i - 1])) then UpperChar(s[i]) else LowerChar(s[i]))
    decreases |s|
  {
    if s != [] {
      TitleFromChars(s[1..], IsLetter(s[0]));
      var r := TitleFrom(s, prevCased);
      forall i | 0 < i < |s|
        ensures r[i] == (if !IsLetter(s[i - 1]) then UpperChar(s[i]) else LowerChar(s[i]))
      {
        assert r[i] == TitleFrom(s[1..], IsLetter(s[0]))[i - 1];
        assert s[1..][i - 1] == s[i];
        if i > 1 {
          assert s[1..][i - 2] == s[i - 1];
        }
      }
    }
  }

  /** Title-casing changes only the case of letters. */
  lemma {:induction false} TitleFromLower(s: string, prevCased: bool)
    ensures ToLower(TitleFrom(s, prevCased)) == ToLower(s)
    decreases |s|
  {
    if s != [] {
      TitleFromLower(s[1..], IsLetter(s[0]));
      LowerUpperChar(s[0]);
      var r := TitleFrom(s, prevCased);
      assert r[1..] == TitleFrom(s[1..], IsLetter(s[0]));
      forall i | 0 <= i < |s| ensures ToLower(r)[i] == ToLower(s)[i] {
        if i > 0 {
          assert ToLower(r)[i] == ToLower(r[1..])[i - 1];
          assert ToLower(s)[i] == ToLower(s[1..])[i - 1];
        }
      }
    }
  }

  lemma ToLowerCharFree(s: string, c: char)
    requires !IsUpperChar(c)
    ensures c in ToLower(s) <==> (c in s || (IsLowerChar(c) && UpperChar(c) in s))
  {
    if c in ToLower(s) {
      var i :| 0 <= i < |s| && ToLower(s)[i] == c;
      if s[i] != c {
        assert IsUpperChar(s[i]);
        assert UpperChar(c) == s[i];
      }
    }
    if c in s {
      var i :| 0 <= i < |s| && s[i] == c;
      assert ToLower(s)[i] == c;
    }
    if IsLowerChar(c) && UpperChar(c) in s {
      var i :| 0 <= i < |s| && s[i] == UpperChar(c);
      assert ToLower(s)[i] == c;
    }
  }

  // ---------------------------------------------------------------------
  // split() without an argument: whitespace-separated words
  // ---------------------------------------------------------------------

  /** Length of the longest prefix of `s` that holds no whitespace. */
  function WordLength(s: string): (n: nat)
    ensures n <= |s|
    ensures forall i :: 0 <= i < n ==> !IsSpace(s[i])
    ensures n < |s| ==> IsSpace(s[n])
  {
    if s == [] || IsSpace(s[0]) then 0 else 1 + WordLength(s[1..])
  }

  /** `s.split()`: the maximal runs of non-whitespace characters. */
  function Words(s: string): (r: seq<string>)
    ensures forall k :: 0 <= k < |r| ==> IsWord(r[k])
    decreases |s|
  {
    if s == [] then []
    else if IsSpace(s[0]) then Words(s[1..])
    else
      var n := WordLength(s);
      [s[..n]] + Words(s[n..])
  }

  /** A non-empty string without whitespace. */
  predicate IsWord(w: string) {
    w != [] && forall i :: 0 <= i < |w| ==> !IsSpace(w[i])
  }

  lemma {:induction false} WordLengthOfWord(w: string, t: string)
    requires forall i :: 0 <= i < |w| ==> !IsSpace(w[i])
    requires t == [] || IsSpace(t[0])
    ensures WordLength(w + t) == |w|
    decreases |w|
  {
    if w != [] {
      assert (w + t)[1..] == w[1..] + t;
      WordLengthOfWord(w[1..], t);
    }
  }

  /** Joining words with single spaces and splitting on whitespace gives the
      words back. */
  lemma {:induction false} WordsOfJoin(ws: seq<string>)
    requires forall k :: 0 <= k < |ws| ==> IsWord(ws[k])
    ensures Words(Join(ws, " ")) == ws
    decreases |ws|
  {
    if |ws| == 1 {
      WordLengthOfWord(ws[0], []);
      assert ws[0] + [] == ws[0];
      assert ws[0][|ws[0]|..] == [];
    } else if |ws| > 1 {
      var w := ws[0];
      var rest := Join(ws[1..], " ");
      var s := w + " " + rest;
      WordLengthOfWord(w, " " + rest);
      assert w + (" " + rest) == s;
      assert s[..|w|] == w;
      assert s[|w|..] == " " + rest;
      assert (" " + rest)[1..] == rest;
      WordsOfJoin(ws[1..]);
      assert [w] + ws[1..] == ws;
    }
  }

  // ---------------------------------------------------------------------
  // Character membership through strip, split and join
  // ---------------------------------------------------------------------

  lemma TrimKeepsFree(s: string, d: char)
    requires d !in s
    ensures d !in Trim(s)
  {
    var r := Trim(s);
    TrimInfix(s);
    var k :| TrimmedAt(s, r, k);
    forall i | 0 <= i < |r| ensures r[i] != d {
      assert r[i] == s[k + i];
    }
  }

  lemma {:induction false} SplitKeepsFree(s: string, sep: string, d: char)
    requires |sep| > 0 && d !in s
    ensures forall k :: 0 <= k < |Split(s, sep)| ==> d !in Split(s, sep)[k]
    decreases |s|
  {
    if |s| < |sep| {
    } else if s[..|sep|] == sep {
      SplitKeepsFree(s[|sep|..], sep, d);
    } else {
      SplitKeepsFree(s[1..], sep, d);
    }
  }

  lemma {:induction false} JoinKeepsFree(parts: seq<string>, sep: string, d: char)
    requires d !in sep
    requires forall k :: 0 <= k < |parts| ==> d !in parts[k]
    ensures d !in Join(parts, sep)
    decreases |parts|
  {
    if |parts| > 1 {
      JoinKeepsFree(parts[1..], sep, d);
    }
  }

  /** A join of non-empty trimmed parts starts with the first part's first
      character and ends with the last part's last character. */
  lemma {:induction false} JoinEnds(parts: seq<string>, sep: string)
    requires |parts| > 0
    requires forall k :: 0 <= k < |parts| ==> parts[k] != []
    ensures Join(parts, sep) != []
    ensures Join(parts, sep)[0] == parts[0][0]
    ensures Join(parts, sep)[|Join(parts, sep)| - 1] == parts[|parts| - 1][|parts[|parts| - 1]| - 1]
    decreases |parts|
  {
    if |parts| > 1 {
      JoinEnds(parts[1..], sep);
    }
  }

  // ---------------------------------------------------------------------
  // Search, decimal numbers
  // ---------------------------------------------------------------------

  /** Index of the first `c` in `s`, or |s| when there is none. */
  function IndexOf(s: string, c: char): (r: nat)
    ensures r <= |s|
    ensures forall i :: 0 <= i < r ==> s[i] != c
    ensures r < |s| <==> c in s
    ensures r < |s| ==> s[r] == c
  {
    if s == [] then 0 else if s[0] == c then 0 else 1 + IndexOf(s[1..], c)
  }

  /** Length of the longest prefix of `s` made of decimal digits. */
  function DigitRunLength(s: string): (n: nat)
    ensures n <= |s|
    ensures forall i :: 0 <= i < n ==> IsDigit(s[i])
    ensures n < |s| ==> !IsDigit(s[n])
  {
    if s == [] || !IsDigit(s[0]) then 0 else 1 + DigitRunLength(s[1..])
  }

  function DigitValue(c: char): nat {
    if IsDigit(c) then c as int - '0' as int else 0
  }

  /** `int(ds)` for a string of decimal digits. */
  function DigitsValue(ds: string): nat {
    if ds == [] then 0 else 10 * DigitsValue(ds[..|ds| - 1]) + DigitValue(ds[|ds| - 1])
  }

  /** `str(n)`: the decimal digits of `n`, without leading zeros. */
  function NatToString(n: nat): (r: string)
    ensures r != []
    ensures forall i :: 0 <= i < |r| ==> IsDigit(r[i])
    ensures |r| > 1 ==> r[0] != '0'
  {
    var d := ('0' as int + n % 10) as char;
    if n < 10 then [d] else NatToString(n / 10) + [d]
  }

  /** Reading back the decimal digits of `n` gives `n`. */
  lemma {:induction false} NatToStringValue(n: nat)
    ensures DigitsValue(NatToString(n)) == n
  {
    var r := NatToString(n);
    if n >= 10 {
      NatToStringValue(n / 10);
      assert r[..|r| - 1] == NatToString(n / 10);
    }
  }

  // ---------------------------------------------------------------------
  // Case-insensitive equality
  // ---------------------------------------------------------------------

  lemma ToLowerAppend(a: string, b: string)
    ensures ToLower(a + b) == ToLower(a) + ToLower(b)
  {
  }

  /** Upper-casing changes only the case of letters. */
  lemma LowerOfUpper(s: string)
    ensures ToLower(ToUpper(s)) == ToLower(s)
  {
    forall i | 0 <= i < |s| ensures ToLower(ToUpper(s))[i] == ToLower(s)[i] {
      LowerUpperChar(s[i]);
    }
  }

  /** Two strings equal up to case have the same length and whitespace at
      the same places, so one is a word exactly when the other is. */
  lemma SameLowerIsWord(a: string, b: string)
    requires ToLower(a) == ToLower(b)
    ensures |a| == |b| && (IsWord(a) <==> IsWord(b))
  {
    assert |ToLower(a)| == |ToLower(b)|;
    forall i | 0 <= i < |a| ensures IsSpace(a[i]) == IsSpace(b[i]) {
      assert LowerChar(a[i]) == ToLower(a)[i] == ToLower(b)[i] == LowerChar(b[i]);
    }
  }

  /** A character that is not a letter occurs in a string exactly when it
      occurs in its lower-case form. */
  lemma NonLetterInLower(s: string, c: char)
    requires !IsLetter(c)
    ensures c in ToLower(s) <==> c in s
  {
    ToLowerCharFree(s, c);
  }

  /** Joining strings that are equal up to case, with a separator without
      upper-case letters, gives strings equal up to case. */
  lemma {:induction false} JoinLowerEq(a: seq<string>, b: seq<string>, sep: string)
    requires ToLower(sep) == sep
    requires |a| == |b| && forall k :: 0 <= k < |a| ==> ToLower(a[k]) == ToLower(b[k])
    ensures ToLower(Join(a, sep)) == ToLower(Join(b, sep))
    decreases |a|
  {
    if |a| > 1 {
      JoinLowerEq(a[1..], b[1..], sep);
      ToLowerAppend(a[0] + sep, Join(a[1..], sep));
      ToLowerAppend(a[0], sep);
      ToLowerAppend(b[0] + sep, Join(b[1..], sep));
      ToLowerAppend(b[0], sep);
    }
  }

  // ---------------------------------------------------------------------
  // Replacing a separator
  // ---------------------------------------------------------------------

  /** Replacing the separator of a join, where no part holds the
      separator's first character, is joining with the replacement. */
  lemma {:induction false} ReplaceJoin(parts: seq<string>, sep: string, rep: string)
    requires |sep| > 0
    requires forall k :: 0 <= k < |parts| ==> sep[0] !in parts[k]
    ensures Replace(Join(parts, sep), sep, rep) == Join(parts, rep)
    decreases |parts|
  {
    if |parts| == 0 {
    } else if |parts| == 1 {
      ReplaceAbsent(parts[0], sep, rep);
    } else {
      var tail := Join(parts[1..], sep);
      ReplaceJoin(parts[1..], sep, rep);
      assert Join(parts, sep) == parts[0] + (sep + tail);
      ReplacePrefixFree(parts[0], sep + tail, sep, rep);
      assert (sep + tail)[..|sep|] == sep;
      assert (sep + tail)[|sep|..] == tail;
      assert Join(parts, rep) == parts[0] + (rep + Join(parts[1..], rep));
    }
  }
}
