/** American-to-British spelling conversion, shared by the report formatter
    (Scripts/Predictive_Report/format_combine.py) and the image-prompt
    formatter (Scripts/Image_Prompts/format_image_prompts.py). The
    dictionary maps lower-case American words to British spellings and is a
    parameter here.

    The source builds one case-insensitive regular expression
    `\b(word1|word2|...)\b` from the dictionary keys. For keys made of word
    characters only, such a match is always a whole maximal run of word
    characters, so the substitution is modelled as a scan over the text's
    maximal runs of word and of non-word characters. */
module British {
  import opened Strings

  /** `\w`, restricted to ASCII. */
  predicate IsWordChar(c: char) {
    IsLetter(c) || IsDigit(c) || c == '_'
  }

  /** A non-empty run of characters that are all word characters or all
      not. */
  predicate IsToken(t: string) {
    t != [] && forall i :: 0 <= i < |t| ==> IsWordChar(t[i]) == IsWordChar(t[0])
  }

  /** A run of word characters. */
  predicate IsWordToken(t: string) {
    t != [] && IsWordChar(t[0])
  }

  /** Length of the leading run of characters whose word-ness is `word`. */
  function RunLength(s: string, word: bool): (n: nat)
    ensures n <= |s|
    ensures n < |s| ==> IsWordChar(s[n]) != word
    ensures s != [] && IsWordChar(s[0]) == word ==> n > 0
  {
    if s == [] || IsWordChar(s[0]) != word then 0 else 1 + RunLength(s[1..], word)
  }

  /** Every character of the leading run has the run's word-ness. */
  lemma {:induction false} RunLengthRun(s: string, word: bool, i: nat)
    requires i < RunLength(s, word)
    ensures IsWordChar(s[i]) == word
    decreases i
  {
    if i > 0 {
      RunLengthRun(s[1..], word, i - 1);
    }
  }

  /** The maximal runs of word and of non-word characters, in order. */
  function Tokens(s: string): seq<string>
    decreases |s|
  {
    if s == [] then []
    else
      var n := RunLength(s, IsWordChar(s[0]));
      [s[..n]] + Tokens(s[n..])
  }

  /** Every run is non-empty and all word or all non-word characters. */
  lemma {:induction false} TokensAreRuns(s: string)
    ensures forall k :: 0 <= k < |Tokens(s)| ==> IsToken(Tokens(s)[k])
    decreases |s|
  {
    if s != [] {
      var w := IsWordChar(s[0]);
      var n := RunLength(s, w);
      TokensAreRuns(s[n..]);
      forall i | 0 <= i < n ensures IsWordChar(s[..n][i]) == w {
        RunLengthRun(s, w, i);
      }
    }
  }

  function Concat(ts: seq<string>): string {
    if ts == [] then "" else ts[0] + Concat(ts[1..])
  }

  /** The runs are the text, cut into pieces. */
  lemma {:induction false} TokensConcat(s: string)
    ensures Concat(Tokens(s)) == s
    decreases |s|
  {
    if s != [] {
      var n := RunLength(s, IsWordChar(s[0]));
      TokensConcat(s[n..]);
      ConcatCons(s[..n], Tokens(s[n..]));
      assert s[..n] + s[n..] == s;
    }
  }

  lemma ConcatCons(x: string, ts: seq<string>)
    ensures Concat([x] + ts) == x + Concat(ts)
  {
    assert ([x] + ts)[1..] == ts;
  }

  /** The runs are maximal: neighbouring runs differ in word-ness, so a word
      run is never a part of a longer word. */
  lemma {:induction false} TokensAlternate(s: string)
    ensures var t := Tokens(s);
      forall k :: 0 <= k < |t| - 1 ==> IsWordToken(t[k]) != IsWordToken(t[k + 1])
    decreases |s|
  {
    if s != [] {
      var n := RunLength(s, IsWordChar(s[0]));
      TokensAlternate(s[n..]);
      var t := Tokens(s);
      if n < |s| {
        assert Tokens(s[n..])[0][0] == s[n];
        assert t[1..] == Tokens(s[n..]);
      }
    }
  }

  /** The British spelling in the case shape of the matched word: all
      capitals for an all-capital word, capitalised for a word starting with
      a capital, as in the dictionary otherwise. */
  function MatchCase(us: string, british: string): (r: string)
    requires us != []
    ensures ToLower(r) == ToLower(british)
    ensures IsUpperWord(us) ==> r == ToUpper(british)
    ensures !IsUpperWord(us) && IsUpperChar(us[0]) && british != [] ==>
      r[0] == UpperChar(british[0]) && r[1..] == ToLower(british[1..])
    ensures !IsUpperWord(us) && !IsUpperChar(us[0]) ==> r == british
  {
    if IsUpperWord(us) then
      LowerOfUpper(british);
      ToUpper(british)
    else if IsUpperChar(us[0]) then Capitalize(british)
    else british
  }

  /** One run: a word whose lower-case form is a dictionary key is replaced;
      every other run is kept. */
  function ConvertToken(tok: string, dict: map<string, string>): string {
    if IsWordToken(tok) && ToLower(tok) in dict then MatchCase(tok, dict[ToLower(tok)]) else tok
  }

  function ConvertTokens(ts: seq<string>, dict: map<string, string>): string {
    if ts == [] then "" else ConvertToken(ts[0], dict) + ConvertTokens(ts[1..], dict)
  }

  /** `convert_to_british_english`, with the dictionary as a parameter. */
  function ToBritish(text: string, dict: map<string, string>): string {
    ConvertTokens(Tokens(text), dict)
  }

  lemma {:induction false} ConvertTokensUnchanged(ts: seq<string>, dict: map<string, string>)
    requires forall k :: 0 <= k < |ts| ==> !(IsWordToken(ts[k]) && ToLower(ts[k]) in dict)
    ensures ConvertTokens(ts, dict) == Concat(ts)
    decreases |ts|
  {
    if ts != [] {
      ConvertTokensUnchanged(ts[1..], dict);
    }
  }

  /** A text none of whose words is a dictionary key, in any case, is left
      exactly as it is. */
  lemma ToBritishUnchanged(text: string, dict: map<string, string>)
    requires forall k :: 0 <= k < |Tokens(text)| ==>
      !(IsWordToken(Tokens(text)[k]) && ToLower(Tokens(text)[k]) in dict)
    ensures ToBritish(text, dict) == text
  {
    ConvertTokensUnchanged(Tokens(text), dict);
    TokensConcat(text);
  }

  /** With an empty dictionary nothing changes. */
  lemma ToBritishEmptyDictionary(text: string)
    ensures ToBritish(text, map[]) == text
  {
    ToBritishUnchanged(text, map[]);
  }
  /** A run that ends inside `a` is not affected by what follows `a`. */
  lemma {:induction false} RunLengthAppend(a: string, b: string, word: bool)
    requires RunLength(a, word) < |a| || b == [] || IsWordChar(b[0]) != word
    ensures RunLength(a + b, word) == RunLength(a, word)
    decreases |a|
  {
    if a == [] {
      assert a + b == b;
    } else if IsWordChar(a[0]) == word {
      assert (a + b)[1..] == a[1..] + b;
      RunLengthAppend(a[1..], b, word);
    }
  }

  /** The first run of `a + b` is the first run of `a` when the word-ness
      changes between `a` and `b`. */
  lemma FirstRunOfAppend(a: string, b: string)
    requires a != []
    requires b == [] || IsWordChar(a[|a| - 1]) != IsWordChar(b[0])
    ensures RunLength(a + b, IsWordChar(a[0])) == RunLength(a, IsWordChar(a[0]))
  {
    var w := IsWordChar(a[0]);
    var n := RunLength(a, w);
    if n == |a| {
      RunLengthRun(a, w, n - 1);
      assert b == [] || IsWordChar(b[0]) != w;
    }
    RunLengthAppend(a, b, w);
  }

  /** Cutting a text where the word-ness changes cuts its runs there too. */
  lemma {:induction false} TokensAppend(a: string, b: string)
    requires a == [] || b == [] || IsWordChar(a[|a| - 1]) != IsWordChar(b[0])
    ensures Tokens(a + b) == Tokens(a) + Tokens(b)
    decreases |a|
  {
    if a == [] {
      assert a + b == b;
    } else {
      var n := RunLength(a, IsWordChar(a[0]));
      var rest := a[n..];
      assert Tokens(a + b) == [a[..n]] + Tokens(rest + b) by {
        FirstRunOfAppend(a, b);
        var ab := a + b;
        assert ab[0] == a[0];
        assert ab[..n] == a[..n];
        assert ab[n..] == rest + b;
      }
      assert rest == [] || b == [] || IsWordChar(rest[|rest| - 1]) != IsWordChar(b[0]) by {
        assert rest != [] ==> rest[|rest| - 1] == a[|a| - 1];
      }
      TokensAppend(rest, b);
      AppendAssoc([a[..n]], Tokens(rest), Tokens(b));
    }
  }

  lemma AppendAssoc(x: seq<string>, y: seq<string>, z: seq<string>)
    ensures x + (y + z) == (x + y) + z
  {
  }

  lemma {:induction false} ConvertTokensAppend(x: seq<string>, y: seq<string>, dict: map<string, string>)
    ensures ConvertTokens(x + y, dict) == ConvertTokens(x, dict) + ConvertTokens(y, dict)
    decreases |x|
  {
    if x == [] {
      assert x + y == y;
    } else {
      assert (x + y)[1..] == x[1..] + y;
      ConvertTokensAppend(x[1..], y, dict);
    }
  }

  /** Conversion works word by word: text cut where a word ends or begins
      is converted piece by piece, so a dictionary word is replaced only
      where it stands as a whole word. */
  lemma ToBritishAppend(a: string, b: string, dict: map<string, string>)
    requires a == [] || b == [] || IsWordChar(a[|a| - 1]) != IsWordChar(b[0])
    ensures ToBritish(a + b, dict) == ToBritish(a, dict) + ToBritish(b, dict)
  {
    TokensAppend(a, b);
    ConvertTokensAppend(Tokens(a), Tokens(b), dict);
  }

  /** A whole word is replaced by its British spelling in the word's case
      shape when its lower-case form is a dictionary key, and kept
      otherwise. */
  lemma ToBritishWord(w: string, dict: map<string, string>)
    requires w != [] && forall i :: 0 <= i < |w| ==> IsWordChar(w[i])
    ensures ToLower(w) in dict ==> ToBritish(w, dict) == MatchCase(w, dict[ToLower(w)])
    ensures ToLower(w) !in dict ==> ToBritish(w, dict) == w
  {
    var n := RunLength(w, true);
    assert n == |w|;
    assert w[..n] == w;
    assert w[n..] == [];
    assert Tokens(w) == [w];
    assert ConvertTokens([w], dict) == ConvertToken(w, dict) + ConvertTokens([], dict);
    assert IsWordToken(w);
  }
}
