/** The storage folders of a report (Scripts/Predictive_Report/write_create_folders.py):
    a client folder, a question-context folder under it, a dated folder
    under that, and the seven working folders inside the dated one. */
module Folders {
  import opened Strings

  /** `segment.strip().replace(" ", "_")` */
  function Underscored(segment: string): (r: string)
    ensures ' ' !in r
  {
    ReplaceCharRemoves(Trim(segment), ' ', "_");
    Replace(Trim(segment), " ", "_")
  }

  /** `normalise_path_segment`: stripped, spaces turned into `_`,
      title-cased. Only the case of letters differs from the underscored
      segment: a letter that starts a word (first, or after a non-letter
      such as `_`) is upper-case and every other letter lower-case. */
  function NormalisePathSegment(segment: string): (r: string)
    ensures ToLower(r) == ToLower(Underscored(segment))
    ensures |r| == |Underscored(segment)|
    ensures forall i :: 0 <= i < |r| ==>
      r[i] == (if i > 0 && IsLetter(Underscored(segment)[i - 1]) then LowerChar(Underscored(segment)[i])
               else UpperChar(Underscored(segment)[i]))
    ensures ' ' !in r
  {
    var u := Underscored(segment);
    TitleFromChars(u, false);
    TitleFromLower(u, false);
    NonLetterInLower(Title(u), ' ');
    NonLetterInLower(u, ' ');
    Title(u)
  }

  /** `uppercase_path_segment`: stripped, spaces turned into `_`,
      upper-cased; only the case of letters differs from the underscored
      segment, and no letter is lower-case. */
  function UppercasePathSegment(segment: string): (r: string)
    ensures ToLower(r) == ToLower(Underscored(segment))
    ensures ' ' !in r
    ensures forall i :: 0 <= i < |r| ==> !IsLowerChar(r[i])
  {
    var u := Underscored(segment);
    LowerOfUpper(u);
    NonLetterInLower(ToUpper(u), ' ');
    NonLetterInLower(u, ' ');
    ToUpper(u)
  }

  /** One character of the date as it appears in the stamp: `/` becomes
      `-`, a space `_`, a `:` nothing, and anything else itself. */
  function StampChar(c: char): string {
    if c == '/' then "-" else if c == ' ' then "_" else if c == ':' then "" else [c]
  }

  /** The date stamp written character by character. */
  function StampOf(s: string): string
    decreases |s|
  {
    if s == [] then [] else StampChar(s[0]) + StampOf(s[1..])
  }

  /** A one-character pattern is replaced character by character. */
  lemma ReplaceCharCons(c: char, t: string, pat: char, rep: string)
    ensures Replace([c] + t, [pat], rep) == (if c == pat then rep else [c]) + Replace(t, [pat], rep)
  {
    var s := [c] + t;
    assert s[..1] == [c] && s[1..] == t;
  }

  /** The three replacements of the date stamp, one character at a time. */
  lemma {:induction false} DateStampChars(s: string)
    ensures Replace(Replace(Replace(s, "/", "-"), " ", "_"), ":", "") == StampOf(s)
    decreases |s|
  {
    if s != [] {
      var c := s[0];
      var t := s[1..];
      assert s == [c] + t;
      DateStampChars(t);
      var a := Replace(t, "/", "-");
      var b := Replace(a, " ", "_");
      ReplaceCharCons(c, t, '/', "-");
      var c1 := if c == '/' then '-' else c;
      assert Replace(s, "/", "-") == [c1] + a;
      ReplaceCharCons(c1, a, ' ', "_");
      var c2 := if c1 == ' ' then '_' else c1;
      assert Replace([c1] + a, " ", "_") == [c2] + b;
      ReplaceCharCons(c2, b, ':', "");
      assert Replace([c2] + b, ":", "") == (if c2 == ':' then "" else [c2]) + Replace(b, ":", "");
      assert (if c2 == ':' then "" else [c2]) == StampChar(c);
    }
  }

  /** The stamp holds no `/`, space or `:`. */
  lemma {:induction false} StampOfFree(s: string)
    ensures '/' !in StampOf(s) && ' ' !in StampOf(s) && ':' !in StampOf(s)
    decreases |s|
  {
    if s != [] {
      StampOfFree(s[1..]);
    }
  }

  /** Without a `:`, the stamp has the date's length and maps each character
      on its own. */
  lemma {:induction false} StampOfColonFree(s: string)
    requires ':' !in s
    ensures |StampOf(s)| == |s|
    ensures forall i :: 0 <= i < |s| ==> StampOf(s)[i] == StampChar(s[i])[0]
    decreases |s|
  {
    if s != [] {
      StampOfColonFree(s[1..]);
      forall i | 0 < i < |s| ensures StampOf(s)[i] == StampChar(s[i])[0] {
        assert StampOf(s)[i] == StampOf(s[1..])[i - 1];
        assert s[1..][i - 1] == s[i];
      }
    }
  }

  /** The date stamp `today_date.replace("/", "-").replace(" ", "_")
      .replace(":", "")`: each character of the date in turn, with `/`
      written as `-`, a space as `_` and a `:` dropped. */
  function DateStamp(todayDate: string): (r: string)
    ensures r == StampOf(todayDate)
    ensures '/' !in r && ' ' !in r && ':' !in r
  {
    DateStampChars(todayDate);
    StampOfFree(todayDate);
    Replace(Replace(Replace(todayDate, "/", "-"), " ", "_"), ":", "")
  }

  /** The request fields the paths are built from. */
  datatype FolderRequest = FolderRequest(client: string, targetVariable: string, commodity: string,
                                         region: string, timeRange: string, todayDate: string)

  const ReportsRoot := "Predictive_Report/Completed_Reports"

  const Subfolders: seq<string> := [
    "Image_Prompts", "InDesign_Import_csv", "Logos", "Outputs",
    "Question_Context", "Report_Content_txt", "Report_and_Section_Tables"
  ]

  /** The question-context folder: the commodity, region and time range
      sentence, upper-cased. */
  function ContextFolder(req: FolderRequest): string {
    UppercasePathSegment(req.commodity + "_in_the_" + req.region + "_over_the_next_" + req.timeRange)
  }

  /** The dated folder: the target variable, upper-cased, then the date
      stamp. */
  function DatedFolder(req: FolderRequest): string {
    UppercasePathSegment(req.targetVariable) + "_" + DateStamp(req.todayDate)
  }

  /** `build_expected_paths`: the client folder, the context folder, the
      dated folder, then the seven working folders in order. */
  function BuildExpectedPaths(req: FolderRequest): (r: seq<string>)
    ensures |r| == 3 + |Subfolders| == 10
    ensures r[0] == ReportsRoot + "/" + NormalisePathSegment(req.client)
    ensures r[1] == r[0] + "/" + ContextFolder(req)
    ensures r[2] == r[1] + "/" + DatedFolder(req)
    ensures forall k :: 0 <= k < |Subfolders| ==> r[3 + k] == r[2] + "/" + Subfolders[k]
  {
    var basePath := ReportsRoot + "/" + NormalisePathSegment(req.client);
    var contextPath := basePath + "/" + ContextFolder(req);
    var datedPath := contextPath + "/" + DatedFolder(req);
    [basePath, contextPath, datedPath]
      + seq(|Subfolders|, k requires 0 <= k < |Subfolders| => datedPath + "/" + Subfolders[k])
  }

  /** Each of the first three folders holds every folder listed after it:
      the context folder lies under the client folder, the dated folder
      under the context folder, and every working folder under the dated
      folder. */
  lemma PathsNested(req: FolderRequest, i: nat, j: nat)
    requires i < 3 && i < j < 10
    ensures StartsWith(BuildExpectedPaths(req)[j], BuildExpectedPaths(req)[i] + "/")
  {
    var r := BuildExpectedPaths(req);
    ChildPath(r[0], ContextFolder(req));
    ChildPath(r[1], DatedFolder(req));
    StartsWithTrans(r[2], r[1], r[0] + "/");
    if j >= 3 {
      ChildPath(r[2], Subfolders[j - 3]);
      if i < 2 {
        StartsWithTrans(r[j], r[2], r[i] + "/");
      }
    }
  }

  /** `a/x` lies under `a`. */
  lemma ChildPath(a: string, x: string)
    ensures StartsWith(a + "/" + x, a + "/") && StartsWith(a + "/" + x, a)
  {
    assert (a + "/" + x)[..|a + "/"|] == a + "/";
    assert (a + "/" + x)[..|a|] == a;
  }

  lemma StartsWithTrans(s: string, t: string, p: string)
    requires StartsWith(s, t) && StartsWith(t, p)
    ensures StartsWith(s, p)
  {
    assert s[..|p|] == s[..|t|][..|p|];
  }

  /** The ten paths are all different. */
  lemma PathsDistinct(req: FolderRequest, i: nat, j: nat)
    requires i < j < 10
    ensures BuildExpectedPaths(req)[i] != BuildExpectedPaths(req)[j]
  {
    var r := BuildExpectedPaths(req);
    if j >= 3 {
      if i >= 3 {
        SubfoldersDistinct(i - 3, j - 3);
        SiblingPaths(r[2], Subfolders[i - 3], Subfolders[j - 3]);
      } else {
        PathsNested(req, i, j);
      }
    } else {
      PathsNested(req, i, j);
    }
  }

  lemma SubfoldersDistinct(a: nat, b: nat)
    requires a < b < |Subfolders|
    ensures Subfolders[a] != Subfolders[b]
  {
  }

  /** Two different names give two different paths under one folder. */
  lemma SiblingPaths(p: string, a: string, b: string)
    requires a != b
    ensures p + "/" + a != p + "/" + b
  {
    var n := |p + "/"|;
    assert (p + "/" + a)[n..] == a && (p + "/" + b)[n..] == b;
  }
}
