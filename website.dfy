/** The client website normaliser (Scripts/Website_Year/website.py): a URL
    reduced to its domain and written as `www.<domain>`. */
module Website {
  import opened Wrappers
  import opened Strings

  /** The optional `https?://` at the start, matched without regard to
      case. */
  function StripScheme(w: string): (r: string)
    ensures |r| <= |w| && w[|w| - |r|..] == r
    ensures var p := w[..|w| - |r|]; p == [] || ToLower(p) == "https://" || ToLower(p) == "http://"
    ensures |r| == |w| <==> !StartsWith(ToLower(w), "https://") && !StartsWith(ToLower(w), "http://")
  {
    var l := ToLower(w);
    if StartsWith(l, "https://") then
      assert ToLower(w[..8]) == l[..8];
      w[8..]
    else if StartsWith(l, "http://") then
      assert ToLower(w[..7]) == l[..7];
      w[7..]
    else w
  }

  /** The optional `www.` after the scheme, matched without regard to
      case. */
  function StripWww(d: string): (r: string)
    ensures |r| <= |d| && d[|d| - |r|..] == r
    ensures var p := d[..|d| - |r|]; p == [] || ToLower(p) == "www."
    ensures |r| == |d| <==> !StartsWith(ToLower(d), "www.")
  {
    if StartsWith(ToLower(d), "www.") then
      assert ToLower(d[..4]) == ToLower(d)[..4];
      d[4..]
    else d
  }

  /** The domain: the address with its scheme and one `www.` removed, cut
      at the first `/` and stripped. */
  function Domain(website: string): string {
    Trim(Split(StripWww(StripScheme(website)), "/")[0])
  }

  /** The domain has no `/` and no surrounding whitespace. */
  lemma DomainShape(website: string)
    ensures '/' !in Domain(website)
    ensures IsTrimmed(Domain(website))
  {
    var p := Split(StripWww(StripScheme(website)), "/");
    SplitCharFree(StripWww(StripScheme(website)), '/');
    assert '/' !in p[0];
    TrimKeepsFree(p[0], '/');
  }

  /** `normalize_website`: `www.` followed by the domain, or the error it
      raises when the domain is empty or has no `.`. */
  function NormalizeWebsite(website: string): (r: Result<string>)
    ensures r.Ok? <==> Domain(website) != [] && '.' in Domain(website)
    ensures r.Ok? ==> StartsWith(r.value, "www.") && r.value[4..] == Domain(website)
  {
    var domain := Domain(website);
    if domain == [] || '.' !in domain then
      Err("Invalid domain after processing: '" + website + "' → '" + domain + "'")
    else
      Ok("www." + domain)
  }

  /** A scheme and a `www.`, in any case, are what the normaliser removes. */
  lemma PrefixesRemoved(scheme: string, www: string, rest: string)
    requires ToLower(scheme) == "https://" || ToLower(scheme) == "http://"
    requires ToLower(www) == "www."
    ensures StripWww(StripScheme(scheme + www + rest)) == rest
  {
    var w := scheme + www + rest;
    ToLowerAppend(scheme + www, rest);
    ToLowerAppend(scheme, www);
    var l := ToLower(w);
    assert l == ToLower(scheme) + "www." + ToLower(rest);
    if ToLower(scheme) == "https://" {
      assert l[..8] == "https://";
      assert w[8..] == www + rest;
    } else {
      assert l[..7] == "http://";
      assert l[..8] != "https://" by { assert l[4] != "https://"[4]; }
      assert w[7..] == www + rest;
    }
    ToLowerAppend(www, rest);
    assert ToLower(www + rest)[..4] == "www.";
    assert (www + rest)[4..] == rest;
  }

  /** `www.` in front of a trimmed domain without `/` is taken off again. */
  lemma DomainOfWww(d: string)
    requires '/' !in d && IsTrimmed(d)
    ensures Domain("www." + d) == d
  {
    var r := "www." + d;
    assert StripScheme(r) == r by {
      assert ToLower(r)[0] == 'w';
      assert !StartsWith(ToLower(r), "https://") by { assert ToLower(r)[0] != "https://"[0]; }
      assert !StartsWith(ToLower(r), "http://") by { assert ToLower(r)[0] != "http://"[0]; }
    }
    assert StripWww(r) == d by {
      assert ToLower(r)[..4] == "www.";
    }
    SplitOfCharFree(d, '/');
    TrimOfTrimmed(d);
  }

  /** Normalising a normalised address gives it back unchanged. */
  lemma NormalizeIdempotent(website: string)
    requires NormalizeWebsite(website).Ok?
    ensures NormalizeWebsite(NormalizeWebsite(website).value) == NormalizeWebsite(website)
  {
    DomainShape(website);
    DomainOfWww(Domain(website));
  }

  /** The answer of `run_prompt`: the normalised address or an error
      message. */
  datatype WebsiteResponse = Normalized(website: string) | Failed(error: string)

  /** `run_prompt`, with `url` the request's `client_website_url` ("" when
      missing): a blank address and an address the normaliser rejects both
      give an error answer. */
  function RunWebsite(url: string): (r: WebsiteResponse)
    ensures Trim(url) == "" ==> r == Failed("Missing client_website_url")
    ensures r.Normalized? <==> Trim(url) != "" && NormalizeWebsite(Trim(url)).Ok?
    ensures r.Normalized? ==> StartsWith(r.website, "www.") && r.website[4..] == Domain(Trim(url))
  {
    var website := Trim(url);
    if website == "" then Failed("Missing client_website_url")
    else
      match NormalizeWebsite(website)
      case Ok(n) => Normalized(n)
      case Err(e) => Failed("Website normalisation failed: " + e)
  }
}
