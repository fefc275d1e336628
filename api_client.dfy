/** The front end's URL builder: joins the API base, with one trailing '/'
    stripped, to a request path. */
module ApiClient {

  predicate StartsWith(s: string, prefix: string) {
    |prefix| <= |s| && s[..|prefix|] == prefix
  }

  predicate EndsWith(s: string, suffix: string) {
    |suffix| <= |s| && s[|s| - |suffix|..] == suffix
  }

  /** `replace(/\/$/, '')`: one trailing slash removed, if there is one. */
  function StripTrailingSlash(s: string): (r: string)
    ensures |s| > 0 && s[|s| - 1] == '/' ==> r + "/" == s
    ensures !(|s| > 0 && s[|s| - 1] == '/') ==> r == s
  {
    if |s| > 0 && s[|s| - 1] == '/' then s[..|s| - 1] else s
  }

  /** The configured base. */
  const ApiBase: string := StripTrailingSlash("http://localhost:8080")

  lemma ApiBaseValue()
    ensures ApiBase == "http://localhost:8080"
  {
  }

  /** `buildUrl(path)` against the given base: the path itself when the base
      is empty or the path starts with "http"; otherwise the base followed by
      the path, with a '/' put between them unless the path begins with one. */
  function BuildUrl(base: string, path: string): (url: string)
    ensures EndsWith(url, path)
    ensures url == path || (StartsWith(url, base) && |url| > |base|)
  {
    if base == "" then path
    else if StartsWith(path, "http") then path
    else base + (if StartsWith(path, "/") then path else "/" + path)
  }

  /** With no base, or for an absolute "http..." path, the path is used as
      it is. */
  lemma PathPassesThrough(base: string, path: string)
    requires base == "" || StartsWith(path, "http")
    ensures BuildUrl(base, path) == path
  {
  }

  /** A joined URL starts with the base, ends with the path, and has exactly
      one '/' where they meet when the path is relative. */
  lemma JoinedUrlShape(base: string, path: string)
    requires base != "" && !StartsWith(path, "http")
    ensures StartsWith(BuildUrl(base, path), base)
    ensures EndsWith(BuildUrl(base, path), path)
    ensures |BuildUrl(base, path)| == |base| + |path| + (if StartsWith(path, "/") then 0 else 1)
    ensures BuildUrl(base, path)[|base|] == '/' || path == ""
  {
    var url := BuildUrl(base, path);
    assert url[..|base|] == base;
    if StartsWith(path, "/") {
      assert url == base + path;
      assert url[|url| - |path|..] == path;
    } else {
      assert url == base + "/" + path;
      assert url[|url| - |path|..] == path;
    }
  }

  /** A path starting with '/' is appended to the configured base as it is. */
  lemma RootedPathJoins(path: string)
    requires |path| > 0 && path[0] == '/'
    ensures BuildUrl(ApiBase, path) == "http://localhost:8080" + path
  {
    ApiBaseValue();
    assert !StartsWith(path, "http") by {
      if |path| >= 4 { assert path[..4][0] == '/'; }
    }
    assert StartsWith(path, "/");
  }

  /** The paths the front end's request helpers pass to `buildUrl`, with 12
      standing for a card id. */
  const FrontEndPaths: seq<string> := ["/categories", "/calculate-list", "/cards/12", "/analytics"]

  /** The front end's own requests go to the configured base followed by
      their path. */
  lemma CardRequestUrl()
    ensures forall i :: 0 <= i < |FrontEndPaths| ==>
      BuildUrl(ApiBase, FrontEndPaths[i]) == "http://localhost:8080" + FrontEndPaths[i]
  {
    forall i | 0 <= i < |FrontEndPaths|
      ensures BuildUrl(ApiBase, FrontEndPaths[i]) == "http://localhost:8080" + FrontEndPaths[i]
    {
      RootedPathJoins(FrontEndPaths[i]);
    }
  }
}
