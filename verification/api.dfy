/** Endpoint URLs: a configured base followed verbatim by a path. */
module Api {
  import opened Basics

  /** `API_BASE`: the configured `VITE_API_URL` when it is truthy, otherwise `""`. */
  function ApiBase(viteApiUrl: Option<string>): (base: string)
    ensures viteApiUrl.Some? && viteApiUrl.value != "" ==> base == viteApiUrl.value
    ensures viteApiUrl == None || viteApiUrl == Some("") ==> base == ""
  {
    if viteApiUrl.Some? && viteApiUrl.value != "" then viteApiUrl.value else ""
  }

  /** `apiUrl(path)`: no slash is added, dropped or merged. */
  function ApiUrl(base: string, path: string): (url: string)
    ensures |url| == |base| + |path|
    ensures url[..|base|] == base
    ensures url[|base|..] == path
  {
    base + path
  }

  /** `needle` occurs in `s` starting at index `i`. */
  predicate OccursAt(s: string, needle: string, i: int) {
    0 <= i <= |s| - |needle| && s[i..i + |needle|] == needle
  }

  /** `needle` occurs somewhere in `s`. */
  predicate Contains(s: string, needle: string) {
    exists i | 0 <= i <= |s| :: OccursAt(s, needle, i)
  }

  /** With no configured base every URL is the bare path. */
  lemma UnconfiguredBaseIsIdentity(path: string)
    ensures ApiUrl(ApiBase(None), path) == path
    ensures ApiUrl(ApiBase(Some("")), path) == path
  {
  }

  /** A path ends up inside the URL whatever the base, so both spellings reach `api/users`. */
  lemma PathIsContained(base: string, path: string)
    ensures Contains(ApiUrl(base, path), path)
  {
    var url := ApiUrl(base, path);
    assert OccursAt(url, path, |base|);
  }

  lemma BothSpellingsReachUsers(base: string)
    ensures Contains(ApiUrl(base, "/api/users"), "api/users")
    ensures Contains(ApiUrl(base, "api/users"), "api/users")
  {
    var url := ApiUrl(base, "/api/users");
    assert OccursAt(url, "api/users", |base| + 1);
    PathIsContained(base, "api/users");
  }
}
