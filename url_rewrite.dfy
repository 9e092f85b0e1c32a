/**
 * The router middleware that resets `req.originalUrl`: the mount pattern
 * "/api/v1/" is removed with `String.prototype.replace` and a string pattern,
 * which replaces the first occurrence only, wherever it stands.
 */
module UrlRewrite {
  import opened Wrappers

  /** The pattern the middleware removes. */
  const ApiPrefix: string := "/api/v1/"

  /** `pat` occurs in `s` starting at index `i`. */
  predicate OccursAt(s: string, pat: string, i: int)
  {
    0 <= i && i + |pat| <= |s| && s[i..i + |pat|] == pat
  }

  /** `s.indexOf(pat, from)`: the first index at or after `from` where `pat` occurs. */
  function IndexOfFrom(s: string, pat: string, from: nat): (r: Option<nat>)
    ensures r.Some? ==> from <= r.value && OccursAt(s, pat, r.value)
    ensures r.Some? ==> forall j :: from <= j < r.value ==> !OccursAt(s, pat, j)
    ensures r.None? ==> forall j :: from <= j ==> !OccursAt(s, pat, j)
    decreases |s| - from
  {
    if from + |pat| > |s| then None
    else if s[from..from + |pat|] == pat then Some(from)
    else IndexOfFrom(s, pat, from + 1)
  }

  /** `s.replace(pat, repl)` with a string pattern: only the first occurrence is replaced. */
  function ReplaceFirst(s: string, pat: string, repl: string): string
  {
    match IndexOfFrom(s, pat, 0)
    case None => s
    case Some(i) => s[..i] + repl + s[i + |pat|..]
  }

  /** The path the middleware leaves in `req.originalUrl`. */
  function RewriteUrl(url: string): string
  {
    ReplaceFirst(url, ApiPrefix, "")
  }

  /** A URL that does not contain the pattern passes through unchanged. */
  lemma RewriteWithoutPrefix(url: string)
    requires forall j :: !OccursAt(url, ApiPrefix, j)
    ensures RewriteUrl(url) == url
  {
  }

  /**
   * Exactly the first occurrence of the pattern is cut out, wherever it
   * stands: the text before it and the text after it are kept as they are,
   * including any later occurrence.
   */
  lemma RewriteRemovesFirstOccurrence(url: string, i: nat)
    requires OccursAt(url, ApiPrefix, i)
    requires forall j :: 0 <= j < i ==> !OccursAt(url, ApiPrefix, j)
    ensures RewriteUrl(url) == url[..i] + url[i + |ApiPrefix|..]
    ensures |RewriteUrl(url)| == |url| - |ApiPrefix|
  {
    var r := IndexOfFrom(url, ApiPrefix, 0);
    assert r == Some(i);
  }

  /** A URL that starts with the pattern loses exactly that leading copy. */
  lemma RewriteLeadingPrefix(url: string)
    requires |url| >= |ApiPrefix| && url[..|ApiPrefix|] == ApiPrefix
    ensures RewriteUrl(url) == url[|ApiPrefix|..]
  {
    assert OccursAt(url, ApiPrefix, 0);
    RewriteRemovesFirstOccurrence(url, 0);
  }

  /** Only the first of two occurrences is removed. */
  lemma RewriteKeepsLaterOccurrence()
    ensures RewriteUrl("/api/v1/users/api/v1/") == "users/api/v1/"
  {
    RewriteLeadingPrefix("/api/v1/users/api/v1/");
  }

  /** The pattern is removed even when it does not stand at the start. */
  lemma RewriteInnerOccurrence()
    ensures RewriteUrl("/x/api/v1/users") == "/xusers"
  {
    var url := "/x/api/v1/users";
    assert OccursAt(url, ApiPrefix, 2);
    assert url[0..8][1] != ApiPrefix[1] && url[1..9][0] != ApiPrefix[0];
    RewriteRemovesFirstOccurrence(url, 2);
  }
}
