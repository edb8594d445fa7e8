/** The path rules of the HTTP server: the fix-up of the base API prefix and
    of every sub-path, and the "full path" that is logged for each group and
    route registered under the base. */
module RoutePath {

  /** The path begins with a separator (Go's strings.HasPrefix(p, "/")). */
  predicate StartsWithSlash(p: string)
  {
    |p| > 0 && p[0] == '/'
  }

  predicate EndsWithSlash(p: string)
  {
    |p| > 0 && p[|p| - 1] == '/'
  }

  /** No two separators stand next to each other. */
  predicate NoDoubleSlash(p: string)
  {
    forall i :: 0 <= i < |p| - 1 ==> !(p[i] == '/' && p[i + 1] == '/')
  }

  /** The fix-up every path receives before use: a non-empty path without a
      leading separator gains exactly one; anything else is left alone. */
  function WithLeadingSlash(p: string): (r: string)
    ensures r == "" <==> p == ""
    ensures r != "" ==> StartsWithSlash(r)
    ensures StartsWithSlash(p) ==> r == p
    ensures p != "" && !StartsWithSlash(p) ==> r == "/" + p && r[1..] == p
  {
    if !StartsWithSlash(p) && p != "" then "/" + p else p
  }

  /** Fixing a path up twice is fixing it up once. */
  lemma WithLeadingSlashIdempotent(p: string)
    ensures WithLeadingSlash(WithLeadingSlash(p)) == WithLeadingSlash(p)
  {
  }

  /** The full path logged for a sub-path registered under `base`: the
      fixed-up sub-path appended to the base, except that a root base is not
      repeated in front of a non-empty sub-path, and that an empty sub-path
      leaves the base as it is. */
  function FullPath(base: string, sub: string): (r: string)
    ensures base != "/" ==> r == base + WithLeadingSlash(sub)
    ensures base == "/" ==> r == if sub == "" then "/" else WithLeadingSlash(sub)
    ensures sub == "" ==> r == base
    ensures base == "" ==> r == WithLeadingSlash(sub)
  {
    var rel := WithLeadingSlash(sub);
    if base == "/" && rel == "" then "/"
    else if base == "/" && StartsWithSlash(rel) then rel
    else if base != "" && rel == "" then base
    else base + rel
  }

  /** Under a base the server itself fixed up, the full path is empty only
      when both the base and the sub-path are, and otherwise starts with a
      separator and ends with the fixed-up sub-path. */
  lemma FullPathUnderFixedBase(raw: string, sub: string)
    ensures var r := FullPath(WithLeadingSlash(raw), sub);
            (r == "" <==> raw == "" && sub == "") &&
            (r != "" ==> StartsWithSlash(r)) &&
            |WithLeadingSlash(sub)| <= |r| && r[|r| - |WithLeadingSlash(sub)|..] == WithLeadingSlash(sub)
  {
  }

  /** The root special case is what keeps the join clean: for a base that is
      the root or does not end in a separator, the full path has no doubled
      separator unless the base or the sub-path already had one. */
  lemma FullPathNoDoubleSlash(base: string, sub: string)
    requires NoDoubleSlash(base) && NoDoubleSlash(sub)
    requires base == "/" || !EndsWithSlash(base)
    ensures NoDoubleSlash(FullPath(base, sub))
  {
  }

  /** A base that ends in a separator is not special-cased: its full paths
      double the separator. */
  lemma TrailingSlashBaseDoubles()
    ensures FullPath("/api/v1/", "orders") == "/api/v1//orders"
  {
  }

  /** The composition table for the bases "", "/", "api", "/api/v1" (as the
      server stores them, fixed up) and the sub-paths "", "x", "/x". */
  lemma CompositionTable()
    ensures FullPath(WithLeadingSlash(""), "") == ""
    ensures FullPath(WithLeadingSlash(""), "x") == "/x"
    ensures FullPath(WithLeadingSlash(""), "/x") == "/x"
    ensures FullPath(WithLeadingSlash("/"), "") == "/"
    ensures FullPath(WithLeadingSlash("/"), "x") == "/x"
    ensures FullPath(WithLeadingSlash("/"), "/x") == "/x"
    ensures FullPath(WithLeadingSlash("api"), "") == "/api"
    ensures FullPath(WithLeadingSlash("api"), "x") == "/api/x"
    ensures FullPath(WithLeadingSlash("api"), "/x") == "/api/x"
    ensures FullPath(WithLeadingSlash("/api/v1"), "") == "/api/v1"
    ensures FullPath(WithLeadingSlash("/api/v1"), "x") == "/api/v1/x"
    ensures FullPath(WithLeadingSlash("/api/v1"), "/x") == "/api/v1/x"
  {
  }
}
