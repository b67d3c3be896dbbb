/** The gateway's rewrite of an incoming path into the path sent to a backend service. */
module Gateway {
  import opened Util

  /**
   * getProxyPath: with the prefix, the rest of the path, given a leading "/" when it is
   * non-empty and lacks one; without the prefix, the path unchanged.
   */
  function GetProxyPath(originalPath: string, prefix: string): (r: string)
    ensures !StartsWith(originalPath, prefix) ==> r == originalPath
    ensures StartsWith(originalPath, prefix) && originalPath == prefix ==> r == ""
    ensures StartsWith(originalPath, prefix) ==> r == "" || r[0] == '/'
    ensures StartsWith(originalPath, prefix) && |originalPath| > |prefix| && originalPath[|prefix|] == '/' ==>
      r == originalPath[|prefix|..]
    ensures StartsWith(originalPath, prefix) && |originalPath| > |prefix| && originalPath[|prefix|] != '/' ==>
      r == "/" + originalPath[|prefix|..]
  {
    if StartsWith(originalPath, prefix) then
      var path := originalPath[|prefix|..];
      if path != "" && !StartsWith(path, "/") then "/" + path else path
    else originalPath
  }

  /** A backend path that is empty or starts with "/" comes back unchanged from behind the prefix. */
  lemma ProxyPathRoundTrip(prefix: string, path: string)
    requires path == "" || path[0] == '/'
    ensures GetProxyPath(prefix + path, prefix) == path
  {
    assert (prefix + path)[..|prefix|] == prefix;
    assert (prefix + path)[|prefix|..] == path;
  }

  /** The prefix is cut wherever it ends, not only at a "/" boundary. */
  lemma ScenarioPrefixInsideSegment()
    ensures GetProxyPath("/api/v1beta", "/api/v1") == "/beta"
  {
    assert StartsWith("/api/v1beta", "/api/v1");
    assert "/api/v1beta"[7..] == "beta";
  }
}
