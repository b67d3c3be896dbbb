/** The gateway's authentication helpers: the bearer token, the excluded-path test and the admin path table. */
module AuthMiddleware {
  import opened Util

  const BearerPrefix := "Bearer "

  /** extractToken: the text after "Bearer " when the header is longer than that prefix and begins with it, else "". */
  function ExtractToken(authHeader: string): (token: string)
    ensures |authHeader| > 7 && StartsWith(authHeader, BearerPrefix) ==> BearerPrefix + token == authHeader
    ensures !(|authHeader| > 7 && StartsWith(authHeader, BearerPrefix)) ==> token == ""
  {
    if |authHeader| > 7 && authHeader[..7] == BearerPrefix then authHeader[7..] else ""
  }

  /** The token of a header built as "Bearer " + token is that token (an empty one included). */
  lemma ExtractTokenRoundTrip(token: string)
    ensures ExtractToken(BearerPrefix + token) == token
  {
    assert (BearerPrefix + token)[..7] == BearerPrefix;
    assert (BearerPrefix + token)[7..] == token;
  }

  /** A pattern ending in '*' stands for every path beginning with the pattern without its '*'. */
  predicate IsWildcard(pattern: string)
  {
    |pattern| > 0 && pattern[|pattern| - 1] == '*'
  }

  /** One excluded pattern matches a path: exactly, or as a wildcard stem. */
  predicate Matches(path: string, pattern: string)
  {
    path == pattern || (IsWildcard(pattern) && StartsWith(path, pattern[..|pattern| - 1]))
  }

  /** The excluded-path relation: some pattern in the list matches. */
  predicate Excluded(path: string, excludedPaths: seq<string>)
  {
    exists i :: 0 <= i < |excludedPaths| && Matches(path, excludedPaths[i])
  }

  /** isExcludedPath: the patterns are tried in order and the first match answers true. */
  method IsExcludedPath(path: string, excludedPaths: seq<string>) returns (r: bool)
    ensures r <==> Excluded(path, excludedPaths)
  {
    var k := 0;
    while k < |excludedPaths|
      invariant 0 <= k <= |excludedPaths|
      invariant forall i :: 0 <= i < k ==> !Matches(path, excludedPaths[i])
    {
      var excludedPath := excludedPaths[k];
      if path == excludedPath {
        return true;
      }
      if |excludedPath| > 0 && excludedPath[|excludedPath| - 1] == '*' {
        var stem := |excludedPath| - 1;
        if |path| >= stem && path[..stem] == excludedPath[..stem] {
          return true;
        }
      }
      k := k + 1;
    }
    return false;
  }

  /** A wildcard pattern matches its own stem and everything below it; "*" matches every path. */
  lemma WildcardCoversStem(stem: string, rest: string, excludedPaths: seq<string>)
    requires stem + "*" in excludedPaths
    ensures Excluded(stem + rest, excludedPaths)
  {
    var i :| 0 <= i < |excludedPaths| && excludedPaths[i] == stem + "*";
    assert (stem + "*")[..|stem|] == stem;
    assert (stem + rest)[..|stem|] == stem;
    assert Matches(stem + rest, excludedPaths[i]);
  }

  /** A list without wildcards excludes exactly its own members. */
  lemma ExactListsExcludeMembers(path: string, excludedPaths: seq<string>)
    requires forall i :: 0 <= i < |excludedPaths| ==> !IsWildcard(excludedPaths[i])
    ensures Excluded(path, excludedPaths) <==> path in excludedPaths
  {
    if path in excludedPaths {
      var i :| 0 <= i < |excludedPaths| && excludedPaths[i] == path;
      assert Matches(path, excludedPaths[i]);
    }
  }

  /** The key initAdminPaths stores for one configured path: one trailing '*' removed. */
  function AdminKey(path: string): (key: string)
    requires |path| > 0
    ensures IsWildcard(path) ==> key + "*" == path
    ensures !IsWildcard(path) ==> key == path
  {
    if path[|path| - 1] == '*' then path[..|path| - 1] else path
  }

  /** The admin table built from the first k configured paths. */
  function AdminTable(paths: seq<string>): (table: set<string>)
    requires forall i :: 0 <= i < |paths| ==> |paths[i]| > 0
  {
    if paths == [] then {} else AdminTable(paths[..|paths| - 1]) + {AdminKey(paths[|paths| - 1])}
  }

  /** A key is in the table exactly when some configured path gives it. */
  lemma {:induction false} AdminTableMembers(paths: seq<string>, key: string)
    requires forall i :: 0 <= i < |paths| ==> |paths[i]| > 0
    ensures key in AdminTable(paths) <==> exists i :: 0 <= i < |paths| && AdminKey(paths[i]) == key
  {
    if paths != [] {
      var init := paths[..|paths| - 1];
      AdminTableMembers(init, key);
      if exists i :: 0 <= i < |init| && AdminKey(init[i]) == key {
        var i :| 0 <= i < |init| && AdminKey(init[i]) == key;
        assert AdminKey(paths[i]) == key;
      }
      if exists i :: 0 <= i < |paths| && AdminKey(paths[i]) == key {
        var i :| 0 <= i < |paths| && AdminKey(paths[i]) == key;
        if i < |init| {
          assert AdminKey(init[i]) == key;
        }
      }
    }
  }

  /**
   * A configured "x*" gives the key "x" only: looking a path up in the table is exact,
   * so the paths below "x" are not in it.
   */
  lemma StarIsDropped(stem: string, rest: string)
    requires rest != ""
    ensures AdminTable([stem + "*"]) == {stem}
    ensures stem + rest !in AdminTable([stem + "*"])
  {
    assert [stem + "*"][..0] == [];
    assert AdminKey(stem + "*") == stem;
    assert |stem + rest| > |stem|;
  }

  /** The package-level table of paths that need the admin role. */
  class AdminPaths {
    var table: set<string>

    constructor()
      ensures table == {}
    {
      table := {};
    }

    /** initAdminPaths: the table is replaced by the keys of the configured paths; an empty path would panic. */
    method InitAdminPaths(paths: seq<string>)
      requires forall i :: 0 <= i < |paths| ==> |paths[i]| > 0
      modifies this
      ensures table == AdminTable(paths)
    {
      table := {};
      var k := 0;
      while k < |paths|
        invariant 0 <= k <= |paths|
        invariant table == AdminTable(paths[..k])
      {
        assert paths[..k + 1][..k] == paths[..k];
        var path := paths[k];
        if path[|path| - 1] == '*' {
          path := path[..|path| - 1];
        }
        table := table + {path};
        k := k + 1;
      }
      assert paths[..k] == paths;
    }
  }
}
