/**
 * `core search` (`commands/core/search.go`): which platform releases a
 * search returns.  A query of the shape `vid:pid` is answered by the
 * package manager's board lookup; any other query walks every package's
 * platforms, keeps the valid ones and, for a non-empty query, those that
 * fuzzy-match it.  The package manager's maps are given as sequences in
 * their iteration order; fuzzy ranking and the two package-manager
 * lookups are parameters.
 */
module CoreSearch {
  import opened Wrappers
  import opened Strings

  /** A platform release, with the names of the boards its manifest lists. */
  datatype Release = Release(version: string, boards: seq<string>)

  /** A platform: `id` is its `packager:architecture` name. */
  datatype Platform = Platform(
    id: string, name: string, architecture: string, manuallyInstalled: bool,
    releases: seq<Release>, latest: Option<Release>)

  /** A package, with its platforms (nil ones included) in iteration order. */
  datatype Package = Package(name: string, maintainer: string, websiteUrl: string, platforms: seq<Option<Platform>>)

  datatype SearchError = InvalidInstance

  /** The largest fuzzy distance still accepted, exclusive. */
  const MaximumSearchDistance := 20

  // ---- the query ----

  predicate IsLowerHex(c: char)
  {
    '0' <= c <= '9' || 'a' <= c <= 'f'
  }

  /** Text matching `[0-9a-f]{4}:[0-9a-f]{4}` starts at index `i` of `s`. */
  predicate VidPidAt(s: string, i: nat)
    requires i + 9 <= |s|
  {
    IsLowerHex(s[i]) && IsLowerHex(s[i + 1]) && IsLowerHex(s[i + 2]) && IsLowerHex(s[i + 3])
    && s[i + 4] == ':'
    && IsLowerHex(s[i + 5]) && IsLowerHex(s[i + 6]) && IsLowerHex(s[i + 7]) && IsLowerHex(s[i + 8])
  }

  /** The unanchored match of the USB-id pattern: it may occur anywhere in the query. */
  predicate IsUsbQuery(s: string)
  {
    exists i :: 0 <= i && i + 9 <= |s| && VidPidAt(s, i)
  }

  /**
   * The USB ids taken from a USB query: the first four characters and
   * everything from the sixth on, wherever the pattern matched.
   */
  function VidPid(s: string): (ids: (string, string))
    requires IsUsbQuery(s)
    ensures |ids.0| == 4 && ids.0 + s[4..5] + ids.1 == s
  {
    (s[..4], s[5..])
  }

  /** A query that is exactly `vid:pid` yields its two halves. */
  lemma ExactUsbQuery(vid: string, pid: string)
    requires |vid| == 4 && |pid| == 4
    requires forall k :: 0 <= k < 4 ==> IsLowerHex(vid[k]) && IsLowerHex(pid[k])
    ensures IsUsbQuery(vid + ":" + pid)
    ensures VidPid(vid + ":" + pid) == (vid, pid)
  {
    var s := vid + ":" + pid;
    assert VidPidAt(s, 0);
    assert s[..4] == vid && s[5..] == pid;
  }

  /**
   * The pattern is not anchored: a query that only contains a USB id
   * somewhere still takes the USB path, and its "vid" is then simply its
   * first four characters.
   */
  lemma UnanchoredUsbQuery()
    ensures IsUsbQuery("uno 2341:0043")
    ensures VidPid("uno 2341:0043") == ("uno ", "341:0043")
  {
    var s := "uno 2341:0043";
    assert VidPidAt(s, 4);
    assert s[..4] == "uno ";
    assert s[5..] == "341:0043";
  }

  /**
   * The cleaned query: Go's `strings.Map` with a switch whose `_` and `-`
   * cases are empty and do not fall through, so only spaces are removed.
   */
  function Clean(s: string): (r: string)
    ensures |r| <= |s|
    ensures forall c :: c in r <==> c in s && c != ' '
    ensures ' ' !in s ==> r == s
  {
    if s == [] then ""
    else if s[0] == ' ' then Clean(s[1..])
    else
      assert s == [s[0]] + s[1..];
      [s[0]] + Clean(s[1..])
  }

  // ---- what each platform contributes ----

  /** A platform the search considers: non-nil, named, installed through the manager, with a latest release. */
  predicate Valid(p: Option<Platform>)
  {
    p.Some? && p.value.name != "" && !p.value.manuallyInstalled && p.value.latest.Some?
  }

  /** The strings a query is fuzzy-matched against. */
  function ToTest(pkg: Package, p: Platform): seq<string>
    requires p.latest.Some?
  {
    [p.id, p.name, p.architecture, pkg.name, pkg.maintainer, pkg.websiteUrl] + p.latest.value.boards
  }

  /** `ranks(arg, toTest)`: the distances of the fuzzy matches of `arg` among `toTest`. */
  predicate CloseMatch(arg: string, toTest: seq<string>, ranks: (string, seq<string>) -> seq<nat>)
  {
    exists k :: 0 <= k < |ranks(arg, toTest)| && ranks(arg, toTest)[k] < MaximumSearchDistance
  }

  /** The releases a platform adds: all of them or just the latest. */
  function Offered(p: Platform, allVersions: bool): seq<Release>
    requires p.latest.Some?
  {
    if allVersions then p.releases else [p.latest.value]
  }

  /**
   * What one platform adds to the result: nothing when it is not valid;
   * otherwise its offered releases, for a non-empty query only when the
   * query or its cleaned form matches closely.
   */
  function Contribution(pkg: Package, p: Option<Platform>, query: string, allVersions: bool,
                        ranks: (string, seq<string>) -> seq<nat>): (r: seq<Release>)
    ensures !Valid(p) ==> r == []
    ensures Valid(p) && query == "" ==> r == Offered(p.value, allVersions)
    ensures r == [] || (Valid(p) && r == Offered(p.value, allVersions))
    ensures Valid(p) && query != "" ==>
      (r == Offered(p.value, allVersions)
       <==> CloseMatch(query, ToTest(pkg, p.value), ranks) || CloseMatch(Clean(query), ToTest(pkg, p.value), ranks)
            || Offered(p.value, allVersions) == [])
  {
    if !Valid(p) then []
    else if query == "" then Offered(p.value, allVersions)
    else if CloseMatch(query, ToTest(pkg, p.value), ranks) || CloseMatch(Clean(query), ToTest(pkg, p.value), ranks) then
      Offered(p.value, allVersions)
    else []
  }

  /** The contributions of the first `n` platforms of a package. */
  function PackageResult(pkg: Package, n: nat, query: string, allVersions: bool,
                         ranks: (string, seq<string>) -> seq<nat>): seq<Release>
    requires n <= |pkg.platforms|
  {
    if n == 0 then []
    else PackageResult(pkg, n - 1, query, allVersions, ranks) + Contribution(pkg, pkg.platforms[n - 1], query, allVersions, ranks)
  }

  /** The contributions of the first `n` packages. */
  function PackagesResult(packages: seq<Package>, n: nat, query: string, allVersions: bool,
                          ranks: (string, seq<string>) -> seq<nat>): seq<Release>
    requires n <= |packages|
  {
    if n == 0 then []
    else PackagesResult(packages, n - 1, query, allVersions, ranks)
         + PackageResult(packages[n - 1], |packages[n - 1].platforms|, query, allVersions, ranks)
  }

  /** The search, before conversion to the RPC form. */
  function Search(hasManager: bool, request: string, allVersions: bool, packages: seq<Package>,
                  ranks: (string, seq<string>) -> seq<nat>, byVidPid: (string, string) -> seq<Release>): Result<seq<Release>, SearchError>
  {
    var query := TrimBlanks(request);
    if !hasManager then Err(InvalidInstance)
    else if IsUsbQuery(query) then Ok(byVidPid(VidPid(query).0, VidPid(query).1))
    else Ok(PackagesResult(packages, |packages|, query, allVersions, ranks))
  }

  /**
   * Every release in the result of a package comes from one of its
   * platforms that contributed, and an empty query makes every valid
   * platform contribute.
   */
  lemma {:induction false} PackageResultSource(pkg: Package, n: nat, query: string, allVersions: bool,
                                               ranks: (string, seq<string>) -> seq<nat>, rel: Release)
    requires n <= |pkg.platforms|
    ensures rel in PackageResult(pkg, n, query, allVersions, ranks) <==>
      exists j :: 0 <= j < n && rel in Contribution(pkg, pkg.platforms[j], query, allVersions, ranks)
  {
    if n > 0 {
      PackageResultSource(pkg, n - 1, query, allVersions, ranks, rel);
      var last := Contribution(pkg, pkg.platforms[n - 1], query, allVersions, ranks);
      if rel in last {
        assert rel in PackageResult(pkg, n, query, allVersions, ranks);
      }
    }
  }

  /**
   * With an empty query every release offered by a valid platform of the
   * package is in the package's result.
   */
  lemma EmptyQueryTakesAllValid(pkg: Package, allVersions: bool, ranks: (string, seq<string>) -> seq<nat>,
                                j: nat, rel: Release)
    requires j < |pkg.platforms| && Valid(pkg.platforms[j])
    requires rel in Offered(pkg.platforms[j].value, allVersions)
    ensures rel in PackageResult(pkg, |pkg.platforms|, "", allVersions, ranks)
  {
    PackageResultSource(pkg, |pkg.platforms|, "", allVersions, ranks, rel);
    assert rel in Contribution(pkg, pkg.platforms[j], "", allVersions, ranks);
  }

  /**
   * Every release a walk over the packages returns is offered by a valid
   * platform of one of them: nil, unnamed, manually installed and
   * release-less platforms never contribute.
   */
  lemma {:induction false} PackagesResultSource(packages: seq<Package>, n: nat, query: string, allVersions: bool,
                                                ranks: (string, seq<string>) -> seq<nat>, rel: Release)
    requires n <= |packages|
    requires rel in PackagesResult(packages, n, query, allVersions, ranks)
    ensures exists i, j :: 0 <= i < n && 0 <= j < |packages[i].platforms| && Valid(packages[i].platforms[j])
                           && rel in Offered(packages[i].platforms[j].value, allVersions)
  {
    var pkg := packages[n - 1];
    if rel in PackagesResult(packages, n - 1, query, allVersions, ranks) {
      PackagesResultSource(packages, n - 1, query, allVersions, ranks, rel);
    } else {
      PackageResultSource(pkg, |pkg.platforms|, query, allVersions, ranks, rel);
      var j :| 0 <= j < |pkg.platforms| && rel in Contribution(pkg, pkg.platforms[j], query, allVersions, ranks);
      assert Valid(pkg.platforms[j]) && rel in Offered(pkg.platforms[j].value, allVersions);
    }
  }

  // ---- the loops ----

  /**
   * The fuzzy-matching loop: the platform is accepted as soon as one of
   * the query strings has a close rank.
   */
  method FuzzyAccepts(args: seq<string>, toTest: seq<string>, ranks: (string, seq<string>) -> seq<nat>) returns (accepted: bool)
    ensures accepted <==> exists a :: 0 <= a < |args| && CloseMatch(args[a], toTest, ranks)
  {
    for a := 0 to |args|
      invariant forall b :: 0 <= b < a ==> !CloseMatch(args[b], toTest, ranks)
    {
      var found := ranks(args[a], toTest);
      for k := 0 to |found|
        invariant forall m :: 0 <= m < k ==> found[m] >= MaximumSearchDistance
      {
        if found[k] < MaximumSearchDistance {
          return true;
        }
      }
    }
    return false;
  }

  /** The accumulation over one package's platforms. */
  method SearchPackage(pkg: Package, query: string, allVersions: bool, ranks: (string, seq<string>) -> seq<nat>)
    returns (res: seq<Release>)
    ensures res == PackageResult(pkg, |pkg.platforms|, query, allVersions, ranks)
  {
    res := [];
    for j := 0 to |pkg.platforms|
      invariant res == PackageResult(pkg, j, query, allVersions, ranks)
    {
      var platform := pkg.platforms[j];
      if platform.None? || platform.value.name == "" || platform.value.manuallyInstalled {
        continue;
      }
      var latest := platform.value.latest;
      if latest.None? {
        continue;
      }
      if query == "" {
        if allVersions {
          res := res + platform.value.releases;
        } else {
          res := res + [latest.value];
        }
        continue;
      }
      var toTest := [platform.value.id, platform.value.name, platform.value.architecture,
                     pkg.name, pkg.maintainer, pkg.websiteUrl] + latest.value.boards;
      var accepted := FuzzyAccepts([query, Clean(query)], toTest, ranks);
      assert accepted <==> CloseMatch(query, toTest, ranks) || CloseMatch(Clean(query), toTest, ranks) by {
        assert [query, Clean(query)][0] == query && [query, Clean(query)][1] == Clean(query);
      }
      if accepted {
        if allVersions {
          res := res + platform.value.releases;
        } else {
          res := res + [latest.value];
        }
      }
    }
  }

  /** The walk over the packages, one package after the other. */
  method SearchPackages(packages: seq<Package>, query: string, allVersions: bool, ranks: (string, seq<string>) -> seq<nat>)
    returns (res: seq<Release>)
    ensures res == PackagesResult(packages, |packages|, query, allVersions, ranks)
  {
    res := [];
    for i := 0 to |packages|
      invariant res == PackagesResult(packages, i, query, allVersions, ranks)
    {
      var found := SearchPackage(packages[i], query, allVersions, ranks);
      res := res + found;
    }
  }

  /** The conversion of the found releases to the response's type, in order. */
  method ConvertAll<R>(res: seq<Release>, convert: Release -> R) returns (out: seq<R>)
    ensures |out| == |res| && forall i :: 0 <= i < |res| ==> out[i] == convert(res[i])
  {
    out := [];
    for i := 0 to |res|
      invariant |out| == i && forall j :: 0 <= j < i ==> out[j] == convert(res[j])
    {
      out := out + [convert(res[i])];
    }
  }

  /**
   * `PlatformSearch`: trim the request of spaces, refuse a missing package
   * manager, then take the USB path or walk the packages; the result is
   * converted release by release, in order.
   */
  method PlatformSearch<R>(hasManager: bool, request: string, allVersions: bool, packages: seq<Package>,
                           ranks: (string, seq<string>) -> seq<nat>, byVidPid: (string, string) -> seq<Release>,
                           convert: Release -> R) returns (r: Result<seq<R>, SearchError>)
    ensures Search(hasManager, request, allVersions, packages, ranks, byVidPid).Err? ==> r == Err(InvalidInstance)
    ensures Search(hasManager, request, allVersions, packages, ranks, byVidPid).Ok? ==>
      var res := Search(hasManager, request, allVersions, packages, ranks, byVidPid).value;
      r.Ok? && |r.value| == |res| && forall i :: 0 <= i < |res| ==> r.value[i] == convert(res[i])
  {
    var query := TrimBlanks(request);
    if !hasManager {
      return Err(InvalidInstance);
    }
    var res: seq<Release>;
    if IsUsbQuery(query) {
      var vid, pid := query[..4], query[5..];
      res := byVidPid(vid, pid);
    } else {
      res := SearchPackages(packages, query, allVersions, ranks);
    }
    var out := ConvertAll(res, convert);
    return Ok(out);
  }
}
