/**
 * `lib install` (`commands/lib/install.go`): the set of library releases
 * to install is built from the request or from its resolved dependencies,
 * refusing one library required at two versions; each release is then
 * looked up, downloaded and installed, an already installed one counting
 * as a success.  The library manager, the index, downloads and the
 * installation on disk are parameters.
 */
module LibInstall {
  import opened Wrappers
  import opened MapOrder

  /** A library and the version required of it; it also names a release. */
  datatype Dependency = Dependency(name: string, versionRequired: string)

  datatype InstallRequest = InstallRequest(name: string, version: string, noDeps: bool)

  datatype InstallError =
    | InvalidInstance
    | ResolutionFailed(cause: string)
    | TwoVersionsRequired(name: string, version: string, existing: string)
    | ReleaseNotFound(release: Dependency)
    | DownloadFailed(release: Dependency)
    | PrerequisiteCheckFailed(release: Dependency)
    | InstallFailed(release: Dependency)
    | InitFailed

  // ---- the set of releases to install ----

  /**
   * The map from library name to required version after adding the first
   * `n` dependencies in order, or the conflict that stopped it.
   */
  function Merged(deps: seq<Dependency>, n: nat): Result<map<string, string>, InstallError>
    requires n <= |deps|
  {
    if n == 0 then Ok(map[])
    else
      match Merged(deps, n - 1)
      case Err(e) => Err(e)
      case Ok(m) =>
        var dep := deps[n - 1];
        if dep.name in m && m[dep.name] != dep.versionRequired then
          Err(TwoVersionsRequired(dep.name, dep.versionRequired, m[dep.name]))
        else Ok(m[dep.name := dep.versionRequired])
  }

  /** No two of the first `n` dependencies name one library at different versions. */
  predicate Consistent(deps: seq<Dependency>, n: nat)
    requires n <= |deps|
  {
    forall i, j :: 0 <= i < n && 0 <= j < n && deps[i].name == deps[j].name ==> deps[i].versionRequired == deps[j].versionRequired
  }

  /**
   * A successful merge holds exactly the names of the dependencies, each
   * with the version it was required at; repeated dependencies collapse.
   */
  lemma {:induction false} MergedContents(deps: seq<Dependency>, n: nat)
    requires n <= |deps| && Merged(deps, n).Ok?
    ensures Merged(deps, n).value.Keys == set k | 0 <= k < n :: deps[k].name
    ensures forall k :: 0 <= k < n ==> Merged(deps, n).value[deps[k].name] == deps[k].versionRequired
  {
    if n > 0 {
      MergedContents(deps, n - 1);
      var m := Merged(deps, n - 1).value;
      assert (set k | 0 <= k < n :: deps[k].name) == (set k | 0 <= k < n - 1 :: deps[k].name) + {deps[n - 1].name};
    }
  }

  /** The merge succeeds exactly when the dependencies are consistent. */
  lemma {:induction false} MergedOk(deps: seq<Dependency>, n: nat)
    requires n <= |deps|
    ensures Merged(deps, n).Ok? <==> Consistent(deps, n)
  {
    if n > 0 {
      MergedOk(deps, n - 1);
      var dep := deps[n - 1];
      if Merged(deps, n - 1).Ok? {
        MergedContents(deps, n - 1);
        var m := Merged(deps, n - 1).value;
        if dep.name in m {
          var k :| 0 <= k < n - 1 && deps[k].name == dep.name;
          assert m[dep.name] == deps[k].versionRequired;
        } else {
          forall i | 0 <= i < n - 1
            ensures deps[i].name != dep.name
          {
            assert deps[i].name in m;
          }
        }
      } else {
        assert !Consistent(deps, n - 1);
      }
    }
  }

  /** A conflict names a library, the version just required and an earlier, different one. */
  lemma {:induction false} MergedConflict(deps: seq<Dependency>, n: nat)
    requires n <= |deps| && Merged(deps, n).Err?
    ensures Merged(deps, n).error.TwoVersionsRequired?
    ensures var e := Merged(deps, n).error;
      exists i, j :: 0 <= i < j < n && deps[j] == Dependency(e.name, e.version) && deps[i] == Dependency(e.name, e.existing)
                     && e.version != e.existing
  {
    if Merged(deps, n - 1).Err? {
      MergedConflict(deps, n - 1);
    } else {
      MergedContents(deps, n - 1);
      var dep := deps[n - 1];
      var k :| 0 <= k < n - 1 && deps[k].name == dep.name;
      assert deps[k] == Dependency(dep.name, Merged(deps, n - 1).value[dep.name]);
    }
  }

  /** Once the merge has failed, later dependencies do not change the error. */
  lemma {:induction false} MergedErrorSticks(deps: seq<Dependency>, i: nat, n: nat)
    requires i <= n <= |deps| && Merged(deps, i).Err?
    ensures Merged(deps, n) == Merged(deps, i)
    decreases n - i
  {
    if i < n {
      MergedErrorSticks(deps, i + 1, n);
    }
  }

  /**
   * The merge loop of `LibraryInstall`: each dependency is added under
   * its name; one already present at another version is an error.
   */
  method MergeDependencies(deps: seq<Dependency>) returns (r: Result<map<string, string>, InstallError>)
    ensures r == Merged(deps, |deps|)
  {
    var toInstall: map<string, string> := map[];
    for i := 0 to |deps|
      invariant Merged(deps, i) == Ok(toInstall)
    {
      var dep := deps[i];
      if dep.name in toInstall && toInstall[dep.name] != dep.versionRequired {
        MergedErrorSticks(deps, i + 1, |deps|);
        return Err(TwoVersionsRequired(dep.name, dep.versionRequired, toInstall[dep.name]));
      }
      toInstall := toInstall[dep.name := dep.versionRequired];
    }
    return Ok(toInstall);
  }

  /**
   * The releases a request installs: just the requested one without
   * dependencies, else the merge of the resolved dependencies (`resolved`
   * is the answer of dependency resolution).
   */
  function ToInstall(req: InstallRequest, resolved: Result<seq<Dependency>, InstallError>): (r: Result<map<string, string>, InstallError>)
    ensures req.noDeps ==> r == Ok(map[req.name := req.version])
    ensures !req.noDeps && resolved.Err? ==> r == Err(resolved.error)
    ensures !req.noDeps && resolved.Ok? ==>
      (r.Ok? <==> Consistent(resolved.value, |resolved.value|))
      && (r.Ok? ==> r.value.Keys == (set k | 0 <= k < |resolved.value| :: resolved.value[k].name)
                    && forall k :: 0 <= k < |resolved.value| ==> r.value[resolved.value[k].name] == resolved.value[k].versionRequired)
  {
    if req.noDeps then Ok(map[req.name := req.version])
    else
      match resolved
      case Err(e) => Err(e)
      case Ok(deps) =>
        MergedOk(deps, |deps|);
        if Merged(deps, |deps|).Ok? then
          MergedContents(deps, |deps|);
          Merged(deps, |deps|)
        else Merged(deps, |deps|)
  }

  // ---- installing ----

  /** The library manager's verdict before installing a release. */
  datatype Prerequisite = AlreadyInstalled | CheckFailed | Ready

  /** What the index, the downloader and the library manager answer. */
  datatype LibraryEnv = LibraryEnv(
    indexed: set<Dependency>,
    downloadFails: set<Dependency>,
    prerequisite: Dependency -> Prerequisite,
    installFails: set<Dependency>,
    initFails: bool)

  /**
   * `installLibrary`: an already installed release is a success that
   * installs nothing; otherwise the prerequisite check and the
   * installation must succeed.  The result says whether the release was
   * newly installed.
   */
  function InstallLibrary(release: Dependency, check: Prerequisite, installFails: bool): (r: Result<bool, InstallError>)
    ensures check == AlreadyInstalled ==> r == Ok(false)
    ensures r == Ok(true) <==> check == Ready && !installFails
    ensures r.Err? ==> r == Err(PrerequisiteCheckFailed(release)) || r == Err(InstallFailed(release))
  {
    match check
    case AlreadyInstalled => Ok(false)
    case CheckFailed => Err(PrerequisiteCheckFailed(release))
    case Ready => if installFails then Err(InstallFailed(release)) else Ok(true)
  }

  /** One library of the install loop: look it up, download it, install it. */
  function InstallOne(release: Dependency, env: LibraryEnv): Result<bool, InstallError>
  {
    if release !in env.indexed then Err(ReleaseNotFound(release))
    else if release in env.downloadFails then Err(DownloadFailed(release))
    else InstallLibrary(release, env.prerequisite(release), release in env.installFails)
  }

  /**
   * The releases newly installed by the first `n` steps of the install
   * loop, visiting the libraries in `order`, or the first error.
   */
  function InstallAll(toInstall: map<string, string>, order: seq<string>, env: LibraryEnv, n: nat): Result<seq<Dependency>, InstallError>
    requires n <= |order| && forall k :: 0 <= k < |order| ==> order[k] in toInstall
  {
    if n == 0 then Ok([])
    else
      match InstallAll(toInstall, order, env, n - 1)
      case Err(e) => Err(e)
      case Ok(done) =>
        var release := Dependency(order[n - 1], toInstall[order[n - 1]]);
        match InstallOne(release, env)
        case Err(e) => Err(e)
        case Ok(installed) => Ok(if installed then done + [release] else done)
  }

  /**
   * After a successful install loop every library to install is either
   * newly installed or was already installed, and only those releases
   * were installed.
   */
  lemma {:induction false} InstallAllCovers(toInstall: map<string, string>, order: seq<string>, env: LibraryEnv, n: nat)
    requires n <= |order| && forall k :: 0 <= k < |order| ==> order[k] in toInstall
    requires InstallAll(toInstall, order, env, n).Ok?
    ensures var installed := InstallAll(toInstall, order, env, n).value;
      forall k :: 0 <= k < n ==>
        var release := Dependency(order[k], toInstall[order[k]]);
        release in installed || env.prerequisite(release) == AlreadyInstalled
    ensures forall d :: d in InstallAll(toInstall, order, env, n).value ==>
      d.name in toInstall && toInstall[d.name] == d.versionRequired && env.prerequisite(d) == Ready
  {
    if n > 0 {
      InstallAllCovers(toInstall, order, env, n - 1);
    }
  }

  /** Once a step of the install loop has failed, the loop ends with that error. */
  lemma {:induction false} InstallAllErrorSticks(toInstall: map<string, string>, order: seq<string>, env: LibraryEnv, i: nat, n: nat)
    requires i <= n <= |order| && forall k :: 0 <= k < |order| ==> order[k] in toInstall
    requires InstallAll(toInstall, order, env, i).Err?
    ensures InstallAll(toInstall, order, env, n) == InstallAll(toInstall, order, env, i)
    decreases n - i
  {
    if i < n {
      InstallAllErrorSticks(toInstall, order, env, i + 1, n);
    }
  }

  /** The whole of `LibraryInstall`. */
  function Installation(hasManager: bool, req: InstallRequest, resolved: Result<seq<Dependency>, InstallError>,
                        env: LibraryEnv, order: seq<string>): Result<seq<Dependency>, InstallError>
    requires ToInstall(req, resolved).Ok? ==> Enumerates(order, ToInstall(req, resolved).value)
  {
    if !hasManager then Err(InvalidInstance)
    else
      match ToInstall(req, resolved)
      case Err(e) => Err(e)
      case Ok(toInstall) =>
        match InstallAll(toInstall, order, env, |order|)
        case Err(e) => Err(e)
        case Ok(installed) => if env.initFails then Err(InitFailed) else Ok(installed)
  }

  /**
   * `LibraryInstall`: without a library manager the instance is invalid;
   * otherwise the releases are collected, then installed one by one in
   * the map's iteration order `order`, and the instance is re-initialised.
   * The result lists the releases newly installed.
   */
  method LibraryInstall(hasManager: bool, req: InstallRequest, resolved: Result<seq<Dependency>, InstallError>,
                        env: LibraryEnv, order: seq<string>) returns (r: Result<seq<Dependency>, InstallError>)
    requires ToInstall(req, resolved).Ok? ==> Enumerates(order, ToInstall(req, resolved).value)
    ensures r == Installation(hasManager, req, resolved, env, order)
    ensures !hasManager ==> r == Err(InvalidInstance)
    ensures r.Ok? ==> forall name :: name in ToInstall(req, resolved).value ==>
      var release := Dependency(name, ToInstall(req, resolved).value[name]);
      release in r.value || env.prerequisite(release) == AlreadyInstalled
  {
    if !hasManager {
      return Err(InvalidInstance);
    }
    var toInstall: map<string, string>;
    if req.noDeps {
      toInstall := map[req.name := req.version];
    } else {
      if resolved.Err? {
        return Err(resolved.error);
      }
      var merged := MergeDependencies(resolved.value);
      if merged.Err? {
        return Err(merged.error);
      }
      toInstall := merged.value;
    }
    assert toInstall == ToInstall(req, resolved).value;
    var installed: seq<Dependency> := [];
    for i := 0 to |order|
      invariant InstallAll(toInstall, order, env, i) == Ok(installed)
    {
      var release := Dependency(order[i], toInstall[order[i]]);
      if release !in env.indexed {
        InstallAllErrorSticks(toInstall, order, env, i + 1, |order|);
        return Err(ReleaseNotFound(release));
      }
      if release in env.downloadFails {
        InstallAllErrorSticks(toInstall, order, env, i + 1, |order|);
        return Err(DownloadFailed(release));
      }
      var outcome := InstallLibrary(release, env.prerequisite(release), release in env.installFails);
      if outcome.Err? {
        InstallAllErrorSticks(toInstall, order, env, i + 1, |order|);
        return Err(outcome.error);
      }
      if outcome.value {
        installed := installed + [release];
      }
    }
    if env.initFails {
      return Err(InitFailed);
    }
    InstallAllCovers(toInstall, order, env, |order|);
    return Ok(installed);
  }
}
