/**
 * Sketch profiles: the `NAME (VERSION)` directives of a sketch project file,
 * the platform and library references they decode into, and the text the
 * project, profiles and platform references are written back as.
 *
 * Version parsing and URL parsing are oracles (`parseVersion`, `parseUrl`);
 * a parsed version or URL is kept together with the text it prints as. The
 * YAML layer that turns the file into maps and strings is not modelled: the
 * decoders receive what it hands over, `None` standing for its failure.
 */
module SketchProfiles {
  import opened Wrappers
  import opened Strings
  import opened MapOrder

  /** A parsed version, with the text it prints as. */
  datatype Version = Version(text: string)

  /** A parsed platform index URL, with the text it prints as. */
  datatype IndexUrl = IndexUrl(text: string)

  /** How a possibly missing version prints: a missing one prints as `<nil>`. */
  function VersionText(v: Option<Version>): string
  {
    if v.Some? then v.value.text else "<nil>"
  }

  datatype ProfileError =
    | YamlError                          // the YAML layer could not decode the node
    | MissingPlatform                    // "missing 'platform' directive"
    | InvalidPlatform                    // "invalid 'platform' directive"
    | InvalidConstraint(text: string)    // "error parsing version constraints"
    | InvalidPlatformId(id: string)      // "invalid platform identifier"
    | InvalidIndexUrl(raw: string)       // "invlid platform index URL:"
    | InvalidLibrary(data: string)       // "invalid library directive:"
    | InvalidLibraryVersion(text: string) // "invalid version:"

  // ---------------------------------------------------------------------
  // The `NAME (VERSION)` grammar

  /** The characters a name may use: letters, digits, `.`, `-`, `_`, space and `:`. */
  predicate NameChar(c: char)
  {
    ('a' <= c <= 'z') || ('A' <= c <= 'Z') || ('0' <= c <= '9') || c == '.' || c == '-' || c == '_' || c == ' ' || c == ':'
  }

  predicate IsName(s: string)
  {
    |s| > 0 && forall k :: 0 <= k < |s| ==> NameChar(s[k])
  }

  /** A version part: at least one character, none of them a line break. */
  predicate IsVersionText(s: string)
  {
    |s| > 0 && forall k :: 0 <= k < |s| ==> s[k] != '\n'
  }

  /** `s` is exactly NAME + " (" + VERSION + ")" for this name and version. */
  predicate Matches(s: string, name: string, version: string)
  {
    IsName(name) && IsVersionText(version) && s == name + " (" + version + ")"
  }

  /**
   * `parseNameAndVersion`: the whole input must be a name, a space, and the
   * version in parentheses. A name cannot hold `(`, so the first `(` of the
   * input is the one that opens the version.
   */
  function ParseNameAndVersion(s: string): (r: Option<(string, string)>)
    ensures r.Some? ==> Matches(s, r.value.0, r.value.1)
  {
    var k := IndexOf(s, '(');
    if 2 <= k && k + 2 < |s| && s[k - 1] == ' ' && s[|s| - 1] == ')' then
      var name := s[..k - 1];
      var version := s[k + 1..|s| - 1];
      if IsName(name) && IsVersionText(version) then
        assert s == name + " (" + version + ")" by {
          assert s == s[..k - 1] + s[k - 1..k + 1] + s[k + 1..|s| - 1] + s[|s| - 1..];
        }
        Some((name, version))
      else None
    else None
  }

  /** The parser accepts every well-formed directive and splits it where it was joined. */
  lemma ParseComplete(s: string, name: string, version: string)
    requires Matches(s, name, version)
    ensures ParseNameAndVersion(s) == Some((name, version))
  {
    var k := |name| + 1;
    assert s[k] == '(';
    forall j | 0 <= j < k
      ensures s[j] != '('
    {
      if j < |name| {
        assert s[j] == name[j];
      }
    }
    assert IndexOf(s, '(') == k;
    assert s[..k - 1] == name;
    assert s[k + 1..|s| - 1] == version;
  }

  /** `strings.SplitN(id, ":", 2)` when it yields two parts: before and after the first `:`. */
  function SplitAtColon(id: string): (r: Option<(string, string)>)
    ensures r.None? <==> ':' !in id
    ensures r.Some? ==> id == r.value.0 + ":" + r.value.1 && ':' !in r.value.0
  {
    var i := IndexOf(id, ':');
    if i == |id| then None
    else
      assert id == id[..i] + ":" + id[i + 1..] by {
        assert id == id[..i] + id[i..i + 1] + id[i + 1..];
      }
      Some((id[..i], id[i + 1..]))
  }

  // ---------------------------------------------------------------------
  // Platform references

  /** The fields a platform directive sets. */
  datatype PlatformId = PlatformId(packager: string, architecture: string, version: Version)

  /** The `platform` directive (the first half of the platform decoder). */
  function ParsePlatform(data: map<string, string>, parseVersion: string -> Option<Version>): (r: Result<PlatformId, ProfileError>)
    ensures "platform" !in data ==> r == Err(MissingPlatform)
    ensures "platform" in data && ParseNameAndVersion(data["platform"]).None? ==> r == Err(InvalidPlatform)
    ensures r.Ok? ==>
      var nv := ParseNameAndVersion(data["platform"]);
      && nv.Some? && nv.value.0 == r.value.packager + ":" + r.value.architecture
      && ':' !in r.value.packager
      && parseVersion(nv.value.1) == Some(r.value.version)
  {
    if "platform" !in data then Err(MissingPlatform)
    else match ParseNameAndVersion(data["platform"])
      case None => Err(InvalidPlatform)
      case Some((id, text)) =>
        match parseVersion(text)
        case None => Err(InvalidConstraint(text))
        case Some(v) =>
          match SplitAtColon(id)
          case None => Err(InvalidPlatformId(id))
          case Some((packager, architecture)) =>
            Ok(PlatformId(packager, architecture, v))
  }

  /**
   * The `platform_index_url` directive (the second half): absent is fine
   * and sets nothing, present must parse.
   */
  function ParseIndexUrl(data: map<string, string>, parseUrl: string -> Option<IndexUrl>): (r: Result<Option<IndexUrl>, ProfileError>)
    ensures "platform_index_url" !in data <==> r == Ok(None)
    ensures r.Ok? && r.value.Some? ==> parseUrl(data["platform_index_url"]) == r.value
  {
    if "platform_index_url" !in data then Ok(None)
    else match parseUrl(data["platform_index_url"])
      case None => Err(InvalidIndexUrl(data["platform_index_url"]))
      case Some(u) => Ok(Some(u))
  }

  /** The value of a platform reference. */
  datatype PlatformValue = PlatformValue(packager: string, architecture: string,
                                         version: Option<Version>, indexUrl: Option<IndexUrl>)

  /** `ProfilePlatformReference`, filled in place by its YAML decoder. */
  class PlatformReference {
    var packager: string
    var architecture: string
    var version: Option<Version>
    var indexUrl: Option<IndexUrl>

    constructor ()
      ensures packager == "" && architecture == "" && version.None? && indexUrl.None?
    {
      packager, architecture, version, indexUrl := "", "", None, None;
    }

    function Value(): PlatformValue
      reads this
    {
      PlatformValue(packager, architecture, version, indexUrl)
    }

    /**
     * `UnmarshalYAML`: a bad `platform` directive is rejected with nothing
     * changed. A good one sets packager, architecture and version; a bad
     * `platform_index_url` is then rejected with those three already set,
     * and an absent one leaves the URL as it was.
     */
    method UnmarshalYaml(data: Option<map<string, string>>, parseVersion: string -> Option<Version>,
                         parseUrl: string -> Option<IndexUrl>)
      returns (err: Option<ProfileError>)
      modifies this
      ensures data.None? ==> err == Some(YamlError) && Value() == old(Value())
      ensures data.Some? && ParsePlatform(data.value, parseVersion).Err? ==>
        err == Some(ParsePlatform(data.value, parseVersion).error) && Value() == old(Value())
      ensures data.Some? && ParsePlatform(data.value, parseVersion).Ok? ==>
        var id := ParsePlatform(data.value, parseVersion).value;
        && packager == id.packager && architecture == id.architecture && version == Some(id.version)
        && match ParseIndexUrl(data.value, parseUrl)
           case Err(e) => err == Some(e) && indexUrl == old(indexUrl)
           case Ok(None) => err == None && indexUrl == old(indexUrl)
           case Ok(Some(u)) => err == None && indexUrl == Some(u)
    {
      if data.None? {
        return Some(YamlError);
      }
      var p := ParsePlatform(data.value, parseVersion);
      if p.Err? {
        return Some(p.error);
      }
      packager := p.value.packager;
      architecture := p.value.architecture;
      version := Some(p.value.version);
      var u := ParseIndexUrl(data.value, parseUrl);
      if u.Err? {
        return Some(u.error);
      }
      if u.value.Some? {
        indexUrl := u.value;
      }
      err := None;
    }
  }

  /** `ProfilePlatformReference.String`: `P:A@V`, followed by ` (URL)` exactly when a URL is set. */
  function PlatformString(p: PlatformValue): (r: string)
    ensures var id := p.packager + ":" + p.architecture + "@" + VersionText(p.version);
      && |id| <= |r| && r[..|id|] == id
      && (p.indexUrl.None? <==> r == id)
      && (p.indexUrl.Some? ==> r[|id|..] == " (" + p.indexUrl.value.text + ")")
  {
    var res := p.packager + ":" + p.architecture + "@" + VersionText(p.version);
    if p.indexUrl.Some? then res + " (" + p.indexUrl.value.text + ")" else res
  }

  /** The directive text a platform is written as: `P:A (V)`. */
  function PlatformDirective(p: PlatformValue): string
  {
    p.packager + ":" + p.architecture + " (" + VersionText(p.version) + ")"
  }

  /** `ProfilePlatformReference.AsYaml`: the directive line, then the URL line when a URL is set. */
  function PlatformYaml(p: PlatformValue): string
  {
    "      - platform: " + PlatformDirective(p) + "\n"
    + (if p.indexUrl.Some? then "        platform_index_url: " + p.indexUrl.value.text + "\n" else "")
  }

  /**
   * A platform entry opens with its directive line, and a second line for
   * the index URL follows exactly when a URL is set.
   */
  lemma PlatformYamlLines(p: PlatformValue)
    ensures var line := "      - platform: " + PlatformDirective(p) + "\n";
      && line <= PlatformYaml(p)
      && (p.indexUrl.None? <==> PlatformYaml(p) == line)
      && (p.indexUrl.Some? ==> PlatformYaml(p)[|line|..] == "        platform_index_url: " + p.indexUrl.value.text + "\n")
  {
    var line := "      - platform: " + PlatformDirective(p) + "\n";
    assert PlatformYaml(p)[..|line|] == line;
  }

  /**
   * Round trip: the directive a platform is written as decodes back to the
   * same packager, architecture and version, provided the packager and
   * architecture use name characters, the packager holds no `:`, and the
   * version text parses back to the version.
   */
  lemma PlatformRoundTrip(p: PlatformValue, parseVersion: string -> Option<Version>)
    requires p.version.Some? && IsVersionText(p.version.value.text)
    requires parseVersion(p.version.value.text) == p.version
    requires ':' !in p.packager
    requires forall k :: 0 <= k < |p.packager| ==> NameChar(p.packager[k])
    requires forall k :: 0 <= k < |p.architecture| ==> NameChar(p.architecture[k])
    ensures ParseNameAndVersion(PlatformDirective(p)) == Some((p.packager + ":" + p.architecture, p.version.value.text))
    ensures ParsePlatform(map["platform" := PlatformDirective(p)], parseVersion)
         == Ok(PlatformId(p.packager, p.architecture, p.version.value))
  {
    var id := p.packager + ":" + p.architecture;
    assert id[|p.packager|] == ':';
    forall k | 0 <= k < |id|
      ensures NameChar(id[k])
    {
      if k < |p.packager| {
        assert id[k] == p.packager[k];
      } else if k > |p.packager| {
        assert id[k] == p.architecture[k - |p.packager| - 1];
      }
    }
    ParseComplete(PlatformDirective(p), id, p.version.value.text);
    var s := SplitAtColon(id);
    assert IndexOf(id, ':') == |p.packager| by {
      forall j | 0 <= j < |p.packager|
        ensures id[j] != ':'
      {
        assert id[j] == p.packager[j];
      }
    }
    assert id[..|p.packager|] == p.packager;
    assert id[|p.packager| + 1..] == p.architecture;
  }

  // ---------------------------------------------------------------------
  // Library references

  /** The library directive: NAME (VERSION) with a version that parses. */
  function ParseLibrary(data: string, parseVersion: string -> Option<Version>): (r: Result<(string, Version), ProfileError>)
    ensures ParseNameAndVersion(data).None? ==> r == Err(InvalidLibrary(data))
    ensures r.Ok? ==>
      var nv := ParseNameAndVersion(data);
      nv.Some? && nv.value.0 == r.value.0 && parseVersion(nv.value.1) == Some(r.value.1)
  {
    match ParseNameAndVersion(data)
    case None => Err(InvalidLibrary(data))
    case Some((name, text)) =>
      match parseVersion(text)
      case None => Err(InvalidLibraryVersion(text))
      case Some(v) => Ok((name, v))
  }

  datatype LibraryValue = LibraryValue(library: string, version: Option<Version>)

  /** `ProfileLibraryReference`, filled in place by its YAML decoder. */
  class LibraryReference {
    var library: string
    var version: Option<Version>

    constructor ()
      ensures library == "" && version.None?
    {
      library, version := "", None;
    }

    function Value(): LibraryValue
      reads this
    {
      LibraryValue(library, version)
    }

    /** `UnmarshalYAML`: sets name and version from a well-formed directive, and changes nothing otherwise. */
    method UnmarshalYaml(data: Option<string>, parseVersion: string -> Option<Version>) returns (err: Option<ProfileError>)
      modifies this
      ensures data.None? ==> err == Some(YamlError) && Value() == old(Value())
      ensures data.Some? && ParseLibrary(data.value, parseVersion).Err? ==>
        err == Some(ParseLibrary(data.value, parseVersion).error) && Value() == old(Value())
      ensures data.Some? && ParseLibrary(data.value, parseVersion).Ok? ==>
        err == None && library == ParseLibrary(data.value, parseVersion).value.0
        && version == Some(ParseLibrary(data.value, parseVersion).value.1)
    {
      if data.None? {
        return Some(YamlError);
      }
      var l := ParseLibrary(data.value, parseVersion);
      if l.Err? {
        return Some(l.error);
      }
      library, version := l.value.0, Some(l.value.1);
      err := None;
    }
  }

  /** `ProfileLibraryReference.String`: `NAME@VERSION`. */
  function LibraryString(l: LibraryValue): string
  {
    l.library + "@" + VersionText(l.version)
  }

  /** A library directive read back from `NAME (VERSION)` prints as `NAME@VERSION`. */
  lemma LibraryDirectiveString(name: string, v: Version, parseVersion: string -> Option<Version>)
    requires IsName(name) && IsVersionText(v.text) && parseVersion(v.text) == Some(v)
    ensures ParseLibrary(name + " (" + v.text + ")", parseVersion) == Ok((name, v))
    ensures LibraryString(LibraryValue(name, Some(v))) == name + "@" + v.text
  {
    ParseComplete(name + " (" + v.text + ")", name, v.text);
  }

  // ---------------------------------------------------------------------
  // Rendering profiles and projects

  /** A profile: the values of its references. */
  datatype Profile = Profile(notes: string, fqbn: string, platforms: seq<PlatformValue>, libraries: seq<LibraryValue>)

  /** The platform lines of a list of platforms, in order. */
  function PlatformsYaml(ps: seq<PlatformValue>): string
  {
    if ps == [] then "" else PlatformsYaml(ps[..|ps| - 1]) + PlatformYaml(ps[|ps| - 1])
  }

  /** The text of two lists of platforms, one after the other, is the text of each in turn. */
  lemma {:induction false} PlatformsYamlSplit(ps: seq<PlatformValue>, qs: seq<PlatformValue>)
    ensures PlatformsYaml(ps + qs) == PlatformsYaml(ps) + PlatformsYaml(qs)
    decreases |qs|
  {
    if qs != [] {
      var front, last := qs[..|qs| - 1], qs[|qs| - 1];
      assert (ps + qs)[..|ps + qs| - 1] == ps + front && (ps + qs)[|ps + qs| - 1] == last;
      PlatformsYamlSplit(ps, front);
      var a, f, l := PlatformsYaml(ps), PlatformsYaml(front), PlatformYaml(last);
      assert PlatformsYaml(ps + qs) == (a + f) + l;
      assert PlatformsYaml(qs) == f + l;
      assert (a + f) + l == a + (f + l);
    } else {
      assert ps + qs == ps;
    }
  }

  /** Each platform's entry is written in its place: after the entries of the platforms before it. */
  lemma {:induction false} PlatformWritten(ps: seq<PlatformValue>, i: nat)
    requires i < |ps|
    ensures PlatformsYaml(ps[..i]) + PlatformYaml(ps[i]) <= PlatformsYaml(ps)
    decreases |ps|
  {
    var front := ps[..|ps| - 1];
    if i < |front| {
      PlatformWritten(front, i);
      assert front[..i] == ps[..i] && front[i] == ps[i];
      var done := PlatformsYaml(ps[..i]) + PlatformYaml(ps[i]);
      var all := PlatformsYaml(front);
      StartsWith(all, PlatformYaml(ps[|ps| - 1]));
      assert done <= all <= PlatformsYaml(ps);
    } else {
      assert front == ps[..i];
    }
  }

  /** `ProfileRequiredPlatforms.AsYaml`: the platform entries one after another. */
  method RequiredPlatformsAsYaml(ps: seq<PlatformValue>) returns (res: string)
    ensures res == PlatformsYaml(ps)
  {
    res := "";
    for i := 0 to |ps|
      invariant res == PlatformsYaml(ps[..i])
    {
      assert ps[..i + 1][..i] == ps[..i];
      res := res + PlatformYaml(ps[i]);
    }
    assert ps[..|ps|] == ps;
  }

  /** `ProfileRequiredLibraries.AsYaml`: required libraries are not written at all. */
  function LibrariesYaml(ls: seq<LibraryValue>): string
  {
    ""
  }

  /** `Profile.AsYaml`: an optional notes line, the fqbn line, then the platforms and libraries. */
  function ProfileYaml(p: Profile): string
  {
    (if p.notes != "" then "    notes: " + p.notes + "\n" else "")
    + "    fqbn: " + p.fqbn + "\n"
    + PlatformsYaml(p.platforms)
    + LibrariesYaml(p.libraries)
  }

  /**
   * A profile's text opens with a notes line exactly when it has notes, the
   * fqbn line is always written, and nothing about the libraries is.
   */
  lemma ProfileYamlLines(p: Profile)
    ensures (|ProfileYaml(p)| >= 11 && ProfileYaml(p)[..11] == "    notes: ") <==> p.notes != ""
    ensures p.notes == "" ==> ProfileYaml(p) == "    fqbn: " + p.fqbn + "\n" + PlatformsYaml(p.platforms)
    ensures p.notes != "" ==>
      ProfileYaml(p) == "    notes: " + p.notes + "\n" + "    fqbn: " + p.fqbn + "\n" + PlatformsYaml(p.platforms)
  {
    if p.notes == "" {
      assert ProfileYaml(p)[4] == 'f';
    } else {
      assert ProfileYaml(p)[..11] == "    notes: ";
    }
  }

  /** One profile under its name, followed by a blank line. */
  function ProfileEntry(name: string, p: Profile): string
  {
    "  " + name + ":\n" + ProfileYaml(p) + "\n"
  }

  /** The `profiles:` header followed by the entries of the first `n` profiles named in `order`. */
  function ProfilesYaml(profiles: map<string, Profile>, order: seq<string>, n: nat): string
    requires n <= |order|
  {
    if n == 0 then "profiles:\n"
    else
      ProfilesYaml(profiles, order, n - 1)
      + (if order[n - 1] in profiles then ProfileEntry(order[n - 1], profiles[order[n - 1]]) else "")
  }

  /** The trailing `default_profile` line, written only for a non-empty default. */
  function DefaultLine(defaultProfile: string): (r: string)
    ensures defaultProfile == "" <==> r == ""
  {
    if defaultProfile != "" then "default_profile: " + defaultProfile + "\n" else ""
  }

  /** The text written so far only grows as profiles are added. */
  lemma {:induction false} ProfilesYamlGrows(profiles: map<string, Profile>, order: seq<string>, m: nat, n: nat)
    requires m <= n <= |order|
    ensures ProfilesYaml(profiles, order, m) <= ProfilesYaml(profiles, order, n)
    decreases n
  {
    if m < n {
      ProfilesYamlGrows(profiles, order, m, n - 1);
      var last := if order[n - 1] in profiles then ProfileEntry(order[n - 1], profiles[order[n - 1]]) else "";
      StartsWith(ProfilesYaml(profiles, order, n - 1), last);
    }
  }

  /**
   * The project text opens with the `profiles:` header, and every profile of
   * the map is written under its name after the profiles listed before it.
   */
  lemma ProfileWritten(profiles: map<string, Profile>, order: seq<string>, i: nat)
    requires Enumerates(order, profiles) && i < |order|
    ensures "profiles:\n" <= ProfilesYaml(profiles, order, |order|)
    ensures ProfilesYaml(profiles, order, i) + ProfileEntry(order[i], profiles[order[i]])
            <= ProfilesYaml(profiles, order, |order|)
  {
    ProfilesYamlGrows(profiles, order, 0, |order|);
    ProfilesYamlGrows(profiles, order, i + 1, |order|);
    var before := ProfilesYaml(profiles, order, i);
    assert ProfilesYaml(profiles, order, i + 1) == before + ProfileEntry(order[i], profiles[order[i]]);
  }

  /**
   * `Project.AsYaml`: the `profiles:` header, each profile under its name
   * in the order the map is iterated in (`order`, which the runtime picks),
   * and the default-profile line when there is a default.
   */
  method ProjectAsYaml(profiles: map<string, Profile>, defaultProfile: string, order: seq<string>) returns (res: string)
    requires Enumerates(order, profiles)
    ensures res == ProfilesYaml(profiles, order, |order|) + DefaultLine(defaultProfile)
  {
    res := "profiles:\n";
    for i := 0 to |order|
      invariant res == ProfilesYaml(profiles, order, i)
    {
      var name := order[i];
      res := res + ProfileEntry(name, profiles[name]);
    }
    res := res + DefaultLine(defaultProfile);
  }
}
