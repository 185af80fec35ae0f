# arduino-cli core logic in Dafny

This project models the sequential decision logic at the heart of eight
parts of arduino-cli, and proves what each part promises.

- **Discovery manager**: the registry of pluggable-discovery workers. It is a
  class whose fields are the registry map and the global event channel. The
  bulk lifecycle operations (`RunAll`, `StartAll`, `StartSyncAll`, `StopAll`,
  `QuitAll`) apply a state guard to each worker, and each returns one error
  per worker whose driver call failed.
- **Port resolution** (`Port.GetPort`): the upload address is derived from
  the `--port` flag or the sketch's recorded port. The discoveries are run
  and started syncing, and the first matching `add` event wins. Otherwise the
  result falls back to a serial port or to "port not found".
- **Sketch profiles**: the `NAME (VERSION)` directive grammar, and the
  platform and library references that the YAML decoders fill in place. It
  also covers the text that projects, profiles and platform references are
  written back as. The directive written for a platform is proved to parse
  back to the same packager, architecture and version.
- **Upload**: the pure and property-map parts of the upload flow. These are
  the precondition checks, the choice of upload tool, the verbosity and
  verify mappings, `serial.port.file`, and the recipe guard. They also cover
  the four-way build-path resolution and the detection of the sketch name
  from a build directory.
- **Library install**: the map of libraries to install, which refuses one
  library required at two versions. Then the install loop, where an already
  installed release counts as a success.
- **Settings service**: a store of settings backed by defaults. A set must
  keep the default's Go type, and a get falls back to the default. Enumerate
  lists every default with its type name.
- **Core search**: which platform releases a search returns. It covers the
  USB-id path, the validity filter and the fuzzy acceptance of each platform
  at most once.
- **Build-board patching** (`AddBuildBoardPropertyIfMissing`): every board
  without `build.board` gets `ARCH_BOARDID` in upper case, and one warning
  per patched board is emitted. Boards are objects updated in place.

Go's map iteration order is an input wherever it shows in a result (a
sequence listing each key once, `MapOrder.Enumerates`). External calls are
parameters or oracles: the discovery driver, URL/semver/JSON parsing, the
package and library managers, fuzzy ranking and the file system. Errors are
`Result`/`Option` values, and the errors of the parallel operations are
multisets.

## Model

| member | source | states |
|---|---|---|
| Discovery.Step | arduino/discovery/discoverymanager/discoverymanager.go:108-110 | a driver call never changes a worker's id or its sync snapshot; on success it moves the worker to the call's target state, on failure it leaves the worker as it was |
| DiscoveryManager.GuardReduces | arduino/discovery/discoverymanager/discoverymanager.go:103-179 | the per-worker guards: Run acts only on Dead workers, Start and StartSync only on Idling ones (the redundant second disjuncts at :120 and :139 drop out), Stop only on Running or Syncing ones, Quit on every worker that is not Dead |
| DiscoveryManager.BulkOpPerWorker | arduino/discovery/discoverymanager/discoverymanager.go:72-97 | after a bulk operation each worker is still registered; it is in the operation's target state exactly when its guard held and its driver call succeeded; it contributes an error exactly when its guard held and the call failed; a skipped worker is untouched |
| DiscoveryManager.FailuresAttributed | arduino/discovery/discoverymanager/discoverymanager.go:72-97 | every error of a bulk operation names that operation and a registered worker, no worker contributes two errors, and an empty registry gives no errors |
| DiscoveryManager.AllFailedIffCount | arduino/discovery/discoverymanager/discoverymanager.go:72-97 | a bulk operation reports at most one error per registered worker, and exactly as many errors as workers precisely when every worker was guarded in and failed |
| DiscoveryManager.AfterKeys | arduino/discovery/discoverymanager/discoverymanager.go:72-97 | a bulk operation neither adds nor removes workers |
| DiscoveryManager.AfterKeepsIds | arduino/discovery/discoverymanager/discoverymanager.go:72-97 | a registry whose workers are stored under their own ids keeps that property through a bulk operation |
| DiscoveryManager.FanOut | arduino/discovery/discoverymanager/discoverymanager.go:72-97 | the loop that visits every worker once yields the registry after the operation and exactly the multiset of failures of guarded workers |
| DiscoveryManager.Manager.constructor | arduino/discovery/discoverymanager/discoverymanager.go:34-39 | a new manager has an empty registry and no event channel |
| DiscoveryManager.Manager.IDs | arduino/discovery/discoverymanager/discoverymanager.go:52-58 | returns every registered id exactly once, as many ids as workers |
| DiscoveryManager.Manager.Add | arduino/discovery/discoverymanager/discoverymanager.go:61-68 | an id already present gives a duplicate error and leaves the registry unchanged; otherwise the registry gains exactly that worker under its id |
| DiscoveryManager.Manager.Parallelize | arduino/discovery/discoverymanager/discoverymanager.go:72-97 | the registry becomes the result of applying the guarded operation to every worker, and the errors are exactly the failures of the guarded workers |
| DiscoveryManager.Manager.RunAll | arduino/discovery/discoverymanager/discoverymanager.go:101-113 | runs exactly the Dead workers; one error per Dead worker that failed to run |
| DiscoveryManager.Manager.StartAll | arduino/discovery/discoverymanager/discoverymanager.go:117-129 | starts exactly the Idling workers; one error per such worker that failed |
| DiscoveryManager.Manager.StartSyncAll | arduino/discovery/discoverymanager/discoverymanager.go:133-156 | creates the global channel only when there is none and returns the channel then held; starts syncing exactly the Idling workers, one error per failure |
| DiscoveryManager.Manager.StopAll | arduino/discovery/discoverymanager/discoverymanager.go:160-173 | stops exactly the Running and Syncing workers; one error per failure |
| DiscoveryManager.Manager.QuitAll | arduino/discovery/discoverymanager/discoverymanager.go:177-196 | quits every worker that is not Dead; the global channel is closed and cleared exactly when no error was reported, and kept otherwise |
| DiscoveryManager.Manager.Clear | arduino/discovery/discoverymanager/discoverymanager.go:42-49 | whatever quitting reports, the registry ends empty and the channel closed and cleared |
| DiscoveryManager.Manager.List | arduino/discovery/discoverymanager/discoverymanager.go:200-243 | the ports are those reported by the Running workers, worker after worker in map order, and there is one error per Running worker whose listing failed |
| DiscoveryManager.ListedMembership | arduino/discovery/discoverymanager/discoverymanager.go:200-243 | a port is listed exactly when some Running worker reported it |
| DiscoveryManager.Manager.ListSync | arduino/discovery/discoverymanager/discoverymanager.go:246-256 | the result is the concatenation of the snapshots of the Syncing workers, in map order |
| DiscoveryManager.SyncedMembership | arduino/discovery/discoverymanager/discoverymanager.go:246-256 | a port is in the sync listing exactly when some Syncing worker holds it |
| DiscoveryManager.SyncedEmpty | arduino/discovery/discoverymanager/discoverymanager.go:246-256 | with no Syncing worker the sync listing is empty |
| DiscoveryManager.SyncTwice | arduino/discovery/discoverymanager/discoverymanager.go:133-155 | two StartSyncAll calls with no quit in between return the same open channel |
| Arguments.DeviceAddress | cli/arguments/port.go:52-63 | the address flag wins; without it, a recorded port with scheme `serial` gives host + path, any other scheme gives "", and an unparsable one is an invalid-URL error |
| Arguments.NoAddressMeansDefault | cli/arguments/port.go:55-73 | with no address flag and no serial sketch port the result is the `default`-protocol port, and no discovery is consulted |
| Arguments.AwaitPort | cli/arguments/port.go:102-124 | the event loop returns the first event that announces the requested port |
| Arguments.FirstMatchIsFirst | cli/arguments/port.go:109-112 | the match is an `add` at the requested address, of the requested protocol when one was given, and no earlier event matches; there is none exactly when no event matches |
| Arguments.OnlyAddsMatter | cli/arguments/port.go:106-108 | removing every non-`add` event does not change the match |
| Arguments.AllFailedRule | cli/arguments/port.go:81-89 | the lookup fails as a total failure exactly when every registered discovery was Dead and failed to run; an empty registry is a total failure |
| Arguments.FoundOrFallback | cli/arguments/port.go:109-123 | a port other than the serial fallback was announced by some event; when nothing matches before the deadline the result is a serial port at the address with no protocol, and "port not found" otherwise |
| Arguments.LookupPort | cli/arguments/port.go:80-100 | a total run failure aborts before syncing; partial run errors are reported and the lookup goes on; the registry ends as run, synced and quit as far as the lookup got; the global event channel is untouched by a failed run, is the syncing channel (the one held before, or a new one) once syncing starts, and is closed and dropped by the final quit exactly when no discovery fails to quit |
| Arguments.SyncAndAwait | cli/arguments/port.go:90-124 | any StartSync error aborts with those errors before anything is quit; otherwise the matched port or the fallback is returned and every discovery is quit; the global event channel is the syncing channel, dropped by the quit exactly when no discovery fails to quit |
| Arguments.GetPort | cli/arguments/port.go:51-125 | the result is the resolution of the flags and events; when no lookup is needed nothing is reported and the registry and channel are untouched; otherwise the registry and the global event channel end as the lookup leaves them |
| SketchProfiles.ParseNameAndVersion | arduino/sketch/profiles.go:117-124 | a successful parse returns a non-empty name over the name characters and a non-empty single-line version that joined as NAME + " (" + VERSION + ")" give back the input |
| SketchProfiles.ParseComplete | arduino/sketch/profiles.go:117-124 | every input of that form is accepted and split back into exactly its name and version |
| SketchProfiles.SplitAtColon | arduino/sketch/profiles.go:137-143 | an id without `:` is refused; otherwise it is split at its first `:` into two parts that joined by `:` give the id |
| SketchProfiles.ParsePlatform | arduino/sketch/profiles.go:131-143 | a missing or malformed `platform` directive is refused; an accepted one yields a packager without `:` and an architecture that joined by `:` form the directive's name, and a version the directive's version text parses to |
| SketchProfiles.ParseIndexUrl | arduino/sketch/profiles.go:145-151 | an absent `platform_index_url` sets nothing; a present one yields the URL it parses to |
| SketchProfiles.PlatformReference.constructor | arduino/sketch/profiles.go:93-98 | a new platform reference is empty |
| SketchProfiles.PlatformReference.UnmarshalYaml | arduino/sketch/profiles.go:126-153 | a bad `platform` directive changes nothing; a good one sets packager, architecture and version; a bad URL is then refused with those already set, and the URL changes only when one is given |
| SketchProfiles.PlatformString | arduino/sketch/profiles.go:100-106 | the text is `P:A@V`, followed by ` (URL)` exactly when a URL is set |
| SketchProfiles.PlatformYamlLines | arduino/sketch/profiles.go:109-115 | a platform entry opens with its `platform:` directive line, and a `platform_index_url:` line follows exactly when a URL is set |
| SketchProfiles.PlatformRoundTrip | arduino/sketch/profiles.go:109-143 | the `P:A (V)` directive written for a platform parses back to name `P:A` and version `V`, and decodes to the same packager, architecture and version |
| SketchProfiles.ParseLibrary | arduino/sketch/profiles.go:166-173 | a malformed library directive is refused; an accepted one yields the directive's name and the version its version text parses to |
| SketchProfiles.LibraryReference.constructor | arduino/sketch/profiles.go:156-159 | a new library reference is empty |
| SketchProfiles.LibraryReference.UnmarshalYaml | arduino/sketch/profiles.go:161-175 | a well-formed directive sets the library name and version; anything else is refused and changes nothing |
| SketchProfiles.LibraryDirectiveString | arduino/sketch/profiles.go:161-179 | a directive `NAME (VERSION)` decodes to that library and version, which prints as `NAME@VERSION` |
| SketchProfiles.PlatformsYamlSplit | arduino/sketch/profiles.go:75-81 | the text of two platform lists in a row is the text of the first followed by that of the second |
| SketchProfiles.PlatformWritten | arduino/sketch/profiles.go:75-81 | each platform's entry is written right after the entries of the platforms before it |
| SketchProfiles.RequiredPlatformsAsYaml | arduino/sketch/profiles.go:75-81 | the accumulation loop writes the entries of all platforms, in order |
| SketchProfiles.ProfileYamlLines | arduino/sketch/profiles.go:59-68 | a profile's text opens with a notes line exactly when it has notes; the fqbn line is always written; required libraries contribute nothing |
| SketchProfiles.DefaultLine | arduino/sketch/profiles.go:43-45 | the `default_profile` line is written exactly when the default is non-empty |
| SketchProfiles.ProfilesYamlGrows | arduino/sketch/profiles.go:38-42 | the text written so far only grows as profiles are added |
| SketchProfiles.ProfileWritten | arduino/sketch/profiles.go:36-47 | the project text opens with `profiles:`, and every profile of the map is written under its name after the profiles before it in map order |
| SketchProfiles.ProjectAsYaml | arduino/sketch/profiles.go:36-47 | the loop writes the header, then each profile in map order, then the default line |
| Upload.Prepare | commands/upload/upload.go:81-102 | burning a bootloader without a programmer fails; an unparsable recorded port fails; an FQBN that is still empty after falling back to the sketch's fails; on success the FQBN is non-empty, a given port is kept, and with no port given the port is the host and path of a `serial` URL recorded in the sketch, or empty for any other scheme or when nothing is recorded |
| Upload.UploadTool | commands/upload/upload.go:156-171 | an empty `upload.tool` is refused, as is one with two or more `:`; without `:` it names a tool of the board's platform; with one `:` it is split into packager and tool name |
| Upload.SelectTool | commands/upload/upload.go:125-176 | burning needs `bootloader.tool`; then a named programmer must be one of the board platform's or the build platform's, and the choice succeeds exactly when its `program.tool` is non-empty, giving that tool, whatever `upload.tool` says; without a programmer the board's `upload.tool` alone decides |
| Upload.BurnUsesProgrammerTool | commands/upload/upload.go:125-150 | when a bootloader burn gets past the preliminary validation, the tool always comes from the programmer |
| Upload.CopyIfPresent | commands/upload/upload.go:206-208 | the destination takes the source's value when the source key exists, and is untouched otherwise; no other key changes |
| Upload.SetVerbosity | commands/upload/upload.go:204-231 | each of the four `X.verbose` keys takes `X.params.verbose` (verbose) or `X.params.quiet` (quiet) when that key exists; no other key changes |
| Upload.SetVerify | commands/upload/upload.go:233-240 | `upload.verify` and `program.verify` are always set, from `params.verify` or `params.noverify`, and to "" when the key is missing; no other key changes |
| Upload.SetBuildTarget | commands/upload/upload.go:242-255 | a missing build path or a file instead of a directory is an error; otherwise exactly `build.path` and `build.project_name` are set |
| Upload.PortFile | commands/upload/upload.go:303-307 | the port file is the port with a leading `/dev/` removed, and the whole port otherwise |
| Upload.SetSerialPort | commands/upload/upload.go:300-308 | with no port nothing changes; otherwise exactly `serial.port` (the actual port) and `serial.port.file` are set |
| Upload.RunToolGuard | commands/upload/upload.go:332-339 | a missing recipe fails; an all-whitespace recipe succeeds without running anything; otherwise the recipe is run |
| Upload.StemAndExt | commands/upload/upload.go:400 | a file's stem followed by its extension is its base name |
| Upload.ArtifactsAt | commands/upload/upload.go:452-462 | the classification of each file (its stem when that stem ends in `.ino`, nothing otherwise) depends on that file alone |
| Upload.Detected | commands/upload/upload.go:435-448 | an unreadable directory fails; a file named `<dirbase>.ino.` + anything wins outright; otherwise the listing is scanned |
| Upload.ScanSingleStem | commands/upload/upload.go:450-477 | the scan succeeds exactly when some file is a candidate and all candidates share one stem, which is then the result |
| Upload.ScanErrors | commands/upload/upload.go:450-477 | no candidate at all gives "no valid build artifact"; two different stems give an error naming a first pair of files that disagree |
| Upload.DetectSketchName | commands/upload/upload.go:435-478 | the loop computes the detection result above |
| Upload.Target | commands/upload/upload.go:372-433 | import file and import dir together fail; an existing import file gives its directory and its base name without extension; an import dir gives the detected name; no sketch fails; a sketch gives `build/` + the FQBN with `:` turned into `.` and `name.ino` |
| LibInstall.MergedContents | commands/lib/install.go:54-64 | after a successful merge the keys are exactly the dependency names, each mapped to its required version |
| LibInstall.MergedOk | commands/lib/install.go:54-64 | the merge succeeds exactly when no name is required at two different versions, so repeats of the same version are harmless |
| LibInstall.MergedConflict | commands/lib/install.go:55-61 | a failed merge names a library required at two different versions by two dependencies, the later one first |
| LibInstall.MergedErrorSticks | commands/lib/install.go:54-64 | once the merge has failed, later dependencies do not change the error |
| LibInstall.MergeDependencies | commands/lib/install.go:54-64 | the loop computes the merge of the dependencies in order |
| LibInstall.ToInstall | commands/lib/install.go:38-65 | with NoDeps the set is exactly the requested name and version; otherwise a resolution error is passed on, and the set is the conflict-free merge of the dependencies |
| LibInstall.InstallLibrary | commands/lib/install.go:91-114 | an already installed release is a success that installs nothing; a release is newly installed exactly when the prerequisite check passes and the installation succeeds |
| LibInstall.InstallAllCovers | commands/lib/install.go:67-83 | after a successful loop every library to install is newly installed or was already installed, and only such releases were installed |
| LibInstall.InstallAllErrorSticks | commands/lib/install.go:67-83 | the first failing library ends the loop with its error |
| LibInstall.LibraryInstall | commands/lib/install.go:30-89 | without a library manager the instance is invalid; on success every library to install is installed or was already installed |
| Settings.TypeNameInjective | commands/service_settings.go:99 | two types have the same reported name exactly when they are the same type |
| Settings.SetRefusal | commands/service_settings.go:39-55 | a set is refused for a key without a default, for an undecodable value, and for a value of another type than the default; it is allowed exactly otherwise |
| Settings.UnsettableKinds | commands/service_settings.go:47-55 | a key whose default is a `uint` or a `[]string` can never be set, since decoded JSON never has those types |
| Settings.Lookup | commands/service_settings.go:64-70 | a get returns the stored value if any, else the default, else a key-not-found error |
| Settings.SetThenGet | commands/service_settings.go:58-70 | after setting a key to a value, a get of that key returns the value and gets of other keys are unaffected |
| Settings.SettingsStore.SetValue | commands/service_settings.go:36-60 | a refused set changes nothing; an allowed one updates only that key; defaults never change |
| Settings.SettingsStore.GetValue | commands/service_settings.go:62-78 | answers the lookup with fallback to the defaults |
| Settings.SettingsStore.Enumerate | commands/service_settings.go:93-105 | one entry per default key, in map order, each with the type name of its default |
| CoreSearch.VidPid | commands/core/search.go:43-45 | the vid is the query's first four characters and the pid everything after the fifth |
| CoreSearch.ExactUsbQuery | commands/core/search.go:43-45 | a query that is exactly `vid:pid` in lower-case hex takes the USB path with those two halves |
| CoreSearch.UnanchoredUsbQuery | commands/core/search.go:43-44 | the pattern may match anywhere, so a query such as `uno 2341:0043` also takes the USB path, with vid `uno ` |
| CoreSearch.Clean | commands/core/search.go:86-94 | the cleaned query has exactly the query's characters other than space, so `_` and `-` survive |
| CoreSearch.Contribution | commands/core/search.go:53-110 | an invalid platform contributes nothing; a valid one contributes its offered releases, with an empty query always and otherwise exactly when the query or its cleaned form matches closely; nothing else is ever contributed |
| CoreSearch.PackageResultSource | commands/core/search.go:48-111 | a release is in a package's result exactly when one of its platforms contributed it |
| CoreSearch.EmptyQueryTakesAllValid | commands/core/search.go:63-70 | with an empty query every release offered by a valid platform is in the result |
| CoreSearch.PackagesResultSource | commands/core/search.go:47-112 | every release returned is offered by a valid platform of some package: nil, unnamed, manually installed and release-less platforms never contribute |
| CoreSearch.FuzzyAccepts | commands/core/search.go:96-110 | a platform is accepted exactly when one of the query strings has a rank closer than the maximum distance, so it contributes at most once |
| CoreSearch.SearchPackage | commands/core/search.go:48-111 | the loop over a package's platforms accumulates their contributions in order |
| CoreSearch.SearchPackages | commands/core/search.go:47-112 | the loop over the packages accumulates their results in order |
| CoreSearch.ConvertAll | commands/core/search.go:115-118 | the output has one converted entry per accumulated release, in the same order |
| CoreSearch.PlatformSearch | commands/core/search.go:34-120 | the query is trimmed of spaces; a missing package manager is an invalid-instance error; otherwise the converted result of the USB lookup or of the package walk is returned |
| BuildBoard.DefaultBuildBoard | legacy/builder/add_build_board_property_if_missing.go:35 | the default is the upper-cased architecture, `_`, then the upper-cased board id |
| BuildBoard.PatchSetsBuildBoard | legacy/builder/add_build_board_property_if_missing.go:34-35 | afterwards a board always has a non-empty `build.board`: the one it had, untouched, or else the upper-cased default |
| BuildBoard.PatchOnlyBuildBoard | legacy/builder/add_build_board_property_if_missing.go:35 | no property other than `build.board` is added, removed or changed |
| BuildBoard.PatchIdempotent | legacy/builder/add_build_board_property_if_missing.go:34-35 | a second run of the step changes nothing |
| BuildBoard.WarnedAnnounces | legacy/builder/add_build_board_property_if_missing.go:34-39 | every warning is that of a visited board that lacked `build.board`, and every such board is warned about |
| BuildBoard.WarningMessage | legacy/builder/add_build_board_property_if_missing.go:36-39 | a board's warning message names the board as `package:arch:id` and gives the `build.board` value the board now holds |
| BuildBoard.WarnedCount | legacy/builder/add_build_board_property_if_missing.go:34-39 | exactly one warning is emitted per board that lacked `build.board` |
| BuildBoard.NoWarningWhenAllSet | legacy/builder/add_build_board_property_if_missing.go:34-39 | when every board already has `build.board` no warning is emitted |
| BuildBoard.PatchBoard | legacy/builder/add_build_board_property_if_missing.go:33-41 | one board is patched in place and its warning appended, and the boards visited so far stay patched |
| BuildBoard.PatchRelease | legacy/builder/add_build_board_property_if_missing.go:33-41 | the loop over a release's boards patches each of them in visiting order |
| BuildBoard.PatchPlatform | legacy/builder/add_build_board_property_if_missing.go:32-42 | the loop over a platform's releases patches all their boards |
| BuildBoard.PatchPackage | legacy/builder/add_build_board_property_if_missing.go:31-43 | the loop over a package's platforms patches all their boards |
| BuildBoard.PatchHardware | legacy/builder/add_build_board_property_if_missing.go:30-44 | the loop over the packages patches every board and emits the warnings in visiting order |
| BuildBoard.Run | legacy/builder/add_build_board_property_if_missing.go:27-47 | always returns nil; every board ends with its old properties patched, and the warnings are one per board that lacked `build.board`, in visiting order |

## Left out

- Goroutines, wait groups and channel sends in the discovery manager. Each
  fan-out is a sequential loop and its errors are a multiset.
- `DiscoveryManager.Manager.List` and `ListSync`: the ports of different
  workers may interleave in the source. The model concatenates them worker
  by worker in a map order that the method chooses.
- The per-worker forwarding of events into the global channel. The channel
  is a token, `Nil` or `Open(id)`.
- The pluggable-discovery driver and its process protocol. A driver call
  either moves the worker to its target state or leaves it unchanged. Which
  calls fail is a parameter.
- The timer and `select` in `GetPort`. The deadline is the end of the finite
  sequence of events received.
- Logging, `feedback.Error` output and the `defer`ed logging of quit errors
  in `GetPort`. The partially failed run errors are returned as `reported`.
- `url.Parse`, `semver.Parse`, `yaml.Unmarshal`, `json.Unmarshal`,
  `json.Marshal` and `reflect`. They are oracles or a tagged union of values.
  `SettingsGetValue` returns the value rather than its JSON text.
- The regular expression engine. The profile grammar is a character-class
  predicate.
- The project file I/O (`LoadProjectFile`, `SaveProjectFile`) and the
  `ConfigurationGet`, `ConfigurationSave` and `ConfigurationOpen` stubs,
  which do nothing.
- Upload: `ParseFQBN`, `ResolveFQBN`, the package-manager platform and tool
  lookups, property-map `Merge`/`SubTree`, and the required-tool properties.
  They are not part of this model. The tool's platform is recorded as the
  board's platform, a packager name or the programmer's platform.
- Upload: the 1200-bps touch, the wait for a new serial port (the actual
  port is a parameter), the `serial.port`-missing check in `runTool`,
  expansion and quoting of recipes, and process execution.
- Upload: file-system checks are parameters (whether the import file exists,
  the kind of the build path, the directory listing, the absolute base
  name). Paths use `/` only, and `filepath` cleaning of `.`/`..` is not
  modelled.
- Library install: the dependency resolver, the index lookup, the download
  and the library manager are parameters. `ZipLibraryInstall` and
  `GitLibraryInstall` only delegate to the library manager and are left out.
- Core search: the fuzzy ranking, the USB-id board lookup and the conversion
  to the RPC form are parameters.
- `Strings.ToUpper`: ASCII letters only, not Unicode case mapping.
- Strings are sequences of Unicode code points, not Go's UTF-8 byte
  strings. Where Go slices by byte offset, the model slices by character:
  `CoreSearch.VidPid` takes the first four characters of the query and
  everything after the fifth, which differs from Go's `[:4]` and `[5:]`
  when a non-ASCII character precedes the matched USB id.
- `Settings.SettingsStore.Enumerate`: requires every default to be non-nil.
  The source panics on a nil default, and the model does not represent the
  panic.
- Settings: hierarchical (dotted) keys and environment overrides of the
  settings library. Keys are flat map keys.
- `BuildBoard.Run`: requires that no board object is reached twice through
  the hardware tree. If a board were shared, the source would patch it once
  and warn once.
- `BuildBoard.Run`: the warnings are returned as a list instead of being
  written to the build context's log, and their text is given by `Message`
  rather than passed through the translation table.
- `SketchProfiles.ProjectAsYaml`: profiles are written in the order of an
  input listing the map's keys, because Go's map order is unspecified.
