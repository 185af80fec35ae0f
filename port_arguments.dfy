/**
 * Resolution of the upload port from the `--port`/`--protocol` flags, the
 * sketch's recorded port and the ports the discoveries announce.
 *
 * The event stream is the finite sequence of events that arrive before the
 * discovery timeout expires; its end stands for the deadline. URL parsing is
 * an oracle (`parseUrl`), and whether the package manager of the instance
 * exists is a flag (`hasPm`).
 */
module Arguments {
  import opened Wrappers
  import opened Discovery
  import opened DiscoveryManager

  /** The parts of a parsed URL the resolution reads. */
  datatype Url = Url(scheme: string, host: string, path: string)

  /** The two flags the user may give. */
  datatype PortFlags = PortFlags(address: string, protocol: string)

  datatype PortError =
    | InvalidDeviceUrl(raw: string)                       // "invalid Device URL format"
    | InvalidInstance                                     // "invalid instance"
    | AllDiscoveriesFailed(errs: multiset<DiscoveryError>)
    | StartSyncFailed(errs: multiset<DiscoveryError>)
    | PortNotFound(address: string, protocol: string)     // "port not found: %s %s"

  /** The port that lets an upload tool detect the board on its own. */
  const DefaultPort := Port("", "default", "", map[])

  /** The port assumed when nothing announced the requested address: a serial port. */
  function SerialPort(address: string): Port
  {
    Port(address, "serial", "", map[])
  }

  /**
   * The address to look for: the flag when given, otherwise the host and
   * path of the sketch's recorded port when its scheme is `serial`, and ""
   * when there is none. `cpuPort` is the recorded port, `None` when there is
   * no sketch or it has no metadata.
   */
  function DeviceAddress(flagAddress: string, cpuPort: Option<string>, parseUrl: string -> Option<Url>): (r: Result<string, PortError>)
    ensures flagAddress != "" ==> r == Ok(flagAddress)
    ensures flagAddress == "" && cpuPort.None? ==> r == Ok("")
    ensures flagAddress == "" && cpuPort.Some? ==>
      match parseUrl(cpuPort.value)
      case None => r == Err(InvalidDeviceUrl(cpuPort.value))
      case Some(u) => r == Ok(if u.scheme == "serial" then u.host + u.path else "")
  {
    if flagAddress == "" && cpuPort.Some? then
      match parseUrl(cpuPort.value)
      case None => Err(InvalidDeviceUrl(cpuPort.value))
      case Some(u) => Ok(if u.scheme == "serial" then u.host + u.path else "")
    else
      Ok(flagAddress)
  }

  /** An event announces the requested port: an `add` at that address, of the requested protocol if one was given. */
  predicate Announces(e: Event, address: string, protocol: string)
  {
    e.eventType == "add" && (protocol == "" || protocol == e.port.protocol) && address == e.port.address
  }

  /** The port of the first event that announces the requested port. */
  function FirstMatch(events: seq<Event>, address: string, protocol: string): Option<Port>
  {
    if events == [] then None
    else if Announces(events[0], address, protocol) then Some(events[0].port)
    else FirstMatch(events[1..], address, protocol)
  }

  /** Only the `add` events of a stream, in their order. */
  function Adds(events: seq<Event>): (r: seq<Event>)
    ensures |r| <= |events|
    ensures forall e :: e in r ==> e in events && e.eventType == "add"
  {
    if events == [] then []
    else (if events[0].eventType == "add" then [events[0]] else []) + Adds(events[1..])
  }

  /**
   * The event loop of `GetPort`: reads the events in arrival order, skips
   * everything but `add`, and stops at the first announced port that has the
   * requested address and protocol; `None` when the stream ends first.
   */
  method AwaitPort(events: seq<Event>, address: string, protocol: string) returns (found: Option<Port>)
    ensures found == FirstMatch(events, address, protocol)
  {
    var i := 0;
    while i < |events|
      invariant 0 <= i <= |events|
      invariant FirstMatch(events, address, protocol) == FirstMatch(events[i..], address, protocol)
    {
      var e := events[i];
      assert events[i..][1..] == events[i + 1..];
      if e.eventType != "add" {
        i := i + 1;
        continue;
      }
      if (protocol == "" || protocol == e.port.protocol) && address == e.port.address {
        return Some(e.port);
      }
      i := i + 1;
    }
    return None;
  }

  lemma MultisetOfSetSize<T>(s: set<T>)
    ensures |multiset(s)| == |s|
  {
  }

  /**
   * The first announcement wins: `FirstMatch` answers the port of an
   * announcing event with no announcing event before it, and `None` exactly
   * when no event announces the requested port.
   */
  lemma {:induction false} FirstMatchIsFirst(events: seq<Event>, address: string, protocol: string)
    ensures FirstMatch(events, address, protocol).None? <==>
      forall i :: 0 <= i < |events| ==> !Announces(events[i], address, protocol)
    ensures FirstMatch(events, address, protocol).Some? ==>
      exists i :: 0 <= i < |events| && Announces(events[i], address, protocol)
        && events[i].port == FirstMatch(events, address, protocol).value
        && forall j :: 0 <= j < i ==> !Announces(events[j], address, protocol)
  {
    if events != [] && !Announces(events[0], address, protocol) {
      var rest := events[1..];
      FirstMatchIsFirst(rest, address, protocol);
      if FirstMatch(rest, address, protocol).Some? {
        var i :| 0 <= i < |rest| && Announces(rest[i], address, protocol)
          && rest[i].port == FirstMatch(rest, address, protocol).value
          && forall j :: 0 <= j < i ==> !Announces(rest[j], address, protocol);
        assert events[i + 1] == rest[i];
        forall j | 0 <= j < i + 1
          ensures !Announces(events[j], address, protocol)
        {
          if j > 0 {
            assert events[j] == rest[j - 1];
          }
        }
      } else {
        forall i | 0 <= i < |events|
          ensures !Announces(events[i], address, protocol)
        {
          if i > 0 {
            assert events[i] == rest[i - 1];
          }
        }
      }
    } else if events != [] {
      assert Announces(events[0], address, protocol);
    }
  }

  /** Events other than `add` play no part: dropping them leaves the match unchanged. */
  lemma {:induction false} OnlyAddsMatter(events: seq<Event>, address: string, protocol: string)
    ensures FirstMatch(events, address, protocol) == FirstMatch(Adds(events), address, protocol)
  {
    if events != [] {
      OnlyAddsMatter(events[1..], address, protocol);
      if events[0].eventType == "add" {
        assert Adds(events) == [events[0]] + Adds(events[1..]);
        assert Adds(events)[1..] == Adds(events[1..]);
      } else {
        assert Adds(events) == Adds(events[1..]);
      }
    }
  }

  /** How far the lookup got; it tells what happened to the discoveries. */
  datatype Stage =
    | NoLookup      // the address was invalid or empty, or there is no package manager
    | RunFailed     // every discovery failed to run
    | SyncFailed    // some discovery failed to start syncing; nothing is quit
    | Synced        // the events were read and every discovery was quit afterwards

  /**
   * How far the discovery part of the lookup gets from registry `ds` when
   * the driver calls of `runFails` fail for `Run` and those of `syncFails`
   * for `StartSync`. The run counts as a total failure when there are as
   * many errors as registered ids.
   */
  function LookupStage(ds: map<string, Discovery>, runFails: set<string>, syncFails: set<string>): Stage
  {
    if |Failures(Run, ds, runFails)| == |ds| then RunFailed
    else if |Failures(StartSync, After(Run, ds, runFails), syncFails)| > 0 then SyncFailed
    else Synced
  }

  /** The result of the discovery part of the lookup for a non-empty address. */
  function Lookup(address: string, protocol: string, ds: map<string, Discovery>,
                  runFails: set<string>, syncFails: set<string>, events: seq<Event>): Result<Port, PortError>
  {
    match LookupStage(ds, runFails, syncFails)
    case RunFailed => Err(AllDiscoveriesFailed(multiset(Failures(Run, ds, runFails))))
    case SyncFailed => Err(StartSyncFailed(multiset(Failures(StartSync, After(Run, ds, runFails), syncFails))))
    case _ => Outcome(FirstMatch(events, address, protocol), address, protocol)
  }

  /**
   * The answer once the events are read: the announced port, or at the
   * deadline a serial port at the address when no protocol was requested,
   * and "port not found" otherwise.
   */
  function Outcome(found: Option<Port>, address: string, protocol: string): Result<Port, PortError>
  {
    match found
    case Some(p) => Ok(p)
    case None => if protocol == "" then Ok(SerialPort(address)) else Err(PortNotFound(address, protocol))
  }

  /** Whether the discoveries are consulted at all: only for a valid, non-empty address and an existing package manager. */
  predicate Consults(a: Result<string, PortError>, hasPm: bool)
  {
    a.Ok? && a.value != "" && hasPm
  }

  /**
   * The port `GetPort` returns, given the registry `ds` it starts from and
   * which driver calls fail.
   */
  function Resolve(flags: PortFlags, cpuPort: Option<string>, parseUrl: string -> Option<Url>, hasPm: bool,
                   ds: map<string, Discovery>, runFails: set<string>, syncFails: set<string>,
                   events: seq<Event>): Result<Port, PortError>
  {
    match DeviceAddress(flags.address, cpuPort, parseUrl)
    case Err(e) => Err(e)
    case Ok(address) =>
      if address == "" then Ok(DefaultPort)
      else if !hasPm then Err(InvalidInstance)
      else Lookup(address, flags.protocol, ds, runFails, syncFails, events)
  }

  /** The run errors shown to the user while the lookup goes on: those of a partial failure. */
  function Reported(stage: Stage, ds: map<string, Discovery>, runFails: set<string>): multiset<DiscoveryError>
  {
    if stage == SyncFailed || stage == Synced then multiset(Failures(Run, ds, runFails)) else multiset{}
  }

  /**
   * The registry once the lookup is over: run, then started syncing, then
   * quit, as far as the lookup got.
   */
  function Afterwards(stage: Stage, ds: map<string, Discovery>,
                      runFails: set<string>, syncFails: set<string>, quitFails: set<string>): map<string, Discovery>
  {
    match stage
    case NoLookup => ds
    case RunFailed => After(Run, ds, runFails)
    case SyncFailed => After(StartSync, After(Run, ds, runFails), syncFails)
    case Synced => After(Quit, After(StartSync, After(Run, ds, runFails), syncFails), quitFails)
  }

  /** The global channel once syncing started: the one held before, or a new one. */
  function SyncChannel(ch: EventChannel, made: nat): (c: EventChannel)
    ensures c.Open?
    ensures ch.Open? ==> c == ch
  {
    if ch.Open? then ch else Open(made)
  }

  /**
   * The global event channel once the lookup is over, from channel `ch` and
   * `made` channels created before: unchanged until syncing starts, then
   * the syncing channel, which the deferred quit closes and drops exactly
   * when no discovery fails to quit.
   */
  function ChannelAfterwards(stage: Stage, ds: map<string, Discovery>, runFails: set<string>, syncFails: set<string>,
                             quitFails: set<string>, ch: EventChannel, made: nat): EventChannel
  {
    match stage
    case NoLookup => ch
    case RunFailed => ch
    case SyncFailed => SyncChannel(ch, made)
    case Synced =>
      if |Failures(Quit, After(StartSync, After(Run, ds, runFails), syncFails), quitFails)| == 0 then Nil
      else SyncChannel(ch, made)
  }

  /**
   * The discovery part of `GetPort`, from `pm.DiscoveryManager()` on: every
   * discovery is run and started syncing, the events are read, and once
   * syncing has started every discovery is quit on the way out, whatever the
   * result. `quitFails` says which `Quit` calls fail; those errors are only
   * logged.
   */
  method LookupPort(address: string, protocol: string, dm: Manager,
                    runFails: set<string>, syncFails: set<string>, quitFails: set<string>, events: seq<Event>)
    returns (r: Result<Port, PortError>, reported: multiset<DiscoveryError>)
    requires dm.Valid()
    modifies dm
    ensures dm.Valid()
    ensures r == Lookup(address, protocol, old(dm.discoveries), runFails, syncFails, events)
    ensures reported == Reported(LookupStage(old(dm.discoveries), runFails, syncFails), old(dm.discoveries), runFails)
    ensures dm.discoveries == Afterwards(LookupStage(old(dm.discoveries), runFails, syncFails),
                                         old(dm.discoveries), runFails, syncFails, quitFails)
    ensures dm.globalEventCh == ChannelAfterwards(LookupStage(old(dm.discoveries), runFails, syncFails),
                                                  old(dm.discoveries), runFails, syncFails, quitFails,
                                                  old(dm.globalEventCh), old(dm.channelsMade))
  {
    ghost var ds0 := dm.discoveries;
    ghost var stage := LookupStage(ds0, runFails, syncFails);
    reported := multiset{};
    var runErrs := dm.RunAll(runFails);
    var ids := dm.IDs();
    AfterKeys(Run, ds0, runFails);
    MultisetOfSetSize(Failures(Run, ds0, runFails));
    if |runErrs| == |ids| {
      assert stage == RunFailed;
      assert Lookup(address, protocol, ds0, runFails, syncFails, events) == Err(AllDiscoveriesFailed(runErrs));
      return Err(AllDiscoveriesFailed(runErrs)), reported;
    }
    reported := runErrs;
    r := SyncAndAwait(address, protocol, dm, syncFails, quitFails, events);
  }

  /**
   * The part of `GetPort` after the discoveries run: starts them syncing,
   * gives up on any error, and otherwise reads the events and quits every
   * discovery on the way out.
   */
  method SyncAndAwait(address: string, protocol: string, dm: Manager,
                      syncFails: set<string>, quitFails: set<string>, events: seq<Event>)
    returns (r: Result<Port, PortError>)
    requires dm.Valid()
    modifies dm
    ensures dm.Valid()
    ensures |Failures(StartSync, old(dm.discoveries), syncFails)| > 0 ==>
      r == Err(StartSyncFailed(multiset(Failures(StartSync, old(dm.discoveries), syncFails))))
      && dm.discoveries == After(StartSync, old(dm.discoveries), syncFails)
      && dm.globalEventCh == SyncChannel(old(dm.globalEventCh), old(dm.channelsMade))
    ensures |Failures(StartSync, old(dm.discoveries), syncFails)| == 0 ==>
      r == Outcome(FirstMatch(events, address, protocol), address, protocol)
      && dm.discoveries == After(Quit, After(StartSync, old(dm.discoveries), syncFails), quitFails)
      && dm.globalEventCh == if |Failures(Quit, After(StartSync, old(dm.discoveries), syncFails), quitFails)| == 0 then Nil
                             else SyncChannel(old(dm.globalEventCh), old(dm.channelsMade))
  {
    var ch, syncErrs := dm.StartSyncAll(syncFails);
    MultisetOfSetSize(Failures(StartSync, old(dm.discoveries), syncFails));
    if |syncErrs| > 0 {
      return Err(StartSyncFailed(syncErrs));
    }
    var found := AwaitPort(events, address, protocol);
    r := Outcome(found, address, protocol);
    var quitErrs := dm.QuitAll(quitFails);
    MultisetOfSetSize(Failures(Quit, After(StartSync, old(dm.discoveries), syncFails), quitFails));
  }

  /**
   * `Port.GetPort`: derives the address; with none, answers the default
   * port without consulting any discovery; otherwise looks the address up.
   */
  method GetPort(flags: PortFlags, cpuPort: Option<string>, parseUrl: string -> Option<Url>, hasPm: bool,
                 dm: Manager, runFails: set<string>, syncFails: set<string>, quitFails: set<string>,
                 events: seq<Event>)
    returns (r: Result<Port, PortError>, reported: multiset<DiscoveryError>)
    requires dm.Valid()
    modifies dm
    ensures dm.Valid()
    ensures r == Resolve(flags, cpuPort, parseUrl, hasPm, old(dm.discoveries), runFails, syncFails, events)
    ensures !Consults(DeviceAddress(flags.address, cpuPort, parseUrl), hasPm) ==>
      reported == multiset{} && dm.discoveries == old(dm.discoveries) && dm.globalEventCh == old(dm.globalEventCh)
    ensures Consults(DeviceAddress(flags.address, cpuPort, parseUrl), hasPm) ==>
      var stage := LookupStage(old(dm.discoveries), runFails, syncFails);
      reported == Reported(stage, old(dm.discoveries), runFails)
      && dm.discoveries == Afterwards(stage, old(dm.discoveries), runFails, syncFails, quitFails)
      && dm.globalEventCh == ChannelAfterwards(stage, old(dm.discoveries), runFails, syncFails, quitFails,
                                               old(dm.globalEventCh), old(dm.channelsMade))
  {
    var a := DeviceAddress(flags.address, cpuPort, parseUrl);
    if a.Err? {
      return Err(a.error), multiset{};
    }
    var address := a.value;
    if address == "" {
      return Ok(DefaultPort), multiset{};
    }
    if !hasPm {
      return Err(InvalidInstance), multiset{};
    }
    r, reported := LookupPort(address, flags.protocol, dm, runFails, syncFails, quitFails, events);
  }

  /**
   * Without an address from the flag or from a `serial` sketch port the
   * default port is answered, whatever the registry and the events.
   */
  lemma NoAddressMeansDefault(flags: PortFlags, cpuPort: Option<string>, parseUrl: string -> Option<Url>, hasPm: bool,
                              ds: map<string, Discovery>, runFails: set<string>, syncFails: set<string>, events: seq<Event>)
    requires flags.address == ""
    requires cpuPort.None? || (parseUrl(cpuPort.value).Some? && parseUrl(cpuPort.value).value.scheme != "serial")
    ensures Resolve(flags, cpuPort, parseUrl, hasPm, ds, runFails, syncFails, events) == Ok(DefaultPort)
    ensures !Consults(DeviceAddress(flags.address, cpuPort, parseUrl), hasPm)
  {
  }

  /**
   * Once the discoveries are consulted, the lookup gives up with "all
   * discoveries failed" exactly when every registered discovery was dead and
   * failed to run, which includes an empty registry; with fewer failures it
   * goes on.
   */
  lemma {:induction false} AllFailedRule(flags: PortFlags, cpuPort: Option<string>, parseUrl: string -> Option<Url>,
                                         ds: map<string, Discovery>, runFails: set<string>, syncFails: set<string>,
                                         events: seq<Event>)
    requires Consults(DeviceAddress(flags.address, cpuPort, parseUrl), true)
    ensures var r := Resolve(flags, cpuPort, parseUrl, true, ds, runFails, syncFails, events);
      (r.Err? && r.error.AllDiscoveriesFailed?) <==> forall id :: id in ds ==> ds[id].state == Dead && id in runFails
    ensures ds == map[] ==>
      Resolve(flags, cpuPort, parseUrl, true, ds, runFails, syncFails, events) == Err(AllDiscoveriesFailed(multiset{}))
  {
    AllFailedIffCount(Run, ds, runFails);
    forall id | id in ds
      ensures Guard(Run, ds[id].state) <==> ds[id].state == Dead
    {
      GuardReduces(Run, ds[id].state);
    }
    if ds == map[] {
      FailuresAttributed(Run, ds, runFails);
      assert multiset(Failures(Run, ds, runFails)) == multiset{};
      assert LookupStage(ds, runFails, syncFails) == RunFailed;
    }
  }

  /**
   * Once the discoveries started syncing, the answer is the first announced
   * port with the requested address and protocol; when none is announced it
   * is a serial port at the address if no protocol was requested, and "port
   * not found" otherwise.
   */
  lemma FoundOrFallback(flags: PortFlags, cpuPort: Option<string>, parseUrl: string -> Option<Url>,
                        ds: map<string, Discovery>, runFails: set<string>, syncFails: set<string>, events: seq<Event>)
    requires Consults(DeviceAddress(flags.address, cpuPort, parseUrl), true)
    requires LookupStage(ds, runFails, syncFails) == Synced
    ensures var address := DeviceAddress(flags.address, cpuPort, parseUrl).value;
      var r := Resolve(flags, cpuPort, parseUrl, true, ds, runFails, syncFails, events);
      && (r.Ok? && r.value != SerialPort(address) ==>
            exists i :: 0 <= i < |events| && Announces(events[i], address, flags.protocol) && events[i].port == r.value)
      && ((forall i :: 0 <= i < |events| ==> !Announces(events[i], address, flags.protocol)) ==>
            r == if flags.protocol == "" then Ok(SerialPort(address)) else Err(PortNotFound(address, flags.protocol)))
  {
    var address := DeviceAddress(flags.address, cpuPort, parseUrl).value;
    FirstMatchIsFirst(events, address, flags.protocol);
  }
}
