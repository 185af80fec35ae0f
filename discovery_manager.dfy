/**
 * The discovery manager: a registry of pluggable discoveries keyed by id, and
 * the bulk lifecycle operations that apply one driver call to every worker in
 * the right state, collecting one error per worker whose call failed.
 *
 * The concurrent fan-out of the original is a sequential loop over the
 * registry; the list of errors, whose order depends on scheduling, is a
 * multiset. Which driver calls fail is an input (`fails`, a set of ids).
 */
module DiscoveryManager {
  import opened Wrappers
  import opened Discovery
  import opened MapOrder

  /** The manager's merged event channel: none yet, or the channel with a given identity. */
  datatype EventChannel = Nil | Open(id: nat)

  datatype DiscoveryError =
    | DuplicateId(id: string)           // "pluggable discovery already added"
    | OpFailed(op: Op, id: string)      // "discovery %s process not started", "starting discovery %s", ...
    | ListFailed(id: string)            // "listing ports from discovery %s"

  /** What a running worker answers to a `List` query: its ports and whether it reported an error. */
  datatype ListReply = ListReply(ports: seq<Port>, failed: bool)

  /**
   * Whether a bulk operation calls the worker at all, with the conditions
   * written as the source writes them.
   */
  predicate Guard(op: Op, s: State)
  {
    match op
    case Run => !(s != Dead)
    case Start => !(s != Idling || s == Running)
    case StartSync => !(s != Idling || s == Syncing)
    case Stop => !(s != Syncing && s != Running)
    case Quit => !(s == Dead)
  }

  /** Both start guards reduce to "the worker is idling". */
  lemma GuardReduces(op: Op, s: State)
    ensures Guard(op, s) <==> match op
                              case Run => s == Dead
                              case Start => s == Idling
                              case StartSync => s == Idling
                              case Stop => s == Running || s == Syncing
                              case Quit => s != Dead
  {
  }

  /** The ids whose driver call is made and fails. */
  function Failing(op: Op, ds: map<string, Discovery>, fails: set<string>): set<string>
  {
    set id | id in ds && Guard(op, ds[id].state) && id in fails
  }

  /** The errors naming the ids of `ids`, one each. */
  function Image(op: Op, ids: set<string>): set<DiscoveryError>
  {
    set id | id in ids :: OpFailed(op, id)
  }

  lemma ImageAdd(op: Op, ids: set<string>, id: string)
    requires id !in ids
    ensures Image(op, ids + {id}) == Image(op, ids) + {OpFailed(op, id)}
    ensures multiset(Image(op, ids + {id})) == multiset(Image(op, ids)) + multiset{OpFailed(op, id)}
  {
    assert Image(op, ids + {id}) == Image(op, ids) + {OpFailed(op, id)};
    assert OpFailed(op, id) !in Image(op, ids);
  }

  /** The errors a bulk operation reports: one per failing worker. */
  function Failures(op: Op, ds: map<string, Discovery>, fails: set<string>): set<DiscoveryError>
  {
    Image(op, Failing(op, ds, fails))
  }

  /** One worker after a bulk operation: stepped when its state passes the guard, untouched otherwise. */
  function Apply(op: Op, id: string, d: Discovery, fails: set<string>): Discovery
  {
    if Guard(op, d.state) then Step(d, op, id !in fails) else d
  }

  /** The registry after a bulk operation. */
  function After(op: Op, ds: map<string, Discovery>, fails: set<string>): map<string, Discovery>
  {
    map id | id in ds :: Apply(op, id, ds[id], fails)
  }

  /** The registry part-way through a bulk operation: the ids in `done` have been visited. */
  function Partial(op: Op, ds: map<string, Discovery>, fails: set<string>, done: set<string>): map<string, Discovery>
  {
    map id | id in ds :: if id in done then Apply(op, id, ds[id], fails) else ds[id]
  }

  lemma PartialStep(op: Op, ds: map<string, Discovery>, fails: set<string>, done: set<string>, id: string)
    requires id in ds && id !in done
    ensures Partial(op, ds, fails, done)[id] == ds[id]
    ensures Partial(op, ds, fails, done + {id}) == Partial(op, ds, fails, done)[id := Apply(op, id, ds[id], fails)]
  {
    assert Partial(op, ds, fails, done + {id}).Keys == Partial(op, ds, fails, done)[id := Apply(op, id, ds[id], fails)].Keys;
  }

  lemma PartialComplete(op: Op, ds: map<string, Discovery>, fails: set<string>)
    ensures Partial(op, ds, fails, ds.Keys) == After(op, ds, fails)
  {
  }

  /** A bulk operation keeps every worker under its own id. */
  lemma AfterKeepsIds(op: Op, ds: map<string, Discovery>, fails: set<string>)
    requires forall id :: id in ds ==> ds[id].id == id
    ensures forall id :: id in After(op, ds, fails) ==> After(op, ds, fails)[id].id == id
  {
  }

  lemma FailingStep(op: Op, ds: map<string, Discovery>, fails: set<string>, done: set<string>, id: string)
    requires id in ds
    ensures Failing(op, ds, fails) * (done + {id})
         == Failing(op, ds, fails) * done + (if Guard(op, ds[id].state) && id in fails then {id} else {})
  {
  }

  /** A bulk operation neither adds nor removes workers. */
  lemma AfterKeys(op: Op, ds: map<string, Discovery>, fails: set<string>)
    ensures After(op, ds, fails).Keys == ds.Keys
    ensures |After(op, ds, fails)| == |ds|
  {
    assert After(op, ds, fails).Keys == ds.Keys;
    assert |After(op, ds, fails).Keys| == |ds.Keys|;
  }

  /** The ports the running workers answer with, visited in `order`. */
  function Listed(ds: map<string, Discovery>, order: seq<string>, listing: string -> ListReply): seq<Port>
  {
    if order == [] then []
    else Listed(ds, order[..|order| - 1], listing)
         + (var id := order[|order| - 1]; if id in ds && ds[id].state == Running then listing(id).ports else [])
  }

  /** One error per running worker of `ids` whose answer reports one. */
  function ListErrors(ds: map<string, Discovery>, ids: set<string>, listing: string -> ListReply): set<DiscoveryError>
  {
    set id | id in ids && id in ds && ds[id].state == Running && listing(id).failed :: ListFailed(id)
  }

  lemma ListErrorsAdd(ds: map<string, Discovery>, ids: set<string>, id: string, listing: string -> ListReply)
    requires id !in ids && id in ds
    ensures multiset(ListErrors(ds, ids + {id}, listing))
         == multiset(ListErrors(ds, ids, listing))
            + (if ds[id].state == Running && listing(id).failed then multiset{ListFailed(id)} else multiset{})
  {
    if ds[id].state == Running && listing(id).failed {
      assert ListErrors(ds, ids + {id}, listing) == ListErrors(ds, ids, listing) + {ListFailed(id)};
      assert ListFailed(id) !in ListErrors(ds, ids, listing);
    } else {
      assert ListErrors(ds, ids + {id}, listing) == ListErrors(ds, ids, listing);
    }
  }

  /** The snapshots of the syncing workers, visited in `order`. */
  function Synced(ds: map<string, Discovery>, order: seq<string>): seq<Port>
  {
    if order == [] then []
    else Synced(ds, order[..|order| - 1])
         + (var id := order[|order| - 1]; if id in ds && ds[id].state == Syncing then ds[id].syncPorts else [])
  }

  /**
   * What one bulk operation does to one worker: a worker the guard admits
   * reaches the target state of the call unless its call fails, and then it
   * is the only one its error names; a worker the guard skips is untouched
   * and reports nothing.
   */
  lemma BulkOpPerWorker(op: Op, ds: map<string, Discovery>, fails: set<string>, id: string)
    requires id in ds
    ensures id in After(op, ds, fails)
    ensures After(op, ds, fails)[id].state
         == if Guard(op, ds[id].state) && id !in fails then Target(op) else ds[id].state
    ensures OpFailed(op, id) in Failures(op, ds, fails) <==> Guard(op, ds[id].state) && id in fails
    ensures !Guard(op, ds[id].state) ==> After(op, ds, fails)[id] == ds[id]
  {
    assert OpFailed(op, id) in Failures(op, ds, fails) ==> id in Failing(op, ds, fails);
  }

  /** Every reported error names a registered worker; there is at most one per worker. */
  lemma FailuresAttributed(op: Op, ds: map<string, Discovery>, fails: set<string>)
    ensures forall e :: e in Failures(op, ds, fails) ==> e.OpFailed? && e.op == op && e.id in ds
    ensures forall e :: multiset(Failures(op, ds, fails))[e] <= 1
    ensures ds == map[] ==> Failures(op, ds, fails) == {}
  {
  }

  lemma {:induction false} ImageSize(op: Op, ids: set<string>)
    ensures |Image(op, ids)| == |ids|
    decreases ids
  {
    if ids != {} {
      var x :| x in ids;
      ImageSize(op, ids - {x});
      ImageAdd(op, ids - {x}, x);
      assert ids - {x} + {x} == ids;
    }
  }

  lemma {:induction false} ProperSubsetSmaller(a: set<string>, b: set<string>)
    requires a <= b && a != b
    ensures |a| < |b|
  {
    var x :| x in b && x !in a;
    assert b == a + (b - a);
    assert a * (b - a) == {};
    assert x in b - a;
  }

  /**
   * A bulk operation reports as many errors as there are registered workers
   * exactly when every worker was called and every call failed; on an empty
   * registry that holds trivially.
   */
  lemma {:induction false} AllFailedIffCount(op: Op, ds: map<string, Discovery>, fails: set<string>)
    ensures |Failures(op, ds, fails)| <= |ds|
    ensures |Failures(op, ds, fails)| == |ds| <==> forall id :: id in ds ==> Guard(op, ds[id].state) && id in fails
  {
    var f := Failing(op, ds, fails);
    ImageSize(op, f);
    assert |ds.Keys| == |ds|;
    if f != ds.Keys {
      ProperSubsetSmaller(f, ds.Keys);
      var x :| x in ds.Keys && x !in f;
    }
  }

  /** A port is listed exactly when some running worker answered with it. */
  lemma {:induction false} ListedMembership(ds: map<string, Discovery>, order: seq<string>, listing: string -> ListReply, p: Port)
    ensures p in Listed(ds, order, listing) <==>
      exists i :: 0 <= i < |order| && order[i] in ds && ds[order[i]].state == Running && p in listing(order[i]).ports
  {
    if order != [] {
      var init := order[..|order| - 1];
      ListedMembership(ds, init, listing, p);
      if p in Listed(ds, order, listing) && p !in Listed(ds, init, listing) {
        assert order[|order| - 1] in ds;
      }
      if exists i :: 0 <= i < |order| && order[i] in ds && ds[order[i]].state == Running && p in listing(order[i]).ports {
        var i :| 0 <= i < |order| && order[i] in ds && ds[order[i]].state == Running && p in listing(order[i]).ports;
        if i < |order| - 1 {
          assert init[i] == order[i];
        }
      }
    }
  }

  /** A port is in the sync listing exactly when some syncing worker holds it in its snapshot. */
  lemma {:induction false} SyncedMembership(ds: map<string, Discovery>, order: seq<string>, p: Port)
    ensures p in Synced(ds, order) <==>
      exists i :: 0 <= i < |order| && order[i] in ds && ds[order[i]].state == Syncing && p in ds[order[i]].syncPorts
  {
    if order != [] {
      var init := order[..|order| - 1];
      SyncedMembership(ds, init, p);
      if exists i :: 0 <= i < |order| && order[i] in ds && ds[order[i]].state == Syncing && p in ds[order[i]].syncPorts {
        var i :| 0 <= i < |order| && order[i] in ds && ds[order[i]].state == Syncing && p in ds[order[i]].syncPorts;
        if i < |order| - 1 {
          assert init[i] == order[i];
        }
      }
    }
  }

  /** With no syncing worker the sync listing is empty. */
  lemma {:induction false} SyncedEmpty(ds: map<string, Discovery>, order: seq<string>)
    requires forall id :: id in ds ==> ds[id].state != Syncing
    ensures Synced(ds, order) == []
  {
    if order != [] {
      SyncedEmpty(ds, order[..|order| - 1]);
    }
  }

  /**
   * The fan-out of one bulk operation over a registry: every worker whose
   * state passes the guard of `op` gets the driver call, and each failing
   * call contributes one error.
   */
  method FanOut(op: Op, ds0: map<string, Discovery>, fails: set<string>)
    returns (ds: map<string, Discovery>, errs: multiset<DiscoveryError>)
    ensures ds == After(op, ds0, fails)
    ensures errs == multiset(Failures(op, ds0, fails))
  {
    ds := ds0;
    ghost var done: set<string> := {};
    errs := multiset{};
    var rest := ds.Keys;
    while rest != {}
      invariant rest !! done && rest + done == ds0.Keys
      invariant ds == Partial(op, ds0, fails, done)
      invariant errs == multiset(Image(op, Failing(op, ds0, fails) * done))
      decreases rest
    {
      var id :| id in rest;
      var d := ds[id];
      PartialStep(op, ds0, fails, done, id);
      FailingStep(op, ds0, fails, done, id);
      if Guard(op, d.state) {
        ds := ds[id := Step(d, op, id !in fails)];
        if id in fails {
          ImageAdd(op, Failing(op, ds0, fails) * done, id);
          errs := errs + multiset{OpFailed(op, id)};
        }
      }
      rest := rest - {id};
      done := done + {id};
    }
    assert done == ds0.Keys;
    assert Failing(op, ds0, fails) * done == Failing(op, ds0, fails);
    PartialComplete(op, ds0, fails);
  }

  class Manager {
    var discoveries: map<string, Discovery>
    var globalEventCh: EventChannel
    /** Number of event channels created so far; a new channel gets this number as identity. */
    var channelsMade: nat
    /** Identities of the channels that have been closed. */
    var closedChannels: set<nat>

    ghost predicate Valid()
      reads this
    {
      && (forall id :: id in discoveries ==> discoveries[id].id == id)
      && (globalEventCh.Open? ==> globalEventCh.id < channelsMade && globalEventCh.id !in closedChannels)
      && (forall c :: c in closedChannels ==> c < channelsMade)
    }

    /** `New`: an empty registry and no event channel. */
    constructor ()
      ensures Valid()
      ensures discoveries == map[] && globalEventCh == Nil && closedChannels == {}
    {
      discoveries := map[];
      globalEventCh := Nil;
      channelsMade := 0;
      closedChannels := {};
    }

    /** The registered ids, each exactly once. */
    method IDs() returns (ids: seq<string>)
      ensures Enumerates(ids, discoveries)
      ensures |ids| == |discoveries|
    {
      ids := [];
      var rest := discoveries.Keys;
      while rest != {}
        invariant rest <= discoveries.Keys
        invariant forall i, j :: 0 <= i < j < |ids| ==> ids[i] != ids[j]
        invariant forall id :: id in ids <==> id in discoveries && id !in rest
        invariant |ids| + |rest| == |discoveries|
        decreases rest
      {
        var id :| id in rest;
        ids := ids + [id];
        rest := rest - {id};
      }
    }

    /** Registers a worker under its id, unless the id is taken. */
    method Add(d: Discovery) returns (err: Option<DiscoveryError>)
      requires Valid()
      modifies this`discoveries
      ensures Valid()
      ensures d.id in old(discoveries) ==> err == Some(DuplicateId(d.id)) && discoveries == old(discoveries)
      ensures d.id !in old(discoveries) ==> err == None && discoveries == old(discoveries)[d.id := d]
    {
      if d.id in discoveries {
        return Some(DuplicateId(d.id));
      }
      discoveries := discoveries[d.id := d];
      err := None;
    }

    /**
     * `parallelize` together with the per-worker closure of each bulk
     * operation, applied to the registry.
     */
    method Parallelize(op: Op, fails: set<string>) returns (errs: multiset<DiscoveryError>)
      requires Valid()
      modifies this`discoveries
      ensures Valid()
      ensures discoveries == After(op, old(discoveries), fails)
      ensures errs == multiset(Failures(op, old(discoveries), fails))
    {
      AfterKeepsIds(op, discoveries, fails);
      discoveries, errs := FanOut(op, discoveries, fails);
    }

    method RunAll(fails: set<string>) returns (errs: multiset<DiscoveryError>)
      requires Valid()
      modifies this`discoveries
      ensures Valid()
      ensures discoveries == After(Run, old(discoveries), fails)
      ensures errs == multiset(Failures(Run, old(discoveries), fails))
    {
      errs := Parallelize(Run, fails);
    }

    method StartAll(fails: set<string>) returns (errs: multiset<DiscoveryError>)
      requires Valid()
      modifies this`discoveries
      ensures Valid()
      ensures discoveries == After(Start, old(discoveries), fails)
      ensures errs == multiset(Failures(Start, old(discoveries), fails))
    {
      errs := Parallelize(Start, fails);
    }

    /**
     * Creates the global channel only when there is none, then starts every
     * idling worker syncing. The channel returned is the existing one when
     * there was one.
     */
    method StartSyncAll(fails: set<string>) returns (ch: EventChannel, errs: multiset<DiscoveryError>)
      requires Valid()
      modifies this
      ensures Valid()
      ensures ch == globalEventCh && ch.Open?
      ensures old(globalEventCh).Open? ==> ch == old(globalEventCh) && channelsMade == old(channelsMade)
      ensures old(globalEventCh).Nil? ==> ch == Open(old(channelsMade)) && channelsMade == old(channelsMade) + 1
      ensures closedChannels == old(closedChannels)
      ensures discoveries == After(StartSync, old(discoveries), fails)
      ensures errs == multiset(Failures(StartSync, old(discoveries), fails))
    {
      if globalEventCh == Nil {
        globalEventCh := Open(channelsMade);
        channelsMade := channelsMade + 1;
      }
      errs := Parallelize(StartSync, fails);
      ch := globalEventCh;
    }

    method StopAll(fails: set<string>) returns (errs: multiset<DiscoveryError>)
      requires Valid()
      modifies this`discoveries
      ensures Valid()
      ensures discoveries == After(Stop, old(discoveries), fails)
      ensures errs == multiset(Failures(Stop, old(discoveries), fails))
    {
      errs := Parallelize(Stop, fails);
    }

    /** Quits every live worker; the global channel is closed and dropped only if none failed. */
    method QuitAll(fails: set<string>) returns (errs: multiset<DiscoveryError>)
      requires Valid()
      modifies this
      ensures Valid()
      ensures discoveries == After(Quit, old(discoveries), fails)
      ensures errs == multiset(Failures(Quit, old(discoveries), fails))
      ensures channelsMade == old(channelsMade)
      ensures |errs| == 0 ==>
        globalEventCh == Nil &&
        closedChannels == old(closedChannels) + (if old(globalEventCh).Open? then {old(globalEventCh).id} else {})
      ensures |errs| > 0 ==> globalEventCh == old(globalEventCh) && closedChannels == old(closedChannels)
      ensures globalEventCh.Nil? ==>
        closedChannels == old(closedChannels) + (if old(globalEventCh).Open? then {old(globalEventCh).id} else {})
      ensures globalEventCh.Open? ==> globalEventCh == old(globalEventCh) && closedChannels == old(closedChannels)
    {
      errs := Parallelize(Quit, fails);
      if |errs| == 0 && globalEventCh != Nil {
        closedChannels := closedChannels + {globalEventCh.id};
        globalEventCh := Nil;
      }
    }

    /** Quits everything, ignoring errors, then empties the registry and drops the channel. */
    method Clear(fails: set<string>)
      requires Valid()
      modifies this
      ensures Valid()
      ensures discoveries == map[] && globalEventCh == Nil && channelsMade == old(channelsMade)
      ensures closedChannels == old(closedChannels) + (if old(globalEventCh).Open? then {old(globalEventCh).id} else {})
    {
      var _ := QuitAll(fails);
      discoveries := map[];
      if globalEventCh != Nil {
        closedChannels := closedChannels + {globalEventCh.id};
        globalEventCh := Nil;
      }
    }

    /**
     * Queries every running worker; `listing` gives each worker's answer.
     * The ports of all of them are returned, with one error per worker that
     * reported one.
     */
    method List(listing: string -> ListReply) returns (ports: seq<Port>, errs: multiset<DiscoveryError>, ghost order: seq<string>)
      ensures Enumerates(order, discoveries)
      ensures ports == Listed(discoveries, order, listing)
      ensures errs == multiset(ListErrors(discoveries, discoveries.Keys, listing))
    {
      ports, errs, order := [], multiset{}, [];
      ghost var done: set<string> := {};
      var rest := discoveries.Keys;
      while rest != {}
        invariant rest !! done && rest + done == discoveries.Keys
        invariant forall i, j :: 0 <= i < j < |order| ==> order[i] != order[j]
        invariant forall id :: id in order <==> id in done
        invariant ports == Listed(discoveries, order, listing)
        invariant errs == multiset(ListErrors(discoveries, done, listing))
        decreases rest
      {
        var id :| id in rest;
        var d := discoveries[id];
        ListErrorsAdd(discoveries, done, id, listing);
        if d.state == Running {
          var reply := listing(id);
          if reply.failed {
            errs := errs + multiset{ListFailed(id)};
          }
          ports := ports + reply.ports;
        }
        assert (order + [id])[..|order|] == order;
        order := order + [id];
        rest := rest - {id};
        done := done + {id};
      }
    }

    /** Concatenates the local snapshots of the syncing workers. */
    method ListSync() returns (ports: seq<Port>, ghost order: seq<string>)
      ensures Enumerates(order, discoveries)
      ensures ports == Synced(discoveries, order)
    {
      ports, order := [], [];
      var rest := discoveries.Keys;
      while rest != {}
        invariant rest <= discoveries.Keys
        invariant forall i, j :: 0 <= i < j < |order| ==> order[i] != order[j]
        invariant forall id :: id in order <==> id in discoveries && id !in rest
        invariant ports == Synced(discoveries, order)
        decreases rest
      {
        var id :| id in rest;
        var d := discoveries[id];
        if d.state == Syncing {
          ports := ports + d.syncPorts;
        }
        assert (order + [id])[..|order|] == order;
        order := order + [id];
        rest := rest - {id};
      }
    }
  }

  /**
   * Two `StartSyncAll` calls with no `QuitAll` or `Clear` in between hand out
   * the same channel, whatever the workers answer.
   */
  method SyncTwice(m: Manager, fails1: set<string>, fails2: set<string>)
    returns (ch1: EventChannel, ch2: EventChannel)
    requires m.Valid()
    modifies m
    ensures ch1 == ch2 && ch1.Open? && m.globalEventCh == ch1
  {
    var errs;
    ch1, errs := m.StartSyncAll(fails1);
    ch2, errs := m.StartSyncAll(fails2);
  }
}
