/**
  The daemon's event loop: one event carries several devices, and a device is not
  processed once something it is built on has failed.
  */
module EventHandler {
  import opened Objects
  import opened Protocol
  import opened Invariant
  import opened ApiServer
  import opened Partition
  import opened Daemon
  import opened DaemonStore
  import opened AddHandler
  import opened AddSafety
  import opened DeleteHandler

  /** A device of the event that was processed, and what came of it. */
  datatype Attempt = Attempt(index: nat, result: AddResult)

  predicate DependsOn(bd: Device, path: string) {
    bd.parent == path || path in bd.slaves
  }

  method IsParentOrSlaveDevice(bd: Device, errored: seq<string>) returns (r: bool)
    ensures r <==> exists e :: e in errored && (bd.parent == e || e in bd.slaves)
    ensures r <==> exists e :: e in errored && DependsOn(bd, e)
  {
    for i := 0 to |errored|
      invariant forall j :: 0 <= j < i ==> !DependsOn(bd, errored[j])
    {
      assert errored[i] in errored;
      if bd.parent == errored[i] {
        return true;
      }
      if errored[i] in bd.slaves {
        return true;
      }
    }
    r := false;
  }

  /** Some earlier failure stands in the way of device i. */
  predicate Blocked(devices: seq<Device>, attempts: seq<Attempt>, i: nat)
    requires i < |devices| && forall k :: 0 <= k < |attempts| ==> attempts[k].index < |devices|
  {
    exists k :: 0 <= k < |attempts| && attempts[k].index < i && attempts[k].result == Errored &&
                DependsOn(devices[i], devices[attempts[k].index].devPath)
  }

  /**
    Is device i to be processed?  Under the GPT scheme it must not be blocked; under the
    old scheme partitions are left out.
    */
  predicate Due(env: Env, devices: seq<Device>, admit: Device -> bool, attempts: seq<Attempt>, i: nat)
    requires i < |devices| && forall k :: 0 <= k < |attempts| ==> attempts[k].index < |devices|
  {
    admit(devices[i]) && if env.gptUuid then !Blocked(devices, attempts, i) else devices[i].deviceType != PartitionType
  }

  predicate Attempted(attempts: seq<Attempt>, i: nat) {
    exists k :: 0 <= k < |attempts| && attempts[k].index == i
  }

  /** The first n devices are done, in order: each is cached, and processed exactly if it was due. */
  ghost predicate DoneUpTo(env: Env, devices: seq<Device>, admit: Device -> bool, attempts: seq<Attempt>, cache: Cache,
                           n: nat) {
    && n <= |devices|
    && (forall k :: 0 <= k < |attempts| ==> attempts[k].index < n)
    && (forall j, k :: 0 <= j < k < |attempts| ==> attempts[j].index < attempts[k].index)
    && (forall i :: 0 <= i < n ==> devices[i].devPath in cache)
    && (forall i :: 0 <= i < n ==> (Attempted(attempts, i) <==> Due(env, devices, admit, attempts, i)))
  }

  predicate Failing(attempts: seq<Attempt>) {
    exists k :: 0 <= k < |attempts| && attempts[k].result != Processed
  }

  /** `errored` are the paths of the devices that failed. */
  ghost predicate Failures(devices: seq<Device>, attempts: seq<Attempt>, errored: seq<string>)
    requires forall k :: 0 <= k < |attempts| ==> attempts[k].index < |devices|
  {
    forall e :: e in errored <==>
      exists k :: 0 <= k < |attempts| && attempts[k].result == Errored && devices[attempts[k].index].devPath == e
  }

  /** The devices of an event after probing. */
  function Probed(devices: seq<Device>, fill: Device -> Device): (r: seq<Device>)
    ensures |r| == |devices| && forall i :: 0 <= i < |r| ==> r[i] == fill(devices[i])
  {
    if devices == [] then [] else [fill(devices[0])] + Probed(devices[1..], fill)
  }

  // --- What an event does to cache, disks and resources ------------------------------------

  /** The cache after one device was processed; the old scheme leaves it. */
  function CacheThen(env: Env, cache: Cache, list: seq<Versioned>, d: Device): Cache {
    if env.gptUuid then CacheAfter(env, cache, list, d) else cache
  }

  type Disks = map<string, Content>

  function DisksThen(env: Env, cache: Cache, list: seq<Versioned>, d: Device, disks: Disks): Disks {
    if env.gptUuid then DisksAfter(env, cache, list, d, disks) else disks
  }

  ghost function PlanFor(env: Env, s: Cluster, cache: Cache, list: seq<Versioned>, d: Device): Plan {
    if env.gptUuid then Decide(s, env, cache, list, d) else PushWith(env, map[], d, Named(list, d.uuid))
  }

  /** The cache after i devices: each is put in, and those processed leave it as processing does. */
  ghost function CacheUpTo(env: Env, list: seq<Versioned>, devices: seq<Device>, attempts: seq<Attempt>, cache: Cache,
                           i: nat): Cache
    requires i <= |devices|
  {
    if i == 0 then cache
    else
      var entered := CacheUpTo(env, list, devices, attempts, cache, i - 1)[devices[i - 1].devPath := devices[i - 1]];
      if Attempted(attempts, i - 1) then CacheThen(env, entered, list, devices[i - 1]) else entered
  }

  /** The disks after i devices. */
  ghost function DisksUpTo(env: Env, list: seq<Versioned>, devices: seq<Device>, attempts: seq<Attempt>,
                           cache: Cache, disks: Disks, i: nat): Disks
    requires i <= |devices|
  {
    if i == 0 then disks
    else
      var entered := CacheUpTo(env, list, devices, attempts, cache, i - 1)[devices[i - 1].devPath := devices[i - 1]];
      var before := DisksUpTo(env, list, devices, attempts, cache, disks, i - 1);
      if Attempted(attempts, i - 1) then DisksThen(env, entered, list, devices[i - 1], before) else before
  }

  /** Attempt k took the resources from s to t, deciding with the cache and the disks of that moment. */
  ghost predicate Carried(env: Env, list: seq<Versioned>, devices: seq<Device>, attempts: seq<Attempt>,
                          cache: Cache, disks: Disks, k: nat, s: Cluster, t: Cluster)
    requires k < |attempts| && attempts[k].index < |devices|
  {
    var i := attempts[k].index;
    var d := devices[i];
    var entered := CacheUpTo(env, list, devices, attempts, cache, i)[d.devPath := d];
    var formatted := Formats(DisksUpTo(env, list, devices, attempts, cache, disks, i), d.devPath, d.storage);
    Performed(env, s, PlanFor(env, s, entered, list, d), formatted, t, attempts[k].result)
  }

  /** The resources before, between and after the attempts. */
  ghost predicate CarriedOut(env: Env, list: seq<Versioned>, devices: seq<Device>, attempts: seq<Attempt>,
                             cache: Cache, disks: Disks, states: seq<Cluster>)
  {
    && |states| == |attempts| + 1 && (forall k :: 0 <= k < |attempts| ==> attempts[k].index < |devices|)
    && forall k :: 0 <= k < |attempts| ==>
       Carried(env, list, devices, attempts, cache, disks, k, states[k], states[k + 1])
  }

  /**
    An add event.  Every device ends up in the cache; exactly the devices that are due
    are processed, in order; a rescan is asked for exactly if some device was not
    processed to the end.  Whatever the server answers, cache and disks end up as the
    decisions say; on a quiet server the resources do too.
    */
  method AddBlockDeviceEvent(pe: Controller, devices: seq<Device>, fill: Device -> Device, admit: Device -> bool)
    returns (listed: bool, list: seq<Versioned>, rescan: bool, attempts: seq<Attempt>, ghost states: seq<Cluster>)
    requires pe.api.Valid()
    modifies pe, pe.api, pe.host
    ensures pe.api.Valid() && old(pe.api.hist) <= pe.api.hist
    ensures !listed ==>
      rescan && attempts == [] && pe.hierarchy == old(pe.hierarchy) && pe.host.disks == old(pe.host.disks)
    ensures listed ==> DoneUpTo(pe.env, Probed(devices, fill), admit, attempts, pe.hierarchy, |devices|)
    ensures listed ==> (rescan <==> Failing(attempts))
    ensures listed ==>
      && pe.hierarchy == CacheUpTo(pe.env, list, Probed(devices, fill), attempts, old(pe.hierarchy), |devices|)
      && pe.host.disks ==
           DisksUpTo(pe.env, list, Probed(devices, fill), attempts, old(pe.hierarchy), old(pe.host.disks), |devices|)
    ensures listed && pe.api.quiet ==>
      && AllLogged(old(pe.api.View()), list)
      && CarriedOut(pe.env, list, Probed(devices, fill), attempts, old(pe.hierarchy), old(pe.host.disks), states)
      && states[0] == old(pe.api.View()) && states[|attempts|] == pe.api.View()
  {
    hide IsRun, CacheThen, DisksThen, Performed, PlanFor, Logged, DependsOn, AllLogged, Covers, Progress, DoneUpTo;
    hide CarriedOut, CacheUpTo, DisksUpTo;
    attempts, states := [], [pe.api.View()];
    var items := ListBlockDeviceResource(pe.api, None);
    if items.None? {
      return false, [], true, [], states;
    }
    listed, list, rescan := true, items.value, false;
    ghost var probed, cache, disks := Probed(devices, fill), pe.hierarchy, pe.host.disks;
    var errored: seq<string> := [];
    NothingDone(pe.env, list, probed, admit, cache, disks, states);
    for i := 0 to |devices|
      invariant pe.api.Valid() && old(pe.api.hist) <= pe.api.hist && AllLogged(pe.api.View(), list)
      invariant Progress(pe.env, list, probed, admit, attempts, errored, rescan,
                         cache, disks, pe.hierarchy, pe.host.disks, i)
      invariant |states| == |attempts| + 1
      invariant (pe.api.quiet ==> states[0] == old(pe.api.View()) && states[|attempts|] == pe.api.View())
      invariant pe.api.quiet ==> CarriedOut(pe.env, list, probed, attempts, cache, disks, states)
    {
      var device := fill(devices[i]);
      ghost var before, s, wasDisks := pe.hierarchy, pe.api.View(), pe.host.disks;
      var _ := AddBlockDeviceToHierarchyCache(pe, device);
      var skip := !admit(device);
      if !skip {
        if pe.env.gptUuid {
          skip := IsParentOrSlaveDevice(device, errored);
        } else {
          skip := device.deviceType == PartitionType;
        }
      }
      if skip {
        SkipDevice(pe.env, list, probed, admit, attempts, errored, rescan, cache, disks, before, wasDisks, i);
        continue;
      }
      var r := ProcessDevice(pe, device, list);
      LoggedStays(s, pe.api.View(), list);
      CountAttempt(pe.env, list, probed, admit, attempts, errored, rescan, cache, disks, before, wasDisks, i, r);
      if pe.api.quiet {
        CarryNext(pe.env, list, probed, admit, attempts, errored, rescan, cache, disks, before, wasDisks, states, i, r,
                  pe.api.View());
      }
      attempts, states := attempts + [Attempt(i, r)], states + [pe.api.View()];
      if r != Processed {
        rescan := true;
        if r != NeedRescan {
          errored := errored + [device.devPath];
        }
      }
    }
    AllDone(pe.env, list, probed, admit, attempts, errored, rescan, cache, disks, pe.hierarchy, pe.host.disks,
            |devices|);
  }

  /** Where the loop stands after n devices. */
  ghost predicate Progress(env: Env, list: seq<Versioned>, devices: seq<Device>, admit: Device -> bool,
                           attempts: seq<Attempt>,
                           errored: seq<string>, rescan: bool, cache: Cache, disks: Disks,
                           nowCache: Cache, nowDisks: Disks, n: nat)
  {
    && DoneUpTo(env, devices, admit, attempts, nowCache, n)
    && (rescan <==> Failing(attempts)) && Failures(devices, attempts, errored)
    && nowCache == CacheUpTo(env, list, devices, attempts, cache, n)
    && nowDisks == DisksUpTo(env, list, devices, attempts, cache, disks, n)
  }

  /** Does the loop pass over the device? */
  predicate Skipped(env: Env, admit: Device -> bool, errored: seq<string>, d: Device) {
    || !admit(d)
    || (if env.gptUuid then exists e :: e in errored && DependsOn(d, e) else d.deviceType == PartitionType)
  }

  /** Process one device under the scheme in force. */
  method ProcessDevice(pe: Controller, bd: Device, list: seq<Versioned>) returns (r: AddResult)
    requires pe.api.Valid() && AllLogged(pe.api.View(), list)
    modifies pe, pe.api, pe.host
    ensures pe.api.Valid() && old(pe.api.hist) <= pe.api.hist && Extends(old(pe.api.deviceLog), pe.api.deviceLog)
    ensures pe.hierarchy == CacheThen(pe.env, old(pe.hierarchy), list, bd)
    ensures pe.host.disks == DisksThen(pe.env, old(pe.hierarchy), list, bd, old(pe.host.disks))
    ensures pe.api.quiet ==>
      var plan := PlanFor(pe.env, old(pe.api.View()), old(pe.hierarchy), list, bd);
      Performed(pe.env, old(pe.api.View()), plan, Formats(old(pe.host.disks), bd.devPath, bd.storage), pe.api.View(), r)
  {
    hide IsRun, CacheAfter, DisksAfter, Performed, Decide, Logged, PushWith, Named, AllLogged;
    if pe.env.gptUuid {
      r := AddBlockDevice(pe, bd, list);
    } else {
      ghost var s := pe.api.View();
      var existing := GetExistingBlockDeviceResource(list, bd.uuid);
      NamedIsLogged(s, list, bd.uuid);
      var err := PushBlockDeviceResource(pe, bd, existing);
      r := Outcome(err);
      if pe.api.quiet {
        PushDoesNotDestroy(pe.env, bd, existing);
        FormattedIrrelevant(pe.env, s, PushWith(pe.env, map[], bd, existing),
                            Formats(pe.host.disks, bd.devPath, bd.storage), pe.api.View(), r);
      }
    }
  }

  lemma PushDoesNotDestroy(env: Env, bd: Device, existing: Option<Versioned>)
    ensures !Destroys(PushWith(env, map[], bd, existing))
  {}

  /** Update the resource, or create it. */
  method PushBlockDeviceResource(pe: Controller, bd: Device, existing: Option<Versioned>) returns (err: bool)
    requires pe.api.Valid() && (existing.Some? ==> Logged(pe.api.View(), existing.value))
    modifies pe.api
    ensures pe.api.Valid() && old(pe.api.hist) <= pe.api.hist && Extends(old(pe.api.deviceLog), pe.api.deviceLog)
    ensures pe.api.quiet ==>
      Performed(pe.env, old(pe.api.View()), PushWith(pe.env, map[], bd, existing), false, pe.api.View(), Outcome(err))
  {
    hide Inv, IsRun, Created, Merged, IsCurrent;
    var deviceAPI := ToDevice(pe.env, bd);
    if deviceAPI.None? {
      return true;
    }
    assert deviceAPI.value.(annotations := map[]) == deviceAPI.value;
    if existing.Some? {
      var u := UpdateBlockDevice(pe.api, deviceAPI.value, existing);
      err := !u.Updated?;
    } else {
      err := CreateBlockDevice(pe.api, deviceAPI.value);
    }
  }

  // --- Facts about the loop --------------------------------------------------------------

  lemma NothingDone(env: Env, list: seq<Versioned>, devices: seq<Device>, admit: Device -> bool, cache: Cache,
                    disks: Disks, states: seq<Cluster>)
    requires |states| == 1
    ensures Progress(env, list, devices, admit, [], [], false, cache, disks, cache, disks, 0)
    ensures CarriedOut(env, list, devices, [], cache, disks, states)
  {}

  lemma AllDone(env: Env, list: seq<Versioned>, devices: seq<Device>, admit: Device -> bool, attempts: seq<Attempt>,
                errored: seq<string>, rescan: bool, cache: Cache, disks: Disks,
                nowCache: Cache, nowDisks: Disks, n: nat)
    requires Progress(env, list, devices, admit, attempts, errored, rescan, cache, disks, nowCache, nowDisks, n)
    ensures n <= |devices| && DoneUpTo(env, devices, admit, attempts, nowCache, n) && (rescan <==> Failing(attempts))
    ensures nowCache == CacheUpTo(env, list, devices, attempts, cache, n)
    ensures nowDisks == DisksUpTo(env, list, devices, attempts, cache, disks, n)
  {}

  lemma SkipDevice(env: Env, list: seq<Versioned>, devices: seq<Device>, admit: Device -> bool, attempts: seq<Attempt>,
                   errored: seq<string>, rescan: bool, cache: Cache, disks: Disks,
                   nowCache: Cache, nowDisks: Disks, i: nat)
    requires i < |devices|
    requires Progress(env, list, devices, admit, attempts, errored, rescan, cache, disks, nowCache, nowDisks, i)
    requires Skipped(env, admit, errored, devices[i])
    ensures var entered := nowCache[devices[i].devPath := devices[i]];
            Progress(env, list, devices, admit, attempts, errored, rescan, cache, disks, entered, nowDisks, i + 1)
  {
    hide Failures, Failing, DependsOn, Blocked, Attempted, CacheUpTo, DisksUpTo;
    BlockedIff(devices, attempts, errored, i);
    NotDue(env, devices, admit, attempts, nowCache, nowCache[devices[i].devPath := devices[i]], i);
    NotAttemptedNext(env, list, devices, attempts, cache, disks, i);
  }

  lemma CountAttempt(env: Env, list: seq<Versioned>, devices: seq<Device>, admit: Device -> bool,
                     attempts: seq<Attempt>,
                     errored: seq<string>, rescan: bool, cache: Cache, disks: Disks, nowCache: Cache, nowDisks: Disks,
                     i: nat, r: AddResult)
    requires i < |devices|
    requires Progress(env, list, devices, admit, attempts, errored, rescan, cache, disks, nowCache, nowDisks, i)
    requires !Skipped(env, admit, errored, devices[i])
    ensures var entered := nowCache[devices[i].devPath := devices[i]];
            Progress(env, list, devices, admit, attempts + [Attempt(i, r)],
              if r == Errored then errored + [devices[i].devPath] else errored, rescan || r != Processed, cache, disks,
              CacheThen(env, entered, list, devices[i]), DisksThen(env, entered, list, devices[i], nowDisks), i + 1)
  {
    hide Failures, Failing, DependsOn, Blocked, Attempted, CacheUpTo, DisksUpTo, CacheThen, DisksThen;
    var entered := nowCache[devices[i].devPath := devices[i]];
    BlockedIff(devices, attempts, errored, i);
    CacheGrows(env, entered, list, devices[i]);
    AttemptNext(env, devices, admit, attempts, nowCache, CacheThen(env, entered, list, devices[i]), i, r);
    FailuresNext(devices, attempts, errored, i, r);
    AttemptedNext(env, list, devices, attempts, cache, disks, i, r);
  }

  lemma CarryNext(env: Env, list: seq<Versioned>, devices: seq<Device>, admit: Device -> bool, attempts: seq<Attempt>,
                  errored: seq<string>, rescan: bool, cache: Cache, disks: Disks, nowCache: Cache, nowDisks: Disks,
                  states: seq<Cluster>, i: nat, r: AddResult, t: Cluster)
    requires i < |devices|
    requires Progress(env, list, devices, admit, attempts, errored, rescan, cache, disks, nowCache, nowDisks, i)
    requires CarriedOut(env, list, devices, attempts, cache, disks, states) && |states| == |attempts| + 1
    requires var s, d, entered := states[|attempts|], devices[i], nowCache[devices[i].devPath := devices[i]];
             Performed(env, s, PlanFor(env, s, entered, list, d), Formats(nowDisks, d.devPath, d.storage), t, r)
    ensures CarriedOut(env, list, devices, attempts + [Attempt(i, r)], cache, disks, states + [t])
  {
    hide Performed, PlanFor, CacheUpTo, DisksUpTo, CarriedOut, Failures, Failing;
    CarriedNext(env, list, devices, attempts, cache, disks, states, i, r, t);
  }

  /** An attempt at device i changes nothing up to there. */
  lemma {:induction false} UpToStays(env: Env, list: seq<Versioned>, devices: seq<Device>, attempts: seq<Attempt>,
                                     more: Attempt,
                                     cache: Cache, disks: Disks, i: nat)
    requires i <= more.index && i <= |devices|
    ensures CacheUpTo(env, list, devices, attempts + [more], cache, i) ==
      CacheUpTo(env, list, devices, attempts, cache, i)
    ensures DisksUpTo(env, list, devices, attempts + [more], cache, disks, i) ==
      DisksUpTo(env, list, devices, attempts, cache, disks, i)
  {
    hide CacheThen, DisksThen, Attempted;
    if i > 0 {
      UpToStays(env, list, devices, attempts, more, cache, disks, i - 1);
      StillAttempted(attempts, more, i - 1);
    }
  }

  lemma StillAttempted(attempts: seq<Attempt>, more: Attempt, i: nat)
    requires i != more.index
    ensures Attempted(attempts + [more], i) <==> Attempted(attempts, i)
  {
    var longer := attempts + [more];
    assert forall k :: 0 <= k < |attempts| ==> longer[k] == attempts[k];
    if Attempted(attempts, i) {
      var k :| 0 <= k < |attempts| && attempts[k].index == i;
      assert longer[k].index == i;
    }
  }

  lemma NotAttemptedNext(env: Env, list: seq<Versioned>, devices: seq<Device>, attempts: seq<Attempt>, cache: Cache,
                         disks: Disks, i: nat)
    requires i < |devices| && forall k :: 0 <= k < |attempts| ==> attempts[k].index < i
    ensures CacheUpTo(env, list, devices, attempts, cache, i + 1) ==
      CacheUpTo(env, list, devices, attempts, cache, i)[devices[i].devPath := devices[i]]
    ensures DisksUpTo(env, list, devices, attempts, cache, disks, i + 1) ==
      DisksUpTo(env, list, devices, attempts, cache, disks, i)
  {
    hide CacheThen, DisksThen;
  }

  lemma AttemptedNext(env: Env, list: seq<Versioned>, devices: seq<Device>, attempts: seq<Attempt>, cache: Cache,
                      disks: Disks,
                      i: nat, r: AddResult)
    requires i < |devices|
    ensures var entered := CacheUpTo(env, list, devices, attempts, cache, i)[devices[i].devPath := devices[i]];
            var before := DisksUpTo(env, list, devices, attempts, cache, disks, i);
            var longer := attempts + [Attempt(i, r)];
            && CacheUpTo(env, list, devices, longer, cache, i + 1) == CacheThen(env, entered, list, devices[i])
            && DisksUpTo(env, list, devices, longer, cache, disks, i + 1) ==
                 DisksThen(env, entered, list, devices[i], before)
  {
    hide CacheThen, DisksThen;
    UpToStays(env, list, devices, attempts, Attempt(i, r), cache, disks, i);
    assert (attempts + [Attempt(i, r)])[|attempts|].index == i;
  }

  lemma CarriedNext(env: Env, list: seq<Versioned>, devices: seq<Device>, attempts: seq<Attempt>, cache: Cache,
                    disks: Disks,
                    states: seq<Cluster>, i: nat, r: AddResult, t: Cluster)
    requires i < |devices| && CarriedOut(env, list, devices, attempts, cache, disks, states)
    requires |states| == |attempts| + 1
    requires forall k :: 0 <= k < |attempts| ==> attempts[k].index < i
    requires var entered := CacheUpTo(env, list, devices, attempts, cache, i)[devices[i].devPath := devices[i]];
             var before := DisksUpTo(env, list, devices, attempts, cache, disks, i);
             var s, d := states[|attempts|], devices[i];
             Performed(env, s, PlanFor(env, s, entered, list, d), Formats(before, d.devPath, d.storage), t, r)
    ensures CarriedOut(env, list, devices, attempts + [Attempt(i, r)], cache, disks, states + [t])
  {
    hide Performed, PlanFor, CacheUpTo, DisksUpTo;
    var longer, more := attempts + [Attempt(i, r)], states + [t];
    forall k | 0 <= k < |longer| ensures Carried(env, list, devices, longer, cache, disks, k, more[k], more[k + 1]) {
      UpToStays(env, list, devices, attempts, Attempt(i, r), cache, disks, longer[k].index);
      if k < |attempts| {
        assert Carried(env, list, devices, attempts, cache, disks, k, states[k], states[k + 1]);
      }
    }
  }

  lemma CacheGrows(env: Env, cache: Cache, list: seq<Versioned>, bd: Device)
    ensures cache.Keys <= CacheThen(env, cache, list, bd).Keys
  {
    hide Proceeds, GenerateUuid;
  }

  lemma BlockedIff(devices: seq<Device>, attempts: seq<Attempt>, errored: seq<string>, i: nat)
    requires i < |devices| && (forall k :: 0 <= k < |attempts| ==> attempts[k].index < i)
    requires Failures(devices, attempts, errored)
    ensures (exists e :: e in errored && DependsOn(devices[i], e)) <==> Blocked(devices, attempts, i)
  {
    hide DependsOn;
    if Blocked(devices, attempts, i) {
      var k :| 0 <= k < |attempts| && attempts[k].index < i && attempts[k].result == Errored &&
               DependsOn(devices[i], devices[attempts[k].index].devPath);
      assert devices[attempts[k].index].devPath in errored;
    }
  }

  lemma BlockedStays(devices: seq<Device>, attempts: seq<Attempt>, more: Attempt, i: nat)
    requires i < |devices| && i <= more.index < |devices|
    requires forall k :: 0 <= k < |attempts| ==>
      attempts[k].index < |devices|
    ensures Blocked(devices, attempts + [more], i) <==> Blocked(devices, attempts, i)
  {
    hide DependsOn;
    var longer := attempts + [more];
    assert forall k :: 0 <= k < |attempts| ==> longer[k] == attempts[k];
    if Blocked(devices, attempts, i) {
      var k :| 0 <= k < |attempts| && attempts[k].index < i && attempts[k].result == Errored &&
               DependsOn(devices[i], devices[attempts[k].index].devPath);
      assert longer[k] == attempts[k];
    }
  }

  lemma NotDue(env: Env, devices: seq<Device>, admit: Device -> bool, attempts: seq<Attempt>, older: Cache,
               cache: Cache, i: nat)
    requires i < |devices| && DoneUpTo(env, devices, admit, attempts, older, i)
    requires older.Keys <= cache.Keys && devices[i].devPath in cache && !Due(env, devices, admit, attempts, i)
    ensures DoneUpTo(env, devices, admit, attempts, cache, i + 1)
  {
    hide Due;
  }

  lemma AttemptNext(env: Env, devices: seq<Device>, admit: Device -> bool, attempts: seq<Attempt>, older: Cache,
                    cache: Cache, i: nat, r: AddResult)
    requires i < |devices| && DoneUpTo(env, devices, admit, attempts, older, i)
    requires older.Keys <= cache.Keys && devices[i].devPath in cache && Due(env, devices, admit, attempts, i)
    ensures DoneUpTo(env, devices, admit, attempts + [Attempt(i, r)], cache, i + 1)
  {
    var longer := attempts + [Attempt(i, r)];
    assert longer[|attempts|] == Attempt(i, r);
    forall j | 0 <= j < i + 1 ensures Attempted(longer, j) <==> Due(env, devices, admit, longer, j) {
      BlockedStays(devices, attempts, Attempt(i, r), j);
      if j < i && Attempted(attempts, j) {
        var k :| 0 <= k < |attempts| && attempts[k].index == j;
        assert longer[k].index == j;
      }
    }
  }

  lemma FailuresNext(devices: seq<Device>, attempts: seq<Attempt>, errored: seq<string>, i: nat, r: AddResult)
    requires i < |devices| && (forall k :: 0 <= k < |attempts| ==> attempts[k].index < |devices|)
    requires Failures(devices, attempts, errored)
    ensures var longer := attempts + [Attempt(i, r)];
            && (forall k :: 0 <= k < |longer| ==> longer[k].index < |devices|)
            && Failures(devices, longer, if r == Errored then errored + [devices[i].devPath] else errored)
            && (Failing(longer) <==> Failing(attempts) || r != Processed)
  {
    var longer := attempts + [Attempt(i, r)];
    assert longer[|attempts|] == Attempt(i, r);
    assert forall k :: 0 <= k < |attempts| ==> longer[k] == attempts[k];
    var paths := if r == Errored then errored + [devices[i].devPath] else errored;
    forall e
      ensures e in paths <==>
        exists k :: 0 <= k < |longer| && longer[k].result == Errored && devices[longer[k].index].devPath == e
    {
      if e in errored {
        var k :| 0 <= k < |attempts| && attempts[k].result == Errored && devices[attempts[k].index].devPath == e;
        assert longer[k].result == Errored && devices[longer[k].index].devPath == e;
      } else if e in paths {
        assert longer[|attempts|].result == Errored && devices[longer[|attempts|].index].devPath == e;
      }
    }
    if Failing(attempts) {
      var k :| 0 <= k < |attempts| && attempts[k].result != Processed;
      assert longer[k].result != Processed;
    }
  }

  // --- What a whole event may do --------------------------------------------------------------

  /** Disk p was written for device i, and could be spared. */
  predicate WrittenFor(env: Env, d: Device, p: string, before: Content, after: Content) {
    d.devPath == p && Expendable(d, before) && after == Content(Some(TableFor(env, d)), "", true)
  }

  /**
    If every processed device in use is marked with a recognised engine, the only disks an
    event changes are expendable disks of devices it processed, each written once.
    */
  lemma {:induction false} EventChangesOnlyExpendable(env: Env, list: seq<Versioned>, devices: seq<Device>,
                                                      attempts: seq<Attempt>,
                                                      cache: Cache, disks: Disks, n: nat, p: string)
    requires n <= |devices|
    requires forall i :: 0 <= i < n && Attempted(attempts, i) && devices[i].inUse ==> Recognised(devices[i].usedBy)
    ensures var after := DisksUpTo(env, list, devices, attempts, cache, disks, n);
            && (p in after <==> p in disks)
            && (p in disks && after[p] != disks[p] ==>
                  exists i :: 0 <= i < n && Attempted(attempts, i) &&
                              WrittenFor(env, devices[i], p, disks[p], after[p]))
  {
    hide CacheAfter, DisksAfter, Expendable, TableFor, Attempted, CacheUpTo;
    if n > 0 {
      EventChangesOnlyExpendable(env, list, devices, attempts, cache, disks, n - 1, p);
      var before := DisksUpTo(env, list, devices, attempts, cache, disks, n - 1);
      var entered := CacheUpTo(env, list, devices, attempts, cache, n - 1)[devices[n - 1].devPath := devices[n - 1]];
      if Attempted(attempts, n - 1) {
        OnlyExpendableDisksChange(env, entered, list, devices[n - 1], before);
        ExpendableIsBlank(devices[n - 1], before, p);
        var after := DisksUpTo(env, list, devices, attempts, cache, disks, n);
        if p in disks && after[p] != before[p] {
          assert WrittenFor(env, devices[n - 1], p, disks[p], after[p]);
        }
      }
    }
  }

  lemma ExpendableIsBlank(d: Device, disks: Disks, p: string)
    ensures p in disks && Expendable(d, disks[p]) ==> disks[p].table.None?
  {}

  lemma PlanForIsSound(env: Env, s: Cluster, cache: Cache, list: seq<Versioned>, d: Device)
    requires Inv(s) && AllLogged(s, list)
    ensures Sound(s, PlanFor(env, s, cache, list, d))
  {
    hide Inv, Decide, PushWith, AllLogged;
    DecisionIsSound(s, env, cache, list, d);
    NamedIsLogged(s, list, d.uuid);
    PushIsSound(s, env, map[], d, Named(list, d.uuid));
  }

  /** A whole event keeps the protocol invariant and disturbs no claim. */
  lemma {:induction false} EventDisturbsNoClaim(env: Env, list: seq<Versioned>, devices: seq<Device>,
                                                attempts: seq<Attempt>,
                                                cache: Cache, disks: Disks, states: seq<Cluster>, n: nat)
    requires CarriedOut(env, list, devices, attempts, cache, disks, states) && n <= |attempts|
    requires Inv(states[0]) && AllLogged(states[0], list)
    ensures Inv(states[n]) && AllLogged(states[n], list) && ClaimsUndisturbed(states[0], states[n])
  {
    hide Inv, AllLogged, ClaimsUndisturbed, Performed, PlanFor, CacheUpTo, DisksUpTo, AddSafety.Sound;
    if n == 0 {
      KeptAnyway(states[0]);
    } else {
      EventDisturbsNoClaim(env, list, devices, attempts, cache, disks, states, n - 1);
      var s, t, i := states[n - 1], states[n], attempts[n - 1].index;
      var d := devices[i];
      var entered := CacheUpTo(env, list, devices, attempts, cache, i)[d.devPath := d];
      var formatted := Formats(DisksUpTo(env, list, devices, attempts, cache, disks, i), d.devPath, d.storage);
      assert Carried(env, list, devices, attempts, cache, disks, n - 1, states[n - 1], states[n - 1 + 1]);
      PlanForIsSound(env, s, entered, list, d);
      PlanUndisturbing(env, s, PlanFor(env, s, entered, list, d), formatted, t, attempts[n - 1].result);
      LoggedStays(s, t, list);
      KeptTogether(states[0], s, t);
    }
  }

  // --- Delete events -----------------------------------------------------------------------

  /** Was the device of the old scheme looked for in vain? */
  predicate Unknown(list: seq<Versioned>, d: Device) {
    d.deviceType != PartitionType && Named(list, d.uuid).None?
  }

  /** The resource a device of a delete event stands for; a device already forgotten stands for none. */
  function GoneResource(env: Env, cache: Cache, list: seq<Versioned>, d: Device): Option<Versioned> {
    if env.gptUuid then (if d.devPath in cache then DeleteTarget(env, list, d) else None)
    else if d.deviceType == PartitionType then None else Named(list, d.uuid)
  }

  /** The resources after the devices are gone, one after the other. */
  function AllGone(env: Env, s: Cluster, cache: Cache, list: seq<Versioned>, devices: seq<Device>): Cluster {
    if devices == [] then s
    else
      var rest := devices[..|devices| - 1];
      var e := GoneResource(env, cache - Paths(rest), list, devices[|devices| - 1]);
      if e.Some? then Deactivated(AllGone(env, s, cache, list, rest), e.value) else AllGone(env, s, cache, list, rest)
  }

  lemma GoneNext(env: Env, s: Cluster, cache: Cache, list: seq<Versioned>, devices: seq<Device>, i: nat)
    requires i < |devices|
    ensures var e := GoneResource(env, cache - Paths(devices[..i]), list, devices[i]);
            var m := AllGone(env, s, cache, list, devices[..i]);
            AllGone(env, s, cache, list, devices[..i + 1]) == if e.Some? then Deactivated(m, e.value) else m
  {
    assert devices[..i + 1][..i] == devices[..i];
  }

  /**
    A delete event.  Under the GPT scheme all its devices leave the cache and no others; a
    rescan is only ever asked for under the old scheme, when a device has no resource.
    */
  method DeleteBlockDeviceEvent(pe: Controller, devices: seq<Device>) returns (rescan: bool, list: seq<Versioned>)
    requires pe.api.Valid()
    modifies pe, pe.api
    ensures pe.api.Valid() && old(pe.api.hist) <= pe.api.hist
    ensures pe.hierarchy == if pe.env.gptUuid then old(pe.hierarchy) - Paths(devices) else old(pe.hierarchy)
    ensures rescan <==> !pe.env.gptUuid && exists i :: 0 <= i < |devices| && Unknown(list, devices[i])
    ensures pe.api.quiet ==> pe.api.View() == AllGone(pe.env, old(pe.api.View()), old(pe.hierarchy), list, devices)
  {
    hide IsRun, Logged, DeleteTarget, Deactivated, Named, AllLogged, Covers, AllGone, Paths;
    var listed := ListBlockDeviceResource(pe.api, Some(pe.env.hostLabel));
    list := if listed.Some? then listed.value else [];
    if listed.None? { NothingLogged(pe.api.View()); }
    NothingGone(pe.env, pe.api.View(), pe.hierarchy, list, devices[..0]);
    var deactivated := true;
    for i := 0 to |devices|
      invariant pe.api.Valid() && old(pe.api.hist) <= pe.api.hist && AllLogged(pe.api.View(), list)
      invariant pe.hierarchy == if pe.env.gptUuid then old(pe.hierarchy) - Paths(devices[..i]) else old(pe.hierarchy)
      invariant pe.env.gptUuid ==> deactivated
      invariant pe.api.quiet ==>
        pe.api.View() == AllGone(pe.env, old(pe.api.View()), old(pe.hierarchy), list, devices[..i])
      invariant !pe.env.gptUuid ==> (deactivated <==> forall j :: 0 <= j < i ==> !Unknown(list, devices[j]))
    {
      PathsNext(devices, i);
      GoneNext(pe.env, old(pe.api.View()), old(pe.hierarchy), list, devices, i);
      ghost var s := pe.api.View();
      if pe.env.gptUuid {
        DeleteBlockDevice(pe, devices[i], list);
        LoggedStays(s, pe.api.View(), list);
      } else {
        if devices[i].deviceType == PartitionType {
          continue;
        }
        var existing := GetExistingBlockDeviceResource(list, devices[i].uuid);
        if existing.None? {
          deactivated := false;
          continue;
        }
        NamedIsLogged(s, list, devices[i].uuid);
        DeactivateBlockDevice(pe.api, existing.value);
        LoggedStays(s, pe.api.View(), list);
      }
    }
    assert devices[..|devices|] == devices;
    rescan := !deactivated && !pe.env.gptUuid;
  }

  lemma NothingGone(env: Env, s: Cluster, cache: Cache, list: seq<Versioned>, devices: seq<Device>)
    requires devices == []
    ensures AllGone(env, s, cache, list, devices) == s && cache - Paths(devices) == cache
  {}

  lemma NothingLogged(s: Cluster)
    ensures AllLogged(s, [])
  {}

  lemma PathsNext(devices: seq<Device>, i: nat)
    requires i < |devices|
    ensures Paths(devices[..i + 1]) == Paths(devices[..i]) + {devices[i].devPath}
  {
    assert devices[..i + 1][i] == devices[i];
  }

  function Paths(devices: seq<Device>): set<string> {
    set i | 0 <= i < |devices| :: devices[i].devPath
  }
}
