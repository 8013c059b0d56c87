/**
  What a whole event leads to, in terms of its devices: which of them are processed, what
  the cache holds afterwards, and which resources a delete event turns inactive.
  */
module EventOutcomes {
  import opened Objects
  import opened Protocol
  import opened Invariant
  import opened ClaimSafety
  import opened ApiServer
  import opened Daemon
  import opened DaemonStore
  import opened AddHandler
  import opened AddSafety
  import opened AddProgress
  import opened DeleteHandler
  import opened EventHandler

  // --- Add events ---------------------------------------------------------------------

  /** Device i has an earlier device of the event as parent or slave whose processing failed. */
  ghost predicate StandsOnFailure(devices: seq<Device>, attempts: seq<Attempt>, i: nat)
    requires i < |devices|
  {
    exists j: nat :: j < i && Attempt(j, Errored) in attempts &&
                     (devices[i].parent == devices[j].devPath || devices[j].devPath in devices[i].slaves)
  }

  /**
    A device is processed exactly if the filters admit it and, under the GPT scheme, nothing it
    stands on has failed; under the old scheme partitions are not processed.
    */
  lemma ProcessedIff(env: Env, devices: seq<Device>, admit: Device -> bool, attempts: seq<Attempt>, cache: Cache,
                     i: nat)
    requires i < |devices| && DoneUpTo(env, devices, admit, attempts, cache, |devices|)
    ensures (exists r :: Attempt(i, r) in attempts) <==> (
      && admit(devices[i])
      && (env.gptUuid ==> !StandsOnFailure(devices, attempts, i))
      && (!env.gptUuid ==> devices[i].deviceType != PartitionType))
  {
    AttemptedMeans(attempts, i);
    BlockedMeans(devices, attempts, i);
  }

  lemma AttemptedMeans(attempts: seq<Attempt>, i: nat)
    ensures Attempted(attempts, i) <==> exists r :: Attempt(i, r) in attempts
  {
    if Attempted(attempts, i) {
      var k :| 0 <= k < |attempts| && attempts[k].index == i;
      assert Attempt(i, attempts[k].result) in attempts;
    }
  }

  lemma BlockedMeans(devices: seq<Device>, attempts: seq<Attempt>, i: nat)
    requires i < |devices| && forall k :: 0 <= k < |attempts| ==> attempts[k].index < |devices|
    ensures Blocked(devices, attempts, i) <==> StandsOnFailure(devices, attempts, i)
  {
    if Blocked(devices, attempts, i) {
      var k :| 0 <= k < |attempts| && attempts[k].index < i && attempts[k].result == Errored &&
               DependsOn(devices[i], devices[attempts[k].index].devPath);
      assert attempts[k] == Attempt(attempts[k].index, Errored);
    }
    if StandsOnFailure(devices, attempts, i) {
      var j: nat :| j < i && Attempt(j, Errored) in attempts &&
                    (devices[i].parent == devices[j].devPath || devices[j].devPath in devices[i].slaves);
      var k :| 0 <= k < |attempts| && attempts[k] == Attempt(j, Errored);
      assert DependsOn(devices[i], devices[attempts[k].index].devPath);
    }
  }

  /**
    After n devices the cache holds, under each path, the last of them with that path, but for
    its name; a path that none of them has is as before.
    */
  lemma {:induction false} EventCaches(env: Env, list: seq<Versioned>, devices: seq<Device>, attempts: seq<Attempt>,
                                       cache: Cache, n: nat, p: string)
    requires n <= |devices|
    ensures var after := CacheUpTo(env, list, devices, attempts, cache, n);
            if exists i :: 0 <= i < n && devices[i].devPath == p
            then p in after && exists i :: LastAt(devices, n, p, i) && SameButName(after[p], devices[i])
            else (p in after <==> p in cache) && (p in cache ==> after[p] == cache[p])
  {
    hide CacheUpTo, SameButName;
    if n == 0 {
      NothingCached(env, list, devices, attempts, cache);
    } else {
      EventCaches(env, list, devices, attempts, cache, n - 1, p);
      OneCached(env, list, devices, attempts, cache, n - 1, p);
      if devices[n - 1].devPath == p {
        assert LastAt(devices, n, p, n - 1);
      } else if exists i :: 0 <= i < n - 1 && devices[i].devPath == p {
        var before := CacheUpTo(env, list, devices, attempts, cache, n - 1);
        var i :| LastAt(devices, n - 1, p, i) && SameButName(before[p], devices[i]);
        assert LastAt(devices, n, p, i);
      }
    }
  }

  predicate SameButName(d: Device, e: Device) {
    d.(uuid := e.uuid) == e
  }

  lemma NothingCached(env: Env, list: seq<Versioned>, devices: seq<Device>, attempts: seq<Attempt>, cache: Cache)
    ensures CacheUpTo(env, list, devices, attempts, cache, 0) == cache
  {}

  /** One more device changes the cache at its own path only. */
  lemma OneCached(env: Env, list: seq<Versioned>, devices: seq<Device>, attempts: seq<Attempt>, cache: Cache, n: nat,
                  p: string)
    requires n < |devices|
    ensures var before := CacheUpTo(env, list, devices, attempts, cache, n);
            var after := CacheUpTo(env, list, devices, attempts, cache, n + 1);
            if p == devices[n].devPath then p in after && SameButName(after[p], devices[n])
            else (p in after <==> p in before) && (p in before ==> after[p] == before[p])
  {
    hide Proceeds, GenerateUuid, Attempted;
  }

  ghost predicate LastAt(devices: seq<Device>, n: nat, p: string, i: int)
    requires n <= |devices|
  {
    0 <= i < n && devices[i].devPath == p && forall j :: i < j < n ==> devices[j].devPath != p
  }

  /** Under the old scheme a device is stored under the name it was probed with, without annotations. */
  lemma OldSchemeOutcome(s: Cluster, env: Env, cache: Cache, list: seq<Versioned>, bd: Device,
                         formatted: bool, t: Cluster, r: AddResult)
    requires Inv(s) && AllLogged(s, list) && !env.gptUuid
    requires Performed(env, s, PlanFor(env, s, cache, list, bd), formatted, t, r)
    ensures if env.labels(bd).Some? && Fresh(s, Named(list, bd.uuid))
            then r == Processed && Stores(env, s, map[], map[], bd, t) && OthersKept(s, bd.uuid, t)
            else r == Errored && t == s
  {
    hide Inv, Performed, PushWith, Stores, OthersKept, Logged, Fresh;
    NamedIsLogged(s, list, bd.uuid);
    PushOutcome(env, s, map[], bd, Named(list, bd.uuid), formatted, t, r);
  }

  // --- Delete events --------------------------------------------------------------------

  /** Device i of the event names the resource of name b: under the GPT scheme it must still be in the cache. */
  ghost predicate Retired(env: Env, cache: Cache, list: seq<Versioned>, devices: seq<Device>, i: int, b: string) {
    && 0 <= i < |devices|
    && if env.gptUuid then
         && devices[i].devPath in cache && (forall j :: 0 <= j < i ==> devices[j].devPath != devices[i].devPath)
         && DeleteTarget(env, list, devices[i]).Some? && DeleteTarget(env, list, devices[i]).value.d.name == b
       else
         devices[i].deviceType != PartitionType && devices[i].uuid == b && Named(list, b).Some?
  }

  lemma RetiredBefore(env: Env, cache: Cache, list: seq<Versioned>, devices: seq<Device>, b: string)
    requires devices != []
    ensures forall i :: 0 <= i < |devices| - 1 ==>
      (Retired(env, cache, list, devices, i, b) <==> Retired(env, cache, list, devices[..|devices| - 1], i, b))
  {
    hide DeleteTarget, Named;
  }

  lemma RetiredNow(env: Env, cache: Cache, list: seq<Versioned>, devices: seq<Device>, b: string)
    requires devices != []
    ensures var n := |devices| - 1;
            var e := GoneResource(env, cache - Paths(devices[..n]), list, devices[n]);
            && (e.Some? ==> e.value in list)
            && (Retired(env, cache, list, devices, n, b) <==> e.Some? && e.value.d.name == b)
  {
    hide DeleteTarget;
    var n := |devices| - 1;
    forall j | 0 <= j < n ensures devices[..n][j] == devices[j] {}
    assert devices[n].devPath in Paths(devices[..n]) <==>
      exists j :: 0 <= j < n && devices[j].devPath == devices[n].devPath;
  }

  /** One more resource turned inactive. */
  lemma RetireNext(s: Cluster, m: Cluster, e: Versioned, b: string, was: bool)
    requires Inv(m) && Logged(s, e) && IsCurrent(s, e) && Extends(s.deviceLog, m.deviceLog)
    requires (!was ==> SameVersion(s, m, b)) && (was ==> DeviceAt(s, b).Some?)
    requires DeviceAt(m, b) == if was then Some(DeviceAt(s, b).value.(state := Inactive)) else DeviceAt(s, b)
    ensures var t, now := Deactivated(m, e), was || b == e.d.name;
            && Inv(t) && Extends(s.deviceLog, t.deviceLog) && (!now ==> SameVersion(s, t, b))
            && (now ==> DeviceAt(s, b).Some?)
            && DeviceAt(t, b) == if now then Some(DeviceAt(s, b).value.(state := Inactive)) else DeviceAt(s, b)
  {
    hide Inv, StateSet;
    StateSetMeans(m, e, Inactive, b);
  }

  /** A delete event turns inactive exactly the resources its devices stand for, and changes nothing else of them. */
  lemma {:induction false} DeletedIff(env: Env, s: Cluster, cache: Cache, list: seq<Versioned>, devices: seq<Device>,
                                      b: string)
    requires Inv(s) && forall i :: 0 <= i < |list| ==> Logged(s, list[i]) && IsCurrent(s, list[i])
    ensures var t := AllGone(env, s, cache, list, devices);
            var retired := exists i :: Retired(env, cache, list, devices, i, b);
            && Inv(t) && Extends(s.deviceLog, t.deviceLog) && (!retired ==> SameVersion(s, t, b))
            && (retired ==> DeviceAt(s, b).Some?)
            && DeviceAt(t, b) == if retired then Some(DeviceAt(s, b).value.(state := Inactive)) else DeviceAt(s, b)
    decreases |devices|
  {
    hide Inv, Deactivated, GoneResource, DeviceAt, Logged, IsCurrent, Retired, SameVersion;
    if devices == [] {
      NobodyRetired(env, s, cache, list, b);
    } else {
      var n := |devices| - 1;
      var rest := devices[..n];
      DeletedIff(env, s, cache, list, rest, b);
      RetiredNow(env, cache, list, devices, b);
      RetiredSplit(env, cache, list, devices, b);
      var before := exists i :: Retired(env, cache, list, rest, i, b);
      var e := GoneResource(env, cache - Paths(rest), list, devices[n]);
      if e.Some? { RetireNext(s, AllGone(env, s, cache, list, rest), e.value, b, before); }
    }
  }

  lemma RetiredSplit(env: Env, cache: Cache, list: seq<Versioned>, devices: seq<Device>, b: string)
    requires devices != []
    ensures var rest := devices[..|devices| - 1];
            (exists i :: Retired(env, cache, list, devices, i, b)) <==>
              (exists i :: Retired(env, cache, list, rest, i, b)) || Retired(env, cache, list, devices, |rest|, b)
  {
    RetiredBefore(env, cache, list, devices, b);
    var rest := devices[..|devices| - 1];
    if i :| Retired(env, cache, list, devices, i, b) {
      assert i < |devices| - 1 ==> Retired(env, cache, list, rest, i, b);
    }
    if i :| Retired(env, cache, list, rest, i, b) {
      assert Retired(env, cache, list, devices, i, b);
    }
  }

  lemma NobodyRetired(env: Env, s: Cluster, cache: Cache, list: seq<Versioned>, b: string)
    ensures SameVersion(s, s, b) && forall i :: !Retired(env, cache, list, [], i, b)
  {
    hide DeleteTarget;
  }
}
