/**
  What an add event does to the stored resources, in the fields of the probed device and
  of the resources, for every kind of device: which devices are stored, under which name
  and with which data, and which are not.
  */
module AddProgress {
  import opened Objects
  import opened Protocol
  import opened Invariant
  import opened ClaimSafety
  import opened DaemonFrame
  import opened Frames
  import opened ApiServer
  import opened Daemon
  import opened DaemonStore
  import opened AddHandler
  import opened AddSafety
  import Selection

  // --- A resource that shows what was probed ---------------------------------------

  type Tags = map<string, string>

  /** The resource shows the device as probed: always where it is, and what it is while nobody uses it. */
  ghost predicate Shows(env: Env, tags: Tags, bd: Device, d: BlockDevice) {
    && d.state == Active && d.spec.path == bd.devPath && d.spec.nodeName == env.nodeName
    && d.spec.capacity.storage == bd.storage && d.spec.devLinks == bd.devLinks
    && (forall k :: k in tags ==> k in d.labels && d.labels[k] == tags[k])
    && env.labels(bd).Some? && (forall k :: k in env.labels(bd).value && k !in tags ==>
                                  k in d.labels && d.labels[k] == env.labels(bd).value[k])
    && (d.claimState == Unclaimed ==>
          && d.spec.claimRef == None
          && d.spec.capacity.physicalSectorSize == bd.physicalBlockSize
          && d.spec.capacity.logicalSectorSize == bd.logicalBlockSize
          && d.spec.details.driveType == bd.driveType && d.spec.details.model == bd.model
          && d.spec.details.serial == bd.serial && d.spec.details.vendor == bd.vendor
          && d.spec.details.deviceType == TypeName(bd.deviceType)
          && (bd.deviceType == DiskType ==> d.spec.details.deviceType == "disk")
          && (bd.deviceType == PartitionType ==> d.spec.details.deviceType == "partition")
          && d.spec.fileSystem.fsType == bd.fileSystem
          && d.spec.fileSystem.mountPoint == if bd.mountPoints == [] then "" else bd.mountPoints[0])
  }

  /** The resource named by the device is there and shows it; its claim is as before. */
  ghost predicate Stores(env: Env, s: Cluster, annotations: map<Annotation, string>, tags: Tags, bd: Device,
                         t: Cluster) {
    var x, y := DeviceAt(s, bd.uuid), DeviceAt(t, bd.uuid);
    && y.Some? && Shows(env, tags, bd, y.value)
    && (forall k :: k in annotations ==> k in y.value.annotations && y.value.annotations[k] == annotations[k])
    && (x.Some? ==> ClaimDataKept(x.value, y.value))
    && (x.None? ==>
          && NewDevice(y.value) && y.value.annotations == annotations
          && forall k :: k in y.value.labels ==> k in tags || k in env.labels(bd).value)
  }

  ghost predicate OthersKept(s: Cluster, name: string, t: Cluster) {
    forall b :: b != name ==> DeviceAt(t, b) == DeviceAt(s, b)
  }

  /** The device as it is pushed. */
  ghost predicate Probed(env: Env, annotations: map<Annotation, string>, tags: Tags, bd: Device, d: BlockDevice) {
    && d.name == bd.uuid && NewDevice(d) && Shows(env, tags, bd, d) && d.annotations == annotations
    && forall k :: k in d.labels ==> k in tags || k in env.labels(bd).value
  }

  lemma ToDeviceShows(env: Env, bd: Device, annotations: map<Annotation, string>, tags: Tags)
    ensures ToDevice(env, bd).Some? <==> env.labels(bd).Some?
    ensures ToDevice(env, bd).Some? ==> (
      var d := ToDevice(env, bd).value;
      && d.annotations == map[]
      && Probed(env, annotations, tags, bd, d.(annotations := annotations, labels := d.labels + tags)))
  {}

  lemma RefreshedShows(env: Env, tags: Tags, bd: Device, d: BlockDevice, x: BlockDevice, y: BlockDevice)
    requires Shows(env, tags, bd, d) && NewDevice(d) && Refreshed(d, x, y)
    requires x.claimState == Unclaimed ==> x.spec.claimRef == None
    ensures Shows(env, tags, bd, y) && ClaimDataKept(x, y)
  {}

  /** Storing a probed device, on top of a current version if one is given. */
  lemma StoreShows(env: Env, s: Cluster, annotations: map<Annotation, string>, tags: Tags, bd: Device,
                   d: BlockDevice, existing: Option<Versioned>)
    requires Inv(s) && Probed(env, annotations, tags, bd, d)
    requires existing.Some? ==>
      Logged(s, existing.value) && existing.value.d.name == d.name && IsCurrent(s, existing.value)
    ensures var t := if existing.Some? then Merged(s, d, existing.value) else Created(s, d);
            Stores(env, s, annotations, tags, bd, t) && OthersKept(s, bd.uuid, t)
  {
    hide Merged, Created, Merge, NewDevice, ClaimDataKept, IsCurrent, Logged, DeviceAt, Inv;
    StoredIsActive(s, d, existing);
    match DeviceAt(s, d.name)
    case Some(x) =>
      ReferenceOnlyWhileClaimed(s, d.name);
      hide Refreshed, Shows;
      var t := if existing.Some? then Merged(s, d, existing.value) else Created(s, d);
      RefreshedShows(env, tags, bd, d, x, DeviceAt(t, d.name).value);
      RefreshedAnnotations(d, x, DeviceAt(t, d.name).value);
    case None =>
  }

  lemma RefreshedAnnotations(d: BlockDevice, x: BlockDevice, y: BlockDevice)
    requires Refreshed(d, x, y)
    ensures forall k :: k in d.annotations ==> k in y.annotations && y.annotations[k] == d.annotations[k]
  {}

  lemma ReferenceOnlyWhileClaimed(s: Cluster, b: string)
    requires Inv(s) && DeviceAt(s, b).Some?
    ensures DeviceAt(s, b).value.claimState == Unclaimed ==> DeviceAt(s, b).value.spec.claimRef == None
  {
    hide Monotone, Backed, IntentsOk, SessionsOk, ClaimsStored;
  }

  /** The given version is the one to be written over. */
  ghost predicate Fresh(s: Cluster, existing: Option<Versioned>) {
    existing.Some? ==> IsCurrent(s, existing.value)
  }

  lemma PushOutcome(env: Env, s: Cluster, annotations: map<Annotation, string>, bd: Device,
                    existing: Option<Versioned>, formatted: bool, t: Cluster, r: AddResult)
    requires Inv(s) && Performed(env, s, PushWith(env, annotations, bd, existing), formatted, t, r)
    requires existing.Some? ==> Logged(s, existing.value) && existing.value.d.name == bd.uuid
    ensures if env.labels(bd).Some? && Fresh(s, existing)
            then r == Processed && Stores(env, s, annotations, map[], bd, t) && OthersKept(s, bd.uuid, t)
            else r == Errored && t == s
  {
    hide Created, Stores, OthersKept, Probed, ToDevice, Inv, Logged, IsCurrent;
    ToDeviceShows(env, bd, annotations, map[]);
    if env.labels(bd).Some? && Fresh(s, existing) {
      var d := ToDevice(env, bd).value;
      assert d.labels + map[] == d.labels;
      hide Merged;
      PushedName(env, annotations, bd, d.(annotations := annotations));
      StoreShows(env, s, annotations, map[], bd, d.(annotations := annotations), existing);
    }
  }

  lemma PushedName(env: Env, annotations: map<Annotation, string>, bd: Device, d: BlockDevice)
    requires Probed(env, annotations, map[], bd, d)
    ensures d.name == bd.uuid
  {}

  // --- Devices with a name of their own --------------------------------------------

  /** The parent of a partition as the daemon knows it by now. */
  function ParentOf(cache: Cache, bd: Device): Device
    requires bd.parent in cache
  {
    if bd.parent == bd.devPath then bd else cache[bd.parent]
  }

  ghost function ParentResource(s: Cluster, env: Env, parent: Device): Option<BlockDevice> {
    match GenerateUuid(env, parent) case None => None case Some(u) => DeviceAt(s, u)
  }

  /**
    Should there be a resource u for the device?  An existing one stays.  A new one is made for
    a device without partitions and holders, and for a partition whose parent has no resource
    or an unclaimed one, where in the first case it must have no holders.
    */
  ghost predicate Wanted(s: Cluster, env: Env, cache: Cache, bd: Device, u: string)
    requires bd.deviceType == PartitionType ==> bd.parent in cache
  {
    || DeviceAt(s, u).Some?
    || if bd.deviceType != PartitionType then bd.partitions == [] && bd.holders == []
       else match ParentResource(s, env, ParentOf(cache, bd))
         case None => bd.holders == []
         case Some(p) => p.claimState == Unclaimed
  }

  /** Is b the unclaimed resource of the parent, which has to make way for a new partition? */
  ghost predicate Retires(s: Cluster, env: Env, cache: Cache, bd: Device, u: string, b: string)
    requires bd.deviceType == PartitionType ==> bd.parent in cache
  {
    && bd.deviceType == PartitionType && DeviceAt(s, u).None? && GenerateUuid(env, ParentOf(cache, bd)) == Some(b)
    && DeviceAt(s, b).Some? && DeviceAt(s, b).value.claimState == Unclaimed
  }

  /** All resources but u are as before, except that of a parent that makes way, which is inactive. */
  ghost predicate RestKept(s: Cluster, env: Env, cache: Cache, bd: Device, u: string, t: Cluster)
    requires bd.deviceType == PartitionType ==> bd.parent in cache
  {
    forall b :: b != u ==>
      DeviceAt(t, b) == if Retires(s, env, cache, bd, u, b) then Some(DeviceAt(s, b).value.(state := Inactive))
                        else DeviceAt(s, b)
  }

  /** The stored resource can be written: it is in use, or the list does not hold an outdated version of it. */
  ghost predicate Writable(s: Cluster, list: seq<Versioned>, u: string) {
    || (DeviceAt(s, u).Some? && DeviceAt(s, u).value.claimState != Unclaimed)
    || Fresh(s, Named(list, u))
  }

  /** The result of an add event for a device that is to have resource u. */
  ghost predicate NamedOutcome(s: Cluster, env: Env, cache: Cache, list: seq<Versioned>, bd: Device, u: string,
                               t: Cluster, r: AddResult)
    requires bd.deviceType == PartitionType ==> bd.parent in cache
  {
    var named := bd.(uuid := u);
    if !Wanted(s, env, cache, bd, u) then t == s && r == Processed
    else
      && RestKept(s, env, cache, bd, u, t)
      && if env.labels(named).Some? && Writable(s, list, u)
         then r == Processed && Stores(env, s, map[UuidScheme := GPT], map[], named, t)
         else r == Errored && DeviceAt(t, u) == DeviceAt(s, u)
  }

  lemma NameIgnoresUuid(env: Env, bd: Device, u: string)
    ensures GenerateUuid(env, bd.(uuid := u)) == GenerateUuid(env, bd)
  {}

  /** Fetching a resource tells what is stored. */
  lemma FetchTells(s: Cluster, b: string)
    requires Inv(s)
    ensures DeviceAt(s, b).Some? ==> b in s.devices
    ensures Fetch(s, b) == (if DeviceAt(s, b).Some? then Found(s.devices[b], DeviceAt(s, b).value) else NotFound)
    ensures DeviceAt(s, b).Some? ==> (
      var e := Versioned(s.devices[b], DeviceAt(s, b).value); e.d.name == b && Logged(s, e) && IsCurrent(s, e))
  {
    hide Monotone, Backed, IntentsOk, SessionsOk, ClaimsStored;
  }

  /** A plain push of the device, with nobody retired. */
  lemma PlainPush(s: Cluster, env: Env, cache: Cache, list: seq<Versioned>, bd: Device, u: string,
                  existing: Option<Versioned>, formatted: bool, t: Cluster, r: AddResult)
    requires Inv(s) && AllLogged(s, list) && (bd.deviceType == PartitionType ==> bd.parent in cache)
    requires Performed(env, s, PushWith(env, GptAnnotations(), bd.(uuid := u), existing), formatted, t, r)
    requires existing.Some? ==> Logged(s, existing.value) && existing.value.d.name == u
    requires Fresh(s, existing) <==> Writable(s, list, u)
    requires Wanted(s, env, cache, bd, u) && forall b :: !Retires(s, env, cache, bd, u, b)
    ensures NamedOutcome(s, env, cache, list, bd, u, t, r)
  {
    hide Inv, Performed, PushWith, Stores, Wanted, Retires, Writable, Fresh, Logged;
    PushOutcome(env, s, GptAnnotations(), bd.(uuid := u), existing, formatted, t, r);
  }

  /** The parent is retired, then the partition stored. */
  lemma ReplacingPush(s: Cluster, env: Env, cache: Cache, list: seq<Versioned>, bd: Device, u: string, p: string,
                      formatted: bool, t: Cluster, r: AddResult)
    requires Inv(s) && AllLogged(s, list) && bd.deviceType == PartitionType && bd.parent in cache
    requires DeviceAt(s, u).None? && GenerateUuid(env, ParentOf(cache, bd)) == Some(p) && DeviceAt(s, p).Some?
    requires DeviceAt(s, p).value.claimState == Unclaimed
    requires var e := Versioned(s.devices[p], DeviceAt(s, p).value);
             var push := PushWith(env, GptAnnotations(), bd.(uuid := u), Named(list, u));
             Performed(env, Deactivated(s, e), push, formatted, t, r)
    ensures NamedOutcome(s, env, cache, list, bd, u, t, r)
  {
    hide Inv, Performed, PushWith, Stores, GenerateUuid, DeviceAt, Logged, IsCurrent, Deactivated;
    FetchTells(s, p);
    var e := Versioned(s.devices[p], DeviceAt(s, p).value);
    var m := Deactivated(s, e);
    forall b
      ensures Inv(m) && Extends(s.deviceLog, m.deviceLog)
      ensures DeviceAt(m, b) == if b == p then Some(DeviceAt(s, p).value.(state := Inactive)) else DeviceAt(s, b)
      ensures b != p ==> SameVersion(s, m, b)
    {
      RetiredParent(s, e, b);
    }
    LoggedStays(s, m, list);
    SameFreshness(s, m, list, u);
    PushOutcome(env, m, GptAnnotations(), bd.(uuid := u), Named(list, u), formatted, t, r);
    StoresFrom(env, s, m, bd.(uuid := u), t);
  }

  lemma RetiredParent(s: Cluster, e: Versioned, b: string)
    requires Inv(s) && Logged(s, e) && IsCurrent(s, e)
    ensures var m := Deactivated(s, e);
            && Inv(m) && Extends(s.deviceLog, m.deviceLog) && (b != e.d.name ==> SameVersion(s, m, b))
            && DeviceAt(m, b) == if b == e.d.name then Some(e.d.(state := Inactive)) else DeviceAt(s, b)
  {
    hide Inv, StateSet;
    StateSetMeans(s, e, Inactive, b);
  }

  lemma SameFreshness(s: Cluster, m: Cluster, list: seq<Versioned>, u: string)
    requires SameVersion(s, m, u)
    ensures Fresh(m, Named(list, u)) == Fresh(s, Named(list, u))
  {}

  lemma StoresFrom(env: Env, s: Cluster, m: Cluster, bd: Device, t: Cluster)
    requires DeviceAt(m, bd.uuid) == DeviceAt(s, bd.uuid)
    ensures Stores(env, m, GptAnnotations(), map[], bd, t) == Stores(env, s, GptAnnotations(), map[], bd, t)
  {
    hide Shows, DeviceAt, ClaimDataKept, NewDevice;
  }

  /** What a device leads to once it has a name. */
  lemma IdentifiedOutcome(s: Cluster, env: Env, cache: Cache, list: seq<Versioned>, bd: Device, u: string,
                          formatted: bool, t: Cluster, r: AddResult)
    requires Inv(s) && AllLogged(s, list) && GenerateUuid(env, bd) == Some(u)
    requires bd.deviceType == PartitionType ==> bd.parent in cache
    requires var named := bd.(uuid := u);
             Performed(env, s, Identified(s, env, cache[bd.devPath := named], list, named), formatted, t, r)
    ensures NamedOutcome(s, env, cache, list, bd, u, t, r)
  {
    hide Inv, PushWith, Stores, GenerateUuid, DeviceAt, Logged, IsCurrent, Deactivated, Fetch, Created, Merged;
    hide NamedOutcome;
    FetchTells(s, u);
    NamedIsLogged(s, list, u);
    match DeviceAt(s, u)
    case Some(d) =>
      var stored := Versioned(s.devices[u], d);
      var existing := if d.claimState != Unclaimed then Some(stored) else Named(list, u);
      PlainPush(s, env, cache, list, bd, u, existing, formatted, t, r);
    case None =>
      if bd.deviceType == PartitionType {
        NewPartitionOutcome(s, env, cache, list, bd, u, formatted, t, r);
      } else {
        NewDeviceOutcome(s, env, cache, list, bd, u, formatted, t, r);
      }
  }

  lemma NewDeviceOutcome(s: Cluster, env: Env, cache: Cache, list: seq<Versioned>, bd: Device, u: string,
                         formatted: bool, t: Cluster, r: AddResult)
    requires Inv(s) && AllLogged(s, list) && bd.deviceType != PartitionType && DeviceAt(s, u).None?
    requires var plan := if bd.partitions != [] then Stop(false) else UnlessHeld(env, list, bd.(uuid := u));
             Performed(env, s, plan, formatted, t, r)
    ensures NamedOutcome(s, env, cache, list, bd, u, t, r)
  {
    hide Inv, PushWith, Stores, DeviceAt, Logged, IsCurrent, Created, Merged;
    NamedIsLogged(s, list, u);
    if bd.partitions == [] && bd.holders == [] {
      PlainPush(s, env, cache, list, bd, u, Named(list, u), formatted, t, r);
    }
  }

  lemma NewPartitionOutcome(s: Cluster, env: Env, cache: Cache, list: seq<Versioned>, bd: Device, u: string,
                            formatted: bool, t: Cluster, r: AddResult)
    requires Inv(s) && AllLogged(s, list) && bd.deviceType == PartitionType && bd.parent in cache
    requires DeviceAt(s, u).None? && GenerateUuid(env, bd) == Some(u)
    requires var named := bd.(uuid := u);
             var plan := NewPartition(s, env, cache[bd.devPath := named][bd.parent], list, named);
             Performed(env, s, plan, formatted, t, r)
    ensures NamedOutcome(s, env, cache, list, bd, u, t, r)
  {
    hide Inv, PushWith, Stores, GenerateUuid, DeviceAt, Logged, IsCurrent, Deactivated, Fetch, Created, Merged;
    NameIgnoresUuid(env, bd, u);
    var parent := ParentOf(cache, bd);
    var pu := GenerateUuid(env, parent);
    assert GenerateUuid(env, cache[bd.devPath := bd.(uuid := u)][bd.parent]) == pu;
    NamedIsLogged(s, list, u);
    if pu.Some? { FetchTells(s, pu.value); }
    match ParentResource(s, env, parent)
    case None =>
      if bd.holders == [] { PlainPush(s, env, cache, list, bd, u, Named(list, u), formatted, t, r); }
    case Some(p) =>
      if p.claimState == Unclaimed { ReplacingPush(s, env, cache, list, bd, u, pu.value, formatted, t, r); }
  }

  /** The engines that keep a device out of the normal course do not; or it already has a new resource, in use. */
  predicate GoesOn(list: seq<Versioned>, bd: Device, u: string) {
    || !(bd.inUse && Recognised(bd.usedBy))
    || (&& (bd.usedBy == LocalPV || bd.usedBy == CStor)
        && Named(list, u).Some? && Named(list, u).value.d.claimState != Unclaimed)
  }

  /**
    What an add event does for a device that can be named.  It is stored under that name,
    active and as probed, exactly if it is wanted and can be written; a partition needs a
    parent that is known and not in use.
    */
  lemma AddOutcome(s: Cluster, env: Env, cache: Cache, list: seq<Versioned>, bd: Device, u: string,
                   formatted: bool, t: Cluster, r: AddResult)
    requires Inv(s) && AllLogged(s, list) && GenerateUuid(env, bd) == Some(u) && GoesOn(list, bd, u)
    requires Performed(env, s, Decide(s, env, cache, list, bd), formatted, t, r)
    ensures if bd.deviceType == PartitionType && bd.parent !in cache then t == s && r == Errored
            else if bd.deviceType == PartitionType && cache[bd.parent].inUse then t == s && r == Processed
            else NamedOutcome(s, env, cache, list, bd, u, t, r)
  {
    hide Inv, Identified, NamedOutcome, GenerateUuid, Identity, AllLogged, TableUuid;
    if !(bd.deviceType == PartitionType && (bd.parent !in cache || cache[bd.parent].inUse)) {
      hide Performed;
      IdentifiedOutcome(s, env, cache, list, bd, u, formatted, t, r);
    }
  }

  /** In particular a new device that nobody uses, without partitions and holders, gets a resource. */
  lemma NewDeviceIsStored(s: Cluster, env: Env, cache: Cache, list: seq<Versioned>, bd: Device, u: string,
                          formatted: bool, t: Cluster, r: AddResult)
    requires Inv(s) && AllLogged(s, list) && GenerateUuid(env, bd) == Some(u)
    requires !bd.inUse && bd.deviceType != PartitionType && bd.partitions == [] && bd.holders == []
    requires env.labels(bd.(uuid := u)).Some? && DeviceAt(s, u) == None && forall e :: e in list ==> e.d.name != u
    requires Performed(env, s, Decide(s, env, cache, list, bd), formatted, t, r)
    ensures r == Processed && DeviceAt(t, u).Some?
    ensures var d := DeviceAt(t, u).value;
            && d.state == Active && d.claimState == Unclaimed && d.spec.path == bd.devPath
            && d.spec.capacity.storage == bd.storage && d.annotations == map[UuidScheme := "gpt"]
    ensures forall b :: b != u ==> DeviceAt(t, b) == DeviceAt(s, b)
  {
    hide Inv, Decide, Performed, DeviceAt, GenerateUuid;
    AddOutcome(s, env, cache, list, bd, u, formatted, t, r);
  }

  /** And so does a new partition of an unused disk whose own resource is unclaimed and then becomes inactive. */
  lemma NewPartitionIsStored(s: Cluster, env: Env, cache: Cache, list: seq<Versioned>, bd: Device, u: string, p: string,
                             formatted: bool, t: Cluster, r: AddResult)
    requires Inv(s) && AllLogged(s, list) && GenerateUuid(env, bd) == Some(u) && !bd.inUse
    requires bd.deviceType == PartitionType && bd.parent in cache && bd.parent != bd.devPath
    requires !cache[bd.parent].inUse && GenerateUuid(env, cache[bd.parent]) == Some(p) && p != u
    requires DeviceAt(s, p).Some? && DeviceAt(s, p).value.claimState == Unclaimed
    requires env.labels(bd.(uuid := u)).Some? && DeviceAt(s, u) == None && forall e :: e in list ==> e.d.name != u
    requires Performed(env, s, Decide(s, env, cache, list, bd), formatted, t, r)
    ensures r == Processed && DeviceAt(t, u).Some?
    ensures DeviceAt(t, u).value.state == Active && DeviceAt(t, u).value.spec.path == bd.devPath
    ensures DeviceAt(t, p) == Some(DeviceAt(s, p).value.(state := Inactive))
  {
    hide Inv, Decide, Performed, DeviceAt, GenerateUuid;
    AddOutcome(s, env, cache, list, bd, u, formatted, t, r);
  }

  /** A resource in use is refreshed whatever the list holds. */
  lemma ResourceInUseIsRefreshed(s: Cluster, env: Env, cache: Cache, list: seq<Versioned>, bd: Device, u: string,
                                 formatted: bool, t: Cluster, r: AddResult)
    requires Inv(s) && AllLogged(s, list) && GenerateUuid(env, bd) == Some(u) && !bd.inUse
    requires bd.deviceType != PartitionType && env.labels(bd.(uuid := u)).Some?
    requires DeviceAt(s, u).Some? && DeviceAt(s, u).value.claimState != Unclaimed
    requires Performed(env, s, Decide(s, env, cache, list, bd), formatted, t, r)
    ensures r == Processed && DeviceAt(t, u).Some?
    ensures var d, e := DeviceAt(s, u).value, DeviceAt(t, u).value;
            && e.state == Active && e.spec.path == bd.devPath && e.spec.nodeName == env.nodeName
            && e.claimState == d.claimState && e.spec.claimRef == d.spec.claimRef && e.finalizers == d.finalizers
  {
    hide Inv, Decide, Performed, DeviceAt, GenerateUuid;
    AddOutcome(s, env, cache, list, bd, u, formatted, t, r);
  }

  /** The cache holds the device afterwards with its name, if it goes on, and nothing else changes in it. */
  lemma CachedUnderItsName(env: Env, cache: Cache, list: seq<Versioned>, bd: Device, u: string)
    requires GenerateUuid(env, bd) == Some(u) && bd.devPath in cache && cache[bd.devPath] == bd
    ensures var after := CacheAfter(env, cache, list, bd);
            var goesOn := GoesOn(list, bd, u) &&
              (bd.deviceType == PartitionType ==> bd.parent in cache && !cache[bd.parent].inUse);
            after == if goesOn then cache[bd.devPath := bd.(uuid := u)] else cache
  {
    hide Identity, NameOf, LegacyUuid, LegacyResource, PushWith, UsesPath;
  }

  // --- Devices in use by an engine that is upgraded ----------------------------------

  /** What marks the resource of a device in use: its file system for a local PV, its partition table for cStor. */
  predicate Marked(bd: Device, d: BlockDevice) {
    if bd.usedBy == LocalPV then HasMark(d, FsUuid, bd.fsUuid) else HasMark(d, PartitionUuid, bd.partitionTableUuid)
  }

  /** The old resource is one that is marked with the device, or else one with its old name. */
  lemma LegacyResourceMeans(env: Env, list: seq<Versioned>, bd: Device)
    ensures match LegacyResource(env, list, bd)
            case Some(e) =>
              && e in list
              && if exists x :: x in list && Marked(bd, x.d) then Marked(bd, e.d) else e.d.name == LegacyUuid(env, bd)
            case None => forall x :: x in list ==> !Marked(bd, x.d) && x.d.name != LegacyUuid(env, bd)
  {
    hide LegacyUuid, Annotated;
    var (key, value) := UpgradeKey(bd);
    AnnotatedMeans(list, key, value);
  }

  /** The annotations under which the old resource will be found again. */
  function LegacyAnnotations(bd: Device): map<Annotation, string> {
    if bd.usedBy == LocalPV then map[UuidScheme := "legacy", FsUuid := bd.fsUuid]
    else map[UuidScheme := "legacy", PartitionUuid := bd.partitionTableUuid]
  }

  /**
    A device in use by a local PV or by cStor that has no new resource keeps its old one, or
    gets one with its old name; a new or old resource that is unclaimed is an error, except
    where the old name depends on the path.
    */
  lemma UpgradeOutcome(s: Cluster, env: Env, cache: Cache, list: seq<Versioned>, bd: Device,
                       formatted: bool, t: Cluster, r: AddResult)
    requires Inv(s) && AllLogged(s, list) && bd.inUse && (bd.usedBy == LocalPV || bd.usedBy == CStor)
    requires bd.deviceType == PartitionType ==> bd.parent in cache && !cache[bd.parent].inUse
    requires GenerateUuid(env, bd).Some? ==> !GoesOn(list, bd, GenerateUuid(env, bd).value)
    requires Performed(env, s, Decide(s, env, cache, list, bd), formatted, t, r)
    ensures var u, legacy := GenerateUuid(env, bd), LegacyResource(env, list, bd);
            var named := bd.(uuid := if legacy.Some? then legacy.value.d.name else LegacyUuid(env, bd));
            if || (u.Some? && Named(list, u.value).Some?)
               || (legacy.Some? && legacy.value.d.claimState == Unclaimed && !UsesPath(bd))
               || env.labels(named).None? || !Fresh(s, legacy)
            then t == s && r == Errored
            else
              r == Processed && Stores(env, s, LegacyAnnotations(bd), map[], named, t) && OthersKept(s, named.uuid, t)
  {
    hide Inv, PushWith, Stores, OthersKept, GenerateUuid, LegacyUuid, LegacyResource, Logged, Fresh, UsesPath;
    hide Created, Merged, Identified, TableUuid;
    var u, legacy := GenerateUuid(env, bd), LegacyResource(env, list, bd);
    if !(u.Some? && Named(list, u.value).Some?) &&
       !(legacy.Some? && legacy.value.d.claimState == Unclaimed && !UsesPath(bd)) {
      var named := bd.(uuid := if legacy.Some? then legacy.value.d.name else LegacyUuid(env, bd));
      var (key, value) := UpgradeKey(bd);
      assert LegacyAnnotations(bd) == map[UuidScheme := Selection.LEGACY_SCHEME, key := value];
      PushOutcome(env, s, LegacyAnnotations(bd), named, legacy, formatted, t, r);
    }
  }

  // --- Devices that are not managed --------------------------------------------------

  /** A device in use by Mayastor is left alone. */
  lemma MayastorOutcome(s: Cluster, env: Env, cache: Cache, list: seq<Versioned>, bd: Device,
                        formatted: bool, t: Cluster, r: AddResult)
    requires bd.inUse && bd.usedBy == Mayastor && Performed(env, s, Decide(s, env, cache, list, bd), formatted, t, r)
    ensures t == s && r == Processed
  {}

  /** A partition whose parent is not known is an error, and one whose parent is in use is left alone. */
  lemma ParentDecides(s: Cluster, env: Env, cache: Cache, list: seq<Versioned>, bd: Device,
                      formatted: bool, t: Cluster, r: AddResult)
    requires bd.deviceType == PartitionType && !(bd.inUse && bd.usedBy == Mayastor)
    requires bd.parent in cache ==>
      cache[bd.parent].inUse && (cache[bd.parent].usedBy == ZfsLocalPV || !(bd.inUse && bd.usedBy == ZfsLocalPV))
    requires Performed(env, s, Decide(s, env, cache, list, bd), formatted, t, r)
    ensures t == s && r == if bd.parent in cache then Processed else Errored
  {}

  /** A device that nothing identifies is not stored; a disk of its own without partitions and holders gets a table. */
  lemma NamelessOutcome(s: Cluster, env: Env, cache: Cache, list: seq<Versioned>, bd: Device,
                        formatted: bool, t: Cluster, r: AddResult)
    requires Nameless(env, bd) && !(bd.inUse && Recognised(bd.usedBy))
    requires Performed(env, s, Decide(s, env, cache, list, bd), formatted, t, r)
    ensures t == s
    ensures r == if bd.partitions != [] || bd.holders != [] then Processed
                 else if !formatted then Errored else if env.partitionTableUuid then NeedRescan else Processed
  {
    hide NameOf;
  }

  /** A device in use by ZFS without a partition table is an error. */
  lemma ZfsNeedsTable(s: Cluster, env: Env, cache: Cache, list: seq<Versioned>, bd: Device,
                      formatted: bool, t: Cluster, r: AddResult)
    requires bd.inUse && bd.usedBy == ZfsLocalPV && bd.partitionTableUuid == ""
    requires bd.deviceType == PartitionType ==>
      bd.parent in cache && !(cache[bd.parent].inUse && cache[bd.parent].usedBy == ZfsLocalPV)
    requires Performed(env, s, Decide(s, env, cache, list, bd), formatted, t, r)
    ensures t == s && r == Errored
  {}

  /**
    A device in use by ZFS is stored under the name of its partition table with a tag, so that
    no claim gets it unless its selector names the tag.
    */
  lemma ZfsOutcome(s: Cluster, env: Env, cache: Cache, list: seq<Versioned>, bd: Device, u: string,
                   formatted: bool, t: Cluster, r: AddResult)
    requires Inv(s) && bd.inUse && bd.usedBy == ZfsLocalPV && TableUuid(env, bd) == Some(u)
    requires bd.deviceType == PartitionType ==>
      bd.parent in cache && !(cache[bd.parent].inUse && cache[bd.parent].usedBy == ZfsLocalPV)
    requires Performed(env, s, Decide(s, env, cache, list, bd), formatted, t, r)
    ensures var named := bd.(uuid := u);
            if env.labels(named).None? then t == s && r == Errored
            else
              && r == Processed && OthersKept(s, u, t)
              && Stores(env, s, map[], map[Selection.TAG_LABEL := "zfs-localpv"], named, t)
              && forall spec :: Selection.Eligible(spec, DeviceAt(t, u).value) ==> Selection.MentionsTag(spec.selector)
  {
    hide Inv, Created, Probed, ToDevice, NameOf, Selection.Eligible, Selection.MentionsTag;
    var named, tags := bd.(uuid := u), map[Selection.TAG_LABEL := "zfs-localpv"];
    ToDeviceShows(env, named, map[], tags);
    if env.labels(named).Some? {
      var d := ToDevice(env, named).value;
      assert d.labels + tags == d.labels[Selection.TAG_LABEL := ZFS_TAG];
      assert d.(annotations := map[], labels := d.labels + tags) == d.(labels := d.labels + tags);
      StoreShows(env, s, map[], tags, named, d.(labels := d.labels + tags), None);
      forall spec | Selection.Eligible(spec, DeviceAt(t, u).value) ensures Selection.MentionsTag(spec.selector) {
        TaggedNeedsMention(spec, DeviceAt(t, u).value);
      }
    }
  }

  lemma TaggedNeedsMention(spec: ClaimSpec, d: BlockDevice)
    requires Selection.Eligible(spec, d) && Selection.TAG_LABEL in d.labels
    ensures Selection.MentionsTag(spec.selector)
  {}
}
