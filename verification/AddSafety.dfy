/**
  What an add event may do: which disks it may overwrite, under which name it stores
  a device, and that it never disturbs a claim.
  */
module AddSafety {
  import opened Objects
  import opened Protocol
  import opened Invariant
  import opened ClaimSafety
  import opened DaemonFrame
  import opened Frames
  import opened ApiServer
  import opened Partition
  import opened Daemon
  import opened DaemonStore
  import opened AddHandler
  import Selection

  // --- The destructive step -----------------------------------------------------------

  /** The engines whose devices are recognised. */
  predicate Recognised(e: Engine) {
    e == Mayastor || e == ZfsLocalPV || e == LocalPV || e == CStor
  }

  /** Nothing on the device gives it a name. */
  predicate Nameless(env: Env, bd: Device) {
    && bd.deviceType != LoopType && !IsMapper(bd.deviceType) && bd.deviceType != PartitionType
    && bd.wwn == "" && bd.fsUuid == ""
    && !(env.partitionTableUuid && bd.partitionTableType != "" && bd.partitionTableUuid != "")
  }

  /** Exactly which devices get a table; neither the cache nor the resources matter. */
  lemma GetsTableIff(env: Env, cache: Cache, list: seq<Versioned>, bd: Device)
    ensures GetsTable(env, cache, list, bd) <==>
      !(bd.inUse && Recognised(bd.usedBy)) && Nameless(env, bd) && bd.partitions == [] && bd.holders == []
  {
    hide NameOf, ToDevice, LegacyUuid, LegacyResource, PushWith;
  }

  /** The decision to write a table is taken for exactly these devices. */
  lemma DestroysIff(s: Cluster, env: Env, cache: Cache, list: seq<Versioned>, bd: Device)
    ensures Destroys(Decide(s, env, cache, list, bd)) <==> GetsTable(env, cache, list, bd)
  {
    hide NameOf, Unmanaged, Upgrade, Identified, GenerateUuid;
    StopsDoNotDestroy(env, cache, list, bd);
    if GenerateUuid(env, bd).Some? {
      var named := bd.(uuid := GenerateUuid(env, bd).value);
      IdentifiedDoesNotDestroy(s, env, cache[bd.devPath := named], list, named);
    }
  }

  /** Is it safe to overwrite the disk of this device? */
  predicate Expendable(bd: Device, c: Content) {
    && !bd.inUse && bd.deviceType != LoopType && !IsMapper(bd.deviceType) && bd.deviceType != PartitionType
    && bd.wwn == "" && bd.fsUuid == "" && bd.partitions == [] && bd.holders == [] && Blank(c)
  }

  /**
    If a device in use is marked with an engine that is recognised, then the only disk
    an add event changes is the expendable disk of its own device, which gets a table.
    */
  lemma OnlyExpendableDisksChange(env: Env, cache: Cache, list: seq<Versioned>, bd: Device, disks: map<string, Content>)
    requires bd.inUse ==> Recognised(bd.usedBy)
    ensures var after := DisksAfter(env, cache, list, bd, disks);
            after != disks ==> (
              && bd.devPath in disks && Expendable(bd, disks[bd.devPath])
              && after == disks[bd.devPath := Content(Some(TableFor(env, bd)), "", true)])
  {
    GetsTableIff(env, cache, list, bd);
  }

  /** A blank disk tagged as in use by Jiva.  No probe sets this tag, so only a caller that passes it gets here. */
  const JIVA_DISK := Device("", "/dev/sdb", DiskType, "", "", "", "", "", "", "", "", "", "", true, Jiva, "",
                            [], [], [],
                            1048576000, 512, 512, "SSD", "", [], [])

  /** Without that condition it is not so: called for a disk tagged as in use by Jiva, the handler overwrites it. */
  lemma JivaDeviceIsOverwritten(env: Env)
    ensures var disks := map[JIVA_DISK.devPath := Content(None, "", true)];
            DisksAfter(env, map[], [], JIVA_DISK, disks) != disks && !Expendable(JIVA_DISK, disks[JIVA_DISK.devPath])
  {
    var disks := map[JIVA_DISK.devPath := Content(None, "", true)];
    EngineProtects(env, map[], [], JIVA_DISK, disks);
  }

  /** For a device in use the recognised engines are exactly what protects its blank disk. */
  lemma EngineProtects(env: Env, cache: Cache, list: seq<Versioned>, bd: Device, disks: map<string, Content>)
    requires bd.inUse && Nameless(env, bd) && bd.partitions == [] && bd.holders == []
    requires Formats(disks, bd.devPath, bd.storage)
    ensures DisksAfter(env, cache, list, bd, disks) == disks <==> Recognised(bd.usedBy)
  {
    GetsTableIff(env, cache, list, bd);
    if !Recognised(bd.usedBy) {
      assert disks[bd.devPath] != DisksAfter(env, cache, list, bd, disks)[bd.devPath];
    }
  }

  /** A disk is written at most once: a further add event finds the table. */
  lemma WrittenOnce(env: Env, cache: Cache, list: seq<Versioned>, later: Cache, laterList: seq<Versioned>, bd: Device,
                    disks: map<string, Content>)
    ensures var after := DisksAfter(env, cache, list, bd, disks);
            after != disks ==> DisksAfter(env, later, laterList, bd, after) == after
  {}

  // --- Names ---------------------------------------------------------------------------

  /** A plan stores well-formed new data, and merges only onto logged versions of the resource of the same name. */
  ghost predicate Sound(s: Cluster, plan: Plan)
    decreases plan
  {
    match plan
    case Push(d, existing) =>
      && NewDevice(d) && d.state == Active
      && (existing.Some? ==> Logged(s, existing.value) && existing.value.d.name == d.name)
    case Replace(p, next) => Logged(s, p) && Sound(s, next)
    case _ => true
  }

  lemma PushIsSound(s: Cluster, env: Env, annotations: map<Annotation, string>, bd: Device, existing: Option<Versioned>)
    requires existing.Some? ==> Logged(s, existing.value) && existing.value.d.name == bd.uuid
    ensures Sound(s, PushWith(env, annotations, bd, existing))
  {}

  lemma NamedIsSound(s: Cluster, env: Env, list: seq<Versioned>, bd: Device)
    requires AllLogged(s, list)
    ensures Sound(s, PushWith(env, GptAnnotations(), bd, Named(list, bd.uuid))) && Sound(s, UnlessHeld(env, list, bd))
  {
    hide PushWith, Logged;
    PushIsSound(s, env, GptAnnotations(), bd, Named(list, bd.uuid));
  }

  lemma UpgradeIsSound(s: Cluster, env: Env, list: seq<Versioned>, bd: Device)
    requires AllLogged(s, list) && Upgrade(env, list, bd).Some?
    ensures Sound(s, Upgrade(env, list, bd).value)
  {
    hide PushWith, GenerateUuid, LegacyUuid, Logged;
    var legacy := LegacyResource(env, list, bd);
    var name := if legacy.Some? then legacy.value.d.name else LegacyUuid(env, bd);
    var (key, value) := UpgradeKey(bd);
    PushIsSound(s, env, map[UuidScheme := Selection.LEGACY_SCHEME, key := value], bd.(uuid := name), legacy);
  }

  lemma IdentifiedIsSound(s: Cluster, env: Env, cache: Cache, list: seq<Versioned>, bd: Device)
    requires Inv(s) && AllLogged(s, list)
    ensures Sound(s, Identified(s, env, cache, list, bd))
  {
    hide PushWith, GenerateUuid;
    StoredIsLogged(s);
    hide Inv;
    NamedIsSound(s, env, list, bd);
    if Fetch(s, bd.uuid).Found? {
      PushIsSound(s, env, GptAnnotations(), bd, Some(Versioned(Fetch(s, bd.uuid).v, Fetch(s, bd.uuid).obj)));
    }
  }

  lemma DecisionIsSound(s: Cluster, env: Env, cache: Cache, list: seq<Versioned>, bd: Device)
    requires Inv(s) && AllLogged(s, list)
    ensures Sound(s, Decide(s, env, cache, list, bd))
  {
    hide Inv, Upgrade, Identified, NameOf, GenerateUuid, AllLogged;
    if Upgrade(env, list, bd).Some? { UpgradeIsSound(s, env, list, bd); }
    if GenerateUuid(env, bd).Some? {
      var named := bd.(uuid := GenerateUuid(env, bd).value);
      IdentifiedIsSound(s, env, cache[bd.devPath := named], list, named);
    }
  }

  /** The device a plan stores, if it stores one. */
  function Final(plan: Plan): Option<BlockDevice> {
    match plan
    case Push(d, _) => Some(d)
    case Replace(_, next) => Final(next)
    case _ => None
  }

  /**
    Every stored device says by which scheme it was named, and was: new names come from
    its identity, old ones are kept or computed the old way, ZFS devices are named by
    their partition table.
    */
  ghost predicate NamedRight(env: Env, list: seq<Versioned>, bd: Device, d: BlockDevice) {
    if UuidScheme !in d.annotations then bd.usedBy == ZfsLocalPV && bd.inUse && TableUuid(env, bd) == Some(d.name)
    else if d.annotations[UuidScheme] == GPT then GenerateUuid(env, bd) == Some(d.name)
    else (
      && d.annotations[UuidScheme] == Selection.LEGACY_SCHEME && bd.inUse
      && d.name == match LegacyResource(env, list, bd) case Some(e) => e.d.name case None => LegacyUuid(env, bd))
  }

  lemma PushNames(env: Env, annotations: map<Annotation, string>, bd: Device, existing: Option<Versioned>)
    ensures var p := Final(PushWith(env, annotations, bd, existing));
            p.Some? ==> p.value.name == bd.uuid && p.value.annotations == annotations
  {}

  lemma IdentifiedNames(s: Cluster, env: Env, cache: Cache, list: seq<Versioned>, bd: Device)
    ensures var p := Final(Identified(s, env, cache, list, bd));
            p.Some? ==> p.value.name == bd.uuid && p.value.annotations == GptAnnotations()
  {
    hide PushWith, GenerateUuid;
    PushNames(env, GptAnnotations(), bd, Named(list, bd.uuid));
    if Fetch(s, bd.uuid).Found? {
      PushNames(env, GptAnnotations(), bd, Some(Versioned(Fetch(s, bd.uuid).v, Fetch(s, bd.uuid).obj)));
    }
  }

  lemma UpgradeNames(env: Env, list: seq<Versioned>, bd: Device)
    requires Upgrade(env, list, bd).Some?
    ensures var p := Final(Upgrade(env, list, bd).value); p.Some? ==>
      && bd.inUse && UuidScheme in p.value.annotations && p.value.annotations[UuidScheme] == Selection.LEGACY_SCHEME
      && p.value.name == match LegacyResource(env, list, bd) case Some(e) => e.d.name case None => LegacyUuid(env, bd)
  {
    hide PushWith, GenerateUuid, LegacyUuid, LegacyResource;
    var legacy := LegacyResource(env, list, bd);
    var name := if legacy.Some? then legacy.value.d.name else LegacyUuid(env, bd);
    var (key, value) := UpgradeKey(bd);
    PushNames(env, map[UuidScheme := Selection.LEGACY_SCHEME, key := value], bd.(uuid := name), legacy);
  }

  lemma UnmanagedNames(env: Env, cache: Cache, bd: Device)
    requires Unmanaged(env, cache, bd).Some?
    ensures var p := Final(Unmanaged(env, cache, bd).value); p.Some? ==>
      && UuidScheme !in p.value.annotations && bd.usedBy == ZfsLocalPV && bd.inUse
      && TableUuid(env, bd) == Some(p.value.name)
  {
    hide TableUuid;
  }

  lemma StoredUnderItsName(s: Cluster, env: Env, cache: Cache, list: seq<Versioned>, bd: Device)
    ensures var p := Final(Decide(s, env, cache, list, bd)); p.Some? ==> NamedRight(env, list, bd, p.value)
  {
    hide Unmanaged, Upgrade, Identified, NameOf, GenerateUuid, LegacyResource, LegacyUuid, TableUuid;
    SchemesDiffer();
    if Unmanaged(env, cache, bd).Some? { UnmanagedNames(env, cache, bd); }
    if Upgrade(env, list, bd).Some? { UpgradeNames(env, list, bd); }
    if GenerateUuid(env, bd).Some? {
      var named := bd.(uuid := GenerateUuid(env, bd).value);
      IdentifiedNames(s, env, cache[bd.devPath := named], list, named);
    }
  }

  lemma SchemesDiffer()
    ensures Selection.LEGACY_SCHEME != GPT
  {
    assert |Selection.LEGACY_SCHEME| != |GPT|;
  }

  // --- When a resource is made or retired ---------------------------------------------------

  /** The parent of a partition stands in nobody's way: nameless, without resource, or unclaimed. */
  ghost predicate ParentYields(s: Cluster, env: Env, parent: Device) {
    match GenerateUuid(env, parent)
    case None => true
    case Some(u) => Fetch(s, u).NotFound? || Fetch(s, u).obj.claimState == Unclaimed
  }

  /**
    A resource with a new name is made only for a device without partitions and holders,
    or for a partition whose parent is cached, not in use and yields.  The one exception
    to the holders: where the parent is retired, the partition's holders are not looked at.
    */
  lemma NewResourceOnlyIf(s: Cluster, env: Env, cache: Cache, list: seq<Versioned>, bd: Device, d: BlockDevice)
    requires Final(Decide(s, env, cache, list, bd)) == Some(d) && d.annotations == GptAnnotations()
    requires Fetch(s, d.name).NotFound?
    ensures bd.deviceType != PartitionType ==> bd.partitions == [] && bd.holders == []
    ensures bd.deviceType == PartitionType ==> (
      var after := CacheAfter(env, cache, list, bd);
      bd.parent in cache && !cache[bd.parent].inUse && bd.parent in after && ParentYields(s, env, after[bd.parent]))
    ensures bd.holders != [] ==> Decide(s, env, cache, list, bd).Replace?
  {
    hide NameOf, Identity, Upgrade, Unmanaged, Identified, ToDevice;
    SchemesDiffer();
    if Unmanaged(env, cache, bd).Some? {
      UnmanagedNames(env, cache, bd);
    } else if Upgrade(env, list, bd).Some? {
      UpgradeNames(env, list, bd);
    } else {
      if bd.deviceType == PartitionType { ManagedHasParent(env, cache, bd); }
      var named := bd.(uuid := GenerateUuid(env, bd).value);
      IdentifiedNames(s, env, cache[bd.devPath := named], list, named);
      IdentifiedNew(s, env, cache[bd.devPath := named], list, named);
    }
  }

  lemma IdentifiedNew(s: Cluster, env: Env, cache: Cache, list: seq<Versioned>, bd: Device)
    requires Fetch(s, bd.uuid).NotFound? && Final(Identified(s, env, cache, list, bd)).Some?
    ensures bd.deviceType != PartitionType ==> bd.partitions == [] && bd.holders == []
    ensures bd.deviceType == PartitionType ==> bd.parent in cache && ParentYields(s, env, cache[bd.parent])
    ensures bd.holders != [] ==> Identified(s, env, cache, list, bd).Replace?
  {
    hide NameOf, Identity, ToDevice, Fetch;
  }

  /** Only the unclaimed parent of a partition is ever retired by an add event. */
  lemma RetiredIsUnclaimed(s: Cluster, env: Env, cache: Cache, list: seq<Versioned>, bd: Device)
    ensures var plan := Decide(s, env, cache, list, bd);
            plan.Replace? ==>
              plan.parent.d.claimState == Unclaimed && bd.deviceType == PartitionType && !plan.next.Replace?
  {
    hide NameOf, Identity, ToDevice, LegacyUuid, LegacyResource;
  }

  /**
    A device in use by a local PV or by cStor gets a resource under its new name only if
    the list already holds one, claimed; so it never has two.
    */
  lemma InUseKeepsItsResource(s: Cluster, env: Env, cache: Cache, list: seq<Versioned>, bd: Device, d: BlockDevice)
    requires bd.inUse && (bd.usedBy == LocalPV || bd.usedBy == CStor)
    requires Final(Decide(s, env, cache, list, bd)) == Some(d) && d.annotations == GptAnnotations()
    ensures Named(list, d.name).Some? && Named(list, d.name).value.d.claimState != Unclaimed
  {
    hide NameOf, Identity, Identified, ToDevice, Unmanaged, LegacyUuid, LegacyResource;
    SchemesDiffer();
    if Unmanaged(env, cache, bd).Some? {
      UnmanagedNames(env, cache, bd);
    } else if Upgrade(env, list, bd).Some? {
      UpgradeNames(env, list, bd);
    } else {
      var named := bd.(uuid := GenerateUuid(env, bd).value);
      IdentifiedNames(s, env, cache[bd.devPath := named], list, named);
    }
  }

  // --- Effects ---------------------------------------------------------------------------

  /** Every device that existed still exists with its claim data. */
  ghost predicate ClaimsUndisturbed(s: Cluster, t: Cluster) {
    forall b :: DeviceAt(s, b).Some? ==>
      DeviceAt(t, b).Some? && ClaimDataKept(DeviceAt(s, b).value, DeviceAt(t, b).value)
  }

  lemma DaemonActionUndisturbing(s: Cluster, a: Action)
    requires Inv(s) && DaemonAction(a) && Guard(Any, s, a)
    ensures Inv(Next(s, a)) && ClaimsUndisturbed(s, Next(s, a)) && Extends(s.deviceLog, Next(s, a).deviceLog)
  {
    hide Inv, Guard, Next, DeviceAt, ClaimDataKept;
    var t := Next(s, a);
    assert DaemonStep(s, t);
    StepKeepsInv(s, a);
    forall b | DeviceAt(s, b).Some?
      ensures DeviceAt(t, b).Some? && ClaimDataKept(DeviceAt(s, b).value, DeviceAt(t, b).value)
    {
      DaemonStepKeepsClaimData(s, t, b);
    }
    LogGrows(s, a);
  }

  lemma MergedUndisturbing(s: Cluster, d: BlockDevice, e: Versioned)
    requires Inv(s) && NewDevice(d) && Logged(s, e)
    ensures Inv(Merged(s, d, e)) && ClaimsUndisturbed(s, Merged(s, d, e))
    ensures Extends(s.deviceLog, Merged(s, d, e).deviceLog)
  {
    hide Inv, Guard, Next, Merged, ClaimsUndisturbed, Logged;
    MergeMeans(Any, s, d, e);
    DaemonActionUndisturbing(s, DaemonMerge(d, e.v));
  }

  lemma DeactivatedUndisturbing(s: Cluster, e: Versioned)
    requires Inv(s) && Logged(s, e)
    ensures Inv(Deactivated(s, e)) && ClaimsUndisturbed(s, Deactivated(s, e))
    ensures Extends(s.deviceLog, Deactivated(s, e).deviceLog)
  {
    hide Inv, Guard, Next, ClaimsUndisturbed, Logged;
    SetStateMeans(Any, s, e, Inactive);
    DaemonActionUndisturbing(s, DaemonSetState(e.v, Inactive));
  }

  lemma CreatedUndisturbing(s: Cluster, d: BlockDevice)
    requires Inv(s) && NewDevice(d)
    ensures Inv(Created(s, d)) && ClaimsUndisturbed(s, Created(s, d)) && Extends(s.deviceLog, Created(s, d).deviceLog)
  {
    hide Guard, Next, ClaimsUndisturbed, Extends, Merge, StoreDevice, NewDevice;
    StoredIsLogged(s);
    hide Inv;
    if d.name in s.devices {
      var e := Versioned(s.devices[d.name], s.deviceLog[s.devices[d.name]]);
      assert Merged(s, d, e) == Created(s, d);
      MergedUndisturbing(s, d, e);
    } else {
      CreateMeans(s, d);
      CreateGuard(s, d);
      DaemonActionUndisturbing(s, DaemonCreate(d));
    }
  }

  lemma CreateGuard(s: Cluster, d: BlockDevice)
    requires NewDevice(d)
    ensures Guard(Any, s, DaemonCreate(d))
  {}

  /** An add event that runs to its end keeps the invariant and disturbs no claim. */
  lemma {:induction false} PlanUndisturbing(env: Env, s: Cluster, plan: Plan, formatted: bool, t: Cluster, r: AddResult)
    requires Inv(s) && Sound(s, plan) && Performed(env, s, plan, formatted, t, r)
    ensures Inv(t) && ClaimsUndisturbed(s, t) && Extends(s.deviceLog, t.deviceLog)
    decreases plan
  {
    hide Inv, Created, Merged, Deactivated, ClaimDataKept, DeviceAt;
    match plan
    case Push(d, None) => CreatedUndisturbing(s, d);
    case Push(d, Some(e)) => MergedUndisturbing(s, d, e);
    case Replace(p, next) =>
      var m := Deactivated(s, p);
      DeactivatedUndisturbing(s, p);
      SoundStays(s, m, next);
      PlanUndisturbing(env, m, next, formatted, t, r);
      KeptTogether(s, m, t);
    case _ => KeptAnyway(s);
  }

  lemma KeptAnyway(s: Cluster)
    ensures ClaimsUndisturbed(s, s)
  {}

  lemma KeptTogether(s: Cluster, m: Cluster, t: Cluster)
    requires ClaimsUndisturbed(s, m) && ClaimsUndisturbed(m, t)
    ensures ClaimsUndisturbed(s, t)
  {
    hide DeviceAt;
  }

  lemma {:induction false} SoundStays(s: Cluster, t: Cluster, plan: Plan)
    requires Sound(s, plan) && Extends(s.deviceLog, t.deviceLog)
    ensures Sound(t, plan)
    decreases plan
  {
    if plan.Replace? { SoundStays(s, t, plan.next); }
  }

  lemma AddDisturbsNoClaim(s: Cluster, env: Env, cache: Cache, list: seq<Versioned>, bd: Device, formatted: bool,
                           t: Cluster, r: AddResult)
    requires Inv(s) && AllLogged(s, list) && Performed(env, s, Decide(s, env, cache, list, bd), formatted, t, r)
    ensures Inv(t) && ClaimsUndisturbed(s, t)
  {
    hide Inv, Decide, Performed, Sound, AllLogged, ClaimsUndisturbed;
    DecisionIsSound(s, env, cache, list, bd);
    PlanUndisturbing(env, s, Decide(s, env, cache, list, bd), formatted, t, r);
  }

  // --- Storing again ---------------------------------------------------------------------

  /** After a successful store the resource is there and active. */
  lemma StoredIsActive(s: Cluster, d: BlockDevice, existing: Option<Versioned>)
    requires Inv(s) && Sound(s, Push(d, existing)) && (existing.Some? ==> IsCurrent(s, existing.value))
    ensures var t := if existing.Some? then Merged(s, d, existing.value) else Created(s, d);
            DeviceAt(t, d.name).Some? && DeviceAt(t, d.name).value.state == Active &&
            (forall b :: b != d.name ==> DeviceAt(t, b) == DeviceAt(s, b)) &&
            match DeviceAt(s, d.name)
            case Some(x) => DeviceAt(t, d.name).value == Merge(d, x) && Refreshed(d, x, DeviceAt(t, d.name).value)
            case None => DeviceAt(t, d.name).value == d
  {
    hide Merge, StoreDevice, Monotone, Backed, IntentsOk, SessionsOk, ClaimsStored, Refreshed;
    if DeviceAt(s, d.name).Some? { MergeRefreshes(d, DeviceAt(s, d.name).value); }
    var w := match DeviceAt(s, d.name) case Some(x) => Merge(d, x) case None => d;
    MergeStays(d, s);
    forall b { StoreDeviceAt(s, w, b); }
  }

  lemma MergeStays(d: BlockDevice, s: Cluster)
    requires Inv(s) && NewDevice(d) && d.state == Active
    ensures DeviceAt(s, d.name).Some? ==> (
      var x := DeviceAt(s, d.name).value;
      Merge(d, x).name == d.name && Merge(d, x).state == Active && AfterWrite(Merge(d, x)) == Some(Merge(d, x)))
    ensures AfterWrite(d) == Some(d)
  {
    hide Monotone, Backed, IntentsOk, SessionsOk, ClaimsStored;
  }

  /** Storing the same probe result again leaves every resource as it is. */
  lemma StoringAgainChangesNothing(s: Cluster, d: BlockDevice, first: Option<Versioned>, t: Cluster,
                                   again: Option<Versioned>, u: Cluster, b: string)
    requires Inv(s) && Sound(s, Push(d, first)) && (first.Some? ==> IsCurrent(s, first.value))
    requires t == if first.Some? then Merged(s, d, first.value) else Created(s, d)
    requires Sound(t, Push(d, again)) && (again.Some? ==> IsCurrent(t, again.value))
    requires u == if again.Some? then Merged(t, d, again.value) else Created(t, d)
    ensures DeviceAt(u, b) == DeviceAt(t, b)
  {
    hide Inv, Merged, Created, Merge, DeviceAt, Logged, IsCurrent, Refreshed;
    if first.Some? { MergedUndisturbing(s, d, first.value); } else { CreatedUndisturbing(s, d); }
    StoredIsActive(s, d, first);
    StoredIsActive(t, d, again);
    MergeTwice(d, DeviceAt(s, d.name));
  }

  lemma MergeTwice(d: BlockDevice, x: Option<BlockDevice>)
    requires NewDevice(d) && d.state == Active
    ensures var y := match x case Some(z) => Merge(d, z) case None => d; Merge(d, y) == y
  {
    match x
    case Some(z) => MergeIsIdempotent(d, z);
    case None =>
      assert d.labels + d.labels == d.labels && d.annotations + d.annotations == d.annotations;
  }
}
