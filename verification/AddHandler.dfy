/**
  What the daemon does when a device appears.  The decision tree is a function of
  the probed device, the cache, the list of resources and the stored resources; the
  methods carry the decision out step by step.
  */
module AddHandler {
  import opened Objects
  import opened Protocol
  import opened Invariant
  import opened Interference
  import opened ApiServer
  import opened Partition
  import opened Daemon
  import opened DaemonStore
  import Selection

  type Cache = map<string, Device>

  const GPT := "gpt"
  const ZFS_TAG := "zfs-localpv"

  datatype AddResult = Processed | NeedRescan | Errored

  function Outcome(err: bool): AddResult {
    if err then Errored else Processed
  }

  // --- The decision ------------------------------------------------------------------

  /** What an add event leads to. */
  datatype Plan =
    | Stop(error: bool)
    | WriteTable
    | Push(d: BlockDevice, existing: Option<Versioned>)
    | Replace(parent: Versioned, next: Plan)

  /** Store the device with these annotations, on top of an existing resource if there is one. */
  function PushWith(env: Env, annotations: map<Annotation, string>, bd: Device, existing: Option<Versioned>): Plan {
    match ToDevice(env, bd)
    case None => Stop(true)
    case Some(d) => Push(d.(annotations := annotations), existing)
  }

  function GptAnnotations(): map<Annotation, string> {
    map[UuidScheme := GPT]
  }

  /** Mayastor and ZFS devices are not managed; None means that processing goes on. */
  function Unmanaged(env: Env, cache: Cache, bd: Device): Option<Plan> {
    if bd.inUse && bd.usedBy == Mayastor then Some(Stop(false))
    else if bd.deviceType == PartitionType && bd.parent !in cache then Some(Stop(true))
    else if bd.deviceType == PartitionType && cache[bd.parent].inUse && cache[bd.parent].usedBy == ZfsLocalPV
      then Some(Stop(false))
    else if !(bd.inUse && bd.usedBy == ZfsLocalPV) then None
    else match TableUuid(env, bd)
      case None => Some(Stop(true))
      case Some(u) => Some(ZfsPush(env, bd.(uuid := u)))
  }

  /** The resource of a ZFS device carries a tag. */
  function ZfsPush(env: Env, bd: Device): Plan {
    match ToDevice(env, bd)
    case None => Stop(true)
    case Some(d) => Push(d.(labels := d.labels[Selection.TAG_LABEL := ZFS_TAG]), None)
  }

  predicate ParentInUse(cache: Cache, bd: Device) {
    bd.deviceType == PartitionType && bd.parent in cache && cache[bd.parent].inUse
  }

  /** The resource that carries this value of an annotation. */
  function Annotated(list: seq<Versioned>, key: Annotation, value: string): (r: Option<Versioned>)
    ensures r.Some? ==> r.value in list
  {
    if value == "" || list == [] then None
    else if key in list[0].d.annotations && list[0].d.annotations[key] == value then Some(list[0])
    else Annotated(list[1..], key, value)
  }

  /** The annotation of the resource has this value, which is not empty. */
  predicate HasMark(d: BlockDevice, key: Annotation, value: string) {
    value != "" && key in d.annotations && d.annotations[key] == value
  }

  lemma {:induction false} AnnotatedMeans(list: seq<Versioned>, key: Annotation, value: string)
    ensures var r := Annotated(list, key, value);
            if r.Some? then HasMark(r.value.d, key, value) else forall e :: e in list ==> !HasMark(e.d, key, value)
  {
    if list != [] && value != "" { AnnotatedMeans(list[1..], key, value); }
  }

  /** What identifies a device in use by an engine that is upgraded. */
  function UpgradeKey(bd: Device): (Annotation, string) {
    if bd.usedBy == LocalPV then (FsUuid, bd.fsUuid) else (PartitionUuid, bd.partitionTableUuid)
  }

  /** The old resource of a device in use: found by annotation, else by its old name. */
  function LegacyResource(env: Env, list: seq<Versioned>, bd: Device): (r: Option<Versioned>)
    ensures r.Some? ==> r.value in list
  {
    var (key, value) := UpgradeKey(bd);
    var byAnnotation := Annotated(list, key, value);
    if byAnnotation.Some? then byAnnotation else Named(list, LegacyUuid(env, bd))
  }

  /** Devices in use by a local PV or by cStor keep their old resource, unless they already have a new one. */
  function Upgrade(env: Env, list: seq<Versioned>, bd: Device): Option<Plan> {
    if !(bd.inUse && (bd.usedBy == LocalPV || bd.usedBy == CStor)) then None
    else
      var u := GenerateUuid(env, bd);
      var existing := if u.Some? then Named(list, u.value) else None;
      if existing.Some? then (if existing.value.d.claimState != Unclaimed then None else Some(Stop(true)))
      else
        var legacy := LegacyResource(env, list, bd);
        if legacy.Some? && legacy.value.d.claimState == Unclaimed && !UsesPath(bd) then Some(Stop(true))
        else
          var name := if legacy.Some? then legacy.value.d.name else LegacyUuid(env, bd);
          var (key, value) := UpgradeKey(bd);
          Some(PushWith(env, map[UuidScheme := Selection.LEGACY_SCHEME, key := value], bd.(uuid := name), legacy))
  }

  function UnlessHeld(env: Env, list: seq<Versioned>, bd: Device): Plan {
    if bd.holders != [] then Stop(false) else PushWith(env, GptAnnotations(), bd, Named(list, bd.uuid))
  }

  ghost function Fetch(s: Cluster, name: string): Fetched<BlockDevice> {
    if name in s.devices && s.devices[name] in s.deviceLog then Found(s.devices[name], s.deviceLog[s.devices[name]])
      else NotFound
  }

  /** A partition without a resource: its parent decides. */
  ghost function NewPartition(s: Cluster, env: Env, parent: Device, list: seq<Versioned>, bd: Device): Plan {
    match GenerateUuid(env, parent)
    case None => UnlessHeld(env, list, bd)
    case Some(u) =>
      match Fetch(s, u)
      case Failed => Stop(true)
      case NotFound => UnlessHeld(env, list, bd)
      case Found(v, p) =>
        if p.claimState != Unclaimed then Stop(false)
        else Replace(Versioned(v, p), PushWith(env, GptAnnotations(), bd, Named(list, bd.uuid)))
  }

  /** A device with a name. */
  ghost function Identified(s: Cluster, env: Env, cache: Cache, list: seq<Versioned>, bd: Device): Plan {
    match Fetch(s, bd.uuid)
    case Failed => Stop(true)
    case NotFound =>
      if bd.deviceType == PartitionType then
        (if bd.parent in cache then NewPartition(s, env, cache[bd.parent], list, bd) else Stop(true))
      else if bd.partitions != [] then Stop(false)
      else UnlessHeld(env, list, bd)
    case Found(v, d) =>
      PushWith(env, GptAnnotations(), bd, if d.claimState != Unclaimed then Some(Versioned(v, d))
        else Named(list, bd.uuid))
  }

  ghost function Decide(s: Cluster, env: Env, cache: Cache, list: seq<Versioned>, bd: Device): Plan {
    var unmanaged := Unmanaged(env, cache, bd);
    if unmanaged.Some? then unmanaged.value
    else if ParentInUse(cache, bd) then Stop(false)
    else
      var upgrade := Upgrade(env, list, bd);
      if upgrade.Some? then upgrade.value
      else match GenerateUuid(env, bd)
        case None => if bd.partitions != [] || bd.holders != [] then Stop(false) else WriteTable
        case Some(u) => var named := bd.(uuid := u); Identified(s, env, cache[bd.devPath := named], list, named)
  }

  /** Does processing get as far as naming the device? */
  predicate Proceeds(env: Env, cache: Cache, list: seq<Versioned>, bd: Device) {
    Unmanaged(env, cache, bd).None? && !ParentInUse(cache, bd) && Upgrade(env, list, bd).None?
  }

  /** The cache afterwards: a device that gets a name is cached with it. */
  function CacheAfter(env: Env, cache: Cache, list: seq<Versioned>, bd: Device): Cache {
    if Proceeds(env, cache, list, bd) && GenerateUuid(env, bd).Some?
    then cache[bd.devPath := bd.(uuid := GenerateUuid(env, bd).value)] else cache
  }

  /** The devices that get a partition table, if their disk is blank. */
  predicate GetsTable(env: Env, cache: Cache, list: seq<Versioned>, bd: Device) {
    Proceeds(env, cache, list, bd) && GenerateUuid(env, bd).None? && bd.partitions == [] && bd.holders == []
  }

  function TableFor(env: Env, bd: Device): Table {
    var lbs := BlockSize(bd.logicalBlockSize);
    Table(Signed(lbs), true, if env.partitionTableUuid then [] else [FirstExtent(bd.storage, lbs)])
  }

  function DisksAfter(env: Env, cache: Cache, list: seq<Versioned>, bd: Device,
                      disks: map<string, Content>): map<string, Content> {
    if GetsTable(env, cache, list, bd) && Formats(disks, bd.devPath, bd.storage)
    then disks[bd.devPath := disks[bd.devPath].(table := Some(TableFor(env, bd)))] else disks
  }

  /** The effect of a plan on the stored resources; `formatted` says whether a table was written. */
  ghost predicate Performed(env: Env, s: Cluster, plan: Plan, formatted: bool, t: Cluster, r: AddResult)
    decreases plan
  {
    match plan
    case Stop(err) => t == s && r == Outcome(err)
    case WriteTable => t == s && r == if !formatted then Errored else if env.partitionTableUuid then NeedRescan
      else Processed
    case Push(d, None) => t == Created(s, d) && r == Processed
    case Push(d, Some(e)) => t == Merged(s, d, e) && r == Outcome(!IsCurrent(s, e))
    case Replace(p, next) => Performed(env, Deactivated(s, p), next, formatted, t, r)
  }

  /** Does the plan write to the disk? */
  predicate Destroys(plan: Plan) {
    match plan
    case WriteTable => true
    case Replace(_, next) => Destroys(next)
    case _ => false
  }

  lemma FormattedIrrelevant(env: Env, s: Cluster, plan: Plan, formatted: bool, t: Cluster, r: AddResult)
    requires !Destroys(plan) && Performed(env, s, plan, false, t, r)
    ensures Performed(env, s, plan, formatted, t, r)
    decreases plan
  {
    if plan.Replace? { FormattedIrrelevant(env, Deactivated(s, plan.parent), plan.next, formatted, t, r); }
  }

  lemma StopsDoNotDestroy(env: Env, cache: Cache, list: seq<Versioned>, bd: Device)
    ensures Unmanaged(env, cache, bd).Some? ==> !Destroys(Unmanaged(env, cache, bd).value)
    ensures Upgrade(env, list, bd).Some? ==> !Destroys(Upgrade(env, list, bd).value)
  {
    hide ToDevice, LegacyUuid, GenerateUuid, LegacyResource, UpgradeKey, TableUuid;
  }

  lemma IdentifiedDoesNotDestroy(s: Cluster, env: Env, cache: Cache, list: seq<Versioned>, bd: Device)
    ensures !Destroys(Identified(s, env, cache, list, bd))
  {
    hide ToDevice, GenerateUuid, Fetch;
  }

  // --- Carrying it out ------------------------------------------------------------------

  method CreateOrUpdateWithAnnotation(pe: Controller, annotations: map<Annotation, string>, bd: Device,
                                      existing: Option<Versioned>)
    returns (err: bool)
    requires pe.api.Valid() && (existing.Some? ==> Logged(pe.api.View(), existing.value))
    modifies pe.api
    ensures pe.api.Valid() && old(pe.api.hist) <= pe.api.hist && Extends(old(pe.api.deviceLog), pe.api.deviceLog)
    ensures pe.api.quiet ==>
      var plan := PushWith(pe.env, annotations, bd, existing);
      Performed(pe.env, old(pe.api.View()), plan, false, pe.api.View(), Outcome(err))
  {
    hide Inv, IsRun, Created, Merged, IsCurrent;
    var bdAPI := ToDevice(pe.env, bd);
    if bdAPI.None? {
      return true;
    }
    var d := bdAPI.value.(annotations := annotations);
    if existing.Some? {
      var u := UpdateBlockDevice(pe.api, d, existing);
      err := !u.Updated?;
    } else {
      err := CreateBlockDevice(pe.api, d);
    }
  }

  /** Mayastor devices are left alone, ZFS devices are stored with a tag; otherwise go on. */
  method HandleUnmanagedDevices(pe: Controller, bd: Device) returns (goOn: bool, err: bool)
    requires pe.api.Valid()
    modifies pe.api
    ensures pe.api.Valid() && old(pe.api.hist) <= pe.api.hist && Extends(old(pe.api.deviceLog), pe.api.deviceLog)
    ensures goOn && !err <==> Unmanaged(pe.env, pe.hierarchy, bd).None?
    ensures goOn && !err ==> pe.api.View() == old(pe.api.View())
    ensures pe.api.quiet && !(goOn && !err) ==>
      var plan := Unmanaged(pe.env, pe.hierarchy, bd).value;
      Performed(pe.env, old(pe.api.View()), plan, false, pe.api.View(), Outcome(err))
  {
    hide Inv, IsRun, Created, Merged, IsCurrent, NameOf;
    if bd.inUse && bd.usedBy == Mayastor {
      return false, false;
    }
    if bd.deviceType == PartitionType {
      if bd.parent !in pe.hierarchy {
        return false, true;
      }
      var parent := pe.hierarchy[bd.parent];
      if parent.inUse && parent.usedBy == ZfsLocalPV {
        return false, false;
      }
    }
    if !bd.inUse {
      return true, false;
    }
    if bd.usedBy != ZfsLocalPV {
      return true, false;
    }
    var uuid := TableUuid(pe.env, bd);
    if uuid.None? {
      return false, true;
    }
    var bdAPI := ToDevice(pe.env, bd.(uuid := uuid.value));
    if bdAPI.None? {
      return true, true;
    }
    err := CreateBlockDevice(pe.api, bdAPI.value.(labels := bdAPI.value.labels[Selection.TAG_LABEL := ZFS_TAG]));
    goOn := false;
  }

  method GetExistingBDWithAnnotation(list: seq<Versioned>, key: Annotation, value: string)
    returns (r: Option<Versioned>)
    ensures r == Annotated(list, key, value)
  {
    if |value| == 0 {
      return None;
    }
    assert list[0..] == list;
    for i := 0 to |list|
      invariant Annotated(list, key, value) == Annotated(list[i..], key, value)
    {
      assert list[i..][1..] == list[i + 1..];
      if key !in list[i].d.annotations {
        continue;
      }
      if list[i].d.annotations[key] == value {
        return Some(list[i]);
      }
    }
    r := None;
  }

  /** Bring the old resource of a device in use up to date, or go on if it has a new one. */
  method UpgradeBD(pe: Controller, bd: Device, list: seq<Versioned>) returns (goOn: bool, err: bool)
    requires pe.api.Valid() && AllLogged(pe.api.View(), list)
    modifies pe.api
    ensures pe.api.Valid() && old(pe.api.hist) <= pe.api.hist && Extends(old(pe.api.deviceLog), pe.api.deviceLog)
    ensures (goOn ==> !err) && (goOn <==> Upgrade(pe.env, list, bd).None?)
    ensures goOn ==> pe.api.View() == old(pe.api.View())
    ensures pe.api.quiet && !goOn ==>
      Performed(pe.env, old(pe.api.View()), Upgrade(pe.env, list, bd).value, false, pe.api.View(), Outcome(err))
  {
    hide Inv, IsRun, Performed, PushWith, GenerateUuid, LegacyUuid, UsesPath, Logged;
    if !bd.inUse {
      return true, false;
    }
    if bd.usedBy == LocalPV || bd.usedBy == CStor {
      var uuid := GenerateUuid(pe.env, bd);
      if uuid.Some? {
        var existing := GetExistingBlockDeviceResource(list, uuid.value);
        if existing.Some? {
          if existing.value.d.claimState != Unclaimed {
            return true, false;
          }
          StopPerformed(pe.env, pe.api.View(), false, true);
          return false, true;
        }
      }
      var legacyUuid, isVirt := LegacyUuid(pe.env, bd), UsesPath(bd);
      var legacy := GetExistingBlockDeviceResource(list, legacyUuid);
      var (key, value) := UpgradeKey(bd);
      var annotated := GetExistingBDWithAnnotation(list, key, value);
      if annotated.Some? {
        legacy := annotated;
      }
      var annotations := map[UuidScheme := Selection.LEGACY_SCHEME, key := value];
      goOn := false;
      if legacy.None? {
        err := CreateOrUpdateWithAnnotation(pe, annotations, bd.(uuid := legacyUuid), None);
      } else if legacy.value.d.claimState != Unclaimed || isVirt {
        err := CreateOrUpdateWithAnnotation(pe, annotations, bd.(uuid := legacy.value.d.name), legacy);
      } else {
        StopPerformed(pe.env, pe.api.View(), false, true);
        err := true;
      }
      return;
    }
    return true, false;
  }

  lemma StopPerformed(env: Env, s: Cluster, formatted: bool, err: bool)
    ensures Performed(env, s, Stop(err), formatted, s, Outcome(err))
  {}

  method IsParentDeviceInUse(pe: Controller, bd: Device) returns (inUse: bool, err: bool)
    ensures err == (bd.deviceType == PartitionType && bd.parent !in pe.hierarchy)
    ensures !err ==> inUse == ParentInUse(pe.hierarchy, bd)
  {
    if bd.deviceType != PartitionType {
      return false, false;
    }
    if bd.parent !in pe.hierarchy {
      return false, true;
    }
    return pe.hierarchy[bd.parent].inUse, false;
  }

  /** Put the device into the cache; says whether it was there. */
  method AddBlockDeviceToHierarchyCache(pe: Controller, bd: Device) returns (existed: bool)
    modifies pe
    ensures pe.hierarchy == old(pe.hierarchy)[bd.devPath := bd] && existed == (bd.devPath in old(pe.hierarchy))
  {
    existed := bd.devPath in pe.hierarchy;
    pe.hierarchy := pe.hierarchy[bd.devPath := bd];
  }

  method CreateUnlessHeld(pe: Controller, bd: Device, list: seq<Versioned>) returns (err: bool)
    requires pe.api.Valid() && AllLogged(pe.api.View(), list)
    modifies pe.api
    ensures pe.api.Valid() && old(pe.api.hist) <= pe.api.hist && Extends(old(pe.api.deviceLog), pe.api.deviceLog)
    ensures pe.api.quiet ==>
      Performed(pe.env, old(pe.api.View()), UnlessHeld(pe.env, list, bd), false, pe.api.View(), Outcome(err))
  {
    hide Inv, IsRun, PushWith, Logged;
    if |bd.holders| > 0 {
      return false;
    }
    var existing := GetExistingBlockDeviceResource(list, bd.uuid);
    err := CreateOrUpdateWithAnnotation(pe, GptAnnotations(), bd, existing);
  }

  /** Write a partition table to a disk that nothing identifies, unless it has partitions or holders. */
  method FormatDisk(pe: Controller, bd: Device) returns (r: AddResult)
    modifies pe.host
    ensures bd.partitions != [] || bd.holders != [] ==> r == Processed && pe.host.disks == old(pe.host.disks)
    ensures bd.partitions == [] && bd.holders == [] ==> (
      var disks := old(pe.host.disks);
      var formatted := Formats(disks, bd.devPath, bd.storage);
      && Performed(pe.env, EMPTY, WriteTable, formatted, EMPTY, r)
      && pe.host.disks == if formatted then disks[bd.devPath := disks[bd.devPath].(table := Some(TableFor(pe.env, bd)))]
        else disks)
  {
    if |bd.partitions| > 0 || |bd.holders| > 0 {
      return Processed;
    }
    var d := new Partition.Disk(pe.host, bd.devPath, bd.storage, bd.logicalBlockSize);
    if pe.env.partitionTableUuid {
      var err := d.CreatePartitionTable();
      return if err then Errored else NeedRescan;
    }
    var err := d.CreateSinglePartition();
    return Outcome(err);
  }

  /** A partition that has no resource yet. */
  method AddNewPartition(pe: Controller, bd: Device, list: seq<Versioned>) returns (err: bool)
    requires pe.api.Valid() && AllLogged(pe.api.View(), list)
    modifies pe.api
    ensures pe.api.Valid() && old(pe.api.hist) <= pe.api.hist && Extends(old(pe.api.deviceLog), pe.api.deviceLog)
    ensures pe.api.quiet ==>
      var plan := if bd.parent in pe.hierarchy
        then NewPartition(old(pe.api.View()), pe.env, pe.hierarchy[bd.parent], list, bd) else Stop(true);
      Performed(pe.env, old(pe.api.View()), plan, false, pe.api.View(), Outcome(err))
  {
    hide Inv, IsRun, PushWith, UnlessHeld, GenerateUuid, Created, Merged, IsCurrent, Deactivated, LastStep;
    if bd.parent !in pe.hierarchy {
      return true;
    }
    var parentUuid := GenerateUuid(pe.env, pe.hierarchy[bd.parent]);
    if parentUuid.None? {
      err := CreateUnlessHeld(pe, bd, list);
      return;
    }
    ghost var s := pe.api.View();
    var parent := pe.api.GetDevice(parentUuid.value);
    LogsKept(s, pe.api.View(), pe.api.mine, pe.api.own);
    LoggedStays(s, pe.api.View(), list);
    if parent.NotFound? {
      err := CreateUnlessHeld(pe, bd, list);
      return;
    }
    if parent.Failed? {
      return true;
    }
    if parent.obj.claimState != Unclaimed {
      return false;
    }
    DeactivateBlockDevice(pe.api, Versioned(parent.v, parent.obj));
    var existing := GetExistingBlockDeviceResource(list, bd.uuid);
    err := CreateOrUpdateWithAnnotation(pe, GptAnnotations(), bd, existing);
  }

  /** A device that has a name. */
  method AddIdentified(pe: Controller, bd: Device, list: seq<Versioned>) returns (err: bool)
    requires pe.api.Valid() && AllLogged(pe.api.View(), list)
    modifies pe.api
    ensures pe.api.Valid() && old(pe.api.hist) <= pe.api.hist && Extends(old(pe.api.deviceLog), pe.api.deviceLog)
    ensures pe.api.quiet ==>
      var plan := Identified(old(pe.api.View()), pe.env, pe.hierarchy, list, bd);
      Performed(pe.env, old(pe.api.View()), plan, false, pe.api.View(), Outcome(err))
  {
    hide Inv, IsRun, PushWith, UnlessHeld, NewPartition;
    ghost var s := pe.api.View();
    var bdAPI := pe.api.GetDevice(bd.uuid);
    LogsKept(s, pe.api.View(), pe.api.mine, pe.api.own);
    LoggedStays(s, pe.api.View(), list);
    if bdAPI.NotFound? {
      if bd.deviceType == PartitionType {
        err := AddNewPartition(pe, bd, list);
        return;
      }
      if |bd.partitions| > 0 {
        return false;
      }
      err := CreateUnlessHeld(pe, bd, list);
      return;
    }
    if bdAPI.Failed? {
      return true;
    }
    if bdAPI.obj.claimState != Unclaimed {
      err := CreateOrUpdateWithAnnotation(pe, GptAnnotations(), bd, Some(Versioned(bdAPI.v, bdAPI.obj)));
      return;
    }
    var existing := GetExistingBlockDeviceResource(list, bd.uuid);
    err := CreateOrUpdateWithAnnotation(pe, GptAnnotations(), bd, existing);
  }

  /**
    Process an add event.  Whatever the server answers, the cache and the disks end up
    as stated; on a quiet server the stored resources do too.
    */
  method AddBlockDevice(pe: Controller, bd: Device, list: seq<Versioned>) returns (r: AddResult)
    requires pe.api.Valid() && AllLogged(pe.api.View(), list)
    modifies pe, pe.api, pe.host
    ensures pe.api.Valid() && old(pe.api.hist) <= pe.api.hist && Extends(old(pe.api.deviceLog), pe.api.deviceLog)
    ensures pe.hierarchy == CacheAfter(pe.env, old(pe.hierarchy), list, bd)
    ensures pe.host.disks == DisksAfter(pe.env, old(pe.hierarchy), list, bd, old(pe.host.disks))
    ensures pe.api.quiet ==>
      Performed(pe.env, old(pe.api.View()), Decide(old(pe.api.View()), pe.env, old(pe.hierarchy), list, bd),
      Formats(old(pe.host.disks), bd.devPath, bd.storage), pe.api.View(), r)
  {
    hide Inv, IsRun, PushWith, Unmanaged, Upgrade, Identified, GenerateUuid, Performed, TableFor, Destroys;
    ghost var s, cache := pe.api.View(), pe.hierarchy;
    ghost var formatted := Formats(pe.host.disks, bd.devPath, bd.storage);
    StopsDoNotDestroy(pe.env, cache, list, bd);
    var goOn, err := HandleUnmanagedDevices(pe, bd);
    if err || !goOn {
      if pe.api.quiet {
        FormattedIrrelevant(pe.env, s, Unmanaged(pe.env, cache, bd).value, formatted, pe.api.View(), Outcome(err));
      }
      return Outcome(err);
    }
    if bd.deviceType == PartitionType { ManagedHasParent(pe.env, cache, bd); }
    var inUse, missing := IsParentDeviceInUse(pe, bd);
    if missing {
      assert false;
    }
    if inUse {
      StopPerformed(pe.env, s, formatted, false);
      return Processed;
    }
    goOn, err := UpgradeBD(pe, bd, list);
    if !goOn {
      if pe.api.quiet {
        FormattedIrrelevant(pe.env, s, Upgrade(pe.env, list, bd).value, formatted, pe.api.View(), Outcome(err));
      }
      return Outcome(err);
    }
    var uuid := GenerateUuid(pe.env, bd);
    if uuid.None? {
      StopPerformed(pe.env, s, formatted, false);
      r := FormatDisk(pe, bd);
      if bd.partitions == [] && bd.holders == [] { FormatPerformed(pe.env, s, formatted, r); }
      return;
    }
    var named := bd.(uuid := uuid.value);
    var _ := AddBlockDeviceToHierarchyCache(pe, named);
    err := AddIdentified(pe, named, list);
    r := Outcome(err);
    if pe.api.quiet {
      IdentifiedDoesNotDestroy(s, pe.env, pe.hierarchy, list, named);
      FormattedIrrelevant(pe.env, s, Identified(s, pe.env, pe.hierarchy, list, named), formatted, pe.api.View(), r);
    }
  }

  lemma ManagedHasParent(env: Env, cache: Cache, bd: Device)
    requires Unmanaged(env, cache, bd).None? && bd.deviceType == PartitionType
    ensures bd.parent in cache
  {}

  lemma FormatPerformed(env: Env, s: Cluster, formatted: bool, r: AddResult)
    requires Performed(env, EMPTY, WriteTable, formatted, EMPTY, r)
    ensures Performed(env, s, WriteTable, formatted, s, r)
  {}
}
