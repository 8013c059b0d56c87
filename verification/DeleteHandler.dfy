/**
  What the daemon does when a device disappears: it forgets the device and marks the
  one resource that stands for it inactive.
  */
module DeleteHandler {
  import opened Objects
  import opened Protocol
  import opened Invariant
  import opened ClaimSafety
  import opened ApiServer
  import opened Daemon
  import opened DaemonStore
  import opened AddHandler
  import opened AddSafety

  /** The resource that stands for a device: by name, by partition table, by annotation, by old name, in this order. */
  function DeleteTarget(env: Env, list: seq<Versioned>, bd: Device): (r: Option<Versioned>)
    ensures r.Some? ==> r.value in list
  {
    var byName := if GenerateUuid(env, bd).Some? then Named(list, GenerateUuid(env, bd).value) else None;
    if byName.Some? then byName
    else
      var byTable := if TableUuid(env, bd).Some? then Named(list, TableUuid(env, bd).value) else None;
      if byTable.Some? then byTable
      else
        var byFs := Annotated(list, FsUuid, bd.fsUuid);
        if byFs.Some? then byFs
        else
          var byPartition := Annotated(list, PartitionUuid, bd.partitionTableUuid);
          if byPartition.Some? && bd.deviceType != PartitionType then byPartition
          else Named(list, LegacyUuid(env, bd))
  }

  /** Does the resource stand for the device?  A partition is not taken for the disk whose table lists it. */
  predicate StandsFor(env: Env, bd: Device, d: BlockDevice) {
    || GenerateUuid(env, bd) == Some(d.name)
    || TableUuid(env, bd) == Some(d.name)
    || HasMark(d, FsUuid, bd.fsUuid)
    || (bd.deviceType != PartitionType && HasMark(d, PartitionUuid, bd.partitionTableUuid))
    || LegacyUuid(env, bd) == d.name
  }

  /** A resource is deactivated exactly if one on the list stands for the device. */
  lemma TargetStandsFor(env: Env, list: seq<Versioned>, bd: Device)
    ensures var r := DeleteTarget(env, list, bd);
            if r.Some? then r.value in list && StandsFor(env, bd, r.value.d)
            else forall e :: e in list ==> !StandsFor(env, bd, e.d)
  {
    hide NameOf, Annotated;
    AnnotatedMeans(list, FsUuid, bd.fsUuid);
    AnnotatedMeans(list, PartitionUuid, bd.partitionTableUuid);
  }

  /**
    Of several resources that stand for the device, one with its new name is taken before one
    with the name of its table, then one marked with its file system, then one marked with its
    table, and one with its old name last.
    */
  lemma TargetOrder(env: Env, list: seq<Versioned>, bd: Device)
    requires DeleteTarget(env, list, bd).Some?
    ensures var d := DeleteTarget(env, list, bd).value.d;
            if exists e :: e in list && GenerateUuid(env, bd) == Some(e.d.name)
              then GenerateUuid(env, bd) == Some(d.name)
            else if exists e :: e in list && TableUuid(env, bd) == Some(e.d.name)
              then TableUuid(env, bd) == Some(d.name)
            else if exists e :: e in list && HasMark(e.d, FsUuid, bd.fsUuid) then HasMark(d, FsUuid, bd.fsUuid)
            else if bd.deviceType != PartitionType && exists e :: e in list &&
                                                             HasMark(e.d, PartitionUuid, bd.partitionTableUuid)
              then HasMark(d, PartitionUuid, bd.partitionTableUuid)
            else d.name == LegacyUuid(env, bd)
  {
    hide GenerateUuid, TableUuid, LegacyUuid, Annotated;
    AnnotatedMeans(list, FsUuid, bd.fsUuid);
    AnnotatedMeans(list, PartitionUuid, bd.partitionTableUuid);
  }

  method RemoveBlockDeviceFromHierarchyCache(pe: Controller, bd: Device) returns (existed: bool)
    modifies pe
    ensures existed == (bd.devPath in old(pe.hierarchy)) && pe.hierarchy == old(pe.hierarchy) - {bd.devPath}
  {
    if bd.devPath !in pe.hierarchy {
      assert pe.hierarchy - {bd.devPath} == pe.hierarchy;
      return false;
    }
    pe.hierarchy := pe.hierarchy - {bd.devPath};
    existed := true;
  }

  /**
    Forget the device and deactivate its resource.  A device that is not in the cache
    causes no call at all.
    */
  method DeleteBlockDevice(pe: Controller, bd: Device, list: seq<Versioned>)
    requires pe.api.Valid() && AllLogged(pe.api.View(), list)
    modifies pe, pe.api
    ensures pe.api.Valid() && old(pe.api.hist) <= pe.api.hist && Extends(old(pe.api.deviceLog), pe.api.deviceLog)
    ensures pe.hierarchy == old(pe.hierarchy) - {bd.devPath}
    ensures var target := DeleteTarget(pe.env, list, bd);
      if bd.devPath in old(pe.hierarchy) && target.Some?
      then LastStep(pe.api.disc, old(pe.api.hist), pe.api.hist, DaemonSetState(target.value.v, Inactive))
      else pe.api.View() == old(pe.api.View()) && pe.api.hist == old(pe.api.hist)
    ensures pe.api.quiet && bd.devPath in old(pe.hierarchy) ==>
      var target := DeleteTarget(pe.env, list, bd);
      pe.api.View() == if target.Some? then Deactivated(old(pe.api.View()), target.value) else old(pe.api.View())
  {
    hide Inv, IsRun, Deactivated, LastStep, Logged, GenerateUuid, TableUuid, LegacyUuid;
    var existed := RemoveBlockDeviceFromHierarchyCache(pe, bd);
    if !existed {
      return;
    }
    var uuid := GenerateUuid(pe.env, bd);
    if uuid.Some? {
      var existing := GetExistingBlockDeviceResource(list, uuid.value);
      if existing.Some? {
        DeactivateBlockDevice(pe.api, existing.value);
        return;
      }
    }
    var partUuid := TableUuid(pe.env, bd);
    if partUuid.Some? {
      var existing := GetExistingBlockDeviceResource(list, partUuid.value);
      if existing.Some? {
        DeactivateBlockDevice(pe.api, existing.value);
        return;
      }
    }
    var byFs := GetExistingBDWithAnnotation(list, FsUuid, bd.fsUuid);
    if byFs.Some? {
      DeactivateBlockDevice(pe.api, byFs.value);
      return;
    }
    var byPartition := GetExistingBDWithAnnotation(list, PartitionUuid, bd.partitionTableUuid);
    if bd.deviceType != PartitionType && byPartition.Some? {
      DeactivateBlockDevice(pe.api, byPartition.value);
      return;
    }
    var existing := GetExistingBlockDeviceResource(list, LegacyUuid(pe.env, bd));
    if existing.Some? {
      DeactivateBlockDevice(pe.api, existing.value);
    }
  }

  // --- Round trip --------------------------------------------------------------------------

  /** Deactivation turns exactly one device inactive. */
  lemma DeactivatedIsInactive(s: Cluster, e: Versioned)
    requires Inv(s) && Logged(s, e) && IsCurrent(s, e)
    ensures DeviceAt(Deactivated(s, e), e.d.name) == Some(e.d.(state := Inactive)) && DeviceAt(s, e.d.name) == Some(e.d)
    ensures forall b :: b != e.d.name ==> DeviceAt(Deactivated(s, e), b) == DeviceAt(s, b)
  {
    hide Monotone, Backed, IntentsOk, SessionsOk, ClaimsStored, DeviceOk;
    var w := e.d.(state := Inactive);
    hide StoreDevice;
    forall b { StoreDeviceAt(s, w, b); }
  }

  /**
    Add, then delete: if the add stored the device under its new name, the delete of the
    same device, with a list of current resources that holds it, deactivates exactly that
    resource.
    */
  lemma AddThenDelete(s: Cluster, env: Env, cache: Cache, list: seq<Versioned>, bd: Device, formatted: bool, t: Cluster,
                      laterList: seq<Versioned>, d: BlockDevice)
    requires Inv(s) && AllLogged(s, list)
    requires Performed(env, s, Decide(s, env, cache, list, bd), formatted, t, Processed)
    requires Final(Decide(s, env, cache, list, bd)) == Some(d) && UuidScheme in d.annotations
    requires d.annotations[UuidScheme] == GPT
    requires forall i :: 0 <= i < |laterList| ==> Logged(t, laterList[i]) && IsCurrent(t, laterList[i])
    requires exists e :: e in laterList && e.d.name == d.name
    ensures var target := DeleteTarget(env, laterList, bd);
            && target.Some? && target.value.d.name == d.name
            && var u := Deactivated(t, target.value);
               && DeviceAt(u, d.name) == Some(target.value.d.(state := Inactive))
               && DeviceAt(t, d.name) == Some(target.value.d)
               && forall b :: b != d.name ==> DeviceAt(u, b) == DeviceAt(t, b)
  {
    hide Inv, Decide, Performed, Deactivated, DeviceAt, LegacyResource, LegacyUuid, TableUuid, GenerateUuid;
    StoredUnderItsName(s, env, cache, list, bd);
    AddDisturbsNoClaim(s, env, cache, list, bd, formatted, t, Processed);
    DeactivatedIsInactive(t, DeleteTarget(env, laterList, bd).value);
  }

  /** The cache forgets the device, whatever the add made of it. */
  lemma CacheForgets(env: Env, cache: Cache, list: seq<Versioned>, bd: Device)
    ensures CacheAfter(env, cache, list, bd) - {bd.devPath} == cache - {bd.devPath}
  {
    hide Proceeds, GenerateUuid;
  }
}
