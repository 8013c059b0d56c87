/**
  The node daemon: the devices it probes, how it names them, and how it turns them
  into resources.
  */
module Daemon {
  import opened Objects
  import opened Protocol
  import opened Partition
  import opened ApiServer

  datatype DeviceType =
    | DiskType | PartitionType | LoopType
    | MapperType | LvmType | CryptType | MultiPathType
    | OtherType(id: string)

  datatype Engine = NoEngine | CStor | ZfsLocalPV | Mayastor | LocalPV | Jiva | OtherEngine(id: string)

  /** A block device as probed on the node. */
  datatype Device = Device(
    uuid: string,
    devPath: string,
    deviceType: DeviceType,
    wwn: string,
    serial: string,
    model: string,
    vendor: string,
    idType: string,
    fsUuid: string,
    partitionEntryUuid: string,
    partitionTableUuid: string,
    partitionTableType: string,
    mapperUuid: string,
    inUse: bool,
    usedBy: Engine,
    parent: string,
    partitions: seq<string>,
    holders: seq<string>,
    slaves: seq<string>,
    storage: U64,
    logicalBlockSize: U64,
    physicalBlockSize: U64,
    driveType: string,
    fileSystem: string,
    mountPoints: seq<string>,
    devLinks: seq<string>)

  /**
    What the daemon is given: hashing, the names of the host, the feature gates, and the
    labels of a device, which may fail.
    */
  datatype Env = Env(
    hash: string -> string,
    host: string,
    hostLabel: string,
    nodeName: string,
    gptUuid: bool,
    partitionTableUuid: bool,
    labels: Device -> Option<map<string, string>>)

  const UUID_PREFIX := "blockdevice-"

  // --- Names ---------------------------------------------------------------------

  predicate IsMapper(t: DeviceType) {
    t == MapperType || t == LvmType || t == CryptType || t == MultiPathType
  }

  /** What identifies a device, if anything does. */
  function Identity(env: Env, d: Device): Option<string> {
    if d.deviceType == LoopType then Some(env.host + d.devPath)
    else if IsMapper(d.deviceType) then Some(d.mapperUuid)
    else if d.deviceType == PartitionType then Some(d.partitionEntryUuid)
    else if d.wwn != "" then Some(d.wwn + d.serial)
    else if d.fsUuid != "" then Some(d.fsUuid)
    else if env.partitionTableUuid && d.partitionTableType != "" && d.partitionTableUuid != ""
      then Some(d.partitionTableUuid)
    else None
  }

  function NameOf(env: Env, identity: string): string {
    UUID_PREFIX + env.hash(identity)
  }

  function GenerateUuid(env: Env, d: Device): Option<string> {
    match Identity(env, d)
    case None => None
    case Some(i) => Some(NameOf(env, i))
  }

  /** Models whose disks all report the same identifiers. */
  predicate LocalDiskModel(model: string) {
    model == "EphemeralDisk" || model == "Virtual_disk" || model == "QEMU_HARDDISK"
  }

  /** Does the old name of the device depend on where it is attached? */
  predicate UsesPath(d: Device) {
    d.idType == "" || LocalDiskModel(d.model)
  }

  function LegacyUuid(env: Env, d: Device): string {
    NameOf(env, d.wwn + d.model + d.serial + d.vendor + if UsesPath(d) then env.host + d.devPath else "")
  }

  function TableUuid(env: Env, d: Device): Option<string> {
    if d.partitionTableUuid != "" then Some(NameOf(env, d.partitionTableUuid)) else None
  }

  ghost predicate Injective(f: string -> string) {
    forall x, y :: f(x) == f(y) ==> x == y
  }

  /**
    What two devices of a kind must have in common to get the same name: the path for loop
    devices, the mapper's uuid, the partition's own uuid; for disks the WWN with the serial
    number if there is a WWN, else the file system's uuid, else the partition table's where
    that is switched on.
    */
  lemma SameNameIff(env: Env, x: Device, y: Device)
    requires Injective(env.hash) && x.deviceType == y.deviceType
    ensures var same, t := GenerateUuid(env, x) == GenerateUuid(env, y), x.deviceType;
            && (t == LoopType ==> (same <==> x.devPath == y.devPath))
            && (IsMapper(t) ==> (same <==> x.mapperUuid == y.mapperUuid))
            && (t == PartitionType ==> (same <==> x.partitionEntryUuid == y.partitionEntryUuid))
            && (t == DiskType && x.wwn != "" && y.wwn != "" ==> (same <==> x.wwn + x.serial == y.wwn + y.serial))
            && (t == DiskType && x.wwn == y.wwn == "" && x.fsUuid != "" && y.fsUuid != "" ==>
                  (same <==> x.fsUuid == y.fsUuid))
            && (t == DiskType && x.wwn == y.wwn == "" && x.fsUuid == y.fsUuid == "" && env.partitionTableUuid &&
                x.partitionTableType != "" && y.partitionTableType != "" &&
                x.partitionTableUuid != "" && y.partitionTableUuid != "" ==>
                  (same <==> x.partitionTableUuid == y.partitionTableUuid))
  {
    SameNames(env, Identity(env, x), Identity(env, y));
    if x.deviceType == LoopType { SamePrefix(env.host, x.devPath, y.devPath); }
  }

  lemma SameNames(env: Env, i: Option<string>, j: Option<string>)
    requires Injective(env.hash)
    ensures i.Some? && j.Some? ==> (NameOf(env, i.value) == NameOf(env, j.value) <==> i == j)
  {
    if i.Some? && j.Some? { SamePrefix(UUID_PREFIX, env.hash(i.value), env.hash(j.value)); }
  }

  lemma SamePrefix(p: string, x: string, y: string)
    ensures p + x == p + y <==> x == y
  {
    assert (p + x)[|p|..] == x && (p + y)[|p|..] == y;
  }

  /** Except for loop devices, a name does not depend on where the device is attached or what is done with it. */
  lemma NameIsStable(env: Env, d: Device, later: Device)
    requires d.deviceType != LoopType
    requires later == d.(uuid := later.uuid, devPath := later.devPath, inUse := later.inUse, usedBy := later.usedBy,
                         parent := later.parent, partitions := later.partitions, holders := later.holders,
                         slaves := later.slaves, mountPoints := later.mountPoints, devLinks := later.devLinks,
                         fileSystem := later.fileSystem)
    ensures GenerateUuid(env, later) == GenerateUuid(env, d)
  {}

  /** The old name depends on the path exactly for devices without a persistent id and for virtual disks. */
  lemma OldNameDependsOnPathIff(env: Env, d: Device, path: string)
    requires Injective(env.hash)
    ensures LegacyUuid(env, d.(devPath := path)) == LegacyUuid(env, d) <==>
      path == d.devPath || (d.idType != "" && d.model !in {"EphemeralDisk", "Virtual_disk", "QEMU_HARDDISK"})
  {
    var base, e := d.wwn + d.model + d.serial + d.vendor, d.(devPath := path);
    var x := base + if UsesPath(d) then env.host + d.devPath else "";
    var y := base + if UsesPath(e) then env.host + e.devPath else "";
    SameNames(env, Some(x), Some(y));
    if UsesPath(d) {
      SamePrefix(base, env.host + d.devPath, env.host + path);
      SamePrefix(env.host, d.devPath, path);
    }
  }

  /** Where the path does not matter, the old name is that of WWN, model, serial number and vendor together. */
  lemma SameOldNameIff(env: Env, x: Device, y: Device)
    requires Injective(env.hash) && !UsesPath(x) && !UsesPath(y)
    ensures LegacyUuid(env, x) == LegacyUuid(env, y) <==>
      x.wwn + x.model + x.serial + x.vendor == y.wwn + y.model + y.serial + y.vendor
  {
    var i, j := x.wwn + x.model + x.serial + x.vendor, y.wwn + y.model + y.serial + y.vendor;
    assert i + "" == i && j + "" == j;
    SameNames(env, Some(i), Some(j));
  }

  /** Every partition table has a name of its own, which a disk without other identifiers shares. */
  lemma TableNameIff(env: Env, x: Device, y: Device)
    requires Injective(env.hash)
    ensures TableUuid(env, x).Some? <==> x.partitionTableUuid != ""
    ensures TableUuid(env, x) == TableUuid(env, y) <==> x.partitionTableUuid == y.partitionTableUuid
    ensures (&& x.deviceType == DiskType && x.wwn == x.fsUuid == "" && env.partitionTableUuid
             && x.partitionTableType != "" && x.partitionTableUuid != "") ==>
      GenerateUuid(env, x) == TableUuid(env, x)
  {
    SameNames(env, Some(x.partitionTableUuid), Some(y.partitionTableUuid));
  }

  // --- Resources -------------------------------------------------------------------

  function TypeName(t: DeviceType): string {
    match t
    case DiskType => "disk"
    case PartitionType => "partition"
    case LoopType => "loop"
    case MapperType => "dm"
    case LvmType => "lvm"
    case CryptType => "crypt"
    case MultiPathType => "mpath"
    case OtherType(id) => id
  }

  /** The resource of a device under its uuid: active and unclaimed; only its labels can fail. */
  function ToDevice(env: Env, d: Device): (r: Option<BlockDevice>)
    ensures r.Some? ==> r.value.name == d.uuid && NewDevice(r.value) && r.value.state == Active
  {
    match env.labels(d)
    case None => None
    case Some(labels) => Some(BlockDevice(d.uuid, labels, map[], [], false,
      DeviceSpec(
        Capacity(d.storage, d.physicalBlockSize, d.logicalBlockSize), None,
        Details(TypeName(d.deviceType), d.driveType, d.model, d.serial, d.vendor),
        d.devLinks, FileSystem(d.fileSystem, if d.mountPoints != [] then d.mountPoints[0] else ""),
        env.nodeName, d.devPath),
      Unclaimed, Active))
  }

  /** The daemon of one node. */
  class Controller {
    const api: Server
    const host: Host
    const env: Env
    /** The devices seen on the node, by path. */
    var hierarchy: map<string, Device>

    constructor (api: Server, host: Host, env: Env)
      ensures this.api == api && this.host == host && this.env == env && hierarchy == map[]
    {
      this.api, this.host, this.env, hierarchy := api, host, env, map[];
    }
  }
}
