/**
  The two custom resources the system keeps in the API server, BlockDevice and
  BlockDeviceClaim, and the small operations on them that several components share.
  */
module Objects {

  const HOSTNAME_LABEL := "kubernetes.io/hostname"

  datatype Option<+T> = None | Some(value: T)

  // --- BlockDevice ---------------------------------------------------------

  datatype ClaimState = Unclaimed | Claimed | Released

  datatype DeviceState = Active | Inactive | Unknown

  /**
    A finalizer: openebs.io/bd-protection, openebs.io/bdc-protection, or one that
    belongs to somebody else.
    */
  datatype Finalizer = DeviceProtection | ClaimProtection | Foreign(id: string)

  datatype Kind = BlockDeviceClaimKind | OtherKind(id: string)

  /** The annotations the system itself reads or writes, and all others. */
  datatype Annotation =
    | Reconcile        // openebs.io/reconcile
    | UuidScheme       // internal.openebs.io/uuid-scheme
    | FsUuid           // internal.openebs.io/fsuuid
    | PartitionUuid    // internal.openebs.io/partition-uuid
    | OtherKey(key: string)

  /** The reference a claimed device holds to its claim. */
  datatype ClaimRef = ClaimRef(kind: Kind, name: string, uid: nat)

  datatype Capacity = Capacity(storage: nat, physicalSectorSize: nat, logicalSectorSize: nat)

  datatype Details = Details(deviceType: string, driveType: string, model: string, serial: string, vendor: string)

  datatype FileSystem = FileSystem(fsType: string, mountPoint: string)

  datatype DeviceSpec = DeviceSpec(
    capacity: Capacity,
    claimRef: Option<ClaimRef>,
    details: Details,
    devLinks: seq<string>,
    fileSystem: FileSystem,
    nodeName: string,
    path: string)

  datatype BlockDevice = BlockDevice(
    name: string,
    labels: map<string, string>,
    annotations: map<Annotation, string>,
    finalizers: seq<Finalizer>,
    deleting: bool,
    spec: DeviceSpec,
    claimState: ClaimState,
    state: DeviceState)

  /** A device together with the resource version it was read at. */
  datatype Versioned = Versioned(v: nat, d: BlockDevice)

  // --- BlockDeviceClaim ----------------------------------------------------

  datatype Phase = EmptyPhase | Pending | InvalidCapacity | Bound

  datatype Operator = In | NotIn | Exists | DoesNotExist

  datatype Requirement = Requirement(key: string, op: Operator, values: seq<string>)

  datatype Selector = Selector(matchLabels: map<string, string>, matchExpressions: seq<Requirement>)

  /**
    `storage` is the requested capacity when it is a 64-bit integer, None otherwise.
    */
  datatype ClaimSpec = ClaimSpec(
    selector: Option<Selector>,
    storage: Option<int>,
    deviceType: string,
    hostName: string,
    volumeMode: string,
    deviceFormat: string,
    blockDeviceName: string,
    nodeName: string,
    nodeHostName: string)

  datatype BlockDeviceClaim = BlockDeviceClaim(
    kind: Kind,
    name: string,
    uid: nat,
    annotations: map<Annotation, string>,
    finalizers: seq<Finalizer>,
    deleting: bool,
    spec: ClaimSpec,
    phase: Phase)

  // --- Shared operations ---------------------------------------------------

  /** The list without any occurrence of `x`, the rest in order. */
  function Without(xs: seq<Finalizer>, x: Finalizer): (r: seq<Finalizer>)
    ensures multiset(r)[x] == 0
    ensures forall y :: y != x ==> multiset(r)[y] == multiset(xs)[y]
  {
    if xs == [] then []
    else
      assert xs == [xs[0]] + xs[1..];
      (if xs[0] == x then [] else [xs[0]]) + Without(xs[1..], x)
  }

  lemma WithoutOnly(x: Finalizer)
    ensures Without([x], x) == []
  {
    assert Without([x], x) == Without([x][1..], x);
  }

  /** How often `x` is on the finalizer list. */
  function Count(xs: seq<Finalizer>, x: Finalizer): nat {
    multiset(xs)[x]
  }

  predicate ReconcileDisabled(annotations: map<Annotation, string>) {
    Reconcile in annotations && annotations[Reconcile] == "false"
  }

  /** The device as written by a claim: finalizer appended, reference set, state Claimed. */
  function ClaimedBy(d: BlockDevice, c: BlockDeviceClaim): BlockDevice {
    d.(finalizers := d.finalizers + [DeviceProtection],
       spec := d.spec.(claimRef := Some(ClaimRef(c.kind, c.name, c.uid))),
       claimState := Claimed)
  }

  /** The device as written by a release: reference cleared, state Released. */
  function ReleasedFrom(d: BlockDevice): BlockDevice {
    d.(spec := d.spec.(claimRef := None), claimState := Released)
  }

  /** The device as written after cleanup: finalizer removed, state Unclaimed. */
  function Freed(d: BlockDevice): BlockDevice {
    d.(finalizers := Without(d.finalizers, DeviceProtection), claimState := Unclaimed)
  }

  /** The claim as written when a device was found for it. */
  function BoundTo(c: BlockDeviceClaim, device: string): BlockDeviceClaim {
    c.(spec := c.spec.(blockDeviceName := device),
       phase := Bound,
       finalizers := c.finalizers + [ClaimProtection])
  }

  /** The claim as written after its device was released. */
  function Unprotected(c: BlockDeviceClaim): BlockDeviceClaim {
    c.(finalizers := Without(c.finalizers, ClaimProtection))
  }

  /** Does device `d` belong to claim `c`?  Compares name, uid and kind of the reference. */
  predicate RequestedBy(c: BlockDeviceClaim, d: BlockDevice)
    requires d.claimState == Claimed ==> d.spec.claimRef.Some?
  {
    && d.claimState == Claimed
    && d.spec.claimRef.value.name == c.name
    && d.spec.claimRef.value.uid == c.uid
    && d.spec.claimRef.value.kind == c.kind
  }

  /**
    Merge of freshly probed data into the stored device.  A device that is in use
    keeps everything except node, capacity, path, links and state.
    */
  function Merge(probed: BlockDevice, stored: BlockDevice): BlockDevice {
    var meta := stored.(labels := stored.labels + probed.labels,
                        annotations := stored.annotations + probed.annotations);
    if stored.claimState != Unclaimed then
      meta.(spec := meta.spec.(nodeName := probed.spec.nodeName,
                               capacity := meta.spec.capacity.(storage := probed.spec.capacity.storage),
                               path := probed.spec.path,
                               devLinks := probed.spec.devLinks),
            state := probed.state)
    else
      meta.(spec := probed.spec, claimState := probed.claimState, state := probed.state)
  }
}
