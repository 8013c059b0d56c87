/**
  What the claim protocol promises over whole runs: no device is given to two
  live claims, every object ever stored is well formed, and a device's claim state
  only moves around its lifecycle.
  */
module ClaimSafety {
  import opened Objects
  import opened Protocol
  import opened Invariant

  /** In every state of every run, a bound claim not marked for deletion holds the device it names. */
  lemma LiveClaimHoldsItsDevice(disc: Discipline, run: seq<Cluster>, i: nat, c: string)
    requires IsRun(disc, run) && i < |run| && run[i].HasClaim(c) && Live(run[i].Claim(c))
    ensures HeldBy(run[i], run[i].Claim(c).spec.blockDeviceName, run[i].Claim(c).uid)
  {
    RunKeepsInv(disc, run, i);
  }

  /** Two live bound claims never name the same device. */
  lemma NoDoubleClaim(disc: Discipline, run: seq<Cluster>, i: nat, c1: string, c2: string)
    requires IsRun(disc, run) && i < |run| && c1 != c2
    requires run[i].HasClaim(c1) && Live(run[i].Claim(c1))
    requires run[i].HasClaim(c2) && Live(run[i].Claim(c2))
    ensures run[i].Claim(c1).spec.blockDeviceName != run[i].Claim(c2).spec.blockDeviceName
  {
    var s := run[i];
    RunKeepsInv(disc, run, i);
    LiveClaimHoldsItsDevice(disc, run, i, c1);
    LiveClaimHoldsItsDevice(disc, run, i, c2);
    assert Newest(s.claimLog, s.Claim(c1));
  }

  /**
    Every version ever stored is well formed, also the stale ones a reader may
    still see; in particular the scan for a claimed device never follows a missing
    reference.
    */
  lemma StoredObjectsAreWellFormed(disc: Discipline, run: seq<Cluster>, i: nat)
    requires IsRun(disc, run) && i < |run|
    ensures forall v :: v in run[i].deviceLog ==>
      var d := run[i].deviceLog[v];
      && (d.claimState == Claimed <==> d.spec.claimRef.Some?)
      && Count(d.finalizers, DeviceProtection) == (if d.claimState == Unclaimed then 0 else 1)
    ensures forall v :: v in run[i].claimLog ==>
      var c := run[i].claimLog[v];
      Count(c.finalizers, ClaimProtection) == (if c.phase == Bound then 1 else 0)
  {
    RunKeepsInv(disc, run, i);
  }

  // --- Lifecycle -----------------------------------------------------------

  /** The stored device, or None while no device of this name exists. */
  ghost function DeviceAt(s: Cluster, b: string): Option<BlockDevice> {
    if s.HasDevice(b) then Some(s.Device(b)) else None
  }

  /** Version vc of the claim `ref` points to was bound, marked for deletion and otherwise unprotected. */
  ghost predicate GivenUpBy(s: Cluster, ref: ClaimRef, vc: nat) {
    && vc in s.claimLog && ReadyToRelease(s.claimLog[vc])
    && s.claimLog[vc].uid == ref.uid && s.claimLog[vc].name == ref.name
  }

  /** Version vc of the claim `ref` points to was looking for a device. */
  ghost predicate WantedBy(s: Cluster, ref: ClaimRef, vc: nat) {
    && vc in s.claimLog && SearchesDevice(s.claimLog[vc])
    && s.claimLog[vc].uid == ref.uid && s.claimLog[vc].name == ref.name
  }

  /**
    One turn of the lifecycle: Unclaimed, Claimed by a claim that wanted a device,
    Released once that claim was given up, Unclaimed again.  A device comes and goes
    only outside Claimed, and keeps its reference while Claimed.
    */
  ghost predicate Turn(s: Cluster, before: Option<BlockDevice>, after: Option<BlockDevice>) {
    match (before, after)
    case (None, None) => true
    case (None, Some(d)) => d.claimState == Unclaimed
    case (Some(d), None) => d.claimState != Claimed
    case (Some(d), Some(e)) =>
      match (d.claimState, e.claimState)
      case (Unclaimed, Unclaimed) => true
      case (Unclaimed, Claimed) => e.spec.claimRef.Some? && exists vc :: WantedBy(s, e.spec.claimRef.value, vc)
      case (Claimed, Claimed) => e.spec.claimRef == d.spec.claimRef
      case (Claimed, Released) => d.spec.claimRef.Some? && exists vc :: GivenUpBy(s, d.spec.claimRef.value, vc)
      case (Released, Released) => true
      case (Released, Unclaimed) => true
      case _ => false
  }

  /** A stored device that is marked for deletion and has no finalizer is gone. */
  function AfterWrite(d: BlockDevice): Option<BlockDevice> {
    if d.deleting && d.finalizers == [] then None else Some(d)
  }

  lemma StoreDeviceAt(s: Cluster, d: BlockDevice, b: string)
    requires DevicesStored(s.rev, s.devices, s.deviceLog)
    ensures DeviceAt(StoreDevice(s, d), b) == if b == d.name then AfterWrite(d) else DeviceAt(s, b)
  {}

  /** The only device an action changes is the one it writes. */
  lemma DeviceAtNext(s: Cluster, a: Action, b: string)
    requires Inv(s) && Guard(Any, s, a)
    ensures DeviceAt(Next(s, a), b) ==
      var w := DeviceWrite(s, a);
      if w.Some? && w.value.name == b then AfterWrite(w.value) else DeviceAt(s, b)
  {
    hide Guard, DeviceWrite, ClaimWrite, JobsAfter, IntentsAfter, SessionsAfter, StoreDevice, StoreClaim, AfterWrite;
    hide JobLogAfter;
    hide Inv, DevicesStored, DeviceAt;
    InvParts(s);
    OneWrite(s, a);
    var w, c := DeviceWrite(s, a), ClaimWrite(s, a);
    if w.Some? {
      StoreDeviceAt(s, w.value, b);
    } else if c.Some? {
      StoreClaimLeavesDevices(s, c.value);
    }
    SameDevices(Stored(s, w, c), Next(s, a), b);
    if w.None? { SameDevices(s, Stored(s, w, c), b); }
  }

  lemma StoreClaimLeavesDevices(s: Cluster, c: BlockDeviceClaim)
    ensures StoreClaim(s, c).devices == s.devices && StoreClaim(s, c).deviceLog == s.deviceLog
  {}

  lemma SameDevices(s: Cluster, t: Cluster, b: string)
    requires t.devices == s.devices && t.deviceLog == s.deviceLog
    ensures DeviceAt(t, b) == DeviceAt(s, b)
  {}

  lemma PlainWriteTurns(s: Cluster, a: Action)
    requires Inv(s) && Guard(Any, s, a) && DeviceWrite(s, a).Some?
    requires a.EditDevice? || a.DeleteDevice? || a.DaemonCreate? || a.DaemonMerge? || a.DaemonSetState? || a.FreeDevice?
    ensures var d := DeviceWrite(s, a).value;
            Turn(s, DeviceAt(s, d.name), AfterWrite(d))
  {
    hide Monotone, Backed, ClaimsStored, IntentsOk, WantedBy, GivenUpBy;
  }

  lemma ClaimWriteTurns(s: Cluster, vc: nat, vb: nat)
    requires Inv(s) && Guard(Any, s, ClaimDevice(vc, vb)) && CurrentDevice(s, s.deviceLog[vb].name, vb)
    ensures var d := ClaimedBy(s.deviceLog[vb], s.claimLog[vc]);
            d.finalizers != [] && Turn(s, DeviceAt(s, d.name), Some(d))
  {
    hide Monotone, Backed, ClaimsStored, IntentsOk;
    var d := ClaimedBy(s.deviceLog[vb], s.claimLog[vc]);
    assert WantedBy(s, d.spec.claimRef.value, vc);
  }

  lemma ReleaseWriteTurns(s: Cluster, vc: nat, vb: nat)
    requires Inv(s) && Guard(Any, s, ReleaseDevice(vc, vb)) && CurrentDevice(s, s.deviceLog[vb].name, vb)
    ensures var d := ReleasedFrom(s.deviceLog[vb]);
            d.finalizers != [] && Turn(s, DeviceAt(s, d.name), Some(d))
  {
    hide Monotone, Backed, ClaimsStored, IntentsOk;
    var d := s.deviceLog[vb];
    assert DeviceProtection in d.finalizers;
    assert GivenUpBy(s, d.spec.claimRef.value, vc);
  }

  lemma WriteTurns(s: Cluster, a: Action)
    requires Inv(s) && Guard(Any, s, a) && DeviceWrite(s, a).Some?
    ensures var d := DeviceWrite(s, a).value;
            Turn(s, DeviceAt(s, d.name), AfterWrite(d))
  {
    hide Inv, Turn, DeviceAt;
    match a
    case ClaimDevice(vc, vb) => ClaimWriteTurns(s, vc, vb);
    case ReleaseDevice(vc, vb) => ReleaseWriteTurns(s, vc, vb);
    case _ => PlainWriteTurns(s, a);
  }

  lemma StepTurns(s: Cluster, a: Action, b: string)
    requires Inv(s) && Guard(Any, s, a)
    ensures Turn(s, DeviceAt(s, b), DeviceAt(Next(s, a), b))
  {
    hide Inv, Guard, Next, DeviceWrite, AfterWrite, DeviceAt, GivenUpBy, WantedBy;
    DeviceAtNext(s, a, b);
    if DeviceWrite(s, a).Some? {
      WriteTurns(s, a);
    }
  }

  /** Every step of every run turns every device one step around its lifecycle, or leaves it where it is. */
  lemma Lifecycle(disc: Discipline, run: seq<Cluster>, i: nat, b: string)
    requires IsRun(disc, run) && i + 1 < |run|
    ensures Turn(run[i], DeviceAt(run[i], b), DeviceAt(run[i + 1], b))
  {
    hide Inv, Guard, Next, Turn;
    RunKeepsInv(disc, run, i);
    var a := TakenBy(disc, run[i], run[i + 1]);
    StepTurns(run[i], a, b);
  }
}
