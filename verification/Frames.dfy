/**
  What each write changes and what it leaves alone, in the fields of the two resources,
  for every step of every run.
  */
module Frames {
  import opened Objects
  import opened Protocol
  import opened Invariant
  import opened ClaimSafety
  import opened Conservation

  // --- Devices --------------------------------------------------------------

  /** At most the claim state, the reference and the system's own finalizer differ. */
  ghost predicate OnlyClaimDataDiffers(before: BlockDevice, after: BlockDevice) {
    && after.name == before.name && after.labels == before.labels && after.annotations == before.annotations
    && after.deleting == before.deleting && after.state == before.state
    && after.spec.(claimRef := before.spec.claimRef) == before.spec
    && forall f :: f != DeviceProtection ==> Count(after.finalizers, f) == Count(before.finalizers, f)
  }

  /** At most labels, annotations and finalizers of others differ. */
  ghost predicate OnlyUserDataDiffers(before: BlockDevice, after: BlockDevice) {
    && after.name == before.name && after.deleting == before.deleting && after.spec == before.spec
    && after.claimState == before.claimState && after.state == before.state
    && Count(after.finalizers, DeviceProtection) == Count(before.finalizers, DeviceProtection)
  }

  /** Every new entry is there, every other entry is an old one. */
  ghost predicate Overlaid<K, V>(older: map<K, V>, newer: map<K, V>, after: map<K, V>) {
    && (forall k :: k in newer ==> k in after && after[k] == newer[k])
    && (forall k :: k in older && k !in newer ==> k in after && after[k] == older[k])
    && (forall k :: k in after ==> k in older || k in newer)
  }

  /**
    The device after the daemon probed it again: where it is, how large it is and whether it
    is there are as probed; the rest is as probed only while nobody uses the device.
    */
  ghost predicate Refreshed(probed: BlockDevice, before: BlockDevice, after: BlockDevice) {
    && after.name == before.name && after.finalizers == before.finalizers && after.deleting == before.deleting
    && Overlaid(before.labels, probed.labels, after.labels)
    && Overlaid(before.annotations, probed.annotations, after.annotations)
    && after.state == probed.state && after.spec.nodeName == probed.spec.nodeName
    && after.spec.path == probed.spec.path && after.spec.devLinks == probed.spec.devLinks
    && after.spec.capacity.storage == probed.spec.capacity.storage
    && if before.claimState == Unclaimed then after.spec == probed.spec && after.claimState == probed.claimState
       else
         && after.claimState == before.claimState && after.spec.claimRef == before.spec.claimRef
         && after.spec.details == before.spec.details && after.spec.fileSystem == before.spec.fileSystem
         && after.spec.capacity.physicalSectorSize == before.spec.capacity.physicalSectorSize
         && after.spec.capacity.logicalSectorSize == before.spec.capacity.logicalSectorSize
  }

  lemma MergeRefreshes(probed: BlockDevice, stored: BlockDevice)
    ensures Refreshed(probed, stored, Merge(probed, stored))
  {}

  /** How an action that goes through changes a device that exists before and after it. */
  ghost predicate DeviceLaw(a: Action, before: BlockDevice, after: BlockDevice) {
    match a
    case ClaimDevice(_, _) =>
      && OnlyClaimDataDiffers(before, after) && before.claimState == Unclaimed && after.claimState == Claimed
      && after.spec.claimRef.Some?
    case ReleaseDevice(_, _) =>
      && OnlyClaimDataDiffers(before, after) && before.claimState == Claimed && after.claimState == Released
      && after.spec.claimRef == None
    case FreeDevice(_) =>
      && OnlyClaimDataDiffers(before, after) && before.claimState == Released && after.claimState == Unclaimed
      && after.spec.claimRef == None && DeviceProtection !in after.finalizers
    case DaemonMerge(d, _) => Refreshed(d, before, after)
    case DaemonSetState(_, st) => after == before.(state := st)
    case EditDevice(d) => after == d && OnlyUserDataDiffers(before, after)
    case DeleteDevice(_) => after == before.(deleting := true)
    case _ => false
  }

  /** The action goes through for device b: it is not refused, and b is the device it is about. */
  ghost predicate Reaches(s: Cluster, a: Action, b: string)
    requires Guard(Any, s, a)
  {
    match a
    case ClaimDevice(_, vb) => CurrentDevice(s, b, vb)
    case ReleaseDevice(_, vb) => CurrentDevice(s, b, vb)
    case FreeDevice(id) => CurrentDevice(s, b, s.sessions[id].vb)
    case DaemonMerge(_, vb) => CurrentDevice(s, b, vb)
    case DaemonSetState(vb, _) => CurrentDevice(s, b, vb)
    case DaemonCreate(d) => d.name == b && b !in s.devices
    case EditDevice(d) => d.name == b
    case DeleteDevice(n) => n == b
    case _ => false
  }

  /** How an action that goes through changes the device of a name, also from or to none. */
  ghost predicate DeviceTurn(a: Action, before: Option<BlockDevice>, after: Option<BlockDevice>) {
    match (before, after)
    case (None, None) => false
    case (None, Some(d)) => a == DaemonCreate(d)
    case (Some(d), None) => d.claimState != Claimed && (a.FreeDevice? || a.EditDevice? || a.DeleteDevice?)
    case (Some(d), Some(e)) => DeviceLaw(a, d, e)
  }

  // --- One write at a time ---------------------------------------------------

  lemma ClaimedFrame(d: BlockDevice, c: BlockDeviceClaim)
    ensures var e := ClaimedBy(d, c); OnlyClaimDataDiffers(d, e) && e.claimState == Claimed && e.name == d.name
    ensures ClaimedBy(d, c).spec.claimRef.Some?
  {}

  lemma ReleasedFrame(d: BlockDevice)
    ensures var e := ReleasedFrom(d); OnlyClaimDataDiffers(d, e) && e.claimState == Released && e.name == d.name
    ensures ReleasedFrom(d).spec.claimRef == None
  {}

  lemma FreedFrame(d: BlockDevice)
    ensures var e := Freed(d); OnlyClaimDataDiffers(d, e) && e.claimState == Unclaimed && e.name == d.name
    ensures Freed(d).spec.claimRef == d.spec.claimRef && Count(Freed(d).finalizers, DeviceProtection) == 0
  {}

  /** What an action writes is a turn of the device of that name, which is the one it reaches. */
  ghost predicate WritesTurn(s: Cluster, a: Action)
    requires Guard(Any, s, a)
  {
    var w := DeviceWrite(s, a);
    && (w.Some? ==> Reaches(s, a, w.value.name) && DeviceTurn(a, DeviceAt(s, w.value.name), AfterWrite(w.value)))
    && forall b :: Reaches(s, a, b) ==> w.Some? && w.value.name == b
  }

  lemma ClaimTurns(s: Cluster, vc: nat, vb: nat)
    requires Inv(s) && Guard(Any, s, ClaimDevice(vc, vb))
    ensures WritesTurn(s, ClaimDevice(vc, vb))
  {
    hide Monotone, Backed, IntentsOk, SessionsOk, ClaimsStored, SearchesDevice, OnlyClaimDataDiffers;
    ClaimedFrame(s.deviceLog[vb], s.claimLog[vc]);
  }

  lemma ReleaseTurns(s: Cluster, vc: nat, vb: nat)
    requires Inv(s) && Guard(Any, s, ReleaseDevice(vc, vb))
    ensures WritesTurn(s, ReleaseDevice(vc, vb))
  {
    hide Monotone, Backed, IntentsOk, SessionsOk, ClaimsStored, ReadyToRelease, OnlyClaimDataDiffers;
    ReleasedFrame(s.deviceLog[vb]);
  }

  lemma FreeTurns(s: Cluster, id: nat)
    requires Inv(s) && Guard(Any, s, FreeDevice(id))
    ensures WritesTurn(s, FreeDevice(id))
  {
    hide Monotone, Backed, IntentsOk, ClaimsStored, OnlyClaimDataDiffers, Freed;
    FreedFrame(s.deviceLog[s.sessions[id].vb]);
  }

  lemma MergeTurns(s: Cluster, d: BlockDevice, vb: nat)
    requires Inv(s) && Guard(Any, s, DaemonMerge(d, vb))
    ensures WritesTurn(s, DaemonMerge(d, vb))
  {
    hide Monotone, Backed, IntentsOk, SessionsOk, ClaimsStored, DeviceOk, Merge;
    MergeRefreshes(d, s.deviceLog[vb]);
  }

  /** Edits, deletions, changes of state and creations. */
  lemma OtherTurns(s: Cluster, a: Action)
    requires Inv(s) && Guard(Any, s, a)
    requires !(a.ClaimDevice? || a.ReleaseDevice? || a.FreeDevice? || a.DaemonMerge?)
    ensures WritesTurn(s, a)
  {
    hide Monotone, Backed, IntentsOk, SessionsOk, ClaimsStored;
  }

  /** Every step of every actor turns the device it reaches as its action says, and no other. */
  lemma DeviceStep(s: Cluster, a: Action, b: string)
    requires Inv(s) && Guard(Any, s, a)
    ensures if Reaches(s, a, b) then DeviceTurn(a, DeviceAt(s, b), DeviceAt(Next(s, a), b))
            else DeviceAt(Next(s, a), b) == DeviceAt(s, b)
  {
    hide Inv, Guard, Next, DeviceWrite, DeviceAt, OnlyClaimDataDiffers, Refreshed, AfterWrite, Reaches, DeviceTurn;
    DeviceAtNext(s, a, b);
    match a
    case ClaimDevice(vc, vb) => ClaimTurns(s, vc, vb);
    case ReleaseDevice(vc, vb) => ReleaseTurns(s, vc, vb);
    case FreeDevice(id) => FreeTurns(s, id);
    case DaemonMerge(d, vb) => MergeTurns(s, d, vb);
    case _ => OtherTurns(s, a);
  }

  /** An action reaches at most one device. */
  lemma ReachesOne(s: Cluster, a: Action, b: string, c: string)
    requires Inv(s) && Guard(Any, s, a) && Reaches(s, a, b) && Reaches(s, a, c)
    ensures b == c
  {
    hide Monotone, Backed, IntentsOk, SessionsOk, ClaimsStored, DeviceOk;
  }

  /** The same for every step of every run. */
  lemma DeviceRun(disc: Discipline, run: seq<Cluster>, actions: seq<Action>, i: nat, b: string)
    requires IsRunOf(disc, run, actions) && i < |actions|
    ensures Takes(run[i], actions[i], run[i + 1])
    ensures if Reaches(run[i], actions[i], b) then DeviceTurn(actions[i], DeviceAt(run[i], b), DeviceAt(run[i + 1], b))
            else DeviceAt(run[i + 1], b) == DeviceAt(run[i], b)
  {
    hide Inv, Guard, Next, IsRun, DeviceAt, Reaches, DeviceTurn;
    RunOfIsRun(disc, run, actions);
    RunKeepsInv(disc, run, i);
    assert Takes(run[i], actions[i], run[i + 1]);
    DeviceStep(run[i], actions[i], b);
  }

  /** The writes of users and daemons; all others to a device are the controllers'. */
  predicate Foreigner(a: Action) {
    || a.EditDevice? || a.DeleteDevice? || a.DaemonCreate? || a.DaemonMerge? || a.DaemonSetState?
  }

  /** However often a device is claimed, released and freed meanwhile, the controllers change nothing else of it. */
  lemma {:induction false} ControllersKeepTheRest(disc: Discipline, run: seq<Cluster>, actions: seq<Action>, i: nat,
                                                  j: nat, b: string)
    requires IsRunOf(disc, run, actions) && i <= j < |run|
    requires forall k :: i <= k < j ==> !Foreigner(actions[k])
    requires DeviceAt(run[j], b).Some?
    ensures DeviceAt(run[i], b).Some? && OnlyClaimDataDiffers(DeviceAt(run[i], b).value, DeviceAt(run[j], b).value)
    decreases j
  {
    hide IsRunOf, Reaches, DeviceAt;
    if i < j {
      RunLengths(disc, run, actions);
      DeviceRun(disc, run, actions, j - 1, b);
      assert run[j - 1 + 1] == run[j];
      ControllersKeepTheRest(disc, run, actions, i, j - 1, b);
    }
  }

  lemma RunLengths(disc: Discipline, run: seq<Cluster>, actions: seq<Action>)
    requires IsRunOf(disc, run, actions)
    ensures |run| == |actions| + 1
  {}

  // --- Claims ----------------------------------------------------------------

  /** At most the phase, the bound device and the system's own finalizer differ. */
  ghost predicate OnlyBindingDiffers(before: BlockDeviceClaim, after: BlockDeviceClaim) {
    && after.kind == before.kind && after.name == before.name && after.uid == before.uid
    && after.annotations == before.annotations && after.deleting == before.deleting
    && after.spec.(blockDeviceName := before.spec.blockDeviceName) == before.spec
    && forall f :: f != ClaimProtection ==> Count(after.finalizers, f) == Count(before.finalizers, f)
  }

  /** At most what users may edit differs: not the identity, the phase or the binding. */
  ghost predicate OnlyRequestDiffers(before: BlockDeviceClaim, after: BlockDeviceClaim) {
    && after.kind == before.kind && after.name == before.name && after.uid == before.uid
    && after.phase == before.phase && after.deleting == before.deleting
    && (before.phase == Bound ==> after.spec.blockDeviceName == before.spec.blockDeviceName)
    && Count(after.finalizers, ClaimProtection) == Count(before.finalizers, ClaimProtection)
  }

  /** How an action that goes through changes a claim, also from or to none. */
  ghost predicate ClaimTurn(a: Action, before: Option<BlockDeviceClaim>, after: Option<BlockDeviceClaim>) {
    match (before, after)
    case (None, None) => false
    case (None, Some(c)) => a == CreateClaim(c)
    case (Some(c), None) => a.UnbindClaim? || a.DeleteClaim? || a.EditClaim?
    case (Some(c), Some(e)) =>
      match a
      case BindClaim(_, b) =>
        && OnlyBindingDiffers(c, e) && c.phase != Bound && e.phase == Bound && e.spec.blockDeviceName == b
        && ClaimProtection in e.finalizers
      case SetPending(_) => e == c.(phase := Pending)
      case EditClaim(d) => e == d && OnlyRequestDiffers(c, e)
      case DeleteClaim(_) => e == c.(deleting := true)
      case _ => false
  }

  /** The action goes through for claim n. */
  ghost predicate ReachesClaim(s: Cluster, a: Action, n: string)
    requires Guard(Any, s, a)
  {
    match a
    case BindClaim(vc, _) => CurrentClaim(s, n, vc)
    case SetPending(vc) => CurrentClaim(s, n, vc)
    case UnbindClaim(vc) => CurrentClaim(s, n, vc)
    case CreateClaim(c) => c.name == n
    case EditClaim(c) => c.name == n
    case DeleteClaim(m) => m == n
    case _ => false
  }

  ghost predicate WritesClaimTurn(s: Cluster, a: Action)
    requires Guard(Any, s, a)
  {
    var w := ClaimWrite(s, a);
    && (w.Some? ==>
          ReachesClaim(s, a, w.value.name) && ClaimTurn(a, ClaimAt(s, w.value.name), AfterClaimWrite(w.value)))
    && forall n :: ReachesClaim(s, a, n) ==> w.Some? && w.value.name == n
  }

  lemma BoundFrame(c: BlockDeviceClaim, b: string)
    ensures var e := BoundTo(c, b);
            && OnlyBindingDiffers(c, e) && e.phase == Bound && e.spec.blockDeviceName == b && e.name == c.name
            && ClaimProtection in e.finalizers && e.finalizers != []
  {}

  lemma BindTurns(s: Cluster, vc: nat, b: string)
    requires Inv(s) && Guard(Any, s, BindClaim(vc, b))
    ensures WritesClaimTurn(s, BindClaim(vc, b))
  {
    hide Monotone, Backed, DevicesStored, SessionsOk, OnlyBindingDiffers, BoundTo;
    assert IntentOk(s, Bind(vc, b));
    BoundFrame(s.claimLog[vc], b);
  }

  lemma UnbindTurns(s: Cluster, vc: nat)
    requires Inv(s) && Guard(Any, s, UnbindClaim(vc))
    ensures WritesClaimTurn(s, UnbindClaim(vc))
  {
    hide Monotone, Backed, DevicesStored, SessionsOk;
    assert IntentOk(s, Unbind(vc));
    WithoutOnly(ClaimProtection);
  }

  lemma OtherClaimTurns(s: Cluster, a: Action)
    requires Inv(s) && Guard(Any, s, a) && !a.BindClaim? && !a.UnbindClaim?
    ensures WritesClaimTurn(s, a)
  {
    hide Monotone, Backed, DevicesStored, IntentsOk, SessionsOk;
  }

  /** Every step of every actor turns the claim it reaches as its action says, and no other. */
  lemma ClaimStep(s: Cluster, a: Action, n: string)
    requires Inv(s) && Guard(Any, s, a)
    ensures if ReachesClaim(s, a, n) then ClaimTurn(a, ClaimAt(s, n), ClaimAt(Next(s, a), n))
            else ClaimAt(Next(s, a), n) == ClaimAt(s, n)
  {
    hide Inv, Guard, Next, ClaimAt, ReachesClaim, ClaimTurn, ClaimWrite, AfterClaimWrite;
    ClaimAtNext(s, a, n);
    match a
    case BindClaim(vc, b) => BindTurns(s, vc, b);
    case UnbindClaim(vc) => UnbindTurns(s, vc);
    case _ => OtherClaimTurns(s, a);
  }

  /** An action reaches at most one claim. */
  lemma ReachesOneClaim(s: Cluster, a: Action, m: string, n: string)
    requires Inv(s) && Guard(Any, s, a) && ReachesClaim(s, a, m) && ReachesClaim(s, a, n)
    ensures m == n
  {
    hide Monotone, Backed, IntentsOk, SessionsOk, DevicesStored, ClaimOk;
  }

  /** The same for every step of every run. */
  lemma ClaimRun(disc: Discipline, run: seq<Cluster>, actions: seq<Action>, i: nat, n: string)
    requires IsRunOf(disc, run, actions) && i < |actions|
    ensures Takes(run[i], actions[i], run[i + 1])
    ensures if ReachesClaim(run[i], actions[i], n)
            then ClaimTurn(actions[i], ClaimAt(run[i], n), ClaimAt(run[i + 1], n))
            else ClaimAt(run[i + 1], n) == ClaimAt(run[i], n)
  {
    hide Inv, Guard, Next, IsRun, ClaimAt, ReachesClaim, ClaimTurn;
    RunOfIsRun(disc, run, actions);
    RunKeepsInv(disc, run, i);
    assert Takes(run[i], actions[i], run[i + 1]);
    ClaimStep(run[i], actions[i], n);
  }
}
