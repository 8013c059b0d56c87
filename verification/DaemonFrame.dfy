/**
  What the node daemons leave alone.  They share the device objects with the
  controllers, and no sequence of their writes disturbs a claim.
  */
module DaemonFrame {
  import opened Objects
  import opened Protocol
  import opened Invariant
  import opened ClaimSafety

  predicate DaemonAction(a: Action) {
    a.DaemonCreate? || a.DaemonMerge? || a.DaemonSetState?
  }

  ghost predicate DaemonStep(s: Cluster, t: Cluster) {
    exists a :: DaemonAction(a) && Guard(Any, s, a) && t == Next(s, a)
  }

  ghost predicate IsDaemonRun(run: seq<Cluster>) {
    |run| > 0 && Inv(run[0]) && forall i :: 0 <= i < |run| - 1 ==> DaemonStep(run[i], run[i + 1])
  }

  /** Claim data and finalizers are untouched, and so is what a consumer relies on while the device is in use. */
  predicate ClaimDataKept(before: BlockDevice, after: BlockDevice) {
    && after.name == before.name
    && after.claimState == before.claimState && after.spec.claimRef == before.spec.claimRef
    && after.finalizers == before.finalizers && after.deleting == before.deleting
    && (before.claimState != Unclaimed ==>
          after.spec.fileSystem == before.spec.fileSystem && after.spec.details == before.spec.details)
  }

  lemma DaemonWriteKeepsClaimData(s: Cluster, a: Action, b: string)
    requires Inv(s) && DaemonAction(a) && Guard(Any, s, a) && DeviceAt(s, b).Some?
    ensures var w := DeviceWrite(s, a);
            w.Some? && w.value.name == b ==> AfterWrite(w.value) == w && ClaimDataKept(DeviceAt(s, b).value, w.value)
  {
    hide Monotone, Backed, ClaimsStored, IntentsOk, SessionsOk;
  }

  lemma DaemonStepKeepsClaimData(s: Cluster, t: Cluster, b: string)
    requires Inv(s) && DaemonStep(s, t) && DeviceAt(s, b).Some?
    ensures Inv(t) && DeviceAt(t, b).Some? && ClaimDataKept(DeviceAt(s, b).value, DeviceAt(t, b).value)
  {
    hide Inv, Guard, Next, DeviceWrite, DeviceAt, AfterWrite;
    var a :| DaemonAction(a) && Guard(Any, s, a) && t == Next(s, a);
    StepKeepsInv(s, a);
    DeviceAtNext(s, a, b);
    DaemonWriteKeepsClaimData(s, a, b);
  }

  /** Any sequence of daemon writes, from any reachable state, keeps every device's claim data. */
  lemma {:induction false} DaemonsKeepClaimData(run: seq<Cluster>, i: nat, b: string)
    requires IsDaemonRun(run) && i < |run| && DeviceAt(run[0], b).Some?
    ensures Inv(run[i]) && DeviceAt(run[i], b).Some?
    ensures ClaimDataKept(DeviceAt(run[0], b).value, DeviceAt(run[i], b).value)
  {
    if i > 0 {
      DaemonsKeepClaimData(run, i - 1, b);
      assert DaemonStep(run[i - 1], run[i - 1 + 1]);
      hide Inv, DaemonStep, DeviceAt;
      DaemonStepKeepsClaimData(run[i - 1], run[i], b);
    }
  }

  /** Merging the same probe result again changes nothing. */
  lemma MergeIsIdempotent(probed: BlockDevice, stored: BlockDevice)
    requires NewDevice(probed)
    ensures Merge(probed, Merge(probed, stored)) == Merge(probed, stored)
  {
    assert stored.labels + probed.labels + probed.labels == stored.labels + probed.labels;
    assert stored.annotations + probed.annotations + probed.annotations == stored.annotations + probed.annotations;
  }
}
