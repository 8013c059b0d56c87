/**
  The inductive invariant of the claim protocol: it holds in every state of every
  run, under any interleaving, stale reads and rejected writes.
  */
module Invariant {
  import opened Objects
  import opened Protocol

  type Index = map<string, nat>
  type Devices = map<nat, BlockDevice>
  type Claims = map<nat, BlockDeviceClaim>

  /** A stored device: referenced exactly while claimed, protected exactly while in use. */
  predicate DeviceOk(d: BlockDevice) {
    && (d.claimState == Claimed <==> d.spec.claimRef.Some?)
    && Count(d.finalizers, DeviceProtection) == (if d.claimState == Unclaimed then 0 else 1)
  }

  /** A stored claim: protected exactly while bound. */
  predicate ClaimOk(c: BlockDeviceClaim) {
    && c.kind == BlockDeviceClaimKind
    && Count(c.finalizers, ClaimProtection) == (if c.phase == Bound then 1 else 0)
  }

  ghost predicate DevicesStored(rev: nat, index: Index, log: Devices) {
    && (forall v :: v in log ==> v <= rev && DeviceOk(log[v]) && (log[v].deleting ==> log[v].finalizers != []))
    && (forall b :: b in index ==> index[b] in log && log[index[b]].name == b)
  }

  ghost predicate ClaimsStored(rev: nat, index: Index, log: Claims) {
    && (forall v :: v in log ==>
          v <= rev && log[v].uid <= rev && ClaimOk(log[v]) && (log[v].deleting ==> log[v].finalizers != []))
    && (forall c :: c in index ==> index[c] in log && log[index[c]].name == c)
  }

  /** What an older version of a claim says still holds of its newer version. */
  predicate Precedes(older: BlockDeviceClaim, newer: BlockDeviceClaim) {
    && older.name == newer.name
    && (older.deleting ==> newer.deleting)
    && (older.phase == Bound ==> newer.phase == Bound && newer.spec.blockDeviceName == older.spec.blockDeviceName)
  }

  ghost predicate Newest(log: Claims, c: BlockDeviceClaim) {
    forall v :: v in log && log[v].uid == c.uid ==> Precedes(log[v], c)
  }

  ghost predicate Monotone(index: Index, log: Claims) {
    forall c :: c in index && index[c] in log ==> Newest(log, log[index[c]])
  }

  /** Device `b` is claimed by the claim with this uid. */
  ghost predicate Held(index: Index, log: Devices, b: string, uid: nat) {
    && b in index && index[b] in log && log[index[b]].claimState == Claimed
    && log[index[b]].spec.claimRef.Some? && log[index[b]].spec.claimRef.value.uid == uid
  }

  ghost predicate HeldBy(s: Cluster, b: string, uid: nat) {
    Held(s.devices, s.deviceLog, b, uid)
  }

  ghost predicate Live(c: BlockDeviceClaim) {
    c.phase == Bound && !c.deleting
  }

  /** A live bound claim holds the device it names. */
  ghost predicate Backed(s: Cluster) {
    forall c :: c in s.claims && s.claims[c] in s.claimLog && Live(s.claimLog[s.claims[c]]) ==>
      HeldBy(s, s.claimLog[s.claims[c]].spec.blockDeviceName, s.claimLog[s.claims[c]].uid)
  }

  /** An intent to bind that could still succeed refers to a device held for the claim. */
  ghost predicate IntentOk(s: Cluster, i: Intent) {
    && i.vc in s.claimLog
    && match i
       case Bind(vc, b) =>
         && SearchesDevice(s.claimLog[vc])
         && (CurrentClaim(s, s.claimLog[vc].name, vc) ==> HeldBy(s, b, s.claimLog[vc].uid))
       case Unbind(vc) => ReadyToRelease(s.claimLog[vc])
  }

  ghost predicate IntentsOk(s: Cluster) {
    forall i :: i in s.intents ==> IntentOk(s, i)
  }

  ghost predicate SessionsOk(sessions: map<nat, Session>, log: Devices) {
    forall id :: id in sessions ==> sessions[id].vb in log && log[sessions[id].vb].claimState == Released
  }

  /** The state of every job that exists is a known one. */
  ghost predicate JobsLogged(jobs: map<string, Job>, log: set<JobVersion>) {
    forall j :: j in jobs ==> JobVersion(j, jobs[j].succeeded) in log
  }

  ghost predicate Inv(s: Cluster) {
    && JobsLogged(s.jobs, s.jobLog)
    && DevicesStored(s.rev, s.devices, s.deviceLog)
    && ClaimsStored(s.rev, s.claims, s.claimLog)
    && Monotone(s.claims, s.claimLog)
    && SessionsOk(s.sessions, s.deviceLog)
    && Backed(s)
    && IntentsOk(s)
  }

  // --- Writes to a device --------------------------------------------------

  lemma StoreDeviceStored(s: Cluster, d: BlockDevice)
    requires DevicesStored(s.rev, s.devices, s.deviceLog) && ClaimsStored(s.rev, s.claims, s.claimLog) && DeviceOk(d)
    requires SessionsOk(s.sessions, s.deviceLog)
    ensures var t := StoreDevice(s, d);
            && DevicesStored(t.rev, t.devices, t.deviceLog) && ClaimsStored(t.rev, t.claims, t.claimLog)
            && SessionsOk(t.sessions, t.deviceLog)
  {
    hide ClaimsStored, DeviceOk;
    ClaimsStayStored(s.rev, s.rev + 1, s.claims, s.claimLog);
  }

  lemma ClaimsStayStored(rev: nat, later: nat, index: Index, log: Claims)
    requires ClaimsStored(rev, index, log) && rev <= later
    ensures ClaimsStored(later, index, log)
  {}

  /** Only the written device can stop being held, and not if it keeps its reference. */
  lemma StoreDeviceHeld(s: Cluster, d: BlockDevice, b: string, uid: nat)
    requires DevicesStored(s.rev, s.devices, s.deviceLog) && DeviceOk(d)
    requires HeldBy(s, b, uid)
    requires b == d.name ==> d.claimState == Claimed && d.spec.claimRef == s.deviceLog[s.devices[b]].spec.claimRef
    ensures HeldBy(StoreDevice(s, d), b, uid)
  {
    if b == d.name { assert DeviceProtection in d.finalizers; }
  }

  lemma StoreDeviceBacked(s: Cluster, d: BlockDevice)
    requires DevicesStored(s.rev, s.devices, s.deviceLog) && DeviceOk(d) && Backed(s)
    requires forall uid :: HeldBy(s, d.name, uid) && Needed(s, d.name, uid) ==> KeepsRef(s, d)
    ensures Backed(StoreDevice(s, d))
  {
    hide DeviceOk, DevicesStored, Needed;
    var t := StoreDevice(s, d);
    forall c | c in t.claims && t.claims[c] in t.claimLog && Live(t.claimLog[t.claims[c]])
      ensures HeldBy(t, t.claimLog[t.claims[c]].spec.blockDeviceName, t.claimLog[t.claims[c]].uid)
    {
      var k := s.claimLog[s.claims[c]];
      assert LiveNeed(s, c, k.spec.blockDeviceName, k.uid);
      NeededIf(s, c, Unbind(0), k.spec.blockDeviceName, k.uid);
      StoreDeviceHeld(s, d, k.spec.blockDeviceName, k.uid);
    }
  }

  lemma StoreDeviceIntents(s: Cluster, d: BlockDevice)
    requires DevicesStored(s.rev, s.devices, s.deviceLog) && DeviceOk(d) && IntentsOk(s)
    requires forall uid :: HeldBy(s, d.name, uid) && Needed(s, d.name, uid) ==> KeepsRef(s, d)
    ensures IntentsOk(StoreDevice(s, d))
  {
    hide DeviceOk, DevicesStored, Needed, SearchesDevice, ReadyToRelease;
    var t := StoreDevice(s, d);
    forall i | i in t.intents ensures IntentOk(t, i) {
      assert IntentOk(s, i);
      if i.Bind? && CurrentClaim(s, s.claimLog[i.vc].name, i.vc) {
        assert BindNeed(s, i, i.device, s.claimLog[i.vc].uid);
        NeededIf(s, "", i, i.device, s.claimLog[i.vc].uid);
        StoreDeviceHeld(s, d, i.device, s.claimLog[i.vc].uid);
      }
    }
  }

  lemma NeededIf(s: Cluster, c: string, i: Intent, b: string, uid: nat)
    requires LiveNeed(s, c, b, uid) || BindNeed(s, i, b, uid)
    ensures Needed(s, b, uid)
  {}

  /** A device write keeps the invariant if every claim that needs its device keeps it. */
  lemma StoreDeviceKeepsInv(s: Cluster, d: BlockDevice)
    requires Inv(s) && DeviceOk(d)
    requires forall uid :: HeldBy(s, d.name, uid) && Needed(s, d.name, uid) ==> KeepsRef(s, d)
    ensures Inv(StoreDevice(s, d))
  {
    hide Monotone, DeviceOk, SessionsOk, Backed, IntentsOk, DevicesStored, ClaimsStored, Needed, KeepsRef, HeldBy;
    StoreDeviceStored(s, d);
    StoreDeviceBacked(s, d);
    StoreDeviceIntents(s, d);
  }

  ghost predicate KeepsRef(s: Cluster, d: BlockDevice) {
    && d.name in s.devices && s.devices[d.name] in s.deviceLog && d.claimState == Claimed
    && d.spec.claimRef == s.deviceLog[s.devices[d.name]].spec.claimRef
  }

  ghost predicate LiveNeed(s: Cluster, c: string, b: string, uid: nat) {
    && c in s.claims && s.claims[c] in s.claimLog && Live(s.claimLog[s.claims[c]])
    && s.claimLog[s.claims[c]].spec.blockDeviceName == b && s.claimLog[s.claims[c]].uid == uid
  }

  ghost predicate BindNeed(s: Cluster, i: Intent, b: string, uid: nat) {
    && i in s.intents && i.Bind? && i.device == b && i.vc in s.claimLog
    && CurrentClaim(s, s.claimLog[i.vc].name, i.vc) && s.claimLog[i.vc].uid == uid
  }

  /** Some live claim, or some bind that could still succeed, relies on uid holding device b. */
  ghost predicate Needed(s: Cluster, b: string, uid: nat) {
    (exists c :: LiveNeed(s, c, b, uid)) || (exists i :: BindNeed(s, i, b, uid))
  }

  /** Changing only intents, sessions and jobs with their log. */
  lemma SameStoreKeepsInv(s: Cluster, t: Cluster)
    requires Inv(s)
    requires t == s.(intents := t.intents, sessions := t.sessions, jobs := t.jobs, jobLog := t.jobLog)
    requires JobsLogged(t.jobs, t.jobLog) && SessionsOk(t.sessions, t.deviceLog)
    requires forall i :: i in t.intents && i !in s.intents ==> IntentOk(t, i)
    ensures Inv(t)
  {
    forall i | i in t.intents ensures IntentOk(t, i) {
      if i in s.intents { assert IntentOk(s, i); }
    }
  }

  /**
    The heart of claim safety: the device a release writes is held by no live
    bound claim and wanted by no bind that could still succeed.
    */
  lemma ReleasedDeviceNotNeeded(s: Cluster, vc: nat, b: string)
    requires Inv(s) && vc in s.claimLog && ReadyToRelease(s.claimLog[vc])
    ensures !Needed(s, b, s.claimLog[vc].uid)
  {
    var c0 := s.claimLog[vc];
    forall c ensures !LiveNeed(s, c, b, c0.uid) {
      if LiveNeed(s, c, b, c0.uid) {
        assert false;
      }
    }
    forall i ensures !BindNeed(s, i, b, c0.uid) {
      if BindNeed(s, i, b, c0.uid) {
        assert false;
      }
    }
  }

  /** What every action writes to a device is well formed and takes it from nobody who needs it. */
  lemma DeviceWriteOk(s: Cluster, a: Action)
    requires Inv(s) && Guard(Any, s, a) && DeviceWrite(s, a).Some?
    ensures var d := DeviceWrite(s, a).value;
            DeviceOk(d) && forall uid :: HeldBy(s, d.name, uid) && Needed(s, d.name, uid) ==> KeepsRef(s, d)
  {
    hide Inv, Needed, KeepsRef, DeviceOk, HeldBy, Freed;
    match a
    case ReleaseDevice(vc, vb) => ReleaseWriteOk(s, vc, vb);
    case ClaimDevice(vc, vb) => ClaimingWriteOk(s, vc, vb);
    case FreeDevice(id) => FreeWriteOk(s, id);
    case DaemonMerge(d, vb) => MergeWriteOk(s, d, vb);
    case _ => OtherWriteOk(s, a);
  }

  lemma ReleaseWriteOk(s: Cluster, vc: nat, vb: nat)
    requires Inv(s) && Guard(Any, s, ReleaseDevice(vc, vb)) && CurrentDevice(s, s.deviceLog[vb].name, vb)
    ensures var d := ReleasedFrom(s.deviceLog[vb]);
            DeviceOk(d) && forall uid :: HeldBy(s, d.name, uid) ==> !Needed(s, d.name, uid)
  {
    hide Monotone, Backed, IntentsOk, Needed;
    ReleasedDeviceNotNeeded(s, vc, s.deviceLog[vb].name);
  }

  lemma ClaimingWriteOk(s: Cluster, vc: nat, vb: nat)
    requires Inv(s) && Guard(Any, s, ClaimDevice(vc, vb)) && CurrentDevice(s, s.deviceLog[vb].name, vb)
    ensures var d := ClaimedBy(s.deviceLog[vb], s.claimLog[vc]);
            DeviceOk(d) && forall uid :: !HeldBy(s, d.name, uid)
  {
    hide Monotone, Backed, IntentsOk, ClaimsStored;
  }

  lemma FreeWriteOk(s: Cluster, id: nat)
    requires Inv(s) && Guard(Any, s, FreeDevice(id)) && DeviceWrite(s, FreeDevice(id)).Some?
    ensures var d := DeviceWrite(s, FreeDevice(id)).value;
            DeviceOk(d) && forall uid :: !HeldBy(s, d.name, uid)
  {
    hide Monotone, Backed, ClaimsStored, IntentsOk;
  }

  lemma MergeWriteOk(s: Cluster, d: BlockDevice, vb: nat)
    requires Inv(s) && Guard(Any, s, DaemonMerge(d, vb)) && CurrentDevice(s, s.deviceLog[vb].name, vb)
    ensures var w := Merge(d, s.deviceLog[vb]);
            DeviceOk(w) && forall uid :: HeldBy(s, w.name, uid) ==> KeepsRef(s, w)
  {
    hide Monotone, Backed, ClaimsStored, IntentsOk, SessionsOk;
  }

  lemma OtherWriteOk(s: Cluster, a: Action)
    requires Inv(s) && Guard(Any, s, a) && DeviceWrite(s, a).Some?
    requires !a.ReleaseDevice? && !a.ClaimDevice? && !a.FreeDevice? && !a.DaemonMerge?
    ensures var d := DeviceWrite(s, a).value;
            DeviceOk(d) && forall uid :: HeldBy(s, d.name, uid) ==> KeepsRef(s, d)
  {
    hide Monotone, Backed, ClaimsStored, IntentsOk, SessionsOk;
  }

  // --- Writes to a claim ---------------------------------------------------

  /** A claim is stored as a newer version of itself, or under a uid never used before. */
  ghost predicate Successor(s: Cluster, c: BlockDeviceClaim) {
    if c.name in s.claims && s.claims[c.name] in s.claimLog then
      s.claimLog[s.claims[c.name]].uid == c.uid && Precedes(s.claimLog[s.claims[c.name]], c)
    else
      c.uid == s.rev + 1
  }

  lemma StoreClaimStored(s: Cluster, c: BlockDeviceClaim)
    requires DevicesStored(s.rev, s.devices, s.deviceLog) && ClaimsStored(s.rev, s.claims, s.claimLog) && ClaimOk(c)
    requires Successor(s, c)
    ensures var t := StoreClaim(s, c);
            DevicesStored(t.rev, t.devices, t.deviceLog) && ClaimsStored(t.rev, t.claims, t.claimLog)
  {}

  lemma StoreClaimMonotone(s: Cluster, c: BlockDeviceClaim)
    requires ClaimsStored(s.rev, s.claims, s.claimLog) && Monotone(s.claims, s.claimLog)
    requires Successor(s, c)
    ensures var t := StoreClaim(s, c); Monotone(t.claims, t.claimLog)
  {
    if !(c.deleting && c.finalizers == []) {
      var index, log := s.claims[c.name := s.rev + 1], s.claimLog[s.rev + 1 := c];
      forall k | k in index && index[k] in log
        ensures Newest(log, log[index[k]])
      {
        if k == c.name {
          NewestIsSuccessor(s, c);
        } else {
          OthersStayNewest(s, c, k);
        }
      }
    }
  }

  lemma NewestIsSuccessor(s: Cluster, c: BlockDeviceClaim)
    requires ClaimsStored(s.rev, s.claims, s.claimLog) && Monotone(s.claims, s.claimLog)
    requires Successor(s, c)
    ensures Newest(s.claimLog[s.rev + 1 := c], c)
  {
    if c.name in s.claims { assert Newest(s.claimLog, s.claimLog[s.claims[c.name]]); }
  }

  lemma OthersStayNewest(s: Cluster, c: BlockDeviceClaim, k: string)
    requires ClaimsStored(s.rev, s.claims, s.claimLog) && Monotone(s.claims, s.claimLog)
    requires Successor(s, c) && k in s.claims && k != c.name
    ensures var o := s.claimLog[s.claims[k]];
            o.uid != c.uid && Newest(s.claimLog, o) && Newest(s.claimLog[s.rev + 1 := c], o)
  {
    assert Newest(s.claimLog, s.claimLog[s.claims[k]]);
    if c.name in s.claims { assert s.claimLog[s.claims[c.name]].name == c.name; }
  }

  lemma StoreClaimBacked(s: Cluster, c: BlockDeviceClaim)
    requires ClaimsStored(s.rev, s.claims, s.claimLog) && Backed(s)
    requires Live(c) ==> HeldBy(s, c.spec.blockDeviceName, c.uid)
    ensures Backed(StoreClaim(s, c))
  {
    var t := StoreClaim(s, c);
    forall k | k in t.claims && t.claims[k] in t.claimLog && Live(t.claimLog[t.claims[k]])
      ensures HeldBy(t, t.claimLog[t.claims[k]].spec.blockDeviceName, t.claimLog[t.claims[k]].uid)
    {
      if k != c.name {
        assert HeldBy(s, s.claimLog[s.claims[k]].spec.blockDeviceName, s.claimLog[s.claims[k]].uid);
      }
    }
  }

  /** The new version is current, so no older intent can succeed on this claim any more. */
  lemma StoreClaimIntents(s: Cluster, c: BlockDeviceClaim)
    requires ClaimsStored(s.rev, s.claims, s.claimLog) && IntentsOk(s)
    ensures IntentsOk(StoreClaim(s, c))
  {
    hide ClaimOk, SearchesDevice, ReadyToRelease, Held;
    var t := StoreClaim(s, c);
    forall i | i in t.intents ensures IntentOk(t, i) {
      assert IntentOk(s, i);
    }
  }

  /** A claim write keeps the invariant if a claim that becomes live holds what it names. */
  lemma StoreClaimKeepsInv(s: Cluster, c: BlockDeviceClaim)
    requires Inv(s) && ClaimOk(c) && Successor(s, c)
    requires Live(c) ==> HeldBy(s, c.spec.blockDeviceName, c.uid)
    ensures Inv(StoreClaim(s, c))
  {
    hide Monotone, ClaimOk, DeviceOk, Successor, SessionsOk, Backed, IntentsOk, DevicesStored, ClaimsStored;
    StoreClaimStored(s, c);
    StoreClaimMonotone(s, c);
    StoreClaimBacked(s, c);
    StoreClaimIntents(s, c);
  }

  lemma RemoveClaimKeepsInv(s: Cluster, n: string)
    requires Inv(s)
    ensures Inv(s.(rev := s.rev + 1, claims := s.claims - {n}))
  {
    var t := s.(rev := s.rev + 1, claims := s.claims - {n});
    forall i | i in t.intents ensures IntentOk(t, i) {
      assert IntentOk(s, i);
    }
  }

  /** What every action writes to a claim is a well-formed successor that holds what it names, or removes it. */
  lemma ClaimWriteOk(s: Cluster, a: Action)
    requires Inv(s) && Guard(Any, s, a) && ClaimWrite(s, a).Some?
    ensures var c := ClaimWrite(s, a).value;
            || (c.deleting && c.finalizers == [])
            || (ClaimOk(c) && Successor(s, c) && (Live(c) ==> HeldBy(s, c.spec.blockDeviceName, c.uid)))
  {
    hide Monotone, DevicesStored, SessionsOk, DeviceOk, Held, ClaimsStored, Backed, IntentsOk;
    match a
    case BindClaim(vc, b) => BindWriteOk(s, vc, b);
    case UnbindClaim(vc) => UnbindWriteOk(s, vc);
    case _ => OtherClaimWriteOk(s, a);
  }

  lemma BindWriteOk(s: Cluster, vc: nat, b: string)
    requires Inv(s) && Guard(Any, s, BindClaim(vc, b)) && CurrentClaim(s, s.claimLog[vc].name, vc)
    ensures var c := BoundTo(s.claimLog[vc], b);
            ClaimOk(c) && Successor(s, c) && HeldBy(s, c.spec.blockDeviceName, c.uid)
  {
    hide Monotone, DevicesStored, SessionsOk, DeviceOk, Held;
    assert IntentOk(s, Bind(vc, b));
  }

  lemma UnbindWriteOk(s: Cluster, vc: nat)
    requires Inv(s) && Guard(Any, s, UnbindClaim(vc))
    ensures var c := Unprotected(s.claimLog[vc]); c.deleting && c.finalizers == []
  {
    assert IntentOk(s, Unbind(vc));
    WithoutOnly(ClaimProtection);
  }

  lemma OtherClaimWriteOk(s: Cluster, a: Action)
    requires Inv(s) && Guard(Any, s, a) && ClaimWrite(s, a).Some? && !a.BindClaim? && !a.UnbindClaim?
    ensures var c := ClaimWrite(s, a).value;
            ClaimOk(c) && Successor(s, c) && (Live(c) ==> HeldBy(s, c.spec.blockDeviceName, c.uid))
  {
    hide Monotone, DevicesStored, SessionsOk, DeviceOk, Held, IntentsOk;
  }

  // --- Every action --------------------------------------------------------

  lemma OneWrite(s: Cluster, a: Action)
    requires Guard(Any, s, a)
    ensures DeviceWrite(s, a).None? || ClaimWrite(s, a).None?
  {}

  /** The store writes of an action. */
  lemma StoredKeepsInv(s: Cluster, a: Action)
    requires Inv(s) && Guard(Any, s, a)
    ensures Inv(Stored(s, DeviceWrite(s, a), ClaimWrite(s, a)))
  {
    hide Guard, DeviceWrite, ClaimWrite, Inv, DeviceOk, ClaimOk, Successor, HeldBy, Live, KeepsRef, Needed;
    var dw, cw := DeviceWrite(s, a), ClaimWrite(s, a);
    OneWrite(s, a);
    if dw.Some? {
      DeviceWriteOk(s, a);
      StoreDeviceKeepsInv(s, dw.value);
    } else if cw.Some? {
      ClaimWriteOk(s, a);
      if cw.value.deleting && cw.value.finalizers == [] {
        RemoveClaimKeepsInv(s, cw.value.name);
        assert Stored(s, dw, cw) == s.(rev := s.rev + 1, claims := s.claims - {cw.value.name});
      } else {
        StoreClaimKeepsInv(s, cw.value);
      }
    }
  }

  ghost predicate Extends<T(!new)>(older: map<nat, T>, newer: map<nat, T>) {
    forall v :: v in older ==> v in newer && newer[v] == older[v]
  }

  /** Store writes add versions and touch neither jobs, intents nor sessions. */
  ghost predicate OnlyAdds(s: Cluster, t: Cluster) {
    && t.jobs == s.jobs && t.jobLog == s.jobLog && t.intents == s.intents && t.sessions == s.sessions
    && Extends(s.deviceLog, t.deviceLog) && Extends(s.claimLog, t.claimLog)
  }

  lemma StoreDeviceAdds(s: Cluster, d: BlockDevice)
    requires s.rev + 1 !in s.deviceLog
    ensures OnlyAdds(s, StoreDevice(s, d))
  {}

  lemma StoreClaimAdds(s: Cluster, c: BlockDeviceClaim)
    requires s.rev + 1 !in s.claimLog
    ensures OnlyAdds(s, StoreClaim(s, c))
  {}

  lemma StoredAdds(s: Cluster, a: Action)
    requires Inv(s) && Guard(Any, s, a)
    ensures OnlyAdds(s, Stored(s, DeviceWrite(s, a), ClaimWrite(s, a)))
  {
    InvParts(s);
    assert s.rev + 1 !in s.deviceLog && s.rev + 1 !in s.claimLog;
    var dw, cw := DeviceWrite(s, a), ClaimWrite(s, a);
    OneWrite(s, a);
    hide Inv, Guard, DeviceWrite, ClaimWrite, StoreDevice, StoreClaim;
    if dw.Some? { StoreDeviceAdds(s, dw.value); }
    if cw.Some? { StoreClaimAdds(s, cw.value); }
  }

  lemma LogGrows(s: Cluster, a: Action)
    requires Inv(s) && Guard(Any, s, a)
    ensures Extends(s.deviceLog, Next(s, a).deviceLog)
  {
    hide Inv, Guard, DeviceWrite, ClaimWrite, Stored;
    StoredAdds(s, a);
  }

  lemma JobsAfterLogged(s: Cluster, a: Action)
    requires JobsLogged(s.jobs, s.jobLog) && Guard(Any, s, a)
    ensures JobsLogged(JobsAfter(s, a), JobLogAfter(s, a))
  {
    hide JobName;
  }

  lemma SessionsAfterOk(s: Cluster, a: Action)
    requires SessionsOk(s.sessions, s.deviceLog) && Guard(Any, s, a)
    ensures SessionsOk(SessionsAfter(s, a), s.deviceLog)
  {}

  lemma NewIntentOk(s: Cluster, a: Action, i: Intent)
    requires Inv(s) && Guard(Any, s, a) && i in IntentsAfter(s, a) && i !in s.intents
    ensures IntentOk(Stored(s, DeviceWrite(s, a), ClaimWrite(s, a)), i)
  {
    hide Monotone, Backed, ClaimsStored, IntentsOk, DeviceOk;
  }

  lemma SessionsStayOk(sessions: map<nat, Session>, older: Devices, newer: Devices)
    requires SessionsOk(sessions, older)
    requires Extends(older, newer)
    ensures SessionsOk(sessions, newer)
  {}

  lemma InvParts(s: Cluster)
    requires Inv(s)
    ensures DevicesStored(s.rev, s.devices, s.deviceLog) && ClaimsStored(s.rev, s.claims, s.claimLog)
    ensures SessionsOk(s.sessions, s.deviceLog) && JobsLogged(s.jobs, s.jobLog)
  {}

  lemma StepKeepsInv(s: Cluster, a: Action)
    requires Inv(s) && Guard(Any, s, a)
    ensures Inv(Next(s, a))
  {
    hide Guard, DeviceWrite, ClaimWrite, Inv, IntentsAfter, SessionsAfter, JobsAfter, SessionsOk, Stored, DevicesStored;
    hide JobLogAfter;
    hide ClaimsStored, JobLogAfter, JobsLogged;
    var t := Stored(s, DeviceWrite(s, a), ClaimWrite(s, a));
    StoredKeepsInv(s, a);
    InvParts(s);
    StoredAdds(s, a);
    JobsAfterLogged(s, a);
    SessionsAfterOk(s, a);
    SessionsStayOk(SessionsAfter(s, a), s.deviceLog, t.deviceLog);
    forall i | i in IntentsAfter(s, a) && i !in t.intents
      ensures IntentOk(Next(s, a), i)
    {
      NewIntentOk(s, a, i);
    }
    SameStoreKeepsInv(t, Next(s, a));
  }

  lemma StartsOk()
    ensures Inv(EMPTY)
  {}

  /** The invariant holds in every state of every run. */
  lemma {:induction false} RunKeepsInv(disc: Discipline, run: seq<Cluster>, i: nat)
    requires IsRun(disc, run) && i < |run|
    ensures Inv(run[i])
  {
    hide Inv, Guard, Next;
    if i == 0 {
      StartsOk();
    } else {
      RunKeepsInv(disc, run, i - 1);
      var a := TakenBy(disc, run[i - 1], run[i]);
      StepKeepsInv(run[i - 1], a);
    }
  }
}
