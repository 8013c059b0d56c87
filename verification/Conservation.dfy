/**
  Conservation: while no reconcile is interrupted, bound claims and claimed
  devices stay in exact one-to-one correspondence.
  */
module Conservation {
  import opened Objects
  import opened Protocol
  import opened Invariant
  import opened ClaimSafety

  datatype Binding = Binding(uid: nat, device: string)

  /** The reference of device b, if b is claimed. */
  ghost function Holder(s: Cluster, b: string): Option<ClaimRef> {
    if DeviceAt(s, b).Some? && DeviceAt(s, b).value.claimState == Claimed then DeviceAt(s, b).value.spec.claimRef
      else None
  }

  ghost function ClaimAt(s: Cluster, c: string): Option<BlockDeviceClaim> {
    if s.HasClaim(c) then Some(s.Claim(c)) else None
  }

  /** What claim c is bound to, if it is bound. */
  ghost function Holding(s: Cluster, c: string): Option<Binding> {
    if ClaimAt(s, c).Some? && ClaimAt(s, c).value.phase == Bound
    then Some(Binding(ClaimAt(s, c).value.uid, ClaimAt(s, c).value.spec.blockDeviceName)) else None
  }

  ghost predicate Matched(s: Cluster) {
    && (forall c :: Holding(s, c).Some? ==>
          Holder(s, Holding(s, c).value.device) == Some(ClaimRef(BlockDeviceClaimKind, c, Holding(s, c).value.uid)))
    && (forall b :: Holder(s, b).Some? ==>
          Holding(s, Holder(s, b).value.name) == Some(Binding(Holder(s, b).value.uid, b)))
  }

  /** A claim or release reconcile is more than one action; every other action stands alone. */
  predicate StandsAlone(a: Action) {
    !(a.ClaimDevice? || a.BindClaim? || a.ReleaseDevice? || a.UnbindClaim?)
  }

  /** An uninterrupted claim reconcile: both objects read fresh, both written. */
  ghost predicate ClaimReconcile(s: Cluster, vc: nat, vb: nat, t: Cluster) {
    && vc in s.claimLog && vb in s.deviceLog && Guard(Any, s, ClaimDevice(vc, vb))
    && CurrentClaim(s, s.claimLog[vc].name, vc) && CurrentDevice(s, s.deviceLog[vb].name, vb)
    && var m := Next(s, ClaimDevice(vc, vb));
       var bind := BindClaim(vc, s.deviceLog[vb].name);
       Guard(Any, m, bind) && t == Next(m, bind)
  }

  /** An uninterrupted release reconcile. */
  ghost predicate ReleaseReconcile(s: Cluster, vc: nat, vb: nat, t: Cluster) {
    && vc in s.claimLog && vb in s.deviceLog && Guard(Any, s, ReleaseDevice(vc, vb))
    && CurrentClaim(s, s.claimLog[vc].name, vc) && CurrentDevice(s, s.deviceLog[vb].name, vb)
    && var m := Next(s, ReleaseDevice(vc, vb));
       Guard(Any, m, UnbindClaim(vc)) && t == Next(m, UnbindClaim(vc))
  }

  ghost predicate AtomicStep(s: Cluster, t: Cluster) {
    || (exists a :: StandsAlone(a) && Guard(Any, s, a) && t == Next(s, a))
    || (exists vc, vb :: ClaimReconcile(s, vc, vb, t))
    || (exists vc, vb :: ReleaseReconcile(s, vc, vb, t))
  }

  ghost predicate IsAtomicRun(run: seq<Cluster>) {
    && |run| > 0 && run[0] == EMPTY
    && forall i :: 0 <= i < |run| - 1 ==> AtomicStep(run[i], run[i + 1])
  }

  // --- What each action does to holders and holdings ------------------------

  function AfterClaimWrite(c: BlockDeviceClaim): Option<BlockDeviceClaim> {
    if c.deleting && c.finalizers == [] then None else Some(c)
  }

  lemma StoreClaimAt(s: Cluster, c: BlockDeviceClaim, n: string)
    requires ClaimsStored(s.rev, s.claims, s.claimLog)
    ensures ClaimAt(StoreClaim(s, c), n) == if n == c.name then AfterClaimWrite(c) else ClaimAt(s, n)
  {}

  lemma ClaimAtNext(s: Cluster, a: Action, n: string)
    requires Inv(s) && Guard(Any, s, a)
    ensures ClaimAt(Next(s, a), n) ==
      var w := ClaimWrite(s, a);
      if w.Some? && w.value.name == n then AfterClaimWrite(w.value) else ClaimAt(s, n)
  {
    hide Guard, DeviceWrite, ClaimWrite, JobsAfter, IntentsAfter, SessionsAfter, StoreClaim, AfterClaimWrite;
    hide JobLogAfter;
    hide Inv, ClaimsStored;
    InvParts(s);
    OneWrite(s, a);
    var w := ClaimWrite(s, a);
    if w.Some? { StoreClaimAt(s, w.value, n); }
  }

  lemma VersionsRead(s: Cluster, a: Action)
    requires Guard(Any, s, a) && (a.ClaimDevice? || a.ReleaseDevice? || a.BindClaim? || a.UnbindClaim?)
    ensures a.vc in s.claimLog && (a.ClaimDevice? || a.ReleaseDevice? ==> a.vb in s.deviceLog)
  {}

  /** Only claiming and releasing change who holds a device. */
  lemma HolderNext(s: Cluster, a: Action, b: string)
    requires Inv(s) && Guard(Any, s, a)
    ensures Holder(Next(s, a), b) ==
      if a.ClaimDevice? && DeviceWrite(s, a).Some? && b == s.deviceLog[a.vb].name then
        Some(ClaimRef(BlockDeviceClaimKind, s.claimLog[a.vc].name, s.claimLog[a.vc].uid))
      else if a.ReleaseDevice? && DeviceWrite(s, a).Some? && b == s.deviceLog[a.vb].name then None
      else Holder(s, b)
  {
    hide Inv, Guard, Next, DeviceWrite;
    if a.ClaimDevice? || a.ReleaseDevice? { VersionsRead(s, a); }
    DeviceAtNext(s, a, b);
    if DeviceWrite(s, a).Some? { WrittenHolder(s, a); }
  }

  lemma WrittenHolder(s: Cluster, a: Action)
    requires Inv(s) && Guard(Any, s, a) && DeviceWrite(s, a).Some?
    ensures var d := DeviceWrite(s, a).value;
            (if d.claimState == Claimed then d.spec.claimRef else None) ==
              (if a.ClaimDevice? then Some(ClaimRef(BlockDeviceClaimKind, s.claimLog[a.vc].name, s.claimLog[a.vc].uid))
               else if a.ReleaseDevice? then None else Holder(s, d.name))
    ensures var d := DeviceWrite(s, a).value; d.claimState == Claimed ==> d.finalizers != []
    ensures a.ClaimDevice? || a.ReleaseDevice? ==> DeviceWrite(s, a).value.name == s.deviceLog[a.vb].name
  {
    hide Inv, DeviceOk;
    WrittenReference(s, a);
    DeviceWriteOk(s, a);
    if DeviceWrite(s, a).value.claimState == Claimed { ClaimedIsProtected(DeviceWrite(s, a).value); }
  }

  lemma ClaimedIsProtected(d: BlockDevice)
    requires DeviceOk(d) && d.claimState == Claimed
    ensures DeviceProtection in d.finalizers
  {}

  lemma WrittenReference(s: Cluster, a: Action)
    requires Inv(s) && Guard(Any, s, a) && DeviceWrite(s, a).Some?
    ensures var d := DeviceWrite(s, a).value;
            (if d.claimState == Claimed then d.spec.claimRef else None) ==
              (if a.ClaimDevice? then Some(ClaimRef(BlockDeviceClaimKind, s.claimLog[a.vc].name, s.claimLog[a.vc].uid))
               else if a.ReleaseDevice? then None else Holder(s, d.name))
  {
    hide Monotone, Backed, IntentsOk, Count;
  }

  /** Only binding and unbinding change what a claim holds. */
  lemma HoldingNext(s: Cluster, a: Action, n: string)
    requires Inv(s) && Guard(Any, s, a)
    ensures Holding(Next(s, a), n) ==
      if a.BindClaim? && ClaimWrite(s, a).Some? && n == s.claimLog[a.vc].name then
        Some(Binding(s.claimLog[a.vc].uid, a.deviceName))
      else if a.UnbindClaim? && ClaimWrite(s, a).Some? && n == s.claimLog[a.vc].name then None
      else Holding(s, n)
  {
    hide Inv, Guard, Next, ClaimWrite;
    if a.BindClaim? || a.UnbindClaim? { VersionsRead(s, a); }
    ClaimAtNext(s, a, n);
    if ClaimWrite(s, a).Some? { WrittenHolding(s, a); }
  }

  lemma WrittenHolding(s: Cluster, a: Action)
    requires Inv(s) && Guard(Any, s, a) && ClaimWrite(s, a).Some?
    ensures var c := ClaimWrite(s, a).value;
            var w := AfterClaimWrite(c);
            (if w.Some? && w.value.phase == Bound then Some(Binding(c.uid, c.spec.blockDeviceName)) else None) ==
              (if a.BindClaim? then Some(Binding(s.claimLog[a.vc].uid, a.deviceName))
               else if a.UnbindClaim? then None else Holding(s, c.name))
    ensures a.BindClaim? || a.UnbindClaim? ==> ClaimWrite(s, a).value.name == s.claimLog[a.vc].name
  {
    hide Inv, Holding;
    if a.BindClaim? {
      ProtectedWhenBound(BoundTo(s.claimLog[a.vc], a.deviceName));
    } else if a.UnbindClaim? {
      UnbindWriteOk(s, a.vc);
    } else {
      OtherWriteHolds(s, a);
    }
  }

  lemma ProtectedWhenBound(c: BlockDeviceClaim)
    requires ClaimProtection in c.finalizers
    ensures c.finalizers != []
  {}

  /** Any other claim write leaves what the claim holds. */
  lemma OtherWriteHolds(s: Cluster, a: Action)
    requires Inv(s) && Guard(Any, s, a) && ClaimWrite(s, a).Some? && !a.BindClaim? && !a.UnbindClaim?
    ensures var c := ClaimWrite(s, a).value;
            && (c.phase == Bound ==> c.finalizers != [])
            && Holding(s, c.name) == if c.phase == Bound then Some(Binding(c.uid, c.spec.blockDeviceName)) else None
  {
    hide Monotone, Backed, DevicesStored, IntentsOk, SessionsOk;
    var c := ClaimWrite(s, a).value;
    assert c.phase == Bound ==> ClaimProtection in c.finalizers;
  }

  // --- Every atomic step ----------------------------------------------------

  lemma AloneKeepsMatched(s: Cluster, a: Action)
    requires Inv(s) && Matched(s) && Guard(Any, s, a) && StandsAlone(a)
    ensures Matched(Next(s, a))
  {
    hide Inv, Guard, Next, Holder, Holding;
    forall b ensures Holder(Next(s, a), b) == Holder(s, b) { HolderNext(s, a, b); }
    forall c ensures Holding(Next(s, a), c) == Holding(s, c) { HoldingNext(s, a, c); }
  }

  lemma ClaimReconcileKeepsMatched(s: Cluster, vc: nat, vb: nat, t: Cluster)
    requires Inv(s) && Matched(s) && ClaimReconcile(s, vc, vb, t)
    ensures Inv(t) && Matched(t)
  {
    hide Inv, Guard, Next, Holder, Holding, DeviceWrite, ClaimWrite, CurrentClaim, CurrentDevice;
    var c, d := s.claimLog[vc], s.deviceLog[vb];
    var first, second := ClaimDevice(vc, vb), BindClaim(vc, d.name);
    var m := Next(s, first);
    ClaimedFresh(s, vc, vb);
    StepKeepsInv(s, first);
    StepKeepsInv(m, second);
    forall b
      ensures Holder(t, b) == if b == d.name then Some(ClaimRef(BlockDeviceClaimKind, c.name, c.uid)) else Holder(s, b)
    {
      HolderNext(s, first, b);
      HolderNext(m, second, b);
    }
    forall n ensures Holding(t, n) == if n == c.name then Some(Binding(c.uid, d.name)) else Holding(s, n) {
      HoldingNext(s, first, n);
      HoldingNext(m, second, n);
    }
  }

  /** Both writes of a fresh claim reconcile go through; the device was free and the claim unbound. */
  lemma ClaimedFresh(s: Cluster, vc: nat, vb: nat)
    requires Inv(s) && Guard(Any, s, ClaimDevice(vc, vb))
    requires CurrentClaim(s, s.claimLog[vc].name, vc) && CurrentDevice(s, s.deviceLog[vb].name, vb)
    ensures Holder(s, s.deviceLog[vb].name) == None && Holding(s, s.claimLog[vc].name) == None
    ensures DeviceWrite(s, ClaimDevice(vc, vb)).Some?
    ensures var m := Next(s, ClaimDevice(vc, vb)); var second := BindClaim(vc, s.deviceLog[vb].name);
            Guard(Any, m, second) && m.claimLog == s.claimLog && ClaimWrite(m, second).Some?
  {
    hide Monotone, Backed, IntentsOk, SessionsOk;
  }

  lemma ReleaseReconcileKeepsMatched(s: Cluster, vc: nat, vb: nat, t: Cluster)
    requires Inv(s) && Matched(s) && ReleaseReconcile(s, vc, vb, t)
    ensures Inv(t) && Matched(t)
  {
    hide Inv, Guard, Next, Holder, Holding, DeviceWrite, ClaimWrite, CurrentClaim, CurrentDevice;
    var c, d := s.claimLog[vc], s.deviceLog[vb];
    var first, second := ReleaseDevice(vc, vb), UnbindClaim(vc);
    var m := Next(s, first);
    ReleasedFresh(s, vc, vb);
    StepKeepsInv(s, first);
    StepKeepsInv(m, second);
    forall b ensures Holder(t, b) == if b == d.name then None else Holder(s, b) {
      HolderNext(s, first, b);
      HolderNext(m, second, b);
    }
    forall n ensures Holding(t, n) == if n == c.name then None else Holding(s, n) {
      HoldingNext(s, first, n);
      HoldingNext(m, second, n);
    }
  }

  lemma ReleasedFresh(s: Cluster, vc: nat, vb: nat)
    requires Inv(s) && Matched(s) && Guard(Any, s, ReleaseDevice(vc, vb))
    requires CurrentClaim(s, s.claimLog[vc].name, vc) && CurrentDevice(s, s.deviceLog[vb].name, vb)
    ensures Holding(s, s.claimLog[vc].name) == Some(Binding(s.claimLog[vc].uid, s.deviceLog[vb].name))
    ensures DeviceWrite(s, ReleaseDevice(vc, vb)).Some?
    ensures var m := Next(s, ReleaseDevice(vc, vb)); var second := UnbindClaim(vc);
            Guard(Any, m, second) && m.claimLog == s.claimLog && ClaimWrite(m, second).Some?
  {
    hide Monotone, Backed, IntentsOk, SessionsOk, Count;
    assert Holder(s, s.deviceLog[vb].name) == Some(s.deviceLog[vb].spec.claimRef.value);
  }

  lemma AtomicStepKeepsMatched(s: Cluster, t: Cluster)
    requires Inv(s) && Matched(s) && AtomicStep(s, t)
    ensures Inv(t) && Matched(t)
  {
    hide Inv, Matched, ClaimReconcile, ReleaseReconcile, Guard, Next;
    if a :| StandsAlone(a) && Guard(Any, s, a) && t == Next(s, a) {
      StepKeepsInv(s, a);
      AloneKeepsMatched(s, a);
    } else if vc, vb :| ClaimReconcile(s, vc, vb, t) {
      ClaimReconcileKeepsMatched(s, vc, vb, t);
    } else {
      var vc, vb :| ReleaseReconcile(s, vc, vb, t);
      ReleaseReconcileKeepsMatched(s, vc, vb, t);
    }
  }

  /** Conservation over whole runs. */
  lemma {:induction false} Conserved(run: seq<Cluster>, i: nat)
    requires IsAtomicRun(run) && i < |run|
    ensures Inv(run[i]) && Matched(run[i])
  {
    if i > 0 {
      Conserved(run, i - 1);
      assert AtomicStep(run[i - 1], run[i - 1 + 1]);
      AtomicStepKeepsMatched(run[i - 1], run[i]);
    }
  }

  // --- Exactly when a single step keeps the correspondence -----------------------

  /** The first or the last of the two writes of a reconcile goes through. */
  predicate Unbalances(s: Cluster, a: Action)
    requires Guard(Any, s, a)
  {
    || ((a.ClaimDevice? || a.ReleaseDevice?) && DeviceWrite(s, a).Some?)
    || (a.UnbindClaim? && ClaimWrite(s, a).Some?)
  }

  /** In a matched cluster no pending bind can succeed: its device would already be its claim's. */
  lemma NoBindWhileMatched(s: Cluster, vc: nat, b: string)
    requires Inv(s) && Matched(s) && Guard(Any, s, BindClaim(vc, b))
    ensures !CurrentClaim(s, s.claimLog[vc].name, vc)
  {
    hide Backed, SessionsOk;
    assert IntentOk(s, Bind(vc, b));
    if CurrentClaim(s, s.claimLog[vc].name, vc) {
      HeldIsHolding(s, b, s.claimLog[vc].uid, vc);
      assert false;
    }
  }

  /** A device held for a claim is what that claim is bound to. */
  lemma HeldIsHolding(s: Cluster, b: string, uid: nat, vc: nat)
    requires Inv(s) && Matched(s) && HeldBy(s, b, uid)
    requires vc in s.claimLog && s.claimLog[vc].uid == uid && CurrentClaim(s, s.claimLog[vc].name, vc)
    ensures s.claimLog[vc].phase == Bound
  {
    hide Backed, IntentsOk, SessionsOk;
    var n := Holder(s, b).value.name;
    assert Holding(s, n) == Some(Binding(uid, b));
    assert Newest(s.claimLog, s.Claim(n));
  }

  lemma ClaimBreaksMatch(s: Cluster, vc: nat, vb: nat)
    requires Inv(s) && Matched(s) && Guard(Any, s, ClaimDevice(vc, vb)) && CurrentDevice(s, s.deviceLog[vb].name, vb)
    ensures !Matched(Next(s, ClaimDevice(vc, vb)))
  {
    var a, b, n := ClaimDevice(vc, vb), s.deviceLog[vb].name, s.claimLog[vc].name;
    assert DeviceWrite(s, a).Some? && Holder(s, b) == None;
    hide Inv, Guard, Next, DeviceWrite, Holder, Holding;
    HolderNext(s, a, b);
    HoldingNext(s, a, n);
    assert Holder(Next(s, a), b).Some?;
    assert Holding(s, n).Some? ==> Holder(s, Holding(s, n).value.device).Some?;
  }

  lemma ReleaseBreaksMatch(s: Cluster, vc: nat, vb: nat)
    requires Inv(s) && Matched(s) && Guard(Any, s, ReleaseDevice(vc, vb)) && CurrentDevice(s, s.deviceLog[vb].name, vb)
    ensures !Matched(Next(s, ReleaseDevice(vc, vb)))
  {
    var a, b := ReleaseDevice(vc, vb), s.deviceLog[vb].name;
    assert DeviceWrite(s, a).Some? && Holder(s, b) == s.deviceLog[vb].spec.claimRef && Holder(s, b).Some?;
    hide Inv, Guard, Next, DeviceWrite, Holder, Holding;
    var n := Holder(s, b).value.name;
    HolderNext(s, a, b);
    HoldingNext(s, a, n);
    assert Holding(Next(s, a), n).Some?;
  }

  lemma UnbindBreaksMatch(s: Cluster, vc: nat)
    requires Inv(s) && Matched(s) && Guard(Any, s, UnbindClaim(vc)) && CurrentClaim(s, s.claimLog[vc].name, vc)
    ensures !Matched(Next(s, UnbindClaim(vc)))
  {
    var a, n := UnbindClaim(vc), s.claimLog[vc].name;
    assert IntentOk(s, Unbind(vc));
    assert ClaimWrite(s, a).Some? && Holding(s, n).Some?;
    hide Inv, Guard, Next, ClaimWrite, Holder, Holding;
    var b := Holding(s, n).value.device;
    HoldingNext(s, a, n);
    HolderNext(s, a, b);
    assert Holder(Next(s, a), b).Some?;
  }

  /**
    From a matched cluster, a single step keeps the correspondence if and only if it is
    not a device write of a claim or release, nor the claim write of a release, that goes
    through: between those writes the correspondence is always broken.
    */
  lemma MatchedStepIff(s: Cluster, a: Action)
    requires Inv(s) && Matched(s) && Guard(Any, s, a)
    ensures Matched(Next(s, a)) <==> !Unbalances(s, a)
  {
    hide Inv, Next, Matched;
    if Unbalances(s, a) {
      match a
      case ClaimDevice(vc, vb) => ClaimBreaksMatch(s, vc, vb);
      case ReleaseDevice(vc, vb) => ReleaseBreaksMatch(s, vc, vb);
      case UnbindClaim(vc) => UnbindBreaksMatch(s, vc);
    } else {
      if a.BindClaim? { NoBindWhileMatched(s, a.vc, a.deviceName); }
      BalancedKeepsMatched(s, a);
    }
  }

  lemma BalancedKeepsMatched(s: Cluster, a: Action)
    requires Inv(s) && Matched(s) && Guard(Any, s, a) && !Unbalances(s, a) && (a.BindClaim? ==> ClaimWrite(s, a).None?)
    ensures Matched(Next(s, a))
  {
    hide Inv, Guard, Next, Holder, Holding, DeviceWrite, ClaimWrite;
    forall b ensures Holder(Next(s, a), b) == Holder(s, b) { HolderNext(s, a, b); }
    forall c ensures Holding(Next(s, a), c) == Holding(s, c) { HoldingNext(s, a, c); }
  }

  /** A run keeps the correspondence up to state n if and only if none of its first n steps unbalances. */
  lemma {:induction false} MatchedRunIff(disc: Discipline, run: seq<Cluster>, actions: seq<Action>, n: nat)
    requires IsRunOf(disc, run, actions) && n < |run|
    ensures (forall i :: 0 <= i <= n ==> Matched(run[i])) <==>
            (forall i :: 0 <= i < n ==> Takes(run[i], actions[i], run[i + 1]) && !Unbalances(run[i], actions[i]))
  {
    hide Inv, Guard, Next, Matched, Unbalances, IsRun;
    if n == 0 {
      StartsMatched();
    } else {
      MatchedRunIff(disc, run, actions, n - 1);
      RunOfIsRun(disc, run, actions);
      RunKeepsInv(disc, run, n - 1);
      assert Takes(run[n - 1], actions[n - 1], run[n - 1 + 1]);
      if Matched(run[n - 1]) { MatchedStepIff(run[n - 1], actions[n - 1]); }
    }
  }

  lemma StartsMatched()
    ensures Matched(EMPTY)
  {}

  // --- In numbers -----------------------------------------------------------

  ghost function BoundClaims(s: Cluster): set<string> {
    set c | c in s.claims && Holding(s, c).Some?
  }

  ghost function ClaimedDevices(s: Cluster): set<string> {
    set b | b in s.devices && Holder(s, b).Some?
  }

  /** Two maps that undo each other connect sets of the same size. */
  lemma {:induction false} SameSize(xs: set<string>, ys: set<string>, f: map<string, string>, g: map<string, string>)
    requires f.Keys >= xs && g.Keys >= ys
    requires forall x :: x in xs ==> f[x] in ys && g[f[x]] == x
    requires forall y :: y in ys ==> g[y] in xs && f[g[y]] == y
    ensures |xs| == |ys|
  {
    if xs != {} {
      var x :| x in xs;
      SameSize(xs - {x}, ys - {f[x]}, f, g);
    } else if y :| y in ys {
      assert g[y] in xs;
    }
  }

  /** There are always as many bound claims as claimed devices. */
  lemma AsManyBoundAsClaimed(run: seq<Cluster>, i: nat)
    requires IsAtomicRun(run) && i < |run|
    ensures |BoundClaims(run[i])| == |ClaimedDevices(run[i])|
  {
    hide IsAtomicRun, Inv, Holder, Holding;
    Conserved(run, i);
    MatchedInNumbers(run[i]);
  }

  lemma MatchedInNumbers(s: Cluster)
    requires Matched(s)
    ensures |BoundClaims(s)| == |ClaimedDevices(s)|
  {
    var f := map c | c in BoundClaims(s) :: Holding(s, c).value.device;
    var g := map b | b in ClaimedDevices(s) :: Holder(s, b).value.name;
    forall c | c in BoundClaims(s) ensures f[c] in ClaimedDevices(s) && g[f[c]] == c {
      assert Holder(s, f[c]).Some?;
    }
    forall b | b in ClaimedDevices(s) ensures g[b] in BoundClaims(s) && f[g[b]] == b {
      assert Holding(s, g[b]).Some?;
    }
    SameSize(BoundClaims(s), ClaimedDevices(s), f, g);
  }
}
