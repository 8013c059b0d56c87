/**
  What a claim gets, in the fields of the claim and of the devices: a claim that searches
  is bound exactly if some device fits it, and then to one that does.
  */
module ClaimOutcomes {
  import opened Objects
  import opened Protocol
  import opened Invariant
  import opened ApiServer
  import opened Selection
  import opened Conservation
  import opened ClaimSafety
  import opened Frames
  import opened ClaimController

  /** The claim is stored and looks for a device. */
  ghost predicate Searching(s: Cluster, name: string) {
    s.HasClaim(name) && SearchesDevice(s.Claim(name))
  }

  /** Everything but claim `name` and device b is as it was. */
  ghost predicate RestSame(s: Cluster, t: Cluster, name: string, b: Option<string>) {
    && (forall other :: Some(other) != b ==> DeviceAt(t, other) == DeviceAt(s, other))
    && (forall other :: other != name ==> ClaimAt(t, other) == ClaimAt(s, other))
  }

  // --- Claims that stay pending ------------------------------------------------

  lemma PendingOutcome(s: Cluster, name: string, t: Cluster)
    requires Inv(s) && s.HasClaim(name) && Guard(Any, s, SetPending(s.claims[name]))
    requires t == Next(s, SetPending(s.claims[name]))
    ensures ClaimAt(t, name) == Some(s.Claim(name).(phase := Pending)) && RestSame(s, t, name, None)
  {
    hide Inv, Guard, Next, DeviceAt;
    var a := SetPending(s.claims[name]);
    forall other ensures DeviceAt(t, other) == DeviceAt(s, other) { DeviceStep(s, a, other); }
    ClaimStep(s, a, name);
    forall other | other != name ensures ClaimAt(t, other) == ClaimAt(s, other) {
      ClaimStep(s, a, other);
      if ReachesClaim(s, a, other) { ReachesOneClaim(s, a, name, other); }
    }
  }

  lemma StoredIsNamed(s: Cluster, name: string)
    requires Inv(s) && s.HasClaim(name)
    ensures s.Claim(name).name == name
  {}

  /** A request for anything but a positive capacity is an error and leaves the claim pending. */
  lemma InvalidCapacityIsPending(s: Cluster, name: string, t: Cluster, err: bool)
    requires Inv(s) && Reconciled(s, name, t, err) && Searching(s, name)
    requires var spec := s.Claim(name).spec;
             spec.blockDeviceName == "" && (spec.storage.None? || spec.storage.value <= 0)
    ensures err && ClaimAt(t, name) == Some(s.Claim(name).(phase := Pending)) && RestSame(s, t, name, None)
  {
    hide Inv, Guard, Next, ClaimAt, DeviceAt;
    PendingGuard(Any, s, s.claims[name]);
    PendingOutcome(s, name, t);
  }

  /** A claim that no device fits waits. */
  lemma NoFitIsPending(s: Cluster, name: string, t: Cluster, err: bool)
    requires Inv(s) && Reconciled(s, name, t, err) && Searching(s, name)
    requires var spec := s.Claim(name).spec;
             spec.blockDeviceName != "" || (spec.storage.Some? && spec.storage.value > 0)
    requires ValidSelector(GenerateSelector(s.Claim(name).spec)) && !exists b :: Candidate(s, s.Claim(name), b)
    ensures !err && ClaimAt(t, name) == Some(s.Claim(name).(phase := Pending)) && RestSame(s, t, name, None)
  {
    hide Inv, Guard, Next, ClaimAt, DeviceAt, Candidate;
    PendingGuard(Any, s, s.claims[name]);
    PendingOutcome(s, name, t);
  }

  /** A claim in the old phase for an invalid capacity is tried again. */
  lemma InvalidPhaseIsPending(s: Cluster, name: string, t: Cluster, err: bool)
    requires Inv(s) && Reconciled(s, name, t, err)
    requires s.HasClaim(name) && s.Claim(name).phase == InvalidCapacity && Reconcile !in s.Claim(name).annotations
    ensures !err && ClaimAt(t, name) == Some(s.Claim(name).(phase := Pending)) && RestSame(s, t, name, None)
  {
    hide Inv, Guard, Next, ClaimAt, DeviceAt;
    PendingGuard(Any, s, s.claims[name]);
    PendingOutcome(s, name, t);
  }

  /** A claim that is disabled, or bound and not given up, is left alone. */
  lemma LeftAlone(s: Cluster, name: string, t: Cluster, err: bool)
    requires Reconciled(s, name, t, err) && s.HasClaim(name)
    requires var c := s.Claim(name);
             || (Reconcile in c.annotations && c.annotations[Reconcile] == "false")
             || (c.phase == Bound && (!c.deleting || c.finalizers != [ClaimProtection]))
             || ((c.phase == EmptyPhase || c.phase == Pending) && c.deleting)
    ensures t == s && !err
  {}

  // --- Claims that are bound ---------------------------------------------------

  /** The claim is bound to b, whose only change is that it is claimed for it. */
  ghost predicate Got(s: Cluster, name: string, b: string, t: Cluster)
    requires s.HasClaim(name) && DeviceAt(s, b).Some?
  {
    var c := s.Claim(name);
    && ClaimAt(t, name).Some? && OnlyBindingDiffers(c, ClaimAt(t, name).value)
    && ClaimAt(t, name).value.phase == Bound && ClaimAt(t, name).value.spec.blockDeviceName == b
    && DeviceAt(t, b).Some? && OnlyClaimDataDiffers(DeviceAt(s, b).value, DeviceAt(t, b).value)
    && Holder(t, b) == Some(ClaimRef(BlockDeviceClaimKind, name, c.uid))
    && RestSame(s, t, name, Some(b))
  }

  /** An uninterrupted claim reconcile gives the claim the device. */
  lemma ClaimReconcileGives(s: Cluster, name: string, b: string, t: Cluster)
    requires Inv(s) && Searching(s, name) && Candidate(s, s.Claim(name), b)
    requires ClaimReconcile(s, s.claims[name], s.devices[b], t)
    ensures Got(s, name, b, t)
  {
    hide Guard, Next, Matches, Eligible, Holder, DeviceWrite, ClaimWrite, DeviceOk, ClaimOk, SearchesDevice;
    var vc, vb := s.claims[name], s.devices[b];
    StoredIsNamed(s, name);
    assert s.deviceLog[vb].name == b;
    hide Inv;
    ClaimOutcome(s, vc, b, t);
    var first, second := ClaimDevice(vc, vb), BindClaim(vc, b);
    var m := Next(s, first);
    ClaimedFresh(s, vc, vb);
    StepKeepsInv(s, first);
    ClaimsUntouched(s, first);
    assert Reaches(s, first, b) && ReachesClaim(m, second, name);
    hide Candidate, Reaches, ReachesClaim, ClaimReconcile, OnlyClaimDataDiffers, OnlyBindingDiffers;
    TwoSteps(s, first, m, second, t, name, b);
  }

  lemma TwoSteps(s: Cluster, first: Action, m: Cluster, second: Action, t: Cluster, name: string, b: string)
    requires Inv(s) && first.ClaimDevice? && Guard(Any, s, first) && m == Next(s, first) && Reaches(s, first, b)
    requires Inv(m) && second.BindClaim? && Guard(Any, m, second) && t == Next(m, second)
    requires ReachesClaim(m, second, name) && second.deviceName == b
    requires m.claims == s.claims && m.claimLog == s.claimLog && s.HasClaim(name) && DeviceAt(s, b).Some?
    ensures ClaimAt(t, name).Some? && OnlyBindingDiffers(s.Claim(name), ClaimAt(t, name).value)
    ensures ClaimAt(t, name).value.phase == Bound && ClaimAt(t, name).value.spec.blockDeviceName == b
    ensures DeviceAt(t, b).Some? && OnlyClaimDataDiffers(DeviceAt(s, b).value, DeviceAt(t, b).value)
    ensures RestSame(s, t, name, Some(b))
  {
    hide Inv, Guard, Next, DeviceAt, DeviceWrite, ClaimWrite, OnlyClaimDataDiffers, OnlyBindingDiffers;
    DeviceStep(s, first, b);
    forall other ensures other != b ==> DeviceAt(t, other) == DeviceAt(s, other)
      ensures DeviceAt(t, other) == DeviceAt(m, other)
    {
      DeviceStep(s, first, other);
      if Reaches(s, first, other) { ReachesOne(s, first, b, other); }
      DeviceStep(m, second, other);
    }
    ClaimStep(m, second, name);
    forall other ensures other != name ==> ClaimAt(t, other) == ClaimAt(s, other) {
      ClaimStep(m, second, other);
      if ReachesClaim(m, second, other) { ReachesOneClaim(m, second, name, other); }
    }
  }

  /** The claim asks for the labels of this device, by its selector and by the host it names. */
  ghost predicate LabelsFit(spec: ClaimSpec, labels: map<string, string>) {
    var host := if spec.nodeHostName != "" then spec.nodeHostName else spec.hostName;
    && (host != "" ==> HOSTNAME_LABEL in labels && labels[HOSTNAME_LABEL] == host)
    && (spec.selector.Some? ==>
          && (forall k :: k in spec.selector.value.matchLabels && (k != HOSTNAME_LABEL || host == "") ==>
                k in labels && labels[k] == spec.selector.value.matchLabels[k])
          && forall i :: 0 <= i < |spec.selector.value.matchExpressions| ==>
               Satisfies(labels, spec.selector.value.matchExpressions[i]))
  }

  lemma MatchesIffFit(spec: ClaimSpec, labels: map<string, string>)
    ensures Matches(GenerateSelector(spec), labels) <==> LabelsFit(spec, labels)
  {}

  /** A claim that was searching and is bound got a device that was free and is what it asked for. */
  lemma BoundDeviceFits(s: Cluster, name: string, t: Cluster, err: bool, b: string)
    requires Inv(s) && Reconciled(s, name, t, err) && Searching(s, name)
    requires Holding(t, name) == Some(Binding(s.Claim(name).uid, b))
    ensures !err && DeviceAt(s, b).Some? && Got(s, name, b, t)
    ensures var spec, d := s.Claim(name).spec, DeviceAt(s, b).value;
            && d.claimState == Unclaimed && d.state == Active && LabelsFit(spec, d.labels)
            && (UuidScheme in d.annotations ==> d.annotations[UuidScheme] != "legacy")
            && (TAG_LABEL in d.labels ==> MentionsTag(spec.selector) && !Blank(d.labels[TAG_LABEL]))
            && (spec.blockDeviceName != "" ==> b == spec.blockDeviceName)
            && (spec.blockDeviceName == "" ==>
                  && spec.storage.Some? && d.spec.capacity.storage >= spec.storage.value > 0
                  && d.spec.details.deviceType != "sparse"
                  && (spec.deviceType != "" ==> d.spec.details.deviceType == spec.deviceType)
                  && (spec.nodeName != "" ==> d.spec.nodeName == spec.nodeName)
                  && (spec.volumeMode == "Block" ==> d.spec.fileSystem == FileSystem("", ""))
                  && (spec.volumeMode == "FileSystem" ==>
                        && d.spec.fileSystem.fsType != "" && d.spec.fileSystem.mountPoint != ""
                        && (spec.deviceFormat != "" ==> d.spec.fileSystem.fsType == spec.deviceFormat)))
  {
    hide Inv, Guard, Next, Got, ClaimReconcile, Matches, LabelsFit, Reconciled;
    SearchBinds(s, name, t, err, b);
    MatchesIffFit(s.Claim(name).spec, DeviceAt(s, b).value.labels);
  }

  /** Only a candidate that is claimed and bound makes a searching claim bound. */
  lemma SearchBinds(s: Cluster, name: string, t: Cluster, err: bool, b: string)
    requires Inv(s) && Reconciled(s, name, t, err) && Searching(s, name)
    requires Holding(t, name) == Some(Binding(s.Claim(name).uid, b))
    ensures !err && Candidate(s, s.Claim(name), b) && s.Device(b).name == b && Got(s, name, b, t)
    ensures ManualSelection(s.Claim(name).spec) || RequestedCapacity(s.Claim(name).spec).Some?
  {
    hide Inv, Guard, Next, Matches, Eligible, Holder, ClaimReconcile, Got;
    var v, c := s.claims[name], s.Claim(name);
    StoredIsNamed(s, name);
    if (!ManualSelection(c.spec) && RequestedCapacity(c.spec).None?) || !ValidSelector(GenerateSelector(c.spec)) ||
       !exists x :: Candidate(s, c, x) {
      if t != s {
        PendingGuard(Any, s, v);
        PendingOutcome(s, name, t);
      }
      assert false;
    }
    var x :| Candidate(s, c, x) && ClaimReconcile(s, v, s.devices[x], t);
    ClaimOutcome(s, v, x, t);
    CandidateIsStored(s, c, x);
    ClaimReconcileGives(s, name, x, t);
  }

  lemma CandidateIsStored(s: Cluster, c: BlockDeviceClaim, b: string)
    requires Inv(s) && Candidate(s, c, b)
    ensures s.HasDevice(b) && s.Device(b).name == b
  {
    hide Matches, Eligible;
  }

  lemma DeviceNamed(s: Cluster, b: string)
    requires Inv(s) && s.HasDevice(b)
    ensures s.Device(b).name == b
  {}

  /** If some device is what the claim asks for, the claim gets one. */
  lemma FittingDeviceIsBound(s: Cluster, name: string, t: Cluster, err: bool, b: string)
    requires Inv(s) && Reconciled(s, name, t, err) && Searching(s, name) && DeviceAt(s, b).Some?
    requires ValidSelector(GenerateSelector(s.Claim(name).spec))
    requires var spec, d := s.Claim(name).spec, DeviceAt(s, b).value;
             && d.claimState == Unclaimed && d.state == Active && LabelsFit(spec, d.labels)
             && (UuidScheme in d.annotations ==> d.annotations[UuidScheme] != "legacy")
             && (TAG_LABEL in d.labels ==> MentionsTag(spec.selector) && !Blank(d.labels[TAG_LABEL]))
             && (spec.blockDeviceName != "" ==> b == spec.blockDeviceName)
             && (spec.blockDeviceName == "" ==>
                   && spec.storage.Some? && d.spec.capacity.storage >= spec.storage.value > 0
                   && d.spec.details.deviceType != "sparse"
                   && (spec.deviceType != "" ==> d.spec.details.deviceType == spec.deviceType)
                   && (spec.nodeName != "" ==> d.spec.nodeName == spec.nodeName)
                   && (spec.volumeMode == "Block" ==> d.spec.fileSystem == FileSystem("", ""))
                   && (spec.volumeMode == "FileSystem" ==>
                         && d.spec.fileSystem.fsType != "" && d.spec.fileSystem.mountPoint != ""
                         && (spec.deviceFormat != "" ==> d.spec.fileSystem.fsType == spec.deviceFormat)))
    ensures !err && exists x :: DeviceAt(s, x).Some? && Got(s, name, x, t)
  {
    DeviceNamed(s, b);
    MatchesIffFit(s.Claim(name).spec, DeviceAt(s, b).value.labels);
    assert Candidate(s, s.Claim(name), b);
    hide Inv, Guard, Next, Matches, Eligible, Holder, Holding, ClaimReconcile, Got, LabelsFit;
    ReconcileBinds(s, name, t, err);
    var x :| Candidate(s, s.Claim(name), x) && Holding(t, name) == Some(Binding(s.Claim(name).uid, x));
    SearchBinds(s, name, t, err, x);
  }

  // --- Claims that are given up --------------------------------------------------

  /** The device is claimed with a reference to this very claim. */
  ghost predicate Carries(s: Cluster, c: BlockDeviceClaim, b: string) {
    && DeviceAt(s, b).Some? && DeviceAt(s, b).value.claimState == Claimed
    && DeviceAt(s, b).value.spec.claimRef == Some(ClaimRef(c.kind, c.name, c.uid))
  }

  lemma HoldsIffCarries(s: Cluster, c: BlockDeviceClaim, b: string)
    ensures Holds(s, c, b) <==> Carries(s, c, b)
  {}

  /** The claim is gone, and its device b released with nothing else of it changed. */
  ghost predicate LetGo(s: Cluster, name: string, b: string, t: Cluster)
    requires DeviceAt(s, b).Some?
  {
    && ClaimAt(t, name) == None && DeviceAt(t, b).Some?
    && OnlyClaimDataDiffers(DeviceAt(s, b).value, DeviceAt(t, b).value)
    && DeviceAt(t, b).value.claimState == Released && DeviceAt(t, b).value.spec.claimRef == None
    && RestSame(s, t, name, Some(b))
  }

  /**
    A claim marked for deletion that only the system still protects: if a device carries its
    reference one such device is released and the claim is gone, and if none does it is an
    error and nothing happens.
    */
  lemma GivenUpOutcome(s: Cluster, name: string, t: Cluster, err: bool)
    requires Inv(s) && Reconciled(s, name, t, err) && s.HasClaim(name) && ReadyToRelease(s.Claim(name))
    ensures if exists b :: Carries(s, s.Claim(name), b)
            then !err && exists b :: Carries(s, s.Claim(name), b) && LetGo(s, name, b, t)
            else err && t == s
  {
    hide Inv, Guard, Next, RequestedBy, ReleaseReconcile, LetGo, DeviceAt;
    var v, c := s.claims[name], s.Claim(name);
    forall b ensures Holds(s, c, b) <==> Carries(s, c, b) { HoldsIffCarries(s, c, b); }
    if exists b :: Carries(s, c, b) {
      assert ReleasedOne(s, v, t);
      var b :| Holds(s, c, b) && ReleaseReconcile(s, v, s.devices[b], t);
      ReleaseReconcileLetsGo(s, name, b, t);
      assert Carries(s, c, b);
    }
  }

  lemma ReleaseReconcileLetsGo(s: Cluster, name: string, b: string, t: Cluster)
    requires Inv(s) && s.HasClaim(name) && ReadyToRelease(s.Claim(name)) && Holds(s, s.Claim(name), b)
    requires ReleaseReconcile(s, s.claims[name], s.devices[b], t)
    ensures LetGo(s, name, b, t)
  {
    hide Guard, Next, DeviceWrite, ClaimWrite, DeviceOk, ClaimOk, RequestedBy;
    var vc, vb := s.claims[name], s.devices[b];
    StoredIsNamed(s, name);
    assert s.deviceLog[vb].name == b;
    hide Inv;
    var first, second := ReleaseDevice(vc, vb), UnbindClaim(vc);
    var m := Next(s, first);
    StepKeepsInv(s, first);
    ClaimsUntouched(s, first);
    assert Reaches(s, first, b) && ReachesClaim(m, second, name);
    TwoStepsBack(s, first, m, second, t, name, b);
  }

  lemma TwoStepsBack(s: Cluster, first: Action, m: Cluster, second: Action, t: Cluster, name: string, b: string)
    requires Inv(s) && first.ReleaseDevice? && Guard(Any, s, first) && m == Next(s, first) && Reaches(s, first, b)
    requires Inv(m) && second.UnbindClaim? && Guard(Any, m, second) && t == Next(m, second)
    requires ReachesClaim(m, second, name)
    requires m.claims == s.claims && m.claimLog == s.claimLog && s.HasClaim(name) && DeviceAt(s, b).Some?
    ensures LetGo(s, name, b, t)
  {
    hide Inv, Guard, Next, DeviceAt, DeviceWrite, ClaimWrite, OnlyClaimDataDiffers;
    DeviceStep(s, first, b);
    forall other ensures other != b ==> DeviceAt(t, other) == DeviceAt(s, other)
      ensures DeviceAt(t, other) == DeviceAt(m, other)
    {
      DeviceStep(s, first, other);
      if Reaches(s, first, other) { ReachesOne(s, first, b, other); }
      DeviceStep(m, second, other);
    }
    ClaimStep(m, second, name);
    forall other ensures other != name ==> ClaimAt(t, other) == ClaimAt(s, other) {
      ClaimStep(m, second, other);
      if ReachesClaim(m, second, other) { ReachesOneClaim(m, second, name, other); }
    }
  }
}
