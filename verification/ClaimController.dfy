/**
  The BlockDeviceClaim reconciler.  Every method keeps the server valid, that is,
  whatever the other actors do in between, the reconcile is part of a run of the
  protocol; on a quiet server its whole effect is stated outright.
  */
module ClaimController {
  import opened Objects
  import opened Protocol
  import opened Invariant
  import opened Interference
  import opened ApiServer
  import opened Selection
  import opened Conservation
  import opened ClaimSafety
  import opened Cleanup

  /** The claim's own selector with the requested host name added; the node attribute wins over the old field. */
  function GenerateSelector(spec: ClaimSpec): (r: Selector)
    ensures var host := if spec.nodeHostName != "" then spec.nodeHostName else spec.hostName;
            var base := if spec.selector.Some? then spec.selector.value else Selector(map[], []);
            forall labels :: Matches(r, labels) <==>
              && MatchesElsewhere(base, host, labels)
              && (host != "" ==> HOSTNAME_LABEL in labels && labels[HOSTNAME_LABEL] == host)
  {
    var host := if spec.nodeHostName != "" then spec.nodeHostName else spec.hostName;
    var base := if spec.selector.Some? then spec.selector.value else Selector(map[], []);
    if host != "" then base.(matchLabels := base.matchLabels[HOSTNAME_LABEL := host]) else base
  }

  /** The selector holds, not counting its host name label when a host was requested separately. */
  predicate MatchesElsewhere(base: Selector, host: string, labels: map<string, string>) {
    && (forall k :: k in base.matchLabels && (host != "" ==> k != HOSTNAME_LABEL) ==>
          k in labels && labels[k] == base.matchLabels[k])
    && (forall i :: 0 <= i < |base.matchExpressions| ==> Satisfies(labels, base.matchExpressions[i]))
  }

  // --- What a reconcile does on a quiet server --------------------------------

  ghost predicate Candidate(s: Cluster, c: BlockDeviceClaim, b: string) {
    s.HasDevice(b) && Matches(GenerateSelector(c.spec), s.Device(b).labels) && Eligible(c.spec, s.Device(b))
  }

  ghost predicate Holds(s: Cluster, c: BlockDeviceClaim, b: string) {
    && s.HasDevice(b) && s.Device(b).claimState == Claimed && s.Device(b).spec.claimRef.Some?
    && RequestedBy(c, s.Device(b))
  }

  ghost predicate ClaimedOne(s: Cluster, v: nat, t: Cluster) {
    v in s.claimLog && exists b :: Candidate(s, s.claimLog[v], b) && ClaimReconcile(s, v, s.devices[b], t)
  }

  ghost predicate ReleasedOne(s: Cluster, v: nat, t: Cluster) {
    v in s.claimLog && exists b :: Holds(s, s.claimLog[v], b) && ReleaseReconcile(s, v, s.devices[b], t)
  }

  /** A claim that searches: bad requests fail, a candidate is claimed and bound if there is one. */
  ghost predicate Searched(s: Cluster, v: nat, t: Cluster, err: bool)
    requires v in s.claimLog && SearchesDevice(s.claimLog[v])
  {
    var c := s.claimLog[v];
    if !ManualSelection(c.spec) && RequestedCapacity(c.spec).None? then t == Next(s, SetPending(v)) && err
    else if !ValidSelector(GenerateSelector(c.spec)) then t == s && err
    else if exists b :: Candidate(s, c, b) then ClaimedOne(s, v, t) && !err
    else t == Next(s, SetPending(v)) && !err
  }

  /** A claim that is given up: its device is released and the claim disappears, or there is no device and an error. */
  ghost predicate GivenUp(s: Cluster, v: nat, t: Cluster, err: bool)
    requires v in s.claimLog
  {
    if exists b :: Holds(s, s.claimLog[v], b) then ReleasedOne(s, v, t) && !err else t == s && err
  }

  ghost predicate Reconciled(s: Cluster, name: string, t: Cluster, err: bool) {
    if !s.HasClaim(name) || ReconcileDisabled(s.Claim(name).annotations) then t == s && !err
    else
      var v, c := s.claims[name], s.Claim(name);
      match c.phase
      case EmptyPhase => if c.deleting then t == s && !err else Searched(s, v, t, err)
      case Pending => if c.deleting then t == s && !err else Searched(s, v, t, err)
      case InvalidCapacity => t == Next(s, SetPending(v)) && !err
      case Bound => if ReadyToRelease(c) then GivenUp(s, v, t, err) else t == s && !err
  }

  // --- The reconciler ----------------------------------------------------------

  method Reconcile(api: Server, name: string) returns (err: bool)
    requires api.Valid() && api.own == None
    modifies api
    ensures api.Valid() && old(api.hist) <= api.hist && api.own == None
    ensures api.quiet ==> Reconciled(old(api.View()), name, api.View(), err)
  {
    hide Guard, Next, Respects, Inv, IsRun, Searched, GivenUp;
    var got := api.GetClaim(name);
    if got.NotFound? {
      return false;
    }
    if got.Failed? {
      return true;
    }
    var v, instance := got.v, got.obj;
    if ReconcileDisabled(instance.annotations) {
      return false;
    }
    match instance.phase {
      case EmptyPhase =>
        if !instance.deleting {
          err := ClaimDeviceForClaim(api, v, instance);
        } else {
          err := false;
        }
      case Pending =>
        if !instance.deleting {
          err := ClaimDeviceForClaim(api, v, instance);
        } else {
          err := false;
        }
      case InvalidCapacity =>
        PendingGuard(api.disc, api.View(), v);
        var _ := api.UpdateClaim(instance.(phase := Pending), v, SetPending(v));
        err := false;
      case Bound =>
        err := FinalizerHandling(api, v, instance);
    }
  }

  lemma PendingGuard(disc: Discipline, s: Cluster, v: nat)
    requires v in s.claimLog
    requires
      || SearchesDevice(s.claimLog[v])
      || (s.claimLog[v].phase == InvalidCapacity && !ReconcileDisabled(s.claimLog[v].annotations))
    ensures Guard(disc, s, SetPending(v)) && Guard(Any, s, SetPending(v))
    ensures UpdatesClaim(s, SetPending(v), v, s.claimLog[v].(phase := Pending))
  {}

  /** Find a device for the claim, claim it, then bind the claim to it. */
  method ClaimDeviceForClaim(api: Server, v: nat, instance: BlockDeviceClaim) returns (err: bool)
    requires api.Valid() && api.own == None
    requires v in api.claimLog && api.claimLog[v] == instance && SearchesDevice(instance)
    modifies api
    ensures api.Valid() && old(api.hist) <= api.hist && api.own == None
    ensures api.quiet && CurrentClaim(old(api.View()), instance.name, v) ==>
      Searched(old(api.View()), v, api.View(), err)
  {
    hide Guard, Next, Respects, Inv, IsRun, UpdatesClaim, UpdatesDevice, Matches, Eligible, SearchesDevice, ClaimedOne;
    hide Candidate;
    ghost var s := api.View();
    if !ManualSelection(instance.spec) && RequestedCapacity(instance.spec).None? {
      PendingGuard(api.disc, api.View(), v);
      var _ := api.UpdateClaim(instance.(phase := Pending), v, SetPending(v));
      return true;
    }
    var selected := SelectDevice(api, instance);
    LogsKept(s, api.View(), api.mine, api.own);
    if selected.ListFailed? {
      return true;
    }
    if selected.NoneFound? {
      PendingGuard(api.disc, api.View(), v);
      var w := api.UpdateClaim(instance.(phase := Pending), v, SetPending(v));
      return !w.Done?;
    }
    var bd := selected.bd;
    err := ClaimBlockDevice(api, v, instance, bd);
    if err {
      return;
    }
    BindGuard(api.disc, api.View(), v, bd.d.name);
    if api.quiet { ClaimsUntouched(s, ClaimDevice(v, bd.v)); }
    var w := api.UpdateClaim(BoundTo(instance, bd.d.name), v, BindClaim(v, bd.d.name));
    err := !w.Done?;
    if api.quiet && CurrentClaim(s, instance.name, v) {
      ClaimedBoth(s, v, bd.v, api.View());
    }
  }

  datatype Selected = ListFailed | NoneFound | Device(bd: Versioned)

  /** List the devices the claim's selector admits and pick the first eligible one. */
  method SelectDevice(api: Server, instance: BlockDeviceClaim) returns (r: Selected)
    requires api.Valid() && api.own == None
    modifies api
    ensures api.Valid() && old(api.hist) <= api.hist && api.own == None && api.mine == old(api.mine)
    ensures Respects(old(api.View()), api.View(), api.mine, api.own)
    ensures r.Device? ==> (
      && r.bd.v in api.deviceLog && api.deviceLog[r.bd.v] == r.bd.d
      && r.bd.d.state == Active && r.bd.d.claimState == Unclaimed)
    ensures api.quiet ==>
      api.View() == old(api.View()) && (r.ListFailed? <==> !ValidSelector(GenerateSelector(instance.spec)))
    ensures api.quiet && r.NoneFound? ==> !exists b :: Candidate(api.View(), instance, b)
    ensures api.quiet && r.Device? ==>
      Candidate(api.View(), instance, r.bd.d.name) && CurrentDevice(api.View(), r.bd.d.name, r.bd.v)
  {
    hide Respects, IsRun, Matches, Eligible, ValidSelector, Candidate;
    var bdList := api.ListDevices(GenerateSelector(instance.spec));
    if bdList.None? {
      return ListFailed;
    }
    var selected := Filter(instance.spec, bdList.value);
    if selected.None? {
      if api.quiet { NoCandidate(api.View(), instance, bdList.value); }
      return NoneFound;
    }
    SelectedIsListed(api.View(), instance, bdList.value, selected.value);
    if api.quiet { SelectedCandidate(api.View(), instance, bdList.value, selected.value); }
    r := Device(selected.value);
  }

  /** Write the claim's reference and finalizer on the device. */
  method ClaimBlockDevice(api: Server, v: nat, instance: BlockDeviceClaim, bd: Versioned) returns (err: bool)
    requires api.Valid() && api.own == None
    requires v in api.claimLog && api.claimLog[v] == instance && SearchesDevice(instance)
    requires bd.v in api.deviceLog && api.deviceLog[bd.v] == bd.d && bd.d.state == Active
    requires bd.d.claimState == Unclaimed
    modifies api
    ensures api.Valid() && old(api.hist) <= api.hist && api.own == None
    ensures v in api.claimLog && api.claimLog[v] == instance
    ensures LastStep(api.disc, old(api.hist), api.hist, ClaimDevice(v, bd.v))
    ensures Bind(v, bd.d.name) in api.mine <==>
      Bind(v, bd.d.name) in old(api.mine) || CurrentDevice(api.hist[|api.hist| - 2], bd.d.name, bd.v)
    ensures !err ==> CurrentDevice(api.hist[|api.hist| - 2], bd.d.name, bd.v)
    ensures api.quiet ==> (
      && Guard(Any, old(api.View()), ClaimDevice(v, bd.v))
      && api.View() == Next(old(api.View()), ClaimDevice(v, bd.v))
      && err == !CurrentDevice(old(api.View()), bd.d.name, bd.v))
  {
    hide Guard, Next, Respects, Inv, IsRun, UpdatesDevice;
    ghost var s := api.View();
    ClaimGuard(api.disc, s, v, bd.v);
    var w := api.UpdateDevice(ClaimedBy(bd.d, instance), bd.v, ClaimDevice(v, bd.v));
    LogsKept(s, api.View(), api.mine, api.own);
    err := !w.Done?;
  }

  /** Release the device of a claim that is marked for deletion and otherwise unprotected. */
  method FinalizerHandling(api: Server, v: nat, instance: BlockDeviceClaim) returns (err: bool)
    requires api.Valid() && api.own == None
    requires v in api.claimLog && api.claimLog[v] == instance && instance.phase == Bound
    requires !ReconcileDisabled(instance.annotations)
    modifies api
    ensures api.Valid() && old(api.hist) <= api.hist && api.own == None
    ensures api.quiet && CurrentClaim(old(api.View()), instance.name, v) ==>
      if ReadyToRelease(instance) then GivenUp(old(api.View()), v, api.View(), err)
        else api.View() == old(api.View()) && !err
  {
    hide Guard, Next, Respects, Inv, IsRun, UpdatesClaim, ReleasedOne;
    ghost var s := api.View();
    if !instance.deleting {
      return false;
    }
    if |instance.finalizers| == 1 && ClaimProtection in instance.finalizers {
      assert instance.finalizers == [ClaimProtection];
      ghost var vb: nat;
      err, vb := ReleaseClaimedDevice(api, v, instance);
      if err {
        return;
      }
      UnbindGuard(api.disc, api.View(), v);
      if api.quiet { ClaimsUntouched(s, ReleaseDevice(v, vb)); }
      var w := api.UpdateClaim(Unprotected(instance), v, UnbindClaim(v));
      err := !w.Done?;
      if api.quiet && CurrentClaim(s, instance.name, v) {
        ReleasedBoth(s, v, vb, api.View());
      }
    } else {
      err := false;
    }
  }

  /** Find the device that carries this claim's reference and mark it released. */
  method ReleaseClaimedDevice(api: Server, v: nat, instance: BlockDeviceClaim) returns (err: bool, ghost vb: nat)
    requires api.Valid() && api.own == None
    requires v in api.claimLog && api.claimLog[v] == instance && ReadyToRelease(instance)
    modifies api
    ensures api.Valid() && old(api.hist) <= api.hist && api.own == None
    ensures v in api.claimLog && api.claimLog[v] == instance
    ensures !err ==> Unbind(v) in api.mine
    ensures api.quiet ==> (err <==> forall b :: !Holds(old(api.View()), instance, b))
    ensures api.quiet && err ==> api.View() == old(api.View())
    ensures api.quiet && !err ==> (
      && HeldAt(old(api.View()), instance, vb) && Guard(Any, old(api.View()), ReleaseDevice(v, vb))
      && api.View() == Next(old(api.View()), ReleaseDevice(v, vb)))
  {
    hide Guard, Next, Respects, IsRun, UpdatesDevice, Matches, RequestedBy;
    ghost var s := api.View();
    vb := 0;
    var bdList := api.ListDevices(Selector(map[], []));
    LogsKept(s, api.View(), api.mine, api.own);
    if bdList.None? {
      return true, 0;
    }
    api.Invariant();
    ReferencesPresent(api.View(), bdList.value);
    var claimed := FindClaimed(instance, bdList.value);
    if claimed.None? {
      if api.quiet { NoneHolds(s, instance, bdList.value); }
      return true, 0;
    }
    vb := claimed.value.v;
    if api.quiet { FoundHolds(s, instance, bdList.value, claimed.value); }
    ReleaseGuard(api.disc, api.View(), v, vb);
    ghost var m := api.View();
    var w := api.UpdateDevice(ReleasedFrom(claimed.value.d), claimed.value.v, ReleaseDevice(v, vb));
    LogsKept(m, api.View(), api.mine, api.own);
    err := !w.Done?;
  }

  /** The first device in the list that belongs to the claim. */
  method FindClaimed(instance: BlockDeviceClaim, list: seq<Versioned>) returns (r: Option<Versioned>)
    requires forall i :: 0 <= i < |list| ==> (list[i].d.claimState == Claimed ==> list[i].d.spec.claimRef.Some?)
    ensures r.None? ==> forall i :: 0 <= i < |list| ==> !RequestedBy(instance, list[i].d)
    ensures r.Some? ==> exists i :: 0 <= i < |list| && list[i] == r.value && RequestedBy(instance, list[i].d) &&
                                    forall j :: 0 <= j < i ==> !RequestedBy(instance, list[j].d)
  {
    for i := 0 to |list|
      invariant forall j :: 0 <= j < i ==> !RequestedBy(instance, list[j].d)
    {
      if RequestedBy(instance, list[i].d) {
        return Some(list[i]);
      }
    }
    r := None;
  }

  // --- Facts the methods need ------------------------------------------------

  lemma ClaimGuard(disc: Discipline, s: Cluster, vc: nat, vb: nat)
    requires vc in s.claimLog && vb in s.deviceLog && SearchesDevice(s.claimLog[vc])
    requires s.deviceLog[vb].state == Active && s.deviceLog[vb].claimState == Unclaimed
    ensures Guard(disc, s, ClaimDevice(vc, vb)) && Guard(Any, s, ClaimDevice(vc, vb))
    ensures UpdatesDevice(s, ClaimDevice(vc, vb), vb, ClaimedBy(s.deviceLog[vb], s.claimLog[vc]))
  {}

  lemma BindGuard(disc: Discipline, s: Cluster, vc: nat, b: string)
    requires vc in s.claimLog && Bind(vc, b) in s.intents
    ensures Guard(disc, s, BindClaim(vc, b)) && Guard(Any, s, BindClaim(vc, b))
    ensures UpdatesClaim(s, BindClaim(vc, b), vc, BoundTo(s.claimLog[vc], b))
  {}

  lemma ReleaseGuard(disc: Discipline, s: Cluster, vc: nat, vb: nat)
    requires vc in s.claimLog && vb in s.deviceLog && ReadyToRelease(s.claimLog[vc])
    requires s.deviceLog[vb].claimState == Claimed ==> s.deviceLog[vb].spec.claimRef.Some?
    requires RequestedBy(s.claimLog[vc], s.deviceLog[vb])
    ensures Guard(disc, s, ReleaseDevice(vc, vb)) && Guard(Any, s, ReleaseDevice(vc, vb))
    ensures UpdatesDevice(s, ReleaseDevice(vc, vb), vb, ReleasedFrom(s.deviceLog[vb]))
  {}

  lemma UnbindGuard(disc: Discipline, s: Cluster, vc: nat)
    requires vc in s.claimLog && Unbind(vc) in s.intents
    ensures Guard(disc, s, UnbindClaim(vc)) && Guard(Any, s, UnbindClaim(vc))
    ensures UpdatesClaim(s, UnbindClaim(vc), vc, Unprotected(s.claimLog[vc]))
  {}

  /** No stored version is claimed without a reference. */
  lemma ReferencesPresent(s: Cluster, list: seq<Versioned>)
    requires Inv(s)
    requires forall i :: 0 <= i < |list| ==> list[i].v in s.deviceLog && s.deviceLog[list[i].v] == list[i].d
    ensures forall i :: 0 <= i < |list| ==> (list[i].d.claimState == Claimed ==> list[i].d.spec.claimRef.Some?)
  {
    forall i | 0 <= i < |list| ensures list[i].d.claimState == Claimed ==> list[i].d.spec.claimRef.Some? {
      assert DeviceOk(s.deviceLog[list[i].v]);
    }
  }

  lemma SelectedIsListed(s: Cluster, c: BlockDeviceClaim, list: seq<Versioned>, bd: Versioned)
    requires ListedFrom(s, GenerateSelector(c.spec), list)
    requires exists i :: FirstEligible(c.spec, list, i) && list[i] == bd
    ensures bd.v in s.deviceLog && s.deviceLog[bd.v] == bd.d && bd.d.state == Active && bd.d.claimState == Unclaimed
  {}

  lemma SelectedCandidate(s: Cluster, c: BlockDeviceClaim, list: seq<Versioned>, bd: Versioned)
    requires ListedFrom(s, GenerateSelector(c.spec), list) && AllListed(s, GenerateSelector(c.spec), list)
    requires exists i :: FirstEligible(c.spec, list, i) && list[i] == bd
    ensures Candidate(s, c, bd.d.name) && CurrentDevice(s, bd.d.name, bd.v)
  {
    hide Matches, Eligible;
    var i :| FirstEligible(c.spec, list, i) && list[i] == bd;
    assert CurrentDevice(s, list[i].d.name, list[i].v);
  }

  lemma NoCandidate(s: Cluster, c: BlockDeviceClaim, list: seq<Versioned>)
    requires AllListed(s, GenerateSelector(c.spec), list)
    requires forall i :: 0 <= i < |list| ==> !Eligible(c.spec, list[i].d)
    ensures !exists b :: Candidate(s, c, b)
  {
    hide Matches, Eligible;
  }

  /** Version vb is current and belongs to the claim. */
  ghost predicate HeldAt(s: Cluster, c: BlockDeviceClaim, vb: nat) {
    vb in s.deviceLog && Holds(s, c, s.deviceLog[vb].name) && s.devices[s.deviceLog[vb].name] == vb
  }

  lemma MatchesAll(labels: map<string, string>)
    ensures Matches(Selector(map[], []), labels)
  {}

  lemma NoneHolds(s: Cluster, c: BlockDeviceClaim, list: seq<Versioned>)
    requires AllListed(s, Selector(map[], []), list)
    requires forall i :: 0 <= i < |list| ==> (list[i].d.claimState == Claimed ==> list[i].d.spec.claimRef.Some?)
    requires forall i :: 0 <= i < |list| ==> !RequestedBy(c, list[i].d)
    ensures forall b :: !Holds(s, c, b)
  {
    hide Matches, RequestedBy;
    forall b ensures !Holds(s, c, b) {
      if Holds(s, c, b) {
        MatchesAll(s.Device(b).labels);
      }
    }
  }

  lemma FoundHolds(s: Cluster, c: BlockDeviceClaim, list: seq<Versioned>, bd: Versioned)
    requires ListedFrom(s, Selector(map[], []), list) && AllListed(s, Selector(map[], []), list)
    requires forall i :: 0 <= i < |list| ==> (list[i].d.claimState == Claimed ==> list[i].d.spec.claimRef.Some?)
    requires exists i :: 0 <= i < |list| && list[i] == bd && RequestedBy(c, list[i].d)
    ensures HeldAt(s, c, bd.v) && s.deviceLog[bd.v] == bd.d
  {
    var i :| 0 <= i < |list| && list[i] == bd && RequestedBy(c, list[i].d);
    assert CurrentDevice(s, list[i].d.name, list[i].v);
  }

  lemma ClaimsUntouched(s: Cluster, a: Action)
    requires (a.ClaimDevice? || a.ReleaseDevice?) && Guard(Any, s, a)
    ensures Next(s, a).claims == s.claims && Next(s, a).claimLog == s.claimLog
  {}

  lemma ClaimedBoth(s: Cluster, vc: nat, vb: nat, t: Cluster)
    requires vc in s.claimLog && vb in s.deviceLog && Guard(Any, s, ClaimDevice(vc, vb))
    requires CurrentClaim(s, s.claimLog[vc].name, vc) && Candidate(s, s.claimLog[vc], s.deviceLog[vb].name)
    requires s.devices[s.deviceLog[vb].name] == vb
    requires var m := Next(s, ClaimDevice(vc, vb));
             var bind := BindClaim(vc, s.deviceLog[vb].name); Guard(Any, m, bind) && t == Next(m, bind)
    ensures ClaimedOne(s, vc, t)
  {
    hide Guard, Next, Matches, Eligible;
    assert ClaimReconcile(s, vc, s.devices[s.deviceLog[vb].name], t);
  }

  lemma ReleasedBoth(s: Cluster, vc: nat, vb: nat, t: Cluster)
    requires vc in s.claimLog && HeldAt(s, s.claimLog[vc], vb) && Guard(Any, s, ReleaseDevice(vc, vb))
    requires CurrentClaim(s, s.claimLog[vc].name, vc)
    requires var m := Next(s, ReleaseDevice(vc, vb)); Guard(Any, m, UnbindClaim(vc)) && t == Next(m, UnbindClaim(vc))
    ensures ReleasedOne(s, vc, t)
  {
    hide Guard, Next, RequestedBy;
    assert ReleaseReconcile(s, vc, s.devices[s.deviceLog[vb].name], t);
  }

  // --- What a quiet reconcile means --------------------------------------------

  /** A reconcile that is not interrupted keeps bound claims and claimed devices in correspondence. */
  lemma ReconcileConserves(s: Cluster, name: string, t: Cluster, err: bool)
    requires Inv(s) && Matched(s) && Reconciled(s, name, t, err)
    ensures Inv(t) && Matched(t)
  {
    hide Guard, Next, Inv, Matched, ClaimReconcile, ReleaseReconcile, Matches, Eligible, RequestedBy;
    if t != s {
      var v := s.claims[name];
      if ClaimedOne(s, v, t) {
        var b :| Candidate(s, s.claimLog[v], b) && ClaimReconcile(s, v, s.devices[b], t);
        assert AtomicStep(s, t);
      } else if ReleasedOne(s, v, t) {
        var b :| Holds(s, s.claimLog[v], b) && ReleaseReconcile(s, v, s.devices[b], t);
        assert AtomicStep(s, t);
      } else {
        PendingGuard(Any, s, v);
        assert StandsAlone(SetPending(v)) && Guard(Any, s, SetPending(v)) && t == Next(s, SetPending(v));
      }
      AtomicStepKeepsMatched(s, t);
    }
  }

  /** A claim that searches and has a candidate is bound, to a device that is claimed for it. */
  lemma ReconcileBinds(s: Cluster, name: string, t: Cluster, err: bool)
    requires Inv(s) && Reconciled(s, name, t, err)
    requires s.HasClaim(name) && SearchesDevice(s.Claim(name)) && ValidSelector(GenerateSelector(s.Claim(name).spec))
    requires ManualSelection(s.Claim(name).spec) || RequestedCapacity(s.Claim(name).spec).Some?
    requires exists b :: Candidate(s, s.Claim(name), b)
    ensures !err
    ensures exists b :: Candidate(s, s.Claim(name), b) && Holding(t, name) == Some(Binding(s.Claim(name).uid, b)) &&
                                Holder(t, b) == Some(ClaimRef(BlockDeviceClaimKind, name, s.Claim(name).uid))
  {
    hide Guard, Next, Matches, Eligible, Holding, Holder, ClaimReconcile;
    var v, c := s.claims[name], s.Claim(name);
    NamesAgree(s, name);
    assert ClaimedOne(s, v, t);
    var b :| Candidate(s, c, b) && ClaimReconcile(s, v, s.devices[b], t);
    ClaimOutcome(s, v, b, t);
  }

  lemma NamesAgree(s: Cluster, name: string)
    requires Inv(s) && s.HasClaim(name)
    ensures s.Claim(name).name == name
  {}

  lemma ClaimOutcome(s: Cluster, v: nat, b: string, t: Cluster)
    requires Inv(s) && v in s.claimLog && Candidate(s, s.claimLog[v], b) && ClaimReconcile(s, v, s.devices[b], t)
    ensures Holding(t, s.claimLog[v].name) == Some(Binding(s.claimLog[v].uid, b))
    ensures Holder(t, b) == Some(ClaimRef(BlockDeviceClaimKind, s.claimLog[v].name, s.claimLog[v].uid))
  {
    hide Guard, Next, Matches, Eligible, Holding, Holder, DeviceWrite, ClaimWrite, DeviceOk, ClaimOk;
    var vb, n := s.devices[b], s.claimLog[v].name;
    assert s.deviceLog[vb].name == b;
    hide Inv;
    var first, second := ClaimDevice(v, vb), BindClaim(v, b);
    var m := Next(s, first);
    ClaimedFresh(s, v, vb);
    StepKeepsInv(s, first);
    HolderNext(s, first, b);
    HolderNext(m, second, b);
    HoldingNext(m, second, n);
  }

  /** In a matched cluster a release always succeeds: the device the claim names is released, and the claim is gone. */
  lemma ReconcileReleases(s: Cluster, name: string, t: Cluster, err: bool)
    requires Inv(s) && Matched(s) && Reconciled(s, name, t, err)
    requires s.HasClaim(name) && ReadyToRelease(s.Claim(name))
    ensures !err && ClaimAt(t, name) == None
    ensures var d := DeviceAt(t, s.Claim(name).spec.blockDeviceName); d.Some? && d.value.claimState == Released
  {
    hide Guard, Next, ReleaseReconcile, RequestedBy, Inv;
    var v, c := s.claims[name], s.Claim(name);
    NamesAgree(s, name);
    BoundClaimHolds(s, name);
    assert ReleasedOne(s, v, t);
    var b :| Holds(s, c, b) && ReleaseReconcile(s, v, s.devices[b], t);
    ReleaseOutcome(s, v, b, t);
  }

  lemma BoundClaimHolds(s: Cluster, name: string)
    requires Inv(s) && Matched(s) && s.HasClaim(name) && s.Claim(name).phase == Bound
    ensures Holds(s, s.Claim(name), s.Claim(name).spec.blockDeviceName)
  {
    assert Holding(s, name).Some?;
  }

  lemma ReleaseOutcome(s: Cluster, v: nat, b: string, t: Cluster)
    requires Inv(s) && Matched(s) && v in s.claimLog && Holds(s, s.claimLog[v], b)
    requires ReleaseReconcile(s, v, s.devices[b], t)
    ensures b == s.claimLog[v].spec.blockDeviceName && ClaimAt(t, s.claimLog[v].name) == None
    ensures DeviceAt(t, b).Some? && DeviceAt(t, b).value.claimState == Released
  {
    var vb, n := s.devices[b], s.claimLog[v].name;
    assert s.deviceLog[vb].name == b && CurrentClaim(s, n, v) && CurrentDevice(s, b, vb);
    hide Inv, Guard, Next, DeviceWrite, ClaimWrite, RequestedBy;
    var first, second := ReleaseDevice(v, vb), UnbindClaim(v);
    var m := Next(s, first);
    ReleasedFresh(s, v, vb);
    StepKeepsInv(s, first);
    DeviceAtNext(s, first, b);
    DeviceAtNext(m, second, b);
    ClaimAtNext(m, second, n);
    ReleasedThenUnbound(s, m, v, vb);
  }

  /** What the two writes of a release store. */
  lemma ReleasedThenUnbound(s: Cluster, m: Cluster, vc: nat, vb: nat)
    requires Inv(s) && Inv(m) && Guard(Any, s, ReleaseDevice(vc, vb)) && Guard(Any, m, UnbindClaim(vc))
    requires DeviceWrite(s, ReleaseDevice(vc, vb)).Some? && ClaimWrite(m, UnbindClaim(vc)).Some?
    requires m.claimLog == s.claimLog
    ensures var d := DeviceWrite(s, ReleaseDevice(vc, vb)).value;
            d.name == s.deviceLog[vb].name && d.claimState == Released && AfterWrite(d) == Some(d)
    ensures DeviceWrite(m, UnbindClaim(vc)).None?
    ensures var c := ClaimWrite(m, UnbindClaim(vc)).value; c.name == s.claimLog[vc].name && AfterClaimWrite(c) == None
  {
    UnbindWriteOk(m, vc);
    ReleaseWriteOk(s, vc, vb);
    ReleasedIsProtected(ReleasedFrom(s.deviceLog[vb]));
  }
}
