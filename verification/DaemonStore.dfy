/**
  The daemon's access to the device resources: create with a fallback to merging,
  version-checked merge, deactivation, and the list it works from.
  */
module DaemonStore {
  import opened Objects
  import opened Protocol
  import opened Invariant
  import opened Interference
  import opened ApiServer
  import opened ClaimSafety
  import opened Frames
  import opened Text

  // --- What the writes do on a quiet server ------------------------------------

  /** Version e of a device is still the stored one. */
  predicate IsCurrent(s: Cluster, e: Versioned) {
    CurrentDevice(s, e.d.name, e.v)
  }

  /** The probed device d merged onto version e. */
  function Merged(s: Cluster, d: BlockDevice, e: Versioned): Cluster {
    if IsCurrent(s, e) then StoreDevice(s, Merge(d, e.d)) else s
  }

  /** The probed device d created, or merged onto the resource that has its name. */
  function Created(s: Cluster, d: BlockDevice): Cluster {
    if d.name in s.devices && s.devices[d.name] in s.deviceLog
      then StoreDevice(s, Merge(d, s.deviceLog[s.devices[d.name]]))
    else StoreDevice(s, d)
  }

  /** The state of version e changed, if it is still the stored one. */
  function StateSet(s: Cluster, e: Versioned, state: DeviceState): Cluster {
    if IsCurrent(s, e) then StoreDevice(s, e.d.(state := state)) else s
  }

  function Deactivated(s: Cluster, e: Versioned): Cluster {
    StateSet(s, e, Inactive)
  }

  ghost predicate Logged(s: Cluster, e: Versioned) {
    e.v in s.deviceLog && s.deviceLog[e.v] == e.d
  }

  ghost predicate AllLogged(s: Cluster, list: seq<Versioned>) {
    forall i :: 0 <= i < |list| ==> Logged(s, list[i])
  }

  lemma LoggedStays(s: Cluster, t: Cluster, list: seq<Versioned>)
    requires AllLogged(s, list) && Extends(s.deviceLog, t.deviceLog)
    ensures AllLogged(t, list)
  {}

  // --- Create, update, deactivate --------------------------------------------------

  datatype UpdateResult = Updated | NotUpdated(conflict: bool)

  method CreateBlockDevice(api: Server, d: BlockDevice) returns (err: bool)
    requires api.Valid() && NewDevice(d)
    modifies api
    ensures api.Valid() && old(api.hist) <= api.hist && Extends(old(api.deviceLog), api.deviceLog)
    ensures api.quiet ==> !err && api.View() == Created(old(api.View()), d)
  {
    hide Guard, Next, Inv, IsRun, Merge, StoreDevice, NewDevice;
    ghost var s := api.View();
    api.Invariant();
    CreateMeans(s, d);
    var w := api.CreateDevice(d);
    if w.Done? {
      return false;
    }
    if !w.Rejected? {
      return true;
    }
    var r := UpdateBlockDevice(api, d, None);
    if r.Updated? {
      return false;
    }
    if !r.conflict {
      return true;
    }
    r := UpdateBlockDevice(api, d, None);
    err := false;
  }

  /** Merge the probed device onto the given version, or onto the stored one. */
  method UpdateBlockDevice(api: Server, d: BlockDevice, stored: Option<Versioned>) returns (r: UpdateResult)
    requires api.Valid() && NewDevice(d) && (stored.Some? ==> Logged(api.View(), stored.value))
    modifies api
    ensures api.Valid() && old(api.hist) <= api.hist && Extends(old(api.deviceLog), api.deviceLog)
    ensures api.quiet && stored.Some? ==> api.View() == Merged(old(api.View()), d, stored.value)
    ensures api.quiet && stored.Some? ==>
      r == if IsCurrent(old(api.View()), stored.value) then Updated
        else NotUpdated(stored.value.d.name in old(api.devices))
    ensures api.quiet && stored.None? && d.name in old(api.devices) ==>
      r.Updated? && api.View() == Created(old(api.View()), d)
    ensures api.quiet && stored.None? && d.name !in old(api.devices) ==>
      r == NotUpdated(false) && api.View() == old(api.View())
  {
    hide Guard, Next, Inv, IsRun, Merge, StoreDevice, NewDevice, UpdatesDevice;
    var from;
    match stored {
      case Some(e) =>
        from := e;
      case None =>
        api.Invariant();
        StoredIsLogged(api.View());
        var got := api.GetDevice(d.name);
        if !got.Found? {
          return NotUpdated(false);
        }
        from := Versioned(got.v, got.obj);
    }
    MergeMeans(api.disc, api.View(), d, from);
    var merged := MergeBlockDeviceData(d, from.d);
    var w := api.UpdateDevice(merged, from.v, DaemonMerge(d, from.v));
    r := if w.Done? then Updated else NotUpdated(w.Rejected?);
  }

  method DeactivateBlockDevice(api: Server, e: Versioned)
    requires api.Valid() && Logged(api.View(), e)
    modifies api
    ensures api.Valid() && old(api.hist) <= api.hist && Extends(old(api.deviceLog), api.deviceLog)
    ensures LastStep(api.disc, old(api.hist), api.hist, DaemonSetState(e.v, Inactive))
    ensures api.quiet ==> api.View() == Deactivated(old(api.View()), e)
  {
    hide Guard, Next, Inv, IsRun, StoreDevice, UpdatesDevice;
    SetStateMeans(api.disc, api.View(), e, Inactive);
    var _ := api.UpdateDevice(e.d.(state := Inactive), e.v, DaemonSetState(e.v, Inactive));
  }

  lemma StoredIsLogged(s: Cluster)
    requires Inv(s)
    ensures forall b :: b in s.devices ==> s.devices[b] in s.deviceLog && s.deviceLog[s.devices[b]].name == b
  {}

  lemma CreateMeans(s: Cluster, d: BlockDevice)
    requires Inv(s) && NewDevice(d)
    ensures Next(s, DaemonCreate(d)) == if d.name in s.devices then s else StoreDevice(s, d)
    ensures d.name in s.devices ==> s.devices[d.name] in s.deviceLog
  {}

  lemma MergeMeans(disc: Discipline, s: Cluster, d: BlockDevice, e: Versioned)
    requires NewDevice(d) && Logged(s, e)
    ensures var a := DaemonMerge(d, e.v);
            && Guard(disc, s, a) && Guard(Any, s, a)
            && UpdatesDevice(s, a, e.v, Merge(d, e.d)) && Next(s, a) == Merged(s, d, e)
    ensures Merge(d, e.d).name == e.d.name
  {}

  lemma SetStateMeans(disc: Discipline, s: Cluster, e: Versioned, state: DeviceState)
    requires Logged(s, e) && state != Active
    ensures var a := DaemonSetState(e.v, state);
            && Guard(disc, s, a) && Guard(Any, s, a) && UpdatesDevice(s, a, e.v, e.d.(state := state))
            && Next(s, a) == if IsCurrent(s, e) then StoreDevice(s, e.d.(state := state)) else s
  {}

  // --- Merging ---------------------------------------------------------------------

  /** Write every new entry over the old ones, in any order. */
  method MergeMap<K(==), V>(newer: map<K, V>, older: map<K, V>) returns (r: map<K, V>)
    ensures r == older + newer
  {
    r := older;
    var left := newer.Keys;
    while left != {}
      invariant left <= newer.Keys
      invariant r.Keys == older.Keys + (newer.Keys - left)
      invariant forall k :: k in r ==> r[k] == if k in newer && k !in left then newer[k] else older[k]
    {
      var k :| k in left;
      r := r[k := newer[k]];
      left := left - {k};
    }
  }

  method MergeBlockDeviceData(probed: BlockDevice, stored: BlockDevice) returns (r: BlockDevice)
    ensures r == Merge(probed, stored) && Refreshed(probed, stored, r)
  {
    MergeRefreshes(probed, stored);
    var labels := MergeMap(probed.labels, stored.labels);
    var annotations := MergeMap(probed.annotations, stored.annotations);
    r := stored.(labels := labels, annotations := annotations);
    if stored.claimState != Unclaimed {
      r := r.(spec := r.spec.(nodeName := probed.spec.nodeName));
      r := r.(spec := r.spec.(capacity := r.spec.capacity.(storage := probed.spec.capacity.storage)));
      r := r.(spec := r.spec.(path := probed.spec.path));
      r := r.(spec := r.spec.(devLinks := probed.spec.devLinks));
      r := r.(state := probed.state);
    } else {
      r := r.(spec := probed.spec, claimState := probed.claimState, state := probed.state);
    }
  }

  // --- The list of resources ---------------------------------------------------------

  predicate Falsy(s: string) {
    s == "" || Upper(s) == "0" || Upper(s) == "NO" || Upper(s) == "FALSE" || Upper(s) == "BLANK"
  }

  /** A word switches reconciling off in any case if it does in one. */
  lemma FalsyIgnoresCase(s: string)
    ensures Falsy(Upper(s)) == Falsy(s)
  {
    UpperTwice(s);
  }

  lemma FalsyWords()
    ensures Falsy("") && Falsy("false") && Falsy("0") && !Falsy("true") && !Falsy("1")
  {
    UpperIs("false", "FALSE");
    UpperIs("0", "0");
    UpperIsNone("true", ["0", "NO", "FALSE", "BLANK"]);
    UpperIsNone("1", ["0", "NO", "FALSE", "BLANK"]);
  }

  predicate Ignored(e: Versioned) {
    Reconcile in e.d.annotations && Falsy(e.d.annotations[Reconcile])
  }

  /** What is left when the entry after each removed entry is not looked at. */
  function Thinned(list: seq<Versioned>): seq<Versioned> {
    if list == [] then []
    else if Ignored(list[0]) then (if |list| == 1 then [] else [list[1]] + Thinned(list[2..]))
    else [list[0]] + Thinned(list[1..])
  }

  function Heeded(list: seq<Versioned>): seq<Versioned> {
    if list == [] then [] else (if Ignored(list[0]) then [] else [list[0]]) + Heeded(list[1..])
  }

  /** The list without ignored resources, as far as the removal in place gets. */
  method DropIgnored(list: seq<Versioned>) returns (r: seq<Versioned>)
    ensures r == Thinned(list)
  {
    hide Ignored;
    r := list;
    var i := 0;
    assert list[0..] == list;
    ghost var rest := list;
    while i < |r|
      invariant 0 <= i <= |r| || (rest == [] && i == |r| + 1)
      invariant i <= |r| ==> r[i..] == rest
      invariant rest == [] ==> i >= |r|
      invariant Thinned(list) == (if i <= |r| then r[..i] else r) + Thinned(rest)
      decreases |rest|
    {
      assert rest[0] == r[i];
      ghost var was := r;
      if Ignored(r[i]) {
        r := r[..i] + r[i + 1..];
        if |rest| > 1 {
          assert r[i] == rest[1] && r[..i + 1] == was[..i] + [rest[1]];
          assert r[i + 1..] == rest[2..];
          rest := rest[2..];
        } else {
          assert r == was[..i];
          rest := [];
        }
      } else {
        assert r[..i + 1] == was[..i] + [rest[0]];
        assert r[i + 1..] == rest[1..];
        rest := rest[1..];
      }
      i := i + 1;
    }
    assert i <= |r| ==> r[..i] == r;
  }

  /** Removal loses no resource that should be kept, and keeps their order. */
  lemma {:induction false} ThinnedKeepsHeeded(list: seq<Versioned>)
    ensures Heeded(Thinned(list)) == Heeded(list)
    decreases |list|
  {
    hide Ignored;
    if list != [] {
      if !Ignored(list[0]) {
        ThinnedKeepsHeeded(list[1..]);
        HeededOf(list[0], Thinned(list[1..]));
      } else if |list| > 1 {
        ThinnedKeepsHeeded(list[2..]);
        assert list[1..][1..] == list[2..];
        HeededOf(list[1], Thinned(list[2..]));
      }
    }
  }

  lemma HeededOf(x: Versioned, xs: seq<Versioned>)
    ensures Heeded([x] + xs) == (if Ignored(x) then [] else [x]) + Heeded(xs)
  {
    hide Ignored;
    assert ([x] + xs)[1..] == xs;
  }

  /** Everything on the thinned list was on the list. */
  lemma {:induction false} ThinnedFromList(list: seq<Versioned>)
    ensures forall e :: e in Thinned(list) ==> e in list
    decreases |list|
  {
    hide Ignored;
    if list != [] {
      if !Ignored(list[0]) {
        ThinnedFromList(list[1..]);
      } else if |list| > 1 {
        ThinnedFromList(list[2..]);
      }
    }
  }

  /** No ignored resource is left if and only if no two of them were next to each other. */
  lemma {:induction false} ThinnedIsCleanIff(list: seq<Versioned>)
    ensures (forall e :: e in Thinned(list) ==> !Ignored(e)) <==>
      (forall i :: 0 < i < |list| ==> !(Ignored(list[i - 1]) && Ignored(list[i])))
    decreases |list|
  {
    hide Ignored;
    if |list| > 1 {
      if !Ignored(list[0]) {
        ThinnedIsCleanIff(list[1..]);
        NoPairBehind(list, 1);
        assert forall e :: e in Thinned(list) <==> e == list[0] || e in Thinned(list[1..]);
      } else {
        ThinnedIsCleanIff(list[2..]);
        NoPairBehind(list, 2);
        assert forall e :: e in Thinned(list) <==> e == list[1] || e in Thinned(list[2..]);
        assert Ignored(list[1]) ==> Ignored(list[1 - 1]);
      }
    } else if |list| == 1 && !Ignored(list[0]) {
      assert Thinned(list) == [list[0]] + Thinned([]);
    }
  }

  /** Neighbours in a suffix are neighbours in the list. */
  lemma NoPairBehind(list: seq<Versioned>, k: nat)
    requires k <= |list|
    ensures (forall i :: 0 < i < |list[k..]| ==> !(Ignored(list[k..][i - 1]) && Ignored(list[k..][i]))) <==>
            (forall i :: k < i < |list| ==> !(Ignored(list[i - 1]) && Ignored(list[i])))
  {
    hide Ignored;
    var rest := list[k..];
    if forall i :: 0 < i < |rest| ==> !(Ignored(rest[i - 1]) && Ignored(rest[i])) {
      forall i | k < i < |list| ensures !(Ignored(list[i - 1]) && Ignored(list[i])) {
        assert rest[i - k] == list[i] && rest[i - k - 1] == list[i - 1];
      }
    }
  }

  /** The resources of one node, or of all nodes if none is given. */
  method ListBlockDeviceResource(api: Server, node: Option<string>) returns (r: Option<seq<Versioned>>)
    requires api.Valid()
    modifies api
    ensures api.Valid() && old(api.hist) <= api.hist && Extends(old(api.deviceLog), api.deviceLog)
    ensures r.Some? ==> AllLogged(api.View(), r.value)
    ensures api.quiet ==> r.Some? && api.View() == old(api.View())
    ensures api.quiet ==> forall i :: 0 <= i < |r.value| ==> IsCurrent(api.View(), r.value[i])
    ensures api.quiet ==> Covers(api.View(), node, [], r.value)
  {
    hide Inv, IsRun, Matches, Falsy;
    var selector := Selector(if node.Some? then map[HOSTNAME_LABEL := node.value] else map[], []);
    NodeSelector(node, selector);
    var items := api.ListDevices(selector);
    if items.None? {
      return None;
    }
    var list := DropIgnored(items.value);
    ThinnedFromList(items.value);
    ThinnedKeepsHeeded(items.value);
    HeededIn(items.value);
    HeededIn(list);
    forall i | 0 <= i < |list| ensures Logged(api.View(), list[i]) && (api.quiet ==> IsCurrent(api.View(), list[i])) {
      assert list[i] in items.value;
    }
    r := Some(list);
  }

  /** Every stored resource of the node is listed, unless it is switched off or its device is present. */
  ghost predicate Covers(s: Cluster, node: Option<string>, present: seq<string>, list: seq<Versioned>) {
    forall b :: s.HasDevice(b) && OnNode(node, s.Device(b)) && s.Device(b).name !in present ==>
      var d := s.Device(b);
      (Reconcile in d.annotations && Falsy(d.annotations[Reconcile])) || Versioned(s.devices[b], d) in list
  }

  predicate OnNode(node: Option<string>, d: BlockDevice) {
    node.None? || (HOSTNAME_LABEL in d.labels && d.labels[HOSTNAME_LABEL] == node.value)
  }

  lemma NodeSelector(node: Option<string>, selector: Selector)
    requires selector == Selector(if node.Some? then map[HOSTNAME_LABEL := node.value] else map[], [])
    ensures ValidSelector(selector) && forall d: BlockDevice :: Matches(selector, d.labels) <==> OnNode(node, d)
  {}

  lemma {:induction false} HeededIn(list: seq<Versioned>)
    ensures forall e :: e in Heeded(list) <==> e in list && !Ignored(e)
  {
    hide Ignored;
    if list != [] {
      HeededIn(list[1..]);
      assert list == [list[0]] + list[1..];
    }
  }

  /** The first resource with this name. */
  function Named(list: seq<Versioned>, name: string): (r: Option<Versioned>)
    ensures r.Some? ==> r.value in list && r.value.d.name == name
    ensures r.None? ==> forall e :: e in list ==> e.d.name != name
  {
    if list == [] then None else if list[0].d.name == name then Some(list[0]) else Named(list[1..], name)
  }

  lemma NamedIsLogged(s: Cluster, list: seq<Versioned>, name: string)
    requires AllLogged(s, list)
    ensures Named(list, name).Some? ==> Logged(s, Named(list, name).value)
  {}

  method GetExistingBlockDeviceResource(list: seq<Versioned>, name: string) returns (r: Option<Versioned>)
    ensures r == Named(list, name)
  {
    assert list[0..] == list;
    for i := 0 to |list|
      invariant Named(list, name) == Named(list[i..], name)
    {
      assert list[i..][1..] == list[i + 1..];
      if list[i].d.name == name {
        return Some(list[i]);
      }
    }
    r := None;
  }

  // --- Marking many resources ------------------------------------------------------------

  /** The states of all listed resources changed, one after the other. */
  function AllSet(s: Cluster, list: seq<Versioned>, state: DeviceState): Cluster {
    if list == [] then s else StateSet(AllSet(s, list[..|list| - 1], state), list[|list| - 1], state)
  }

  /** On shutdown, the state of every resource of the node becomes unknown. */
  method MarkBlockDeviceStatusToUnknown(api: Server, node: string) returns (list: seq<Versioned>)
    requires api.Valid()
    modifies api
    ensures api.Valid() && old(api.hist) <= api.hist
    ensures api.quiet ==>
      api.View() == AllSet(old(api.View()), list, Unknown) && Covers(old(api.View()), Some(node), [], list)
    ensures api.quiet ==> forall i :: 0 <= i < |list| ==>
      Logged(old(api.View()), list[i]) && IsCurrent(old(api.View()), list[i])
  {
    hide Inv, IsRun, StoreDevice, Guard, Next, UpdatesDevice, IsCurrent, Logged, StateSet, Covers;
    var listed := ListBlockDeviceResource(api, Some(node));
    list := if listed.Some? then listed.value else [];
    ghost var s := api.View();
    for i := 0 to |list|
      invariant api.Valid() && old(api.hist) <= api.hist && AllLogged(api.View(), list)
      invariant api.quiet ==> api.View() == AllSet(s, list[..i], Unknown)
    {
      assert list[..i + 1][..i] == list[..i];
      ghost var t := api.View();
      SetStateGuard(api.disc, t, list[i], Unknown);
      var _ := api.UpdateDevice(list[i].d.(state := Unknown), list[i].v, DaemonSetState(list[i].v, Unknown));
      LogsKept(t, api.View(), api.mine, api.own);
      LoggedStays(t, api.View(), list);
    }
    assert list[..|list|] == list;
  }

  /** Resources of the node whose device is no longer present become inactive. */
  method DeactivateStaleBlockDeviceResource(api: Server, node: string, devices: seq<string>, sparse: seq<string>)
    returns (stale: seq<Versioned>)
    requires api.Valid()
    modifies api
    ensures api.Valid() && old(api.hist) <= api.hist
    ensures forall i :: 0 <= i < |stale| ==> stale[i].d.name !in devices && stale[i].d.name !in sparse
    ensures api.quiet ==> api.View() == AllSet(old(api.View()), stale, Inactive)
    ensures api.quiet ==> Covers(old(api.View()), Some(node), devices + sparse, stale)
    ensures api.quiet ==> forall i :: 0 <= i < |stale| ==>
      Logged(old(api.View()), stale[i]) && IsCurrent(old(api.View()), stale[i])
  {
    hide Inv, IsRun, StoreDevice, IsCurrent, Logged, StateSet, Deactivated, Covers, LastStep;
    stale := [];
    var present := devices + sparse;
    var listed := ListBlockDeviceResource(api, Some(node));
    if listed.None? {
      return;
    }
    ghost var s := api.View();
    for i := 0 to |listed.value|
      invariant api.Valid() && old(api.hist) <= api.hist && AllLogged(api.View(), listed.value)
      invariant forall j :: 0 <= j < |stale| ==> stale[j].d.name !in present
      invariant forall j :: 0 <= j < i && listed.value[j].d.name !in present ==> listed.value[j] in stale
      invariant api.quiet ==> api.View() == AllSet(s, stale, Inactive)
      invariant api.quiet ==> forall j :: 0 <= j < |stale| ==> Logged(s, stale[j]) && IsCurrent(s, stale[j])
    {
      var item := listed.value[i];
      if item.d.name !in present {
        ghost var t := api.View();
        DeactivateBlockDevice(api, item);
        LoggedStays(t, api.View(), listed.value);
        SetAgain(s, t, stale, item, Inactive);
        stale := stale + [item];
      }
    }
    if api.quiet { CoversStale(s, Some(node), present, listed.value, stale); }
  }

  lemma CoversStale(s: Cluster, node: Option<string>, present: seq<string>, list: seq<Versioned>, stale: seq<Versioned>)
    requires Covers(s, node, [], list) && forall j :: 0 <= j < |list| && list[j].d.name !in present ==> list[j] in stale
    ensures Covers(s, node, present, stale)
  {
    hide Ignored, OnNode;
  }

  lemma SetStateGuard(disc: Discipline, s: Cluster, e: Versioned, state: DeviceState)
    requires Logged(s, e) && state != Active
    ensures var a := DaemonSetState(e.v, state);
            && Guard(disc, s, a) && Guard(Any, s, a) && UpdatesDevice(s, a, e.v, e.d.(state := state))
            && Next(s, a) == StateSet(s, e, state) && e.v in s.deviceLog && s.deviceLog[e.v] == e.d
  {
    hide Guard, Next, UpdatesDevice, StoreDevice;
    SetStateMeans(disc, s, e, state);
  }

  lemma SetAgain(s: Cluster, t: Cluster, list: seq<Versioned>, e: Versioned, state: DeviceState)
    ensures t == AllSet(s, list, state) ==> AllSet(s, list + [e], state) == StateSet(t, e, state)
    ensures state == Inactive ==> StateSet(t, e, state) == Deactivated(t, e)
  {
    assert (list + [e])[..|list|] == list;
  }

  predicate SameVersion(s: Cluster, t: Cluster, b: string) {
    (b in t.devices <==> b in s.devices) && (b in s.devices && b in t.devices ==> t.devices[b] == s.devices[b])
  }

  lemma StateSetMeans(s: Cluster, e: Versioned, state: DeviceState, b: string)
    requires Inv(s) && Logged(s, e) && state != Active
    ensures var t := StateSet(s, e, state);
            && Inv(t) && Extends(s.deviceLog, t.deviceLog) && (b != e.d.name ==> SameVersion(s, t, b))
            && DeviceAt(t, b) == if IsCurrent(s, e) && b == e.d.name then Some(e.d.(state := state)) else DeviceAt(s, b)
  {
    hide Guard, Next, DeviceWrite, ClaimWrite, Stored, Monotone, Backed, IntentsOk, SessionsOk, ClaimsStored, DeviceOk;
    SetStateGuard(Any, s, e, state);
    StepKeepsInv(s, DaemonSetState(e.v, state));
    if IsCurrent(s, e) { StoreDeviceAt(s, e.d.(state := state), b); }
  }

  /**
    Marking current resources changes the state of exactly those resources and nothing
    else of them.
    */
  lemma {:induction false} AllSetMeans(s: Cluster, list: seq<Versioned>, state: DeviceState, b: string)
    requires Inv(s) && state != Active && forall i :: 0 <= i < |list| ==> Logged(s, list[i]) && IsCurrent(s, list[i])
    ensures var t, listed := AllSet(s, list, state), exists i :: 0 <= i < |list| && list[i].d.name == b;
            && Inv(t) && Extends(s.deviceLog, t.deviceLog) && (!listed ==> SameVersion(s, t, b))
            && (listed ==> DeviceAt(s, b).Some?)
            && DeviceAt(t, b) == if listed then Some(DeviceAt(s, b).value.(state := state)) else DeviceAt(s, b)
    decreases |list|
  {
    hide Inv, StateSet;
    if list != [] {
      var rest, e := list[..|list| - 1], list[|list| - 1];
      AllSetMeans(s, rest, state, b);
      StateSetMeans(AllSet(s, rest, state), e, state, b);
      if i :| 0 <= i < |rest| && rest[i].d.name == b {
        assert list[i].d.name == b;
      }
    }
  }
}
