/**
  Concrete runs that show where the stronger forms of the promises end: what an
  interrupted claim leaves behind, and what a stale read does to cleanup.
  */
module Scenarios {
  import opened Objects
  import opened Protocol
  import opened Invariant
  import opened ClaimSafety
  import opened Cleanup
  import opened Conservation
  import opened Completion
  import opened CleanupLimits

  function NamedDevice(name: string): BlockDevice {
    BlockDevice(name, map[], map[], [], false,
      DeviceSpec(Capacity(1, 512, 512), None, Details("", "", "", "", ""), [], FileSystem("", ""), "", ""),
      Unclaimed, Active)
  }

  function NamedClaim(name: string, uid: nat): BlockDeviceClaim {
    BlockDeviceClaim(BlockDeviceClaimKind, name, uid, map[], [], false,
      ClaimSpec(None, Some(1), "", "", "", "", "", "", ""), EmptyPhase)
  }

  lemma Then(disc: Discipline, run: seq<Cluster>, t: Cluster)
    requires IsRun(disc, run) && Step(disc, run[|run| - 1], t)
    ensures IsRun(disc, run + [t])
  {
    hide Step;
    forall i | 0 <= i < |run + [t]| - 1 ensures Step(disc, (run + [t])[i], (run + [t])[i + 1]) {
      if i < |run| - 1 { assert (run + [t])[i + 1] == run[i + 1]; }
    }
  }

  // --- The effect of single actions -------------------------------------------

  function PutDevice(s: Cluster, d: BlockDevice): Cluster {
    s.(rev := s.rev + 1, devices := s.devices[d.name := s.rev + 1], deviceLog := s.deviceLog[s.rev + 1 := d])
  }

  function PutClaim(s: Cluster, c: BlockDeviceClaim): Cluster {
    s.(rev := s.rev + 1, claims := s.claims[c.name := s.rev + 1], claimLog := s.claimLog[s.rev + 1 := c])
  }

  lemma OnDaemonCreate(disc: Discipline, s: Cluster, d: BlockDevice)
    requires NewDevice(d) && d.name !in s.devices
    ensures Step(disc, s, PutDevice(s, d))
  {
    assert Guard(disc, s, DaemonCreate(d));
  }

  lemma OnCreateClaim(disc: Discipline, s: Cluster, name: string)
    requires name !in s.claims
    ensures Step(disc, s, PutClaim(s, NamedClaim(name, s.rev + 1)))
  {
    assert Guard(disc, s, CreateClaim(NamedClaim(name, s.rev + 1)));
  }

  lemma OnEditClaim(disc: Discipline, s: Cluster, c: BlockDeviceClaim)
    requires c.name in s.claims && s.claims[c.name] in s.claimLog && ClaimEdit(s.claimLog[s.claims[c.name]], c)
    requires !c.deleting
    ensures Step(disc, s, PutClaim(s, c))
  {
    assert Guard(disc, s, EditClaim(c));
  }

  lemma OnDeleteClaim(disc: Discipline, s: Cluster, n: string)
    requires n in s.claims && s.claims[n] in s.claimLog && s.claimLog[s.claims[n]].finalizers != []
    requires s.claimLog[s.claims[n]].name == n
    ensures Step(disc, s, PutClaim(s, s.claimLog[s.claims[n]].(deleting := true)))
  {
    assert Guard(disc, s, DeleteClaim(n));
  }

  lemma OnClaimDevice(disc: Discipline, s: Cluster, vc: nat, vb: nat)
    requires vc in s.claimLog && vb in s.deviceLog && SearchesDevice(s.claimLog[vc])
    requires s.deviceLog[vb].state == Active && s.deviceLog[vb].claimState == Unclaimed
    requires CurrentDevice(s, s.deviceLog[vb].name, vb)
    ensures Step(disc, s, PutDevice(s, ClaimedBy(s.deviceLog[vb], s.claimLog[vc])).(
                            intents := s.intents + {Bind(vc, s.deviceLog[vb].name)}))
  {
    assert Guard(disc, s, ClaimDevice(vc, vb));
    assert ClaimedBy(s.deviceLog[vb], s.claimLog[vc]).finalizers != [];
  }

  lemma OnBindClaim(disc: Discipline, s: Cluster, vc: nat, b: string)
    requires Bind(vc, b) in s.intents && vc in s.claimLog
    ensures Step(disc, s, (if CurrentClaim(s, s.claimLog[vc].name, vc) then PutClaim(s, BoundTo(s.claimLog[vc], b))
      else s).(
                            intents := s.intents - {Bind(vc, b)}))
  {
    assert Guard(disc, s, BindClaim(vc, b));
    assert BoundTo(s.claimLog[vc], b).finalizers != [];
  }

  lemma OnReleaseDevice(disc: Discipline, s: Cluster, vc: nat, vb: nat)
    requires vc in s.claimLog && vb in s.deviceLog && ReadyToRelease(s.claimLog[vc])
    requires s.deviceLog[vb].claimState == Claimed && s.deviceLog[vb].spec.claimRef.Some?
    requires RequestedBy(s.claimLog[vc], s.deviceLog[vb]) && CurrentDevice(s, s.deviceLog[vb].name, vb)
    requires s.deviceLog[vb].finalizers != []
    ensures Step(disc, s, PutDevice(s, ReleasedFrom(s.deviceLog[vb])).(intents := s.intents + {Unbind(vc)}))
  {
    assert Guard(disc, s, ReleaseDevice(vc, vb));
  }

  lemma OnUnbindClaim(disc: Discipline, s: Cluster, vc: nat)
    requires Unbind(vc) in s.intents && vc in s.claimLog && ReadyToRelease(s.claimLog[vc])
    requires CurrentClaim(s, s.claimLog[vc].name, vc)
    ensures Step(disc, s, s.(rev := s.rev + 1, claims := s.claims - {s.claimLog[vc].name},
      intents := s.intents - {Unbind(vc)}))
  {
    assert Guard(disc, s, UnbindClaim(vc));
    WithoutOnly(ClaimProtection);
  }

  lemma OnBeginClean(disc: Discipline, s: Cluster, id: nat, vb: nat)
    requires id !in s.sessions && vb in s.deviceLog && s.deviceLog[vb].claimState == Released
    requires !ReconcileDisabled(s.deviceLog[vb].annotations)
    requires disc == Serial ==> CurrentDevice(s, s.deviceLog[vb].name, vb) && IdleDevice(s, s.deviceLog[vb].name)
    ensures Step(disc, s, s.(sessions := s.sessions[id := Session(vb, false, false)]))
  {
    assert Guard(disc, s, BeginClean(id, vb));
  }

  lemma OnEndClean(disc: Discipline, s: Cluster, id: nat)
    requires id in s.sessions
    ensures Step(disc, s, s.(sessions := s.sessions - {id}))
  {
    assert Guard(disc, s, EndClean(id));
  }

  lemma OnStartJob(disc: Discipline, s: Cluster, id: nat)
    requires id in s.sessions && s.sessions[id].vb in s.deviceLog && !s.sessions[id].seen && !s.sessions[id].cleaned
    requires s.deviceLog[s.sessions[id].vb].state == Active && SessionJob(s, id) !in s.jobs
    ensures Step(disc, s, WithJob(s, SessionJob(s, id), 0))
  {
    hide JobName;
    assert Guard(disc, s, StartJob(id));
  }

  lemma OnJobSucceeds(disc: Discipline, s: Cluster, j: string)
    requires j in s.jobs
    ensures Step(disc, s, WithJob(s, j, s.jobs[j].succeeded + 1))
  {
    assert Guard(disc, s, JobSucceeds(j));
  }

  lemma OnSeeResult(disc: Discipline, s: Cluster, id: nat)
    requires id in s.sessions && s.sessions[id].vb in s.deviceLog && !s.sessions[id].cleaned
    requires EverSucceeded(s.jobLog, SessionJob(s, id))
    requires disc == Serial ==> SessionJob(s, id) in s.jobs && s.jobs[SessionJob(s, id)].succeeded > 0
    ensures Step(disc, s, s.(sessions := s.sessions[id := s.sessions[id].(seen := true)]))
  {
    hide JobName, EverSucceeded;
    assert Guard(disc, s, SeeResult(id));
  }

  lemma OnTakeResult(disc: Discipline, s: Cluster, id: nat)
    requires id in s.sessions && s.sessions[id].vb in s.deviceLog && s.sessions[id].seen && !s.sessions[id].cleaned
    requires SessionJob(s, id) in s.jobs
    ensures Step(disc, s, s.(jobs := s.jobs - {SessionJob(s, id)},
      sessions := s.sessions[id := s.sessions[id].(cleaned := true)]))
  {
    hide JobName;
    assert Guard(disc, s, TakeResult(id));
  }

  lemma OnFreeDevice(disc: Discipline, s: Cluster, id: nat)
    requires id in s.sessions && s.sessions[id].vb in s.deviceLog && s.sessions[id].cleaned
    requires var d := s.deviceLog[s.sessions[id].vb]; CurrentDevice(s, d.name, s.sessions[id].vb) && !d.deleting
    ensures Step(disc, s, PutDevice(s, Freed(s.deviceLog[s.sessions[id].vb])).(sessions := s.sessions - {id}))
  {
    assert Guard(disc, s, FreeDevice(id));
  }

  // --- The two reconciles of a cleanup --------------------------------------------

  /** Nothing is being cleaned, and version v of device "d" is released and can be. */
  predicate Cleanable(s: Cluster, v: nat) {
    && s.sessions == map[] && v in s.deviceLog && s.deviceLog[v].claimState == Released && Plain(s.deviceLog[v])
  }

  predicate Plain(d: BlockDevice) {
    d.name == "d" && d.state == Active && !d.deleting && !ReconcileDisabled(d.annotations)
  }

  /** The first reconcile starts a job. */
  lemma FirstPass(disc: Discipline, s: Cluster, v: nat) returns (t: seq<Cluster>)
    requires Cleanable(s, v) && JobName("d") !in s.jobs && (disc == Serial ==> CurrentDevice(s, "d", v))
    ensures |t| == 3 && Step(disc, s, t[0]) && Step(disc, t[0], t[1]) && Step(disc, t[1], t[2])
    ensures t[0].jobs == s.jobs && t[1].jobs == s.jobs[JobName("d") := Job(0)]
    ensures t[2] == WithJob(s, JobName("d"), 0)
  {
    hide Step, JobName;
    OnBeginClean(disc, s, 0, v);
    var t0 := s.(sessions := map[0 := Session(v, false, false)]);
    OnStartJob(disc, t0, 0);
    var t1 := WithJob(t0, JobName("d"), 0);
    OnEndClean(disc, t1, 0);
    assert t1.sessions - {0} == map[];
    t := [t0, t1, WithJob(s, JobName("d"), 0)];
  }

  /** The cluster once the second reconcile has collected the job. */
  function JobTaken(s: Cluster): Cluster {
    s.(jobs := s.jobs - {JobName("d")})
  }

  /** The second reconcile sees a result, collects the job and frees the device; only the result may be stale. */
  lemma SecondPass(see: Discipline, s: Cluster, v: nat) returns (t: seq<Cluster>)
    requires Cleanable(s, v) && CurrentDevice(s, "d", v) && JobName("d") in s.jobs
    requires EverSucceeded(s.jobLog, JobName("d")) && (see == Serial ==> s.jobs[JobName("d")].succeeded > 0)
    ensures |t| == 4 && Step(Serial, s, t[0]) && Step(see, t[0], t[1])
    ensures Step(Serial, t[1], t[2]) && Step(Serial, t[2], t[3])
    ensures forall i :: 0 <= i < 3 ==> t[i].devices == s.devices && t[i].deviceLog == s.deviceLog
    ensures t[0].jobs == s.jobs && t[1].jobs == s.jobs && t[2].jobs == JobTaken(s).jobs
    ensures t[3] == PutDevice(JobTaken(s), Freed(s.deviceLog[v]))
  {
    hide Step, JobName, Freed, EverSucceeded;
    OnBeginClean(Serial, s, 0, v);
    var t0 := s.(sessions := map[0 := Session(v, false, false)]);
    OnSeeResult(see, t0, 0);
    var t1 := s.(sessions := map[0 := Session(v, true, false)]);
    assert t0.sessions[0 := Session(v, true, false)] == t1.sessions;
    OnTakeResult(Serial, t1, 0);
    var t2 := JobTaken(s).(sessions := map[0 := Session(v, true, true)]);
    assert t1.sessions[0 := Session(v, true, true)] == t2.sessions;
    OnFreeDevice(Serial, t2, 0);
    assert t2.sessions - {0} == map[];
    t := [t0, t1, t2, PutDevice(JobTaken(s), Freed(s.deviceLog[v]))];
  }

  // --- An interrupted claim -----------------------------------------------------

  /**
    The claim is edited between the two writes of its reconcile.  The device stays
    claimed by a claim that is not bound, although nobody has anything left to do:
    the one-to-one correspondence needs uninterrupted reconciles.
    */
  lemma InterruptedClaimLeavesDeviceClaimed() returns (run: seq<Cluster>)
    ensures IsRun(Serial, run) && |run| == 6
    ensures var s := run[5];
            var c := NamedClaim("c", 2).(annotations := map[OtherKey("note") := "x"]); var d := NamedDevice("d");
      s == Cluster(4, map["d" := 3], map["c" := 4], map[1 := d, 3 := ClaimedBy(d, c)],
                   map[2 := NamedClaim("c", 2), 4 := c], map[], {}, {}, map[])
    ensures !Matched(run[5]) && TakesHold(run, 2, "d", ClaimRef(BlockDeviceClaimKind, "c", 2))
    ensures forall i :: 0 <= i < 6 ==> Holding(run[i], "c") == None
  {
    hide Step, Holder, Holding;
    var d, c := NamedDevice("d"), NamedClaim("c", 2);
    var edited := c.(annotations := map[OtherKey("note") := "x"]);
    OnDaemonCreate(Serial, EMPTY, d);
    var s1 := PutDevice(EMPTY, d);
    OnCreateClaim(Serial, s1, "c");
    var s2 := PutClaim(s1, c);
    OnClaimDevice(Serial, s2, 2, 1);
    var s3 := PutDevice(s2, ClaimedBy(d, c)).(intents := {Bind(2, "d")});
    assert s2.intents + {Bind(2, "d")} == {Bind(2, "d")};
    OnEditClaim(Serial, s3, edited);
    var s4 := PutClaim(s3, edited);
    OnBindClaim(Serial, s4, 2, "d");
    var s5 := s4.(intents := {});
    assert s4.intents - {Bind(2, "d")} == {};
    run := [EMPTY, s1, s2, s3, s4, s5];
    HolderIs(s2, "d", 1);
    HolderIs(s3, "d", 3);
    HolderIs(s5, "d", 3);
    forall i | 0 <= i < 6 ensures Holding(run[i], "c") == None { Unbound(run[i], "c"); }
  }

  lemma HolderIs(s: Cluster, b: string, v: nat)
    requires CurrentDevice(s, b, v) && v in s.deviceLog
    ensures Holder(s, b) == if s.deviceLog[v].claimState == Claimed then s.deviceLog[v].spec.claimRef else None
  {}

  lemma Unbound(s: Cluster, c: string)
    requires s.HasClaim(c) ==> s.Claim(c).phase != Bound
    ensures Holding(s, c) == None
  {}

  /** What claim "c" of uid 2 is never bound to. */
  const LOST := Binding(2, "d")

  /** The retry finds another device, which is new, and binds it. */
  lemma RetrySteps(s: Cluster) returns (t: seq<Cluster>)
    requires s.rev == 4 && s.claims == map["c" := 4] && s.devices == map["d" := 3] && s.intents == {}
    requires 4 in s.claimLog && SearchesDevice(s.claimLog[4]) && s.claimLog[4].name == "c"
    ensures |t| == 3 && Step(Serial, s, t[0]) && Step(Serial, t[0], t[1]) && Step(Serial, t[1], t[2])
    ensures Holding(t[0], "c") != Some(LOST) && Holding(t[1], "c") != Some(LOST)
    ensures var c, e := s.claimLog[4], NamedDevice("e");
      t[2] == s.(rev := 7, claims := map["c" := 7], devices := map["d" := 3, "e" := 6],
                 deviceLog := s.deviceLog[5 := e][6 := ClaimedBy(e, c)],
                 claimLog := s.claimLog[7 := BoundTo(c, "e")])
  {
    hide Step, Holding, ReconcileDisabled;
    var e, c := NamedDevice("e"), s.claimLog[4];
    OnDaemonCreate(Serial, s, e);
    var s6 := PutDevice(s, e);
    OnClaimDevice(Serial, s6, 4, 5);
    var s7 := PutDevice(s6, ClaimedBy(e, c)).(intents := {Bind(4, "e")});
    assert s6.intents + {Bind(4, "e")} == {Bind(4, "e")};
    OnBindClaim(Serial, s7, 4, "e");
    var s8 := PutClaim(s7, BoundTo(c, "e")).(intents := {});
    assert s7.intents - {Bind(4, "e")} == {};
    t := [s6, s7, s8];
    NotBoundTo(s6, "c", 4, LOST);
    NotBoundTo(s7, "c", 4, LOST);
  }

  lemma NotBoundTo(s: Cluster, c: string, v: nat, to: Binding)
    requires s.claims == map[c := v] && v in s.claimLog
    requires s.claimLog[v].phase != Bound || s.claimLog[v].spec.blockDeviceName != to.device
    ensures Holding(s, c) != Some(to)
  {}

  /** After an interrupted claim the retry binds another device, and the claim is deleted. */
  lemma RetryBindsAnother() returns (run: seq<Cluster>)
    ensures IsRun(Serial, run) && |run| == 10 && TakesHold(run, 2, "d", ClaimRef(BlockDeviceClaimKind, "c", 2))
    ensures forall i :: 0 <= i < 10 ==> Holding(run[i], "c") != Some(LOST)
    ensures var s := run[9]; var c := NamedClaim("c", 2).(annotations := map[OtherKey("note") := "x"]);
      && s.rev == 8 && s.claims == map["c" := 8] && s.devices == map["d" := 3, "e" := 6] && s.intents == {}
      && 8 in s.claimLog && s.claimLog[8] == BoundTo(c, "e").(deleting := true)
      && 3 in s.deviceLog && s.deviceLog[3] == ClaimedBy(NamedDevice("d"), c)
      && 6 in s.deviceLog && s.deviceLog[6] == ClaimedBy(NamedDevice("e"), c)
  {
    hide Step, IsRun, Holder, Holding, TakesHold, ClaimedBy, NamedDevice;
    var before := InterruptedClaimLeavesDeviceClaimed();
    var more := RetrySteps(before[5]);
    OnDeleteClaim(Serial, more[2], "c");
    var gone := PutClaim(more[2], more[2].claimLog[7].(deleting := true));
    NotBoundTo(more[2], "c", 7, LOST);
    NotBoundTo(gone, "c", 8, LOST);
    run := Chain(Serial, before, more + [gone]);
    StillTakes(before, run, 2, "d", ClaimRef(BlockDeviceClaimKind, "c", 2));
  }

  /**
    After an interrupted claim the retry binds another device, and the release scan
    may find the first one.  The claim is then gone while the device it was bound
    to stays claimed.
    */
  lemma InterruptedClaimMisleadsRelease() returns (run: seq<Cluster>)
    ensures IsRun(Serial, run) && |run| == 12
    ensures run[9].HasClaim("c") && run[9].Claim("c").spec.blockDeviceName == "e"
    ensures var s := run[11]; "c" !in s.claims && s.intents == {} && IsReleased(s, "d") && HeldBy(s, "e", 2)
  {
    hide Step, IsRun;
    run := RetryBindsAnother();
    var s10, s11 := MisledRelease(run[9]);
    run := Chain(Serial, run, [s10, s11]);
  }

  /**
    The converse of conservation fails: the claim reconcile that took device "d" never bound
    it, but the release of "d" is interrupted too, and its retry releases the other device
    and carries the release through.  Nothing is pending and everything matches again.
    */
  lemma RetryRepairsInterruptedClaim() returns (run: seq<Cluster>)
    ensures IsRun(Serial, run) && |run| == 13
    ensures run[12].intents == {} && Matched(run[12]) && !Completed(run, 12)
  {
    hide Step, IsRun, Holding, Holder, TakesHold, Binds;
    run := RetryBindsAnother();
    var before := run;
    var s10, s11, s12 := BothReleased(run[9]);
    run := Chain(Serial, run, [s10, s11, s12]);
    StillTakes(before, run, 2, "d", ClaimRef(BlockDeviceClaimKind, "c", 2));
    forall k: nat | 2 < k < 12 ensures !Binds(run, k, "c", LOST) {
      NotBound(run, k, "c", LOST);
    }
  }

  lemma StillTakes(before: seq<Cluster>, run: seq<Cluster>, j: nat, b: string, ref: ClaimRef)
    requires TakesHold(before, j, b, ref) && before <= run
    ensures TakesHold(run, j, b, ref)
  {}

  lemma NotBound(run: seq<Cluster>, k: nat, c: string, to: Binding)
    requires k + 1 < |run| && Holding(run[k + 1], c) != Some(to)
    ensures !Binds(run, k, c, to)
  {}

  /** One reconcile releases "d" and stops; the next releases "e" and lets the claim go. */
  lemma BothReleased(s: Cluster) returns (s10: Cluster, s11: Cluster, s12: Cluster)
    requires s.rev == 8 && s.claims == map["c" := 8] && s.devices == map["d" := 3, "e" := 6] && s.intents == {}
    requires 8 in s.claimLog && ReadyToRelease(s.claimLog[8]) && s.claimLog[8].name == "c"
    requires 3 in s.deviceLog && Releasable(s.claimLog[8], s.deviceLog[3], "d")
    requires 6 in s.deviceLog && Releasable(s.claimLog[8], s.deviceLog[6], "e")
    requires Holding(s, "c") != Some(LOST)
    ensures Step(Serial, s, s10) && Step(Serial, s10, s11) && Step(Serial, s11, s12)
    ensures s12.intents == {} && Matched(s12)
    ensures Holding(s10, "c") != Some(LOST) && Holding(s11, "c") != Some(LOST) && Holding(s12, "c") != Some(LOST)
  {
    hide Step, RequestedBy, ReadyToRelease, Holding, Matched;
    OnReleaseDevice(Serial, s, 8, 3);
    s10 := PutDevice(s, ReleasedFrom(s.deviceLog[3])).(intents := {Unbind(8)});
    assert s.intents + {Unbind(8)} == {Unbind(8)};
    OnReleaseDevice(Serial, s10, 8, 6);
    s11 := PutDevice(s10, ReleasedFrom(s.deviceLog[6])).(intents := {Unbind(8)});
    assert s10.intents + {Unbind(8)} == {Unbind(8)};
    OnUnbindClaim(Serial, s11, 8);
    s12 := s11.(rev := 11, claims := map[], intents := {});
    assert s11.intents - {Unbind(8)} == {} && s11.claims - {"c"} == map[];
    SameHolding(s, s10, "c");
    SameHolding(s, s11, "c");
    NothingHeld(s12);
  }

  lemma SameHolding(s: Cluster, t: Cluster, c: string)
    requires t.claims == s.claims && t.claimLog == s.claimLog
    ensures Holding(t, c) == Holding(s, c)
  {}

  lemma NothingHeld(s: Cluster)
    requires s.claims == map[]
    requires forall b :: s.HasDevice(b) ==> s.Device(b).claimState != Claimed
    ensures Matched(s) && Holding(s, "c") == None
  {}

  /** The device is claimed by the claim. */
  ghost predicate Releasable(c: BlockDeviceClaim, d: BlockDevice, b: string) {
    && d.name == b && d.claimState == Claimed && d.spec.claimRef.Some? && RequestedBy(c, d) && d.finalizers != []
  }

  /** The release finds the device of version 3, not the one the claim names. */
  lemma MisledRelease(s: Cluster) returns (s10: Cluster, s11: Cluster)
    requires s.rev == 8 && s.claims == map["c" := 8] && s.devices == map["d" := 3, "e" := 6] && s.intents == {}
    requires 8 in s.claimLog && ReadyToRelease(s.claimLog[8]) && s.claimLog[8].name == "c"
    requires 3 in s.deviceLog && Releasable(s.claimLog[8], s.deviceLog[3], "d")
    requires 6 in s.deviceLog && HeldBy(s, "e", 2)
    ensures Step(Serial, s, s10) && Step(Serial, s10, s11)
    ensures "c" !in s11.claims && s11.intents == {} && IsReleased(s11, "d") && HeldBy(s11, "e", 2)
  {
    hide Step, RequestedBy, ReadyToRelease;
    OnReleaseDevice(Serial, s, 8, 3);
    s10 := PutDevice(s, ReleasedFrom(s.deviceLog[3])).(intents := {Unbind(8)});
    assert s.intents + {Unbind(8)} == {Unbind(8)};
    OnUnbindClaim(Serial, s10, 8);
    s11 := s10.(rev := 10, claims := map[], intents := {});
    assert s10.intents - {Unbind(8)} == {};
    assert s10.claims - {"c"} == map[];
  }

  // --- A stale read in the device reconciler -------------------------------------

  /** A device and a claim appear, and the device is bound to the claim. */
  lemma ClaimComes(disc: Discipline) returns (t: seq<Cluster>)
    ensures |t| == 4 && Step(disc, EMPTY, t[0]) && forall i :: 0 <= i < 3 ==> Step(disc, t[i], t[i + 1])
    ensures var d, c := NamedDevice("d"), NamedClaim("c", 2);
      t[3] == Cluster(4, map["d" := 3], map["c" := 4], map[1 := d, 3 := ClaimedBy(d, c)],
                      map[2 := c, 4 := BoundTo(c, "d")], map[], {}, {}, map[])
  {
    hide Step;
    var d, c := NamedDevice("d"), NamedClaim("c", 2);
    OnDaemonCreate(disc, EMPTY, d);
    var s1 := PutDevice(EMPTY, d);
    OnCreateClaim(disc, s1, "c");
    var s2 := PutClaim(s1, c);
    OnClaimDevice(disc, s2, 2, 1);
    var s3 := PutDevice(s2, ClaimedBy(d, c)).(intents := {Bind(2, "d")});
    assert s2.intents + {Bind(2, "d")} == {Bind(2, "d")};
    OnBindClaim(disc, s3, 2, "d");
    var s4 := PutClaim(s3, BoundTo(c, "d")).(intents := {});
    assert s3.intents - {Bind(2, "d")} == {};
    t := [s1, s2, s3, s4];
  }

  /** The claim is deleted, its device released, and the claim gone. */
  lemma ClaimGoes(disc: Discipline, s: Cluster, n: string, vc: nat, vb: nat) returns (t: seq<Cluster>)
    requires s.claims == map[n := vc] && s.devices == map["d" := vb] && s.intents == {} && vb <= s.rev
    requires vc in s.claimLog && s.claimLog[vc].name == n && ReadyToRelease(s.claimLog[vc].(deleting := true))
    requires vb in s.deviceLog && s.deviceLog[vb].name == "d" && s.deviceLog[vb].finalizers != []
    requires s.deviceLog[vb].claimState == Claimed && s.deviceLog[vb].spec.claimRef.Some?
    requires RequestedBy(s.claimLog[vc].(deleting := true), s.deviceLog[vb])
    ensures |t| == 3 && Step(disc, s, t[0]) && Step(disc, t[0], t[1]) && Step(disc, t[1], t[2])
    ensures t[0].devices == s.devices && t[0].deviceLog == s.deviceLog && t[0].jobs == t[1].jobs == s.jobs
    ensures t[2] == s.(rev := s.rev + 3, claims := map[], claimLog := t[2].claimLog, devices := map["d" := s.rev + 2],
                       deviceLog := s.deviceLog[s.rev + 2 := ReleasedFrom(s.deviceLog[vb])])
  {
    hide Step, RequestedBy;
    var v := s.rev + 1;
    OnDeleteClaim(disc, s, n);
    var s1 := PutClaim(s, s.claimLog[vc].(deleting := true));
    OnReleaseDevice(disc, s1, v, vb);
    var s2 := PutDevice(s1, ReleasedFrom(s.deviceLog[vb])).(intents := {Unbind(v)});
    assert s1.intents + {Unbind(v)} == {Unbind(v)};
    OnUnbindClaim(disc, s2, v);
    var s3 := s2.(rev := s.rev + 3, claims := map[], intents := {});
    assert s2.intents - {Unbind(v)} == {} && s2.claims - {n} == map[];
    t := [s1, s2, s3];
  }

  /** What a claim and its device look like once bound, and the device once released and freed. */
  lemma BoundPair(d: BlockDevice, n: string, uid: nat)
    requires Plain(d)
    ensures var c := NamedClaim(n, uid); var k, e := BoundTo(c, "d").(deleting := true), ClaimedBy(d, c);
            && BoundTo(c, "d").name == n && ReadyToRelease(k)
            && e.name == "d" && e.finalizers != []
            && e.claimState == Claimed && e.spec.claimRef.Some? && RequestedBy(k, e)
    ensures var e := ReleasedFrom(ClaimedBy(d, NamedClaim(n, uid))); Plain(e) && e.claimState == Released
    ensures var e := Freed(ReleasedFrom(ClaimedBy(d, NamedClaim(n, uid)))); Plain(e) && e.claimState == Unclaimed
  {}

  lemma NewIsPlain()
    ensures Plain(NamedDevice("d"))
  {}

  /** A claim comes and goes; the device is left released at version 6. */
  lemma ClaimComesAndGoes() returns (run: seq<Cluster>)
    ensures IsRun(Serial, run) && |run| == 8
    ensures var s := run[7]; var d := ReleasedFrom(ClaimedBy(NamedDevice("d"), NamedClaim("c", 2)));
      && s.rev == 7 && s.claims == map[] && s.devices == map["d" := 6] && 6 in s.deviceLog && s.deviceLog[6] == d
      && 10 !in s.deviceLog && s.intents == {} && s.sessions == map[] && s.jobs == map[]
  {
    hide Step, IsRun, NamedClaim, BoundTo, ClaimedBy, ReleasedFrom, Freed, ReadyToRelease, RequestedBy;
    NewIsPlain();
    BoundPair(NamedDevice("d"), "c", 2);
    var comes := ClaimComes(Serial);
    var goes := ClaimGoes(Serial, comes[3], "c", 4, 3);
    run := Chain(Serial, [EMPTY], comes + goes);
  }

  /** A run followed by more steps is a run. */
  lemma {:induction false} Chain(disc: Discipline, run: seq<Cluster>, more: seq<Cluster>) returns (all: seq<Cluster>)
    requires run == [EMPTY] || IsRun(disc, run)
    requires more != [] && Step(disc, run[|run| - 1], more[0])
    requires forall i :: 0 <= i < |more| - 1 ==> Step(disc, more[i], more[i + 1])
    ensures IsRun(disc, all) && all == run + more
    decreases |more|
  {
    hide Step;
    Then(disc, run, more[0]);
    all := run + [more[0]];
    if |more| > 1 {
      all := Chain(disc, all, more[1..]);
    }
  }

  /** The device is then cleaned by the book and free again at version 8. */
  lemma CleanedAndFreed() returns (run: seq<Cluster>, d: BlockDevice)
    ensures IsRun(Serial, run) && |run| == 16
    ensures var s := run[15];
      && s.rev == 8 && s.claims == map[] && s.devices == map["d" := 8] && 10 !in s.deviceLog
      && s.intents == {} && s.sessions == map[] && s.jobs == map[] && EverSucceeded(s.jobLog, JobName("d"))
      && 8 in s.deviceLog && s.deviceLog[8] == Freed(d) && Plain(s.deviceLog[8])
      && s.deviceLog[8].claimState == Unclaimed
      && 6 in s.deviceLog && s.deviceLog[6] == d && d.claimState == Released && Plain(d)
  {
    hide Step, IsRun, NamedClaim, ClaimedBy, ReleasedFrom, Freed, ReconcileDisabled, JobName;
    run := ClaimComesAndGoes();
    var s := run[7];
    NewIsPlain();
    BoundPair(NamedDevice("d"), "c", 2);
    d := s.deviceLog[6];
    var first := FirstPass(Serial, s, 6);
    OnJobSucceeds(Serial, first[2], JobName("d"));
    var done := WithJob(first[2], JobName("d"), 1);
    assert JobVersion(JobName("d"), 1) in done.jobLog;
    var second := SecondPass(Serial, done, 6);
    assert JobTaken(done).jobs == map[];
    run := Chain(Serial, run, first + [done] + second);
  }

  /** The freed device is claimed and bound again. */
  lemma NextClaim(disc: Discipline, s: Cluster) returns (t: seq<Cluster>)
    requires s.rev == 8 && s.claims == map[] && s.devices == map["d" := 8] && 8 in s.deviceLog && 10 !in s.deviceLog
    requires s.intents == {} && Plain(s.deviceLog[8]) && s.deviceLog[8].claimState == Unclaimed
    ensures |t| == 3 && Step(disc, s, t[0]) && Step(disc, t[0], t[1]) && Step(disc, t[1], t[2])
    ensures t[2] == s.(rev := 11, claims := map["next" := 11], devices := map["d" := 10],
                       claimLog := t[2].claimLog,
                       deviceLog := s.deviceLog[10 := ClaimedBy(s.deviceLog[8], NamedClaim("next", 9))])
    ensures 11 in t[2].claimLog && t[2].claimLog[11] == BoundTo(NamedClaim("next", 9), "d")
  {
    hide Step;
    var c, d := NamedClaim("next", 9), s.deviceLog[8];
    OnCreateClaim(disc, s, "next");
    var t1 := PutClaim(s, c);
    OnClaimDevice(disc, t1, 9, 8);
    var t2 := PutDevice(t1, ClaimedBy(d, c)).(intents := {Bind(9, "d")});
    assert t1.intents + {Bind(9, "d")} == {Bind(9, "d")};
    OnBindClaim(disc, t2, 9, "d");
    var t3 := PutClaim(t2, BoundTo(c, "d")).(intents := {});
    assert t2.intents - {Bind(9, "d")} == {};
    t := [t1, t2, t3];
  }

  lemma SerialStepIsAny(s: Cluster, t: Cluster)
    requires Step(Serial, s, t)
    ensures Step(Any, s, t)
  {
    hide Guard, Next;
    var a := TakenBy(Serial, s, t);
  }

  lemma SerialRunIsAny(run: seq<Cluster>)
    requires IsRun(Serial, run)
    ensures IsRun(Any, run)
  {
    hide Step;
    forall i | 0 <= i < |run| - 1 ensures Step(Any, run[i], run[i + 1]) {
      SerialStepIsAny(run[i], run[i + 1]);
    }
  }

  /**
    Without the Serial discipline cleanup can hit a device in use: a reconcile that
    still reads the released version starts a job although the device was cleaned,
    freed and bound to another claim in the meantime.
    */
  lemma StaleReadWipesDeviceInUse() returns (run: seq<Cluster>)
    ensures IsRun(Any, run) && |run| > 0
    ensures var s := run[|run| - 1];
      && JobFor(s, "d") && s.HasClaim("next") && Live(s.Claim("next"))
      && s.Claim("next").spec.blockDeviceName == "d" && HeldBy(s, "d", s.Claim("next").uid)
  {
    hide Step, IsRun, Freed, ReconcileDisabled;
    var d;
    run, d := CleanedAndFreed();
    var s := run[15];
    SerialRunIsAny(run);
    var next := NextClaim(Any, s);
    var again := FirstPass(Any, next[2], 6);
    run := Chain(Any, run, next + again);
    assert JobName("d") in again[2].jobs;
  }

  // --- A stale read of the job -----------------------------------------------------

  /** The device is used and released a second time, and the next cleanup has only started its job. */
  lemma SecondRelease() returns (run: seq<Cluster>)
    ensures IsRun(Serial, run) && |run| == 25 && !IsReleased(run[19], "d")
    ensures forall i :: 20 <= i < 25 ==> !Finished(run[i], "d")
    ensures var s := run[24];
      && Cleanable(s, 13) && s.devices == map["d" := 13] && EverSucceeded(s.jobLog, JobName("d"))
      && s.jobs == map[JobName("d") := Job(0)]
      && Freed(s.deviceLog[13]).name == "d" && Freed(s.deviceLog[13]).claimState == Unclaimed
  {
    hide Step, IsRun, NamedClaim, BoundTo, ClaimedBy, ReleasedFrom, Freed, ReconcileDisabled, JobName;
    hide ReadyToRelease, RequestedBy;
    var d;
    run, d := CleanedAndFreed();
    var s := run[15];
    BoundPair(s.deviceLog[8], "next", 9);
    var next := NextClaim(Serial, s);
    var goes := ClaimGoes(Serial, next[2], "next", 11, 10);
    var first := FirstPass(Serial, goes[2], 13);
    run := Chain(Serial, run, next + goes + first);
    assert run[19] == goes[0] && run[20] == goes[1] && run[21] == goes[2];
  }

  /**
    A fresh read of the device and one reconcile at a time are not enough: a single stale
    read of the job, which shows the success of an earlier release, frees a device for which
    no job has succeeded in this one.
    */
  lemma StaleJobReadFreesUncleaned() returns (run: seq<Cluster>)
    ensures |run| == 29 && IsRun(Any, run)
    ensures forall i :: 0 <= i < 28 && i != 25 ==> Step(Serial, run[i], run[i + 1])
    ensures IsReleased(run[27], "d") && !IsReleased(run[28], "d")
    ensures !exists r, w, k :: CleanedInThisRelease(run, "d", r, w, k, 27)
  {
    hide Step, IsReleased, Finished, PutDevice, Freed, JobName, EverSucceeded;
    var before := SecondRelease();
    var s := before[24];
    var t := SecondPass(Any, s, 13);
    FreedAtLast(s, t[2], t[3]);
    run := before + t;
    forall i | 0 <= i < 28 ensures Step(Any, run[i], run[i + 1]) && (i != 25 ==> Step(Serial, run[i], run[i + 1])) {
      if i < 24 {
        assert Step(Serial, before[i], before[i + 1]);
      }
      if i != 25 { SerialStepIsAny(run[i], run[i + 1]); }
    }
    forall i | 20 <= i < 28 ensures !Finished(run[i], "d") {
      if i >= 25 { NotFinished(run[i]); }
    }
    NotCleanedSince(run, "d", 19, 27);
  }

  /** Without a success since the device was last not released, this release was not cleaned. */
  lemma NotCleanedSince(run: seq<Cluster>, b: string, p: nat, i: nat)
    requires p < i < |run| && !IsReleased(run[p], b) && forall j :: p < j <= i ==> !Finished(run[j], b)
    ensures !exists r, w, k :: CleanedInThisRelease(run, b, r, w, k, i)
  {
    hide JobName, Collected;
  }

  lemma FreedAtLast(s: Cluster, t: Cluster, u: Cluster)
    requires s.devices == map["d" := 13] && 13 in s.deviceLog && s.deviceLog[13].claimState == Released
    requires t.devices == s.devices && t.deviceLog == s.deviceLog
    requires u == PutDevice(JobTaken(s), Freed(s.deviceLog[13]))
    requires Freed(s.deviceLog[13]).name == "d" && Freed(s.deviceLog[13]).claimState == Unclaimed
    ensures IsReleased(t, "d") && !IsReleased(u, "d")
  {
    hide Freed;
  }

  lemma NotFinished(s: Cluster)
    requires JobName("d") !in s.jobs || s.jobs[JobName("d")] == Job(0)
    ensures !Finished(s, "d")
  {}
}
