/**
  The BlockDevice reconciler with the cleaner and the job controller it drives.
  Every method keeps the server valid, so a reconcile interleaved with all other
  actors is part of a run of the protocol; on a quiet server its whole effect is
  stated outright.
  */
module DeviceController {
  import opened Objects
  import opened Protocol
  import opened Invariant
  import opened ClaimSafety
  import opened Conservation
  import opened Interference
  import opened ApiServer
  import opened Frames

  datatype CleanupState = JobUnknown | JobNotFound | JobRunning | JobSucceeded

  // --- What a reconcile does on a quiet server --------------------------------

  /** A job that exists has succeeded. */
  predicate NotRunning(jobs: map<string, Job>, j: string) {
    j in jobs ==> jobs[j].succeeded > 0
  }

  /** A job is needed for an active device of a known node. */
  predicate Starts(jobs: map<string, Job>, d: BlockDevice, nodes: set<string>) {
    JobName(d.name) !in jobs && d.state == Active && d.spec.nodeName in nodes
  }

  /** The jobs after a cleanup attempt; `nodes` are the known nodes. */
  function JobsCleaned(jobs: map<string, Job>, d: BlockDevice, nodes: set<string>): map<string, Job> {
    var j := JobName(d.name);
    if j in jobs then (if jobs[j].succeeded > 0 || d.state != Active then jobs - {j} else jobs)
    else if Starts(jobs, d, nodes) then jobs[j := Job(0)]
    else jobs
  }

  /** The cluster after a cleanup attempt. */
  function Cleaned(s: Cluster, d: BlockDevice, nodes: set<string>): Cluster {
    s.(jobs := JobsCleaned(s.jobs, d, nodes),
       jobLog := if Starts(s.jobs, d, nodes) then s.jobLog + {JobVersion(JobName(d.name), 0)} else s.jobLog)
  }

  /** A job is needed for an active device, but its node is not known. */
  predicate CannotStart(jobs: map<string, Job>, d: BlockDevice, nodes: set<string>) {
    JobName(d.name) !in jobs && d.state == Active && d.spec.nodeName !in nodes
  }

  predicate JobDone(jobs: map<string, Job>, d: BlockDevice) {
    JobName(d.name) in jobs && jobs[JobName(d.name)].succeeded > 0
  }

  ghost predicate Reconciled(s: Cluster, name: string, nodes: set<string>, t: Cluster) {
    if s.HasDevice(name) && s.Device(name).claimState == Released && !ReconcileDisabled(s.Device(name).annotations) then
      var d := s.Device(name);
      t == if JobDone(s.jobs, d) then StoreDevice(Cleaned(s, d, nodes), Freed(d)) else Cleaned(s, d, nodes)
    else t == s
  }

  // --- The reconciler ----------------------------------------------------------

  method Reconcile(api: Server, name: string, nodes: set<string>) returns (err: bool)
    requires api.Valid() && api.own == None && api.key == Some(name)
    requires api.disc == Serial ==> IdleDevice(api.View(), name)
    modifies api
    ensures api.Valid() && old(api.hist) <= api.hist && api.own == None
    ensures api.quiet ==> !err && Reconciled(old(api.View()), name, nodes, api.View())
  {
    hide Guard, Next, Respects, Inv, IsRun, IdleDevice, Freed, Cleaned, JobDone, StoreDevice;
    var got := api.GetDevice(name);
    if got.NotFound? {
      return false;
    }
    if got.Failed? {
      return true;
    }
    var v, instance := got.v, got.obj;
    if ReconcileDisabled(instance.annotations) {
      return false;
    }
    match instance.claimState {
      case Released =>
        ReleaseHandling(api, v, instance, nodes);
      case Claimed =>
        api.Invariant();
        StoredIsOk(api.View(), v);
        ClaimedIsProtected(instance);
        // The finalizer that the reconciler would add is already there.
        if DeviceProtection !in instance.finalizers {
          assert false;
        }
      case Unclaimed =>
    }
    err := false;
  }

  lemma StoredIsOk(s: Cluster, v: nat)
    requires Inv(s) && v in s.deviceLog
    ensures DeviceOk(s.deviceLog[v])
  {}

  /** Clean a released device and free it once its cleanup has succeeded. */
  method ReleaseHandling(api: Server, v: nat, instance: BlockDevice, nodes: set<string>)
    requires api.Valid() && api.own == None
    requires v in api.deviceLog && api.deviceLog[v] == instance && instance.claimState == Released
    requires !ReconcileDisabled(instance.annotations)
    requires api.disc == Serial ==> CurrentDevice(api.View(), instance.name, v) && IdleDevice(api.View(), instance.name)
    modifies api
    ensures api.Valid() && old(api.hist) <= api.hist && api.own == None
    ensures api.quiet && CurrentDevice(old(api.View()), instance.name, v) ==>
      var cleaned := Cleaned(old(api.View()), instance, nodes);
      api.View() == if JobDone(old(api.jobs), instance) then StoreDevice(cleaned, Freed(instance)) else cleaned
  {
    hide Guard, Next, Respects, Inv, IsRun, IdleDevice, Freed, JobDone, StoreDevice, UpdatesDevice, JobsCleaned, Starts;
    ghost var s := api.View();
    api.BeginSession(v);
    ghost var id := api.own.value;
    var ok, _ := Clean(api, v, instance, nodes);
    ghost var m := api.View();
    if ok {
      FreeGuard(api.disc, m, id);
      var _ := api.UpdateDevice(Freed(instance), v, FreeDevice(id));
      if api.quiet && CurrentDevice(s, instance.name, v) { FreeIsNext(m, id); }
    } else {
      api.EndSession();
    }
    if api.quiet { assert m.sessions - {id} == s.sessions; }
  }

  lemma FreeGuard(disc: Discipline, s: Cluster, id: nat)
    requires id in s.sessions && s.sessions[id].vb in s.deviceLog && s.sessions[id].cleaned
    ensures Guard(disc, s, FreeDevice(id)) && Guard(Any, s, FreeDevice(id))
    ensures UpdatesDevice(s, FreeDevice(id), s.sessions[id].vb, Freed(s.deviceLog[s.sessions[id].vb]))
  {}

  lemma FreeIsNext(s: Cluster, id: nat)
    requires id in s.sessions && s.sessions[id].vb in s.deviceLog && s.sessions[id].cleaned
    requires Guard(Any, s, FreeDevice(id))
    requires CurrentDevice(s, s.deviceLog[s.sessions[id].vb].name, s.sessions[id].vb)
    ensures Next(s, FreeDevice(id)) ==
      StoreDevice(s.(sessions := s.sessions - {id}), Freed(s.deviceLog[s.sessions[id].vb]))
  {}

  // --- The cleaner ---------------------------------------------------------------

  /** The caller's cleanup session works with version v of the device, which is d. */
  ghost predicate Works(s: Cluster, own: Option<nat>, v: nat, d: BlockDevice) {
    && own.Some? && own.value in s.sessions && s.sessions[own.value].vb == v
    && v in s.deviceLog && s.deviceLog[v] == d
  }

  /** And it has not yet seen or taken a result. */
  ghost predicate JustBegun(s: Cluster, own: Option<nat>, v: nat, d: BlockDevice) {
    Works(s, own, v, d) && s.sessions[own.value] == Session(v, false, false)
  }

  lemma StillWorks(s: Cluster, t: Cluster, mine: set<Intent>, own: Option<nat>, v: nat, d: BlockDevice)
    requires Works(s, own, v, d) && Respects(s, t, mine, own)
    ensures Works(t, own, v, d) && t.sessions[own.value] == s.sessions[own.value]
  {}

  method Clean(api: Server, v: nat, device: BlockDevice, nodes: set<string>) returns (ok: bool, err: bool)
    requires api.Valid() && JustBegun(api.View(), api.own, v, device)
    modifies api
    ensures api.Valid() && old(api.hist) <= api.hist && api.own == old(api.own) && api.key == old(api.key)
    ensures Works(api.View(), api.own, v, device) && (ok ==> api.sessions[api.own.value].cleaned)
    ensures api.quiet ==> (
      && ok == JobDone(old(api.jobs), device) && err == CannotStart(old(api.jobs), device, nodes)
      && api.View() == Cleaned(old(api.View()), device, nodes).(sessions := api.sessions)
      && api.sessions - {api.own.value} == old(api.sessions) - {api.own.value})
  {
    hide Guard, Next, Respects, Inv, IsRun, JobName;
    ghost var s := api.View();
    var running := IsCleaningJobRunning(api, v, device);
    if running {
      if device.state != Active {
        CancelGuard(api.View(), api.own.value);
        err := CancelJob(api, v, device, Action.CancelJob(api.own.value));
        return false, err;
      }
      return false, false;
    }
    var state;
    state, err := RemoveJob(api, v, device);
    if err {
      return false, false;
    }
    match state {
      case JobSucceeded =>
        return true, false;
      case JobNotFound =>
        if device.state != Active {
          return false, false;
        }
      case _ =>
    }
    ok := false;
    err := RunJob(api, v, device, nodes);
  }

  lemma CancelGuard(s: Cluster, id: nat)
    requires id in s.sessions && s.sessions[id].vb in s.deviceLog && !s.sessions[id].cleaned
    requires s.deviceLog[s.sessions[id].vb].state != Active
    ensures Guard(Any, s, Action.CancelJob(id))
  {}

  /** Start the cleanup job.  The node of the device must be known; the job must not exist. */
  method RunJob(api: Server, v: nat, device: BlockDevice, nodes: set<string>) returns (err: bool)
    requires api.Valid() && JustBegun(api.View(), api.own, v, device) && (api.disc == Serial ==> device.state == Active)
    modifies api
    ensures api.Valid() && old(api.hist) <= api.hist && api.own == old(api.own) && api.key == old(api.key)
    ensures Works(api.View(), api.own, v, device)
    ensures api.quiet ==> (err <==> device.spec.nodeName !in nodes || JobName(device.name) in old(api.jobs))
    ensures api.quiet ==>
      api.View() == if err then old(api.View()) else WithJob(old(api.View()), JobName(device.name), 0)
  {
    hide Next, Respects, Inv, IsRun, JobName;
    ghost var s := api.View();
    var lost: bool := *;
    if device.spec.nodeName !in nodes || (!api.quiet && lost) {
      return true;
    }
    var w := api.CreateJob(JobName(device.name));
    StillWorks(s, api.View(), api.mine, api.own, v, device);
    err := !w.Done?;
  }

  // --- The job controller ---------------------------------------------------------

  /** A job counts as running until it has succeeded, and also when it cannot be read. */
  method IsCleaningJobRunning(api: Server, v: nat, device: BlockDevice) returns (running: bool)
    requires api.Valid() && JustBegun(api.View(), api.own, v, device)
    modifies api
    ensures api.Valid() && old(api.hist) <= api.hist && api.own == old(api.own) && api.key == old(api.key)
    ensures JustBegun(api.View(), api.own, v, device)
    ensures api.disc == Serial && !running ==> NotRunning(api.jobs, JobName(device.name))
    ensures api.quiet ==> api.View() == old(api.View()) && running == !NotRunning(api.jobs, JobName(device.name))
  {
    hide Next, Respects, Inv, IsRun, JobName;
    ghost var s := api.View();
    var job := api.GetJob(JobName(device.name));
    StillWorks(s, api.View(), api.mine, api.own, v, device);
    if job.NotFound? {
      return false;
    }
    if job.Failed? {
      return true;
    }
    running := job.obj.succeeded <= 0;
  }

  /** Delete the job, if it has succeeded, and say in which state it was found. */
  method RemoveJob(api: Server, v: nat, device: BlockDevice) returns (state: CleanupState, err: bool)
    requires api.Valid() && JustBegun(api.View(), api.own, v, device)
    modifies api
    ensures api.Valid() && old(api.hist) <= api.hist && api.own == old(api.own) && api.key == old(api.key)
    ensures Works(api.View(), api.own, v, device) && (err <==> state == JobUnknown)
    ensures state == JobSucceeded ==> api.sessions[api.own.value].cleaned
    ensures state == JobNotFound || state == JobRunning ==> JustBegun(api.View(), api.own, v, device)
    ensures api.disc == Serial && NotRunning(old(api.jobs), JobName(device.name)) ==> state != JobRunning
    ensures api.quiet ==> (
      var name, jobs := JobName(device.name), old(api.jobs);
      && state == (if name !in jobs then JobNotFound else if JobDone(jobs, device) then JobSucceeded else JobRunning)
      && api.View() == old(api.View()).(jobs := if JobDone(jobs, device) then jobs - {name}
        else jobs, sessions := api.sessions)
      && api.sessions - {api.own.value} == old(api.sessions) - {api.own.value})
  {
    hide Next, Respects, Inv, IsRun, JobName;
    ghost var s := api.View();
    var job := api.GetJob(JobName(device.name));
    StillWorks(s, api.View(), api.mine, api.own, v, device);
    if job.NotFound? {
      return JobNotFound, false;
    }
    if job.Failed? {
      return JobUnknown, true;
    }
    if job.obj.succeeded == 0 {
      return JobRunning, false;
    }
    api.SeeSuccess();
    err := CancelJob(api, v, device, TakeResult(api.own.value));
    if err {
      return JobUnknown, true;
    }
    state := JobSucceeded;
  }

  /** Read the job and delete it.  A job that cannot be read cannot be deleted. */
  method CancelJob(api: Server, v: nat, device: BlockDevice, ghost a: Action) returns (err: bool)
    requires api.Valid() && Works(api.View(), api.own, v, device)
    requires (a == Action.CancelJob(api.own.value) || a == TakeResult(api.own.value))
    requires if a.CancelJob? then Guard(Any, api.View(), a) else Collectable(api.View(), api.own.value)
    modifies api
    ensures api.Valid() && old(api.hist) <= api.hist && api.own == old(api.own) && api.key == old(api.key)
    ensures Works(api.View(), api.own, v, device)
    ensures !err && a.TakeResult? ==> api.sessions[api.own.value].cleaned
    ensures api.quiet ==> (
      && err == (JobName(device.name) !in old(api.jobs))
      && api.View() == old(api.View()).(jobs := old(api.jobs) - {JobName(device.name)}, sessions := api.sessions)
      && api.sessions - {api.own.value} == old(api.sessions) - {api.own.value})
  {
    hide Next, Inv, IsRun, JobName;
    ghost var s := api.View();
    var job := api.GetJob(JobName(device.name));
    StillWorks(s, api.View(), api.mine, api.own, v, device);
    if !job.Found? {
      if api.quiet { assert api.jobs - {JobName(device.name)} == api.jobs; }
      return true;
    }
    var w := api.DeleteJob(JobName(device.name), a);
    err := !w.Done?;
  }

  // --- What a quiet reconcile means ------------------------------------------------

  /** A released device that reconciles look after. */
  ghost predicate Awaits(s: Cluster, name: string) {
    s.HasDevice(name) && s.Device(name).claimState == Released && !ReconcileDisabled(s.Device(name).annotations)
  }

  /** A reconcile frees a released device exactly if its job has succeeded; nothing else changes its claim state. */
  lemma FreedOnlyAfterJob(s: Cluster, name: string, nodes: set<string>, t: Cluster)
    requires Inv(s) && Reconciled(s, name, nodes, t) && Awaits(s, name)
    ensures if JobDone(s.jobs, s.Device(name))
      then DeviceAt(t, name) == AfterWrite(Freed(s.Device(name))) && JobName(name) !in t.jobs
            else DeviceAt(t, name) == DeviceAt(s, name)
    ensures JobName(name) in s.jobs && s.jobs[JobName(name)].succeeded > 0 ==> IsFree(s.Device(name), DeviceAt(t, name))
    ensures !(JobName(name) in s.jobs && s.jobs[JobName(name)].succeeded > 0) ==> DeviceAt(t, name) == DeviceAt(s, name)
    ensures forall other :: other != name ==> DeviceAt(t, other) == DeviceAt(s, other)
  {
    hide Freed, JobName, AfterWrite, StoreDevice, IsFree;
    FreedIsFree(s.Device(name));
    InvParts(s);
    assert s.Device(name).name == name;
    hide Inv, DevicesStored, ClaimsStored, SessionsOk;
    var cleaned := Cleaned(s, s.Device(name), nodes);
    StoredJobs(cleaned, Freed(s.Device(name)));
    forall b { StoreDeviceAt(cleaned, Freed(s.Device(name)), b); }
    FreedSameName(s.Device(name));
  }

  lemma FreedSameName(d: BlockDevice)
    ensures Freed(d).name == d.name && Freed(d).claimState == Unclaimed
  {}

  /** The device after cleanup: gone if it was only waiting for that, else unclaimed and otherwise as it was. */
  ghost predicate IsFree(before: BlockDevice, after: Option<BlockDevice>) {
    if before.deleting && (forall f :: f != DeviceProtection ==> Count(before.finalizers, f) == 0) then after == None
    else
      && after.Some? && OnlyClaimDataDiffers(before, after.value)
      && after.value.claimState == Unclaimed && after.value.spec.claimRef == before.spec.claimRef
      && DeviceProtection !in after.value.finalizers
  }

  lemma FreedIsFree(d: BlockDevice)
    ensures IsFree(d, AfterWrite(Freed(d)))
  {
    var e := Freed(d);
    FreedFrame(d);
    hide Freed;
    assert e.finalizers != [] ==> Count(e.finalizers, e.finalizers[0]) > 0;
    forall f | Count(d.finalizers, f) != 0 && f != DeviceProtection ensures e.finalizers != [] {
      assert f in e.finalizers;
    }
  }

  /**
    After a reconcile a released device has a job exactly if it is active and its job has yet
    to succeed, or it had none and its node is known; all other jobs are as they were.
    */
  lemma JobAfterReconcile(s: Cluster, name: string, nodes: set<string>, t: Cluster)
    requires Inv(s) && Reconciled(s, name, nodes, t) && Awaits(s, name)
    ensures var j, d := JobName(name), s.Device(name);
            && (j in t.jobs <==>
                  d.state == Active && if j in s.jobs then s.jobs[j].succeeded == 0 else d.spec.nodeName in nodes)
            && (j in t.jobs ==> t.jobs[j] == Job(0))
            && forall other :: other != j ==>
                 (other in t.jobs <==> other in s.jobs) && (other in s.jobs ==> t.jobs[other] == s.jobs[other])
  {
    hide Freed, JobName, StoreDevice;
    assert s.Device(name).name == name;
    hide Inv;
    StoredJobs(Cleaned(s, s.Device(name), nodes), Freed(s.Device(name)));
  }

  /** A device that is not stored, not released or switched off is left alone. */
  lemma LeftAlone(s: Cluster, name: string, nodes: set<string>, t: Cluster)
    requires Reconciled(s, name, nodes, t)
    requires s.HasDevice(name) ==> (
      var d := s.Device(name);
      || d.claimState != Released
      || (Annotation.Reconcile in d.annotations && d.annotations[Annotation.Reconcile] == "false"))
    ensures t == s
  {}

  /** Whatever job there was, after a reconcile of an inactive device there is none. */
  lemma InactiveDeviceIsNotCleaned(s: Cluster, name: string, nodes: set<string>, t: Cluster)
    requires Inv(s) && Reconciled(s, name, nodes, t) && Awaits(s, name) && s.Device(name).state != Active
    ensures JobName(name) !in t.jobs
  {
    hide Freed, JobName, StoreDevice;
    assert s.Device(name).name == name;
    hide Inv;
    StoredJobs(Cleaned(s, s.Device(name), nodes), Freed(s.Device(name)));
  }

  /** A reconcile starts at most one job: repeating it before the job succeeds changes nothing. */
  lemma RepeatChangesNothing(s: Cluster, name: string, nodes: set<string>, t: Cluster, u: Cluster)
    requires Inv(s) && Reconciled(s, name, nodes, t) && Reconciled(t, name, nodes, u)
    requires Awaits(s, name) && !JobDone(s.jobs, s.Device(name)) && s.Device(name).state == Active
    ensures u == t && (s.Device(name).spec.nodeName in nodes ==> JobName(name) in t.jobs)
  {
    hide Freed, JobName;
    assert s.Device(name).name == name;
  }

  /** Reconcile, job success, reconcile: an active released device on a known node becomes free. */
  lemma CleanupCompletes(s: Cluster, name: string, nodes: set<string>, t: Cluster, done: Cluster, u: Cluster)
    requires Inv(s) && Awaits(s, name) && s.Device(name).state == Active && s.Device(name).spec.nodeName in nodes
    requires JobName(name) !in s.jobs && Reconciled(s, name, nodes, t)
    requires JobName(name) in t.jobs ==>
      done == t.(jobs := t.jobs[JobName(name) := Job(1)], jobLog := t.jobLog + {JobVersion(JobName(name), 1)})
    requires Reconciled(done, name, nodes, u)
    ensures JobName(name) in t.jobs && u.jobs == s.jobs
    ensures DeviceAt(u, name) == AfterWrite(Freed(s.Device(name))) && IsFree(s.Device(name), DeviceAt(u, name))
  {
    hide JobName, Freed, StoreDevice, AfterWrite, IsFree;
    FreedIsFree(s.Device(name));
    assert s.Device(name).name == name;
    var m := Cleaned(done, s.Device(name), nodes);
    assert m.jobs == s.jobs;
    FreedSameName(s.Device(name));
    StoreDeviceAt(m, Freed(s.Device(name)), name);
    StoredJobs(m, Freed(s.Device(name)));
  }

  lemma StoredJobs(s: Cluster, d: BlockDevice)
    ensures StoreDevice(s, d).jobs == s.jobs
  {}
}
