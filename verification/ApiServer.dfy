/**
  The API server as the controllers see it.  Reads may be stale and any call may
  fail; between two calls every other actor of the protocol may act.  The ghost
  history records all of it, and Valid says that the history is a run of the
  protocol, so whatever a controller does through this class is a sequence of
  protocol actions interleaved with those of the others.
  */
module ApiServer {
  import opened Objects
  import opened Protocol
  import opened Invariant
  import opened Interference

  datatype Fetched<T> = NotFound | Failed | Found(v: nat, obj: T)

  /** An update is rejected if its version is not current, and finds nothing if the object is gone. */
  datatype WriteResult = Done | Rejected | Gone | Error

  // --- Label selectors -------------------------------------------------------

  predicate ValidRequirement(r: Requirement) {
    if r.op == In || r.op == NotIn then r.values != [] else r.values == []
  }

  predicate ValidSelector(s: Selector) {
    forall i :: 0 <= i < |s.matchExpressions| ==> ValidRequirement(s.matchExpressions[i])
  }

  predicate Satisfies(labels: map<string, string>, r: Requirement) {
    match r.op
    case In => r.key in labels && labels[r.key] in r.values
    case NotIn => !(r.key in labels && labels[r.key] in r.values)
    case Exists => r.key in labels
    case DoesNotExist => r.key !in labels
  }

  predicate Matches(s: Selector, labels: map<string, string>) {
    && (forall k :: k in s.matchLabels ==> k in labels && labels[k] == s.matchLabels[k])
    && (forall i :: 0 <= i < |s.matchExpressions| ==> Satisfies(labels, s.matchExpressions[i]))
  }

  // --- Writes as actions -----------------------------------------------------

  /** Action a writes device d on top of version v. */
  predicate UpdatesDevice(s: Cluster, a: Action, v: nat, d: BlockDevice)
    requires Guard(Any, s, a)
  {
    match a
    case ClaimDevice(vc, vb) => v == vb && d == ClaimedBy(s.deviceLog[vb], s.claimLog[vc])
    case ReleaseDevice(vc, vb) => v == vb && d == ReleasedFrom(s.deviceLog[vb])
    case DaemonMerge(p, vb) => v == vb && d == Merge(p, s.deviceLog[vb])
    case DaemonSetState(vb, st) => v == vb && d == s.deviceLog[vb].(state := st)
    case FreeDevice(id) => v == s.sessions[id].vb && d == Freed(s.deviceLog[v])
    case _ => false
  }

  /** Action a writes claim c on top of version v. */
  predicate UpdatesClaim(s: Cluster, a: Action, v: nat, c: BlockDeviceClaim)
    requires Guard(Any, s, a)
  {
    match a
    case BindClaim(vc, b) => v == vc && c == BoundTo(s.claimLog[vc], b)
    case SetPending(vc) => v == vc && c == s.claimLog[vc].(phase := Pending)
    case UnbindClaim(vc) => v == vc && c == Unprotected(s.claimLog[vc])
    case _ => false
  }

  lemma DeviceUpdateIsNext(s: Cluster, a: Action, v: nat, d: BlockDevice)
    requires Guard(Any, s, a) && UpdatesDevice(s, a, v, d)
    ensures DeviceWrite(s, a) == IfCurrentDevice(s, v, d)
    ensures Next(s, a) == (if CurrentDevice(s, d.name, v) then StoreDevice(s, d) else s).(
                            intents := IntentsAfter(s, a), sessions := SessionsAfter(s, a))
  {
    hide Freed, Merge, ReadyToRelease, SearchesDevice;
  }

  lemma ClaimUpdateIsNext(s: Cluster, a: Action, v: nat, c: BlockDeviceClaim)
    requires Guard(Any, s, a) && UpdatesClaim(s, a, v, c)
    ensures ClaimWrite(s, a) == IfCurrentClaim(s, v, c)
    ensures Next(s, a) == (if CurrentClaim(s, c.name, v) then StoreClaim(s, c) else s).(intents := IntentsAfter(s, a))
  {
    hide ReadyToRelease, SearchesDevice;
  }

  /** An update that was possible stays possible whatever the others do. */
  lemma DeviceUpdateStays(disc: Discipline, s: Cluster, t: Cluster, a: Action, v: nat, d: BlockDevice,
                          mine: set<Intent>, own: Option<nat>)
    requires Guard(disc, s, a) && Guard(Any, s, a) && UpdatesDevice(s, a, v, d) && Respects(s, t, mine, own)
    requires a.FreeDevice? ==> own == Some(a.id)
    ensures Guard(disc, t, a) && Guard(Any, t, a) && UpdatesDevice(t, a, v, d)
  {
    hide Freed, Merge, ReadyToRelease, SearchesDevice, RequestedBy;
  }

  lemma ClaimUpdateStays(disc: Discipline, s: Cluster, t: Cluster, a: Action, v: nat, c: BlockDeviceClaim,
                         mine: set<Intent>, own: Option<nat>)
    requires Guard(disc, s, a) && Guard(Any, s, a) && UpdatesClaim(s, a, v, c) && Respects(s, t, mine, own)
    requires a.BindClaim? ==> Bind(a.vc, a.deviceName) in mine
    requires a.UnbindClaim? ==> Unbind(a.vc) in mine
    ensures Guard(disc, t, a) && Guard(Any, t, a) && UpdatesClaim(t, a, v, c)
  {
    hide ReadyToRelease, SearchesDevice;
  }

  /** The history went on, and its last step was action a. */
  ghost predicate LastStep(disc: Discipline, before: seq<Cluster>, hist: seq<Cluster>, a: Action) {
    && |before| < |hist| && before <= hist[..|hist| - 1] && |hist| >= 2
    && Guard(disc, hist[|hist| - 2], a) && Takes(hist[|hist| - 2], a, hist[|hist| - 1])
  }

  lemma StepAppended(disc: Discipline, before: seq<Cluster>, hist: seq<Cluster>, a: Action)
    requires |hist| > 0 && before <= hist && Guard(disc, hist[|hist| - 1], a) && Guard(Any, hist[|hist| - 1], a)
    ensures LastStep(disc, before, hist + [Next(hist[|hist| - 1], a)], a)
  {
    hide Guard, Next;
    var longer := hist + [Next(hist[|hist| - 1], a)];
    assert longer[..|longer| - 1] == hist;
  }

  ghost function FreshId(ids: set<nat>): (r: nat)
    ensures forall i :: i in ids ==> i < r
  {
    if ids == {} then 0
    else
      var i :| i in ids;
      var rest := FreshId(ids - {i});
      assert ids == (ids - {i}) + {i};
      if i < rest then rest else i + 1
  }

  // --- The server ------------------------------------------------------------

  class Server {
    /** Whether device reads are current and cleanup reconciles of one device exclude each other. */
    const disc: Discipline
    /** Nobody else is active and no call fails. */
    const quiet: bool

    var rev: nat
    var devices: map<string, nat>
    var claims: map<string, nat>
    var deviceLog: map<nat, BlockDevice>
    var claimLog: map<nat, BlockDeviceClaim>
    var jobs: map<string, Job>
    var jobLog: set<JobVersion>
    ghost var intents: set<Intent>
    ghost var sessions: map<nat, Session>
    ghost var hist: seq<Cluster>
    ghost var mine: set<Intent>        // intents of the caller
    ghost var own: Option<nat>         // cleanup session of the caller
    ghost var key: Option<string>      // device name the work queue handed to the caller

    ghost function View(): Cluster
      reads this
    {
      Cluster(rev, devices, claims, deviceLog, claimLog, jobs, jobLog, intents, sessions)
    }

    ghost predicate Valid()
      reads this
    {
      && IsRun(disc, hist) && hist[|hist| - 1] == View()
      && mine <= intents && (own.Some? ==> own.value in sessions)
    }

    constructor (disc: Discipline, quiet: bool)
      ensures Valid() && hist == [EMPTY] && this.disc == disc && this.quiet == quiet
      ensures mine == {} && own == None && key == None
    {
      this.disc, this.quiet := disc, quiet;
      rev, devices, claims, deviceLog, claimLog, jobs, jobLog := 0, map[], map[], map[], map[], map[], {};
      intents, sessions, hist, mine, own, key := {}, map[], [EMPTY], {}, None, None;
    }

    /** The run so far keeps the invariant. */
    lemma Invariant()
      requires Valid()
      ensures Inv(View()) && |hist| > 0
    {
      RunKeepsInv(disc, hist, |hist| - 1);
    }

    /**
      Any number of actions of other actors.  The contract is all a caller may
      assume, and Interference.OthersInterfere shows that all actions of others meet
      it; the body is the schedule in which nothing happens.
      */
    method Others()
      requires Valid()
      modifies this
      ensures Valid() && old(hist) <= hist && mine == old(mine) && own == old(own) && key == old(key)
      ensures Interferes(disc, old(View()), View(), mine, own, key)
      ensures quiet ==> View() == old(View())
    {
    }

    /** Record an action of the caller. */
    ghost method Record(before: Cluster, a: Action)
      requires IsRun(disc, hist) && hist[|hist| - 1] == before && Guard(disc, before, a) && Guard(Any, before, a)
      requires View() == Next(before, a)
      modifies this`hist
      ensures IsRun(disc, hist) && hist == old(hist) + [View()]
    {
      ExtendRun(disc, hist, a);
      hist := hist + [View()];
    }

    method GetClaim(name: string) returns (r: Fetched<BlockDeviceClaim>)
      requires Valid()
      modifies this
      ensures Valid() && old(hist) <= hist && mine == old(mine) && own == old(own) && key == old(key)
      ensures Respects(old(View()), View(), mine, own)
      ensures r.Found? ==> r.v in claimLog && claimLog[r.v] == r.obj && r.obj.name == name
      ensures quiet ==> View() == old(View())
      ensures quiet ==> r == if name in claims && claims[name] in claimLog
        then Found(claims[name], claimLog[claims[name]]) else NotFound
    {
      Others();
      Invariant();
      var choice: nat := *;
      if !quiet && choice == 0 {
        return Failed;
      }
      if !quiet && choice in claimLog && claimLog[choice].name == name {
        return Found(choice, claimLog[choice]);
      }
      r := if name in claims then Found(claims[name], claimLog[claims[name]]) else NotFound;
    }

    method GetDevice(name: string) returns (r: Fetched<BlockDevice>)
      requires Valid()
      modifies this
      ensures Valid() && old(hist) <= hist && mine == old(mine) && own == old(own) && key == old(key)
      ensures Respects(old(View()), View(), mine, own)
      ensures disc == Serial && key.Some? && IdleDevice(old(View()), key.value) ==> IdleDevice(View(), key.value)
      ensures r.Found? ==> r.v in deviceLog && deviceLog[r.v] == r.obj && r.obj.name == name
      ensures disc == Serial && r.Found? ==> CurrentDevice(View(), name, r.v)
      ensures quiet ==> View() == old(View())
      ensures quiet ==> r == if name in devices && devices[name] in deviceLog
        then Found(devices[name], deviceLog[devices[name]]) else NotFound
    {
      Others();
      Invariant();
      var choice: nat := *;
      if !quiet && choice == 0 {
        return Failed;
      }
      if !quiet && disc != Serial && choice in deviceLog && deviceLog[choice].name == name {
        return Found(choice, deviceLog[choice]);
      }
      r := if name in devices then Found(devices[name], deviceLog[devices[name]]) else NotFound;
    }

    /** The devices whose labels match; stale versions unless the server is quiet. */
    method ListDevices(selector: Selector) returns (r: Option<seq<Versioned>>)
      requires Valid()
      modifies this
      ensures Valid() && old(hist) <= hist && mine == old(mine) && own == old(own) && key == old(key)
      ensures Respects(old(View()), View(), mine, own)
      ensures r.Some? ==> ListedFrom(View(), selector, r.value)
      ensures quiet ==> View() == old(View()) && (r.Some? <==> ValidSelector(selector))
      ensures quiet && r.Some? ==> AllListed(View(), selector, r.value)
    {
      if !ValidSelector(selector) {
        return None;
      }
      Others();
      Invariant();
      var fail := *;
      if !quiet && fail {
        return None;
      }
      var left, list := devices.Keys, [];
      while left != {}
        invariant left <= devices.Keys
        invariant ListedFrom(View(), selector, list)
        invariant forall i :: 0 <= i < |list| ==> CurrentDevice(View(), list[i].d.name, list[i].v)
        invariant forall b :: b in devices && b !in left && Matches(selector, deviceLog[devices[b]].labels) ==>
          Versioned(devices[b], deviceLog[devices[b]]) in list
      {
        var b :| b in left;
        left := left - {b};
        if Matches(selector, deviceLog[devices[b]].labels) {
          list := list + [Versioned(devices[b], deviceLog[devices[b]])];
        }
      }
      r := Some(list);
    }

    /** Store a device; it disappears if it is marked for deletion and has no finalizer. */
    method Put(d: BlockDevice)
      modifies `rev, `devices, `deviceLog
      ensures View() == StoreDevice(old(View()), d)
    {
      rev := rev + 1;
      if d.deleting && d.finalizers == [] {
        devices := devices - {d.name};
      } else {
        devices := devices[d.name := rev];
        deviceLog := deviceLog[rev := d];
      }
    }

    /** One version-checked write of a device, as action a. */
    method WriteDevice(d: BlockDevice, v: nat, ghost a: Action) returns (current: bool)
      requires Valid() && Guard(disc, View(), a) && Guard(Any, View(), a) && UpdatesDevice(View(), a, v, d)
      requires a.FreeDevice? ==> own == Some(a.id)
      modifies this
      ensures Valid() && hist == old(hist) + [View()] && key == old(key)
      ensures current == CurrentDevice(old(View()), d.name, v) && View() == Next(old(View()), a)
      ensures own == (if a.FreeDevice? then None else old(own)) && mine == old(mine) + LeftToDo(old(View()), a, v, d)
      ensures Respects(old(View()), View(), mine, own)
    {
      hide Guard, Next, UpdatesDevice, IntentsAfter, SessionsAfter, Respects, Inv, IsRun, StoreDevice, LeftToDo;
      hide DeviceWrite, IfCurrentDevice;
      Invariant();
      ghost var s := View();
      DeviceUpdateIsNext(s, a, v, d);
      DeviceUpdateRespects(s, a, v, d, mine, own);
      current := d.name in devices && devices[d.name] == v;
      if current {
        Put(d);
      }
      intents, sessions := IntentsAfter(s, a), SessionsAfter(s, a);
      Record(s, a);
      mine := mine + LeftToDo(s, a, v, d);
      own := if a.FreeDevice? then None else own;
    }

    /**
      Version-checked update of a device, as action a.  An error may hide a write
      that was carried out.
      */
    method UpdateDevice(d: BlockDevice, v: nat, ghost a: Action) returns (r: WriteResult)
      requires Valid() && Guard(disc, View(), a) && Guard(Any, View(), a) && UpdatesDevice(View(), a, v, d)
      requires a.FreeDevice? ==> own == Some(a.id)
      modifies this
      ensures Valid() && old(hist) <= hist && key == old(key)
      ensures own == if a.FreeDevice? then None else old(own)
      ensures LastStep(disc, old(hist), hist, a) && mine == old(mine) + LeftToDo(hist[|hist| - 2], a, v, d)
      ensures r.Done? ==> CurrentDevice(hist[|hist| - 2], d.name, v)
      ensures r.Rejected? || r.Gone? ==>
        !CurrentDevice(hist[|hist| - 2], d.name, v) && (r.Gone? <==> d.name !in hist[|hist| - 2].devices)
      ensures Respects(old(View()), View(), mine, own)
      ensures r.Done? && a.ClaimDevice? ==> Bind(a.vc, d.name) in mine
      ensures r.Done? && a.ReleaseDevice? ==> Unbind(a.vc) in mine
      ensures quiet ==> View() == Next(old(View()), a)
      ensures quiet ==>
        r == if CurrentDevice(old(View()), d.name, v) then Done else if d.name in old(devices) then Rejected else Gone
    {
      hide Guard, Next, UpdatesDevice, Respects, Inv, IsRun;
      Others();
      DeviceUpdateStays(disc, old(View()), View(), a, v, d, mine, own);
      ghost var s, h := View(), hist;
      Invariant();
      var stored := d.name in devices;
      var current := WriteDevice(d, v, a);
      StepAppended(disc, old(hist), h, a);
      RespectsTogether(old(View()), s, View(), old(mine), mine, old(own), own);
      var fail := *;
      r := if !quiet && fail then Error else if current then Done else if stored then Rejected else Gone;
    }

    /** Store a claim; it disappears if it is marked for deletion and has no finalizer. */
    method PutClaim(c: BlockDeviceClaim)
      modifies `rev, `claims, `claimLog
      ensures View() == StoreClaim(old(View()), c)
    {
      rev := rev + 1;
      if c.deleting && c.finalizers == [] {
        claims := claims - {c.name};
      } else {
        claims := claims[c.name := rev];
        claimLog := claimLog[rev := c];
      }
    }

    /** One version-checked write of a claim, as action a. */
    method WriteClaim(c: BlockDeviceClaim, v: nat, ghost a: Action) returns (current: bool)
      requires Valid() && Guard(disc, View(), a) && Guard(Any, View(), a) && UpdatesClaim(View(), a, v, c)
      modifies this
      ensures Valid() && hist == old(hist) + [View()] && key == old(key) && own == old(own)
      ensures current == CurrentClaim(old(View()), c.name, v) && View() == Next(old(View()), a)
      ensures mine == old(mine) - UsedUp(a) && Respects(old(View()), View(), mine, own)
    {
      hide Guard, Next, UpdatesClaim, IntentsAfter, Respects, Inv, IsRun, StoreClaim, UsedUp;
      Invariant();
      ghost var s := View();
      ClaimUpdateIsNext(s, a, v, c);
      ClaimUpdateRespects(s, a, v, c, mine, own);
      current := c.name in claims && claims[c.name] == v;
      if current {
        PutClaim(c);
      }
      intents := IntentsAfter(s, a);
      Record(s, a);
      mine := mine - UsedUp(a);
    }

    /** Version-checked update of a claim, as action a. */
    method UpdateClaim(c: BlockDeviceClaim, v: nat, ghost a: Action) returns (r: WriteResult)
      requires Valid() && Guard(disc, View(), a) && Guard(Any, View(), a) && UpdatesClaim(View(), a, v, c)
      requires a.BindClaim? ==> Bind(a.vc, a.deviceName) in mine
      requires a.UnbindClaim? ==> Unbind(a.vc) in mine
      modifies this
      ensures Valid() && old(hist) <= hist && key == old(key) && own == old(own)
      ensures LastStep(disc, old(hist), hist, a)
      ensures r.Done? ==> CurrentClaim(hist[|hist| - 2], c.name, v)
      ensures r.Rejected? || r.Gone? ==>
        !CurrentClaim(hist[|hist| - 2], c.name, v) && (r.Gone? <==> c.name !in hist[|hist| - 2].claims)
      ensures mine == old(mine) - UsedUp(a) && Respects(old(View()), View(), mine, own)
      ensures quiet ==> View() == Next(old(View()), a)
      ensures quiet ==>
        r == if CurrentClaim(old(View()), c.name, v) then Done else if c.name in old(claims) then Rejected else Gone
    {
      hide Guard, Next, UpdatesClaim, Respects, Inv, IsRun, UsedUp;
      Others();
      ClaimUpdateStays(disc, old(View()), View(), a, v, c, mine, own);
      ghost var s, h := View(), hist;
      Invariant();
      var stored := c.name in claims;
      var current := WriteClaim(c, v, a);
      StepAppended(disc, old(hist), h, a);
      RespectsTogether(old(View()), s, View(), old(mine), mine, old(own), own);
      var fail := *;
      r := if !quiet && fail then Error else if current then Done else if stored then Rejected else Gone;
    }

    /** Create a device unless one of this name exists. */
    method CreateDevice(d: BlockDevice) returns (r: WriteResult)
      requires Valid() && NewDevice(d)
      modifies this
      ensures Valid() && old(hist) <= hist && key == old(key) && own == old(own) && mine == old(mine)
      ensures Respects(old(View()), View(), mine, own)
      ensures quiet ==>
        View() == Next(old(View()), DaemonCreate(d)) && r == if d.name in old(devices) then Rejected else Done
    {
      hide Next, Respects, Inv, IsRun, StoreDevice;
      Others();
      Invariant();
      ghost var s := View();
      CreateIsNext(s, d, mine, own);
      var absent := d.name !in devices;
      if absent {
        Put(d);
      }
      Record(s, DaemonCreate(d));
      RespectsTogether(old(View()), s, View(), mine, mine, own, own);
      var fail := *;
      r := if !quiet && fail then Error else if absent then Done else Rejected;
    }

    // --- Cleanup sessions and jobs --------------------------------------------

    /** The caller starts a cleanup with the device version it has just read. */
    ghost method BeginSession(vb: nat)
      requires Valid() && own == None && vb in deviceLog && deviceLog[vb].claimState == Released
      requires !ReconcileDisabled(deviceLog[vb].annotations)
      requires disc == Serial ==>
        CurrentDevice(View(), deviceLog[vb].name, vb) && IdleDevice(View(), deviceLog[vb].name)
      modifies `hist, `sessions, `own
      ensures Valid() && hist == old(hist) + [View()]
      ensures own.Some? && own.value !in old(sessions)
      ensures View() == old(View()).(sessions := old(sessions)[own.value := Session(vb, false, false)])
    {
      var id := FreshId(sessions.Keys);
      var s := View();
      assert Guard(disc, s, BeginClean(id, vb)) && Guard(Any, s, BeginClean(id, vb));
      sessions := sessions[id := Session(vb, false, false)];
      own := Some(id);
      Record(s, BeginClean(id, vb));
    }

    /** The caller's reconcile is over. */
    ghost method EndSession()
      requires Valid() && own.Some?
      modifies `hist, `sessions, `own
      ensures Valid() && hist == old(hist) + [View()] && own == None
      ensures View() == old(View()).(sessions := old(sessions) - {old(own).value})
    {
      var s, id := View(), own.value;
      assert Guard(disc, s, EndClean(id)) && Guard(Any, s, EndClean(id));
      sessions := sessions - {id};
      own := None;
      Record(s, EndClean(id));
    }

    /** The caller has just seen its job as succeeded. */
    ghost method SeeSuccess()
      requires Valid() && own.Some? && Guard(disc, View(), SeeResult(own.value))
      modifies `hist, `sessions
      ensures Valid() && hist == old(hist) + [View()]
      ensures View() == old(View()).(sessions := old(sessions)[own.value := old(sessions)[own.value].(seen := true)])
    {
      var s, id := View(), own.value;
      assert Guard(Any, s, SeeResult(id));
      sessions := sessions[id := sessions[id].(seen := true)];
      Record(s, SeeResult(id));
    }

    /** The job; outside the Serial discipline any state it once was in, or none, unless the server is quiet. */
    method GetJob(name: string) returns (r: Fetched<Job>)
      requires Valid()
      modifies this
      ensures Valid() && old(hist) <= hist && mine == old(mine) && own == old(own) && key == old(key)
      ensures Respects(old(View()), View(), mine, own)
      ensures disc == Serial && own.Some? && SessionsJob(old(View()), own.value, name) ==>
        JobAges(old(jobs), jobs, name)
      ensures r.Found? ==> JobVersion(name, r.obj.succeeded) in jobLog
      ensures disc == Serial && r.Found? ==> name in jobs && jobs[name] == r.obj
      ensures disc == Serial && r.NotFound? ==> name !in jobs
      ensures quiet ==> View() == old(View()) && r == if name in jobs then Found(0, jobs[name]) else NotFound
    {
      Others();
      Invariant();
      var choice: nat := *;
      var seen: nat := *;
      if !quiet && choice == 0 {
        return Failed;
      }
      if !quiet && disc != Serial && choice == 1 {
        return NotFound;
      }
      if !quiet && disc != Serial && JobVersion(name, seen) in jobLog {
        return Found(0, Job(seen));
      }
      r := if name in jobs then Found(0, jobs[name]) else NotFound;
    }

    /** Create the job of the caller's cleanup session unless it exists. */
    method CreateJob(name: string) returns (r: WriteResult)
      requires Valid() && own.Some? && Guard(disc, View(), StartJob(own.value)) && SessionsJob(View(), own.value, name)
      modifies this
      ensures Valid() && old(hist) <= hist && mine == old(mine) && own == old(own) && key == old(key)
      ensures Respects(old(View()), View(), mine, own)
      ensures quiet ==> r == if name in old(jobs) then Rejected else Done
      ensures quiet ==>
        View() == if name in old(jobs) then old(View()) else WithJob(old(View()), name, 0)
    {
      hide Respects, Inv, IsRun, JobName;
      Others();
      ghost var s, a := View(), StartJob(own.value);
      JobActionStays(disc, old(View()), s, a, mine, own);
      StartJobIsNext(s, own.value, mine);
      var absent := name !in jobs;
      if absent {
        jobs, jobLog := jobs[name := Job(0)], jobLog + {JobVersion(name, 0)};
      }
      Record(s, a);
      RespectsTogether(old(View()), s, View(), mine, mine, own, own);
      var fail := *;
      r := if !quiet && fail then Error else if absent then Done else Rejected;
    }

    /** Delete the job of the caller's cleanup session, as a cancellation or to collect its result. */
    method DeleteJob(name: string, ghost a: Action) returns (r: WriteResult)
      requires Valid() && own.Some? && (a == CancelJob(own.value) || a == TakeResult(own.value))
      requires if a.CancelJob? then Guard(Any, View(), a) else Collectable(View(), own.value)
      requires SessionsJob(View(), own.value, name)
      modifies this
      ensures Valid() && old(hist) <= hist && mine == old(mine) && own == old(own) && key == old(key)
      ensures Extends(old(deviceLog), deviceLog) && Extends(old(claimLog), claimLog) && mine <= intents
      ensures own.value in sessions && sessions[own.value].vb == old(sessions[own.value].vb)
      ensures r.Done? ==> LastStep(disc, old(hist), hist, a)
      ensures r.Rejected? ==> name !in jobs
      ensures LastStep(disc, old(hist), hist, a) || (name !in jobs && sessions[own.value] == old(sessions[own.value]))
      ensures a.TakeResult? && r.Done? ==> sessions[own.value].cleaned
      ensures a.TakeResult? && sessions[own.value].cleaned ==> LastStep(disc, old(hist), hist, a)
      ensures a.TakeResult? && !sessions[own.value].cleaned ==>
        name !in jobs && sessions[own.value] == old(sessions[own.value])
      ensures quiet ==> r == (if name in old(jobs) then Done else Rejected)
      ensures quiet ==> View() == old(View()).(jobs := old(jobs) - {name},
        sessions := if a.TakeResult? && name in old(jobs)
          then old(sessions)[own.value := old(sessions)[own.value].(cleaned := true)] else old(sessions))
    {
      hide IsRun, Inv, JobName, Guard, Next, LastStep, IdleDevice, JobAges;
      Others();
      ghost var s, h := View(), hist;
      Invariant();
      DeleteJobStays(old(View()), s, a, mine, own);
      var present := name in jobs;
      if present {
        jobs := jobs - {name};
        sessions := if a.TakeResult? then sessions[own.value := sessions[own.value].(cleaned := true)] else sessions;
        Record(s, a);
        StepAppended(disc, old(hist), h, a);
      } else {
        assert jobs - {name} == jobs;
      }
      var fail := *;
      r := if !quiet && fail then Error else if present then Done else Rejected;
    }
  }

  /** The session's job has this name. */
  ghost predicate SessionsJob(s: Cluster, id: nat, name: string) {
    id in s.sessions && s.sessions[id].vb in s.deviceLog && name == SessionJob(s, id)
  }

  /** The session has seen its job succeed and has not yet removed it. */
  ghost predicate Collectable(s: Cluster, id: nat) {
    id in s.sessions && s.sessions[id].vb in s.deviceLog && s.sessions[id].seen && !s.sessions[id].cleaned
  }

  lemma JobActionStays(disc: Discipline, s: Cluster, t: Cluster, a: Action, mine: set<Intent>, own: Option<nat>)
    requires (a.StartJob? || a.CancelJob?) && own == Some(a.id) && Guard(disc, s, a) && Respects(s, t, mine, own)
    ensures Guard(disc, t, a) && Guard(Any, t, a) && SessionJob(t, a.id) == SessionJob(s, a.id)
  {
    hide JobName;
  }

  lemma StartJobIsNext(s: Cluster, id: nat, mine: set<Intent>)
    requires Guard(Any, s, StartJob(id)) && mine <= s.intents
    ensures Next(s, StartJob(id)) == if SessionJob(s, id) in s.jobs then s else WithJob(s, SessionJob(s, id), 0)
    ensures Respects(s, Next(s, StartJob(id)), mine, Some(id))
  {
    hide JobName;
  }

  lemma DeleteJobStays(s: Cluster, t: Cluster, a: Action, mine: set<Intent>, own: Option<nat>)
    requires (a.TakeResult? || a.CancelJob?) && own == Some(a.id) && Respects(s, t, mine, own)
    requires if a.CancelJob? then Guard(Any, s, a) else Collectable(s, a.id)
    ensures a.id in t.sessions && t.sessions[a.id].vb in t.deviceLog && SessionJob(t, a.id) == SessionJob(s, a.id)
    ensures SessionJob(t, a.id) in t.jobs ==> Guard(Any, t, a) && Guard(Serial, t, a)
    ensures SessionJob(t, a.id) in t.jobs ==> Next(t, a) == t.(jobs := t.jobs - {SessionJob(t, a.id)},
      sessions := if a.TakeResult? then t.sessions[a.id := t.sessions[a.id].(cleaned := true)] else t.sessions)
  {
    hide JobName;
  }

  /** The intent a second write uses up. */
  ghost function UsedUp(a: Action): set<Intent> {
    if a.BindClaim? then {Bind(a.vc, a.deviceName)} else if a.UnbindClaim? then {Unbind(a.vc)} else {}
  }

  lemma ClaimUpdateRespects(s: Cluster, a: Action, v: nat, c: BlockDeviceClaim, mine: set<Intent>, own: Option<nat>)
    requires Inv(s) && Guard(Any, s, a) && UpdatesClaim(s, a, v, c)
    requires mine <= s.intents && (own.Some? ==> own.value in s.sessions)
    ensures mine - UsedUp(a) <= IntentsAfter(s, a)
    ensures Respects(s, Next(s, a), mine - UsedUp(a), own)
  {
    hide Inv, ReadyToRelease, SearchesDevice;
    StoredAdds(s, a);
  }

  lemma CreateIsNext(s: Cluster, d: BlockDevice, mine: set<Intent>, own: Option<nat>)
    requires Inv(s) && NewDevice(d) && mine <= s.intents && (own.Some? ==> own.value in s.sessions)
    ensures var a := DaemonCreate(d); Next(s, a) == if d.name in s.devices then s else StoreDevice(s, d)
    ensures Respects(s, Next(s, DaemonCreate(d)), mine, own)
  {
    StoredAdds(s, DaemonCreate(d));
  }

  /** The intent a successful first write leaves with its caller. */
  ghost function LeftToDo(s: Cluster, a: Action, v: nat, d: BlockDevice): set<Intent> {
    if !CurrentDevice(s, d.name, v) then {}
    else if a.ClaimDevice? then {Bind(a.vc, d.name)}
    else if a.ReleaseDevice? then {Unbind(a.vc)}
    else {}
  }

  lemma DeviceUpdateRespects(s: Cluster, a: Action, v: nat, d: BlockDevice, mine: set<Intent>, own: Option<nat>)
    requires Inv(s) && Guard(Any, s, a) && UpdatesDevice(s, a, v, d)
    requires mine <= s.intents && (own.Some? ==> own.value in s.sessions) && (a.FreeDevice? ==> own == Some(a.id))
    ensures mine + LeftToDo(s, a, v, d) <= IntentsAfter(s, a)
    ensures own.Some? && !a.FreeDevice? ==> own.value in SessionsAfter(s, a)
    ensures Respects(s, Next(s, a), mine + LeftToDo(s, a, v, d), if a.FreeDevice? then None else own)
  {
    hide Inv, Merge, Freed, ReadyToRelease, SearchesDevice, RequestedBy;
    StoredAdds(s, a);
  }

  lemma RespectsTogether(s: Cluster, t: Cluster, u: Cluster, mine: set<Intent>, more: set<Intent>, own: Option<nat>,
                         after: Option<nat>)
    requires Respects(s, t, mine, own) && Respects(t, u, more, after) && (after == own || after == None)
    ensures Respects(s, u, more, after)
  {}

  /** Every item was stored at some time and matches. */
  ghost predicate ListedFrom(s: Cluster, selector: Selector, list: seq<Versioned>) {
    forall i :: 0 <= i < |list| ==>
      list[i].v in s.deviceLog && s.deviceLog[list[i].v] == list[i].d && Matches(selector, list[i].d.labels)
  }

  /** The items are exactly the current devices that match. */
  ghost predicate AllListed(s: Cluster, selector: Selector, list: seq<Versioned>) {
    && (forall i :: 0 <= i < |list| ==> CurrentDevice(s, list[i].d.name, list[i].v))
    && (forall b :: s.HasDevice(b) && Matches(selector, s.Device(b).labels) ==>
          Versioned(s.devices[b], s.Device(b)) in list)
  }
}
