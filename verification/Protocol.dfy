/**
  The claim protocol as a state machine.

  All actors share one API server.  The server numbers every write with a fresh
  resource version and keeps what each version held, so a read that may be stale
  is a read of any logged version, and an update succeeds only if the version it
  was computed from is still the current one.  A reconcile that writes twice
  leaves an intent between its two writes; any number of other actions may run
  before the intent is carried out, and it may never be carried out at all.
  */
module Protocol {
  import opened Objects

  datatype Job = Job(succeeded: nat)

  /** A state in which the job of this name once was. */
  datatype JobVersion = JobVersion(name: string, succeeded: nat)

  /** What a claim reconcile still has to write after its first write succeeded. */
  datatype Intent =
    | Bind(vc: nat, device: string)
    | Unbind(vc: nat)

  /**
    A running cleanup reconcile: the device version it read, whether it has seen the
    job succeed, and whether it has then removed the job.
    */
  datatype Session = Session(vb: nat, seen: bool, cleaned: bool)

  datatype Cluster = Cluster(
    rev: nat,                               // last resource version handed out
    devices: map<string, nat>,              // current version of every stored device
    claims: map<string, nat>,               // current version of every stored claim
    deviceLog: map<nat, BlockDevice>,       // every device version ever stored
    claimLog: map<nat, BlockDeviceClaim>,   // every claim version ever stored
    jobs: map<string, Job>,                 // cleanup jobs by job name
    jobLog: set<JobVersion>,                // every state a cleanup job ever was in
    intents: set<Intent>,
    sessions: map<nat, Session>)
  {
    ghost predicate HasDevice(b: string) {
      b in devices && devices[b] in deviceLog
    }

    ghost function Device(b: string): BlockDevice
      requires HasDevice(b)
    {
      deviceLog[devices[b]]
    }

    ghost predicate HasClaim(c: string) {
      c in claims && claims[c] in claimLog
    }

    ghost function Claim(c: string): BlockDeviceClaim
      requires HasClaim(c)
    {
      claimLog[claims[c]]
    }
  }

  const JOB_PREFIX := "cleanup-"

  function JobName(device: string): (r: string)
    ensures |r| == 8 + |device| && r[8..] == device
  {
    JOB_PREFIX + device
  }

  // --- API server writes ---------------------------------------------------

  /** Store a device.  An object marked for deletion disappears with its last finalizer. */
  function StoreDevice(s: Cluster, d: BlockDevice): Cluster {
    if d.deleting && d.finalizers == [] then
      s.(rev := s.rev + 1, devices := s.devices - {d.name})
    else
      s.(rev := s.rev + 1,
         devices := s.devices[d.name := s.rev + 1],
         deviceLog := s.deviceLog[s.rev + 1 := d])
  }

  function StoreClaim(s: Cluster, c: BlockDeviceClaim): Cluster {
    if c.deleting && c.finalizers == [] then
      s.(rev := s.rev + 1, claims := s.claims - {c.name})
    else
      s.(rev := s.rev + 1,
         claims := s.claims[c.name := s.rev + 1],
         claimLog := s.claimLog[s.rev + 1 := c])
  }

  predicate CurrentDevice(s: Cluster, name: string, v: nat) {
    name in s.devices && s.devices[name] == v
  }

  predicate CurrentClaim(s: Cluster, name: string, v: nat) {
    name in s.claims && s.claims[name] == v
  }

  // --- Actions -------------------------------------------------------------

  datatype Action =
    // users of the API
    | CreateClaim(claim: BlockDeviceClaim)
    | EditClaim(claim: BlockDeviceClaim)
    | DeleteClaim(name: string)
    | EditDevice(device: BlockDevice)
    | DeleteDevice(name: string)
    // claim reconciler
    | ClaimDevice(vc: nat, vb: nat)
    | BindClaim(vc: nat, deviceName: string)
    | SetPending(vc: nat)
    | ReleaseDevice(vc: nat, vb: nat)
    | UnbindClaim(vc: nat)
    // node daemons
    | DaemonCreate(device: BlockDevice)
    | DaemonMerge(device: BlockDevice, vb: nat)
    | DaemonSetState(vb: nat, state: DeviceState)
    // device reconciler and cleanup tracker
    | BeginClean(id: nat, vb: nat)
    | StartJob(id: nat)
    | CancelJob(id: nat)
    | SeeResult(id: nat)
    | TakeResult(id: nat)
    | FreeDevice(id: nat)
    | EndClean(id: nat)
    // the job itself
    | JobSucceeds(jobName: string)
    | JobVanishes(jobName: string)

  /**
    Any: reads may be stale and any number of cleanup reconciles may run at once.
    Serial: a cleanup reconcile reads the current device and the current job, and no
    two of them work on the same device at the same time.
    */
  datatype Discipline = Any | Serial

  predicate NewDevice(d: BlockDevice) {
    d.claimState == Unclaimed && d.spec.claimRef.None? && d.finalizers == [] && !d.deleting
  }

  predicate SearchesDevice(c: BlockDeviceClaim) {
    (c.phase == EmptyPhase || c.phase == Pending) && !c.deleting && !ReconcileDisabled(c.annotations)
  }

  /** Marked for deletion, bound, and the system's own finalizer is the only one left. */
  predicate ReadyToRelease(c: BlockDeviceClaim) {
    c.phase == Bound && c.deleting && c.finalizers == [ClaimProtection] && !ReconcileDisabled(c.annotations)
  }

  /** A user edit leaves alone what the controllers and the server own. */
  predicate ClaimEdit(before: BlockDeviceClaim, after: BlockDeviceClaim) {
    && after.name == before.name && after.uid == before.uid && after.kind == before.kind
    && after.phase == before.phase && after.deleting == before.deleting
    && Count(after.finalizers, ClaimProtection) == Count(before.finalizers, ClaimProtection)
    && (before.phase == Bound ==> after.spec.blockDeviceName == before.spec.blockDeviceName)
  }

  predicate DeviceEdit(before: BlockDevice, after: BlockDevice) {
    && after.name == before.name && after.deleting == before.deleting
    && after.spec == before.spec && after.claimState == before.claimState && after.state == before.state
    && Count(after.finalizers, DeviceProtection) == Count(before.finalizers, DeviceProtection)
  }

  /** The job name a cleanup session works with. */
  function SessionJob(s: Cluster, id: nat): string
    requires id in s.sessions && s.sessions[id].vb in s.deviceLog
  {
    JobName(s.deviceLog[s.sessions[id].vb].name)
  }

  /** Some job of this name once had a success. */
  predicate EverSucceeded(log: set<JobVersion>, j: string) {
    exists v :: v in log && v.name == j && v.succeeded > 0
  }

  predicate IdleDevice(s: Cluster, name: string) {
    forall id :: id in s.sessions && s.sessions[id].vb in s.deviceLog ==> s.deviceLog[s.sessions[id].vb].name != name
  }

  predicate Guard(disc: Discipline, s: Cluster, a: Action) {
    match a
    case CreateClaim(c) =>
      && c.name !in s.claims && c.uid == s.rev + 1 && c.kind == BlockDeviceClaimKind && c.phase != Bound && !c.deleting
      && Count(c.finalizers, ClaimProtection) == 0
    case EditClaim(c) =>
      c.name in s.claims && s.claims[c.name] in s.claimLog && ClaimEdit(s.claimLog[s.claims[c.name]], c)
    case DeleteClaim(n) => n in s.claims && s.claims[n] in s.claimLog
    case EditDevice(d) =>
      d.name in s.devices && s.devices[d.name] in s.deviceLog && DeviceEdit(s.deviceLog[s.devices[d.name]], d)
    case DeleteDevice(n) => n in s.devices && s.devices[n] in s.deviceLog
    case ClaimDevice(vc, vb) =>
      && vc in s.claimLog && vb in s.deviceLog && SearchesDevice(s.claimLog[vc])
      && s.deviceLog[vb].state == Active && s.deviceLog[vb].claimState == Unclaimed
    case BindClaim(vc, b) => Bind(vc, b) in s.intents && vc in s.claimLog
    case SetPending(vc) =>
      && vc in s.claimLog
      && (SearchesDevice(s.claimLog[vc]) ||
          (s.claimLog[vc].phase == InvalidCapacity && !ReconcileDisabled(s.claimLog[vc].annotations)))
    case ReleaseDevice(vc, vb) =>
      && vc in s.claimLog && vb in s.deviceLog && ReadyToRelease(s.claimLog[vc])
      && (s.deviceLog[vb].claimState == Claimed ==> s.deviceLog[vb].spec.claimRef.Some?)
      && RequestedBy(s.claimLog[vc], s.deviceLog[vb])
    case UnbindClaim(vc) => Unbind(vc) in s.intents && vc in s.claimLog
    case DaemonCreate(d) => NewDevice(d)
    case DaemonMerge(d, vb) => vb in s.deviceLog && NewDevice(d)
    case DaemonSetState(vb, st) => vb in s.deviceLog && st != Active
    case BeginClean(id, vb) =>
      && id !in s.sessions && vb in s.deviceLog && s.deviceLog[vb].claimState == Released
      && !ReconcileDisabled(s.deviceLog[vb].annotations)
      && (disc == Serial ==> CurrentDevice(s, s.deviceLog[vb].name, vb) && IdleDevice(s, s.deviceLog[vb].name))
    case StartJob(id) =>
      && id in s.sessions && s.sessions[id].vb in s.deviceLog && !s.sessions[id].seen && !s.sessions[id].cleaned
      && (disc == Serial ==> s.deviceLog[s.sessions[id].vb].state == Active)
    case CancelJob(id) =>
      && id in s.sessions && s.sessions[id].vb in s.deviceLog && !s.sessions[id].cleaned
      && s.deviceLog[s.sessions[id].vb].state != Active
    case SeeResult(id) =>
      && id in s.sessions && s.sessions[id].vb in s.deviceLog && !s.sessions[id].cleaned
      && EverSucceeded(s.jobLog, SessionJob(s, id))
      && (disc == Serial ==> SessionJob(s, id) in s.jobs && s.jobs[SessionJob(s, id)].succeeded > 0)
    case TakeResult(id) =>
      && id in s.sessions && s.sessions[id].vb in s.deviceLog && s.sessions[id].seen && !s.sessions[id].cleaned
      && SessionJob(s, id) in s.jobs
    case FreeDevice(id) =>
      id in s.sessions && s.sessions[id].vb in s.deviceLog && s.sessions[id].cleaned
    case EndClean(id) => id in s.sessions
    case JobSucceeds(j) => j in s.jobs
    case JobVanishes(j) => j in s.jobs
  }

  function IfCurrentDevice(s: Cluster, v: nat, d: BlockDevice): Option<BlockDevice> {
    if CurrentDevice(s, d.name, v) then Some(d) else None
  }

  function IfCurrentClaim(s: Cluster, v: nat, c: BlockDeviceClaim): Option<BlockDeviceClaim> {
    if CurrentClaim(s, c.name, v) then Some(c) else None
  }

  /** The device an action stores.  Updates are rejected unless the version they read is current. */
  function DeviceWrite(s: Cluster, a: Action): Option<BlockDevice>
    requires Guard(Any, s, a)
  {
    match a
    case EditDevice(d) => Some(d)
    case DeleteDevice(n) => Some(s.deviceLog[s.devices[n]].(deleting := true))
    case ClaimDevice(vc, vb) => IfCurrentDevice(s, vb, ClaimedBy(s.deviceLog[vb], s.claimLog[vc]))
    case ReleaseDevice(vc, vb) => IfCurrentDevice(s, vb, ReleasedFrom(s.deviceLog[vb]))
    case DaemonCreate(d) => if d.name in s.devices then None else Some(d)
    case DaemonMerge(d, vb) => IfCurrentDevice(s, vb, Merge(d, s.deviceLog[vb]))
    case DaemonSetState(vb, st) => IfCurrentDevice(s, vb, s.deviceLog[vb].(state := st))
    case FreeDevice(id) => IfCurrentDevice(s, s.sessions[id].vb, Freed(s.deviceLog[s.sessions[id].vb]))
    case _ => None
  }

  /** The claim an action stores. */
  function ClaimWrite(s: Cluster, a: Action): Option<BlockDeviceClaim>
    requires Guard(Any, s, a)
  {
    match a
    case CreateClaim(c) => Some(c)
    case EditClaim(c) => Some(c)
    case DeleteClaim(n) => Some(s.claimLog[s.claims[n]].(deleting := true))
    case BindClaim(vc, b) => IfCurrentClaim(s, vc, BoundTo(s.claimLog[vc], b))
    case SetPending(vc) => IfCurrentClaim(s, vc, s.claimLog[vc].(phase := Pending))
    case UnbindClaim(vc) => IfCurrentClaim(s, vc, Unprotected(s.claimLog[vc]))
    case _ => None
  }

  /** The jobs after an action: created only if absent, taken away only once a result was seen. */
  function JobsAfter(s: Cluster, a: Action): map<string, Job>
    requires Guard(Any, s, a)
  {
    match a
    case StartJob(id) =>
      var j := SessionJob(s, id);
      if j in s.jobs then s.jobs else s.jobs[j := Job(0)]
    case CancelJob(id) => s.jobs - {SessionJob(s, id)}
    case TakeResult(id) => s.jobs - {SessionJob(s, id)}
    case JobSucceeds(j) => s.jobs[j := Job(s.jobs[j].succeeded + 1)]
    case JobVanishes(j) => s.jobs - {j}
    case _ => s.jobs
  }

  /** The job states known after an action: a job starts without success, and a success is a new state. */
  function JobLogAfter(s: Cluster, a: Action): set<JobVersion>
    requires Guard(Any, s, a)
  {
    match a
    case StartJob(id) =>
      if SessionJob(s, id) in s.jobs then s.jobLog else s.jobLog + {JobVersion(SessionJob(s, id), 0)}
    case JobSucceeds(j) => s.jobLog + {JobVersion(j, s.jobs[j].succeeded + 1)}
    case _ => s.jobLog
  }

  /** The cluster with a job in a new state. */
  function WithJob(s: Cluster, j: string, n: nat): Cluster {
    s.(jobs := s.jobs[j := Job(n)], jobLog := s.jobLog + {JobVersion(j, n)})
  }

  /** A first write that succeeded leaves an intent; the second write uses it up. */
  function IntentsAfter(s: Cluster, a: Action): set<Intent>
    requires Guard(Any, s, a)
  {
    match a
    case ClaimDevice(vc, vb) =>
      if DeviceWrite(s, a).Some? then s.intents + {Bind(vc, s.deviceLog[vb].name)} else s.intents
    case BindClaim(vc, b) => s.intents - {Bind(vc, b)}
    case ReleaseDevice(vc, vb) =>
      if DeviceWrite(s, a).Some? then s.intents + {Unbind(vc)} else s.intents
    case UnbindClaim(vc) => s.intents - {Unbind(vc)}
    case _ => s.intents
  }

  function SessionsAfter(s: Cluster, a: Action): map<nat, Session>
    requires Guard(Any, s, a)
  {
    match a
    case BeginClean(id, vb) => s.sessions[id := Session(vb, false, false)]
    case SeeResult(id) => s.sessions[id := s.sessions[id].(seen := true)]
    case TakeResult(id) => s.sessions[id := s.sessions[id].(cleaned := true)]
    case FreeDevice(id) => s.sessions - {id}
    case EndClean(id) => s.sessions - {id}
    case _ => s.sessions
  }

  function Next(s: Cluster, a: Action): Cluster
    requires Guard(Any, s, a)
  {
    Stored(s, DeviceWrite(s, a), ClaimWrite(s, a)).(
      jobs := JobsAfter(s, a), jobLog := JobLogAfter(s, a),
      intents := IntentsAfter(s, a), sessions := SessionsAfter(s, a))
  }

  function Stored(s: Cluster, d: Option<BlockDevice>, c: Option<BlockDeviceClaim>): Cluster {
    var t := if d.Some? then StoreDevice(s, d.value) else s;
    if c.Some? then StoreClaim(t, c.value) else t
  }

  // --- Runs ----------------------------------------------------------------

  ghost predicate Step(disc: Discipline, s: Cluster, t: Cluster) {
    exists a :: Guard(disc, s, a) && t == Next(s, a)
  }

  lemma TakenBy(disc: Discipline, s: Cluster, t: Cluster) returns (a: Action)
    requires Step(disc, s, t)
    ensures Guard(disc, s, a) && Guard(Any, s, a) && t == Next(s, a)
  {
    a :| Guard(disc, s, a) && t == Next(s, a);
  }

  const EMPTY := Cluster(0, map[], map[], map[], map[], map[], {}, {}, map[])

  /** A run starts from the empty cluster and takes one action at a time. */
  ghost predicate IsRun(disc: Discipline, run: seq<Cluster>) {
    && |run| > 0 && run[0] == EMPTY
    && forall i :: 0 <= i < |run| - 1 ==> Step(disc, run[i], run[i + 1])
  }

  /** The same run together with the actions it takes. */
  ghost predicate IsRunOf(disc: Discipline, run: seq<Cluster>, actions: seq<Action>) {
    && |run| == |actions| + 1 && run[0] == EMPTY
    && forall i :: 0 <= i < |actions| ==> Guard(disc, run[i], actions[i]) && Takes(run[i], actions[i], run[i + 1])
  }

  ghost predicate Takes(s: Cluster, a: Action, t: Cluster) {
    Guard(Any, s, a) && t == Next(s, a)
  }

  lemma RunOfIsRun(disc: Discipline, run: seq<Cluster>, actions: seq<Action>)
    requires IsRunOf(disc, run, actions)
    ensures IsRun(disc, run)
  {
    hide Guard, Next;
    forall i | 0 <= i < |run| - 1 ensures Step(disc, run[i], run[i + 1]) {
      assert Guard(disc, run[i], actions[i]) && Takes(run[i], actions[i], run[i + 1]);
    }
  }

  /** Every run takes some actions. */
  lemma {:induction false} ActionsOf(disc: Discipline, run: seq<Cluster>) returns (actions: seq<Action>)
    requires IsRun(disc, run)
    ensures IsRunOf(disc, run, actions)
    decreases |run|
  {
    hide Guard, Next;
    actions := [];
    if |run| > 1 {
      var n := |run| - 1;
      forall i | 0 <= i < n - 1 ensures Step(disc, run[..n][i], run[..n][i + 1]) {
        assert Step(disc, run[i], run[i + 1]);
      }
      var init := ActionsOf(disc, run[..n]);
      var last := TakenBy(disc, run[n - 1], run[n]);
      actions := init + [last];
      forall i | 0 <= i < n
        ensures Guard(disc, run[i], actions[i]) && Takes(run[i], actions[i], run[i + 1])
      {
        if i < n - 1 {
          assert Guard(disc, run[..n][i], init[i]) && Takes(run[..n][i], init[i], run[..n][i + 1]);
        }
      }
    }
  }

  lemma ExtendRun(disc: Discipline, run: seq<Cluster>, a: Action)
    requires IsRun(disc, run) && Guard(disc, run[|run| - 1], a)
    ensures IsRun(disc, run + [Next(run[|run| - 1], a)])
  {
    var longer := run + [Next(run[|run| - 1], a)];
    forall i | 0 <= i < |longer| - 1
      ensures Step(disc, longer[i], longer[i + 1])
    {
      if i == |run| - 1 {
        assert longer[i] == run[i];
      } else {
        assert longer[i] == run[i] && longer[i + 1] == run[i + 1];
      }
    }
  }
}
