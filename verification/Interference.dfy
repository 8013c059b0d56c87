/**
  What the other actors may do to the state of one caller between two of its calls,
  and the proof that this is what every action of another actor does.
  */
module Interference {
  import opened Objects
  import opened Protocol
  import opened Invariant
  import opened Cleanup

  /** What a caller may rely on: nobody else uses up its intents or touches its cleanup session. */
  ghost predicate Respects(s: Cluster, t: Cluster, mine: set<Intent>, own: Option<nat>) {
    && Extends(s.deviceLog, t.deviceLog) && Extends(s.claimLog, t.claimLog)
    && mine <= t.intents
    && (own.Some? ==>
          own.value in t.sessions && own.value in s.sessions && t.sessions[own.value] == s.sessions[own.value])
  }

  lemma LogsKept(s: Cluster, t: Cluster, mine: set<Intent>, own: Option<nat>)
    requires Respects(s, t, mine, own)
    ensures Extends(s.deviceLog, t.deviceLog) && Extends(s.claimLog, t.claimLog)
  {}

  /** The job is not replaced: it may go away, and it only ever succeeds more often. */
  predicate JobAges(before: map<string, Job>, after: map<string, Job>, j: string) {
    j in after ==> j in before && after[j].succeeded >= before[j].succeeded
  }

  /** Everything the others may do; the last two lines hold when cleanups of one device exclude each other. */
  ghost predicate Interferes(disc: Discipline, s: Cluster, t: Cluster, mine: set<Intent>, own: Option<nat>,
                             key: Option<string>) {
    && Respects(s, t, mine, own)
    && (disc == Serial && key.Some? && IdleDevice(s, key.value) ==> IdleDevice(t, key.value))
    && (disc == Serial && own.Some? && s.sessions[own.value].vb in s.deviceLog ==>
          JobAges(s.jobs, t.jobs, SessionJob(s, own.value)))
  }

  predicate SessionAction(a: Action, id: nat) {
    match a
    case BeginClean(i, _) => i == id
    case StartJob(i) => i == id
    case CancelJob(i) => i == id
    case SeeResult(i) => i == id
    case TakeResult(i) => i == id
    case FreeDevice(i) => i == id
    case EndClean(i) => i == id
    case _ => false
  }

  /** An action of somebody else: not the caller's second write, not its session, no cleanup of its device. */
  predicate Foreign(s: Cluster, a: Action, mine: set<Intent>, own: Option<nat>, key: Option<string>) {
    && (a.BindClaim? ==> Bind(a.vc, a.deviceName) !in mine)
    && (a.UnbindClaim? ==> Unbind(a.vc) !in mine)
    && (own.Some? ==> !SessionAction(a, own.value))
    && (a.BeginClean? && key.Some? && a.vb in s.deviceLog ==> s.deviceLog[a.vb].name != key.value)
  }

  ghost predicate ForeignStep(disc: Discipline, s: Cluster, t: Cluster, mine: set<Intent>, own: Option<nat>,
                              key: Option<string>) {
    exists a :: Guard(disc, s, a) && Foreign(s, a, mine, own, key) && Guard(Any, s, a) && t == Next(s, a)
  }

  lemma StepRespects(s: Cluster, a: Action, mine: set<Intent>, own: Option<nat>, key: Option<string>)
    requires Inv(s) && Guard(Any, s, a) && Foreign(s, a, mine, own, key)
    requires mine <= s.intents && (own.Some? ==> own.value in s.sessions)
    ensures Respects(s, Next(s, a), mine, own)
  {
    hide Inv, DeviceWrite, ClaimWrite, Stored, JobsAfter, JobLogAfter, ReadyToRelease, SearchesDevice;
    StoredAdds(s, a);
  }

  lemma StepKeepsIdle(s: Cluster, a: Action, mine: set<Intent>, own: Option<nat>, key: Option<string>)
    requires Inv(s) && Guard(Serial, s, a) && Guard(Any, s, a) && Foreign(s, a, mine, own, key)
    requires key.Some? && IdleDevice(s, key.value)
    ensures IdleDevice(Next(s, a), key.value)
  {
    hide Inv, Guard, Next;
    var t := Next(s, a);
    forall id | id in t.sessions && t.sessions[id].vb in t.deviceLog
      ensures t.deviceLog[t.sessions[id].vb].name != key.value
    {
      if SessionOn(t, id, key.value) {
        SessionBefore(s, a, id, key.value);
        if a.BeginClean? && a.id == id { BegunOn(s, a); }
      }
    }
  }

  lemma BegunOn(s: Cluster, a: Action)
    requires Inv(s) && a.BeginClean? && Guard(Any, s, a)
    ensures a.vb in s.deviceLog && SessionOn(Next(s, a), a.id, s.deviceLog[a.vb].name)
  {}

  lemma StepAgesJob(s: Cluster, a: Action, mine: set<Intent>, own: Option<nat>, key: Option<string>)
    requires Inv(s) && CleanInv(s) && Guard(Serial, s, a) && Guard(Any, s, a) && Foreign(s, a, mine, own, key)
    requires own.Some? && own.value in s.sessions && s.sessions[own.value].vb in s.deviceLog
    ensures JobAges(s.jobs, Next(s, a).jobs, SessionJob(s, own.value))
  {
    hide Inv, Guard, Next, JobName;
    var b := s.deviceLog[s.sessions[own.value].vb].name;
    assert SessionOn(s, own.value, b);
    JobBefore(s, a, b);
  }

  lemma StepInterferes(disc: Discipline, s: Cluster, t: Cluster, mine: set<Intent>, own: Option<nat>,
                       key: Option<string>)
    requires Inv(s) && (disc == Serial ==> CleanInv(s)) && ForeignStep(disc, s, t, mine, own, key)
    requires mine <= s.intents && (own.Some? ==> own.value in s.sessions)
    ensures Interferes(disc, s, t, mine, own, key)
  {
    hide Inv, CleanInv, Guard, Next, Foreign, IdleDevice, JobAges;
    var a :| Guard(disc, s, a) && Foreign(s, a, mine, own, key) && Guard(Any, s, a) && t == Next(s, a);
    StepRespects(s, a, mine, own, key);
    if disc == Serial && key.Some? && IdleDevice(s, key.value) { StepKeepsIdle(s, a, mine, own, key); }
    if disc == Serial && own.Some? && s.sessions[own.value].vb in s.deviceLog { StepAgesJob(s, a, mine, own, key); }
  }

  lemma NothingInterferes(disc: Discipline, s: Cluster, mine: set<Intent>, own: Option<nat>, key: Option<string>)
    requires mine <= s.intents && (own.Some? ==> own.value in s.sessions)
    ensures Interferes(disc, s, s, mine, own, key)
  {}

  lemma InterferesTogether(disc: Discipline, s: Cluster, t: Cluster, u: Cluster, mine: set<Intent>, own: Option<nat>,
                           key: Option<string>)
    requires Interferes(disc, s, t, mine, own, key) && Interferes(disc, t, u, mine, own, key)
    ensures Interferes(disc, s, u, mine, own, key)
  {
    hide JobName, IdleDevice;
  }

  /** Any number of actions of others, anywhere in a run, interferes no more than that. */
  lemma {:induction false} OthersInterfere(disc: Discipline, run: seq<Cluster>, i: nat, j: nat,
                                           mine: set<Intent>, own: Option<nat>, key: Option<string>)
    requires IsRun(disc, run) && i <= j < |run|
    requires forall k :: i <= k < j ==> ForeignStep(disc, run[k], run[k + 1], mine, own, key)
    requires mine <= run[i].intents && (own.Some? ==> own.value in run[i].sessions)
    ensures Interferes(disc, run[i], run[j], mine, own, key)
    decreases j
  {
    hide Inv, CleanInv, ForeignStep, Step, IdleDevice, JobAges, JobName;
    if i == j {
      NothingInterferes(disc, run[i], mine, own, key);
    } else {
      OthersInterfere(disc, run, i, j - 1, mine, own, key);
      RunKeepsInv(disc, run, j - 1);
      if disc == Serial { RunKeepsCleanInv(run, j - 1); }
      assert ForeignStep(disc, run[j - 1], run[j - 1 + 1], mine, own, key);
      StepInterferes(disc, run[j - 1], run[j], mine, own, key);
      InterferesTogether(disc, run[i], run[j - 1], run[j], mine, own, key);
    }
  }
}
