/**
  What cleanup needs when reads may be stale and reconciles may overlap: exactly which
  steps put a job on a device in use, exactly which steps let a reconcile collect a job
  that did not succeed, that without them cleanup comes before reuse in every run, and
  what is left of that promise in all other runs.
  */
module CleanupLimits {
  import opened Objects
  import opened Protocol
  import opened Invariant
  import opened ClaimSafety
  import opened Cleanup

  // --- Jobs only on released devices ----------------------------------------------------

  ghost predicate JobsReleased(s: Cluster) {
    forall b :: JobFor(s, b) ==> IsReleased(s, b)
  }

  /** The device a cleanup session works on. */
  ghost function Target(s: Cluster, id: nat): string
    requires id in s.sessions && s.sessions[id].vb in s.deviceLog
  {
    s.deviceLog[s.sessions[id].vb].name
  }

  /** A job is started for a device that is no longer released, or a device is freed while it has a job. */
  ghost predicate Misfires(s: Cluster, a: Action)
    requires Guard(Any, s, a)
  {
    || (a.StartJob? && SessionJob(s, a.id) !in s.jobs && !IsReleased(s, Target(s, a.id)))
    || (a.FreeDevice? && DeviceWrite(s, a).Some? && SessionJob(s, a.id) in s.jobs)
  }

  lemma StartMisfires(s: Cluster, id: nat)
    requires Inv(s) && Guard(Any, s, StartJob(id)) && SessionJob(s, id) !in s.jobs && !IsReleased(s, Target(s, id))
    ensures var t := Next(s, StartJob(id)); JobFor(t, Target(s, id)) && !IsReleased(t, Target(s, id))
  {
    hide Inv, JobName;
    DeviceAtNext(s, StartJob(id), Target(s, id));
  }

  lemma FreeMisfires(s: Cluster, id: nat)
    requires Inv(s) && Guard(Any, s, FreeDevice(id)) && DeviceWrite(s, FreeDevice(id)).Some?
    requires SessionJob(s, id) in s.jobs
    ensures var t := Next(s, FreeDevice(id)); JobFor(t, Target(s, id)) && !IsReleased(t, Target(s, id))
  {
    hide Inv, JobName;
    DeviceAtNext(s, FreeDevice(id), Target(s, id));
  }

  /** Where nothing misfires, a device with a job stays released. */
  lemma JobStaysReleased(s: Cluster, a: Action, b: string)
    requires Inv(s) && JobsReleased(s) && Guard(Any, s, a) && !Misfires(s, a) && JobFor(Next(s, a), b)
    ensures IsReleased(Next(s, a), b)
  {
    hide Inv, Next, JobName, DeviceAt;
    JobChange(s, a, b);
    DeviceAtNext(s, a, b);
    if !IsReleased(Next(s, a), b) && IsReleased(s, b) {
      ReleaseEnds(s, a, b);
    }
  }

  /** Any step keeps jobs on released devices if and only if it does not misfire. */
  lemma JobsReleasedStepIff(s: Cluster, a: Action)
    requires Inv(s) && JobsReleased(s) && Guard(Any, s, a)
    ensures JobsReleased(Next(s, a)) <==> !Misfires(s, a)
  {
    hide Inv, Next, JobFor, IsReleased, DeviceWrite, JobName;
    if Misfires(s, a) {
      if a.StartJob? { StartMisfires(s, a.id); } else { FreeMisfires(s, a.id); }
    } else {
      forall b | JobFor(Next(s, a), b) ensures IsReleased(Next(s, a), b) {
        JobStaysReleased(s, a, b);
      }
    }
  }

  // --- Results that are true ------------------------------------------------------------

  /** The reconcile has seen its job succeed and has still to collect it. */
  ghost predicate Collecting(s: Cluster, id: nat, b: string) {
    SessionOn(s, id, b) && s.sessions[id].seen && !s.sessions[id].cleaned
  }

  /** A job that a reconcile is about to collect has succeeded. */
  ghost predicate ResultsTrue(s: Cluster) {
    forall id, b :: Collecting(s, id, b) && JobFor(s, b) ==> s.jobs[JobName(b)].succeeded > 0
  }

  /** A reconcile takes an unfinished job for a successful one, or a new job is put in place of one seen to succeed. */
  ghost predicate Misleads(s: Cluster, a: Action)
    requires Guard(Any, s, a)
  {
    || (a.SeeResult? && SessionJob(s, a.id) in s.jobs && s.jobs[SessionJob(s, a.id)].succeeded == 0)
    || (a.StartJob? && SessionJob(s, a.id) !in s.jobs && exists id :: Collecting(s, id, Target(s, a.id)))
  }

  /** A reconcile that collects after a step did so before, or has just seen a result. */
  lemma CollectingBefore(s: Cluster, a: Action, id: nat, b: string)
    requires Inv(s) && Guard(Any, s, a) && Collecting(Next(s, a), id, b)
    ensures SessionOn(s, id, b) && (Collecting(s, id, b) || a == SeeResult(id))
  {
    hide Inv, Guard, DeviceWrite, ClaimWrite, JobsAfter, JobLogAfter, IntentsAfter, SessionsAfter, Stored;
    InvParts(s);
    StoredAdds(s, a);
    SessionsBefore(s, a, id);
  }

  lemma CollectingAfter(s: Cluster, a: Action, id: nat, b: string)
    requires Inv(s) && Guard(Any, s, a) && SessionOn(s, id, b) && !s.sessions[id].cleaned
    requires if a.StartJob? then s.sessions[id].seen else a == SeeResult(id)
    ensures Collecting(Next(s, a), id, b)
  {
    hide Monotone, Backed, ClaimsStored, IntentsOk, DeviceWrite, ClaimWrite, JobsAfter, IntentsAfter, DeviceOk, Stored;
    hide JobLogAfter;
    StoredAdds(s, a);
  }

  lemma SeeMisleads(s: Cluster, id: nat)
    requires Inv(s) && Guard(Any, s, SeeResult(id)) && SessionJob(s, id) in s.jobs
    requires s.jobs[SessionJob(s, id)].succeeded == 0
    ensures !ResultsTrue(Next(s, SeeResult(id)))
  {
    hide Inv, JobName;
    CollectingAfter(s, SeeResult(id), id, Target(s, id));
    assert JobFor(Next(s, SeeResult(id)), Target(s, id));
  }

  lemma StartMisleads(s: Cluster, id: nat, other: nat)
    requires Inv(s) && Guard(Any, s, StartJob(id)) && SessionJob(s, id) !in s.jobs
    requires Collecting(s, other, Target(s, id))
    ensures !ResultsTrue(Next(s, StartJob(id)))
  {
    hide Inv, JobName;
    CollectingAfter(s, StartJob(id), other, Target(s, id));
    assert JobFor(Next(s, StartJob(id)), Target(s, id));
  }

  lemma ResultStaysTrue(s: Cluster, a: Action, id: nat, b: string)
    requires Inv(s) && ResultsTrue(s) && Guard(Any, s, a) && !Misleads(s, a)
    requires Collecting(Next(s, a), id, b) && JobFor(Next(s, a), b)
    ensures Next(s, a).jobs[JobName(b)].succeeded > 0
  {
    hide Inv, Next, JobName;
    CollectingBefore(s, a, id, b);
    JobChange(s, a, b);
    StartsWhileNoneCollects(s, a, id, b);
  }

  lemma StartsWhileNoneCollects(s: Cluster, a: Action, id: nat, b: string)
    requires Guard(Any, s, a) && !Misleads(s, a)
    ensures a.StartJob? && SessionOn(s, a.id, b) && !JobFor(s, b) ==> !Collecting(s, id, b)
  {
    hide JobName;
    if a.StartJob? && SessionOn(s, a.id, b) && !JobFor(s, b) {
      assert Target(s, a.id) == b;
    }
  }

  /** Any step keeps the results true if and only if it does not mislead. */
  lemma ResultsTrueStepIff(s: Cluster, a: Action)
    requires Inv(s) && ResultsTrue(s) && Guard(Any, s, a)
    ensures ResultsTrue(Next(s, a)) <==> !Misleads(s, a)
  {
    hide Inv, Next, JobName, Collecting;
    if Misleads(s, a) {
      if a.SeeResult? {
        SeeMisleads(s, a.id);
      } else {
        var other :| Collecting(s, other, Target(s, a.id));
        StartMisleads(s, a.id, other);
      }
    } else {
      forall id, b | Collecting(Next(s, a), id, b) && JobFor(Next(s, a), b)
        ensures Next(s, a).jobs[JobName(b)].succeeded > 0
      {
        ResultStaysTrue(s, a, id, b);
      }
    }
  }

  // --- Runs -------------------------------------------------------------------------------

  ghost predicate Orderly(s: Cluster) {
    JobsReleased(s) && ResultsTrue(s)
  }

  /** A step that neither misfires nor misleads. */
  ghost predicate OrderlyStep(s: Cluster, a: Action) {
    Guard(Any, s, a) && !Misfires(s, a) && !Misleads(s, a)
  }

  lemma StartsOrderly()
    ensures Orderly(EMPTY)
  {}

  /**
    Up to state n all jobs are on released devices and all results are true if and only if
    no step so far misfired or misled.
    */
  lemma {:induction false} OrderlyRunIff(disc: Discipline, run: seq<Cluster>, actions: seq<Action>, n: nat)
    requires IsRunOf(disc, run, actions) && n < |run|
    ensures (forall i :: 0 <= i <= n ==> Orderly(run[i])) <==>
      (forall i :: 0 <= i < n ==> OrderlyStep(run[i], actions[i]))
  {
    hide Inv, Guard, Next, JobsReleased, ResultsTrue, Misfires, Misleads, IsRun;
    if n == 0 {
      StartsOrderly();
    } else {
      OrderlyRunIff(disc, run, actions, n - 1);
      RunOfIsRun(disc, run, actions);
      RunKeepsInv(disc, run, n - 1);
      assert Takes(run[n - 1], actions[n - 1], run[n - 1 + 1]);
      if Orderly(run[n - 1]) {
        JobsReleasedStepIff(run[n - 1], actions[n - 1]);
        ResultsTrueStepIff(run[n - 1], actions[n - 1]);
      }
    }
  }

  /** A fresh and exclusive discipline has no such step. */
  lemma SerialStepIsOrderly(s: Cluster, a: Action)
    requires Inv(s) && CleanInv(s) && Guard(Serial, s, a) && Guard(Any, s, a)
    ensures OrderlyStep(s, a)
  {
    hide Inv, IsReleased, DeviceWrite, JobName;
    if a.StartJob? || a.FreeDevice? || a.SeeResult? {
      assert SessionOn(s, a.id, Target(s, a.id));
    }
  }

  // --- Cleanup before reuse in every orderly run ----------------------------------------------

  /** A reconcile that is done cleaning collected its job at some step. */
  lemma {:induction false} CollectedAt(disc: Discipline, run: seq<Cluster>, actions: seq<Action>, i: nat, id: nat)
    returns (k: nat)
    requires IsRunOf(disc, run, actions) && i < |run| && id in run[i].sessions && run[i].sessions[id].cleaned
    ensures k < i && actions[k] == TakeResult(id) && id in run[k].sessions
    ensures run[k].sessions[id].vb == run[i].sessions[id].vb
    decreases i
  {
    hide Guard, Inv, DeviceWrite, ClaimWrite, Stored;
    assert Takes(run[i - 1], actions[i - 1], run[i - 1 + 1]);
    SessionsBefore(run[i - 1], actions[i - 1], id);
    k := i - 1;
    if actions[i - 1] != TakeResult(id) {
      k := CollectedAt(disc, run, actions, i - 1, id);
    } else {
      TakesExisting(run[i - 1], id);
    }
  }

  lemma TakesExisting(s: Cluster, id: nat)
    requires Guard(Any, s, TakeResult(id))
    ensures id in s.sessions && s.sessions[id].vb in s.deviceLog && Collecting(s, id, Target(s, id))
    ensures JobFor(s, Target(s, id))
  {}

  /** A version that is current now has been current since it was written. */
  lemma CurrentBefore(s: Cluster, a: Action, b: string, v: nat)
    requires Inv(s) && Guard(Any, s, a) && v in s.deviceLog && CurrentDevice(Next(s, a), b, v)
    ensures CurrentDevice(s, b, v)
  {
    hide Guard, DeviceWrite, ClaimWrite, JobsAfter, IntentsAfter, SessionsAfter, Monotone, Backed, IntentsOk;
    hide JobLogAfter;
    hide SessionsOk, DeviceOk, ClaimOk;
    OneWrite(s, a);
  }

  lemma {:induction false} VersionStays(disc: Discipline, run: seq<Cluster>, actions: seq<Action>, k: nat, i: nat,
                                        v: nat)
    requires IsRunOf(disc, run, actions) && k <= i < |run| && v in run[k].deviceLog
    ensures v in run[i].deviceLog && run[i].deviceLog[v] == run[k].deviceLog[v]
    decreases i
  {
    hide Inv, Guard, Next, IsRun;
    if k < i {
      VersionStays(disc, run, actions, k, i - 1, v);
      RunOfIsRun(disc, run, actions);
      RunKeepsInv(disc, run, i - 1);
      assert Takes(run[i - 1], actions[i - 1], run[i - 1 + 1]);
      LogGrows(run[i - 1], actions[i - 1]);
    }
  }

  /** A device at a released version has been released as long as that version is known. */
  lemma {:induction false} ReleasedSince(disc: Discipline, run: seq<Cluster>, actions: seq<Action>, k: nat, i: nat,
                                         b: string, v: nat)
    requires IsRunOf(disc, run, actions) && k <= i < |run| && v in run[k].deviceLog
    requires run[k].deviceLog[v].claimState == Released && CurrentDevice(run[i], b, v)
    ensures forall j :: k <= j <= i ==> IsReleased(run[j], b)
    decreases i
  {
    hide Inv, Guard, Next, IsRun;
    VersionStays(disc, run, actions, k, i, v);
    if k < i {
      VersionStays(disc, run, actions, k, i - 1, v);
      RunOfIsRun(disc, run, actions);
      RunKeepsInv(disc, run, i - 1);
      assert Takes(run[i - 1], actions[i - 1], run[i - 1 + 1]);
      CurrentBefore(run[i - 1], actions[i - 1], b, v);
      ReleasedSince(disc, run, actions, k, i - 1, b, v);
    }
  }

  ghost predicate Unfinished(s: Cluster, b: string) {
    JobFor(s, b) && s.jobs[JobName(b)].succeeded == 0
  }

  ghost predicate Finished(s: Cluster, b: string) {
    JobFor(s, b) && s.jobs[JobName(b)].succeeded > 0
  }

  /** A job that exists was started and has existed since. */
  lemma {:induction false} JobSince(disc: Discipline, run: seq<Cluster>, actions: seq<Action>, k: nat, b: string)
    returns (w: nat)
    requires IsRunOf(disc, run, actions) && k < |run| && JobFor(run[k], b)
    ensures w <= k && (forall j :: w <= j <= k ==> JobFor(run[j], b)) && Unfinished(run[w], b)
    decreases k
  {
    hide Guard, Next, JobName;
    assert Takes(run[k - 1], actions[k - 1], run[k - 1 + 1]);
    JobChange(run[k - 1], actions[k - 1], b);
    if JobFor(run[k - 1], b) {
      w := JobSince(disc, run, actions, k - 1, b);
    } else {
      w := k;
    }
  }

  /** A release follows a use. */
  lemma {:induction false} UsedBefore(disc: Discipline, run: seq<Cluster>, actions: seq<Action>, i: nat, b: string)
    returns (r: nat)
    requires IsRunOf(disc, run, actions) && i < |run| && IsReleased(run[i], b)
    ensures r < i && LifeOf(run[r], b).InUse? && forall j :: r < j <= i ==> IsReleased(run[j], b)
    decreases i
  {
    hide Guard, Next, Inv, GivenUpBy, WantedBy, JobFor, Collected, IsRun, DeviceAt;
    NothingReleased(b);
    RunOfIsRun(disc, run, actions);
    Lifecycle(disc, run, i - 1, b);
    if IsReleased(run[i - 1], b) {
      r := UsedBefore(disc, run, actions, i - 1, b);
    } else {
      r := i - 1;
    }
  }

  lemma NothingReleased(b: string)
    ensures !IsReleased(EMPTY, b)
  {}

  /**
    Cleanup before reuse without any discipline: in a run in which no step misfires or
    misleads, a release ends only after a cleanup job was created and succeeded within it.
    */
  lemma OrderlyRunsCleanBeforeReuse(disc: Discipline, run: seq<Cluster>, actions: seq<Action>, i: nat, b: string)
    requires IsRunOf(disc, run, actions) && i < |actions|
    requires forall j :: 0 <= j < i ==> OrderlyStep(run[j], actions[j])
    requires IsReleased(run[i], b) && !IsReleased(run[i + 1], b)
    ensures exists r, w, k :: CleanedInThisRelease(run, b, r, w, k, i)
  {
    hide Guard, Next, Inv, IsRun, JobName, OrderlyStep;
    RunOfIsRun(disc, run, actions);
    RunKeepsInv(disc, run, i);
    OrderlyRunIff(disc, run, actions, i);
    assert Takes(run[i], actions[i], run[i + 1]);
    ReleaseEnds(run[i], actions[i], b);
    var id := actions[i].id;
    var k := CollectedAt(disc, run, actions, i, id);
    CollectedWhileReleased(disc, run, actions, k, i, id, b);
    var w := JobSince(disc, run, actions, k, b);
    var r := UsedBefore(disc, run, actions, i, b);
    RestOfRelease(run, b, r, w, k, i);
  }

  /** The job was collected within the release that ends, and had succeeded. */
  lemma CollectedWhileReleased(disc: Discipline, run: seq<Cluster>, actions: seq<Action>, k: nat, i: nat, id: nat,
                               b: string)
    requires IsRunOf(disc, run, actions) && k < i < |actions| && Orderly(run[k]) && Inv(run[i])
    requires actions[k] == TakeResult(id) && id in run[k].sessions && SessionOn(run[i], id, b)
    requires run[k].sessions[id].vb == run[i].sessions[id].vb && Guard(Any, run[i], actions[i])
    requires actions[i] == FreeDevice(id) && IsReleased(run[i], b) && Takes(run[i], actions[i], run[i + 1])
    requires !IsReleased(run[i + 1], b)
    ensures Finished(run[k], b)
    ensures forall j :: k <= j <= i ==> IsReleased(run[j], b)
  {
    hide Next, IsRun, JobName;
    var v := run[i].sessions[id].vb;
    assert Takes(run[k], actions[k], run[k + 1]);
    TakesExisting(run[k], id);
    VersionStays(disc, run, actions, k, i, v);
    DeviceAtNext(run[i], actions[i], b);
    assert CurrentDevice(run[i], b, v);
    hide Inv, Guard;
    SessionReadReleased(disc, run, actions, k, id);
    ReleasedSince(disc, run, actions, k, i, b, v);
  }

  lemma SessionReadReleased(disc: Discipline, run: seq<Cluster>, actions: seq<Action>, k: nat, id: nat)
    requires IsRunOf(disc, run, actions) && k < |run| && id in run[k].sessions
    ensures run[k].sessions[id].vb in run[k].deviceLog
    ensures run[k].deviceLog[run[k].sessions[id].vb].claimState == Released
  {
    hide Guard, Next, IsRun;
    RunOfIsRun(disc, run, actions);
    RunKeepsInv(disc, run, k);
  }

  lemma RestOfRelease(run: seq<Cluster>, b: string, r: nat, w: nat, k: nat, i: nat)
    requires w <= k < i < |run| && r < i && LifeOf(run[r], b).InUse?
    requires (forall j :: r < j <= i ==> IsReleased(run[j], b))
    requires (forall j :: w <= j <= k ==> JobFor(run[j], b)) && Unfinished(run[w], b)
    requires Finished(run[k], b) && (forall j :: k <= j <= i ==> IsReleased(run[j], b))
    requires forall j :: 0 <= j <= i ==> Orderly(run[j])
    ensures CleanedInThisRelease(run, b, r, w, k, i)
  {
    hide JobName, ResultsTrue, Collected;
    assert forall j :: w <= j <= k ==> IsReleased(run[j], b);
    assert !IsReleased(run[r], b);
  }

  // --- Without any discipline -------------------------------------------------------------

  /** Whoever saw a result saw that of a job which once succeeded. */
  ghost predicate SeenLogged(s: Cluster) {
    forall id, b :: SessionOn(s, id, b) && (s.sessions[id].seen || s.sessions[id].cleaned) ==>
      EverSucceeded(s.jobLog, JobName(b))
  }

  lemma JobLogGrows(s: Cluster, a: Action)
    requires Guard(Any, s, a)
    ensures s.jobLog <= JobLogAfter(s, a)
  {
    hide JobName;
  }

  lemma SeesLogged(s: Cluster, a: Action)
    requires Guard(Any, s, a) && a.SeeResult?
    ensures SessionOn(s, a.id, Target(s, a.id)) && EverSucceeded(s.jobLog, JobName(Target(s, a.id)))
  {
    hide JobName, EverSucceeded;
  }

  lemma TakesSeen(s: Cluster, a: Action)
    requires Guard(Any, s, a) && a.TakeResult?
    ensures a.id in s.sessions && s.sessions[a.id].seen
  {
    hide JobName;
  }

  /** A reconcile that has seen a result after a step had seen one before, or has just seen it. */
  lemma SeenBefore(s: Cluster, a: Action, id: nat, b: string)
    requires Inv(s) && Guard(Any, s, a) && SessionOn(Next(s, a), id, b)
    requires Next(s, a).sessions[id].seen || Next(s, a).sessions[id].cleaned
    ensures SessionOn(s, id, b) && (s.sessions[id].seen || s.sessions[id].cleaned || a == SeeResult(id))
  {
    hide Inv, Guard, DeviceWrite, ClaimWrite, JobsAfter, JobLogAfter, IntentsAfter, SessionsAfter, Stored;
    InvParts(s);
    StoredAdds(s, a);
    SessionsBefore(s, a, id);
    if a.TakeResult? { TakesSeen(s, a); }
  }

  lemma SeenWasLogged(s: Cluster, a: Action, id: nat, b: string)
    requires Inv(s) && SeenLogged(s) && Guard(Any, s, a) && SessionOn(Next(s, a), id, b)
    requires Next(s, a).sessions[id].seen || Next(s, a).sessions[id].cleaned
    ensures EverSucceeded(s.jobLog, JobName(b))
  {
    hide Inv, Guard, Next, JobName, EverSucceeded;
    SeenBefore(s, a, id, b);
    if a.SeeResult? { SeesLogged(s, a); }
  }

  lemma SeenStaysLogged(s: Cluster, a: Action)
    requires Inv(s) && SeenLogged(s) && Guard(Any, s, a)
    ensures SeenLogged(Next(s, a))
  {
    hide Inv, Guard, DeviceWrite, ClaimWrite, JobsAfter, JobLogAfter, IntentsAfter, SessionsAfter, Stored, JobName;
    JobLogGrows(s, a);
    var t := Next(s, a);
    forall id, b | SessionOn(t, id, b) && (t.sessions[id].seen || t.sessions[id].cleaned)
      ensures EverSucceeded(t.jobLog, JobName(b))
    {
      SeenWasLogged(s, a, id, b);
    }
  }

  lemma {:induction false} RunKeepsSeenLogged(disc: Discipline, run: seq<Cluster>, actions: seq<Action>, i: nat)
    requires IsRunOf(disc, run, actions) && i < |run|
    ensures SeenLogged(run[i])
  {
    hide Inv, Guard, Next, IsRun, EverSucceeded, JobName;
    if i > 0 {
      RunKeepsSeenLogged(disc, run, actions, i - 1);
      RunOfIsRun(disc, run, actions);
      RunKeepsInv(disc, run, i - 1);
      assert Takes(run[i - 1], actions[i - 1], run[i - 1 + 1]);
      SeenStaysLogged(run[i - 1], actions[i - 1]);
    }
  }

  /** A success is logged when the job has it. */
  lemma FirstSuccess(s: Cluster, a: Action, b: string)
    requires Guard(Any, s, a)
    requires !EverSucceeded(s.jobLog, JobName(b)) && EverSucceeded(Next(s, a).jobLog, JobName(b))
    ensures Finished(Next(s, a), b)
  {
    hide DeviceWrite, ClaimWrite, IntentsAfter, SessionsAfter, Stored, JobName;
    var v :| v in JobLogAfter(s, a) && v.name == JobName(b) && v.succeeded > 0;
    assert v !in s.jobLog;
  }

  lemma {:induction false} SucceededAt(disc: Discipline, run: seq<Cluster>, actions: seq<Action>, i: nat, b: string)
    returns (k: nat)
    requires IsRunOf(disc, run, actions) && i < |run| && EverSucceeded(run[i].jobLog, JobName(b))
    ensures k <= i && Finished(run[k], b)
    decreases i
  {
    hide Guard, Next, JobName, Finished;
    assert Takes(run[i - 1], actions[i - 1], run[i - 1 + 1]);
    if EverSucceeded(run[i - 1].jobLog, JobName(b)) {
      k := SucceededAt(disc, run, actions, i - 1, b);
    } else {
      FirstSuccess(run[i - 1], actions[i - 1], b);
      k := i;
    }
  }

  /**
    Whatever is read and however reconciles overlap, no release ends before some cleanup job of
    that device has succeeded; only that it did so within this release needs orderly steps.
    */
  lemma NeverFreedUncleaned(disc: Discipline, run: seq<Cluster>, i: nat, b: string)
    requires IsRun(disc, run) && i + 1 < |run|
    requires IsReleased(run[i], b) && !IsReleased(run[i + 1], b)
    ensures exists k :: 0 <= k <= i && Finished(run[k], b)
  {
    hide Guard, Next, Inv, IsRun, JobName, EverSucceeded, IsReleased, Finished;
    var actions := ActionsOf(disc, run);
    RunKeepsInv(disc, run, i);
    assert Takes(run[i], actions[i], run[i + 1]);
    ReleaseEnds(run[i], actions[i], b);
    RunKeepsSeenLogged(disc, run, actions, i);
    var k := SucceededAt(disc, run, actions, i, b);
  }
}
