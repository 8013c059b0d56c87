/**
  Cleanup before reuse.  Under the Serial discipline every run moves every device
  along a small automaton in which the only way from in use back to free leads
  through a cleanup job that was created, succeeded and was collected.
  */
module Cleanup {
  import opened Objects
  import opened Protocol
  import opened Invariant
  import opened ClaimSafety

  ghost predicate JobFor(s: Cluster, b: string) {
    JobName(b) in s.jobs
  }

  ghost predicate IsReleased(s: Cluster, b: string) {
    DeviceAt(s, b).Some? && DeviceAt(s, b).value.claimState == Released
  }

  /** Cleanup reconcile `id` is working on device b. */
  ghost predicate SessionOn(s: Cluster, id: nat, b: string) {
    id in s.sessions && s.sessions[id].vb in s.deviceLog && s.deviceLog[s.sessions[id].vb].name == b
  }

  ghost predicate Collected(s: Cluster, b: string) {
    exists id :: SessionOn(s, id, b) && s.sessions[id].cleaned
  }

  /** Jobs and reconciles only where the device is released; one reconcile per device. */
  ghost predicate CleanInv(s: Cluster) {
    && (forall b :: JobFor(s, b) ==> IsReleased(s, b))
    && (forall id, b :: SessionOn(s, id, b) ==> IsReleased(s, b))
    && (forall id, b :: SessionOn(s, id, b) && s.sessions[id].cleaned ==> !JobFor(s, b))
    && (forall id, b :: SessionOn(s, id, b) && s.sessions[id].seen && JobFor(s, b) ==> s.jobs[JobName(b)].succeeded > 0)
    && (forall id, other, b :: SessionOn(s, id, b) && SessionOn(s, other, b) ==> id == other)
  }

  // --- The automaton -------------------------------------------------------

  datatype Life =
    | Absent
    | Free
    | InUse(ref: Option<ClaimRef>)
    | Dirty       // released, no job
    | Wiping      // a job exists and has not succeeded
    | Wiped       // a job exists and has succeeded
    | Clean       // the successful job was collected by the reconcile that will free the device

  ghost function LifeOf(s: Cluster, b: string): Life {
    match DeviceAt(s, b)
    case None => Absent
    case Some(d) =>
      match d.claimState
      case Unclaimed => Free
      case Claimed => InUse(d.spec.claimRef)
      case Released =>
        if JobFor(s, b) then (if s.jobs[JobName(b)].succeeded > 0 then Wiped else Wiping)
        else if Collected(s, b) then Clean
        else Dirty
  }

  predicate Edge(before: Life, after: Life) {
    || before == after
    || (before.Absent? && after.Free?)
    || (before.Free? && (after.Absent? || after.InUse?))
    || (before.InUse? && after.Dirty?)
    || (before.Dirty? && after.Wiping?)
    || (before.Wiping? && (after.Dirty? || after.Wiped?))
    || (before.Wiped? && (after.Dirty? || after.Clean?))
    || (before.Clean? && (after.Dirty? || after.Free? || after.Absent?))
  }

  // --- Every step keeps CleanInv and follows an edge -------------------------

  /** Only freeing a device by a reconcile that saw cleanup succeed ends its release. */
  lemma ReleaseEnds(s: Cluster, a: Action, b: string)
    requires Inv(s) && Guard(Any, s, a) && IsReleased(s, b) && !IsReleased(Next(s, a), b)
    ensures a.FreeDevice? && SessionOn(s, a.id, b) && s.sessions[a.id].cleaned
  {
    DeviceAtNext(s, a, b);
    WrittenWhileReleased(s, a, b);
  }

  lemma WrittenWhileReleased(s: Cluster, a: Action, b: string)
    requires Inv(s) && Guard(Any, s, a) && IsReleased(s, b)
    ensures var w := DeviceWrite(s, a);
            w.Some? && w.value.name == b ==>
              || (a.FreeDevice? && SessionOn(s, a.id, b) && s.sessions[a.id].cleaned)
              || (w.value.claimState == Released && w.value.finalizers != [])
  {
    hide Inv, DeviceOk;
    var w := DeviceWrite(s, a);
    if w.Some? && w.value.name == b && !a.FreeDevice? {
      WrittenStaysReleased(s, a, b);
      hide Guard, DeviceWrite;
      DeviceWriteOk(s, a);
      ReleasedIsProtected(w.value);
    }
  }

  lemma ReleasedIsProtected(d: BlockDevice)
    requires DeviceOk(d) && d.claimState == Released
    ensures d.finalizers != []
  {
    assert DeviceProtection in d.finalizers;
  }

  lemma WrittenStaysReleased(s: Cluster, a: Action, b: string)
    requires Inv(s) && Guard(Any, s, a) && IsReleased(s, b) && DeviceWrite(s, a).Some?
    requires DeviceWrite(s, a).value.name == b && !a.FreeDevice?
    ensures DeviceWrite(s, a).value.claimState == Released
  {
    hide Monotone, Backed, ClaimsStored, IntentsOk, SessionsOk, DeviceOk, Count;
  }

  /** A reconcile at work after a step was at work before, or has just read the released device. */
  lemma SessionBefore(s: Cluster, a: Action, id: nat, b: string)
    requires Inv(s) && Guard(Serial, s, a) && Guard(Any, s, a) && SessionOn(Next(s, a), id, b)
    ensures if a.BeginClean? && a.id == id
            then IsReleased(s, b) && !Next(s, a).sessions[id].seen && !Next(s, a).sessions[id].cleaned &&
                 forall other :: !SessionOn(s, other, b)
            else SessionOn(s, id, b) && !((a.FreeDevice? || a.EndClean?) && a.id == id) &&
                 Next(s, a).sessions[id].seen == (s.sessions[id].seen || (a.SeeResult? && a.id == id)) &&
                 Next(s, a).sessions[id].cleaned == (s.sessions[id].cleaned || (a.TakeResult? && a.id == id))
  {
    hide Inv, Guard, DeviceWrite, ClaimWrite, JobsAfter, JobLogAfter, IntentsAfter, SessionsAfter, Stored, DeviceAt;
    InvParts(s);
    StoredAdds(s, a);
    SessionsBefore(s, a, id);
    if a.BeginClean? && a.id == id { BegunOnReleased(s, a, b); }
  }

  /** Where the sessions after an action come from. */
  lemma SessionsBefore(s: Cluster, a: Action, id: nat)
    requires Guard(Any, s, a) && id in SessionsAfter(s, a)
    ensures if a.BeginClean? && a.id == id then SessionsAfter(s, a)[id] == Session(a.vb, false, false)
            else id in s.sessions && !((a.FreeDevice? || a.EndClean?) && a.id == id) &&
                 SessionsAfter(s, a)[id] == Session(s.sessions[id].vb,
                   s.sessions[id].seen || (a.SeeResult? && a.id == id),
                   s.sessions[id].cleaned || (a.TakeResult? && a.id == id))
  {
    hide ReadyToRelease, SearchesDevice, RequestedBy, ClaimEdit, DeviceEdit;
  }

  lemma BegunOnReleased(s: Cluster, a: Action, b: string)
    requires Inv(s) && a.BeginClean? && Guard(Serial, s, a) && (a.vb in s.deviceLog ==> s.deviceLog[a.vb].name == b)
    ensures a.vb in s.deviceLog && IsReleased(s, b) && forall other :: !SessionOn(s, other, b)
  {}

  /** A reconcile at work before a step is at work after it, unless it ended. */
  lemma SessionAfter(s: Cluster, a: Action, id: nat, b: string)
    requires Inv(s) && Guard(Any, s, a) && SessionOn(s, id, b)
    requires !((a.FreeDevice? || a.EndClean?) && a.id == id)
    ensures SessionOn(Next(s, a), id, b)
    ensures Next(s, a).sessions[id].cleaned == (s.sessions[id].cleaned || (a.TakeResult? && a.id == id))
  {
    hide Monotone, Backed, ClaimsStored, IntentsOk, DeviceWrite, ClaimWrite, JobsAfter, IntentsAfter, DeviceOk, Stored;
    hide JobLogAfter;
    StoredAdds(s, a);
  }

  /** How an action changes the job of device b, whatever was read. */
  lemma JobChange(s: Cluster, a: Action, b: string)
    requires Guard(Any, s, a)
    ensures JobFor(Next(s, a), b) ==>
      || (&& a.StartJob? && SessionOn(s, a.id, b) && !s.sessions[a.id].seen && !s.sessions[a.id].cleaned
          && !JobFor(s, b) && Next(s, a).jobs[JobName(b)] == Job(0))
      || (JobFor(s, b) && Next(s, a).jobs[JobName(b)].succeeded >= s.jobs[JobName(b)].succeeded)
    ensures JobFor(s, b) && !JobFor(Next(s, a), b) ==>
      && (a.CancelJob? || a.TakeResult? || a.JobVanishes?)
      && (a.TakeResult? ==> SessionOn(s, a.id, b) && s.sessions[a.id].seen)
    ensures a.TakeResult? && SessionOn(s, a.id, b) ==> s.sessions[a.id].seen && JobFor(s, b) && !JobFor(Next(s, a), b)
  {
    hide DeviceWrite, ClaimWrite, IntentsAfter, SessionsAfter, Stored, JobName;
    forall c | JobName(c) == JobName(b) ensures c == b {
      assert JobName(c)[8..] == JobName(b)[8..];
    }
  }

  /** With fresh reads of the job, a result is only seen of a job that has succeeded. */
  lemma JobBefore(s: Cluster, a: Action, b: string)
    requires Guard(Serial, s, a) && Guard(Any, s, a)
    ensures JobFor(Next(s, a), b) ==>
      || (&& a.StartJob? && SessionOn(s, a.id, b) && !s.sessions[a.id].seen && !s.sessions[a.id].cleaned
          && !JobFor(s, b) && Next(s, a).jobs[JobName(b)] == Job(0))
      || (JobFor(s, b) && Next(s, a).jobs[JobName(b)].succeeded >= s.jobs[JobName(b)].succeeded)
    ensures JobFor(s, b) && !JobFor(Next(s, a), b) ==>
      && (a.CancelJob? || a.TakeResult? || a.JobVanishes?)
      && (a.TakeResult? ==> SessionOn(s, a.id, b) && s.sessions[a.id].seen)
    ensures a.TakeResult? && SessionOn(s, a.id, b) ==> s.sessions[a.id].seen && JobFor(s, b) && !JobFor(Next(s, a), b)
    ensures a.SeeResult? && SessionOn(s, a.id, b) ==> JobFor(s, b) && s.jobs[JobName(b)].succeeded > 0
  {
    hide Next, JobName;
    JobChange(s, a, b);
  }

  lemma StepKeepsCleanInv(s: Cluster, a: Action)
    requires Inv(s) && CleanInv(s) && Guard(Serial, s, a) && Guard(Any, s, a)
    ensures CleanInv(Next(s, a))
  {
    hide Inv, Guard, Next, IsReleased;
    var t := Next(s, a);
    forall b | IsReleased(s, b) && (JobFor(t, b) || exists id :: SessionOn(t, id, b))
      ensures IsReleased(t, b)
    {
      if !IsReleased(t, b) { StillReleased(s, a, b); }
    }
    forall b | JobFor(t, b) ensures IsReleased(t, b) {
      JobBefore(s, a, b);
    }
    forall id, b | SessionOn(t, id, b) ensures IsReleased(t, b) {
      SessionBefore(s, a, id, b);
    }
    forall id, b | SessionOn(t, id, b) && t.sessions[id].cleaned ensures !JobFor(t, b) {
      SessionBefore(s, a, id, b);
      JobBefore(s, a, b);
    }
    forall id, b | SessionOn(t, id, b) && t.sessions[id].seen && JobFor(t, b) ensures t.jobs[JobName(b)].succeeded > 0 {
      SessionBefore(s, a, id, b);
      JobBefore(s, a, b);
    }
    forall id, other, b | SessionOn(t, id, b) && SessionOn(t, other, b) ensures id == other {
      SessionBefore(s, a, id, b);
      SessionBefore(s, a, other, b);
    }
  }

  /** When the release of b ends, neither a job nor a reconcile is left behind. */
  lemma StillReleased(s: Cluster, a: Action, b: string)
    requires Inv(s) && CleanInv(s) && Guard(Serial, s, a) && Guard(Any, s, a)
    requires IsReleased(s, b) && !IsReleased(Next(s, a), b)
    ensures !JobFor(Next(s, a), b) && forall id :: !SessionOn(Next(s, a), id, b)
  {
    hide Inv, Guard, Next, IsReleased, SessionOn, JobFor;
    ReleaseEnds(s, a, b);
    JobBefore(s, a, b);
    forall id ensures !SessionOn(Next(s, a), id, b) {
      if SessionOn(Next(s, a), id, b) {
        SessionBefore(s, a, id, b);
      }
    }
  }

  /** Within a release, a step follows an edge of the automaton. */
  lemma ReleasedStepRefines(s: Cluster, a: Action, b: string)
    requires Inv(s) && CleanInv(s) && Guard(Serial, s, a) && Guard(Any, s, a)
    requires IsReleased(s, b) && IsReleased(Next(s, a), b)
    ensures Edge(LifeOf(s, b), LifeOf(Next(s, a), b))
  {
    hide Inv, Guard, Next, DeviceAt, JobFor, SessionOn;
    var t := Next(s, a);
    JobBefore(s, a, b);
    CollectedBefore(s, a, b);
  }

  lemma CollectedBefore(s: Cluster, a: Action, b: string)
    requires Inv(s) && CleanInv(s) && Guard(Serial, s, a) && Guard(Any, s, a)
    ensures Collected(Next(s, a), b) && !Collected(s, b) ==>
      a.TakeResult? && JobFor(s, b) && s.jobs[JobName(b)].succeeded > 0
    ensures a.TakeResult? && SessionOn(s, a.id, b) ==> Collected(Next(s, a), b)
  {
    hide Inv, Guard, Next, DeviceAt, IsReleased;
    var t := Next(s, a);
    if Collected(t, b) && !Collected(s, b) {
      var id :| SessionOn(t, id, b) && t.sessions[id].cleaned;
      SessionBefore(s, a, id, b);
      JobBefore(s, a, b);
    }
    if a.TakeResult? && SessionOn(s, a.id, b) {
      SessionAfter(s, a, a.id, b);
    }
  }

  lemma StepRefines(s: Cluster, a: Action, b: string)
    requires Inv(s) && CleanInv(s) && Guard(Serial, s, a) && Guard(Any, s, a)
    ensures Edge(LifeOf(s, b), LifeOf(Next(s, a), b))
  {
    hide Inv, Guard, Next, DeviceAt, JobFor, SessionOn, GivenUpBy, WantedBy;
    StepTurns(s, a, b);
    StepKeepsCleanInv(s, a);
    var t := Next(s, a);
    if IsReleased(s, b) && IsReleased(t, b) {
      ReleasedStepRefines(s, a, b);
    } else if IsReleased(s, b) {
      ReleaseEnds(s, a, b);
    } else if IsReleased(t, b) {
      FirstReleased(s, a, b);
    }
  }

  /** A device that has just been released has neither job nor reconcile. */
  lemma FirstReleased(s: Cluster, a: Action, b: string)
    requires Inv(s) && CleanInv(s) && Guard(Serial, s, a) && Guard(Any, s, a)
    requires !IsReleased(s, b) && IsReleased(Next(s, a), b)
    ensures LifeOf(Next(s, a), b) == Dirty
  {
    hide Inv, Guard, Next, DeviceAt, SessionOn;
    JobBefore(s, a, b);
    CollectedBefore(s, a, b);
  }

  // --- Runs ----------------------------------------------------------------

  lemma StartsClean()
    ensures CleanInv(EMPTY)
  {}

  lemma {:induction false} RunKeepsCleanInv(run: seq<Cluster>, i: nat)
    requires IsRun(Serial, run) && i < |run|
    ensures CleanInv(run[i])
  {
    hide CleanInv, Inv, Guard, Next;
    if i == 0 {
      StartsClean();
    } else {
      RunKeepsCleanInv(run, i - 1);
      RunKeepsInv(Serial, run, i - 1);
      var a := TakenBy(Serial, run[i - 1], run[i]);
      StepKeepsCleanInv(run[i - 1], a);
    }
  }

  /** Every run, seen from one device, is a path of the automaton. */
  lemma RunRefines(run: seq<Cluster>, i: nat, b: string)
    requires IsRun(Serial, run) && i + 1 < |run|
    ensures Edge(LifeOf(run[i], b), LifeOf(run[i + 1], b))
  {
    hide CleanInv, Inv, Guard, Next, Edge, LifeOf;
    RunKeepsInv(Serial, run, i);
    RunKeepsCleanInv(run, i);
    var a := TakenBy(Serial, run[i], run[i + 1]);
    StepRefines(run[i], a, b);
  }

  /** No cleanup job exists for a device that is claimed, unclaimed or gone. */
  lemma JobsOnlyWhileReleased(run: seq<Cluster>, i: nat, b: string)
    requires IsRun(Serial, run) && i < |run| && JobFor(run[i], b)
    ensures IsReleased(run[i], b)
  {
    RunKeepsCleanInv(run, i);
  }

  /** Version v of device b was released and active. */
  ghost predicate ReadActive(s: Cluster, b: string, v: nat) {
    && v in s.deviceLog && s.deviceLog[v].name == b
    && s.deviceLog[v].claimState == Released && s.deviceLog[v].state == Active
  }

  /** A job is only ever started for a released device that its reconcile had read as active. */
  lemma JobsStartOnActiveDevices(run: seq<Cluster>, i: nat, b: string)
    requires IsRun(Serial, run) && i + 1 < |run| && !JobFor(run[i], b) && JobFor(run[i + 1], b)
    ensures IsReleased(run[i], b)
    ensures exists id :: SessionOn(run[i], id, b) && ReadActive(run[i], b, run[i].sessions[id].vb)
  {
    hide Next, Guard, Inv;
    RunKeepsInv(Serial, run, i);
    RunKeepsCleanInv(run, i);
    var a := TakenBy(Serial, run[i], run[i + 1]);
    JobBefore(run[i], a, b);
    StartsOnActive(run[i], a, b);
    assert SessionOn(run[i], a.id, b);
  }

  lemma StartsOnActive(s: Cluster, a: Action, b: string)
    requires Inv(s) && a.StartJob? && Guard(Serial, s, a) && SessionOn(s, a.id, b)
    ensures ReadActive(s, b, s.sessions[a.id].vb)
  {}

  /** Claimed at r, released from then until i, a job running at w and succeeded at k in between. */
  ghost predicate CleanedInThisRelease(run: seq<Cluster>, b: string, r: nat, w: nat, k: nat, i: nat) {
    && r < w <= k <= i < |run|
    && LifeOf(run[r], b).InUse?
    && (forall j :: r < j <= i ==> IsReleased(run[j], b))
    && LifeOf(run[w], b) == Wiping && LifeOf(run[k], b) == Wiped
  }

  /** While a device is past the start of cleanup, this release already saw a job start and succeed. */
  lemma {:induction false} CleanedSince(run: seq<Cluster>, i: nat, b: string) returns (r: nat, w: nat, k: nat)
    requires IsRun(Serial, run) && i < |run| && IsReleased(run[i], b)
    ensures r < i && LifeOf(run[r], b).InUse? && forall j :: r < j <= i ==> IsReleased(run[j], b)
    ensures LifeOf(run[i], b).Wiping? || LifeOf(run[i], b).Wiped? || LifeOf(run[i], b).Clean? ==>
      r < w <= i && LifeOf(run[w], b) == Wiping
    ensures LifeOf(run[i], b).Wiped? || LifeOf(run[i], b).Clean? ==> w <= k <= i && LifeOf(run[k], b) == Wiped
  {
    hide IsRun, JobFor, Collected;
    NotReleasedAtStart(run, b);
    RunRefines(run, i - 1, b);
    w, k := 0, 0;
    if IsReleased(run[i - 1], b) {
      r, w, k := CleanedSince(run, i - 1, b);
    } else {
      r := i - 1;
    }
    if LifeOf(run[i], b).Wiping? { w := i; }
    if LifeOf(run[i], b).Wiped? { k := i; }
  }

  lemma NotReleasedAtStart(run: seq<Cluster>, b: string)
    requires IsRun(Serial, run)
    ensures !IsReleased(run[0], b)
  {}

  /**
    Cleanup before reuse: whenever the release of a device ends, a cleanup job was
    created and succeeded within that same release.
    */
  lemma CleanupBeforeReuse(run: seq<Cluster>, i: nat, b: string)
    requires IsRun(Serial, run) && i + 1 < |run|
    requires IsReleased(run[i], b) && !IsReleased(run[i + 1], b)
    ensures exists r, w, k :: CleanedInThisRelease(run, b, r, w, k, i)
  {
    hide IsRun, JobFor, Collected;
    RunRefines(run, i, b);
    var r, w, k := CleanedSince(run, i, b);
    assert CleanedInThisRelease(run, b, r, w, k, i);
  }
}
