/**
  Reconciles that are carried through.  Conservation does not need uninterrupted
  reconciles: it is enough that every write to a device is followed, at any time and
  between any other steps, by the write to its claim.
  */
module Completion {
  import opened Objects
  import opened Protocol
  import opened Invariant
  import opened ClaimSafety
  import opened Conservation

  /** The first write of a claim reconcile goes through: device b becomes that of ref. */
  ghost predicate TakesHold(run: seq<Cluster>, j: nat, b: string, ref: ClaimRef) {
    j + 1 < |run| && Holder(run[j], b) != Some(ref) && Holder(run[j + 1], b) == Some(ref)
  }

  /** The first write of a release reconcile goes through. */
  ghost predicate DropsHold(run: seq<Cluster>, j: nat, b: string, ref: ClaimRef) {
    j + 1 < |run| && Holder(run[j], b) == Some(ref) && Holder(run[j + 1], b) != Some(ref)
  }

  /** The second write of a claim reconcile goes through. */
  ghost predicate Binds(run: seq<Cluster>, k: nat, c: string, to: Binding) {
    k + 1 < |run| && Holding(run[k], c) != Some(to) && Holding(run[k + 1], c) == Some(to)
  }

  /** The second write of a release reconcile goes through. */
  ghost predicate Unbinds(run: seq<Cluster>, k: nat, c: string, uid: nat) {
    k + 1 < |run| && Holding(run[k], c).Some? && Holding(run[k], c).value.uid == uid && Holding(run[k + 1], c) == None
  }

  /** Before state n, every first write that went through was followed by its second. */
  ghost predicate Completed(run: seq<Cluster>, n: nat) {
    && (forall j: nat, b, ref :: j < n && TakesHold(run, j, b, ref) ==>
          exists k: nat :: j < k < n && Binds(run, k, ref.name, Binding(ref.uid, b)))
    && (forall j: nat, b, ref :: j < n && DropsHold(run, j, b, ref) ==>
          exists k: nat :: j < k < n && Unbinds(run, k, ref.name, ref.uid))
  }

  // --- The last change before a state --------------------------------------------------

  lemma {:induction false} LastTake(run: seq<Cluster>, n: nat, b: string, ref: ClaimRef) returns (j: nat)
    requires n < |run| && run[0] == EMPTY && Holder(run[n], b) == Some(ref)
    ensures j < n && TakesHold(run, j, b, ref) && forall i :: j < i <= n ==> Holder(run[i], b) == Some(ref)
    decreases n
  {
    assert n > 0;
    if Holder(run[n - 1], b) == Some(ref) {
      j := LastTake(run, n - 1, b, ref);
    } else {
      j := n - 1;
    }
  }

  lemma {:induction false} LastBind(run: seq<Cluster>, n: nat, c: string, to: Binding) returns (k: nat)
    requires n < |run| && run[0] == EMPTY && Holding(run[n], c) == Some(to)
    ensures k < n && Binds(run, k, c, to) && forall i :: k < i <= n ==> Holding(run[i], c) == Some(to)
    decreases n
  {
    assert n > 0;
    if Holding(run[n - 1], c) == Some(to) {
      k := LastBind(run, n - 1, c, to);
    } else {
      k := n - 1;
    }
  }

  lemma {:induction false} FirstDrop(run: seq<Cluster>, k: nat, n: nat, b: string, ref: ClaimRef) returns (j: nat)
    requires k <= n < |run| && Holder(run[k], b) == Some(ref) && Holder(run[n], b) != Some(ref)
    ensures k <= j < n && DropsHold(run, j, b, ref)
    decreases n - k
  {
    hide Holder;
    if Holder(run[k + 1], b) == Some(ref) {
      j := FirstDrop(run, k + 1, n, b, ref);
    } else {
      j := k;
    }
  }

  lemma {:induction false} FirstLoss(run: seq<Cluster>, k: nat, n: nat, c: string, to: Binding) returns (i: nat)
    requires k <= n < |run| && Holding(run[k], c) == Some(to) && Holding(run[n], c) != Some(to)
    ensures k <= i < n && Holding(run[i], c) == Some(to) && Holding(run[i + 1], c) != Some(to)
    decreases n - k
  {
    hide Holding;
    if Holding(run[k + 1], c) == Some(to) {
      i := FirstLoss(run, k + 1, n, c, to);
    } else {
      i := k;
    }
  }

  // --- What the changes are ------------------------------------------------------------

  /** A state of a run satisfies the invariant, and its step is the action taken. */
  lemma At(disc: Discipline, run: seq<Cluster>, actions: seq<Action>, i: nat)
    requires IsRunOf(disc, run, actions) && i < |run|
    ensures Inv(run[i]) && (i < |actions| ==> Takes(run[i], actions[i], run[i + 1]))
  {
    hide Guard, Next, Inv, IsRun;
    RunOfIsRun(disc, run, actions);
    RunKeepsInv(disc, run, i);
  }

  lemma {:induction false} ClaimStays(disc: Discipline, run: seq<Cluster>, actions: seq<Action>, k: nat, i: nat, v: nat)
    requires IsRunOf(disc, run, actions) && k <= i < |run| && v in run[k].claimLog
    ensures v in run[i].claimLog && run[i].claimLog[v] == run[k].claimLog[v]
    decreases i
  {
    hide Inv, Guard, Next;
    if k < i {
      ClaimStays(disc, run, actions, k, i - 1, v);
      At(disc, run, actions, i - 1);
      ClaimLogGrows(run[i - 1], actions[i - 1]);
    }
  }

  lemma ClaimLogGrows(s: Cluster, a: Action)
    requires Inv(s) && Guard(Any, s, a)
    ensures Extends(s.claimLog, Next(s, a).claimLog)
  {
    hide Inv, Guard, DeviceWrite, ClaimWrite, Stored;
    StoredAdds(s, a);
  }

  /** A hold is taken for the claim that some known version of it asked for. */
  lemma TakenFor(s: Cluster, a: Action, b: string, ref: ClaimRef) returns (vc: nat)
    requires Inv(s) && Guard(Any, s, a) && Holder(s, b) != Some(ref) && Holder(Next(s, a), b) == Some(ref)
    ensures vc in s.claimLog && ref == ClaimRef(BlockDeviceClaimKind, s.claimLog[vc].name, s.claimLog[vc].uid)
  {
    hide Inv, Guard, Next, DeviceWrite, Holder;
    HolderNext(s, a, b);
    VersionsRead(s, a);
    vc := a.vc;
  }

  /** A bind that goes through finds a claim not yet bound, and its device held for it. */
  lemma BindFinds(s: Cluster, a: Action, c: string, to: Binding)
    requires Inv(s) && Guard(Any, s, a) && Holding(s, c) != Some(to) && Holding(Next(s, a), c) == Some(to)
    ensures s.HasClaim(c) && s.Claim(c).name == c && s.Claim(c).uid == to.uid && s.Claim(c).phase != Bound
    ensures HeldBy(s, to.device, to.uid)
  {
    hide Inv, Guard, Next, ClaimWrite, Holding;
    HoldingNext(s, a, c);
    BindReads(s, a);
  }

  lemma BindReads(s: Cluster, a: Action)
    requires Inv(s) && Guard(Any, s, a) && a.BindClaim? && ClaimWrite(s, a).Some?
    ensures a.vc in s.claimLog && SearchesDevice(s.claimLog[a.vc]) && CurrentClaim(s, s.claimLog[a.vc].name, a.vc)
    ensures HeldBy(s, a.deviceName, s.claimLog[a.vc].uid)
  {
    hide Monotone, Backed, SessionsOk, ClaimsStored, DevicesStored;
    assert IntentOk(s, Bind(a.vc, a.deviceName));
  }

  /** A binding is only lost to an unbind of its claim. */
  lemma LostToUnbind(s: Cluster, a: Action, c: string, to: Binding)
    requires Inv(s) && Guard(Any, s, a) && Holding(s, c) == Some(to) && Holding(Next(s, a), c) != Some(to)
    ensures a.UnbindClaim? && Unbind(a.vc) in s.intents && a.vc in s.claimLog
    ensures s.claimLog[a.vc].name == c && s.claimLog[a.vc].uid == to.uid
  {
    hide Inv, Guard, Next, ClaimWrite;
    HoldingNext(s, a, c);
    if a.BindClaim? && ClaimWrite(s, a).Some? { BindReads(s, a); }
    if a.UnbindClaim? && ClaimWrite(s, a).Some? { UnbindReads(s, a); }
  }

  lemma UnbindReads(s: Cluster, a: Action)
    requires Guard(Any, s, a) && a.UnbindClaim? && ClaimWrite(s, a).Some?
    ensures Unbind(a.vc) in s.intents && a.vc in s.claimLog && CurrentClaim(s, s.claimLog[a.vc].name, a.vc)
  {}

  /** An unbind that becomes pending follows the release of a device of its claim. */
  lemma UnbindBegins(s: Cluster, a: Action, vc: nat) returns (b: string)
    requires Inv(s) && Guard(Any, s, a) && Unbind(vc) in Next(s, a).intents && Unbind(vc) !in s.intents
    ensures vc in s.claimLog && ReadyToRelease(s.claimLog[vc])
    ensures var ref := ClaimRef(BlockDeviceClaimKind, s.claimLog[vc].name, s.claimLog[vc].uid);
            Holder(s, b) == Some(ref) && Holder(Next(s, a), b) != Some(ref)
  {
    hide Inv, DeviceWrite, ClaimWrite, Stored, Holder;
    b := s.deviceLog[a.vb].name;
    ReleaseReads(s, a);
    hide Guard, Next;
    HolderNext(s, a, b);
  }

  lemma ReleaseReads(s: Cluster, a: Action)
    requires Inv(s) && Guard(Any, s, a) && a.ReleaseDevice? && DeviceWrite(s, a).Some?
    ensures a.vc in s.claimLog && a.vb in s.deviceLog
    ensures Holder(s, s.deviceLog[a.vb].name) ==
      Some(ClaimRef(BlockDeviceClaimKind, s.claimLog[a.vc].name, s.claimLog[a.vc].uid))
  {
    hide Monotone, Backed, IntentsOk, SessionsOk, Count;
  }

  lemma {:induction false} UnbindFollowsDrop(disc: Discipline, run: seq<Cluster>, actions: seq<Action>, i: nat, vc: nat)
    returns (j: nat, b: string)
    requires IsRunOf(disc, run, actions) && i < |run| && Unbind(vc) in run[i].intents
    ensures j < i && vc in run[j].claimLog && ReadyToRelease(run[j].claimLog[vc])
    ensures DropsHold(run, j, b, ClaimRef(BlockDeviceClaimKind, run[j].claimLog[vc].name, run[j].claimLog[vc].uid))
    decreases i
  {
    hide Inv, Guard, Next, Holder;
    At(disc, run, actions, i - 1);
    if Unbind(vc) in run[i - 1].intents {
      j, b := UnbindFollowsDrop(disc, run, actions, i - 1, vc);
    } else {
      j := i - 1;
      b := UnbindBegins(run[j], actions[j], vc);
    }
  }

  // --- A claim is bound once -----------------------------------------------------------

  /** Once some version of a claim was bound, no bind of that claim goes through. */
  lemma BoundOnce(disc: Discipline, run: seq<Cluster>, actions: seq<Action>, i: nat, v: nat, k: nat, c: string,
                  to: Binding)
    requires IsRunOf(disc, run, actions) && i <= k < |run| && v in run[i].claimLog
    requires run[i].claimLog[v].phase == Bound && run[i].claimLog[v].uid == to.uid
    ensures !Binds(run, k, c, to)
  {
    hide Guard, Next, Inv, Holding;
    ClaimStays(disc, run, actions, i, k, v);
    if Binds(run, k, c, to) {
      At(disc, run, actions, k);
      BindFinds(run[k], actions[k], c, to);
      NewestNow(run[k], c, v);
      assert false;
    }
  }

  lemma NewestNow(s: Cluster, c: string, v: nat)
    requires Inv(s) && s.HasClaim(c) && v in s.claimLog && s.claimLog[v].uid == s.Claim(c).uid
    ensures Precedes(s.claimLog[v], s.Claim(c))
  {
    assert Newest(s.claimLog, s.Claim(c));
  }

  /** A claim is bound to one device in all of a run. */
  lemma BoundToOne(disc: Discipline, run: seq<Cluster>, actions: seq<Action>, i: nat, j: nat, c: string, x: Binding,
                   d: string, y: Binding)
    requires IsRunOf(disc, run, actions) && i <= j < |run| && x.uid == y.uid
    requires Holding(run[i], c) == Some(x) && Holding(run[j], d) == Some(y)
    ensures x == y
  {
    hide Guard, Next, Inv;
    ClaimStays(disc, run, actions, i, j, run[i].claims[c]);
    At(disc, run, actions, j);
    NewestNow(run[j], d, run[i].claims[c]);
  }

  // --- Completed runs are matched ----------------------------------------------------------

  lemma HeldIsBound(disc: Discipline, run: seq<Cluster>, actions: seq<Action>, n: nat, b: string, ref: ClaimRef)
    requires IsRunOf(disc, run, actions) && n < |run| && Completed(run, n) && Holder(run[n], b) == Some(ref)
    ensures Holding(run[n], ref.name) == Some(Binding(ref.uid, b))
  {
    hide IsRunOf, Holder, Holding;
    StartsEmpty(disc, run, actions);
    var to := Binding(ref.uid, b);
    var j := LastTake(run, n, b, ref);
    var k :| j < k < n && Binds(run, k, ref.name, to);
    if Holding(run[n], ref.name) != Some(to) {
      var i := FirstLoss(run, k + 1, n, ref.name, to);
      BindingIsKept(disc, run, actions, n, b, ref, j, k, i);
      assert false;
    }
  }

  lemma StartsEmpty(disc: Discipline, run: seq<Cluster>, actions: seq<Action>)
    requires IsRunOf(disc, run, actions)
    ensures |run| == |actions| + 1 && run[0] == EMPTY
  {}

  /** A binding cannot be lost while the device bound by it stays held. */
  lemma BindingIsKept(disc: Discipline, run: seq<Cluster>, actions: seq<Action>, n: nat, b: string, ref: ClaimRef,
                      j: nat, k: nat, i: nat)
    requires IsRunOf(disc, run, actions) && n < |run| && Completed(run, n) && j < k < i < n
    requires TakesHold(run, j, b, ref) && (forall m :: j < m <= n ==> Holder(run[m], b) == Some(ref))
    requires Binds(run, k, ref.name, Binding(ref.uid, b)) && Holding(run[i], ref.name) == Some(Binding(ref.uid, b))
    ensures Holding(run[i + 1], ref.name) == Some(Binding(ref.uid, b))
  {
    hide Guard, Next, Inv, Holder, Holding;
    var to := Binding(ref.uid, b);
    if Holding(run[i + 1], ref.name) != Some(to) {
      At(disc, run, actions, i);
      LostToUnbind(run[i], actions[i], ref.name, to);
      var vc := actions[i].vc;
      var l, e := UnbindFollowsDrop(disc, run, actions, i, vc);
      ClaimStays(disc, run, actions, l, i, vc);
      TakenKind(disc, run, actions, j, b, ref);
      DroppedIsSame(disc, run, actions, n, k, l, e, b, ref);
      BoundOnce(disc, run, actions, l, vc, k, ref.name, to);
      assert false;
    }
  }

  lemma TakenKind(disc: Discipline, run: seq<Cluster>, actions: seq<Action>, j: nat, b: string, ref: ClaimRef)
    requires IsRunOf(disc, run, actions) && TakesHold(run, j, b, ref)
    ensures ref.kind == BlockDeviceClaimKind
  {
    hide Guard, Next, Inv, Holder;
    At(disc, run, actions, j);
    var vc := TakenFor(run[j], actions[j], b, ref);
  }

  /** A device released by a claim that was bound is the one it was bound to. */
  lemma DroppedIsSame(disc: Discipline, run: seq<Cluster>, actions: seq<Action>, n: nat, k: nat, l: nat, e: string,
                      b: string, ref: ClaimRef)
    requires IsRunOf(disc, run, actions) && n < |run| && Completed(run, n) && l < n && k < n
    requires DropsHold(run, l, e, ref) && Binds(run, k, ref.name, Binding(ref.uid, b))
    ensures e == b
  {
    hide Guard, Next, Inv, Holder, Holding;
    var m := LastTake(run, l, e, ref);
    var o :| m < o < n && Binds(run, o, ref.name, Binding(ref.uid, e));
    if o <= k {
      BoundToOne(disc, run, actions, o + 1, k + 1, ref.name, Binding(ref.uid, e), ref.name, Binding(ref.uid, b));
    } else {
      BoundToOne(disc, run, actions, k + 1, o + 1, ref.name, Binding(ref.uid, b), ref.name, Binding(ref.uid, e));
    }
  }

  lemma BoundIsHeld(disc: Discipline, run: seq<Cluster>, actions: seq<Action>, n: nat, c: string, to: Binding)
    requires IsRunOf(disc, run, actions) && n < |run| && Completed(run, n) && Holding(run[n], c) == Some(to)
    ensures Holder(run[n], to.device) == Some(ClaimRef(BlockDeviceClaimKind, c, to.uid))
  {
    hide Guard, Next, Inv, Holder, Holding;
    var ref := ClaimRef(BlockDeviceClaimKind, c, to.uid);
    var k := LastBind(run, n, c, to);
    HeldWhenBound(disc, run, actions, k, c, to);
    if Holder(run[n], to.device) != Some(ref) {
      var j := FirstDrop(run, k, n, to.device, ref);
      assert false;
    }
  }

  lemma HeldWhenBound(disc: Discipline, run: seq<Cluster>, actions: seq<Action>, k: nat, c: string, to: Binding)
    requires IsRunOf(disc, run, actions) && Binds(run, k, c, to)
    ensures Holder(run[k], to.device) == Some(ClaimRef(BlockDeviceClaimKind, c, to.uid))
  {
    hide Guard, Next, Inv, Holding;
    At(disc, run, actions, k);
    BindFinds(run[k], actions[k], c, to);
    var ref := Holder(run[k], to.device).value;
    var j := LastTake(run, k, to.device, ref);
    At(disc, run, actions, j);
    var vc := TakenFor(run[j], actions[j], to.device, ref);
    ClaimStays(disc, run, actions, j, k, vc);
    NewestNow(run[k], c, vc);
  }

  /**
    Conservation with interruptions, stale reads and any interleaving: where every device
    write was followed by its claim write, bound claims and claimed devices correspond.
    */
  lemma CompletedIsMatched(disc: Discipline, run: seq<Cluster>, n: nat)
    requires IsRun(disc, run) && n < |run| && Completed(run, n)
    ensures Matched(run[n])
  {
    hide IsRun, IsRunOf, Holder, Holding, Completed;
    var actions := ActionsOf(disc, run);
    var s := run[n];
    forall c | Holding(s, c).Some?
      ensures Holder(s, Holding(s, c).value.device) == Some(ClaimRef(BlockDeviceClaimKind, c, Holding(s, c).value.uid))
    {
      BoundIsHeld(disc, run, actions, n, c, Holding(s, c).value);
    }
    forall b | Holder(s, b).Some?
      ensures Holding(s, Holder(s, b).value.name) == Some(Binding(Holder(s, b).value.uid, b))
    {
      HeldIsBound(disc, run, actions, n, b, Holder(s, b).value);
    }
  }
}
