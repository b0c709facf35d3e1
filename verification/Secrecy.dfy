/** A preseeded VM has its Secret, and a private key that was cleared from it does not come back. */
module Secrecy {
  import opened Text
  import opened Matcher
  import opened Model
  import opened Intent
  import opened Reconcile
  import opened Consistency
  import opened Keyring
  import opened World
  import opened Turns

  lemma ExecuteKeepsCleared(o: Object, s: Scene, p: Plan, i: Input)
    requires Consistent(o, s.marks) && s.marks.keyCleared
    ensures Execute(s, p, i).scene.marks.keyCleared
  {
  }

  lemma ClearOnlyClears(s: Scene, i: Input)
    requires s.marks.keyCleared
    ensures ClearPreseedKey(s, i, 0).scene.marks.keyCleared
  {
  }

  lemma ReconcileKeepsCleared(g: Foreign, o: Object, s: Scene, hash: string, i: Input)
    requires Consistent(o, s.marks) && Wellformed(i) && hash != "" && s.marks.keyCleared
    ensures ReconcileVm(g, o, s, hash, i).scene.marks.keyCleared
  {
    hide ClearPreseedKey, Acquire, Execute, ChainPlan, FindConfig, Managed, ChainConsistent, MayAcquire;
    if Managed(o) && i.configs.Some? && FindConfig(i.configs.value).Some? && !o.deleting {
      var cfg := FindConfig(i.configs.value).value;
      ClearKeeps(o, s, i);
      var c := if o.seen.guestSignalled || TimedOut(o, cfg, i.now) then ClearPreseedKey(s, i, 0) else Stop(s, 0);
      assert c.scene.marks.keyCleared by { ClearOnlyClears(s, i); }
      if c.scene.marks.keyStatus.Accepted? {
        ExecuteKeepsCleared(o, AddFinalizer(c.scene, i, 0).scene, ChainPlan(g, o, c.scene.marks, cfg, hash, i), i);
      } else {
        var _ := AcquireObtains(g, o, c.scene, cfg, i);
      }
    }
  }

  /** The VM with this UID, wherever it is, has its key cleared. */
  ghost predicate ClearedUid(w: World, uid: string) {
    uid in w.uids && forall j :: j in w.vms && w.vms[j].obj.uid == uid ==> w.vms[j].marks.keyCleared
  }

  lemma StepKeepsClearedUid(g: Foreign, w: World, step: Step, uid: string)
    requires Inv(w) && Valid(g, w, step) && ClearedUid(w, uid)
    ensures ClearedUid(Apply(g, w, step), uid)
  {
    hide ReconcileVm, IntentHash, Consistent, SecretFresh, Orphans, Live;
    if step.Reconciles? && step.k in w.vms && w.vms[step.k].obj.uid == uid {
      assert VmOk(w, step.k);
      ReconcileKeepsCleared(g, w.vms[step.k].obj, SceneOf(w, step.k), IntentHash(g, w.vms[step.k].obj.tenant), step.i);
    }
  }

  lemma {:induction false} RunKeepsClearedUid(g: Foreign, w: World, steps: seq<Step>, uid: string)
    requires Inv(w) && ValidRun(g, w, steps) && ClearedUid(w, uid)
    ensures ClearedUid(Run(g, w, steps), uid)
    decreases |steps|
  {
    hide Inv, Valid, Apply, ClearedUid;
    if steps != [] {
      StepKeepsInv(g, w, steps[0]);
      StepKeepsClearedUid(g, w, steps[0], uid);
      RunKeepsClearedUid(g, Apply(g, w, steps[0]), steps[1..], uid);
    }
  }

  /** Cleared for good: once a VM is marked key-cleared, in every later state of every run in which
      that VM exists the mark is there and its Secret, if any, holds no key. */
  lemma ClearedForGood(g: Foreign, w0: World, early: seq<Step>, late: seq<Step>, j: Name, k: Name)
    requires Initial(w0) && ValidRun(g, w0, early) && ValidRun(g, Run(g, w0, early), late)
    requires var w := Run(g, w0, early); j in w.vms && w.vms[j].marks.keyCleared
    requires var w, w' := Run(g, w0, early), Run(g, Run(g, w0, early), late);
             k in w'.vms && w'.vms[k].obj.uid == w.vms[j].obj.uid
    ensures var w' := Run(g, Run(g, w0, early), late);
            w'.vms[k].marks.keyCleared && IsCleared(SecretOf(w', k))
  {
    hide Run, ValidRun, Consistent;
    var w := Run(g, w0, early);
    RunKeepsInv(g, w0, early);
    RunKeepsInv(g, w, late);
    var uid := w.vms[j].obj.uid;
    assert VmOk(w, j);
    forall n | n in w.vms && w.vms[n].obj.uid == uid ensures w.vms[n].marks.keyCleared {
      assert n == j || Apart(w.vms[n], w.vms[j]);
    }
    RunKeepsClearedUid(g, w, late, uid);
    assert VmOk(Run(g, w, late), k);
  }

  /** Written for the VM it belongs to: in every state of every run a preseeded VM that is not being
      deleted has its own Secret, and that is either cleared or holds exactly the pair the master
      accepted for it. A VM that is marked Preseeded is such a VM. */
  lemma PreseededHasItsSecret(g: Foreign, w0: World, steps: seq<Step>, k: Name)
    requires Initial(w0) && ValidRun(g, w0, steps) && k in Run(g, w0, steps).vms
    ensures var w := Run(g, w0, steps);
            var o, m, secret := w.vms[k].obj, w.vms[k].marks, SecretOf(w, k);
            && (m.keyStatus.Preseeded? ==> m.how == ByPreseed)
            && (m.how == ByPreseed && !o.deleting ==>
                  && m.minionId == o.name && OwnSecret(o, o.name, secret)
                  && (IsCleared(secret) || HoldsPair(o, o.name, w.keys, secret)))
            && (m.keyCleared ==> IsCleared(secret))
  {
    hide Run, ValidRun, ChainConsistent;
    RunKeepsInv(g, w0, steps);
    assert VmOk(Run(g, w0, steps), k);
  }

  // ---------------------------------------------------------------- held until cleared

  /** A VM that becomes preseeded has its pair in its Secret. */
  lemma BecomesPreseeded(g: Foreign, o: Object, s: Scene, hash: string, i: Input)
    requires Consistent(o, s.marks) && Wellformed(i) && hash != "" && s.marks.how != ByPreseed
    requires ReconcileVm(g, o, s, hash, i).scene.marks.how == ByPreseed
    ensures var r := ReconcileVm(g, o, s, hash, i).scene; HoldsPair(o, r.marks.minionId, r.keys, r.secret)
  {
    hide ClearPreseedKey, Acquire, Converge, FindConfig, Managed, ChainConsistent, MayAcquire;
    if i.configs.Some? && FindConfig(i.configs.value).Some? && !o.deleting {
      var cfg := FindConfig(i.configs.value).value;
      NothingToClear(s, i);
      if s.marks.keyStatus.Accepted? { ConvergeChainOnly(g, o, s, cfg, hash, i); }
      else { var _ := AcquireObtains(g, o, s, cfg, i); }
    }
  }

  /** The VM with this UID, once preseeded, has exactly its accepted pair in its Secret. */
  ghost predicate Holding(w: World, uid: string) {
    forall k :: k in w.vms && w.vms[k].obj.uid == uid && w.vms[k].marks.how == ByPreseed && !w.vms[k].obj.deleting ==>
      HoldsPair(w.vms[k].obj, w.vms[k].marks.minionId, w.keys, SecretOf(w, k))
  }

  /** A reconcile of that VM in which the key is due to be cleared. */
  ghost predicate ClearsIn(w: World, step: Step, uid: string) {
    && step.Reconciles? && step.k in w.vms && w.vms[step.k].obj.uid == uid && w.vms[step.k].marks.how == ByPreseed
    && step.i.configs.Some? && FindConfig(step.i.configs.value).Some?
    && ClearDue(w.vms[step.k].obj, w.vms[step.k].marks, FindConfig(step.i.configs.value).value, step.i)
  }

  ghost function Clearing(uid: string): (World, Step) -> bool {
    (w, step) => ClearsIn(w, step, uid)
  }

  lemma OwnReconcileHolds(g: Foreign, w: World, k: Name, i: Input)
    requires Inv(w) && k in w.vms && Truthful(w, i) && Holding(w, w.vms[k].obj.uid)
    requires !ClearsIn(w, Reconciles(k, i), w.vms[k].obj.uid)
    ensures var o, r := w.vms[k].obj, ResultOf(g, w, k, i).scene;
            r.marks.how == ByPreseed && !o.deleting ==> HoldsPair(o, r.marks.minionId, r.keys, r.secret)
  {
    hide ReconcileVm, IntentHash, SecretFresh, FindConfig, ClearDue, ChainConsistent, MayAcquire;
    var o, s, hash := w.vms[k].obj, SceneOf(w, k), IntentHash(g, w.vms[k].obj.tenant);
    var r := ResultOf(g, w, k, i).scene;
    assert VmOk(w, k);
    TruthfulIsWellformed(w, i);
    if s.marks.how == ByPreseed {
      SecretIsLeftAlone(g, o, s, hash, i);
      var _ := ReconcileKeyEffect(g, o, s, hash, i);
    } else if r.marks.how == ByPreseed {
      BecomesPreseeded(g, o, s, hash, i);
    }
  }

  /** A preseeded VM that is not being deleted records a live key. */
  lemma PreseededIsLive(w: World, k: Name)
    requires Inv(w) && k in w.vms && w.vms[k].marks.how == ByPreseed && !w.vms[k].obj.deleting
    ensures Live(w.vms[k])
  {
    hide SecretFresh, ChainConsistent;
    assert VmOk(w, k);
  }

  lemma ReconcileHolds(g: Foreign, w: World, k: Name, i: Input, uid: string)
    requires Inv(w) && k in w.vms && Truthful(w, i) && Holding(w, uid) && !ClearsIn(w, Reconciles(k, i), uid)
    ensures Holding(Apply(g, w, Reconciles(k, i)), uid)
  {
    hide ReconcileVm, IntentHash, VmOk, Truthful, ClearsIn, Live;
    var w' := Apply(g, w, Reconciles(k, i));
    ReconcileSparesOthers(g, w, k, i);
    if w.vms[k].obj.uid == uid { OwnReconcileHolds(g, w, k, i); }
    forall j | j in w'.vms && j != k && w'.vms[j].obj.uid == uid && w'.vms[j].marks.how == ByPreseed &&
               !w'.vms[j].obj.deleting
      ensures HoldsPair(w'.vms[j].obj, w'.vms[j].marks.minionId, w'.keys, SecretOf(w', j))
    {
      PreseededIsLive(w, j);
    }
  }

  lemma StepHolds(g: Foreign, w: World, step: Step, uid: string)
    requires Inv(w) && Valid(g, w, step) && Holding(w, uid) && !ClearsIn(w, step, uid)
    ensures Holding(Apply(g, w, step), uid)
  {
    hide ReconcileVm, IntentHash, VmOk, Orphans, ClearDue, FindConfig;
    if step.Reconciles? && step.k in w.vms {
      ReconcileHolds(g, w, step.k, step.i, uid);
    } else {
      forall j | j in w.vms && w.vms[j].marks.how == ByPreseed && !w.vms[j].obj.deleting ensures Live(w.vms[j]) {
        PreseededIsLive(w, j);
      }
    }
  }

  lemma {:induction false} RunHolds(g: Foreign, w: World, steps: seq<Step>, uid: string)
    requires Inv(w) && ValidRun(g, w, steps) && Holding(w, uid) && Never(g, w, steps, Clearing(uid))
    ensures Holding(Run(g, w, steps), uid)
    decreases |steps|
  {
    hide Inv, Valid, Apply, Holding, ClearsIn;
    if steps != [] {
      StepKeepsInv(g, w, steps[0]);
      StepHolds(g, w, steps[0], uid);
      RunHolds(g, Apply(g, w, steps[0]), steps[1..], uid);
    }
  }

  /** Held until cleared: in every run, from its preseeding until the first reconcile in which the guest
      has signalled, its time is up or a ping settled it, a VM has in its Secret exactly the pair the
      master accepted for it. */
  lemma HeldUntilCleared(g: Foreign, w0: World, steps: seq<Step>, k: Name)
    requires Initial(w0) && ValidRun(g, w0, steps) && k in Run(g, w0, steps).vms
    requires Never(g, w0, steps, Clearing(Run(g, w0, steps).vms[k].obj.uid))
    requires var vm := Run(g, w0, steps).vms[k]; vm.marks.how == ByPreseed && !vm.obj.deleting
    ensures var w := Run(g, w0, steps);
            HoldsPair(w.vms[k].obj, w.vms[k].marks.minionId, w.keys, SecretOf(w, k))
  {
    hide Run, ValidRun, Never, Inv;
    InitialIsFine(w0);
    RunHolds(g, w0, steps, Run(g, w0, steps).vms[k].obj.uid);
  }
}
