/** A deleted VM is let go, as long as its finalizer comes with a minion ID. */
module Release {
  import opened Text
  import opened Matcher
  import opened Model
  import opened Intent
  import opened Reconcile
  import opened Consistency
  import opened Keyring
  import opened World
  import opened Progress
  import opened Wakeups

  // ---------------------------------------------------------------- one reconcile

  /** A deleting VM under a Ready config loses its finalizer in exactly those reconciles that find a
      minion ID recorded, have a client or nothing left to delete, and can write. */
  lemma DeletedVmIsReleasedIff(g: Foreign, o: Object, s: Scene, hash: string, i: Input)
    requires o.deleting && Managed(o) && i.configs.Some? && FindConfig(i.configs.value).Some? && s.finalizer
    ensures !ReconcileVm(g, o, s, hash, i).scene.finalizer <==>
            s.marks.minionId != "" && (i.client || s.marks.keyStatus == KeyDeleted) && Finalizer !in i.lost
  {
    hide FindConfig, Managed;
  }

  /** A deletion that is dropped without a word, neither failing nor asking to be called again while
      the finalizer stays: exactly when the VM is not managed, has no Ready config, records no minion
      ID, or has a key to delete and no client to delete it with. */
  lemma DeletionIsDroppedIff(g: Foreign, o: Object, s: Scene, hash: string, i: Input)
    requires o.deleting && s.finalizer
    ensures var r := ReconcileVm(g, o, s, hash, i);
            r.scene.finalizer && r.out == Requeue(0) <==>
            || !Managed(o)
            || (i.configs.Some? &&
                  (FindConfig(i.configs.value).None? || s.marks.minionId == "" ||
                      (!i.client && s.marks.keyStatus != KeyDeleted)))
  {
    hide FindConfig, Managed;
  }

  predicate FinalizerNamed(m: Marks, finalizer: bool) {
    finalizer ==> m.minionId != ""
  }

  /** The last write of a preseeding is lost after the finalizer was written. */
  predicate Strands(o: Object, s: Scene, cfg: Config, i: Input) {
    && Handles(o, i, cfg) && cfg.preseed && i.client && !HasKey(s.marks)
    && i.fleet.Some? && Owner(i.fleet.value, o.uid, o.name).None? && i.statesOk
    && i.generated.Some? && (i.foreignKey.None? || o.name in s.keys) && i.masterPub.Some?
    && BootstrapSecret !in i.lost && Finalizer !in i.lost && Status in i.lost
  }

  lemma AcquireNames(g: Foreign, o: Object, s: Scene, cfg: Config, i: Input)
    requires Consistent(o, s.marks) && !s.marks.keyStatus.Accepted? && FinalizerNamed(s.marks, s.finalizer)
    requires Handles(o, i, cfg)
    ensures var r := Acquire(g, o, s, cfg, i).scene; FinalizerNamed(r.marks, r.finalizer) <==> !Strands(o, s, cfg, i)
  {
    hide FindMinion, Owner, FindConfig, Managed, ChainConsistent, Stamp, Accept;
    if i.pending.Some? { MatchIsListed(g, o.name, o.seen.ip, i.pending.value); }
  }

  /** A finalizer always comes with a minion ID, exactly as long as that write is never lost. */
  lemma FinalizerNamedIff(g: Foreign, o: Object, s: Scene, hash: string, i: Input, cfg: Config)
    requires Consistent(o, s.marks) && Wellformed(i) && hash != "" && FinalizerNamed(s.marks, s.finalizer)
    requires i.configs.Some? && FindConfig(i.configs.value) == Some(cfg)
    ensures var r := ReconcileVm(g, o, s, hash, i).scene;
            FinalizerNamed(r.marks, r.finalizer) <==> !Strands(o, s, cfg, i)
  {
    hide ClearPreseedKey, Acquire, Converge, FindConfig, Managed, ChainConsistent, Owner;
    if Handles(o, i, cfg) {
      ClearKeeps(o, s, i);
      ClearKeepsFinalizer(s, i);
      if !HasKey(s.marks) { NothingToClear(s, i); }
      var c := if o.seen.guestSignalled || TimedOut(o, cfg, i.now) then ClearPreseedKey(s, i, 0) else Stop(s, 0);
      if c.scene.marks.keyStatus.Accepted? { ConvergeChainOnly(g, o, c.scene, cfg, hash, i); }
      else { AcquireNames(g, o, c.scene, cfg, i); }
    }
  }

  /** And then the VM is stuck: deleting without a minion ID, no reconcile ever changes it again, and
      the finalizer goes only if somebody takes it away by hand. */
  lemma {:induction false} StrandedForever(g: Foreign, vm: Vm, mvs: seq<Move>)
    requires vm.obj.deleting && vm.marks.minionId == "" && ProperRun(g, vm, mvs)
    ensures AfterAll(g, vm, mvs).marks == vm.marks && AfterAll(g, vm, mvs).obj.deleting
    ensures AfterAll(g, vm, mvs).finalizer == vm.finalizer ||
            exists mv :: mv in mvs && mv.Edit? && !mv.finalizer
    decreases |mvs|
  {
    hide IntentHash, FindConfig, Managed, ReconcileCreate;
    if mvs != [] { StrandedForever(g, After(g, vm, mvs[0]), mvs[1..]); }
  }

  // ---------------------------------------------------------------- over whole runs

  ghost predicate AllNamed(w: World) {
    forall k :: k in w.vms ==> FinalizerNamed(w.vms[k].marks, w.vms[k].finalizer)
  }

  ghost predicate StrandsAVm(w: World, step: Step) {
    && step.Reconciles? && step.k in w.vms && step.i.configs.Some? && FindConfig(step.i.configs.value).Some?
    && Strands(w.vms[step.k].obj, SceneOf(w, step.k), FindConfig(step.i.configs.value).value, step.i)
  }

  lemma StrandsNotDeleting(o: Object, s: Scene, cfg: Config, i: Input)
    requires Strands(o, s, cfg, i)
    ensures !o.deleting
  {
  }

  lemma NoConfigNoChange(g: Foreign, o: Object, s: Scene, hash: string, i: Input)
    requires i.configs.None? || FindConfig(i.configs.value).None?
    ensures ReconcileVm(g, o, s, hash, i).scene == s
  {
  }

  lemma ReconcileNamedIff(g: Foreign, w: World, k: Name, i: Input)
    requires Inv(w) && AllNamed(w) && k in w.vms && Truthful(w, i)
    ensures AllNamed(Apply(g, w, Reconciles(k, i))) <==> !StrandsAVm(w, Reconciles(k, i))
  {
    hide ReconcileVm, IntentHash, Consistent, SecretFresh, FindConfig, Strands;
    var o, s, w' := w.vms[k].obj, SceneOf(w, k), Apply(g, w, Reconciles(k, i));
    assert VmOk(w, k);
    if i.configs.Some? && FindConfig(i.configs.value).Some? {
      var cfg := FindConfig(i.configs.value).value;
      FinalizerNamedIff(g, o, s, IntentHash(g, o.tenant), i, cfg);
      if Strands(o, s, cfg, i) {
        assert !o.deleting by { StrandsNotDeleting(o, s, cfg, i); }
        assert k in w'.vms;
      }
    } else {
      NoConfigNoChange(g, o, s, IntentHash(g, o.tenant), i);
    }
  }

  lemma StepNamedIff(g: Foreign, w: World, step: Step)
    requires Inv(w) && Valid(g, w, step) && AllNamed(w)
    ensures AllNamed(Apply(g, w, step)) <==> !StrandsAVm(w, step)
  {
    hide ReconcileVm, IntentHash, VmOk, Strands, FindConfig, Orphans;
    if step.Reconciles? && step.k in w.vms { ReconcileNamedIff(g, w, step.k, step.i); }
  }

  ghost function Naming(): World -> bool {
    w => AllNamed(w)
  }

  ghost function Stranding(): (World, Step) -> bool {
    (w, step) => StrandsAVm(w, step)
  }

  /** In every run: in all its states every finalizer comes with a minion ID, if and only if no
      reconcile of it loses the last write of a preseeding. */
  lemma RunNamedIff(g: Foreign, w0: World, steps: seq<Step>)
    requires Initial(w0) && ValidRun(g, w0, steps)
    ensures (forall n :: 0 <= n <= |steps| ==> AllNamed(Run(g, w0, steps[..n]))) <==> Never(g, w0, steps, Stranding())
    ensures Never(g, w0, steps, Stranding()) ==> AllNamed(Run(g, w0, steps))
  {
    hide Inv, Valid, Apply, Run, ValidRun, StrandsAVm, Never;
    InitialIsFine(w0);
    forall v, step | Inv(v) && Valid(g, v, step) && AllNamed(v)
      ensures AllNamed(Apply(g, v, step)) <==> !StrandsAVm(v, step)
    {
      StepNamedIff(g, v, step);
    }
    GoodThroughoutIff(g, w0, steps, Naming(), Stranding());
    assert forall v :: Naming()(v) == AllNamed(v);
  }

  lemma DeletingAddsNoFinalizer(g: Foreign, o: Object, s: Scene, hash: string, i: Input)
    requires o.deleting && !s.finalizer
    ensures !ReconcileVm(g, o, s, hash, i).scene.finalizer
  {
    hide FindConfig, Managed;
  }

  /** So in every run without such a loss, a managed VM that is being deleted is let go by the first
      reconcile that has a Ready config and a client and whose patch of the finalizer lands. */
  lemma DeletingVmIsLetGo(g: Foreign, w0: World, steps: seq<Step>, k: Name, i: Input)
    requires Initial(w0) && ValidRun(g, w0, steps) && Never(g, w0, steps, Stranding())
    requires k in Run(g, w0, steps).vms
    requires var o := Run(g, w0, steps).vms[k].obj;
             o.deleting && Managed(o) && i.configs.Some? && FindConfig(i.configs.value).Some?
    requires i.client && Finalizer !in i.lost
    ensures !ResultOf(g, Run(g, w0, steps), k, i).scene.finalizer
  {
    hide Run, ValidRun, Never, ReconcileVm, FindConfig, Managed, Initial;
    RunNamedIff(g, w0, steps);
    var w := Run(g, w0, steps);
    var o, s, hash := w.vms[k].obj, SceneOf(w, k), IntentHash(g, w.vms[k].obj.tenant);
    if s.finalizer { DeletedVmIsReleasedIff(g, o, s, hash, i); } else { DeletingAddsNoFinalizer(g, o, s, hash, i); }
  }
}
