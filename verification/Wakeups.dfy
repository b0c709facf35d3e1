/** Nothing that waits is forgotten, and a key is obtained once. */
module Wakeups {
  import opened Text
  import opened Matcher
  import opened Model
  import opened Intent
  import opened Reconcile
  import opened Consistency
  import opened Keyring
  import opened World
  import opened Progress
  import Enforcement

  /** The config that applies to a VM, if the reconcile gets as far as acting on it. */
  predicate Handles(o: Object, i: Input, cfg: Config) {
    Managed(o) && i.configs.Some? && FindConfig(i.configs.value) == Some(cfg) && i.selected && !o.deleting
  }

  // ---------------------------------------------------------------- no lost wake-up

  predicate Underway(m: Marks) {
    m.saltStatus.Unstarted? || m.saltStatus.Pinged? || m.saltStatus.PillarRefreshed? ||
        m.saltStatus.HighstateDispatched?
  }

  /** The VM waits for something that no watch event need announce: its key, its boot, or the end
      of its chain. */
  predicate Waiting(o: Object, m: Marks, cfg: Config, now: int) {
    match m.keyStatus
    case NoKey => true
    case Preseeded => true
    case Accepted => Underway(m)
    case KeyFailed => m.how != ByPreseed && !cfg.preseed && !TimedOut(o, cfg, now)
    case _ => false
  }

  predicate Wakes(m: Marks, p: Plan) {
    Underway(if p.marks.Some? then p.marks.value else m) ==> p.after > 0
  }

  lemma PlanWakes(g: Foreign, o: Object, m: Marks, cfg: Config, hash: string, i: Input)
    requires cfg.requeue > 0
    ensures Wakes(m, ChainPlan(g, o, m, cfg, hash, i))
  {
    hide Get, Enforcement.EnforcementDue;
  }

  lemma ExecuteWakes(o: Object, s: Scene, p: Plan, i: Input)
    requires Consistent(o, s.marks) && Wakes(s.marks, p)
    ensures var r := Execute(s, p, i); r.out.Requeue? && Underway(r.scene.marks) ==> r.out.after > 0
  {
    hide ClearPreseedKey, Consistent;
    var b := if p.bulk.Some? then s.(marks := s.marks.(bulkHandled := p.bulk.value)) else s;
    BulkKeeps(o, s.marks, b.marks.bulkHandled);
    ClearKeeps(o, b.(events := b.events + p.calls), i);
  }

  lemma AcquireWakes(g: Foreign, o: Object, s: Scene, cfg: Config, i: Input)
    requires Consistent(o, s.marks) && !s.marks.keyStatus.Accepted? && !o.deleting && cfg.requeue > 0
    ensures var r := Acquire(g, o, s, cfg, i);
            r.out.Requeue? && Waiting(o, r.scene.marks, cfg, i.now) ==> r.out.after > 0
  {
    hide FindMinion, Owner;
  }

  lemma ConvergeWakes(g: Foreign, o: Object, s: Scene, cfg: Config, hash: string, i: Input)
    requires Consistent(o, s.marks) && Wellformed(i) && hash != "" && s.marks.keyStatus.Accepted? && cfg.requeue > 0
    ensures var r := Converge(g, o, s, cfg, hash, i);
            && (r.out.Requeue? && Underway(r.scene.marks) ==> r.out.after > 0)
            && r.scene.marks.keyStatus.Accepted?
  {
    hide ChainPlan, Execute, ChainConsistent;
    ConvergeChainOnly(g, o, s, cfg, hash, i);
    PlanWakes(g, o, s.marks, cfg, hash, i);
    ExecuteWakes(o, AddFinalizer(s, i, 0).scene, ChainPlan(g, o, s.marks, cfg, hash, i), i);
  }

  /** No lost wake-up: whenever a reconcile ends without an error and leaves the VM waiting, it asks
      to be called again after a positive time. */
  lemma WaitingIsWoken(g: Foreign, o: Object, s: Scene, cfg: Config, hash: string, i: Input)
    requires Consistent(o, s.marks) && Wellformed(i) && hash != "" && Handles(o, i, cfg) && cfg.requeue > 0
    ensures var r := ReconcileVm(g, o, s, hash, i);
            r.out.Requeue? && Waiting(o, r.scene.marks, cfg, i.now) ==> r.out.after > 0
  {
    hide ClearPreseedKey, Acquire, Converge, FindConfig, Managed, ChainConsistent;
    ClearKeeps(o, s, i);
    var c := if o.seen.guestSignalled || TimedOut(o, cfg, i.now) then ClearPreseedKey(s, i, 0) else Stop(s, 0);
    if c.scene.marks.keyStatus.Accepted? { ConvergeWakes(g, o, c.scene, cfg, hash, i); }
    else { AcquireWakes(g, o, c.scene, cfg, i); }
  }

  /** So in every state of every run: a truthful reconcile of a VM it handles either fails, which
      the work queue retries, or leaves nothing waiting without a timer. */
  lemma NobodyWaitsForever(g: Foreign, w0: World, steps: seq<Step>, k: Name, i: Input, cfg: Config)
    requires Initial(w0) && ValidRun(g, w0, steps) && k in Run(g, w0, steps).vms && Truthful(Run(g, w0, steps), i)
    requires Handles(Run(g, w0, steps).vms[k].obj, i, cfg) && cfg.requeue > 0
    ensures var r := ResultOf(g, Run(g, w0, steps), k, i);
            r.out.Failure? || r.out.after > 0 || !Waiting(Run(g, w0, steps).vms[k].obj, r.scene.marks, cfg, i.now)
  {
    hide Run, ValidRun, Consistent, SecretFresh, ReconcileVm, Waiting, Handles, Truthful;
    RunKeepsInv(g, w0, steps);
    var w := Run(g, w0, steps);
    assert VmOk(w, k);
    TruthfulIsWellformed(w, i);
    WaitingIsWoken(g, w.vms[k].obj, SceneOf(w, k), cfg, IntentHash(g, w.vms[k].obj.tenant), i);
  }

  lemma ReadyTurn(g: Foreign, o: Object, m: Marks, cfg: Config, hash: string, i: Input)
    requires Consistent(o, m) && Timely(m, i.now) && m.saltStatus == Ready
    requires cfg.enforcement.Some? && 0 < cfg.enforcement.value <= Enforcement.MAX
    requires Enforcement.Fits(g.seed(o.uid), o.uid, cfg.enforcement.value)
    ensures var p := ReadyPlan(g, o, m, cfg, hash, i);
            && !p.clear && p.landed == []
            && (p.marks.Some? ==> p.marks.value.saltStatus != Ready && |p.calls| > 0)
            && (p.marks.None? ==>
                  p.calls == [] && p.after > 0 &&
                  i.now + p.after == m.highstateTime.value + cfg.enforcement.value +
                                     Enforcement.Jitter(g.seed(o.uid), o.uid, cfg.enforcement.value))
  {
    hide Get, Handled, Enforcement.EnforcementDue;
    var interval := cfg.enforcement.value;
    Enforcement.WaitIsExact(interval, g.seed(o.uid), o.uid, m.highstateTime.value, i.now, i.now);
    Enforcement.WaitEnds(interval, g.seed(o.uid), o.uid, m.highstateTime.value, i.now);
  }

  /** A Ready VM under an interval that fits either starts a run or is called again when it is due. */
  lemma ReadyIsScheduled(g: Foreign, o: Object, s: Scene, cfg: Config, hash: string, i: Input)
    requires Consistent(o, s.marks) && Timely(s.marks, i.now) && Handles(o, i, cfg) && s.marks.saltStatus == Ready
    requires s.marks.keyStatus.Accepted? && i.client && i.lost == {}
    requires cfg.enforcement.Some? && 0 < cfg.enforcement.value <= Enforcement.MAX
    requires Enforcement.Fits(g.seed(o.uid), o.uid, cfg.enforcement.value)
    ensures var r := ReconcileVm(g, o, s, hash, i);
            && (r.scene.marks.saltStatus == Ready ==>
                  r.out.Requeue? && r.out.after > 0 && r.scene.events == s.events &&
                  i.now + r.out.after == s.marks.highstateTime.value + cfg.enforcement.value +
                                         Enforcement.Jitter(g.seed(o.uid), o.uid, cfg.enforcement.value))
            && (r.scene.marks.saltStatus != Ready ==> |r.scene.events| > |s.events|)
  {
    hide FindConfig, Managed, ClearPreseedKey, ReadyPlan, Enforcement.Jitter, Enforcement.Fits;
    ClearedAlready(o, s, i);
    ReadyTurn(g, o, s.marks, cfg, hash, i);
  }

  // ---------------------------------------------------------------- a key is obtained once

  predicate Obtaining(e: Event) {
    e.AcceptedFor? || e.GeneratedFor?
  }

  ghost predicate NoneObtained(es: seq<Event>) {
    forall n :: 0 <= n < |es| ==> !Obtaining(es[n])
  }

  /** Pings wait for the minion to connect, counted from the recorded acceptance. */
  ghost predicate PingsInTime(m: Marks, now: int, es: seq<Event>) {
    forall n :: 0 <= n < |es| && es[n].Pings? ==> m.acceptedAt.Some? && now >= m.acceptedAt.value + POST_ACCEPT_DELAY
  }

  ghost predicate ChainCalls(m: Marks, now: int, p: Plan) {
    NoneObtained(p.calls + p.landed) && PingsInTime(m, now, p.calls + p.landed)
  }

  lemma ReadyCalls(g: Foreign, o: Object, m: Marks, cfg: Config, hash: string, i: Input)
    ensures ChainCalls(m, i.now, ReadyPlan(g, o, m, cfg, hash, i))
  {
    hide Get, Enforcement.EnforcementDue, Handled;
  }

  lemma PlanCalls(g: Foreign, o: Object, m: Marks, cfg: Config, hash: string, i: Input)
    requires m.acceptedAt.Some?
    ensures ChainCalls(m, i.now, ChainPlan(g, o, m, cfg, hash, i))
  {
    hide Get, ReadyPlan, Asked, Handled;
    ReadyCalls(g, o, m, cfg, hash, i);
  }

  lemma ConvergeCalls(g: Foreign, o: Object, s: Scene, cfg: Config, hash: string, i: Input)
    requires s.events == [] && Consistent(o, s.marks) && s.marks.keyStatus.Accepted?
    ensures var r := Converge(g, o, s, cfg, hash, i).scene;
            NoneObtained(r.events) && PingsInTime(s.marks, i.now, r.events)
  {
    hide ChainPlan, Execute, ChainConsistent;
    var f := AddFinalizer(s, i, 0).scene;
    var p := ChainPlan(g, o, s.marks, cfg, hash, i);
    PlanCalls(g, o, s.marks, cfg, hash, i);
    ExecuteEnds(o, f, p, i);
    assert forall n :: 0 <= n < |p.calls| ==> p.calls[n] == (p.calls + p.landed)[n];
    assert [] + p.calls == p.calls;
  }

  /** Waiting for the boot of a preseeded VM makes no call. */
  lemma PreseededWaits(g: Foreign, o: Object, s: Scene, cfg: Config, i: Input)
    requires Consistent(o, s.marks) && HasKey(s.marks) && !s.marks.keyStatus.Accepted? && !o.deleting
    ensures var r := Acquire(g, o, s, cfg, i).scene;
            r.events == s.events && HasKey(r.marks) && r.marks.minionId == s.marks.minionId
  {
    hide RunPreseedKey, RunAcceptKey, ChainConsistent, Stamp;
  }

  lemma ConvergeKeepsKey(g: Foreign, o: Object, s: Scene, cfg: Config, hash: string, i: Input)
    requires Consistent(o, s.marks) && Wellformed(i) && hash != "" && s.marks.keyStatus.Accepted?
    ensures var r := Converge(g, o, s, cfg, hash, i).scene;
            HasKey(r.marks) && r.marks.minionId == s.marks.minionId
  {
    hide Converge, Consistent;
    ConvergeChainOnly(g, o, s, cfg, hash, i);
  }

  /** What a VM keeps and does not do once it records a key. */
  ghost predicate Keeps(m: Marks, now: int, r: Scene) {
    && NoneObtained(r.events) && PingsInTime(m, now, r.events)
    && HasKey(r.marks) && r.marks.minionId == m.minionId
  }

  lemma NothingObtained()
    ensures NoneObtained([])
  {
  }

  lemma CreateKeeps(g: Foreign, o: Object, s: Scene, cfg: Config, hash: string, i: Input)
    requires Consistent(o, s.marks) && Wellformed(i) && hash != "" && HasKey(s.marks) && s.events == [] && !o.deleting
    ensures Keeps(s.marks, i.now, ReconcileCreate(g, o, s, cfg, hash, i).scene)
  {
    hide ClearPreseedKey, Converge, Acquire, Consistent, NoneObtained;
    ClearKeeps(o, s, i);
    assert NoneObtained([]) by { NothingObtained(); }
    var c := if o.seen.guestSignalled || TimedOut(o, cfg, i.now) then ClearPreseedKey(s, i, 0) else Stop(s, 0);
    if c.scene.marks.keyStatus.Accepted? {
      ConvergeCalls(g, o, c.scene, cfg, hash, i);
      ConvergeKeepsKey(g, o, c.scene, cfg, hash, i);
    } else {
      PreseededWaits(g, o, c.scene, cfg, i);
    }
  }

  lemma DeleteKeeps(s: Scene, i: Input, now: int)
    requires HasKey(s.marks) && s.events == []
    ensures Keeps(s.marks, now, ReconcileDelete(s, i).scene)
  {
  }

  /** Once a VM records a key, a reconcile in either mode obtains no other and the record stays. */
  lemma ActObtainsNothing(g: Foreign, vm: Vm, mv: Move)
    requires mv.Act? && Consistent(vm.obj, vm.marks) && Wellformed(mv.i) && HasKey(vm.marks)
    ensures NoneObtained(Acting(g, vm, mv).scene.events)
    ensures PingsInTime(vm.marks, mv.i.now, Acting(g, vm, mv).scene.events)
    ensures var vm' := After(g, vm, mv);
            HasKey(vm'.marks) && vm'.marks.minionId == vm.marks.minionId && Consistent(vm'.obj, vm'.marks)
  {
    hide ReconcileCreate, ReconcileDelete, IntentHash, FindConfig, Managed, Consistent, NoneObtained;
    var o, s, i, hash := vm.obj, Before(vm, mv), mv.i, IntentHash(g, vm.obj.tenant);
    ReconcileKeepsConsistency(g, o, s, hash, i);
    assert NoneObtained([]) by { NothingObtained(); }
    if i.configs.Some? && FindConfig(i.configs.value).Some? {
      if o.deleting { DeleteKeeps(s, i, i.now); }
      else { CreateKeeps(g, o, s, FindConfig(i.configs.value).value, hash, i); }
    }
  }

  lemma EditKeepsConsistency(vm: Vm, obj: Object)
    requires Consistent(vm.obj, vm.marks) && obj.name == vm.obj.name && (vm.obj.deleting ==> obj.deleting)
    ensures Consistent(obj, vm.marks)
  {
  }

  /** A key is obtained once: from the moment a VM records one, no reconcile of it, in either mode
      and under any change of configuration, accepts or generates a key again, and it keeps
      recording the same minion ID. */
  lemma {:induction false} KeyIsObtainedOnce(g: Foreign, vm: Vm, mvs: seq<Move>, n: int)
    requires Consistent(vm.obj, vm.marks) && HasKey(vm.marks) && ProperRun(g, vm, mvs)
    ensures AfterAll(g, vm, mvs).marks.minionId == vm.marks.minionId
    ensures 0 <= n < |mvs| && mvs[n].Act? ==> NoneObtained(Acting(g, AfterAll(g, vm, mvs[..n]), mvs[n]).scene.events)
    decreases |mvs|
  {
    hide Acting, Consistent, NoneObtained;
    if mvs != [] {
      var vm' := After(g, vm, mvs[0]);
      if mvs[0].Act? { ActObtainsNothing(g, vm, mvs[0]); } else { EditKeepsConsistency(vm, mvs[0].obj); }
      KeyIsObtainedOnce(g, vm', mvs[1..], n - 1);
      if 0 < n < |mvs| { assert mvs[..n][1..] == mvs[1..][..n - 1]; }
    }
  }

  /** A preseeded VM that never came up keeps its failed key: it has to be recreated. */
  lemma LostKeyStaysLost(g: Foreign, o: Object, s: Scene, cfg: Config, i: Input)
    requires s.marks.keyStatus.KeyFailed? && s.marks.how == ByPreseed
    ensures Acquire(g, o, s, cfg, i) == Stop(s, 0)
  {
  }

  /** The moment of preseeding: a VM that becomes Preseeded has its Secret hold exactly the pair the
      master accepted for it in this reconcile. */
  lemma PreseededIsWritten(g: Foreign, o: Object, s: Scene, hash: string, i: Input)
    requires Consistent(o, s.marks) && Wellformed(i) && hash != ""
    requires !s.marks.keyStatus.Preseeded? && ReconcileVm(g, o, s, hash, i).scene.marks.keyStatus.Preseeded?
    ensures var r := ReconcileVm(g, o, s, hash, i).scene;
            HoldsPair(o, o.name, r.keys, r.secret) && r.marks.minionId == o.name && !r.marks.keyCleared
  {
    hide ClearPreseedKey, Acquire, Converge, FindConfig, Managed, ChainConsistent, MayAcquire;
    var cfg := FindConfig(i.configs.value).value;
    ReconcileKeepsConsistency(g, o, s, hash, i);
    ClearKeeps(o, s, i);
    ClearChainOnly(s, i);
    var c := if o.seen.guestSignalled || TimedOut(o, cfg, i.now) then ClearPreseedKey(s, i, 0) else Stop(s, 0);
    if c.scene.marks.keyStatus.Accepted? { ConvergeChainOnly(g, o, c.scene, cfg, hash, i); }
    else {
      var _ := AcquireObtains(g, o, c.scene, cfg, i);
      if HasKey(c.scene.marks) { LostKeyStaysLost(g, o, c.scene, cfg, i); }
    }
  }
}
