/** Which intent a healthy VM was really converged to. The operator compares the stored hash with
    the current intent; these theorems say when that comparison can be trusted. */
module LostIntent {
  import opened Text
  import opened Model
  import opened Intent
  import opened Reconcile
  import opened Consistency
  import opened Keyring
  import opened World
  import opened History
  import opened Progress
  import Enforcement

  /** A highstate runs or has succeeded under the stored hash. */
  predicate Converging(m: Marks) {
    m.saltStatus.HighstateDispatched? || m.saltStatus.Ready?
  }

  /** What the annotations say about the pillar is so: a refreshed pillar has the current intent, and
      under a highstate it has the intent of the stored hash. */
  ghost predicate Sure(g: Foreign, o: Object, m: Marks, h: Past) {
    && (m.saltStatus.PillarRefreshed? ==>
          h.pillar.Some? && IntentHash(g, h.pillar.value) == IntentHash(g, o.tenant))
    && (Converging(m) ==> h.pillar.Some? && IntentHash(g, h.pillar.value) == m.rolesHash)
  }

  // ---------------------------------------------------------------- one turn of the chain

  lemma FoldOnly(h: Past, at: int, e: Event)
    ensures Fold(h, at, [e]) == Next(h, at, e) && Fold(h, at, []) == h
    ensures Fold(h, at, [e] + []) == Next(h, at, e) && Fold(h, at, [] + [e]) == Next(h, at, e) &&
            Fold(h, at, [] + []) == h
  {
    hide Next;
    assert [e] + [] == [e] && [] + [e] == [e] && [e][1..] == [];
  }

  /** The turn refreshes the pillar of a Ready VM to an intent other than the stored one. */
  predicate Changing(m: Marks, hash: string, i: Input) {
    m.saltStatus.Ready? && hash != m.rolesHash && i.refresh == Yes
  }

  /** Sure once its patch lands, and sure without it unless the pillar was changed. */
  ghost predicate EndsSure(g: Foreign, o: Object, m: Marks, h: Past, hash: string, i: Input, p: Plan) {
    && (p.marks.Some? ==> Sure(g, o, p.marks.value, Fold(h, i.now, p.calls + p.landed)))
    && (Changing(m, hash, i) || Sure(g, o, m, Fold(h, i.now, p.calls)))
  }

  lemma EarlySure(g: Foreign, o: Object, m: Marks, h: Past, cfg: Config, hash: string, i: Input)
    requires Sure(g, o, m, h) && hash == IntentHash(g, o.tenant)
    requires m.saltStatus.Unstarted? || m.saltStatus.Pinged? || m.saltStatus.PillarRefreshed?
    ensures EndsSure(g, o, m, h, hash, i, ChainPlan(g, o, m, cfg, hash, i))
  {
    hide Fold, IntentHash, Within;
    FoldOnly(h, i.now, Pings(m.minionId, i.ping));
    FoldOnly(h, i.now, Refreshes(m.minionId, i.refresh, o.tenant));
    FoldOnly(h, i.now, Dispatches(m.minionId, i.jid, false, o.tenant));
  }

  lemma PollSure(g: Foreign, o: Object, m: Marks, h: Past, cfg: Config, hash: string, i: Input)
    requires Sure(g, o, m, h) && m.saltStatus.HighstateDispatched?
    ensures EndsSure(g, o, m, h, hash, i, PollPlan(m, cfg, i))
  {
    hide Fold, IntentHash;
    FoldOnly(h, i.now, Polls(m.minionId, m.jid, i.poll));
  }

  lemma FailedSure(g: Foreign, o: Object, m: Marks, h: Past, cfg: Config, hash: string, i: Input)
    requires m.saltStatus.Failed?
    ensures EndsSure(g, o, m, h, hash, i, FailedPlan(o, m, cfg, hash))
  {
    hide Fold, IntentHash, Get;
  }

  /** What a Day-2 run leaves of the past. */
  lemma Day2Past(g: Foreign, o: Object, m: Marks, h: Past, scheduled: Option<int>, cfg: Config, i: Input)
    ensures var p := Day2Plan(o, m, scheduled, cfg, i);
            var h' := Fold(h, i.now, p.calls);
            && p.marks.Some? && p.bulk.None? && !p.clear && p.landed == [] && p.calls + p.landed == p.calls
            && (p.marks.value.saltStatus.HighstateDispatched? || p.marks.value.saltStatus.Failed?)
            && (p.marks.value.saltStatus.HighstateDispatched? ==> i.refresh == Yes)
            && p.marks.value.rolesHash == m.rolesHash
            && h'.pillar == if i.refresh == Yes then Some(o.tenant) else h.pillar
  {
    hide Fold;
    var a, b, c := RunStarts(scheduled), Refreshes(m.minionId, i.refresh, o.tenant),
                   Dispatches(m.minionId, i.jid, true, o.tenant);
    var h1 := Next(h, i.now, a);
    assert [a, b] == [a] + [b] && [a, b] + [c] == [a] + ([b] + [c]);
    FoldCons(g, o.uid, h, i.now, a, [b]);
    FoldCons(g, o.uid, h, i.now, a, [b] + [c]);
    FoldCons(g, o.uid, h1, i.now, b, [c]);
    FoldOnly(h1, i.now, b);
    FoldOnly(Next(h1, i.now, b), i.now, c);
  }

  lemma ReadySure(g: Foreign, o: Object, m: Marks, h: Past, cfg: Config, hash: string, i: Input)
    requires Sure(g, o, m, h) && m.saltStatus.Ready? && hash == IntentHash(g, o.tenant)
    ensures EndsSure(g, o, m, h, hash, i, ReadyPlan(g, o, m, cfg, hash, i))
  {
    hide Fold, IntentHash, Get, Day2Plan, Enforcement.EnforcementDue;
    var markers := Handled(o, cfg.retryToken, m).(rolesHash := hash);
    FoldOnly(h, i.now, ChainReset);
    Day2Past(g, o, markers, h, None, cfg, i);
    Day2Past(g, o, markers, h, cfg.enforcement, cfg, i);
  }

  lemma PlanSure(g: Foreign, o: Object, m: Marks, h: Past, cfg: Config, hash: string, i: Input)
    requires Sure(g, o, m, h) && hash == IntentHash(g, o.tenant)
    ensures EndsSure(g, o, m, h, hash, i, ChainPlan(g, o, m, cfg, hash, i))
  {
    hide Sure, EndsSure, IntentHash, PingPlan, RefreshPlan, DispatchPlan, PollPlan, ReadyPlan, FailedPlan;
    match m.saltStatus
    case Unstarted => EarlySure(g, o, m, h, cfg, hash, i);
    case Pinged => EarlySure(g, o, m, h, cfg, hash, i);
    case PillarRefreshed => EarlySure(g, o, m, h, cfg, hash, i);
    case HighstateDispatched => PollSure(g, o, m, h, cfg, hash, i);
    case Ready => ReadySure(g, o, m, h, cfg, hash, i);
    case Failed(_) => FailedSure(g, o, m, h, cfg, hash, i);
  }

  // ---------------------------------------------------------------- one reconcile, exactly

  lemma SureIgnores(g: Foreign, o: Object, a: Marks, b: Marks, h: Past)
    requires b.saltStatus == a.saltStatus && b.rolesHash == a.rolesHash
    ensures Sure(g, o, a, h) == Sure(g, o, b, h)
  {
    hide IntentHash;
  }

  /** A turn that records no token, clears no key and writes: only a lost patch keeps it from landing. */
  lemma WritingTurn(s: Scene, p: Plan, i: Input)
    requires p.bulk.None? && !p.clear && p.marks.Some?
    ensures var r := Execute(s, p, i).scene;
            if Status in i.lost then r.marks == s.marks && r.events == s.events + p.calls else Lands(s, p, r)
  {
  }

  /** A Ready VM with another intent than the stored one gets a Day-2 run. */
  lemma ChangedIntentRuns(g: Foreign, o: Object, m: Marks, cfg: Config, hash: string, i: Input)
    requires m.saltStatus.Ready? && hash != m.rolesHash && m.rolesHash != ""
    ensures ChainPlan(g, o, m, cfg, hash, i) ==
            Day2Plan(o, Handled(o, cfg.retryToken, m).(rolesHash := hash), None, cfg, i)
  {
    hide Day2Plan, Handled, Enforcement.EnforcementDue, RetryRequested;
  }

  /** The last patch of a Day-2 run for a changed intent is lost after its refresh succeeded. */
  predicate LosesRun(s: Scene, hash: string, i: Input) {
    && Changing(s.marks, hash, i) && Status in i.lost
    && s.marks.keyStatus.Accepted? && i.client && (s.finalizer || Finalizer !in i.lost)
  }

  lemma AcceptedIsNamed(o: Object, m: Marks)
    requires Consistent(o, m) && m.keyStatus.Accepted?
    ensures m.minionId != ""
  {
  }

  lemma ChangingSureIff(g: Foreign, o: Object, s: Scene, cfg: Config, hash: string, h: Past, i: Input)
    requires s.events == [] && s.marks.rolesHash != "" && Changing(s.marks, hash, i) && hash == IntentHash(g, o.tenant)
    ensures var r := Execute(s, ChainPlan(g, o, s.marks, cfg, hash, i), i).scene;
            Sure(g, o, r.marks, Fold(h, i.now, r.events)) <==> Status !in i.lost
  {
    hide ChainPlan, Execute, Fold, IntentHash, Day2Plan, Handled;
    var m := Handled(o, cfg.retryToken, s.marks).(rolesHash := hash);
    ChangedIntentRuns(g, o, s.marks, cfg, hash, i);
    Day2Past(g, o, m, h, None, cfg, i);
    var p := Day2Plan(o, m, None, cfg, i);
    WritingTurn(s, p, i);
    assert [] + p.calls == p.calls && p.calls + [] == p.calls;
  }

  lemma ConvergeSureIff(g: Foreign, o: Object, s: Scene, cfg: Config, hash: string, h: Past, i: Input)
    requires s.events == [] && Consistent(o, s.marks) && s.marks.keyStatus.Accepted?
    requires Sure(g, o, s.marks, h) && hash == IntentHash(g, o.tenant)
    ensures var r := Converge(g, o, s, cfg, hash, i).scene;
            Sure(g, o, r.marks, Fold(h, i.now, r.events)) <==> !LosesRun(s, hash, i)
  {
    hide ChainPlan, Execute, Fold, IntentHash, Sure, KeyConsistent;
    FoldOnly(h, i.now, ChainReset);
    assert s.marks.minionId != "" by { AcceptedIsNamed(o, s.marks); }
    if (s.finalizer || Finalizer !in i.lost) && i.client {
      var p, f := ChainPlan(g, o, s.marks, cfg, hash, i), AddFinalizer(s, i, 0).scene;
      var r := Execute(f, p, i).scene;
      PlanSure(g, o, s.marks, h, cfg, hash, i);
      ExecuteEnds(o, f, p, i);
      assert [] + p.calls == p.calls;
      if Lands(f, p, r) { SureIgnores(g, o, p.marks.value, r.marks, Fold(h, i.now, r.events)); }
      if Stops(f, p, r) { SureIgnores(g, o, s.marks, r.marks, Fold(h, i.now, r.events)); }
      if Changing(s.marks, hash, i) { ChangingSureIff(g, o, f, cfg, hash, h, i); }
    }
  }

  /** The whole reconcile gets that far. */
  predicate Slips(o: Object, s: Scene, hash: string, i: Input) {
    && Managed(o) && i.configs.Some? && FindConfig(i.configs.value).Some? && i.selected && !o.deleting
    && LosesRun(s, hash, i)
  }

  lemma DeleteSure(g: Foreign, o: Object, s: Scene, h: Past, i: Input)
    requires s.events == [] && Sure(g, o, s.marks, h)
    ensures var r := ReconcileDelete(s, i).scene; Sure(g, o, r.marks, Fold(h, i.now, r.events))
  {
    hide Fold, IntentHash, Sure;
    var r := ReconcileDelete(s, i).scene;
    KeyCallsAreNeutral(g, o.uid, h, i.now, r.events);
    SureIgnores(g, o, s.marks, r.marks, h);
  }

  lemma AcquireSure(g: Foreign, o: Object, s: Scene, cfg: Config, h: Past, i: Input)
    requires s.events == [] && Consistent(o, s.marks) && !s.marks.keyStatus.Accepted? && !o.deleting
    ensures var r := Acquire(g, o, s, cfg, i).scene; Sure(g, o, r.marks, Fold(h, i.now, r.events))
  {
    hide Acquire, IntentHash;
    AcquireCalls(g, o, s, cfg, i);
  }

  /** One reconcile, exactly: from a sure state it leads to a sure state if and only if it is not a
      Day-2 run for a changed intent that refreshes the pillar and loses its patch. */
  lemma ReconcileSureIff(g: Foreign, o: Object, s: Scene, h: Past, i: Input)
    requires s.events == [] && Consistent(o, s.marks) && Sure(g, o, s.marks, h)
    ensures var hash := IntentHash(g, o.tenant);
            var r := ReconcileVm(g, o, s, hash, i).scene;
            Sure(g, o, r.marks, Fold(h, i.now, r.events)) <==> !Slips(o, s, hash, i)
  {
    hide ClearPreseedKey, Acquire, Converge, ReconcileDelete, FindConfig, Managed, Fold, IntentHash, Sure,
        KeyConsistent;
    FoldOnly(h, i.now, ChainReset);
    var hash := IntentHash(g, o.tenant);
    if Managed(o) && i.configs.Some? && FindConfig(i.configs.value).Some? {
      var cfg := FindConfig(i.configs.value).value;
      if o.deleting {
        DeleteSure(g, o, s, h, i);
      } else {
        ClearKeeps(o, s, i);
        if s.marks.saltStatus != Unstarted { ClearedAlready(o, s, i); }
        ClearKeepsFinalizer(s, i);
        var c := if o.seen.guestSignalled || TimedOut(o, cfg, i.now) then ClearPreseedKey(s, i, 0) else Stop(s, 0);
        SureIgnores(g, o, s.marks, c.scene.marks, h);
        if c.scene.marks.keyStatus.Accepted? { ConvergeSureIff(g, o, c.scene, cfg, hash, h, i); }
        else { AcquireSure(g, o, c.scene, cfg, h, i); }
      }
    }
  }

  lemma ReadyRestores(g: Foreign, o: Object, m: Marks, h: Past, cfg: Config, hash: string, i: Input)
    requires m.saltStatus.Ready? && hash == IntentHash(g, o.tenant)
    ensures var p := ReadyPlan(g, o, m, cfg, hash, i);
            p.marks.Some? ==> Sure(g, o, p.marks.value, Fold(h, i.now, p.calls + p.landed))
  {
    hide Fold, IntentHash, Get, Day2Plan, Enforcement.EnforcementDue;
    var markers := Handled(o, cfg.retryToken, m).(rolesHash := hash);
    Day2Past(g, o, markers, h, None, cfg, i);
    Day2Past(g, o, markers, h, cfg.enforcement, cfg, i);
  }

  lemma ConvergeRestores(g: Foreign, o: Object, s: Scene, cfg: Config, hash: string, h: Past, i: Input)
    requires s.events == [] && Consistent(o, s.marks) && s.marks.saltStatus.Ready? && hash == IntentHash(g, o.tenant)
    ensures var r := Converge(g, o, s, cfg, hash, i).scene;
            r.marks.saltStatus.HighstateDispatched? ==> Sure(g, o, r.marks, Fold(h, i.now, r.events))
  {
    hide ReadyPlan, Execute, Fold, IntentHash, Sure, Consistent;
    var p, f := ReadyPlan(g, o, s.marks, cfg, hash, i), AddFinalizer(s, i, 0).scene;
    var r := Execute(f, p, i).scene;
    ReadyRestores(g, o, s.marks, h, cfg, hash, i);
    ExecuteEnds(o, f, p, i);
    assert [] + p.calls == p.calls;
    if Lands(f, p, r) { SureIgnores(g, o, p.marks.value, r.marks, Fold(h, i.now, r.events)); }
  }

  lemma DeleteLeavesChain(s: Scene, i: Input)
    ensures ReconcileDelete(s, i).scene.marks.saltStatus == s.marks.saltStatus
  {
  }

  /** A Day-2 run whose dispatch is recorded makes the state sure, whatever it was before. */
  lemma Day2Restores(g: Foreign, o: Object, s: Scene, h: Past, i: Input)
    requires s.events == [] && Consistent(o, s.marks) && s.marks.saltStatus.Ready?
    requires ReconcileVm(g, o, s, IntentHash(g, o.tenant), i).scene.marks.saltStatus.HighstateDispatched?
    ensures var r := ReconcileVm(g, o, s, IntentHash(g, o.tenant), i).scene;
            Sure(g, o, r.marks, Fold(h, i.now, r.events))
  {
    hide ClearPreseedKey, ReconcileDelete, FindConfig, Managed, Fold, IntentHash, Consistent, Converge, Acquire, Sure;
    var cfg, hash := FindConfig(i.configs.value).value, IntentHash(g, o.tenant);
    ClearedAlready(o, s, i);
    DeleteLeavesChain(s, i);
    AcquireCalls(g, o, s, cfg, i);
    ConvergeRestores(g, o, s, cfg, hash, h, i);
  }

  // ---------------------------------------------------------------- over whole runs

  /** The VM with this UID, if there is one, is in a sure state. */
  ghost predicate SureOf(g: Foreign, w: World, uid: string) {
    forall k :: k in w.vms && w.vms[k].obj.uid == uid ==> Sure(g, w.vms[k].obj, w.vms[k].marks, PastOf(w.log, uid))
  }

  /** A late edit changes the intent between the refresh of the pillar and the dispatch. */
  ghost predicate EditsLate(g: Foreign, vm: Vm, obj: Object, finalizer: bool) {
    && vm.marks.saltStatus.PillarRefreshed? && IntentHash(g, obj.tenant) != IntentHash(g, vm.obj.tenant)
    && Persists(Vm(obj, vm.marks, finalizer))
  }

  /** The two steps that mislead: a late edit, and a Day-2 run that loses its patch. */
  ghost predicate Misleads(g: Foreign, w: World, step: Step, uid: string) {
    match step
    case Changes(k, obj, finalizer) => k in w.vms && w.vms[k].obj.uid == uid && EditsLate(g, w.vms[k], obj, finalizer)
    case Reconciles(k, i) =>
      k in w.vms && w.vms[k].obj.uid == uid &&
      Slips(w.vms[k].obj, SceneOf(w, k), IntentHash(g, w.vms[k].obj.tenant), i)
    case _ => false
  }

  lemma SlippingStays(o: Object, s: Scene, hash: string, i: Input)
    requires Slips(o, s, hash, i)
    ensures !o.deleting
  {
  }

  lemma ReconcileStepSureIff(g: Foreign, w: World, k: Name, i: Input, uid: string)
    requires Inv(w) && k in w.vms && i.now == w.now && SureOf(g, w, uid)
    ensures SureOf(g, Apply(g, w, Reconciles(k, i)), uid) <==> !Misleads(g, w, Reconciles(k, i), uid)
  {
    hide ReconcileVm, IntentHash, Sure, Consistent, SecretFresh, PastOf, Fold, Slips;
    var o, s, w' := w.vms[k].obj, SceneOf(w, k), Apply(g, w, Reconciles(k, i));
    var r := ResultOf(g, w, k, i).scene;
    assert VmOk(w, k);
    PastOfAppend(w.log, o.uid, w.now, r.events, uid);
    forall j | j in w.vms && j != k ensures w.vms[j].obj.uid != o.uid { assert Apart(w.vms[j], w.vms[k]); }
    if o.uid == uid {
      ReconcileSureIff(g, o, s, PastOf(w.log, uid), i);
      if Slips(o, s, IntentHash(g, o.tenant), i) {
        assert k in w'.vms by { SlippingStays(o, s, IntentHash(g, o.tenant), i); }
      }
    }
  }

  lemma ChangeStepSureIff(g: Foreign, w: World, k: Name, obj: Object, finalizer: bool, uid: string)
    requires Inv(w) && k in w.vms && Possible(w, Changes(k, obj, finalizer)) && SureOf(g, w, uid)
    ensures SureOf(g, Apply(g, w, Changes(k, obj, finalizer)), uid) <==>
            !Misleads(g, w, Changes(k, obj, finalizer), uid)
  {
    hide IntentHash, VmOk, PastOf;
    var w' := Apply(g, w, Changes(k, obj, finalizer));
    forall j | j in w.vms && j != k ensures w.vms[j].obj.uid != w.vms[k].obj.uid { assert Apart(w.vms[j], w.vms[k]); }
    if k in w'.vms && w.vms[k].obj.uid == uid { assert Sure(g, w.vms[k].obj, w.vms[k].marks, PastOf(w.log, uid)); }
  }

  lemma FreshIsSure(g: Foreign, o: Object, h: Past)
    ensures Sure(g, o, NO_MARKS, h)
  {
    hide IntentHash;
  }

  /** Every step but those two keeps a sure state sure, and those two do not. */
  lemma StepSureIff(g: Foreign, w: World, step: Step, uid: string)
    requires Inv(w) && Valid(g, w, step) && SureOf(g, w, uid)
    ensures SureOf(g, Apply(g, w, step), uid) <==> !Misleads(g, w, step, uid)
  {
    hide ReconcileVm, IntentHash, VmOk, PastOf, Orphans, Live, Slips, Sure, EditsLate;
    if step.Reconciles? && step.k in w.vms {
      ReconcileStepSureIff(g, w, step.k, step.i, uid);
    } else if step.Changes? && step.k in w.vms {
      ChangeStepSureIff(g, w, step.k, step.obj, step.finalizer, uid);
    } else if step.Appears? {
      FreshIsSure(g, step.obj, PastOf(w.log, uid));
    }
  }

  ghost function Sureness(g: Foreign, uid: string): World -> bool {
    w => SureOf(g, w, uid)
  }

  ghost function Misleading(g: Foreign, uid: string): (World, Step) -> bool {
    (w, step) => Misleads(g, w, step, uid)
  }

  ghost predicate NeverMisled(g: Foreign, w: World, steps: seq<Step>, uid: string) {
    Never(g, w, steps, Misleading(g, uid))
  }

  /** Over whole runs: the VM is in a sure state throughout if and only if no step misleads it. */
  lemma RunSureIff(g: Foreign, w: World, steps: seq<Step>, uid: string)
    requires Inv(w) && ValidRun(g, w, steps) && SureOf(g, w, uid)
    ensures (forall n :: 0 <= n <= |steps| ==> SureOf(g, Run(g, w, steps[..n]), uid)) <==> NeverMisled(g, w, steps, uid)
    ensures NeverMisled(g, w, steps, uid) ==> SureOf(g, Run(g, w, steps), uid)
  {
    hide Inv, Valid, Apply, Run, ValidRun, SureOf, Misleads, Never;
    forall v, step | Inv(v) && Valid(g, v, step) && SureOf(g, v, uid)
      ensures SureOf(g, Apply(g, v, step), uid) <==> !Misleads(g, v, step, uid)
    {
      StepSureIff(g, v, step, uid);
    }
    GoodThroughoutIff(g, w, steps, Sureness(g, uid), Misleading(g, uid));
    assert forall v :: Sureness(g, uid)(v) == SureOf(g, v, uid);
  }

  /** No lost intent. Take any state of any run in which VM `uid` is sure: before it appears, in any
      bootstrap or failed state, or right after a recorded Day-2 dispatch. As long as no later step
      misleads it, whatever else is lost or edited: whenever it is Ready and its stored hash is that
      of its current intent, the pillar was last refreshed with an intent of that hash. */
  lemma NoLostIntent(g: Foreign, w0: World, early: seq<Step>, late: seq<Step>, k: Name)
    requires Initial(w0) && ValidRun(g, w0, early) && ValidRun(g, Run(g, w0, early), late)
    requires k in Run(g, Run(g, w0, early), late).vms
    requires var w, uid := Run(g, w0, early), Run(g, Run(g, w0, early), late).vms[k].obj.uid;
             SureOf(g, w, uid) && NeverMisled(g, w, late, uid)
    ensures var w := Run(g, Run(g, w0, early), late);
            var vm, h := w.vms[k], PastOf(w.log, w.vms[k].obj.uid);
            && SureOf(g, w, vm.obj.uid)
            && (vm.marks.saltStatus.Ready? && vm.marks.rolesHash == IntentHash(g, vm.obj.tenant) ==>
                  h.pillar.Some? && IntentHash(g, h.pillar.value) == IntentHash(g, vm.obj.tenant))
  {
    hide ValidRun, Run, IntentHash, Initial, NeverMisled, Inv;
    InitialIsFine(w0);
    RunKeepsInv(g, w0, early);
    var w := Run(g, w0, early);
    var w' := Run(g, w, late);
    RunSureIff(g, w, late, w'.vms[k].obj.uid);
  }

  lemma NobodyIsUnsure(g: Foreign, w: World, uid: string)
    requires Initial(w)
    ensures SureOf(g, w, uid)
  {
  }

  /** So over whole runs, from the empty cluster on. */
  lemma NoIntentLostInRun(g: Foreign, w0: World, steps: seq<Step>, k: Name)
    requires Initial(w0) && ValidRun(g, w0, steps) && k in Run(g, w0, steps).vms
    requires var vm := Run(g, w0, steps).vms[k];
             && NeverMisled(g, w0, steps, vm.obj.uid)
             && vm.marks.saltStatus.Ready? && vm.marks.rolesHash == IntentHash(g, vm.obj.tenant)
    ensures var w := Run(g, w0, steps);
            var h := PastOf(w.log, w.vms[k].obj.uid);
            h.pillar.Some? && IntentHash(g, h.pillar.value) == IntentHash(g, w.vms[k].obj.tenant)
  {
    hide ValidRun, Run, IntentHash, Initial, NeverMisled, Inv;
    var w := Run(g, w0, steps);
    assert SureOf(g, w0, w.vms[k].obj.uid) by { NobodyIsUnsure(g, w0, w.vms[k].obj.uid); }
    RunNothing(g, w0);
    NoLostIntent(g, w0, [], steps, k);
  }

  /** And after a Day-2 run whose dispatch is recorded, whatever happened before. */
  lemma Day2IsSure(g: Foreign, w: World, k: Name, i: Input)
    requires Inv(w) && k in w.vms && i.now == w.now && w.vms[k].marks.saltStatus.Ready?
    requires ResultOf(g, w, k, i).scene.marks.saltStatus.HighstateDispatched?
    ensures SureOf(g, Apply(g, w, Reconciles(k, i)), w.vms[k].obj.uid)
  {
    hide ReconcileVm, IntentHash, Sure, Consistent, SecretFresh, PastOf, Fold;
    var o, r := w.vms[k].obj, ResultOf(g, w, k, i).scene;
    assert VmOk(w, k);
    Day2Restores(g, o, SceneOf(w, k), PastOf(w.log, o.uid), i);
    PastOfAppend(w.log, o.uid, w.now, r.events, o.uid);
    forall j | j in w.vms && j != k ensures w.vms[j].obj.uid != o.uid { assert Apart(w.vms[j], w.vms[k]); }
  }

  /** With a digest that does not collide, and keys and values free of separators, equal hashes are
      equal intents: the VM was converged to exactly what its tenant asks for now. */
  lemma EqualHashIsEqualIntent(g: Foreign, a: map<string, string>, b: map<string, string>)
    requires forall x, y :: g.digest(x) == g.digest(y) ==> x == y
    requires Clean(a) && Clean(b) && IntentHash(g, a) == IntentHash(g, b)
    ensures IntentOf(a) == IntentOf(b)
  {
    var x, y := g.digest(Preimage(a)), g.digest(Preimage(b));
    assert (HASH_VERSION + x)[|HASH_VERSION|..] == x && (HASH_VERSION + y)[|HASH_VERSION|..] == y;
    PreimageIsInjective(a, b);
  }
}
