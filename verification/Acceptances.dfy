/** What becomes of an acceptance: when it is recorded, when a lost record is made up for, and that no
    ping comes before the recorded time and the grace period. */
module Acceptances {
  import opened Text
  import opened Matcher
  import opened Model
  import opened Intent
  import opened Reconcile
  import opened Consistency
  import opened Keyring
  import opened World
  import opened History
  import opened Progress
  import opened Wakeups

  // ---------------------------------------------------------------- a lost record

  /** An accepted key is recorded exactly when the patch lands; it is accepted either way. */
  lemma AcceptanceIsRecordedIff(g: Foreign, o: Object, s: Scene, cfg: Config, i: Input)
    requires o.name != "" && s.marks.minionId == "" && i.pending.Some? && i.acceptOk
    requires FindMinion(g, o.name, o.seen.ip, i.pending.value).how != NoMethod
    ensures var id := FindMinion(g, o.name, o.seen.ip, i.pending.value).id;
            var r := RunAcceptKey(g, o, s, cfg, i).scene;
            && id in i.pending.value && id in r.keys && r.keys[id].state == AcceptedKey
            && (r.marks.minionId == id <==> Status !in i.lost)
            && (Status in i.lost ==> r.marks == s.marks && r.finalizer == s.finalizer)
  {
    hide FindMinion;
    MatchIsListed(g, o.name, o.seen.ip, i.pending.value);
  }

  /** The one way to record an ID that is already accepted: a preseeding of the VM of that name, which
      replaces the key, with every call answered and every write landing. */
  predicate MakesUp(o: Object, s: Scene, cfg: Config, i: Input, id: string) {
    && cfg.preseed && id == o.name && i.client
    && i.fleet.Some? && Owner(i.fleet.value, o.uid, id).None? && i.statesOk
    && i.generated.Some? && i.masterPub.Some?
    && BootstrapSecret !in i.lost && (s.finalizer || Finalizer !in i.lost) && Status !in i.lost
  }

  lemma GenerateRecordsIff(o: Object, s: Scene, cfg: Config, id: string, i: Input)
    requires s.marks.minionId == "" && id != "" && id in s.keys
    ensures Generate(o, s, cfg, id, i).scene.marks.minionId == id <==>
            && i.generated.Some? && i.masterPub.Some?
            && BootstrapSecret !in i.lost && (s.finalizer || Finalizer !in i.lost) && Status !in i.lost
    ensures var m := Generate(o, s, cfg, id, i).scene.marks.minionId; m == "" || m == id
  {
  }

  lemma PreseedRecordsOwnName(o: Object, s: Scene, cfg: Config, i: Input)
    requires s.marks.minionId == ""
    ensures var m := RunPreseedKey(o, s, cfg, i).scene.marks.minionId; m == "" || m == o.name
  {
    hide Owner;
  }

  lemma PreseedRecordsIff(o: Object, s: Scene, cfg: Config, i: Input, id: string)
    requires s.marks.minionId == "" && id != "" && id in s.keys && cfg.preseed && i.client && o.name != ""
    ensures RunPreseedKey(o, s, cfg, i).scene.marks.minionId == id <==> MakesUp(o, s, cfg, i, id)
  {
    hide Generate, Owner;
    if id == o.name { GenerateRecordsIff(o, Note(s, CheckedStates(id)), cfg, id, i); }
    else { PreseedRecordsOwnName(o, s, cfg, i); }
  }

  lemma DiscoveryRecordsPending(g: Foreign, o: Object, s: Scene, cfg: Config, i: Input)
    requires s.marks.minionId == "" && o.name != ""
    ensures var m := RunAcceptKey(g, o, s, cfg, i).scene.marks.minionId;
            m == "" || (i.pending.Some? && m in i.pending.value)
  {
    hide FindMinion;
    if i.pending.Some? { MatchIsListed(g, o.name, o.seen.ip, i.pending.value); }
  }

  lemma AcquireRecordsIff(g: Foreign, o: Object, s: Scene, cfg: Config, i: Input, id: string)
    requires Consistent(o, s.marks) && !HasKey(s.marks)
    requires id != "" && id in s.keys && (i.pending.Some? ==> id !in i.pending.value)
    ensures Acquire(g, o, s, cfg, i).scene.marks.minionId == id <==> MakesUp(o, s, cfg, i, id)
  {
    hide RunPreseedKey, RunAcceptKey, Owner, ChainConsistent;
    if cfg.preseed && i.client { PreseedRecordsIff(o, s, cfg, i, id); }
    DiscoveryRecordsPending(g, o, s, cfg, i);
  }

  /** A VM without a key, an ID that is accepted and so in no true list of pending keys: a reconcile
      records that ID if and only if it is such a preseeding. Under a discovery config it never does. */
  lemma AcceptedIdIsRecordedIff(g: Foreign, o: Object, s: Scene, hash: string, i: Input, cfg: Config, id: string)
    requires Consistent(o, s.marks) && !HasKey(s.marks) && Handles(o, i, cfg)
    requires id != "" && id in s.keys && (i.pending.Some? ==> id !in i.pending.value)
    ensures ReconcileVm(g, o, s, hash, i).scene.marks.minionId == id <==> MakesUp(o, s, cfg, i, id)
  {
    hide ClearPreseedKey, Acquire, Converge, FindConfig, Managed, ChainConsistent, MakesUp;
    NothingToClear(s, i);
    AcquireRecordsIff(g, o, s, cfg, i, id);
  }

  // ---------------------------------------------------------------- over whole runs

  /** The VM with this UID, if there is one, does not record `id`. */
  ghost predicate Unrecorded(w: World, uid: string, id: string) {
    forall k :: k in w.vms && w.vms[k].obj.uid == uid ==> w.vms[k].marks.minionId != id
  }

  ghost predicate MakesUpIn(w: World, step: Step, uid: string, id: string) {
    && step.Reconciles? && step.k in w.vms && w.vms[step.k].obj.uid == uid && !HasKey(w.vms[step.k].marks)
    && step.i.configs.Some? && FindConfig(step.i.configs.value).Some?
    && var cfg := FindConfig(step.i.configs.value).value;
       Handles(w.vms[step.k].obj, step.i, cfg) && MakesUp(w.vms[step.k].obj, SceneOf(w, step.k), cfg, step.i, id)
  }

  lemma UnhandledStays(g: Foreign, o: Object, s: Scene, hash: string, i: Input)
    requires i.configs.Some? && FindConfig(i.configs.value).Some? ==> !Handles(o, i, FindConfig(i.configs.value).value)
    ensures ReconcileVm(g, o, s, hash, i).scene.marks.minionId == s.marks.minionId
  {
    hide FindConfig, Managed;
  }

  lemma ReconcileRecordsIff(g: Foreign, w: World, k: Name, i: Input, id: string)
    requires Inv(w) && k in w.vms && Truthful(w, i) && id != "" && id in w.keys && w.keys[id].state == AcceptedKey
    requires w.vms[k].marks.minionId != id
    ensures ResultOf(g, w, k, i).scene.marks.minionId == id <==> MakesUpIn(w, Reconciles(k, i), w.vms[k].obj.uid, id)
  {
    hide ReconcileVm, IntentHash, SecretFresh, FindConfig, Managed, MakesUp, ChainConsistent, MayAcquire;
    var o, s, hash := w.vms[k].obj, SceneOf(w, k), IntentHash(g, w.vms[k].obj.tenant);
    assert VmOk(w, k);
    if HasKey(s.marks) {
      var _ := ReconcileKeyEffect(g, o, s, hash, i);
    } else if i.configs.Some? && FindConfig(i.configs.value).Some? && Handles(o, i, FindConfig(i.configs.value).value) {
      AcceptedIdIsRecordedIff(g, o, s, hash, i, FindConfig(i.configs.value).value, id);
    } else {
      UnhandledStays(g, o, s, hash, i);
    }
  }

  /** The key for `id` is accepted in every state of the run. */
  ghost predicate StaysAccepted(g: Foreign, w: World, steps: seq<Step>, id: string)
    decreases |steps|
  {
    && id in w.keys && w.keys[id].state == AcceptedKey
    && (steps != [] ==> StaysAccepted(g, Apply(g, w, steps[0]), steps[1..], id))
  }

  lemma StepRecordsIff(g: Foreign, w: World, step: Step, uid: string, id: string)
    requires Inv(w) && Valid(g, w, step) && id != "" && id in w.keys && w.keys[id].state == AcceptedKey
    requires Unrecorded(w, uid, id)
    ensures MakesUpIn(w, step, uid, id) <==> !Unrecorded(Apply(g, w, step), uid, id)
  {
    hide ReconcileVm, IntentHash, VmOk, Orphans, MakesUp, FindConfig, Managed;
    if step.Reconciles? && step.k in w.vms {
      forall j | j in w.vms && j != step.k ensures w.vms[j].obj.uid != w.vms[step.k].obj.uid {
        assert Apart(w.vms[j], w.vms[step.k]);
      }
      if w.vms[step.k].obj.uid == uid {
        ReconcileRecordsIff(g, w, step.k, step.i, id);
        var w' := Apply(g, w, step);
        if MakesUpIn(w, step, uid, id) { assert step.k in w'.vms && w'.vms[step.k].marks.minionId == id; }
      }
    }
  }

  ghost function Recovering(uid: string, id: string): (World, Step) -> bool {
    (w, step) => MakesUpIn(w, step, uid, id)
  }

  /** A lost acceptance, over whole runs: as long as the key stays accepted, a VM that does not record
      its ID comes to record it if and only if some reconcile of the run is a preseeding that makes
      up for it. In particular, under discovery configs it never does. */
  lemma {:induction false} LostAcceptanceIsFinalIff(g: Foreign, w: World, steps: seq<Step>, uid: string, id: string)
    requires Inv(w) && ValidRun(g, w, steps) && StaysAccepted(g, w, steps, id) && id != "" && Unrecorded(w, uid, id)
    ensures (forall n :: 0 <= n <= |steps| ==> Unrecorded(Run(g, w, steps[..n]), uid, id)) <==>
            Never(g, w, steps, Recovering(uid, id))
    decreases |steps|
  {
    hide Inv, Valid, Apply, Run, Unrecorded, MakesUpIn;
    RunNothing(g, w);
    assert steps[..0] == [];
    if steps != [] {
      var w', rest := Apply(g, w, steps[0]), steps[1..];
      StepKeepsInv(g, w, steps[0]);
      StepRecordsIff(g, w, steps[0], uid, id);
      RunNothing(g, w');
      assert rest[..0] == [];
      forall n | 0 < n <= |steps| ensures Run(g, w, steps[..n]) == Run(g, w', rest[..n - 1]) {
        RunFirst(g, w, steps, n);
      }
      assert Run(g, w, steps[..1]) == w';
      if Unrecorded(w', uid, id) {
        LostAcceptanceIsFinalIff(g, w', rest, uid, id);
        if forall n :: 0 <= n <= |steps| ==> Unrecorded(Run(g, w, steps[..n]), uid, id) {
          forall n | 0 <= n <= |rest| ensures Unrecorded(Run(g, w', rest[..n]), uid, id) {
            assert Unrecorded(Run(g, w, steps[..n + 1]), uid, id);
          }
        }
      }
    }
  }

  /** The VM is reconciled under a preseed config. */
  ghost predicate PreseedsIn(w: World, step: Step, uid: string) {
    && step.Reconciles? && step.k in w.vms && w.vms[step.k].obj.uid == uid
    && step.i.configs.Some? && FindConfig(step.i.configs.value).Some? && FindConfig(step.i.configs.value).value.preseed
  }

  ghost function Preseeding(uid: string): (World, Step) -> bool {
    (w, step) => PreseedsIn(w, step, uid)
  }

  /** So under discovery configs, and while nobody takes the key away, it is never recorded. */
  lemma DiscoveryNeverRecordsIt(g: Foreign, w: World, steps: seq<Step>, uid: string, id: string, n: int)
    requires Inv(w) && ValidRun(g, w, steps) && StaysAccepted(g, w, steps, id) && id != "" && Unrecorded(w, uid, id)
    requires Never(g, w, steps, Preseeding(uid)) && 0 <= n <= |steps|
    ensures Unrecorded(Run(g, w, steps[..n]), uid, id)
  {
    hide Inv, ValidRun, Run, Never, StaysAccepted, Unrecorded, FindConfig;
    NeverLess(g, w, steps, Preseeding(uid), Recovering(uid, id));
    LostAcceptanceIsFinalIff(g, w, steps, uid, id);
  }

  // ---------------------------------------------------------------- the grace period, in the log

  /** Once set, the recorded time of acceptance stays. */
  lemma AcceptedAtStays(g: Foreign, o: Object, s: Scene, hash: string, i: Input)
    requires Consistent(o, s.marks) && Wellformed(i) && hash != "" && s.marks.acceptedAt.Some?
    ensures ReconcileVm(g, o, s, hash, i).scene.marks.acceptedAt == s.marks.acceptedAt
  {
    hide ClearPreseedKey, Acquire, Converge, FindConfig, Managed, ChainConsistent;
    if Managed(o) && i.configs.Some? && FindConfig(i.configs.value).Some? && !o.deleting {
      var cfg := FindConfig(i.configs.value).value;
      ClearKeeps(o, s, i);
      var c := if o.seen.guestSignalled || TimedOut(o, cfg, i.now) then ClearPreseedKey(s, i, 0) else Stop(s, 0);
      ConvergeChainOnly(g, o, c.scene, cfg, hash, i);
    }
  }

  /** Every ping in the log of a VM that is there came after its recorded acceptance and the delay. */
  ghost predicate Patient(w: World) {
    forall n, k :: 0 <= n < |w.log| && k in w.vms && w.log[n].uid == w.vms[k].obj.uid && w.log[n].event.Pings? ==>
      var m := w.vms[k].marks; m.acceptedAt.Some? && w.log[n].at >= m.acceptedAt.value + POST_ACCEPT_DELAY
  }

  lemma KeylessCalls(g: Foreign, o: Object, s: Scene, hash: string, i: Input)
    requires s.events == [] && Consistent(o, s.marks) && !HasKey(s.marks)
    ensures KeyCalls(ReconcileVm(g, o, s, hash, i).scene.events)
  {
    hide Acquire, Converge, FindConfig, Managed, ChainConsistent, ClearPreseedKey;
    NothingToClear(s, i);
    if i.configs.Some? && FindConfig(i.configs.value).Some? {
      AcquireCalls(g, o, s, FindConfig(i.configs.value).value, i);
    }
  }

  lemma ReconcilePingsInTime(g: Foreign, o: Object, s: Scene, i: Input)
    requires s.events == [] && Consistent(o, s.marks) && Wellformed(i)
    ensures PingsInTime(s.marks, i.now, ReconcileVm(g, o, s, IntentHash(g, o.tenant), i).scene.events)
  {
    hide ReconcileVm, IntentHash, ChainConsistent;
    var vm, mv := Vm(o, s.marks, s.finalizer), Act(s.keys, s.secret, i);
    if HasKey(s.marks) { ActObtainsNothing(g, vm, mv); } else { KeylessCalls(g, o, s, IntentHash(g, o.tenant), i); }
  }

  lemma ReconcileKeepsPatient(g: Foreign, w: World, k: Name, i: Input)
    requires Inv(w) && Patient(w) && k in w.vms && Truthful(w, i)
    ensures Patient(Apply(g, w, Reconciles(k, i)))
  {
    hide ReconcileVm, IntentHash, Consistent, SecretFresh;
    var o, s, hash := w.vms[k].obj, SceneOf(w, k), IntentHash(g, w.vms[k].obj.tenant);
    var w', es := Apply(g, w, Reconciles(k, i)), ResultOf(g, w, k, i).scene.events;
    assert VmOk(w, k);
    TruthfulIsWellformed(w, i);
    ReconcilePingsInTime(g, o, s, i);
    if s.marks.acceptedAt.Some? { AcceptedAtStays(g, o, s, hash, i); }
    forall n, j | 0 <= n < |w'.log| && j in w'.vms && w'.log[n].uid == w'.vms[j].obj.uid && w'.log[n].event.Pings?
      ensures var m := w'.vms[j].marks; m.acceptedAt.Some? && w'.log[n].at >= m.acceptedAt.value + POST_ACCEPT_DELAY
    {
      if j != k { assert Apart(w.vms[j], w.vms[k]); }
      if n >= |w.log| { assert w'.log[n].event == es[n - |w.log|]; } else { assert w'.log[n] == w.log[n]; }
    }
  }

  lemma StepKeepsPatient(g: Foreign, w: World, step: Step)
    requires Inv(w) && Recorded(g, w) && Patient(w) && Valid(g, w, step)
    ensures Patient(Apply(g, w, step))
  {
    hide ReconcileVm, IntentHash, VmOk, Apart, Orphans, Orderly, Tied, Timely, PastOf;
    if step.Reconciles? && step.k in w.vms { ReconcileKeepsPatient(g, w, step.k, step.i); }
  }

  lemma {:induction false} RunKeepsPatient(g: Foreign, w: World, steps: seq<Step>)
    requires Inv(w) && Recorded(g, w) && Patient(w) && ValidRun(g, w, steps)
    ensures Patient(Run(g, w, steps))
    decreases |steps|
  {
    hide Inv, Valid, Apply, Recorded, Patient;
    if steps != [] {
      StepKeepsInv(g, w, steps[0]);
      StepKeepsRecorded(g, w, steps[0]);
      StepKeepsPatient(g, w, steps[0]);
      RunKeepsPatient(g, Apply(g, w, steps[0]), steps[1..]);
    }
  }

  lemma EmptyIsPatient(g: Foreign, w: World)
    requires Initial(w)
    ensures Inv(w) && Recorded(g, w) && Patient(w)
  {
  }

  /** The grace period, read off the log of every run: no ping of a VM comes earlier than 30 seconds
      after its recorded acceptance. */
  lemma PingsWaitForTheMinion(g: Foreign, w0: World, steps: seq<Step>, n: int, k: Name)
    requires Initial(w0) && ValidRun(g, w0, steps) && k in Run(g, w0, steps).vms
    requires var w := Run(g, w0, steps);
             0 <= n < |w.log| && w.log[n].uid == w.vms[k].obj.uid && w.log[n].event.Pings?
    ensures var w := Run(g, w0, steps);
            var m := w.vms[k].marks;
            m.acceptedAt.Some? && w.log[n].at >= m.acceptedAt.value + POST_ACCEPT_DELAY
  {
    hide Run, ValidRun, Inv, Recorded;
    assert Inv(w0) && Recorded(g, w0) && Patient(w0) by { EmptyIsPatient(g, w0); }
    RunKeepsPatient(g, w0, steps);
  }
}
