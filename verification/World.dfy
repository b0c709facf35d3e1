/** Any number of VMs sharing one Salt master: reconciles interleaved with everything tenants,
    vSphere, minions and time may do in between, and the invariant that survives all of it. */
module World {
  import opened Text
  import opened Model
  import opened Intent
  import opened Reconcile
  import opened Consistency
  import opened Keyring

  datatype Name = Name(ns: string, name: string)

  datatype Logged = Logged(uid: string, at: int, event: Event)

  datatype World = World(
    vms: map<Name, Vm>,
    keys: Keys,
    secrets: map<Name, Secret>,
    now: int,
    uids: set<string>,        // every UID handed out so far
    log: seq<Logged>)

  datatype Step =
    | Reconciles(k: Name, i: Input)
    | Appears(k: Name, obj: Object)
    | Changes(k: Name, obj: Object, finalizer: bool)
    | Rekeys(keys: Keys)
    | Collects(k: Name)
    | Ticks(now: int)

  // ---------------------------------------------------------------- steps

  function SecretOf(w: World, k: Name): Option<Secret> {
    if k in w.secrets then Some(w.secrets[k]) else None
  }

  function SceneOf(w: World, k: Name): Scene
    requires k in w.vms
  {
    Scene(w.vms[k].marks, w.vms[k].finalizer, w.keys, SecretOf(w, k), [])
  }

  function Log(uid: string, at: int, events: seq<Event>): seq<Logged> {
    seq(|events|, n requires 0 <= n < |events| => Logged(uid, at, events[n]))
  }

  /** An object marked for deletion goes away with its last finalizer. */
  predicate Persists(vm: Vm) {
    vm.obj.deleting ==> vm.finalizer || vm.obj.otherFinalizers
  }

  function Store(vms: map<Name, Vm>, k: Name, vm: Vm): map<Name, Vm> {
    if Persists(vm) then vms[k := vm] else vms - {k}
  }

  ghost function ResultOf(g: Foreign, w: World, k: Name, i: Input): Result
    requires k in w.vms
  {
    ReconcileVm(g, w.vms[k].obj, SceneOf(w, k), IntentHash(g, w.vms[k].obj.tenant), i)
  }

  function Merge(w: World, k: Name, r: Scene, at: int): World
    requires k in w.vms
  {
    w.(vms := Store(w.vms, k, Vm(w.vms[k].obj, r.marks, r.finalizer)),
       keys := r.keys,
       secrets := if r.secret.Some? then w.secrets[k := r.secret.value] else w.secrets - {k},
       log := w.log + Log(w.vms[k].obj.uid, at, r.events))
  }

  ghost function Apply(g: Foreign, w: World, step: Step): World {
    match step
    case Reconciles(k, i) =>
      if k !in w.vms then w else Merge(w, k, ResultOf(g, w, k, i).scene, w.now)
    case Appears(k, obj) => w.(vms := w.vms[k := Vm(obj, NO_MARKS, false)], uids := w.uids + {obj.uid})
    case Changes(k, obj, finalizer) =>
      if k !in w.vms then w else w.(vms := Store(w.vms, k, Vm(obj, w.vms[k].marks, finalizer)))
    case Rekeys(keys) => w.(keys := keys)
    case Collects(k) => w.(secrets := w.secrets - {k})
    case Ticks(now) => w.(now := now)
  }

  // ---------------------------------------------------------------- what may happen

  /** The VM records a key it has not given back. */
  predicate Live(vm: Vm) {
    vm.marks.minionId != "" && !vm.marks.keyStatus.KeyDeleted?
  }

  /** The deletion of the key succeeded, its record was lost, and the VM stays because of another
      finalizer or because the removal of the operator's own was lost too. */
  predicate Orphans(vm: Vm, i: Input) {
    && Managed(vm.obj) && i.configs.Some? && FindConfig(i.configs.value).Some? && vm.obj.deleting
    && Live(vm) && i.client && i.deleteOk && Status in i.lost
    && (vm.obj.otherFinalizers || (vm.finalizer && Finalizer in i.lost))
  }

  /** What a reconcile is told about the master and the fleet is true, if it is told at all. */
  ghost predicate Truthful(w: World, i: Input) {
    && i.now == w.now && Wellformed(i)
    && (i.pending.Some? ==> forall id :: id in i.pending.value ==> id in w.keys && w.keys[id].state == PendingKey)
    && (i.fleet.Some? ==> forall k :: k in w.vms ==> w.vms[k] in i.fleet.value)
  }

  /** Nobody else touches the key of a live VM, the operator's annotations, or the Secret of a VM
      that exists; a finalizer may be removed by hand, and a deletion is never taken back. */
  ghost predicate Possible(w: World, step: Step) {
    match step
    case Reconciles(k, i) => Truthful(w, i)
    case Appears(k, obj) => k !in w.vms && obj.uid !in w.uids && obj.name == k.name && k.name != "" && !obj.deleting
    case Changes(k, obj, finalizer) =>
      k in w.vms ==>
        var vm := w.vms[k];
        && obj.uid == vm.obj.uid && obj.name == vm.obj.name
        && (vm.obj.deleting ==> obj.deleting) && (finalizer ==> vm.finalizer)
    case Rekeys(keys) =>
      forall k :: k in w.vms && Live(w.vms[k]) ==>
        var id := w.vms[k].marks.minionId; id in w.keys ==> id in keys && keys[id] == w.keys[id]
    case Collects(k) => forall j :: j in w.vms && k in w.secrets ==> w.vms[j].obj.uid != w.secrets[k].owner
    case Ticks(now) => now >= w.now
  }

  /** Anything possible, except that no reconcile orphans a key. */
  ghost predicate Valid(g: Foreign, w: World, step: Step) {
    Possible(w, step) && (step.Reconciles? && step.k in w.vms ==> !Orphans(w.vms[step.k], step.i))
  }

  // ---------------------------------------------------------------- the invariant

  predicate KeyHeld(keys: Keys, vm: Vm) {
    Live(vm) ==> vm.marks.minionId in keys && keys[vm.marks.minionId].state == AcceptedKey
  }

  predicate Timely(m: Marks, now: int) {
    && (m.acceptedAt.Some? ==> m.acceptedAt.value <= now)
    && (m.highstateTime.Some? ==> m.highstateTime.value <= now)
  }

  predicate VmOk(w: World, k: Name)
    requires k in w.vms
  {
    var vm := w.vms[k];
    && Consistent(vm.obj, vm.marks) && vm.obj.name == k.name && vm.obj.uid in w.uids
    && KeyHeld(w.keys, vm)
    && SecretFresh(vm.obj, vm.marks, w.keys, SecretOf(w, k))
  }

  /** Two VMs are different objects and hold different keys. */
  predicate Apart(a: Vm, b: Vm) {
    && a.obj.uid != b.obj.uid
    && (Live(a) && Live(b) ==> a.marks.minionId != b.marks.minionId)
  }

  ghost predicate Inv(w: World) {
    && (forall k :: k in w.vms ==> VmOk(w, k))
    && (forall j, k :: j in w.vms && k in w.vms && j != k ==> Apart(w.vms[j], w.vms[k]))
  }

  // ---------------------------------------------------------------- a reconcile keeps it

  /** The keys other live VMs record are left as they are. */
  ghost predicate SparesOthers(w: World, k: Name, keys: Keys) {
    forall j :: j in w.vms && j != k && Live(w.vms[j]) ==>
      var id := w.vms[j].marks.minionId;
      id in w.keys && id in keys && keys[id] == w.keys[id]
  }

  lemma {:induction false} OwnerSees(fleet: seq<Vm>, uid: string, id: string, vm: Vm)
    requires vm in fleet && vm.obj.uid != uid && vm.marks.minionId == id
    ensures Owner(fleet, uid, id).Some?
  {
    if fleet[0] != vm { OwnerSees(fleet[1..], uid, id, vm); }
  }

  /** An ID that may be acquired is recorded by no other live VM. */
  lemma AcquirableIsFree(w: World, k: Name, i: Input, id: string)
    requires Inv(w) && k in w.vms && Truthful(w, i) && MayAcquire(w.vms[k].obj, i, id)
    ensures forall j :: j in w.vms && j != k && Live(w.vms[j]) ==> w.vms[j].marks.minionId != id
  {
    forall j | j in w.vms && j != k && Live(w.vms[j]) ensures w.vms[j].marks.minionId != id {
      assert VmOk(w, j) && Apart(w.vms[j], w.vms[k]);
      if w.vms[j].marks.minionId == id && !(i.pending.Some? && id in i.pending.value) {
        OwnerSees(i.fleet.value, w.vms[k].obj.uid, id, w.vms[j]);
      }
    }
  }

  /** A reconcile never removes, replaces or re-accepts a key that another live VM records. */
  lemma ReconcileSparesOthers(g: Foreign, w: World, k: Name, i: Input)
    requires Inv(w) && k in w.vms && Truthful(w, i)
    ensures SparesOthers(w, k, ResultOf(g, w, k, i).scene.keys)
  {
    hide Consistent, ReconcileVm, MayAcquire, SecretFresh, IntentHash;
    var s := SceneOf(w, k);
    var r := ResultOf(g, w, k, i).scene;
    assert VmOk(w, k);
    var id := ReconcileKeyEffect(g, w.vms[k].obj, s, IntentHash(g, w.vms[k].obj.tenant), i);
    if Acquired(w.vms[k].obj, s, r, i, id) { AcquirableIsFree(w, k, i, id); }
    forall j | j in w.vms && j != k && Live(w.vms[j])
      ensures var x := w.vms[j].marks.minionId; x in w.keys && x in r.keys && r.keys[x] == w.keys[x]
    {
      var x := w.vms[j].marks.minionId;
      assert VmOk(w, j) && Apart(w.vms[j], w.vms[k]);
      if Acquired(w.vms[k].obj, s, r, i, id) {
        assert x in s.keys - {id};
        assert (r.keys - {id})[x] == (s.keys - {id})[x];
      }
    }
  }

  /** A key removed without a record of it belongs to an orphaned VM or to one that is gone. */
  lemma OrphansOnly(g: Foreign, w: World, k: Name, i: Input)
    requires k in w.vms && Removed(w.vms[k].obj, SceneOf(w, k), ResultOf(g, w, k, i).scene, i)
    requires w.keys != ResultOf(g, w, k, i).scene.keys
    ensures var r := ResultOf(g, w, k, i).scene;
            Persists(Vm(w.vms[k].obj, r.marks, r.finalizer)) && !r.marks.keyStatus.KeyDeleted? ==> Orphans(w.vms[k], i)
  {
    hide IntentHash, FindConfig, Managed;
  }

  /** Afterwards the VM holds its own key and nobody else records it. */
  lemma ReconcileHoldsOwn(g: Foreign, w: World, k: Name, i: Input)
    requires Inv(w) && k in w.vms && Truthful(w, i) && !Orphans(w.vms[k], i)
    ensures var r := ResultOf(g, w, k, i).scene;
            var vm := Vm(w.vms[k].obj, r.marks, r.finalizer);
            && (Persists(vm) ==> KeyHeld(r.keys, vm))
            && (Persists(vm) ==> forall j :: j in w.vms && j != k ==> Apart(w.vms[j], vm) && Apart(vm, w.vms[j]))
  {
    hide Consistent, MayAcquire, SecretFresh, IntentHash, ReconcileVm;
    var s := SceneOf(w, k);
    var r := ResultOf(g, w, k, i).scene;
    var o := w.vms[k].obj;
    var vm := Vm(o, r.marks, r.finalizer);
    assert VmOk(w, k);
    var id := ReconcileKeyEffect(g, o, s, IntentHash(g, o.tenant), i);
    if Acquired(o, s, r, i, id) { AcquirableIsFree(w, k, i, id); }
    else if Removed(o, s, r, i) && !Kept(s, r) { OrphansOnly(g, w, k, i); }
    forall j | j in w.vms && j != k ensures Apart(w.vms[j], vm) && Apart(vm, w.vms[j]) {
      assert Apart(w.vms[j], w.vms[k]) && Apart(w.vms[k], w.vms[j]);
    }
  }

  /** Another VM is as it was: its key on the master did not change. */
  lemma VmOkFrame(w: World, w': World, j: Name)
    requires j in w.vms && j in w'.vms && w'.vms[j] == w.vms[j] && VmOk(w, j)
    requires SecretOf(w', j) == SecretOf(w, j) && w.uids <= w'.uids
    requires Live(w.vms[j]) ==>
               var id := w.vms[j].marks.minionId; id in w'.keys && id in w.keys && w'.keys[id] == w.keys[id]
    ensures VmOk(w', j)
  {
    hide ChainConsistent;
  }

  lemma TruthfulIsWellformed(w: World, i: Input)
    requires Truthful(w, i)
    ensures Wellformed(i)
  {
  }

  /** The VM itself comes out well. */
  lemma ReconcileVmOk(g: Foreign, w: World, k: Name, i: Input)
    requires Inv(w) && k in w.vms && Truthful(w, i) && !Orphans(w.vms[k], i)
    ensures var w' := Apply(g, w, Reconciles(k, i)); k in w'.vms ==> VmOk(w', k)
  {
    hide Consistent, SecretFresh, IntentHash, ReconcileVm, Managed, Orphans, Truthful;
    assert VmOk(w, k);
    var o, s, hash := w.vms[k].obj, SceneOf(w, k), IntentHash(g, w.vms[k].obj.tenant);
    assert Wellformed(i) by { TruthfulIsWellformed(w, i); }
    ReconcileKeepsConsistency(g, o, s, hash, i);
    ReconcileKeepsSecretFresh(g, o, s, hash, i);
    ReconcileHoldsOwn(g, w, k, i);
  }

  lemma ReconcileKeepsInv(g: Foreign, w: World, k: Name, i: Input)
    requires Inv(w) && Truthful(w, i) && (k in w.vms ==> !Orphans(w.vms[k], i))
    ensures Inv(Apply(g, w, Reconciles(k, i)))
  {
    hide Consistent, SecretFresh, IntentHash, ReconcileVm, Managed, Orphans, Truthful, VmOk, Apart;
    if k in w.vms {
      var w' := Apply(g, w, Reconciles(k, i));
      ReconcileSparesOthers(g, w, k, i);
      ReconcileHoldsOwn(g, w, k, i);
      ReconcileVmOk(g, w, k, i);
      forall j | j in w'.vms && j != k ensures VmOk(w', j) {
        assert VmOk(w, j);
        VmOkFrame(w, w', j);
      }
    }
  }

  // ---------------------------------------------------------------- every step keeps it

  lemma RekeyKeepsVmOk(w: World, w': World, j: Name)
    requires j in w.vms && VmOk(w, j) && w'.vms == w.vms && w'.uids == w.uids && SecretOf(w', j) == SecretOf(w, j)
    requires Live(w.vms[j]) && w.vms[j].marks.minionId in w.keys ==>
               w.vms[j].marks.minionId in w'.keys && w'.keys[w.vms[j].marks.minionId] == w.keys[w.vms[j].marks.minionId]
    ensures VmOk(w', j)
  {
    hide Consistent, SecretFresh;
    VmOkFrame(w, w', j);
  }

  lemma NewVmOk(w: World, w': World, k: Name, obj: Object)
    requires k !in w.vms && obj.name == k.name && k.name != ""
    requires w' == w.(vms := w.vms[k := Vm(obj, NO_MARKS, false)], uids := w.uids + {obj.uid})
    ensures VmOk(w', k)
  {
  }

  lemma AppearsKeepsInv(g: Foreign, w: World, k: Name, obj: Object)
    requires Inv(w) && Valid(g, w, Appears(k, obj))
    ensures Inv(Apply(g, w, Appears(k, obj)))
  {
    hide Consistent, SecretFresh;
    var w' := Apply(g, w, Appears(k, obj));
    NewVmOk(w, w', k, obj);
    forall j | j in w.vms ensures VmOk(w', j) { VmOkFrame(w, w', j); }
  }

  lemma ChangeKeepsVmOk(w: World, k: Name, obj: Object, finalizer: bool)
    requires k in w.vms && VmOk(w, k) && obj.uid == w.vms[k].obj.uid && obj.name == w.vms[k].obj.name
    requires w.vms[k].obj.deleting ==> obj.deleting
    ensures var w' := w.(vms := Store(w.vms, k, Vm(obj, w.vms[k].marks, finalizer))); k in w'.vms ==> VmOk(w', k)
  {
    hide ChainConsistent;
  }

  lemma ChangesKeepsInv(g: Foreign, w: World, k: Name, obj: Object, finalizer: bool)
    requires Inv(w) && Valid(g, w, Changes(k, obj, finalizer))
    ensures Inv(Apply(g, w, Changes(k, obj, finalizer)))
  {
    hide Consistent, SecretFresh;
    var w' := Apply(g, w, Changes(k, obj, finalizer));
    if k in w.vms { ChangeKeepsVmOk(w, k, obj, finalizer); }
    forall j | j in w'.vms && j != k ensures VmOk(w', j) { VmOkFrame(w, w', j); }
    forall a, b | a in w'.vms && b in w'.vms && a != b ensures Apart(w'.vms[a], w'.vms[b]) {
      assert Apart(w.vms[a], w.vms[b]);
    }
  }

  lemma CollectKeepsVmOk(w: World, k: Name)
    requires k in w.vms && VmOk(w, k) && (k in w.secrets ==> w.vms[k].obj.uid != w.secrets[k].owner)
    ensures VmOk(w.(secrets := w.secrets - {k}), k)
  {
    hide Consistent;
  }

  lemma InvGivesVmOk(w: World, k: Name)
    requires Inv(w) && k in w.vms
    ensures VmOk(w, k)
  {
  }

  lemma StepKeepsInv(g: Foreign, w: World, step: Step)
    requires Inv(w) && Valid(g, w, step)
    ensures Inv(Apply(g, w, step))
  {
    hide VmOk, Apart, IntentHash, ReconcileVm, Orphans, Truthful, Live;
    var w' := Apply(g, w, step);
    match step
    case Reconciles(k, i) => ReconcileKeepsInv(g, w, k, i);
    case Appears(k, obj) => AppearsKeepsInv(g, w, k, obj);
    case Changes(k, obj, finalizer) => ChangesKeepsInv(g, w, k, obj, finalizer);
    case Rekeys(keys) =>
      forall j | j in w.vms ensures VmOk(w', j) {
        InvGivesVmOk(w, j);
        RekeyKeepsVmOk(w, w', j);
      }
    case Collects(k) =>
      forall j | j in w.vms ensures VmOk(w', j) {
        InvGivesVmOk(w, j);
        if j == k { CollectKeepsVmOk(w, k); } else { RekeyKeepsVmOk(w, w', j); }
      }
    case Ticks(now) =>
      forall j | j in w.vms ensures VmOk(w', j) {
        InvGivesVmOk(w, j);
        RekeyKeepsVmOk(w, w', j);
      }
  }

  // ---------------------------------------------------------------- runs

  ghost function Run(g: Foreign, w: World, steps: seq<Step>): World
    decreases |steps|
  {
    if steps == [] then w else Run(g, Apply(g, w, steps[0]), steps[1..])
  }

  ghost predicate ValidRun(g: Foreign, w: World, steps: seq<Step>)
    decreases |steps|
  {
    steps == [] || (Valid(g, w, steps[0]) && ValidRun(g, Apply(g, w, steps[0]), steps[1..]))
  }

  ghost predicate PossibleRun(g: Foreign, w: World, steps: seq<Step>)
    decreases |steps|
  {
    steps == [] || (Possible(w, steps[0]) && PossibleRun(g, Apply(g, w, steps[0]), steps[1..]))
  }

  lemma {:induction false} RunSnoc(g: Foreign, w: World, steps: seq<Step>, step: Step)
    ensures Run(g, w, steps + [step]) == Apply(g, Run(g, w, steps), step)
    ensures ValidRun(g, w, steps + [step]) <==> ValidRun(g, w, steps) && Valid(g, Run(g, w, steps), step)
    decreases |steps|
  {
    hide Apply, Valid;
    if steps == [] {
      assert [step][1..] == [];
    } else {
      assert (steps + [step])[1..] == steps[1..] + [step];
      RunSnoc(g, Apply(g, w, steps[0]), steps[1..], step);
    }
  }

  lemma RunNothing(g: Foreign, w: World)
    ensures Run(g, w, []) == w && ValidRun(g, w, [])
  {
  }

  lemma RunFirst(g: Foreign, w: World, steps: seq<Step>, n: int)
    requires 0 < n <= |steps|
    ensures Run(g, w, steps[..n]) == Run(g, Apply(g, w, steps[0]), steps[1..][..n - 1])
  {
    hide Apply;
    assert steps[..n][1..] == steps[1..][..n - 1];
  }

  /** No step of the run is one of the `bad` ones. */
  ghost predicate Never(g: Foreign, w: World, steps: seq<Step>, bad: (World, Step) -> bool)
    decreases |steps|
  {
    steps == [] || (!bad(w, steps[0]) && Never(g, Apply(g, w, steps[0]), steps[1..], bad))
  }

  lemma {:induction false} NeverLess(g: Foreign, w: World, steps: seq<Step>, bad: (World, Step) -> bool,
                                     worse: (World, Step) -> bool)
    requires Never(g, w, steps, bad) && forall v, step :: worse(v, step) ==> bad(v, step)
    ensures Never(g, w, steps, worse)
    decreases |steps|
  {
    hide Apply;
    if steps != [] { NeverLess(g, Apply(g, w, steps[0]), steps[1..], bad, worse); }
  }

  /** No VM exists yet; the master, the Secrets and the clock are arbitrary. */
  predicate Initial(w: World) {
    w.vms == map[] && w.uids == {} && w.log == []
  }

  lemma InitialIsFine(w: World)
    requires Initial(w)
    ensures Inv(w)
  {
  }

  lemma {:induction false} RunKeepsInv(g: Foreign, w: World, steps: seq<Step>)
    requires Inv(w) && ValidRun(g, w, steps)
    ensures Inv(Run(g, w, steps))
    decreases |steps|
  {
    hide Inv, Valid, Apply;
    if steps != [] {
      StepKeepsInv(g, w, steps[0]);
      RunKeepsInv(g, Apply(g, w, steps[0]), steps[1..]);
    }
  }

  /** Key ownership, in every state of every run of any number of VMs: two VMs never record the same
      live key, every recorded live key is accepted on the master, and the next reconcile, whatever
      its mode, leaves the keys of all other live VMs exactly as they are. */
  lemma KeyOwnership(g: Foreign, w0: World, steps: seq<Step>, j: Name, k: Name, i: Input)
    requires Initial(w0) && ValidRun(g, w0, steps)
    ensures var w := Run(g, w0, steps);
            && (k in w.vms && Live(w.vms[k]) ==>
                  w.vms[k].marks.minionId in w.keys && w.keys[w.vms[k].marks.minionId].state == AcceptedKey)
            && (j in w.vms && k in w.vms && j != k && Live(w.vms[j]) && Live(w.vms[k]) ==>
                  w.vms[j].marks.minionId != w.vms[k].marks.minionId)
            && (k in w.vms && Truthful(w, i) ==> SparesOthers(w, k, ResultOf(g, w, k, i).scene.keys))
  {
    hide Run, ResultOf, SparesOthers, Truthful, Consistent, SecretFresh;
    RunKeepsInv(g, w0, steps);
    var w := Run(g, w0, steps);
    if k in w.vms {
      assert VmOk(w, k);
      if Truthful(w, i) { ReconcileSparesOthers(g, w, k, i); }
      if j in w.vms && j != k { assert Apart(w.vms[j], w.vms[k]); }
    }
  }

  /** The one write whose loss breaks it: from a good state a reconcile leads to a good state exactly
      when it does not delete a key, lose the record of that, and leave the VM in place. */
  lemma OwnershipIffNotOrphaned(g: Foreign, w: World, k: Name, i: Input)
    requires Inv(w) && k in w.vms && Truthful(w, i)
    ensures Inv(Apply(g, w, Reconciles(k, i))) <==> !Orphans(w.vms[k], i)
  {
    hide Consistent, SecretFresh, IntentHash, FindConfig, Managed, Inv, ClearPreseedKey, Acquire, Converge;
    if Orphans(w.vms[k], i) {
      var w' := Apply(g, w, Reconciles(k, i));
      assert VmOk(w, k) by { InvGivesVmOk(w, k); }
      assert k in w'.vms && Live(w'.vms[k]) && w'.vms[k].marks.minionId !in w'.keys;
      if Inv(w') { InvGivesVmOk(w', k); }
    } else {
      ReconcileKeepsInv(g, w, k, i);
    }
  }

  lemma OwnershipStepIff(g: Foreign, w: World, step: Step)
    requires Inv(w) && Possible(w, step)
    ensures Inv(Apply(g, w, step)) <==> Valid(g, w, step)
  {
    hide Inv, Apply, Orphans, Truthful;
    if step.Reconciles? && step.k in w.vms { OwnershipIffNotOrphaned(g, w, step.k, step.i); }
    else { StepKeepsInv(g, w, step); }
  }

  /** Over whole runs: of all possible runs, those that keep key ownership in every state are exactly
      those in which no reconcile orphans a key. */
  lemma {:induction false} RunOwnershipIff(g: Foreign, w: World, steps: seq<Step>)
    requires Inv(w) && PossibleRun(g, w, steps)
    ensures (forall n :: 0 <= n <= |steps| ==> Inv(Run(g, w, steps[..n]))) <==> ValidRun(g, w, steps)
    decreases |steps|
  {
    hide Inv, Valid, Possible, Apply, Run;
    assert Run(g, w, steps[..0]) == w by { RunNothing(g, w); }
    if steps != [] {
      var w' := Apply(g, w, steps[0]);
      OwnershipStepIff(g, w, steps[0]);
      forall n | 0 < n <= |steps| ensures Run(g, w, steps[..n]) == Run(g, w', steps[1..][..n - 1]) {
        RunFirst(g, w, steps, n);
      }
      assert Run(g, w', steps[1..][..0]) == w' by { RunNothing(g, w'); }
      if Inv(w') {
        RunOwnershipIff(g, w', steps[1..]);
        if forall n :: 0 <= n <= |steps| ==> Inv(Run(g, w, steps[..n])) {
          forall n | 0 <= n <= |steps[1..]| ensures Inv(Run(g, w', steps[1..][..n])) {
            assert Inv(Run(g, w, steps[..n + 1]));
          }
        }
      } else {
        assert !Inv(Run(g, w, steps[..1]));
      }
    }
  }

  /** If exactly the bad steps lead from good states to others, then a run stays good exactly when none
      of its steps is bad. */
  lemma {:induction false} GoodThroughoutIff(g: Foreign, w: World, steps: seq<Step>, good: World -> bool,
                                             bad: (World, Step) -> bool)
    requires Inv(w) && ValidRun(g, w, steps) && good(w)
    requires forall v, step :: Inv(v) && Valid(g, v, step) && good(v) ==> (good(Apply(g, v, step)) <==> !bad(v, step))
    ensures (forall n :: 0 <= n <= |steps| ==> good(Run(g, w, steps[..n]))) <==> Never(g, w, steps, bad)
    ensures Never(g, w, steps, bad) ==> good(Run(g, w, steps))
    decreases |steps|
  {
    hide Inv, Valid, Apply, Run;
    RunNothing(g, w);
    assert steps[..0] == [] && steps[..|steps|] == steps;
    if steps != [] {
      var w', rest := Apply(g, w, steps[0]), steps[1..];
      StepKeepsInv(g, w, steps[0]);
      RunNothing(g, w');
      assert rest[..0] == [];
      forall n | 0 < n <= |steps| ensures Run(g, w, steps[..n]) == Run(g, w', rest[..n - 1]) {
        RunFirst(g, w, steps, n);
      }
      assert Run(g, w, steps[..1]) == w';
      if good(w') {
        GoodThroughoutIff(g, w', rest, good, bad);
        if forall n :: 0 <= n <= |steps| ==> good(Run(g, w, steps[..n])) {
          forall n | 0 <= n <= |rest| ensures good(Run(g, w', rest[..n])) { assert good(Run(g, w, steps[..n + 1])); }
        }
      }
    }
  }
}
