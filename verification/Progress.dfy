/** One VM over time: its reconciles under arbitrary states of the master, Secrets and configs,
    with tenant edits in between. Failed states stay put, chains end, and every re-run is paid
    for by something that asked for it. */
module Progress {
  import opened Text
  import opened Model
  import opened Intent
  import opened Reconcile
  import opened Consistency
  import opened Keyring
  import Enforcement

  /** Someone else changes the VM, or the operator reconciles it. */
  datatype Move =
    | Edit(obj: Object, finalizer: bool)
    | Act(keys: Keys, secret: Option<Secret>, i: Input)

  function Before(vm: Vm, mv: Move): Scene
    requires mv.Act?
  {
    Scene(vm.marks, vm.finalizer, mv.keys, mv.secret, [])
  }

  ghost function Acting(g: Foreign, vm: Vm, mv: Move): Result
    requires mv.Act?
  {
    ReconcileVm(g, vm.obj, Before(vm, mv), IntentHash(g, vm.obj.tenant), mv.i)
  }

  ghost function After(g: Foreign, vm: Vm, mv: Move): Vm {
    match mv
    case Edit(obj, finalizer) => Vm(obj, vm.marks, finalizer)
    case Act(_, _, _) => var r := Acting(g, vm, mv).scene; Vm(vm.obj, r.marks, r.finalizer)
  }

  ghost function AfterAll(g: Foreign, vm: Vm, mvs: seq<Move>): Vm
    decreases |mvs|
  {
    if mvs == [] then vm else AfterAll(g, After(g, vm, mvs[0]), mvs[1..])
  }

  /** Edits keep the VM's identity, never take a deletion back and may take the finalizer away. */
  ghost predicate Proper(vm: Vm, mv: Move) {
    match mv
    case Edit(obj, finalizer) =>
      && obj.uid == vm.obj.uid && obj.name == vm.obj.name
      && (vm.obj.deleting ==> obj.deleting) && (finalizer ==> vm.finalizer)
    case Act(_, _, i) => Wellformed(i)
  }

  ghost predicate ProperRun(g: Foreign, vm: Vm, mvs: seq<Move>)
    decreases |mvs|
  {
    mvs == [] || (Proper(vm, mvs[0]) && ProperRun(g, After(g, vm, mvs[0]), mvs[1..]))
  }

  // ---------------------------------------------------------------- what asks for another run

  /** The config in effect asks for nothing the VM has not handled. */
  predicate QuietConfig(m: Marks, i: Input) {
    i.configs.Some? && FindConfig(i.configs.value).Some? ==>
        !BulkChanged(m, FindConfig(i.configs.value).value.retryToken)
  }

  /** The intent hash is the stored one, or there is none to compare with. */
  predicate SameIntent(m: Marks, hash: string) {
    m.rolesHash == "" || hash == m.rolesHash
  }

  // ---------------------------------------------------------------- Failed is a fixpoint

  /** A failed VM with no unhandled trigger. */
  ghost predicate Settled(g: Foreign, vm: Vm) {
    && Consistent(vm.obj, vm.marks) && vm.marks.keyStatus.Accepted? && vm.marks.saltStatus.Failed?
    && vm.finalizer && !vm.obj.deleting
    && SameIntent(vm.marks, IntentHash(g, vm.obj.tenant)) && !RetryRequested(vm.obj, vm.marks)
  }

  /** A move that triggers nothing. */
  ghost predicate Quiet(g: Foreign, vm: Vm, mv: Move) {
    match mv
    case Edit(obj, finalizer) =>
      && obj.uid == vm.obj.uid && obj.name == vm.obj.name && !obj.deleting && finalizer
      && SameIntent(vm.marks, IntentHash(g, obj.tenant)) && !RetryRequested(obj, vm.marks)
    case Act(_, _, i) => QuietConfig(vm.marks, i)
  }

  lemma SettledActsNot(g: Foreign, vm: Vm, mv: Move)
    requires Settled(g, vm) && mv.Act? && Quiet(g, vm, mv)
    ensures Acting(g, vm, mv).scene == Before(vm, mv)
  {
    hide IntentHash, FindConfig, Get, Managed;
  }

  ghost predicate AllQuiet(g: Foreign, vm: Vm, mvs: seq<Move>)
    decreases |mvs|
  {
    mvs == [] || (Quiet(g, vm, mvs[0]) && AllQuiet(g, After(g, vm, mvs[0]), mvs[1..]))
  }

  lemma QuietKeepsSettled(g: Foreign, vm: Vm, mv: Move)
    requires Settled(g, vm) && Quiet(g, vm, mv)
    ensures Settled(g, After(g, vm, mv))
  {
    hide ReconcileVm, IntentHash, Get;
    if mv.Act? { SettledActsNot(g, vm, mv); }
  }

  /** From a failed state with no unhandled trigger, any number of reconciles at any time, under any
      config and enforcement interval, leaves annotations, finalizer, Secret and master as they
      were and calls Salt not once. */
  lemma {:induction false} FailedIsFixpoint(g: Foreign, vm: Vm, mvs: seq<Move>, n: int)
    requires Settled(g, vm) && AllQuiet(g, vm, mvs)
    ensures AfterAll(g, vm, mvs).marks == vm.marks && AfterAll(g, vm, mvs).finalizer
    ensures 0 <= n < |mvs| && mvs[n].Act? ==>
              Acting(g, AfterAll(g, vm, mvs[..n]), mvs[n]).scene == Before(AfterAll(g, vm, mvs[..n]), mvs[n])
    decreases |mvs|
  {
    hide ReconcileVm, IntentHash, Consistent, RetryRequested, QuietConfig;
    if mvs != [] {
      var vm' := After(g, vm, mvs[0]);
      if mvs[0].Act? { SettledActsNot(g, vm, mvs[0]); }
      assert Settled(g, vm') by { QuietKeepsSettled(g, vm, mvs[0]); }
      FailedIsFixpoint(g, vm', mvs[1..], n - 1);
      if 0 < n < |mvs| { assert mvs[..n][1..] == mvs[1..][..n - 1]; }
    }
  }

  /** A config is in effect, a client can be had, the VM is selected and every write lands. */
  predicate Serves(o: Object, i: Input) {
    Managed(o) && i.configs.Some? && FindConfig(i.configs.value).Some? && i.selected && i.client && i.lost == {}
  }

  /** Once the chain has started there is nothing left to clear. */
  lemma ClearedAlready(o: Object, s: Scene, i: Input)
    requires Consistent(o, s.marks) && s.marks.saltStatus != Unstarted
    ensures ClearPreseedKey(s, i, 0) == Stop(s, 0)
  {
  }

  /** And exactly a trigger moves it: an error-free reconcile sends a failed VM back to the start of
      the chain if and only if something explicit is unhandled or the intent differs from a stored
      hash. Before the first highstate there is no stored hash, so edits of the intent do nothing. */
  lemma FailedReactsIff(g: Foreign, vm: Vm, mv: Move)
    requires Consistent(vm.obj, vm.marks) && vm.marks.keyStatus.Accepted? && vm.marks.saltStatus.Failed?
    requires mv.Act? && Serves(vm.obj, mv.i) && !vm.obj.deleting
    ensures var token := FindConfig(mv.i.configs.value).value.retryToken;
            var r := Acting(g, vm, mv).scene;
            && (r.marks.saltStatus == Unstarted <==>
                  Asked(vm.obj, vm.marks, token) || !SameIntent(vm.marks, IntentHash(g, vm.obj.tenant)))
            && (r.events == [ChainReset] <==> r.marks.saltStatus == Unstarted)
  {
    hide IntentHash, FindConfig, Get, Managed, ClearPreseedKey;
    ClearedAlready(vm.obj, Before(vm, mv), mv.i);
  }

  // ---------------------------------------------------------------- chains end

  /** Turns left until the chain is over. */
  function Rank(m: Marks): nat {
    match m.saltStatus
    case Unstarted => 4
    case Pinged => 3
    case PillarRefreshed => 2
    case HighstateDispatched => 1
    case _ => 0
  }

  /** A reconcile that cannot advance the chain: it is not served, the minion's grace period is not
      over, a call failed inside the retry window, or the highstate is still running. */
  predicate Stalls(o: Object, m: Marks, i: Input) {
    || !Serves(o, i)
    || (m.saltStatus.Unstarted? &&
        (Within(m, i.now, POST_ACCEPT_DELAY) || (i.ping != Yes && Within(m, i.now, MAX_BOOTSTRAP))))
    || (m.saltStatus.Pinged? && i.refresh != Yes && Within(m, i.now, MAX_BOOTSTRAP))
    || (m.saltStatus.HighstateDispatched? && !i.poll.Done?)
  }

  /** Nothing is asked for: no trigger is pending, and the config neither asks nor schedules. */
  ghost predicate Calm(g: Foreign, vm: Vm) {
    && Consistent(vm.obj, vm.marks) && vm.marks.keyStatus.Accepted? && !vm.obj.deleting
    && SameIntent(vm.marks, IntentHash(g, vm.obj.tenant)) && !RetryRequested(vm.obj, vm.marks)
  }

  predicate CalmConfig(m: Marks, i: Input) {
    && QuietConfig(m, i)
    && (i.configs.Some? && FindConfig(i.configs.value).Some? ==>
          FindConfig(i.configs.value).value.enforcement.None?)
  }

  /** The rank does not rise, falls unless stalled, and nothing is asked for that was not before. */
  ghost predicate Advances(o: Object, m: Marks, hash: string, i: Input, r: Marks) {
    && Rank(r) <= Rank(m) && (Rank(m) > 0 && !Stalls(o, m, i) ==> Rank(r) < Rank(m))
    && SameIntent(r, hash) && r.bulkHandled == m.bulkHandled && r.retryHandled == m.retryHandled
  }

  ghost predicate PlanAdvances(o: Object, m: Marks, hash: string, i: Input, p: Plan) {
    && p.bulk.None?
    && (p.marks.Some? ==> Advances(o, m, hash, i, p.marks.value))
    && (p.marks.None? ==> Rank(m) == 0 || Stalls(o, m, i))
  }

  lemma EarlyAdvances(g: Foreign, o: Object, m: Marks, cfg: Config, hash: string, i: Input)
    requires m.saltStatus.Unstarted? || m.saltStatus.Pinged? || m.saltStatus.PillarRefreshed?
    requires SameIntent(m, hash)
    ensures PlanAdvances(o, m, hash, i, ChainPlan(g, o, m, cfg, hash, i))
  {
    hide Serves, ReadyPlan, FailedPlan, PollPlan;
  }

  lemma LateAdvances(g: Foreign, o: Object, m: Marks, cfg: Config, hash: string, i: Input)
    requires !m.saltStatus.Unstarted? && !m.saltStatus.Pinged? && !m.saltStatus.PillarRefreshed?
    requires m.saltStatus.HighstateDispatched? ==> m.jid != ""
    requires SameIntent(m, hash) && !Asked(o, m, cfg.retryToken) && cfg.enforcement.None?
    ensures PlanAdvances(o, m, hash, i, ChainPlan(g, o, m, cfg, hash, i))
  {
    hide Serves, Get, Day2Plan, PingPlan, RefreshPlan, DispatchPlan;
  }

  /** The turn ran to its end. */
  predicate Lands(s: Scene, p: Plan, r: Scene) {
    && p.marks.Some? && r.marks == p.marks.value.(keyCleared := r.marks.keyCleared)
    && r.events == s.events + p.calls + p.landed
  }

  /** It stopped short of its patch, if it has one: at most a token or a clearing is recorded. */
  predicate Stops(s: Scene, p: Plan, r: Scene) {
    && r.marks == s.marks.(bulkHandled := r.marks.bulkHandled, keyCleared := r.marks.keyCleared)
    && (r.marks.bulkHandled == s.marks.bulkHandled || p.bulk == Some(r.marks.bulkHandled))
    && (r.events == s.events || r.events == s.events + p.calls)
  }

  lemma LosslessClears(s: Scene, i: Input)
    requires i.lost == {}
    ensures !ClearPreseedKey(s, i, 0).out.Failure?
  {
  }

  lemma ExecuteEnds(o: Object, s: Scene, p: Plan, i: Input)
    requires Consistent(o, s.marks)
    ensures var r := Execute(s, p, i).scene;
            && (Lands(s, p, r) || Stops(s, p, r))
            && (i.lost == {} && p.marks.Some? ==> Lands(s, p, r))
  {
    hide ClearPreseedKey, Consistent;
    var b := if p.bulk.Some? then s.(marks := s.marks.(bulkHandled := p.bulk.value)) else s;
    BulkKeeps(o, s.marks, b.marks.bulkHandled);
    var e := b.(events := b.events + p.calls);
    ClearKeeps(o, e, i);
    if i.lost == {} { LosslessClears(e, i); }
  }

  lemma EndsAdvance(o: Object, s: Scene, hash: string, i: Input, p: Plan, r: Scene)
    requires PlanAdvances(o, s.marks, hash, i, p) && SameIntent(s.marks, hash)
    requires Lands(s, p, r) || (Stops(s, p, r) && (!Serves(o, i) || p.marks.None?))
    ensures Advances(o, s.marks, hash, i, r.marks)
  {
    hide Serves, Within;
  }

  lemma ConvergeAdvances(g: Foreign, o: Object, s: Scene, cfg: Config, hash: string, i: Input)
    requires Consistent(o, s.marks) && s.marks.minionId != ""
    requires SameIntent(s.marks, hash) && !Asked(o, s.marks, cfg.retryToken) && cfg.enforcement.None?
    ensures Advances(o, s.marks, hash, i, Converge(g, o, s, cfg, hash, i).scene.marks)
  {
    hide ChainPlan, Execute, Get, FindConfig, Managed, KeyConsistent, Within, Lands, Stops, PlanAdvances, Rank,
        SameIntent;
    var p := ChainPlan(g, o, s.marks, cfg, hash, i);
    if s.marks.saltStatus.Unstarted? || s.marks.saltStatus.Pinged? || s.marks.saltStatus.PillarRefreshed? {
      EarlyAdvances(g, o, s.marks, cfg, hash, i);
    } else {
      LateAdvances(g, o, s.marks, cfg, hash, i);
    }
    var f := AddFinalizer(s, i, 0).scene;
    ExecuteEnds(o, f, p, i);
    EndsAdvance(o, f, hash, i, p, Execute(f, p, i).scene);
  }

  lemma ActAdvances(g: Foreign, vm: Vm, mv: Move)
    requires Calm(g, vm) && mv.Act? && Wellformed(mv.i) && CalmConfig(vm.marks, mv.i)
    ensures Calm(g, After(g, vm, mv))
    ensures Advances(vm.obj, vm.marks, IntentHash(g, vm.obj.tenant), mv.i, After(g, vm, mv).marks)
  {
    hide ClearPreseedKey, Converge, IntentHash, Get, FindConfig, Managed, ChainConsistent;
    var o, s, hash := vm.obj, Before(vm, mv), IntentHash(g, vm.obj.tenant);
    ReconcileKeepsConsistency(g, o, s, hash, mv.i);
    if Managed(o) && mv.i.configs.Some? && FindConfig(mv.i.configs.value).Some? {
      var cfg := FindConfig(mv.i.configs.value).value;
      ClearKeeps(o, s, mv.i);
      if mv.i.lost == {} { LosslessClears(s, mv.i); }
      var c := if o.seen.guestSignalled || TimedOut(o, cfg, mv.i.now) then ClearPreseedKey(s, mv.i, 0) else Stop(s, 0);
      ConvergeAdvances(g, o, c.scene, cfg, hash, mv.i);
      ConvergeChainOnly(g, o, c.scene, cfg, hash, mv.i);
    }
  }

  /** A move that asks for nothing. */
  ghost predicate CalmMove(g: Foreign, vm: Vm, mv: Move) {
    match mv
    case Edit(obj, _) =>
      && obj.name == vm.obj.name && !obj.deleting
      && SameIntent(vm.marks, IntentHash(g, obj.tenant)) && !RetryRequested(obj, vm.marks)
    case Act(_, _, i) => Wellformed(i) && CalmConfig(vm.marks, i)
  }

  ghost predicate CalmRun(g: Foreign, vm: Vm, mvs: seq<Move>)
    decreases |mvs|
  {
    mvs == [] || (CalmMove(g, vm, mvs[0]) && CalmRun(g, After(g, vm, mvs[0]), mvs[1..]))
  }

  function Acts(mvs: seq<Move>): nat {
    if mvs == [] then 0 else (if mvs[0].Act? then 1 else 0) + Acts(mvs[1..])
  }

  /** The reconciles of a run that could not advance the chain. */
  ghost function StallCount(g: Foreign, vm: Vm, mvs: seq<Move>): nat
    decreases |mvs|
  {
    if mvs == [] then 0
    else
      (if mvs[0].Act? && Stalls(vm.obj, vm.marks, mvs[0].i) then 1 else 0) +
      StallCount(g, After(g, vm, mvs[0]), mvs[1..])
  }

  lemma EditStaysCalm(g: Foreign, vm: Vm, mv: Move)
    requires Calm(g, vm) && mv.Edit? && CalmMove(g, vm, mv)
    ensures Calm(g, After(g, vm, mv))
  {
    hide IntentHash, Get, ChainConsistent;
  }

  /** Chains end: with nothing asked for, a VM whose key is accepted is Ready or failed after four
      reconciles plus one for each that was stalled, whatever is edited in between, and stays so. */
  lemma {:induction false} ChainTerminates(g: Foreign, vm: Vm, mvs: seq<Move>)
    requires Calm(g, vm) && CalmRun(g, vm, mvs)
    ensures Calm(g, AfterAll(g, vm, mvs))
    ensures Rank(AfterAll(g, vm, mvs).marks) <= Rank(vm.marks)
    ensures Rank(AfterAll(g, vm, mvs).marks) == 0 ||
            Rank(AfterAll(g, vm, mvs).marks) + Acts(mvs) <= Rank(vm.marks) + StallCount(g, vm, mvs)
    ensures Acts(mvs) >= 4 + StallCount(g, vm, mvs) ==>
              var m := AfterAll(g, vm, mvs).marks; m.saltStatus.Ready? || m.saltStatus.Failed?
    decreases |mvs|
  {
    hide Calm, IntentHash, CalmConfig, Stalls, ReconcileVm;
    if mvs != [] {
      if mvs[0].Act? { ActAdvances(g, vm, mvs[0]); } else { EditStaysCalm(g, vm, mvs[0]); }
      ChainTerminates(g, After(g, vm, mvs[0]), mvs[1..]);
    }
  }
}
