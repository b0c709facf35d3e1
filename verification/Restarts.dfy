/** Every re-run is paid for: over any run of any VM, chain resets and unscheduled Day-2 runs are
    at most the changes that ask for them plus the writes that were lost. */
module Restarts {
  import opened Text
  import opened Model
  import opened Intent
  import opened Reconcile
  import opened Consistency
  import opened History
  import opened Progress
  import Enforcement

  function Bit(b: bool): nat {
    if b then 1 else 0
  }

  /** Chain resets, and Day-2 runs that the schedule alone did not start. */
  function Reruns(es: seq<Event>): nat {
    if es == [] then 0 else Bit(es[0].ChainReset? || es[0] == RunStarts(None)) + Reruns(es[1..])
  }

  /** What is asked for and not yet handled: another intent than the stored one, a retry request,
      a bulk token. */
  function Debt(o: Object, m: Marks, hash: string, token: string): nat {
    Bit(!SameIntent(m, hash)) + Bit(RetryRequested(o, m)) + Bit(BulkChanged(m, token))
  }

  /** A turn that re-runs the chain clears the whole debt; no turn adds to it. */
  predicate Pays(o: Object, m: Marks, hash: string, token: string, p: Plan) {
    && Reruns(p.calls) <= 1
    && (p.marks.Some? ==>
          Reruns(p.calls) + Reruns(p.landed) + Debt(o, p.marks.value, hash, token) <= Debt(o, m, hash, token))
    && (p.marks.None? ==> Reruns(p.calls) == 0)
    && (p.bulk.Some? ==> p.bulk.value == token)
  }

  lemma RerunsOne(e: Event)
    ensures Reruns([]) == 0 && Reruns([e]) == Bit(e.ChainReset? || e == RunStarts(None))
  {
    assert [e][1..] == [];
  }

  lemma {:induction false} RerunsAppend(a: seq<Event>, b: seq<Event>)
    ensures Reruns(a + b) == Reruns(a) + Reruns(b)
  {
    if a == [] {
      assert a + b == b;
    } else {
      assert (a + b)[1..] == a[1..] + b;
      RerunsAppend(a[1..], b);
    }
  }

  lemma EarlyPays(g: Foreign, o: Object, m: Marks, cfg: Config, hash: string, i: Input)
    requires !m.saltStatus.Ready? && !m.saltStatus.Failed?
    ensures Pays(o, m, hash, cfg.retryToken, ChainPlan(g, o, m, cfg, hash, i))
  {
    hide Reruns, Get, Within;
    RerunsOne(Pings(m.minionId, i.ping));
    RerunsOne(Refreshes(m.minionId, i.refresh, o.tenant));
    RerunsOne(Dispatches(m.minionId, i.jid, false, o.tenant));
    RerunsOne(Polls(m.minionId, m.jid, i.poll));
  }

  lemma FailedPays(o: Object, m: Marks, cfg: Config, hash: string)
    ensures Pays(o, m, hash, cfg.retryToken, FailedPlan(o, m, cfg, hash))
  {
    hide Reruns, Get;
    RerunsOne(ChainReset);
  }

  lemma Day2Reruns(o: Object, m: Marks, scheduled: Option<int>, cfg: Config, i: Input)
    ensures var p := Day2Plan(o, m, scheduled, cfg, i);
            Reruns(p.calls) == Bit(scheduled.None?) && Reruns(p.landed) == 0
  {
    hide Reruns;
    var a, b, c := RunStarts(scheduled), Refreshes(m.minionId, i.refresh, o.tenant),
                   Dispatches(m.minionId, i.jid, true, o.tenant);
    assert [a, b] == [a] + [b];
    RerunsAppend([a], [b]);
    RerunsAppend([a, b], [c]);
    RerunsOne(a);
    RerunsOne(b);
    RerunsOne(c);
  }

  lemma Day2Debt(o: Object, m: Marks, scheduled: Option<int>, cfg: Config, i: Input, hash: string, token: string)
    ensures var p := Day2Plan(o, m, scheduled, cfg, i);
            p.marks.Some? && p.bulk.None? && Debt(o, p.marks.value, hash, token) == Debt(o, m, hash, token)
  {
    hide Get;
  }

  lemma ReadyPays(g: Foreign, o: Object, m: Marks, cfg: Config, hash: string, i: Input)
    ensures Pays(o, m, hash, cfg.retryToken, ReadyPlan(g, o, m, cfg, hash, i))
  {
    hide Reruns, Get, Day2Plan;
    var markers := Handled(o, cfg.retryToken, m).(rolesHash := hash);
    RerunsOne(ChainReset);
    Day2Reruns(o, markers, None, cfg, i);
    Day2Reruns(o, markers, cfg.enforcement, cfg, i);
    Day2Debt(o, markers, None, cfg, i, hash, cfg.retryToken);
    Day2Debt(o, markers, cfg.enforcement, cfg, i, hash, cfg.retryToken);
  }

  lemma PlanPays(g: Foreign, o: Object, m: Marks, cfg: Config, hash: string, i: Input)
    ensures Pays(o, m, hash, cfg.retryToken, ChainPlan(g, o, m, cfg, hash, i))
  {
    hide Pays, ReadyPlan, FailedPlan, PingPlan, RefreshPlan, DispatchPlan, PollPlan;
    if m.saltStatus.Ready? { ReadyPays(g, o, m, cfg, hash, i); }
    else if m.saltStatus.Failed? { FailedPays(o, m, cfg, hash); }
    else { EarlyPays(g, o, m, cfg, hash, i); }
  }

  // ---------------------------------------------------------------- one reconcile

  predicate Paid(o: Object, m: Marks, hash: string, token: string, i: Input, r: Scene) {
    Reruns(r.events) + Debt(o, r.marks, hash, token) <= Debt(o, m, hash, token) + Bit(i.lost != {})
  }

  lemma DebtOfSame(o: Object, a: Marks, b: Marks, hash: string, token: string)
    requires a.rolesHash == b.rolesHash && a.retryHandled == b.retryHandled
    requires a.bulkHandled == b.bulkHandled || b.bulkHandled == token
    ensures Debt(o, b, hash, token) <= Debt(o, a, hash, token)
  {
  }

  lemma ExecutePaid(o: Object, s: Scene, p: Plan, hash: string, token: string, i: Input)
    requires s.events == [] && Consistent(o, s.marks) && Pays(o, s.marks, hash, token, p)
    ensures Paid(o, s.marks, hash, token, i, Execute(s, p, i).scene)
  {
    hide Execute, Reruns, Debt, Consistent;
    var r := Execute(s, p, i).scene;
    ExecuteEnds(o, s, p, i);
    RerunsOne(ChainReset);
    RerunsAppend(p.calls, p.landed);
    assert [] + p.calls == p.calls;
    if Lands(s, p, r) { DebtOfSame(o, p.marks.value, r.marks, hash, token); }
    else { DebtOfSame(o, s.marks, r.marks, hash, token); }
  }

  lemma {:induction false} KeyCallsRerunNothing(es: seq<Event>)
    requires KeyCalls(es)
    ensures Reruns(es) == 0
  {
    if es != [] {
      assert KeyCall(es[0]);
      KeyCallsRerunNothing(es[1..]);
    }
  }

  lemma AcquirePaid(g: Foreign, o: Object, s: Scene, cfg: Config, hash: string, token: string, i: Input)
    requires s.events == []
    ensures Paid(o, s.marks, hash, token, i, Acquire(g, o, s, cfg, i).scene)
  {
    hide Reruns, Get, Acquire;
    AcquireCalls(g, o, s, cfg, i);
    KeyCallsRerunNothing(Acquire(g, o, s, cfg, i).scene.events);
  }

  lemma DeletePaid(o: Object, s: Scene, hash: string, token: string, i: Input)
    requires s.events == []
    ensures Paid(o, s.marks, hash, token, i, ReconcileDelete(s, i).scene)
  {
    hide Reruns, Get;
    KeyCallsRerunNothing(ReconcileDelete(s, i).scene.events);
  }

  lemma ConvergePaid(g: Foreign, o: Object, s: Scene, cfg: Config, hash: string, i: Input)
    requires s.events == [] && Consistent(o, s.marks)
    ensures Paid(o, s.marks, hash, cfg.retryToken, i, Converge(g, o, s, cfg, hash, i).scene)
  {
    hide ChainPlan, Execute, Get, Reruns, Consistent;
    RerunsOne(ChainReset);
    PlanPays(g, o, s.marks, cfg, hash, i);
    ExecutePaid(o, AddFinalizer(s, i, 0).scene, ChainPlan(g, o, s.marks, cfg, hash, i), hash, cfg.retryToken, i);
  }

  /** The bulk token in effect after a move. */
  function TokenAfter(token: string, mv: Move): string {
    if mv.Act? && mv.i.configs.Some? && FindConfig(mv.i.configs.value).Some?
    then FindConfig(mv.i.configs.value).value.retryToken else token
  }

  lemma ActPaid(g: Foreign, vm: Vm, mv: Move, token: string)
    requires Consistent(vm.obj, vm.marks) && mv.Act?
    ensures Paid(vm.obj, vm.marks, IntentHash(g, vm.obj.tenant), TokenAfter(token, mv), mv.i, Acting(g, vm, mv).scene)
  {
    hide ClearPreseedKey, Acquire, Converge, ReconcileDelete, FindConfig, Managed, IntentHash, Get, Reruns, Consistent;
    RerunsOne(ChainReset);
    var o, s, i, hash := vm.obj, Before(vm, mv), mv.i, IntentHash(g, vm.obj.tenant);
    if Managed(o) && i.configs.Some? && FindConfig(i.configs.value).Some? {
      var cfg := FindConfig(i.configs.value).value;
      if o.deleting {
        DeletePaid(o, s, hash, cfg.retryToken, i);
      } else {
        ClearKeeps(o, s, i);
        var c := if o.seen.guestSignalled || TimedOut(o, cfg, i.now) then ClearPreseedKey(s, i, 0) else Stop(s, 0);
        ConvergePaid(g, o, c.scene, cfg, hash, i);
        AcquirePaid(g, o, c.scene, cfg, hash, cfg.retryToken, i);
      }
    }
  }

  // ---------------------------------------------------------------- whole runs

  ghost function RerunsIn(g: Foreign, vm: Vm, mvs: seq<Move>): nat
    decreases |mvs|
  {
    if mvs == [] then 0
    else
      (if mvs[0].Act? then Reruns(Acting(g, vm, mvs[0]).scene.events) else 0) +
          RerunsIn(g, After(g, vm, mvs[0]), mvs[1..])
  }

  /** What a move pays in: a changed intent, a changed retry request, a changed bulk token, or a
      reconcile that lost a write. */
  ghost function Credit(g: Foreign, vm: Vm, token: string, mv: Move): nat {
    match mv
    case Edit(obj, _) =>
      Bit(IntentHash(g, obj.tenant) != IntentHash(g, vm.obj.tenant)) +
      Bit(Get(obj.tenant, RETRY_REQUEST) != Get(vm.obj.tenant, RETRY_REQUEST))
    case Act(_, _, i) => Bit(TokenAfter(token, mv) != token) + Bit(i.lost != {})
  }

  ghost function CreditIn(g: Foreign, vm: Vm, token: string, mvs: seq<Move>): nat
    decreases |mvs|
  {
    if mvs == [] then 0
    else Credit(g, vm, token, mvs[0]) + CreditIn(g, After(g, vm, mvs[0]), TokenAfter(token, mvs[0]), mvs[1..])
  }

  ghost function DebtOf(g: Foreign, vm: Vm, token: string): nat {
    Debt(vm.obj, vm.marks, IntentHash(g, vm.obj.tenant), token)
  }

  ghost function TokenIn(token: string, mvs: seq<Move>): string
    decreases |mvs|
  {
    if mvs == [] then token else TokenIn(TokenAfter(token, mvs[0]), mvs[1..])
  }

  lemma MovePaid(g: Foreign, vm: Vm, token: string, mv: Move)
    requires Consistent(vm.obj, vm.marks) && Proper(vm, mv)
    ensures (if mv.Act? then Reruns(Acting(g, vm, mv).scene.events) else 0) +
            DebtOf(g, After(g, vm, mv), TokenAfter(token, mv))
            <= DebtOf(g, vm, token) + Credit(g, vm, token, mv)
    ensures Consistent(After(g, vm, mv).obj, After(g, vm, mv).marks)
  {
    hide ReconcileVm, IntentHash, Get, Reruns, FindConfig, ChainConsistent;
    if mv.Act? {
      ActPaid(g, vm, mv, token);
      ReconcileKeepsConsistency(g, vm.obj, Before(vm, mv), IntentHash(g, vm.obj.tenant), mv.i);
    }
  }

  /** The amortised bound: resets and unscheduled runs, plus what is still owed at the end, never
      exceed what was owed at the start plus the changes and lost writes of the run. */
  lemma {:induction false} RerunsArePaidFor(g: Foreign, vm: Vm, token: string, mvs: seq<Move>)
    requires Consistent(vm.obj, vm.marks) && ProperRun(g, vm, mvs)
    ensures RerunsIn(g, vm, mvs) + DebtOf(g, AfterAll(g, vm, mvs), TokenIn(token, mvs))
            <= DebtOf(g, vm, token) + CreditIn(g, vm, token, mvs)
    decreases |mvs|
  {
    hide Consistent, DebtOf, Credit, Acting, After, TokenAfter, Reruns;
    if mvs != [] {
      MovePaid(g, vm, token, mvs[0]);
      RerunsArePaidFor(g, After(g, vm, mvs[0]), TokenAfter(token, mvs[0]), mvs[1..]);
    }
  }
}
