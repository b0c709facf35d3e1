/** The life of one VM inside a run of the whole cluster: what the theorems about one VM's moves say
    about every run and about its log. */
module Lives {
  import opened Text
  import opened Model
  import opened Intent
  import opened Reconcile
  import opened Consistency
  import opened Keyring
  import opened World
  import opened History
  import opened Progress
  import opened Restarts
  import opened Wakeups
  import opened Release

  // ---------------------------------------------------------------- a run, seen from one VM

  /** What a step is to VM `k`: nothing, an edit, or a reconcile. */
  function MoveOf(w: World, step: Step, k: Name): seq<Move>
    requires k in w.vms
  {
    match step
    case Reconciles(j, i) => if j == k then [Act(w.keys, SecretOf(w, k), i)] else []
    case Changes(j, obj, finalizer) => if j == k then [Edit(obj, finalizer)] else []
    case _ => []
  }

  /** The VM is there in every state of the run. */
  ghost predicate Survives(g: Foreign, w: World, steps: seq<Step>, k: Name)
    decreases |steps|
  {
    k in w.vms && (steps != [] ==> Survives(g, Apply(g, w, steps[0]), steps[1..], k))
  }

  ghost function Moves(g: Foreign, w: World, steps: seq<Step>, k: Name): seq<Move>
    requires Survives(g, w, steps, k)
    decreases |steps|
  {
    if steps == [] then []
    else MoveOf(w, steps[0], k) + Moves(g, Apply(g, w, steps[0]), steps[1..], k)
  }

  /** The calls the log holds for one VM. */
  function EventsOf(log: seq<Logged>, uid: string): seq<Event> {
    if log == [] then []
    else
      var l := log[|log| - 1];
      EventsOf(log[..|log| - 1], uid) + (if l.uid == uid then [l.event] else [])
  }

  /** The calls a sequence of moves makes. */
  ghost function EventsIn(g: Foreign, vm: Vm, mvs: seq<Move>): seq<Event>
    decreases |mvs|
  {
    if mvs == [] then []
    else (if mvs[0].Act? then Acting(g, vm, mvs[0]).scene.events else []) + EventsIn(g, After(g, vm, mvs[0]), mvs[1..])
  }

  lemma {:induction false} EventsOfAppend(log: seq<Logged>, uid: string, at: int, es: seq<Event>, u: string)
    ensures EventsOf(log + Log(uid, at, es), u) == EventsOf(log, u) + (if u == uid then es else [])
    decreases |es|
  {
    if es == [] {
      assert log + Log(uid, at, es) == log;
    } else {
      var l := Logged(uid, at, es[0]);
      assert log + Log(uid, at, es) == (log + [l]) + Log(uid, at, es[1..]);
      EventsOfAppend(log + [l], uid, at, es[1..], u);
      assert (log + [l])[..|log|] == log;
      if u == uid { assert es == [es[0]] + es[1..]; }
    }
  }

  /** One step: the VM does its move, if any, and the log grows by the calls of that move. */
  lemma StepIsMove(g: Foreign, w: World, step: Step, k: Name)
    requires Inv(w) && Valid(g, w, step) && k in w.vms && k in Apply(g, w, step).vms
    ensures var vm, vm', mvs := w.vms[k], Apply(g, w, step).vms[k], MoveOf(w, step, k);
            && (mvs == [] ==> vm' == vm)
            && (mvs != [] ==> mvs == [mvs[0]] && Proper(vm, mvs[0]) && vm' == After(g, vm, mvs[0]))
            && vm'.obj.uid == vm.obj.uid
    ensures var vm, mvs := w.vms[k], MoveOf(w, step, k);
            var es := if mvs != [] && mvs[0].Act? then Acting(g, vm, mvs[0]).scene.events else [];
            EventsOf(Apply(g, w, step).log, vm.obj.uid) == EventsOf(w.log, vm.obj.uid) + es
  {
    hide ReconcileVm, IntentHash, VmOk, EventsOf, Orphans;
    if step.Reconciles? && step.k in w.vms {
      EventsOfAppend(w.log, w.vms[step.k].obj.uid, w.now, ResultOf(g, w, step.k, step.i).scene.events,
          w.vms[k].obj.uid);
      if step.k != k { assert Apart(w.vms[k], w.vms[step.k]); }
    }
  }

  /** A run of the cluster is, for each VM that lives through it, a proper run of that VM that ends in
      the same state and makes the calls the log gained. */
  lemma {:induction false} RunIsMoves(g: Foreign, w: World, steps: seq<Step>, k: Name)
    requires Inv(w) && ValidRun(g, w, steps) && Survives(g, w, steps, k)
    ensures var w', mvs := Run(g, w, steps), Moves(g, w, steps, k);
            && k in w'.vms && ProperRun(g, w.vms[k], mvs) && w'.vms[k] == AfterAll(g, w.vms[k], mvs)
            && w'.vms[k].obj.uid == w.vms[k].obj.uid
            && EventsOf(w'.log, w.vms[k].obj.uid) == EventsOf(w.log, w.vms[k].obj.uid) + EventsIn(g, w.vms[k], mvs)
    decreases |steps|
  {
    hide Inv, Valid, Apply, Proper, After, Acting, EventsOf, MoveOf;
    if steps != [] {
      var w1 := Apply(g, w, steps[0]);
      StepKeepsInv(g, w, steps[0]);
      StepIsMove(g, w, steps[0], k);
      RunIsMoves(g, w1, steps[1..], k);
      var first, rest := MoveOf(w, steps[0], k), Moves(g, w1, steps[1..], k);
      if first == [] {
        assert first + rest == rest;
      } else {
        assert (first + rest)[0] == first[0] && (first + rest)[1..] == rest;
      }
    }
  }

  lemma StepKeepsGone(g: Foreign, w: World, step: Step, uid: string)
    requires Inv(w) && Valid(g, w, step) && uid in w.uids && forall k :: k in w.vms ==> w.vms[k].obj.uid != uid
    ensures var w' := Apply(g, w, step); uid in w'.uids && forall k :: k in w'.vms ==> w'.vms[k].obj.uid != uid
  {
    hide ReconcileVm, IntentHash, VmOk, Orphans;
  }

  /** A UID is never used again. */
  lemma {:induction false} GoneForGood(g: Foreign, w: World, steps: seq<Step>, uid: string)
    requires Inv(w) && ValidRun(g, w, steps) && uid in w.uids && forall k :: k in w.vms ==> w.vms[k].obj.uid != uid
    ensures forall k :: k in Run(g, w, steps).vms ==> Run(g, w, steps).vms[k].obj.uid != uid
    decreases |steps|
  {
    hide Inv, Valid, Apply;
    if steps != [] {
      StepKeepsInv(g, w, steps[0]);
      StepKeepsGone(g, w, steps[0], uid);
      GoneForGood(g, Apply(g, w, steps[0]), steps[1..], uid);
    }
  }

  lemma LostUid(g: Foreign, w: World, step: Step, k: Name)
    requires Inv(w) && Valid(g, w, step) && k in w.vms && k !in Apply(g, w, step).vms
    ensures var w', uid := Apply(g, w, step), w.vms[k].obj.uid;
            uid in w'.uids && forall j :: j in w'.vms ==> w'.vms[j].obj.uid != uid
  {
    hide ReconcileVm, IntentHash, Consistent, SecretFresh, Orphans;
    assert VmOk(w, k);
    forall j | j in w.vms && j != k ensures w.vms[j].obj.uid != w.vms[k].obj.uid { assert Apart(w.vms[j], w.vms[k]); }
  }

  /** So a VM that is there at both ends, with the same UID, was there all along. */
  lemma {:induction false} SameUidSurvives(g: Foreign, w: World, steps: seq<Step>, k: Name)
    requires Inv(w) && ValidRun(g, w, steps) && k in w.vms && k in Run(g, w, steps).vms
    requires Run(g, w, steps).vms[k].obj.uid == w.vms[k].obj.uid
    ensures Survives(g, w, steps, k)
    decreases |steps|
  {
    hide Inv, Valid, Apply;
    if steps != [] {
      var w1 := Apply(g, w, steps[0]);
      StepKeepsInv(g, w, steps[0]);
      if k in w1.vms {
        StepIsMove(g, w, steps[0], k);
        SameUidSurvives(g, w1, steps[1..], k);
      } else {
        LostUid(g, w, steps[0], k);
        GoneForGood(g, w1, steps[1..], w.vms[k].obj.uid);
      }
    }
  }

  // ---------------------------------------------------------------- what that says about runs

  /** From the state after `early` on, VM `k` lives through `late`. */
  ghost predicate LivesThrough(g: Foreign, w0: World, early: seq<Step>, late: seq<Step>, k: Name) {
    && Initial(w0) && ValidRun(g, w0, early) && ValidRun(g, Run(g, w0, early), late)
    && Survives(g, Run(g, w0, early), late, k)
  }

  lemma LifeIsMoves(g: Foreign, w0: World, early: seq<Step>, late: seq<Step>, k: Name)
    requires LivesThrough(g, w0, early, late, k)
    ensures var w := Run(g, w0, early);
            var w', vm, mvs := Run(g, w, late), w.vms[k], Moves(g, w, late, k);
            && Inv(w) && Consistent(vm.obj, vm.marks) && ProperRun(g, vm, mvs)
            && k in w'.vms && w'.vms[k] == AfterAll(g, vm, mvs) && w'.vms[k].obj.uid == vm.obj.uid
            && EventsOf(w'.log, vm.obj.uid) == EventsOf(w.log, vm.obj.uid) + EventsIn(g, vm, mvs)
  {
    hide Run, ValidRun, Moves, Consistent, SecretFresh, EventsOf;
    RunKeepsInv(g, w0, early);
    var w := Run(g, w0, early);
    RunIsMoves(g, w, late, k);
    assert VmOk(w, k);
  }

  lemma {:induction false} NoneObtainedIn(g: Foreign, vm: Vm, mvs: seq<Move>)
    requires Consistent(vm.obj, vm.marks) && HasKey(vm.marks) && ProperRun(g, vm, mvs)
    ensures NoneObtained(EventsIn(g, vm, mvs))
    decreases |mvs|
  {
    hide Acting, Consistent;
    if mvs != [] {
      if mvs[0].Act? { ActObtainsNothing(g, vm, mvs[0]); } else { EditKeepsConsistency(vm, mvs[0].obj); }
      NoneObtainedIn(g, After(g, vm, mvs[0]), mvs[1..]);
    }
  }

  /** A key is obtained once: after the state in which a VM records one, the log of every run holds
      no acceptance and no generation for it, and it goes on recording the same minion ID. */
  lemma KeyObtainedOnceInLog(g: Foreign, w0: World, early: seq<Step>, late: seq<Step>, k: Name)
    requires LivesThrough(g, w0, early, late, k) && HasKey(Run(g, w0, early).vms[k].marks)
    ensures var w := Run(g, w0, early);
            var w', uid := Run(g, w, late), w.vms[k].obj.uid;
            && k in w'.vms && w'.vms[k].marks.minionId == w.vms[k].marks.minionId
            && EventsOf(w.log, uid) <= EventsOf(w'.log, uid)
            && NoneObtained(EventsOf(w'.log, uid)[|EventsOf(w.log, uid)|..])
  {
    hide Run, ValidRun, Moves, Consistent, EventsOf;
    LifeIsMoves(g, w0, early, late, k);
    var w := Run(g, w0, early);
    var mvs, es := Moves(g, w, late, k), EventsOf(w.log, w.vms[k].obj.uid);
    KeyIsObtainedOnce(g, w.vms[k], mvs, 0);
    NoneObtainedIn(g, w.vms[k], mvs);
    assert (es + EventsIn(g, w.vms[k], mvs))[|es|..] == EventsIn(g, w.vms[k], mvs);
  }

  lemma {:induction false} QuietMakesNoCalls(g: Foreign, vm: Vm, mvs: seq<Move>)
    requires Settled(g, vm) && AllQuiet(g, vm, mvs)
    ensures EventsIn(g, vm, mvs) == []
    decreases |mvs|
  {
    hide Settled, Quiet, ReconcileVm;
    if mvs != [] {
      if mvs[0].Act? { SettledActsNot(g, vm, mvs[0]); }
      QuietKeepsSettled(g, vm, mvs[0]);
      QuietMakesNoCalls(g, After(g, vm, mvs[0]), mvs[1..]);
    }
  }

  /** A failed VM that nothing triggers keeps its annotations and makes no call, in every run. */
  lemma FailedStaysInRun(g: Foreign, w0: World, early: seq<Step>, late: seq<Step>, k: Name)
    requires LivesThrough(g, w0, early, late, k) && Settled(g, Run(g, w0, early).vms[k])
    requires AllQuiet(g, Run(g, w0, early).vms[k], Moves(g, Run(g, w0, early), late, k))
    ensures var w := Run(g, w0, early);
            var w', vm := Run(g, w, late), w.vms[k];
            && k in w'.vms && w'.vms[k].marks == vm.marks && w'.vms[k].finalizer
            && EventsOf(w'.log, vm.obj.uid) == EventsOf(w.log, vm.obj.uid)
  {
    hide Run, ValidRun, Moves, Settled, AllQuiet, EventsOf, Consistent;
    LifeIsMoves(g, w0, early, late, k);
    var vm, mvs := Run(g, w0, early).vms[k], Moves(g, Run(g, w0, early), late, k);
    FailedIsFixpoint(g, vm, mvs, 0);
    QuietMakesNoCalls(g, vm, mvs);
  }

  /** Chains end in every run: four reconciles of the VM plus the stalled ones are enough. */
  lemma ChainEndsInRun(g: Foreign, w0: World, early: seq<Step>, late: seq<Step>, k: Name)
    requires LivesThrough(g, w0, early, late, k) && Calm(g, Run(g, w0, early).vms[k])
    requires var w := Run(g, w0, early);
             var mvs := Moves(g, w, late, k);
             CalmRun(g, w.vms[k], mvs) && Acts(mvs) >= 4 + StallCount(g, w.vms[k], mvs)
    ensures var w' := Run(g, Run(g, w0, early), late);
            k in w'.vms && (w'.vms[k].marks.saltStatus.Ready? || w'.vms[k].marks.saltStatus.Failed?)
  {
    hide Run, ValidRun, Moves, Calm, CalmRun, EventsOf, Consistent;
    LifeIsMoves(g, w0, early, late, k);
    ChainTerminates(g, Run(g, w0, early).vms[k], Moves(g, Run(g, w0, early), late, k));
  }

  lemma {:induction false} EditsAreChanges(g: Foreign, w: World, steps: seq<Step>, k: Name, mv: Move)
    requires Survives(g, w, steps, k) && mv in Moves(g, w, steps, k) && mv.Edit?
    ensures Changes(k, mv.obj, mv.finalizer) in steps
    decreases |steps|
  {
    hide Apply;
    if mv !in MoveOf(w, steps[0], k) { EditsAreChanges(g, Apply(g, w, steps[0]), steps[1..], k, mv); }
  }

  /** A stranded VM stays as it is in every run in which nobody takes its finalizer away by hand. */
  lemma StrandedInRun(g: Foreign, w0: World, early: seq<Step>, late: seq<Step>, k: Name)
    requires LivesThrough(g, w0, early, late, k)
    requires var vm := Run(g, w0, early).vms[k]; vm.obj.deleting && vm.marks.minionId == ""
    requires forall step :: step in late && step.Changes? && step.k == k ==> step.finalizer
    ensures var w := Run(g, w0, early);
            var w' := Run(g, w, late);
            k in w'.vms && w'.vms[k].marks == w.vms[k].marks && w'.vms[k].finalizer == w.vms[k].finalizer
  {
    hide Run, ValidRun, EventsOf, Consistent, Moves;
    LifeIsMoves(g, w0, early, late, k);
    var w := Run(g, w0, early);
    var mvs := Moves(g, w, late, k);
    StrandedForever(g, w.vms[k], mvs);
    if exists mv :: mv in mvs && mv.Edit? && !mv.finalizer {
      var mv :| mv in mvs && mv.Edit? && !mv.finalizer;
      EditsAreChanges(g, w, late, k, mv);
      assert false;
    }
  }

  // ---------------------------------------------------------------- re-runs, counted in the log

  /** The bulk token VM `k` has last been reconciled under. */
  function StepToken(token: string, step: Step, k: Name): string {
    if step.Reconciles? && step.k == k && step.i.configs.Some? && FindConfig(step.i.configs.value).Some?
    then FindConfig(step.i.configs.value).value.retryToken else token
  }

  /** What a step asks of VM `k`: another intent, another retry request, another bulk token; and a
      reconcile that lost a write may have to be made again. */
  ghost function Asking(g: Foreign, w: World, step: Step, k: Name, token: string): nat
    requires k in w.vms
  {
    match step
    case Changes(j, obj, _) =>
      if j != k then 0
      else
        var tenant := w.vms[k].obj.tenant;
        Bit(IntentHash(g, obj.tenant) != IntentHash(g, tenant)) +
            Bit(Get(obj.tenant, RETRY_REQUEST) != Get(tenant, RETRY_REQUEST))
    case Reconciles(j, i) => if j != k then 0 else Bit(StepToken(token, step, k) != token) + Bit(i.lost != {})
    case _ => 0
  }

  ghost function Asks(g: Foreign, w: World, steps: seq<Step>, k: Name, token: string): nat
    requires Survives(g, w, steps, k)
    decreases |steps|
  {
    if steps == [] then 0
    else
      Asking(g, w, steps[0], k, token) +
      Asks(g, Apply(g, w, steps[0]), steps[1..], k, StepToken(token, steps[0], k))
  }

  lemma {:induction false} AsksIsCredit(g: Foreign, w: World, steps: seq<Step>, k: Name, token: string)
    requires Inv(w) && ValidRun(g, w, steps) && Survives(g, w, steps, k)
    ensures CreditIn(g, w.vms[k], token, Moves(g, w, steps, k)) == Asks(g, w, steps, k, token)
    decreases |steps|
  {
    hide Inv, Valid, Apply, After, Acting, EventsOf, IntentHash, FindConfig, Get;
    if steps != [] {
      var w1 := Apply(g, w, steps[0]);
      StepKeepsInv(g, w, steps[0]);
      StepIsMove(g, w, steps[0], k);
      AsksIsCredit(g, w1, steps[1..], k, StepToken(token, steps[0], k));
      var first, rest := MoveOf(w, steps[0], k), Moves(g, w1, steps[1..], k);
      if first == [] {
        assert first + rest == rest;
      } else {
        assert (first + rest)[0] == first[0] && (first + rest)[1..] == rest;
      }
    }
  }

  lemma {:induction false} RerunsOfEvents(g: Foreign, vm: Vm, mvs: seq<Move>)
    ensures Reruns(EventsIn(g, vm, mvs)) == RerunsIn(g, vm, mvs)
    decreases |mvs|
  {
    hide Acting, After, Reruns;
    RerunsOne(ChainReset);
    if mvs != [] {
      var es := if mvs[0].Act? then Acting(g, vm, mvs[0]).scene.events else [];
      RerunsAppend(es, EventsIn(g, After(g, vm, mvs[0]), mvs[1..]));
      RerunsOfEvents(g, After(g, vm, mvs[0]), mvs[1..]);
    }
  }

  /** The amortised bound on the log of every run: the chain resets and unscheduled Day-2 runs a VM
      gains are at most what was owed before plus what the steps of the run asked of it. */
  lemma RerunsInLog(g: Foreign, w0: World, early: seq<Step>, late: seq<Step>, k: Name, token: string)
    requires LivesThrough(g, w0, early, late, k)
    ensures var w := Run(g, w0, early);
            var w', uid := Run(g, w, late), w.vms[k].obj.uid;
            Reruns(EventsOf(w'.log, uid)) <=
            Reruns(EventsOf(w.log, uid)) + DebtOf(g, w.vms[k], token) + Asks(g, w, late, k, token)
  {
    hide Run, ValidRun, Moves, Consistent, EventsOf, Reruns, DebtOf, Asks;
    LifeIsMoves(g, w0, early, late, k);
    var w := Run(g, w0, early);
    var vm, mvs := w.vms[k], Moves(g, w, late, k);
    RerunsArePaidFor(g, vm, token, mvs);
    RerunsOfEvents(g, vm, mvs);
    AsksIsCredit(g, w, late, k, token);
    RerunsAppend(EventsOf(w.log, vm.obj.uid), EventsIn(g, vm, mvs));
  }

  lemma {:induction false} NoEventsOfStrangers(log: seq<Logged>, uid: string)
    requires forall n :: 0 <= n < |log| ==> log[n].uid != uid
    ensures EventsOf(log, uid) == []
  {
    if log != [] { NoEventsOfStrangers(log[..|log| - 1], uid); }
  }

  lemma FreshUid(g: Foreign, w: World, k: Name, obj: Object)
    requires Recorded(g, w) && Valid(g, w, Appears(k, obj))
    ensures EventsOf(w.log, obj.uid) == []
  {
    NoEventsOfStrangers(w.log, obj.uid);
  }

  /** Over the whole life of a VM: at most two more than what was asked of it since it appeared, for
      a retry request it was created with and for the first bulk token. */
  lemma LifetimeReruns(g: Foreign, w0: World, early: seq<Step>, late: seq<Step>, k: Name, obj: Object, token: string)
    requires LivesThrough(g, w0, early + [Appears(k, obj)], late, k)
    ensures var w := Run(g, w0, early + [Appears(k, obj)]);
            Reruns(EventsOf(Run(g, w, late).log, obj.uid)) <= 2 + Asks(g, w, late, k, token)
  {
    hide Run, ValidRun, EventsOf, IntentHash, Get, Asks, Recorded;
    RunSnoc(g, w0, early, Appears(k, obj));
    RunsAreOrderly(g, w0, early);
    assert EventsOf(Run(g, w0, early).log, obj.uid) == [] by { FreshUid(g, Run(g, w0, early), k, obj); }
    RerunsInLog(g, w0, early + [Appears(k, obj)], late, k, token);
    RerunsOne(ChainReset);
  }
}
