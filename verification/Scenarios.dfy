/** Runs from an empty cluster that show the limits of the theorems: an edit or a patch that is missed,
    a key taken from its VM, and a finalizer that stays for good. */
module Scenarios {
  import opened Text
  import opened Matcher
  import opened Model
  import opened Intent
  import opened Reconcile
  import opened World
  import opened History
  import opened LostIntent

  const WEB: Name := Name("ns", "web")
  const CONFIG: Config := Config(false, true, false, MAX_BOOTSTRAP, POST_ACCEPT_DELAY, "", None)
  const PAIR: KeyPair := KeyPair("private", "public")
  const PENDING: Keys := map["web" := Key(PendingKey, PAIR)]
  const ACCEPTED: Keys := map["web" := Key(AcceptedKey, PAIR)]
  const EMPTY: World := World(map[], PENDING, map[], 0, {}, [])

  function Web(uid: string, tenant: map<string, string>): Object {
    Object(uid, "web", tenant, Seen(true, "10.0.0.1", None, false), false, false)
  }

  /** Every call succeeds; `lost` are the writes that do not land. */
  function Told(now: int, pending: seq<string>, lost: set<Write>): Input {
    Input(now, Some([CONFIG]), true, true, Some(pending), true, None, true, None, None, None, Yes, Yes, Some("jid"),
          Done(true, []), true, lost)
  }

  predicate Lossless(steps: seq<Step>) {
    forall step :: step in steps && step.Reconciles? ==> step.i.lost == {}
  }

  // ---------------------------------------------------------------- building runs

  ghost predicate Reaches(g: Foreign, steps: seq<Step>, w: World) {
    ValidRun(g, EMPTY, steps) && Run(g, EMPTY, steps) == w
  }

  lemma Extend(g: Foreign, steps: seq<Step>, w: World, step: Step)
    requires Reaches(g, steps, w) && Valid(g, w, step)
    ensures Reaches(g, steps + [step], Apply(g, w, step))
  {
    hide Apply, Valid, Run, ValidRun;
    RunSnoc(g, EMPTY, steps, step);
  }

  lemma Unfold(g: Foreign, steps: seq<Step>, w: World)
    requires Reaches(g, steps, w)
    ensures ValidRun(g, EMPTY, steps) && Run(g, EMPTY, steps) == w
  {
  }

  /** A cluster with one VM. */
  function Solo(vm: Vm, keys: Keys, now: int, log: seq<Logged>): World {
    World(map[WEB := vm], keys, map[], now, {"uid"}, log)
  }

  lemma Appearing(g: Foreign, a: map<string, string>)
    ensures Reaches(g, [Appears(WEB, Web("uid", a))], Solo(Vm(Web("uid", a), NO_MARKS, false), PENDING, 0, []))
  {
    var step := Appears(WEB, Web("uid", a));
    assert Reaches(g, [], EMPTY);
    Extend(g, [], EMPTY, step);
    assert [] + [step] == [step];
  }

  lemma Editing(g: Foreign, steps: seq<Step>, vm: Vm, obj: Object, keys: Keys, now: int, log: seq<Logged>)
    requires Reaches(g, steps, Solo(vm, keys, now, log))
    requires obj.uid == vm.obj.uid && obj.name == vm.obj.name && (vm.obj.deleting ==> obj.deleting) && vm.finalizer
    ensures Reaches(g, steps + [Changes(WEB, obj, true)], Solo(Vm(obj, vm.marks, true), keys, now, log))
  {
    hide Reaches;
    var w := Solo(vm, keys, now, log);
    Extend(g, steps, w, Changes(WEB, obj, true));
    assert map[WEB := vm][WEB := Vm(obj, vm.marks, true)] == map[WEB := Vm(obj, vm.marks, true)];
  }

  /** One reconcile of the only VM, told the truth. */
  lemma Turn(g: Foreign, steps: seq<Step>, vm: Vm, keys: Keys, log: seq<Logged>, i: Input, r: Scene)
    requires Reaches(g, steps, Solo(vm, keys, i.now, log)) && vm.obj.uid == "uid" && !vm.obj.deleting
    requires i.fleet.None? && i.jid == Some("jid")
    requires i.pending.Some? && forall id :: id in i.pending.value ==> id in keys && keys[id].state == PendingKey
    requires var s := Scene(vm.marks, vm.finalizer, keys, None, []);
             r == ReconcileVm(g, vm.obj, s, IntentHash(g, vm.obj.tenant), i).scene
    requires r.secret.None?
    ensures Reaches(g, steps + [Reconciles(WEB, i)],
                    Solo(Vm(vm.obj, r.marks, r.finalizer), r.keys, i.now, log + Log("uid", i.now, r.events)))
  {
    hide ReconcileVm, IntentHash, Reaches, Managed, FindConfig;
    var w := Solo(vm, keys, i.now, log);
    Extend(g, steps, w, Reconciles(WEB, i));
    assert Apply(g, w, Reconciles(WEB, i)).vms == map[WEB := Vm(vm.obj, r.marks, r.finalizer)];
    assert Apply(g, w, Reconciles(WEB, i)).secrets == map[];
  }

  // ---------------------------------------------------------------- single reconciles

  const M1: Marks := NO_MARKS.(keyStatus := Accepted, minionId := "web", how := ByName, acceptedAt := Some(0))
  const M2: Marks := M1.(saltStatus := Pinged)
  const M3: Marks := M1.(saltStatus := PillarRefreshed)

  function M4(hash: string): Marks {
    M1.(saltStatus := HighstateDispatched, jid := "jid", highstate := InProgress, ready := False, rolesHash := hash)
  }

  function M5(hash: string): Marks {
    M4(hash).(saltStatus := Ready, ready := True, highstate := Succeeded, highstateTime := Some(POST_ACCEPT_DELAY))
  }

  lemma ByNameFirst(g: Foreign)
    ensures FindMinion(g, "web", "10.0.0.1", ["web"]) == Match("web", ByName)
  {
    hide Shift;
    var t := Target("web", "10.0.0.1", Shift("10.0.0.1"));
    assert NameRule(g, t, ["web"][0]);
  }

  lemma Accepting(g: Foreign, uid: string, a: map<string, string>, hash: string)
    requires Managed(Web(uid, a))
    ensures ReconcileVm(g, Web(uid, a), Scene(NO_MARKS, false, PENDING, None, []), hash, Told(0, ["web"], {})).scene ==
            Scene(M1, true, ACCEPTED, None, [ListedPending, AcceptedFor("web", true)])
  {
    hide FindMinion, Get;
    assert FindMinion(g, "web", "10.0.0.1", ["web"]) == Match("web", ByName) by { ByNameFirst(g); }
    assert Stamp(0) == 0;
  }

  /** From the acceptance on, every reconcile of these runs is one plan of the chain. */
  lemma Chaining(g: Foreign, tenant: map<string, string>, m: Marks, hash: string, lost: set<Write>)
    requires Managed(Web("uid", tenant)) && m.keyStatus == Accepted && m.minionId == "web" && m.how == ByName
    ensures var i := Told(POST_ACCEPT_DELAY, [], lost);
            var o, s := Web("uid", tenant), Scene(m, true, ACCEPTED, None, []);
            ReconcileVm(g, o, s, hash, i) == Execute(s, ChainPlan(g, o, m, CONFIG, hash, i), i)
  {
    hide Execute, ChainPlan, Get;
  }

  lemma Running(g: Foreign, tenant: map<string, string>, m: Marks, hash: string, m': Marks, e: Event)
    requires Managed(Web("uid", tenant)) && m.keyStatus == Accepted && m.minionId == "web" && m.how == ByName
    requires var p := ChainPlan(g, Web("uid", tenant), m, CONFIG, hash, Told(POST_ACCEPT_DELAY, [], {}));
             p.bulk.None? && p.calls == [e] && p.marks == Some(m') && p.landed == [] && m'.keyCleared == m.keyCleared
    ensures ReconcileVm(g, Web("uid", tenant), Scene(m, true, ACCEPTED, None, []), hash,
                        Told(POST_ACCEPT_DELAY, [], {})).scene ==
            Scene(m', true, ACCEPTED, None, [e])
  {
    hide ReconcileVm, ChainPlan, Managed;
    Chaining(g, tenant, m, hash, {});
  }

  lemma PlanOf(g: Foreign, tenant: map<string, string>)
    ensures var now, hash, o := POST_ACCEPT_DELAY, IntentHash(g, tenant), Web("uid", tenant);
            var i := Told(now, [], {});
            && ChainPlan(g, o, M1, CONFIG, hash, i) == CallThen(Pings("web", Yes), M2, now).(clear := true)
            && ChainPlan(g, o, M2, CONFIG, hash, i) == CallThen(Refreshes("web", Yes, tenant), M3, now)
            && ChainPlan(g, o, M3, CONFIG, hash, i) ==
               CallThen(Dispatches("web", Some("jid"), false, tenant), M4(hash), now)
            && ChainPlan(g, o, M4(hash), CONFIG, hash, i) ==
               CallThen(Polls("web", "jid", Done(true, [])), M5(hash), now)
  {
    hide IntentHash;
    assert Stamp(POST_ACCEPT_DELAY) == POST_ACCEPT_DELAY;
  }

  // ---------------------------------------------------------------- a bootstrap with an edit in it

  lemma ToPinged(g: Foreign, a: map<string, string>) returns (steps: seq<Step>, log: seq<Logged>)
    requires Managed(Web("uid", a))
    ensures Reaches(g, steps, Solo(Vm(Web("uid", a), M2, true), ACCEPTED, POST_ACCEPT_DELAY, log)) && Lossless(steps)
  {
    hide ReconcileVm, IntentHash, Reaches, Managed, ChainPlan;
    var o, now, hash := Web("uid", a), POST_ACCEPT_DELAY, IntentHash(g, a);
    var es, ping := [ListedPending, AcceptedFor("web", true)], Pings("web", Yes);
    Appearing(g, a);
    Accepting(g, "uid", a, hash);
    Turn(g, [Appears(WEB, o)], Vm(o, NO_MARKS, false), PENDING, [], Told(0, ["web"], {}),
        Scene(M1, true, ACCEPTED, None, es));
    steps := [Appears(WEB, o)] + [Reconciles(WEB, Told(0, ["web"], {}))];
    log := [] + Log("uid", 0, es);
    Extend(g, steps, Solo(Vm(o, M1, true), ACCEPTED, 0, log), Ticks(now));
    steps := steps + [Ticks(now)];
    assert ChainPlan(g, o, M1, CONFIG, hash, Told(now, [], {})) ==
        CallThen(ping, M2, now).(clear := true) by { PlanOf(g, a); }
    Running(g, a, M1, hash, M2, ping);
    Turn(g, steps, Vm(o, M1, true), ACCEPTED, log, Told(now, [], {}), Scene(M2, true, ACCEPTED, None, [ping]));
    steps := steps + [Reconciles(WEB, Told(now, [], {}))];
    log := log + Log("uid", now, [ping]);
  }

  lemma ToEdited(g: Foreign, a: map<string, string>, b: map<string, string>)
    returns (steps: seq<Step>, log: seq<Logged>)
    requires Managed(Web("uid", a))
    ensures Reaches(g, steps, Solo(Vm(Web("uid", b), M3, true), ACCEPTED, POST_ACCEPT_DELAY, log)) && Lossless(steps)
    ensures PastOf(log, "uid").pillar == Some(a)
  {
    hide ReconcileVm, IntentHash, Reaches, Managed, ChainPlan, PastOf, Fold, Run, ValidRun, Apply, AllDue;
    var now, refresh := POST_ACCEPT_DELAY, Refreshes("web", Yes, a);
    PlanOf(g, a);
    steps, log := ToPinged(g, a);
    Running(g, a, M2, IntentHash(g, a), M3, refresh);
    Turn(g, steps, Vm(Web("uid", a), M2, true), ACCEPTED, log, Told(now, [], {}),
        Scene(M3, true, ACCEPTED, None, [refresh]));
    steps := steps + [Reconciles(WEB, Told(now, [], {}))];
    PastOfAppend(log, "uid", now, [refresh], "uid");
    FoldOne(g, "uid", PastOf(log, "uid"), now, refresh);
    log := log + Log("uid", now, [refresh]);
    Editing(g, steps, Vm(Web("uid", a), M3, true), Web("uid", b), ACCEPTED, now, log);
    steps := steps + [Changes(WEB, Web("uid", b), true)];
  }

  /** A bootstrap with an edit from `a` to `b` between refresh and dispatch; nothing fails. */
  lemma ToReady(g: Foreign, a: map<string, string>, b: map<string, string>) returns (steps: seq<Step>, log: seq<Logged>)
    requires Managed(Web("uid", a)) && Managed(Web("uid", b))
    ensures Reaches(g, steps, Solo(Vm(Web("uid", b), M5(IntentHash(g, b)), true), ACCEPTED, POST_ACCEPT_DELAY, log))
    ensures PastOf(log, "uid").pillar == Some(a)
    ensures PastOf(log, "uid").dispatched == Some(Dispatch("web", "jid", false, b))
    ensures Lossless(steps)
  {
    hide ReconcileVm, IntentHash, Reaches, Managed, ChainPlan, PastOf, Fold, Run, ValidRun, Apply, AllDue;
    var o, now, hash := Web("uid", b), POST_ACCEPT_DELAY, IntentHash(g, b);
    var dispatch, poll := Dispatches("web", Some("jid"), false, b), Polls("web", "jid", Done(true, []));
    var told := Told(now, [], {});
    PlanOf(g, b);
    steps, log := ToEdited(g, a, b);
    Running(g, b, M3, hash, M4(hash), dispatch);
    Turn(g, steps, Vm(o, M3, true), ACCEPTED, log, told, Scene(M4(hash), true, ACCEPTED, None, [dispatch]));
    steps := steps + [Reconciles(WEB, told)];
    PastOfAppend(log, "uid", now, [dispatch], "uid");
    FoldOne(g, "uid", PastOf(log, "uid"), now, dispatch);
    log := log + Log("uid", now, [dispatch]);

    Running(g, b, M4(hash), hash, M5(hash), poll);
    Turn(g, steps, Vm(o, M4(hash), true), ACCEPTED, log, told, Scene(M5(hash), true, ACCEPTED, None, [poll]));
    steps := steps + [Reconciles(WEB, told)];
    PastOfAppend(log, "uid", now, [poll], "uid");
    FoldOne(g, "uid", PastOf(log, "uid"), now, poll);
    log := log + Log("uid", now, [poll]);
  }

  /** The VM is Ready on the hash of its current intent, and its pillar has another one. */
  ghost predicate Missed(g: Foreign, w: World, current: map<string, string>, pillar: map<string, string>, day2: bool) {
    && WEB in w.vms && w.vms[WEB].obj.uid == "uid" && w.vms[WEB].obj.tenant == current
    && w.vms[WEB].marks.saltStatus == Ready && w.vms[WEB].marks.rolesHash == IntentHash(g, current)
    && PastOf(w.log, "uid").pillar == Some(pillar)
    && PastOf(w.log, "uid").dispatched.Some? && PastOf(w.log, "uid").dispatched.value.day2 == day2
  }

  /** For any two intents of a managed VM there is a run from an empty cluster, with every call and
      every write succeeding, that ends Ready: the stored hash is that of the current annotations
      `b`, and the pillar was last refreshed with `a`. */
  lemma LateEditIsLost(g: Foreign, a: map<string, string>, b: map<string, string>) returns (steps: seq<Step>)
    requires Managed(Web("uid", a)) && Managed(Web("uid", b))
    ensures Initial(EMPTY) && ValidRun(g, EMPTY, steps) && Lossless(steps) &&
            Missed(g, Run(g, EMPTY, steps), b, a, false)
  {
    hide ReconcileVm, IntentHash, Managed, PastOf, Run, ValidRun;
    var log;
    steps, log := ToReady(g, a, b);
  }

  // ---------------------------------------------------------------- a Day-2 run that loses its patch

  lemma RunningDay2(o: Object, m: Marks, i: Input)
    requires i.refresh == Yes && i.jid.Some?
    ensures var p := Day2Plan(o, m, None, CONFIG, i);
            && p.bulk.None? && !p.clear && p.marks.Some?
            && p.calls == [RunStarts(None), Refreshes(m.minionId, Yes, o.tenant),
                Dispatches(m.minionId, i.jid, true, o.tenant)]
  {
  }

  lemma SlippingKeeps(s: Scene, p: Plan, i: Input)
    requires p.bulk.None? && !p.clear && p.marks.Some? && Status in i.lost && s.events == []
    ensures Execute(s, p, i).scene == s.(events := p.calls)
  {
    assert [] + p.calls == p.calls;
  }

  lemma Slipping(g: Foreign, a: map<string, string>, b: map<string, string>)
    requires Managed(Web("uid", b)) && IntentHash(g, a) != IntentHash(g, b)
    ensures ReconcileVm(g, Web("uid", b), Scene(M5(IntentHash(g, a)), true, ACCEPTED, None, []), IntentHash(g, b),
                        Told(POST_ACCEPT_DELAY, [], {Status})).scene ==
            Scene(M5(IntentHash(g, a)), true, ACCEPTED, None,
                  [RunStarts(None), Refreshes("web", Yes, b), Dispatches("web", Some("jid"), true, b)])
  {
    hide ReconcileVm, IntentHash, Managed, Day2Plan, Execute, Get;
    var o, m, i := Web("uid", b), M5(IntentHash(g, a)), Told(POST_ACCEPT_DELAY, [], {Status});
    var markers, s := Handled(o, "", m).(rolesHash := IntentHash(g, b)), Scene(m, true, ACCEPTED, None, []);
    Chaining(g, b, m, IntentHash(g, b), {Status});
    ChangedIntentRuns(g, o, m, CONFIG, IntentHash(g, b), i);
    RunningDay2(o, markers, i);
    SlippingKeeps(s, Day2Plan(o, markers, None, CONFIG, i), i);
  }

  lemma SlippedPast(g: Foreign, h: Past, at: int, b: map<string, string>)
    ensures var h' := Fold(h, at, [RunStarts(None), Refreshes("web", Yes, b), Dispatches("web", Some("jid"), true, b)]);
            h'.pillar == Some(b) && h'.dispatched == Some(Dispatch("web", "jid", true, b))
  {
    hide Fold;
    var x, y, z := RunStarts(None), Refreshes("web", Yes, b), Dispatches("web", Some("jid"), true, b);
    assert [x, y, z] == [x] + ([y] + [z]);
    FoldCons(g, "uid", h, at, x, [y] + [z]);
    FoldCons(g, "uid", Next(h, at, x), at, y, [z]);
    FoldOne(g, "uid", Next(Next(h, at, x), at, y), at, z);
  }

  /** For any two intents with different hashes there is a run in which one patch is lost: Ready on
      `a`, an edit to `b`, a Day-2 run that refreshes and dispatches `b` and loses its record, and an
      edit back. The stored hash is that of the current annotations `a`, and the pillar has `b`. */
  lemma LostPatchIsMissed(g: Foreign, a: map<string, string>, b: map<string, string>) returns (steps: seq<Step>)
    requires Managed(Web("uid", a)) && Managed(Web("uid", b)) && IntentHash(g, a) != IntentHash(g, b)
    ensures Initial(EMPTY) && ValidRun(g, EMPTY, steps) && Missed(g, Run(g, EMPTY, steps), a, b, true)
  {
    hide ReconcileVm, IntentHash, Managed, PastOf, Run, ValidRun, Reaches, Fold;
    var log;
    steps, log := ToReady(g, a, a);
    var x, y, m, now := Web("uid", a), Web("uid", b), M5(IntentHash(g, a)), POST_ACCEPT_DELAY;
    Editing(g, steps, Vm(x, m, true), y, ACCEPTED, now, log);
    steps := steps + [Changes(WEB, y, true)];
    var es := [RunStarts(None), Refreshes("web", Yes, b), Dispatches("web", Some("jid"), true, b)];
    var told := Told(now, [], {Status});
    Slipping(g, a, b);
    Turn(g, steps, Vm(y, m, true), ACCEPTED, log, told, Scene(m, true, ACCEPTED, None, es));
    steps := steps + [Reconciles(WEB, told)];
    PastOfAppend(log, "uid", now, es, "uid");
    SlippedPast(g, PastOf(log, "uid"), now, b);
    log := log + Log("uid", now, es);
    Editing(g, steps, Vm(y, m, true), x, ACCEPTED, now, log);
    steps := steps + [Changes(WEB, x, true)];
    Unfold(g, steps, Solo(Vm(x, m, true), ACCEPTED, now, log));
  }

  // ---------------------------------------------------------------- a key taken from its VM

  const OTHER: Name := Name("other", "web")

  function Leaving(tenant: map<string, string>): Object {
    Web("uid", tenant).(deleting := true, otherFinalizers := true)
  }

  /** Two VMs of the same name in different namespaces. */
  function Pair(a: Vm, b: Vm, keys: Keys, log: seq<Logged>): World {
    World(map[WEB := a, OTHER := b], keys, map[], 0, {"uid", "uid2"}, log)
  }

  ghost predicate Leads(g: Foreign, steps: seq<Step>, w: World) {
    PossibleRun(g, EMPTY, steps) && Run(g, EMPTY, steps) == w
  }

  lemma {:induction false} PossibleSnoc(g: Foreign, w: World, steps: seq<Step>, step: Step)
    ensures PossibleRun(g, w, steps + [step]) <==> PossibleRun(g, w, steps) && Possible(Run(g, w, steps), step)
    decreases |steps|
  {
    hide Apply, Possible;
    if steps == [] {
      assert [step][1..] == [];
    } else {
      assert (steps + [step])[1..] == steps[1..] + [step];
      PossibleSnoc(g, Apply(g, w, steps[0]), steps[1..], step);
    }
  }

  lemma {:induction false} ValidIsPossible(g: Foreign, w: World, steps: seq<Step>)
    requires ValidRun(g, w, steps)
    ensures PossibleRun(g, w, steps)
    decreases |steps|
  {
    hide Apply, Possible;
    if steps != [] { ValidIsPossible(g, Apply(g, w, steps[0]), steps[1..]); }
  }

  lemma Go(g: Foreign, steps: seq<Step>, w: World, step: Step)
    requires Leads(g, steps, w) && Possible(w, step)
    ensures Leads(g, steps + [step], Apply(g, w, step))
  {
    hide Apply, Possible, Run, PossibleRun;
    RunSnoc(g, EMPTY, steps, step);
    PossibleSnoc(g, EMPTY, steps, step);
  }

  /** The first VM accepted its key, is being deleted, and something else holds it. */
  lemma ToLeaving(g: Foreign, a: map<string, string>) returns (steps: seq<Step>, log: seq<Logged>)
    requires Managed(Web("uid", a))
    ensures Leads(g, steps, Solo(Vm(Leaving(a), M1, true), ACCEPTED, 0, log))
  {
    hide ReconcileVm, IntentHash, Reaches, Managed;
    var o, es := Web("uid", a), [ListedPending, AcceptedFor("web", true)];
    Appearing(g, a);
    Accepting(g, "uid", a, IntentHash(g, a));
    Turn(g, [Appears(WEB, o)], Vm(o, NO_MARKS, false), PENDING, [], Told(0, ["web"], {}),
        Scene(M1, true, ACCEPTED, None, es));
    steps := [Appears(WEB, o)] + [Reconciles(WEB, Told(0, ["web"], {}))];
    log := [] + Log("uid", 0, es);
    Editing(g, steps, Vm(o, M1, true), Leaving(a), ACCEPTED, 0, log);
    steps := steps + [Changes(WEB, Leaving(a), true)];
    assert Leads(g, steps, Solo(Vm(Leaving(a), M1, true), ACCEPTED, 0, log)) by {
      Unfold(g, steps, Solo(Vm(Leaving(a), M1, true), ACCEPTED, 0, log));
      ValidIsPossible(g, EMPTY, steps);
    }
  }

  lemma Deleting(g: Foreign, a: map<string, string>, finalizer: bool, lost: set<Write>, hash: string)
    requires Managed(Web("uid", a)) && Finalizer !in lost
    ensures ReconcileVm(g, Leaving(a), Scene(M1, finalizer, ACCEPTED, None, []), hash, Told(0, [], lost)).scene ==
            Scene(if Status in lost then M1 else M1.(keyStatus := KeyDeleted), false, map[], None,
                [DeletedKey("web", true)])
  {
    hide Get;
    assert ACCEPTED - {"web"} == map[];
  }

  /** The orphaning reconcile: the key goes, the record of that is lost, the VM stays. */
  lemma ToOrphaned(g: Foreign, a: map<string, string>) returns (steps: seq<Step>, log: seq<Logged>)
    requires Managed(Web("uid", a))
    ensures Leads(g, steps, Solo(Vm(Leaving(a), M1, false), map[], 0, log))
  {
    hide ReconcileVm, IntentHash, Leads, Managed;
    steps, log := ToLeaving(g, a);
    var i, es := Told(0, [], {Status}), [DeletedKey("web", true)];
    var w := Solo(Vm(Leaving(a), M1, true), ACCEPTED, 0, log);
    Deleting(g, a, true, {Status}, IntentHash(g, a));
    Go(g, steps, w, Reconciles(WEB, i));
    steps := steps + [Reconciles(WEB, i)];
    var w' := Apply(g, w, Reconciles(WEB, i));
    assert w'.vms == map[WEB := Vm(Leaving(a), M1, false)] && w'.secrets == map[];
    log := log + Log("uid", 0, es);
  }

  /** A minion of that name asks again, and a second VM of that name accepts it. */
  lemma ToShared(g: Foreign, a: map<string, string>) returns (steps: seq<Step>, log: seq<Logged>)
    requires Managed(Web("uid", a))
    ensures Leads(g, steps, Pair(Vm(Leaving(a), M1, false), Vm(Web("uid2", a), M1, true), ACCEPTED, log))
  {
    hide ReconcileVm, IntentHash, Leads, Get;
    steps, log := ToOrphaned(g, a);
    var first, o := Vm(Leaving(a), M1, false), Web("uid2", a);
    Go(g, steps, Solo(first, map[], 0, log), Rekeys(PENDING));
    steps := steps + [Rekeys(PENDING)];
    Go(g, steps, Solo(first, PENDING, 0, log), Appears(OTHER, o));
    steps := steps + [Appears(OTHER, o)];
    var w := Pair(first, Vm(o, NO_MARKS, false), PENDING, log);
    assert Solo(first, PENDING, 0, log).vms[OTHER := Vm(o, NO_MARKS, false)] == w.vms;
    assert {"uid"} + {"uid2"} == {"uid", "uid2"};
    Accepting(g, "uid2", a, IntentHash(g, a));
    var i := Told(0, ["web"], {});
    Go(g, steps, w, Reconciles(OTHER, i));
    steps := steps + [Reconciles(OTHER, i)];
    var w' := Apply(g, w, Reconciles(OTHER, i));
    assert w'.vms == map[WEB := first, OTHER := Vm(o, M1, true)] && w'.secrets == map[];
    log := log + Log("uid2", 0, [ListedPending, AcceptedFor("web", true)]);
  }

  /** What orphaning leads to: a possible run from an empty cluster, in which every call succeeds and
      one write is lost, and whose last step, the deletion of the first VM being resumed, removes the
      key that the second, living VM records. */
  lemma OrphanTakesAKey(g: Foreign, a: map<string, string>) returns (steps: seq<Step>, last: Step)
    requires Managed(Web("uid", a))
    ensures PossibleRun(g, EMPTY, steps + [last]) && last.Reconciles? && last.k == WEB && last.i.lost == {}
    ensures var w, w' := Run(g, EMPTY, steps), Run(g, EMPTY, steps + [last]);
            && OTHER in w.vms && OTHER in w'.vms && w'.vms[OTHER] == w.vms[OTHER]
            && Live(w.vms[OTHER]) && !w.vms[OTHER].obj.deleting
            && w.vms[OTHER].marks.minionId in w.keys && w.vms[OTHER].marks.minionId !in w'.keys
  {
    hide ReconcileVm, IntentHash, Managed, Run, PossibleRun;
    var log;
    steps, log := ToShared(g, a);
    var first, second := Vm(Leaving(a), M1, false), Vm(Web("uid2", a), M1, true);
    var w := Pair(first, second, ACCEPTED, log);
    last := Reconciles(WEB, Told(0, [], {}));
    Deleting(g, a, false, {}, IntentHash(g, a));
    Go(g, steps, w, last);
  }

  // ---------------------------------------------------------------- a finalizer that stays

  const SEEDING: Config := CONFIG.(preseed := true)

  /** Preseeding; every call succeeds and the last patch is lost. */
  function Seed(vm: Vm): Input {
    Told(0, [], {Status}).(configs := Some([SEEDING]), fleet := Some([vm]), generated := Some(PAIR),
        masterPub := Some("master"))
  }

  lemma Seeding(g: Foreign, a: map<string, string>, hash: string)
    requires Managed(Web("uid", a))
    ensures ReconcileVm(g, Web("uid", a), Scene(NO_MARKS, false, PENDING, None, []), hash,
                        Seed(Vm(Web("uid", a), NO_MARKS, false))).scene ==
            Scene(NO_MARKS, true, ACCEPTED, Some(Secret("uid", "private", "public", "master", "web")),
                  [CheckedStates("web"), GeneratedFor("web", Some(PAIR)), FetchedMasterKey])
  {
    hide Get;
    var vm := Vm(Web("uid", a), NO_MARKS, false);
    assert Owner([vm], "uid", "web").None?;
    assert PENDING["web" := Key(AcceptedKey, PAIR)] == ACCEPTED;
  }

  /** A valid run from an empty cluster that ends with a VM being deleted under the operator's
      finalizer and without a minion ID, while its key is accepted on the master. */
  lemma FinalizerIsStranded(g: Foreign, a: map<string, string>) returns (steps: seq<Step>)
    requires Managed(Web("uid", a))
    ensures Initial(EMPTY) && ValidRun(g, EMPTY, steps)
    ensures var w := Run(g, EMPTY, steps);
            && WEB in w.vms && w.vms[WEB].obj.deleting && w.vms[WEB].finalizer && w.vms[WEB].marks.minionId == ""
            && "web" in w.keys && w.keys["web"].state == AcceptedKey
  {
    hide ReconcileVm, IntentHash, Managed, Run, ValidRun;
    var vm := Vm(Web("uid", a), NO_MARKS, false);
    var w, gone := Solo(vm, PENDING, 0, []), Web("uid", a).(deleting := true);
    Appearing(g, a);
    steps := [Appears(WEB, vm.obj)];
    Seeding(g, a, IntentHash(g, a));
    Extend(g, steps, w, Reconciles(WEB, Seed(vm)));
    var w' := Apply(g, w, Reconciles(WEB, Seed(vm)));
    assert w'.vms[WEB] == Vm(vm.obj, NO_MARKS, true);
    steps := steps + [Reconciles(WEB, Seed(vm))];
    Extend(g, steps, w', Changes(WEB, gone, true));
    steps := steps + [Changes(WEB, gone, true)];
  }
}
