/** The update filter of the VM watch: an update is dropped when the two objects agree once the
    operator's own writes and the backup service's are taken out. */
module Watch {
  import opened Text
  import opened Matcher
  import opened Model
  import opened Intent
  import opened Annotations
  import opened Reconcile
  import Enforcement

  const SALT_FINALIZER: string := "salt.vcf.io/cleanup"
  const GUEST_SIGNAL: string := "salt-key-written"
  const BACKUP_VERSION: string := "vmoperator.vmware.com/backup-version"
  const CONVERSION: string := "vmoperator.vmware.com/conversion"
  const BACKUP_CONDITION: string := "VirtualMachineBackupUpToDate"
  const READY_CONDITION: string := "Ready"
  const CREATED_CONDITION: string := "VirtualMachineCreated"

  /** Annotations the filter takes out. */
  const DROPPED: set<string> := OPERATOR_KEYS + {BACKUP_VERSION, CONVERSION}

  /** An entry of status.conditions or of the readiness probe; not every entry need be an object. */
  datatype Condition =
    | Condition(kind: string, status: string, transition: string, rest: string)
    | NoObject(text: string)

  datatype Probe = Probe(key: string, value: string) | NoProbe(text: string)

  /** A VirtualMachine as the API server sends it. None is an absent field; `rest` is everything else. */
  datatype Raw = Raw(
    uid: string,
    name: string,
    resourceVersion: string,
    managedFields: seq<string>,
    annotations: Option<map<string, string>>,
    labels: map<string, string>,
    finalizers: seq<string>,
    deletion: Option<string>,
    probes: seq<Probe>,
    phase: string,
    power: string,
    ip: string,
    conditions: Option<seq<Condition>>,
    rest: string)

  function AnnotationsIn(vm: Raw): map<string, string> {
    if vm.annotations.Some? then vm.annotations.value else map[]
  }

  function ConditionsIn(vm: Raw): seq<Condition> {
    if vm.conditions.Some? then vm.conditions.value else []
  }

  // ---------------------------------------------------------------- what a reconcile reads

  predicate GuestSignalled(vm: Raw) {
    && (exists p :: p in vm.probes && p.Probe? && p.key == GUEST_SIGNAL)
    && (exists c :: c in ConditionsIn(vm) && c.Condition? && c.kind == READY_CONDITION && c.status == "True")
  }

  predicate SaysCreated(c: Condition) {
    c.Condition? && c.kind == CREATED_CONDITION && c.status == "True"
  }

  /** The first condition that says so decides, even when its time does not parse. */
  function CreatedAt(parse: string -> Option<int>, cs: seq<Condition>): Option<int> {
    if cs == [] then None
    else if SaysCreated(cs[0]) then parse(cs[0].transition)
    else CreatedAt(parse, cs[1..])
  }

  /** The VM as the reconcile sees it. */
  function View(parse: string -> Option<int>, vm: Raw): Object {
    Object(vm.uid, vm.name, AnnotationsIn(vm) - OPERATOR_KEYS,
           Seen(vm.phase == "Running" || vm.power == "PoweredOn", vm.ip,
                CreatedAt(parse, ConditionsIn(vm)), GuestSignalled(vm)),
           vm.deletion.Some?,
           exists f :: f in vm.finalizers && f != SALT_FINALIZER)
  }

  // ---------------------------------------------------------------- the filter

  predicate IsBackup(c: Condition) {
    c.Condition? && c.kind == BACKUP_CONDITION
  }

  function WithoutBackups(cs: seq<Condition>): seq<Condition> {
    if cs == [] then []
    else (if IsBackup(cs[0]) then [] else [cs[0]]) + WithoutBackups(cs[1..])
  }

  /** The object without the operator's own writes. An annotation map emptied this way stays, an
      emptied list of conditions goes. */
  function Stripped(vm: Raw): Raw {
    var kept := WithoutBackups(ConditionsIn(vm));
    vm.(resourceVersion := "",
        managedFields := [],
        annotations := if vm.annotations.Some? then Some(vm.annotations.value - DROPPED) else None,
        conditions := if kept == [] then None else Some(kept))
  }

  lemma {:induction false} WithoutBackupsSnoc(cs: seq<Condition>, c: Condition)
    ensures WithoutBackups(cs + [c]) == WithoutBackups(cs) + (if IsBackup(c) then [] else [c])
  {
    hide IsBackup;
    if cs == [] {
      assert cs + [c] == [c] && [c][1..] == [];
    } else {
      var head := if IsBackup(cs[0]) then [] else [cs[0]];
      var rest := WithoutBackups(cs[1..]);
      var last := if IsBackup(c) then [] else [c];
      assert (cs + [c])[0] == cs[0] && (cs + [c])[1..] == cs[1..] + [c];
      WithoutBackupsSnoc(cs[1..], c);
      assert head + (rest + last) == (head + rest) + last;
    }
  }

  method WithoutOwnWrites(vm: Raw) returns (c: Raw)
    ensures c == Stripped(vm)
  {
    c := vm.(resourceVersion := "", managedFields := []);
    if vm.annotations.Some? {
      var annotations := vm.annotations.value;
      var keys := annotations.Keys;
      while keys != {}
        invariant keys <= vm.annotations.value.Keys
        invariant annotations == vm.annotations.value - (OPERATOR_KEYS - keys)
      {
        var k :| k in keys;
        if k in NON_INTENT && k != RETRY_REQUEST { annotations := annotations - {k}; }
        keys := keys - {k};
      }
      annotations := annotations - {BACKUP_VERSION};
      annotations := annotations - {CONVERSION};
      assert annotations == vm.annotations.value - DROPPED;
      c := c.(annotations := Some(annotations));
    }
    var conds := ConditionsIn(vm);
    var kept: seq<Condition> := [];
    for n := 0 to |conds|
      invariant kept == WithoutBackups(conds[..n])
    {
      assert conds[..n + 1] == conds[..n] + [conds[n]];
      WithoutBackupsSnoc(conds[..n], conds[n]);
      if !IsBackup(conds[n]) { kept := kept + [conds[n]]; }
    }
    assert conds[..|conds|] == conds;
    c := c.(conditions := if kept == [] then None else Some(kept));
  }

  predicate Drops(before: Raw, now: Raw) {
    Stripped(before) == Stripped(now)
  }

  /** None is an object of another type, which is never filtered. */
  method OwnWritesOnly(before: Option<Raw>, now: Option<Raw>) returns (r: bool)
    ensures r <==> before.Some? && now.Some? && Drops(before.value, now.value)
  {
    if before.None? || now.None? { return false; }
    var a := WithoutOwnWrites(before.value);
    var b := WithoutOwnWrites(now.value);
    return a == b;
  }

  // ---------------------------------------------------------------- soundness

  /** Taking the backup conditions out keeps the first-match and the any-match searches. */
  lemma {:induction false} BackupsDoNotMatter(parse: string -> Option<int>, cs: seq<Condition>)
    ensures CreatedAt(parse, WithoutBackups(cs)) == CreatedAt(parse, cs)
    ensures forall c :: c in WithoutBackups(cs) <==> c in cs && !IsBackup(c)
  {
    if cs != [] {
      BackupsDoNotMatter(parse, cs[1..]);
      var first := if IsBackup(cs[0]) then [] else [cs[0]];
      assert WithoutBackups(cs) == first + WithoutBackups(cs[1..]);
      assert first != [] ==> WithoutBackups(cs)[1..] == WithoutBackups(cs[1..]);
      assert first == [] ==> WithoutBackups(cs) == WithoutBackups(cs[1..]);
      assert forall c :: c in cs <==> c == cs[0] || c in cs[1..];
    }
  }

  lemma BackupKeysAreNotIntent()
    ensures !IsIntentKey(BACKUP_VERSION) && !IsIntentKey(CONVERSION)
  {
    assert BACKUP_VERSION[0] == 'v' && CONVERSION[0] == 'v' && PREFIX[0] == 's';
  }

  /** The tenant's keys the operator reads are neither its own nor the backup service's. */
  lemma TenantKeysStay()
    ensures MANAGED !in DROPPED && RETRY_REQUEST !in DROPPED
  {
    assert |KEY_STATUS| == 22 && |MINION_ID| == 21 && |MATCH_METHOD| == 24 && |SALT_STATUS| == 23 && |READY| == 17;
    assert |HIGHSTATE_STATUS| == 28 && |HIGHSTATE_TIME| == 26 && |ROLES_HASH| == 22 && |ACCEPTED_AT| == 23;
    assert |KEY_CLEARED| == 23 && |FAILED_COUNT| == 34 && |FAILED_STATES| == 35 && |BULK_HANDLED| == 30;
    assert |BACKUP_VERSION| == 36 && |CONVERSION| == 32 && |MANAGED| == 19 && |RETRY_REQUEST| == 25;
    assert |HIGHSTATE_JID| == 25 && HIGHSTATE_JID[12] == 'h' && RETRY_REQUEST[12] == 'r';
    assert |RETRY_HANDLED| == 25 && RETRY_HANDLED[18] == 'h' && RETRY_REQUEST[18] == 'r';
  }

  lemma IntentAvoidsDropped()
    ensures forall k :: IsIntentKey(k) ==> k !in DROPPED
  {
    BackupKeysAreNotIntent();
  }

  lemma ViewReadsStripped(parse: string -> Option<int>, vm: Raw)
    ensures View(parse, Stripped(vm)).(tenant := map[]) == View(parse, vm).(tenant := map[])
  {
    BackupsDoNotMatter(parse, ConditionsIn(vm));
    var kept := WithoutBackups(ConditionsIn(vm));
    assert ConditionsIn(Stripped(vm)) == kept;
  }

  /** Dropped means nothing a reconcile reads has changed. */
  lemma DroppedAgree(parse: string -> Option<int>, before: Raw, now: Raw)
    requires Drops(before, now)
    ensures var a, b := AnnotationsIn(before), AnnotationsIn(now);
            && IntentOf(a) == IntentOf(b)
            && Get(a, RETRY_REQUEST) == Get(b, RETRY_REQUEST) && Get(a, MANAGED) == Get(b, MANAGED)
    ensures before.labels == now.labels && before.finalizers == now.finalizers && before.deletion == now.deletion
    ensures View(parse, before).(tenant := map[]) == View(parse, now).(tenant := map[])
  {
    BackupsDoNotMatter(parse, ConditionsIn(before));
    BackupsDoNotMatter(parse, ConditionsIn(now));
    ViewReadsStripped(parse, before);
    ViewReadsStripped(parse, now);
    TenantKeysStay();
    var a, b := AnnotationsIn(before), AnnotationsIn(now);
    assert a - DROPPED == b - DROPPED;
    forall k | k !in DROPPED ensures (k in a <==> k in b) && (k in a ==> a[k] == b[k]) {
      assert k in a <==> k in a - DROPPED;
      assert k in b <==> k in b - DROPPED;
    }
    assert IntentOf(a) == IntentOf(b) by { hide IsIntentKey; IntentAvoidsDropped(); }
  }

  // ---------------------------------------------------------------- a dropped update is harmless

  /** Two VMs a reconcile cannot tell apart. */
  predicate Alike(o: Object, o': Object) {
    && o.(tenant := map[]) == o'.(tenant := map[])
    && Get(o.tenant, RETRY_REQUEST) == Get(o'.tenant, RETRY_REQUEST)
    && Get(o.tenant, MANAGED) == Get(o'.tenant, MANAGED)
  }

  /** A call without the annotations the VM had at the time. */
  function Bare(e: Event): Event {
    match e
    case Refreshes(id, answer, _) => Refreshes(id, answer, map[])
    case Dispatches(id, jid, day2, _) => Dispatches(id, jid, day2, map[])
    case _ => e
  }

  ghost predicate SameCalls(es: seq<Event>, es': seq<Event>) {
    |es| == |es'| && forall n :: 0 <= n < |es| ==> Bare(es[n]) == Bare(es'[n])
  }

  ghost predicate SamePlan(p: Plan, p': Plan) {
    p.(calls := []) == p'.(calls := []) && SameCalls(p.calls, p'.calls)
  }

  /** The same calls, patches and requeue: only the annotations noted beside a call may differ. */
  ghost predicate Same(r: Result, r': Result) {
    && r.out == r'.out && r.scene.(events := []) == r'.scene.(events := [])
    && SameCalls(r.scene.events, r'.scene.events)
  }

  lemma Day2Alike(o: Object, o': Object, m: Marks, scheduled: Option<int>, cfg: Config, i: Input)
    ensures SamePlan(Day2Plan(o, m, scheduled, cfg, i), Day2Plan(o', m, scheduled, cfg, i))
  {
    hide FailAt, Dispatched;
  }

  lemma ReadyAlike(g: Foreign, o: Object, o': Object, m: Marks, cfg: Config, hash: string, i: Input)
    requires Alike(o, o')
    ensures SamePlan(ReadyPlan(g, o, m, cfg, hash, i), ReadyPlan(g, o', m, cfg, hash, i))
  {
    hide Get, Day2Plan, Enforcement.EnforcementDue;
    assert Handled(o, cfg.retryToken, m) == Handled(o', cfg.retryToken, m);
    var markers := Handled(o, cfg.retryToken, m).(rolesHash := hash);
    Day2Alike(o, o', markers, None, cfg, i);
    Day2Alike(o, o', markers, cfg.enforcement, cfg, i);
  }

  lemma FailedAlike(o: Object, o': Object, m: Marks, cfg: Config, hash: string)
    requires Alike(o, o')
    ensures FailedPlan(o, m, cfg, hash) == FailedPlan(o', m, cfg, hash)
  {
    hide Get;
    assert Handled(o, cfg.retryToken, m) == Handled(o', cfg.retryToken, m);
  }

  lemma BootstrapAlike(o: Object, o': Object, m: Marks, cfg: Config, hash: string, i: Input)
    ensures SamePlan(RefreshPlan(o, m, cfg, i), RefreshPlan(o', m, cfg, i))
    ensures SamePlan(DispatchPlan(o, m, cfg, hash, i), DispatchPlan(o', m, cfg, hash, i))
  {
  }

  lemma PlansAlike(g: Foreign, o: Object, o': Object, m: Marks, cfg: Config, hash: string, i: Input)
    requires Alike(o, o')
    ensures SamePlan(ChainPlan(g, o, m, cfg, hash, i), ChainPlan(g, o', m, cfg, hash, i))
  {
    hide Alike, PingPlan, RefreshPlan, DispatchPlan, PollPlan, ReadyPlan, FailedPlan;
    BootstrapAlike(o, o', m, cfg, hash, i);
    ReadyAlike(g, o, o', m, cfg, hash, i);
    FailedAlike(o, o', m, cfg, hash);
  }

  /** Clearing a key neither reads nor makes calls. */
  lemma ClearAlike(s: Scene, es: seq<Event>, i: Input)
    ensures var r := ClearPreseedKey(s, i, 0);
            ClearPreseedKey(s.(events := es), i, 0) == Result(r.scene.(events := es), r.out)
  {
  }

  lemma ExecuteAlike(s: Scene, p: Plan, p': Plan, i: Input)
    requires SamePlan(p, p')
    ensures Same(Execute(s, p, i), Execute(s, p', i))
  {
    hide Bare, ClearPreseedKey;
    var b := if p.bulk.Some? then s.(marks := s.marks.(bulkHandled := p.bulk.value)) else s;
    ClearAlike(b, b.events + p.calls, i);
    ClearAlike(b, b.events + p'.calls, i);
  }

  lemma AcquireAlike(g: Foreign, o: Object, o': Object, s: Scene, cfg: Config, i: Input)
    requires o.(tenant := map[]) == o'.(tenant := map[])
    ensures Acquire(g, o, s, cfg, i) == Acquire(g, o', s, cfg, i)
  {
    hide FindMinion, Owner, AcceptMatch, Patch, AddFinalizer;
  }

  lemma ConvergeAlike(g: Foreign, o: Object, o': Object, s: Scene, cfg: Config, hash: string, i: Input)
    requires Alike(o, o')
    ensures Same(Converge(g, o, s, cfg, hash, i), Converge(g, o', s, cfg, hash, i))
  {
    hide Alike, ChainPlan, Execute, SamePlan;
    PlansAlike(g, o, o', s.marks, cfg, hash, i);
    ExecuteAlike(AddFinalizer(s, i, 0).scene, ChainPlan(g, o, s.marks, cfg, hash, i),
                 ChainPlan(g, o', s.marks, cfg, hash, i), i);
  }

  lemma ReconcilesAlike(g: Foreign, o: Object, o': Object, s: Scene, hash: string, i: Input)
    requires Alike(o, o')
    ensures Same(ReconcileVm(g, o, s, hash, i), ReconcileVm(g, o', s, hash, i))
  {
    hide Get, FindConfig, ClearPreseedKey, ReconcileDelete, Converge, Acquire;
    if i.configs.Some? && FindConfig(i.configs.value).Some? {
      var cfg := FindConfig(i.configs.value).value;
      var c := if o.seen.guestSignalled || TimedOut(o, cfg, i.now) then ClearPreseedKey(s, i, 0) else Stop(s, 0);
      ConvergeAlike(g, o, o', c.scene, cfg, hash, i);
      AcquireAlike(g, o, o', c.scene, cfg, i);
    }
  }

  /** Leaving out the operator's annotations changes neither the intent nor what the tenant set. */
  lemma TenantPart(a: map<string, string>)
    ensures IntentOf(a - OPERATOR_KEYS) == IntentOf(a)
    ensures Get(a - OPERATOR_KEYS, RETRY_REQUEST) == Get(a, RETRY_REQUEST)
    ensures Get(a - OPERATOR_KEYS, MANAGED) == Get(a, MANAGED)
  {
    TenantKeysStay();
  }

  lemma ViewsAlike(g: Foreign, parse: string -> Option<int>, before: Raw, now: Raw)
    requires Drops(before, now)
    ensures var o, o' := View(parse, before), View(parse, now);
            Alike(o, o') && IntentHash(g, o.tenant) == IntentHash(g, o'.tenant)
  {
    hide Drops, IntentOf, CreatedAt, GuestSignalled, Preimage, Get;
    DroppedAgree(parse, before, now);
    TenantPart(AnnotationsIn(before));
    TenantPart(AnnotationsIn(now));
    PreimageOfIntent(View(parse, before).tenant, View(parse, now).tenant);
  }

  /** A dropped update is harmless: every reconcile, from any state and with any answers from
      outside, does to the new object exactly what it would have done to the old one. */
  lemma DroppedIsHarmless(g: Foreign, parse: string -> Option<int>, before: Raw, now: Raw, s: Scene, i: Input)
    requires Drops(before, now)
    ensures var o, o' := View(parse, before), View(parse, now);
            Same(ReconcileVm(g, o, s, IntentHash(g, o.tenant), i), ReconcileVm(g, o', s, IntentHash(g, o'.tenant), i))
  {
    hide ReconcileVm, Drops, IntentHash, View, Same, Alike;
    ViewsAlike(g, parse, before, now);
    var o, o' := View(parse, before), View(parse, now);
    ReconcilesAlike(g, o, o', s, IntentHash(g, o.tenant), i);
  }

  // ---------------------------------------------------------------- completeness

  function WithoutFinalizer(fs: seq<string>): (r: seq<string>)
    ensures SALT_FINALIZER !in r
  {
    if fs == [] then []
    else (if fs[0] == SALT_FINALIZER then [] else [fs[0]]) + WithoutFinalizer(fs[1..])
  }

  function SetFinalizer(fs: seq<string>, present: bool): seq<string> {
    if present == (SALT_FINALIZER in fs) then fs
    else if present then fs + [SALT_FINALIZER]
    else WithoutFinalizer(fs)
  }

  /** The object once the operator's patches have left it with these marks and finalizer. Patches
      are merges, so no other annotation changes. */
  function Patched(vm: Raw, g: Foreign, m: Marks, finalizer: bool, version: string, managers: seq<string>): Raw {
    vm.(resourceVersion := version, managedFields := managers,
        annotations := Some(AnnotationsIn(vm) - OPERATOR_KEYS + Render(g, m)),
        finalizers := SetFinalizer(vm.finalizers, finalizer))
  }

  /** The update an operator write causes is dropped exactly when the VM had annotations before, as
      every managed VM has, and the write left the finalizer alone: annotation patches are filtered
      out, finalizer patches wake. */
  lemma OwnWriteIsDroppedIff(g: Foreign, vm: Raw, m: Marks, finalizer: bool, version: string, managers: seq<string>)
    ensures Drops(vm, Patched(vm, g, m, finalizer, version, managers)) <==>
            vm.annotations.Some? && finalizer == (SALT_FINALIZER in vm.finalizers)
  {
    hide Render;
    var now := Patched(vm, g, m, finalizer, version, managers);
    assert AnnotationsIn(vm) - DROPPED == AnnotationsIn(now) - DROPPED;
    assert finalizer != (SALT_FINALIZER in vm.finalizers) ==> SALT_FINALIZER in now.finalizers + vm.finalizers;
  }

  // ---------------------------------------------------------------- other writers

  /** An update that sets one annotation is dropped exactly when it is one of the operator's own, one of
      the two of the backup service, or no change at all. */
  lemma AnnotationIsDroppedIff(vm: Raw, k: string, v: string, version: string)
    requires vm.annotations.Some?
    ensures var a := vm.annotations.value;
            Drops(vm, vm.(annotations := Some(a[k := v]), resourceVersion := version)) <==>
            || k in OPERATOR_KEYS
            || k == "vmoperator.vmware.com/backup-version" || k == "vmoperator.vmware.com/conversion"
            || (k in a && a[k] == v)
  {
    var a := vm.annotations.value;
    if k in DROPPED {
      assert a[k := v] - DROPPED == a - DROPPED;
    } else {
      assert (a[k := v] - DROPPED)[k] == v;
      assert k in a - DROPPED <==> k in a;
      if k in a && a[k] == v { assert a[k := v] == a; }
    }
  }

  lemma {:induction false} WithoutBackupsAppend(a: seq<Condition>, b: seq<Condition>)
    ensures WithoutBackups(a + b) == WithoutBackups(a) + WithoutBackups(b)
  {
    hide IsBackup;
    if a == [] {
      assert a + b == b;
    } else {
      assert (a + b)[0] == a[0] && (a + b)[1..] == a[1..] + b;
      WithoutBackupsAppend(a[1..], b);
    }
  }

  /** An update that adds one condition, anywhere in the list, is dropped exactly when it is the
      backup service's. */
  lemma ConditionIsDroppedIff(vm: Raw, n: nat, c: Condition, version: string)
    requires n <= |ConditionsIn(vm)|
    ensures var cs := ConditionsIn(vm);
            Drops(vm, vm.(conditions := Some(cs[..n] + [c] + cs[n..]), resourceVersion := version)) <==>
            c.Condition? && c.kind == "VirtualMachineBackupUpToDate"
  {
    var cs := ConditionsIn(vm);
    var before, after := cs[..n], cs[n..];
    WithoutBackupsAppend(before, after);
    WithoutBackupsAppend(before + [c], after);
    WithoutBackupsSnoc(before, c);
    assert before + after == cs;
    var kept, now := WithoutBackups(cs), WithoutBackups(before + [c] + after);
    if IsBackup(c) { assert now == kept; } else { assert |now| == |kept| + 1; }
  }

  /** The creation time is that of the first condition that says the VM was created. */
  lemma {:induction false} CreatedAtIsFirst(parse: string -> Option<int>, cs: seq<Condition>, n: nat)
    requires n <= |cs| && forall m :: 0 <= m < n ==>
               !(cs[m].Condition? && cs[m].kind == "VirtualMachineCreated" && cs[m].status == "True")
    requires n < |cs| ==> cs[n].Condition? && cs[n].kind == "VirtualMachineCreated" && cs[n].status == "True"
    ensures CreatedAt(parse, cs) == if n < |cs| then parse(cs[n].transition) else None
  {
    if n > 0 {
      assert !SaysCreated(cs[0]);
      CreatedAtIsFirst(parse, cs[1..], n - 1);
    }
  }
}
