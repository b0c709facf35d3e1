/** The reconciler itself: one object per reconcile, holding the VM as the API server has it, the
    master's keys and the bootstrap Secret, all changed call by call and patch by patch. Each
    method is proved to do what module Reconcile specifies. */
module Controller {
  import opened Text
  import opened Matcher
  import opened Model
  import opened Intent
  import opened Annotations
  import opened Reconcile
  import Enforcement

  /** Declaratively: the first Ready config of the team's own, or failing that the first Ready one. */
  predicate PickedConfig(configs: seq<Config>, r: Option<Config>) {
    match r
    case None => forall c :: c in configs ==> !c.ready
    case Some(c) =>
      exists n :: 0 <= n < |configs| && configs[n] == c && c.ready &&
                  (c.labelled ==> forall d :: d in configs && d.ready ==> d.labelled) &&
                  (forall m :: 0 <= m < n && configs[m].ready ==> !c.labelled && configs[m].labelled)
  }

  lemma {:induction false} FindConfigPicks(configs: seq<Config>)
    ensures PickedConfig(configs, FindConfig(configs))
  {
    if configs != [] {
      var rest := configs[1..];
      FindConfigPicks(rest);
      var r := FindConfig(configs);
      assert forall c :: c in configs ==> c == configs[0] || c in rest;
      if r.Some? && r == FindConfig(rest) && !(configs[0].ready && !configs[0].labelled) &&
         (!r.value.labelled || !configs[0].ready) {
        var n :| 0 <= n < |rest| && rest[n] == r.value && r.value.ready &&
                 (r.value.labelled ==> forall d :: d in rest && d.ready ==> d.labelled) &&
                 (forall m :: 0 <= m < n && rest[m].ready ==> !r.value.labelled && rest[m].labelled);
        assert forall m :: 0 < m < n + 1 ==> configs[m] == rest[m - 1];
        assert configs[n + 1] == r.value;
      } else if r.Some? {
        assert configs[0] == r.value;
      }
    }
  }

  lemma RestDoesNothing(s: Scene, after: int, i: Input)
    ensures Execute(s, Rest(after), i) == Stop(s, after)
  {
    assert s.events + [] == s.events;
  }

  /** Recording the bulk token first and then carrying on is what a plan with a token does. */
  lemma BulkComesFirst(s: Scene, p: Plan, token: string, i: Input)
    requires p.bulk.None?
    ensures Execute(s, p.(bulk := Some(token)), i) ==
            if BulkMark in i.lost then Abort(s) else Execute(s.(marks := s.marks.(bulkHandled := token)), p, i)
  {
  }

  /** A turn that records no token and clears no key is its calls and then one patch. */
  lemma CallsThenPatch(s: Scene, p: Plan, i: Input)
    requires p.bulk.None? && !p.clear && p.landed == []
    requires p.marks.Some? ==> p.marks.value.keyCleared == s.marks.keyCleared
    ensures var e := s.(events := s.events + p.calls);
            Execute(s, p, i) == if p.marks.None? then Stop(e, p.after) else Patch(e, p.marks.value, Status, i, p.after)
  {
    assert s.events + p.calls + [] == s.events + p.calls;
  }

  lemma Day2HasNoToken(o: Object, m: Marks, scheduled: Option<int>, cfg: Config, i: Input)
    ensures var p := Day2Plan(o, m, scheduled, cfg, i); p.bulk == None && p.(bulk := None) == p
  {
  }

  lemma RecordedTokenIsHandled(o: Object, token: string, m: Marks)
    requires !RetryRequested(o, m) && BulkChanged(m, token)
    ensures var r := m.(bulkHandled := token); Handled(o, token, r) == Handled(o, token, m) == r
  {
  }

  class Reconciler {
    const g: Foreign
    const obj: Object
    var marks: Marks
    var finalizer: bool
    var keys: Keys
    var secret: Option<Secret>
    var events: seq<Event>

    ghost function Here(): Scene
      reads this
    {
      Scene(marks, finalizer, keys, secret, events)
    }

    constructor (g: Foreign, vm: Vm, keys: Keys, secret: Option<Secret>)
      ensures this.g == g && obj == vm.obj && Here() == Scene(vm.marks, vm.finalizer, keys, secret, [])
    {
      this.g, obj, marks, finalizer := g, vm.obj, vm.marks, vm.finalizer;
      this.keys, this.secret, events := keys, secret, [];
    }

    // -------------------------------------------------------------- small writes

    method PatchAnnotations(m: Marks, w: Write, i: Input) returns (ok: bool)
      modifies this`marks
      ensures ok == (w !in i.lost)
      ensures Here() == Patch(old(Here()), m, w, i, 0).scene
    {
      ok := w !in i.lost;
      if ok { marks := m; }
    }

    method EnsureFinalizer(i: Input) returns (ok: bool)
      modifies this`finalizer
      ensures var r := AddFinalizer(old(Here()), i, 0); Here() == r.scene && ok == r.out.Requeue?
    {
      ok := true;
      if !finalizer {
        ok := Finalizer !in i.lost;
        if ok { finalizer := true; }
      }
    }

    method IntentHashNow() returns (h: string)
      ensures h == IntentHash(g, obj.tenant)
    {
      h := ComputeIntentHash(g, AnnotationsOf(g, obj, marks));
      HashIgnoresMarks(g, obj, marks);
    }

    // -------------------------------------------------------------- entry

    method Reconcile(i: Input) returns (out: Outcome)
      modifies this
      ensures var r := ReconcileVm(g, obj, old(Here()), IntentHash(g, obj.tenant), i); Here() == r.scene && out == r.out
    {
      hide IntentHash, FindConfig, ReconcileCreate, ReconcileDelete;
      if Get(obj.tenant, MANAGED) != "true" { return Requeue(0); }
      if i.configs.None? { return Failure; }
      var cfg := FindSaltKeyConfig(i.configs.value);
      if cfg.None? { return Requeue(0); }
      if obj.deleting {
        out := DeleteVm(i);
        return;
      }
      if !i.selected { return Requeue(0); }
      out := CreateVm(cfg.value, i);
    }

    method FindSaltKeyConfig(configs: seq<Config>) returns (r: Option<Config>)
      ensures r == FindConfig(configs) && PickedConfig(configs, r)
    {
      var enrolled: Option<Config> := None;
      for n := 0 to |configs|
        invariant enrolled.Some? ==> enrolled.value.labelled
        invariant FindConfig(configs) ==
                  var rest := FindConfig(configs[n..]);
                  if rest.Some? && !rest.value.labelled then rest else if enrolled.Some? then enrolled else rest
      {
        assert configs[n..][1..] == configs[n + 1..];
        if configs[n].ready {
          if !configs[n].labelled {
            FindConfigPicks(configs);
            return Some(configs[n]);
          }
          if enrolled.None? { enrolled := Some(configs[n]); }
        }
      }
      FindConfigPicks(configs);
      return enrolled;
    }

    method CreateVm(cfg: Config, i: Input) returns (out: Outcome)
      modifies this
      ensures var r := ReconcileCreate(g, obj, old(Here()), cfg, IntentHash(g, obj.tenant), i);
              Here() == r.scene && out == r.out
    {
      hide IntentHash, Converge, RunPreseedKey, RunAcceptKey, ClearPreseedKey;
      var timedOut := obj.seen.createdAt.Some? && i.now - obj.seen.createdAt.value >= cfg.acceptTimeout;
      if obj.seen.guestSignalled || timedOut {
        var ok := ClearKey(i);
        if !ok { return Failure; }
      }
      if marks.keyStatus != Accepted {
        var preseeded := marks.keyStatus == Preseeded;
        if marks.keyStatus == KeyFailed && marks.how == ByPreseed { return Requeue(0); }
        if cfg.preseed && !preseeded {
          if !i.client { return Failure; }
          out := PreseedKey(cfg, i);
          return;
        }
        var up := obj.seen.running && obj.seen.ip != "";
        if !up && preseeded && timedOut {
          var ok := PatchAnnotations(marks.(keyStatus := KeyFailed), Status, i);
          return if ok then Requeue(0) else Failure;
        }
        if !up { return Requeue(cfg.requeue); }
        if preseeded {
          var ok := PatchAnnotations(marks.(keyStatus := Accepted, acceptedAt := Some(Stamp(i.now))), Status, i);
          return if ok then Requeue(cfg.requeue) else Failure;
        }
        if !i.client { return Failure; }
        out := AcceptKey(cfg, i);
        return;
      }
      out := ConvergeVm(cfg, i);
    }

    // -------------------------------------------------------------- obtaining a key

    method AcceptKey(cfg: Config, i: Input) returns (out: Outcome)
      modifies this
      ensures var r := RunAcceptKey(g, obj, old(Here()), cfg, i); Here() == r.scene && out == r.out
    {
      hide FindMinion;
      events := events + [ListedPending];
      if i.pending.None? { return Failure; }
      var found := FindMinionID(g, obj.name, obj.seen.ip, i.pending.value);
      FoundIsFindMinion(g, obj.name, obj.seen.ip, i.pending.value, found);
      if found.how != NoMethod {
        events := events + [AcceptedFor(found.id, i.acceptOk)];
        if !i.acceptOk { return Failure; }
        keys := Accept(keys, found.id);
        var ok := PatchAnnotations(marks.(keyStatus := Accepted, minionId := found.id, how := found.how,
                                          acceptedAt := Some(Stamp(i.now))), Status, i);
        if !ok { return Failure; }
        ok := EnsureFinalizer(i);
        return if ok then Requeue(cfg.requeue) else Failure;
      }
      var created := obj.seen.createdAt.Some?;
      if !created || i.now - obj.seen.createdAt.value < cfg.acceptTimeout { return Requeue(cfg.requeue); }
      if marks.keyStatus == KeyFailed { return Requeue(0); }
      var ok := PatchAnnotations(marks.(keyStatus := KeyFailed), Status, i);
      return if ok then Requeue(0) else Failure;
    }

    static lemma FoundIsFindMinion(g: Foreign, name: string, ip: string, keys: seq<string>, found: Match)
      requires IsMatch(g, Target(name, ip, Shift(ip)), keys, found)
      ensures found == FindMinion(g, name, ip, keys)
    {
      var t := Target(name, ip, Shift(ip));
      SearchIsMatch(g, t, keys);
      MatchIsUnique(g, t, keys, found, Search(g, t, keys));
    }

    method MinionIdOwner(fleet: seq<Vm>, id: string) returns (owner: Option<Vm>)
      ensures owner == Owner(fleet, obj.uid, id)
      ensures owner.None? <==> forall vm :: vm in fleet && vm.obj.uid != obj.uid ==> vm.marks.minionId != id
    {
      for n := 0 to |fleet|
        invariant Owner(fleet, obj.uid, id) == Owner(fleet[n..], obj.uid, id)
        invariant forall m :: 0 <= m < n && fleet[m].obj.uid != obj.uid ==> fleet[m].marks.minionId != id
      {
        assert fleet[n..][1..] == fleet[n + 1..];
        if fleet[n].obj.uid != obj.uid && fleet[n].marks.minionId == id { return Some(fleet[n]); }
      }
      return None;
    }

    method PreseedKey(cfg: Config, i: Input) returns (out: Outcome)
      modifies this
      ensures var r := RunPreseedKey(obj, old(Here()), cfg, i); Here() == r.scene && out == r.out
    {
      hide Owner, Generate;
      var id := obj.name;
      if i.fleet.None? { return Failure; }
      var owner := MinionIdOwner(i.fleet.value, id);
      if owner.Some? {
        if owner.value.obj.deleting { return Requeue(cfg.requeue); }
        var ok := PatchAnnotations(marks.(keyStatus := KeyFailed), Status, i);
        return if ok then Requeue(0) else Failure;
      }
      events := events + [CheckedStates(id)];
      if !i.statesOk { return Failure; }
      out := GenerateKey(cfg, id, i);
    }

    method GenerateKey(cfg: Config, id: string, i: Input) returns (out: Outcome)
      modifies this
      ensures var r := Generate(obj, old(Here()), cfg, id, i); Here() == r.scene && out == r.out
    {
      var force := id in keys;
      if i.foreignKey.Some? && !force { keys := keys[id := Key(PendingKey, i.foreignKey.value)]; }
      var pair := i.generated;
      if !force && id in keys { pair := None; }
      events := events + [GeneratedFor(id, pair)];
      if pair.None? { return Failure; }
      keys := keys[id := Key(AcceptedKey, pair.value)];
      events := events + [FetchedMasterKey];
      if i.masterPub.None? { return Failure; }
      if BootstrapSecret in i.lost { return Failure; }
      secret := Some(Secret(obj.uid, pair.value.priv, pair.value.pub, i.masterPub.value, id));
      var ok := EnsureFinalizer(i);
      if !ok { return Failure; }
      ok := PatchAnnotations(marks.(keyStatus := Preseeded, minionId := id, how := ByPreseed), Status, i);
      return if ok then Requeue(cfg.requeue) else Failure;
    }

    method ClearKey(i: Input) returns (ok: bool)
      modifies this
      ensures var r := ClearPreseedKey(old(Here()), i, 0); Here() == r.scene && ok == r.out.Requeue?
      ensures finalizer == old(finalizer) && keys == old(keys) && events == old(events)
    {
      if marks.how != ByPreseed || marks.keyCleared { return true; }
      if ClearSecret in i.lost { return false; }
      if secret.Some? { secret := Some(secret.value.(pem := CLEARED, pub := CLEARED)); }
      ok := PatchAnnotations(marks.(keyCleared := true), ClearMark, i);
    }

    // -------------------------------------------------------------- the Salt chain

    method ConvergeVm(cfg: Config, i: Input) returns (out: Outcome)
      modifies this
      ensures var r := Converge(g, obj, old(Here()), cfg, IntentHash(g, obj.tenant), i);
              Here() == r.scene && out == r.out
    {
      hide IntentHash, Execute, PingPlan, RefreshPlan, DispatchPlan, PollPlan, ReadyPlan, FailedPlan;
      var ok := EnsureFinalizer(i);
      if !ok { return Failure; }
      if !i.client { return Failure; }
      if marks.minionId == "" { return Requeue(0); }
      match marks.saltStatus {
        case Unstarted => out := RunPing(cfg, i);
        case Pinged => out := RunRefreshPillar(cfg, i);
        case PillarRefreshed => out := RunDispatchHighstate(cfg, i);
        case HighstateDispatched => out := RunPollHighstate(cfg, i);
        case Ready => out := CheckReconvergence(cfg, i);
        case Failed(_) => out := CheckReconvergence(cfg, i);
      }
    }

    method RunPing(cfg: Config, i: Input) returns (out: Outcome)
      modifies this
      ensures var r := Execute(old(Here()), PingPlan(old(marks), cfg, i), i); Here() == r.scene && out == r.out
    {
      if marks.acceptedAt.Some? {
        var remaining := POST_ACCEPT_DELAY - (i.now - marks.acceptedAt.value);
        if remaining > 0 { return Requeue(remaining); }
      }
      events := events + [Pings(marks.minionId, i.ping)];
      if i.ping != Yes {
        if marks.acceptedAt.Some? && i.now - marks.acceptedAt.value < MAX_BOOTSTRAP { return Requeue(RETRY_BACKOFF); }
        var ok := ClearKey(i);
        if !ok { return Failure; }
        ok := PatchAnnotations(marks.(saltStatus := Failed(PingStep), ready := False), Status, i);
        return if ok then Requeue(0) else Failure;
      }
      var ok := ClearKey(i);
      if !ok { return Failure; }
      ok := PatchAnnotations(marks.(saltStatus := Pinged), Status, i);
      return if ok then Requeue(cfg.requeue) else Failure;
    }

    method RunRefreshPillar(cfg: Config, i: Input) returns (out: Outcome)
      modifies this
      ensures var r := Execute(old(Here()), RefreshPlan(obj, old(marks), cfg, i), i); Here() == r.scene && out == r.out
    {
      hide Execute;
      CallsThenPatch(Here(), RefreshPlan(obj, marks, cfg, i), i);
      events := events + [Refreshes(marks.minionId, i.refresh, obj.tenant)];
      if i.refresh != Yes {
        if marks.acceptedAt.Some? && i.now - marks.acceptedAt.value < MAX_BOOTSTRAP { return Requeue(RETRY_BACKOFF); }
        var ok := PatchAnnotations(marks.(saltStatus := Failed(RefreshStep), ready := False), Status, i);
        return if ok then Requeue(0) else Failure;
      }
      var ok := PatchAnnotations(marks.(saltStatus := PillarRefreshed), Status, i);
      return if ok then Requeue(cfg.requeue) else Failure;
    }

    method RunDispatchHighstate(cfg: Config, i: Input) returns (out: Outcome)
      modifies this
      ensures var r := Execute(old(Here()), DispatchPlan(obj, old(marks), cfg, IntentHash(g, obj.tenant), i), i);
              Here() == r.scene && out == r.out
    {
      hide IntentHash;
      events := events + [Dispatches(marks.minionId, i.jid, false, obj.tenant)];
      if i.jid.None? {
        var ok := PatchAnnotations(marks.(saltStatus := Failed(DispatchStep), ready := False), Status, i);
        return if ok then Requeue(0) else Failure;
      }
      var hash := IntentHashNow();
      var ok := PatchAnnotations(marks.(saltStatus := HighstateDispatched, jid := i.jid.value, highstate := InProgress,
                                        ready := False, rolesHash := hash), Status, i);
      return if ok then Requeue(cfg.requeue) else Failure;
    }

    method RunPollHighstate(cfg: Config, i: Input) returns (out: Outcome)
      modifies this
      ensures var r := Execute(old(Here()), PollPlan(old(marks), cfg, i), i); Here() == r.scene && out == r.out
    {
      hide Execute;
      CallsThenPatch(Here(), PollPlan(marks, cfg, i), i);
      if marks.jid == "" { return Requeue(cfg.requeue); }
      events := events + [Polls(marks.minionId, marks.jid, i.poll)];
      if !i.poll.Done? { return Requeue(cfg.requeue); }
      var now := Some(Stamp(i.now));
      if i.poll.ok {
        var ok := PatchAnnotations(marks.(saltStatus := Ready, ready := True, highstate := Succeeded,
                                          highstateTime := now,
                                          failedStates := []), Status, i);
        return if ok then Requeue(cfg.requeue) else Failure;
      }
      var ok := PatchAnnotations(marks.(saltStatus := Failed(HighstateStep), ready := False,
                                        highstate := HighstateFailed,
                                        highstateTime := now, failedStates := i.poll.failed), Status, i);
      return if ok then Requeue(0) else Failure;
    }

    // -------------------------------------------------------------- reconvergence

    method CheckReconvergence(cfg: Config, i: Input) returns (out: Outcome)
      requires marks.saltStatus.Ready? || marks.saltStatus.Failed?
      modifies this
      ensures var hash := IntentHash(g, obj.tenant);
              var p := if old(marks).saltStatus.Ready? then ReadyPlan(g, obj, old(marks), cfg, hash, i)
                       else FailedPlan(obj, old(marks), cfg, hash);
              var r := Execute(old(Here()), p, i);
              Here() == r.scene && out == r.out
    {
      hide IntentHash, Get, Execute, Day2Plan, Enforcement.EnforcementDue;
      var failed := marks.saltStatus.Failed?;
      var request := Get(obj.tenant, RETRY_REQUEST);
      var retry := request != "" && request != marks.retryHandled;
      var bulk := cfg.retryToken != "" && cfg.retryToken != marks.bulkHandled;
      if marks.rolesHash == "" {
        if !failed || !(retry || bulk) {
          RestDoesNothing(Here(), 0, i);
          return Requeue(0);
        }
        out := RestartChain(Handled(obj, cfg.retryToken, marks), cfg, i);
        return;
      }
      var hash := IntentHashNow();
      var scheduled: Option<int> := None;
      Day2HasNoToken(obj, Handled(obj, cfg.retryToken, marks).(rolesHash := hash), cfg.enforcement, cfg, i);
      if hash == marks.rolesHash && !retry && !(bulk && failed) {
        if bulk {
          RecordedTokenIsHandled(obj, cfg.retryToken, marks);
          ghost var last := marks.highstateTime;
          ghost var due := Enforcement.EnforcementDue(cfg.enforcement, g.seed(obj.uid), obj.uid, last, i.now);
          ghost var m := Handled(obj, cfg.retryToken, marks).(rolesHash := hash);
          ghost var p := if due.due then Day2Plan(obj, m, cfg.enforcement, cfg, i) else Rest(due.wait);
          BulkComesFirst(Here(), p, cfg.retryToken, i);
          var ok := PatchAnnotations(marks.(bulkHandled := cfg.retryToken), BulkMark, i);
          if !ok { return Failure; }
        }
        if failed {
          RestDoesNothing(Here(), 0, i);
          return Requeue(0);
        }
        var v := Enforcement.EnforcementDue(cfg.enforcement, g.seed(obj.uid), obj.uid, marks.highstateTime, i.now);
        if !v.due {
          RestDoesNothing(Here(), v.wait, i);
          return Requeue(v.wait);
        }
        scheduled := cfg.enforcement;
      }
      if failed {
        out := RestartChain(Handled(obj, cfg.retryToken, marks).(rolesHash := hash, highstate := NoHighstate), cfg, i);
        return;
      }
      out := RunDay2(Handled(obj, cfg.retryToken, marks).(rolesHash := hash), scheduled, cfg, i);
    }

    method RestartChain(m: Marks, cfg: Config, i: Input) returns (out: Outcome)
      modifies this
      ensures var reset := m.(saltStatus := Unstarted, ready := False);
              var p := Plan(None, [], false, Some(reset), [ChainReset], cfg.requeue);
              var r := Execute(old(Here()), p, i);
              m.keyCleared == old(marks).keyCleared ==> Here() == r.scene && out == r.out
    {
      var ok := PatchAnnotations(m.(saltStatus := Unstarted, ready := False), Status, i);
      if !ok { return Failure; }
      events := events + [ChainReset];
      return Requeue(cfg.requeue);
    }

    method RunDay2(m: Marks, scheduled: Option<int>, cfg: Config, i: Input) returns (out: Outcome)
      modifies this
      ensures var r := Execute(old(Here()), Day2Plan(obj, m, scheduled, cfg, i), i);
              m.keyCleared == old(marks).keyCleared ==> Here() == r.scene && out == r.out
    {
      hide Execute;
      if m.keyCleared == marks.keyCleared { CallsThenPatch(Here(), Day2Plan(obj, m, scheduled, cfg, i), i); }
      events := events + [RunStarts(scheduled)];
      events := events + [Refreshes(m.minionId, i.refresh, obj.tenant)];
      if i.refresh != Yes {
        var ok := PatchAnnotations(m.(saltStatus := Failed(RefreshStep), ready := False), Status, i);
        return if ok then Requeue(0) else Failure;
      }
      events := events + [Dispatches(m.minionId, i.jid, true, obj.tenant)];
      if i.jid.None? {
        var ok := PatchAnnotations(m.(saltStatus := Failed(DispatchStep), ready := False), Status, i);
        return if ok then Requeue(0) else Failure;
      }
      var ok := PatchAnnotations(m.(saltStatus := HighstateDispatched, jid := i.jid.value, highstate := InProgress,
                                    ready := False), Status, i);
      return if ok then Requeue(cfg.requeue) else Failure;
    }

    // -------------------------------------------------------------- deletion

    method DeleteVm(i: Input) returns (out: Outcome)
      modifies this
      ensures var r := ReconcileDelete(old(Here()), i); Here() == r.scene && out == r.out
    {
      if marks.minionId == "" { return Requeue(0); }
      if marks.keyStatus == KeyDeleted {
        out := DropFinalizer(i);
        return;
      }
      if !i.client { return Requeue(0); }
      events := events + [DeletedKey(marks.minionId, i.deleteOk)];
      var status := DeleteFailed;
      if i.deleteOk {
        keys := keys - {marks.minionId};
        status := KeyDeleted;
      }
      var _ := PatchAnnotations(marks.(keyStatus := status), Status, i);
      out := DropFinalizer(i);
    }

    method DropFinalizer(i: Input) returns (out: Outcome)
      modifies this`finalizer
      ensures var r := RemoveFinalizer(old(Here()), i); Here() == r.scene && out == r.out
      ensures (out == Requeue(0) <==> !finalizer) && (finalizer ==> old(finalizer) && out == Failure)
    {
      if finalizer {
        if Finalizer in i.lost { return Failure; }
        finalizer := false;
      }
      return Requeue(0);
    }
  }
}
