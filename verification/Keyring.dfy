/** What one reconcile does to the master's keys and to the bootstrap Secret. */
module Keyring {
  import opened Text
  import opened Matcher
  import opened Model
  import opened Reconcile
  import opened Consistency

  /** The master is untouched and the VM records the same key as before, if any. */
  predicate Kept(s: Scene, r: Scene) {
    && r.keys == s.keys
    && r.marks.minionId == s.marks.minionId
    && (r.marks.keyStatus.KeyDeleted? <==> s.marks.keyStatus.KeyDeleted?)
  }

  /** Where an acquired ID may come from: the pending list, or the VM's own name when no other VM
      records it. */
  predicate MayAcquire(o: Object, i: Input, id: string) {
    || (i.pending.Some? && id in i.pending.value)
    || (id == o.name && i.fleet.Some? && Owner(i.fleet.value, o.uid, id).None?)
  }

  /** A VM without a key: nothing but the key `id` changes on the master, and the VM records
      either nothing or `id`, which is then accepted. */
  ghost predicate Acquired(o: Object, s: Scene, r: Scene, i: Input, id: string) {
    && !o.deleting && s.marks.minionId == "" && MayAcquire(o, i, id)
    && (r.marks.minionId == "" || (r.marks.minionId == id && id in r.keys && r.keys[id].state == AcceptedKey))
    && !r.marks.keyStatus.KeyDeleted?
    && r.keys - {id} == s.keys - {id}
  }

  /** A deleting VM removed its own key, and recorded that unless the patch was lost. */
  predicate Removed(o: Object, s: Scene, r: Scene, i: Input) {
    && o.deleting && s.marks.minionId != "" && !s.marks.keyStatus.KeyDeleted? && i.deleteOk
    && r.keys == s.keys - {s.marks.minionId}
    && r.marks.minionId == s.marks.minionId
    && (r.marks.keyStatus.KeyDeleted? <==> Status !in i.lost)
  }

  predicate IsCleared(secret: Option<Secret>) {
    secret.Some? ==> secret.value.pem == secret.value.pub == CLEARED
  }

  /** The Secret holds the pair the master accepted for this VM. */
  predicate HoldsPair(o: Object, id: string, keys: Keys, secret: Option<Secret>) {
    && id in keys && secret.Some? && secret.value.owner == o.uid && secret.value.id == id
    && keys[id] == Key(AcceptedKey, KeyPair(secret.value.pem, secret.value.pub))
  }

  /** The Secret is there and was written for this VM. */
  predicate OwnSecret(o: Object, id: string, secret: Option<Secret>) {
    secret.Some? && secret.value.owner == o.uid && secret.value.id == id
  }

  /** A preseeded VM has its own Secret; a key in it is never a stale one, and none is there once it
      was cleared. */
  predicate SecretFresh(o: Object, m: Marks, keys: Keys, secret: Option<Secret>) {
    && (m.how == ByPreseed && !o.deleting ==>
          OwnSecret(o, m.minionId, secret) && (IsCleared(secret) || HoldsPair(o, m.minionId, keys, secret)))
    && (m.keyCleared ==> IsCleared(secret))
  }

  /** The same Secret, whatever keys it holds. */
  predicate SameSecret(a: Option<Secret>, b: Option<Secret>) {
    a.Some? == b.Some? && (a.Some? ==> a.value.owner == b.value.owner && a.value.id == b.value.id)
  }

  // ---------------------------------------------------------------- the chain leaves keys alone

  /** Nothing about keys changes, except that the Secret may be cleared. */
  predicate ChainOnly(s: Scene, r: Scene) {
    && r.keys == s.keys && SameKey(s.marks, r.marks)
    && SameSecret(s.secret, r.secret) && (r.secret == s.secret || IsCleared(r.secret))
    && (r.marks.keyCleared && !s.marks.keyCleared ==> IsCleared(r.secret))
  }

  lemma ClearChainOnly(s: Scene, i: Input)
    ensures ChainOnly(s, ClearPreseedKey(s, i, 0).scene)
  {
  }

  lemma ClearKeepsFinalizer(s: Scene, i: Input)
    ensures ClearPreseedKey(s, i, 0).scene.finalizer == s.finalizer
  {
  }

  lemma NothingToClear(s: Scene, i: Input)
    requires s.marks.how != ByPreseed
    ensures ClearPreseedKey(s, i, 0) == Stop(s, 0)
  {
  }

  lemma ConvergeChainOnly(g: Foreign, o: Object, s: Scene, cfg: Config, hash: string, i: Input)
    requires Consistent(o, s.marks) && Wellformed(i) && hash != "" && s.marks.keyStatus.Accepted?
    ensures ChainOnly(s, Converge(g, o, s, cfg, hash, i).scene)
  {
    hide ChainPlan, ClearPreseedKey, Consistent;
    var p := ChainPlan(g, o, s.marks, cfg, hash, i);
    PlanKeeps(g, o, s.marks, cfg, hash, i);
    var f := AddFinalizer(s, i, 0).scene;
    var b := if p.bulk.Some? then f.(marks := f.marks.(bulkHandled := p.bulk.value)) else f;
    ClearChainOnly(b.(events := b.events + p.calls), i);
  }

  // ---------------------------------------------------------------- obtaining a key

  /** A key is obtained only for a VM that records none; the Secret then holds its pair. */
  ghost predicate Obtains(o: Object, s: Scene, r: Scene, i: Input, id: string) {
    && (Kept(s, r) || Acquired(o, s, r, i, id))
    && (s.marks.minionId != "" ==> r.secret == s.secret && r.marks.how == s.marks.how)
    && (s.marks.minionId == "" && r.marks.how == ByPreseed ==> HoldsPair(o, r.marks.minionId, r.keys, r.secret))
    && r.marks.keyCleared == s.marks.keyCleared
  }

  lemma GenerateObtains(o: Object, s: Scene, cfg: Config, i: Input)
    requires s.marks.minionId == "" && s.marks.how == NoMethod && !s.marks.keyStatus.KeyDeleted? && !o.deleting
    requires MayAcquire(o, i, o.name)
    ensures Obtains(o, s, Generate(o, s, cfg, o.name, i).scene, i, o.name)
  {
    hide MayAcquire;
  }

  lemma PreseedObtains(o: Object, s: Scene, cfg: Config, i: Input)
    requires s.marks.minionId == "" && s.marks.how == NoMethod && !s.marks.keyStatus.KeyDeleted? && !o.deleting
    ensures Obtains(o, s, RunPreseedKey(o, s, cfg, i).scene, i, o.name)
  {
    hide Generate, Owner;
    if i.fleet.Some? && Owner(i.fleet.value, o.uid, o.name).None? {
      GenerateObtains(o, Note(s, CheckedStates(o.name)), cfg, i);
    }
  }

  lemma AcceptObtains(g: Foreign, o: Object, s: Scene, cfg: Config, i: Input) returns (id: string)
    requires s.marks.minionId == "" && s.marks.how == NoMethod && !s.marks.keyStatus.KeyDeleted? && !o.deleting
    requires o.name != ""
    ensures Obtains(o, s, RunAcceptKey(g, o, s, cfg, i).scene, i, id)
  {
    hide FindMinion;
    if i.pending.Some? {
      MatchIsListed(g, o.name, o.seen.ip, i.pending.value);
      id := FindMinion(g, o.name, o.seen.ip, i.pending.value).id;
    } else {
      id := "";
    }
  }

  lemma AcquireObtains(g: Foreign, o: Object, s: Scene, cfg: Config, i: Input) returns (id: string)
    requires Consistent(o, s.marks) && !o.deleting && !s.marks.keyStatus.Accepted?
    ensures Obtains(o, s, Acquire(g, o, s, cfg, i).scene, i, id)
  {
    hide RunPreseedKey, RunAcceptKey, MayAcquire, ChainConsistent;
    id := "";
    if !HasKey(s.marks) {
      if cfg.preseed { PreseedObtains(o, s, cfg, i); id := o.name; }
      else { id := AcceptObtains(g, o, s, cfg, i); }
    }
  }

  // ---------------------------------------------------------------- the whole reconcile

  /** What a reconcile does to the keys on the master: nothing, the acquisition of one key for a
      VM that had none, or the removal of the VM's own key. */
  lemma ReconcileKeyEffect(g: Foreign, o: Object, s: Scene, hash: string, i: Input) returns (id: string)
    requires Consistent(o, s.marks) && Wellformed(i) && hash != ""
    ensures var r := ReconcileVm(g, o, s, hash, i).scene;
            Kept(s, r) || Acquired(o, s, r, i, id) || Removed(o, s, r, i)
  {
    hide ClearPreseedKey, Acquire, Converge, FindConfig, Managed, ChainConsistent, MayAcquire;
    id := "";
    if Managed(o) && i.configs.Some? && FindConfig(i.configs.value).Some? && !o.deleting {
      var cfg := FindConfig(i.configs.value).value;
      ClearChainOnly(s, i);
      ClearKeeps(o, s, i);
      var c := if o.seen.guestSignalled || TimedOut(o, cfg, i.now) then ClearPreseedKey(s, i, 0) else Stop(s, 0);
      if c.scene.marks.keyStatus.Accepted? { ConvergeChainOnly(g, o, c.scene, cfg, hash, i); }
      else { id := AcquireObtains(g, o, c.scene, cfg, i); }
    }
  }

  /** No reconcile leaves a stale private key in the Secret, or puts one back after clearing. */
  lemma ReconcileKeepsSecretFresh(g: Foreign, o: Object, s: Scene, hash: string, i: Input)
    requires Consistent(o, s.marks) && Wellformed(i) && hash != "" && SecretFresh(o, s.marks, s.keys, s.secret)
    ensures var r := ReconcileVm(g, o, s, hash, i).scene; SecretFresh(o, r.marks, r.keys, r.secret)
  {
    hide ClearPreseedKey, Acquire, Converge, FindConfig, Managed, ChainConsistent, MayAcquire;
    if Managed(o) && i.configs.Some? && FindConfig(i.configs.value).Some? && !o.deleting {
      var cfg := FindConfig(i.configs.value).value;
      ClearChainOnly(s, i);
      ClearKeeps(o, s, i);
      var c := if o.seen.guestSignalled || TimedOut(o, cfg, i.now) then ClearPreseedKey(s, i, 0) else Stop(s, 0);
      if c.scene.marks.keyStatus.Accepted? { ConvergeChainOnly(g, o, c.scene, cfg, hash, i); }
      else { var _ := AcquireObtains(g, o, c.scene, cfg, i); }
    }
  }
}
