/** What every reconcile keeps, whatever it is told and whichever of its writes are lost: the
    annotations of a VM agree with each other. */
module Consistency {
  import opened Text
  import opened Matcher
  import opened Model
  import opened Reconcile

  /** The key was deleted, or its deletion was attempted. */
  predicate Ended(m: Marks) {
    m.keyStatus.KeyDeleted? || m.keyStatus.DeleteFailed?
  }

  /** The VM records a key: it was preseeded or accepted, even if that was later lost or undone. */
  predicate HasKey(m: Marks) {
    m.keyStatus.Preseeded? || m.keyStatus.Accepted? || Ended(m) || (m.keyStatus.KeyFailed? && m.how.ByPreseed?)
  }

  predicate KeyConsistent(o: Object, m: Marks) {
    && o.name != ""
    && (HasKey(m) <==> m.minionId != "")
    && (HasKey(m) <==> m.how != NoMethod)
    && (m.keyStatus.Accepted? ==> m.acceptedAt.Some?)
    && (m.acceptedAt.Some? ==> m.keyStatus.Accepted? || Ended(m))
    && (m.how == ByPreseed ==> m.minionId == o.name)
    && (m.keyStatus.Preseeded? ==> m.how == ByPreseed)
    && (m.keyCleared ==> m.how == ByPreseed)
    && (Ended(m) ==> o.deleting)
  }

  /** A highstate ran to its end, well or badly. */
  predicate Finished(m: Marks) {
    m.saltStatus.Ready? || m.saltStatus == Failed(HighstateStep)
  }

  predicate ChainConsistent(m: Marks) {
    && (m.ready == True <==> m.saltStatus == Ready)
    && (m.saltStatus == HighstateDispatched ==> m.jid != "" && m.highstate == InProgress)
    && (m.saltStatus == HighstateDispatched || Finished(m) ==> m.rolesHash != "")
    && (Finished(m) ==> m.highstateTime.Some?)
    && (m.saltStatus != Unstarted ==> (m.keyStatus.Accepted? || Ended(m)) && m.acceptedAt.Some?)
    && (m.saltStatus != Unstarted && m.how == ByPreseed ==> m.keyCleared)
  }

  predicate Consistent(o: Object, m: Marks) {
    KeyConsistent(o, m) && ChainConsistent(m)
  }

  /** A dispatch that succeeds answers with a non-empty job ID. */
  predicate Wellformed(i: Input) {
    i.jid.Some? ==> i.jid.value != ""
  }

  // ---------------------------------------------------------------- one function at a time

  lemma ClearKeeps(o: Object, s: Scene, i: Input)
    requires Consistent(o, s.marks)
    ensures var c := ClearPreseedKey(s, i, 0);
            && Consistent(o, c.scene.marks)
            && c.scene.marks == s.marks.(keyCleared := c.scene.marks.keyCleared)
            && (s.marks.how == ByPreseed && !c.out.Failure? ==> c.scene.marks.keyCleared)
            && (s.marks.how != ByPreseed ==> c.scene.marks == s.marks)
            && c.scene.events == s.events
  {
  }

  lemma PreseedKeeps(o: Object, s: Scene, cfg: Config, i: Input)
    requires Consistent(o, s.marks) && !HasKey(s.marks)
    ensures Consistent(o, RunPreseedKey(o, s, cfg, i).scene.marks)
  {
    hide Owner;
  }

  lemma AcquireKeeps(g: Foreign, o: Object, s: Scene, cfg: Config, i: Input)
    requires Consistent(o, s.marks) && !s.marks.keyStatus.Accepted? && !o.deleting
    ensures Consistent(o, Acquire(g, o, s, cfg, i).scene.marks)
  {
    hide FindMinion, Owner, RunPreseedKey;
    if !HasKey(s.marks) { PreseedKeeps(o, s, cfg, i); }
    if i.pending.Some? { MatchIsListed(g, o.name, o.seen.ip, i.pending.value); }
  }

  /** The key part of the annotations. */
  predicate SameKey(a: Marks, b: Marks) {
    a.keyStatus == b.keyStatus && a.minionId == b.minionId && a.how == b.how && a.acceptedAt == b.acceptedAt
  }

  /** What the turn writes, once its clearing has succeeded, is consistent. */
  predicate Sound(o: Object, m: Marks, p: Plan) {
    p.marks.Some? ==>
      && SameKey(m, p.marks.value)
      && Consistent(o, p.marks.value.(keyCleared := m.keyCleared || (p.clear && m.how == ByPreseed)))
  }

  lemma FailAtKeeps(o: Object, m: Marks, step: ChainStep)
    requires Consistent(o, m) && m.saltStatus != Unstarted && step != HighstateStep
    ensures Consistent(o, FailAt(m, step))
  {
  }

  lemma DispatchedKeeps(o: Object, m: Marks, jid: string)
    requires Consistent(o, m) && m.saltStatus != Unstarted && m.rolesHash != "" && jid != ""
    ensures Consistent(o, Dispatched(m, jid))
  {
  }

  lemma Day2Keeps(o: Object, m: Marks, scheduled: Option<int>, cfg: Config, i: Input)
    requires Consistent(o, m) && Wellformed(i) && m.saltStatus == Ready && m.rolesHash != ""
    ensures var p := Day2Plan(o, m, scheduled, cfg, i);
            && p.marks.Some? && SameKey(m, p.marks.value) && Consistent(o, p.marks.value)
            && p.marks.value.keyCleared == m.keyCleared
  {
    hide Consistent;
    FailAtKeeps(o, m, RefreshStep);
    FailAtKeeps(o, m, DispatchStep);
    if i.jid.Some? { DispatchedKeeps(o, m, i.jid.value); }
  }

  lemma ReadyKeeps(g: Foreign, o: Object, m: Marks, cfg: Config, hash: string, i: Input)
    requires Consistent(o, m) && Wellformed(i) && hash != "" && m.saltStatus == Ready
    ensures Sound(o, m, ReadyPlan(g, o, m, cfg, hash, i))
  {
    hide Get, Day2Plan, Enforcement.EnforcementDue;
    var markers := Handled(o, cfg.retryToken, m).(rolesHash := hash);
    Day2Keeps(o, markers, None, cfg, i);
    Day2Keeps(o, markers, cfg.enforcement, cfg, i);
  }

  lemma PingKeeps(o: Object, m: Marks, cfg: Config, i: Input)
    requires Consistent(o, m) && m.keyStatus.Accepted? && m.saltStatus == Unstarted
    ensures Sound(o, m, PingPlan(m, cfg, i))
  {
  }

  lemma RefreshKeeps(o: Object, m: Marks, cfg: Config, i: Input)
    requires Consistent(o, m) && m.saltStatus == Pinged
    ensures Sound(o, m, RefreshPlan(o, m, cfg, i))
  {
  }

  lemma DispatchKeeps(o: Object, m: Marks, cfg: Config, hash: string, i: Input)
    requires Consistent(o, m) && Wellformed(i) && hash != "" && m.saltStatus == PillarRefreshed
    ensures Sound(o, m, DispatchPlan(o, m, cfg, hash, i))
  {
  }

  lemma PollKeeps(o: Object, m: Marks, cfg: Config, i: Input)
    requires Consistent(o, m) && m.saltStatus == HighstateDispatched
    ensures Sound(o, m, PollPlan(m, cfg, i))
  {
  }

  lemma FailedKeeps(o: Object, m: Marks, cfg: Config, hash: string)
    requires Consistent(o, m) && m.saltStatus.Failed?
    ensures Sound(o, m, FailedPlan(o, m, cfg, hash))
  {
    hide Get;
  }

  /** Every turn of the chain is sound. */
  lemma PlanKeeps(g: Foreign, o: Object, m: Marks, cfg: Config, hash: string, i: Input)
    requires Consistent(o, m) && Wellformed(i) && hash != "" && m.keyStatus.Accepted?
    ensures Sound(o, m, ChainPlan(g, o, m, cfg, hash, i))
  {
    hide Consistent, Sound, PingPlan, RefreshPlan, DispatchPlan, PollPlan, ReadyPlan, FailedPlan;
    match m.saltStatus
    case Unstarted => PingKeeps(o, m, cfg, i);
    case Pinged => RefreshKeeps(o, m, cfg, i);
    case PillarRefreshed => DispatchKeeps(o, m, cfg, hash, i);
    case HighstateDispatched => PollKeeps(o, m, cfg, i);
    case Ready => ReadyKeeps(g, o, m, cfg, hash, i);
    case Failed(_) => FailedKeeps(o, m, cfg, hash);
  }

  lemma BulkKeeps(o: Object, m: Marks, token: string)
    requires Consistent(o, m)
    ensures Consistent(o, m.(bulkHandled := token))
  {
  }

  lemma ExecuteKeeps(o: Object, s: Scene, p: Plan, i: Input)
    requires Consistent(o, s.marks) && Sound(o, s.marks, p)
    ensures Consistent(o, Execute(s, p, i).scene.marks)
  {
    hide ClearPreseedKey, Consistent;
    var b := if p.bulk.Some? then s.(marks := s.marks.(bulkHandled := p.bulk.value)) else s;
    BulkKeeps(o, s.marks, b.marks.bulkHandled);
    ClearKeeps(o, b.(events := b.events + p.calls), i);
  }

  lemma ConvergeKeeps(g: Foreign, o: Object, s: Scene, cfg: Config, hash: string, i: Input)
    requires Consistent(o, s.marks) && Wellformed(i) && hash != "" && s.marks.keyStatus.Accepted?
    ensures Consistent(o, Converge(g, o, s, cfg, hash, i).scene.marks)
  {
    hide ChainPlan, Execute, Consistent;
    PlanKeeps(g, o, s.marks, cfg, hash, i);
    ExecuteKeeps(o, AddFinalizer(s, i, 0).scene, ChainPlan(g, o, s.marks, cfg, hash, i), i);
  }

  /** Every reconcile keeps the annotations consistent. */
  lemma ReconcileKeepsConsistency(g: Foreign, o: Object, s: Scene, hash: string, i: Input)
    requires Consistent(o, s.marks) && Wellformed(i) && hash != ""
    ensures Consistent(o, ReconcileVm(g, o, s, hash, i).scene.marks)
  {
    hide ClearPreseedKey, Acquire, Converge, FindConfig, Managed;
    if Managed(o) && i.configs.Some? && FindConfig(i.configs.value).Some? && !o.deleting {
      var cfg := FindConfig(i.configs.value).value;
      ClearKeeps(o, s, i);
      var c := if o.seen.guestSignalled || TimedOut(o, cfg, i.now) then ClearPreseedKey(s, i, 0) else Stop(s, 0);
      if c.scene.marks.keyStatus.Accepted? { ConvergeKeeps(g, o, c.scene, cfg, hash, i); }
      else { AcquireKeeps(g, o, c.scene, cfg, i); }
    }
  }
}
