/** What one reconcile does in each state, said from outside: which answers lead where, with the
    source's own numbers. Unless a lemma says otherwise every call is answered and every write lands. */
module Turns {
  import opened Text
  import opened Matcher
  import opened Model
  import opened Reconcile
  import opened Consistency
  import opened Keyring
  import opened Progress
  import opened Controller
  import Enforcement

  // In nanoseconds.
  const THIRTY_SECONDS: int := 30_000_000_000
  const ONE_MINUTE: int := 60_000_000_000
  const TEN_MINUTES: int := 600_000_000_000

  /** The VM is served and not being deleted. */
  predicate Served(o: Object, i: Input) {
    Serves(o, i) && !o.deleting
  }

  function ConfigOf(o: Object, i: Input): Config
    requires Serves(o, i)
  {
    FindConfig(i.configs.value).value
  }

  /** From the ping on, a reconcile is one turn of the chain. */
  lemma StartedTurn(g: Foreign, o: Object, s: Scene, hash: string, i: Input)
    requires Served(o, i) && Consistent(o, s.marks) && s.marks.keyStatus.Accepted? && s.marks.saltStatus != Unstarted
    ensures ReconcileVm(g, o, s, hash, i) ==
            Execute(s.(finalizer := true), ChainPlan(g, o, s.marks, ConfigOf(o, i), hash, i), i)
  {
    hide ClearPreseedKey, ChainPlan, Execute, FindConfig, Managed;
    ClearedAlready(o, s, i);
  }

  // ---------------------------------------------------------------- the ping

  predicate GuestOrTimeout(o: Object, cfg: Config, now: int) {
    o.seen.guestSignalled || (o.seen.createdAt.Some? && now - o.seen.createdAt.value >= cfg.acceptTimeout)
  }

  /** The ping of this reconcile ends the wait for the minion: it was answered, or missed for good. */
  predicate PingSettles(m: Marks, i: Input) {
    && m.keyStatus.Accepted? && m.saltStatus.Unstarted? && m.acceptedAt.Some?
    && i.now - m.acceptedAt.value >= THIRTY_SECONDS
    && (i.ping == Yes || i.now - m.acceptedAt.value >= TEN_MINUTES)
  }

  /** The private key is to go: the guest has signalled, its time is up, or the ping settled it. */
  predicate ClearDue(o: Object, m: Marks, cfg: Config, i: Input) {
    GuestOrTimeout(o, cfg, i.now) || PingSettles(m, i)
  }

  function Emptied(secret: Option<Secret>): Option<Secret> {
    if secret.Some? then Some(secret.value.(pem := "cleared", pub := "cleared")) else None
  }

  lemma ClearingEmpties(s: Scene, i: Input)
    requires i.lost == {} && s.marks.how == ByPreseed && !s.marks.keyCleared
    ensures ClearPreseedKey(s, i, 0) == Stop(s.(secret := Emptied(s.secret), marks := s.marks.(keyCleared := true)), 0)
  {
  }

  lemma AcquiringClearsNothing(g: Foreign, o: Object, s: Scene, cfg: Config, i: Input)
    requires Consistent(o, s.marks) && HasKey(s.marks) && !s.marks.keyStatus.Accepted? && !o.deleting
    ensures var r := Acquire(g, o, s, cfg, i).scene; r.secret == s.secret && r.marks.keyCleared == s.marks.keyCleared
  {
    hide RunPreseedKey, RunAcceptKey, ChainConsistent, Stamp;
  }

  lemma OnlyPingsClear(g: Foreign, o: Object, m: Marks, cfg: Config, hash: string, i: Input)
    requires m.saltStatus != Unstarted
    ensures !ChainPlan(g, o, m, cfg, hash, i).clear
  {
    hide Get, Enforcement.EnforcementDue, Handled, Within;
  }

  lemma TurnClears(s: Scene, p: Plan, i: Input)
    requires i.lost == {} && s.marks.how == ByPreseed
    ensures var r := Execute(s, p, i).scene;
            if p.clear && !s.marks.keyCleared then r.marks.keyCleared && r.secret == Emptied(s.secret)
            else r.marks.keyCleared == s.marks.keyCleared && r.secret == s.secret
  {
  }

  lemma ConvergingClears(g: Foreign, o: Object, s: Scene, cfg: Config, hash: string, i: Input)
    requires Consistent(o, s.marks) && s.marks.keyStatus.Accepted? && s.marks.how == ByPreseed
    requires i.lost == {} && i.client
    ensures var r := Converge(g, o, s, cfg, hash, i).scene;
            if PingSettles(s.marks, i) && !s.marks.keyCleared
            then r.marks.keyCleared && r.secret == Emptied(s.secret)
            else r.marks.keyCleared == s.marks.keyCleared && r.secret == s.secret
  {
    hide ReadyPlan, RefreshPlan, DispatchPlan, PollPlan, FailedPlan, ClearPreseedKey, Execute;
    var p, f := ChainPlan(g, o, s.marks, cfg, hash, i), AddFinalizer(s, i, 0).scene;
    TurnClears(f, p, i);
    if s.marks.saltStatus != Unstarted { OnlyPingsClear(g, o, s.marks, cfg, hash, i); }
  }

  /** When a preseeded key is cleared: exactly on the guest's signal, when its time since creation is
      up, or when a ping settles it. Until then the Secret is left as it is. */
  lemma KeyIsClearedIff(g: Foreign, o: Object, s: Scene, hash: string, i: Input)
    requires Served(o, i) && Consistent(o, s.marks) && s.marks.how == ByPreseed && !s.marks.keyCleared
    ensures var r := ReconcileVm(g, o, s, hash, i).scene;
            && (r.marks.keyCleared <==> ClearDue(o, s.marks, ConfigOf(o, i), i))
            && r.secret == (if ClearDue(o, s.marks, ConfigOf(o, i), i) then Emptied(s.secret) else s.secret)
  {
    hide ClearPreseedKey, Acquire, Converge, FindConfig, Managed, ChainConsistent;
    var cfg := ConfigOf(o, i);
    ClearKeeps(o, s, i);
    ClearingEmpties(s, i);
    var c := if GuestOrTimeout(o, cfg, i.now) then ClearPreseedKey(s, i, 0) else Stop(s, 0);
    if s.marks.keyStatus.Accepted? { ConvergingClears(g, o, c.scene, cfg, hash, i); }
    else { AcquiringClearsNothing(g, o, c.scene, cfg, i); }
  }

  lemma ConvergingLeavesAlone(g: Foreign, o: Object, s: Scene, cfg: Config, hash: string, i: Input)
    requires Consistent(o, s.marks) && s.marks.keyStatus.Accepted? && !PingSettles(s.marks, i)
    ensures var r := Converge(g, o, s, cfg, hash, i).scene;
            r.secret == s.secret && r.marks.keyCleared == s.marks.keyCleared
  {
    hide ReadyPlan, RefreshPlan, DispatchPlan, PollPlan, FailedPlan;
    if s.marks.saltStatus != Unstarted { OnlyPingsClear(g, o, s.marks, cfg, hash, i); }
  }

  /** Whatever is lost or missing: before that, no reconcile touches the Secret of a preseeded VM. */
  lemma SecretIsLeftAlone(g: Foreign, o: Object, s: Scene, hash: string, i: Input)
    requires Consistent(o, s.marks) && Wellformed(i) && hash != "" && s.marks.how == ByPreseed
    requires i.configs.Some? && FindConfig(i.configs.value).Some? ==>
               !ClearDue(o, s.marks, FindConfig(i.configs.value).value, i)
    ensures var r := ReconcileVm(g, o, s, hash, i).scene;
            r.secret == s.secret && r.marks.keyCleared == s.marks.keyCleared
  {
    hide Acquire, Converge, FindConfig, Managed, ChainConsistent, PingSettles;
    if i.configs.Some? && FindConfig(i.configs.value).Some? && !o.deleting {
      var cfg := FindConfig(i.configs.value).value;
      if s.marks.keyStatus.Accepted? { ConvergingLeavesAlone(g, o, s, cfg, hash, i); }
      else { AcquiringClearsNothing(g, o, s, cfg, i); }
    }
  }

  lemma ClearingAtMostOnce(s: Scene, i: Input)
    requires i.lost == {}
    ensures ClearPreseedKey(s, i, 0) ==
            if s.marks.how == ByPreseed && !s.marks.keyCleared
            then Stop(s.(secret := Emptied(s.secret), marks := s.marks.(keyCleared := true)), 0)
            else Stop(s, 0)
  {
  }

  /** The call and what it does to the status, apart from the clearing. */
  ghost predicate Pinging(s: Scene, i: Input, requeue: int, r: Result)
    requires s.marks.acceptedAt.Some?
  {
    var m := s.marks;
    var waited := i.now - m.acceptedAt.value;
    var pinged := waited >= THIRTY_SECONDS;
    && r.scene.keys == s.keys && r.scene.finalizer
    && r.scene.events == s.events + (if pinged then [Pings(m.minionId, i.ping)] else [])
    && (r.scene.marks.saltStatus.Pinged? <==> pinged && i.ping == Yes)
    && (r.scene.marks.saltStatus == Failed(PingStep) <==> pinged && i.ping != Yes && waited >= TEN_MINUTES)
    && r.scene.marks.saltStatus in {Unstarted, Pinged, Failed(PingStep)}
    && r.scene.marks == m.(saltStatus := r.scene.marks.saltStatus, keyCleared := r.scene.marks.keyCleared,
                           ready := if r.scene.marks.saltStatus.Failed? then False else m.ready)
    && r.out == (if !pinged then Requeue(THIRTY_SECONDS - waited)
                 else if i.ping == Yes then Requeue(requeue)
                 else if waited < TEN_MINUTES then Requeue(ONE_MINUTE)
                 else Requeue(0))
  }

  /** A turn without a token whose writes all land. */
  lemma LosslessTurn(s: Scene, p: Plan, i: Input)
    requires i.lost == {} && p.bulk.None? && p.landed == []
    ensures var clears := p.clear && s.marks.how == ByPreseed && !s.marks.keyCleared;
            var m := if p.marks.Some? then p.marks.value else s.marks;
            Execute(s, p, i) ==
            Stop(s.(secret := if clears then Emptied(s.secret) else s.secret, events := s.events + p.calls,
                    marks := m.(keyCleared := s.marks.keyCleared || clears)), p.after)
  {
    hide ClearPreseedKey;
    ClearingAtMostOnce(s.(events := s.events + p.calls), i);
    assert s.events + p.calls + [] == s.events + p.calls;
  }

  lemma ConvergingPings(g: Foreign, o: Object, s: Scene, cfg: Config, hash: string, i: Input)
    requires i.lost == {} && i.client && s.marks.minionId != "" && s.marks.saltStatus.Unstarted?
    requires s.marks.acceptedAt.Some?
    ensures Pinging(s, i, cfg.requeue, Converge(g, o, s, cfg, hash, i))
  {
    hide Execute, RefreshPlan, DispatchPlan, PollPlan, ReadyPlan, FailedPlan;
    LosslessTurn(s.(finalizer := true), PingPlan(s.marks, cfg, i), i);
  }

  /** The first ping: no call inside 30 seconds, a retry every minute inside ten minutes whatever the
      answer, and a failure only from then on. */
  lemma PingTurn(g: Foreign, o: Object, s: Scene, hash: string, i: Input)
    requires Served(o, i) && Consistent(o, s.marks) && s.marks.keyStatus.Accepted? && s.marks.saltStatus.Unstarted?
    ensures Pinging(s, i, ConfigOf(o, i).requeue, ReconcileVm(g, o, s, hash, i))
  {
    hide FindConfig, Managed, Acquire, Converge, ClearPreseedKey;
    var cfg := ConfigOf(o, i);
    ClearingAtMostOnce(s, i);
    var c := if GuestOrTimeout(o, cfg, i.now) then ClearPreseedKey(s, i, 0) else Stop(s, 0);
    ConvergingPings(g, o, c.scene, cfg, hash, i);
  }

  // ---------------------------------------------------------------- the rest of the bootstrap

  /** A turn that calls and then patches. */
  lemma PatchingTurn(g: Foreign, o: Object, s: Scene, hash: string, i: Input, p: Plan)
    requires Served(o, i) && Consistent(o, s.marks) && s.marks.keyStatus.Accepted? && s.marks.saltStatus != Unstarted
    requires p == ChainPlan(g, o, s.marks, ConfigOf(o, i), hash, i)
    requires p.bulk.None? && !p.clear && p.landed == []
    requires p.marks.Some? ==> p.marks.value.keyCleared == s.marks.keyCleared
    ensures ReconcileVm(g, o, s, hash, i) ==
            Result(s.(finalizer := true, events := s.events + p.calls,
                      marks := if p.marks.Some? then p.marks.value else s.marks), Requeue(p.after))
  {
    hide ReconcileVm, ChainPlan, Execute, Managed, FindConfig;
    StartedTurn(g, o, s, hash, i);
    CallsThenPatch(s.(finalizer := true), p, i);
  }

  lemma AcceptedHasTime(o: Object, m: Marks)
    requires Consistent(o, m) && m.keyStatus.Accepted?
    ensures m.acceptedAt.Some? && m.minionId != ""
  {
  }

  /** The pillar: refreshed, retried every minute inside ten minutes, failed only from then on. */
  lemma RefreshTurn(g: Foreign, o: Object, s: Scene, hash: string, i: Input)
    requires Served(o, i) && Consistent(o, s.marks) && s.marks.keyStatus.Accepted? && s.marks.saltStatus.Pinged?
    ensures var r, m := ReconcileVm(g, o, s, hash, i), s.marks;
            var late := i.now - m.acceptedAt.value >= TEN_MINUTES;
            && r.scene == s.(finalizer := true, events := s.events + [Refreshes(m.minionId, i.refresh, o.tenant)],
                             marks := r.scene.marks)
            && r.scene.marks == (if i.refresh == Yes then m.(saltStatus := PillarRefreshed)
                                 else if late then m.(saltStatus := Failed(RefreshStep), ready := False)
                                 else m)
            && r.out == (if i.refresh == Yes then Requeue(ConfigOf(o, i).requeue)
                         else if late then Requeue(0) else Requeue(ONE_MINUTE))
  {
    hide ReconcileVm, Managed, FindConfig, PingPlan, DispatchPlan, PollPlan, ReadyPlan, FailedPlan, KeyConsistent;
    AcceptedHasTime(o, s.marks);
    PatchingTurn(g, o, s, hash, i, RefreshPlan(o, s.marks, ConfigOf(o, i), i));
  }

  /** The dispatch: the job it returned, the hash of the intent of this moment. */
  lemma DispatchTurn(g: Foreign, o: Object, s: Scene, hash: string, i: Input)
    requires Served(o, i) && Consistent(o, s.marks) && s.marks.keyStatus.Accepted?
    requires s.marks.saltStatus.PillarRefreshed?
    ensures var r, m := ReconcileVm(g, o, s, hash, i), s.marks;
            && r.scene == s.(finalizer := true, events := s.events + [Dispatches(m.minionId, i.jid, false, o.tenant)],
                             marks := r.scene.marks)
            && r.scene.marks == (match i.jid
                                 case None => m.(saltStatus := Failed(DispatchStep), ready := False)
                                 case Some(jid) => m.(saltStatus := HighstateDispatched, jid := jid,
                                                      highstate := InProgress, ready := False, rolesHash := hash))
            && r.out == Requeue(if i.jid.Some? then ConfigOf(o, i).requeue else 0)
  {
    hide ReconcileVm, Managed, FindConfig, PingPlan, RefreshPlan, PollPlan, ReadyPlan, FailedPlan, Consistent;
    PatchingTurn(g, o, s, hash, i, DispatchPlan(o, s.marks, ConfigOf(o, i), hash, i));
  }

  /** The poll: Ready exactly on a highstate that succeeded, failed with its failed states exactly on
      one that did not, and otherwise as before. */
  lemma PollTurn(g: Foreign, o: Object, s: Scene, hash: string, i: Input)
    requires Served(o, i) && Consistent(o, s.marks) && s.marks.keyStatus.Accepted?
    requires s.marks.saltStatus.HighstateDispatched?
    ensures var r, m := ReconcileVm(g, o, s, hash, i), s.marks;
            var now := Some(i.now - i.now % 1_000_000_000);
            && r.scene == s.(finalizer := true, events := s.events + [Polls(m.minionId, m.jid, i.poll)],
                             marks := r.scene.marks)
            && (r.scene.marks.saltStatus.Ready? <==> i.poll.Done? && i.poll.ok)
            && (r.scene.marks.saltStatus == Failed(HighstateStep) <==> i.poll.Done? && !i.poll.ok)
            && (i.poll.Done? && i.poll.ok ==>
                  r.scene.marks == m.(saltStatus := Ready, ready := True, highstate := Succeeded, highstateTime := now,
                                      failedStates := []) && r.out == Requeue(ConfigOf(o, i).requeue))
            && (i.poll.Done? && !i.poll.ok ==>
                  r.scene.marks == m.(saltStatus := Failed(HighstateStep), ready := False, highstate := HighstateFailed,
                                      highstateTime := now, failedStates := i.poll.failed) && r.out == Requeue(0))
            && (!i.poll.Done? ==> r.scene.marks == m && r.out == Requeue(ConfigOf(o, i).requeue))
  {
    hide ReconcileVm, Managed, FindConfig, PingPlan, RefreshPlan, DispatchPlan, ReadyPlan, FailedPlan, KeyConsistent;
    PatchingTurn(g, o, s, hash, i, PollPlan(s.marks, ConfigOf(o, i), i));
  }

  // ---------------------------------------------------------------- a Ready VM

  /** The tenant asks for another run with a value that was not handled. */
  predicate NewRequest(o: Object, m: Marks) {
    var request := Get(o.tenant, "salt.vcf.io/retry-request"); request != "" && request != m.retryHandled
  }

  /** The interval is over, with the VM's share of jitter. An interval that does not fit 64 bits with
      its jitter is over at once. */
  predicate IntervalOver(g: Foreign, o: Object, m: Marks, cfg: Config, now: int) {
    && cfg.enforcement.Some? && cfg.enforcement.value > 0 && m.highstateTime.Some?
    && var interval := cfg.enforcement.value;
       var jitter := Enforcement.Jitter(g.seed(o.uid), o.uid, interval);
       interval + jitter <= 0x7FFF_FFFF_FFFF_FFFF ==> now - m.highstateTime.value >= interval + jitter
  }

  lemma DueIffOver(g: Foreign, o: Object, m: Marks, cfg: Config, now: int)
    requires m.highstateTime.Some? && m.highstateTime.value <= now
    requires cfg.enforcement.Some? ==> cfg.enforcement.value <= Enforcement.MAX
    ensures Enforcement.EnforcementDue(cfg.enforcement, g.seed(o.uid), o.uid, m.highstateTime, now).due <==>
            IntervalOver(g, o, m, cfg, now)
  {
  }

  /** What a run writes when it ends at its refresh, at its dispatch, or with a job. */
  function RunWrites(m: Marks, i: Input): Marks {
    if i.refresh != Yes then m.(saltStatus := Failed(RefreshStep), ready := False)
    else if i.jid.None? then m.(saltStatus := Failed(DispatchStep), ready := False)
    else m.(saltStatus := HighstateDispatched, jid := i.jid.value, highstate := InProgress, ready := False)
  }

  /** And what it calls: a dispatch only after a refresh that succeeded. */
  function RunCalls(o: Object, m: Marks, scheduled: Option<int>, i: Input): seq<Event> {
    [RunStarts(scheduled), Refreshes(m.minionId, i.refresh, o.tenant)] +
    (if i.refresh == Yes then [Dispatches(m.minionId, i.jid, true, o.tenant)] else [])
  }

  lemma Day2Writes(o: Object, m: Marks, scheduled: Option<int>, cfg: Config, i: Input)
    ensures var p := Day2Plan(o, m, scheduled, cfg, i);
            && p.bulk.None? && !p.clear && p.landed == []
            && p.calls == RunCalls(o, m, scheduled, i) && p.marks == Some(RunWrites(m, i))
            && p.after == (if i.refresh == Yes && i.jid.Some? then cfg.requeue else 0)
  {
  }

  /** Triggers of this moment count as handled. */
  function Acknowledged(o: Object, m: Marks, token: string): Marks {
    m.(retryHandled := if NewRequest(o, m) then Get(o.tenant, "salt.vcf.io/retry-request") else m.retryHandled,
       bulkHandled := if token != "" then token else m.bulkHandled)
  }

  lemma AcknowledgedIsHandled(o: Object, m: Marks, token: string)
    ensures Handled(o, token, m) == Acknowledged(o, m, token)
    ensures RetryRequested(o, m) == NewRequest(o, m)
  {
    hide Get;
  }

  lemma TokenThenRest(s: Scene, token: Option<string>, after: int, i: Input)
    requires i.lost == {}
    ensures Execute(s, Rest(after).(bulk := token), i) ==
            Stop(if token.Some? then s.(marks := s.marks.(bulkHandled := token.value)) else s, after)
  {
    assert s.events + [] == s.events;
  }

  lemma TokenThenRun(s: Scene, p: Plan, token: Option<string>, i: Input)
    requires i.lost == {} && !p.clear && p.landed == []
    requires p.marks.Some? && p.marks.value.keyCleared == s.marks.keyCleared
    ensures Execute(s, p.(bulk := token), i) == Stop(s.(marks := p.marks.value, events := s.events + p.calls), p.after)
  {
    assert s.events + p.calls + [] == s.events + p.calls;
  }

  /** When a healthy VM runs again: exactly when its intent is not the stored one, a new retry request
      is there, or its interval is over. A new bulk token alone is recorded and makes no call. */
  lemma ReadyReactsIff(g: Foreign, o: Object, s: Scene, hash: string, i: Input)
    requires Served(o, i) && Consistent(o, s.marks) && s.marks.keyStatus.Accepted? && s.marks.saltStatus.Ready?
    requires s.marks.highstateTime.value <= i.now
    requires var e := ConfigOf(o, i).enforcement; e.Some? ==> e.value <= Enforcement.MAX
    ensures var r, m, cfg := ReconcileVm(g, o, s, hash, i), s.marks, ConfigOf(o, i);
            var asked := hash != m.rolesHash || NewRequest(o, m);
            var reacts := asked || IntervalOver(g, o, m, cfg, i.now);
            && (!r.scene.marks.saltStatus.Ready? <==> reacts)
            && r.scene.keys == s.keys && r.scene.secret == s.secret && r.scene.finalizer
            && r.scene.marks == (if reacts then RunWrites(Acknowledged(o, m, cfg.retryToken).(rolesHash := hash), i)
                                 else Acknowledged(o, m, cfg.retryToken))
            && r.scene.events ==
               s.events + (if reacts then RunCalls(o, m, if asked then None else cfg.enforcement, i) else [])
            && (reacts ==> r.out == Requeue(if i.refresh == Yes && i.jid.Some? then cfg.requeue else 0))
  {
    hide ReconcileVm, Managed, FindConfig, Get, KeyConsistent, Execute, Day2Plan, Handled, RetryRequested,
         Enforcement.EnforcementDue, IntervalOver, NewRequest,
         PingPlan, RefreshPlan, DispatchPlan, PollPlan, FailedPlan;
    var m, cfg, f := s.marks, ConfigOf(o, i), s.(finalizer := true);
    StartedTurn(g, o, s, hash, i);
    AcknowledgedIsHandled(o, m, cfg.retryToken);
    DueIffOver(g, o, m, cfg, i.now);
    var markers := Acknowledged(o, m, cfg.retryToken).(rolesHash := hash);
    var token := if BulkChanged(m, cfg.retryToken) then Some(cfg.retryToken) else None;
    var due := Enforcement.EnforcementDue(cfg.enforcement, g.seed(o.uid), o.uid, m.highstateTime, i.now);
    Day2Writes(o, markers, None, cfg, i);
    Day2Writes(o, markers, cfg.enforcement, cfg, i);
    TokenThenRun(f, Day2Plan(o, markers, None, cfg, i), None, i);
    TokenThenRun(f, Day2Plan(o, markers, cfg.enforcement, cfg, i), token, i);
    TokenThenRest(f, token, due.wait, i);
    Day2HasNoToken(o, markers, None, cfg, i);
    assert s.events + [] == s.events;
  }

  // ---------------------------------------------------------------- a failed VM

  /** When a failed VM starts over: exactly on a new retry request, a new bulk token, or an intent other
      than the stored one once one is stored; and then in one patch, with all of them handled. */
  lemma FailedTurn(g: Foreign, o: Object, s: Scene, hash: string, i: Input)
    requires Served(o, i) && Consistent(o, s.marks) && s.marks.keyStatus.Accepted? && s.marks.saltStatus.Failed?
    ensures var r, m, token := ReconcileVm(g, o, s, hash, i), s.marks, ConfigOf(o, i).retryToken;
            var again := NewRequest(o, m) || (token != "" && token != m.bulkHandled) ||
                         (m.rolesHash != "" && hash != m.rolesHash);
            var reset := Acknowledged(o, m, token).(saltStatus := Unstarted, ready := False);
            if again
            then r == Result(s.(finalizer := true, events := s.events + [ChainReset],
                                marks := if m.rolesHash == "" then reset
                                         else reset.(rolesHash := hash, highstate := NoHighstate)),
                             Requeue(ConfigOf(o, i).requeue))
            else r == Result(s.(finalizer := true), Requeue(0))
  {
    hide ReconcileVm, Managed, FindConfig, Get, Consistent, Handled, RetryRequested, NewRequest,
         PingPlan, RefreshPlan, DispatchPlan, PollPlan, ReadyPlan;
    StartedTurn(g, o, s, hash, i);
    AcknowledgedIsHandled(o, s.marks, ConfigOf(o, i).retryToken);
    assert s.events + [] == s.events && s.events + [] + [ChainReset] == s.events + [ChainReset];
  }

  // ---------------------------------------------------------------- obtaining a key

  /** Running, with an address. */
  predicate Up(o: Object) {
    o.seen.running && o.seen.ip != ""
  }

  predicate TimeIsUp(o: Object, cfg: Config, now: int) {
    o.seen.createdAt.Some? && now - o.seen.createdAt.value >= cfg.acceptTimeout
  }

  /** The boot of a preseeded VM: accepted as soon as it is up, given up exactly when its time is up
      before that, and waited for otherwise. No call is made. */
  lemma BootTurn(g: Foreign, o: Object, s: Scene, hash: string, i: Input)
    requires Served(o, i) && Consistent(o, s.marks) && s.marks.keyStatus.Preseeded?
    ensures var r, m, cfg := ReconcileVm(g, o, s, hash, i), s.marks, ConfigOf(o, i);
            && r.scene.keys == s.keys && r.scene.finalizer == s.finalizer && r.scene.events == s.events
            && (r.scene.marks.keyStatus.Accepted? <==> Up(o))
            && (r.scene.marks.keyStatus.KeyFailed? <==> !Up(o) && TimeIsUp(o, cfg, i.now))
            && r.scene.marks ==
               m.(keyStatus := if Up(o) then Accepted else if TimeIsUp(o, cfg, i.now) then KeyFailed else Preseeded,
                  acceptedAt := if Up(o) then Some(i.now - i.now % 1_000_000_000) else m.acceptedAt,
                  keyCleared := r.scene.marks.keyCleared)
            && r.out == Requeue(if Up(o) || !TimeIsUp(o, cfg, i.now) then cfg.requeue else 0)
  {
    hide FindConfig, Managed, Converge, RunPreseedKey, RunAcceptKey, ClearPreseedKey, ChainConsistent;
    ClearingAtMostOnce(s, i);
  }

  lemma KeylessTurn(g: Foreign, o: Object, s: Scene, hash: string, i: Input)
    requires Served(o, i) && Consistent(o, s.marks) && !HasKey(s.marks)
    ensures ReconcileVm(g, o, s, hash, i) == Acquire(g, o, s, ConfigOf(o, i), i)
  {
    hide FindConfig, Managed, Converge, Acquire, ClearPreseedKey, ChainConsistent;
    NothingToClear(s, i);
  }

  /** Discovery: nothing before the VM is up; then the match the rules give, accepted and recorded with
      its method and time; without a match a failure exactly once the VM's time is up. */
  lemma DiscoveryTurn(g: Foreign, o: Object, s: Scene, hash: string, i: Input, found: Match)
    requires Served(o, i) && Consistent(o, s.marks) && !HasKey(s.marks) && !ConfigOf(o, i).preseed
    requires i.pending.Some? && i.acceptOk && forall id :: id in i.pending.value ==> id in s.keys
    requires IsMatch(g, Target(o.name, o.seen.ip, Shift(o.seen.ip)), i.pending.value, found)
    ensures var r, m, cfg := ReconcileVm(g, o, s, hash, i), s.marks, ConfigOf(o, i);
            if !Up(o) then r == Result(s, Requeue(cfg.requeue))
            else if found.how != NoMethod then
              && found.id in s.keys
              && r.scene.keys == s.keys[found.id := Key(AcceptedKey, s.keys[found.id].pair)]
              && r.scene.marks == m.(keyStatus := Accepted, minionId := found.id, how := found.how,
                                     acceptedAt := Some(i.now - i.now % 1_000_000_000))
              && r.scene.finalizer && r.scene.secret == s.secret && r.out == Requeue(cfg.requeue)
              && r.scene.events == s.events + [ListedPending, AcceptedFor(found.id, true)]
            else
              && r.scene == s.(events := s.events + [ListedPending], marks := r.scene.marks)
              && r.scene.marks == (if TimeIsUp(o, cfg, i.now) then m.(keyStatus := KeyFailed) else m)
              && r.out == Requeue(if TimeIsUp(o, cfg, i.now) then 0 else cfg.requeue)
  {
    hide ReconcileVm, FindConfig, Managed, FindMinion, RunPreseedKey, IsMatch, ChainConsistent, Shift;
    KeylessTurn(g, o, s, hash, i);
    Reconciler.FoundIsFindMinion(g, o.name, o.seen.ip, i.pending.value, found);
    MatchIsListed(g, o.name, o.seen.ip, i.pending.value);
    var a, b := ListedPending, AcceptedFor(found.id, true);
    assert s.events + [a] + [b] == s.events + [a, b];
  }

  /** Another VM records the ID, and this is the first one listed. */
  predicate HeldBy(fleet: seq<Vm>, uid: string, id: string, n: int) {
    && 0 <= n < |fleet| && fleet[n].obj.uid != uid && fleet[n].marks.minionId == id
    && forall m :: 0 <= m < n ==> fleet[m].obj.uid == uid || fleet[m].marks.minionId != id
  }

  lemma {:induction false} OwnerIsHolder(fleet: seq<Vm>, uid: string, id: string)
    ensures Owner(fleet, uid, id).None? <==>
            forall vm :: vm in fleet ==> vm.obj.uid == uid || vm.marks.minionId != id
    ensures forall n :: HeldBy(fleet, uid, id, n) ==> Owner(fleet, uid, id) == Some(fleet[n])
  {
    if fleet != [] {
      var rest := fleet[1..];
      OwnerIsHolder(rest, uid, id);
      assert forall vm :: vm in fleet <==> vm == fleet[0] || vm in rest;
      forall n | HeldBy(fleet, uid, id, n) ensures Owner(fleet, uid, id) == Some(fleet[n]) {
        if n > 0 { assert rest[n - 1] == fleet[n] && HeldBy(rest, uid, id, n - 1); }
      }
    }
  }

  /** Preseeding under a name another VM records: wait while that VM is being deleted, fail otherwise,
      and in neither case call the master. */
  lemma HeldNameTurn(g: Foreign, o: Object, s: Scene, hash: string, i: Input, n: int)
    requires Served(o, i) && Consistent(o, s.marks) && !HasKey(s.marks) && ConfigOf(o, i).preseed
    requires i.fleet.Some? && HeldBy(i.fleet.value, o.uid, o.name, n)
    ensures ReconcileVm(g, o, s, hash, i) ==
            if i.fleet.value[n].obj.deleting then Result(s, Requeue(ConfigOf(o, i).requeue))
            else Result(s.(marks := s.marks.(keyStatus := KeyFailed)), Requeue(0))
  {
    hide ReconcileVm, FindConfig, Managed, Owner, RunAcceptKey, Generate, ChainConsistent;
    KeylessTurn(g, o, s, hash, i);
    OwnerIsHolder(i.fleet.value, o.uid, o.name);
  }

  /** Preseeding under a free name: the pair the master generated is its accepted key for the VM's name
      and, with the master's own key, the content of the VM's Secret. No key for that name survives,
      and no other key changes. */
  lemma PreseedTurn(g: Foreign, o: Object, s: Scene, hash: string, i: Input)
    requires Served(o, i) && Consistent(o, s.marks) && !HasKey(s.marks) && ConfigOf(o, i).preseed
    requires i.fleet.Some? && forall vm :: vm in i.fleet.value ==> vm.obj.uid == o.uid || vm.marks.minionId != o.name
    requires i.statesOk && i.generated.Some? && i.masterPub.Some? && (i.foreignKey.Some? ==> o.name in s.keys)
    ensures var r, pair := ReconcileVm(g, o, s, hash, i), i.generated.value;
            && r.scene.keys == s.keys[o.name := Key(AcceptedKey, pair)]
            && r.scene.secret == Some(Secret(o.uid, pair.priv, pair.pub, i.masterPub.value, o.name))
            && r.scene.marks == s.marks.(keyStatus := Preseeded, minionId := o.name, how := ByPreseed)
            && r.scene.finalizer && r.out == Requeue(ConfigOf(o, i).requeue)
            && r.scene.events == s.events + [CheckedStates(o.name), GeneratedFor(o.name, i.generated), FetchedMasterKey]
  {
    hide ReconcileVm, FindConfig, Managed, Owner, RunAcceptKey, ChainConsistent;
    KeylessTurn(g, o, s, hash, i);
    OwnerIsHolder(i.fleet.value, o.uid, o.name);
    var a, b, c := CheckedStates(o.name), GeneratedFor(o.name, i.generated), FetchedMasterKey;
    assert s.events + [a] + [b] + [c] == s.events + [a, b, c];
  }

  /** A key that reached the master between the check and the generation is not overwritten. */
  lemma ForeignKeyTurn(g: Foreign, o: Object, s: Scene, hash: string, i: Input)
    requires Served(o, i) && Consistent(o, s.marks) && !HasKey(s.marks) && ConfigOf(o, i).preseed
    requires i.fleet.Some? && forall vm :: vm in i.fleet.value ==> vm.obj.uid == o.uid || vm.marks.minionId != o.name
    requires i.statesOk && i.foreignKey.Some? && o.name !in s.keys
    ensures var r := ReconcileVm(g, o, s, hash, i);
            && r.out == Failure && r.scene.marks == s.marks && r.scene.secret == s.secret
            && r.scene.keys == s.keys[o.name := Key(PendingKey, i.foreignKey.value)]
  {
    hide ReconcileVm, FindConfig, Managed, Owner, RunAcceptKey, ChainConsistent;
    KeylessTurn(g, o, s, hash, i);
    OwnerIsHolder(i.fleet.value, o.uid, o.name);
  }

  // ---------------------------------------------------------------- the ends

  /** Deletion: the VM's own key and no other, the record of how that went, and the finalizer. A key
      that is recorded as deleted is not deleted again. */
  lemma DeletionTurn(g: Foreign, o: Object, s: Scene, hash: string, i: Input)
    requires Serves(o, i) && o.deleting && s.marks.minionId != ""
    ensures var r, m := ReconcileVm(g, o, s, hash, i), s.marks;
            && r.out == Requeue(0) && !r.scene.finalizer && r.scene.secret == s.secret
            && r.scene.keys == (if m.keyStatus.KeyDeleted? || !i.deleteOk then s.keys else s.keys - {m.minionId})
            && r.scene.marks ==
               m.(keyStatus := if m.keyStatus.KeyDeleted? || i.deleteOk then KeyDeleted else DeleteFailed)
            && r.scene.events ==
               s.events + (if m.keyStatus.KeyDeleted? then [] else [DeletedKey(m.minionId, i.deleteOk)])
  {
    hide FindConfig, Managed;
  }

  /** VMs the operator has nothing to do with are left alone, and only a failed listing is an error. */
  lemma IdleTurn(g: Foreign, o: Object, s: Scene, hash: string, i: Input)
    requires Get(o.tenant, "salt.vcf.io/managed") != "true" || i.configs.None? ||
             (forall c :: c in i.configs.value ==> !c.ready) || (!i.selected && !o.deleting)
    ensures var managed := Get(o.tenant, "salt.vcf.io/managed") == "true";
            ReconcileVm(g, o, s, hash, i) == Result(s, if managed && i.configs.None? then Failure else Requeue(0))
  {
    hide ReconcileCreate, ReconcileDelete, FindConfig, Get;
    if i.configs.Some? { FindConfigPicks(i.configs.value); }
  }
}
