/** One reconcile of one virtual machine, as a function of what it reads: the specification that
    the Reconciler class implements and that every theorem about runs is stated over. */
module Reconcile {
  import opened Text
  import opened Matcher
  import opened Model
  import Enforcement

  function Stop(s: Scene, after: int): Result {
    Result(s, Requeue(after))
  }

  function Abort(s: Scene): Result {
    Result(s, Failure)
  }

  function Note(s: Scene, e: Event): Scene {
    s.(events := s.events + [e])
  }

  /** One annotation patch: it lands, or it is lost and the reconcile ends in an error. */
  function Patch(s: Scene, marks: Marks, w: Write, i: Input, after: int): Result {
    if w in i.lost then Abort(s) else Stop(s.(marks := marks), after)
  }

  function AddFinalizer(s: Scene, i: Input, after: int): Result {
    if s.finalizer then Stop(s, after)
    else if Finalizer in i.lost then Abort(s)
    else Stop(s.(finalizer := true), after)
  }

  predicate TimedOut(o: Object, cfg: Config, now: int) {
    o.seen.createdAt.Some? && now - o.seen.createdAt.value >= cfg.acceptTimeout
  }

  function ClearPreseedKey(s: Scene, i: Input, after: int): Result {
    if s.marks.how != ByPreseed || s.marks.keyCleared then Stop(s, after)
    else if ClearSecret in i.lost then Abort(s)
    else
      var c := s.(secret := if s.secret.Some? then Some(s.secret.value.(pem := CLEARED, pub := CLEARED)) else None);
      Patch(c, s.marks.(keyCleared := true), ClearMark, i, after)
  }

  // ---------------------------------------------------------------- deletion

  function RemoveFinalizer(s: Scene, i: Input): Result {
    if !s.finalizer then Stop(s, 0)
    else if Finalizer in i.lost then Abort(s)
    else Stop(s.(finalizer := false), 0)
  }

  function ReconcileDelete(s: Scene, i: Input): Result {
    var m := s.marks;
    if m.minionId == "" then Stop(s, 0)
    else if m.keyStatus == KeyDeleted then RemoveFinalizer(s, i)
    else if !i.client then Stop(s, 0)
    else
      var d := Note(s, DeletedKey(m.minionId, i.deleteOk));
      var k := if i.deleteOk then d.(keys := s.keys - {m.minionId}) else d;
      var t := if Status in i.lost then k
               else k.(marks := m.(keyStatus := if i.deleteOk then KeyDeleted else DeleteFailed));
      RemoveFinalizer(t, i)
  }

  // ---------------------------------------------------------------- obtaining a key

  function Accept(keys: Keys, id: string): Keys {
    keys[id := Key(AcceptedKey, if id in keys then keys[id].pair else KeyPair("", ""))]
  }

  function AcceptMatch(s: Scene, cfg: Config, found: Match, i: Input): Result {
    var a := Note(s, AcceptedFor(found.id, i.acceptOk));
    if !i.acceptOk then Abort(a)
    else
      var r := Patch(a.(keys := Accept(s.keys, found.id)),
                     s.marks.(keyStatus := Accepted, minionId := found.id, how := found.how,
                                 acceptedAt := Some(Stamp(i.now))),
                     Status, i, cfg.requeue);
      if r.out.Failure? then r else AddFinalizer(r.scene, i, cfg.requeue)
  }

  function RunAcceptKey(g: Foreign, o: Object, s: Scene, cfg: Config, i: Input): Result {
    var l := Note(s, ListedPending);
    if i.pending.None? then Abort(l)
    else
      var found := FindMinion(g, o.name, o.seen.ip, i.pending.value);
      if found.how != NoMethod then AcceptMatch(l, cfg, found, i)
      else if !TimedOut(o, cfg, i.now) then Stop(l, cfg.requeue)
      else if s.marks.keyStatus == KeyFailed then Stop(l, 0)
      else Patch(l, s.marks.(keyStatus := KeyFailed), Status, i, 0)
  }

  /** The first listed VM, other than `uid`, that records minion ID `id`. */
  function Owner(fleet: seq<Vm>, uid: string, id: string): Option<Vm> {
    if fleet == [] then None
    else if fleet[0].obj.uid != uid && fleet[0].marks.minionId == id then Some(fleet[0])
    else Owner(fleet[1..], uid, id)
  }

  /** key.gen_accept without force answers with no pair when a key exists by then. */
  function Generate(o: Object, s: Scene, cfg: Config, id: string, i: Input): Result {
    var force := id in s.keys;
    var keys := if i.foreignKey.Some? && !force then s.keys[id := Key(PendingKey, i.foreignKey.value)] else s.keys;
    var pair := if !force && id in keys then None else i.generated;
    var c := Note(s.(keys := keys), GeneratedFor(id, pair));
    if pair.None? then Abort(c)
    else
      var a := Note(c.(keys := keys[id := Key(AcceptedKey, pair.value)]), FetchedMasterKey);
      if i.masterPub.None? || BootstrapSecret in i.lost then Abort(a)
      else
        var w := a.(secret := Some(Secret(o.uid, pair.value.priv, pair.value.pub, i.masterPub.value, id)));
        var f := AddFinalizer(w, i, cfg.requeue);
        if f.out.Failure? then f
        else Patch(f.scene, s.marks.(keyStatus := Preseeded, minionId := id, how := ByPreseed), Status, i, cfg.requeue)
  }

  function RunPreseedKey(o: Object, s: Scene, cfg: Config, i: Input): Result {
    var id := o.name;
    if i.fleet.None? then Abort(s)
    else
      var owner := Owner(i.fleet.value, o.uid, id);
      if owner.Some? then
        if owner.value.obj.deleting then Stop(s, cfg.requeue)
        else Patch(s, s.marks.(keyStatus := KeyFailed), Status, i, 0)
      else if !i.statesOk then Abort(Note(s, CheckedStates(id)))
      else Generate(o, Note(s, CheckedStates(id)), cfg, id, i)
  }

  function Acquire(g: Foreign, o: Object, s: Scene, cfg: Config, i: Input): Result {
    var m := s.marks;
    var preseeded := m.keyStatus == Preseeded;
    var up := o.seen.running && o.seen.ip != "";
    if m.keyStatus == KeyFailed && m.how == ByPreseed then Stop(s, 0)
    else if cfg.preseed && !preseeded then
      if i.client then RunPreseedKey(o, s, cfg, i) else Abort(s)
    else if !up then
      if preseeded && TimedOut(o, cfg, i.now)
      then Patch(s, m.(keyStatus := KeyFailed), Status, i, 0)
      else Stop(s, cfg.requeue)
    else if preseeded then
      Patch(s, m.(keyStatus := Accepted, acceptedAt := Some(Stamp(i.now))), Status, i, cfg.requeue)
    else if i.client then RunAcceptKey(g, o, s, cfg, i)
    else Abort(s)
  }

  // ---------------------------------------------------------------- turns of the chain

  /** One turn of the chain: record a bulk token, call Salt, clear the preseeded key, then patch
      the annotations. `landed` is noted only when that last patch lands. */
  datatype Plan = Plan(
    bulk: Option<string>,
    calls: seq<Event>,
    clear: bool,
    marks: Option<Marks>,
    landed: seq<Event>,
    after: int)

  function Execute(s: Scene, p: Plan, i: Input): Result {
    if p.bulk.Some? && BulkMark in i.lost then Abort(s)
    else
      var b := if p.bulk.Some? then s.(marks := s.marks.(bulkHandled := p.bulk.value)) else s;
      var e := b.(events := b.events + p.calls);
      var c := if p.clear then ClearPreseedKey(e, i, 0) else Stop(e, 0);
      if c.out.Failure? then c
      else if p.marks.None? then Stop(c.scene, p.after)
      else if Status in i.lost then Abort(c.scene)
      else Stop(c.scene.(marks := p.marks.value.(keyCleared := c.scene.marks.keyCleared),
                         events := c.scene.events + p.landed), p.after)
  }

  /** Return without doing anything. */
  function Rest(after: int): Plan {
    Plan(None, [], false, None, [], after)
  }

  function Call(e: Event, after: int): Plan {
    Plan(None, [e], false, None, [], after)
  }

  function CallThen(e: Event, m: Marks, after: int): Plan {
    Plan(None, [e], false, Some(m), [], after)
  }

  /** Time since the key was accepted is still below `span`. */
  predicate Within(m: Marks, now: int, span: int) {
    m.acceptedAt.Some? && now - m.acceptedAt.value < span
  }

  function FailAt(m: Marks, step: ChainStep): Marks {
    m.(saltStatus := Failed(step), ready := False)
  }

  function Dispatched(m: Marks, jid: string): Marks {
    m.(saltStatus := HighstateDispatched, jid := jid, highstate := InProgress, ready := False)
  }

  // ---------------------------------------------------------------- reconvergence

  predicate RetryRequested(o: Object, m: Marks) {
    Get(o.tenant, RETRY_REQUEST) != "" && Get(o.tenant, RETRY_REQUEST) != m.retryHandled
  }

  predicate BulkChanged(m: Marks, token: string) {
    token != "" && token != m.bulkHandled
  }

  /** Something explicit asks for another run. */
  predicate Asked(o: Object, m: Marks, token: string) {
    RetryRequested(o, m) || BulkChanged(m, token)
  }

  /** The marks with every explicit trigger recorded as handled. */
  function Handled(o: Object, token: string, m: Marks): Marks {
    m.(retryHandled := if RetryRequested(o, m) then Get(o.tenant, RETRY_REQUEST) else m.retryHandled,
       bulkHandled := if BulkChanged(m, token) then token else m.bulkHandled)
  }

  /** A failed VM goes back to the start of the chain, and only when triggered. Before its first
      highstate it has no hash, and then only an explicit request counts. */
  function FailedPlan(o: Object, m: Marks, cfg: Config, hash: string): Plan {
    var reset := Handled(o, cfg.retryToken, m).(saltStatus := Unstarted, ready := False);
    var again := reset.(rolesHash := hash, highstate := NoHighstate);
    if m.rolesHash == "" then
      if Asked(o, m, cfg.retryToken) then Plan(None, [], false, Some(reset), [ChainReset], cfg.requeue) else Rest(0)
    else if hash != m.rolesHash || Asked(o, m, cfg.retryToken)
    then Plan(None, [], false, Some(again), [ChainReset], cfg.requeue)
    else Rest(0)
  }

  /** Refresh the pillar, then dispatch, in one turn. `m` carries the markers of the run. */
  function Day2Plan(o: Object, m: Marks, scheduled: Option<int>, cfg: Config, i: Input): Plan {
    var start := [RunStarts(scheduled), Refreshes(m.minionId, i.refresh, o.tenant)];
    var run := start + [Dispatches(m.minionId, i.jid, true, o.tenant)];
    if i.refresh != Yes then Plan(None, start, false, Some(FailAt(m, RefreshStep)), [], 0)
    else if i.jid.None? then Plan(None, run, false, Some(FailAt(m, DispatchStep)), [], 0)
    else Plan(None, run, false, Some(Dispatched(m, i.jid.value)), [], cfg.requeue)
  }

  /** A healthy VM runs again when its intent or its retry request changed, or when it is due. A
      bulk token alone is recorded and not acted on. */
  function ReadyPlan(g: Foreign, o: Object, m: Marks, cfg: Config, hash: string, i: Input): Plan {
    var bulk := BulkChanged(m, cfg.retryToken);
    var due := Enforcement.EnforcementDue(cfg.enforcement, g.seed(o.uid), o.uid, m.highstateTime, i.now);
    var markers := Handled(o, cfg.retryToken, m).(rolesHash := hash);
    var token := if bulk then Some(cfg.retryToken) else None;
    if m.rolesHash == "" then Rest(0)
    else if hash != m.rolesHash || RetryRequested(o, m) then Day2Plan(o, markers, None, cfg, i)
    else if due.due then Day2Plan(o, markers, cfg.enforcement, cfg, i).(bulk := token)
    else Rest(due.wait).(bulk := token)
  }

  // ---------------------------------------------------------------- the Salt chain

  function PingPlan(m: Marks, cfg: Config, i: Input): Plan {
    var ping := Pings(m.minionId, i.ping);
    if Within(m, i.now, POST_ACCEPT_DELAY) then Rest(POST_ACCEPT_DELAY - (i.now - m.acceptedAt.value))
    else if i.ping == Yes then CallThen(ping, m.(saltStatus := Pinged), cfg.requeue).(clear := true)
    else if Within(m, i.now, MAX_BOOTSTRAP) then Call(ping, RETRY_BACKOFF)
    else CallThen(ping, FailAt(m, PingStep), 0).(clear := true)
  }

  function RefreshPlan(o: Object, m: Marks, cfg: Config, i: Input): Plan {
    var refresh := Refreshes(m.minionId, i.refresh, o.tenant);
    if i.refresh == Yes then CallThen(refresh, m.(saltStatus := PillarRefreshed), cfg.requeue)
    else if Within(m, i.now, MAX_BOOTSTRAP) then Call(refresh, RETRY_BACKOFF)
    else CallThen(refresh, FailAt(m, RefreshStep), 0)
  }

  function DispatchPlan(o: Object, m: Marks, cfg: Config, hash: string, i: Input): Plan {
    var dispatch := Dispatches(m.minionId, i.jid, false, o.tenant);
    if i.jid.None? then CallThen(dispatch, FailAt(m, DispatchStep), 0)
    else CallThen(dispatch, Dispatched(m, i.jid.value).(rolesHash := hash), cfg.requeue)
  }

  function PollPlan(m: Marks, cfg: Config, i: Input): Plan {
    var poll := Polls(m.minionId, m.jid, i.poll);
    var t := m.(highstateTime := Some(Stamp(i.now)));
    if m.jid == "" then Rest(cfg.requeue)
    else
      match i.poll
      case PollError => Call(poll, cfg.requeue)
      case NotDone => Call(poll, cfg.requeue)
      case Done(true, _) =>
        CallThen(poll, t.(saltStatus := Ready, ready := True, highstate := Succeeded, failedStates := []), cfg.requeue)
      case Done(false, failed) =>
        CallThen(poll, FailAt(t, HighstateStep).(highstate := HighstateFailed, failedStates := failed), 0)
  }

  function ChainPlan(g: Foreign, o: Object, m: Marks, cfg: Config, hash: string, i: Input): Plan {
    match m.saltStatus
    case Unstarted => PingPlan(m, cfg, i)
    case Pinged => RefreshPlan(o, m, cfg, i)
    case PillarRefreshed => DispatchPlan(o, m, cfg, hash, i)
    case HighstateDispatched => PollPlan(m, cfg, i)
    case Ready => ReadyPlan(g, o, m, cfg, hash, i)
    case Failed(_) => FailedPlan(o, m, cfg, hash)
  }

  function Converge(g: Foreign, o: Object, s: Scene, cfg: Config, hash: string, i: Input): Result {
    var f := AddFinalizer(s, i, 0);
    if f.out.Failure? then f
    else if !i.client then Abort(f.scene)
    else if s.marks.minionId == "" then Stop(f.scene, 0)
    else Execute(f.scene, ChainPlan(g, o, s.marks, cfg, hash, i), i)
  }

  // ---------------------------------------------------------------- entry

  /** A Ready config of the team's own wins over one the operator enrolled. */
  function FindConfig(configs: seq<Config>): Option<Config> {
    if configs == [] then None
    else if configs[0].ready && !configs[0].labelled then Some(configs[0])
    else
      var rest := FindConfig(configs[1..]);
      if rest.Some? && !rest.value.labelled then rest
      else if configs[0].ready then Some(configs[0])
      else rest
  }

  function ReconcileCreate(g: Foreign, o: Object, s: Scene, cfg: Config, hash: string, i: Input): Result {
    var c := if o.seen.guestSignalled || TimedOut(o, cfg, i.now) then ClearPreseedKey(s, i, 0) else Stop(s, 0);
    if c.out.Failure? then c
    else if c.scene.marks.keyStatus == Accepted then Converge(g, o, c.scene, cfg, hash, i)
    else Acquire(g, o, c.scene, cfg, i)
  }

  /** `hash` is the hash of the VM's current intent. */
  function ReconcileVm(g: Foreign, o: Object, s: Scene, hash: string, i: Input): Result {
    if !Managed(o) then Stop(s, 0)
    else if i.configs.None? then Abort(s)
    else
      var cfg := FindConfig(i.configs.value);
      if cfg.None? then Stop(s, 0)
      else if o.deleting then ReconcileDelete(s, i)
      else if !i.selected then Stop(s, 0)
      else ReconcileCreate(g, o, s, cfg.value, hash, i)
  }
}
