/** What the log of a run says about the Salt chain of each VM. The log holds every call to Salt
    and every chain reset; the theorems are read off the log alone. */
module History {
  import opened Text
  import opened Matcher
  import opened Model
  import opened Intent
  import opened Reconcile
  import opened Consistency
  import opened Keyring
  import opened World
  import Enforcement

  datatype Dispatch = Dispatch(id: string, jid: string, day2: bool, tenant: map<string, string>)

  /** A highstate that was seen to be complete, and how it ended. */
  datatype Finish = Finish(at: int, ok: bool, failed: seq<string>)

  /** A refresh that did not succeed; `day2` says whether a Day-2 run made it. */
  datatype Miss = Miss(at: int, day2: bool)

  /** One VM's past, as far as it matters for what may come next. */
  datatype Past = Past(
    pinged: bool,                             // a ping succeeded since the chain last began
    refreshed: Option<string>,                // and a refresh of this minion since then
    pillar: Option<map<string, string>>,      // the tenant's annotations at the last successful refresh
    dispatched: Option<Dispatch>,             // the last dispatch that succeeded
    done: Option<Finish>,                     // the last highstate that was seen to be complete
    unpinged: Option<int>,                    // when the last ping went unanswered
    unrefreshed: Option<Miss>)                // the last refresh that failed

  const NOTHING: Past := Past(false, None, None, None, None, None, None)

  /** A chain begins anew, or the highstate it led to is over. */
  predicate Breaks(e: Event) {
    e.ChainReset? || e.RunStarts? || (e.Polls? && e.poll.Done?)
  }

  function Next(h: Past, at: int, e: Event): Past {
    match e
    case ChainReset => h.(pinged := false, refreshed := None)
    case RunStarts(_) => h.(pinged := false, refreshed := None)
    case Polls(_, _, Done(ok, failed)) => h.(pinged := false, refreshed := None, done := Some(Finish(at, ok, failed)))
    case Pings(_, Yes) => h.(pinged := true, refreshed := None)
    case Pings(_, _) => h.(unpinged := Some(at))
    case Refreshes(id, Yes, tenant) => h.(refreshed := Some(id), pillar := Some(tenant))
    case Refreshes(_, _, _) => h.(unrefreshed := Some(Miss(at, !h.pinged)))
    case Dispatches(id, Some(jid), day2, tenant) => h.(dispatched := Some(Dispatch(id, jid, day2, tenant)))
    case _ => h
  }

  function PastOf(log: seq<Logged>, uid: string): Past {
    if log == [] then NOTHING
    else
      var h := PastOf(log[..|log| - 1], uid);
      var l := log[|log| - 1];
      if l.uid == uid then Next(h, l.at, l.event) else h
  }

  // ---------------------------------------------------------------- what must hold of each call

  /** Before a highstate: a refresh of that minion in this chain, and in a bootstrap chain a ping.
      A poll asks for the job of the last dispatch. Before a run that only the schedule asked for:
      interval and jitter since the recorded time of the last completion. */
  predicate Due(g: Foreign, uid: string, h: Past, at: int, e: Event) {
    match e
    case Dispatches(id, _, day2, _) => h.refreshed == Some(id) && (!day2 ==> h.pinged)
    case Polls(id, jid, _) => h.dispatched.Some? && h.dispatched.value.id == id && h.dispatched.value.jid == jid
    case RunStarts(Some(interval)) =>
      interval > 0 && (Enforcement.Fits(g.seed(uid), uid, interval) && interval <= Enforcement.MAX ==>
        h.done.Some? && at - Stamp(h.done.value.at) >= interval + Enforcement.Jitter(g.seed(uid), uid, interval))
    case _ => true
  }

  /** Every call in the log was due when it was made. */
  ghost predicate Orderly(g: Foreign, log: seq<Logged>) {
    forall n :: 0 <= n < |log| ==> Due(g, log[n].uid, PastOf(log[..n], log[n].uid), log[n].at, log[n].event)
  }

  // ---------------------------------------------------------------- adding events to the log

  function Fold(h: Past, at: int, es: seq<Event>): Past
    decreases |es|
  {
    if es == [] then h else Fold(Next(h, at, es[0]), at, es[1..])
  }

  predicate AllDue(g: Foreign, uid: string, h: Past, at: int, es: seq<Event>)
    decreases |es|
  {
    es == [] || (Due(g, uid, h, at, es[0]) && AllDue(g, uid, Next(h, at, es[0]), at, es[1..]))
  }

  lemma {:induction false} PastOfAppend(log: seq<Logged>, uid: string, at: int, es: seq<Event>, u: string)
    ensures PastOf(log + Log(uid, at, es), u) == if u == uid then Fold(PastOf(log, u), at, es) else PastOf(log, u)
    decreases |es|
  {
    if es == [] {
      assert log + Log(uid, at, es) == log;
    } else {
      var l := Logged(uid, at, es[0]);
      assert log + Log(uid, at, es) == (log + [l]) + Log(uid, at, es[1..]);
      PastOfAppend(log + [l], uid, at, es[1..], u);
      assert (log + [l])[..|log|] == log;
    }
  }

  lemma {:induction false} OrderlyAppend(g: Foreign, log: seq<Logged>, uid: string, at: int, es: seq<Event>)
    requires Orderly(g, log) && AllDue(g, uid, PastOf(log, uid), at, es)
    ensures Orderly(g, log + Log(uid, at, es))
    decreases |es|
  {
    hide Due, Next;
    if es == [] {
      assert log + Log(uid, at, es) == log;
    } else {
      var l := Logged(uid, at, es[0]);
      assert log + Log(uid, at, es) == (log + [l]) + Log(uid, at, es[1..]);
      assert (log + [l])[..|log|] == log;
      forall n | 0 <= n < |log + [l]|
        ensures Due(g, (log + [l])[n].uid, PastOf((log + [l])[..n], (log + [l])[n].uid), (log + [l])[n].at,
                (log + [l])[n].event)
      {
        assert (log + [l])[..n] == log[..n];
      }
      OrderlyAppend(g, log + [l], uid, at, es[1..]);
    }
  }

  // ---------------------------------------------------------------- reading the log by position

  /** Position `j` holds a successful refresh of `id`, and nothing of that VM after it breaks the chain. */
  ghost predicate RefreshAt(log: seq<Logged>, uid: string, id: string, j: int) {
    && 0 <= j < |log| && log[j].uid == uid
    && log[j].event.Refreshes? && log[j].event.answer == Yes && log[j].event.id == id
    && forall m :: j < m < |log| && log[m].uid == uid ==>
         !Breaks(log[m].event) && !(log[m].event.Pings? && log[m].event.answer == Yes)
  }

  ghost predicate PingAt(log: seq<Logged>, uid: string, p: int) {
    && 0 <= p < |log| && log[p].uid == uid && log[p].event.Pings? && log[p].event.answer == Yes
    && forall m :: p < m < |log| && log[m].uid == uid ==> !Breaks(log[m].event)
  }

  lemma {:induction false} RefreshedMeans(log: seq<Logged>, uid: string, id: string) returns (j: int)
    requires PastOf(log, uid).refreshed == Some(id)
    ensures RefreshAt(log, uid, id, j)
  {
    var l := log[|log| - 1];
    if l.uid == uid && l.event.Refreshes? && l.event.answer == Yes {
      j := |log| - 1;
    } else {
      j := RefreshedMeans(log[..|log| - 1], uid, id);
    }
  }

  lemma {:induction false} PingedMeans(log: seq<Logged>, uid: string) returns (p: int)
    requires PastOf(log, uid).pinged
    ensures PingAt(log, uid, p)
  {
    var l := log[|log| - 1];
    if l.uid == uid && l.event.Pings? && l.event.answer == Yes {
      p := |log| - 1;
    } else {
      p := PingedMeans(log[..|log| - 1], uid);
    }
  }

  // ---------------------------------------------------------------- annotations and past agree

  /** At or after the end of the retry window. */
  predicate Late(m: Marks, at: int) {
    m.acceptedAt.Some? ==> at >= m.acceptedAt.value + MAX_BOOTSTRAP
  }

  /** What the annotations claim about the chain is what the log shows. */
  predicate Tied(m: Marks, h: Past) {
    match m.saltStatus
    case Unstarted => true
    case Pinged => h.pinged
    case PillarRefreshed => h.pinged && h.refreshed == Some(m.minionId)
    case HighstateDispatched =>
      h.dispatched.Some? && h.dispatched.value.id == m.minionId && h.dispatched.value.jid == m.jid
    case Ready => h.done.Some? && h.done.value.ok && m.highstateTime == Some(Stamp(h.done.value.at))
    case Failed(PingStep) => h.unpinged.Some? && Late(m, h.unpinged.value)
    case Failed(RefreshStep) => h.unrefreshed.Some? && (h.unrefreshed.value.day2 || Late(m, h.unrefreshed.value.at))
    case Failed(DispatchStep) => true
    case Failed(HighstateStep) =>
      && h.done.Some? && !h.done.value.ok && h.done.value.failed == m.failedStates
      && m.highstateTime == Some(Stamp(h.done.value.at))
  }

  /** The calls of a turn are due, and annotations and past agree whether or not its patch lands. */
  predicate Tracks(g: Foreign, uid: string, m: Marks, h: Past, at: int, p: Plan) {
    var called := Fold(h, at, p.calls);
    && AllDue(g, uid, h, at, p.calls) && AllDue(g, uid, called, at, p.landed)
    && Tied(m, called)
    && (p.marks.Some? ==> Tied(p.marks.value, Fold(called, at, p.landed)) && Timely(p.marks.value, at))
  }

  lemma FoldOne(g: Foreign, uid: string, h: Past, at: int, e: Event)
    ensures Fold(h, at, []) == h && AllDue(g, uid, h, at, [])
    ensures Fold(h, at, [e]) == Next(h, at, e)
    ensures AllDue(g, uid, h, at, [e]) == Due(g, uid, h, at, e)
  {
    hide Next, Due;
    assert [e][1..] == [];
  }

  lemma FoldCons(g: Foreign, uid: string, h: Past, at: int, e: Event, es: seq<Event>)
    ensures Fold(h, at, [e] + es) == Fold(Next(h, at, e), at, es)
    ensures AllDue(g, uid, h, at, [e] + es) == (Due(g, uid, h, at, e) && AllDue(g, uid, Next(h, at, e), at, es))
  {
    hide Next, Due;
    assert ([e] + es)[1..] == es;
  }

  lemma PingTracks(g: Foreign, uid: string, m: Marks, h: Past, cfg: Config, i: Input)
    requires Tied(m, h) && Timely(m, i.now) && m.saltStatus == Unstarted
    ensures Tracks(g, uid, m, h, i.now, PingPlan(m, cfg, i))
  {
    hide Fold, AllDue;
    FoldOne(g, uid, h, i.now, Pings(m.minionId, i.ping));
    FoldOne(g, uid, Next(h, i.now, Pings(m.minionId, i.ping)), i.now, ChainReset);
  }

  lemma RefreshTracks(g: Foreign, o: Object, m: Marks, h: Past, cfg: Config, i: Input)
    requires Tied(m, h) && Timely(m, i.now) && m.saltStatus == Pinged
    ensures Tracks(g, o.uid, m, h, i.now, RefreshPlan(o, m, cfg, i))
  {
    hide Fold, AllDue;
    var e := Refreshes(m.minionId, i.refresh, o.tenant);
    FoldOne(g, o.uid, h, i.now, e);
    FoldOne(g, o.uid, Next(h, i.now, e), i.now, ChainReset);
  }

  lemma DispatchTracks(g: Foreign, o: Object, m: Marks, h: Past, cfg: Config, hash: string, i: Input)
    requires Tied(m, h) && Timely(m, i.now) && m.saltStatus == PillarRefreshed
    ensures Tracks(g, o.uid, m, h, i.now, DispatchPlan(o, m, cfg, hash, i))
  {
    hide Fold, AllDue;
    var e := Dispatches(m.minionId, i.jid, false, o.tenant);
    FoldOne(g, o.uid, h, i.now, e);
    FoldOne(g, o.uid, Next(h, i.now, e), i.now, ChainReset);
  }

  lemma PollTracks(g: Foreign, uid: string, m: Marks, h: Past, cfg: Config, i: Input)
    requires Tied(m, h) && Timely(m, i.now) && m.saltStatus == HighstateDispatched
    ensures Tracks(g, uid, m, h, i.now, PollPlan(m, cfg, i))
  {
    hide Fold, AllDue;
    FoldOne(g, uid, h, i.now, Polls(m.minionId, m.jid, i.poll));
    FoldOne(g, uid, Next(h, i.now, Polls(m.minionId, m.jid, i.poll)), i.now, ChainReset);
  }

  lemma FailedTracks(g: Foreign, o: Object, m: Marks, h: Past, cfg: Config, hash: string, i: Input)
    requires Tied(m, h) && Timely(m, i.now) && m.saltStatus.Failed?
    ensures Tracks(g, o.uid, m, h, i.now, FailedPlan(o, m, cfg, hash))
  {
    hide Fold, AllDue, Get;
    FoldOne(g, o.uid, h, i.now, ChainReset);
  }

  /** A Day-2 run refreshes and dispatches in one turn. */
  lemma Day2Tracks(g: Foreign, o: Object, m: Marks, h: Past, scheduled: Option<int>, cfg: Config, i: Input)
    requires m.saltStatus == Ready && Tied(m, h) && Timely(m, i.now) && Due(g, o.uid, h, i.now, RunStarts(scheduled))
    ensures Tracks(g, o.uid, m, h, i.now, Day2Plan(o, m, scheduled, cfg, i))
  {
    hide Fold, AllDue;
    var a, b, c := RunStarts(scheduled), Refreshes(m.minionId, i.refresh, o.tenant),
                   Dispatches(m.minionId, i.jid, true, o.tenant);
    var h1 := Next(h, i.now, a);
    var h2 := Next(h1, i.now, b);
    FoldCons(g, o.uid, h, i.now, a, [b]);
    FoldOne(g, o.uid, h1, i.now, b);
    assert [a, b] + [c] == [a] + ([b] + [c]) && [a, b] == [a] + [b];
    FoldCons(g, o.uid, h, i.now, a, [b] + [c]);
    FoldCons(g, o.uid, h1, i.now, b, [c]);
    FoldOne(g, o.uid, h2, i.now, c);
    FoldOne(g, o.uid, Next(h2, i.now, c), i.now, c);
  }

  lemma ReadyTracks(g: Foreign, o: Object, m: Marks, h: Past, cfg: Config, hash: string, i: Input)
    requires Tied(m, h) && m.saltStatus == Ready && Timely(m, i.now)
    ensures Tracks(g, o.uid, m, h, i.now, ReadyPlan(g, o, m, cfg, hash, i))
  {
    hide Fold, AllDue, Get, Day2Plan;
    var markers := Handled(o, cfg.retryToken, m).(rolesHash := hash);
    Day2Tracks(g, o, markers, h, None, cfg, i);
    FoldOne(g, o.uid, h, i.now, ChainReset);
    var due := Enforcement.EnforcementDue(cfg.enforcement, g.seed(o.uid), o.uid, m.highstateTime, i.now);
    if due.due {
      var interval := cfg.enforcement.value;
      if Enforcement.Fits(g.seed(o.uid), o.uid, interval) && interval <= Enforcement.MAX {
        Enforcement.WaitIsExact(interval, g.seed(o.uid), o.uid, m.highstateTime.value, i.now, i.now);
      }
      Day2Tracks(g, o, markers, h, cfg.enforcement, cfg, i);
    }
  }

  lemma PlanTracks(g: Foreign, o: Object, m: Marks, h: Past, cfg: Config, hash: string, i: Input)
    requires Tied(m, h) && Timely(m, i.now)
    ensures Tracks(g, o.uid, m, h, i.now, ChainPlan(g, o, m, cfg, hash, i))
  {
    hide Tracks, Tied, Timely, PingPlan, RefreshPlan, DispatchPlan, PollPlan, ReadyPlan, FailedPlan;
    match m.saltStatus
    case Unstarted => PingTracks(g, o.uid, m, h, cfg, i);
    case Pinged => RefreshTracks(g, o, m, h, cfg, i);
    case PillarRefreshed => DispatchTracks(g, o, m, h, cfg, hash, i);
    case HighstateDispatched => PollTracks(g, o.uid, m, h, cfg, i);
    case Ready => ReadyTracks(g, o, m, h, cfg, hash, i);
    case Failed(_) => FailedTracks(g, o, m, h, cfg, hash, i);
  }

  // ---------------------------------------------------------------- a whole reconcile

  lemma {:induction false} FoldAppend(g: Foreign, uid: string, h: Past, at: int, a: seq<Event>, b: seq<Event>)
    ensures Fold(h, at, a + b) == Fold(Fold(h, at, a), at, b)
    ensures AllDue(g, uid, h, at, a + b) == (AllDue(g, uid, h, at, a) && AllDue(g, uid, Fold(h, at, a), at, b))
    decreases |a|
  {
    hide Next, Due;
    if a == [] {
      assert a + b == b;
    } else {
      assert (a + b)[1..] == a[1..] + b;
      FoldAppend(g, uid, Next(h, at, a[0]), at, a[1..], b);
    }
  }

  /** Calls about keys: they say nothing about the chain. */
  predicate KeyCall(e: Event) {
    e.ListedPending? || e.AcceptedFor? || e.CheckedStates? || e.GeneratedFor? || e.FetchedMasterKey? || e.DeletedKey?
  }

  ghost predicate KeyCalls(es: seq<Event>) {
    forall n :: 0 <= n < |es| ==> KeyCall(es[n])
  }

  lemma {:induction false} KeyCallsAreNeutral(g: Foreign, uid: string, h: Past, at: int, es: seq<Event>)
    requires KeyCalls(es)
    ensures Fold(h, at, es) == h && AllDue(g, uid, h, at, es)
    decreases |es|
  {
    if es != [] {
      assert KeyCall(es[0]);
      KeyCallsAreNeutral(g, uid, h, at, es[1..]);
    }
  }

  /** The calls of a reconcile were due, and annotations and past still agree after it. */
  predicate Tracked(g: Foreign, o: Object, h: Past, i: Input, r: Scene) {
    AllDue(g, o.uid, h, i.now, r.events) && Tied(r.marks, Fold(h, i.now, r.events)) && Timely(r.marks, i.now)
  }

  /** Neither the clearing mark nor the bulk token has to do with the chain. */
  lemma TiedIgnores(a: Marks, b: Marks, h: Past, now: int)
    ensures b == a.(keyCleared := b.keyCleared, bulkHandled := b.bulkHandled) ==>
              Tied(a, h) == Tied(b, h) && Timely(a, now) == Timely(b, now)
  {
  }

  lemma ExecuteTracked(g: Foreign, o: Object, s: Scene, p: Plan, h: Past, i: Input)
    requires s.events == [] && Consistent(o, s.marks)
    requires Tied(s.marks, h) && Timely(s.marks, i.now) && Tracks(g, o.uid, s.marks, h, i.now, p)
    ensures Tracked(g, o, h, i, Execute(s, p, i).scene)
  {
    hide ClearPreseedKey, Fold, AllDue, Consistent, Tied, Timely;
    FoldOne(g, o.uid, h, i.now, ChainReset);
    FoldAppend(g, o.uid, h, i.now, p.calls, p.landed);
    var b := if p.bulk.Some? then s.(marks := s.marks.(bulkHandled := p.bulk.value)) else s;
    BulkKeeps(o, s.marks, b.marks.bulkHandled);
    assert [] + p.calls == p.calls;
    ClearKeeps(o, b.(events := b.events + p.calls), i);
    var r := Execute(s, p, i).scene;
    TiedIgnores(s.marks, r.marks, h, i.now);
    TiedIgnores(s.marks, r.marks, Fold(h, i.now, p.calls), i.now);
    if p.marks.Some? { TiedIgnores(p.marks.value, r.marks, Fold(h, i.now, p.calls + p.landed), i.now); }
  }

  /** The part of the annotations that says which triggers were acted on. */
  predicate SameHandled(a: Marks, b: Marks) {
    a.rolesHash == b.rolesHash && a.retryHandled == b.retryHandled && a.bulkHandled == b.bulkHandled
  }

  /** Only calls about keys were made, and the chain is where it was. */
  ghost predicate Aside(s: Scene, r: Scene, now: int) {
    && KeyCalls(r.events) && r.marks.saltStatus == s.marks.saltStatus && r.marks.highstateTime == s.marks.highstateTime
    && (r.marks.acceptedAt == s.marks.acceptedAt || r.marks.acceptedAt == Some(Stamp(now)))
    && SameHandled(s.marks, r.marks)
  }

  lemma GenerateCalls(o: Object, s: Scene, cfg: Config, id: string, i: Input)
    requires s.events == [CheckedStates(id)]
    ensures Aside(s, Generate(o, s, cfg, id, i).scene, i.now)
  {
    hide Stamp;
  }

  lemma PreseedCalls(o: Object, s: Scene, cfg: Config, i: Input)
    requires s.events == []
    ensures Aside(s, RunPreseedKey(o, s, cfg, i).scene, i.now)
  {
    hide Owner, Stamp, Generate;
    GenerateCalls(o, Note(s, CheckedStates(o.name)), cfg, o.name, i);
  }

  lemma AcceptCalls(g: Foreign, o: Object, s: Scene, cfg: Config, i: Input)
    requires s.events == []
    ensures Aside(s, RunAcceptKey(g, o, s, cfg, i).scene, i.now)
  {
    hide FindMinion, Stamp, Accept;
  }

  /** Obtaining a key makes only calls about keys and leaves the chain unstarted. */
  lemma AcquireCalls(g: Foreign, o: Object, s: Scene, cfg: Config, i: Input)
    requires s.events == []
    ensures Aside(s, Acquire(g, o, s, cfg, i).scene, i.now)
  {
    hide RunPreseedKey, RunAcceptKey, Stamp;
    PreseedCalls(o, s, cfg, i);
    AcceptCalls(g, o, s, cfg, i);
  }

  lemma AcquireTracked(g: Foreign, o: Object, s: Scene, cfg: Config, h: Past, i: Input)
    requires s.events == [] && Consistent(o, s.marks) && !s.marks.keyStatus.Accepted? && !o.deleting
    requires Tied(s.marks, h) && Timely(s.marks, i.now)
    ensures Tracked(g, o, h, i, Acquire(g, o, s, cfg, i).scene)
  {
    hide Fold, AllDue, Acquire;
    var r := Acquire(g, o, s, cfg, i).scene;
    AcquireCalls(g, o, s, cfg, i);
    KeyCallsAreNeutral(g, o.uid, h, i.now, r.events);
  }

  lemma DeleteTracked(g: Foreign, o: Object, s: Scene, h: Past, i: Input)
    requires s.events == [] && Tied(s.marks, h) && Timely(s.marks, i.now)
    ensures Tracked(g, o, h, i, ReconcileDelete(s, i).scene)
  {
    hide Fold, AllDue;
    KeyCallsAreNeutral(g, o.uid, h, i.now, ReconcileDelete(s, i).scene.events);
  }

  lemma NothingTracked(g: Foreign, o: Object, s: Scene, h: Past, i: Input)
    requires s.events == [] && Tied(s.marks, h) && Timely(s.marks, i.now)
    ensures Tracked(g, o, h, i, s)
  {
  }

  lemma ConvergeTracked(g: Foreign, o: Object, s: Scene, cfg: Config, hash: string, h: Past, i: Input)
    requires s.events == [] && Consistent(o, s.marks) && Tied(s.marks, h) && Timely(s.marks, i.now)
    ensures Tracked(g, o, h, i, Converge(g, o, s, cfg, hash, i).scene)
  {
    hide Execute, ChainPlan, Consistent, Fold, AllDue;
    FoldOne(g, o.uid, h, i.now, ChainReset);
    PlanTracks(g, o, s.marks, h, cfg, hash, i);
    ExecuteTracked(g, o, AddFinalizer(s, i, 0).scene, ChainPlan(g, o, s.marks, cfg, hash, i), h, i);
  }

  lemma ReconcileTracked(g: Foreign, o: Object, s: Scene, hash: string, h: Past, i: Input)
    requires s.events == [] && Consistent(o, s.marks) && Tied(s.marks, h) && Timely(s.marks, i.now)
    ensures Tracked(g, o, h, i, ReconcileVm(g, o, s, hash, i).scene)
  {
    hide ClearPreseedKey, Acquire, Converge, ReconcileDelete, FindConfig, Managed, Consistent, Tracked;
    NothingTracked(g, o, s, h, i);
    if Managed(o) && i.configs.Some? && FindConfig(i.configs.value).Some? {
      var cfg := FindConfig(i.configs.value).value;
      if o.deleting {
        DeleteTracked(g, o, s, h, i);
      } else {
        ClearKeeps(o, s, i);
        var c := if o.seen.guestSignalled || TimedOut(o, cfg, i.now) then ClearPreseedKey(s, i, 0) else Stop(s, 0);
        NothingTracked(g, o, c.scene, h, i);
        if c.scene.marks.keyStatus.Accepted? { ConvergeTracked(g, o, c.scene, cfg, hash, h, i); }
        else { AcquireTracked(g, o, c.scene, cfg, h, i); }
      }
    }
  }

  // ---------------------------------------------------------------- over whole runs

  ghost predicate Recorded(g: Foreign, w: World) {
    && Orderly(g, w.log)
    && (forall k :: k in w.vms ==>
          Tied(w.vms[k].marks, PastOf(w.log, w.vms[k].obj.uid)) && Timely(w.vms[k].marks, w.now))
    && (forall n :: 0 <= n < |w.log| ==> w.log[n].uid in w.uids)
  }

  lemma {:induction false} StrangersHaveNoPast(log: seq<Logged>, uid: string)
    requires forall n :: 0 <= n < |log| ==> log[n].uid != uid
    ensures PastOf(log, uid) == NOTHING
  {
    if log != [] { StrangersHaveNoPast(log[..|log| - 1], uid); }
  }

  lemma ReconcileKeepsRecorded(g: Foreign, w: World, k: Name, i: Input)
    requires Inv(w) && Recorded(g, w) && k in w.vms && i.now == w.now
    ensures Recorded(g, Apply(g, w, Reconciles(k, i)))
  {
    hide Consistent, SecretFresh, ReconcileVm, IntentHash, Tied, Timely, Orderly, AllDue, Fold, Due, Next, PastOf;
    var o := w.vms[k].obj;
    var r := ResultOf(g, w, k, i).scene;
    var h := PastOf(w.log, o.uid);
    var w' := Apply(g, w, Reconciles(k, i));
    assert VmOk(w, k);
    ReconcileTracked(g, o, SceneOf(w, k), IntentHash(g, o.tenant), h, i);
    OrderlyAppend(g, w.log, o.uid, w.now, r.events);
    forall j | j in w'.vms
      ensures Tied(w'.vms[j].marks, PastOf(w'.log, w'.vms[j].obj.uid)) && Timely(w'.vms[j].marks, w'.now)
    {
      PastOfAppend(w.log, o.uid, w.now, r.events, w'.vms[j].obj.uid);
      if j != k { assert Apart(w.vms[j], w.vms[k]); }
    }
  }

  lemma FreshIsTied()
    ensures Tied(NO_MARKS, NOTHING)
  {
  }

  lemma StepKeepsRecorded(g: Foreign, w: World, step: Step)
    requires Inv(w) && Recorded(g, w) && Valid(g, w, step)
    ensures Recorded(g, Apply(g, w, step))
  {
    hide VmOk, ReconcileVm, IntentHash, Tied, Orderly, PastOf, Orphans, Live;
    match step
    case Reconciles(k, i) => if k in w.vms { ReconcileKeepsRecorded(g, w, k, i); }
    case Appears(k, obj) =>
      StrangersHaveNoPast(w.log, obj.uid);
      assert Tied(NO_MARKS, NOTHING) by { FreshIsTied(); }
    case Changes(k, obj, finalizer) =>
    case Rekeys(keys) =>
    case Collects(k) =>
    case Ticks(now) =>
  }

  lemma {:induction false} RunKeepsRecorded(g: Foreign, w: World, steps: seq<Step>)
    requires Inv(w) && Recorded(g, w) && ValidRun(g, w, steps)
    ensures Recorded(g, Run(g, w, steps))
    decreases |steps|
  {
    hide Inv, Valid, Apply, Recorded;
    if steps != [] {
      StepKeepsInv(g, w, steps[0]);
      StepKeepsRecorded(g, w, steps[0]);
      RunKeepsRecorded(g, Apply(g, w, steps[0]), steps[1..]);
    }
  }

  /** The log of any run from an empty cluster is orderly. */
  lemma RunsAreOrderly(g: Foreign, w0: World, steps: seq<Step>)
    requires Initial(w0) && ValidRun(g, w0, steps)
    ensures Recorded(g, Run(g, w0, steps))
  {
    hide ValidRun, Run;
    RunKeepsRecorded(g, w0, steps);
  }

  /** Pillar before highstate: in every run, every dispatch of a highstate comes after a successful
      refresh of that minion's pillar, with no chain reset, no new run and no completed highstate
      of that VM in between; outside a Day-2 run a successful ping precedes the refresh likewise. */
  lemma PillarBeforeHighstate(g: Foreign, w0: World, steps: seq<Step>, n: int) returns (j: int, p: int)
    requires Initial(w0) && ValidRun(g, w0, steps)
    requires 0 <= n < |Run(g, w0, steps).log| && Run(g, w0, steps).log[n].event.Dispatches?
    ensures var log := Run(g, w0, steps).log;
            && RefreshAt(log[..n], log[n].uid, log[n].event.id, j)
            && (!log[n].event.day2 ==> p < j && PingAt(log[..n], log[n].uid, p))
  {
    hide ValidRun, Run;
    var log := Run(g, w0, steps).log;
    RunsAreOrderly(g, w0, steps);
    var l := log[n];
    assert Due(g, l.uid, PastOf(log[..n], l.uid), l.at, l.event);
    j := RefreshedMeans(log[..n], l.uid, l.event.id);
    p := -1;
    if !l.event.day2 {
      p := PingedMeans(log[..n], l.uid);
      assert p != j && !(j < p);
    }
  }

  /** Position `c` holds the last completed highstate of the VM. */
  ghost predicate DoneAt(log: seq<Logged>, uid: string, c: int) {
    && 0 <= c < |log| && log[c].uid == uid && log[c].event.Polls? && log[c].event.poll.Done?
    && forall m :: c < m < |log| && log[m].uid == uid ==> !(log[m].event.Polls? && log[m].event.poll.Done?)
  }

  lemma {:induction false} DoneMeans(log: seq<Logged>, uid: string) returns (c: int)
    requires PastOf(log, uid).done.Some?
    ensures DoneAt(log, uid, c)
    ensures var d := PastOf(log, uid).done.value; log[c].at == d.at && log[c].event.poll == Done(d.ok, d.failed)
  {
    var l := log[|log| - 1];
    if l.uid == uid && l.event.Polls? && l.event.poll.Done? {
      c := |log| - 1;
    } else {
      c := DoneMeans(log[..|log| - 1], uid);
    }
  }

  /** Scheduled runs keep their distance: a run that only the schedule asked for starts at least
      interval plus jitter after the recorded time of the last completion, hence more than the
      interval less one second after the highstate was really seen to be complete, provided interval
      and jitter together fit in 64 bits. */
  lemma ScheduledRunsAreSpaced(g: Foreign, w0: World, steps: seq<Step>, n: int) returns (c: int)
    requires Initial(w0) && ValidRun(g, w0, steps)
    requires var log := Run(g, w0, steps).log;
             && 0 <= n < |log| && log[n].event.RunStarts? && log[n].event.scheduled.Some?
             && 0 < log[n].event.scheduled.value <= Enforcement.MAX
             && Enforcement.Fits(g.seed(log[n].uid), log[n].uid, log[n].event.scheduled.value)
    ensures var log := Run(g, w0, steps).log;
            && DoneAt(log[..n], log[n].uid, c)
            && log[n].at >= Stamp(log[c].at) + log[n].event.scheduled.value +
                            Enforcement.Jitter(g.seed(log[n].uid), log[n].uid, log[n].event.scheduled.value)
            && log[n].at - log[c].at > log[n].event.scheduled.value - SECOND
  {
    hide ValidRun, Run;
    var log := Run(g, w0, steps).log;
    RunsAreOrderly(g, w0, steps);
    assert Due(g, log[n].uid, PastOf(log[..n], log[n].uid), log[n].at, log[n].event);
    c := DoneMeans(log[..n], log[n].uid);
  }

  // ---------------------------------------------------------------- jobs and their ends

  /** Position `d` holds the last successful dispatch of the VM. */
  ghost predicate DispatchAt(log: seq<Logged>, uid: string, d: int) {
    && 0 <= d < |log| && log[d].uid == uid && log[d].event.Dispatches? && log[d].event.jid.Some?
    && forall m :: d < m < |log| && log[m].uid == uid ==> !(log[m].event.Dispatches? && log[m].event.jid.Some?)
  }

  lemma {:induction false} DispatchedMeans(log: seq<Logged>, uid: string) returns (d: int)
    requires PastOf(log, uid).dispatched.Some?
    ensures DispatchAt(log, uid, d)
    ensures var h := PastOf(log, uid).dispatched.value; log[d].event.id == h.id && log[d].event.jid == Some(h.jid)
  {
    var l := log[|log| - 1];
    if l.uid == uid && l.event.Dispatches? && l.event.jid.Some? {
      d := |log| - 1;
    } else {
      d := DispatchedMeans(log[..|log| - 1], uid);
    }
  }

  /** The right job: in every run, every poll asks for the job that the last successful dispatch of
      that VM returned, on the minion it was dispatched to. */
  lemma PollsAskForTheLastJob(g: Foreign, w0: World, steps: seq<Step>, n: int) returns (d: int)
    requires Initial(w0) && ValidRun(g, w0, steps)
    requires 0 <= n < |Run(g, w0, steps).log| && Run(g, w0, steps).log[n].event.Polls?
    ensures var log := Run(g, w0, steps).log;
            && DispatchAt(log[..n], log[n].uid, d)
            && log[d].event.jid == Some(log[n].event.job) && log[d].event.id == log[n].event.id
  {
    hide ValidRun, Run;
    var log := Run(g, w0, steps).log;
    RunsAreOrderly(g, w0, steps);
    assert Due(g, log[n].uid, PastOf(log[..n], log[n].uid), log[n].at, log[n].event);
    d := DispatchedMeans(log[..n], log[n].uid);
  }

  /** Ready means success: in every state of every run, the last highstate of a Ready VM that was seen
      to be complete succeeded, that of a VM in Failed/Highstate failed with exactly the states it
      records, and both record the time it was seen. */
  lemma ReadyMeansSuccess(g: Foreign, w0: World, steps: seq<Step>, k: Name) returns (c: int)
    requires Initial(w0) && ValidRun(g, w0, steps) && k in Run(g, w0, steps).vms
    requires Finished(Run(g, w0, steps).vms[k].marks)
    ensures var w := Run(g, w0, steps);
            var m := w.vms[k].marks;
            && DoneAt(w.log, w.vms[k].obj.uid, c) && m.highstateTime == Some(Stamp(w.log[c].at))
            && (m.saltStatus.Ready? ==> w.log[c].event.poll.ok)
            && (m.saltStatus == Failed(HighstateStep) ==> w.log[c].event.poll == Done(false, m.failedStates))
  {
    hide ValidRun, Run;
    RunsAreOrderly(g, w0, steps);
    var w := Run(g, w0, steps);
    assert Tied(w.vms[k].marks, PastOf(w.log, w.vms[k].obj.uid));
    c := DoneMeans(w.log, w.vms[k].obj.uid);
  }

  // ---------------------------------------------------------------- failures of the bootstrap

  ghost predicate UnpingedAt(log: seq<Logged>, uid: string, n: int) {
    0 <= n < |log| && log[n].uid == uid && log[n].event.Pings? && log[n].event.answer != Yes
  }

  lemma {:induction false} UnpingedMeans(log: seq<Logged>, uid: string) returns (n: int)
    requires PastOf(log, uid).unpinged.Some?
    ensures UnpingedAt(log, uid, n) && log[n].at == PastOf(log, uid).unpinged.value
  {
    var l := log[|log| - 1];
    if l.uid == uid && l.event.Pings? && l.event.answer != Yes {
      n := |log| - 1;
    } else {
      n := UnpingedMeans(log[..|log| - 1], uid);
    }
  }

  ghost predicate UnrefreshedAt(log: seq<Logged>, uid: string, n: int) {
    0 <= n < |log| && log[n].uid == uid && log[n].event.Refreshes? && log[n].event.answer != Yes
  }

  lemma {:induction false} UnrefreshedMeans(log: seq<Logged>, uid: string) returns (n: int)
    requires PastOf(log, uid).unrefreshed.Some?
    ensures UnrefreshedAt(log, uid, n) && log[n].at == PastOf(log, uid).unrefreshed.value.at
    ensures PastOf(log, uid).unrefreshed.value.day2 == !PastOf(log[..n], uid).pinged
  {
    var l := log[|log| - 1];
    if l.uid == uid && l.event.Refreshes? && l.event.answer != Yes {
      n := |log| - 1;
    } else {
      n := UnrefreshedMeans(log[..|log| - 1], uid);
      assert log[..|log| - 1][..n] == log[..n];
    }
  }

  lemma {:induction false} PingAtMeans(log: seq<Logged>, uid: string, p: int)
    requires PingAt(log, uid, p)
    ensures PastOf(log, uid).pinged
  {
    if p < |log| - 1 {
      PingAtMeans(log[..|log| - 1], uid, p);
      var l := log[|log| - 1];
      assert l.uid == uid ==> !Breaks(l.event);
    }
  }

  /** No bootstrap gives up early: in every state of every run, a VM in Failed/Ping has an unanswered
      ping in its log ten minutes or more after its recorded acceptance. */
  lemma FailedPingsAreLate(g: Foreign, w0: World, steps: seq<Step>, k: Name) returns (n: int)
    requires Initial(w0) && ValidRun(g, w0, steps) && k in Run(g, w0, steps).vms
    requires Run(g, w0, steps).vms[k].marks.saltStatus == Failed(PingStep)
    ensures var w := Run(g, w0, steps);
            var m := w.vms[k].marks;
            && UnpingedAt(w.log, w.vms[k].obj.uid, n)
            && m.acceptedAt.Some? && w.log[n].at >= m.acceptedAt.value + 600_000_000_000
  {
    hide ValidRun, Run, SecretFresh, KeyConsistent;
    RunsAreOrderly(g, w0, steps);
    RunKeepsInv(g, w0, steps);
    var w := Run(g, w0, steps);
    assert VmOk(w, k) && Tied(w.vms[k].marks, PastOf(w.log, w.vms[k].obj.uid));
    n := UnpingedMeans(w.log, w.vms[k].obj.uid);
  }

  /** And one in Failed/PillarRefresh has a failed refresh in its log that was made ten minutes or more
      after the acceptance, or in a Day-2 run: no ping had succeeded since the run began. */
  lemma FailedRefreshesAreLate(g: Foreign, w0: World, steps: seq<Step>, k: Name) returns (n: int)
    requires Initial(w0) && ValidRun(g, w0, steps) && k in Run(g, w0, steps).vms
    requires Run(g, w0, steps).vms[k].marks.saltStatus == Failed(RefreshStep)
    ensures var w := Run(g, w0, steps);
            var m, uid := w.vms[k].marks, w.vms[k].obj.uid;
            && UnrefreshedAt(w.log, uid, n) && m.acceptedAt.Some?
            && (w.log[n].at >= m.acceptedAt.value + 600_000_000_000 || forall p :: !PingAt(w.log[..n], uid, p))
  {
    hide ValidRun, Run, SecretFresh, KeyConsistent, PingAt;
    RunsAreOrderly(g, w0, steps);
    RunKeepsInv(g, w0, steps);
    var w := Run(g, w0, steps);
    var uid := w.vms[k].obj.uid;
    assert VmOk(w, k) && Tied(w.vms[k].marks, PastOf(w.log, uid));
    n := UnrefreshedMeans(w.log, uid);
    forall p | PingAt(w.log[..n], uid, p) ensures PastOf(w.log[..n], uid).pinged { PingAtMeans(w.log[..n], uid, p); }
  }
}
