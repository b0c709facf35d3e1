/** The scavenger: deletes accepted keys that no VM records, one group of configs per RaaS URL. */
module Scavenger {
  import opened Text
  import opened Matcher
  import opened Model
  import opened Consistency
  import opened Keyring
  import opened World
  import opened ClientCache

  /** `connection` is None when it does not resolve. */
  datatype KeyConfig = KeyConfig(ns: string, ready: bool, connection: Option<Connection>)

  datatype Group = Group(connection: Connection, namespaces: seq<string>)

  /** What a group's master and the API server answer. None is a call that returned an error. */
  datatype Answers = Answers(
    login: bool,
    accepted: Option<seq<string>>,
    listing: string -> Option<seq<Vm>>,
    deletes: string -> bool)

  // ---------------------------------------------------------------- grouping

  predicate Usable(c: KeyConfig) {
    c.ready && c.connection.Some?
  }

  predicate At(c: KeyConfig, url: string) {
    Usable(c) && c.connection.value.url == url
  }

  /** The namespaces of the usable configs with this URL, in the order they were listed. */
  function NamespacesAt(configs: seq<KeyConfig>, url: string): seq<string> {
    if configs == [] then []
    else
      var before := configs[..|configs| - 1];
      var c := configs[|configs| - 1];
      NamespacesAt(before, url) + (if At(c, url) then [c.ns] else [])
  }

  lemma {:induction false} NamespacesAtHolds(configs: seq<KeyConfig>, url: string, ns: string)
    ensures ns in NamespacesAt(configs, url) <==> exists c :: c in configs && At(c, url) && c.ns == ns
  {
    if configs != [] {
      var before, c := configs[..|configs| - 1], configs[|configs| - 1];
      NamespacesAtHolds(before, url, ns);
      assert configs == before + [c];
      if At(c, url) && c.ns == ns { assert c in configs; }
    }
  }

  ghost predicate Configured(configs: seq<KeyConfig>, url: string) {
    exists c :: c in configs && At(c, url)
  }

  /** The connection of the first usable config with this URL. */
  ghost predicate FirstAt(configs: seq<KeyConfig>, url: string, connection: Connection) {
    exists n :: 0 <= n < |configs| && At(configs[n], url) && connection == configs[n].connection.value &&
                forall m :: 0 <= m < n ==> !At(configs[m], url)
  }

  /** One group per URL: its namespaces are those of all usable configs with that URL, its
      connection is the one of the first of them. */
  ghost predicate Grouped(configs: seq<KeyConfig>, groups: map<string, Group>) {
    && (forall url :: url in groups <==> Configured(configs, url))
    && (forall url :: url in groups ==>
          groups[url].namespaces == NamespacesAt(configs, url) && FirstAt(configs, url, groups[url].connection))
  }

  lemma {:induction false} NoneAt(configs: seq<KeyConfig>, url: string)
    requires !Configured(configs, url)
    ensures NamespacesAt(configs, url) == []
  {
    if configs != [] {
      assert configs[|configs| - 1] in configs;
      NoneAt(configs[..|configs| - 1], url);
    }
  }

  lemma ConfiguredSnoc(configs: seq<KeyConfig>, c: KeyConfig, url: string)
    ensures Configured(configs + [c], url) <==> Configured(configs, url) || At(c, url)
  {
    var all := configs + [c];
    assert all[|configs|] == c;
    if Configured(configs, url) { var d :| d in configs && At(d, url); assert d in all; }
  }

  lemma FirstAtSnoc(configs: seq<KeyConfig>, c: KeyConfig, url: string, connection: Connection)
    ensures FirstAt(configs, url, connection) ==> FirstAt(configs + [c], url, connection)
    ensures !Configured(configs, url) && At(c, url) ==> FirstAt(configs + [c], url, c.connection.value)
  {
    var all := configs + [c];
    assert all[|configs|] == c && forall m :: 0 <= m < |configs| ==> all[m] == configs[m] && all[m] in configs;
    if FirstAt(configs, url, connection) {
      var n :| 0 <= n < |configs| && At(configs[n], url) && connection == configs[n].connection.value &&
               forall m :: 0 <= m < n ==> !At(configs[m], url);
      assert At(all[n], url);
    }
  }

  lemma GroupedSnoc(configs: seq<KeyConfig>, c: KeyConfig, was: map<string, Group>, now: map<string, Group>)
    requires Grouped(configs, was)
    requires !Usable(c) ==> now == was
    requires Usable(c) ==>
               var url := c.connection.value.url;
               var g := if url in was then was[url] else Group(c.connection.value, []);
               now == was[url := g.(namespaces := g.namespaces + [c.ns])]
    ensures Grouped(configs + [c], now)
  {
    hide Configured, FirstAt;
    assert (configs + [c])[..|configs|] == configs;
    forall url ensures url in now <==> Configured(configs + [c], url) { ConfiguredSnoc(configs, c, url); }
    forall url | url in now
      ensures now[url].namespaces == NamespacesAt(configs + [c], url)
      ensures FirstAt(configs + [c], url, now[url].connection)
    {
      FirstAtSnoc(configs, c, url, now[url].connection);
      if url !in was { NoneAt(configs, url); }
    }
  }

  method GroupConfigs(configs: seq<KeyConfig>) returns (groups: map<string, Group>)
    ensures Grouped(configs, groups)
  {
    groups := map[];
    for n := 0 to |configs|
      invariant Grouped(configs[..n], groups)
    {
      var c := configs[n];
      ghost var was := groups;
      if Usable(c) {
        var url := c.connection.value.url;
        var g := if url in groups then groups[url] else Group(c.connection.value, []);
        groups := groups[url := g.(namespaces := g.namespaces + [c.ns])];
      }
      GroupedSnoc(configs[..n], c, was, groups);
      assert configs[..n + 1] == configs[..n] + [c];
    }
    assert configs[..|configs|] == configs;
  }

  /** Every Ready config whose connection resolves is in exactly one group, no other config is. */
  lemma EachConfigInOneGroup(configs: seq<KeyConfig>, groups: map<string, Group>, c: KeyConfig)
    requires Grouped(configs, groups) && c in configs
    ensures Usable(c) ==> forall url :: url in groups && At(c, url) <==> url == c.connection.value.url
    ensures Usable(c) ==> c.ns in groups[c.connection.value.url].namespaces
    ensures forall url, ns :: url in groups && ns in groups[url].namespaces ==>
              exists d :: d in configs && At(d, url) && d.ns == ns
  {
    forall url, ns | url in groups && ns in groups[url].namespaces
      ensures exists d :: d in configs && At(d, url) && d.ns == ns
    {
      NamespacesAtHolds(configs, url, ns);
    }
    if Usable(c) {
      assert At(c, c.connection.value.url);
      NamespacesAtHolds(configs, c.connection.value.url, c.ns);
    }
  }

  // ---------------------------------------------------------------- one group

  function IdsOf(vms: seq<Vm>): set<string> {
    set vm | vm in vms && vm.marks.minionId != "" :: vm.marks.minionId
  }

  method LiveMinionIds(vms: seq<Vm>) returns (ids: set<string>)
    ensures ids == IdsOf(vms)
  {
    ids := {};
    for n := 0 to |vms|
      invariant ids == IdsOf(vms[..n])
    {
      assert vms[..n + 1] == vms[..n] + [vms[n]];
      if vms[n].marks.minionId != "" { ids := ids + {vms[n].marks.minionId}; }
    }
    assert vms[..|vms|] == vms;
  }

  ghost predicate Listed(namespaces: seq<string>, listing: string -> Option<seq<Vm>>) {
    forall ns :: ns in namespaces ==> listing(ns).Some?
  }

  /** Every minion ID recorded in the group's namespaces. */
  function LiveIn(namespaces: seq<string>, listing: string -> Option<seq<Vm>>): set<string> {
    set ns, vm |
      ns in namespaces && listing(ns).Some? && vm in listing(ns).value && vm.marks.minionId != "" ::
      vm.marks.minionId
  }

  predicate Excluded(glob: (string, string) -> bool, patterns: seq<string>, id: string) {
    exists p :: p in patterns && glob(p, id)
  }

  method MatchesAny(glob: (string, string) -> bool, patterns: seq<string>, id: string) returns (r: bool)
    ensures r <==> Excluded(glob, patterns, id)
  {
    for n := 0 to |patterns|
      invariant forall m :: 0 <= m < n ==> !glob(patterns[m], id)
    {
      if glob(patterns[n], id) { return true; }
    }
    return false;
  }

  /** The accepted keys with no VM behind them and no exclusion, in the order they were listed. */
  ghost function Stale(accepted: seq<string>, live: set<string>, spared: iset<string>): (r: seq<string>)
    ensures forall id :: id in r <==> id in accepted && id !in live && id !in spared
    ensures |r| <= |accepted|
  {
    if accepted == [] then []
    else
      var before, id := accepted[..|accepted| - 1], accepted[|accepted| - 1];
      assert accepted == before + [id];
      Stale(before, live, spared) + (if id !in live && id !in spared then [id] else [])
  }

  ghost function Spared(glob: (string, string) -> bool, patterns: seq<string>): iset<string> {
    iset id | Excluded(glob, patterns, id)
  }

  ghost predicate Reachable(g: Group, a: Answers) {
    a.login && a.accepted.Some? && Listed(g.namespaces, a.listing)
  }

  /** What the scavenger tries to delete. */
  ghost function Attempts(g: Group, a: Answers, dryRun: bool, spared: iset<string>): seq<string> {
    if dryRun || !Reachable(g, a) then [] else Stale(a.accepted.value, LiveIn(g.namespaces, a.listing), spared)
  }

  function Remaining(keys: Keys, attempts: seq<string>, deletes: string -> bool): Keys {
    map id | id in keys && !(id in attempts && deletes(id)) :: keys[id]
  }

  datatype Report = Report(excluded: nat, stale: nat, deleted: nat)

  function CountIn(accepted: seq<string>, live: set<string>): nat {
    if accepted == [] then 0
    else CountIn(accepted[..|accepted| - 1], live) + (if accepted[|accepted| - 1] in live then 1 else 0)
  }

  /** Every accepted key is counted once, as live, excluded or stale, and only stale keys are deleted. */
  ghost predicate Balanced(r: Report, accepted: seq<string>, live: set<string>, spared: iset<string>) {
    && CountIn(accepted, live) + r.excluded + r.stale == |accepted| && r.deleted <= r.stale
    && r.stale == |Stale(accepted, live, spared)|
  }

  lemma StaleSnoc(accepted: seq<string>, id: string, live: set<string>, spared: iset<string>)
    ensures Stale(accepted + [id], live, spared) ==
            Stale(accepted, live, spared) + (if id !in live && id !in spared then [id] else [])
    ensures CountIn(accepted + [id], live) == CountIn(accepted, live) + (if id in live then 1 else 0)
  {
    assert (accepted + [id])[..|accepted|] == accepted;
  }

  lemma RemainingSnoc(keys: Keys, attempts: seq<string>, id: string, deletes: string -> bool)
    ensures Remaining(keys, attempts + [id], deletes) ==
            if deletes(id) then Remaining(keys, attempts, deletes) - {id} else Remaining(keys, attempts, deletes)
  {
  }

  class Master {
    var keys: Keys
    var attempted: seq<string>

    constructor (keys: Keys)
      ensures this.keys == keys && attempted == []
    {
      this.keys, attempted := keys, [];
    }

    method DeleteKey(id: string, ok: bool)
      modifies this
      ensures attempted == old(attempted) + [id]
      ensures keys == if ok then old(keys) - {id} else old(keys)
    {
      attempted := attempted + [id];
      if ok { keys := keys - {id}; }
    }
  }

  /** None when a listing failed. */
  method CollectLive(namespaces: seq<string>, listing: string -> Option<seq<Vm>>) returns (r: Option<set<string>>)
    ensures r.Some? <==> Listed(namespaces, listing)
    ensures r.Some? ==> r.value == LiveIn(namespaces, listing)
  {
    var live: set<string> := {};
    for n := 0 to |namespaces|
      invariant forall m :: 0 <= m < n ==> listing(namespaces[m]).Some?
      invariant live == LiveIn(namespaces[..n], listing)
    {
      if listing(namespaces[n]).None? { return None; }
      var ids := LiveMinionIds(listing(namespaces[n]).value);
      assert namespaces[..n + 1] == namespaces[..n] + [namespaces[n]];
      live := live + ids;
    }
    assert namespaces[..|namespaces|] == namespaces;
    return Some(live);
  }

  lemma NothingYet(keys: Keys, live: set<string>, spared: iset<string>, deletes: string -> bool)
    ensures Remaining(keys, [], deletes) == keys && Stale([], live, spared) == [] && CountIn([], live) == 0
  {
  }

  /** The deletion loop, once the accepted keys and the live IDs are known. */
  method DeleteStale(master: Master, accepted: seq<string>, live: set<string>, deletes: string -> bool, dryRun: bool,
                     glob: (string, string) -> bool, patterns: seq<string>) returns (report: Report)
    requires master.attempted == []
    modifies master
    ensures master.attempted == if dryRun then [] else Stale(accepted, live, Spared(glob, patterns))
    ensures master.keys == Remaining(old(master.keys), master.attempted, deletes)
    ensures Balanced(report, accepted, live, Spared(glob, patterns))
  {
    hide Stale, Remaining, CountIn, Excluded;
    report := Report(0, 0, 0);
    ghost var spared := Spared(glob, patterns);
    NothingYet(master.keys, live, spared, deletes);
    for n := 0 to |accepted|
      invariant Balanced(report, accepted[..n], live, spared)
      invariant master.attempted == if dryRun then [] else Stale(accepted[..n], live, spared)
      invariant master.keys == Remaining(old(master.keys), master.attempted, deletes)
    {
      var id := accepted[n];
      assert accepted[..n + 1] == accepted[..n] + [id];
      StaleSnoc(accepted[..n], id, live, spared);
      RemainingSnoc(old(master.keys), master.attempted, id, deletes);
      if id in live { continue; }
      var spare := MatchesAny(glob, patterns, id);
      if spare {
        report := report.(excluded := report.excluded + 1);
        continue;
      }
      report := report.(stale := report.stale + 1);
      if dryRun { continue; }
      master.DeleteKey(id, deletes(id));
      if deletes(id) { report := report.(deleted := report.deleted + 1); }
    }
    assert accepted[..|accepted|] == accepted;
  }

  /** None when the group was skipped or had nothing to look at. */
  method ScavengeGroup(master: Master, g: Group, a: Answers, dryRun: bool, glob: (string, string) -> bool,
                       patterns: seq<string>)
    returns (ok: bool, report: Option<Report>)
    requires master.attempted == []
    modifies master
    ensures master.attempted == Attempts(g, a, dryRun, Spared(glob, patterns))
    ensures master.keys == Remaining(old(master.keys), master.attempted, a.deletes)
    ensures ok <==> a.login && a.accepted.Some?
    ensures report.Some? <==> Reachable(g, a) && a.accepted.value != []
    ensures report.Some? ==> Balanced(report.value, a.accepted.value, LiveIn(g.namespaces, a.listing),
            Spared(glob, patterns))
  {
    hide Stale, Remaining, Balanced, Spared, Listed, LiveIn;
    NothingYet(master.keys, LiveIn(g.namespaces, a.listing), Spared(glob, patterns), a.deletes);
    if !a.login || a.accepted.None? { return false, None; }
    var accepted := a.accepted.value;
    if |accepted| == 0 { return true, None; }
    var live := CollectLive(g.namespaces, a.listing);
    if live.None? { return true, None; }
    var r := DeleteStale(master, accepted, live.value, a.deletes, dryRun, glob, patterns);
    return true, Some(r);
  }

  /** Every group is dealt with on its own, whatever happens in the others and in whichever order
      they come. None is a failed listing of the configs; a URL without a master cannot be logged in to. */
  method Scavenge(configs: Option<seq<KeyConfig>>, masters: map<string, Master>, answers: string -> Answers,
                  dryRun: bool, glob: (string, string) -> bool, patterns: seq<string>)
    returns (ok: bool, ghost groups: map<string, Group>)
    requires forall u, v :: u in masters && v in masters && u != v ==> masters[u] != masters[v]
    requires forall u :: u in masters ==> masters[u].attempted == []
    modifies masters.Values
    ensures ok <==> configs.Some?
    ensures ok ==> Grouped(configs.value, groups)
    ensures forall u :: u in masters ==>
              masters[u].attempted ==
                if ok && u in groups then Attempts(groups[u], answers(u), dryRun, Spared(glob, patterns)) else []
    ensures forall u :: u in masters ==>
              masters[u].keys == Remaining(old(masters[u].keys), masters[u].attempted, answers(u).deletes)
  {
    hide Remaining, Attempts, Grouped, Spared;
    forall u | u in masters ensures Remaining(masters[u].keys, [], answers(u).deletes) == masters[u].keys {
      NothingYet(masters[u].keys, {}, iset{}, answers(u).deletes);
    }
    groups := map[];
    if configs.None? { return false, groups; }
    var gs := GroupConfigs(configs.value);
    groups := gs;
    var todo := gs.Keys;
    while todo != {}
      invariant todo <= gs.Keys
      invariant forall u :: u in masters ==>
                  masters[u].attempted ==
                    if u in gs && u !in todo then Attempts(gs[u], answers(u), dryRun, Spared(glob, patterns)) else []
      invariant forall u :: u in masters ==>
                  masters[u].keys == Remaining(old(masters[u].keys), masters[u].attempted, answers(u).deletes)
    {
      var url :| url in todo;
      if url in masters {
        assert masters[url] in masters.Values;
        NothingYet(old(masters[url].keys), {}, iset{}, answers(url).deletes);
        var _, _ := ScavengeGroup(masters[url], gs[url], answers(url), dryRun, glob, patterns);
      }
      todo := todo - {url};
    }
    return true, groups;
  }

  // ---------------------------------------------------------------- key ownership

  /** The lists are true: all accepted keys, and all VMs of each namespace that could be listed. */
  ghost predicate TrueAnswers(w: World, a: Answers) {
    && (a.accepted.Some? ==>
          forall id :: id in a.accepted.value <==> id in w.keys && w.keys[id].state == AcceptedKey)
    && (forall ns, vm :: a.listing(ns).Some? ==>
          (vm in a.listing(ns).value <==> exists k :: k in w.vms && k.ns == ns && w.vms[k] == vm))
  }

  /** The scavenger leaves this ID alone: a dry run, a group it skips, an ID that some VM in the
      group's namespaces records, an exclusion, or a deletion that fails. */
  ghost predicate Guarded(id: string, g: Group, a: Answers, dryRun: bool, spared: iset<string>) {
    dryRun || !Reachable(g, a) || id in LiveIn(g.namespaces, a.listing) || id in spared || !a.deletes(id)
  }

  ghost predicate AllGuarded(w: World, g: Group, a: Answers, dryRun: bool, spared: iset<string>) {
    forall k :: k in w.vms && Live(w.vms[k]) ==> Guarded(w.vms[k].marks.minionId, g, a, dryRun, spared)
  }

  ghost function Scavenged(w: World, g: Group, a: Answers, dryRun: bool, spared: iset<string>): World {
    w.(keys := Remaining(w.keys, Attempts(g, a, dryRun, spared), a.deletes))
  }

  lemma GuardedStays(w: World, g: Group, a: Answers, dryRun: bool, spared: iset<string>, k: Name)
    requires Inv(w) && TrueAnswers(w, a) && k in w.vms && Live(w.vms[k])
    ensures var id := w.vms[k].marks.minionId;
            var keys := Scavenged(w, g, a, dryRun, spared).keys;
            && id in w.keys && (Guarded(id, g, a, dryRun, spared) <==> id in keys)
            && (id in keys ==> keys[id] == w.keys[id])
  {
    hide Consistent, SecretFresh, LiveIn, Listed;
    assert VmOk(w, k);
  }

  /** A scavenge keeps key ownership, and is one of the things that may happen to the master in
      any run, exactly when every key a live VM records is guarded. */
  lemma ScavengeKeepsOwnershipIff(f: Foreign, w: World, g: Group, a: Answers, dryRun: bool, spared: iset<string>)
    requires Inv(w) && TrueAnswers(w, a)
    ensures var w' := Scavenged(w, g, a, dryRun, spared);
            && (Inv(w') <==> AllGuarded(w, g, a, dryRun, spared))
            && (Valid(f, w, Rekeys(w'.keys)) <==> AllGuarded(w, g, a, dryRun, spared))
  {
    hide Consistent, SecretFresh, Guarded, Remaining, Attempts, TrueAnswers;
    var w' := Scavenged(w, g, a, dryRun, spared);
    forall k | k in w.vms && Live(w.vms[k])
      ensures var id := w.vms[k].marks.minionId;
              && id in w.keys && (Guarded(id, g, a, dryRun, spared) <==> id in w'.keys)
              && (id in w'.keys ==> w'.keys[id] == w.keys[id])
    {
      GuardedStays(w, g, a, dryRun, spared, k);
    }
    if Inv(w') {
      forall k | k in w.vms && Live(w.vms[k]) ensures w.vms[k].marks.minionId in w'.keys { assert VmOk(w', k); }
    }
    if Valid(f, w, Rekeys(w'.keys)) { StepKeepsInv(f, w, Rekeys(w'.keys)); }
  }

  /** It is enough that every live VM is in one of the group's namespaces. */
  lemma CoveredIsGuarded(w: World, g: Group, a: Answers, dryRun: bool, spared: iset<string>)
    requires TrueAnswers(w, a) && forall k :: k in w.vms && Live(w.vms[k]) ==> k.ns in g.namespaces
    ensures AllGuarded(w, g, a, dryRun, spared)
  {
    forall k | k in w.vms && Live(w.vms[k]) ensures Guarded(w.vms[k].marks.minionId, g, a, dryRun, spared) {
      if Reachable(g, a) { assert a.listing(k.ns).Some? && w.vms[k] in a.listing(k.ns).value; }
    }
  }

  lemma OneReadyConfig(c: Connection)
    ensures Grouped([KeyConfig("a", true, Some(c)), KeyConfig("b", false, Some(c))], map[c.url := Group(c, ["a"])])
  {
    var x, y := KeyConfig("a", true, Some(c)), KeyConfig("b", false, Some(c));
    var none: map<string, Group> := map[];
    assert Grouped([], none);
    GroupedSnoc([], x, none, none[c.url := Group(c, [] + ["a"])]);
    assert [] + [x] == [x] && [] + ["a"] == ["a"] && none[c.url := Group(c, ["a"])] == map[c.url := Group(c, ["a"])];
    GroupedSnoc([x], y, map[c.url := Group(c, ["a"])], map[c.url := Group(c, ["a"])]);
    assert [x] + [y] == [x, y];
  }

  const LONE_MARKS: Marks :=
    NO_MARKS.(keyStatus := Accepted, minionId := "web", how := ByName, acceptedAt := Some(0))
  const LONE_VM: Vm :=
    Vm(Object("u", "web", map[], Seen(true, "", None, false), false, false), LONE_MARKS, true)
  const LONE_KEYS: Keys := map["web" := Key(AcceptedKey, KeyPair("", ""))]
  const LONE: World := World(map[Name("b", "web") := LONE_VM], LONE_KEYS, map[], 0, {"u"}, [])

  function LoneAnswers(): Answers {
    Answers(true, Some(["web"]), ns => Some(if ns == "b" then [LONE_VM] else []), id => true)
  }

  lemma LoneIsFine()
    ensures Inv(LONE)
  {
    assert VmOk(LONE, Name("b", "web"));
  }

  lemma LoneAnswersAreTrue()
    ensures TrueAnswers(LONE, LoneAnswers())
  {
    var a := LoneAnswers();
    forall ns, v | a.listing(ns).Some?
      ensures v in a.listing(ns).value <==> exists k :: k in LONE.vms && k.ns == ns && LONE.vms[k] == v
    {
      assert Name("b", "web") in LONE.vms && LONE.vms[Name("b", "web")] == LONE_VM;
    }
  }

  lemma LoneKeyGoes(c: Connection)
    ensures "web" in LONE.keys && "web" !in Scavenged(LONE, Group(c, ["a"]), LoneAnswers(), false, iset{}).keys
  {
    var g, a := Group(c, ["a"]), LoneAnswers();
    assert Listed(g.namespaces, a.listing) && "web" !in LiveIn(g.namespaces, a.listing);
    assert "web" in Attempts(g, a, false, iset{});
  }

  /** And it is not enough that the VM exists: two configs for one URL, the second of them not Ready,
      form one group, and a VM in the second namespace loses its key although it records it. */
  lemma OutsideTheGroup(c: Connection)
    ensures exists w, a, groups ::
              && Grouped([KeyConfig("a", true, Some(c)), KeyConfig("b", false, Some(c))], groups)
              && c.url in groups && Inv(w) && TrueAnswers(w, a)
              && Name("b", "web") in w.vms && Live(w.vms[Name("b", "web")]) && "web" in w.keys
              && "web" !in Scavenged(w, groups[c.url], a, false, iset{}).keys
  {
    hide Grouped, Inv, TrueAnswers, Scavenged, LoneAnswers;
    var groups := map[c.url := Group(c, ["a"])];
    OneReadyConfig(c);
    LoneIsFine();
    LoneAnswersAreTrue();
    LoneKeyGoes(c);
    assert Live(LONE.vms[Name("b", "web")]) && groups[c.url] == Group(c, ["a"]);
  }
}
