/** Enrolment: a namespace that matches and has no SaltKeyConfig of its own gets one from the operator. */
module Enrolment {
  import opened Text
  import opened World

  const ENROLLED_NAME: string := "salt-config"
  const DISCOVERY: string := "discovery"

  /** `selector` is None when there is none or it is empty, which selects nothing. */
  datatype Enrolment = Enrolment(
    namespaces: seq<string>,
    all: bool,
    selector: Option<map<string, string> -> bool>,
    excluded: seq<string>,
    acceptance: string)

  datatype Namespace = Namespace(name: string, labels: map<string, string>, deleting: bool)

  /** `labelled` marks the operator's own; `rest` is the rest of the spec. */
  datatype KeyConfig = KeyConfig(name: string, labelled: bool, acceptance: string, rest: string)

  // ---------------------------------------------------------------- which namespaces

  predicate IsExcluded(e: Enrolment, name: string) {
    exists p :: p in e.excluded && p != "" && HasPrefix(name, p)
  }

  predicate Enrols(e: Enrolment, ns: Namespace) {
    !IsExcluded(e, ns.name) && (ns.name in e.namespaces || e.all || (e.selector.Some? && e.selector.value(ns.labels)))
  }

  method Matches(e: Enrolment, ns: Namespace) returns (r: bool)
    ensures r <==> Enrols(e, ns)
  {
    for n := 0 to |e.excluded|
      invariant forall m :: 0 <= m < n ==> e.excluded[m] == "" || !HasPrefix(ns.name, e.excluded[m])
    {
      if e.excluded[n] != "" && HasPrefix(ns.name, e.excluded[n]) { return false; }
    }
    if ns.name in e.namespaces || e.all { return true; }
    return e.selector.Some? && e.selector.value(ns.labels);
  }

  // ---------------------------------------------------------------- one reconcile

  /** The configs the operator did not create, in their order. */
  function Team(cs: seq<KeyConfig>): seq<KeyConfig> {
    if cs == [] then [] else (if cs[0].labelled then [] else [cs[0]]) + Team(cs[1..])
  }

  function Own(cs: seq<KeyConfig>): seq<KeyConfig> {
    if cs == [] then [] else (if cs[0].labelled then [cs[0]] else []) + Own(cs[1..])
  }

  /** Position of the last config of the operator's, or the length. */
  function LastOwn(cs: seq<KeyConfig>): (j: nat)
    ensures j <= |cs|
    ensures j < |cs| ==> cs[j].labelled && forall m :: j < m < |cs| ==> !cs[m].labelled
    ensures j == |cs| ==> forall m :: 0 <= m < |cs| ==> !cs[m].labelled
  {
    if cs == [] then 0
    else
      var j := LastOwn(cs[1..]);
      if j < |cs| - 1 then j + 1 else if cs[0].labelled then 0 else |cs|
  }

  function RemoveAt(cs: seq<KeyConfig>, j: nat): seq<KeyConfig>
    requires j < |cs|
  {
    cs[..j] + cs[j + 1..]
  }

  /** The API server fills in the default. */
  function Created(acceptance: string): KeyConfig {
    KeyConfig(ENROLLED_NAME, true, if acceptance == "" then DISCOVERY else acceptance, "")
  }

  predicate Settles(e: Enrolment, c: KeyConfig) {
    e.acceptance == "" || c.acceptance == e.acceptance
  }

  /** The namespace's configs after one reconcile whose calls all succeed. */
  function Reconciled(e: Enrolment, ns: Namespace, cs: seq<KeyConfig>): seq<KeyConfig> {
    var j := LastOwn(cs);
    if ns.deleting then cs
    else if !Enrols(e, ns) then if j < |cs| then RemoveAt(cs, j) else cs
    else if j < |cs| && |cs| > 1 then RemoveAt(cs, j)
    else if j < |cs| then if Settles(e, cs[j]) then cs else cs[j := cs[j].(acceptance := e.acceptance)]
    else if cs == [] then [Created(e.acceptance)]
    else cs
  }

  lemma {:induction false} LastOwnSnoc(cs: seq<KeyConfig>, c: KeyConfig)
    ensures LastOwn(cs + [c]) == if c.labelled then |cs| else if LastOwn(cs) < |cs| then LastOwn(cs) else |cs| + 1
  {
    if cs == [] {
      assert ([] + [c])[1..] == [];
    } else {
      assert (cs + [c])[1..] == cs[1..] + [c];
      LastOwnSnoc(cs[1..], c);
    }
  }

  /** Looking the namespace up: found, gone, or an error. */
  datatype Lookup = Found(ns: Namespace) | Gone | Failed

  /** What the one write of a reconcile meets: it lands, it is refused, or somebody was faster. Then
      the config to delete is gone already, or `other` has the name of the one to create. */
  datatype Write = Landed | Refused | Overtaken(other: KeyConfig)

  /** The namespace's configs after a write that is `w`. */
  function Written(e: Enrolment, ns: Namespace, cs: seq<KeyConfig>, w: Write): seq<KeyConfig> {
    match w
    case Landed => Reconciled(e, ns, cs)
    case Refused => cs
    case Overtaken(other) =>
      if |Reconciled(e, ns, cs)| < |cs| then Reconciled(e, ns, cs)
      else if Reconciled(e, ns, cs) != cs && cs == [] then [other]
      else cs
  }

  /** Somebody else's deletion or creation does as well, somebody else's change does not. */
  predicate Succeeds(e: Enrolment, ns: Namespace, cs: seq<KeyConfig>, w: Write) {
    Reconciled(e, ns, cs) == cs || w.Landed? || (w.Overtaken? && |Reconciled(e, ns, cs)| != |cs|)
  }

  /** One namespace as the API server holds it. */
  class EnrolmentReconciler {
    const enrolment: Enrolment
    var configs: seq<KeyConfig>

    constructor (e: Enrolment, cs: seq<KeyConfig>)
      ensures enrolment == e && configs == cs
    {
      enrolment, configs := e, cs;
    }

    /** `listed` says whether the configs could be listed. */
    method Reconcile(looked: Lookup, listed: bool, w: Write) returns (ok: bool)
      modifies this
      ensures configs ==
              if looked.Found? && listed then Written(enrolment, looked.ns, old(configs), w) else old(configs)
      ensures ok <==>
              match looked
              case Gone => true
              case Failed => false
              case Found(ns) => ns.deleting || (listed && Succeeds(enrolment, ns, old(configs), w))
    {
      if looked.Failed? { return false; }
      if looked.Gone? || looked.ns.deleting { return true; }
      if !listed { return false; }
      var items := configs;
      var own := |items|;
      for n := 0 to |items|
        invariant configs == items
        invariant own == if LastOwn(items[..n]) < n then LastOwn(items[..n]) else |items|
      {
        assert items[..n + 1] == items[..n] + [items[n]];
        LastOwnSnoc(items[..n], items[n]);
        if items[n].labelled { own := n; }
      }
      assert items[..|items|] == items;
      var matches := Matches(enrolment, looked.ns);
      if !matches {
        if own < |configs| {
          if w.Refused? { return false; }
          configs := configs[..own] + configs[own + 1..];
        }
        return true;
      }
      if own < |configs| && |configs| > 1 {
        if w.Refused? { return false; }
        configs := configs[..own] + configs[own + 1..];
        return true;
      }
      if own < |configs| {
        if enrolment.acceptance != "" && configs[own].acceptance != enrolment.acceptance {
          assert configs[own := configs[own].(acceptance := enrolment.acceptance)][own] != configs[own];
          if !w.Landed? { return false; }
          configs := configs[own := configs[own].(acceptance := enrolment.acceptance)];
        }
        return true;
      }
      if |configs| > 0 { return true; }
      match w {
        case Landed => configs := [Created(enrolment.acceptance)];
        case Refused => return false;
        case Overtaken(other) => configs := [other];
      }
      return true;
    }
  }

  // ---------------------------------------------------------------- team configs are left alone

  lemma {:induction false} RemoveOwn(cs: seq<KeyConfig>, j: nat)
    requires j < |cs| && cs[j].labelled
    ensures Team(RemoveAt(cs, j)) == Team(cs)
    ensures |Own(RemoveAt(cs, j))| == |Own(cs)| - 1
  {
    if j == 0 {
      assert RemoveAt(cs, 0) == cs[1..];
    } else {
      assert RemoveAt(cs, j)[1..] == RemoveAt(cs[1..], j - 1);
      RemoveOwn(cs[1..], j - 1);
    }
  }

  lemma {:induction false} SplitSizes(cs: seq<KeyConfig>)
    ensures |Team(cs)| + |Own(cs)| == |cs|
    ensures Own(cs) == [] <==> LastOwn(cs) == |cs|
    ensures Team(cs) == [] ==> forall c :: c in cs ==> c.labelled
  {
    if cs != [] { SplitSizes(cs[1..]); }
  }

  /** No reconcile, under any settings, deletes, changes, adds or reorders a team's config. */
  lemma TeamIsKept(e: Enrolment, ns: Namespace, cs: seq<KeyConfig>)
    ensures Team(Reconciled(e, ns, cs)) == Team(cs)
  {
    var j := LastOwn(cs);
    if j < |cs| {
      RemoveOwn(cs, j);
      if |cs| == 1 { assert cs == [cs[0]] && cs[j := cs[j].(acceptance := e.acceptance)][1..] == []; }
    }
  }

  // ---------------------------------------------------------------- convergence

  /** The operator should provide this namespace's config. */
  predicate Wanted(e: Enrolment, ns: Namespace, cs: seq<KeyConfig>) {
    Enrols(e, ns) && Team(cs) == []
  }

  /** Exactly one operator config where one is wanted, none elsewhere. */
  predicate Goal(e: Enrolment, ns: Namespace, cs: seq<KeyConfig>) {
    if Wanted(e, ns, cs) then |cs| == 1 && cs[0].labelled && Settles(e, cs[0]) else Own(cs) == []
  }

  /** How many reconciles are still needed: the first of the operator's configs survives. */
  function Distance(e: Enrolment, ns: Namespace, cs: seq<KeyConfig>): nat {
    if !Wanted(e, ns, cs) then |Own(cs)|
    else if cs == [] then 1
    else |cs| - 1 + (if Settles(e, cs[0]) then 0 else 1)
  }

  lemma GoalIsDistanceZero(e: Enrolment, ns: Namespace, cs: seq<KeyConfig>)
    ensures Goal(e, ns, cs) <==> Distance(e, ns, cs) == 0
  {
    SplitSizes(cs);
    if Wanted(e, ns, cs) && |cs| == 1 { assert cs[0] in cs; }
  }

  /** Every reconcile of a live namespace gets one step closer, and the goal is where it stays. */
  lemma OneStepCloser(e: Enrolment, ns: Namespace, cs: seq<KeyConfig>)
    requires !ns.deleting
    ensures var d := Distance(e, ns, cs);
            && Distance(e, ns, Reconciled(e, ns, cs)) == (if d == 0 then 0 else d - 1)
            && (d == 0 <==> Reconciled(e, ns, cs) == cs)
  {
    TeamIsKept(e, ns, cs);
    SplitSizes(cs);
    GoalIsDistanceZero(e, ns, cs);
    var j := LastOwn(cs);
    if j < |cs| {
      RemoveOwn(cs, j);
      if Team(cs) == [] { assert cs[|cs| - 1] in cs && j == |cs| - 1; }
      if |cs| == 1 { assert cs[j := cs[j].(acceptance := e.acceptance)][0].acceptance == e.acceptance; }
    }
  }

  /** A run of reconciles, some of which fail on a call and change nothing. */
  function Repeated(e: Enrolment, ns: Namespace, cs: seq<KeyConfig>, succeeds: seq<bool>): seq<KeyConfig>
    decreases |succeeds|
  {
    if succeeds == [] then cs
    else Repeated(e, ns, if succeeds[0] then Reconciled(e, ns, cs) else cs, succeeds[1..])
  }

  function Successes(succeeds: seq<bool>): nat {
    if succeeds == [] then 0 else (if succeeds[0] then 1 else 0) + Successes(succeeds[1..])
  }

  /** Enrolment converges from any set of configs: the goal is reached with exactly the Distance-th
      reconcile that succeeds and kept from then on, the team's configs as they were all along. */
  lemma {:induction false} EnrolmentConverges(e: Enrolment, ns: Namespace, cs: seq<KeyConfig>, succeeds: seq<bool>)
    requires !ns.deleting
    ensures Goal(e, ns, Repeated(e, ns, cs, succeeds)) <==> Successes(succeeds) >= Distance(e, ns, cs)
    ensures Team(Repeated(e, ns, cs, succeeds)) == Team(cs)
    decreases |succeeds|
  {
    hide Reconciled, Distance, Goal;
    if succeeds == [] {
      GoalIsDistanceZero(e, ns, cs);
    } else {
      OneStepCloser(e, ns, cs);
      TeamIsKept(e, ns, cs);
      EnrolmentConverges(e, ns, if succeeds[0] then Reconciled(e, ns, cs) else cs, succeeds[1..]);
    }
  }

  // ---------------------------------------------------------------- release

  function NamesIn(listed: seq<Name>): set<Name> {
    set k | k in listed
  }

  lemma NoNames(listed: seq<Name>)
    ensures NamesIn(listed[..0]) == {}
  {
  }

  lemma NamesSnoc(keys: set<Name>, listed: seq<Name>, m: nat)
    requires m < |listed|
    ensures NamesIn(listed[..m + 1]) == NamesIn(listed[..m]) + {listed[m]}
    ensures var before := NamesIn(listed[..m]);
            |keys * (before + {listed[m]})| == |keys * before| + (if listed[m] in keys - before then 1 else 0)
  {
    assert listed[..m + 1] == listed[..m] + [listed[m]];
    var before := NamesIn(listed[..m]);
    if listed[m] in keys - before {
      assert keys * (before + {listed[m]}) == keys * before + {listed[m]};
    } else {
      assert keys * (before + {listed[m]}) == keys * before;
    }
  }

  /** What a true and complete listing gives. */
  lemma Released(was: map<Name, KeyConfig>, listed: seq<Name>, n: nat)
    requires n <= |listed|
    ensures (forall k :: k in listed && k in was ==> was[k].labelled) ==>
              forall k :: k in was && !was[k].labelled ==> k in was - NamesIn(listed[..n])
    ensures n == |listed| && (forall k :: k in was && was[k].labelled ==> k in listed) ==>
              forall k :: k in was - NamesIn(listed[..n]) ==> !was[k].labelled
  {
    if n == |listed| { assert listed[..n] == listed; }
  }

  /** The loop passes the first `n` names and stops at the next, if there is one. */
  predicate Passed(listed: seq<Name>, refused: Name -> bool, n: nat) {
    n <= |listed| && (forall m :: 0 <= m < n ==> !refused(listed[m])) && (n < |listed| ==> refused(listed[n]))
  }

  /** The SaltKeyConfigs of all namespaces. */
  class Cluster {
    var configs: map<Name, KeyConfig>

    constructor (cs: map<Name, KeyConfig>)
      ensures configs == cs
    {
      configs := cs;
    }

    /** `listed` is what the listing by label gave, None when it failed. The configs may be others by
        now: a name that is not found any more is passed over, and a deletion goes by name. Stops at
        the first refusal. An unlabelled config is touched exactly when it has one of the names
        passed, so never while the listing is still true. */
    method ReleaseEnrolled(listed: Option<seq<Name>>, refused: Name -> bool)
      returns (deleted: nat, ok: bool, ghost n: nat)
      modifies this
      ensures listed.None? ==> !ok && deleted == 0 && configs == old(configs)
      ensures listed.Some? ==> Passed(listed.value, refused, n) && (ok <==> n == |listed.value|)
      ensures listed.Some? ==> configs == old(configs) - NamesIn(listed.value[..n])
      ensures listed.Some? ==> deleted == |old(configs).Keys * NamesIn(listed.value[..n])|
      ensures listed.Some? && (forall k :: k in listed.value && k in old(configs) ==> old(configs)[k].labelled) ==>
                forall k :: k in old(configs) && !old(configs)[k].labelled ==>
                    k in configs && configs[k] == old(configs)[k]
      ensures ok && (forall k :: k in old(configs) && old(configs)[k].labelled ==> k in listed.value) ==>
                forall k :: k in configs ==> !configs[k].labelled
    {
      hide NamesIn;
      deleted, n := 0, 0;
      if listed.None? { return 0, false, 0; }
      var items := listed.value;
      ghost var was := configs;
      assert NamesIn(items[..0]) == {} by { NoNames(items); }
      assert was.Keys * {} == {};
      for m := 0 to |items|
        invariant forall j :: 0 <= j < m ==> !refused(items[j])
        invariant configs == was - NamesIn(items[..m]) && deleted == |was.Keys * NamesIn(items[..m])|
      {
        Released(was, items, m);
        if refused(items[m]) { return deleted, false, m; }
        NamesSnoc(was.Keys, items, m);
        if items[m] !in configs { continue; }
        configs := configs - {items[m]};
        deleted := deleted + 1;
      }
      Released(was, items, |items|);
      return deleted, true, |items|;
    }
  }
}
