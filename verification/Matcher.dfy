/** Matching a virtual machine to one of the keys pending on the Salt master. */
module Matcher {
  import opened Text

  datatype Method = NoMethod | ByName | ByIP | ByShiftedIP | ByPrefix | ByPreseed

  datatype Match = Match(id: string, how: Method)

  /** What the keys are compared with: the VM's name, its address, and the address rotated. */
  datatype Target = Target(name: string, ip: string, shifted: string)

  function Map(f: char -> char, s: string): (r: string)
    ensures |r| == |s|
  {
    if s == "" then "" else [f(s[0])] + Map(f, s[1..])
  }

  // ---------------------------------------------------------------- rotating an address

  predicate Octet(p: string) {
    1 <= |p| <= 3 && Atoi(p).Some? && 0 <= Atoi(p).value <= 255
  }

  function Rotate(parts: seq<string>): string
    requires |parts| == 4
  {
    Join([parts[1], parts[2], parts[3], parts[0]], '.')
  }

  function Shift(ip: string): string {
    var parts := Split(ip, '.');
    if |parts| == 4 && forall p :: p in parts ==> Octet(p) then Rotate(parts) else ""
  }

  lemma JoinFour(a: string, b: string, c: string, d: string)
    ensures Join([a, b, c, d], '.') == a + "." + b + "." + c + "." + d
  {
    assert [a, b, c, d][1..] == [b, c, d] && [b, c, d][1..] == [c, d] && [c, d][1..] == [d];
    assert Join([c, d], '.') == c + "." + d;
    assert Join([b, c, d], '.') == b + "." + (c + "." + d) == b + "." + c + "." + d;
    assert a + "." + (b + "." + c + "." + d) == a + "." + b + "." + c + "." + d;
  }

  method ShiftFirstOctet(ip: string) returns (r: string)
    ensures r == Shift(ip)
  {
    if ip == "" { return ""; }
    var parts := Split(ip, '.');
    if |parts| != 4 { return ""; }
    for i := 0 to |parts|
      invariant forall j :: 0 <= j < i ==> Octet(parts[j])
    {
      var p := parts[i];
      assert p in parts;
      if |p| == 0 || |p| > 3 { return ""; }
      var n := Atoi(p);
      if n.None? || n.value < 0 || n.value > 255 { return ""; }
    }
    r := parts[1] + "." + parts[2] + "." + parts[3] + "." + parts[0];
    JoinFour(parts[1], parts[2], parts[3], parts[0]);
  }

  /** A dotted quad shifts to a dotted quad whose parts have moved one place. */
  lemma ShiftRotates(ip: string)
    requires Shift(ip) != ""
    ensures var p := Split(ip, '.');
            |p| == 4 && Split(Shift(ip), '.') == [p[1], p[2], p[3], p[0]] && Shift(Shift(ip)) != ""
  {
    var p := Split(ip, '.');
    JoinSplit(ip, '.');
    var q := [p[1], p[2], p[3], p[0]];
    assert forall x :: x in q ==> x in p;
    SplitJoin(q, '.');
    JoinFour(q[1], q[2], q[3], q[0]);
  }

  /** Four rotations give back the address they started from. */
  lemma FourShifts(ip: string)
    requires Shift(ip) != ""
    ensures Shift(Shift(Shift(Shift(ip)))) == ip
  {
    var a := Shift(ip);
    var b := Shift(a);
    var c := Shift(b);
    ShiftRotates(ip);
    ShiftRotates(a);
    ShiftRotates(b);
    ShiftRotates(c);
    assert Split(Shift(c), '.') == Split(ip, '.');
    JoinSplit(ip, '.');
    JoinSplit(Shift(c), '.');
  }

  // ---------------------------------------------------------------- the rules

  predicate NameRule(g: Foreign, t: Target, key: string) {
    Map(g.fold, key) == Map(g.fold, t.name)
  }

  predicate AddressRule(t: Target, key: string) {
    (t.ip != "" && key == t.ip) || (t.shifted != "" && key == t.shifted)
  }

  predicate PrefixRule(g: Foreign, t: Target, key: string) {
    t.name != "" && HasPrefix(Map(g.lower, key), Map(g.lower, t.name) + ".")
  }

  /** Rule `how` holds of `key`. */
  predicate Satisfies(g: Foreign, t: Target, key: string, how: Method) {
    match how
    case ByName => NameRule(g, t, key)
    case ByIP => t.ip != "" && key == t.ip
    case ByShiftedIP => t.shifted != "" && key == t.shifted
    case ByPrefix => PrefixRule(g, t, key)
    case _ => false
  }

  /** Name first, then either form of the address, then the FQDN prefix. */
  function Tier(how: Method): nat {
    match how
    case ByName => 0
    case ByIP => 1
    case ByShiftedIP => 1
    case ByPrefix => 2
    case _ => 3
  }

  // ---------------------------------------------------------------- the tiered search

  /** `m` is key number `i`, it satisfies the rule it is labelled with, and every other key that
      satisfies a rule is in a lower tier or comes later. */
  ghost predicate BestAt(g: Foreign, t: Target, keys: seq<string>, m: Match, i: int)
    requires 0 <= i < |keys|
  {
    && m.id == keys[i]
    && Satisfies(g, t, keys[i], m.how)
    && (m.how == ByShiftedIP ==> !Satisfies(g, t, keys[i], ByIP))
    && (forall j, how :: 0 <= j < |keys| && Satisfies(g, t, keys[j], how) ==>
          Tier(m.how) < Tier(how) || (Tier(m.how) == Tier(how) && i <= j))
  }

  ghost predicate NoneMatches(g: Foreign, t: Target, keys: seq<string>) {
    forall i, how :: 0 <= i < |keys| ==> !Satisfies(g, t, keys[i], how)
  }

  /** The earliest key of the highest non-empty tier, or nothing when no key satisfies any rule. */
  ghost predicate IsMatch(g: Foreign, t: Target, keys: seq<string>, m: Match) {
    if NoneMatches(g, t, keys) then m == Match("", NoMethod)
    else exists i :: 0 <= i < |keys| && BestAt(g, t, keys, m, i)
  }

  /** The tiered specification has at most one answer. */
  lemma MatchIsUnique(g: Foreign, t: Target, keys: seq<string>, a: Match, b: Match)
    requires IsMatch(g, t, keys, a) && IsMatch(g, t, keys, b)
    ensures a == b
  {
    if !NoneMatches(g, t, keys) {
      var i :| 0 <= i < |keys| && BestAt(g, t, keys, a, i);
      var j :| 0 <= j < |keys| && BestAt(g, t, keys, b, j);
      assert Satisfies(g, t, keys[i], a.how) && Satisfies(g, t, keys[j], b.how);
      assert Tier(a.how) == Tier(b.how);
      assert i == j;
    }
  }

  /** Three loops: each scans every pending key before the next rule is tried. */
  method FindMinionID(g: Foreign, vmName: string, vmIP: string, keys: seq<string>) returns (m: Match)
    ensures IsMatch(g, Target(vmName, vmIP, Shift(vmIP)), keys, m)
  {
    var shifted := ShiftFirstOctet(vmIP);
    var t := Target(vmName, vmIP, shifted);
    for i := 0 to |keys|
      invariant forall j :: 0 <= j < i ==> !NameRule(g, t, keys[j])
    {
      if NameRule(g, t, keys[i]) {
        m := Match(keys[i], ByName);
        assert BestAt(g, t, keys, m, i);
        return;
      }
    }
    for i := 0 to |keys|
      invariant forall j :: 0 <= j < i ==> !AddressRule(t, keys[j])
    {
      if vmIP != "" && keys[i] == vmIP {
        m := Match(keys[i], ByIP);
        assert BestAt(g, t, keys, m, i);
        return;
      }
      if shifted != "" && keys[i] == shifted {
        m := Match(keys[i], ByShiftedIP);
        assert BestAt(g, t, keys, m, i);
        return;
      }
    }
    for i := 0 to |keys|
      invariant forall j :: 0 <= j < i ==> !PrefixRule(g, t, keys[j])
    {
      if PrefixRule(g, t, keys[i]) {
        m := Match(keys[i], ByPrefix);
        assert BestAt(g, t, keys, m, i);
        return;
      }
    }
    m := Match("", NoMethod);
  }

  // ---------------------------------------------------------------- the search as a function

  /** The position of the first key that satisfies `p`, or |keys| when none does. */
  function First(keys: seq<string>, p: string -> bool): (n: nat)
    ensures n <= |keys|
    ensures n < |keys| ==> p(keys[n])
    ensures forall j :: 0 <= j < n ==> !p(keys[j])
  {
    if keys == [] || p(keys[0]) then 0
    else
      var n := First(keys[1..], p);
      assert forall j :: 0 < j < n + 1 ==> keys[j] == keys[1..][j - 1];
      n + 1
  }

  function Search(g: Foreign, t: Target, keys: seq<string>): Match {
    var named := First(keys, k => NameRule(g, t, k));
    var addressed := First(keys, k => AddressRule(t, k));
    var prefixed := First(keys, k => PrefixRule(g, t, k));
    if named < |keys| then Match(keys[named], ByName)
    else if addressed < |keys| then
      Match(keys[addressed], if keys[addressed] == t.ip && t.ip != "" then ByIP else ByShiftedIP)
    else if prefixed < |keys| then Match(keys[prefixed], ByPrefix)
    else Match("", NoMethod)
  }

  function FindMinion(g: Foreign, vmName: string, vmIP: string, keys: seq<string>): Match {
    Search(g, Target(vmName, vmIP, Shift(vmIP)), keys)
  }

  /** The function computes the tiered specification. */
  lemma SearchIsMatch(g: Foreign, t: Target, keys: seq<string>)
    ensures IsMatch(g, t, keys, Search(g, t, keys))
  {
    var m := Search(g, t, keys);
    var named := First(keys, k => NameRule(g, t, k));
    var addressed := First(keys, k => AddressRule(t, k));
    var prefixed := First(keys, k => PrefixRule(g, t, k));
    assert named == |keys| ==> forall j :: 0 <= j < |keys| ==> !NameRule(g, t, keys[j]);
    assert addressed == |keys| ==> forall j :: 0 <= j < |keys| ==> !AddressRule(t, keys[j]);
    if named < |keys| {
      assert BestAt(g, t, keys, m, named);
    } else if addressed < |keys| {
      assert BestAt(g, t, keys, m, addressed);
    } else if prefixed < |keys| {
      assert BestAt(g, t, keys, m, prefixed);
    }
  }

  /** A match is one of the listed keys and is never the empty identifier. */
  lemma MatchIsListed(g: Foreign, vmName: string, vmIP: string, keys: seq<string>)
    requires vmName != ""
    ensures var m := FindMinion(g, vmName, vmIP, keys);
            m.how != ByPreseed && (m.how != NoMethod ==> m.id in keys && m.id != "")
  {
    var t := Target(vmName, vmIP, Shift(vmIP));
    var m := Search(g, t, keys);
    SearchIsMatch(g, t, keys);
    if m.how == ByName { assert |Map(g.fold, m.id)| == |Map(g.fold, vmName)|; }
    if m.how == ByPrefix { assert |Map(g.lower, m.id)| >= |Map(g.lower, vmName) + "."|; }
  }

  /** The address tier is one loop, so the plain address does not outrank the rotated one: the
      key that comes first in the listing wins, whichever of the two it is. */
  lemma ShiftedMayOutrankIP(g: Foreign, t: Target)
    requires t.ip != "" && t.shifted != "" && t.ip != t.shifted
    requires !NameRule(g, t, t.ip) && !NameRule(g, t, t.shifted)
    ensures Search(g, t, [t.shifted, t.ip]) == Match(t.shifted, ByShiftedIP)
    ensures Search(g, t, [t.ip, t.shifted]) == Match(t.ip, ByIP)
  {
    var a, b := [t.shifted, t.ip], [t.ip, t.shifted];
    SearchIsMatch(g, t, a);
    SearchIsMatch(g, t, b);
    assert BestAt(g, t, a, Match(t.shifted, ByShiftedIP), 0);
    assert BestAt(g, t, b, Match(t.ip, ByIP), 0);
    MatchIsUnique(g, t, a, Search(g, t, a), Match(t.shifted, ByShiftedIP));
    MatchIsUnique(g, t, b, Search(g, t, b), Match(t.ip, ByIP));
  }

  /** The four strategies strictly in the order the documentation lists them. */
  function Documented(g: Foreign, t: Target, keys: seq<string>): Match {
    var named := First(keys, k => NameRule(g, t, k));
    var addressed := First(keys, k => t.ip != "" && k == t.ip);
    var shifted := First(keys, k => t.shifted != "" && k == t.shifted);
    var prefixed := First(keys, k => PrefixRule(g, t, k));
    if named < |keys| then Match(keys[named], ByName)
    else if addressed < |keys| then Match(keys[addressed], ByIP)
    else if shifted < |keys| then Match(keys[shifted], ByShiftedIP)
    else if prefixed < |keys| then Match(keys[prefixed], ByPrefix)
    else Match("", NoMethod)
  }

  /** No key has the VM's name, and the rotated address is listed before the plain one. */
  ghost predicate Overtaken(g: Foreign, t: Target, keys: seq<string>) {
    && (forall k :: k in keys ==> !NameRule(g, t, k))
    && t.ip != "" && t.shifted != "" && t.ip != t.shifted
    && exists i, j :: 0 <= i < j < |keys| && keys[i] == t.shifted && keys[j] == t.ip && t.ip !in keys[..j]
  }

  /** The code keeps the documented order exactly when that does not happen. */
  lemma DocumentedOrderIff(g: Foreign, t: Target, keys: seq<string>)
    ensures Search(g, t, keys) == Documented(g, t, keys) <==> !Overtaken(g, t, keys)
  {
    var addressed := First(keys, k => AddressRule(t, k));
    var plain := First(keys, k => t.ip != "" && k == t.ip);
    var shifted := First(keys, k => t.shifted != "" && k == t.shifted);
    assert addressed < |keys| ==> addressed == plain || addressed == shifted;
    if addressed < |keys| && addressed == shifted < plain < |keys| {
      assert t.ip !in keys[..plain];
      assert keys[shifted] == t.shifted && keys[plain] == t.ip;
    }
  }
}
