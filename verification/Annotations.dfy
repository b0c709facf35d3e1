/** The operator's marks as the annotations it patches onto the VM. */
module Annotations {
  import opened Text
  import opened Matcher
  import opened Model
  import opened Intent

  function KeyStatusText(k: KeyStatus): string {
    match k
    case NoKey => ""
    case Preseeded => "Preseeded"
    case Accepted => "Accepted"
    case KeyFailed => "Failed"
    case KeyDeleted => "Deleted"
    case DeleteFailed => "DeleteFailed"
  }

  function MethodText(h: Method): string {
    match h
    case NoMethod => ""
    case ByName => "name"
    case ByIP => "ip"
    case ByShiftedIP => "shifted-ip"
    case ByPrefix => "prefix"
    case ByPreseed => "preseed"
  }

  function SaltStatusText(s: SaltStatus): string {
    match s
    case Unstarted => ""
    case Pinged => "Pinged"
    case PillarRefreshed => "PillarRefreshed"
    case HighstateDispatched => "HighstateDispatched"
    case Ready => "Ready"
    case Failed(PingStep) => "Failed/Ping"
    case Failed(RefreshStep) => "Failed/PillarRefresh"
    case Failed(DispatchStep) => "Failed/HighstateDispatch"
    case Failed(HighstateStep) => "Failed/Highstate"
  }

  function FlagText(f: Flag): string {
    match f
    case Unset => ""
    case True => "true"
    case False => "false"
  }

  function HighstateText(h: Highstate): string {
    match h
    case NoHighstate => ""
    case InProgress => "InProgress"
    case Succeeded => "Success"
    case HighstateFailed => "Failed"
  }

  function TimeText(g: Foreign, t: Option<int>): string {
    if t.None? then "" else g.timestamp(t.value)
  }

  /** The annotations the operator writes, in a fixed order. */
  const KEYS: seq<string> := [
    KEY_STATUS, MINION_ID, MATCH_METHOD, ACCEPTED_AT, KEY_CLEARED, SALT_STATUS, READY, HIGHSTATE_JID, HIGHSTATE_STATUS,
    HIGHSTATE_TIME, ROLES_HASH, RETRY_HANDLED, BULK_HANDLED, FAILED_COUNT, FAILED_STATES]

  /** Their values; an empty one is not set. */
  function Values(g: Foreign, m: Marks): (vs: seq<string>)
    ensures |vs| == |KEYS|
  {
    [KeyStatusText(m.keyStatus), m.minionId, MethodText(m.how), TimeText(g, m.acceptedAt),
     if m.keyCleared then "true" else "", SaltStatusText(m.saltStatus), FlagText(m.ready), m.jid,
     HighstateText(m.highstate), TimeText(g, m.highstateTime), m.rolesHash, m.retryHandled, m.bulkHandled,
     if m.highstateTime.Some? then g.decimal(|m.failedStates|) else "",
     if m.failedStates == [] then "" else Join(m.failedStates, ',')]
  }

  function Assigned(ks: seq<string>, vs: seq<string>): (r: map<string, string>)
    requires |ks| == |vs|
    ensures forall k :: k in r ==> k in ks
  {
    if ks == [] then map[]
    else
      var rest := Assigned(ks[1..], vs[1..]);
      if vs[0] == "" then rest else rest[ks[0] := vs[0]]
  }

  lemma KeysAreOperators()
    ensures forall k :: k in KEYS ==> k in OPERATOR_KEYS
  {
  }

  /** The operator writes no annotation but its own. */
  function Render(g: Foreign, m: Marks): (r: map<string, string>)
    ensures r.Keys <= OPERATOR_KEYS
  {
    KeysAreOperators();
    Assigned(KEYS, Values(g, m))
  }

  /** All annotations of the VM. */
  function AnnotationsOf(g: Foreign, o: Object, m: Marks): map<string, string> {
    o.tenant + Render(g, m)
  }

  /** So the hash of all annotations is the hash of the tenant's. */
  lemma HashIgnoresMarks(g: Foreign, o: Object, m: Marks)
    ensures IntentHash(g, AnnotationsOf(g, o, m)) == IntentHash(g, o.tenant)
  {
    hide Render, IsIntentKey;
    OperatorWritesKeepIntent(o.tenant, Render(g, m));
  }

  // ---------------------------------------------------------------- reading them back

  function ReadKeyStatus(t: string): KeyStatus {
    if t == "Preseeded" then Preseeded
    else if t == "Accepted" then Accepted
    else if t == "Failed" then KeyFailed
    else if t == "Deleted" then KeyDeleted
    else if t == "DeleteFailed" then DeleteFailed
    else NoKey
  }

  function ReadMethod(t: string): Method {
    if t == "name" then ByName
    else if t == "ip" then ByIP
    else if t == "shifted-ip" then ByShiftedIP
    else if t == "prefix" then ByPrefix
    else if t == "preseed" then ByPreseed
    else NoMethod
  }

  function ReadSaltStatus(t: string): SaltStatus {
    if t == "Pinged" then Pinged
    else if t == "PillarRefreshed" then PillarRefreshed
    else if t == "HighstateDispatched" then HighstateDispatched
    else if t == "Ready" then Ready
    else if t == "Failed/Ping" then Failed(PingStep)
    else if t == "Failed/PillarRefresh" then Failed(RefreshStep)
    else if t == "Failed/HighstateDispatch" then Failed(DispatchStep)
    else if t == "Failed/Highstate" then Failed(HighstateStep)
    else Unstarted
  }

  function ReadFlag(t: string): Flag {
    if t == "true" then True else if t == "false" then False else Unset
  }

  function ReadHighstate(t: string): Highstate {
    if t == "InProgress" then InProgress
    else if t == "Success" then Succeeded
    else if t == "Failed" then HighstateFailed
    else NoHighstate
  }

  /** What a reconcile finds in the annotations. It never reads the list of failed states. */
  function Read(parse: string -> Option<int>, a: map<string, string>): Marks {
    Marks(ReadKeyStatus(Get(a, KEY_STATUS)), Get(a, MINION_ID), ReadMethod(Get(a, MATCH_METHOD)),
          parse(Get(a, ACCEPTED_AT)), Get(a, KEY_CLEARED) == "true", ReadSaltStatus(Get(a, SALT_STATUS)),
          ReadFlag(Get(a, READY)), Get(a, HIGHSTATE_JID), ReadHighstate(Get(a, HIGHSTATE_STATUS)),
          parse(Get(a, HIGHSTATE_TIME)), [], Get(a, ROLES_HASH), Get(a, RETRY_HANDLED), Get(a, BULK_HANDLED))
  }

  lemma KeyStatusReadsBack(k: KeyStatus)
    ensures ReadKeyStatus(KeyStatusText(k)) == k
  {
    assert |"Preseeded"| == 9 && |"Accepted"| == 8 && |"Failed"| == 6 && |"Deleted"| == 7 && |"DeleteFailed"| == 12;
  }

  lemma MethodReadsBack(h: Method)
    ensures ReadMethod(MethodText(h)) == h
  {
    assert |"name"| == 4 && |"ip"| == 2 && |"shifted-ip"| == 10 && |"prefix"| == 6 && |"preseed"| == 7;
  }

  lemma SaltStatusReadsBack(s: SaltStatus)
    ensures ReadSaltStatus(SaltStatusText(s)) == s
  {
    assert |"Pinged"| == 6 && |"PillarRefreshed"| == 15 && |"HighstateDispatched"| == 19 && |"Ready"| == 5;
    assert |"Failed/Ping"| == 11 && |"Failed/PillarRefresh"| == 20 && |"Failed/HighstateDispatch"| == 24;
    assert |"Failed/Highstate"| == 16;
  }

  lemma FlagReadsBack(f: Flag)
    ensures ReadFlag(FlagText(f)) == f
  {
    assert |"true"| == 4 && |"false"| == 5;
  }

  lemma HighstateReadsBack(h: Highstate)
    ensures ReadHighstate(HighstateText(h)) == h
  {
    assert |"InProgress"| == 10 && |"Success"| == 7 && |"Failed"| == 6;
  }

  ghost predicate Different(ks: seq<string>) {
    forall i, j :: 0 <= i < j < |ks| ==> ks[i] != ks[j]
  }

  const LENGTHS: seq<int> := [22, 21, 24, 23, 23, 23, 17, 25, 28, 26, 22, 25, 30, 34, 35]

  lemma KeyLengths(n: int)
    requires 0 <= n < 15
    ensures |KEYS| == 15 && |KEYS[n]| == LENGTHS[n]
  {
    assert |KEY_STATUS| == 22 && |MINION_ID| == 21 && |MATCH_METHOD| == 24 && |SALT_STATUS| == 23 && |READY| == 17;
    assert |HIGHSTATE_STATUS| == 28 && |HIGHSTATE_TIME| == 26 && |ROLES_HASH| == 22 && |ACCEPTED_AT| == 23;
    assert |KEY_CLEARED| == 23 && |FAILED_COUNT| == 34 && |FAILED_STATES| == 35 && |BULK_HANDLED| == 30;
    assert |HIGHSTATE_JID| == 25 && |RETRY_HANDLED| == 25;
  }

  lemma SameLengthKeysDiffer()
    ensures KEYS[0] != KEYS[10] && KEYS[3] != KEYS[4] && KEYS[3] != KEYS[5] && KEYS[4] != KEYS[5] && KEYS[7] != KEYS[11]
  {
    assert KEY_STATUS[12] == 'k' && ROLES_HASH[12] == 'r' && HIGHSTATE_JID[12] == 'h' && RETRY_HANDLED[12] == 'r';
    assert SALT_STATUS[12] == 's' && ACCEPTED_AT[12] == 'a' && KEY_CLEARED[12] == 'k';
  }

  lemma SameLengths(i: int, j: int)
    requires 0 <= i < j < 15 && LENGTHS[i] == LENGTHS[j]
    ensures (i, j) in {(0, 10), (3, 4), (3, 5), (4, 5), (7, 11)}
  {
  }

  /** No two of the operator's annotations share a key. */
  lemma KeysDiffer()
    ensures Different(KEYS)
  {
    forall i, j | 0 <= i < j < |KEYS| ensures KEYS[i] != KEYS[j] {
      KeyLengths(i);
      KeyLengths(j);
      if LENGTHS[i] == LENGTHS[j] {
        SameLengths(i, j);
        SameLengthKeysDiffer();
      }
    }
  }

  lemma {:induction false} AssignedReadsBack(ks: seq<string>, vs: seq<string>, n: nat)
    requires |ks| == |vs| && Different(ks) && n < |ks|
    ensures Get(Assigned(ks, vs), ks[n]) == vs[n]
  {
    var rest := Assigned(ks[1..], vs[1..]);
    assert ks[0] !in ks[1..];
    if n > 0 { AssignedReadsBack(ks[1..], vs[1..], n - 1); }
  }

  lemma RenderReadsBack(g: Foreign, m: Marks, n: nat)
    requires n < |KEYS|
    ensures Get(Render(g, m), KEYS[n]) == Values(g, m)[n]
  {
    hide Values;
    KeysDiffer();
    AssignedReadsBack(KEYS, Values(g, m), n);
  }

  ghost predicate ReadsTimes(g: Foreign, parse: string -> Option<int>) {
    parse("") == None && forall t :: g.timestamp(t) != "" && parse(g.timestamp(t)) == Some(t)
  }

  lemma InstantReadsBack(g: Foreign, parse: string -> Option<int>, t: int)
    requires ReadsTimes(g, parse)
    ensures parse(g.timestamp(t)) == Some(t)
  {
  }

  lemma TimeReadsBack(g: Foreign, parse: string -> Option<int>, t: Option<int>)
    requires ReadsTimes(g, parse)
    ensures parse(TimeText(g, t)) == t
  {
    if t.Some? { InstantReadsBack(g, parse, t.value); }
  }

  /** The operator finds what it left: reading the annotations it wrote, beside whatever the tenant set,
      gives back its marks. Timestamps have to read back, and an absent one as none. */
  lemma MarksReadBack(g: Foreign, parse: string -> Option<int>, o: Object, m: Marks)
    requires ReadsTimes(g, parse)
    requires o.tenant.Keys !! OPERATOR_KEYS
    ensures Read(parse, AnnotationsOf(g, o, m)) == m.(failedStates := [])
  {
    hide Render, KeyStatusText, MethodText, SaltStatusText, FlagText, HighstateText, TimeText, ReadsTimes,
         ReadKeyStatus, ReadMethod, ReadSaltStatus, ReadFlag, ReadHighstate, Join;
    var a, vs := AnnotationsOf(g, o, m), Values(g, m);
    forall n | 0 <= n < |KEYS| ensures Get(a, KEYS[n]) == vs[n] {
      KeysAreOperators();
      assert KEYS[n] in OPERATOR_KEYS;
      RenderReadsBack(g, m, n);
    }
    assert Get(a, KEYS[0]) == vs[0] && Get(a, KEYS[1]) == vs[1] && Get(a, KEYS[2]) == vs[2] && Get(a, KEYS[3]) == vs[3];
    assert Get(a, KEYS[4]) == vs[4] && Get(a, KEYS[5]) == vs[5] && Get(a, KEYS[6]) == vs[6] && Get(a, KEYS[7]) == vs[7];
    assert Get(a, KEYS[8]) == vs[8] && Get(a, KEYS[9]) == vs[9] && Get(a, KEYS[10]) == vs[10];
    assert Get(a, KEYS[11]) == vs[11] && Get(a, KEYS[12]) == vs[12];
    KeyStatusReadsBack(m.keyStatus);
    MethodReadsBack(m.how);
    SaltStatusReadsBack(m.saltStatus);
    FlagReadsBack(m.ready);
    HighstateReadsBack(m.highstate);
    TimeReadsBack(g, parse, m.acceptedAt);
    TimeReadsBack(g, parse, m.highstateTime);
  }
}
