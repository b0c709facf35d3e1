/** The text behind the intent hash: every tenant annotation under the operator's prefix, sorted
    by key, one line each. */
module Intent {
  import opened Text
  import opened Model

  const PREFIX: string := "salt.vcf.io/"
  const HASH_VERSION: string := "v2:"

  const KEY_STATUS := "salt.vcf.io/key-status"
  const MINION_ID := "salt.vcf.io/minion-id"
  const MATCH_METHOD := "salt.vcf.io/match-method"
  const SALT_STATUS := "salt.vcf.io/salt-status"
  const READY := "salt.vcf.io/ready"
  const HIGHSTATE_JID := "salt.vcf.io/highstate-jid"
  const HIGHSTATE_STATUS := "salt.vcf.io/highstate-status"
  const HIGHSTATE_TIME := "salt.vcf.io/highstate-time"
  const ROLES_HASH := "salt.vcf.io/roles-hash"
  const ACCEPTED_AT := "salt.vcf.io/accepted-at"
  const KEY_CLEARED := "salt.vcf.io/key-cleared"
  const FAILED_COUNT := "salt.vcf.io/highstate-failed-count"
  const FAILED_STATES := "salt.vcf.io/highstate-failed-states"
  const RETRY_HANDLED := "salt.vcf.io/retry-handled"
  const BULK_HANDLED := "salt.vcf.io/bulk-retry-handled"

  /** The annotations only the operator writes. */
  const OPERATOR_KEYS: set<string> := {
    KEY_STATUS, MINION_ID, MATCH_METHOD, SALT_STATUS, READY, HIGHSTATE_JID, HIGHSTATE_STATUS, HIGHSTATE_TIME,
    ROLES_HASH, ACCEPTED_AT, KEY_CLEARED, FAILED_COUNT, FAILED_STATES, RETRY_HANDLED, BULK_HANDLED }

  const NON_INTENT: set<string> := OPERATOR_KEYS + {RETRY_REQUEST}

  predicate IsIntentKey(k: string) {
    HasPrefix(k, PREFIX) && k !in NON_INTENT
  }

  function IntentKeys(a: map<string, string>): set<string> {
    set k | k in a && IsIntentKey(k)
  }

  /** What the tenant asked for. */
  function IntentOf(a: map<string, string>): map<string, string> {
    map k | k in a && IsIntentKey(k) :: a[k]
  }

  // ---------------------------------------------------------------- the canonical text

  ghost predicate Least(k: string, s: set<string>) {
    k in s && forall x :: x in s ==> Leq(k, x)
  }

  lemma {:induction false} LeastExists(s: set<string>)
    requires s != {}
    ensures exists k :: Least(k, s)
  {
    var x :| x in s;
    var rest := s - {x};
    if rest == {} {
      LeqReflexive(x);
      assert s == {x};
      assert Least(x, s);
    } else {
      LeastExists(rest);
      var k :| Least(k, rest);
      LeqTotal(k, x);
      LeqReflexive(x);
      if Leq(k, x) {
        assert Least(k, s);
      } else {
        forall y | y in s ensures Leq(x, y) {
          if y != x { LeqTransitive(x, k, y); }
        }
        assert Least(x, s);
      }
    }
  }

  /** The members of a set of keys in ascending order. */
  ghost function Ascending(s: set<string>): (ks: seq<string>)
    ensures forall k :: k in ks <==> k in s
    decreases |s|
  {
    if s == {} then []
    else
      LeastExists(s);
      var k :| Least(k, s);
      [k] + Ascending(s - {k})
  }

  type Entry = (string, string)

  function Entries(ks: seq<string>, a: map<string, string>): (es: seq<Entry>)
    requires forall k :: k in ks ==> k in a
    ensures |es| == |ks|
    ensures forall i :: 0 <= i < |ks| ==> es[i].0 == ks[i] && ks[i] in a && es[i].1 == a[ks[i]]
  {
    seq(|ks|, i requires 0 <= i < |ks| => assert ks[i] in ks; (ks[i], a[ks[i]]))
  }

  function Line(e: Entry): string {
    e.0 + ['='] + e.1 + ['\n']
  }

  function Print(es: seq<Entry>): string {
    if es == [] then "" else Line(es[0]) + Print(es[1..])
  }

  ghost function Preimage(a: map<string, string>): string {
    Print(Entries(Ascending(IntentKeys(a)), a))
  }

  ghost function IntentHash(g: Foreign, a: map<string, string>): (h: string)
    ensures h != ""
  {
    HASH_VERSION + g.digest(Preimage(a))
  }

  // ---------------------------------------------------------------- the loops that compute it

  ghost predicate Distinct(ks: seq<string>) {
    forall i, j :: 0 <= i < j < |ks| ==> ks[i] != ks[j]
  }

  ghost predicate Sorted(ks: seq<string>) {
    forall i, j :: 0 <= i < j < |ks| ==> Leq(ks[i], ks[j])
  }

  /** Any sorted listing of a set without repetition is the ascending one: the result does not
      depend on the order in which a map is enumerated or on the sorting algorithm. */
  lemma {:induction false} AscendingIsUnique(ks: seq<string>, s: set<string>)
    requires Sorted(ks) && Distinct(ks)
    requires forall k :: k in ks <==> k in s
    ensures ks == Ascending(s)
  {
    assert ks != [] ==> ks[0] in ks;
    if s != {} {
      var least := Ascending(s)[0];
      assert Least(least, s);
      assert least in ks;
      assert ks[0] in s;
      var i :| 0 <= i < |ks| && ks[i] == least;
      if i > 0 { LeqAntisymmetric(least, ks[0]); assert false; }
      forall k ensures k in ks[1..] <==> k in s - {least} {
        if k in s - {least} { assert k in ks; assert ks == [least] + ks[1..]; }
        if k in ks[1..] { var j :| 1 <= j < |ks| && ks[j] == k; assert k in ks; }
      }
      AscendingIsUnique(ks[1..], s - {least});
      assert ks == [least] + ks[1..];
    }
  }

  function Insert(k: string, ks: seq<string>): (r: seq<string>)
    ensures multiset(r) == multiset(ks) + multiset{k}
  {
    if ks == [] || Leq(k, ks[0]) then
      assert [k] + ks == [k] + ks;
      [k] + ks
    else
      assert ks == [ks[0]] + ks[1..];
      [ks[0]] + Insert(k, ks[1..])
  }

  lemma {:induction false} InsertMembers(k: string, ks: seq<string>)
    ensures forall x :: x in Insert(k, ks) <==> x == k || x in ks
  {
    assert forall x :: x in multiset(Insert(k, ks)) <==> x in multiset(ks) + multiset{k};
    assert forall x :: x in Insert(k, ks) <==> x in multiset(Insert(k, ks));
  }

  lemma {:induction false} InsertSorted(k: string, ks: seq<string>)
    requires Sorted(ks)
    ensures Sorted(Insert(k, ks))
  {
    if ks == [] {
    } else if Leq(k, ks[0]) {
      forall j | 0 <= j < |ks| ensures Leq(k, ks[j]) {
        if j > 0 { LeqTransitive(k, ks[0], ks[j]); }
      }
    } else {
      LeqTotal(k, ks[0]);
      InsertSorted(k, ks[1..]);
      InsertMembers(k, ks[1..]);
      var rest := Insert(k, ks[1..]);
      forall j | 0 <= j < |rest| ensures Leq(ks[0], rest[j]) {
        assert rest[j] in rest;
        if rest[j] != k {
          var n :| 0 <= n < |ks[1..]| && ks[1..][n] == rest[j];
          assert ks[n + 1] == rest[j];
        }
      }
    }
  }

  lemma {:induction false} InsertDistinct(k: string, ks: seq<string>)
    requires Distinct(ks) && k !in ks
    ensures Distinct(Insert(k, ks))
  {
    if ks == [] || Leq(k, ks[0]) {
    } else {
      InsertDistinct(k, ks[1..]);
      InsertMembers(k, ks[1..]);
      var rest := Insert(k, ks[1..]);
      forall j | 0 <= j < |rest| ensures rest[j] != ks[0] {
        assert rest[j] in rest;
        if rest[j] != k {
          var n :| 0 <= n < |ks[1..]| && ks[1..][n] == rest[j];
          assert ks[n + 1] == rest[j];
        } else {
          assert ks[0] in ks;
        }
      }
    }
  }

  lemma {:induction false} PrintAppend(es: seq<Entry>, e: Entry)
    ensures Print(es + [e]) == Print(es) + Line(e)
  {
    if es == [] {
      assert es + [e] == [e] && [e][1..] == [];
    } else {
      assert (es + [e])[1..] == es[1..] + [e];
      PrintAppend(es[1..], e);
      assert Line(es[0]) + (Print(es[1..]) + Line(e)) == Line(es[0]) + Print(es[1..]) + Line(e);
    }
  }

  /** Collects the intent keys in whatever order the map yields them, sorts them, and writes the
      lines one after the other. */
  method ComputePreimage(a: map<string, string>) returns (text: string)
    ensures text == Preimage(a)
  {
    var keys: seq<string> := [];
    var left := a.Keys;
    while left != {}
      invariant left <= a.Keys
      invariant forall k :: k in keys <==> k in IntentKeys(a) && k !in left
      invariant Sorted(keys) && Distinct(keys)
      decreases |left|
    {
      var k :| k in left;
      left := left - {k};
      if IsIntentKey(k) {
        InsertSorted(k, keys);
        InsertDistinct(k, keys);
        InsertMembers(k, keys);
        keys := Insert(k, keys);
      }
    }
    AscendingIsUnique(keys, IntentKeys(a));
    var es := Entries(keys, a);
    text := "";
    for i := 0 to |keys|
      invariant text == Print(es[..i])
    {
      PrintAppend(es[..i], es[i]);
      assert es[..i + 1] == es[..i] + [es[i]];
      text := text + Line((keys[i], a[keys[i]]));
    }
    assert es[..|keys|] == es;
  }

  method ComputeIntentHash(g: Foreign, a: map<string, string>) returns (h: string)
    ensures h == IntentHash(g, a)
  {
    var text := ComputePreimage(a);
    h := HASH_VERSION + g.digest(text);
  }

  // ---------------------------------------------------------------- what the text depends on

  /** The text is a function of the intent alone. */
  lemma PreimageOfIntent(a: map<string, string>, b: map<string, string>)
    requires IntentOf(a) == IntentOf(b)
    ensures Preimage(a) == Preimage(b)
  {
    assert IntentKeys(a) == IntentOf(a).Keys == IntentOf(b).Keys == IntentKeys(b);
    forall k | k in IntentKeys(a) ensures k in a && k in b && a[k] == b[k] {
      assert k in IntentOf(a) && IntentOf(a)[k] == a[k] && IntentOf(b)[k] == b[k];
    }
    var ks := Ascending(IntentKeys(a));
    assert Entries(ks, a) == Entries(ks, b);
  }

  /** No write of the operator, and no retry request, changes it. */
  lemma OperatorWritesKeepIntent(a: map<string, string>, own: map<string, string>)
    requires own.Keys <= NON_INTENT
    ensures IntentOf(a + own) == IntentOf(a)
    ensures Preimage(a + own) == Preimage(a)
  {
    forall k ensures k in IntentOf(a + own) <==> k in IntentOf(a) {}
    assert IntentOf(a + own) == IntentOf(a);
    PreimageOfIntent(a + own, a);
  }

  lemma PrefixMeans(k: string)
    ensures HasPrefix(k, PREFIX) <==> |k| >= 12 && k[..12] == "salt.vcf.io/"
  {
    assert |PREFIX| == 12;
  }

  lemma SettingChangesIff(a: map<string, string>, k: string, v: string)
    ensures IntentOf(a[k := v]) != IntentOf(a) <==> IsIntentKey(k) && (k in a ==> a[k] != v)
  {
    hide IsIntentKey;
    var b := a[k := v];
    if IsIntentKey(k) {
      assert k in IntentOf(b) && IntentOf(b)[k] == v;
      if k in a && a[k] == v { assert b == a; }
    } else {
      assert forall x :: x in IntentOf(b) <==> x in IntentOf(a);
      assert IntentOf(b) == IntentOf(a);
    }
  }

  /** Which annotations are intent: those under the operator's prefix, except the fifteen it writes
      itself and the retry request. Setting an annotation changes the intent exactly when it is such a
      one and the value is new. */
  lemma IntentChangesIff(a: map<string, string>, k: string, v: string)
    ensures IntentOf(a[k := v]) != IntentOf(a) <==>
            && |k| >= 12 && k[..12] == "salt.vcf.io/" && (k in a ==> a[k] != v)
            && k !in {"salt.vcf.io/key-status", "salt.vcf.io/minion-id", "salt.vcf.io/match-method",
                      "salt.vcf.io/salt-status", "salt.vcf.io/ready", "salt.vcf.io/highstate-jid",
                      "salt.vcf.io/highstate-status", "salt.vcf.io/highstate-time", "salt.vcf.io/roles-hash",
                      "salt.vcf.io/accepted-at", "salt.vcf.io/key-cleared", "salt.vcf.io/highstate-failed-count",
                      "salt.vcf.io/highstate-failed-states", "salt.vcf.io/retry-handled",
                      "salt.vcf.io/bulk-retry-handled", "salt.vcf.io/retry-request"}
  {
    PrefixMeans(k);
    SettingChangesIff(a, k, v);
  }

  // ---------------------------------------------------------------- reading it back

  /** Splits the text at line ends and each line at its first '='. */
  function Parse(text: string): seq<Entry>
    decreases |text|
  {
    var e := IndexOf(text, '=');
    if e == |text| then []
    else
      var rest := text[e + 1..];
      var n := IndexOf(rest, '\n');
      if n == |rest| then [] else [(text[..e], rest[..n])] + Parse(rest[n + 1..])
  }

  ghost predicate CleanEntry(e: Entry) {
    '=' !in e.0 && '\n' !in e.1
  }

  ghost predicate Clean(a: map<string, string>) {
    forall k :: k in IntentOf(a) ==> CleanEntry((k, a[k]))
  }

  lemma ParseOne(e: Entry, tail: string)
    requires CleanEntry(e)
    ensures Parse(Line(e) + tail) == [e] + Parse(tail)
  {
    var text := Line(e) + tail;
    var rest := e.1 + ['\n'] + tail;
    assert text == e.0 + ['='] + rest;
    IndexOfAppend(e.0, '=', rest);
    assert text[..|e.0|] == e.0 && text[|e.0| + 1..] == rest;
    IndexOfAppend(e.1, '\n', tail);
    assert rest[..|e.1|] == e.1 && rest[|e.1| + 1..] == tail;
  }

  /** Printing then parsing gives back the entries. */
  lemma {:induction false} ParsePrint(es: seq<Entry>)
    requires forall e :: e in es ==> CleanEntry(e)
    ensures Parse(Print(es)) == es
  {
    if es != [] {
      assert es[0] in es;
      ParsePrint(es[1..]);
      ParseOne(es[0], Print(es[1..]));
    }
  }

  /** The entries determine the intent they list. */
  lemma EntriesDetermineIntent(a: map<string, string>, b: map<string, string>)
    requires Entries(Ascending(IntentKeys(a)), a) == Entries(Ascending(IntentKeys(b)), b)
    ensures IntentOf(a) == IntentOf(b)
  {
    var ka, kb := Ascending(IntentKeys(a)), Ascending(IntentKeys(b));
    var es := Entries(ka, a);
    assert forall i :: 0 <= i < |ka| ==> ka[i] == es[i].0 == kb[i];
    assert ka == kb;
    forall k | k in ka ensures a[k] == b[k] {
      var i :| 0 <= i < |ka| && ka[i] == k;
      assert es[i].1 == a[k] && es[i].1 == b[k];
    }
    assert IntentKeys(a) == IntentKeys(b) by {
      forall k ensures k in IntentKeys(a) <==> k in IntentKeys(b) {
        assert k in ka <==> k in kb;
      }
    }
    assert forall k :: k in IntentKeys(a) ==> k in ka;
  }

  /** The text of a clean intent reads back as its entries. */
  lemma ParsePreimage(a: map<string, string>)
    requires Clean(a)
    ensures Parse(Preimage(a)) == Entries(Ascending(IntentKeys(a)), a)
  {
    var ks := Ascending(IntentKeys(a));
    var es := Entries(ks, a);
    forall e | e in es ensures CleanEntry(e) {
      var i :| 0 <= i < |es| && es[i] == e;
      assert ks[i] in ks;
      assert ks[i] in IntentOf(a);
    }
    ParsePrint(es);
  }

  /** Two sets of intent annotations whose keys hold no '=' and whose values hold no newline have
      the same text only if they are the same. */
  lemma PreimageIsInjective(a: map<string, string>, b: map<string, string>)
    requires Clean(a) && Clean(b)
    requires Preimage(a) == Preimage(b)
    ensures IntentOf(a) == IntentOf(b)
  {
    ParsePreimage(a);
    ParsePreimage(b);
    EntriesDetermineIntent(a, b);
  }

  function Joined(v1: string, k2: string, v2: string): string {
    v1 + ['\n'] + k2 + ['='] + v2
  }

  /** The intent of `a` with annotation `k2` folded into the value of `k1`. */
  ghost function Swallowing(a: map<string, string>, k1: string, k2: string): map<string, string>
    requires k1 in IntentKeys(a) && k2 in IntentKeys(a)
  {
    (map k | k in IntentKeys(a) && k != k2 :: a[k])[k1 := Joined(a[k1], k2, a[k2])]
  }

  /** Two lines print like one line whose value holds the second. */
  lemma Swallow(k1: string, v1: string, k2: string, v2: string, tail: seq<Entry>)
    ensures Print([(k1, v1), (k2, v2)] + tail) == Print([(k1, Joined(v1, k2, v2))] + tail)
  {
    var e1, e2 := (k1, v1), (k2, v2);
    var joined := Joined(v1, k2, v2);
    assert Line((k1, joined)) == Line(e1) + Line(e2);
    assert ([e1, e2] + tail)[1..] == [e2] + tail && ([e2] + tail)[1..] == tail;
    assert ([(k1, joined)] + tail)[1..] == tail;
    assert Line(e1) + (Line(e2) + Print(tail)) == Line(e1) + Line(e2) + Print(tail);
  }

  lemma FoldedText(a: map<string, string>, b: map<string, string>, k1: string, k2: string, rest: seq<string>)
    requires k1 in a && k2 in a && k1 in b && b[k1] == Joined(a[k1], k2, a[k2])
    requires forall k :: k in rest ==> k in a && k in b && a[k] == b[k]
    ensures Print(Entries([k1] + rest, b)) == Print(Entries([k1, k2] + rest, a))
  {
    var tail := Entries(rest, a);
    var ea, eb := Entries([k1, k2] + rest, a), Entries([k1] + rest, b);
    assert ea == [(k1, a[k1]), (k2, a[k2])] + tail;
    assert eb == [(k1, b[k1])] + tail;
    Swallow(k1, a[k1], k2, a[k2], tail);
  }

  /** Dropping the second of the ascending keys keeps the others in order. */
  lemma TwoLeast(s: set<string>) returns (k1: string, k2: string, rest: seq<string>)
    requires |s| >= 2
    ensures Ascending(s) == [k1, k2] + rest && Ascending(s - {k2}) == [k1] + rest
    ensures k1 in s && k2 in s && k1 != k2
    ensures forall k :: k in rest ==> k in s && k != k1 && k != k2
  {
    k1 := Ascending(s)[0];
    assert Least(k1, s);
    var s1 := s - {k1};
    assert |s1| == |s| - 1;
    k2 := Ascending(s1)[0];
    assert k2 in Ascending(s1);
    rest := Ascending(s1 - {k2});
    var t := s - {k2};
    assert Least(k1, t);
    var k := Ascending(t)[0];
    assert Least(k, t);
    LeqAntisymmetric(k, k1);
    assert t - {k1} == s1 - {k2};
  }

  /** A newline in a value is what breaks this: every intent of two or more annotations shares its
      text with a different one, whose first value swallows the second line. */
  lemma NewlinesCollide(a: map<string, string>)
    requires |IntentKeys(a)| >= 2
    ensures exists b :: IntentOf(b) != IntentOf(a) && Preimage(b) == Preimage(a)
  {
    var k1, k2, rest := TwoLeast(IntentKeys(a));
    var b := Swallowing(a, k1, k2);
    assert IntentKeys(b) == IntentKeys(a) - {k2};
    FoldedText(a, b, k1, k2, rest);
    assert k2 in IntentOf(a) && k2 !in IntentOf(b);
  }
}
