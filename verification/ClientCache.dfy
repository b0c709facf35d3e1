/** The cache of logged-in Salt clients, shared by all concurrent reconciles. */
module ClientCache {
  import opened Text
  import opened Model
  import opened World

  const TTL: int := 20 * MINUTE

  datatype Connection = Connection(url: string, username: string, password: string, master: string, skipTls: bool)

  /** A client, with what it was built from: the config, the version of it that was read, and the
      instant its connection was resolved. */
  datatype Client = Client(config: Name, version: string, connection: Connection, resolvedAt: int)

  datatype Entry = Entry(client: Client, version: string, expiresAt: int)

  type Entries = map<Name, Entry>

  /** What the cluster's Secrets give for a version of a config at an instant, if anything. */
  type Resolver = (Name, string, int) -> Option<Connection>

  predicate Fresh(e: Entry, version: string, now: int) {
    e.version == version && now <= e.expiresAt
  }

  function Lookup(es: Entries, config: Name, version: string, now: int): Option<Client> {
    if config in es && Fresh(es[config], version, now) then Some(es[config].client) else None
  }

  /** An entry that may not be served is evicted. */
  function Evicted(es: Entries, config: Name, version: string, now: int): Entries {
    if config in es && !Fresh(es[config], version, now) then es - {config} else es
  }

  function Put(es: Entries, config: Name, version: string, c: Client, now: int): Entries {
    es[config := Entry(c, version, now + TTL)]
  }

  /** The client was built for this version of this config, from what the cluster said then. */
  predicate BuiltFor(resolve: Resolver, c: Client, config: Name, version: string) {
    c.config == config && c.version == version && resolve(config, version, c.resolvedAt) == Some(c.connection)
  }

  class SaltClientCache {
    var entries: Entries

    constructor ()
      ensures entries == map[]
    {
      entries := map[];
    }

    ghost predicate Valid(resolve: Resolver)
      reads this
    {
      forall k :: k in entries ==> BuiltFor(resolve, entries[k].client, k, entries[k].version)
    }

    method Get(config: Name, version: string, now: int) returns (r: Option<Client>)
      modifies this
      ensures r == Lookup(old(entries), config, version, now)
      ensures entries == Evicted(old(entries), config, version, now)
    {
      if config !in entries { return None; }
      var e := entries[config];
      if e.version != version || now > e.expiresAt {
        entries := entries - {config};
        return None;
      }
      return Some(e.client);
    }

    method Set(config: Name, version: string, c: Client, now: int)
      modifies this
      ensures entries == Put(old(entries), config, version, c, now)
      ensures forall v, t :: Lookup(entries, config, v, t) == if v == version && t <= now + TTL then Some(c) else None
      ensures forall k, v, t :: k != config ==> Lookup(entries, k, v, t) == Lookup(old(entries), k, v, t)
    {
      entries := entries[config := Entry(c, version, now + TTL)];
    }

    /** One undisturbed call: look up, else resolve, log in and store. */
    method ClientFor(resolve: Resolver, config: Name, version: string, asked: int, built: int, loginOk: bool,
                     stored: int)
      returns (r: Option<Client>)
      requires Valid(resolve) && asked <= built <= stored
      modifies this
      ensures Valid(resolve)
      ensures r.Some? ==> BuiltFor(resolve, r.value, config, version) && Lookup(entries, config, version, asked) == r
      ensures forall k :: k != config ==>
              (k in entries <==> k in old(entries)) && (k in entries ==> entries[k] == old(entries[k]))
      ensures r.None? <==> Lookup(old(entries), config, version, asked).None? &&
                           (resolve(config, version, built).None? || !loginOk)
    {
      r := Get(config, version, asked);
      if r.Some? { return; }
      var connection := resolve(config, version, built);
      if connection.None? { return None; }
      var c := Client(config, version, connection.value, built);
      if !loginOk { return None; }
      Set(config, version, c, stored);
      return Some(c);
    }
  }

  // ---------------------------------------------------------------- concurrent reconciles

  /** Where a reconcile stands on its way to a client. The lock covers one look-up or one store;
      anything may happen between two stages. */
  datatype Stage =
    | Wants(config: Name, version: string)
    | Missed(config: Name, version: string)
    | Built(config: Name, version: string, client: Client)
    | Served(config: Name, version: string, client: Client, at: int)
    | GaveUp

  datatype Stored = Stored(client: Client, at: int)

  datatype State = State(entries: Entries, threads: map<nat, Stage>, now: int, stores: seq<Stored>)

  datatype Action =
    | Begins(t: nat, config: Name, version: string)
    | LooksUp(t: nat)
    | Resolves(t: nat)
    | LogsIn(t: nat, ok: bool)
    | Waits(now: int)

  function Next(resolve: Resolver, s: State, a: Action): State {
    match a
    case Begins(t, config, version) => s.(threads := s.threads[t := Wants(config, version)])
    case Waits(now) => if now < s.now then s else s.(now := now)
    case LooksUp(t) =>
      if t !in s.threads || !s.threads[t].Wants? then s
      else
        var Wants(config, version) := s.threads[t];
        var found := Lookup(s.entries, config, version, s.now);
        s.(entries := Evicted(s.entries, config, version, s.now),
           threads := s.threads[t := if found.Some? then Served(config, version, found.value, s.now)
                                     else Missed(config, version)])
    case Resolves(t) =>
      if t !in s.threads || !s.threads[t].Missed? then s
      else
        var Missed(config, version) := s.threads[t];
        var c := resolve(config, version, s.now);
        s.(threads := s.threads[t := if c.None? then GaveUp
                                     else Built(config, version, Client(config, version, c.value, s.now))])
    case LogsIn(t, ok) =>
      if t !in s.threads || !s.threads[t].Built? then s
      else
        var Built(config, version, c) := s.threads[t];
        if !ok then s.(threads := s.threads[t := GaveUp])
        else s.(entries := Put(s.entries, config, version, c, s.now),
                threads := s.threads[t := Served(config, version, c, s.now)],
                stores := s.stores + [Stored(c, s.now)])
  }

  /** Some store put the client there no later than `at` and at most 20 minutes before it. */
  ghost predicate StoredWithin(stores: seq<Stored>, c: Client, at: int) {
    exists n :: 0 <= n < |stores| && stores[n].client == c && stores[n].at <= at <= stores[n].at + TTL &&
                c.resolvedAt <= stores[n].at
  }

  ghost predicate EntryOk(resolve: Resolver, s: State, k: Name)
    requires k in s.entries
  {
    var e := s.entries[k];
    && BuiltFor(resolve, e.client, k, e.version)
    && (exists n :: 0 <= n < |s.stores| && s.stores[n].client == e.client && e.expiresAt == s.stores[n].at + TTL &&
                    s.stores[n].at <= s.now && e.client.resolvedAt <= s.stores[n].at)
  }

  ghost predicate StageOk(resolve: Resolver, s: State, st: Stage) {
    match st
    case Built(config, version, c) => BuiltFor(resolve, c, config, version) && c.resolvedAt <= s.now
    case Served(config, version, c, at) => BuiltFor(resolve, c, config, version) && StoredWithin(s.stores, c, at)
    case _ => true
  }

  ghost predicate Sound(resolve: Resolver, s: State) {
    && (forall k :: k in s.entries ==> EntryOk(resolve, s, k))
    && (forall t :: t in s.threads ==> StageOk(resolve, s, s.threads[t]))
  }

  /** More stores and a later clock take nothing away. */
  lemma StillOk(resolve: Resolver, s: State, s': State)
    requires s.stores <= s'.stores && s.now <= s'.now
    ensures forall k :: k in s.entries && k in s'.entries && s'.entries[k] == s.entries[k] && EntryOk(resolve, s, k) ==>
              EntryOk(resolve, s', k)
    ensures forall st: Stage :: StageOk(resolve, s, st) ==> StageOk(resolve, s', st)
  {
    hide BuiltFor;
    assert forall n :: 0 <= n < |s.stores| ==> s'.stores[n] == s.stores[n];
  }

  lemma MissIsOk(resolve: Resolver, s: State)
    ensures forall st: Stage :: st.Wants? || st.Missed? || st.GaveUp? ==> StageOk(resolve, s, st)
  {
  }

  lemma HitIsOk(resolve: Resolver, s: State, st: Stage)
    requires Sound(resolve, s) && st.Wants? && Lookup(s.entries, st.config, st.version, s.now).Some?
    ensures StageOk(resolve, s,
            Served(st.config, st.version, Lookup(s.entries, st.config, st.version, s.now).value, s.now))
  {
    assert EntryOk(resolve, s, st.config);
  }

  lemma BuildIsOk(resolve: Resolver, s: State, st: Stage)
    requires st.Missed?
    ensures var c := resolve(st.config, st.version, s.now);
            c.Some? ==> StageOk(resolve, s, Built(st.config, st.version, Client(st.config, st.version, c.value, s.now)))
  {
  }

  lemma StoreIsOk(resolve: Resolver, s: State, s': State, config: Name, version: string, c: Client)
    requires StageOk(resolve, s, Built(config, version, c))
    requires s'.entries == Put(s.entries, config, version, c, s.now) && s'.now == s.now
    requires s'.stores == s.stores + [Stored(c, s.now)]
    ensures EntryOk(resolve, s', config) && StageOk(resolve, s', Served(config, version, c, s.now))
  {
    hide BuiltFor;
    assert s'.stores[|s.stores|] == Stored(c, s.now);
  }

  lemma NextKeepsSound(resolve: Resolver, s: State, a: Action)
    requires Sound(resolve, s)
    ensures Sound(resolve, Next(resolve, s, a))
  {
    hide EntryOk, StageOk;
    var s' := Next(resolve, s, a);
    StillOk(resolve, s, s');
    match a
    case LooksUp(t) =>
      if t in s.threads && s.threads[t].Wants? && s'.threads[t].Served? { HitIsOk(resolve, s, s.threads[t]); }
      assert forall k :: k in s'.entries ==> k in s.entries && s'.entries[k] == s.entries[k];
      assert t in s'.threads ==> StageOk(resolve, s', s'.threads[t]) by { MissIsOk(resolve, s'); }
    case Resolves(t) =>
      if t in s.threads && s.threads[t].Missed? { BuildIsOk(resolve, s', s.threads[t]); }
      assert t in s'.threads ==> StageOk(resolve, s', s'.threads[t]) by { MissIsOk(resolve, s'); }
    case LogsIn(t, ok) =>
      if t in s.threads && s.threads[t].Built? && ok {
        var Built(config, version, c) := s.threads[t];
        StoreIsOk(resolve, s, s', config, version, c);
      }
      assert t in s'.threads ==> StageOk(resolve, s', s'.threads[t]) by { MissIsOk(resolve, s'); }
    case Begins(t, config, version) => MissIsOk(resolve, s');
    case Waits(_) =>
  }

  function Steps(resolve: Resolver, s: State, actions: seq<Action>): State
    decreases |actions|
  {
    if actions == [] then s else Steps(resolve, Next(resolve, s, actions[0]), actions[1..])
  }

  lemma {:induction false} StepsKeepSound(resolve: Resolver, s: State, actions: seq<Action>)
    requires Sound(resolve, s)
    ensures Sound(resolve, Steps(resolve, s, actions))
    decreases |actions|
  {
    hide Sound, Next;
    if actions != [] {
      NextKeepsSound(resolve, s, actions[0]);
      StepsKeepSound(resolve, Next(resolve, s, actions[0]), actions[1..]);
    }
  }

  /** Under every interleaving of any number of reconciles, even when an older one stores after a
      newer one: whoever is served a client asked for exactly the version it was built for, its
      connection is the one the cluster gave for that version when it was resolved, and it was stored
      at most 20 minutes before it was served. */
  lemma ServedClientIsCurrent(resolve: Resolver, now: int, actions: seq<Action>, t: nat)
    ensures var s := Steps(resolve, State(map[], map[], now, []), actions);
            t in s.threads && s.threads[t].Served? ==>
              var Served(config, version, c, at) := s.threads[t];
              BuiltFor(resolve, c, config, version) && StoredWithin(s.stores, c, at)
  {
    StepsKeepSound(resolve, State(map[], map[], now, []), actions);
    var s := Steps(resolve, State(map[], map[], now, []), actions);
    if t in s.threads { assert StageOk(resolve, s, s.threads[t]); }
  }
}
