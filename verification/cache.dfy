/**
 The tenant cache (server/src/services/cache.service.ts): one flat map with string keys, against
 what each organization has set, invalidated and let expire. Times are in milliseconds.
 */
module Cache {
  import opened Wrappers
  import opened Keys

  type Value = string

  datatype Entry = Entry(value: Value, expiresAt: real)

  type Store = map<string, Entry>

  function Prefix(org: string): string {
    "tenant:" + org + ":"
  }

  function FlatKey(org: string, name: string): string {
    Prefix(org) + name
  }

  function TenantKey(org: string, name: string): Result<string, string> {
    if org == "" then Err("cache: organizationId is required for tenant key") else Ok(FlatKey(org, name))
  }

  predicate StartsWith(s: string, prefix: string) {
    |prefix| <= |s| && s[..|prefix|] == prefix
  }

  // ---------------------------------------------------------------- the three operations

  function Lookup(store: Store, key: string, now: real): Option<Value> {
    if key in store && store[key].expiresAt >= now then Some(store[key].value) else None
  }

  function AfterGet(store: Store, org: string, name: string, now: real): Store {
    var key := FlatKey(org, name);
    if org != "" && key in store && store[key].expiresAt < now then store - {key} else store
  }

  function AfterSet(store: Store, org: string, name: string, value: Value, ttlSeconds: real, now: real): Store {
    if org == "" then store else store[FlatKey(org, name) := Entry(value, now + ttlSeconds * 1000.0)]
  }

  function Prefixed(keys: set<string>, org: string): set<string> {
    set k | k in keys && StartsWith(k, Prefix(org))
  }

  /** No name, or an empty one, means the whole tenant. */
  function AfterInvalidate(store: Store, org: string, name: Option<string>): Store {
    if name.GetOr("") != "" then (if org == "" then store else store - {FlatKey(org, name.value)})
    else store - Prefixed(store.Keys, org)
  }

  class TenantCache {
    var store: Store

    constructor ()
      ensures store == map[]
    {
      store := map[];
    }

    method Get(org: string, name: string, now: real) returns (r: Result<Option<Value>, string>)
      modifies this
      ensures store == AfterGet(old(store), org, name, now)
      ensures if org == "" then r.Err? else r == Ok(Lookup(old(store), FlatKey(org, name), now))
    {
      var key := TenantKey(org, name);
      if key.Err? { return Err(key.error); }
      if key.value !in store { return Ok(None); }
      var entry := store[key.value];
      if entry.expiresAt < now {
        store := store - {key.value};
        return Ok(None);
      }
      return Ok(Some(entry.value));
    }

    method Set(org: string, name: string, value: Value, ttlSeconds: real, now: real) returns (ok: bool)
      modifies this
      ensures store == AfterSet(old(store), org, name, value, ttlSeconds, now) && ok == (org != "")
    {
      var key := TenantKey(org, name);
      ok := key.Ok?;
      if ok { store := store[key.value := Entry(value, now + ttlSeconds * 1000.0)]; }
    }

    method Invalidate(org: string, name: Option<string>) returns (ok: bool)
      modifies this
      ensures store == AfterInvalidate(old(store), org, name)
      ensures ok == (org != "" || name.GetOr("") == "")
    {
      ok := true;
      if name.GetOr("") != "" {
        var key := TenantKey(org, name.value);
        ok := key.Ok?;
        if ok { store := store - {key.value}; }
        return;
      }
      ghost var was := store;
      var rest := store.Keys;
      while rest != {}
        invariant rest <= store.Keys && store == was - Prefixed(was.Keys - rest, org)
      {
        var k :| k in rest;
        if StartsWith(k, Prefix(org)) { store := store - {k}; }
        rest := rest - {k};
      }
    }
  }

  // ---------------------------------------------------------------- keys

  /** Keys of colon-free organizations name one pair only. */
  lemma KeyInjective(org: string, name: string, org': string, name': string)
    requires ':' !in org && ':' !in org' && FlatKey(org, name) == FlatKey(org', name')
    ensures org == org' && name == name'
  {
    KeyIsJoin(org, name);
    KeyIsJoin(org', name');
    JoinInjective(org, name, org', name');
  }

  lemma KeyIsJoin(org: string, name: string)
    ensures |FlatKey(org, name)| >= 7 && FlatKey(org, name)[7..] == Join(org, name)
  {
    assert FlatKey(org, name) == "tenant:" + Join(org, name);
  }

  /** A prefix picks out exactly its organization's keys. */
  lemma PrefixIsTenant(org: string, org': string, name: string)
    requires ':' !in org && ':' !in org'
    ensures StartsWith(FlatKey(org', name), Prefix(org)) <==> org == org'
  {
    var k := FlatKey(org', name);
    if org == org' {
      assert k[..|Prefix(org)|] == Prefix(org);
    } else if StartsWith(k, Prefix(org)) {
      assert k == FlatKey(org, k[|Prefix(org)|..]);
      KeyInjective(org', name, org, k[|Prefix(org)|..]);
    }
  }

  /** With a colon in an organization's id two tenants would share an entry. */
  lemma ColonCollides()
    ensures FlatKey("a:b", "c") == FlatKey("a", "b:c")
  {
  }

  // ---------------------------------------------------------------- runs

  datatype Op =
    | Get(org: string, name: string)
    | Set(org: string, name: string, value: Value, ttlSeconds: real)
    | Invalidate(org: string, only: Option<string>)

  datatype Timed = Timed(now: real, op: Op)

  function Next(store: Store, t: Timed): Store {
    match t.op
    case Get(org, name) => AfterGet(store, org, name, t.now)
    case Set(org, name, value, ttl) => AfterSet(store, org, name, value, ttl, t.now)
    case Invalidate(org, name) => AfterInvalidate(store, org, name)
  }

  function Exec(run: seq<Timed>): Store {
    if run == [] then map[] else Next(Exec(run[..|run| - 1]), run[|run| - 1])
  }

  /** Organization ids are colon-free (some may be empty) and the clock never goes back. */
  predicate Serial(run: seq<Timed>) {
    && (forall i :: 0 <= i < |run| ==> ':' !in run[i].op.org)
    && forall i, j :: 0 <= i < j < |run| ==> run[i].now <= run[j].now
  }

  /** What an organization last set under a name and has not invalidated since, expired or not. */
  function LastSet(run: seq<Timed>, org: string, name: string): Option<Entry> {
    if run == [] then None
    else
      var t := run[|run| - 1];
      var before := LastSet(run[..|run| - 1], org, name);
      match t.op
      case Get(_, _) => before
      case Set(o, n, value, ttl) => if o == org && n == name then Some(Entry(value, t.now + ttl * 1000.0)) else before
      case Invalidate(o, n) => if o == org && (n.GetOr("") == "" || n.value == name) then None else before
  }

  /** The stored entry is the last set one, unless that has expired and been dropped. */
  predicate Matches(store: Store, key: string, last: Option<Entry>, now: real) {
    if key in store then last == Some(store[key]) else last.None? || last.value.expiresAt < now
  }

  lemma StepMatches(store: Store, t: Timed, org: string, name: string, last: Option<Entry>, last': Option<Entry>,
                    now: real)
    requires org != "" && ':' !in org && ':' !in t.op.org && now <= t.now
    requires Matches(store, FlatKey(org, name), last, now)
    requires last' == match t.op
                      case Get(_, _) => last
                      case Set(o, n, value, ttl) =>
                        if o == org && n == name then Some(Entry(value, t.now + ttl * 1000.0)) else last
                      case Invalidate(o, n) => if o == org && (n.GetOr("") == "" || n.value == name) then None else last
    ensures Matches(Next(store, t), FlatKey(org, name), last', t.now)
  {
    var key := FlatKey(org, name);
    PrefixIsTenant(t.op.org, org, name);
    match t.op {
      case Get(o, n) => if FlatKey(o, n) == key { KeyInjective(o, n, org, name); }
      case Set(o, n, _, _) => if FlatKey(o, n) == key { KeyInjective(o, n, org, name); }
      case Invalidate(o, n) => if n.Some? && FlatKey(o, n.value) == key { KeyInjective(o, n.value, org, name); }
    }
    hide FlatKey, Prefix, StartsWith;
  }

  lemma {:induction false} RunMatches(run: seq<Timed>, org: string, name: string, now: real)
    requires Serial(run) && org != "" && ':' !in org && (run != [] ==> run[|run| - 1].now <= now)
    ensures Matches(Exec(run), FlatKey(org, name), LastSet(run, org, name), now)
  {
    if run != [] {
      hide Next, FlatKey;
      var n := |run| - 1;
      RunMatches(run[..n], org, name, run[n].now);
      StepMatches(Exec(run[..n]), run[n], org, name, LastSet(run[..n], org, name), LastSet(run, org, name), run[n].now);
    }
  }

  /** A get answers with the last value its own organization set under the name, if that was not invalidated since and
      has not expired; whatever other organizations did in between. */
  lemma {:induction false} GetReturnsLastSet(run: seq<Timed>, org: string, name: string, now: real)
    requires Serial(run) && org != "" && ':' !in org && (run != [] ==> run[|run| - 1].now <= now)
    ensures var last := LastSet(run, org, name);
            Lookup(Exec(run), FlatKey(org, name), now)
            == if last.Some? && last.value.expiresAt >= now then Some(last.value.value) else None
  {
    RunMatches(run, org, name, now);
  }

  /** Every entry of every reachable store is one that an organization has set; there are none without one. */
  lemma {:induction false} EntriesAreSet(run: seq<Timed>, key: string)
    requires key in Exec(run)
    ensures exists i :: 0 <= i < |run| && run[i].op.Set? && run[i].op.org != ""
                        && key == FlatKey(run[i].op.org, run[i].op.name)
                        && Exec(run)[key] == Entry(run[i].op.value, run[i].now + 1000.0 * run[i].op.ttlSeconds)
  {
    var n := |run| - 1;
    hide FlatKey;
    if run[n].op.Set? && run[n].op.org != "" && key == FlatKey(run[n].op.org, run[n].op.name) {
    } else {
      EntriesAreSet(run[..n], key);
    }
  }
}
