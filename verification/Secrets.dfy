/** The OpenBao provider: keys, the cache and `Get`. */
module Secrets {
  import opened Wrappers

  datatype Error =
    | EmptyKey | EmptyPath | EmptyField | RequestFailed | BadStatus | BadBody | FieldMissing | FieldNotString

  /** A secret's path and the field within it. */
  datatype Place = Place(path: string, field: string)

  const DEFAULT_FIELD := "value"

  // ---------- Keys ----------

  function FirstHash(key: string): (i: int)
    ensures -1 <= i < |key|
    ensures forall j :: 0 <= j < (if i == -1 then |key| else i) ==> key[j] != '#'
    ensures i >= 0 ==> key[i] == '#'
  {
    if key == "" then -1
    else if key[0] == '#' then 0
    else
      var i := FirstHash(key[1..]);
      if i == -1 then -1 else i + 1
  }

  function Parse(key: string): Result<Place, Error> {
    var i := FirstHash(key);
    if key == "" then Err(EmptyKey)
    else if i == -1 then Ok(Place(key, DEFAULT_FIELD))
    else if i == 0 then Err(EmptyPath)
    else if i == |key| - 1 then Err(EmptyField)
    else Ok(Place(key[..i], key[i + 1..]))
  }

  lemma {:induction false} HashAt(key: string, k: nat)
    requires k < |key| && key[k] == '#' && forall j :: 0 <= j < k ==> key[j] != '#'
    ensures FirstHash(key) == k
  {
    if k > 0 { HashAt(key[1..], k - 1); }
  }

  lemma {:induction false} NoHash(key: string)
    requires '#' !in key
    ensures FirstHash(key) == -1
  {
    if key != "" { NoHash(key[1..]); }
  }

  /** A nonempty path without '#' and a nonempty field come back from their key, '#' in the field or not. */
  lemma ParseRecovers(p: Place)
    requires p.path != "" && '#' !in p.path && p.field != ""
    ensures Parse(p.path + "#" + p.field) == Ok(p)
  {
    var key := p.path + "#" + p.field;
    HashAt(key, |p.path|);
    assert key[..|p.path|] == p.path && key[|p.path| + 1..] == p.field;
  }

  /** Exactly what a key can parse to. */
  lemma ParseIff(key: string, p: Place)
    ensures Parse(key) == Ok(p) <==> p.path != "" && '#' !in p.path
                                     && ((p.field != "" && key == p.path + "#" + p.field)
                                           || (p.field == "value" && key == p.path))
  {
    var i := FirstHash(key);
    if i >= 0 { assert key == key[..i] + "#" + key[i + 1..]; }
    if p.path != "" && '#' !in p.path {
      if p.field != "" && key == p.path + "#" + p.field { ParseRecovers(p); }
      if p.field == DEFAULT_FIELD && key == p.path { NoHash(key); }
    }
  }

  /** Exactly when a key does not parse, and why. */
  lemma ParseErrIff(key: string)
    ensures Parse(key) == Err(EmptyKey) <==> key == ""
    ensures Parse(key) == Err(EmptyPath) <==> key != "" && key[0] == '#'
    ensures Parse(key) == Err(EmptyField) <==>
              |key| >= 2 && key[|key| - 1] == '#' && forall i :: 0 <= i < |key| - 1 ==> key[i] != '#'
  {
    var i := FirstHash(key);
    if key != "" && key[|key| - 1] == '#' && forall j :: 0 <= j < |key| - 1 ==> key[j] != '#' {
      HashAt(key, |key| - 1);
    }
    if key != "" && key[0] == '#' { HashAt(key, 0); }
  }

  /** `parseKey`. */
  method ParseKey(key: string) returns (r: Result<Place, Error>)
    ensures r == Parse(key)
  {
    for i := 0 to |key|
      invariant forall j :: 0 <= j < i ==> key[j] != '#'
    {
      if key[i] == '#' {
        HashAt(key, i);
        var path, field := key[..i], key[i + 1..];
        if path == "" { return Err(EmptyPath); }
        if field == "" { return Err(EmptyField); }
        return Ok(Place(path, field));
      }
    }
    NoHash(key);
    if key == "" { return Err(EmptyKey); }
    r := Ok(Place(key, DEFAULT_FIELD));
  }

  // ---------- The server's reply ----------

  datatype Json = Text(text: string) | Other

  datatype Reply = NoReply | Status(code: int) | Garbled | Data(fields: map<string, Json>)

  /** `fetchSecret` after the request: only a 200 with a string in the field will do. */
  function Extract(reply: Reply, field: string): Result<string, Error> {
    match reply
    case NoReply => Err(RequestFailed)
    case Status(_) => Err(BadStatus)
    case Garbled => Err(BadBody)
    case Data(fields) =>
      if field !in fields then Err(FieldMissing)
      else match fields[field] case Text(t) => Ok(t) case Other => Err(FieldNotString)
  }

  /** The one reply that gives a value, and what each other one is an error of. */
  lemma ExtractMeans(reply: Reply, field: string)
    ensures forall v :: Extract(reply, field) == Ok(v) <==>
              reply.Data? && field in reply.fields && reply.fields[field] == Text(v)
    ensures Extract(reply, field) == Err(RequestFailed) <==> reply == NoReply
    ensures Extract(reply, field) == Err(BadStatus) <==> reply.Status?
    ensures Extract(reply, field) == Err(BadBody) <==> reply == Garbled
    ensures Extract(reply, field) == Err(FieldMissing) <==> reply.Data? && field !in reply.fields
    ensures Extract(reply, field) == Err(FieldNotString) <==>
              reply.Data? && field in reply.fields && reply.fields[field] == Other
  {
  }

  /** The server over time: what it replies for a place at each moment. */
  type Server = (Place, int) -> Reply

  /** The server's value for the key at the moment `at`, when there is one. */
  predicate Gave(server: Server, key: string, at: int, value: string) {
    Parse(key).Ok? && Extract(server(Parse(key).value, at), Parse(key).value.field) == Ok(value)
  }

  // ---------- The cache ----------

  /** An entry, with the moments behind it: when the server gave the value, and when the Get that
      stored it began and stored it. */
  datatype Cached = Cached(value: string, expires: int, given: int, began: int, stored: int)

  type Cache = map<string, Cached>

  /** `fromCache`: what is found, and what is left. */
  function Found(cache: Cache, key: string, now: int): Option<string> {
    if key in cache && now <= cache[key].expires then Some(cache[key].value) else None
  }

  function AfterLookup(cache: Cache, key: string, now: int): Cache {
    if key in cache && now > cache[key].expires then cache - {key} else cache
  }

  /** `toCache`, which `Get` calls only for a positive lifetime. */
  function Stored(cache: Cache, key: string, value: string, given: int, began: int, now: int, ttl: int): Cache {
    if ttl > 0 then cache[key := Cached(value, now + ttl, given, began, now)] else cache
  }

  predicate EntryOK(server: Server, key: string, c: Cached, ttl: int, now: int) {
    ttl > 0 && Gave(server, key, c.given, c.value) && c.expires == c.stored + ttl
          && c.began <= c.given <= c.stored <= now
  }

  predicate CacheOK(server: Server, cache: Cache, ttl: int, now: int) {
    forall key :: key in cache ==> EntryOK(server, key, cache[key], ttl, now)
  }

  // ---------- Any interleaving of Gets ----------

  /** What a Get does to the cache, under the mutex: a lookup, or the storing of what the server gave
      at `given` to a Get that began at `began`. In between time passes. */
  datatype Op = Look(key: string) | Put(key: string, value: string, given: int, began: int) | Tick(later: int)

  datatype State = State(cache: Cache, now: int)

  predicate Enabled(server: Server, s: State, op: Op) {
    match op
    case Look(key) => Parse(key).Ok?
    case Put(key, value, given, began) => began <= given <= s.now && Gave(server, key, given, value)
    case Tick(later) => s.now <= later
  }

  function Next(s: State, op: Op, ttl: int): State {
    match op
    case Look(key) => s.(cache := AfterLookup(s.cache, key, s.now))
    case Put(key, value, given, began) => s.(cache := Stored(s.cache, key, value, given, began, s.now, ttl))
    case Tick(later) => s.(now := later)
  }

  ghost predicate IsRun(server: Server, ttl: int, states: seq<State>, ops: seq<Op>) {
    && |states| == |ops| + 1 && states[0].cache == map[]
    && forall i :: 0 <= i < |ops| ==>
          Enabled(server, states[i], ops[i]) && states[i + 1] == Next(states[i], ops[i], ttl)
  }

  /** Step `j` stored what the entry holds. */
  predicate PutAt(states: seq<State>, ops: seq<Op>, j: nat, key: string, c: Cached) {
    j < |ops| && j < |states| && ops[j] == Put(key, c.value, c.given, c.began) && states[j].now == c.stored
  }

  lemma {:induction false} RunHolds(server: Server, ttl: int, states: seq<State>, ops: seq<Op>, i: nat)
    requires IsRun(server, ttl, states, ops) && i < |states|
    ensures CacheOK(server, states[i].cache, ttl, states[i].now)
  {
    hide Gave;
    if i > 0 {
      RunHolds(server, ttl, states, ops, i - 1);
      assert Enabled(server, states[i - 1], ops[i - 1]) && states[i] == Next(states[i - 1], ops[i - 1], ttl);
    }
  }

  /** Every entry was put by a step of the run. */
  lemma {:induction false} EntryWasPut(server: Server, ttl: int, states: seq<State>, ops: seq<Op>, i: nat, key: string)
    requires IsRun(server, ttl, states, ops) && i < |states| && key in states[i].cache
    ensures exists j: nat :: j < i && PutAt(states, ops, j, key, states[i].cache[key])
  {
    hide Gave;
    if i > 0 {
      assert Enabled(server, states[i - 1], ops[i - 1]) && states[i] == Next(states[i - 1], ops[i - 1], ttl);
      if key in states[i - 1].cache && states[i].cache[key] == states[i - 1].cache[key] {
        EntryWasPut(server, ttl, states, ops, i - 1, key);
      } else {
        assert PutAt(states, ops, i - 1, key, states[i].cache[key]);
      }
    }
  }

  /** The store behind a hit: step `j` put the value, the server gave it for exactly this key's path
      and field while the storing Get was under way, and at the hit it is no older than the lifetime
      plus the time that Get took. */
  predicate FreshEnough(server: Server, ttl: int, states: seq<State>, ops: seq<Op>, j: nat, key: string,
        value: string, now: int) {
    && j < |ops| && j < |states| && ops[j].Put? && ops[j].key == key && ops[j].value == value
    && Gave(server, key, ops[j].given, value)
    && ops[j].began <= ops[j].given <= states[j].now
    && now - ops[j].given <= ttl + (states[j].now - ops[j].began)
  }

  lemma BoundedStaleness(server: Server, ttl: int, states: seq<State>, ops: seq<Op>, i: nat, key: string)
    requires IsRun(server, ttl, states, ops) && i < |states|
    requires Found(states[i].cache, key, states[i].now).Some?
    ensures ttl > 0
    ensures exists j: nat :: j < i && FreshEnough(server, ttl, states, ops, j, key,
          Found(states[i].cache, key, states[i].now).value, states[i].now)
  {
    RunHolds(server, ttl, states, ops, i);
    EntryWasPut(server, ttl, states, ops, i, key);
    var j: nat :| j < i && PutAt(states, ops, j, key, states[i].cache[key]);
    assert EntryOK(server, key, states[i].cache[key], ttl, states[i].now);
    assert FreshEnough(server, ttl, states, ops, j, key, states[i].cache[key].value, states[i].now);
  }

  /** Without a positive lifetime nothing is ever cached. */
  lemma NothingCached(server: Server, ttl: int, states: seq<State>, ops: seq<Op>, i: nat)
    requires IsRun(server, ttl, states, ops) && i < |states| && ttl <= 0
    ensures states[i].cache == map[]
  {
    RunHolds(server, ttl, states, ops, i);
  }

  // ---------- The provider ----------

  /** Where a result came from: the cache, or the server at a moment. */
  datatype Origin = FromServer(given: int) | FromEntry(entry: Cached, at: int)

  /** A value `Get` may give back, having begun at `began`. */
  predicate Justified(server: Server, ttl: int, key: string, value: string, origin: Origin, began: int, now: int) {
    match origin
    case FromServer(given) => began <= given <= now && Gave(server, key, given, value)
    case FromEntry(c, at) =>
      && c.value == value && Gave(server, key, c.given, value) && began <= at <= now
      && at - c.given <= ttl + (c.stored - c.began)
  }

  class Provider {
    const ttl: int
    const server: Server
    const reachable: bool  // whether every request reaches the server
    var cache: Cache
    var now: int

    constructor (ttl: int, server: Server, reachable: bool, now: int)
      ensures this.ttl == ttl && this.server == server && this.reachable == reachable && this.now == now
      ensures cache == map[] && Valid()
    {
      this.ttl, this.server, this.reachable, this.now, cache := ttl, server, reachable, now, map[];
    }

    predicate Valid()
      reads this
    {
      CacheOK(server, cache, ttl, now)
    }

    /** Time passes and other Gets work on the cache. */
    method Others()
      requires Valid()
      modifies this
      ensures Valid() && now >= old(now)
    {
      hide EntryOK;
      var later: int := *;
      var theirs: Cache := *;
      if later >= now {
        Aging(server, cache, ttl, now, later);
        now := later;
      }
      if CacheOK(server, theirs, ttl, now) { cache := theirs; }
    }

    method FromCache(key: string) returns (r: Option<string>)
      modifies this`cache
      ensures r == Found(old(cache), key, now) && cache == AfterLookup(old(cache), key, now)
      ensures key in old(cache) && now <= old(cache)[key].expires ==>
                r == Some(old(cache)[key].value) && cache == old(cache)
      ensures key in old(cache) && now > old(cache)[key].expires ==> r == None && cache == old(cache) - {key}
      ensures key !in old(cache) ==> r == None && cache == old(cache)
    {
      if key !in cache { return None; }
      var entry := cache[key];
      if now > entry.expires {
        cache := cache - {key};
        return None;
      }
      r := Some(entry.value);
    }

    method ToCache(key: string, value: string, lifetime: int, given: int, began: int)
      requires lifetime > 0
      modifies this`cache
      ensures cache == Stored(old(cache), key, value, given, began, now, lifetime)
      ensures key in cache && cache[key].value == value && cache[key].expires == now + lifetime
      ensures forall k :: k != key ==> (k in cache <==> k in old(cache)) && (k in cache ==> cache[k] == old(cache)[k])
    {
      cache := cache[key := Cached(value, now + lifetime, given, began, now)];
    }

    /** `Get`. A key that does not parse is an error whatever the cache holds; a value is the server's
        own for that path and field, of a moment during the call or of an entry fresh enough. */
    method Get(key: string) returns (r: Result<string, Error>, ghost origin: Origin)
      requires Valid()
      modifies this
      ensures Valid() && now >= old(now)
      ensures Parse(key).Err? ==> r == Err(Parse(key).error) && cache == old(cache)
      ensures r.Ok? ==> Justified(server, ttl, key, r.value, origin, old(now), now)
      ensures Parse(key).Ok? && key in old(cache) && old(now) <= old(cache)[key].expires ==>
                r == Ok(old(cache)[key].value) && origin.FromEntry? && cache == old(cache) && now == old(now)
      ensures Parse(key).Ok? && !(key in old(cache) && old(now) <= old(cache)[key].expires) ==>
                && origin.FromServer? && old(now) <= origin.given <= now
                && (r == Extract(server(Parse(key).value, origin.given), Parse(key).value.field)
                    || (r == Err(RequestFailed) && !reachable))
                && (r.Ok? && ttl > 0 ==>
                      key in cache && cache[key] == Cached(r.value, now + ttl, origin.given, old(now), now))
      ensures ttl <= 0 ==> cache == map[] && (r.Ok? ==> origin.FromServer?)
    {
      origin := FromServer(0);
      var place := ParseKey(key);
      if place.Err? { return Err(place.error), origin; }
      var began := now;
      ghost var entries := cache;
      var val := FromCache(key);
      if val.Some? {
        origin := FromEntry(entries[key], now);
        assert EntryOK(server, key, entries[key], ttl, now);
        return Ok(val.value), origin;
      }
      assert Valid();
      Others();
      var given := now;
      var lost: bool := *;
      r := if lost && !reachable then Err(RequestFailed) else Extract(server(place.value, given), place.value.field);
      origin := FromServer(given);
      Others();
      if r.Ok? && ttl > 0 { ToCache(key, r.value, ttl, given, began); }
    }
  }

  lemma Aging(server: Server, cache: Cache, ttl: int, now: int, later: int)
    requires CacheOK(server, cache, ttl, now) && now <= later
    ensures CacheOK(server, cache, ttl, later)
  {
  }
}
