/** The store's two maps, the listing written to index.json, and the reload that reads it back. */
module Index {
  import opened Text

  /** A cleaned absolute path, as its components. */
  type Path = seq<string>

  datatype Entry = Entry(
    id: string, source: string, modelID: string, path: Path, sizeBytes: int,
    files: seq<string>, fetchedAt: int, lastUsedAt: int)

  /** Go's zero Entry, which a map read of an absent id yields. */
  const ZERO_ENTRY := Entry("", "", "", [], 0, [], 0, 0)

  /** `entries` (id to entry) and `byKey` ("source:model_id" to id). */
  datatype Maps = Maps(entries: map<string, Entry>, byKey: map<string, string>)

  const EMPTY_MAPS := Maps(map[], map[])

  /** What a store is built with: its root directory, the names in `fetchers`, the keys its
      callers ever use, and the digest behind `entryID`. */
  datatype Config = Config(root: Path, sources: set<string>, keys: set<string>, hash: string -> string)

  const INDEX_NAME := "index.json"
  const TEMP_PREFIX := ".index.json."

  predicate IsTempName(name: string) {
    TEMP_PREFIX <= name
  }

  predicate IsHexID(id: string) {
    && |id| == 16
    && forall i :: 0 <= i < |id| ==> '0' <= id[i] <= '9' || 'a' <= id[i] <= 'f'
  }

  /** The assumptions about the environment: source names hold no colon, and the digest gives
      16 hexadecimal digits and tells the keys in use apart. */
  ghost predicate ValidConfig(cfg: Config) {
    && (forall s :: s in cfg.sources ==> ':' !in s)
    && (forall k :: IsHexID(cfg.hash(k)))
    && (forall k1, k2 :: k1 in cfg.keys && k2 in cfg.keys && cfg.hash(k1) == cfg.hash(k2) ==> k1 == k2)
  }

  function KeyFor(source: string, modelID: string): string {
    source + ":" + modelID
  }

  function KeyOf(e: Entry): string {
    KeyFor(e.source, e.modelID)
  }

  /** Exactly when two sources can never produce the same key: neither, followed by a colon,
      starts the other. */
  lemma KeyForInjectiveIff(s1: string, s2: string)
    ensures (forall m1, m2 :: KeyFor(s1, m1) == KeyFor(s2, m2) ==> s1 == s2 && m1 == m2)
       <==> (s1 == s2 || (!(s1 + ":" <= s2) && !(s2 + ":" <= s1)))
  {
    if s1 == s2 || (!(s1 + ":" <= s2) && !(s2 + ":" <= s1)) {
      forall m1, m2 | KeyFor(s1, m1) == KeyFor(s2, m2) ensures s1 == s2 && m1 == m2 {
        if |s1| <= |s2| { SameKeyPrefix(s1, m1, s2, m2); } else { SameKeyPrefix(s2, m2, s1, m1); }
      }
    } else if s1 + ":" <= s2 {
      KeyCollision(s1, s2);
      assert KeyFor(s1, s2[|s1| + 1..] + ":") == KeyFor(s2, "");
    } else {
      KeyCollision(s2, s1);
      assert KeyFor(s1, "") == KeyFor(s2, s1[|s2| + 1..] + ":");
    }
  }

  lemma KeyCollision(s: string, t: string)
    requires s + ":" <= t
    ensures KeyFor(s, t[|s| + 1..] + ":") == KeyFor(t, "")
  {
    assert t == (s + ":") + t[|s| + 1..];
    assert KeyFor(s, t[|s| + 1..] + ":") == t + ":";
    assert KeyFor(t, "") == t + ":";
  }

  lemma SameKeyPrefix(s1: string, m1: string, s2: string, m2: string)
    requires KeyFor(s1, m1) == KeyFor(s2, m2) && |s1| <= |s2|
    ensures (s1 == s2 && m1 == m2) || s1 + ":" <= s2
  {
    var k := KeyFor(s1, m1);
    assert k[..|s1|] == s1 && k[|s1|] == ':' && k[|s1| + 1..] == m1;
    assert k[..|s2|] == s2 && k[|s2|] == ':' && k[|s2| + 1..] == m2;
    if |s1| < |s2| {
      assert s2[..|s1| + 1] == k[..|s1| + 1] == s1 + ":";
    }
  }

  /** Colon-free sources meet that condition. */
  lemma KeyForInjective(s1: string, m1: string, s2: string, m2: string)
    requires ':' !in s1 && ':' !in s2
    requires KeyFor(s1, m1) == KeyFor(s2, m2)
    ensures s1 == s2 && m1 == m2
  {
    ColonPrefix(s1, s2);
    ColonPrefix(s2, s1);
    if |s1| <= |s2| { SameKeyPrefix(s1, m1, s2, m2); } else { SameKeyPrefix(s2, m2, s1, m1); }
  }

  lemma ColonPrefix(s: string, t: string)
    ensures s + ":" <= t ==> ':' in t
  {
    if s + ":" <= t { assert t[|s|] == ':'; }
  }

  // ---------- Consistency of the two maps ----------

  predicate Disjoint(a: Path, b: Path) {
    !(a <= b) && !(b <= a)
  }

  /** The entry's files are in the directory the store chose, or wholly outside its root. */
  predicate PathOK(cfg: Config, e: Entry) {
    e.path == cfg.root + [e.id] || Disjoint(cfg.root, e.path)
  }

  predicate EntryOK(cfg: Config, e: Entry) {
    e.source in cfg.sources && KeyOf(e) in cfg.keys && e.id == cfg.hash(KeyOf(e)) && PathOK(cfg, e)
  }

  /** `entries` and `byKey` are exact inverses of each other. */
  ghost predicate Consistent(cfg: Config, m: Maps) {
    && (forall id :: id in m.entries ==> m.entries[id].id == id && EntryOK(cfg, m.entries[id]))
    && (forall id :: id in m.entries ==> KeyOf(m.entries[id]) in m.byKey && m.byKey[KeyOf(m.entries[id])] == id)
    && (forall k :: k in m.byKey ==> m.byKey[k] in m.entries && KeyOf(m.entries[m.byKey[k]]) == k)
  }

  function WithEntry(m: Maps, e: Entry): Maps {
    Maps(m.entries[e.id := e], m.byKey[KeyOf(e) := e.id])
  }

  function WithoutEntry(m: Maps, e: Entry): Maps {
    Maps(m.entries - {e.id}, m.byKey - {KeyOf(e)})
  }

  function Touch(m: Maps, id: string, now: int): Maps
    requires id in m.entries
  {
    m.(entries := m.entries[id := m.entries[id].(lastUsedAt := now)])
  }

  /** Under consistency an entry's id is indexed exactly when its key is. */
  lemma IndexedIff(cfg: Config, m: Maps, key: string)
    requires ValidConfig(cfg) && Consistent(cfg, m) && key in cfg.keys
    ensures key in m.byKey <==> cfg.hash(key) in m.entries
    ensures key in m.byKey ==> m.byKey[key] == cfg.hash(key)
  {
    if cfg.hash(key) in m.entries {
      assert KeyOf(m.entries[cfg.hash(key)]) == key;
    }
  }

  lemma StagedConsistent(cfg: Config, m: Maps, e: Entry)
    requires ValidConfig(cfg) && Consistent(cfg, m) && EntryOK(cfg, e)
    ensures Consistent(cfg, WithEntry(m, e))
  {
    IndexedIff(cfg, m, KeyOf(e));
  }

  lemma RemovedConsistent(cfg: Config, m: Maps, e: Entry)
    requires Consistent(cfg, m) && e.id in m.entries && m.entries[e.id] == e
    ensures Consistent(cfg, WithoutEntry(m, e))
  {
  }

  lemma TouchedConsistent(cfg: Config, m: Maps, id: string, now: int)
    requires Consistent(cfg, m) && id in m.entries
    ensures Consistent(cfg, Touch(m, id, now))
  {
    var t := Touch(m, id, now);
    assert forall x :: x in t.entries ==> KeyOf(t.entries[x]) == KeyOf(m.entries[x]);
  }

  /** The delete-based rollback of a staging restores the maps exactly when neither the id nor
      the key was there before. */
  lemma RollbackExactIff(m: Maps, e: Entry)
    ensures WithoutEntry(WithEntry(m, e), e) == m <==> e.id !in m.entries && KeyOf(e) !in m.byKey
  {
    var r := WithoutEntry(WithEntry(m, e), e);
    assert e.id !in r.entries && KeyOf(e) !in r.byKey;
    if e.id !in m.entries && KeyOf(e) !in m.byKey {
      assert r.entries == m.entries && r.byKey == m.byKey;
    }
  }

  /** The re-insertion after a failed Delete restores the maps exactly. */
  lemma ReinsertExact(cfg: Config, m: Maps, e: Entry)
    requires Consistent(cfg, m) && e.id in m.entries && m.entries[e.id] == e
    ensures WithEntry(WithoutEntry(m, e), e) == m
  {
    var r := WithEntry(WithoutEntry(m, e), e);
    assert r.entries == m.entries && r.byKey == m.byKey;
  }

  /** The second map is determined by the first. */
  lemma ByKeyDetermined(cfg: Config, m: Maps, n: Maps)
    requires Consistent(cfg, m) && Consistent(cfg, n) && m.entries == n.entries
    ensures m == n
  {
    assert m.byKey == n.byKey;
  }

  // ---------- The listing ----------

  function ID(e: Entry): string { e.id }

  ghost predicate StrictByID(s: seq<Entry>) {
    forall i, j :: 0 <= i < j < |s| ==> Less(s[i].id, s[j].id)
  }

  /** A strictly ID-increasing sequence that holds exactly the map's entries. */
  ghost predicate IsListing(s: seq<Entry>, entries: map<string, Entry>) {
    && StrictByID(s)
    && forall e :: e in s <==> (e.id in entries && entries[e.id] == e)
  }

  /** There is only one listing of a map, so the order in which the map was iterated is lost. */
  lemma {:induction false} ListingUnique(s: seq<Entry>, t: seq<Entry>)
    requires StrictByID(s) && StrictByID(t)
    requires forall e :: e in s <==> e in t
    ensures s == t
  {
    HasHead(s);
    HasHead(t);
    if s != [] && t != [] {
      ListingHeads(s, t);
      var a := s[0];
      assert s == [a] + s[1..] && t == [a] + t[1..];
      LessIrreflexive(a.id);
      assert a !in s[1..] && a !in t[1..];
      forall e ensures e in s[1..] <==> e in t[1..] {
        assert e in s <==> e == a || e in s[1..];
        assert e in t <==> e == a || e in t[1..];
      }
      ListingUnique(s[1..], t[1..]);
    }
  }

  lemma HasHead(s: seq<Entry>)
    ensures s != [] ==> s[0] in s
  {
  }

  lemma ListingHeads(s: seq<Entry>, t: seq<Entry>)
    requires StrictByID(s) && StrictByID(t) && s != [] && t != []
    requires forall e :: e in s <==> e in t
    ensures s[0] == t[0]
  {
    assert s[0] in t && t[0] in s;
    var i :| 0 <= i < |t| && t[i] == s[0];
    var j :| 0 <= j < |s| && s[j] == t[0];
    if i > 0 && j > 0 {
      assert Less(t[0].id, s[0].id) && Less(s[0].id, t[0].id);
      LessTotal(s[0].id, t[0].id);
    }
  }

  /** Two listings of the same map are equal. */
  lemma SameListing(s: seq<Entry>, t: seq<Entry>, entries: map<string, Entry>)
    requires IsListing(s, entries) && IsListing(t, entries)
    ensures s == t
  {
    ListingUnique(s, t);
  }

  /** In a listing the smaller character is in front where two ids first differ. */
  lemma ListingAscends(s: seq<Entry>)
    requires StrictByID(s)
    ensures forall j: nat, k: nat, i: nat ::
              j < k < |s| && i < |s[j].id| && i < |s[k].id|
              && s[j].id[..i] == s[k].id[..i] && s[j].id[i] != s[k].id[i] ==>
                s[j].id[i] < s[k].id[i]
    ensures forall j, k :: 0 <= j < k < |s| ==> s[j] != s[k]
  {
    forall j: nat, k: nat, i: nat | j < k < |s| && i < |s[j].id| && i < |s[k].id|
                                    && s[j].id[..i] == s[k].id[..i] && s[j].id[i] != s[k].id[i]
      ensures s[j].id[i] < s[k].id[i]
    {
      LessTotal(s[j].id, s[k].id);
      InOrder(s[j].id, s[k].id);
    }
    forall j, k | 0 <= j < k < |s| ensures s[j] != s[k] { LessIrreflexive(s[j].id); }
  }

  // ---------- The reload ----------

  /** `loadIndex`: insert every entry of the file in order. */
  function Load(s: seq<Entry>): Maps {
    if s == [] then EMPTY_MAPS else WithEntry(Load(s[..|s| - 1]), s[|s| - 1])
  }

  /** Whatever an index lists, the last entry of an id is the one loaded, and the last of a key has it. */
  lemma {:induction false} LastOneLoads(s: seq<Entry>, i: nat)
    requires i < |s|
    ensures (forall j :: i < j < |s| ==> s[j].id != s[i].id) ==>
              s[i].id in Load(s).entries && Load(s).entries[s[i].id] == s[i]
    ensures (forall j :: i < j < |s| ==> KeyOf(s[j]) != KeyOf(s[i])) ==>
              KeyOf(s[i]) in Load(s).byKey && Load(s).byKey[KeyOf(s[i])] == s[i].id
  {
    hide KeyOf;
    if i < |s| - 1 {
      var t, last := s[..|s| - 1], s[|s| - 1];
      LastOneLoads(t, i);
      assert forall j :: 0 <= j < |t| ==> t[j] == s[j];
    }
  }

  /** And nothing else is loaded. */
  lemma {:induction false} OnlyListedLoads(s: seq<Entry>)
    ensures forall id :: id in Load(s).entries ==> Load(s).entries[id] in s && Load(s).entries[id].id == id
    ensures forall k :: k in Load(s).byKey ==> exists e :: e in s && KeyOf(e) == k && e.id == Load(s).byKey[k]
  {
    hide KeyOf;
    if s != [] {
      var t, last := s[..|s| - 1], s[|s| - 1];
      OnlyListedLoads(t);
      assert s == t + [last];
      assert last in s && forall e :: e in t ==> e in s;
    }
  }

  ghost predicate DistinctIDs(s: seq<Entry>) {
    forall i, j :: 0 <= i < j < |s| ==> s[i].id != s[j].id
  }

  lemma {:induction false} LoadEntries(s: seq<Entry>)
    requires DistinctIDs(s)
    ensures forall i :: 0 <= i < |s| ==> s[i].id in Load(s).entries && Load(s).entries[s[i].id] == s[i]
    ensures forall id :: id in Load(s).entries ==> Load(s).entries[id] in s && Load(s).entries[id].id == id
  {
    if s != [] {
      var t, last := s[..|s| - 1], s[|s| - 1];
      LoadEntries(t);
      assert s == t + [last];
      assert Load(s).entries == Load(t).entries[last.id := last];
    }
  }

  /** Whatever the file lists, the reloaded maps are inverses of each other. */
  lemma {:induction false} LoadConsistent(cfg: Config, s: seq<Entry>)
    requires ValidConfig(cfg)
    requires forall e :: e in s ==> EntryOK(cfg, e)
    ensures Consistent(cfg, Load(s))
  {
    if s != [] {
      var t, last := s[..|s| - 1], s[|s| - 1];
      assert last in s;
      LoadConsistent(cfg, t);
      StagedConsistent(cfg, Load(t), last);
    }
  }

  /** Loading the listing of consistent maps rebuilds both maps exactly. */
  lemma LoadRebuilds(cfg: Config, s: seq<Entry>, m: Maps)
    requires ValidConfig(cfg) && Consistent(cfg, m) && IsListing(s, m.entries)
    ensures Load(s) == m
  {
    LoadConsistent(cfg, s);
    ListingDistinct(s);
    LoadEntries(s);
    var r := Load(s);
    forall id | id in m.entries ensures id in r.entries && r.entries[id] == m.entries[id] {
      assert m.entries[id] in s;
      var i :| 0 <= i < |s| && s[i] == m.entries[id];
    }
    assert r.entries == m.entries;
    ByKeyDetermined(cfg, r, m);
  }

  lemma ListingDistinct(s: seq<Entry>)
    requires StrictByID(s)
    ensures DistinctIDs(s)
  {
    forall i, j | 0 <= i < j < |s| ensures s[i].id != s[j].id {
      LessIrreflexive(s[i].id);
    }
  }
}
