/** The store as an object: the code between taking the mutex and giving it back, and Fetch as one
    caller sees it when no other runs. */
module ModelStore {
  import opened Text
  import opened Wrappers
  import opened Index
  import opened Files
  import opened StoreCore
  import opened StoreSystem
  import opened StoreSafety

  // ---------- Listings exist, fresh temporary names exist ----------

  lemma SortedIsListing(entries: map<string, Entry>, out: seq<Entry>, s: seq<Entry>)
    requires forall id :: id in entries ==> entries[id].id == id
    requires forall e :: e in out <==> e.id in entries && entries[e.id] == e
    requires DistinctIDs(out)
    requires SortedBy(ID, s) && multiset(s) == multiset(out)
    ensures IsListing(s, entries)
  {
    forall e ensures e in s <==> e in out {
      assert e in s <==> e in multiset(s);
      assert e in out <==> e in multiset(out);
    }
    forall i, j | 0 <= i < j < |s| ensures Less(s[i].id, s[j].id) {
      LessTotal(s[i].id, s[j].id);
      if s[i].id == s[j].id {
        assert s[i] in s && s[j] in s;
        assert s[i] == s[j];
        TwiceInSorted(s, i, j);
        OnceWhenDistinct(out, s[i]);
      }
    }
  }

  lemma TwiceInSorted(s: seq<Entry>, i: nat, j: nat)
    requires i < j < |s| && s[i] == s[j]
    ensures multiset(s)[s[i]] >= 2
  {
    assert s == s[..j] + [s[j]] + s[j + 1..];
    assert s[i] in s[..j];
  }

  lemma {:induction false} OnceWhenDistinct(out: seq<Entry>, e: Entry)
    requires DistinctIDs(out)
    ensures multiset(out)[e] <= 1
  {
    if out != [] {
      var init, last := out[..|out| - 1], out[|out| - 1];
      assert out == init + [last];
      OnceWhenDistinct(init, e);
      assert forall i :: 0 <= i < |init| ==> init[i] == out[i] && out[i].id != last.id;
    }
  }

  lemma ListedMore(entries: map<string, Entry>, id: string, rest: seq<Entry>)
    requires forall i :: i in entries ==> entries[i].id == i
    requires id in entries && IsListing(rest, entries - {id})
    ensures IsListing(SortBy(ID, rest + [entries[id]]), entries)
  {
    var out := rest + [entries[id]];
    forall e ensures e in out <==> e.id in entries && entries[e.id] == e {
      assert e in rest <==> e.id in entries - {id} && (entries - {id})[e.id] == e;
    }
    ListingDistinct(rest);
    forall i | 0 <= i < |rest| ensures rest[i].id != id {
      assert rest[i] in rest;
    }
    hide IsListing, SortedBy;
    SortedIsListing(entries, out, SortBy(ID, out));
  }

  /** Every map keyed by id has a listing. */
  lemma {:induction false} ListingExists(entries: map<string, Entry>) returns (s: seq<Entry>)
    requires forall id :: id in entries ==> entries[id].id == id
    ensures IsListing(s, entries)
    decreases |entries|
  {
    if entries == map[] {
      s := [];
    } else {
      var id :| id in entries;
      var rest := ListingExists(entries - {id});
      hide IsListing, SortBy;
      ListedMore(entries, id, rest);
      s := SortBy(ID, rest + [entries[id]]);
    }
  }

  /** A temporary name no file has yet always exists. */
  lemma FreshTemp(names: set<string>)
    ensures exists t :: IsTempName(t) && t !in names
  {
    var t := S.FreshBehind(TEMP_PREFIX, names);
    assert IsTempName(t) && t !in names;
  }

  // ---------- The object ----------

  /** What a fetcher left in its directory and the walk over it measured. */
  datatype Staged = Staged(tree: Tree, reported: seq<string>, size: int, discovered: seq<string>)

  /** How far a fetch gets before the lock: no directory; a fetcher that fails, leaving what its cleanup
      could not remove; a directory that cannot be measured; or one that is ready to be staged. */
  datatype Work = NoDirectory | FetcherError(remains: Option<Tree>) | Unmeasured(tree: Tree) | Ready(staged: Staged)

  /** The size and names are what a walk over the directory measures. */
  ghost predicate WorkOK(w: Work) {
    w.Ready? ==> Measured(w.staged.tree, w.staged.size, w.staged.discovered)
  }

  /** The error of a fetch that got no further. */
  function WorkError(w: Work): Option<Error> {
    match w
    case NoDirectory => Some(MkdirFailed)
    case FetcherError(_) => Some(FetcherFailed)
    case Unmeasured(_) => Some(MeasureFailed)
    case Ready(_) => None
  }

  /** Nothing but the index, temporary files and what stands under `id` differs. */
  ghost predicate SameExcept(id: string, d: Disk, d': Disk) {
    forall n :: n != id && n != INDEX_NAME && !IsTempName(n) ==> SameAt(d, d', n)
  }

  lemma SameExceptThenOther(id: string, d: Disk, mid: Disk, d': Disk)
    requires SameExcept(id, d, mid) && SameOther(mid, d')
    ensures SameExcept(id, d, d')
    ensures id != INDEX_NAME && !IsTempName(id) ==> SameAt(mid, d', id)
  {
    forall n | n != id && n != INDEX_NAME && !IsTempName(n) ensures SameAt(d, d', n) {
      assert SameAt(d, mid, n) && SameAt(mid, d', n);
    }
  }

  lemma Installed(cfg: Config, d: Disk, tmp: string, listing: seq<Entry>, m: Maps)
    requires ValidConfig(cfg) && Consistent(cfg, m) && IsListing(listing, m.entries) && IsTempName(tmp) && DiskShape(d)
    ensures var d' := (d - {tmp})[INDEX_NAME := IndexFile(listing)];
            IndexOK(cfg, d') && Reload(d') == m && ReadIndex(d') == listing
  {
    assert TEMP_PREFIX[0] != INDEX_NAME[0];
    LoadRebuilds(cfg, listing, m);
  }

  lemma DirChanged(cfg: Config, d: Disk, id: string, dir: Option<Tree>)
    requires IndexOK(cfg, d) && id != INDEX_NAME && !IsTempName(id)
    ensures IndexOK(cfg, WithModelDir(d, id, dir)) && ReadIndex(WithModelDir(d, id, dir)) == ReadIndex(d)
    ensures Reload(WithModelDir(d, id, dir)) == Reload(d)
  {
  }

  lemma SameExceptSelf(id: string, d: Disk)
    ensures SameExcept(id, d, d)
  {
  }

  lemma SameOtherSelf(d: Disk)
    ensures SameOther(d, d)
  {
  }

  lemma DeleteFacts(cfg: Config, m: Maps, id: string)
    requires ValidConfig(cfg) && Consistent(cfg, m) && id in m.entries
    ensures m.entries[id].id == id && id != INDEX_NAME && !IsTempName(id)
    ensures IsDefault(cfg, m.entries[id]) ==> cfg.root <= m.entries[id].path
    ensures cfg.root <= m.entries[id].path <==> m.entries[id].path == cfg.root + [id]
  {
    HexIsPlain(cfg, KeyOf(m.entries[id]));
  }

  lemma OlderSelf(cfg: Config, m: Maps)
    ensures Older(m.entries, m.entries)
  {
  }

  /** The maps change in one entry's LastUsedAt. */
  lemma MarkedStays(cfg: Config, d: Disk, m: Maps, id: string, now: int)
    requires ValidConfig(cfg) && Consistent(cfg, m) && Older(Reload(d).entries, m.entries) && UsedBefore(m, now)
          && id in m.entries
    ensures Consistent(cfg, Touch(m, id, now)) && Older(Reload(d).entries, Touch(m, id, now).entries)
    ensures UsedBefore(Touch(m, id, now), now)
  {
    TouchedConsistent(cfg, m, id, now);
    OlderTouched(m, id, now);
    OlderTransitive(Reload(d).entries, m.entries, Touch(m, id, now).entries);
  }

  /** What the fetcher reported, or else what the walk found. */
  function FilesOf(staged: Staged): seq<string> {
    if staged.reported == [] then staged.discovered else staged.reported
  }

  /** The entry `doFetch` builds. */
  function NewEntry(cfg: Config, req: Request, staged: Staged, now: int): Entry {
    var files := SortBy(Same, FilesOf(staged));
    Entry(cfg.hash(Key(req)), req.source, req.modelID, DestOf(cfg, req), staged.size, files, now, now)
  }

  lemma NewEntryFacts(cfg: Config, req: Request, staged: Staged, now: int, d: Disk)
    requires ValidConfig(cfg) && ReqOK(cfg, req) && Measured(staged.tree, staged.size, staged.discovered)
    requires req.dest.None? ==> var id := cfg.hash(Key(req)); id in d && d[id] == ModelDir(staged.tree)
    ensures var e := NewEntry(cfg, req, staged, now);
            && EntryOK(cfg, e) && EntryFor(cfg, req, e) && DirFits(cfg, d, e) && KeyOf(e) == Key(req)
            && e.fetchedAt == e.lastUsedAt == now && e.path == DestOf(cfg, req)
            && SortedBy(Same, e.files) && multiset(e.files) == multiset(FilesOf(staged))
  {
    hide MeasureOf, SortedBy;
    assert cfg.root <= cfg.root + [cfg.hash(Key(req))];
  }

  /** The request was refused before anything was looked up. */
  predicate Refused(out: Outcome) {
    && out.Err?
    && (out.error.SourceRequired? || out.error.ModelRequired? || out.error.UnknownSource? || out.error.MountRequired?)
  }

  /** `e` is what a request asks for: the model, its place, what was measured, and the time. */
  ghost predicate Answers(cfg: Config, req: Request, staged: Staged, now: int, e: Entry) {
    && e.id == cfg.hash(req.source + ":" + req.modelID)
    && e.source == req.source && e.modelID == req.modelID
    && e.path == (if req.dest.Some? then req.dest.value else cfg.root + [e.id])
    && e.sizeBytes == staged.size && e.fetchedAt == now && e.lastUsedAt == now
    && multiset(e.files) == multiset(if staged.reported == [] then staged.discovered else staged.reported)
    && Ascending(e.files)
  }

  /** A model that is indexed is marked, in memory at least, and its entry is the answer. */
  ghost predicate HitAnswer(m: Maps, id: string, now: int, m': Maps, out: Outcome, faultless: bool) {
    && id in m.entries
    && m'.entries == m.entries[id := m.entries[id].(lastUsedAt := now)] && m'.byKey == m.byKey
    && (out == Ok(m'.entries[id]) || (out == Err(SaveFailed) && !faultless))
  }

  /** A model that is not indexed is what the fetch made of it: an error each for how far it got, or an
      entry in both maps. */
  ghost predicate MissAnswer(cfg: Config, req: Request, now: int, work: Work, m: Maps, m': Maps, out: Outcome,
        faultless: bool)
  {
    && (out.Err? ==> m' == m)
    && (out.Ok? ==>
          && work.Ready? && Answers(cfg, req, work.staged, now, out.value)
          && m'.entries == m.entries[out.value.id := out.value]
          && m'.byKey == m.byKey[req.source + ":" + req.modelID := out.value.id])
    && match work
       case NoDirectory => out == Err(MkdirFailed)
       case FetcherError(_) => out == Err(FetcherFailed)
       case Unmeasured(_) => out == Err(MeasureFailed)
       case Ready(_) => out.Ok? || (out == Err(SaveFailed) && !faultless)
  }

  lemma HitAnswers(m: Maps, id: string, now: int, out: Outcome, faultless: bool)
    requires id in m.entries
    requires out == Ok(Touch(m, id, now).entries[id]) || (out == Err(SaveFailed) && !faultless)
    ensures HitAnswer(m, id, now, Touch(m, id, now), out, faultless)
  {
  }

  lemma FailureAnswers(cfg: Config, req: Request, now: int, work: Work, m: Maps, d: Disk, out: Outcome, faultless: bool)
    requires WorkError(work).Some? && out == Err(WorkError(work).value)
    ensures MissAnswer(cfg, req, now, work, m, m, out, faultless)
    ensures work.NoDirectory? ==> FetchLeaves(cfg, req, now, work, m, d, d, out)
    ensures work.FetcherError? ==> FetchLeaves(cfg, req, now, work, m, d, Placed(cfg, req, d, work.remains), out)
    ensures work.Unmeasured? ==> FetchLeaves(cfg, req, now, work, m, d, Placed(cfg, req, d, Some(work.tree)), out)
  {
    hide KeyFor, Placed;
  }

  lemma StagingAnswers(cfg: Config, req: Request, now: int, work: Work, m: Maps, m': Maps, d: Disk, d': Disk,
        out: Outcome, faultless: bool)
    requires work.Ready?
    requires var e := NewEntry(cfg, req, work.staged, now);
             && (if out.Ok? then out.value == e && m' == WithEntry(m, e)
                 else out.error == SaveFailed && m' == m && !faultless)
             && SaveLeaves(WithEntry(m, e), Placed(cfg, req, d, Some(work.staged.tree)), d', out.Ok?)
    ensures MissAnswer(cfg, req, now, work, m, m', out, faultless)
    ensures FetchLeaves(cfg, req, now, work, m, d, d', out)
  {
    hide Answers, SaveLeaves, Placed;
    NewEntryAnswers(cfg, req, work.staged, now);
  }

  lemma NewEntryAnswers(cfg: Config, req: Request, staged: Staged, now: int)
    ensures Answers(cfg, req, staged, now, NewEntry(cfg, req, staged, now))
  {
    NamesAscend(NewEntry(cfg, req, staged, now).files);
  }

  lemma FitsStill(cfg: Config, d: Disk, d': Disk, e: Entry, key: string)
    requires ValidConfig(cfg) && SameOther(d, d') && DirFits(cfg, d, e) && e.id == cfg.hash(key)
    ensures DirFits(cfg, d', e)
  {
    HexIsPlain(cfg, key);
    assert SameAt(d, d', e.id);
    hide MeasureOf;
  }

  // ---------- What becomes of the files ----------

  /** What a save of the maps makes of the disk, as far as it gets. */
  ghost predicate SaveLeaves(m: Maps, d: Disk, d': Disk, ok: bool) {
    (!ok && d' == d) || exists tmp, listing, complete, left :: SaveLeavesBy(m, d, d', ok, tmp, listing, complete, left)
  }

  ghost predicate SaveLeavesBy(m: Maps, d: Disk, d': Disk, ok: bool, tmp: string, listing: seq<Entry>, complete: bool,
        left: bool)
  {
    && IsTempName(tmp) && tmp !in d && IsListing(listing, m.entries)
    && var written := d[tmp := TempFile(listing, complete)];
       d' == if ok then (written - {tmp})[INDEX_NAME := IndexFile(listing)] else DropTemp(written, tmp, left)
  }

  /** What a removal of the files under `id` does, which may stop anywhere. */
  ghost predicate RemovalLeaves(id: string, d: Disk, d': Disk, ok: bool) {
    if ok then d' == d - {id} else d' == d || (id in d && exists tree :: d' == WithModelDir(d, id, Some(tree)))
  }

  /** What a `Delete` makes of the disk. */
  ghost predicate DeleteLeaves(cfg: Config, m: Maps, d: Disk, id: string, d': Disk, err: Option<Error>) {
    if id !in m.entries then err == Some(NotFound) && d' == d
    else exists mid :: DeleteLeavesBy(cfg, m, d, id, mid, d', err)
  }

  ghost predicate DeleteLeavesBy(cfg: Config, m: Maps, d: Disk, id: string, mid: Disk, d': Disk, err: Option<Error>)
    requires id in m.entries
  {
    && (if cfg.root <= m.entries[id].path then RemovalLeaves(id, d, mid, err != Some(RemoveFailed))
        else mid == d && err != Some(RemoveFailed))
    && (if err == Some(RemoveFailed) then d' == mid
        else
          (err == None || err == Some(SaveFailed)) && SaveLeaves(WithoutEntry(m, m.entries[id]), mid, d', err == None))
  }

  /** What a fetch leaves under the store's root. */
  function Placed(cfg: Config, req: Request, d: Disk, dir: Option<Tree>): Disk {
    if req.dest.None? then WithModelDir(d, cfg.hash(Key(req)), dir) else d
  }

  /** What a `doFetch` makes of the disk, and its outcome. */
  ghost predicate FetchLeaves(cfg: Config, req: Request, now: int, work: Work, m: Maps, d: Disk, d': Disk,
        out: Outcome)
  {
    match work
    case NoDirectory => out == Err(MkdirFailed) && d' == d
    case FetcherError(remains) => out == Err(FetcherFailed) && d' == Placed(cfg, req, d, remains)
    case Unmeasured(tree) => out == Err(MeasureFailed) && d' == Placed(cfg, req, d, Some(tree))
    case Ready(staged) =>
      var e := NewEntry(cfg, req, staged, now);
      && (out == Ok(e) || out == Err(SaveFailed))
      && SaveLeaves(WithEntry(m, e), Placed(cfg, req, d, Some(staged.tree)), d', out.Ok?)
  }

  lemma SaveLeft(m: Maps, d: Disk, d': Disk, ok: bool, tmp: string, listing: seq<Entry>, complete: bool, left: bool)
    requires SaveLeavesBy(m, d, d', ok, tmp, listing, complete, left)
    ensures SaveLeaves(m, d, d', ok)
  {
  }

  lemma NothingSaved(m: Maps, d: Disk)
    ensures SaveLeaves(m, d, d, false)
  {
  }

  lemma OldIndexStays(cfg: Config, m: Maps, d: Disk, tmp: string, listing: seq<Entry>, complete: bool, left: bool)
    requires IndexOK(cfg, d) && IsTempName(tmp) && tmp !in d && IsListing(listing, m.entries)
    ensures var d' := DropTemp(d[tmp := TempFile(listing, complete)], tmp, left);
            IndexOK(cfg, d') && ReadIndex(d') == ReadIndex(d) && SameOther(d, d') && SaveLeaves(m, d, d', false)
  {
    hide SaveLeaves, IsListing, Load, Consistent;
    TempWritten(d, tmp, listing, complete);
    TempNamesApart(d, tmp);
    var d' := DropTemp(d[tmp := TempFile(listing, complete)], tmp, left);
    SaveLeft(m, d, d', false, tmp, listing, complete, left);
  }

  lemma NewIndexStands(cfg: Config, m: Maps, d: Disk, tmp: string, listing: seq<Entry>)
    requires ValidConfig(cfg) && Consistent(cfg, m) && IndexOK(cfg, d)
    requires IsTempName(tmp) && tmp !in d && IsListing(listing, m.entries)
    ensures var d' := (d[tmp := TempFile(listing, true)] - {tmp})[INDEX_NAME := IndexFile(listing)];
            && IndexOK(cfg, d') && Reload(d') == m && ReadIndex(d') == listing && SameOther(d, d')
            && SaveLeaves(m, d, d', true)
  {
    hide SaveLeaves, IsListing, Load, Consistent, ValidConfig, Reload;
    var d' := (d[tmp := TempFile(listing, true)] - {tmp})[INDEX_NAME := IndexFile(listing)];
    TempWritten(d, tmp, listing, true);
    TempNamesApart(d, tmp);
    Installed(cfg, d[tmp := TempFile(listing, true)], tmp, listing, m);
    SaveLeft(m, d, d', true, tmp, listing, true, false);
  }

  lemma FilesLeft(cfg: Config, m: Maps, d: Disk, id: string, mid: Disk)
    requires id in m.entries && cfg.root <= m.entries[id].path && RemovalLeaves(id, d, mid, false)
    ensures DeleteLeaves(cfg, m, d, id, mid, Some(RemoveFailed))
  {
    assert DeleteLeavesBy(cfg, m, d, id, mid, mid, Some(RemoveFailed));
  }

  lemma EntryLeft(cfg: Config, m: Maps, d: Disk, id: string, mid: Disk, d': Disk, ok: bool)
    requires id in m.entries && SaveLeaves(WithoutEntry(m, m.entries[id]), mid, d', ok)
    requires if cfg.root <= m.entries[id].path then RemovalLeaves(id, d, mid, true) else mid == d
    ensures DeleteLeaves(cfg, m, d, id, d', if ok then None else Some(SaveFailed))
  {
    hide SaveLeaves;
    assert DeleteLeavesBy(cfg, m, d, id, mid, d', if ok then None else Some(SaveFailed));
  }

  class Store {
    const cfg: Config
    const faultless: bool  // whether every file operation succeeds
    var entries: map<string, Entry>
    var byKey: map<string, string>
    var disk: Disk

    ghost function Mem(): Maps
      reads this
    {
      Maps(entries, byKey)
    }

    /** What holds whenever the mutex is free. */
    ghost predicate Valid()
      reads this
    {
      && ValidConfig(cfg)
      && Consistent(cfg, Mem())
      && IndexOK(cfg, disk)
      && Older(Reload(disk).entries, entries)
    }

    /** `NewStore` and `loadIndex`: any index is loaded, in its order; one that a store wrote gives a
        store in order. */
    constructor (cfg: Config, disk: Disk, faultless: bool)
      ensures Mem() == Reload(disk) && this.disk == disk && this.cfg == cfg && this.faultless == faultless
      ensures ValidConfig(cfg) && IndexOK(cfg, disk) ==> Valid()
    {
      this.cfg, this.disk, this.faultless := cfg, disk, faultless;
      entries, byKey := map[], map[];
      new;
      assert IndexOK(cfg, disk) ==> Consistent(cfg, Reload(disk));
      hide Consistent, IndexOK, Older, ValidConfig;
      OlderSelf(cfg, Reload(disk));
      var listing := ReadIndex(disk);
      for i := 0 to |listing|
        invariant Maps(entries, byKey) == Load(listing[..i])
        invariant this.disk == disk
      {
        var e := listing[i];
        assert listing[..i + 1][..i] == listing[..i];
        entries := entries[e.id := e];
        byKey := byKey[KeyFor(e.source, e.modelID) := e.id];
      }
      assert listing[..|listing|] == listing;
    }

    /** `List`: whatever order the map is iterated in, the result is the map's one listing, with the smaller
        character in front where two ids first differ. */
    method List() returns (out: seq<Entry>)
      requires forall id :: id in entries ==> entries[id].id == id
      ensures IsListing(out, entries)
      ensures forall e :: e in out <==> e.id in entries && entries[e.id] == e
      ensures forall j, k :: 0 <= j < k < |out| ==> out[j] != out[k]
      ensures forall j: nat, k: nat, i: nat ::
                j < k < |out| && i < |out[j].id| && i < |out[k].id|
                && out[j].id[..i] == out[k].id[..i] && out[j].id[i] != out[k].id[i] ==>
                  out[j].id[i] < out[k].id[i]
    {
      out := [];
      var rest := entries.Keys;
      while rest != {}
        invariant rest <= entries.Keys
        invariant forall e :: e in out <==> e.id in entries.Keys - rest && entries[e.id] == e
        invariant DistinctIDs(out)
        decreases rest
      {
        var id :| id in rest;
        out := out + [entries[id]];
        rest := rest - {id};
      }
      var sorted := SortBy(ID, out);
      SortedIsListing(entries, out, sorted);
      out := sorted;
      ListingAscends(out);
    }

    /** `saveIndexLocked`: on success the index stands for exactly the maps; on failure the old
        index stays; nothing but the index and temporary files changes. */
    method SaveIndexLocked() returns (ok: bool)
      requires ValidConfig(cfg) && Consistent(cfg, Mem()) && IndexOK(cfg, disk)
      modifies this`disk
      ensures IndexOK(cfg, disk)
      ensures ok ==> Reload(disk) == Mem() && IsListing(ReadIndex(disk), entries)
      ensures ok ==> "index.json" in disk && disk["index.json"] == IndexFile(ReadIndex(disk))
      ensures !ok ==> ReadIndex(disk) == old(ReadIndex(disk))
      ensures faultless ==> ok
      ensures forall n :: n in disk && n !in old(disk) ==> n == "index.json" || ".index.json." <= n
      ensures SameOther(old(disk), disk)
      ensures SaveLeaves(Mem(), old(disk), disk, ok)
    {
      hide SaveLeaves, Older, IndexOK, SameOther, IsListing, Load, ReadIndex, DiskShape;
      NothingSaved(Mem(), disk);
      SameOtherSelf(disk);
      ghost var d := disk;
      var listing := List();
      var createFault: bool, writeFault: bool, closeFault: bool, renameFault: bool, left: bool := *, *, *, *, *;
      if !faultless && createFault { return false; }
      FreshTemp(disk.Keys);
      var tmp :| IsTempName(tmp) && tmp !in disk;
      disk := disk[tmp := TempFile(listing, faultless || !writeFault)];
      if !faultless && (writeFault || closeFault || renameFault) {
        disk := DropTemp(disk, tmp, left);
        OldIndexStays(cfg, Mem(), d, tmp, listing, !writeFault, left);
        return false;
      }
      disk := (disk - {tmp})[INDEX_NAME := IndexFile(listing)];
      NewIndexStands(cfg, Mem(), d, tmp, listing);
      ok := true;
    }

    /** `lookupByKey`. */
    method LookupByKey(key: string) returns (r: Option<Entry>)
      requires Valid() && key in cfg.keys
      ensures r.Some? <==> cfg.hash(key) in entries
      ensures r.Some? ==> r.value == entries[cfg.hash(key)] && KeyOf(r.value) == key
    {
      IndexedIff(cfg, Mem(), key);
      if key !in byKey { return None; }
      var id := byKey[key];
      r := if id in entries then Some(entries[id]) else None;
    }

    /** `markUsed`: the time moves on in memory even when the save fails. */
    method MarkUsed(id: string, now: int) returns (err: Option<Error>)
      requires Valid() && UsedBefore(Mem(), now)
      modifies this
      ensures Valid() && UsedBefore(Mem(), now)
      ensures id !in old(entries) ==> err == Some(NotFound) && Mem() == old(Mem()) && disk == old(disk)
      ensures id in old(entries) ==> (err == None || err == Some(SaveFailed)) && Mem() == Touch(old(Mem()), id, now)
      ensures id in old(entries) ==>
                entries == old(entries)[id := old(entries)[id].(lastUsedAt := now)] && byKey == old(byKey)
      ensures id in old(entries) && faultless ==> err == None
      ensures err == None ==> Reload(disk) == Mem()
      ensures err == Some(SaveFailed) ==> ReadIndex(disk) == old(ReadIndex(disk))
      ensures SameOther(old(disk), disk)
      ensures id in old(entries) ==> SaveLeaves(Mem(), old(disk), disk, err == None)
    {
      hide Consistent, IndexOK, Older, ValidConfig, UsedBefore, IsListing, Load, SameOther, SaveLeaves;
      SameOtherSelf(disk);
      if id !in entries { return Some(NotFound); }
      MarkedStays(cfg, disk, Mem(), id, now);
      OlderSelf(cfg, Touch(Mem(), id, now));
      entries := entries[id := entries[id].(lastUsedAt := now)];
      var ok := SaveIndexLocked();
      err := if ok then None else Some(SaveFailed);
    }

    /** The tail of `doFetch`: insert, save, and delete again if the save failed. */
    method CommitStaged(e: Entry) returns (err: Option<Error>)
      requires Valid() && EntryOK(cfg, e) && KeyOf(e) !in byKey
      modifies this
      ensures Valid()
      ensures err == None ==> Mem() == WithEntry(old(Mem()), e) && Reload(disk) == Mem()
      ensures err == None ==>
                entries == old(entries)[e.id := e] && byKey == old(byKey)[e.source + ":" + e.modelID := e.id]
      ensures faultless ==> err == None
      ensures err != None ==> err == Some(SaveFailed) && Mem() == old(Mem()) && ReadIndex(disk) == old(ReadIndex(disk))
      ensures SameOther(old(disk), disk)
      ensures SaveLeaves(WithEntry(old(Mem()), e), old(disk), disk, err == None)
    {
      hide SaveLeaves, IsListing;
      ghost var before := Mem();
      IndexedIff(cfg, before, KeyOf(e));
      StagedConsistent(cfg, before, e);
      entries := entries[e.id := e];
      byKey := byKey[KeyFor(e.source, e.modelID) := e.id];
      var ok := SaveIndexLocked();
      if !ok {
        entries := entries - {e.id};
        byKey := byKey - {KeyFor(e.source, e.modelID)};
        RollbackExactIff(before, e);
        return Some(SaveFailed);
      }
      err := None;
    }

    /** The part of `Delete` that removes the files, which may stop anywhere. */
    method RemoveFiles(e: Entry) returns (ok: bool)
      requires IndexOK(cfg, disk) && e.id != INDEX_NAME && !IsTempName(e.id)
      modifies this`disk
      ensures IndexOK(cfg, disk) && ReadIndex(disk) == old(ReadIndex(disk))
      ensures ok ==> e.id !in disk
      ensures faultless ==> ok
      ensures SameExcept(e.id, old(disk), disk)
      ensures RemovalLeaves(e.id, old(disk), disk, ok)
    {
      hide Consistent, IsListing, Load;
      var removeFault: bool := *;
      if !faultless && removeFault {
        var remains: Tree := *;
        disk := if e.id in disk then WithModelDir(disk, e.id, Some(remains)) else disk;
        return false;
      }
      disk := disk - {e.id};
      ok := true;
    }

    /** The part of `Delete` that drops the entry from the maps, and puts it back if the save fails. */
    method CommitRemoval(e: Entry) returns (ok: bool)
      requires ValidConfig(cfg) && Consistent(cfg, Mem()) && IndexOK(cfg, disk)
      requires e.id in entries && entries[e.id] == e
      modifies this
      ensures IndexOK(cfg, disk) && SameOther(old(disk), disk)
      ensures ok ==> Mem() == WithoutEntry(old(Mem()), e) && Reload(disk) == Mem() && Consistent(cfg, Mem())
      ensures ok ==>
                entries == old(entries) - {e.id} && byKey == old(byKey) - {e.source + ":" + e.modelID}
      ensures !ok ==> Mem() == old(Mem()) && ReadIndex(disk) == old(ReadIndex(disk))
      ensures faultless ==> ok
      ensures SaveLeaves(WithoutEntry(old(Mem()), e), old(disk), disk, ok)
    {
      hide SaveLeaves;
      ghost var before := Mem();
      RemovedConsistent(cfg, before, e);
      ReinsertExact(cfg, before, e);
      hide Consistent, IndexOK, ValidConfig, IsListing, SameOther;
      entries := entries - {e.id};
      byKey := byKey - {KeyFor(e.source, e.modelID)};
      ok := SaveIndexLocked();
      if !ok {
        entries := entries[e.id := e];
        byKey := byKey[KeyFor(e.source, e.modelID) := e.id];
      }
    }

    /** `Delete`. Success removes exactly the entry and, when they are the store's, its files. When only
        the save fails the entry is back, but files in the store's own directory are not. */
    method Delete(id: string) returns (err: Option<Error>)
      requires Valid()
      modifies this
      ensures Valid()
      ensures id !in old(entries) ==> err == Some(NotFound)
      ensures id in old(entries) ==> err == None || err == Some(RemoveFailed) || err == Some(SaveFailed)
      ensures err == None ==> Mem() == WithoutEntry(old(Mem()), old(entries)[id]) && Reload(disk) == Mem()
      ensures err == None ==>
                var e := old(entries)[id];
                && entries == old(entries) - {id} && byKey == old(byKey) - {e.source + ":" + e.modelID}
                && (e.path == cfg.root + [id] ==> id !in disk)
      ensures id in old(entries) && old(entries)[id].path != cfg.root + [id] ==> SameAt(old(disk), disk, id)
      ensures id in old(entries) && faultless ==> err == None
      ensures err != None ==> Mem() == old(Mem()) && ReadIndex(disk) == old(ReadIndex(disk))
      ensures err == Some(SaveFailed) ==>
                (DirFits(cfg, disk, old(entries)[id]) <==> !IsDefault(cfg, old(entries)[id]))
                && (IsDefault(cfg, old(entries)[id]) ==> id !in disk)
      ensures SameExcept(id, old(disk), disk)
      ensures DeleteLeaves(cfg, old(Mem()), old(disk), id, disk, err)
    {
      hide SaveLeaves, RemovalLeaves, DeleteLeavesBy, SameOther, SameExcept, Consistent, IndexOK, Older, ReadIndex;
      SameExceptSelf(id, disk);
      if id !in entries { return Some(NotFound); }
      var e := entries[id];
      DeleteFacts(cfg, Mem(), id);
      hide Consistent, IndexOK, ValidConfig, Older, Load, ReadIndex, SameOther, SameExcept;
      SameExceptSelf(id, disk);
      assert e.id == id && id != INDEX_NAME && !IsTempName(id);
      assert IsDefault(cfg, e) ==> cfg.root <= e.path;
      if cfg.root <= e.path {
        var removed := RemoveFiles(e);
        if !removed {
          FilesLeft(cfg, Mem(), old(disk), id, disk);
          return Some(RemoveFailed);
        }
      }
      ghost var d := disk;
      var ok := CommitRemoval(e);
      EntryLeft(cfg, old(Mem()), old(disk), id, d, disk, ok);
      SameExceptThenOther(id, old(disk), d, disk);
      if !ok { return Some(SaveFailed); }
      OlderSelf(cfg, Mem());
      err := None;
    }

    /** `doFetch`, for a key that is not indexed; `work` is how far it gets before the lock. A failure
        leaves the maps and the index alone; a success adds exactly one entry, whose files are where and
        as large as it says, and has it on disk. */
    method DoFetch(req: Request, now: int, work: Work) returns (out: Outcome)
      requires Valid() && ReqOK(cfg, req) && Key(req) !in byKey && WorkOK(work)
      modifies this
      ensures Valid()
      ensures MissAnswer(cfg, req, now, work, old(Mem()), Mem(), out, faultless)
      ensures work.NoDirectory? ==> disk == old(disk)
      ensures out.Err? ==> ReadIndex(disk) == old(ReadIndex(disk))
      ensures out.Ok? ==> EntryFor(cfg, req, out.value) && DirFits(cfg, disk, out.value) && Reload(disk) == Mem()
      ensures SameExcept(cfg.hash(Key(req)), old(disk), disk)
      ensures FetchLeaves(cfg, req, now, work, old(Mem()), old(disk), disk, out)
    {
      hide SaveLeaves, SortedBy, Consistent, IndexOK, Load, ValidConfig, Older, ReadIndex, KeyFor, DirFits, MissAnswer,
           FetchLeaves, NewEntry, EntryFor, WithEntry;
      ghost var m, d, id := Mem(), disk, cfg.hash(Key(req));
      HexIsPlain(cfg, Key(req));
      SameExceptSelf(id, disk);
      match work
      case NoDirectory =>
        FailureAnswers(cfg, req, now, work, m, d, Err(MkdirFailed), faultless);
        return Err(MkdirFailed);
      case FetcherError(remains) =>
        Place(req, remains);
        FailureAnswers(cfg, req, now, work, m, d, Err(FetcherFailed), faultless);
        return Err(FetcherFailed);
      case Unmeasured(tree) =>
        Place(req, Some(tree));
        FailureAnswers(cfg, req, now, work, m, d, Err(MeasureFailed), faultless);
        return Err(MeasureFailed);
      case Ready(staged) =>
        Place(req, Some(staged.tree));
        out := Stage(req, now, staged);
        StagingAnswers(cfg, req, now, work, m, Mem(), d, disk, out, faultless);
    }

    /** The part of `doFetch` after the measuring. */
    method Stage(req: Request, now: int, staged: Staged) returns (out: Outcome)
      requires Valid() && ReqOK(cfg, req) && Key(req) !in byKey
      requires Measured(staged.tree, staged.size, staged.discovered)
      requires req.dest.None? ==> var id := cfg.hash(Key(req)); id in disk && disk[id] == ModelDir(staged.tree)
      modifies this
      ensures Valid()
      ensures out.Err? ==> out.error == SaveFailed && Mem() == old(Mem()) && ReadIndex(disk) == old(ReadIndex(disk))
      ensures faultless ==> out.Ok?
      ensures out.Ok? ==> out.value == NewEntry(cfg, req, staged, now) && Mem() == WithEntry(old(Mem()), out.value)
      ensures out.Ok? ==> EntryFor(cfg, req, out.value) && DirFits(cfg, disk, out.value) && Reload(disk) == Mem()
      ensures out.Ok? ==> SortedBy(Same, out.value.files) && multiset(out.value.files) == multiset(FilesOf(staged))
      ensures SameOther(old(disk), disk)
      ensures SaveLeaves(WithEntry(old(Mem()), NewEntry(cfg, req, staged, now)), old(disk), disk, out.Ok?)
    {
      hide Consistent, IndexOK, ValidConfig, Older, MeasureOf, SortedBy, Load, ReadIndex, SameOther, NewEntry, EntryOK,
           SaveLeaves;
      var e := NewEntry(cfg, req, staged, now);
      NewEntryFacts(cfg, req, staged, now, disk);
      ghost var d := disk;
      var err := CommitStaged(e);
      FitsStill(cfg, d, disk, e, Key(req));
      out := if err.Some? then Err(err.value) else Ok(e);
    }

    /** What a fetch leaves under its own name, with or without files. */
    method Place(req: Request, dir: Option<Tree>)
      requires Valid() && ReqOK(cfg, req)
      modifies this`disk
      ensures Valid() && ReadIndex(disk) == old(ReadIndex(disk))
      ensures SameExcept(cfg.hash(Key(req)), old(disk), disk)
      ensures disk == Placed(cfg, req, old(disk), dir)
    {
      var id := cfg.hash(Key(req));
      HexIsPlain(cfg, Key(req));
      SameExceptSelf(id, disk);
      DirChanged(cfg, disk, id, dir);
      hide Consistent, IndexOK, ValidConfig, Older, Load, ReadIndex;
      if req.dest.None? { disk := WithModelDir(disk, id, dir); }
    }

    /** `Fetch`, with no other caller about. Each refusal has its own condition; a model already indexed is
        not fetched again, only its LastUsedAt moves; and any other is what `doFetch` makes of it. */
    method Fetch(req: Request, now: int, work: Work) returns (out: Outcome, ran: bool)
      requires Valid() && UsedBefore(Mem(), now)
      requires Validate(cfg, req).None? ==> ReqOK(cfg, req)
      requires WorkOK(work)
      modifies this
      ensures Valid() && UsedBefore(Mem(), now)
      ensures out == Err(SourceRequired) <==> req.source == ""
      ensures out == Err(ModelRequired) <==> req.source != "" && req.modelID == ""
      ensures out == Err(UnknownSource) <==> req.source != "" && req.modelID != "" && req.source !in cfg.sources
      ensures out == Err(MountRequired) <==>
              req.source == "nfs" && req.modelID != "" && "nfs" in cfg.sources && req.mountSource == ""
      ensures Refused(out) ==> !ran && Mem() == old(Mem()) && disk == old(disk)
      ensures !Refused(out) ==> ran == (cfg.hash(req.source + ":" + req.modelID) !in old(entries))
      ensures !Refused(out) && !ran ==>
                var id := cfg.hash(req.source + ":" + req.modelID);
                && HitAnswer(old(Mem()), id, now, Mem(), out, faultless)
                && SameOther(old(disk), disk) && SaveLeaves(Mem(), old(disk), disk, out.Ok?)
      ensures ran ==> MissAnswer(cfg, req, now, work, old(Mem()), Mem(), out, faultless)
      ensures out.Ok? ==> EntryFor(cfg, req, out.value) && out.value.id in entries && entries[out.value.id] == out.value
      ensures out.Ok? ==> Reload(disk) == Mem()
      ensures ran ==> FetchLeaves(cfg, req, now, work, old(Mem()), old(disk), disk, out)
    {
      hide SaveLeaves, FetchLeaves, Validate, Answers, SameOther, EntryFor, WithEntry, Consistent, IndexOK, UsedBefore,
           ValidConfig, Older, Load;
      ValidateMeans(cfg, req);
      var bad := Validate(cfg, req);
      if bad.Some? { return Err(bad.value), false; }
      out, ran := FetchModel(req, now, work);
    }

    /** `Fetch` of a request that passes. */
    method FetchModel(req: Request, now: int, work: Work) returns (out: Outcome, ran: bool)
      requires Valid() && UsedBefore(Mem(), now) && ReqOK(cfg, req) && WorkOK(work)
      modifies this
      ensures Valid() && UsedBefore(Mem(), now)
      ensures !Refused(out) && ran == (cfg.hash(req.source + ":" + req.modelID) !in old(entries))
      ensures !ran ==>
                var id := cfg.hash(req.source + ":" + req.modelID);
                && HitAnswer(old(Mem()), id, now, Mem(), out, faultless)
                && SameOther(old(disk), disk) && SaveLeaves(Mem(), old(disk), disk, out.Ok?)
      ensures ran ==> MissAnswer(cfg, req, now, work, old(Mem()), Mem(), out, faultless)
      ensures out.Ok? ==> EntryFor(cfg, req, out.value) && out.value.id in entries && entries[out.value.id] == out.value
      ensures out.Ok? ==> Reload(disk) == Mem()
      ensures ran ==> FetchLeaves(cfg, req, now, work, old(Mem()), old(disk), disk, out)
    {
      hide SaveLeaves, FetchLeaves, MissAnswer, HitAnswer, SameOther, IndexOK, Older, UsedBefore, Load, DirFits,
           Consistent, ValidConfig, Touch;
      IndexedFor(cfg, Mem(), req);
      var existing := LookupByKey(KeyFor(req.source, req.modelID));
      if existing.Some? {
        out := FromIndex(existing.value.id, now);
        return out, false;
      }
      out := DoFetch(req, now, work);
      MissStays(cfg, req, now, work, old(Mem()), Mem(), out, faultless);
      ran := true;
    }

    /** The mark, and the re-read after it. */
    method FromIndex(id: string, now: int) returns (out: Outcome)
      requires Valid() && UsedBefore(Mem(), now) && id in entries
      modifies this
      ensures Valid() && UsedBefore(Mem(), now)
      ensures HitAnswer(old(Mem()), id, now, Mem(), out, faultless) && !Refused(out)
      ensures out.Ok? ==> id in entries && entries[id] == out.value && Reload(disk) == Mem()
      ensures out.Ok? ==> SameButUsed(old(entries)[id], out.value)
      ensures SameOther(old(disk), disk) && SaveLeaves(Mem(), old(disk), disk, out.Ok?)
    {
      hide SaveLeaves, SameOther, IndexOK, Older, Load, Consistent, ValidConfig, HitAnswer;
      ghost var m := Mem();
      var err := MarkUsed(id, now);
      out := if err.Some? then Err(err.value) else Ok(entries[id]);
      HitAnswers(m, id, now, out, faultless);
    }
  }

  lemma IndexedFor(cfg: Config, m: Maps, req: Request)
    requires ValidConfig(cfg) && Consistent(cfg, m) && ReqOK(cfg, req)
    ensures Key(req) in cfg.keys && KeyFor(req.source, req.modelID) == Key(req)
    ensures var id := cfg.hash(Key(req));
            && (id in m.entries <==> Key(req) in m.byKey)
            && (id in m.entries ==> m.entries[id].id == id && EntryFor(cfg, req, m.entries[id]))
  {
    IndexedIff(cfg, m, Key(req));
    var id := cfg.hash(Key(req));
    if id in m.entries {
      var e := m.entries[id];
      KeyForInjective(e.source, e.modelID, req.source, req.modelID);
    }
  }

  /** What was not old before the fetch is no newer after it. */
  lemma MissStays(cfg: Config, req: Request, now: int, work: Work, m: Maps, m': Maps, out: Outcome, faultless: bool)
    requires MissAnswer(cfg, req, now, work, m, m', out, faultless) && UsedBefore(m, now)
    ensures UsedBefore(m', now) && !Refused(out)
    ensures out.Ok? ==> out.value.id in m'.entries && m'.entries[out.value.id] == out.value
  {
  }

  /** Asking twice stages once, and the second answer is the first up to LastUsedAt. */
  method FetchTwice(store: Store, req: Request, t1: int, t2: int, w1: Work, w2: Work)
    returns (first: Outcome, second: Outcome, ranAgain: bool)
    requires store.Valid() && UsedBefore(store.Mem(), t1) && t1 <= t2
    requires Validate(store.cfg, req).None? && ReqOK(store.cfg, req)
    requires WorkOK(w1) && WorkOK(w2)
    modifies store
    ensures store.Valid()
    ensures first.Ok? ==> !ranAgain
    ensures first.Ok? && second.Ok? ==> second.value == first.value.(lastUsedAt := t2)
  {
    var ran: bool;
    first, ran := store.Fetch(req, t1, w1);
    second, ranAgain := store.Fetch(req, t2, w2);
  }

  /** A Delete whose save fails, then a Fetch of the same model: when the Fetch succeeds it has run no
      fetcher, and the entry it returns is in a directory of the store's that is no longer there. */
  method DeleteThenFetch(store: Store, req: Request, now: int, work: Work)
    returns (err: Option<Error>, out: Outcome, ran: bool)
    requires store.Valid() && UsedBefore(store.Mem(), now) && WorkOK(work)
    requires Validate(store.cfg, req).None? && ReqOK(store.cfg, req)
    requires var id := store.cfg.hash(Key(req)); id in store.entries && IsDefault(store.cfg, store.entries[id])
    modifies store
    ensures store.Valid()
    ensures err == Some(SaveFailed) && out.Ok? ==>
              && !ran && EntryFor(store.cfg, req, out.value) && IsDefault(store.cfg, out.value)
              && out.value.id !in store.disk
  {
    var id := store.cfg.hash(Key(req));
    HexIsPlain(store.cfg, Key(req));
    err := store.Delete(id);
    if err == None {
      StillUsedBefore(store.Mem(), WithoutEntry(old(store.Mem()), old(store.entries)[id]), old(store.Mem()), now);
    }
    ghost var d := store.disk;
    out, ran := store.Fetch(req, now, work);
    if err == Some(SaveFailed) && out.Ok? { assert SameAt(d, store.disk, id); }
  }

  lemma StillUsedBefore(m: Maps, n: Maps, before: Maps, now: int)
    requires m == n && n.entries.Keys <= before.entries.Keys && UsedBefore(before, now)
    requires forall id :: id in n.entries ==> n.entries[id] == before.entries[id]
    ensures UsedBefore(m, now)
  {
  }
}
