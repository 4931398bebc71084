/** The state under the store's mutex (the two maps, the files below the root, the lock) and the
    steps of its three write sections: markUsed, the commit of a staged entry, and Delete. Every
    file operation is a step of its own and may fail, so a crash can fall between any two. */
module StoreCore {
  import opened Wrappers
  import opened Index
  import opened Files

  /** What the store's root directory holds: the index, temporary index files, model directories. */
  datatype Item =
    | IndexFile(listing: seq<Entry>)
    | TempFile(content: seq<Entry>, complete: bool)
    | ModelDir(tree: Tree)

  type Disk = map<string, Item>

  datatype Task = Mark(id: string) | Stage(entry: Entry) | Remove(gone: Entry)

  datatype Phase = Removing | Creating | Writing(tmp: string) | Closing(tmp: string) | Renaming(tmp: string)
                 | Saved | Unsaved

  /** `before` is what the maps held when the lock was taken. */
  datatype Lock = Free | Held(owner: nat, task: Task, phase: Phase, before: Maps)

  datatype Core = Core(mem: Maps, disk: Disk, lock: Lock)

  /** A missing index reads as an empty one. */
  function ReadIndex(d: Disk): seq<Entry> {
    if INDEX_NAME in d && d[INDEX_NAME].IndexFile? then d[INDEX_NAME].listing else []
  }

  /** What a new process would find. */
  function Reload(d: Disk): Maps {
    Load(ReadIndex(d))
  }

  function WithModelDir(d: Disk, id: string, dir: Option<Tree>): Disk {
    if dir.Some? then d[id := ModelDir(dir.value)] else d - {id}
  }

  ghost predicate SameAt(d: Disk, d': Disk, n: string) {
    (n in d <==> n in d') && (n in d && n in d' ==> d'[n] == d[n])
  }

  /** Nothing but the index and temporary files differs. */
  ghost predicate SameOther(d: Disk, d': Disk) {
    forall n :: n != INDEX_NAME && !IsTempName(n) ==> SameAt(d, d', n)
  }

  // ---------- Up to LastUsedAt ----------

  predicate SameButUsed(a: Entry, b: Entry) {
    a == b.(lastUsedAt := a.lastUsedAt)
  }

  /** The same entries, except that `a` may hold older LastUsedAt times. */
  ghost predicate Older(a: map<string, Entry>, b: map<string, Entry>) {
    && a.Keys == b.Keys
    && forall id :: id in a ==> SameButUsed(a[id], b[id]) && a[id].lastUsedAt <= b[id].lastUsedAt
  }

  ghost predicate UsedBefore(m: Maps, now: int) {
    forall id :: id in m.entries ==> m.entries[id].lastUsedAt <= now
  }

  lemma OlderTransitive(a: map<string, Entry>, b: map<string, Entry>, c: map<string, Entry>)
    requires Older(a, b) && Older(b, c)
    ensures Older(a, c)
  {
    forall id | id in a ensures SameButUsed(a[id], c[id]) && a[id].lastUsedAt <= c[id].lastUsedAt {
      assert id in b;
    }
  }

  // ---------- Steps ----------

  /** `markUsed` takes the lock and finds the id. */
  function TakeMark(s: Core, owner: nat, id: string, now: int): Core
    requires id in s.mem.entries
  {
    Core(Touch(s.mem, id, now), s.disk, Held(owner, Mark(id), Creating, s.mem))
  }

  /** `doFetch` takes the lock and inserts the staged entry. */
  function TakeStage(s: Core, owner: nat, e: Entry): Core {
    Core(WithEntry(s.mem, e), s.disk, Held(owner, Stage(e), Creating, s.mem))
  }

  /** `Delete` takes the lock, finds the entry and, for a path under the root, goes to remove the files. */
  function TakeDelete(s: Core, owner: nat, e: Entry, underRoot: bool): Core {
    if underRoot then Core(s.mem, s.disk, Held(owner, Remove(e), Removing, s.mem))
    else Core(WithoutEntry(s.mem, e), s.disk, Held(owner, Remove(e), Creating, s.mem))
  }

  /** `Delete` has removed the files and drops the entry from the maps. */
  function FilesRemoved(s: Core): Core
    requires s.lock.Held? && s.lock.task.Remove?
  {
    Core(WithoutEntry(s.mem, s.lock.task.gone), s.disk - {s.lock.task.gone.id}, s.lock.(phase := Creating))
  }

  /** The temporary file is removed, or left behind if that fails too. */
  function DropTemp(d: Disk, tmp: string, left: bool): Disk {
    if left then d else d - {tmp}
  }

  /** One file operation of `saveIndexLocked`. A fault in any of them ends the save. */
  ghost predicate SaveStep(s: Core, fault: bool, left: bool, name: string, listing: seq<Entry>, s': Core) {
    s.lock.Held? &&
    match s.lock.phase
    case Creating =>
      if fault then s' == s.(lock := s.lock.(phase := Unsaved))
      else
        && IsTempName(name) && name !in s.disk
        && s' == s.(disk := s.disk[name := TempFile([], false)], lock := s.lock.(phase := Writing(name)))
    case Writing(tmp) =>
      if fault then
        s' == s.(disk := DropTemp(s.disk[tmp := TempFile(listing, false)], tmp, left),
              lock := s.lock.(phase := Unsaved))
      else
        && IsListing(listing, s.mem.entries)
        && s' == s.(disk := s.disk[tmp := TempFile(listing, true)], lock := s.lock.(phase := Closing(tmp)))
    case Closing(tmp) =>
      if fault then s' == s.(disk := DropTemp(s.disk, tmp, left), lock := s.lock.(phase := Unsaved))
      else s' == s.(lock := s.lock.(phase := Renaming(tmp)))
    case Renaming(tmp) =>
      if fault then s' == s.(disk := DropTemp(s.disk, tmp, left), lock := s.lock.(phase := Unsaved))
      else
        && tmp in s.disk && s.disk[tmp].TempFile?
        && s' == s.(disk := (s.disk - {tmp})[INDEX_NAME := IndexFile(s.disk[tmp].content)],
              lock := s.lock.(phase := Saved))
    case _ => false
  }

  /** What the section does to the maps before it gives the lock back: nothing after a good save;
      after a failed one a staging deletes, a Delete re-inserts, and markUsed keeps its change. */
  function AtRelease(s: Core): Maps
    requires s.lock.Held?
  {
    if s.lock.phase.Saved? then s.mem
    else match s.lock.task
      case Mark(_) => s.mem
      case Stage(e) => WithoutEntry(s.mem, e)
      case Remove(e) => if s.lock.phase.Removing? then s.mem else WithEntry(s.mem, e)
  }

  function Release(s: Core): Core
    requires s.lock.Held?
  {
    Core(AtRelease(s), s.disk, Free)
  }

  // ---------- The invariant ----------

  ghost predicate TaskOK(cfg: Config, task: Task, phase: Phase, before: Maps, mem: Maps) {
    match task
    case Mark(id) =>
      !phase.Removing? && id in before.entries && mem.byKey == before.byKey && Older(before.entries, mem.entries)
    case Stage(e) =>
      !phase.Removing? && EntryOK(cfg, e) && e.id !in before.entries && KeyOf(e) !in before.byKey
            && mem == WithEntry(before, e)
    case Remove(e) =>
      && e.id in before.entries && before.entries[e.id] == e
      && mem == (if phase.Removing? then before else WithoutEntry(before, e))
  }

  predicate DiskShape(d: Disk) {
    forall name :: name in d ==>
          (name == INDEX_NAME <==> d[name].IndexFile?) && (IsTempName(name) <==> d[name].TempFile?)
  }

  ghost predicate IndexOK(cfg: Config, d: Disk) {
    && DiskShape(d)
    && Consistent(cfg, Reload(d))
    && IsListing(ReadIndex(d), Reload(d).entries)
  }

  ghost predicate TempOK(s: Core)
    requires s.lock.Held?
  {
    match s.lock.phase
    case Writing(tmp) => IsTempName(tmp)
    case Closing(tmp) => IsTempName(tmp) && tmp in s.disk && s.disk[tmp].TempFile?
          && IsListing(s.disk[tmp].content, s.mem.entries)
    case Renaming(tmp) => IsTempName(tmp) && tmp in s.disk && s.disk[tmp].TempFile?
          && IsListing(s.disk[tmp].content, s.mem.entries)
    case _ => true
  }

  /** What the index on disk stands for: before the rename the maps as the lock was taken, after it
      exactly the maps as they are, and while the lock is free the maps up to LastUsedAt. */
  ghost predicate DiskMatches(s: Core) {
    match s.lock
    case Free => Older(Reload(s.disk).entries, s.mem.entries)
    case Held(_, _, phase, before) =>
      if phase.Saved? then Reload(s.disk) == s.mem else Older(Reload(s.disk).entries, before.entries)
  }

  ghost predicate CoreInv(cfg: Config, s: Core, now: int) {
    && Consistent(cfg, s.mem)
    && UsedBefore(s.mem, now)
    && IndexOK(cfg, s.disk)
    && DiskMatches(s)
    && (s.lock.Held? ==>
          && Consistent(cfg, s.lock.before) && UsedBefore(s.lock.before, now)
          && TaskOK(cfg, s.lock.task, s.lock.phase, s.lock.before, s.mem)
          && TempOK(s))
  }

  lemma TakeMarkKeeps(cfg: Config, s: Core, owner: nat, id: string, now: int)
    requires CoreInv(cfg, s, now) && s.lock.Free? && id in s.mem.entries
    ensures CoreInv(cfg, TakeMark(s, owner, id, now), now)
  {
    TouchedConsistent(cfg, s.mem, id, now);
    OlderTouched(s.mem, id, now);
  }

  lemma OlderTouched(m: Maps, id: string, now: int)
    requires id in m.entries && UsedBefore(m, now)
    ensures Older(m.entries, Touch(m, id, now).entries) && UsedBefore(Touch(m, id, now), now)
  {
  }

  lemma TakeStageKeeps(cfg: Config, s: Core, owner: nat, e: Entry, now: int)
    requires ValidConfig(cfg) && CoreInv(cfg, s, now) && s.lock.Free?
    requires EntryOK(cfg, e) && KeyOf(e) !in s.mem.byKey && e.lastUsedAt <= now
    ensures CoreInv(cfg, TakeStage(s, owner, e), now)
  {
    IndexedIff(cfg, s.mem, KeyOf(e));
    StagedConsistent(cfg, s.mem, e);
  }

  lemma TakeDeleteKeeps(cfg: Config, s: Core, owner: nat, e: Entry, underRoot: bool, now: int)
    requires CoreInv(cfg, s, now) && s.lock.Free? && e.id in s.mem.entries && s.mem.entries[e.id] == e
    ensures CoreInv(cfg, TakeDelete(s, owner, e, underRoot), now)
  {
    RemovedConsistent(cfg, s.mem, e);
  }

  /** Changing what stands under a name that is neither the index nor a temporary file is invisible. */
  lemma OtherFilesKeep(cfg: Config, s: Core, d: Disk, now: int)
    requires CoreInv(cfg, s, now) && DiskShape(d)
    requires forall n :: n == INDEX_NAME || IsTempName(n) ==>
          (n in d <==> n in s.disk) && (n in d ==> d[n] == s.disk[n])
    ensures CoreInv(cfg, s.(disk := d), now)
  {
    assert ReadIndex(d) == ReadIndex(s.disk);
  }

  lemma FilesRemovedKeeps(cfg: Config, s: Core, now: int)
    requires CoreInv(cfg, s, now) && s.lock.Held? && s.lock.task.Remove? && s.lock.phase.Removing?
    requires s.lock.task.gone.id != INDEX_NAME && !IsTempName(s.lock.task.gone.id)
    ensures CoreInv(cfg, FilesRemoved(s), now)
  {
    var e := s.lock.task.gone;
    RemovedConsistent(cfg, s.mem, e);
    OtherFilesKeep(cfg, s, s.disk - {e.id}, now);
  }

  lemma TempNamesApart(d: Disk, tmp: string)
    requires IsTempName(tmp)
    ensures tmp != INDEX_NAME
    ensures ReadIndex(d - {tmp}) == ReadIndex(d)
    ensures DiskShape(d) ==> DiskShape(d - {tmp})
  {
    assert TEMP_PREFIX[0] != INDEX_NAME[0];
  }

  lemma TempWritten(d: Disk, tmp: string, content: seq<Entry>, complete: bool)
    requires IsTempName(tmp) && DiskShape(d)
    ensures ReadIndex(d[tmp := TempFile(content, complete)]) == ReadIndex(d)
    ensures DiskShape(d[tmp := TempFile(content, complete)])
  {
    assert TEMP_PREFIX[0] != INDEX_NAME[0];
  }

  /** Moving on to another unsaved phase, with the same index on disk. */
  lemma PhaseChangeKeeps(cfg: Config, s: Core, d: Disk, phase: Phase, now: int)
    requires CoreInv(cfg, s, now) && s.lock.Held?
    requires !s.lock.phase.Saved? && !s.lock.phase.Removing? && !phase.Saved? && !phase.Removing?
    requires ReadIndex(d) == ReadIndex(s.disk) && DiskShape(d)
    requires TempOK(s.(disk := d, lock := s.lock.(phase := phase)))
    ensures CoreInv(cfg, s.(disk := d, lock := s.lock.(phase := phase)), now)
  {
  }

  lemma CreatingKeeps(cfg: Config, s: Core, fault: bool, left: bool, name: string, listing: seq<Entry>, s': Core,
        now: int)
    requires CoreInv(cfg, s, now) && SaveStep(s, fault, left, name, listing, s') && s.lock.phase.Creating?
    ensures CoreInv(cfg, s', now)
  {
    if !fault { TempWritten(s.disk, name, [], false); }
    PhaseChangeKeeps(cfg, s, s'.disk, s'.lock.phase, now);
  }

  lemma WritingKeeps(cfg: Config, s: Core, fault: bool, left: bool, name: string, listing: seq<Entry>, s': Core,
        now: int)
    requires CoreInv(cfg, s, now) && SaveStep(s, fault, left, name, listing, s') && s.lock.phase.Writing?
    ensures CoreInv(cfg, s', now)
  {
    var tmp := s.lock.phase.tmp;
    var d := s.disk[tmp := TempFile(listing, !fault)];
    TempWritten(s.disk, tmp, listing, !fault);
    if fault {
      TempNamesApart(d, tmp);
      PhaseChangeKeeps(cfg, s, DropTemp(d, tmp, left), Unsaved, now);
    } else {
      PhaseChangeKeeps(cfg, s, d, Closing(tmp), now);
    }
  }

  lemma ClosingKeeps(cfg: Config, s: Core, fault: bool, left: bool, name: string, listing: seq<Entry>, s': Core,
        now: int)
    requires CoreInv(cfg, s, now) && SaveStep(s, fault, left, name, listing, s') && s.lock.phase.Closing?
    ensures CoreInv(cfg, s', now)
  {
    TempNamesApart(s.disk, s.lock.phase.tmp);
    PhaseChangeKeeps(cfg, s, s'.disk, s'.lock.phase, now);
  }

  lemma SaveStepKeeps(cfg: Config, s: Core, fault: bool, left: bool, name: string, listing: seq<Entry>, s': Core,
        now: int)
    requires ValidConfig(cfg) && CoreInv(cfg, s, now) && SaveStep(s, fault, left, name, listing, s')
    ensures CoreInv(cfg, s', now)
  {
    match s.lock.phase
    case Creating => CreatingKeeps(cfg, s, fault, left, name, listing, s', now);
    case Writing(_) => WritingKeeps(cfg, s, fault, left, name, listing, s', now);
    case Closing(_) => ClosingKeeps(cfg, s, fault, left, name, listing, s', now);
    case Renaming(tmp) =>
      if fault {
        TempNamesApart(s.disk, tmp);
        PhaseChangeKeeps(cfg, s, s'.disk, s'.lock.phase, now);
      } else {
        RenameInstalls(cfg, s, tmp, s');
      }
  }

  /** The rename makes the file stand for exactly what is in memory. */
  lemma RenameInstalls(cfg: Config, s: Core, tmp: string, s': Core)
    requires ValidConfig(cfg) && Consistent(cfg, s.mem) && IsTempName(tmp) && tmp in s.disk && s.disk[tmp].TempFile?
    requires IsListing(s.disk[tmp].content, s.mem.entries) && DiskShape(s.disk)
    requires s'.disk == (s.disk - {tmp})[INDEX_NAME := IndexFile(s.disk[tmp].content)]
    ensures Reload(s'.disk) == s.mem && IndexOK(cfg, s'.disk)
  {
    assert TEMP_PREFIX[0] != INDEX_NAME[0];
    LoadRebuilds(cfg, s.disk[tmp].content, s.mem);
  }

  /** Giving the lock back after a failed save restores exactly the maps found on taking it. */
  lemma RollbackRestores(cfg: Config, s: Core, now: int)
    requires CoreInv(cfg, s, now) && s.lock.Held? && !s.lock.phase.Saved? && !s.lock.task.Mark?
    ensures AtRelease(s) == s.lock.before
  {
    match s.lock.task
    case Stage(e) => RollbackExactIff(s.lock.before, e);
    case Remove(e) => ReinsertExact(cfg, s.lock.before, e);
  }

  /** `markUsed` alone does not roll back: after a failed save the maps are those found on taking the
      lock exactly when the new time is the old one. */
  lemma MarkRollsBackIff(s: Core, owner: nat, id: string, now: int)
    requires id in s.mem.entries
    ensures AtRelease(TakeMark(s, owner, id, now)) == s.mem <==> s.mem.entries[id].lastUsedAt == now
  {
    var m := Touch(s.mem, id, now);
    assert m.entries[id].lastUsedAt == now;
    if s.mem.entries[id].lastUsedAt == now { assert m.entries == s.mem.entries; }
  }

  lemma ReleaseKeeps(cfg: Config, s: Core, now: int)
    requires CoreInv(cfg, s, now) && s.lock.Held?
    ensures CoreInv(cfg, Release(s), now)
  {
    if !s.lock.phase.Saved? {
      if s.lock.task.Mark? {
        OlderTransitive(Reload(s.disk).entries, s.lock.before.entries, s.mem.entries);
      } else {
        RollbackRestores(cfg, s, now);
      }
    }
  }

  /** A crash at any point of any section leaves an index that reloads to consistent maps: those of
      just before the section or those of just after it, up to LastUsedAt. */
  lemma CrashSafe(cfg: Config, s: Core, now: int)
    requires CoreInv(cfg, s, now)
    ensures Consistent(cfg, Reload(s.disk))
    ensures s.lock.Free? ==> Older(Reload(s.disk).entries, s.mem.entries)
    ensures s.lock.Held? && !s.lock.phase.Saved? ==> Older(Reload(s.disk).entries, s.lock.before.entries)
    ensures s.lock.Held? && s.lock.phase.Saved? ==> Reload(s.disk) == AtRelease(s)
  {
  }

  lemma RestartKeeps(cfg: Config, s: Core, now: int)
    requires CoreInv(cfg, s, now)
    ensures CoreInv(cfg, Core(Reload(s.disk), s.disk, Free), now)
  {
    var r := Reload(s.disk).entries;
    forall id | id in r ensures r[id].lastUsedAt <= now {
      match s.lock
      case Free => assert id in s.mem.entries;
      case Held(_, _, phase, before) => assert id in (if phase.Saved? then s.mem.entries else before.entries);
    }
  }

  lemma TickKeeps(cfg: Config, s: Core, now: int, later: int)
    requires CoreInv(cfg, s, now) && now <= later
    ensures CoreInv(cfg, s, later)
  {
  }
}
