/** Skill installation by staging, backup and swap, and the reconcile pass over a manifest. */
module SkillReconciler {
  import opened Wrappers

  /** Directories under the managed root; random suffixes are numbered. */
  datatype Path = Target(id: string) | Staging(id: string, n: nat) | Backup(id: string, n: nat)

  /** A directory holds an unfinished tree or the complete package with a digest. */
  datatype Dir = Unfinished | Complete(sha: string)

  type Disk = map<Path, Dir>

  datatype Row = Row(version: string, sha: string)
  datatype Skill = Skill(id: string, version: string, sha: string)

  datatype Status = Ok | Threw | Crashed

  datatype ItemStatus = Installed | Updated | Unchanged | Removed | Failed
  datatype SyncItem = SyncItem(id: string, status: ItemStatus)
  datatype PassStatus = Succeeded | Incomplete | PassStopped

  /** What the download delivers: whether its digest matches and it has a root SKILL.md. */
  datatype Package = Package(digestMatches: bool, hasRoot: bool)

  /** A complete copy with one of the digests at the target or at a backup of the Skill. */
  ghost predicate HasCopy(disk: Disk, id: string, shas: set<string>) {
    exists p :: p in disk && p.id == id && !p.Staging? && disk[p].Complete? && disk[p].sha in shas
  }

  ghost predicate SameElsewhere(a: Disk, b: Disk, id: string) {
    forall p: Path :: p.id != id ==> SamePath(a, b, p)
  }

  predicate SamePath(a: Disk, b: Disk, p: Path) {
    (p in a <==> p in b) && (p in a ==> a[p] == b[p])
  }

  ghost predicate KeepsCopy(start: Disk, now: Disk, id: string, shas: set<string>) {
    SameElsewhere(start, now, id) && (HasCopy(start, id, shas) ==> HasCopy(now, id, shas))
  }

  predicate SafeChar(c: char) {
    'A' <= c <= 'Z' || 'a' <= c <= 'z' || '0' <= c <= '9' || c in "._-"
  }

  predicate SafeName(id: string) {
    id != "" && forall i :: 0 <= i < |id| ==> SafeChar(id[i])
  }

  /** The download came with the right digest and a root SKILL.md, and the id names one directory. */
  ghost predicate Vetted(skill: Skill, package: Option<Package>) {
    && package.Some? && package.value.digestMatches && package.value.hasRoot && skill.id != ""
    && forall c :: c in skill.id ==>
         'A' <= c <= 'Z' || 'a' <= c <= 'z' || '0' <= c <= '9' || c == '.' || c == '_' || c == '-'
  }

  /** Nothing about the download or the id makes `install` throw; the ids "." and ".." name the root and its parent. */
  ghost predicate Installable(skill: Skill, package: Option<Package>) {
    Vetted(skill, package) && skill.id != "." && skill.id != ".."
  }

  lemma SafeNameOnFields(id: string)
    ensures SafeName(id) <==>
              id != "" && forall c :: c in id ==>
                'A' <= c <= 'Z' || 'a' <= c <= 'z' || '0' <= c <= '9' || c == '.' || c == '_' || c == '-'
  {
    forall i | 0 <= i < |id|
      ensures id[i] in id
    {
    }
  }

  /** An absent or empty etag leaves the stored one. */
  function StoredEtag(newEtag: Option<string>, stored: Option<string>): Option<string> {
    if newEtag.Some? && newEtag.value != "" then newEtag else stored
  }

  ghost predicate AllInstallable(manifest: seq<Skill>, download: nat -> Option<Package>) {
    forall k: nat :: k < |manifest| ==> Installable(manifest[k], download(k))
  }

  class Reconciler {
    var disk: Disk
    var rows: map<string, Row>
    var etag: Option<string>
    var revision: Option<string>
    /** Every state the disk has been in since the trace was started. */
    ghost var trace: seq<Disk>
    /** Some file or table operation has failed. */
    ghost var faulted: bool

    constructor ()
      ensures disk == map[] && rows == map[] && etag == None && revision == None && trace == [] && !faulted
    {
      disk, rows, etag, revision, trace, faulted := map[], map[], None, None, [], false;
    }

    method Set(next: Disk)
      modifies `disk, `trace
      ensures disk == next && trace == old(trace) + [next]
    {
      disk := next;
      trace := trace + [next];
    }

    /** An operation succeeds, throws, or is where the process crashes. */
    method Attempt() returns (st: Status)
      modifies `faulted
      ensures faulted == (old(faulted) || !st.Ok?)
    {
      st := *;
      faulted := faulted || !st.Ok?;
    }

    /** `mkdirSync` or extraction: the directory becomes `done`, or is left untouched or unfinished. */
    method Fill(path: Path, done: Dir) returns (st: Status)
      modifies `disk, `trace, `faulted
      ensures trace == old(trace) + [disk]
      ensures st.Ok? ==> disk == old(disk)[path := done]
      ensures !st.Ok? ==> disk == old(disk) || disk == old(disk)[path := Unfinished]
      ensures faulted == (old(faulted) || !st.Ok?)
    {
      st := Attempt();
      var untouched: bool := *;
      Set(if st.Ok? then disk[path := done] else if untouched then disk else disk[path := Unfinished]);
    }

    /** `renameSync` is atomic: it happens or it throws without effect. */
    method Rename(source: Path, destination: Path) returns (st: Status)
      requires source in disk
      modifies `disk, `trace, `faulted
      ensures trace == old(trace) + [disk]
      ensures disk == if st.Ok? then (old(disk) - {source})[destination := old(disk)[source]] else old(disk)
      ensures faulted == (old(faulted) || !st.Ok?)
    {
      st := Attempt();
      Set(if st.Ok? then (disk - {source})[destination := disk[source]] else disk);
    }

    /** `removeDirectory` may stop half way. */
    method Remove(path: Path) returns (st: Status)
      modifies `disk, `trace, `faulted
      ensures trace == old(trace) + [disk]
      ensures st.Ok? ==> disk == old(disk) - {path}
      ensures || disk == old(disk) || disk == old(disk) - {path}
              || (path in old(disk) && disk == old(disk)[path := Unfinished])
      ensures path !in old(disk) ==> st.Ok?
      ensures faulted == (old(faulted) || !st.Ok?)
    {
      if path !in disk {
        Set(disk);
        assert disk == disk - {path};
        return Ok;
      }
      st := Attempt();
      var untouched: bool, removed: bool := *, *;
      Set(if st.Ok? || removed then disk - {path} else if untouched then disk else disk[path := Unfinished]);
    }

    /** Every state recorded since `before` keeps the other Skills' directories and a complete copy of this one. */
    ghost predicate Guarded(start: Disk, before: seq<Disk>, id: string, shas: set<string>)
      reads `trace
    {
      && before <= trace
      && (forall k :: |before| <= k < |trace| ==> KeepsCopy(start, trace[k], id, shas))
    }

    /** The recovery path of `install`: drop the staging directory, then restore the backup if the target is gone. */
    method Recover(id: string, n: nat) returns (recovered: bool)
      modifies `disk, `trace, `faulted
      ensures old(trace) <= trace
      ensures (forall k :: |old(trace)| <= k < |trace| ==> RecoveryState(old(disk), trace[k], id, n))
      ensures RecoveryState(old(disk), disk, id, n)
      ensures recovered ==> Staging(id, n) !in disk
      ensures old(faulted) ==> faulted
      ensures Target(id) in old(disk) || Backup(id, n) !in old(disk) ==> SamePath(old(disk), disk, Target(id))
      ensures recovered && (Target(id) in old(disk) || Backup(id, n) in old(disk)) ==> Target(id) in disk
    {
      var st := Remove(Staging(id, n));
      assert RecoveryState(old(disk), disk, id, n);
      if !st.Ok? {
        return false;
      }
      if Target(id) !in disk && Backup(id, n) in disk {
        st := Rename(Backup(id, n), Target(id));
        return st.Ok?;
      }
      return true;
    }

    /** Moves the target aside if there is one, then the staged package into its place. */
    method Exchange(staging: Path, target: Path, backup: Path) returns (st: Status)
      requires staging in disk && staging != target && target != backup && staging != backup && backup !in disk
      modifies `disk, `trace, `faulted
      ensures old(trace) <= trace
      ensures (forall k :: |old(trace)| <= k < |trace| ==> ExchangeState(old(disk), trace[k], staging, target, backup))
      ensures ExchangeState(old(disk), disk, staging, target, backup)
      ensures st.Ok? ==> target in disk && disk[target] == old(disk)[staging]
      ensures faulted == (old(faulted) || !st.Ok?)
    {
      if target in disk {
        st := Rename(target, backup);
        assert ExchangeState(old(disk), disk, staging, target, backup);
        if !st.Ok? {
          return;
        }
      }
      st := Rename(staging, target);
      assert ExchangeState(old(disk), disk, staging, target, backup);
    }

    /** After the swap: the backup goes, then the row is written. */
    method FinishSwap(skill: Skill, n: nat) returns (st: Status)
      modifies `disk, `trace, `rows, `faulted
      ensures old(trace) <= trace
      ensures forall k :: |old(trace)| <= k < |trace| ==> OnlyBackupTouched(old(disk), trace[k], skill.id, n)
      ensures OnlyBackupTouched(old(disk), disk, skill.id, n)
      ensures rows == if st.Ok? then old(rows)[skill.id := Row(skill.version, skill.sha)] else old(rows)
      ensures faulted == (old(faulted) || !st.Ok?)
    {
      st := Remove(Backup(skill.id, n));
      if st.Ok? {
        st := Attempt();
        if st.Ok? {
          rows := rows[skill.id := Row(skill.version, skill.sha)];
        }
      }
    }

    /** The body of the `try` in `install`, from extraction to the row. */
    method SwapIn(skill: Skill, package: Package, n: nat) returns (st: Status)
      requires Backup(skill.id, n) !in disk
      modifies `disk, `trace, `rows, `faulted
      ensures old(trace) <= trace
      ensures (forall k :: |old(trace)| <= k < |trace| ==> SwapState(old(disk), trace[k], skill, n))
      ensures SwapState(old(disk), disk, skill, n)
      ensures st.Ok? ==> Target(skill.id) in disk && disk[Target(skill.id)] == Complete(skill.sha)
      ensures rows == if st.Ok? then old(rows)[skill.id := Row(skill.version, skill.sha)] else old(rows)
      ensures (old(faulted) ==> faulted) && (!faulted && package.hasRoot ==> st.Ok?) && (!faulted ==> !st.Crashed?)
      ensures !package.hasRoot ==>
                !st.Ok? && SamePath(old(disk), disk, Target(skill.id)) && Backup(skill.id, n) !in disk
    {
      var staging, target, backup := Staging(skill.id, n), Target(skill.id), Backup(skill.id, n);
      st := Fill(staging, Complete(skill.sha));
      FillIsSwap(old(disk), disk, skill, n);
      if !st.Ok? {
        return;
      }
      if !package.hasRoot {
        return Threw;
      }
      ghost var staged := disk;
      st := Exchange(staging, target, backup);
      forall d | ExchangeState(staged, d, staging, target, backup)
        ensures SwapState(old(disk), d, skill, n)
      {
        ExchangeIsSwap(old(disk), staged, d, skill, n);
      }
      if !st.Ok? {
        return;
      }
      ghost var swapped := disk;
      st := FinishSwap(skill, n);
      forall d | OnlyBackupTouched(swapped, d, skill.id, n)
        ensures SwapState(old(disk), d, skill, n)
      {
        FinishIsSwap(old(disk), swapped, d, skill, n);
      }
      assert SamePath(swapped, disk, target);
    }

    /** The `try` of `install` with its handler. */
    method SwapOrRecover(skill: Skill, package: Package, n: nat, ghost shas: set<string>)
      returns (st: Status, ghost recovered: bool)
      requires Backup(skill.id, n) !in disk && skill.sha in shas
      modifies `disk, `trace, `rows, `faulted
      ensures Guarded(old(disk), old(trace), skill.id, shas) && KeepsCopy(old(disk), disk, skill.id, shas)
      ensures st.Ok? ==> Target(skill.id) in disk && disk[Target(skill.id)] == Complete(skill.sha)
      ensures rows == if st.Ok? then old(rows)[skill.id := Row(skill.version, skill.sha)] else old(rows)
      ensures (old(faulted) ==> faulted) && (!faulted ==> !st.Crashed?) && (!faulted && package.hasRoot ==> st.Ok?)
      ensures !package.hasRoot ==> !st.Ok? && SamePath(old(disk), disk, Target(skill.id))
      ensures st.Threw? && recovered && Target(skill.id) in old(disk) ==>
                Target(skill.id) in disk && disk[Target(skill.id)] in {old(disk)[Target(skill.id)], Complete(skill.sha)}
    {
      recovered := true;
      st := SwapIn(skill, package, n);
      ghost var swapped := disk;
      forall d | SwapState(old(disk), d, skill, n)
        ensures KeepsCopy(old(disk), d, skill.id, shas)
      {
        SwapKeepsCopy(old(disk), d, skill, n, shas);
      }
      if st.Threw? {
        recovered := Recover(skill.id, n);
        forall d | RecoveryState(swapped, d, skill.id, n)
          ensures KeepsCopy(old(disk), d, skill.id, shas)
        {
          RecoveryKeepsCopy(swapped, d, skill.id, n, shas);
        }
      }
    }

    /**
     * `install`: any operation may throw or be the last one before a crash. A complete copy that was
     * there stays there at every instant, old or new; success leaves the row matching the directory.
     */
    method Install(skill: Skill, package: Option<Package>, n: nat, ghost shas: set<string>)
      returns (st: Status, ghost recovered: bool)
      requires Staging(skill.id, n) !in disk && Backup(skill.id, n) !in disk && skill.sha in shas
      modifies `disk, `trace, `rows, `faulted
      ensures Guarded(old(disk), old(trace), skill.id, shas) && KeepsCopy(old(disk), disk, skill.id, shas)
      ensures st.Ok? ==> Target(skill.id) in disk && disk[Target(skill.id)] == Complete(skill.sha)
      ensures rows == if st.Ok? then old(rows)[skill.id := Row(skill.version, skill.sha)] else old(rows)
      ensures (old(faulted) ==> faulted) && (!faulted ==> !st.Crashed?)
      ensures (!faulted && Installable(skill, package) ==> st.Ok?)
      ensures !Vetted(skill, package) ==> !st.Ok? && SamePath(old(disk), disk, Target(skill.id))
      ensures st.Threw? && recovered && Target(skill.id) in old(disk) ==>
                Target(skill.id) in disk && disk[Target(skill.id)] in {old(disk)[Target(skill.id)], Complete(skill.sha)}
    {
      recovered := true;
      SafeNameOnFields(skill.id);
      if package.None? || !package.value.digestMatches || !SafeName(skill.id) {
        return Threw, true;
      }
      st := Fill(Staging(skill.id, n), Unfinished);
      StagingIsNoCopy(old(disk), disk, skill.id, n, shas);
      if st.Ok? {
        st, recovered := SwapOrRecover(skill, package.value, n, shas);
      }
    }

    /** One Skill of the manifest; None is a crash. */
    method ApplySkill(skill: Skill, package: Option<Package>, ghost shas: set<string>)
      returns (status: Option<ItemStatus>)
      requires skill.sha in shas
      modifies `disk, `trace, `rows, `faulted
      ensures Guarded(old(disk), old(trace), skill.id, shas)
      ensures KeepsCopy(old(disk), disk, skill.id, shas)
      ensures status.Some? ==> status.value in {Unchanged, Updated, Installed, Failed}
      ensures rows == if status in {Some(Updated), Some(Installed)}
                      then old(rows)[skill.id := Row(skill.version, skill.sha)] else old(rows)
      ensures status.Some? && status.value != Failed ==>
                skill.id in rows && rows[skill.id] == Row(skill.version, skill.sha)
      ensures status == Some(Installed) ==> skill.id !in old(rows)
      ensures status == Some(Unchanged) <==> RowIs(old(rows), skill)
      ensures status == Some(Unchanged) ==> disk == old(disk) && faulted == old(faulted)
      ensures (old(faulted) ==> faulted) && (!faulted ==> status.Some?)
      ensures !faulted && Installable(skill, package) ==> status != Some(Failed)
      ensures status in {Some(Updated), Some(Installed)} ==>
                Target(skill.id) in disk && disk[Target(skill.id)] == Complete(skill.sha)
      ensures !Vetted(skill, package) ==>
                status !in {Some(Updated), Some(Installed)} && SamePath(old(disk), disk, Target(skill.id))
    {
      var present := skill.id in rows;
      if RowIs(rows, skill) {
        return Some(Unchanged);
      }
      ghost var free := UnusedNumber(disk.Keys);
      assert Staging(skill.id, free) !in disk.Keys && Backup(skill.id, free) !in disk.Keys;
      var n: nat :| Staging(skill.id, n) !in disk && Backup(skill.id, n) !in disk;
      var st, _ := Install(skill, package, n, shas);
      return match st
        case Ok => Some(if present then Updated else Installed)
        case Threw => Some(Failed)
        case Crashed => None;
    }

    /** The revocation of one managed Skill; None is a crash. */
    method Revoke(id: string) returns (status: Option<ItemStatus>)
      requires id in rows
      modifies `disk, `trace, `rows, `faulted
      ensures old(trace) <= trace
      ensures (forall k :: |old(trace)| <= k < |trace| ==> SameElsewhere(old(disk), trace[k], id))
      ensures SameElsewhere(old(disk), disk, id)
      ensures status.Some? ==> status.value in {Removed, Failed}
      ensures rows == if status == Some(Removed) then old(rows) - {id} else old(rows)
      ensures status == Some(Removed) ==> Target(id) !in disk
      ensures (old(faulted) ==> faulted) && (!faulted ==> status == Some(Removed))
    {
      var st := Remove(Target(id));
      if st.Ok? {
        st := Attempt();
        if st.Ok? {
          rows := rows - {id};
        }
      }
      return match st case Ok => Some(Removed) case Threw => Some(Failed) case Crashed => None;
    }

    /** Since `start` no listed Skill lost a complete copy, at any instant. */
    ghost predicate Preserved(start: Disk, before: seq<Disk>, manifest: seq<Skill>, shas: set<string>)
      reads `disk, `trace
    {
      && before <= trace && KeepsCopies(start, disk, manifest, shas)
      && (forall t :: |before| <= t < |trace| ==> KeepsCopies(start, trace[t], manifest, shas))
    }

    /** The rows and directories are what the items of the first entries say. */
    ghost predicate Followed(start: Disk, startRows: map<string, Row>, manifest: seq<Skill>, items: seq<SyncItem>)
      reads `disk, `rows
    {
      Applied(startRows, rows, manifest, items) && TargetsFollow(start, disk, rows, manifest, items)
    }

    /** The next entry of the manifest. */
    method ApplyNext(
        skill: Skill, package: Option<Package>, ghost start: Disk, ghost before: seq<Disk>,
        ghost startRows: map<string, Row>, ghost manifest: seq<Skill>, ghost shas: set<string>,
        ghost items: seq<SyncItem>)
      returns (status: Option<ItemStatus>)
      requires |items| < |manifest| && skill == manifest[|items|] && skill.sha in shas
      requires Preserved(start, before, manifest, shas) && Followed(start, startRows, manifest, items)
      modifies `disk, `trace, `rows, `faulted
      ensures Preserved(start, before, manifest, shas)
      ensures status.Some? ==> Followed(start, startRows, manifest, items + [SyncItem(skill.id, status.value)])
      ensures status.None? ==> Applied(startRows, rows, manifest, items)
      ensures (old(faulted) ==> faulted) && (!faulted ==> status.Some?)
      ensures !faulted && Installable(skill, package) ==> status != Some(Failed)
      ensures !Vetted(skill, package) ==>
                status !in {Some(Updated), Some(Installed)} && SameTarget(old(disk), disk, skill.id)
      ensures forall id :: id != skill.id ==> SameTarget(old(disk), disk, id)
      ensures RowIs(old(rows), skill) ==>
                status == Some(Unchanged) && disk == old(disk) && rows == old(rows) && faulted == old(faulted)
    {
      ghost var diskBefore, rowsBefore := disk, rows;
      status := ApplySkill(skill, package, shas);
      assert forall id :: Target(id).id == id;
      forall d | KeepsCopy(diskBefore, d, skill.id, shas)
        ensures KeepsCopies(start, d, manifest, shas)
      {
        OthersKeepCopies(start, diskBefore, d, manifest, skill.id, shas);
      }
      if status.Some? {
        TargetsStep(start, diskBefore, disk, rowsBefore, rows, manifest, items, status.value);
        AppliedStep(startRows, rowsBefore, rows, manifest, items, status.value);
      }
    }

    /** All Skills of the manifest, in order; a failed one does not stop the others. */
    method ApplyAll(manifest: seq<Skill>, download: nat -> Option<Package>, ghost shas: set<string>)
      returns (items: seq<SyncItem>, failures: bool, crashed: bool)
      requires forall k :: 0 <= k < |manifest| ==> manifest[k].sha in shas
      modifies `disk, `trace, `rows, `faulted
      ensures Preserved(old(disk), old(trace), manifest, shas)
      ensures Applied(old(rows), rows, manifest, items) && (!crashed ==> |items| == |manifest|)
      ensures !crashed ==> TargetsFollow(old(disk), disk, rows, manifest, items)
      ensures failures <==> HasFailed(items)
      ensures (old(faulted) ==> faulted) && (!faulted ==> !crashed)
      ensures !faulted && AllInstallable(manifest, download) ==> !failures
      ensures |items| <= |manifest| && OnlyVettedApplied(old(disk), disk, manifest, download, items)
      ensures RowsCover(old(rows), manifest) ==>
                disk == old(disk) && rows == old(rows) && faulted == old(faulted) && !crashed && !failures
    {
      items, failures, crashed := [], false, false;
      for i := 0 to |manifest|
        invariant |items| == i && Followed(old(disk), old(rows), manifest, items)
        invariant Preserved(old(disk), old(trace), manifest, shas)
        invariant failures <==> HasFailed(items)
        invariant (old(faulted) ==> faulted) && (!faulted && AllInstallable(manifest, download) ==> !failures)
        invariant OnlyVettedApplied(old(disk), disk, manifest, download, items)
        invariant RowsCover(old(rows), manifest) ==>
                    disk == old(disk) && rows == old(rows) && faulted == old(faulted) && !failures
      {
        ghost var diskBefore := disk;
        var status := ApplyNext(manifest[i], download(i), old(disk), old(trace), old(rows), manifest, shas, items);
        VettedStep(old(disk), diskBefore, disk, manifest, download, items, status);
        if status.None? {
          return items, failures, true;
        }
        FailedAppend(items, SyncItem(manifest[i].id, status.value));
        items := items + [SyncItem(manifest[i].id, status.value)];
        failures := failures || status.value == Failed;
      }
    }

    /** The items report what became of `ids` so far; the rows of listed and remaining Skills are untouched. */
    ghost predicate Reported(
        start: Disk, startRows: map<string, Row>, manifest: seq<Skill>, todo: set<string>, items: seq<SyncItem>,
        ids: set<string>)
      reads `disk, `rows
    {
      && (forall id :: id in ListedIds(manifest) || id in todo ==> SameRow(startRows, rows, id))
      && (forall item :: item in items ==> RevokeItemFits(startRows, rows, item))
      && OthersTouched(start, disk, manifest, items) && ItemIds(items) == ids && rows.Keys <= startRows.Keys
    }

    /** One Skill the manifest does not list. */
    method RevokeNext(
        id: string, ghost start: Disk, ghost before: seq<Disk>, ghost startRows: map<string, Row>,
        ghost manifest: seq<Skill>, ghost shas: set<string>, ghost todo: set<string>, ghost items: seq<SyncItem>,
        ghost ids: set<string>)
      returns (status: Option<ItemStatus>)
      requires id in todo && id in startRows && id !in ListedIds(manifest) && id !in ids
      requires Preserved(start, before, manifest, shas) && Reported(start, startRows, manifest, todo, items, ids)
      modifies `disk, `trace, `rows, `faulted
      ensures Preserved(start, before, manifest, shas)
      ensures status.Some? ==> status.value in {Removed, Failed}
      ensures status.Some? ==>
                Reported(start, startRows, manifest, todo - {id}, items + [SyncItem(id, status.value)], ids + {id})
      ensures status.None? ==> Reported(start, startRows, manifest, todo, items, ids)
      ensures (old(faulted) ==> faulted) && (!faulted ==> status == Some(Removed))
    {
      ghost var diskBefore, rowsBefore := disk, rows;
      assert SameRow(startRows, rows, id);
      status := Revoke(id);
      forall d | SameElsewhere(diskBefore, d, id)
        ensures KeepsCopies(start, d, manifest, shas)
      {
        OthersKeepCopies(start, diskBefore, d, manifest, id, shas);
      }
      OthersInterrupted(start, diskBefore, disk, manifest, items, id);
      if status.Some? {
        FailedAppend(items, SyncItem(id, status.value));
        OthersStep(start, diskBefore, disk, manifest, items, id, status.value);
        RevokedStep(startRows, rowsBefore, rows, items, id, status.value);
      }
    }

    /** All managed Skills the manifest does not list. */
    method RevokeOthers(manifest: seq<Skill>, ghost shas: set<string>)
      returns (items: seq<SyncItem>, failures: bool, crashed: bool)
      modifies `disk, `trace, `rows, `faulted
      ensures Preserved(old(disk), old(trace), manifest, shas)
      ensures failures <==> HasFailed(items)
      ensures forall id :: id in ListedIds(manifest) ==> SameRow(old(rows), rows, id)
      ensures forall item :: item in items ==> RevokeItemFits(old(rows), rows, item)
      ensures ItemIds(items) <= old(rows).Keys - ListedIds(manifest)
      ensures !crashed ==> ItemIds(items) == old(rows).Keys - ListedIds(manifest)
      ensures rows.Keys <= old(rows).Keys
      ensures (old(faulted) ==> faulted) && (!faulted ==> !crashed && !failures)
      ensures OthersTouched(old(disk), disk, manifest, items)
      ensures old(rows).Keys <= ListedIds(manifest) ==>
                disk == old(disk) && rows == old(rows) && faulted == old(faulted) && !crashed && !failures
    {
      items, failures, crashed := [], false, false;
      var others := rows.Keys - ListedIds(manifest);
      var todo := others;
      while todo != {}
        invariant todo <= others && Preserved(old(disk), old(trace), manifest, shas)
        invariant Reported(old(disk), old(rows), manifest, todo, items, others - todo)
        invariant failures <==> HasFailed(items)
        invariant (old(faulted) ==> faulted) && (!faulted ==> !failures)
        invariant others == {} ==> disk == old(disk) && rows == old(rows) && faulted == old(faulted) && !failures
      {
        var id :| id in todo;
        var status := RevokeNext(id, old(disk), old(trace), old(rows), manifest, shas, todo, items, others - todo);
        if status.None? {
          return items, failures, true;
        }
        FailedAppend(items, SyncItem(id, status.value));
        items := items + [SyncItem(id, status.value)];
        failures := failures || status.value == Failed;
        assert others - todo + {id} == others - (todo - {id});
        todo := todo - {id};
      }
    }

    /** The report of a pass that found nothing new. */
    method UnchangedItems() returns (items: seq<SyncItem>)
      ensures ItemIds(items) == rows.Keys && forall k :: 0 <= k < |items| ==> items[k].status == Unchanged
    {
      items := [];
      var todo := rows.Keys;
      while todo != {}
        invariant todo <= rows.Keys && ItemIds(items) == rows.Keys - todo
        invariant forall k :: 0 <= k < |items| ==> items[k].status == Unchanged
      {
        var id :| id in todo;
        FailedAppend(items, SyncItem(id, Unchanged));
        items := items + [SyncItem(id, Unchanged)];
        todo := todo - {id};
      }
    }

    /** The two loops of a pass: listed Skills first, then the managed ones the manifest does not list. */
    method ApplyManifest(manifest: seq<Skill>, download: nat -> Option<Package>, ghost shas: set<string>)
      returns (stopped: bool, failures: bool, applied: seq<SyncItem>, revoked: seq<SyncItem>)
      requires forall k :: 0 <= k < |manifest| ==> manifest[k].sha in shas
      modifies `disk, `trace, `rows, `faulted
      ensures Preserved(old(disk), old(trace), manifest, shas)
      ensures (old(faulted) ==> faulted) && (!faulted ==> !stopped)
      ensures !faulted && AllInstallable(manifest, download) ==> !failures
      ensures |applied| <= |manifest| && OnlyVettedApplied(old(disk), disk, manifest, download, applied)
      ensures !stopped ==>
                && Attempted(manifest, applied) && ItemIds(revoked) == old(rows).Keys - ListedIds(manifest)
                && (failures <==> HasFailed(applied + revoked))
                && ListedRowsFit(old(rows), rows, manifest, applied)
                && (forall item :: item in revoked ==> RevokeItemFits(old(rows), rows, item))
                && (forall item :: item in revoked && item.status == Removed ==> Target(item.id) !in disk)
      ensures !stopped && !failures ==>
                RowsFollow(rows, manifest) && TargetsMatch(old(disk), disk, rows, manifest, applied)
      ensures RowsCover(old(rows), manifest) && old(rows).Keys == ListedIds(manifest) ==>
                disk == old(disk) && rows == old(rows) && faulted == old(faulted) && !stopped && !failures
    {
      revoked := [];
      applied, failures, stopped := ApplyAll(manifest, download, shas);
      if stopped {
        return;
      }
      ghost var mid, rowsMid := disk, rows;
      UnlistedRowsStay(old(rows), rowsMid, manifest, applied);
      var revokeFailures: bool;
      revoked, revokeFailures, stopped := RevokeOthers(manifest, shas);
      VettedAfterRevocation(old(disk), mid, disk, manifest, download, applied, revoked);
      forall d | KeepsCopies(mid, d, manifest, shas)
        ensures KeepsCopies(old(disk), d, manifest, shas)
      {
      }
      if stopped {
        return;
      }
      FailedConcat(applied, revoked);
      ListedRowsKeepFit(old(rows), rowsMid, rows, manifest, applied);
      RevokedOverall(old(rows), rowsMid, rows, revoked);
      if !failures && !revokeFailures {
        TargetsMatchFrom(old(disk), mid, disk, rowsMid, rows, manifest, applied, revoked);
        RowsFollowFrom(old(rows), rowsMid, rows, manifest, applied, revoked);
      }
      failures := failures || revokeFailures;
    }

    /** The revision is stored first, then the etag if there is one; either write, or the return, may be the last. */
    method StoreApplied(newRevision: string, newEtag: Option<string>) returns (st: Status)
      modifies `revision, `etag, `faulted
      ensures faulted == (old(faulted) || !st.Ok?)
      ensures st.Ok? ==> revision == Some(newRevision) && etag == StoredEtag(newEtag, old(etag))
      ensures revision == old(revision) || revision == Some(newRevision)
      ensures etag != old(etag) ==> etag == newEtag && revision == Some(newRevision)
    {
      st := Attempt();
      if !st.Ok? {
        return;
      }
      revision := Some(newRevision);
      st := Attempt();
      if !st.Ok? {
        return;
      }
      etag := StoredEtag(newEtag, etag);
      st := Attempt();
    }

    /**
     * `reconcile`. A pass that reports success leaves exactly the rows the manifest's last entries ask
     * for. The stored revision and etag move only over such rows and in that order, though a pass may stop
     * between or after the two writes without reporting. Every Skill is attempted whatever fails before it,
     * and no listed Skill is ever without a complete copy it had before.
     */
    method Reconcile(notModified: bool, manifest: seq<Skill>, download: nat -> Option<Package>, newRevision: string,
                     newEtag: Option<string>, ghost shas: set<string>)
      returns (status: PassStatus, applied: seq<SyncItem>, revoked: seq<SyncItem>)
      requires forall k :: 0 <= k < |manifest| ==> manifest[k].sha in shas
      modifies this
      ensures old(trace) <= trace
      ensures (forall t :: |old(trace)| <= t < |trace| ==> KeepsCopies(old(disk), trace[t], manifest, shas))
      ensures notModified ==>
                && status == Succeeded && disk == old(disk) && rows == old(rows)
                && etag == old(etag) && revision == old(revision)
      ensures !notModified && status == Succeeded ==>
                && RowsFollow(rows, manifest) && revision == Some(newRevision)
                && etag == (if newEtag == None || newEtag == Some("") then old(etag) else newEtag)
      ensures (old(faulted) ==> faulted) && (!faulted && AllInstallable(manifest, download) ==> status == Succeeded)
      ensures !notModified ==>
                |applied| <= |manifest| && OnlyVettedApplied(old(disk), disk, manifest, download, applied)
      ensures revision != old(revision) || etag != old(etag) ==>
                && !notModified && status != Incomplete && revision == Some(newRevision)
                && (etag == old(etag) || etag == newEtag)
                && RowsFollow(rows, manifest) && TargetsMatch(old(disk), disk, rows, manifest, applied)
                && Attempted(manifest, applied) && ItemIds(revoked) == old(rows).Keys - ListedIds(manifest)
                && !HasFailed(applied + revoked)
      ensures !notModified && status != PassStopped ==>
                && Attempted(manifest, applied) && ItemIds(revoked) == old(rows).Keys - ListedIds(manifest)
                && (status == Succeeded <==> !HasFailed(applied + revoked))
                && ListedRowsFit(old(rows), rows, manifest, applied)
                && (forall item :: item in revoked ==> RevokeItemFits(old(rows), rows, item))
                && (forall item :: item in revoked && item.status == Removed ==> Target(item.id) !in disk)
      ensures !notModified && status == Succeeded ==> TargetsMatch(old(disk), disk, rows, manifest, applied)
      ensures !notModified && RowsCover(old(rows), manifest) && old(rows).Keys == ListedIds(manifest) ==>
                disk == old(disk) && rows == old(rows) && (!faulted ==> status == Succeeded)
    {
      applied, revoked := [], [];
      if notModified {
        applied := UnchangedItems();
        return Succeeded, applied, [];
      }
      var st := Attempt();
      if !st.Ok? {
        return PassStopped, [], [];
      }
      var stopped, failures: bool;
      stopped, failures, applied, revoked := ApplyManifest(manifest, download, shas);
      if stopped {
        return PassStopped, applied, revoked;
      }
      if failures {
        return Incomplete, applied, revoked;
      }
      st := StoreApplied(newRevision, newEtag);
      return if st.Ok? then Succeeded else PassStopped, applied, revoked;
    }
  }

  predicate RowIs(rows: map<string, Row>, skill: Skill) {
    skill.id in rows && rows[skill.id] == Row(skill.version, skill.sha)
  }

  /** The rows already say what the manifest says. */
  predicate RowsCover(rows: map<string, Row>, manifest: seq<Skill>) {
    forall k :: 0 <= k < |manifest| ==> RowIs(rows, manifest[k])
  }

  /** The directory of the Skill is the package its row names. */
  predicate Whole(disk: Disk, rows: map<string, Row>, id: string) {
    id in rows && Target(id) in disk && disk[Target(id)] == Complete(rows[id].sha)
  }

  predicate SameTarget(a: Disk, b: Disk, id: string) {
    SamePath(a, b, Target(id))
  }

  predicate NoFailure(manifest: seq<Skill>, items: seq<SyncItem>, id: string)
    requires |items| <= |manifest|
  {
    forall k :: 0 <= k < |items| && manifest[k].id == id ==> items[k].status != Failed
  }

  /** No entry of the id was applied. */
  predicate OnlyFailed(manifest: seq<Skill>, items: seq<SyncItem>, id: string)
    requires |items| <= |manifest|
  {
    forall k :: 0 <= k < |items| && manifest[k].id == id ==> items[k].status == Failed
  }

  /** Every entry of the id was reported unchanged. */
  predicate OnlyUnchanged(manifest: seq<Skill>, items: seq<SyncItem>, id: string)
    requires |items| <= |manifest|
  {
    forall k :: 0 <= k < |items| && manifest[k].id == id ==> items[k].status == Unchanged
  }

  /** An entry reported unchanged leaves the directory as it is; a reported installation makes it whole. */
  ghost predicate TargetsFollow(before: Disk, now: Disk, rows: map<string, Row>, manifest: seq<Skill>,
                                items: seq<SyncItem>)
  {
    |items| <= |manifest| && forall id :: NoFailure(manifest, items, id) ==>
      if OnlyUnchanged(manifest, items, id) then SameTarget(before, now, id) else Whole(now, rows, id)
  }

  /** Only vetted packages are reported as applied, and a listed Skill without a vetted one keeps its directory. */
  ghost predicate OnlyVettedApplied(before: Disk, now: Disk, manifest: seq<Skill>, download: nat -> Option<Package>,
                                    items: seq<SyncItem>)
    requires |items| <= |manifest|
  {
    && (forall k :: 0 <= k < |items| && items[k].status in {Installed, Updated} ==> Vetted(manifest[k], download(k)))
    && (forall id :: id in ListedIds(manifest) && NeverVetted(manifest, download, id) ==> SameTarget(before, now, id))
  }

  ghost predicate NeverVetted(manifest: seq<Skill>, download: nat -> Option<Package>, id: string) {
    forall k :: 0 <= k < |manifest| && manifest[k].id == id ==> !Vetted(manifest[k], download(k))
  }

  lemma VettedStep(start: Disk, before: Disk, now: Disk, manifest: seq<Skill>, download: nat -> Option<Package>,
                   items: seq<SyncItem>, status: Option<ItemStatus>)
    requires |items| < |manifest| && OnlyVettedApplied(start, before, manifest, download, items)
    requires var skill, package := manifest[|items|], download(|items|);
             && (!Vetted(skill, package) ==>
                   status !in {Some(Updated), Some(Installed)} && SameTarget(before, now, skill.id))
             && (forall id :: id != skill.id ==> SameTarget(before, now, id))
    ensures OnlyVettedApplied(start, now, manifest, download, items)
    ensures status.Some? ==>
              OnlyVettedApplied(start, now, manifest, download, items + [SyncItem(manifest[|items|].id, status.value)])
  {
    forall id | id in ListedIds(manifest) && NeverVetted(manifest, download, id)
      ensures SameTarget(start, now, id)
    {
      assert SameTarget(start, before, id) && SameTarget(before, now, id);
    }
  }

  lemma VettedAfterRevocation(before: Disk, mid: Disk, now: Disk, manifest: seq<Skill>,
                              download: nat -> Option<Package>, applied: seq<SyncItem>, revoked: seq<SyncItem>)
    requires |applied| <= |manifest| && OnlyVettedApplied(before, mid, manifest, download, applied)
    requires OthersTouched(mid, now, manifest, revoked)
    ensures OnlyVettedApplied(before, now, manifest, download, applied)
  {
    forall id | id in ListedIds(manifest) && NeverVetted(manifest, download, id)
      ensures SameTarget(before, now, id)
    {
      assert SameTarget(before, mid, id) && SameTarget(mid, now, id);
    }
  }

  lemma TargetsStep(start: Disk, before: Disk, now: Disk, rows: map<string, Row>, rows': map<string, Row>,
                    manifest: seq<Skill>, items: seq<SyncItem>, status: ItemStatus)
    requires TargetsFollow(start, before, rows, manifest, items) && |items| < |manifest|
    requires SameElsewhere(before, now, manifest[|items|].id)
    requires forall id :: id != manifest[|items|].id ==> SameRow(rows, rows', id)
    requires status == Unchanged ==> now == before && rows' == rows
    requires status in {Installed, Updated} ==> Whole(now, rows', manifest[|items|].id)
    requires status in {Unchanged, Installed, Updated, Failed}
    ensures TargetsFollow(start, now, rows', manifest, items + [SyncItem(manifest[|items|].id, status)])
  {
    var i, items' := |items|, items + [SyncItem(manifest[|items|].id, status)];
    forall id | NoFailure(manifest, items', id)
      ensures if OnlyUnchanged(manifest, items', id) then SameTarget(start, now, id) else Whole(now, rows', id)
    {
      assert forall k :: 0 <= k < i ==> items'[k] == items[k];
      assert items'[i].status == status;
      assert NoFailure(manifest, items, id);
      if id != manifest[i].id {
        assert OnlyUnchanged(manifest, items, id) <==> OnlyUnchanged(manifest, items', id);
        assert SameRow(rows, rows', id) && Target(id).id == id && SameTarget(before, now, id);
      } else if status == Unchanged {
        assert OnlyUnchanged(manifest, items, id) <==> OnlyUnchanged(manifest, items', id);
      }
    }
  }

  /** Revocations leave the listed directories alone and remove what they report removed. */
  ghost predicate OthersTouched(before: Disk, now: Disk, manifest: seq<Skill>, items: seq<SyncItem>) {
    && (forall id :: id in ListedIds(manifest) ==> SameTarget(before, now, id))
    && (forall item :: item in items && item.status == Removed ==> Target(item.id) !in now)
  }

  /** A revocation cut short has made no listed directory and no removed one reappear. */
  lemma OthersInterrupted(start: Disk, before: Disk, now: Disk, manifest: seq<Skill>, items: seq<SyncItem>, id: string)
    requires OthersTouched(start, before, manifest, items) && SameElsewhere(before, now, id)
    requires id !in ListedIds(manifest) && id !in ItemIds(items)
    ensures OthersTouched(start, now, manifest, items)
  {
    forall other | other in ListedIds(manifest)
      ensures SameTarget(start, now, other)
    {
      assert Target(other).id == other && SameTarget(start, before, other) && SamePath(before, now, Target(other));
    }
    forall item | item in items && item.status == Removed
      ensures Target(item.id) !in now
    {
      assert item.id in ItemIds(items) && Target(item.id).id == item.id && SamePath(before, now, Target(item.id));
    }
  }

  lemma OthersStep(start: Disk, before: Disk, now: Disk, manifest: seq<Skill>, items: seq<SyncItem>, id: string,
                   status: ItemStatus)
    requires OthersTouched(start, before, manifest, items) && SameElsewhere(before, now, id)
    requires id !in ListedIds(manifest) && id !in ItemIds(items) && (status == Removed ==> Target(id) !in now)
    ensures OthersTouched(start, now, manifest, items + [SyncItem(id, status)])
  {
    OthersInterrupted(start, before, now, manifest, items, id);
  }

  /** Rows of unlisted Skills are what they were before the first loop. */
  lemma RevokedOverall(start: map<string, Row>, mid: map<string, Row>, now: map<string, Row>, items: seq<SyncItem>)
    requires forall item :: item in items ==> RevokeItemFits(mid, now, item)
    requires forall id :: id in ItemIds(items) ==> SameRow(start, mid, id)
    ensures forall item :: item in items ==> RevokeItemFits(start, now, item)
  {
    forall item | item in items
      ensures RevokeItemFits(start, now, item)
    {
      assert item.id in ItemIds(items) && SameRow(start, mid, item.id);
    }
  }

  lemma RevokedStep(start: map<string, Row>, before: map<string, Row>, now: map<string, Row>, items: seq<SyncItem>,
                    id: string, status: ItemStatus)
    requires forall item :: item in items ==> RevokeItemFits(start, before, item)
    requires id !in ItemIds(items) && SameRow(start, before, id) && status in {Removed, Failed}
    requires now == if status == Removed then before - {id} else before
    ensures forall item :: item in items + [SyncItem(id, status)] ==> RevokeItemFits(start, now, item)
  {
    forall item | item in items + [SyncItem(id, status)]
      ensures RevokeItemFits(start, now, item)
    {
      if item in items {
        assert item.id in ItemIds(items) && RevokeItemFits(start, before, item);
      }
    }
  }

  /** A listed Skill's directory is whole exactly unless it was only reported unchanged and was not whole before. */
  ghost predicate TargetsMatch(before: Disk, now: Disk, rows: map<string, Row>, manifest: seq<Skill>,
                               items: seq<SyncItem>)
  {
    |items| == |manifest| && forall id :: id in ListedIds(manifest) ==>
      (Whole(now, rows, id) <==> (OnlyUnchanged(manifest, items, id) ==> Whole(before, rows, id)))
  }

  lemma TargetsMatchFrom(before: Disk, mid: Disk, now: Disk, rowsMid: map<string, Row>, rows: map<string, Row>,
                         manifest: seq<Skill>, applied: seq<SyncItem>, revoked: seq<SyncItem>)
    requires TargetsFollow(before, mid, rowsMid, manifest, applied) && |applied| == |manifest| && !HasFailed(applied)
    requires OthersTouched(mid, now, manifest, revoked)
    requires forall id :: id in ListedIds(manifest) ==> SameRow(rowsMid, rows, id)
    ensures TargetsMatch(before, now, rows, manifest, applied)
  {
    forall id | id in ListedIds(manifest)
      ensures Whole(now, rows, id) <==> (OnlyUnchanged(manifest, applied, id) ==> Whole(before, rows, id))
    {
      assert NoFailure(manifest, applied, id);
      assert SameRow(rowsMid, rows, id) && SameTarget(mid, now, id);
    }
  }

  /** A revoked Skill has no row left; a failed revocation left its row alone. */
  predicate RevokeItemFits(before: map<string, Row>, rows: map<string, Row>, item: SyncItem) {
    if item.status == Removed then item.id !in rows else item.status == Failed && SameRow(before, rows, item.id)
  }

  /** Each listed Skill's row is decided by its own entries alone, whatever failed elsewhere. */
  ghost predicate ListedRowsFit(before: map<string, Row>, rows: map<string, Row>, manifest: seq<Skill>,
                                items: seq<SyncItem>)
  {
    && |items| == |manifest|
    && (forall k :: 0 <= k < |items| && items[k].status != Failed && LastOf(manifest, k, |items|) ==>
          manifest[k].id in rows && rows[manifest[k].id] == Row(manifest[k].version, manifest[k].sha))
    && (forall id :: id in ListedIds(manifest) && OnlyFailed(manifest, items, id) ==> SameRow(before, rows, id))
  }

  lemma ListedRowsKeepFit(before: map<string, Row>, mid: map<string, Row>, rows: map<string, Row>,
                          manifest: seq<Skill>, items: seq<SyncItem>)
    requires Applied(before, mid, manifest, items) && |items| == |manifest|
    requires forall id :: id in ListedIds(manifest) ==> SameRow(mid, rows, id)
    ensures ListedRowsFit(before, rows, manifest, items)
  {
    forall k | 0 <= k < |items| && items[k].status != Failed && LastOf(manifest, k, |items|)
      ensures manifest[k].id in rows && rows[manifest[k].id] == Row(manifest[k].version, manifest[k].sha)
    {
      assert manifest[k].id in ListedIds(manifest);
      assert SameRow(mid, rows, manifest[k].id);
    }
    forall id | id in ListedIds(manifest) && OnlyFailed(manifest, items, id)
      ensures SameRow(before, rows, id)
    {
      assert SameRow(before, mid, id) && SameRow(mid, rows, id);
    }
  }

  lemma UnlistedRowsStay(before: map<string, Row>, rows: map<string, Row>, manifest: seq<Skill>, items: seq<SyncItem>)
    requires Applied(before, rows, manifest, items)
    ensures rows.Keys - ListedIds(manifest) == before.Keys - ListedIds(manifest)
    ensures forall id :: id !in ListedIds(manifest) ==> SameRow(before, rows, id)
  {
    forall id | id !in ListedIds(manifest)
      ensures SameRow(before, rows, id)
    {
      assert forall k :: 0 <= k < |items| ==> manifest[k].id in ListedIds(manifest);
    }
  }

  function ListedIds(manifest: seq<Skill>): set<string> {
    set k | 0 <= k < |manifest| :: manifest[k].id
  }

  /** The first pass treated every entry of the manifest, in order. */
  predicate Attempted(manifest: seq<Skill>, items: seq<SyncItem>) {
    |items| == |manifest| && forall k :: 0 <= k < |items| ==> items[k].id == manifest[k].id
  }

  /** The managed rows are exactly the last entries of the manifest, one per listed id. */
  predicate RowsFollow(rows: map<string, Row>, manifest: seq<Skill>) {
    && rows.Keys == ListedIds(manifest)
    && (forall k :: 0 <= k < |manifest| && LastOf(manifest, k, |manifest|) ==>
          manifest[k].id in rows && rows[manifest[k].id] == Row(manifest[k].version, manifest[k].sha))
  }

  lemma {:induction false} HasLast(manifest: seq<Skill>, n: nat, id: string) returns (k: nat)
    requires n <= |manifest| && exists j :: 0 <= j < n && manifest[j].id == id
    ensures k < n && manifest[k].id == id && LastOf(manifest, k, n)
    decreases n
  {
    if manifest[n - 1].id == id {
      k := n - 1;
    } else {
      k := HasLast(manifest, n - 1, id);
    }
  }

  lemma RowsFollowFrom(before: map<string, Row>, mid: map<string, Row>, rows: map<string, Row>, manifest: seq<Skill>,
                       applied: seq<SyncItem>, revoked: seq<SyncItem>)
    requires Applied(before, mid, manifest, applied) && |applied| == |manifest| && !HasFailed(applied)
    requires rows.Keys <= mid.Keys && forall id :: id in ListedIds(manifest) ==> SameRow(mid, rows, id)
    requires !HasFailed(revoked) && forall item :: item in revoked ==> RevokeItemFits(mid, rows, item)
    requires ItemIds(revoked) == mid.Keys - ListedIds(manifest)
    ensures RowsFollow(rows, manifest)
  {
    assert forall k :: 0 <= k < |applied| ==> applied[k].status != Failed;
    forall id
      ensures id in rows <==> id in ListedIds(manifest)
    {
      if id in ListedIds(manifest) {
        var k := HasLast(manifest, |manifest|, id);
        assert id in mid && SameRow(mid, rows, id);
      } else if id in ItemIds(revoked) {
        var item :| item in revoked && item.id == id;
        assert item.status != Failed;
      }
    }
    forall k | 0 <= k < |manifest| && LastOf(manifest, k, |manifest|)
      ensures manifest[k].id in rows && rows[manifest[k].id] == Row(manifest[k].version, manifest[k].sha)
    {
      assert manifest[k].id in ListedIds(manifest);
      assert SameRow(mid, rows, manifest[k].id);
    }
  }

  /** The (id, version, digest) triples of rows and of a manifest. */
  function RowTriples(rows: map<string, Row>): set<Skill> {
    set id | id in rows :: Skill(id, rows[id].version, rows[id].sha)
  }

  function ManifestTriples(manifest: seq<Skill>): set<Skill> {
    set skill | skill in manifest
  }

  /** Entries of one id are the same entry. */
  predicate EntriesAgree(manifest: seq<Skill>) {
    forall j, k :: 0 <= j < k < |manifest| && manifest[j].id == manifest[k].id ==> manifest[j] == manifest[k]
  }

  lemma LastRow(rows: map<string, Row>, manifest: seq<Skill>, id: string) returns (k: nat)
    requires RowsFollow(rows, manifest) && id in ListedIds(manifest)
    ensures k < |manifest| && manifest[k].id == id && RowIs(rows, manifest[k])
  {
    k := HasLast(manifest, |manifest|, id);
  }

  lemma RowTripleListed(rows: map<string, Row>, manifest: seq<Skill>, skill: Skill)
    requires RowsFollow(rows, manifest) && skill in RowTriples(rows)
    ensures skill in manifest
  {
    var k := LastRow(rows, manifest, skill.id);
    assert manifest[k] == skill;
  }

  lemma AgreeingRow(rows: map<string, Row>, manifest: seq<Skill>, j: nat)
    requires RowsFollow(rows, manifest) && EntriesAgree(manifest) && j < |manifest|
    ensures manifest[j] in RowTriples(rows)
  {
    var k := LastRow(rows, manifest, manifest[j].id);
    assert manifest[j] == manifest[k];
  }

  /** After a successful pass the rows are the manifest's triples exactly when entries of one id agree. */
  lemma TriplesMatchIff(rows: map<string, Row>, manifest: seq<Skill>)
    requires RowsFollow(rows, manifest)
    ensures RowTriples(rows) == ManifestTriples(manifest) <==> EntriesAgree(manifest)
  {
    if EntriesAgree(manifest) {
      forall skill | skill in RowTriples(rows)
        ensures skill in ManifestTriples(manifest)
      {
        RowTripleListed(rows, manifest, skill);
      }
      forall skill | skill in ManifestTriples(manifest)
        ensures skill in RowTriples(rows)
      {
        var j :| 0 <= j < |manifest| && manifest[j] == skill;
        AgreeingRow(rows, manifest, j);
      }
    }
    if RowTriples(rows) == ManifestTriples(manifest) {
      forall j, k | 0 <= j < k < |manifest| && manifest[j].id == manifest[k].id
        ensures manifest[j] == manifest[k]
      {
        assert manifest[j] in ManifestTriples(manifest) && manifest[k] in ManifestTriples(manifest);
        assert manifest[j] in RowTriples(rows) && manifest[k] in RowTriples(rows);
      }
    }
  }

  lemma {:induction false} UnusedNumber(paths: set<Path>) returns (n: nat)
    ensures forall p :: p in paths && !p.Target? ==> p.n < n
    decreases |paths|
  {
    if paths == {} {
      n := 0;
    } else {
      var p :| p in paths;
      n := UnusedNumber(paths - {p});
      if !p.Target? && p.n >= n {
        n := p.n + 1;
      }
    }
  }

  ghost predicate HasFailed(items: seq<SyncItem>) {
    exists k :: 0 <= k < |items| && items[k].status == Failed
  }

  function ItemIds(items: seq<SyncItem>): set<string> {
    set item | item in items :: item.id
  }

  lemma FailedAppend(items: seq<SyncItem>, item: SyncItem)
    ensures HasFailed(items + [item]) <==> HasFailed(items) || item.status == Failed
    ensures ItemIds(items + [item]) == ItemIds(items) + {item.id}
  {
    var all := items + [item];
    if HasFailed(items) {
      var k :| 0 <= k < |items| && items[k].status == Failed;
      assert all[k].status == Failed;
    }
    assert all[|items|] == item;
  }

  lemma FailedConcat(a: seq<SyncItem>, b: seq<SyncItem>)
    ensures HasFailed(a + b) <==> HasFailed(a) || HasFailed(b)
  {
    if HasFailed(a) {
      var k :| 0 <= k < |a| && a[k].status == Failed;
      assert (a + b)[k].status == Failed;
    }
    if HasFailed(b) {
      var k :| 0 <= k < |b| && b[k].status == Failed;
      assert (a + b)[|a| + k].status == Failed;
    }
  }

  /** A complete copy of every listed Skill that had one. */
  ghost predicate KeepsCopies(start: Disk, now: Disk, manifest: seq<Skill>, shas: set<string>) {
    forall k :: 0 <= k < |manifest| && HasCopy(start, manifest[k].id, shas) ==> HasCopy(now, manifest[k].id, shas)
  }

  lemma OthersKeepCopies(start: Disk, before: Disk, now: Disk, manifest: seq<Skill>, id: string, shas: set<string>)
    requires KeepsCopies(start, before, manifest, shas) && SameElsewhere(before, now, id)
    requires (exists k :: 0 <= k < |manifest| && manifest[k].id == id) && HasCopy(before, id, shas) ==>
               HasCopy(now, id, shas)
    ensures KeepsCopies(start, now, manifest, shas)
  {
    forall k | 0 <= k < |manifest| && HasCopy(before, manifest[k].id, shas)
      ensures HasCopy(now, manifest[k].id, shas)
    {
      if manifest[k].id != id {
        var p :| p in before && p.id == manifest[k].id && !p.Staging? && before[p].Complete? && before[p].sha in shas;
        assert p in now && now[p] == before[p];
      }
    }
  }

  /** The last of the first `n` entries for its id. */
  predicate LastOf(manifest: seq<Skill>, k: int, n: int)
    requires 0 <= k < n <= |manifest|
  {
    forall j :: k < j < n ==> manifest[j].id != manifest[k].id
  }

  /** Entries `0..|items|` were applied: each row is what its id's entries made of it, and no other row moved. */
  ghost predicate Applied(before: map<string, Row>, rows: map<string, Row>, manifest: seq<Skill>,
                          items: seq<SyncItem>)
  {
    && |items| <= |manifest|
    && (forall k :: 0 <= k < |items| ==>
          items[k].id == manifest[k].id && items[k].status in {Unchanged, Updated, Installed, Failed})
    && (forall k :: 0 <= k < |items| && items[k].status != Failed && LastOf(manifest, k, |items|) ==>
          manifest[k].id in rows && rows[manifest[k].id] == Row(manifest[k].version, manifest[k].sha))
    && (forall id :: OnlyFailed(manifest, items, id) ==> SameRow(before, rows, id))
  }

  predicate SameRow(a: map<string, Row>, b: map<string, Row>, id: string) {
    (id in a <==> id in b) && (id in a ==> a[id] == b[id])
  }

  lemma AppliedStep(before: map<string, Row>, rows: map<string, Row>, rows': map<string, Row>, manifest: seq<Skill>,
                    items: seq<SyncItem>, status: ItemStatus)
    requires Applied(before, rows, manifest, items) && |items| < |manifest|
    requires status in {Unchanged, Updated, Installed, Failed}
    requires var skill := manifest[|items|];
             && rows' == (if status in {Updated, Installed}
                          then rows[skill.id := Row(skill.version, skill.sha)] else rows)
             && (status != Failed ==> skill.id in rows' && rows'[skill.id] == Row(skill.version, skill.sha))
    ensures Applied(before, rows', manifest, items + [SyncItem(manifest[|items|].id, status)])
  {
    var items', i := items + [SyncItem(manifest[|items|].id, status)], |items|;
    forall k | 0 <= k < |items'| && items'[k].status != Failed && LastOf(manifest, k, |items'|)
      ensures manifest[k].id in rows' && rows'[manifest[k].id] == Row(manifest[k].version, manifest[k].sha)
    {
      if k < i {
        assert items[k] == items'[k] && LastOf(manifest, k, i) && manifest[i].id != manifest[k].id;
      }
    }
    forall id | OnlyFailed(manifest, items', id)
      ensures SameRow(before, rows', id)
    {
      assert forall k :: 0 <= k < |items| ==> items[k] == items'[k];
      assert OnlyFailed(manifest, items, id);
      assert manifest[i].id == id ==> items'[i].status == Failed;
      assert SameRow(before, rows, id);
    }
  }

  /** Both renames are atomic: nothing moved, the target moved aside, or the staged package is in place. */
  ghost predicate ExchangeState(start: Disk, now: Disk, staging: Path, target: Path, backup: Path)
    requires staging in start
  {
    var aside := if target in start then (start - {target})[backup := start[target]] else start;
    now == start || now == aside || now == (aside - {staging})[target := start[staging]]
  }

  /** How far the swap may have come: target untouched, moved to the backup, or replaced by the new package. */
  ghost predicate SwapState(start: Disk, now: Disk, skill: Skill, n: nat) {
    var staging, target, backup := Staging(skill.id, n), Target(skill.id), Backup(skill.id, n);
    && (forall p :: p != staging && p != target && p != backup ==> SamePath(start, now, p))
    && (|| (SamePath(start, now, target) && backup !in now)
        || (target !in now && target in start && backup in now && now[backup] == start[target])
        || (target in now && now[target] == Complete(skill.sha)))
  }

  ghost predicate OnlyBackupTouched(start: Disk, now: Disk, id: string, n: nat) {
    forall p :: p != Backup(id, n) ==> SamePath(start, now, p)
  }

  lemma FillIsSwap(start: Disk, now: Disk, skill: Skill, n: nat)
    requires Backup(skill.id, n) !in start
    requires || now == start || now == start[Staging(skill.id, n) := Unfinished]
             || now == start[Staging(skill.id, n) := Complete(skill.sha)]
    ensures SwapState(start, now, skill, n)
  {
  }

  lemma ExchangeIsSwap(start: Disk, staged: Disk, now: Disk, skill: Skill, n: nat)
    requires Backup(skill.id, n) !in start && staged == start[Staging(skill.id, n) := Complete(skill.sha)]
    requires ExchangeState(staged, now, Staging(skill.id, n), Target(skill.id), Backup(skill.id, n))
    ensures SwapState(start, now, skill, n)
  {
  }

  lemma FinishIsSwap(start: Disk, swapped: Disk, now: Disk, skill: Skill, n: nat)
    requires SwapState(start, swapped, skill, n) && OnlyBackupTouched(swapped, now, skill.id, n)
    requires Target(skill.id) in swapped && swapped[Target(skill.id)] == Complete(skill.sha)
    ensures SwapState(start, now, skill, n)
  {
    assert SamePath(swapped, now, Target(skill.id));
    forall p | p != Staging(skill.id, n) && p != Target(skill.id) && p != Backup(skill.id, n)
      ensures SamePath(start, now, p)
    {
      assert SamePath(start, swapped, p) && SamePath(swapped, now, p);
    }
  }

  lemma StagingIsNoCopy(a: Disk, b: Disk, id: string, n: nat, shas: set<string>)
    requires a == b || b == a[Staging(id, n) := Unfinished]
    ensures KeepsCopy(a, b, id, shas)
  {
    if HasCopy(a, id, shas) {
      var p :| p in a && p.id == id && !p.Staging? && a[p].Complete? && a[p].sha in shas;
      assert p in b && b[p] == a[p];
    }
  }

  lemma SwapKeepsCopy(start: Disk, now: Disk, skill: Skill, n: nat, shas: set<string>)
    requires SwapState(start, now, skill, n) && skill.sha in shas && Backup(skill.id, n) !in start
    ensures KeepsCopy(start, now, skill.id, shas)
  {
    if HasCopy(start, skill.id, shas) {
      var target, backup := Target(skill.id), Backup(skill.id, n);
      var p :| p in start && p.id == skill.id && !p.Staging? && start[p].Complete? && start[p].sha in shas;
      if p != target {
        assert SamePath(start, now, p);
      } else if target in now {
        assert now[target].Complete? && now[target].sha in shas;
      } else {
        assert backup in now && now[backup] == start[target];
      }
    }
  }

  lemma RecoveryKeepsCopy(start: Disk, now: Disk, id: string, n: nat, shas: set<string>)
    requires RecoveryState(start, now, id, n)
    ensures KeepsCopy(start, now, id, shas)
  {
    if HasCopy(start, id, shas) {
      var target, backup := Target(id), Backup(id, n);
      var p :| p in start && p.id == id && !p.Staging? && start[p].Complete? && start[p].sha in shas;
      if p == backup && !(backup in now && now[backup] == start[backup]) {
        assert target in now && now[target] == start[backup];
      } else {
        assert SamePath(start, now, p);
      }
    }
  }

  /** What recovery may have done so far: the staging directory is touched, and the backup may be back at the target. */
  ghost predicate RecoveryState(start: Disk, now: Disk, id: string, n: nat) {
    var target, backup := Target(id), Backup(id, n);
    && (forall p :: p != Staging(id, n) && p != target && p != backup ==> SamePath(start, now, p))
    && (|| (SamePath(start, now, target) && SamePath(start, now, backup))
        || (target !in start && backup in start && target in now && now[target] == start[backup]))
  }
}
