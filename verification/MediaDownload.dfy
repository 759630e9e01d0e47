/** A download and a discard as the store runs them (crates/pepeaudio-media/src/store.rs), with
    every file operation free to fail. */
module MediaDownload {
  import opened Options
  import opened MediaCapacity
  import L = MediaLeases

  /** The managed directory; sizes by path. */
  class Disk {
    var files: map<Path, nat>
    /** A reliable disk only fails to move or remove what is not there. */
    const reliable: bool

    constructor (files: map<Path, nat>, reliable: bool)
      ensures this.files == files && this.reliable == reliable
    {
      this.files, this.reliable := files, reliable;
    }

    method Remove(path: Path) returns (ok: bool)
      modifies this
      ensures files == if ok then old(files) - {path} else old(files)
      ensures path !in old(files) ==> files == old(files)
      ensures reliable && path in old(files) ==> ok
    {
      ok := *;
      ok := ok || (reliable && path in files);
      if ok {
        files := files - {path};
      }
    }

    method Rename(from: Path, to: Path) returns (ok: bool)
      modifies this
      ensures ok ==> from in old(files) && files == (old(files) - {from})[to := old(files)[from]]
      ensures !ok ==> files == old(files)
      ensures reliable && from in old(files) ==> ok
    {
      var works: bool := *;
      ok := (works || reliable) && from in files;
      if ok {
        files := (files - {from})[to := files[from]];
      }
    }
  }

  /** A file on disk is within its recorded charge. */
  predicate Recorded(files: map<Path, nat>, entries: map<Path, nat>, path: Path) {
    path in files ==> path in entries && files[path] <= entries[path]
  }

  class PartialDownload {
    const disk: Disk
    const partialPath: Path
    const finalPath: Path
    const reservation: CapacityReservation
    var open: bool
    var committed: bool

    /** Until it is committed, a download has at most one file, within its reservation, at a
        path the ledger does not know; afterwards the ledger has it. */
    ghost predicate Valid()
      reads this, disk, reservation, reservation.tracker
    {
      && reservation.Valid() && reservation.tracker.Valid() && partialPath != finalPath
      && (committed <==> !reservation.active)
      && (committed && finalPath in disk.files ==> finalPath in reservation.tracker.entries)
      && (!committed ==>
         Within(partialPath) && Within(finalPath) && !(partialPath in disk.files && finalPath in disk.files))
    }

    predicate Within(path: Path)
      reads this, disk, reservation, reservation.tracker
    {
      path !in reservation.tracker.entries && (path in disk.files ==> disk.files[path] <= reservation.chargedBytes)
    }

    constructor (disk: Disk, reservation: CapacityReservation, partialPath: Path, finalPath: Path)
      requires reservation.Valid() && reservation.tracker.Valid() && reservation.active && partialPath != finalPath
      requires partialPath in disk.files && disk.files[partialPath] == 0 && finalPath !in disk.files
      requires partialPath !in reservation.tracker.entries && finalPath !in reservation.tracker.entries
      ensures Valid() && !committed && open
      ensures this.disk == disk && this.reservation == reservation && this.partialPath == partialPath
        && this.finalPath == finalPath
    {
      this.disk, this.reservation, this.partialPath, this.finalPath := disk, reservation, partialPath, finalPath;
      open, committed := true, false;
    }

    /** Nothing but the download's own two paths has changed. */
    ghost predicate OthersStay(before: map<Path, nat>, after: map<Path, nat>) {
      before - {partialPath, finalPath} == after - {partialPath, finalPath}
    }

    /** Room is made before anything is written. */
    method EnsureReserved(bytes: nat) returns (outcome: Outcome)
      requires Valid() && !committed
      modifies reservation, reservation.tracker
      ensures Valid() && !committed && (outcome.Done? ==> reservation.chargedBytes >= bytes)
      ensures outcome.Failed? ==> reservation.tracker.View() == old(reservation.tracker.View())
      ensures outcome.Done? <==> CanEnsure(old(reservation.tracker.View()), old(reservation.chargedBytes), bytes)
    {
      hide Balanced;
      outcome := reservation.TryEnsure(bytes);
    }

    method WriteAll(bytes: nat) returns (ok: bool)
      requires Valid() && !committed && open
      requires partialPath in disk.files ==> disk.files[partialPath] + bytes <= reservation.chargedBytes
      modifies disk
      ensures Valid() && !committed
      ensures disk.files.Keys == old(disk.files.Keys)
        && (forall path :: path in disk.files && path != partialPath ==> disk.files[path] == old(disk.files)[path])
      ensures ok && partialPath in disk.files ==> disk.files[partialPath] == old(disk.files)[partialPath] + bytes
      ensures disk.reliable ==> ok
    {
      hide Balanced;
      var wrote: nat :| wrote <= bytes && (disk.reliable ==> wrote == bytes);
      ok := wrote == bytes;
      if partialPath in disk.files {
        disk.files := disk.files[partialPath := disk.files[partialPath] + wrote];
      }
    }

    /** Renames the file and books it; when the books refuse, the file is taken away again if
        that is possible. A download that did not commit still holds its whole reservation. The
        books take the caller's word for the size: the file is within its charge exactly if the
        caller did not understate it. */
    method Commit(actual: nat) returns (path: Option<Path>)
      requires Valid() && !committed
      modifies this, disk, reservation, reservation.tracker
      ensures Valid() && committed == path.Some? && !open
      ensures path.Some? ==>
                && path.value == finalPath && finalPath in disk.files && 0 < actual <= old(reservation.chargedBytes)
                && reservation.tracker.View()
                   == MediaCapacity.Commit(old(reservation.tracker.View()), reservation.id,
                     old(reservation.chargedBytes), finalPath, actual)
      ensures path.Some? ==>
                && partialPath in old(disk.files) && disk.files[finalPath] == old(disk.files)[partialPath]
                && (Recorded(disk.files, reservation.tracker.entries, finalPath) <==>
                   old(disk.files)[partialPath] <= actual)
      ensures path.None? ==>
        reservation.tracker.View() == old(reservation.tracker.View())
          && reservation.chargedBytes == old(reservation.chargedBytes)
      ensures OthersStay(old(disk.files), disk.files)
      ensures disk.reliable && partialPath in old(disk.files) ==>
        && (path.Some? <==> 0 < actual <= old(reservation.chargedBytes))
        && partialPath !in disk.files && (path.None? ==> finalPath !in disk.files)
    {
      hide Balanced;
      open := false;
      var renamed := disk.Rename(partialPath, finalPath);
      if !renamed {
        return None;
      }
      var booked := reservation.TryCommit(finalPath, actual);
      if booked.Failed? {
        var removed := disk.Remove(finalPath);
        return None;
      }
      committed := true;
      path := Some(finalPath);
    }

    method Cleanup() returns (ok: bool)
      requires Valid()
      modifies this`open, disk
      ensures Valid() && committed == old(committed) && !open
      ensures ok && !committed ==> partialPath !in disk.files && finalPath !in disk.files
      ensures disk.reliable ==> ok
      ensures !committed ==> OthersStay(old(disk.files), disk.files)
      ensures committed && finalPath in old(disk.files) ==>
        finalPath in disk.files && disk.files[finalPath] == old(disk.files)[finalPath]
    {
      hide Balanced;
      open := false;
      ok := disk.Remove(partialPath);
      ok := ok || partialPath !in disk.files;
      if ok && !committed {
        ok := disk.Remove(finalPath);
        ok := ok || finalPath !in disk.files;
      }
    }

    /** Going out of scope: the reservation never outlives the download. If a file stayed
        behind, the ledger has it at no less than its size; otherwise the charge is returned. */
    method Release()
      requires Valid()
      modifies this`open, disk, reservation, reservation.tracker
      ensures reservation.tracker.Valid() && reservation.Valid() && !reservation.active
      ensures !old(committed) ==> !open
      ensures old(committed) ==>
        reservation.tracker.View() == old(reservation.tracker.View()) && disk.files == old(disk.files)
      ensures !old(committed) ==>
                && Recorded(disk.files, reservation.tracker.entries, partialPath)
                   && Recorded(disk.files, reservation.tracker.entries, finalPath)
                && disk.files.Keys <= old(disk.files.Keys) && OthersStay(old(disk.files), disk.files)
                && (disk.reliable ==> partialPath !in disk.files && finalPath !in disk.files)
      ensures !old(committed) && partialPath !in disk.files && finalPath !in disk.files ==>
                reservation.tracker.View()
                  == Drop(old(reservation.tracker.View()), reservation.id, old(reservation.chargedBytes))
    {
      hide Balanced;
      if !committed {
        open := false;
        var gone := disk.Remove(partialPath);
        gone := disk.Remove(finalPath);
        if partialPath in disk.files {
          reservation.RetainFailedFile(partialPath);
        } else if finalPath in disk.files {
          reservation.RetainFailedFile(finalPath);
        }
      }
      reservation.Release();
    }
  }

  datatype DiscardError = Missing | ObjectInUse | Changed | RemovalFailed

  /** Takes an object away under a permit: never one that is leased, and the books follow the
      disk. */
  method DiscardObject(disk: Disk, registry: L.LeaseRegistry, tracker: CapacityTracker, path: Path)
        returns (error: Option<DiscardError>)
    requires registry.Valid() && tracker.Valid()
    modifies disk, registry, tracker
    ensures registry.Valid() && tracker.Valid() && registry.entries == old(registry.entries)
    ensures path in old(registry.entries) ==>
      error.Some? && disk.files == old(disk.files) && tracker.View() == old(tracker.View())
    ensures error.Some? ==> disk.files == old(disk.files) && tracker.View() == old(tracker.View())
    ensures error == Some(Missing) <==> path !in old(disk.files)
    ensures error == Some(ObjectInUse) <==> path in old(disk.files) && path in old(registry.entries)
    ensures disk.reliable && path in old(disk.files) && path !in old(registry.entries) ==> error.None?
    ensures error.None? ==>
              && path in old(disk.files) && disk.files == old(disk.files) - {path}
              && tracker.View() == Removed(old(tracker.View()), path)
  {
    hide Balanced, L.Exact, L.Holders;
    if path !in disk.files {
      return Some(Missing);
    }
    L.WhoIsRefused(registry.View(), path, registry.nextId);
    var permit := registry.TryBeginDeletion(path);
    if permit == null {
      return Some(ObjectInUse);
    }
    var verified: bool := *;
    if !verified && !disk.reliable {
      permit.Release();
      return Some(Changed);
    }
    var removed := disk.Remove(path);
    if !removed {
      permit.Release();
      return Some(RemovalFailed);
    }
    tracker.RemovedPath(path);
    permit.Release();
    error := None;
  }
}
