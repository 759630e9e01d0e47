/** A download, a discard and a lease as the media store runs them
    (crates/pepeaudio-media/src/store.rs, lease.rs), with every other task free to act before
    each of their calls: whatever they do is a run of the `MediaStore` machine, so the disk
    stays within its quota through all of it. */
module MediaTasks {
  import opened Options
  import opened Runs
  import opened Sums
  import opened MediaCapacity
  import opened MediaLeases
  import opened MediaStore

  type Path = MediaCapacity.Path

  /** There was no object to lease, or the lease table refused. */
  datatype LeaseFailure = NoObject | Refused(error: LeaseError)

  /** No room for this much more, or for one more entry. */
  predicate Full(s: State, more: nat) {
    || s.ledger.maximumBytes < s.ledger.charged + more
    || s.ledger.maximumEntries <= |s.ledger.entries| + s.ledger.reservations
  }

  /** Somebody took the file of this download away. */
  predicate Robbed(s: State, id: ReservationId) {
    id in s.downloads && !s.downloads[id].present
  }

  /** No object there that could be discarded, or somebody holds it. */
  predicate Undiscardable(s: State, path: Path) {
    path in s.staging || path in s.registry.entries || !Present(s, path)
  }

  function Total(chunks: seq<nat>): nat {
    if chunks == [] then 0 else Total(chunks[..|chunks| - 1]) + chunks[|chunks| - 1]
  }

  lemma {:induction false} TotalGrows(chunks: seq<nat>, i: nat)
    requires i < |chunks|
    ensures Total(chunks[..i + 1]) == Total(chunks[..i]) + chunks[i] && Total(chunks[..i + 1]) <= Total(chunks)
    decreases |chunks| - i
  {
    assert chunks[..i + 1][..i] == chunks[..i];
    if i + 1 < |chunks| {
      TotalGrows(chunks, i + 1);
    } else {
      assert chunks[..i + 1] == chunks;
    }
  }

  /** What one task holds, and nobody else touches. */
  datatype Stake = Nothing | Reservation(id: ReservationId) | Permit(permit: PermitId)

  predicate OfOthers(e: Event, stake: Stake) {
    match stake
    case Nothing => true
    case Reservation(id) =>
      (match e
       case DropReservation(k) => k != id
       case BeginDownload(k, _, _) => k != id
       case Grow(k, _) => k != id
       case Write(k, _) => k != id
       case Rename(k) => k != id
       case Account(k) => k != id
       case TakeAway(k) => k != id
       case Abandon(k, _) => k != id
       case _ => true)
    case Permit(permit) =>
      (match e
       case RemoveFile(k) => k != permit
       case Refund(k) => k != permit
       case EndDelete(k) => k != permit
       case _ => true)
  }

  /** A reservation and its download stay as they are, except that the file may be removed; a
      deletion under a permit stays as far as it had come. */
  ghost predicate Untouched(s: State, t: State, stake: Stake) {
    match stake
    case Nothing => true
    case Reservation(id) =>
      && (id in s.ledger.live ==> id in t.ledger.live && t.ledger.live[id] == s.ledger.live[id])
      && (id in s.downloads <==> id in t.downloads)
      && (id in s.downloads ==>
         t.downloads[id] == s.downloads[id] || t.downloads[id] == s.downloads[id].(present := false))
    case Permit(permit) =>
      && (permit in s.registry.permits ==>
         permit in t.registry.permits && t.registry.permits[permit] == s.registry.permits[permit])
      && (permit in s.deletions ==> permit in t.deletions && t.deletions[permit] == s.deletions[permit])
  }

  lemma UntouchedItself(s: State, stake: Stake)
    ensures Untouched(s, s, stake)
  {
  }

  lemma UntouchedOn(s: State, t: State, u: State, stake: Stake)
    requires Untouched(s, t, stake) && Untouched(t, u, stake)
    ensures Untouched(s, u, stake)
  {
  }

  lemma OthersLeaveReservation(s: State, e: Event, id: ReservationId)
    requires Enabled(s, e) && OfOthers(e, Reservation(id)) && id < s.nextId
    ensures Untouched(s, Apply(s, e), Reservation(id))
  {
    hide CanReserve, CanEnsure, CanCommit, AcquireError, Present, Acquire, BeginDeletion, DropToken, DropPermit;
  }

  lemma OthersLeavePermit(s: State, e: Event, permit: PermitId)
    requires Enabled(s, e) && OfOthers(e, Permit(permit))
    requires permit in s.registry.permits || permit in s.deletions ==> permit < s.nextId
    ensures Untouched(s, Apply(s, e), Permit(permit))
  {
    hide CanReserve, CanEnsure, CanCommit, AcquireError, Present, Ensure, Reserve;
  }

  lemma OthersLeaveStake(s: State, e: Event, stake: Stake)
    requires Inv(s) && Enabled(s, e) && OfOthers(e, stake)
    requires stake.Reservation? ==> stake.id < s.nextId
    ensures Untouched(s, Apply(s, e), stake) && s.nextId <= Apply(s, e).nextId
  {
    hide Inv, Enabled, Apply, OfOthers, Untouched;
    StepLimits(s, e);
    match stake {
      case Nothing => UntouchedNothing(s, Apply(s, e));
      case Reservation(id) => OthersLeaveReservation(s, e, id);
      case Permit(permit) =>
        PermitsAreOld(s, permit);
        OthersLeavePermit(s, e, permit);
    }
  }

  lemma UntouchedNothing(s: State, t: State)
    ensures Untouched(s, t, Nothing)
  {
  }

  lemma PermitsAreOld(s: State, permit: PermitId)
    requires Inv(s)
    ensures permit in s.registry.permits || permit in s.deletions ==> permit < s.nextId
  {
    hide Balanced, Exact, FilesCharged, SureSound, DownloadsSound;
  }

  class MediaRoot {
    ghost const origin: State
    /** Whether this root's file operations all work, and no task is dropped half-way. */
    const reliable: bool
    /** The ledger, the lease table and the files, as all tasks share them. */
    var state: State

    ghost predicate Valid()
      reads this
    {
      Inv(origin) && Reaches(Next, origin, state) && Inv(state)
    }

    /** A root whose files fit its limits. */
    constructor (maximumBytes: nat, maximumEntries: nat, found: map<Path, nat>, staging: set<Path>, total: nat,
                 reliable: bool)
      requires total == Sum(found) && total <= maximumBytes <= MediaCapacity.U64_MAX && |found| <= maximumEntries
      ensures this.reliable == reliable
      ensures Valid() && state == origin == Opening(maximumBytes, maximumEntries, found, staging, total)
    {
      hide Inv, Reaches;
      this.reliable := reliable;
      var opening := Opening(maximumBytes, maximumEntries, found, staging, total);
      origin, state := opening, opening;
      OpeningHolds(maximumBytes, maximumEntries, found, staging, total);
      ReachesItself(Next, opening);
    }

    method Do(e: Event)
      requires Valid() && Enabled(state, e)
      modifies this
      ensures Valid() && state == Apply(old(state), e)
    {
      hide Inv, Reaches, Enabled, Apply;
      ReachesBy(Next, origin, state, e);
      EventKeeps(state, e);
      state := Apply(state, e);
    }

    /** All other tasks do what they like. */
    method Interfere(stake: Stake)
      requires Valid() && (stake.Reservation? ==> stake.id < state.nextId)
      modifies this
      ensures Valid() && Untouched(old(state), state, stake) && old(state.nextId) <= state.nextId
    {
      hide Inv, Reaches, Apply, Enabled, Untouched;
      UntouchedItself(state, stake);
      var steps :| 0 <= steps;
      for i := 0 to steps
        invariant Valid() && Untouched(old(state), state, stake) && old(state.nextId) <= state.nextId
      {
        var e: Event := *;
        if Enabled(state, e) && OfOthers(e, stake) {
          OthersLeaveStake(state, e, stake);
          UntouchedOn(old(state), state, Apply(state, e), stake);
          Do(e);
        }
      }
    }

    /** What is on disk is charged, and the charge is within the maximum. */
    lemma WithinQuota()
      requires Valid()
      ensures Sum(state.files) + Sum(PartialBytes(state.downloads)) <= state.ledger.charged <= state.ledger.maximumBytes
    {
      hide Inv, Reaches;
      FilesWithinCharge(state);
    }

    /** The download is on its way to these paths, with this much written and held. */
    ghost predicate Downloading(id: ReservationId, partial: Path, final: Path, renamed: bool, written: nat, held: nat)
      reads this
    {
      && Valid() && id < state.nextId && id in state.downloads && id in state.ledger.live
         && state.ledger.live[id] == held
      && state.downloads[id].partial == partial && state.downloads[id].final == final
      && state.downloads[id].renamed == renamed && state.downloads[id].written == written
    }

    /** Room is made, then a chunk is written, all of it or a part. */
    method WriteChunk(id: ReservationId, partial: Path, final: Path, written: nat, held: nat, bytes: nat)
        returns (ok: bool, nowWritten: nat, nowHeld: nat, ghost seen: State)
      requires Downloading(id, partial, final, false, written, held)
      modifies this
      ensures Downloading(id, partial, final, false, nowWritten, nowHeld)
      ensures ok ==> nowWritten == written + bytes
      ensures !ok ==> !reliable || (Reaches(Next, origin, seen) && Full(seen, bytes))
    {
      hide Inv, Reaches, CanReserve, CanCommit, AcquireError;
      HeldCovers(state, id);
      nowWritten, nowHeld := written, held;
      Interfere(Reservation(id));
      seen := state;
      HeldCovers(state, id);
      ok := CanEnsure(state.ledger, held, written + bytes);
      if !ok {
        return;
      }
      Do(Grow(id, written + bytes));
      nowHeld := state.ledger.live[id];
      Interfere(Reservation(id));
      var wrote: nat :| wrote <= bytes && (reliable ==> wrote == bytes);
      Do(Write(id, wrote));
      ok, nowWritten := wrote == bytes, written + wrote;
    }

    /** Renames the file and books it; when the books refuse, takes it away again if that is
        possible. A download that did not commit still holds its whole reservation. */
    method Commit(id: ReservationId, partial: Path, final: Path, written: nat, held: nat)
          returns (ok: bool, renamed: bool, ghost seen: State)
      requires Downloading(id, partial, final, false, written, held)
      modifies this
      ensures ok <==> renamed && 0 < written
      ensures renamed && !ok && reliable ==> Robbed(state, id)
      ensures !renamed ==> !reliable || (Reaches(Next, origin, seen) && Robbed(seen, id))
      ensures Valid() && (!ok ==> Downloading(id, partial, final, renamed, written, held))
      ensures ok ==>
                && id !in state.downloads && id !in state.ledger.live
                && final in state.ledger.entries && state.ledger.entries[final] == written > 0
                && (final in state.files ==> state.files[final] == written)
    {
      hide Inv, Reaches, CanReserve, CanEnsure, AcquireError;
      ok, renamed := false, false;
      Interfere(Reservation(id));
      seen := state;
      var works: bool := *;
      if !(works || reliable) || !state.downloads[id].present {
        return;
      }
      Do(Rename(id));
      renamed := true;
      Interfere(Reservation(id));
      FreePaths(state, id);
      CommitIff(state, id);
      if CanCommit(state.ledger, held, final, written) {
        Do(Account(id));
        ok := true;
        return;
      }
      var removed: bool := *;
      if removed || reliable {
        Do(TakeAway(id));
      }
    }

    /** Going out of scope: the reservation goes with the download, and a file that stays
        behind is charged at no less than its size. */
    method Release(id: ReservationId, partial: Path, final: Path, renamed: bool, written: nat, held: nat)
      requires Downloading(id, partial, final, renamed, written, held)
      modifies this
      ensures Valid() && id !in state.downloads && id !in state.ledger.live
      ensures var path := if renamed then final else partial;
        path in state.files ==>
          path in state.ledger.entries && state.files[path] == written <= state.ledger.entries[path] == held
    {
      hide Inv, Reaches, CanReserve, CanEnsure, CanCommit, AcquireError;
      Interfere(Reservation(id));
      FreePaths(state, id);
      var removes: bool := *;
      Do(Abandon(id, removes));
    }

    /** A whole download: reserved, begun at two fresh paths, written chunk by chunk, committed;
        or given up. It ends with the object booked under its path, or with no path; either
        way the reservation it made, `id`, is gone and it has no download left. */
    method Download(bytes: nat, partial: Path, final: Path, chunks: seq<nat>)
      returns (path: Option<Path>, id: ReservationId, ghost seen: State)
      requires Valid() && partial !in state.known && final !in state.known && partial != final
      modifies this
      ensures Valid() && id == old(state.nextId) && id !in state.downloads && id !in state.ledger.live
      ensures path.Some? ==>
        path.value == final && final in state.ledger.entries && state.ledger.entries[final] == Total(chunks) > 0
      ensures path.None? ==>
        || !reliable || Total(chunks) == 0
        || (Reaches(Next, origin, seen) && (Full(seen, bytes + Total(chunks)) || Robbed(seen, id)))
    {
      hide Inv, Reaches, CanEnsure, CanCommit, AcquireError;
      id, seen := state.nextId, state;
      NextIdIsNew(state);
      HeldCovers(state, id);
      if !CanReserve(state.ledger, bytes) {
        path := None;
        return;
      }
      Do(Reserved(bytes));
      Do(BeginDownload(id, partial, final));
      var written, held, ok := 0, bytes, true;
      for i := 0 to |chunks|
        invariant Downloading(id, partial, final, false, written, held) && ok && written == Total(chunks[..i])
      {
        TotalGrows(chunks, i);
        ok, written, held, seen := WriteChunk(id, partial, final, written, held, chunks[i]);
        if !ok {
          break;
        }
      }
      assert chunks[..|chunks|] == chunks;
      var renamed := false;
      if ok {
        ok, renamed, seen := Commit(id, partial, final, written, held);
      }
      if ok {
        path := Some(final);
        return;
      }
      Release(id, partial, final, renamed, written, held);
      path := None;
    }

    /** Takes an object away under a permit, and its charge with it. Refused, it changes
        nothing of its own; given up half-way, it leaves at worst a charge without a file. */
    method Discard(path: Path) returns (removed: bool, permit: PermitId, ghost seen: State)
      requires Valid()
      modifies this
      ensures Valid() && (removed ==> path !in state.files && path !in state.ledger.entries)
      ensures permit !in state.registry.permits && permit !in state.deletions
      ensures !removed ==> !reliable || (Reaches(Next, origin, seen) && Undiscardable(seen, path))
    {
      hide Inv, Reaches, CanReserve, CanEnsure, CanCommit, AcquireError;
      removed := false;
      Interfere(Nothing);
      seen := state;
      PresentIsKnown(state, path);
      permit := state.nextId;
      NextIdIsNew(state);
      if path !in state.known || path in state.staging || path in state.registry.entries {
        return;
      }
      Do(BeginDelete(path));
      removed, seen := DiscardUnder(permit, path);
    }

    /** What happens under the permit, which goes back in any case. */
    method DiscardUnder(permit: PermitId, path: Path) returns (removed: bool, ghost seen: State)
      requires Valid() && permit in state.registry.permits && state.registry.permits[permit] == path
      requires permit in state.deletions && state.deletions[permit] == Begun && path !in state.staging
      modifies this
      ensures Valid() && (removed ==> path !in state.files && path !in state.ledger.entries)
      ensures permit !in state.registry.permits && permit !in state.deletions
      ensures !removed ==> !reliable || (Reaches(Next, origin, seen) && !Present(seen, path))
    {
      hide Inv, Reaches, CanReserve, CanEnsure, CanCommit, AcquireError;
      removed := false;
      Interfere(Permit(permit));
      seen := state;
      var verified: bool := *;
      if (verified || reliable) && Present(state, path) {
        Do(RemoveFile(permit));
        removed := FinishRemoval(permit, path);
      }
      Do(EndDelete(permit));
    }

    /** The file is gone; its charge follows, unless the task ends here. */
    method FinishRemoval(permit: PermitId, path: Path) returns (refunded: bool)
      requires Valid() && permit in state.registry.permits && state.registry.permits[permit] == path
      requires permit in state.deletions && state.deletions[permit] == FileGone
      modifies this
      ensures Valid() && permit in state.registry.permits && permit in state.deletions
      ensures refunded ==> path !in state.files && path !in state.ledger.entries
      ensures reliable ==> refunded
    {
      hide Inv, Reaches;
      Interfere(Permit(permit));
      refunded := *;
      refunded := refunded || reliable;
      if refunded {
        RemovedFileIsGone(state, permit);
        Do(Refund(permit));
      }
    }

    /** Looks for an object, then registers a lease on it; others may act in between. The lease
        keeps its file exactly if the file was booked and there when it was registered. */
    method Lease(path: Path) returns (error: Option<LeaseFailure>, token: TokenId, ghost booked: bool)
      requires Valid()
      modifies this
      ensures Valid() && booked == (path in state.files)
      ensures error == Some(NoObject) <==> !old(Leasable(state, path))
      ensures error.Some? && error.value.Refused? ==> AcquireError(state.registry, path) == Some(error.value.error)
      ensures error.None? ==>
                && token in state.registry.tokens && state.registry.tokens[token] == path
                && (KeepsFile(state, token, path) <==> booked)
    {
      hide Inv, Reaches, CanReserve, CanEnsure, CanCommit, KeepsFile;
      token, booked := state.nextId, path in state.files;
      if !Leasable(state, path) {
        error := Some(NoObject);
        return;
      }
      Do(Inspect(path));
      Look(path);
      var refusal := AcquireError(state.registry, path);
      error := if refusal.Some? then Some(Refused(refusal.value)) else None;
      token, booked := state.nextId, path in state.files;
      if error.None? {
        LeaseProtectsIffRegisteredInTime(state, path);
        Do(Register(path));
      }
    }

    /** Interference between a look at an object and its lease; what was seen stays seen. */
    method Look(path: Path)
      requires Valid() && path in state.inspected
      modifies this
      ensures Valid() && path in state.inspected
    {
      hide Inv, Reaches, Apply, Enabled;
      var steps :| 0 <= steps;
      for i := 0 to steps
        invariant Valid() && path in state.inspected
      {
        var e: Event := *;
        if Enabled(state, e) {
          SeenStaysSeen(state, e);
          Do(e);
        }
      }
    }
  }

  lemma SeenStaysSeen(s: State, e: Event)
    requires Enabled(s, e)
    ensures s.inspected <= Apply(s, e).inspected
  {
  }

  lemma HeldCovers(s: State, id: ReservationId)
    requires Inv(s)
    ensures s.ledger.maximumBytes <= MediaCapacity.U64_MAX
    ensures id in s.downloads && id in s.ledger.live ==> s.downloads[id].written <= s.ledger.live[id]
  {
    hide Exact, DeletionsSound, FilesCharged, SureSound;
  }

  lemma CommitIff(s: State, id: ReservationId)
    requires Inv(s) && id in s.downloads && id in s.ledger.live
    ensures var d := s.downloads[id];
      CanCommit(s.ledger, s.ledger.live[id], d.final, d.written) <==> 0 < d.written
  {
    FreePaths(s, id);
    hide DeletionsSound, FilesCharged, SureSound, DownloadsSound, Exact;
    RoomIff(s.ledger, id, s.ledger.live[id], s.downloads[id].written, s.downloads[id].final);
  }

  lemma PresentIsKnown(s: State, path: Path)
    requires Inv(s)
    ensures Present(s, path) ==> path in s.known
  {
    hide Balanced, Exact, DeletionsSound, FilesCharged, SureSound;
  }

  /** The paths of a download are in nobody else's books. */
  lemma FreePaths(s: State, id: ReservationId)
    requires Inv(s) && id in s.downloads
    ensures var d := s.downloads[id];
      && d.partial !in s.files && d.final !in s.files && d.partial !in s.ledger.entries && d.final !in s.ledger.entries
      && id in s.ledger.live && d.written <= s.ledger.live[id]
  {
    hide Balanced, Exact, DeletionsSound, FilesCharged, SureSound;
    OwnedFacts(s, id, s.downloads[id].partial);
    OwnedFacts(s, id, s.downloads[id].final);
  }

  lemma NextIdIsNew(s: State)
    requires Inv(s)
    ensures s.nextId !in s.ledger.live && s.nextId !in s.downloads && s.nextId !in s.registry.permits
    ensures s.nextId !in s.deletions
  {
    hide Balanced, Exact, FilesCharged, SureSound;
  }

  lemma RemovedFileIsGone(s: State, permit: PermitId)
    requires Inv(s) && permit in s.registry.permits && permit in s.deletions && s.deletions[permit].FileGone?
    ensures s.registry.permits[permit] !in s.files
  {
    hide Balanced, Exact, FilesCharged, SureSound, DownloadsSound;
  }
}
