/** The byte and entry ledger of the managed media root
    (crates/pepeaudio-media/src/capacity.rs). Every operation is one critical section. */
module MediaCapacity {
  import opened Options
  import opened Sums

  type Path = nat
  type ReservationId = nat

  const U64_MAX := 0xFFFF_FFFF_FFFF_FFFF

  /** The tracker's state, and what explains it: `live` holds the charge of every active
      reservation, `orphaned` the bytes nobody can give back. */
  datatype Ledger = Ledger(
    maximumBytes: nat,
    maximumEntries: nat,
    charged: nat,
    entries: map<Path, nat>,
    reservations: nat,
    live: map<ReservationId, nat>,
    orphaned: nat)

  function Opened(maximumBytes: nat, maximumEntries: nat, entries: map<Path, nat>, charged: nat): Ledger {
    Ledger(maximumBytes, maximumEntries, charged, entries, 0, map[], 0)
  }

  // ---------------------------------------------------------------- operations

  predicate Fits(current: nat, additional: nat, maximum: nat) {
    current + additional <= U64_MAX && current + additional <= maximum
  }

  function Minus(a: nat, b: nat): nat {
    if a < b then 0 else a - b
  }

  predicate CanReserve(l: Ledger, bytes: nat) {
    |l.entries| + l.reservations < l.maximumEntries && Fits(l.charged, bytes, l.maximumBytes)
  }

  function Reserve(l: Ledger, id: ReservationId, bytes: nat): Ledger {
    l.(charged := l.charged + bytes, reservations := l.reservations + 1, live := l.live[id := bytes])
  }

  predicate CanEnsure(l: Ledger, held: nat, requested: nat) {
    requested <= held || Fits(l.charged, requested - held, l.maximumBytes)
  }

  /** A growing reservation. One that is no longer active is charged all the same, for good. */
  function Ensure(l: Ledger, id: ReservationId, held: nat, requested: nat): Ledger {
    if requested <= held then l
    else
      var more := l.(charged := l.charged + (requested - held));
      if id in l.live then more.(live := l.live[id := requested])
        else more.(orphaned := l.orphaned + (requested - held))
  }

  predicate CanCommit(l: Ledger, held: nat, path: Path, actual: nat) {
    0 < actual <= held && path !in l.entries && l.reservations > 0 && l.charged >= held
      && l.charged - held + actual <= U64_MAX
  }

  function Commit(l: Ledger, id: ReservationId, held: nat, path: Path, actual: nat): Ledger {
    l.(charged := Minus(l.charged, held) + actual, reservations := Minus(l.reservations, 1),
       entries := l.entries[path := actual], live := l.live - {id})
  }

  /** A file that could not be removed keeps the whole charge of its reservation. */
  function Retain(l: Ledger, id: ReservationId, held: nat, path: Path): Ledger {
    var fewer := l.(reservations := Minus(l.reservations, 1), live := l.live - {id});
    if path in l.entries then fewer.(orphaned := l.orphaned + held) else fewer.(entries := l.entries[path := held])
  }

  function Drop(l: Ledger, id: ReservationId, held: nat): Ledger {
    l.(charged := Minus(l.charged, held), reservations := Minus(l.reservations, 1), live := l.live - {id})
  }

  function Removed(l: Ledger, path: Path): Ledger {
    if path in l.entries then l.(entries := l.entries - {path}, charged := Minus(l.charged, l.entries[path])) else l
  }

  // ---------------------------------------------------------------- conservation

  /** The charge is what the files, the reservations and the lost bytes add up to, and it and
      the number of entries stay within their limits. */
  ghost predicate Balanced(l: Ledger) {
    && l.charged == Sum(l.entries) + Sum(l.live) + l.orphaned
    && l.charged <= l.maximumBytes <= U64_MAX
    && l.reservations == |l.live|
    && |l.entries| + l.reservations <= l.maximumEntries
  }

  /** Which reservation holds what. */
  predicate Holds(l: Ledger, id: ReservationId, held: nat) {
    id in l.live && l.live[id] == held
  }

  lemma SizeWithout<K, V>(m: map<K, V>, k: K)
    requires k in m
    ensures |m - {k}| == |m| - 1
  {
    assert (m - {k}).Keys == m.Keys - {k};
  }

  lemma SizeWith<K, V>(m: map<K, V>, k: K, v: V)
    ensures |m[k := v]| == |m| + (if k in m then 0 else 1)
  {
    assert m[k := v].Keys == m.Keys + {k};
  }

  /** When there is room, in plain sums: a slot for one more, and bytes enough beside all files,
      all reservations and all that was lost. A commit needs a real size within what is held,
      and a path of its own. */
  lemma RoomIff(l: Ledger, id: ReservationId, held: nat, requested: nat, path: Path)
    requires Balanced(l)
    ensures CanReserve(l, requested) <==>
            && |l.entries| + |l.live| < l.maximumEntries
            && Sum(l.entries) + Sum(l.live) + l.orphaned + requested <= l.maximumBytes
    ensures Holds(l, id, held) ==>
      (CanEnsure(l, held, requested) <==>
       requested <= held || Sum(l.entries) + Sum(l.live) + l.orphaned + (requested - held) <= l.maximumBytes)
    ensures Holds(l, id, held) ==>
      (CanCommit(l, held, path, requested) <==> 0 < requested <= held && path !in l.entries)
  {
    if Holds(l, id, held) {
      HeldIsCharged(l, id, held);
    }
  }

  lemma ReserveKeeps(l: Ledger, id: ReservationId, bytes: nat)
    requires Balanced(l) && CanReserve(l, bytes) && id !in l.live
    ensures Balanced(Reserve(l, id, bytes))
  {
    SumSet(l.live, id, bytes);
    SizeWith(l.live, id, bytes);
  }

  lemma EnsureKeeps(l: Ledger, id: ReservationId, held: nat, requested: nat)
    requires Balanced(l) && CanEnsure(l, held, requested) && (id in l.live ==> Holds(l, id, held))
    ensures Balanced(Ensure(l, id, held, requested))
  {
    SumSet(l.live, id, requested);
    SizeWith(l.live, id, requested);
  }

  /** A held reservation is covered by the charge, so no subtraction is ever cut short. */
  lemma HeldIsCharged(l: Ledger, id: ReservationId, held: nat)
    requires Balanced(l) && Holds(l, id, held)
    ensures held <= l.charged && l.reservations > 0
    ensures l.reservations - 1 == |l.live - {id}| && Sum(l.live) == held + Sum(l.live - {id})
  {
    SumWithout(l.live, id);
    SizeWithout(l.live, id);
  }

  lemma CommitKeeps(l: Ledger, id: ReservationId, held: nat, path: Path, actual: nat)
    requires Balanced(l) && Holds(l, id, held) && CanCommit(l, held, path, actual)
    ensures Balanced(Commit(l, id, held, path, actual))
      && Commit(l, id, held, path, actual).charged == l.charged - held + actual
  {
    HeldIsCharged(l, id, held);
    SumSet(l.entries, path, actual);
    SizeWith(l.entries, path, actual);
  }

  /** The checks of a commit leave nothing to go wrong in its arithmetic. */
  lemma CommitIsPossible(l: Ledger, id: ReservationId, held: nat, path: Path, actual: nat)
    requires Balanced(l) && Holds(l, id, held) && 0 < actual <= held && path !in l.entries
    ensures CanCommit(l, held, path, actual) && Balanced(Commit(l, id, held, path, actual))
    ensures Minus(l.charged, held) == l.charged - held && Minus(l.reservations, 1) == l.reservations - 1
  {
    HeldIsCharged(l, id, held);
    CommitKeeps(l, id, held, path, actual);
  }

  lemma RetainKeeps(l: Ledger, id: ReservationId, held: nat, path: Path)
    requires Balanced(l) && Holds(l, id, held)
    ensures Balanced(Retain(l, id, held, path)) && Retain(l, id, held, path).charged == l.charged
  {
    HeldIsCharged(l, id, held);
    SumSet(l.entries, path, held);
    SizeWith(l.entries, path, held);
  }

  lemma DropKeeps(l: Ledger, id: ReservationId, held: nat)
    requires Balanced(l) && Holds(l, id, held)
    ensures Balanced(Drop(l, id, held)) && Drop(l, id, held).charged == l.charged - held
  {
    HeldIsCharged(l, id, held);
  }

  /** A confirmed removal gives back exactly what was recorded, and a second one nothing. */
  lemma RemovedKeeps(l: Ledger, path: Path)
    requires Balanced(l)
    ensures Balanced(Removed(l, path)) && Removed(Removed(l, path), path) == Removed(l, path)
    ensures Removed(l, path).charged + (if path in l.entries then l.entries[path] else 0) == l.charged
  {
    if path in l.entries {
      SumWithout(l.entries, path);
      SizeWithout(l.entries, path);
    }
  }

  /** A reservation that comes to nothing leaves no trace. */
  lemma ReserveThenDrop(l: Ledger, id: ReservationId, bytes: nat, grown: nat)
    requires Balanced(l) && CanReserve(l, bytes) && id !in l.live && CanEnsure(Reserve(l, id, bytes), bytes, grown)
    ensures var held := if grown <= bytes then bytes else grown;
      Drop(Ensure(Reserve(l, id, bytes), id, bytes, grown), id, held) == l
  {
    assert l.live[id := bytes] - {id} == l.live;
    assert l.live[id := bytes][id := grown] - {id} == l.live;
  }

  /** A file's whole life, from reservation to removal, leaves no trace. */
  lemma CommitThenRemoved(l: Ledger, id: ReservationId, bytes: nat, path: Path, actual: nat)
    requires Balanced(l) && CanReserve(l, bytes) && id !in l.live
      && CanCommit(Reserve(l, id, bytes), bytes, path, actual)
    ensures Removed(Commit(Reserve(l, id, bytes), id, bytes, path, actual), path) == l
  {
    assert l.live[id := bytes] - {id} == l.live;
    assert l.entries[path := actual] - {path} == l.entries;
  }

  // ---------------------------------------------------------------- as code

  datatype StoreError = CapacityExceeded | Accounting

  datatype Outcome = Done | Failed(error: StoreError)

  datatype Usage = Usage(
    usedBytes: nat, reservedBytes: nat, maximumBytes: nat, managedFiles: nat, reservations: nat, maximumEntries: nat)

  class CapacityTracker {
    const maximumBytes: nat
    const maximumEntries: nat
    var chargedBytes: nat
    var entries: map<Path, nat>
    var reservations: nat
    ghost var live: map<ReservationId, nat>
    ghost var orphaned: nat
    ghost var nextId: ReservationId

    ghost function View(): Ledger
      reads this
    {
      Ledger(maximumBytes, maximumEntries, chargedBytes, entries, reservations, live, orphaned)
    }

    ghost predicate Valid()
      reads this
    {
      Balanced(View()) && forall id :: id in live ==> id < nextId
    }

    /** Takes over what a scan of the root found. */
    constructor (maximumBytes: nat, maximumEntries: nat, found: map<Path, nat>, total: nat)
      requires total == Sum(found) && total <= maximumBytes <= U64_MAX && |found| <= maximumEntries
      ensures Valid() && View() == Opened(maximumBytes, maximumEntries, found, total)
      ensures this.maximumBytes == maximumBytes && this.maximumEntries == maximumEntries
      ensures chargedBytes == total && entries == found && live == map[] && orphaned == 0
    {
      this.maximumBytes, this.maximumEntries := maximumBytes, maximumEntries;
      chargedBytes, entries, reservations, live, orphaned, nextId := total, found, 0, map[], 0, 0;
    }

    /** The reported numbers are the true ones: nothing is cut off in `reservedBytes`. */
    method GetUsage() returns (usage: Usage)
      requires Valid()
      ensures usage.usedBytes == Sum(entries) && usage.usedBytes + usage.reservedBytes == chargedBytes
      ensures usage.reservedBytes == Sum(live) + orphaned
      ensures usage.managedFiles == |entries| && usage.reservations == |live|
      ensures usage.maximumBytes == maximumBytes && usage.maximumEntries == maximumEntries
    {
      var used: nat := 0;
      var left := entries;
      while left != map[]
        invariant used + Sum(left) == Sum(entries)
        decreases |left|
      {
        var path :| path in left;
        SumWithout(left, path);
        SizeWithout(left, path);
        used := used + left[path];
        left := left - {path};
      }
      usage := Usage(used, Minus(chargedBytes, used), maximumBytes, |entries|, reservations, maximumEntries);
    }

    method TryReserve(requested: nat) returns (reservation: CapacityReservation?)
      requires Valid()
      modifies this
      ensures Valid() && (reservation != null <==> CanReserve(old(View()), requested))
      ensures reservation == null ==> View() == old(View())
      ensures reservation != null ==>
                && fresh(reservation) && reservation.tracker == this && reservation.Valid() && reservation.active
                && reservation.chargedBytes == requested && View() == Reserve(old(View()), reservation.id, requested)
                && reservation.id == old(nextId)
    {
      if |entries| + reservations >= maximumEntries || !Fits(chargedBytes, requested, maximumBytes) {
        return null;
      }
      ReserveKeeps(View(), nextId, requested);
      hide Balanced;
      chargedBytes := chargedBytes + requested;
      reservations := reservations + 1;
      live := live[nextId := requested];
      reservation := new CapacityReservation(this, nextId, requested);
      nextId := nextId + 1;
    }

    method RemovedPath(path: Path)
      requires Valid()
      modifies this`entries, this`chargedBytes
      ensures Valid() && View() == Removed(old(View()), path)
    {
      RemovedKeeps(View(), path);
      hide Balanced;
      if path in entries {
        chargedBytes := Minus(chargedBytes, entries[path]);
        entries := entries - {path};
      }
    }
  }

  /** Starting over a root that holds these files succeeds exactly when they fit. */
  method Initialize(maximumBytes: nat, maximumEntries: nat, found: map<Path, nat>) returns (tracker: CapacityTracker?)
    requires maximumBytes <= U64_MAX
    ensures tracker != null <==>
      0 < maximumBytes && 0 < maximumEntries && |found| <= maximumEntries && Sum(found) <= maximumBytes
    ensures tracker != null ==>
      fresh(tracker) && tracker.Valid() && tracker.View() == Opened(maximumBytes, maximumEntries, found, Sum(found))
  {
    if maximumBytes == 0 || maximumEntries == 0 {
      return null;
    }
    var scanned, charged: nat := 0, 0;
    var left := found;
    while left != map[]
      invariant scanned + |left| == |found| && charged + Sum(left) == Sum(found)
      invariant scanned <= maximumEntries && charged <= U64_MAX
      decreases |left|
    {
      if scanned >= maximumEntries {
        return null;
      }
      var path :| path in left;
      SumWithout(left, path);
      SizeWithout(left, path);
      if charged + left[path] > U64_MAX {
        return null;
      }
      charged := charged + left[path];
      scanned := scanned + 1;
      left := left - {path};
    }
    if charged > maximumBytes {
      return null;
    }
    tracker := new CapacityTracker(maximumBytes, maximumEntries, found, charged);
  }

  class CapacityReservation {
    const tracker: CapacityTracker
    ghost const id: ReservationId
    var chargedBytes: nat
    var active: bool

    /** Active exactly while the ledger holds its charge. */
    ghost predicate Valid()
      reads this, tracker
    {
      && id < tracker.nextId
      && (active <==> id in tracker.live) && (active ==> Holds(tracker.View(), id, chargedBytes))
    }

    constructor (tracker: CapacityTracker, ghost id: ReservationId, chargedBytes: nat)
      ensures this.tracker == tracker && this.id == id && this.chargedBytes == chargedBytes && active
    {
      this.tracker, this.id, this.chargedBytes, active := tracker, id, chargedBytes, true;
    }

    method TryEnsure(requested: nat) returns (outcome: Outcome)
      requires Valid() && tracker.Valid()
      modifies this, tracker
      ensures Valid() && tracker.Valid() && active == old(active) && tracker.nextId == old(tracker.nextId)
      ensures outcome == if CanEnsure(old(tracker.View()), old(chargedBytes), requested) then Done
        else Failed(CapacityExceeded)
      ensures outcome.Done? ==>
        tracker.View() == Ensure(old(tracker.View()), id, old(chargedBytes), requested) && chargedBytes >= requested
      ensures outcome.Failed? ==> tracker.View() == old(tracker.View()) && chargedBytes == old(chargedBytes)
    {
      hide Balanced;
      if requested <= chargedBytes {
        return Done;
      }
      var additional := requested - chargedBytes;
      if !Fits(tracker.chargedBytes, additional, tracker.maximumBytes) {
        return Failed(CapacityExceeded);
      }
      EnsureKeeps(tracker.View(), id, chargedBytes, requested);
      tracker.chargedBytes := tracker.chargedBytes + additional;
      if active {
        tracker.live := tracker.live[id := requested];
      } else {
        tracker.orphaned := tracker.orphaned + additional;
      }
      chargedBytes := requested;
      outcome := Done;
    }

    method TryCommit(path: Path, actual: nat) returns (outcome: Outcome)
      requires Valid() && tracker.Valid()
      modifies this, tracker
      ensures Valid() && tracker.Valid() && chargedBytes == old(chargedBytes) && tracker.nextId == old(tracker.nextId)
      ensures outcome.Done? <==> old(active) && 0 < actual <= chargedBytes && path !in old(tracker.entries)
      ensures outcome.Done? ==> !active && tracker.View() == Commit(old(tracker.View()), id, chargedBytes, path, actual)
      ensures outcome.Failed? ==>
        outcome.error == Accounting && active == old(active) && tracker.View() == old(tracker.View())
    {
      hide Balanced, Minus;
      if !active || actual == 0 || actual > chargedBytes {
        return Failed(Accounting);
      }
      HeldIsCharged(tracker.View(), id, chargedBytes);
      if path in tracker.entries || tracker.reservations == 0 {
        return Failed(Accounting);
      }
      ghost var after := Commit(tracker.View(), id, chargedBytes, path, actual);
      CommitIsPossible(tracker.View(), id, chargedBytes, path, actual);
      tracker.chargedBytes := tracker.chargedBytes - chargedBytes + actual;
      tracker.reservations := tracker.reservations - 1;
      tracker.entries := tracker.entries[path := actual];
      tracker.live := tracker.live - {id};
      assert tracker.View() == after;
      active := false;
      outcome := Done;
    }

    method RetainFailedFile(path: Path)
      requires Valid() && tracker.Valid()
      modifies this, tracker
      ensures Valid() && tracker.Valid() && !active && tracker.nextId == old(tracker.nextId)
        && chargedBytes == old(chargedBytes)
      ensures tracker.View() == if old(active) then Retain(old(tracker.View()), id, old(chargedBytes), path)
        else old(tracker.View())
    {
      if !active {
        return;
      }
      RetainKeeps(tracker.View(), id, chargedBytes, path);
      hide Balanced;
      if tracker.reservations > 0 {
        tracker.reservations := tracker.reservations - 1;
      }
      tracker.live := tracker.live - {id};
      active := false;
      if path in tracker.entries {
        tracker.orphaned := tracker.orphaned + chargedBytes;
        return;
      }
      tracker.entries := tracker.entries[path := chargedBytes];
    }

    /** What happens when the reservation goes out of scope. */
    method Release()
      requires Valid() && tracker.Valid()
      modifies this, tracker
      ensures Valid() && tracker.Valid() && !active && tracker.nextId == old(tracker.nextId)
        && chargedBytes == old(chargedBytes)
      ensures tracker.View() == if old(active) then Drop(old(tracker.View()), id, chargedBytes) else old(tracker.View())
    {
      if !active {
        return;
      }
      DropKeeps(tracker.View(), id, chargedBytes);
      hide Balanced;
      tracker.chargedBytes := Minus(tracker.chargedBytes, chargedBytes);
      tracker.reservations := Minus(tracker.reservations, 1);
      tracker.live := tracker.live - {id};
      active := false;
    }
  }
}
