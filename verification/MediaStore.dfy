/** Downloads, leases and deletions together (crates/pepeaudio-media/src/store.rs over
    capacity.rs and lease.rs): every critical section and every file operation is one step,
    and the steps of all downloads, players and cleaners interleave freely. */
module MediaStore {
  import opened Options
  import opened Runs
  import opened Sums
  import opened MediaCapacity
  import opened MediaLeases

  type Path = MediaCapacity.Path

  /** A download owns two fresh paths. Its file is at `partial` until the rename and at `final`
      after it, unless somebody removed it. */
  datatype Download = Download(partial: Path, final: Path, renamed: bool, present: bool, written: nat)

  /** How far a deletion under a permit has come. */
  datatype Deletion = Begun | FileGone | Refunded

  /** `files` are the files no download in progress owns; `known` are all paths ever in use;
      `inspected` are the objects some caller has looked at and is about to lease; `sure` are
      the tokens that were registered while their file was there; `owner` tells for which
      download a path was made up; `staging` are the paths outside the objects' directory. */
  datatype State = State(
    ledger: Ledger,
    registry: Registry,
    files: map<Path, nat>,
    downloads: map<ReservationId, Download>,
    deletions: map<PermitId, Deletion>,
    inspected: set<Path>,
    sure: set<TokenId>,
    known: set<Path>,
    owner: map<Path, ReservationId>,
    staging: set<Path>,
    nextId: nat)

  function Opening(maximumBytes: nat, maximumEntries: nat, found: map<Path, nat>, staging: set<Path>, total: nat)
    : State
  {
    State(Opened(maximumBytes, maximumEntries, found, total), Registry(map[], map[], map[]), found, map[], map[], {},
      {}, found.Keys, map[], found.Keys * staging, 0)
  }

  predicate At(d: Download, path: Path) {
    d.present && path == (if d.renamed then d.final else d.partial)
  }

  predicate Owns(d: Download, path: Path) {
    path == d.partial || path == d.final
  }

  // ---------------------------------------------------------------- steps

  datatype Event =
    | Reserved(bytes: nat)
    | DropReservation(id: ReservationId)
    | BeginDownload(id: ReservationId, partial: Path, final: Path)
    | Grow(id: ReservationId, requested: nat)
    | Write(id: ReservationId, bytes: nat)
    | Rename(id: ReservationId)
    | Account(id: ReservationId)
    | TakeAway(id: ReservationId)
    | Abandon(id: ReservationId, removes: bool)
    | Inspect(path: Path)
    | Register(path: Path)
    | EndLease(token: TokenId)
    | BeginDelete(path: Path)
    | RemoveFile(permit: PermitId)
    | Refund(permit: PermitId)
    | EndDelete(permit: PermitId)

  /** New identifiers do not collide with any path ever used; writes come after the
      reservation has grown to cover them; and a removal succeeds only where a file is. */
  predicate Enabled(s: State, e: Event) {
    match e
    case Reserved(bytes) => CanReserve(s.ledger, bytes)
    case DropReservation(id) => id in s.ledger.live && id !in s.downloads
    case BeginDownload(id, partial, final) =>
      id in s.ledger.live && id !in s.downloads && partial !in s.known && final !in s.known && partial != final
    case Grow(id, requested) => id in s.ledger.live && CanEnsure(s.ledger, s.ledger.live[id], requested)
    case Write(id, bytes) =>
      && id in s.downloads && id in s.ledger.live && !s.downloads[id].renamed
      && s.downloads[id].written + bytes <= s.ledger.live[id]
    case Rename(id) => id in s.downloads && !s.downloads[id].renamed && s.downloads[id].present
    case Account(id) =>
      && id in s.downloads && id in s.ledger.live && s.downloads[id].renamed
      && CanCommit(s.ledger, s.ledger.live[id], s.downloads[id].final, s.downloads[id].written)
    case TakeAway(id) => id in s.downloads
    case Abandon(id, _) => id in s.downloads && id in s.ledger.live
    case Inspect(path) => Leasable(s, path)
    case Register(path) => path in s.inspected && AcquireError(s.registry, path).None?
    case EndLease(token) => token in s.registry.tokens
    case BeginDelete(path) => path in s.known && path !in s.registry.entries
    case RemoveFile(permit) =>
      permit in s.registry.permits && permit in s.deletions && s.deletions[permit].Begun?
        && Present(s, s.registry.permits[permit])
    case Refund(permit) => permit in s.registry.permits && permit in s.deletions && s.deletions[permit].FileGone?
    case EndDelete(permit) => permit in s.registry.permits && permit in s.deletions
  }

  predicate Present(s: State, path: Path) {
    path in s.files || (exists id :: id in s.downloads && At(s.downloads[id], path))
  }

  /** Only what lies among the objects can be leased. */
  predicate Leasable(s: State, path: Path) {
    Present(s, path) && path !in s.staging
  }

  function SetDownload(s: State, id: ReservationId, d: Download): State {
    s.(downloads := s.downloads[id := d])
  }

  /** The file of a path goes, whoever it belongs to. */
  function WithoutFile(s: State, path: Path): State {
    s.(files := s.files - {path},
       downloads := map id | id in s.downloads ::
         if At(s.downloads[id], path) then s.downloads[id].(present := false) else s.downloads[id])
  }

  /** What is left when a download is dropped: nothing, or a file that would not go away. */
  function Abandoned(s: State, id: ReservationId, removes: bool): State
    requires id in s.downloads && id in s.ledger.live
  {
    var d, held := s.downloads[id], s.ledger.live[id];
    var gone := s.(downloads := s.downloads - {id});
    var path := if d.renamed then d.final else d.partial;
    if d.present && !removes then
      gone.(ledger := Retain(s.ledger, id, held, path), files := s.files[path := d.written])
    else gone.(ledger := Drop(s.ledger, id, held))
  }

  /** The ledger and the files take over a finished download. */
  function Accounted(s: State, id: ReservationId): State
    requires id in s.downloads && id in s.ledger.live
  {
    var d := s.downloads[id];
    s.(ledger := Commit(s.ledger, id, s.ledger.live[id], d.final, d.written), downloads := s.downloads - {id},
       files := if d.present then s.files[d.final := d.written] else s.files)
  }

  function Refunding(s: State, permit: PermitId): State
    requires permit in s.registry.permits
  {
    s.(ledger := Removed(s.ledger, s.registry.permits[permit]), deletions := s.deletions[permit := Refunded])
  }

  function Apply(s: State, e: Event): State
    requires Enabled(s, e)
  {
    match e
    case Reserved(bytes) => s.(ledger := Reserve(s.ledger, s.nextId, bytes), nextId := s.nextId + 1)
    case DropReservation(id) => s.(ledger := Drop(s.ledger, id, s.ledger.live[id]))
    case BeginDownload(id, partial, final) =>
      SetDownload(s, id, Download(partial, final, false, true, 0)).(
        known := s.known + {partial, final}, staging := s.staging + {partial},
        owner := s.owner[partial := id][final := id])
    case Grow(id, requested) => s.(ledger := Ensure(s.ledger, id, s.ledger.live[id], requested))
    case Write(id, bytes) => SetDownload(s, id, s.downloads[id].(written := s.downloads[id].written + bytes))
    case Rename(id) => SetDownload(s, id, s.downloads[id].(renamed := true))
    case Account(id) => Accounted(s, id)
    case TakeAway(id) => SetDownload(s, id, s.downloads[id].(present := false))
    case Abandon(id, removes) => Abandoned(s, id, removes)
    case Inspect(path) => s.(inspected := s.inspected + {path})
    case Register(path) =>
      s.(registry := Acquire(s.registry, s.nextId, path), nextId := s.nextId + 1,
         sure := if path in s.files then s.sure + {s.nextId} else s.sure)
    case EndLease(token) => s.(registry := DropToken(s.registry, token), sure := s.sure - {token})
    case BeginDelete(path) =>
      s.(registry := BeginDeletion(s.registry, s.nextId, path), deletions := s.deletions[s.nextId := Begun],
        nextId := s.nextId + 1)
    case RemoveFile(permit) =>
      WithoutFile(s, s.registry.permits[permit]).(deletions := s.deletions[permit := FileGone])
    case Refund(permit) => Refunding(s, permit)
    case EndDelete(permit) => s.(registry := DropPermit(s.registry, permit), deletions := s.deletions - {permit})
  }

  function Next(s: State, e: Event): Option<State> {
    if Enabled(s, e) then Some(Apply(s, e)) else None
  }

  // ---------------------------------------------------------------- what the steps come to

  /** A reservation that is dropped at once leaves the ledger as it was, and its number used. */
  lemma ReservedThenDropped(s: State, bytes: nat)
    requires Enabled(s, Reserved(bytes)) && s.nextId !in s.ledger.live && s.nextId !in s.downloads
    ensures var reserved := Apply(s, Reserved(bytes));
      && Holds(reserved.ledger, s.nextId, bytes) && Enabled(reserved, DropReservation(s.nextId))
      && Apply(reserved, DropReservation(s.nextId)) == s.(nextId := s.nextId + 1)
  {
    assert s.ledger.live[s.nextId := bytes] - {s.nextId} == s.ledger.live;
  }

  /** A growing reservation holds what was asked for, and is charged for the difference. */
  lemma GrownIsHeld(s: State, id: ReservationId, requested: nat)
    requires Enabled(s, Grow(id, requested))
    ensures var t, held := Apply(s, Grow(id, requested)), s.ledger.live[id];
      && t == s.(ledger := t.ledger) && Holds(t.ledger, id, if held < requested then requested else held)
      && t.ledger.charged - s.ledger.charged == t.ledger.live[id] - held
  {
  }

  /** Writing adds to the file where it is; taking it away leaves a download without one. */
  lemma FileGrowsAndGoes(s: State, id: ReservationId, bytes: nat, path: Path)
    requires id in s.downloads
    ensures Enabled(s, Write(id, bytes)) ==>
      Apply(s, Write(id, bytes)).downloads
      == s.downloads[id := s.downloads[id].(written := s.downloads[id].written + bytes)]
    ensures !At(Apply(s, TakeAway(id)).downloads[id], path)
    ensures Apply(s, TakeAway(id)).downloads - {id} == s.downloads - {id}
    ensures Apply(s, TakeAway(id)).ledger == s.ledger && Apply(s, TakeAway(id)).files == s.files
  {
  }

  /** A download begins with an empty file nobody can lease; once renamed it is an object. */
  lemma DownloadMovesIn(s: State, id: ReservationId, partial: Path, final: Path)
    requires Enabled(s, BeginDownload(id, partial, final)) && final !in s.staging
    ensures var begun := Apply(s, BeginDownload(id, partial, final));
      && At(begun.downloads[id], partial) && begun.downloads[id].written == 0 && Present(begun, partial)
      && !Leasable(begun, partial) && {partial, final} <= begun.known
      && Enabled(begun, Rename(id))
      && (var moved := Apply(begun, Rename(id));
          && At(moved.downloads[id], final) && !At(moved.downloads[id], partial) && Leasable(moved, final))
  {
    var begun := Apply(s, BeginDownload(id, partial, final));
    assert At(begun.downloads[id], partial);
    assert At(Apply(begun, Rename(id)).downloads[id], final);
  }

  // ---------------------------------------------------------------- what always holds

  /** Every file is charged at least what it takes. */
  ghost predicate FilesCharged(entries: map<Path, nat>, files: map<Path, nat>) {
    forall path :: path in files ==> path in entries && files[path] <= entries[path]
  }

  /** Downloads hold reservations for what they have written, and paths of their own. */
  ghost predicate DownloadsSound(live: map<ReservationId, nat>, entries: map<Path, nat>, files: map<Path, nat>,
                                 downloads: map<ReservationId, Download>, owner: map<Path, ReservationId>) {
    forall id :: id in downloads ==> DownloadSound(live, entries, files, id, downloads[id], owner)
  }

  predicate DownloadSound(live: map<ReservationId, nat>, entries: map<Path, nat>, files: map<Path, nat>,
                          id: ReservationId, d: Download, owner: map<Path, ReservationId>) {
    && id in live && d.written <= live[id] && d.partial != d.final
    && Free(entries, files, id, d.partial, owner) && Free(entries, files, id, d.final, owner)
  }

  predicate Free(entries: map<Path, nat>, files: map<Path, nat>, id: ReservationId, path: Path,
        owner: map<Path, ReservationId>) {
    path in owner && owner[path] == id && path !in files && path !in entries
  }

  /** A path whose file was removed under a permit cannot come back before its refund. */
  predicate Spent(d: Download, path: Path) {
    (path == d.partial ==> !At(d, path)) && (path == d.final ==> d.renamed && !d.present)
  }

  ghost predicate SpentEverywhere(downloads: map<ReservationId, Download>, path: Path) {
    forall id :: id in downloads ==> Spent(downloads[id], path)
  }

  ghost predicate DeletionsSound(permits: map<PermitId, Path>, deletions: map<PermitId, Deletion>,
        files: map<Path, nat>, downloads: map<ReservationId, Download>) {
    && deletions.Keys == permits.Keys
    && (forall permit :: permit in deletions && deletions[permit].FileGone? ==>
          permits[permit] !in files && SpentEverywhere(downloads, permits[permit]))
  }

  /** A token registered over a file keeps that file. */
  ghost predicate SureSound(sure: set<TokenId>, tokens: map<TokenId, Path>, files: map<Path, nat>) {
    forall token :: token in sure ==> token in tokens && tokens[token] in files
  }

  ghost predicate PathsKnown(s: State) {
    && s.files.Keys <= s.known && s.ledger.entries.Keys <= s.known
    && (forall id :: id in s.downloads ==> s.downloads[id].partial in s.known && s.downloads[id].final in s.known)
    && (forall permit :: permit in s.registry.permits ==> s.registry.permits[permit] in s.known)
  }

  ghost predicate IdsOld(live: map<ReservationId, nat>, tokens: map<TokenId, Path>, permits: map<PermitId, Path>,
        next: nat) {
    && (forall id :: id in live ==> id < next)
    && (forall id :: id in tokens ==> id < next)
    && (forall id :: id in permits ==> id < next)
  }

  ghost predicate Inv(s: State) {
    && Balanced(s.ledger) && Exact(s.registry)
    && FilesCharged(s.ledger.entries, s.files)
    && DownloadsSound(s.ledger.live, s.ledger.entries, s.files, s.downloads, s.owner)
    && DeletionsSound(s.registry.permits, s.deletions, s.files, s.downloads)
    && SureSound(s.sure, s.registry.tokens, s.files)
    && PathsKnown(s) && IdsOld(s.ledger.live, s.registry.tokens, s.registry.permits, s.nextId)
  }

  lemma LiveChanges(s: State, more: map<ReservationId, nat>)
    requires DownloadsSound(s.ledger.live, s.ledger.entries, s.files, s.downloads, s.owner)
    requires forall id :: id in s.downloads && id in s.ledger.live ==> id in more && more[id] >= s.ledger.live[id]
    ensures DownloadsSound(more, s.ledger.entries, s.files, s.downloads, s.owner)
  {
  }

  lemma FewerNames(s: State, t: State)
    requires PathsKnown(s) && t.known == s.known && t.registry == s.registry && t.downloads == s.downloads
    requires t.files.Keys <= s.files.Keys && t.ledger.entries.Keys <= s.ledger.entries.Keys
    ensures PathsKnown(t)
  {
  }

  lemma ReservedKeeps(s: State, bytes: nat)
    requires Inv(s) && Enabled(s, Reserved(bytes))
    ensures Inv(Apply(s, Reserved(bytes)))
  {
    hide Balanced, Exact, DownloadsSound, DeletionsSound, FilesCharged, SureSound, PathsKnown, CanReserve;
    var t := Apply(s, Reserved(bytes));
    ReserveKeeps(s.ledger, s.nextId, bytes);
    LiveChanges(s, t.ledger.live);
    FewerNames(s, t);
  }

  lemma DroppedKeeps(s: State, id: ReservationId)
    requires Inv(s) && Enabled(s, DropReservation(id))
    ensures Inv(Apply(s, DropReservation(id)))
  {
    hide Balanced, Exact, DownloadsSound, DeletionsSound, FilesCharged, SureSound, PathsKnown;
    var t := Apply(s, DropReservation(id));
    DropKeeps(s.ledger, id, s.ledger.live[id]);
    LiveChanges(s, t.ledger.live);
    FewerNames(s, t);
  }

  lemma GrowKeeps(s: State, id: ReservationId, requested: nat)
    requires Inv(s) && Enabled(s, Grow(id, requested))
    ensures Inv(Apply(s, Grow(id, requested)))
  {
    hide Balanced, Exact, DownloadsSound, DeletionsSound, FilesCharged, SureSound, PathsKnown, CanEnsure;
    var t := Apply(s, Grow(id, requested));
    EnsureKeeps(s.ledger, id, s.ledger.live[id], requested);
    LiveChanges(s, t.ledger.live);
    FewerNames(s, t);
  }

  lemma SetKeepsDeletions(permits: map<PermitId, Path>, deletions: map<PermitId, Deletion>, files: map<Path, nat>,
        downloads: map<ReservationId, Download>, id: ReservationId, d: Download)
    requires DeletionsSound(permits, deletions, files, downloads)
    requires forall permit :: permit in deletions && permit in permits && deletions[permit].FileGone? ==>
      Spent(d, permits[permit])
    ensures DeletionsSound(permits, deletions, files, downloads[id := d])
  {
  }

  lemma BeginKeeps(s: State, id: ReservationId, partial: Path, final: Path)
    requires Inv(s) && Enabled(s, BeginDownload(id, partial, final))
    ensures Inv(Apply(s, BeginDownload(id, partial, final)))
  {
    hide Balanced, Exact, FilesCharged, SureSound, IdsOld;
    var t := Apply(s, BeginDownload(id, partial, final));
    SetKeepsDeletions(s.registry.permits, s.deletions, s.files, s.downloads, id, t.downloads[id]);
    hide DeletionsSound;
    forall k | k in t.downloads
      ensures DownloadSound(t.ledger.live, t.ledger.entries, t.files, k, t.downloads[k], t.owner)
    {
      if k != id {
        assert DownloadSound(s.ledger.live, s.ledger.entries, s.files, k, s.downloads[k], s.owner);
      }
    }
  }

  lemma DownloadStepsKeep(s: State, e: Event)
    requires Inv(s) && Enabled(s, e) && (e.Write? || e.Rename? || e.TakeAway?)
    ensures Inv(Apply(s, e))
  {
    hide Balanced, Exact, FilesCharged, SureSound, IdsOld;
    var t := Apply(s, e);
    SetKeepsDeletions(s.registry.permits, s.deletions, s.files, s.downloads, e.id, t.downloads[e.id]);
    hide DeletionsSound;
  }

  lemma SubsetKeeps(s: State, id: ReservationId)
    requires DownloadsSound(s.ledger.live, s.ledger.entries, s.files, s.downloads, s.owner)
    requires DeletionsSound(s.registry.permits, s.deletions, s.files, s.downloads)
    ensures DownloadsSound(s.ledger.live - {id}, s.ledger.entries, s.files, s.downloads - {id}, s.owner)
    ensures DeletionsSound(s.registry.permits, s.deletions, s.files, s.downloads - {id})
  {
  }

  /** A download ends and leaves a charge, and perhaps its file, at one of its paths. */
  lemma SettleKeeps(s: State, id: ReservationId, path: Path, charge: nat, file: Option<nat>)
    requires DownloadsSound(s.ledger.live, s.ledger.entries, s.files, s.downloads, s.owner)
    requires DeletionsSound(s.registry.permits, s.deletions, s.files, s.downloads)
    requires FilesCharged(s.ledger.entries, s.files) && SureSound(s.sure, s.registry.tokens, s.files)
    requires id in s.downloads && Owns(s.downloads[id], path)
    requires file.Some? ==> file.value <= charge && At(s.downloads[id], path)
    ensures var entries, files := s.ledger.entries[path := charge], if file.Some? then s.files[path := file.value]
      else s.files;
      && DownloadsSound(s.ledger.live - {id}, entries, files, s.downloads - {id}, s.owner)
      && DeletionsSound(s.registry.permits, s.deletions, files, s.downloads - {id})
      && FilesCharged(entries, files) && SureSound(s.sure, s.registry.tokens, files)
  {
  }

  lemma OwnedFacts(s: State, id: ReservationId, path: Path)
    requires DownloadsSound(s.ledger.live, s.ledger.entries, s.files, s.downloads, s.owner) && PathsKnown(s)
    requires id in s.downloads && Owns(s.downloads[id], path)
    ensures path !in s.ledger.entries && path !in s.files && path in s.known
    ensures id in s.ledger.live && s.downloads[id].written <= s.ledger.live[id]
  {
  }

  /** What is known grows with the files and charges a download leaves. */
  lemma SettleKeepsNames(s: State, t: State, id: ReservationId, path: Path)
    requires PathsKnown(s) && path in s.known && t.known == s.known && t.registry == s.registry
    requires t.downloads == s.downloads - {id}
    requires t.files.Keys <= s.files.Keys + {path} && t.ledger.entries.Keys <= s.ledger.entries.Keys + {path}
    ensures PathsKnown(t)
  {
  }

  lemma AccountKeeps(s: State, id: ReservationId)
    requires Inv(s) && id in s.downloads && id in s.ledger.live && s.downloads[id].renamed
    requires CanCommit(s.ledger, s.ledger.live[id], s.downloads[id].final, s.downloads[id].written)
    ensures Inv(Accounted(s, id))
  {
    hide Balanced, Exact, DownloadsSound, DeletionsSound, FilesCharged, SureSound, PathsKnown;
    var d := s.downloads[id];
    OwnedFacts(s, id, d.final);
    CommitKeeps(s.ledger, id, s.ledger.live[id], d.final, d.written);
    SettleKeeps(s, id, d.final, d.written, if d.present then Some(d.written) else None);
    SettleKeepsNames(s, Accounted(s, id), id, d.final);
  }

  lemma RetainingKeeps(s: State, id: ReservationId)
    requires Inv(s) && id in s.downloads && id in s.ledger.live && s.downloads[id].present
    ensures Inv(Abandoned(s, id, false))
  {
    hide Balanced, Exact, DownloadsSound, DeletionsSound, FilesCharged, SureSound, PathsKnown;
    var d := s.downloads[id];
    var path := if d.renamed then d.final else d.partial;
    OwnedFacts(s, id, path);
    RetainKeeps(s.ledger, id, s.ledger.live[id], path);
    SettleKeeps(s, id, path, s.ledger.live[id], Some(d.written));
    SettleKeepsNames(s, Abandoned(s, id, false), id, path);
  }

  lemma AbandonKeeps(s: State, id: ReservationId, removes: bool)
    requires Inv(s) && id in s.downloads && id in s.ledger.live
    ensures Inv(Abandoned(s, id, removes))
  {
    hide Balanced, Exact, DownloadsSound, DeletionsSound, FilesCharged, SureSound, PathsKnown;
    if s.downloads[id].present && !removes {
      RetainingKeeps(s, id);
    } else {
      OwnedFacts(s, id, s.downloads[id].final);
      DropKeeps(s.ledger, id, s.ledger.live[id]);
      SubsetKeeps(s, id);
      SettleKeepsNames(s, Abandoned(s, id, removes), id, s.downloads[id].final);
    }
  }

  lemma InspectKeeps(s: State, path: Path)
    requires Inv(s)
    ensures Inv(s.(inspected := s.inspected + {path}))
  {
    hide Balanced, Exact, DownloadsSound, DeletionsSound, FilesCharged, SureSound, IdsOld;
  }

  lemma RegisterKeeps(s: State, path: Path)
    requires Inv(s) && Enabled(s, Register(path))
    ensures Inv(Apply(s, Register(path)))
  {
    hide Balanced, Exact, DownloadsSound, DeletionsSound, FilesCharged, AcquireError;
    AcquireKeeps(s.registry, s.nextId, path);
  }

  lemma EndLeaseKeeps(s: State, token: TokenId)
    requires Inv(s) && Enabled(s, EndLease(token))
    ensures Inv(Apply(s, EndLease(token)))
  {
    hide Balanced, Exact, DownloadsSound, DeletionsSound, FilesCharged;
    DropTokenKeeps(s.registry, token);
    assert DropToken(s.registry, token).tokens == s.registry.tokens - {token};
    assert DropToken(s.registry, token).permits == s.registry.permits;
    hide DropToken;
  }

  lemma BeginDeleteKeeps(s: State, path: Path)
    requires Inv(s) && Enabled(s, BeginDelete(path))
    ensures Inv(Apply(s, BeginDelete(path)))
  {
    hide Balanced, Exact, DownloadsSound, FilesCharged, SpentEverywhere, SureSound;
    BeginDeletionKeeps(s.registry, s.nextId, path);
  }

  lemma EndDeleteKeeps(s: State, permit: PermitId)
    requires Inv(s) && Enabled(s, EndDelete(permit))
    ensures Inv(Apply(s, EndDelete(permit)))
  {
    hide Balanced, Exact, DownloadsSound, FilesCharged, SpentEverywhere, SureSound;
    DropPermitKeeps(s.registry, permit);
  }

  /** No lease stands on what is removed. */
  lemma RemovedIsUnleased(s: State, permit: PermitId)
    requires Exact(s.registry) && permit in s.registry.permits && SureSound(s.sure, s.registry.tokens, s.files)
    ensures forall token :: token in s.registry.tokens ==> s.registry.tokens[token] != s.registry.permits[permit]
    ensures SureSound(s.sure, s.registry.tokens, s.files - {s.registry.permits[permit]})
  {
    var path := s.registry.permits[permit];
    PermitIsAlone(s.registry, permit);
    forall token | token in s.registry.tokens
      ensures s.registry.tokens[token] != path
    {
      HoldersWithout(s.registry.tokens, token, path);
    }
  }

  lemma WithoutFileSpends(s: State, path: Path)
    requires DownloadsSound(s.ledger.live, s.ledger.entries, s.files, s.downloads, s.owner) && Present(s, path)
    ensures SpentEverywhere(WithoutFile(s, path).downloads, path)
  {
    var t := WithoutFile(s, path);
    forall id | id in t.downloads
      ensures Spent(t.downloads[id], path)
    {
      if path in s.files {
        assert !Owns(s.downloads[id], path);
      } else {
        var k :| k in s.downloads && At(s.downloads[k], path);
        assert s.owner[path] == k;
      }
    }
  }

  lemma SpentStays(s: State, path: Path, other: Path)
    requires SpentEverywhere(s.downloads, other)
    ensures SpentEverywhere(WithoutFile(s, path).downloads, other)
  {
  }

  lemma WithoutFileKeepsDownloads(s: State, path: Path)
    requires DownloadsSound(s.ledger.live, s.ledger.entries, s.files, s.downloads, s.owner)
    ensures DownloadsSound(s.ledger.live, s.ledger.entries, WithoutFile(s, path).files,
      WithoutFile(s, path).downloads, s.owner)
  {
  }

  lemma WithoutFileKeepsDeletions(s: State, permit: PermitId)
    requires DownloadsSound(s.ledger.live, s.ledger.entries, s.files, s.downloads, s.owner)
    requires DeletionsSound(s.registry.permits, s.deletions, s.files, s.downloads)
    requires permit in s.registry.permits && Present(s, s.registry.permits[permit])
    ensures var t := WithoutFile(s, s.registry.permits[permit]);
      DeletionsSound(s.registry.permits, s.deletions[permit := FileGone], t.files, t.downloads)
  {
    hide SpentEverywhere, DownloadsSound;
    var path := s.registry.permits[permit];
    WithoutFileSpends(s, path);
    forall other: Path | SpentEverywhere(s.downloads, other)
      ensures SpentEverywhere(WithoutFile(s, path).downloads, other)
    {
      SpentStays(s, path, other);
    }
  }

  lemma RemoveFileKeeps(s: State, permit: PermitId)
    requires Inv(s) && Enabled(s, RemoveFile(permit))
    ensures Inv(Apply(s, RemoveFile(permit)))
  {
    hide Balanced, Exact, DownloadsSound, DeletionsSound, SureSound;
    RemovedIsUnleased(s, permit);
    WithoutFileKeepsDownloads(s, s.registry.permits[permit]);
    WithoutFileKeepsDeletions(s, permit);
  }

  /** A path with its file gone can lose its charge. */
  lemma UnchargingKeeps(s: State, permit: PermitId)
    requires FilesCharged(s.ledger.entries, s.files)
    requires DownloadsSound(s.ledger.live, s.ledger.entries, s.files, s.downloads, s.owner)
    requires DeletionsSound(s.registry.permits, s.deletions, s.files, s.downloads)
    requires permit in s.deletions && permit in s.registry.permits && s.deletions[permit].FileGone?
    ensures var entries := s.ledger.entries - {s.registry.permits[permit]};
      && FilesCharged(entries, s.files) && DownloadsSound(s.ledger.live, entries, s.files, s.downloads, s.owner)
      && DeletionsSound(s.registry.permits, s.deletions[permit := Refunded], s.files, s.downloads)
  {
    hide SpentEverywhere;
  }

  lemma RemovedShape(l: Ledger, path: Path)
    ensures Removed(l, path).entries == l.entries - {path} && Removed(l, path).live == l.live
  {
  }

  lemma RefundKeeps(s: State, permit: PermitId)
    requires Inv(s) && permit in s.registry.permits && permit in s.deletions && s.deletions[permit].FileGone?
    ensures Inv(Refunding(s, permit))
  {
    hide Balanced, Exact, FilesCharged, DownloadsSound, DeletionsSound, SureSound, PathsKnown, IdsOld;
    var path := s.registry.permits[permit];
    RemovedKeeps(s.ledger, path);
    UnchargingKeeps(s, permit);
    RemovedShape(s.ledger, path);
    FewerNames(s, Refunding(s, permit));
  }

  lemma EventKeeps(s: State, e: Event)
    requires Inv(s) && Enabled(s, e)
    ensures Inv(Apply(s, e))
  {
    hide Inv, Abandoned, Accounted, Refunding;
    match e {
      case BeginDownload(id, partial, final) => BeginKeeps(s, id, partial, final);
      case Account(id) => AccountKeeps(s, id);
      case Abandon(id, removes) => AbandonKeeps(s, id, removes);
      case RemoveFile(permit) => RemoveFileKeeps(s, permit);
      case Refund(permit) => RefundKeeps(s, permit);
      case Register(path) => RegisterKeeps(s, path);
      case EndLease(token) => EndLeaseKeeps(s, token);
      case Inspect(path) => InspectKeeps(s, path);
      case BeginDelete(path) => BeginDeleteKeeps(s, path);
      case EndDelete(permit) => EndDeleteKeeps(s, permit);
      case Reserved(bytes) => ReservedKeeps(s, bytes);
      case DropReservation(id) => DroppedKeeps(s, id);
      case Grow(id, requested) => GrowKeeps(s, id, requested);
      case Write(_, _) => DownloadStepsKeep(s, e);
      case Rename(_) => DownloadStepsKeep(s, e);
      case TakeAway(_) => DownloadStepsKeep(s, e);
    }
  }

  lemma {:induction false} RunKeeps(s: State, events: seq<Event>)
    requires Inv(s) && Exec(Next, s, events).Some?
    ensures Inv(Exec(Next, s, events).value)
  {
    hide Inv, Apply, Enabled;
    if events != [] {
      RunKeeps(s, events[..|events| - 1]);
      EventKeeps(Exec(Next, s, events[..|events| - 1]).value, events[|events| - 1]);
    }
  }

  lemma OpeningHolds(maximumBytes: nat, maximumEntries: nat, found: map<Path, nat>, staging: set<Path>, total: nat)
    requires total == Sum(found) && total <= maximumBytes <= MediaCapacity.U64_MAX && |found| <= maximumEntries
    ensures Inv(Opening(maximumBytes, maximumEntries, found, staging, total))
  {
  }

  // ---------------------------------------------------------------- the disk stays within its quota

  /** What downloads in progress have on disk. */
  ghost function PartialBytes(downloads: map<ReservationId, Download>): map<ReservationId, nat> {
    map id | id in downloads && downloads[id].present :: downloads[id].written
  }

  lemma {:induction false} SumIsBounded<K>(a: map<K, nat>, b: map<K, nat>)
    requires forall k :: k in a ==> k in b && a[k] <= b[k]
    ensures Sum(a) <= Sum(b)
    decreases |a|
  {
    if a == map[] {
    } else {
      var k :| k in a;
      SumWithout(a, k);
      SumWithout(b, k);
      SizeWithout(a, k);
      SumIsBounded(a - {k}, b - {k});
    }
  }

  /** However downloads, failures, leases and deletions interleave, the files under the root
      never take more bytes than are charged, and the charge never exceeds the maximum. */
  lemma DiskWithinQuota(maximumBytes: nat, maximumEntries: nat, found: map<Path, nat>, staging: set<Path>, total: nat,
        events: seq<Event>)
    requires total == Sum(found) && total <= maximumBytes <= MediaCapacity.U64_MAX && |found| <= maximumEntries
    requires Exec(Next, Opening(maximumBytes, maximumEntries, found, staging, total), events).Some?
    ensures var s := Exec(Next, Opening(maximumBytes, maximumEntries, found, staging, total), events).value;
      && Sum(s.files) + Sum(PartialBytes(s.downloads)) <= s.ledger.charged <= maximumBytes
      && Balanced(s.ledger) && Exact(s.registry)
  {
    hide Inv, Exec, Balanced, Exact, PartialBytes, Sum;
    OpeningHolds(maximumBytes, maximumEntries, found, staging, total);
    RunKeeps(Opening(maximumBytes, maximumEntries, found, staging, total), events);
    LimitsStay(Opening(maximumBytes, maximumEntries, found, staging, total), events);
    FilesWithinCharge(Exec(Next, Opening(maximumBytes, maximumEntries, found, staging, total), events).value);
  }

  lemma FilesWithinCharge(s: State)
    requires Inv(s)
    ensures Sum(s.files) + Sum(PartialBytes(s.downloads)) <= s.ledger.charged <= s.ledger.maximumBytes
    ensures Balanced(s.ledger) && Exact(s.registry)
  {
    hide Sum, Exact;
    SumIsBounded(s.files, s.ledger.entries);
    SumIsBounded(PartialBytes(s.downloads), s.ledger.live);
  }

  lemma StepLimits(s: State, e: Event)
    requires Enabled(s, e)
    ensures Apply(s, e).ledger.maximumBytes == s.ledger.maximumBytes && s.nextId <= Apply(s, e).nextId
  {
  }

  lemma {:induction false} LimitsStay(s: State, events: seq<Event>)
    requires Exec(Next, s, events).Some?
    ensures Exec(Next, s, events).value.ledger.maximumBytes == s.ledger.maximumBytes
      && s.nextId <= Exec(Next, s, events).value.nextId
  {
    hide Apply, Enabled;
    if events != [] {
      LimitsStay(s, events[..|events| - 1]);
      StepLimits(Exec(Next, s, events[..|events| - 1]).value, events[|events| - 1]);
    }
  }

  // ---------------------------------------------------------------- what a lease is worth

  /** As long as the token lives, there is a file at the path. */
  ghost predicate KeepsFile(s: State, token: TokenId, path: Path) {
    forall events :: Exec(Next, s, events).Some? && token in Exec(Next, s, events).value.registry.tokens ==>
      Present(Exec(Next, s, events).value, path)
  }

  lemma {:induction false} SureStays(s: State, events: seq<Event>, token: TokenId)
    requires Inv(s) && token in s.sure && Exec(Next, s, events).Some?
      && token in Exec(Next, s, events).value.registry.tokens
    ensures token in Exec(Next, s, events).value.sure
    ensures token in s.registry.tokens && Exec(Next, s, events).value.registry.tokens[token] == s.registry.tokens[token]
  {
    hide Balanced, Exact, DownloadsSound, DeletionsSound, FilesCharged, PathsKnown, Enabled;
    if events != [] {
      var front, last := events[..|events| - 1], events[|events| - 1];
      RunKeeps(s, front);
      TokenWasThere(Exec(Next, s, front).value, last, token, s.nextId);
      LimitsStay(s, front);
      SureStays(s, front, token);
      SureStep(Exec(Next, s, front).value, last, token);
    }
  }

  lemma TokenWasThere(s: State, e: Event, token: TokenId, bound: nat)
    requires Enabled(s, e) && token in Apply(s, e).registry.tokens
    ensures token in s.registry.tokens || token == s.nextId
  {
  }

  lemma SureStep(s: State, e: Event, token: TokenId)
    requires Enabled(s, e) && token in s.sure && token in s.registry.tokens && token in Apply(s, e).registry.tokens
      && token < s.nextId
    ensures token in Apply(s, e).sure && Apply(s, e).registry.tokens[token] == s.registry.tokens[token]
  {
  }

  /** Exactly when a lease keeps its promise. The object is inspected before the table is
      locked, so the lease may be granted after its file is gone, or over a renamed file that
      its download has not booked yet and still takes away when it gives up. The lease keeps a
      file at its path for as long as it lives if, and only if, at its registration the file
      was there and already taken over from its download. */
  lemma LeaseProtectsIffRegisteredInTime(s: State, path: Path)
    requires Inv(s) && Enabled(s, Register(path))
    ensures KeepsFile(Apply(s, Register(path)), s.nextId, path) <==> path in s.files
  {
    hide Inv, Enabled, Apply;
    var t := Apply(s, Register(path));
    Registered(s, path);
    EventKeeps(s, Register(path));
    if path in s.files {
      forall events | Exec(Next, t, events).Some? && s.nextId in Exec(Next, t, events).value.registry.tokens
        ensures Present(Exec(Next, t, events).value, path)
      {
        LeasedFileStays(t, events, s.nextId);
      }
    } else if Present(s, path) {
      UnbookedFileGoes(t, path, s.nextId);
    } else {
      assert Exec(Next, t, []) == Some(t);
    }
  }

  lemma Registered(s: State, path: Path)
    requires Enabled(s, Register(path))
    ensures var t := Apply(s, Register(path));
      && t.files == s.files && t.downloads == s.downloads
      && s.nextId in t.registry.tokens && t.registry.tokens[s.nextId] == path
      && (path in s.files ==> s.nextId in t.sure)
  {
  }

  /** A download that gives up takes its file away, leased or not. */
  lemma UnbookedFileGoes(s: State, path: Path, token: TokenId)
    requires Inv(s) && Present(s, path) && path !in s.files && token in s.registry.tokens
    ensures !KeepsFile(s, token, path)
  {
    hide Balanced, Exact, DeletionsSound, FilesCharged, SureSound, PathsKnown;
    var id :| id in s.downloads && At(s.downloads[id], path);
    assert DownloadSound(s.ledger.live, s.ledger.entries, s.files, id, s.downloads[id], s.owner);
    var e := Abandon(id, true);
    var t := Apply(s, e);
    forall k | k in t.downloads
      ensures !At(t.downloads[k], path)
    {
      assert DownloadSound(s.ledger.live, s.ledger.entries, s.files, k, s.downloads[k], s.owner);
    }
    assert !Present(t, path) && token in t.registry.tokens;
    hide Apply, Enabled, Present;
    assert [e][..0] == [];
    assert Exec(Next, s, [e]) == Some(t);
  }

  lemma LeasedFileStays(s: State, events: seq<Event>, token: TokenId)
    requires Inv(s) && token in s.sure && Exec(Next, s, events).Some?
      && token in Exec(Next, s, events).value.registry.tokens
    ensures token in s.registry.tokens && s.registry.tokens[token] in Exec(Next, s, events).value.files
  {
    RunKeeps(s, events);
    SureStays(s, events, token);
    hide Exec;
  }

  /** The object at path 1 has been looked at; then `stage` steps of its deletion went by. */
  function LostRace(stage: nat): State {
    var charged := stage < 3;
    State(Opened(10, 10, if charged then map[1 := 4] else map[], if charged then 4 else 0),
          if 0 < stage < 4 then Registry(map[1 := Deleting], map[], map[0 := 1]) else Registry(map[], map[], map[]),
          if stage < 2 then map[1 := 4] else map[], map[],
          if stage == 1 then map[0 := Begun] else if stage == 2 then map[0 := FileGone]
            else if stage == 3 then map[0 := Refunded] else map[],
          {1}, {}, {1}, map[], {}, if stage == 0 then 0 else 1)
  }

  lemma RaceBegins()
    ensures Enabled(LostRace(0), BeginDelete(1)) && Apply(LostRace(0), BeginDelete(1)) == LostRace(1)
  {
    hide Sum;
  }

  lemma RaceRemoves()
    ensures Enabled(LostRace(1), RemoveFile(0)) && Apply(LostRace(1), RemoveFile(0)) == LostRace(2)
  {
    hide Sum;
  }

  lemma RaceRefunds()
    ensures Enabled(LostRace(2), Refund(0)) && Apply(LostRace(2), Refund(0)) == LostRace(3)
  {
    hide Sum;
    assert map[1 := 4] - {1} == map[];
  }

  lemma RaceEnds()
    ensures Enabled(LostRace(3), EndDelete(0)) && Apply(LostRace(3), EndDelete(0)) == LostRace(4)
  {
    hide Sum;
    assert map[1 := Deleting] - {1} == map[];
    assert map[0 := 1] - {0} == map[];
    assert map[0 := Refunded] - {0} == map[];
  }

  lemma DeletionRuns()
    ensures Reaches(Next, Opening(10, 10, map[1 := 4], {}, 4), LostRace(4))
  {
    hide Reaches, Sum;
    var start := Opening(10, 10, map[1 := 4], {}, 4);
    ReachesItself(Next, start);
    ReachesBy(Next, start, start, Inspect(1));
    assert Apply(start, Inspect(1)) == LostRace(0);
    hide Apply, Enabled, LostRace;
    RaceBegins();
    ReachesBy(Next, start, LostRace(0), BeginDelete(1));
    RaceRemoves();
    ReachesBy(Next, start, LostRace(1), RemoveFile(0));
    RaceRefunds();
    ReachesBy(Next, start, LostRace(2), Refund(0));
    RaceEnds();
    ReachesBy(Next, start, LostRace(3), EndDelete(0));
  }

  /** The lost race: an object is inspected, deleted in full, and then leased. */
  lemma LeaseOfADeletedFile()
    ensures exists s :: (
      Reaches(Next, Opening(10, 10, map[1 := 4], {}, 4), s) && s.registry.tokens == map[1 := 1] && s.files == map[])
  {
    hide Reaches;
    DeletionRuns();
    ReachesBy(Next, Opening(10, 10, map[1 := 4], {}, 4), LostRace(4), Register(1));
    assert Apply(LostRace(4), Register(1)).registry.tokens == map[1 := 1];
  }
}
