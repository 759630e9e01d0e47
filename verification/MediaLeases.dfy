/** Leases on media objects and permits to delete them, in one table
    (crates/pepeaudio-media/src/lease.rs). Every operation is one critical section. */
module MediaLeases {
  import opened Options

  type Path = nat
  type TokenId = nat
  type PermitId = nat

  const USIZE_MAX := 0xFFFF_FFFF_FFFF_FFFF

  datatype Entry = Leased(count: nat) | Deleting

  /** The table, and the live tokens and permits it stands for. */
  datatype Registry = Registry(entries: map<Path, Entry>, tokens: map<TokenId, Path>, permits: map<PermitId, Path>)

  datatype LeaseError = DeletionInProgress | LeaseCountExhausted

  // ---------------------------------------------------------------- operations

  function AcquireError(r: Registry, path: Path): Option<LeaseError> {
    if path in r.entries && r.entries[path].Deleting? then Some(DeletionInProgress)
    else if path in r.entries && r.entries[path].count >= USIZE_MAX then Some(LeaseCountExhausted)
    else None
  }

  function Acquire(r: Registry, token: TokenId, path: Path): Registry
    requires AcquireError(r, path).None?
  {
    var count := if path in r.entries then r.entries[path].count + 1 else 1;
    r.(entries := r.entries[path := Leased(count)], tokens := r.tokens[token := path])
  }

  function BeginDeletion(r: Registry, permit: PermitId, path: Path): Registry {
    if path in r.entries then r
    else r.(entries := r.entries[path := Deleting], permits := r.permits[permit := path])
  }

  function DropToken(r: Registry, token: TokenId): Registry
    requires token in r.tokens
  {
    var path := r.tokens[token];
    var fewer := r.(tokens := r.tokens - {token});
    if path in r.entries && r.entries[path] == Leased(1) then fewer.(entries := r.entries - {path})
    else if path in r.entries && r.entries[path].Leased? && r.entries[path].count > 0 then
      fewer.(entries := r.entries[path := Leased(r.entries[path].count - 1)])
    else fewer
  }

  function DropPermit(r: Registry, permit: PermitId): Registry
    requires permit in r.permits
  {
    var path := r.permits[permit];
    var fewer := r.(permits := r.permits - {permit});
    if path in r.entries && r.entries[path].Deleting? then fewer.(entries := r.entries - {path}) else fewer
  }

  // ---------------------------------------------------------------- the table is exact

  ghost function Holders<K>(held: map<K, Path>, path: Path): set<K> {
    set k | k in held && held[k] == path
  }

  /** A path is leased by exactly its live tokens, or being deleted under exactly one live
      permit, or neither. */
  ghost predicate ExactAt(r: Registry, path: Path) {
    && (if path in r.entries && r.entries[path].Leased?
        then r.entries[path].count == |Holders(r.tokens, path)| > 0
        else Holders(r.tokens, path) == {})
    && |Holders(r.permits, path)| == (if path in r.entries && r.entries[path].Deleting? then 1 else 0)
  }

  ghost predicate Exact(r: Registry) {
    forall path :: ExactAt(r, path)
  }

  lemma HoldersSet<K>(held: map<K, Path>, k: K, path: Path, other: Path)
    requires k !in held
    ensures Holders(held[k := path], other) == if other == path then Holders(held, other) + {k}
      else Holders(held, other)
  {
  }

  lemma HoldersWithout<K>(held: map<K, Path>, k: K, other: Path)
    requires k in held
    ensures Holders(held - {k}, other) == if other == held[k] then Holders(held, other) - {k} else Holders(held, other)
    ensures k in Holders(held, held[k])
  {
  }

  lemma AcquireKeepsAt(r: Registry, token: TokenId, path: Path, other: Path)
    requires ExactAt(r, other) && AcquireError(r, path).None? && token !in r.tokens
    ensures ExactAt(Acquire(r, token, path), other)
  {
    hide Holders;
    HoldersSet(r.tokens, token, path, other);
    NotHolding(r.tokens, token, other);
    if other == path {
      assert |Holders(r.tokens, other) + {token}| == |Holders(r.tokens, other)| + 1;
    }
  }

  lemma AcquireKeeps(r: Registry, token: TokenId, path: Path)
    requires Exact(r) && AcquireError(r, path).None? && token !in r.tokens
    ensures Exact(Acquire(r, token, path))
  {
    hide ExactAt, Acquire;
    forall other
      ensures ExactAt(Acquire(r, token, path), other)
    {
      AcquireKeepsAt(r, token, path, other);
    }
  }

  lemma NotHolding<K>(held: map<K, Path>, k: K, path: Path)
    requires k !in held
    ensures k !in Holders(held, path)
  {
  }

  lemma BeginDeletionKeeps(r: Registry, permit: PermitId, path: Path)
    requires Exact(r) && permit !in r.permits
    ensures Exact(BeginDeletion(r, permit, path))
  {
    var s := BeginDeletion(r, permit, path);
    hide Holders;
    forall other
      ensures ExactAt(s, other)
    {
      assert ExactAt(r, other);
      HoldersSet(r.permits, permit, path, other);
      assert permit !in Holders(r.permits, other) by { NotHolding(r.permits, permit, other); }
    }
  }

  /** Dropping a token always finds its path leased, never being deleted and never unknown. */
  lemma TokenIsCounted(r: Registry, token: TokenId)
    requires Exact(r) && token in r.tokens
    ensures var path := r.tokens[token];
      path in r.entries && r.entries[path].Leased? && r.entries[path].count == |Holders(r.tokens, path)| > 0
  {
    HoldersWithout(r.tokens, token, r.tokens[token]);
    assert ExactAt(r, r.tokens[token]);
  }

  lemma DropTokenKeeps(r: Registry, token: TokenId)
    requires Exact(r) && token in r.tokens
    ensures Exact(DropToken(r, token))
  {
    var s, path := DropToken(r, token), r.tokens[token];
    TokenIsCounted(r, token);
    hide Holders;
    forall other
      ensures ExactAt(s, other)
    {
      assert ExactAt(r, other);
      HoldersWithout(r.tokens, token, other);
    }
  }

  /** While a permit lives, its path is marked, has no token, and no other permit. */
  lemma PermitIsAlone(r: Registry, permit: PermitId)
    requires Exact(r) && permit in r.permits
    ensures var path := r.permits[permit];
      && path in r.entries && r.entries[path].Deleting? && Holders(r.tokens, path) == {}
      && Holders(r.permits, path) == {permit}
  {
    var path := r.permits[permit];
    HoldersWithout(r.permits, permit, path);
    assert ExactAt(r, path);
    var holders := Holders(r.permits, path);
    assert |holders - {permit}| == 0;
    assert holders == {permit};
  }

  lemma DropPermitKeeps(r: Registry, permit: PermitId)
    requires Exact(r) && permit in r.permits
    ensures Exact(DropPermit(r, permit))
  {
    var s, path := DropPermit(r, permit), r.permits[permit];
    PermitIsAlone(r, permit);
    hide Holders;
    forall other
      ensures ExactAt(s, other)
    {
      assert ExactAt(r, other);
      HoldersWithout(r.permits, permit, other);
    }
  }

  /** Leases are shared and deletion is not: a path is refused for deletion exactly while it
      has a live token or a live permit, and for a lease only while it has a permit, or has all
      the tokens a count can hold. */
  lemma WhoIsRefused(r: Registry, path: Path, permit: PermitId)
    requires Exact(r) && permit !in r.permits
    ensures permit !in BeginDeletion(r, permit, path).permits <==>
      Holders(r.tokens, path) != {} || Holders(r.permits, path) != {}
    ensures AcquireError(r, path) == Some(DeletionInProgress) <==> Holders(r.permits, path) != {}
    ensures AcquireError(r, path) == Some(LeaseCountExhausted) <==> |Holders(r.tokens, path)| >= USIZE_MAX
  {
    hide Holders;
    assert ExactAt(r, path);
  }

  /** Taking and dropping, alone, change nothing. */
  lemma AcquireThenDrop(r: Registry, token: TokenId, path: Path)
    requires Exact(r) && AcquireError(r, path).None? && token !in r.tokens
    ensures DropToken(Acquire(r, token, path), token) == r
  {
    hide Holders;
    assert ExactAt(r, path);
    assert r.tokens[token := path] - {token} == r.tokens;
    if path in r.entries {
      assert r.entries[path := Leased(r.entries[path].count + 1)][path := r.entries[path]] == r.entries;
    } else {
      assert r.entries[path := Leased(1)] - {path} == r.entries;
    }
  }

  // ---------------------------------------------------------------- as code

  class LeaseRegistry {
    var entries: map<Path, Entry>
    ghost var tokens: map<TokenId, Path>
    ghost var permits: map<PermitId, Path>
    ghost var nextId: nat

    ghost function View(): Registry
      reads this
    {
      Registry(entries, tokens, permits)
    }

    ghost predicate Valid()
      reads this
    {
      Exact(View()) && (forall t :: t in tokens ==> t < nextId) && (forall p :: p in permits ==> p < nextId)
    }

    constructor ()
      ensures Valid() && View() == Registry(map[], map[], map[])
    {
      entries, tokens, permits, nextId := map[], map[], map[], 0;
    }

    /** The registry's part of acquiring a lease, once the object was inspected. */
    method AcquireLease(path: Path) returns (error: Option<LeaseError>, token: LeaseToken?)
      requires Valid()
      modifies this
      ensures Valid() && error == AcquireError(old(View()), path)
      ensures error.Some? ==> token == null && View() == old(View())
      ensures error.None? ==>
                && token != null && fresh(token) && token.registry == this && token.path == path
                && token.id == old(nextId) && token.Live() && View() == Acquire(old(View()), token.id, path)
    {
      hide Exact;
      token := null;
      if path in entries {
        match entries[path] {
          case Leased(count) =>
            if count >= USIZE_MAX {
              return Some(LeaseCountExhausted), null;
            }
            AcquireKeeps(View(), nextId, path);
            entries := entries[path := Leased(count + 1)];
          case Deleting =>
            return Some(DeletionInProgress), null;
        }
      } else {
        AcquireKeeps(View(), nextId, path);
        entries := entries[path := Leased(1)];
      }
      tokens := tokens[nextId := path];
      token := new LeaseToken(this, nextId, path);
      nextId := nextId + 1;
      error := None;
    }

    predicate Protects(path: Path)
      reads this
    {
      path in entries
    }

    method TryBeginDeletion(path: Path) returns (permit: DeletionPermit?)
      requires Valid()
      modifies this
      ensures Valid()
      ensures permit == null <==> Holders(old(tokens), path) != {} || Holders(old(permits), path) != {}
      ensures permit == null ==> View() == old(View())
      ensures permit != null ==>
                && fresh(permit) && permit.registry == this && permit.path == path
                && permit.id == old(nextId) && permit.Live() && View() == BeginDeletion(old(View()), permit.id, path)
    {
      hide Exact, Holders;
      WhoIsRefused(View(), path, nextId);
      if path in entries {
        return null;
      }
      BeginDeletionKeeps(View(), nextId, path);
      entries := entries[path := Deleting];
      permits := permits[nextId := path];
      permit := new DeletionPermit(this, nextId, path);
      nextId := nextId + 1;
    }
  }

  class LeaseToken {
    const registry: LeaseRegistry
    const path: Path
    ghost const id: TokenId

    ghost predicate Live()
      reads registry
    {
      id in registry.tokens && registry.tokens[id] == path
    }

    constructor (registry: LeaseRegistry, ghost id: TokenId, path: Path)
      ensures this.registry == registry && this.id == id && this.path == path
    {
      this.registry, this.id, this.path := registry, id, path;
    }

    /** The last clone of the lease goes: its count goes down by one, whatever happens to the
        other tokens of the path. */
    method Release()
      requires registry.Valid() && Live()
      modifies registry
      ensures registry.Valid() && registry.View() == DropToken(old(registry.View()), id)
        && registry.nextId == old(registry.nextId)
      ensures !Live()
    {
      hide Exact, Holders;
      TokenIsCounted(registry.View(), id);
      DropTokenKeeps(registry.View(), id);
      match registry.entries[path] {
        case Leased(count) =>
          if count == 1 {
            registry.entries := registry.entries - {path};
          } else {
            registry.entries := registry.entries[path := Leased(count - 1)];
          }
        case Deleting =>
          assert false;
      }
      registry.tokens := registry.tokens - {id};
    }
  }

  class DeletionPermit {
    const registry: LeaseRegistry
    const path: Path
    ghost const id: PermitId

    ghost predicate Live()
      reads registry
    {
      id in registry.permits && registry.permits[id] == path
    }

    constructor (registry: LeaseRegistry, ghost id: PermitId, path: Path)
      ensures this.registry == registry && this.id == id && this.path == path
    {
      this.registry, this.id, this.path := registry, id, path;
    }

    method Release()
      requires registry.Valid() && Live()
      modifies registry
      ensures registry.Valid() && registry.View() == DropPermit(old(registry.View()), id)
        && registry.nextId == old(registry.nextId)
      ensures !registry.Protects(path)
    {
      hide Exact, Holders;
      PermitIsAlone(registry.View(), id);
      DropPermitKeeps(registry.View(), id);
      if path in registry.entries && registry.entries[path].Deleting? {
        registry.entries := registry.entries - {path};
      }
      registry.permits := registry.permits - {id};
    }
  }
}
