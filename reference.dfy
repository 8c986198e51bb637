/** The account reference collection (src/container/collection/reference.rs).

    An append-only index of references to containers. A meta header holds
    the number of entries, a seed and an optional container type. Entry
    `i` lives in a proxy account at the program address derived from
    `domain ++ seed ++ le64(i)`; the proxy holds the address of the
    referenced container. Inserting writes the slot after the last one and
    bumps the length; loading follows slot → proxy → container.

    Program-address derivation, account allocation, the proxy record and
    the transport are outside the model: each is a function value whose
    failures carry a message, reported as `Foreign`. */
module ReferenceCollection {
  import opened Types

  /** The collection's meta header (`CollectionMeta`). */
  datatype Meta = Meta(len: u64, seed: seq<byte>, containerType: Option<u32>)

  /** `create_program_address` over one seed, and `find_program_address`,
      which yields an address and its bump. */
  datatype Derivation = Derivation(
    createProgramAddress: (seq<byte>, Pubkey) -> Result<Pubkey, string>,
    findProgramAddress: (seq<byte>, Pubkey) -> (Pubkey, byte))

  /** The bump `find_program_address` picks for a seed is one that
      `create_program_address` accepts after that seed, for the same
      address (the contract of Solana's derivation). */
  ghost predicate CanonicalBump(d: Derivation, seed: seq<byte>, programId: Pubkey) {
    d.createProgramAddress(seed + [d.findProgramAddress(seed, programId).1], programId)
      == Ok(d.findProgramAddress(seed, programId).0)
  }

  /** The container being referenced: its address and `T::container_type()`. */
  datatype ContainerRef = ContainerRef(pubkey: Pubkey, containerType: u32)

  /** `load_container_with_transport` for a proxy (yielding the proxy's
      reference) and for the referenced container type. */
  datatype Transport<T> = Transport(
    loadProxy: Pubkey -> Result<Option<Pubkey>, string>,
    loadContainer: Pubkey -> Result<Option<T>, string>)

  /* ---------------------------------------------------------------------
     Slot seeds and addresses
     --------------------------------------------------------------------- */

  /** The seed of slot `idx`: the domain, the collection seed and the index
      as eight little-endian bytes, joined. */
  function ProxySeed(domain: seq<byte>, seed: seq<byte>, idx: u64): (s: seq<byte>)
    ensures |s| == |domain| + |seed| + 8
    ensures s[..|domain|] == domain
    ensures s[|domain|..|domain| + |seed|] == seed
    ensures FromLeBytes(s[|domain| + |seed|..]) == idx
  {
    var s := domain + seed + Le64(idx);
    assert s[|domain| + |seed|..] == Le64(idx);
    assert s[..|domain|] == domain;
    assert s[|domain|..|domain| + |seed|] == seed;
    s
  }

  /** A slot seed determines its parts: collections with domains of the
      same length share a slot seed only for the same domain, the same seed
      and the same index. In particular distinct indices of one
      collection give distinct seeds. */
  lemma ProxySeedInjective(domain1: seq<byte>, seed1: seq<byte>, i: u64, domain2: seq<byte>, seed2: seq<byte>, j: u64)
    requires |domain1| == |domain2|
    requires ProxySeed(domain1, seed1, i) == ProxySeed(domain2, seed2, j)
    ensures domain1 == domain2 && seed1 == seed2 && i == j
  {
    var s1 := ProxySeed(domain1, seed1, i);
    var s2 := ProxySeed(domain2, seed2, j);
    assert |seed1| == |seed2|;
    var n := |domain1| + |seed1|;
    assert s1[n..] == s2[n..];
    assert s1[..|domain1|] == s2[..|domain2|];
    assert s1[|domain1|..n] == s2[|domain2|..n];
  }

  /** The proxy address of slot `idx`: `find_program_address` over its seed. */
  function ProxyAddress(domain: seq<byte>, seed: seq<byte>, d: Derivation, programId: Pubkey, idx: u64): Pubkey {
    d.findProgramAddress(ProxySeed(domain, seed, idx), programId).0
  }

  /** `load_container_at_with_transport` over the collection's domain and
      seed. */
  function LoadAt<T>(domain: seq<byte>, seed: seq<byte>, d: Derivation, programId: Pubkey, idx: u64, transport: Transport<T>)
    : Result<Option<T>, Error>
  {
    match transport.loadProxy(ProxyAddress(domain, seed, d, programId, idx))
    case Err(message) => Err(Foreign(message))
    case Ok(None) => Err(AccountReferenceCollectionProxyNotFound)
    case Ok(Some(reference)) =>
      match transport.loadContainer(reference)
      case Err(message) => Err(Foreign(message))
      case Ok(container) => Ok(container)
  }

  /** Looking up an entry: a missing proxy is an error, not an absent
      entry; a present proxy yields whatever loading its reference yields,
      which may be no container at all. */
  lemma EntryLookup<T>(domain: seq<byte>, seed: seq<byte>, d: Derivation, programId: Pubkey, idx: u64, transport: Transport<T>)
    ensures var proxy := transport.loadProxy(ProxyAddress(domain, seed, d, programId, idx));
      var r := LoadAt(domain, seed, d, programId, idx, transport);
      && (r == Err(AccountReferenceCollectionProxyNotFound) <==> proxy == Ok(None))
      && (proxy.Err? ==> r == Err(Foreign(proxy.error)))
      && (proxy.Ok? && proxy.value.Some? ==>
            match transport.loadContainer(proxy.value.value)
            case Err(message) => r == Err(Foreign(message))
            case Ok(container) => r == Ok(container))
  {
  }

  /* ---------------------------------------------------------------------
     Insertion
     --------------------------------------------------------------------- */

  /** What `try_insert_reference` sees of its `ContextReference`. */
  class InsertContext {
    const programId: Pubkey
    /** The addresses `locate_index_account` finds. */
    const indexAccounts: set<Pubkey>
    /** `try_create_pda_with_args` at an address: `None` on success, else
        its failure. */
    const allocate: Pubkey -> Option<string>
    /** `Proxy::try_create` on the new account for a container address. */
    const proxyCreate: (Pubkey, Pubkey) -> Option<string>
    /** The proxies created so far: proxy address to referenced container. */
    var proxies: map<Pubkey, Pubkey>

    constructor (programId: Pubkey, indexAccounts: set<Pubkey>, allocate: Pubkey -> Option<string>,
                 proxyCreate: (Pubkey, Pubkey) -> Option<string>, proxies: map<Pubkey, Pubkey>)
      ensures this.programId == programId && this.indexAccounts == indexAccounts
      ensures this.allocate == allocate && this.proxyCreate == proxyCreate && this.proxies == proxies
    {
      this.programId := programId;
      this.indexAccounts := indexAccounts;
      this.allocate := allocate;
      this.proxyCreate := proxyCreate;
      this.proxies := proxies;
    }
  }

  /** The index a new reference is written at. */
  function NextIndex(meta: Meta): u64
    requires meta.len < U64_MAX
  {
    meta.len + 1
  }

  /** The address seed `try_insert_reference` passes to
      `create_program_address`: slot `len + 1`'s seed and the bump. */
  function InsertSeed(domain: seq<byte>, meta: Meta, bump: byte): seq<byte>
    requires meta.len < U64_MAX
  {
    ProxySeed(domain, meta.seed, NextIndex(meta)) + [bump]
  }

  /** The proxy address `try_insert_reference` writes, or its error. */
  function InsertTarget(domain: seq<byte>, meta: Meta, d: Derivation, ctx: InsertContext, bump: byte, container: ContainerRef)
    : Result<Pubkey, Error>
    requires meta.len < U64_MAX
  {
    if meta.containerType.Some? && container.containerType != meta.containerType.value then Err(ContainerTypeMismatch)
    else
      match d.createProgramAddress(InsertSeed(domain, meta, bump), ctx.programId)
      case Err(message) => Err(Foreign(message))
      case Ok(pda) =>
        if pda !in ctx.indexAccounts then Err(AccountCollectionNotFound)
        else if ctx.allocate(pda).Some? then Err(Foreign(ctx.allocate(pda).value))
        else if ctx.proxyCreate(pda, container.pubkey).Some? then Err(Foreign(ctx.proxyCreate(pda, container.pubkey).value))
        else Ok(pda)
  }

  /** The outcome of an insertion, case by case: a container type clash is
      reported first; an address the context cannot locate is
      `AccountCollectionNotFound`; it succeeds exactly when every step
      succeeds, and then writes the address derived from slot `len + 1`. */
  lemma InsertOutcomes(domain: seq<byte>, meta: Meta, d: Derivation, ctx: InsertContext, bump: byte, container: ContainerRef)
    requires meta.len < U64_MAX
    ensures var r := InsertTarget(domain, meta, d, ctx, bump, container);
      var typeClash := meta.containerType.Some? && container.containerType != meta.containerType.value;
      var pda := d.createProgramAddress(InsertSeed(domain, meta, bump), ctx.programId);
      && (r == Err(ContainerTypeMismatch) <==> typeClash)
      && (r == Err(AccountCollectionNotFound) <==> !typeClash && pda.Ok? && pda.value !in ctx.indexAccounts)
      && (r.Ok? <==>
            && !typeClash && pda.Ok? && pda.value in ctx.indexAccounts
            && ctx.allocate(pda.value).None? && ctx.proxyCreate(pda.value, container.pubkey).None?)
      && (r.Ok? ==> pda == Ok(r.value))
  {
  }

  /** Slot 0 is never written: the seed an insertion derives from is never
      slot 0's seed, whatever the bump. */
  lemma InsertNeverUsesSlotZero(domain: seq<byte>, meta: Meta, bump: byte, b: byte)
    requires meta.len < U64_MAX
    ensures InsertSeed(domain, meta, bump) != ProxySeed(domain, meta.seed, 0) + [b]
  {
    var s1 := ProxySeed(domain, meta.seed, NextIndex(meta));
    var s0 := ProxySeed(domain, meta.seed, 0);
    var n := |domain| + |meta.seed|;
    assert s1[n..] != s0[n..];
    assert (s1 + [bump])[n..n + 8] == s1[n..];
    assert (s0 + [b])[n..n + 8] == s0[n..];
  }

  /** Slots `1..n` each have a proxy. */
  ghost predicate SlotsFilled(domain: seq<byte>, seed: seq<byte>, d: Derivation, programId: Pubkey, proxies: map<Pubkey, Pubkey>, n: nat) {
    forall i: u64 :: 1 <= i <= n ==> ProxyAddress(domain, seed, d, programId, i) in proxies
  }

  /** Inserting with the canonical bump keeps slots `1..len` filled and
      fills slot `len + 1`, whose proxy then references the container. */
  lemma InsertExtendsFilledSlots(domain: seq<byte>, meta: Meta, d: Derivation, ctx: InsertContext,
                                 proxies: map<Pubkey, Pubkey>, bump: byte, container: ContainerRef)
    requires meta.len < U64_MAX
    requires SlotsFilled(domain, meta.seed, d, ctx.programId, proxies, meta.len)
    requires bump == d.findProgramAddress(ProxySeed(domain, meta.seed, NextIndex(meta)), ctx.programId).1
    requires CanonicalBump(d, ProxySeed(domain, meta.seed, NextIndex(meta)), ctx.programId)
    requires InsertTarget(domain, meta, d, ctx, bump, container).Ok?
    ensures var pda := InsertTarget(domain, meta, d, ctx, bump, container).value;
      && pda == ProxyAddress(domain, meta.seed, d, ctx.programId, NextIndex(meta))
      && SlotsFilled(domain, meta.seed, d, ctx.programId, proxies[pda := container.pubkey], meta.len + 1)
  {
    var pda := InsertTarget(domain, meta, d, ctx, bump, container).value;
    var proxies' := proxies[pda := container.pubkey];
    forall i: u64 | 1 <= i <= meta.len + 1
      ensures ProxyAddress(domain, meta.seed, d, ctx.programId, i) in proxies'
    {
      if i <= meta.len {
        assert ProxyAddress(domain, meta.seed, d, ctx.programId, i) in proxies;
      }
    }
  }

  /** An inserted reference is what the new last slot loads, once the
      transport sees the proxy that was created. */
  lemma InsertedReferenceIsLoaded<T>(domain: seq<byte>, meta: Meta, d: Derivation, ctx: InsertContext,
                                     bump: byte, container: ContainerRef, transport: Transport<T>)
    requires meta.len < U64_MAX
    requires bump == d.findProgramAddress(ProxySeed(domain, meta.seed, NextIndex(meta)), ctx.programId).1
    requires CanonicalBump(d, ProxySeed(domain, meta.seed, NextIndex(meta)), ctx.programId)
    requires InsertTarget(domain, meta, d, ctx, bump, container).Ok?
    requires transport.loadProxy(InsertTarget(domain, meta, d, ctx, bump, container).value) == Ok(Some(container.pubkey))
    ensures LoadAt(domain, meta.seed, d, ctx.programId, NextIndex(meta), transport)
      == match transport.loadContainer(container.pubkey)
         case Err(message) => Err(Foreign(message))
         case Ok(c) => Ok(c)
  {
  }

  /* ---------------------------------------------------------------------
     The collection object
     --------------------------------------------------------------------- */

  /** `AccountReferenceCollection`: the domain (the collection account's
      address bytes) and its meta header, whose length it updates. */
  class Collection {
    const domain: seq<byte>
    var meta: Meta

    constructor (domain: seq<byte>, meta: Meta)
      ensures this.domain == domain && this.meta == meta
    {
      this.domain := domain;
      this.meta := meta;
    }

    /** `try_create`: initialise the meta with the seed and container type;
        succeeds exactly when the meta's own creation does. */
    static method TryCreate(domain: seq<byte>, metaCreate: (seq<byte>, Option<u32>) -> Result<Meta, string>,
                            seed: seq<byte>, containerType: Option<u32>) returns (r: Result<Collection, Error>)
      ensures metaCreate(seed, containerType).Err? ==> r == Err(Foreign(metaCreate(seed, containerType).error))
      ensures metaCreate(seed, containerType).Ok? ==>
        r.Ok? && fresh(r.value) && r.value.domain == domain && r.value.meta == metaCreate(seed, containerType).value
    {
      var created := metaCreate(seed, containerType);
      if created.Err? {
        return Err(Foreign(created.error));
      }
      var collection := new Collection(domain, created.value);
      return Ok(collection);
    }

    /** `try_load`: read an existing meta; succeeds exactly when the meta's
        own load does. */
    static method TryLoad(domain: seq<byte>, metaLoad: Result<Meta, string>) returns (r: Result<Collection, Error>)
      ensures metaLoad.Err? ==> r == Err(Foreign(metaLoad.error))
      ensures metaLoad.Ok? ==> r.Ok? && fresh(r.value) && r.value.domain == domain && r.value.meta == metaLoad.value
    {
      if metaLoad.Err? {
        return Err(Foreign(metaLoad.error));
      }
      var collection := new Collection(domain, metaLoad.value);
      return Ok(collection);
    }

    /** `len`: the meta header's length. */
    function Len(): (n: nat)
      reads this
      ensures n == meta.len
    {
      meta.len
    }

    /** `get_proxy_seed_at`: this collection's seed for slot `idx`. */
    function GetProxySeedAt(idx: u64): (s: seq<byte>)
      reads this
      ensures s == ProxySeed(domain, meta.seed, idx)
      ensures |s| == |domain| + |meta.seed| + 8
      ensures s[..|domain|] == domain && s[|domain|..|domain| + |meta.seed|] == meta.seed
      ensures FromLeBytes(s[|domain| + |meta.seed|..]) == idx
    {
      ProxySeed(domain, meta.seed, idx)
    }

    /** `get_proxy_pda_at`: never fails. */
    function GetProxyPdaAt(d: Derivation, programId: Pubkey, idx: u64): (r: Result<(Pubkey, byte), Error>)
      reads this
      ensures r.Ok?
      ensures r.value.0 == ProxyAddress(domain, meta.seed, d, programId, idx)
    {
      Ok(d.findProgramAddress(GetProxySeedAt(idx), programId))
    }

    /** `get_proxy_pubkey_at`: the address of slot `idx`'s proxy. */
    function GetProxyPubkeyAt(d: Derivation, programId: Pubkey, idx: u64): (r: Result<Pubkey, Error>)
      reads this
      ensures r == Ok(ProxyAddress(domain, meta.seed, d, programId, idx))
    {
      Ok(GetProxyPdaAt(d, programId, idx).value.0)
    }

    /** `load_container_at_with_transport`: look up the proxy at slot
        `idx`'s address, then the container it references. */
    function LoadContainerAt<T>(d: Derivation, programId: Pubkey, idx: u64, transport: Transport<T>): (r: Result<Option<T>, Error>)
      reads this
      ensures var proxy := transport.loadProxy(GetProxyPubkeyAt(d, programId, idx).value);
        && (r == Err(AccountReferenceCollectionProxyNotFound) <==> proxy == Ok(None))
        && (proxy.Err? ==> r == Err(Foreign(proxy.error)))
        && (proxy.Ok? && proxy.value.Some? ==>
              match transport.loadContainer(proxy.value.value)
              case Err(message) => r == Err(Foreign(message))
              case Ok(container) => r == Ok(container))
    {
      EntryLookup(domain, meta.seed, d, programId, idx, transport);
      LoadAt(domain, meta.seed, d, programId, idx, transport)
    }

    /** `try_insert_reference`: write a proxy for `container` at slot
        `len + 1` and bump the length, or fail leaving both untouched. */
    method TryInsertReference(d: Derivation, ctx: InsertContext, bump: byte, container: ContainerRef) returns (r: Result<(), Error>)
      requires meta.len < U64_MAX
      modifies this, ctx
      ensures var target := InsertTarget(domain, old(meta), d, ctx, bump, container);
        match target
        case Ok(pda) =>
          && r == Ok(())
          && meta == old(meta).(len := old(meta).len + 1)
          && ctx.proxies == old(ctx.proxies)[pda := container.pubkey]
        case Err(e) =>
          && r == Err(e)
          && meta == old(meta)
          && ctx.proxies == old(ctx.proxies)
    {
      if meta.containerType.Some? {
        if container.containerType != meta.containerType.value {
          return Err(ContainerTypeMismatch);
        }
      }
      var nextIndex := meta.len + 1;
      var programAddressDataBytes := GetProxySeedAt(nextIndex);
      programAddressDataBytes := programAddressDataBytes + [bump];
      var pda := d.createProgramAddress(programAddressDataBytes, ctx.programId);
      if pda.Err? {
        return Err(Foreign(pda.error));
      }
      if pda.value !in ctx.indexAccounts {
        return Err(AccountCollectionNotFound);
      }
      var allocation := ctx.allocate(pda.value);
      if allocation.Some? {
        return Err(Foreign(allocation.value));
      }
      var created := ctx.proxyCreate(pda.value, container.pubkey);
      if created.Some? {
        return Err(Foreign(created.value));
      }
      ctx.proxies := ctx.proxies[pda.value := container.pubkey];
      meta := meta.(len := nextIndex);
      return Ok(());
    }

    /** `load_container_range_with_transport`: one result per index of
        `start..end`, in index order; the outer result never fails. */
    method LoadContainerRange<T>(d: Derivation, programId: Pubkey, start: u64, end: u64, transport: Transport<T>)
      returns (r: Result<seq<Result<Option<T>, Error>>, Error>)
      ensures r.Ok?
      ensures |r.value| == if start <= end then end - start else 0
      ensures forall k :: 0 <= k < |r.value| ==>
        start + k <= U64_MAX && r.value[k] == LoadAt(domain, meta.seed, d, programId, start + k, transport)
    {
      var futures: seq<Result<Option<T>, Error>> := [];
      var idx := start;
      while idx < end
        invariant start <= idx && (start <= end ==> idx <= end) && (end < start ==> idx == start)
        invariant |futures| == idx - start
        invariant forall k :: 0 <= k < |futures| ==>
          start + k <= U64_MAX && futures[k] == LoadAt(domain, meta.seed, d, programId, start + k, transport)
      {
        var f := LoadContainerAt(d, programId, idx, transport);
        futures := futures + [f];
        idx := idx + 1;
      }
      return Ok(futures);
    }
  }
}
