# Kaizen: emulator account pipeline and reference collection, in Dafny

This project models two parts of Kaizen, a framework for Solana programs.

- **The emulator** (`src/emulator/emulator.rs`) runs a program's
  instructions off-chain against a local account store.
  - `Execute` arms a log sink and runs the pipeline.
  - The pipeline looks up the program's entrypoint and loads the accounts the
    instruction names. Loading rejects duplicates, copies stored records or
    builds templates, and stamps the signer and writable flags.
  - The entrypoint then runs on views of those accounts.
  - The commit refuses a change to a read-only stored account. Otherwise it
    applies the balance policy to every account: it purges it, stores it, or,
    for the system account below the minimum balance, leaves it as it was.
  - Finally `Execute` drains the log and reports the error, if any, as a
    field of the response. It never fails itself.
  - `Fund` moves lamports from the system account (the all-zero address) to an
    account, creating that account if it is missing.
- **The account reference collection**
  (`src/container/collection/reference.rs`) is an append-only index.
  - Entry `i` is a proxy account at the program address derived from
    `domain ++ seed ++ le64(i)`. The proxy holds the address of the
    referenced container.
  - An insertion writes slot `len + 1` and then bumps `len`.
  - A lookup follows slot → proxy → container.

Files:

- `types.dfy`: bytes, `u32`/`u64`, 32-byte `Pubkey`, `Option`/`Result`, the
  error codes, saturating arithmetic and the little-endian index bytes.
- `accounts.dfy`: `AccountData`, the store (a map from address to record),
  templates, `CloneForStorage`, instruction descriptors and the `AccountInfo`
  view.
- `logging.dfy`: the log lines and the `LogSink` class.
- `emulator.dfy`:
  - the pipeline as functions of the store it starts from (`LoadSpec`,
    `CommitSpec`, `ExecuteImplSpec`, `FundSpec`);
  - the lemmas about the duplicate, read-only, lifecycle and all-or-nothing
    rules;
  - the `Emulator` class. Its methods are proved to behave exactly as those
    functions and to keep every record filed under its own address.
- `reference.dfy`:
  - slot seeds and the insertion and lookup rules as functions, with their
    lemmas;
  - the `Collection` class. Its header length is updated in place by
    `TryInsertReference`.
  - `InsertContext`, the part of the program context an insertion uses: the
    index accounts it can locate, the allocator, and the proxies created so
    far.

Collaborators outside the code are function values or parameters:

- the program entrypoint and the simulation handler: they receive the account
  views and return their log lines and a result;
- `Rent::minimum_balance`: `minimumBalance: nat -> u64`;
- the program registry: a map from program id to entrypoint;
- program-address derivation: `Derivation`;
- account allocation and proxy creation: `InsertContext`;
- the transport's loads: `Transport`;
- the meta header's own create and load.

Failures are reported as follows:

- A program entrypoint's failure becomes `EntrypointError(message)`.
- A simulation handler's failure becomes `ProgramError(message)`.
- A failure of derivation, allocation, proxy creation, the transport or the
  meta header becomes `Foreign(message)`.
- Registry lookup failures are not modelled (see "Left out").

The two derivation functions are independent values. Only
`InsertExtendsFilledSlots` and `InsertedReferenceIsLoaded` need them to
agree: they require that the bump `find_program_address` returns for a slot
seed is accepted by `create_program_address` for the same address
(`CanonicalBump`).

An absent proxy is an error, not an empty entry: the lookup returns
`AccountReferenceCollectionProxyNotFound` (reference.rs lines 214-217,
`EntryLookup`).

Because insertion writes slot `len + 1`, slot 0 is never written
(`InsertNeverUsesSlotZero`). The caller supplies the bump, and any bump that
`create_program_address` accepts bumps `len`. When every insertion uses the
canonical bump (the one `find_program_address` returns for that slot's seed),
slots `1..n` hold proxies after `n` insertions (`InsertExtendsFilledSlots`).
With another bump, `len` still grows but the proxy is written at an address
that slot `len + 1`'s lookup does not derive. With canonical bumps, a range
read over `0..len` asks for slot 0 and does not ask for slot `len`. The model
keeps that behaviour.

## Model

| member | source | states |
|---|---|---|
| `Types.Le64` | src/container/collection/reference.rs:93 | `idx.to_le()` as exactly eight bytes, least significant first, from which `idx` reads back |
| `Logging.LogSink.constructor` | src/emulator/emulator.rs:34-38 | a new sink is disarmed |
| `Logging.LogSink.Init` | src/emulator/emulator.rs:39-41 | arming replaces whatever was held with an empty buffer |
| `Logging.LogSink.Take` | src/emulator/emulator.rs:42-44 | hands over exactly the buffered lines and disarms. It requires an armed sink because the source unwraps |
| `Logging.LogSink.Write` | src/emulator/emulator.rs:48-53 | appends the line while armed and does nothing while disarmed |
| `Logging.LogSink.WriteEach` | src/emulator/emulator.rs:48-53 | a series of writes appends the whole series, in order, while armed |
| `Emulator.FirstRepeat` | src/emulator/emulator.rs:170-183 | finds the least index whose address occurs earlier in the descriptors, and none when no address repeats |
| `Emulator.LoadAll` | src/emulator/emulator.rs:173-230 | one pair per descriptor, in order, each the stored copy or a template, stamped with the descriptor's flags |
| `Emulator.LoadRejectsDuplicates` | src/emulator/emulator.rs:170-183 | loading fails exactly when some address is named twice, and reports the first descriptor that repeats one |
| `Emulator.LoadShape` | src/emulator/emulator.rs:173-230 | on success: one pair per descriptor, in order, carrying the descriptor's flags. A stored address gives its record. An unstored one gives an empty, unfunded record owned by the program |
| `Emulator.LoadedSelfKeyedDistinct` | src/emulator/emulator.rs:170-230 | a successful load names each address once, each record under its own address |
| `Emulator.WriteBackAll` | src/emulator/emulator.rs:365-378 | for each returned view, the record's lamports, data and owner become the view's. Records without a returned view are unchanged. Addresses, keys, flags, container type and order stay |
| `Emulator.FirstViolation` | src/emulator/emulator.rs:248-258 | finds the first stored, non-writable account whose data differs from the stored copy, and none when there is none |
| `Emulator.CommitRejectsNonWritableChange` | src/emulator/emulator.rs:248-258 | the commit fails with `NonMutableAccountChange` exactly when such an account exists, and then the store is unchanged. A non-writable account that is not stored is never checked |
| `Emulator.CommitAllUntouched` | src/emulator/emulator.rs:260-336 | the commit loop leaves every address it is not given as it was |
| `Emulator.CommitAllAt` | src/emulator/emulator.rs:260-336 | for distinct self-keyed accounts each account ends by the policy, in any order. Empty and unfunded: purged. Below `minimum_balance(len)`: purged, except the system account, which is left as it was. Anything else: stored without its flags |
| `Emulator.CommitAllKeyed` | src/emulator/emulator.rs:290-302 | the commit keeps every record filed under its own address |
| `Emulator.CommitAppliesPolicy` | src/emulator/emulator.rs:243-339 | a commit that passes the check applies the policy to every account given and leaves every other address as it was |
| `Emulator.ExecuteUnknownProgram` | src/emulator/emulator.rs:352-360 | an unregistered program fails with `EntrypointNotFound` before any account is loaded, logs only that, and leaves the store as it was |
| `Emulator.ExecuteFailureKeepsStore` | src/emulator/emulator.rs:347-391 | a failed invocation leaves the store as it was. The store changes only after the entrypoint succeeded |
| `Emulator.ExecuteRejectsReadOnlyChange` | src/emulator/emulator.rs:362-388 | an entrypoint that changes a stored read-only account's data makes the invocation fail with `NonMutableAccountChange`, and no account is touched |
| `Emulator.ExecuteAppliesPolicy` | src/emulator/emulator.rs:362-391 | after a successful invocation every named account is settled by the policy on the record the entrypoint left. Every unnamed address is as it was |
| `Emulator.FundFailures` | src/emulator/emulator.rs:442-454 | `LookupErrorSource` without a system account. `InsufficientBalance` when it holds less than the amount. Success otherwise. Nothing stored on failure |
| `Emulator.FundTransfers` | src/emulator/emulator.rs:456-471 | on success the source loses exactly the amount. The destination, created by `new_static` when absent, gains it with a saturating add. No other address changes |
| `Emulator.FundConservesLamports` | src/emulator/emulator.rs:464-466 | without overflow at the destination, the two balances sum to what they did before |
| `Emulator.Emulator.constructor` | src/emulator/emulator.rs:67-81 | the emulator over a store, with a fresh disarmed sink |
| `Emulator.Emulator.Init` | src/emulator/emulator.rs:83-88 | stores the system account with the given balance and changes nothing else |
| `Emulator.Emulator.LoadOne` | src/emulator/emulator.rs:185-228 | one descriptor's record and log lines, as `LoadAccount` and `LoadLines` give them |
| `Emulator.Emulator.ProgramLocalLoad` | src/emulator/emulator.rs:167-239 | returns and logs exactly what `LoadSpec` gives, for the store it reads |
| `Emulator.Emulator.CommitOne` | src/emulator/emulator.rs:260-336 | one account's purge, skip or store and its log lines. Records stay filed under their own address |
| `Emulator.Emulator.ProgramLocalStore` | src/emulator/emulator.rs:243-339 | result, new store and log lines exactly as `CommitSpec` gives them for the old store |
| `Emulator.Emulator.AccountInfosOf` | src/emulator/emulator.rs:364-376 | one view per loaded account, in order, with its address, flags, lamports, data and owner |
| `Emulator.Emulator.ExecuteEntrypoint` | src/emulator/emulator.rs:90-107 | logs "begin", then the program's lines, then "end" only on success. A program error becomes `EntrypointError` |
| `Emulator.Emulator.ExecuteImpl` | src/emulator/emulator.rs:347-391 | result, new store and log lines exactly as `ExecuteImplSpec` gives them |
| `Emulator.Emulator.Execute` | src/emulator/emulator.rs:403-432 | the response carries exactly the lines logged by the pipeline, and the error exactly when the pipeline failed. The store is as the pipeline left it and the sink ends disarmed |
| `Emulator.Emulator.ExecuteHandler` | src/emulator/emulator.rs:109-150 | loads, calls the handler on the views, logs its lines plus its error on failure, and never commits anything |
| `Emulator.Emulator.Fund` | src/emulator/emulator.rs:434-480 | result and new store as `FundSpec` gives them. Logs the transfer only on success |
| `ReferenceCollection.ProxySeed` | src/container/collection/reference.rs:91-95 | the slot seed has length `|domain| + |seed| + 8`. It starts with the domain, then the seed, then the index's little-endian bytes |
| `ReferenceCollection.ProxySeedInjective` | src/container/collection/reference.rs:91-95 | for domains of equal lengths, equal slot seeds mean equal domain, seed and index. So distinct indices give distinct seeds |
| `ReferenceCollection.EntryLookup` | src/container/collection/reference.rs:209-221 | the lookup fails with `AccountReferenceCollectionProxyNotFound` exactly when the proxy is absent. A present proxy yields the container load's result, which may be `None` |
| `ReferenceCollection.InsertOutcomes` | src/container/collection/reference.rs:97-142 | insertion fails with `ContainerTypeMismatch` exactly on a type clash. It fails with `AccountCollectionNotFound` exactly when the derived address is not among the index accounts. It succeeds exactly when every step does, writing the address derived from slot `len + 1`'s seed plus the bump |
| `ReferenceCollection.InsertNeverUsesSlotZero` | src/container/collection/reference.rs:112-114 | the seed an insertion derives from is never slot 0's, whatever the bump |
| `ReferenceCollection.InsertExtendsFilledSlots` | src/container/collection/reference.rs:112-139 | with the canonical bump, an insertion keeps slots `1..len` filled and fills slot `len + 1` |
| `ReferenceCollection.InsertedReferenceIsLoaded` | src/container/collection/reference.rs:97-142 | with the canonical bump, looking up the new last slot yields the inserted container |
| `ReferenceCollection.Collection.TryCreate` | src/container/collection/reference.rs:19-27 | succeeds exactly when the meta's creation does, holding the domain and the new header |
| `ReferenceCollection.Collection.TryLoad` | src/container/collection/reference.rs:29-35 | succeeds exactly when the meta's load does, holding the domain and the loaded header |
| `ReferenceCollection.Collection.Len` | src/container/collection/reference.rs:87-89 | reports the meta header's length |
| `ReferenceCollection.Collection.GetProxySeedAt` | src/container/collection/reference.rs:91-95 | this collection's slot seed: the domain, then the header's seed, then the index's eight little-endian bytes |
| `ReferenceCollection.Collection.GetProxyPdaAt` | src/container/collection/reference.rs:161-168 | never fails. The address is the derivation of slot `idx`'s seed |
| `ReferenceCollection.Collection.GetProxyPubkeyAt` | src/container/collection/reference.rs:171-182 | the address of slot `idx`'s proxy |
| `ReferenceCollection.Collection.LoadContainerAt` | src/container/collection/reference.rs:209-221 | fails with `AccountReferenceCollectionProxyNotFound` exactly when no proxy is at slot `idx`'s address. A transport failure is passed on. A present proxy yields the container load's result, which may be `None` |
| `ReferenceCollection.Collection.TryInsertReference` | src/container/collection/reference.rs:97-142 | on success `len` grows by exactly one and the proxy at the derived address references the container. On any failure neither `len` nor the proxies change |
| `ReferenceCollection.Collection.LoadContainerRange` | src/container/collection/reference.rs:232-243 | never fails overall. It gives `end - start` results (none for an empty range), the k-th being the lookup of slot `start + k` |

## Left out

- Store backend failures: the `?` on `lookup`, `store` and `purge` are not modelled. The store is a map and its operations always succeed.
- Concurrency: `async`, `Arc`, `Mutex` and `RwLock`, and the global log pipe. Each `.await` is an ordinary sequential step. `FuturesOrdered` is modelled as loading the slots one after another, in order.
- Log text: styling and formatting, and the `info()` summaries including their failures. Each log line is a value carrying what it reports. Log levels and the unused `bool` that `write` returns are also left out.
- Error text: errors are constructors; `to_string` on the response's error is not modelled.
- Emulator.Emulator.Init: takes the opening balance as a parameter, because `u64sol_to_lamports` is not part of this model.
- Registry lookup failures are left out, as are the instruction builder's `try_into` and the handler `Context` built with `expect`.
- `Rent::minimum_balance` is a function parameter, because the real one uses floating point.
- `into_account_info` aliasing is modelled as a write-back: a view's lamports, data and owner are copied into the record at the same position.
- Emulator.Emulator.Fund: requires `key` to differ from the system address. The source would take two write locks on one record, which has no sequential meaning.
- Emulator.FundSpec: the same precondition as `Fund`.
- ReferenceCollection.Collection.TryInsertReference: requires `len < 2^64 - 1`, so that `len + 1` does not overflow `u64`.
- A failed `Proxy::try_create` still leaves the freshly allocated account behind in the source. Allocation side effects are not modelled.
- ReferenceCollection.Collection.GetProxyPdaAt: `find_program_address` is taken as total, so "never fails" holds only under that abstraction. The collision-free search can panic when no bump is found, and seeds longer than Solana's per-seed limit are rejected. Neither is modelled.
- ReferenceCollection.Collection.LoadContainerAt: relies on the same total derivation for the slot's proxy address.
- ReferenceCollection.Collection.LoadContainerRange: relies on the same total derivation, so its "never fails overall" holds only under it.
- The account record helpers live outside these files and are assumed, not modelled from their source:
  - `new_template_for_program` and `new_static` give an empty, unfunded record.
  - `clone_for_storage` clears the signer and writable flags and keeps everything else.
  - `clone_for_program` is a plain copy.
  - `container_type()` returns the record's optional type.
  - `data_len()` is the length of the record's data. It decides both the purge rule and the minimum-balance rule.
  - `AccountData::default()` has the all-zero key and owner, no lamports, empty data, cleared flags and no container type. `SystemAccount` builds on it.
  - The "stored without its flags" rule of `CommitAllAt` depends on these.
- ReferenceCollection.Collection.TryCreate: the new header's initial `len`, `seed` and container type come from the header's own creation (meta.rs, outside these files) and are not stated. In particular the model does not promise that a new collection starts at `len == 0`, which the slot rules above presume.
- `ProgramAddressData::from_bytes` is treated as passing the bytes through unchanged as the seed.
- The meta header's storage layout: the header is a value, and its `try_create` and `try_load` are given as outcomes.
- The meta-kind constructors are not modelled: `data_len_min`, `try_create_from_meta`, `try_load_from_meta`, `try_create_from_segment` and `try_load_from_segment`. They only choose a meta kind and the domain.
- `load_container_at` and `load_container_range` with the global transport are not modelled, nor the global transport's own failure. The `_with_transport` forms are modelled.
- `usize` indices are taken as 64-bit.
- The emulator's `lookup` pass-through is not modelled.
