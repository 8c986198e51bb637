/** The emulator's account pipeline (src/emulator/emulator.rs).

    An `Emulator` owns a store of account records and a log sink. `Execute`
    runs one instruction: look up the program entrypoint, load the accounts
    the instruction names, run the entrypoint on views of them, check that
    no read-only stored account changed, then apply the balance policy to
    every account (purge it, store it, or leave the system account below
    the minimum balance as it was). `Fund` moves lamports out of the system account.

    The first half of the module gives each step as a function of the store
    it starts from (the specification the methods are proved against) and
    proves the pipeline's rules about those functions; the second half is
    the `Emulator` class itself. */
module Emulator {
  import opened Types
  import opened Accounts
  import opened Logging

  /** What a program entrypoint does when invoked: the lines it logs, and
      either the final state of the account views it was given or its
      error. */
  datatype EntryOutcome = EntryOutcome(logs: seq<string>, result: Result<seq<AccountInfo>, string>)

  /** `ProcessInstruction`: program id, accounts, instruction data. */
  type Entrypoint = (Pubkey, seq<AccountInfo>, seq<byte>) -> EntryOutcome

  /** What a `SimulationHandlerFn` does with the context built for it. */
  datatype HandlerOutcome = HandlerOutcome(logs: seq<string>, result: Result<(), string>)

  type SimulationHandler = (Pubkey, seq<AccountInfo>, seq<byte>) -> HandlerOutcome

  /** The working set of one invocation: `(pubkey, account data)` pairs in
      descriptor order. */
  type Loaded = seq<(Pubkey, AccountData)>

  function ProgramLines(texts: seq<string>): seq<LogLine> {
    seq(|texts|, i requires 0 <= i < |texts| => Program(texts[i]))
  }

  /* ---------------------------------------------------------------------
     Loading: program_local_load
     --------------------------------------------------------------------- */

  /** Descriptor `j` names an address an earlier descriptor already names. */
  predicate RepeatsEarlier(descs: seq<AccountMeta>, j: nat)
    requires j < |descs|
  {
    exists k :: 0 <= k < j && descs[k].pubkey == descs[j].pubkey
  }

  /** Some address is named by two descriptors. */
  predicate HasDuplicate(descs: seq<AccountMeta>) {
    exists j, k :: 0 <= k < j < |descs| && descs[k].pubkey == descs[j].pubkey
  }

  /** The first descriptor that repeats an earlier address, if there is one. */
  function FirstRepeat(descs: seq<AccountMeta>): (r: Option<nat>)
    ensures r.Some? ==> r.value < |descs| && RepeatsEarlier(descs, r.value)
    ensures r.Some? ==> forall j :: 0 <= j < r.value ==> !RepeatsEarlier(descs, j)
    ensures r.None? ==> forall j :: 0 <= j < |descs| ==> !RepeatsEarlier(descs, j)
  {
    if |descs| == 0 then None
    else
      var last := |descs| - 1;
      var init := descs[..last];
      assert forall j :: 0 <= j < last ==> (RepeatsEarlier(init, j) <==> RepeatsEarlier(descs, j)) by {
        forall j | 0 <= j < last
          ensures RepeatsEarlier(init, j) <==> RepeatsEarlier(descs, j)
        {
          assert forall k :: 0 <= k <= j ==> init[k] == descs[k];
        }
      }
      match FirstRepeat(init)
      case Some(j) => Some(j)
      case None => if RepeatsEarlier(descs, last) then Some(last) else None
  }

  /** The record loaded for one descriptor: a copy of the stored record, or
      an empty template owned by the program, stamped with the
      descriptor's flags. */
  function LoadAccount(store: Store, programId: Pubkey, d: AccountMeta): AccountData {
    var base := if d.pubkey in store then store[d.pubkey] else NewTemplateForProgram(d.pubkey, programId);
    base.(isSigner := d.isSigner, isWritable := d.isWritable)
  }

  /** The lines logged while loading one descriptor. */
  function LoadLines(store: Store, d: AccountMeta): seq<LogLine> {
    if d.pubkey in store then [Loading(d.pubkey)]
    else [CloningAccount(d.pubkey), if d.pubkey == DefaultPubkey then SystemTemplate(d.pubkey) else Template(d.pubkey)]
  }

  /** The working set for duplicate-free descriptors. */
  function LoadAll(store: Store, programId: Pubkey, descs: seq<AccountMeta>): (v: Loaded)
    ensures |v| == |descs|
    ensures forall i :: 0 <= i < |descs| ==> v[i] == (descs[i].pubkey, LoadAccount(store, programId, descs[i]))
  {
    if |descs| == 0 then []
    else
      var last := descs[|descs| - 1];
      LoadAll(store, programId, descs[..|descs| - 1]) + [(last.pubkey, LoadAccount(store, programId, last))]
  }

  function LoadAllLines(store: Store, descs: seq<AccountMeta>): seq<LogLine> {
    if |descs| == 0 then []
    else LoadAllLines(store, descs[..|descs| - 1]) + LoadLines(store, descs[|descs| - 1])
  }

  datatype LoadOutcome = LoadOutcome(result: Result<Loaded, Error>, logs: seq<LogLine>)

  /** `program_local_load` as a function of the store: it stops with
      `DuplicateAccount` at the first repeated address, having logged the
      descriptors before it. */
  function LoadSpec(store: Store, programId: Pubkey, descs: seq<AccountMeta>): LoadOutcome {
    match FirstRepeat(descs)
    case Some(j) => LoadOutcome(Err(DuplicateAccount(descs[j].pubkey)), LoadAllLines(store, descs[..j]))
    case None => LoadOutcome(Ok(LoadAll(store, programId, descs)), LoadAllLines(store, descs))
  }

  /** A descriptor that repeats an earlier one, with none repeating before
      it, is the first repeat. */
  lemma LoadStopsAt(store: Store, programId: Pubkey, descs: seq<AccountMeta>, i: nat)
    requires i < |descs| && RepeatsEarlier(descs, i)
    requires forall j :: 0 <= j < i ==> !RepeatsEarlier(descs, j)
    ensures LoadSpec(store, programId, descs)
      == LoadOutcome(Err(DuplicateAccount(descs[i].pubkey)), LoadAllLines(store, descs[..i]))
  {
  }

  lemma LoadCompletes(store: Store, programId: Pubkey, descs: seq<AccountMeta>)
    requires forall j :: 0 <= j < |descs| ==> !RepeatsEarlier(descs, j)
    ensures LoadSpec(store, programId, descs)
      == LoadOutcome(Ok(LoadAll(store, programId, descs)), LoadAllLines(store, descs))
  {
  }

  /** The addresses of the first `i` descriptors. */
  ghost function SeenKeys(descs: seq<AccountMeta>, i: nat): set<Pubkey>
    requires i <= |descs|
  {
    set k | 0 <= k < i :: descs[k].pubkey
  }

  lemma SeenKeysStep(descs: seq<AccountMeta>, i: nat)
    requires i < |descs|
    ensures descs[i].pubkey in SeenKeys(descs, i) <==> RepeatsEarlier(descs, i)
    ensures SeenKeys(descs, i + 1) == SeenKeys(descs, i) + {descs[i].pubkey}
  {
  }

  lemma LoadAllSnoc(store: Store, programId: Pubkey, descs: seq<AccountMeta>, i: nat)
    requires i < |descs|
    ensures LoadAll(store, programId, descs[..i + 1])
      == LoadAll(store, programId, descs[..i]) + [(descs[i].pubkey, LoadAccount(store, programId, descs[i]))]
    ensures LoadAllLines(store, descs[..i + 1]) == LoadAllLines(store, descs[..i]) + LoadLines(store, descs[i])
  {
    assert descs[..i + 1][..i] == descs[..i];
  }

  /** Loading fails exactly when some address is named twice, and then it
      reports the first descriptor that repeats an earlier one. */
  lemma LoadRejectsDuplicates(store: Store, programId: Pubkey, descs: seq<AccountMeta>)
    ensures LoadSpec(store, programId, descs).result.Err? <==> HasDuplicate(descs)
    ensures LoadSpec(store, programId, descs).result.Err? ==>
      exists j :: 0 <= j < |descs| && RepeatsEarlier(descs, j)
        && (forall i :: 0 <= i < j ==> !RepeatsEarlier(descs, i))
        && LoadSpec(store, programId, descs).result.error == DuplicateAccount(descs[j].pubkey)
  {
    if HasDuplicate(descs) {
      var j, k :| 0 <= k < j < |descs| && descs[k].pubkey == descs[j].pubkey;
      assert RepeatsEarlier(descs, j);
    }
    match FirstRepeat(descs)
    case Some(j) =>
      var k :| 0 <= k < j && descs[k].pubkey == descs[j].pubkey;
      assert 0 <= k < j < |descs|;
    case None =>
  }

  /** A successful load returns one pair per descriptor, in descriptor
      order, each carrying the descriptor's flags: a copy of the stored
      record when the address is stored, else an empty, unfunded template
      owned by the program. */
  lemma LoadShape(store: Store, programId: Pubkey, descs: seq<AccountMeta>)
    requires LoadSpec(store, programId, descs).result.Ok?
    ensures var v := LoadSpec(store, programId, descs).result.value;
      |v| == |descs| &&
      forall i :: 0 <= i < |descs| ==>
        var p := descs[i].pubkey;
        && v[i].0 == p
        && v[i].1.isSigner == descs[i].isSigner
        && v[i].1.isWritable == descs[i].isWritable
        && (p in store ==> v[i].1 == store[p].(isSigner := descs[i].isSigner, isWritable := descs[i].isWritable))
        && (p !in store ==> v[i].1.key == p && v[i].1.owner == programId && v[i].1.data == [] && v[i].1.lamports == 0)
  {
  }

  /** Every pair's record is filed under the pair's address. */
  ghost predicate SelfKeyed(accounts: Loaded) {
    forall i :: 0 <= i < |accounts| ==> accounts[i].1.key == accounts[i].0
  }

  ghost predicate DistinctKeys(accounts: Loaded) {
    forall i, j :: 0 <= i < j < |accounts| ==> accounts[i].0 != accounts[j].0
  }

  /** What a successful load returns names each address once, each record
      under its own address. */
  lemma LoadedSelfKeyedDistinct(store: Store, programId: Pubkey, descs: seq<AccountMeta>)
    requires KeyedByAddress(store)
    requires LoadSpec(store, programId, descs).result.Ok?
    ensures SelfKeyed(LoadSpec(store, programId, descs).result.value)
    ensures DistinctKeys(LoadSpec(store, programId, descs).result.value)
  {
    var v := LoadSpec(store, programId, descs).result.value;
    forall i, j | 0 <= i < j < |v| ensures v[i].0 != v[j].0 {
      if v[i].0 == v[j].0 {
        assert descs[i].pubkey == descs[j].pubkey;
        assert RepeatsEarlier(descs, j);
      }
    }
  }

  /* ---------------------------------------------------------------------
     Running: the entrypoint and the views it is given
     --------------------------------------------------------------------- */

  /** The views built for the entrypoint, one per loaded account. */
  function AccountInfos(accounts: Loaded): seq<AccountInfo> {
    seq(|accounts|, i requires 0 <= i < |accounts| => IntoAccountInfo(accounts[i].0, accounts[i].1))
  }

  /** The working set after the entrypoint's writes through its views;
      a view the entrypoint did not hand back leaves its record alone. */
  function WriteBackAll(accounts: Loaded, infos: seq<AccountInfo>): (r: Loaded)
    ensures |r| == |accounts|
    ensures forall i :: 0 <= i < |r| ==>
      && r[i].0 == accounts[i].0
      && r[i].1.key == accounts[i].1.key
      && r[i].1.isSigner == accounts[i].1.isSigner
      && r[i].1.isWritable == accounts[i].1.isWritable
      && r[i].1.containerType == accounts[i].1.containerType
    ensures forall i :: 0 <= i < |r| ==>
      if i < |infos| then
        r[i].1.lamports == infos[i].lamports && r[i].1.data == infos[i].data && r[i].1.owner == infos[i].owner
      else r[i] == accounts[i]
  {
    seq(|accounts|, i requires 0 <= i < |accounts| =>
      (accounts[i].0, if i < |infos| then WriteThrough(accounts[i].1, infos[i]) else accounts[i].1))
  }

  datatype RunOutcome = RunOutcome(result: Result<seq<AccountInfo>, Error>, logs: seq<LogLine>)

  /** `execute_entrypoing_impl`: "begin", the program's own lines, and "end"
      only when the program succeeds. */
  function RunEntrypoint(entrypoint: Entrypoint, programId: Pubkey, accounts: seq<AccountInfo>, data: seq<byte>): RunOutcome {
    var out := entrypoint(programId, accounts, data);
    if out.result.Err? then
      RunOutcome(Err(EntrypointError(out.result.error)), [EntrypointBegin] + ProgramLines(out.logs))
    else
      RunOutcome(Ok(out.result.value), [EntrypointBegin] + ProgramLines(out.logs) + [EntrypointEnd])
  }

  /* ---------------------------------------------------------------------
     Committing: program_local_store
     --------------------------------------------------------------------- */

  /** The read-only check fails on this record: it is stored, not writable,
      and its data differs from the stored copy. An address that is not
      stored is never checked. */
  predicate Violates(store: Store, a: AccountData) {
    a.key in store && !a.isWritable && a.data != store[a.key].data
  }

  /** The first record that fails the read-only check. */
  function FirstViolation(store: Store, accounts: Loaded): (r: Option<nat>)
    ensures r.Some? ==> r.value < |accounts| && Violates(store, accounts[r.value].1)
    ensures r.Some? ==> forall j :: 0 <= j < r.value ==> !Violates(store, accounts[j].1)
    ensures r.None? ==> forall j :: 0 <= j < |accounts| ==> !Violates(store, accounts[j].1)
  {
    if |accounts| == 0 then None
    else if Violates(store, accounts[0].1) then Some(0)
    else
      match FirstViolation(store, accounts[1..])
      case None => None
      case Some(j) => Some(j + 1)
  }

  /** The purge / skip / store policy applied to one account. */
  function CommitStep(store: Store, p: Pubkey, a: AccountData, minimumBalance: nat -> u64): Store {
    if |a.data| == 0 && a.lamports == 0 then store - {p}
    else if a.lamports < minimumBalance(|a.data|) then
      if p != DefaultPubkey then store - {p} else store
    else store[a.key := CloneForStorage(a)]
  }

  function CommitStepLines(p: Pubkey, a: AccountData, minimumBalance: nat -> u64): seq<LogLine> {
    if |a.data| == 0 && a.lamports == 0 then [PurgingEmpty(p)]
    else if a.lamports < minimumBalance(|a.data|) then
      if p != DefaultPubkey then
        [PurgingBelowMinimum(p), BalanceDetail(|a.data|, minimumBalance(|a.data|), a.lamports), AccountType(a.containerType.GetOr(0))]
      else []
    else [Saving(a.key)]
  }

  /** The policy applied to each account in turn. */
  function CommitAll(store: Store, accounts: Loaded, minimumBalance: nat -> u64): Store {
    if |accounts| == 0 then store
    else
      var last := accounts[|accounts| - 1];
      CommitStep(CommitAll(store, accounts[..|accounts| - 1], minimumBalance), last.0, last.1, minimumBalance)
  }

  function CommitAllLines(accounts: Loaded, minimumBalance: nat -> u64): seq<LogLine> {
    if |accounts| == 0 then []
    else
      var last := accounts[|accounts| - 1];
      CommitAllLines(accounts[..|accounts| - 1], minimumBalance) + CommitStepLines(last.0, last.1, minimumBalance)
  }

  datatype CommitOutcome = CommitOutcome(result: Result<(), Error>, store: Store, logs: seq<LogLine>)

  /** `program_local_store` as a function of the store: the read-only check
      over every account first, then the policy. */
  function CommitSpec(store: Store, accounts: Loaded, minimumBalance: nat -> u64): CommitOutcome {
    match FirstViolation(store, accounts)
    case Some(i) => CommitOutcome(Err(NonMutableAccountChange), store, [NonMutableModified(accounts[i].0)])
    case None => CommitOutcome(Ok(()), CommitAll(store, accounts, minimumBalance), CommitAllLines(accounts, minimumBalance))
  }

  /** The state at address `p` after committing record `a` there, by the
      policy: an empty unfunded account is gone; an account below the
      minimum balance for its data length is gone, unless it is the system
      account, which is then left as it was; anything else is stored in
      its storage form. */
  ghost predicate Committed(before: Store, after: Store, p: Pubkey, a: AccountData, minimumBalance: nat -> u64) {
    if |a.data| == 0 && a.lamports == 0 then p !in after
    else if a.lamports < minimumBalance(|a.data|) then
      if p != DefaultPubkey then p !in after
      else (p in after <==> p in before) && (p in before ==> after[p] == before[p])
    else p in after && after[p] == CloneForStorage(a)
  }

  ghost predicate Untouched(before: Store, after: Store, k: Pubkey) {
    (k in after <==> k in before) && (k in before ==> after[k] == before[k])
  }

  lemma {:induction false} CommitAllUntouched(store: Store, accounts: Loaded, minimumBalance: nat -> u64, k: Pubkey)
    requires forall i :: 0 <= i < |accounts| ==> accounts[i].0 != k && accounts[i].1.key != k
    ensures Untouched(store, CommitAll(store, accounts, minimumBalance), k)
  {
    if |accounts| > 0 {
      var init := accounts[..|accounts| - 1];
      assert forall i :: 0 <= i < |init| ==> init[i] == accounts[i];
      CommitAllUntouched(store, init, minimumBalance, k);
    }
  }

  /** Committing distinct, self-keyed accounts applies the policy to each of
      them, whatever the order. */
  lemma {:induction false} CommitAllAt(store: Store, accounts: Loaded, minimumBalance: nat -> u64, i: nat)
    requires SelfKeyed(accounts) && DistinctKeys(accounts)
    requires i < |accounts|
    ensures Committed(store, CommitAll(store, accounts, minimumBalance), accounts[i].0, accounts[i].1, minimumBalance)
  {
    var n := |accounts| - 1;
    var init := accounts[..n];
    assert forall j :: 0 <= j < n ==> init[j] == accounts[j];
    if i == n {
      forall j | 0 <= j < n ensures init[j].0 != accounts[n].0 && init[j].1.key != accounts[n].0 {
        assert accounts[j].0 != accounts[n].0;
      }
      CommitAllUntouched(store, init, minimumBalance, accounts[n].0);
    } else {
      assert SelfKeyed(init) && DistinctKeys(init);
      CommitAllAt(store, init, minimumBalance, i);
      assert accounts[n].0 != accounts[i].0;
    }
  }

  lemma CommitStopsAt(store: Store, accounts: Loaded, minimumBalance: nat -> u64, i: nat)
    requires i < |accounts| && Violates(store, accounts[i].1)
    requires forall j :: 0 <= j < i ==> !Violates(store, accounts[j].1)
    ensures CommitSpec(store, accounts, minimumBalance)
      == CommitOutcome(Err(NonMutableAccountChange), store, [NonMutableModified(accounts[i].0)])
  {
  }

  lemma CommitPasses(store: Store, accounts: Loaded, minimumBalance: nat -> u64)
    requires forall j :: 0 <= j < |accounts| ==> !Violates(store, accounts[j].1)
    ensures CommitSpec(store, accounts, minimumBalance)
      == CommitOutcome(Ok(()), CommitAll(store, accounts, minimumBalance), CommitAllLines(accounts, minimumBalance))
  {
  }

  lemma CommitAllSnoc(store: Store, accounts: Loaded, minimumBalance: nat -> u64, i: nat)
    requires i < |accounts|
    ensures CommitAll(store, accounts[..i + 1], minimumBalance)
      == CommitStep(CommitAll(store, accounts[..i], minimumBalance), accounts[i].0, accounts[i].1, minimumBalance)
    ensures CommitAllLines(accounts[..i + 1], minimumBalance)
      == CommitAllLines(accounts[..i], minimumBalance) + CommitStepLines(accounts[i].0, accounts[i].1, minimumBalance)
  {
    assert accounts[..i + 1][..i] == accounts[..i];
  }

  /** The read-only check decides the commit: it fails with
      `NonMutableAccountChange` exactly when some stored, non-writable
      account's data changed, and then the store is not touched. */
  lemma CommitRejectsNonWritableChange(store: Store, accounts: Loaded, minimumBalance: nat -> u64)
    ensures CommitSpec(store, accounts, minimumBalance).result == Err(NonMutableAccountChange)
        <==> exists i :: 0 <= i < |accounts| && Violates(store, accounts[i].1)
    ensures CommitSpec(store, accounts, minimumBalance).result.Ok?
        <==> !exists i :: 0 <= i < |accounts| && Violates(store, accounts[i].1)
    ensures CommitSpec(store, accounts, minimumBalance).result.Err? ==>
      CommitSpec(store, accounts, minimumBalance).store == store
  {
  }

  /** A commit that passes the check applies the policy to every account it
      is given and leaves every other address as it was. */
  lemma CommitAppliesPolicy(store: Store, accounts: Loaded, minimumBalance: nat -> u64)
    requires SelfKeyed(accounts) && DistinctKeys(accounts)
    requires CommitSpec(store, accounts, minimumBalance).result.Ok?
    ensures forall i :: 0 <= i < |accounts| ==>
      Committed(store, CommitSpec(store, accounts, minimumBalance).store, accounts[i].0, accounts[i].1, minimumBalance)
    ensures forall k :: (forall i :: 0 <= i < |accounts| ==> accounts[i].0 != k) ==>
      Untouched(store, CommitSpec(store, accounts, minimumBalance).store, k)
  {
    forall i | 0 <= i < |accounts|
      ensures Committed(store, CommitAll(store, accounts, minimumBalance), accounts[i].0, accounts[i].1, minimumBalance)
    {
      CommitAllAt(store, accounts, minimumBalance, i);
    }
    forall k | (forall i :: 0 <= i < |accounts| ==> accounts[i].0 != k)
      ensures Untouched(store, CommitAll(store, accounts, minimumBalance), k)
    {
      CommitAllUntouched(store, accounts, minimumBalance, k);
    }
  }

  lemma {:induction false} CommitAllKeyed(store: Store, accounts: Loaded, minimumBalance: nat -> u64)
    requires KeyedByAddress(store)
    ensures KeyedByAddress(CommitAll(store, accounts, minimumBalance))
  {
    if |accounts| > 0 {
      CommitAllKeyed(store, accounts[..|accounts| - 1], minimumBalance);
    }
  }

  /* ---------------------------------------------------------------------
     The whole invocation: execute_impl and execute
     --------------------------------------------------------------------- */

  datatype ExecOutcome = ExecOutcome(result: Result<(), Error>, store: Store, logs: seq<LogLine>)

  /** `execute_impl` as a function of the store: entrypoint lookup, load,
      run, then commit; each failure stops the pipeline with the store as
      it was. */
  function ExecuteImplSpec(store: Store, registry: map<Pubkey, Entrypoint>, minimumBalance: nat -> u64, ins: Instruction): ExecOutcome {
    var programId := ins.programId;
    if programId !in registry then
      ExecOutcome(Err(EntrypointNotFound(programId)), store, [EntrypointMissing(programId)])
    else
      var load := LoadSpec(store, programId, ins.accounts);
      if load.result.Err? then ExecOutcome(Err(load.result.error), store, load.logs)
      else
        var run := RunEntrypoint(registry[programId], programId, AccountInfos(load.result.value), ins.data);
        if run.result.Err? then ExecOutcome(Err(run.result.error), store, load.logs + run.logs)
        else
          var commit := CommitSpec(store, WriteBackAll(load.result.value, run.result.value), minimumBalance);
          ExecOutcome(commit.result, commit.store, load.logs + run.logs + commit.logs)
  }

  /** `ExecutionResponse`: the error, rendered by `to_string` in the
      source, and the captured log. */
  datatype ExecutionResponse = ExecutionResponse(error: Option<Error>, logs: seq<LogLine>)

  /** An unregistered program fails before any account is loaded: the only
      line logged is the lookup failure and the store is unchanged. */
  lemma ExecuteUnknownProgram(store: Store, registry: map<Pubkey, Entrypoint>, minimumBalance: nat -> u64, ins: Instruction)
    requires ins.programId !in registry
    ensures ExecuteImplSpec(store, registry, minimumBalance, ins)
      == ExecOutcome(Err(EntrypointNotFound(ins.programId)), store, [EntrypointMissing(ins.programId)])
  {
  }

  /** All or nothing: a failed invocation leaves the store as it was, and
      the store can change only after the entrypoint has succeeded. */
  lemma ExecuteFailureKeepsStore(store: Store, registry: map<Pubkey, Entrypoint>, minimumBalance: nat -> u64, ins: Instruction)
    ensures var e := ExecuteImplSpec(store, registry, minimumBalance, ins);
      e.result.Err? ==> e.store == store
    ensures var e := ExecuteImplSpec(store, registry, minimumBalance, ins);
      e.store != store ==>
        && ins.programId in registry
        && LoadSpec(store, ins.programId, ins.accounts).result.Ok?
        && RunEntrypoint(registry[ins.programId], ins.programId,
             AccountInfos(LoadSpec(store, ins.programId, ins.accounts).result.value), ins.data).result.Ok?
  {
  }

  /** The entrypoint's working set after it ran, when loading and running
      both succeed. */
  function PostRunAccounts(store: Store, registry: map<Pubkey, Entrypoint>, ins: Instruction): Option<Loaded> {
    if ins.programId !in registry then None
    else
      var load := LoadSpec(store, ins.programId, ins.accounts);
      if load.result.Err? then None
      else
        var run := RunEntrypoint(registry[ins.programId], ins.programId, AccountInfos(load.result.value), ins.data);
        if run.result.Err? then None
        else Some(WriteBackAll(load.result.value, run.result.value))
  }

  /** If the entrypoint changes the data of a stored account the instruction
      did not mark writable, the invocation fails with
      `NonMutableAccountChange` and no account is touched. */
  lemma ExecuteRejectsReadOnlyChange(store: Store, registry: map<Pubkey, Entrypoint>, minimumBalance: nat -> u64, ins: Instruction, i: nat)
    requires PostRunAccounts(store, registry, ins).Some?
    requires i < |PostRunAccounts(store, registry, ins).value|
    requires Violates(store, PostRunAccounts(store, registry, ins).value[i].1)
    ensures ExecuteImplSpec(store, registry, minimumBalance, ins).result == Err(NonMutableAccountChange)
    ensures ExecuteImplSpec(store, registry, minimumBalance, ins).store == store
  {
    var post := PostRunAccounts(store, registry, ins).value;
    CommitRejectsNonWritableChange(store, post, minimumBalance);
  }

  /** After a successful invocation every account the instruction named is
      settled by the balance policy on the record the entrypoint left, and
      every address it did not name is as it was. */
  lemma ExecuteAppliesPolicy(store: Store, registry: map<Pubkey, Entrypoint>, minimumBalance: nat -> u64, ins: Instruction)
    requires KeyedByAddress(store)
    requires ExecuteImplSpec(store, registry, minimumBalance, ins).result.Ok?
    ensures PostRunAccounts(store, registry, ins).Some?
    ensures var post := PostRunAccounts(store, registry, ins).value;
      var after := ExecuteImplSpec(store, registry, minimumBalance, ins).store;
      && |post| == |ins.accounts|
      && (forall i :: 0 <= i < |post| ==>
            post[i].0 == ins.accounts[i].pubkey && Committed(store, after, post[i].0, post[i].1, minimumBalance))
      && (forall k :: (forall i :: 0 <= i < |ins.accounts| ==> ins.accounts[i].pubkey != k) ==> Untouched(store, after, k))
  {
    var load := LoadSpec(store, ins.programId, ins.accounts);
    LoadedSelfKeyedDistinct(store, ins.programId, ins.accounts);
    var post := PostRunAccounts(store, registry, ins).value;
    var loaded := load.result.value;
    assert SelfKeyed(post) && DistinctKeys(post) by {
      forall i | 0 <= i < |post| ensures post[i].1.key == post[i].0 {
        assert post[i].0 == loaded[i].0;
      }
      forall i, j | 0 <= i < j < |post| ensures post[i].0 != post[j].0 {
        assert post[i].0 == loaded[i].0 && post[j].0 == loaded[j].0;
      }
    }
    CommitAppliesPolicy(store, post, minimumBalance);
  }

  /* ---------------------------------------------------------------------
     Funding: fund
     --------------------------------------------------------------------- */

  datatype FundOutcome = FundOutcome(result: Result<(), Error>, store: Store)

  /** `fund` as a function of the store (for a destination other than the
      system account itself). */
  function FundSpec(store: Store, key: Pubkey, owner: Pubkey, lamports: u64): FundOutcome
    requires key != DefaultPubkey
  {
    if DefaultPubkey !in store then FundOutcome(Err(LookupErrorSource), store)
    else if store[DefaultPubkey].lamports < lamports then FundOutcome(Err(InsufficientBalance), store)
    else
      var from := store[DefaultPubkey];
      var to := if key in store then store[key] else NewStatic(key, owner);
      var from' := from.(lamports := SaturatingSub(from.lamports, lamports));
      var to' := to.(lamports := SaturatingAdd(to.lamports, lamports));
      FundOutcome(Ok(()), store[from'.key := from'][to'.key := to'])
  }

  /** Funding fails without a system account, or when it holds less than
      the amount; it succeeds otherwise; a failure stores nothing. */
  lemma FundFailures(store: Store, key: Pubkey, owner: Pubkey, lamports: u64)
    requires key != DefaultPubkey
    ensures var f := FundSpec(store, key, owner, lamports);
      && (DefaultPubkey !in store ==> f.result == Err(LookupErrorSource))
      && (DefaultPubkey in store && store[DefaultPubkey].lamports < lamports ==> f.result == Err(InsufficientBalance))
      && (f.result.Ok? <==> DefaultPubkey in store && lamports <= store[DefaultPubkey].lamports)
      && (f.result.Err? ==> f.store == store)
  {
  }

  /** A successful transfer debits the system account by exactly the
      amount, credits the destination with a saturating add (creating it
      as an empty account with the given owner when absent), and changes
      no other address. */
  lemma FundTransfers(store: Store, key: Pubkey, owner: Pubkey, lamports: u64)
    requires KeyedByAddress(store)
    requires key != DefaultPubkey
    requires DefaultPubkey in store && lamports <= store[DefaultPubkey].lamports
    ensures var f := FundSpec(store, key, owner, lamports);
      var to := if key in store then store[key] else NewStatic(key, owner);
      && f.result == Ok(())
      && KeyedByAddress(f.store)
      && f.store.Keys == store.Keys + {key}
      && f.store[DefaultPubkey] == store[DefaultPubkey].(lamports := store[DefaultPubkey].lamports - lamports)
      && f.store[key] == to.(lamports := SaturatingAdd(to.lamports, lamports))
      && (key !in store ==> f.store[key].owner == owner && f.store[key].data == [])
      && (forall k :: k in store && k != key && k != DefaultPubkey ==> f.store[k] == store[k])
  {
  }

  /** When the destination does not overflow, funding moves lamports
      without creating or destroying any. */
  lemma FundConservesLamports(store: Store, key: Pubkey, owner: Pubkey, lamports: u64)
    requires KeyedByAddress(store)
    requires key != DefaultPubkey
    requires DefaultPubkey in store && lamports <= store[DefaultPubkey].lamports
    requires key in store ==> store[key].lamports + lamports <= U64_MAX
    ensures var f := FundSpec(store, key, owner, lamports);
      var before := if key in store then store[key].lamports else 0;
      f.store[DefaultPubkey].lamports + f.store[key].lamports == store[DefaultPubkey].lamports + before
  {
  }

  /* ---------------------------------------------------------------------
     The emulator object
     --------------------------------------------------------------------- */

  /** `Emulator`: the store, the log sink piped to it, the minimum-balance
      policy (`Rent::minimum_balance`) and the program registry. */
  class Emulator {
    var store: Store
    const sink: LogSink
    const minimumBalance: nat -> u64
    const registry: map<Pubkey, Entrypoint>

    ghost predicate Valid()
      reads this
    {
      KeyedByAddress(store)
    }

    /** `Emulator::new`, over a store that already holds `store`. */
    constructor (store: Store, minimumBalance: nat -> u64, registry: map<Pubkey, Entrypoint>)
      requires KeyedByAddress(store)
      ensures Valid()
      ensures this.store == store && this.minimumBalance == minimumBalance && this.registry == registry
      ensures fresh(sink) && sink.logs == None
    {
      this.store := store;
      this.minimumBalance := minimumBalance;
      this.registry := registry;
      sink := new LogSink();
    }

    /** `init`: store the system account with its opening balance. */
    method Init(initialLamports: u64)
      requires Valid()
      modifies this
      ensures Valid()
      ensures store == old(store)[DefaultPubkey := SystemAccount(initialLamports)]
    {
      var default := SystemAccount(initialLamports);
      store := store[default.key := default];
    }

    /** One iteration of `program_local_load` for a fresh address: copy the
        stored record or build a template, log it, stamp the flags. */
    method LoadOne(programId: Pubkey, descriptor: AccountMeta) returns (accountData: AccountData)
      modifies sink
      ensures accountData == LoadAccount(store, programId, descriptor)
      ensures sink.logs == Appended(old(sink.logs), LoadLines(store, descriptor))
    {
      var pubkey := descriptor.pubkey;
      if pubkey in store {
        accountData := store[pubkey];
        sink.Write(Loading(pubkey));
      } else {
        sink.Write(CloningAccount(pubkey));
        accountData := NewTemplateForProgram(pubkey, programId);
        if pubkey == DefaultPubkey {
          sink.Write(SystemTemplate(pubkey));
        } else {
          sink.Write(Template(pubkey));
        }
        ghost var second := if pubkey == DefaultPubkey then SystemTemplate(pubkey) else Template(pubkey);
        AppendedTwice(old(sink.logs), [CloningAccount(pubkey)], [second]);
        assert [CloningAccount(pubkey)] + [second] == [CloningAccount(pubkey), second];
      }
      accountData := accountData.(isSigner := descriptor.isSigner, isWritable := descriptor.isWritable);
    }

    /** `program_local_load`. */
    method ProgramLocalLoad(programId: Pubkey, accounts: seq<AccountMeta>) returns (r: Result<Loaded, Error>)
      modifies sink
      ensures r == LoadSpec(store, programId, accounts).result
      ensures sink.logs == Appended(old(sink.logs), LoadSpec(store, programId, accounts).logs)
    {
      var keyset: set<Pubkey> := {};
      var accountDataVec: Loaded := [];
      var i := 0;
      assert accounts[..0] == [];
      if sink.logs.Some? {
        assert sink.logs.value + [] == sink.logs.value;
      }
      while i < |accounts|
        invariant 0 <= i <= |accounts|
        invariant forall j :: 0 <= j < i ==> !RepeatsEarlier(accounts, j)
        invariant keyset == SeenKeys(accounts, i)
        invariant accountDataVec == LoadAll(store, programId, accounts[..i])
        invariant sink.logs == Appended(old(sink.logs), LoadAllLines(store, accounts[..i]))
      {
        var descriptor := accounts[i];
        var pubkey := descriptor.pubkey;
        SeenKeysStep(accounts, i);
        if pubkey in keyset {
          LoadStopsAt(store, programId, accounts, i);
          return Err(DuplicateAccount(pubkey));
        }
        keyset := keyset + {pubkey};
        var accountData := LoadOne(programId, descriptor);
        accountDataVec := accountDataVec + [(pubkey, accountData)];
        LoadAllSnoc(store, programId, accounts, i);
        AppendedTwice(old(sink.logs), LoadAllLines(store, accounts[..i]), LoadLines(store, descriptor));
        i := i + 1;
      }
      assert accounts[..i] == accounts;
      LoadCompletes(store, programId, accounts);
      return Ok(accountDataVec);
    }

    /** `program_local_store`: the read-only check over every account, then
        purge / skip / store for each. */
    method ProgramLocalStore(accounts: Loaded) returns (r: Result<(), Error>)
      requires Valid()
      modifies this, sink
      ensures Valid()
      ensures var c := CommitSpec(old(store), accounts, minimumBalance);
        r == c.result && store == c.store && sink.logs == Appended(old(sink.logs), c.logs)
    {
      var i := 0;
      while i < |accounts|
        invariant 0 <= i <= |accounts|
        invariant store == old(store) && sink.logs == old(sink.logs)
        invariant forall j :: 0 <= j < i ==> !Violates(store, accounts[j].1)
      {
        var (pubkey, accountData) := accounts[i];
        if accountData.key in store {
          var existing := store[accountData.key];
          if !accountData.isWritable && accountData.data != existing.data {
            sink.Write(NonMutableModified(pubkey));
            CommitStopsAt(store, accounts, minimumBalance, i);
            return Err(NonMutableAccountChange);
          }
        }
        i := i + 1;
      }
      CommitPasses(store, accounts, minimumBalance);
      ghost var before := store;
      i := 0;
      assert accounts[..0] == [];
      if sink.logs.Some? {
        assert sink.logs.value + [] == sink.logs.value;
      }
      while i < |accounts|
        invariant 0 <= i <= |accounts|
        invariant KeyedByAddress(store)
        invariant store == CommitAll(before, accounts[..i], minimumBalance)
        invariant sink.logs == Appended(old(sink.logs), CommitAllLines(accounts[..i], minimumBalance))
      {
        var (pubkey, accountData) := accounts[i];
        CommitOne(pubkey, accountData);
        CommitAllSnoc(before, accounts, minimumBalance, i);
        AppendedTwice(old(sink.logs), CommitAllLines(accounts[..i], minimumBalance), CommitStepLines(pubkey, accountData, minimumBalance));
        i := i + 1;
      }
      assert accounts[..i] == accounts;
      return Ok(());
    }

    /** One iteration of the second loop of `program_local_store`: purge an
        empty account, purge (or, for the system account, skip) one below
        the minimum balance, otherwise store its storage form. */
    method CommitOne(pubkey: Pubkey, accountData: AccountData)
      requires Valid()
      modifies this, sink
      ensures Valid()
      ensures store == CommitStep(old(store), pubkey, accountData, minimumBalance)
      ensures sink.logs == Appended(old(sink.logs), CommitStepLines(pubkey, accountData, minimumBalance))
    {
      if |accountData.data| == 0 && accountData.lamports == 0 {
        sink.Write(PurgingEmpty(pubkey));
        store := store - {pubkey};
        return;
      }
      var minimum := minimumBalance(|accountData.data|);
      if accountData.lamports < minimum {
        if pubkey != DefaultPubkey {
          var detail := BalanceDetail(|accountData.data|, minimum, accountData.lamports);
          var kind := AccountType(accountData.containerType.GetOr(0));
          sink.Write(PurgingBelowMinimum(pubkey));
          sink.Write(detail);
          sink.Write(kind);
          AppendedTwice(old(sink.logs), [PurgingBelowMinimum(pubkey)], [detail]);
          AppendedTwice(old(sink.logs), [PurgingBelowMinimum(pubkey), detail], [kind]);
          assert [PurgingBelowMinimum(pubkey)] + [detail] == [PurgingBelowMinimum(pubkey), detail];
          assert [PurgingBelowMinimum(pubkey), detail] + [kind] == [PurgingBelowMinimum(pubkey), detail, kind];
          store := store - {pubkey};
        } else if sink.logs.Some? {
          assert sink.logs.value + [] == sink.logs.value;
        }
        return;
      }
      var forStorage := CloneForStorage(accountData);
      sink.Write(Saving(accountData.key));
      store := store[forStorage.key := forStorage];
    }

    /** The loop of `execute_impl` that turns the working set into views. */
    method AccountInfosOf(accountDataVec: Loaded) returns (accounts: seq<AccountInfo>)
      ensures |accounts| == |accountDataVec|
      ensures forall i :: 0 <= i < |accounts| ==>
        && accounts[i].key == accountDataVec[i].0
        && accounts[i].isSigner == accountDataVec[i].1.isSigner
        && accounts[i].isWritable == accountDataVec[i].1.isWritable
        && accounts[i].lamports == accountDataVec[i].1.lamports
        && accounts[i].data == accountDataVec[i].1.data
        && accounts[i].owner == accountDataVec[i].1.owner
      ensures accounts == AccountInfos(accountDataVec)
    {
      accounts := [];
      var i := 0;
      while i < |accountDataVec|
        invariant 0 <= i <= |accountDataVec|
        invariant accounts == AccountInfos(accountDataVec[..i])
      {
        var (pubkey, accountData) := accountDataVec[i];
        var accountInfo := IntoAccountInfo(pubkey, accountData);
        accountInfo := accountInfo.(isSigner := accountData.isSigner, isWritable := accountData.isWritable);
        accounts := accounts + [accountInfo];
        i := i + 1;
      }
      assert accountDataVec[..i] == accountDataVec;
    }

    /** `execute_entrypoing_impl`. */
    method ExecuteEntrypoint(programId: Pubkey, accounts: seq<AccountInfo>, instructionData: seq<byte>, entrypoint: Entrypoint)
      returns (r: Result<seq<AccountInfo>, Error>)
      modifies sink
      ensures var run := RunEntrypoint(entrypoint, programId, accounts, instructionData);
        r == run.result && sink.logs == Appended(old(sink.logs), run.logs)
    {
      sink.Write(EntrypointBegin);
      var out := entrypoint(programId, accounts, instructionData);
      sink.WriteEach(ProgramLines(out.logs));
      AppendedTwice(old(sink.logs), [EntrypointBegin], ProgramLines(out.logs));
      if out.result.Err? {
        return Err(EntrypointError(out.result.error));
      }
      sink.Write(EntrypointEnd);
      AppendedTwice(old(sink.logs), [EntrypointBegin] + ProgramLines(out.logs), [EntrypointEnd]);
      return Ok(out.result.value);
    }

    /** `execute_impl`. */
    method ExecuteImpl(instruction: Instruction) returns (r: Result<(), Error>)
      requires Valid()
      modifies this, sink
      ensures Valid()
      ensures var e := ExecuteImplSpec(old(store), registry, minimumBalance, instruction);
        r == e.result && store == e.store && sink.logs == Appended(old(sink.logs), e.logs)
    {
      var programId := instruction.programId;
      if programId !in registry {
        sink.Write(EntrypointMissing(programId));
        return Err(EntrypointNotFound(programId));
      }
      var entrypoint := registry[programId];
      var loaded := ProgramLocalLoad(programId, instruction.accounts);
      ghost var load := LoadSpec(store, programId, instruction.accounts);
      if loaded.Err? {
        return Err(loaded.error);
      }
      var accountDataVec := loaded.value;
      var accounts := AccountInfosOf(accountDataVec);
      var run := ExecuteEntrypoint(programId, accounts, instruction.data, entrypoint);
      ghost var ran := RunEntrypoint(entrypoint, programId, accounts, instruction.data);
      AppendedTwice(old(sink.logs), load.logs, ran.logs);
      if run.Err? {
        return Err(run.error);
      }
      accountDataVec := WriteBackAll(accountDataVec, run.value);
      ghost var commit := CommitSpec(store, accountDataVec, minimumBalance);
      r := ProgramLocalStore(accountDataVec);
      AppendedTwice(old(sink.logs), load.logs + ran.logs, commit.logs);
    }

    /** `execute`: never fails; arms the sink, runs the pipeline, drains the
        sink into the response and turns an error into the response's
        error field. */
    method Execute(instruction: Instruction) returns (response: ExecutionResponse)
      requires Valid()
      modifies this, sink
      ensures Valid()
      ensures var e := ExecuteImplSpec(old(store), registry, minimumBalance, instruction);
        && store == e.store
        && response.logs == e.logs
        && response.error == (if e.result.Ok? then None else Some(e.result.error))
      ensures sink.logs == None
    {
      sink.Init();
      var result := ExecuteImpl(instruction);
      var logs := sink.Take();
      assert [] + ExecuteImplSpec(old(store), registry, minimumBalance, instruction).logs
        == ExecuteImplSpec(old(store), registry, minimumBalance, instruction).logs;
      match result {
        case Ok(_) => response := ExecutionResponse(None, logs);
        case Err(err) => response := ExecutionResponse(Some(err), logs);
      }
    }

    /** `execute_handler`: load, build the context views and call the
        handler. Nothing is committed. */
    method ExecuteHandler(instruction: Instruction, handler: SimulationHandler) returns (r: Result<(), Error>)
      modifies sink
      ensures unchanged(this)
      ensures var load := LoadSpec(store, instruction.programId, instruction.accounts);
        if load.result.Err? then
          r == Err(load.result.error) && sink.logs == Appended(old(sink.logs), load.logs)
        else
          var out := handler(instruction.programId, AccountInfos(load.result.value), instruction.data);
          && r == (if out.result.Ok? then Ok(()) else Err(ProgramError(out.result.error)))
          && sink.logs == Appended(old(sink.logs),
               load.logs + ProgramLines(out.logs) + (if out.result.Ok? then [] else [HandlerFailed(out.result.error)]))
    {
      var loaded := ProgramLocalLoad(instruction.programId, instruction.accounts);
      ghost var load := LoadSpec(store, instruction.programId, instruction.accounts);
      if loaded.Err? {
        return Err(loaded.error);
      }
      var accounts := AccountInfosOf(loaded.value);
      var out := handler(instruction.programId, accounts, instruction.data);
      sink.WriteEach(ProgramLines(out.logs));
      AppendedTwice(old(sink.logs), load.logs, ProgramLines(out.logs));
      if out.result.Err? {
        sink.Write(HandlerFailed(out.result.error));
        AppendedTwice(old(sink.logs), load.logs + ProgramLines(out.logs), [HandlerFailed(out.result.error)]);
        return Err(ProgramError(out.result.error));
      }
      assert load.logs + ProgramLines(out.logs) + [] == load.logs + ProgramLines(out.logs);
      return Ok(());
    }

    /** `fund`: move `lamports` from the system account to `key`. */
    method Fund(key: Pubkey, owner: Pubkey, lamports: u64) returns (r: Result<(), Error>)
      requires Valid()
      requires key != DefaultPubkey
      modifies this, sink
      ensures Valid()
      ensures var f := FundSpec(old(store), key, owner, lamports);
        r == f.result && store == f.store
      ensures sink.logs == if r.Ok? then Appended(old(sink.logs), [Funding(DefaultPubkey, key)]) else old(sink.logs)
    {
      var from := if DefaultPubkey in store then Some(store[DefaultPubkey]) else None;
      var to := if key in store then Some(store[key]) else None;
      if from.None? {
        return Err(LookupErrorSource);
      }
      var source := from.value;
      if source.lamports < lamports {
        return Err(InsufficientBalance);
      }
      var destination := if to.Some? then to.value else NewStatic(key, owner);
      source := source.(lamports := SaturatingSub(source.lamports, lamports));
      destination := destination.(lamports := SaturatingAdd(destination.lamports, lamports));
      store := store[source.key := source];
      store := store[destination.key := destination];
      sink.Write(Funding(source.key, destination.key));
      return Ok(());
    }
  }
}
