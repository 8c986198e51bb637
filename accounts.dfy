/** Account records and the per-instruction views of them: the stored
    `AccountData`, the instruction's account descriptors, and the
    `AccountInfo` view a program entrypoint receives. */
module Accounts {
  import opened Types

  /** One account record. `isSigner` and `isWritable` are per-invocation
      flags: they are stamped from the instruction when an account is
      loaded and cleared when it is prepared for storage. */
  datatype AccountData = AccountData(
    key: Pubkey,
    owner: Pubkey,
    data: seq<byte>,
    lamports: u64,
    isSigner: bool,
    isWritable: bool,
    containerType: Option<u32>)

  /** The durable store: address to record. */
  type Store = map<Pubkey, AccountData>

  /** Every stored record sits under its own address (`store.store` files a
      record under its `key`). */
  ghost predicate KeyedByAddress(store: Store) {
    forall k :: k in store ==> store[k].key == k
  }

  /** `AccountData::new_template_for_program(key, program_id, 0)`: an
      empty, unfunded record owned by the program. */
  function NewTemplateForProgram(key: Pubkey, programId: Pubkey): AccountData {
    AccountData(key, programId, [], 0, false, false, None)
  }

  /** `AccountData::new_static(key, owner)`: an empty, unfunded record. */
  function NewStatic(key: Pubkey, owner: Pubkey): AccountData {
    AccountData(key, owner, [], 0, false, false, None)
  }

  /** `AccountData::default()` with its balance set: the system account. */
  function SystemAccount(lamports: u64): AccountData {
    AccountData(DefaultPubkey, DefaultPubkey, [], lamports, false, false, None)
  }

  /** `clone_for_storage`: the persisted form of a record, without the
      per-invocation authorization flags. */
  function CloneForStorage(a: AccountData): AccountData {
    a.(isSigner := false, isWritable := false)
  }

  /** `AccountMeta`: one account descriptor of an instruction. */
  datatype AccountMeta = AccountMeta(pubkey: Pubkey, isSigner: bool, isWritable: bool)

  /** `solana_program::instruction::Instruction`. */
  datatype Instruction = Instruction(programId: Pubkey, accounts: seq<AccountMeta>, data: seq<byte>)

  /** The part of `AccountInfo` a program sees and may change: it may
      change `lamports`, `data` and `owner`, which alias the loaded record;
      `key` and the flags are copies. */
  datatype AccountInfo = AccountInfo(
    key: Pubkey,
    isSigner: bool,
    isWritable: bool,
    lamports: u64,
    data: seq<byte>,
    owner: Pubkey)

  /** `(&pubkey, &mut account_data).into_account_info()` with the signer
      and writable flags passed on from the record. */
  function IntoAccountInfo(key: Pubkey, a: AccountData): AccountInfo {
    AccountInfo(key, a.isSigner, a.isWritable, a.lamports, a.data, a.owner)
  }

  /** What a program's writes through an `AccountInfo` do to the record it
      was built from. */
  function WriteThrough(a: AccountData, info: AccountInfo): AccountData {
    a.(lamports := info.lamports, data := info.data, owner := info.owner)
  }
}
