/** Primitive types shared by the emulator and the reference collection:
    bytes, fixed-width unsigned integers, 32-byte public keys, Option and
    Result, the error codes of the core, and the little-endian index
    encoding used in derived-address seeds. */
module Types {

  type byte = x: int | 0 <= x < 0x100
  type u32 = x: int | 0 <= x < 0x1_0000_0000
  type u64 = x: int | 0 <= x < 0x1_0000_0000_0000_0000

  const U64_MAX: u64 := 0xFFFF_FFFF_FFFF_FFFF

  /** A 32-byte account address. */
  type Pubkey = s: seq<byte> | |s| == 32
    witness [0, 0, 0, 0, 0, 0, 0, 0, 0, 0, 0, 0, 0, 0, 0, 0, 0, 0, 0, 0, 0, 0, 0, 0, 0, 0, 0, 0, 0, 0, 0, 0]

  /** `Pubkey::default()`: the all-zero key, the address of the system account. */
  const DefaultPubkey: Pubkey :=
    [0, 0, 0, 0, 0, 0, 0, 0, 0, 0, 0, 0, 0, 0, 0, 0, 0, 0, 0, 0, 0, 0, 0, 0, 0, 0, 0, 0, 0, 0, 0, 0]

  datatype Option<T> = None | Some(value: T) {
    function GetOr(default: T): T {
      if Some? then value else default
    }
  }

  datatype Result<T, E> = Ok(value: T) | Err(error: E)

  /** The error codes raised by the emulator and the reference collection.
      `Foreign` stands for an error raised by a collaborator outside the
      model (address derivation, account allocation, a transport load). */
  datatype Error =
    | DuplicateAccount(key: Pubkey)
    | EntrypointNotFound(programId: Pubkey)
    | EntrypointError(message: string)
    | ProgramError(message: string)
    | NonMutableAccountChange
    | LookupErrorSource
    | InsufficientBalance
    | ContainerTypeMismatch
    | AccountCollectionNotFound
    | AccountReferenceCollectionProxyNotFound
    | Foreign(message: string)

  /** `u64::saturating_add`. */
  function SaturatingAdd(a: u64, b: u64): u64 {
    if a + b <= U64_MAX then a + b else U64_MAX
  }

  /** `u64::saturating_sub`. */
  function SaturatingSub(a: u64, b: u64): u64 {
    if a >= b then a - b else 0
  }

  function Pow256(n: nat): nat {
    if n == 0 then 1 else 256 * Pow256(n - 1)
  }

  /** The `n` low-order bytes of `x`, least significant first. */
  function LeBytes(x: nat, n: nat): (b: seq<byte>)
    ensures |b| == n
  {
    if n == 0 then [] else [x % 256] + LeBytes(x / 256, n - 1)
  }

  /** The number whose little-endian bytes are `b`. */
  function FromLeBytes(b: seq<byte>): nat {
    if |b| == 0 then 0 else b[0] + 256 * FromLeBytes(b[1..])
  }

  lemma {:induction false} LeBytesRoundTrip(x: nat, n: nat)
    requires x < Pow256(n)
    ensures FromLeBytes(LeBytes(x, n)) == x
  {
    if n > 0 {
      assert x / 256 < Pow256(n - 1);
      LeBytesRoundTrip(x / 256, n - 1);
      assert LeBytes(x, n)[1..] == LeBytes(x / 256, n - 1);
    }
  }

  /** `idx.to_le()` transmuted to `[u8; 8]`: eight bytes, least significant
      first, from which `idx` can be read back. */
  function Le64(idx: u64): (b: seq<byte>)
    ensures |b| == 8
    ensures FromLeBytes(b) == idx
  {
    assert Pow256(8) == 0x1_0000_0000_0000_0000;
    LeBytesRoundTrip(idx, 8);
    LeBytes(idx, 8)
  }
}
