/** Program-wide constants: the bits of the caller's flags byte and the seed
    of the program-derived authority. The program ids and the authority's
    bump are opaque configuration: each context carries them as values. */
module Constant {
  import opened Bytes

  /** The obligation holds collateral: bit 0 of the flags byte. */
  const FLAG_HAS_COLLATERAL: bv8 := 1 << 0

  /** The obligation holds borrows: bit 1 of the flags byte. */
  const FLAG_HAS_BORROWS: bv8 := 1 << 1

  /** The literal seed `b"auth"` of the program-derived authority. */
  const AUTH_SEED: seq<byte> := [0x61, 0x75, 0x74, 0x68]

  /** The signer seeds every privileged call passes: one signer, whose
      seeds are `b"auth"` and the one-byte bump. */
  function AuthoritySignerSeeds(bump: byte): (r: seq<seq<seq<byte>>>)
    ensures |r| == 1 && |r[0]| == 2
    ensures r[0][0] == AUTH_SEED && r[0][1] == [bump]
  {
    [[AUTH_SEED, [bump]]]
  }
}
