/** The binary contract of the lending program as this program relies on it:
    eight-byte opcode tags, payloads of a tag optionally followed by a `u64`
    amount in little-endian order, and the refresh-reserve call that every
    context issues the same way. */
module Kamino {
  import opened Bytes
  import opened Cpi

  const REFRESH_RESERVE_DISCRIMINATOR: seq<byte> := [2, 218, 138, 235, 79, 201, 25, 102]
  const REFRESH_OBLIGATION_DISCRIMINATOR: seq<byte> := [33, 132, 147, 228, 151, 192, 72, 89]
  const DEPOSIT_RESERVE_LIQUIDITY_AND_OBLIGATION_COLLATERAL_V2_DISCRIMINATOR: seq<byte> := [216, 224, 191, 27, 204, 151, 102, 175]
  const BORROW_OBLIGATION_LIQUIDITY_V2_DISCRIMINATOR: seq<byte> := [161, 128, 143, 245, 171, 199, 194, 6]
  const WITHDRAW_OBLIGATION_COLLATERAL_AND_REDEEM_RESERVE_COLLATERAL_V2_DISCRIMINATOR: seq<byte> := [235, 52, 119, 152, 149, 197, 20, 7]
  const REPAY_OBLIGATION_LIQUIDITY_V2_DISCRIMINATOR: seq<byte> := [116, 174, 213, 76, 180, 53, 210, 144]
  const INIT_USER_METADATA_DISCRIMINATOR: seq<byte> := [117, 169, 176, 69, 197, 23, 15, 162]
  const INIT_OBLIGATION_DISCRIMINATOR: seq<byte> := [251, 10, 231, 76, 27, 11, 159, 96]
  const INIT_OBLIGATION_FARMS_FOR_RESERVE_DISCRIMINATOR: seq<byte> := [136, 63, 15, 186, 211, 152, 168, 164]

  /** `[opcode, &amount.to_le_bytes()].concat()`. */
  function OpcodeWithAmount(opcode: seq<byte>, amount: u64): (r: seq<byte>)
    requires |opcode| == 8
    ensures |r| == 16 && r[..8] == opcode
  {
    opcode + U64ToLeBytes(amount)
  }

  /** The amount an opcode-and-amount payload carries. */
  function AmountOf(data: seq<byte>): u64
    requires |data| == 16
  {
    U64FromLeBytes(data[8..])
  }

  /** The lending program reads back exactly the amount that was encoded. */
  lemma AmountRoundTrip(opcode: seq<byte>, amount: u64)
    requires |opcode| == 8
    ensures AmountOf(OpcodeWithAmount(opcode, amount)) == amount
  {
    var d := OpcodeWithAmount(opcode, amount);
    assert d[8..] == U64ToLeBytes(amount);
    U64RoundTrip(amount);
  }

  /** Every sixteen-byte payload is the encoding of its own tag and amount. */
  lemma PayloadRoundTrip(data: seq<byte>)
    requires |data| == 16
    ensures OpcodeWithAmount(data[..8], AmountOf(data)) == data
  {
    U64BytesRoundTrip(data[8..]);
    assert data == data[..8] + data[8..];
  }

  /** The refresh-reserve call: six slots (the reserve, writable; the market;
      the lending program itself in the three oracle slots left unused; the
      scope oracle), nothing but the opcode as data, and no signer seeds.
      The accounts handed along name each of the four distinct roles once. */
  function RefreshReserveCall(lendingProgram: Pubkey, reserve: Pubkey, market: Pubkey, scopeOracle: Pubkey)
    : (c: Invocation)
    ensures c.instruction.programId == lendingProgram
    ensures Keys(c.instruction.accounts) == [reserve, market, lendingProgram, lendingProgram, lendingProgram, scopeOracle]
    ensures forall i :: 0 <= i < 6 ==> (c.instruction.accounts[i].isWritable <==> i == 0)
    ensures NoSigner(c.instruction.accounts)
    ensures c.instruction.data == REFRESH_RESERVE_DISCRIMINATOR
    ensures c.signerSeeds == []
    ensures c.accountInfos == [reserve, market, lendingProgram, scopeOracle]
    ensures InfosCoverMetas(c)
  {
    var accounts := [
      Writable(reserve, false),
      Readonly(market, false),
      Readonly(lendingProgram, false),
      Readonly(lendingProgram, false),
      Readonly(lendingProgram, false),
      Readonly(scopeOracle, false)
    ];
    Invocation(
      Instruction(lendingProgram, accounts, REFRESH_RESERVE_DISCRIMINATOR),
      [reserve, market, lendingProgram, scopeOracle],
      [])
  }
}
