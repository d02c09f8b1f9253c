/** One-time setup of the lending accounts the program's authority owns: its
    user metadata, its obligation, and the obligation's farm account for one
    reserve. Each handler builds a fixed call; nothing in the context
    changes, so the handlers take the accounts as a value. */
module InitializeIx {
  import opened Bytes
  import opened Cpi
  import opened Constant
  import opened Kamino

  /** The keys of the accounts the setup context names. */
  datatype InitializeAccounts = InitializeAccounts(
    payer: Pubkey,
    protocolAuthority: Pubkey,
    instructionSysvarAccount: Pubkey,
    rent: Pubkey,
    tokenProgram: Pubkey,
    systemProgram: Pubkey,
    userMetadata: Pubkey,
    obligation: Pubkey,
    lendingMarket: Pubkey,
    lendingMarketAuthority: Pubkey,
    reserve: Pubkey,
    obligationFarmState: Pubkey,
    reserveFarmState: Pubkey,
    kaminoLendingProgram: Pubkey,
    farmsProgram: Pubkey)

  /** The user-metadata call: six slots, the authority (read-only) and the
      payer (writable) the two signers, the metadata account writable; the
      opcode followed by the all-zero key as lookup table, forty bytes;
      signed with the authority's seeds. */
  function InitUserMetadataCall(a: InitializeAccounts, bump: byte): (c: Invocation)
    ensures c.instruction.programId == a.kaminoLendingProgram
    ensures |c.instruction.accounts| == 6
    ensures c.instruction.accounts[0] == AccountMeta(a.protocolAuthority, true, false)
    ensures c.instruction.accounts[1] == AccountMeta(a.payer, true, true)
    ensures c.instruction.accounts[2] == AccountMeta(a.userMetadata, false, true)
    ensures forall i :: 0 <= i < 6 ==> (c.instruction.accounts[i].isSigner <==> i < 2)
    ensures forall i :: 0 <= i < 6 ==> (c.instruction.accounts[i].isWritable <==> i in {1, 2})
    ensures |c.instruction.data| == 40
    ensures c.instruction.data[..8] == INIT_USER_METADATA_DISCRIMINATOR
    ensures c.instruction.data[8..] == DEFAULT_PUBKEY
    ensures forall i :: 8 <= i < 40 ==> c.instruction.data[i] == 0
    ensures c.signerSeeds == AuthoritySignerSeeds(bump)
    ensures c.accountInfos == Keys(c.instruction.accounts)
  {
    var accounts := [
      Readonly(a.protocolAuthority, true),
      Writable(a.payer, true),
      Writable(a.userMetadata, false),
      Readonly(a.kaminoLendingProgram, false),
      Readonly(a.rent, false),
      Readonly(a.systemProgram, false)
    ];
    var infos := [a.protocolAuthority, a.payer, a.userMetadata, a.kaminoLendingProgram, a.rent, a.systemProgram];
    var data := INIT_USER_METADATA_DISCRIMINATOR + DEFAULT_PUBKEY;
    assert data[8..] == DEFAULT_PUBKEY;
    Invocation(
      Instruction(a.kaminoLendingProgram, accounts, data),
      infos, AuthoritySignerSeeds(bump))
  }

  /** The obligation call: nine slots, the authority (read-only) and the
      payer (writable) the two signers, the obligation writable, the system
      program in both unused seed slots; the opcode followed by tag 0 and
      id 0, ten bytes; signed with the authority's seeds. */
  function InitObligationCall(a: InitializeAccounts, bump: byte): (c: Invocation)
    ensures c.instruction.programId == a.kaminoLendingProgram
    ensures |c.instruction.accounts| == 9
    ensures c.instruction.accounts[0] == AccountMeta(a.protocolAuthority, true, false)
    ensures c.instruction.accounts[1] == AccountMeta(a.payer, true, true)
    ensures c.instruction.accounts[2] == AccountMeta(a.obligation, false, true)
    ensures c.instruction.accounts[4] == AccountMeta(a.systemProgram, false, false)
    ensures c.instruction.accounts[5] == AccountMeta(a.systemProgram, false, false)
    ensures forall i :: 0 <= i < 9 ==> (c.instruction.accounts[i].isSigner <==> i < 2)
    ensures forall i :: 0 <= i < 9 ==> (c.instruction.accounts[i].isWritable <==> i in {1, 2})
    ensures c.instruction.data == INIT_OBLIGATION_DISCRIMINATOR + [0, 0]
    ensures |c.instruction.data| == 10
    ensures c.signerSeeds == AuthoritySignerSeeds(bump)
    ensures |c.accountInfos| == 7
    ensures InfosCoverMetas(c)
  {
    var accounts := [
      Readonly(a.protocolAuthority, true),
      Writable(a.payer, true),
      Writable(a.obligation, false),
      Readonly(a.lendingMarket, false),
      Readonly(a.systemProgram, false),
      Readonly(a.systemProgram, false),
      Readonly(a.userMetadata, false),
      Readonly(a.rent, false),
      Readonly(a.systemProgram, false)
    ];
    var infos := [a.protocolAuthority, a.payer, a.obligation, a.lendingMarket, a.userMetadata, a.rent, a.systemProgram];
    Invocation(
      Instruction(a.kaminoLendingProgram, accounts, INIT_OBLIGATION_DISCRIMINATOR + [0] + [0]),
      infos, AuthoritySignerSeeds(bump))
  }

  /** The obligation-farm call: eleven slots, the payer first, writable and
      the only signer, the authority named but not signing; the opcode
      followed by mode 0, nine bytes; sent without signer seeds. */
  function InitObligationFarmsCall(a: InitializeAccounts): (c: Invocation)
    ensures c.instruction.programId == a.kaminoLendingProgram
    ensures |c.instruction.accounts| == 11
    ensures SoleSignerAt(c.instruction.accounts, 0)
    ensures c.instruction.accounts[0] == AccountMeta(a.payer, true, true)
    ensures c.instruction.accounts[1] == AccountMeta(a.protocolAuthority, false, false)
    ensures c.instruction.accounts[6] == AccountMeta(a.obligationFarmState, false, true)
    ensures forall i :: 0 <= i < 11 ==> (c.instruction.accounts[i].isWritable <==> i in {0, 2, 4, 5, 6})
    ensures c.instruction.data == INIT_OBLIGATION_FARMS_FOR_RESERVE_DISCRIMINATOR + [0]
    ensures |c.instruction.data| == 9
    ensures c.signerSeeds == []
    ensures c.accountInfos == Keys(c.instruction.accounts)
  {
    var accounts := [
      Writable(a.payer, true),
      Readonly(a.protocolAuthority, false),
      Writable(a.obligation, false),
      Readonly(a.lendingMarketAuthority, false),
      Writable(a.reserve, false),
      Writable(a.reserveFarmState, false),
      Writable(a.obligationFarmState, false),
      Readonly(a.lendingMarket, false),
      Readonly(a.farmsProgram, false),
      Readonly(a.rent, false),
      Readonly(a.systemProgram, false)
    ];
    var infos := [
      a.payer, a.protocolAuthority, a.obligation, a.lendingMarketAuthority, a.reserve, a.reserveFarmState,
      a.obligationFarmState, a.lendingMarket, a.farmsProgram, a.rent, a.systemProgram
    ];
    Invocation(
      Instruction(a.kaminoLendingProgram, accounts, INIT_OBLIGATION_FARMS_FOR_RESERVE_DISCRIMINATOR + [0]),
      infos, [])
  }

  /** Setup asks for the payer's signature, which the transaction carries,
      and for the authority's only on the calls signed with its seeds; the
      farm call, sent without seeds, does not ask for the authority's. */
  lemma SignersAccountedForInSetup(a: InitializeAccounts, bump: byte)
    ensures var seeds := AuthoritySignerSeeds(bump);
            && SignersAccountedFor(InitUserMetadataCall(a, bump), a.payer, a.protocolAuthority, seeds)
            && SignersAccountedFor(InitObligationCall(a, bump), a.payer, a.protocolAuthority, seeds)
            && SignersAccountedFor(InitObligationFarmsCall(a), a.payer, a.protocolAuthority, seeds)
  {
  }

  method InitializeUserMetadata(a: InitializeAccounts, bump: byte, host: Host) returns (r: Result<()>)
    modifies host
    ensures host.trace == old(host.trace) + [InitUserMetadataCall(a, bump)]
    ensures r == host.Answer(InitUserMetadataCall(a, bump))
  {
    var c := InitUserMetadataCall(a, bump);
    r := host.InvokeSigned(c.instruction, c.accountInfos, AuthoritySignerSeeds(bump));
  }

  method InitializeObligation(a: InitializeAccounts, bump: byte, host: Host) returns (r: Result<()>)
    modifies host
    ensures host.trace == old(host.trace) + [InitObligationCall(a, bump)]
    ensures r == host.Answer(InitObligationCall(a, bump))
  {
    var c := InitObligationCall(a, bump);
    r := host.InvokeSigned(c.instruction, c.accountInfos, AuthoritySignerSeeds(bump));
  }

  method InitializeObligationFarmsForReserve(a: InitializeAccounts, host: Host) returns (r: Result<()>)
    modifies host
    ensures host.trace == old(host.trace) + [InitObligationFarmsCall(a)]
    ensures r == host.Answer(InitObligationFarmsCall(a))
  {
    var c := InitObligationFarmsCall(a);
    r := host.Invoke(c.instruction, c.accountInfos);
  }
}
