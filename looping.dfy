/** The leverage path: refresh, borrow against the collateral, swap the
    borrowed asset into the collateral asset through a caller-supplied
    shared-accounts route, and deposit back whatever the output vault then
    holds. Each handler issues (at most) one cross-program call. */
module LoopingIx {
  import opened Bytes
  import opened Cpi
  import opened Constant
  import opened Kamino
  import opened Jupiter

  /** The keys of the accounts the leverage context names. */
  datatype LoopingAccounts = LoopingAccounts(
    payer: Pubkey,
    protocolAuthority: Pubkey,
    inputMint: Pubkey,
    inputVault: Pubkey,
    outputMint: Pubkey,
    outputVault: Pubkey,
    instructionSysvarAccount: Pubkey,
    tokenProgram: Pubkey,
    userMetadata: Pubkey,
    obligation: Pubkey,
    lendingMarket: Pubkey,
    lendingMarketAuthority: Pubkey,
    reserveCollateral: Pubkey,
    reserveLiquiditySupply: Pubkey,
    reserveCollateralMint: Pubkey,
    reserveDestinationDepositCollateral: Pubkey,
    reserveBorrow: Pubkey,
    borrowReserveSourceLiquidity: Pubkey,
    borrowReserveLiquidityFeeReceiver: Pubkey,
    scopeOracle: Pubkey,
    obligationFarmState: Pubkey,
    reserveFarmState: Pubkey,
    kaminoLendingProgram: Pubkey,
    farmsProgram: Pubkey,
    eventAuthority: Pubkey,
    jupiterProgram: Pubkey)

  /** The refresh-obligation call: the market, the obligation and the
      collateral reserve always, then the borrow reserve exactly when the
      borrows bit is set; the collateral bit is never consulted. The accounts
      handed along are the same keys in the same order. */
  function RefreshObligationCall(a: LoopingAccounts, flags: bv8): (c: Invocation)
    ensures c.instruction.programId == a.kaminoLendingProgram
    ensures |c.instruction.accounts| == (if flags & FLAG_HAS_BORROWS != 0 then 4 else 3)
    ensures Keys(c.instruction.accounts)[..3] == [a.lendingMarket, a.obligation, a.reserveCollateral]
    ensures flags & FLAG_HAS_BORROWS != 0 ==> c.instruction.accounts[3].pubkey == a.reserveBorrow
    ensures forall i :: 0 <= i < |c.instruction.accounts| ==> (c.instruction.accounts[i].isWritable <==> i != 0)
    ensures NoSigner(c.instruction.accounts)
    ensures c.accountInfos == Keys(c.instruction.accounts)
    ensures c.instruction.data == REFRESH_OBLIGATION_DISCRIMINATOR
    ensures c.signerSeeds == []
  {
    var reserves := [Writable(a.reserveCollateral, false)]
                    + (if flags & FLAG_HAS_BORROWS != 0 then [Writable(a.reserveBorrow, false)] else []);
    var accounts := [Readonly(a.lendingMarket, false), Writable(a.obligation, false)] + reserves;
    Invocation(Instruction(a.kaminoLendingProgram, accounts, REFRESH_OBLIGATION_DISCRIMINATOR),
               Keys(accounts), [])
  }

  /** Only the borrows bit of the flags byte shapes the refresh. */
  lemma RefreshObligationOnlyBorrowsBit(a: LoopingAccounts, f: bv8, g: bv8)
    requires f & FLAG_HAS_BORROWS == g & FLAG_HAS_BORROWS
    ensures RefreshObligationCall(a, f) == RefreshObligationCall(a, g)
  {
  }

  /** In particular, setting or clearing the collateral bit changes nothing. */
  lemma RefreshObligationIgnoresCollateralBit(a: LoopingAccounts, flags: bv8)
    ensures RefreshObligationCall(a, flags) == RefreshObligationCall(a, flags ^ FLAG_HAS_COLLATERAL)
  {
    assert flags & FLAG_HAS_BORROWS == (flags ^ FLAG_HAS_COLLATERAL) & FLAG_HAS_BORROWS;
    RefreshObligationOnlyBorrowsBit(a, flags, flags ^ FLAG_HAS_COLLATERAL);
  }

  /** The borrow call: fifteen slots with the authority first, writable and
      the only signer, the input vault receiving the borrowed liquidity, and
      the borrow opcode followed by the amount; signed with the authority's
      seeds. */
  function BorrowCall(a: LoopingAccounts, bump: byte, amount: u64): (c: Invocation)
    ensures c.instruction.programId == a.kaminoLendingProgram
    ensures |c.instruction.accounts| == 15
    ensures SoleSignerAt(c.instruction.accounts, 0)
    ensures c.instruction.accounts[0] == AccountMeta(a.protocolAuthority, true, true)
    ensures c.instruction.accounts[4] == AccountMeta(a.reserveBorrow, false, true)
    ensures c.instruction.accounts[8] == AccountMeta(a.inputVault, false, true)
    ensures |c.instruction.data| == 16
    ensures c.instruction.data[..8] == BORROW_OBLIGATION_LIQUIDITY_V2_DISCRIMINATOR
    ensures AmountOf(c.instruction.data) == amount
    ensures c.signerSeeds == AuthoritySignerSeeds(bump)
    ensures InfosCoverMetas(c)
  {
    AmountRoundTrip(BORROW_OBLIGATION_LIQUIDITY_V2_DISCRIMINATOR, amount);
    var accounts := [
      Writable(a.protocolAuthority, true),
      Writable(a.obligation, false),
      Readonly(a.lendingMarket, false),
      Readonly(a.lendingMarketAuthority, false),
      Writable(a.reserveBorrow, false),
      Readonly(a.inputMint, false),
      Writable(a.borrowReserveSourceLiquidity, false),
      Writable(a.borrowReserveLiquidityFeeReceiver, false),
      Writable(a.inputVault, false),
      Readonly(a.kaminoLendingProgram, false),
      Readonly(a.tokenProgram, false),
      Readonly(a.instructionSysvarAccount, false),
      Readonly(a.kaminoLendingProgram, false),
      Readonly(a.kaminoLendingProgram, false),
      Readonly(a.farmsProgram, false)
    ];
    var infos := [
      a.protocolAuthority, a.obligation, a.lendingMarket, a.lendingMarketAuthority, a.reserveBorrow,
      a.inputMint, a.borrowReserveSourceLiquidity, a.borrowReserveLiquidityFeeReceiver, a.inputVault,
      a.kaminoLendingProgram, a.tokenProgram, a.instructionSysvarAccount, a.kaminoLendingProgram,
      a.farmsProgram
    ];
    Invocation(
      Instruction(a.kaminoLendingProgram, accounts,
                  OpcodeWithAmount(BORROW_OBLIGATION_LIQUIDITY_V2_DISCRIMINATOR, amount)),
      infos, AuthoritySignerSeeds(bump))
  }

  /** The checks `swap_collateral` makes before it builds anything, in the
      order it makes them: the payload must hold the tail (shorter ones
      underflow the offset arithmetic), the tag must be the shared-accounts
      route tag, the tail amount must equal `amount`, the tail slippage must
      be 50, and three caller accounts must be present to be indexed. */
  function CheckSwapCollateral(data: seq<byte>, amount: u64, remainingCount: nat): (r: Result<()>)
    ensures |data| < TAIL_LEN ==> r == Err(Panic)
    ensures |data| >= TAIL_LEN && !StartsWith(data, SHARED_ACCOUNTS_ROUTE_DISCRIMINATOR) ==>
              r == Err(InvalidInstructionData)
    ensures StartsWith(data, SHARED_ACCOUNTS_ROUTE_DISCRIMINATOR) && |data| >= TAIL_LEN
            && (TailAmount(data) != amount || TailSlippage(data) != SLIPPAGE_BPS) ==>
              r == Err(RequireEqViolated)
    ensures r.Ok? <==>
              |data| >= TAIL_LEN && StartsWith(data, SHARED_ACCOUNTS_ROUTE_DISCRIMINATOR)
              && TailAmount(data) == amount && TailSlippage(data) == SLIPPAGE_BPS && remainingCount >= 3
    ensures r.Err? && r.error == Panic ==> |data| < TAIL_LEN || remainingCount < 3
  {
    if |data| < TAIL_LEN then Err(Panic)
    else if !StartsWith(data, SHARED_ACCOUNTS_ROUTE_DISCRIMINATOR) then Err(InvalidInstructionData)
    else if TailAmount(data) != amount then Err(RequireEqViolated)
    else if TailSlippage(data) != SLIPPAGE_BPS then Err(RequireEqViolated)
    else if remainingCount < 3 then Err(Panic)
    else Ok(())
  }

  /** A well-formed shared-accounts route payload that quotes `quoted` with
      slippage `bps` is accepted exactly when it quotes the expected amount
      at 50 and three caller accounts are present. */
  lemma {:induction false} SharedRoutePayloadVerdict(route: seq<byte>, quoted: u64, otherAmount: seq<byte>,
                                                     bps: u16, last: byte, amount: u64, remainingCount: nat)
    requires |otherAmount| == 8
    ensures var p := SwapPayload(SHARED_ACCOUNTS_ROUTE_DISCRIMINATOR, route, quoted, otherAmount, bps, last);
            CheckSwapCollateral(p, amount, remainingCount) ==
              if quoted != amount || bps != SLIPPAGE_BPS then Err(RequireEqViolated)
              else if remainingCount < 3 then Err(Panic)
              else Ok(())
  {
    SwapPayloadFields(SHARED_ACCOUNTS_ROUTE_DISCRIMINATOR, route, quoted, otherAmount, bps, last);
  }

  /** A payload under any other tag is rejected as malformed, whatever its tail says. */
  lemma OtherTagRejected(data: seq<byte>, amount: u64, remainingCount: nat)
    requires |data| >= TAIL_LEN && !StartsWith(data, SHARED_ACCOUNTS_ROUTE_DISCRIMINATOR)
    ensures CheckSwapCollateral(data, amount, remainingCount) == Err(InvalidInstructionData)
  {
  }

  /** The swap call: the caller's payload forwarded unchanged along the
      shared-accounts route from the input vault to the output vault,
      signed with the authority's seeds. */
  function SwapCollateralCall(a: LoopingAccounts, bump: byte, data: seq<byte>, remaining: seq<AccountInfo>)
    : (c: Invocation)
    requires |remaining| >= 3
    ensures c.instruction.programId == a.jupiterProgram
    ensures c.instruction.data == data
    ensures c.signerSeeds == AuthoritySignerSeeds(bump)
    ensures |c.instruction.accounts| == 13 + (|remaining| - 3)
    ensures c.instruction.accounts[..13] == SharedAccountsFixedMetas(
              a.tokenProgram, remaining[0].key, a.protocolAuthority, a.inputVault, remaining[1].key,
              remaining[2].key, a.outputVault, a.inputMint, a.outputMint, a.eventAuthority, a.jupiterProgram)
    ensures c.instruction.accounts[1] == AccountMeta(remaining[0].key, false, false)
    ensures c.instruction.accounts[4] == AccountMeta(remaining[1].key, false, true)
    ensures c.instruction.accounts[5] == AccountMeta(remaining[2].key, false, true)
    ensures SoleSignerAt(c.instruction.accounts, 2)
    ensures c.instruction.accounts[2].pubkey == a.protocolAuthority
    ensures c.instruction.accounts[3] == AccountMeta(a.inputVault, false, true)
    ensures c.instruction.accounts[6] == AccountMeta(a.outputVault, false, true)
    ensures c.instruction.accounts[13..] == PassThroughMetas(remaining[3..])
    ensures InfosCoverMetas(c)
  {
    var c := SharedAccountsRouteCall(a.tokenProgram, a.protocolAuthority, a.inputVault, a.outputVault,
                                     a.inputMint, a.outputMint, a.eventAuthority, a.jupiterProgram,
                                     data, remaining, AuthoritySignerSeeds(bump));
    assert c.instruction.accounts[..13] == SharedAccountsFixedMetas(
      a.tokenProgram, remaining[0].key, a.protocolAuthority, a.inputVault, remaining[1].key,
      remaining[2].key, a.outputVault, a.inputMint, a.outputMint, a.eventAuthority, a.jupiterProgram);
    c
  }

  /** The deposit call: seventeen slots with the authority first and the
      only signer, the output vault as the source of the liquidity, both
      farm-state slots writable, and the deposit opcode followed by
      `balance`; signed with the authority's seeds. */
  function DepositCall(a: LoopingAccounts, bump: byte, balance: u64): (c: Invocation)
    ensures c.instruction.programId == a.kaminoLendingProgram
    ensures |c.instruction.accounts| == 17
    ensures SoleSignerAt(c.instruction.accounts, 0)
    ensures c.instruction.accounts[0] == AccountMeta(a.protocolAuthority, true, true)
    ensures c.instruction.accounts[5] == AccountMeta(a.outputMint, false, false)
    ensures c.instruction.accounts[9] == AccountMeta(a.outputVault, false, true)
    ensures c.instruction.accounts[14] == AccountMeta(a.obligationFarmState, false, true)
    ensures c.instruction.accounts[15] == AccountMeta(a.reserveFarmState, false, true)
    ensures |c.instruction.data| == 16
    ensures c.instruction.data[..8] == DEPOSIT_RESERVE_LIQUIDITY_AND_OBLIGATION_COLLATERAL_V2_DISCRIMINATOR
    ensures AmountOf(c.instruction.data) == balance
    ensures c.signerSeeds == AuthoritySignerSeeds(bump)
    ensures InfosCoverMetas(c)
  {
    AmountRoundTrip(DEPOSIT_RESERVE_LIQUIDITY_AND_OBLIGATION_COLLATERAL_V2_DISCRIMINATOR, balance);
    var accounts := [
      Writable(a.protocolAuthority, true),
      Writable(a.obligation, false),
      Readonly(a.lendingMarket, false),
      Readonly(a.lendingMarketAuthority, false),
      Writable(a.reserveCollateral, false),
      Readonly(a.outputMint, false),
      Writable(a.reserveLiquiditySupply, false),
      Writable(a.reserveCollateralMint, false),
      Writable(a.reserveDestinationDepositCollateral, false),
      Writable(a.outputVault, false),
      Readonly(a.kaminoLendingProgram, false),
      Readonly(a.tokenProgram, false),
      Readonly(a.tokenProgram, false),
      Readonly(a.instructionSysvarAccount, false),
      Writable(a.obligationFarmState, false),
      Writable(a.reserveFarmState, false),
      Readonly(a.farmsProgram, false)
    ];
    var infos := [
      a.protocolAuthority, a.obligation, a.lendingMarket, a.lendingMarketAuthority, a.reserveCollateral,
      a.outputMint, a.reserveLiquiditySupply, a.reserveCollateralMint, a.reserveDestinationDepositCollateral,
      a.outputVault, a.kaminoLendingProgram, a.tokenProgram, a.tokenProgram, a.instructionSysvarAccount,
      a.obligationFarmState, a.reserveFarmState, a.farmsProgram
    ];
    Invocation(
      Instruction(a.kaminoLendingProgram, accounts,
                  OpcodeWithAmount(DEPOSIT_RESERVE_LIQUIDITY_AND_OBLIGATION_COLLATERAL_V2_DISCRIMINATOR, balance)),
      infos, AuthoritySignerSeeds(bump))
  }

  /** Deposit calls for different balances differ: the payload determines the balance. */
  lemma DepositCallInjective(a: LoopingAccounts, bump: byte, b1: u64, b2: u64)
    requires DepositCall(a, bump, b1).instruction.data == DepositCall(a, bump, b2).instruction.data
    ensures b1 == b2
  {
  }

  /** No call of the leverage path asks for a signature but the
      authority's, and only on calls signed with the authority's seeds: a
      caller-supplied account is never presented as a signer. */
  lemma SignersAreAuthorityOnly(a: LoopingAccounts, bump: byte, flags: bv8, amount: u64, balance: u64,
                                data: seq<byte>, remaining: seq<AccountInfo>)
    requires |remaining| >= 3
    ensures var seeds := AuthoritySignerSeeds(bump);
            && OnlyAuthoritySigns(RefreshReserveCall(a.kaminoLendingProgram, a.reserveCollateral, a.lendingMarket,
                                                     a.scopeOracle), a.protocolAuthority, seeds)
            && OnlyAuthoritySigns(RefreshReserveCall(a.kaminoLendingProgram, a.reserveBorrow, a.lendingMarket,
                                                     a.scopeOracle), a.protocolAuthority, seeds)
            && OnlyAuthoritySigns(RefreshObligationCall(a, flags), a.protocolAuthority, seeds)
            && OnlyAuthoritySigns(BorrowCall(a, bump, amount), a.protocolAuthority, seeds)
            && OnlyAuthoritySigns(SwapCollateralCall(a, bump, data, remaining), a.protocolAuthority, seeds)
            && OnlyAuthoritySigns(DepositCall(a, bump, balance), a.protocolAuthority, seeds)
  {
  }

  /** The leverage context. Its account keys do not change; the output
      vault's balance is re-read by `Deposit`; every call goes to `host`. */
  class Looping {
    const accounts: LoopingAccounts
    const authorityBump: byte
    const host: Host
    var outputVaultAmount: u64

    constructor (accounts: LoopingAccounts, authorityBump: byte, host: Host, outputVaultAmount: u64)
      ensures this.accounts == accounts && this.authorityBump == authorityBump && this.host == host
      ensures this.outputVaultAmount == outputVaultAmount
    {
      this.accounts := accounts;
      this.authorityBump := authorityBump;
      this.host := host;
      this.outputVaultAmount := outputVaultAmount;
    }

    method RefreshReserveCollateral() returns (r: Result<()>)
      modifies host
      ensures var c := RefreshReserveCall(accounts.kaminoLendingProgram, accounts.reserveCollateral,
                                          accounts.lendingMarket, accounts.scopeOracle);
              host.trace == old(host.trace) + [c] && r == host.Answer(c)
    {
      var c := RefreshReserveCall(accounts.kaminoLendingProgram, accounts.reserveCollateral,
                                  accounts.lendingMarket, accounts.scopeOracle);
      r := host.Invoke(c.instruction, c.accountInfos);
    }

    method RefreshReserveBorrow() returns (r: Result<()>)
      modifies host
      ensures var c := RefreshReserveCall(accounts.kaminoLendingProgram, accounts.reserveBorrow,
                                          accounts.lendingMarket, accounts.scopeOracle);
              host.trace == old(host.trace) + [c] && r == host.Answer(c)
    {
      var c := RefreshReserveCall(accounts.kaminoLendingProgram, accounts.reserveBorrow,
                                  accounts.lendingMarket, accounts.scopeOracle);
      r := host.Invoke(c.instruction, c.accountInfos);
    }

    /** Builds both lists by pushes, the borrow reserve only when the borrows bit is set. */
    method RefreshObligation(flags: bv8) returns (r: Result<()>)
      modifies host
      ensures host.trace == old(host.trace) + [RefreshObligationCall(accounts, flags)]
      ensures r == host.Answer(RefreshObligationCall(accounts, flags))
    {
      var a := accounts;
      var metas := [Readonly(a.lendingMarket, false), Writable(a.obligation, false)];
      metas := metas + [Writable(a.reserveCollateral, false)];
      if flags & FLAG_HAS_BORROWS != 0 {
        metas := metas + [Writable(a.reserveBorrow, false)];
      }
      var infos := [a.lendingMarket, a.obligation];
      infos := infos + [a.reserveCollateral];
      if flags & FLAG_HAS_BORROWS != 0 {
        infos := infos + [a.reserveBorrow];
      }
      var ix := Instruction(a.kaminoLendingProgram, metas, REFRESH_OBLIGATION_DISCRIMINATOR);
      assert Invocation(ix, infos, []) == RefreshObligationCall(a, flags);
      r := host.Invoke(ix, infos);
    }

    method BorrowFromCollateral(amount: u64) returns (r: Result<()>)
      modifies host
      ensures host.trace == old(host.trace) + [BorrowCall(accounts, authorityBump, amount)]
      ensures r == host.Answer(BorrowCall(accounts, authorityBump, amount))
    {
      var c := BorrowCall(accounts, authorityBump, amount);
      r := host.InvokeSigned(c.instruction, c.accountInfos, AuthoritySignerSeeds(authorityBump));
    }

    /** Validates the caller's route payload and forwards it. A rejected
        payload issues no call; an accepted one issues exactly one. */
    method SwapCollateral(swapData: seq<byte>, amount: u64, remaining: seq<AccountInfo>)
      returns (r: Result<()>)
      modifies host
      ensures match CheckSwapCollateral(swapData, amount, |remaining|)
              case Err(e) => r == Err(e) && host.trace == old(host.trace)
              case Ok(_) =>
                var c := SwapCollateralCall(accounts, authorityBump, swapData, remaining);
                host.trace == old(host.trace) + [c] && r == host.Answer(c)
    {
      var a := accounts;
      var len := |swapData|;
      if len < 2 + 1 {
        return Err(Panic);
      }
      var bpsOffset := len - 2 - 1;
      if bpsOffset < 8 + 8 {
        return Err(Panic);
      }
      var amountOffset := bpsOffset - 8 - 8;
      if swapData[0..8] != SHARED_ACCOUNTS_ROUTE_DISCRIMINATOR {
        return Err(InvalidInstructionData);
      }
      if amount != U64FromLeBytes(swapData[amountOffset .. amountOffset + 8]) {
        return Err(RequireEqViolated);
      }
      if 50 != U16FromLeBytes(swapData[bpsOffset .. bpsOffset + 2]) {
        return Err(RequireEqViolated);
      }
      var seeds := AuthoritySignerSeeds(authorityBump);
      if |remaining| < 3 {
        return Err(Panic);
      }
      var infos := [a.tokenProgram, remaining[0].key, a.protocolAuthority, a.inputVault, remaining[1].key,
                    remaining[2].key, a.outputVault, a.inputMint, a.outputMint, a.eventAuthority,
                    a.jupiterProgram];
      infos := ExtendInfos(infos, remaining);
      var metas := SharedAccountsFixedMetas(a.tokenProgram, remaining[0].key, a.protocolAuthority, a.inputVault,
                                            remaining[1].key, remaining[2].key, a.outputVault, a.inputMint,
                                            a.outputMint, a.eventAuthority, a.jupiterProgram);
      metas := ExtendMetas(metas, remaining[3..]);
      var ix := Instruction(a.jupiterProgram, metas, swapData);
      r := host.InvokeSigned(ix, infos, seeds);
    }

    /** Re-reads the output vault, then deposits exactly the balance read. */
    method Deposit(reloaded: Option<u64>) returns (r: Result<()>)
      modifies this, host
      ensures reloaded.None? ==>
                r == Err(ReloadFailed) && host.trace == old(host.trace)
                && outputVaultAmount == old(outputVaultAmount)
      ensures reloaded.Some? ==>
                outputVaultAmount == reloaded.value
                && host.trace == old(host.trace) + [DepositCall(accounts, authorityBump, reloaded.value)]
                && r == host.Answer(DepositCall(accounts, authorityBump, reloaded.value))
      ensures reloaded.Some? ==> AmountOf(host.trace[|host.trace| - 1].instruction.data) == outputVaultAmount
    {
      var template := DepositCall(accounts, authorityBump, 0);
      match reloaded {
        case None =>
          return Err(ReloadFailed);
        case Some(balance) =>
          outputVaultAmount := balance;
      }
      var c := DepositCall(accounts, authorityBump, outputVaultAmount);
      assert c.instruction.accounts == template.instruction.accounts;
      var ix := Instruction(accounts.kaminoLendingProgram, template.instruction.accounts,
                            OpcodeWithAmount(DEPOSIT_RESERVE_LIQUIDITY_AND_OBLIGATION_COLLATERAL_V2_DISCRIMINATOR,
                                             outputVaultAmount));
      r := host.InvokeSigned(ix, template.accountInfos, AuthoritySignerSeeds(authorityBump));
    }
  }
}
