/** The unwind path: refresh, withdraw collateral, swap it into the debt
    asset through a caller-supplied route payload, and repay the debt in full.
    Each handler issues (at most) one cross-program call. */
module RepayIx {
  import opened Bytes
  import opened Cpi
  import opened Constant
  import opened Kamino
  import opened Jupiter

  /** The keys of the accounts the unwind context names. */
  datatype RepayAccounts = RepayAccounts(
    payer: Pubkey,
    protocolAuthority: Pubkey,
    inputMint: Pubkey,
    inputVault: Pubkey,
    outputMint: Pubkey,
    outputVault: Pubkey,
    instructionSysvarAccount: Pubkey,
    tokenProgram: Pubkey,
    userMetadata: Pubkey,
    obligation: Pubkey,
    lendingMarket: Pubkey,
    lendingMarketAuthority: Pubkey,
    reserveCollateral: Pubkey,
    reserveLiquiditySupply: Pubkey,
    reserveCollateralMint: Pubkey,
    reserveSourceCollateral: Pubkey,
    reserveBorrow: Pubkey,
    borrowReserveDestinationLiquidity: Pubkey,
    scopeOracle: Pubkey,
    obligationFarmState: Pubkey,
    reserveFarmState: Pubkey,
    kaminoLendingProgram: Pubkey,
    farmsProgram: Pubkey,
    eventAuthority: Pubkey,
    jupiterProgram: Pubkey)

  /** The refresh-obligation call: always the market, the obligation and both
      reserves, in that order; the accounts handed along are the same keys in
      the same order. */
  function RefreshObligationCall(a: RepayAccounts): (c: Invocation)
    ensures c.instruction.programId == a.kaminoLendingProgram
    ensures Keys(c.instruction.accounts) == [a.lendingMarket, a.obligation, a.reserveCollateral, a.reserveBorrow]
    ensures forall i :: 0 <= i < 4 ==> (c.instruction.accounts[i].isWritable <==> i != 0)
    ensures NoSigner(c.instruction.accounts)
    ensures c.accountInfos == Keys(c.instruction.accounts)
    ensures c.instruction.data == REFRESH_OBLIGATION_DISCRIMINATOR
    ensures c.signerSeeds == []
  {
    var accounts := [Readonly(a.lendingMarket, false), Writable(a.obligation, false),
                     Writable(a.reserveCollateral, false), Writable(a.reserveBorrow, false)];
    Invocation(Instruction(a.kaminoLendingProgram, accounts, REFRESH_OBLIGATION_DISCRIMINATOR),
               [a.lendingMarket, a.obligation, a.reserveCollateral, a.reserveBorrow], [])
  }

  /** The withdraw-collateral call: seventeen slots with the authority first
      and the only signer, the input vault receiving the liquidity, and the
      withdraw opcode followed by the amount; signed with the authority's seeds. */
  function WithdrawCollateralCall(a: RepayAccounts, bump: byte, amount: u64): (c: Invocation)
    ensures c.instruction.programId == a.kaminoLendingProgram
    ensures |c.instruction.accounts| == 17
    ensures SoleSignerAt(c.instruction.accounts, 0)
    ensures c.instruction.accounts[0] == AccountMeta(a.protocolAuthority, true, true)
    ensures c.instruction.accounts[9] == AccountMeta(a.inputVault, false, true)
    ensures |c.instruction.data| == 16
    ensures c.instruction.data[..8] == WITHDRAW_OBLIGATION_COLLATERAL_AND_REDEEM_RESERVE_COLLATERAL_V2_DISCRIMINATOR
    ensures AmountOf(c.instruction.data) == amount
    ensures c.signerSeeds == AuthoritySignerSeeds(bump)
    ensures InfosCoverMetas(c)
  {
    AmountRoundTrip(WITHDRAW_OBLIGATION_COLLATERAL_AND_REDEEM_RESERVE_COLLATERAL_V2_DISCRIMINATOR, amount);
    var accounts := [
      Writable(a.protocolAuthority, true),
      Writable(a.obligation, false),
      Readonly(a.lendingMarket, false),
      Readonly(a.lendingMarketAuthority, false),
      Writable(a.reserveCollateral, false),
      Readonly(a.inputMint, false),
      Writable(a.reserveSourceCollateral, false),
      Writable(a.reserveCollateralMint, false),
      Writable(a.reserveLiquiditySupply, false),
      Writable(a.inputVault, false),
      Readonly(a.kaminoLendingProgram, false),
      Readonly(a.tokenProgram, false),
      Readonly(a.tokenProgram, false),
      Readonly(a.instructionSysvarAccount, false),
      Writable(a.obligationFarmState, false),
      Writable(a.reserveFarmState, false),
      Readonly(a.farmsProgram, false)
    ];
    var infos := [
      a.protocolAuthority, a.obligation, a.lendingMarket, a.lendingMarketAuthority, a.reserveCollateral,
      a.inputMint, a.reserveSourceCollateral, a.reserveCollateralMint, a.reserveLiquiditySupply,
      a.inputVault, a.kaminoLendingProgram, a.tokenProgram, a.instructionSysvarAccount,
      a.obligationFarmState, a.reserveFarmState, a.farmsProgram
    ];
    Invocation(
      Instruction(a.kaminoLendingProgram, accounts,
                  OpcodeWithAmount(WITHDRAW_OBLIGATION_COLLATERAL_AND_REDEEM_RESERVE_COLLATERAL_V2_DISCRIMINATOR, amount)),
      infos, AuthoritySignerSeeds(bump))
  }

  /** The two route shapes the unwind swap accepts. */
  datatype Route = ExactOut | SharedAccountsExactOut

  /** The checks `swap_for_collateral` makes before it builds anything, in
      the order it makes them: the payload must hold the tail (shorter ones
      underflow the offset arithmetic), the tail amount must equal `amount`,
      the tail slippage must be 50, and only then is the tag matched; the
      shared-accounts shape indexes the caller's first three accounts. */
  function CheckSwapForCollateral(data: seq<byte>, amount: u64, remainingCount: nat): (r: Result<Route>)
    ensures |data| < TAIL_LEN ==> r == Err(Panic)
    ensures |data| >= TAIL_LEN && TailAmount(data) != amount ==> r == Err(RequireEqViolated)
    ensures |data| >= TAIL_LEN && TailSlippage(data) != SLIPPAGE_BPS ==> r == Err(RequireEqViolated)
    ensures (|data| >= TAIL_LEN && !StartsWith(data, EXACT_OUT_ROUTE_DISCRIMINATOR)
             && !StartsWith(data, SHARED_ACCOUNTS_EXACT_OUT_ROUTE_DISCRIMINATOR)) ==> r.Err?
    ensures r == Ok(ExactOut) <==>
              |data| >= TAIL_LEN && TailAmount(data) == amount && TailSlippage(data) == SLIPPAGE_BPS
              && StartsWith(data, EXACT_OUT_ROUTE_DISCRIMINATOR)
    ensures r == Ok(SharedAccountsExactOut) <==>
              |data| >= TAIL_LEN && TailAmount(data) == amount && TailSlippage(data) == SLIPPAGE_BPS
              && StartsWith(data, SHARED_ACCOUNTS_EXACT_OUT_ROUTE_DISCRIMINATOR) && remainingCount >= 3
  {
    if |data| < TAIL_LEN then Err(Panic)
    else if TailAmount(data) != amount then Err(RequireEqViolated)
    else if TailSlippage(data) != SLIPPAGE_BPS then Err(RequireEqViolated)
    else if StartsWith(data, EXACT_OUT_ROUTE_DISCRIMINATOR) then Ok(ExactOut)
    else if StartsWith(data, SHARED_ACCOUNTS_EXACT_OUT_ROUTE_DISCRIMINATOR) then
      if remainingCount < 3 then Err(Panic) else Ok(SharedAccountsExactOut)
    else Err(InvalidInstructionData)
  }

  /** A payload whose tail holds the expected amount and the accepted
      slippage but whose tag is neither exact-out tag is malformed input. */
  lemma UnknownTagRejected(data: seq<byte>, amount: u64, remainingCount: nat)
    requires |data| >= TAIL_LEN && TailAmount(data) == amount && TailSlippage(data) == SLIPPAGE_BPS
    requires !StartsWith(data, EXACT_OUT_ROUTE_DISCRIMINATOR)
    requires !StartsWith(data, SHARED_ACCOUNTS_EXACT_OUT_ROUTE_DISCRIMINATOR)
    ensures CheckSwapForCollateral(data, amount, remainingCount) == Err(InvalidInstructionData)
  {
  }

  /** A well-formed exact-out payload that quotes `quoted` with slippage
      `bps` is accepted exactly when it quotes the expected amount at 50. */
  lemma {:induction false} ExactOutPayloadVerdict(route: seq<byte>, quoted: u64, otherAmount: seq<byte>,
                                                  bps: u16, last: byte, amount: u64, remainingCount: nat)
    requires |otherAmount| == 8
    ensures var p := SwapPayload(EXACT_OUT_ROUTE_DISCRIMINATOR, route, quoted, otherAmount, bps, last);
            CheckSwapForCollateral(p, amount, remainingCount) ==
              if quoted != amount || bps != SLIPPAGE_BPS then Err(RequireEqViolated) else Ok(ExactOut)
  {
    SwapPayloadFields(EXACT_OUT_ROUTE_DISCRIMINATOR, route, quoted, otherAmount, bps, last);
  }

  /** The same for the shared-accounts exact-out shape, which also needs
      three caller accounts. */
  lemma {:induction false} SharedExactOutPayloadVerdict(route: seq<byte>, quoted: u64, otherAmount: seq<byte>,
                                                        bps: u16, last: byte, amount: u64, remainingCount: nat)
    requires |otherAmount| == 8
    ensures var p := SwapPayload(SHARED_ACCOUNTS_EXACT_OUT_ROUTE_DISCRIMINATOR, route, quoted, otherAmount, bps, last);
            CheckSwapForCollateral(p, amount, remainingCount) ==
              if quoted != amount || bps != SLIPPAGE_BPS then Err(RequireEqViolated)
              else if remainingCount < 3 then Err(Panic)
              else Ok(SharedAccountsExactOut)
  {
    var p := SwapPayload(SHARED_ACCOUNTS_EXACT_OUT_ROUTE_DISCRIMINATOR, route, quoted, otherAmount, bps, last);
    SwapPayloadFields(SHARED_ACCOUNTS_EXACT_OUT_ROUTE_DISCRIMINATOR, route, quoted, otherAmount, bps, last);
    assert p[..8] == SHARED_ACCOUNTS_EXACT_OUT_ROUTE_DISCRIMINATOR;
    assert p[..8] != EXACT_OUT_ROUTE_DISCRIMINATOR;
  }

  /** The eleven fixed slots of the exact-out route. */
  function ExactOutFixedMetas(a: RepayAccounts): (r: seq<AccountMeta>)
    ensures |r| == 11
    ensures SoleSignerAt(r, 1) && r[1] == AccountMeta(a.protocolAuthority, true, false)
    ensures Keys(r) == [a.tokenProgram, a.protocolAuthority, a.inputVault, a.outputVault, a.jupiterProgram,
                        a.inputMint, a.outputMint, a.jupiterProgram, a.jupiterProgram, a.eventAuthority,
                        a.jupiterProgram]
    ensures forall i :: 0 <= i < 11 ==> (r[i].isWritable <==> i in {2, 3})
  {
    [
      Readonly(a.tokenProgram, false),
      Readonly(a.protocolAuthority, true),
      Writable(a.inputVault, false),
      Writable(a.outputVault, false),
      Readonly(a.jupiterProgram, false),
      Readonly(a.inputMint, false),
      Readonly(a.outputMint, false),
      Readonly(a.jupiterProgram, false),
      Readonly(a.jupiterProgram, false),
      Readonly(a.eventAuthority, false),
      Readonly(a.jupiterProgram, false)
    ]
  }

  /** The exact-out swap call: the authority at slot 1 is the only signer
      slot, and every caller account follows the eleven fixed slots. */
  function ExactOutCall(a: RepayAccounts, bump: byte, data: seq<byte>, remaining: seq<AccountInfo>)
    : (c: Invocation)
    ensures c.instruction.programId == a.jupiterProgram
    ensures c.instruction.data == data
    ensures c.signerSeeds == AuthoritySignerSeeds(bump)
    ensures |c.instruction.accounts| == 11 + |remaining|
    ensures c.instruction.accounts[..11] == ExactOutFixedMetas(a)
    ensures SoleSignerAt(c.instruction.accounts, 1)
    ensures c.instruction.accounts[1].pubkey == a.protocolAuthority
    ensures c.instruction.accounts[11..] == PassThroughMetas(remaining)
    ensures InfosCoverMetas(c)
  {
    var fixed := ExactOutFixedMetas(a);
    var fixedInfos := [a.tokenProgram, a.protocolAuthority, a.inputVault, a.outputVault, a.inputMint,
                       a.outputMint, a.eventAuthority, a.jupiterProgram];
    assert forall i :: 0 <= i < |fixed| ==> fixed[i].pubkey == Keys(fixed)[i];
    PassThroughCovered(fixed, fixedInfos, remaining, 0);
    assert remaining[0..] == remaining;
    var c := Invocation(Instruction(a.jupiterProgram, fixed + PassThroughMetas(remaining), data),
                        fixedInfos + InfoKeys(remaining), AuthoritySignerSeeds(bump));
    assert c.instruction.accounts[..11] == fixed;
    assert c.instruction.accounts[11..] == PassThroughMetas(remaining);
    c
  }

  /** The swap call for the matched route: the payload forwarded byte for
      byte to the aggregator, signed with the authority's seeds, the
      authority the only signer slot. */
  function SwapForCollateralCall(a: RepayAccounts, bump: byte, route: Route, data: seq<byte>,
                                 remaining: seq<AccountInfo>): (c: Invocation)
    requires route == SharedAccountsExactOut ==> |remaining| >= 3
    ensures c.instruction.programId == a.jupiterProgram
    ensures c.instruction.data == data
    ensures c.signerSeeds == AuthoritySignerSeeds(bump)
    ensures route == ExactOut ==> c == ExactOutCall(a, bump, data, remaining)
    ensures route == SharedAccountsExactOut ==>
              c == SharedAccountsRouteCall(a.tokenProgram, a.protocolAuthority, a.inputVault, a.outputVault,
                                           a.inputMint, a.outputMint, a.eventAuthority, a.jupiterProgram,
                                           data, remaining, AuthoritySignerSeeds(bump))
    ensures InfosCoverMetas(c)
  {
    match route
    case ExactOut => ExactOutCall(a, bump, data, remaining)
    case SharedAccountsExactOut =>
      SharedAccountsRouteCall(a.tokenProgram, a.protocolAuthority, a.inputVault, a.outputVault,
                              a.inputMint, a.outputMint, a.eventAuthority, a.jupiterProgram,
                              data, remaining, AuthoritySignerSeeds(bump))
  }

  /** The repay payload, `[opcode, &u64::MAX.to_le_bytes()].concat()`: the
      opcode followed by eight 0xFF bytes, from which the lending program
      reads back `u64::MAX`. */
  function RepayAllData(): (d: seq<byte>)
    ensures d == REPAY_OBLIGATION_LIQUIDITY_V2_DISCRIMINATOR + [0xFF, 0xFF, 0xFF, 0xFF, 0xFF, 0xFF, 0xFF, 0xFF]
    ensures |d| == 16 && AmountOf(d) == U64_MAX
  {
    U64MaxBytes();
    AmountRoundTrip(REPAY_OBLIGATION_LIQUIDITY_V2_DISCRIMINATOR, U64_MAX);
    OpcodeWithAmount(REPAY_OBLIGATION_LIQUIDITY_V2_DISCRIMINATOR, U64_MAX)
  }

  /** The thirteen slots of the repay call: the authority first, writable
      and the only signer; the output vault, writable, at slot 6. */
  function RepayDebtMetas(a: RepayAccounts): (r: seq<AccountMeta>)
    ensures |r| == 13
    ensures SoleSignerAt(r, 0)
    ensures r[0] == AccountMeta(a.protocolAuthority, true, true)
    ensures r[6] == AccountMeta(a.outputVault, false, true)
    ensures Keys(r) == [a.protocolAuthority, a.obligation, a.lendingMarket, a.reserveBorrow, a.outputMint,
                        a.borrowReserveDestinationLiquidity, a.outputVault, a.tokenProgram,
                        a.instructionSysvarAccount, a.kaminoLendingProgram, a.kaminoLendingProgram,
                        a.lendingMarketAuthority, a.farmsProgram]
  {
    [
      Writable(a.protocolAuthority, true),
      Writable(a.obligation, false),
      Readonly(a.lendingMarket, false),
      Writable(a.reserveBorrow, false),
      Readonly(a.outputMint, false),
      Writable(a.borrowReserveDestinationLiquidity, false),
      Writable(a.outputVault, false),
      Readonly(a.tokenProgram, false),
      Readonly(a.instructionSysvarAccount, false),
      Readonly(a.kaminoLendingProgram, false),
      Readonly(a.kaminoLendingProgram, false),
      Readonly(a.lendingMarketAuthority, false),
      Readonly(a.farmsProgram, false)
    ]
  }

  /** The repay call: `RepayDebtMetas` as its slots, the output vault as the
      source of the liquidity, and the repay opcode followed by `u64::MAX`
      (eight 0xFF bytes): it always asks to repay in full. */
  function RepayDebtCall(a: RepayAccounts, bump: byte): (c: Invocation)
    ensures c.instruction.programId == a.kaminoLendingProgram
    ensures |c.instruction.accounts| == 13
    ensures SoleSignerAt(c.instruction.accounts, 0)
    ensures c.instruction.accounts[0] == AccountMeta(a.protocolAuthority, true, true)
    ensures c.instruction.accounts[6] == AccountMeta(a.outputVault, false, true)
    ensures c.instruction.data == REPAY_OBLIGATION_LIQUIDITY_V2_DISCRIMINATOR + [0xFF, 0xFF, 0xFF, 0xFF, 0xFF, 0xFF, 0xFF, 0xFF]
    ensures AmountOf(c.instruction.data) == U64_MAX
    ensures c.signerSeeds == AuthoritySignerSeeds(bump)
    ensures InfosCoverMetas(c)
  {
    var accounts := RepayDebtMetas(a);
    var infos := [
      a.protocolAuthority, a.obligation, a.lendingMarket, a.reserveBorrow, a.outputMint,
      a.borrowReserveDestinationLiquidity, a.outputVault, a.kaminoLendingProgram, a.tokenProgram,
      a.instructionSysvarAccount, a.lendingMarketAuthority, a.farmsProgram
    ];
    assert forall i :: 0 <= i < 13 ==> accounts[i].pubkey == Keys(accounts)[i];
    Invocation(
      Instruction(a.kaminoLendingProgram, accounts, RepayAllData()),
      infos, AuthoritySignerSeeds(bump))
  }

  /** No call of the unwind path asks for a signature but the authority's,
      and only on calls signed with the authority's seeds: a caller-supplied
      account is never presented as a signer. */
  lemma SignersAreAuthorityOnly(a: RepayAccounts, bump: byte, amount: u64, route: Route, data: seq<byte>,
                                remaining: seq<AccountInfo>)
    requires route == SharedAccountsExactOut ==> |remaining| >= 3
    ensures var seeds := AuthoritySignerSeeds(bump);
            && OnlyAuthoritySigns(RefreshReserveCall(a.kaminoLendingProgram, a.reserveCollateral, a.lendingMarket,
                                                      a.scopeOracle), a.protocolAuthority, seeds)
            && OnlyAuthoritySigns(RefreshReserveCall(a.kaminoLendingProgram, a.reserveBorrow, a.lendingMarket,
                                                      a.scopeOracle), a.protocolAuthority, seeds)
            && OnlyAuthoritySigns(RefreshObligationCall(a), a.protocolAuthority, seeds)
            && OnlyAuthoritySigns(WithdrawCollateralCall(a, bump, amount), a.protocolAuthority, seeds)
            && OnlyAuthoritySigns(SwapForCollateralCall(a, bump, route, data, remaining),
                                   a.protocolAuthority, seeds)
            && OnlyAuthoritySigns(RepayDebtCall(a, bump), a.protocolAuthority, seeds)
  {
  }

  /** The unwind context. Its account keys do not change; the output vault's
      balance is re-read by `RepayDebt`; every call goes to `host`. */
  class Repay {
    const accounts: RepayAccounts
    const authorityBump: byte
    const host: Host
    var outputVaultAmount: u64

    constructor (accounts: RepayAccounts, authorityBump: byte, host: Host, outputVaultAmount: u64)
      ensures this.accounts == accounts && this.authorityBump == authorityBump && this.host == host
      ensures this.outputVaultAmount == outputVaultAmount
    {
      this.accounts := accounts;
      this.authorityBump := authorityBump;
      this.host := host;
      this.outputVaultAmount := outputVaultAmount;
    }

    method RefreshReserveCollateral() returns (r: Result<()>)
      modifies host
      ensures var c := RefreshReserveCall(accounts.kaminoLendingProgram, accounts.reserveCollateral,
                                          accounts.lendingMarket, accounts.scopeOracle);
              host.trace == old(host.trace) + [c] && r == host.Answer(c)
    {
      var c := RefreshReserveCall(accounts.kaminoLendingProgram, accounts.reserveCollateral,
                                  accounts.lendingMarket, accounts.scopeOracle);
      r := host.Invoke(c.instruction, c.accountInfos);
    }

    method RefreshReserveBorrow() returns (r: Result<()>)
      modifies host
      ensures var c := RefreshReserveCall(accounts.kaminoLendingProgram, accounts.reserveBorrow,
                                          accounts.lendingMarket, accounts.scopeOracle);
              host.trace == old(host.trace) + [c] && r == host.Answer(c)
    {
      var c := RefreshReserveCall(accounts.kaminoLendingProgram, accounts.reserveBorrow,
                                  accounts.lendingMarket, accounts.scopeOracle);
      r := host.Invoke(c.instruction, c.accountInfos);
    }

    method RefreshObligation() returns (r: Result<()>)
      modifies host
      ensures host.trace == old(host.trace) + [RefreshObligationCall(accounts)]
      ensures r == host.Answer(RefreshObligationCall(accounts))
    {
      var a := accounts;
      var metas := [Readonly(a.lendingMarket, false), Writable(a.obligation, false)];
      metas := metas + [Writable(a.reserveCollateral, false)];
      metas := metas + [Writable(a.reserveBorrow, false)];
      var infos := [a.lendingMarket, a.obligation];
      infos := infos + [a.reserveCollateral];
      infos := infos + [a.reserveBorrow];
      var ix := Instruction(a.kaminoLendingProgram, metas, REFRESH_OBLIGATION_DISCRIMINATOR);
      assert Invocation(ix, infos, []) == RefreshObligationCall(a);
      r := host.Invoke(ix, infos);
    }

    method WithdrawCollateral(amount: u64) returns (r: Result<()>)
      modifies host
      ensures host.trace == old(host.trace) + [WithdrawCollateralCall(accounts, authorityBump, amount)]
      ensures r == host.Answer(WithdrawCollateralCall(accounts, authorityBump, amount))
    {
      var c := WithdrawCollateralCall(accounts, authorityBump, amount);
      r := host.InvokeSigned(c.instruction, c.accountInfos, AuthoritySignerSeeds(authorityBump));
    }

    /** Validates the caller's route payload and forwards it. A rejected
        payload issues no call; an accepted one issues exactly one. */
    method SwapForCollateral(swapData: seq<byte>, amount: u64, remaining: seq<AccountInfo>)
      returns (r: Result<()>)
      modifies host
      ensures match CheckSwapForCollateral(swapData, amount, |remaining|)
              case Err(e) => r == Err(e) && host.trace == old(host.trace)
              case Ok(route) =>
                var c := SwapForCollateralCall(accounts, authorityBump, route, swapData, remaining);
                host.trace == old(host.trace) + [c] && r == host.Answer(c)
    {
      var a := accounts;
      var len := |swapData|;
      if len < 2 + 1 {
        return Err(Panic);
      }
      var bpsOffset := len - 2 - 1;
      if bpsOffset < 8 + 8 {
        return Err(Panic);
      }
      var amountOffset := bpsOffset - 8 - 8;
      if amount != U64FromLeBytes(swapData[amountOffset .. amountOffset + 8]) {
        return Err(RequireEqViolated);
      }
      if 50 != U16FromLeBytes(swapData[bpsOffset .. bpsOffset + 2]) {
        return Err(RequireEqViolated);
      }
      var seeds := AuthoritySignerSeeds(authorityBump);
      var infos: seq<Pubkey>;
      var metas: seq<AccountMeta>;
      if StartsWith(swapData, EXACT_OUT_ROUTE_DISCRIMINATOR) {
        infos := [a.tokenProgram, a.protocolAuthority, a.inputVault, a.outputVault, a.inputMint,
                  a.outputMint, a.eventAuthority, a.jupiterProgram];
        infos := ExtendInfos(infos, remaining);
        metas := ExactOutFixedMetas(a);
        metas := ExtendMetas(metas, remaining);
      } else if StartsWith(swapData, SHARED_ACCOUNTS_EXACT_OUT_ROUTE_DISCRIMINATOR) {
        if |remaining| < 3 {
          return Err(Panic);
        }
        infos := [a.tokenProgram, remaining[0].key, a.protocolAuthority, a.inputVault, remaining[1].key,
                  remaining[2].key, a.outputVault, a.inputMint, a.outputMint, a.eventAuthority,
                  a.jupiterProgram];
        infos := ExtendInfos(infos, remaining);
        metas := SharedAccountsFixedMetas(a.tokenProgram, remaining[0].key, a.protocolAuthority, a.inputVault,
                                          remaining[1].key, remaining[2].key, a.outputVault, a.inputMint,
                                          a.outputMint, a.eventAuthority, a.jupiterProgram);
        metas := ExtendMetas(metas, remaining[3..]);
      } else {
        return Err(InvalidInstructionData);
      }
      var ix := Instruction(a.jupiterProgram, metas, swapData);
      r := host.InvokeSigned(ix, infos, seeds);
    }

    /** Re-reads the output vault, then repays the debt in full; the
        re-read balance is not what the call asks to repay. */
    method RepayDebt(reloaded: Option<u64>) returns (r: Result<()>)
      modifies this, host
      ensures reloaded.None? ==>
                r == Err(ReloadFailed) && host.trace == old(host.trace)
                && outputVaultAmount == old(outputVaultAmount)
      ensures reloaded.Some? ==>
                outputVaultAmount == reloaded.value
                && host.trace == old(host.trace) + [RepayDebtCall(accounts, authorityBump)]
                && r == host.Answer(RepayDebtCall(accounts, authorityBump))
    {
      var c := RepayDebtCall(accounts, authorityBump);
      match reloaded {
        case None =>
          return Err(ReloadFailed);
        case Some(balance) =>
          outputVaultAmount := balance;
      }
      var ix := Instruction(accounts.kaminoLendingProgram, c.instruction.accounts,
                            OpcodeWithAmount(REPAY_OBLIGATION_LIQUIDITY_V2_DISCRIMINATOR, U64_MAX));
      r := host.InvokeSigned(ix, c.accountInfos, AuthoritySignerSeeds(authorityBump));
    }
  }
}
