/** The plain deposit path: refresh the reserves the obligation uses (the
    borrow reserve is optional), refresh the obligation with the reserves
    the caller's flags name, and deposit a caller-chosen amount. Nothing in
    this context changes between calls, so the handlers take the accounts as
    a value and issue their call to the host. */
module DepositIx {
  import opened Bytes
  import opened Cpi
  import opened Constant
  import opened Kamino

  /** The keys of the accounts the deposit context names; the borrow reserve may be absent. */
  datatype DepositAccounts = DepositAccounts(
    payer: Pubkey,
    protocolAuthority: Pubkey,
    reserveLiquidityMint: Pubkey,
    userSourceLiquidity: Pubkey,
    instructionSysvarAccount: Pubkey,
    tokenProgram: Pubkey,
    userMetadata: Pubkey,
    obligation: Pubkey,
    lendingMarket: Pubkey,
    lendingMarketAuthority: Pubkey,
    reserveCollateral: Pubkey,
    reserveBorrow: Option<Pubkey>,
    reserveLiquiditySupply: Pubkey,
    reserveCollateralMint: Pubkey,
    reserveDestinationDepositCollateral: Pubkey,
    scopeOracle: Pubkey,
    obligationFarmState: Pubkey,
    reserveFarmState: Pubkey,
    kaminoLendingProgram: Pubkey,
    farmsProgram: Pubkey)

  /** The collateral reserve joins the refresh when bit 0 is set. */
  predicate HasCollateral(flags: bv8) {
    flags & FLAG_HAS_COLLATERAL != 0
  }

  /** The borrow reserve joins the refresh only when the flag asks for it and
      the caller supplied one. */
  predicate RefreshesBorrow(a: DepositAccounts, flags: bv8) {
    flags & FLAG_HAS_BORROWS != 0 && a.reserveBorrow.Some?
  }

  /** The refresh-obligation call: the market and the obligation, then the
      collateral reserve when the collateral bit is set, then the borrow
      reserve when the borrows bit is set and one was supplied. Both reserves
      are read-only; the accounts handed along are the same keys in the same
      order. */
  function RefreshObligationCall(a: DepositAccounts, flags: bv8): (c: Invocation)
    ensures c.instruction.programId == a.kaminoLendingProgram
    ensures |c.instruction.accounts| ==
              2 + (if HasCollateral(flags) then 1 else 0) + (if RefreshesBorrow(a, flags) then 1 else 0)
    ensures Keys(c.instruction.accounts)[..2] == [a.lendingMarket, a.obligation]
    ensures HasCollateral(flags) ==> c.instruction.accounts[2].pubkey == a.reserveCollateral
    ensures RefreshesBorrow(a, flags) ==>
              c.instruction.accounts[|c.instruction.accounts| - 1].pubkey == a.reserveBorrow.value
    ensures forall i :: 0 <= i < |c.instruction.accounts| ==> (c.instruction.accounts[i].isWritable <==> i == 1)
    ensures NoSigner(c.instruction.accounts)
    ensures c.accountInfos == Keys(c.instruction.accounts)
    ensures c.instruction.data == REFRESH_OBLIGATION_DISCRIMINATOR
    ensures c.signerSeeds == []
  {
    var collateral := if HasCollateral(flags) then [Readonly(a.reserveCollateral, false)] else [];
    var borrow := if RefreshesBorrow(a, flags) then [Readonly(a.reserveBorrow.value, false)] else [];
    var accounts := [Readonly(a.lendingMarket, false), Writable(a.obligation, false)] + collateral + borrow;
    Invocation(Instruction(a.kaminoLendingProgram, accounts, REFRESH_OBLIGATION_DISCRIMINATOR),
               Keys(accounts), [])
  }

  /** With neither flag set only the market and the obligation are refreshed. */
  lemma RefreshObligationNoFlags(a: DepositAccounts, flags: bv8)
    requires flags & (FLAG_HAS_COLLATERAL | FLAG_HAS_BORROWS) == 0
    ensures Keys(RefreshObligationCall(a, flags).instruction.accounts) == [a.lendingMarket, a.obligation]
  {
    assert flags & FLAG_HAS_COLLATERAL == 0 && flags & FLAG_HAS_BORROWS == 0;
  }

  /** Only bits 0 and 1 of the flags byte shape the refresh. */
  lemma RefreshObligationOnlyLowBits(a: DepositAccounts, f: bv8, g: bv8)
    requires f & (FLAG_HAS_COLLATERAL | FLAG_HAS_BORROWS) == g & (FLAG_HAS_COLLATERAL | FLAG_HAS_BORROWS)
    ensures RefreshObligationCall(a, f) == RefreshObligationCall(a, g)
  {
    assert f & FLAG_HAS_COLLATERAL == g & FLAG_HAS_COLLATERAL;
    assert f & FLAG_HAS_BORROWS == g & FLAG_HAS_BORROWS;
  }

  /** Without a borrow reserve the borrows bit has no effect. */
  lemma RefreshObligationWithoutBorrowReserve(a: DepositAccounts, flags: bv8)
    requires a.reserveBorrow.None?
    ensures RefreshObligationCall(a, flags) == RefreshObligationCall(a, flags & FLAG_HAS_COLLATERAL)
  {
    assert (flags & FLAG_HAS_COLLATERAL) & FLAG_HAS_COLLATERAL == flags & FLAG_HAS_COLLATERAL;
  }

  /** The deposit call: seventeen slots with the authority first, writable
      and the only signer, the caller's source liquidity account at slot 9,
      both farm-state slots read-only, and the deposit opcode followed by the
      amount; signed with the authority's seeds. */
  function DepositCall(a: DepositAccounts, bump: byte, amount: u64): (c: Invocation)
    ensures c.instruction.programId == a.kaminoLendingProgram
    ensures |c.instruction.accounts| == 17
    ensures SoleSignerAt(c.instruction.accounts, 0)
    ensures c.instruction.accounts[0] == AccountMeta(a.protocolAuthority, true, true)
    ensures c.instruction.accounts[5] == AccountMeta(a.reserveLiquidityMint, false, false)
    ensures c.instruction.accounts[9] == AccountMeta(a.userSourceLiquidity, false, true)
    ensures c.instruction.accounts[14] == AccountMeta(a.obligationFarmState, false, false)
    ensures c.instruction.accounts[15] == AccountMeta(a.reserveFarmState, false, false)
    ensures |c.instruction.data| == 16
    ensures c.instruction.data[..8] == DEPOSIT_RESERVE_LIQUIDITY_AND_OBLIGATION_COLLATERAL_V2_DISCRIMINATOR
    ensures AmountOf(c.instruction.data) == amount
    ensures c.signerSeeds == AuthoritySignerSeeds(bump)
    ensures c.accountInfos == Keys(c.instruction.accounts)
  {
    AmountRoundTrip(DEPOSIT_RESERVE_LIQUIDITY_AND_OBLIGATION_COLLATERAL_V2_DISCRIMINATOR, amount);
    var accounts := [
      Writable(a.protocolAuthority, true),
      Writable(a.obligation, false),
      Readonly(a.lendingMarket, false),
      Readonly(a.lendingMarketAuthority, false),
      Writable(a.reserveCollateral, false),
      Readonly(a.reserveLiquidityMint, false),
      Writable(a.reserveLiquiditySupply, false),
      Writable(a.reserveCollateralMint, false),
      Writable(a.reserveDestinationDepositCollateral, false),
      Writable(a.userSourceLiquidity, false),
      Readonly(a.kaminoLendingProgram, false),
      Readonly(a.tokenProgram, false),
      Readonly(a.tokenProgram, false),
      Readonly(a.instructionSysvarAccount, false),
      Readonly(a.obligationFarmState, false),
      Readonly(a.reserveFarmState, false),
      Readonly(a.farmsProgram, false)
    ];
    var infos := [
      a.protocolAuthority, a.obligation, a.lendingMarket, a.lendingMarketAuthority, a.reserveCollateral,
      a.reserveLiquidityMint, a.reserveLiquiditySupply, a.reserveCollateralMint,
      a.reserveDestinationDepositCollateral, a.userSourceLiquidity, a.kaminoLendingProgram, a.tokenProgram,
      a.tokenProgram, a.instructionSysvarAccount, a.obligationFarmState, a.reserveFarmState, a.farmsProgram
    ];
    Invocation(
      Instruction(a.kaminoLendingProgram, accounts,
                  OpcodeWithAmount(DEPOSIT_RESERVE_LIQUIDITY_AND_OBLIGATION_COLLATERAL_V2_DISCRIMINATOR, amount)),
      infos, AuthoritySignerSeeds(bump))
  }

  /** No call of the deposit path asks for a signature but the authority's,
      and only on the call signed with the authority's seeds. */
  lemma SignersAreAuthorityOnly(a: DepositAccounts, bump: byte, flags: bv8, amount: u64)
    ensures var seeds := AuthoritySignerSeeds(bump);
            && OnlyAuthoritySigns(RefreshReserveCall(a.kaminoLendingProgram, a.reserveCollateral, a.lendingMarket,
                                                     a.scopeOracle), a.protocolAuthority, seeds)
            && (a.reserveBorrow.Some? ==>
                  OnlyAuthoritySigns(RefreshReserveCall(a.kaminoLendingProgram, a.reserveBorrow.value,
                                                        a.lendingMarket, a.scopeOracle), a.protocolAuthority, seeds))
            && OnlyAuthoritySigns(RefreshObligationCall(a, flags), a.protocolAuthority, seeds)
            && OnlyAuthoritySigns(DepositCall(a, bump, amount), a.protocolAuthority, seeds)
  {
  }

  method RefreshReserveCollateral(a: DepositAccounts, host: Host) returns (r: Result<()>)
    modifies host
    ensures var c := RefreshReserveCall(a.kaminoLendingProgram, a.reserveCollateral, a.lendingMarket, a.scopeOracle);
            host.trace == old(host.trace) + [c] && r == host.Answer(c)
  {
    var c := RefreshReserveCall(a.kaminoLendingProgram, a.reserveCollateral, a.lendingMarket, a.scopeOracle);
    r := host.Invoke(c.instruction, c.accountInfos);
  }

  /** Refreshes the borrow reserve if one was supplied; otherwise succeeds without a call. */
  method RefreshReserveBorrow(a: DepositAccounts, host: Host) returns (r: Result<()>)
    modifies host
    ensures a.reserveBorrow.None? ==> r == Ok(()) && host.trace == old(host.trace)
    ensures a.reserveBorrow.Some? ==>
              var c := RefreshReserveCall(a.kaminoLendingProgram, a.reserveBorrow.value, a.lendingMarket,
                                          a.scopeOracle);
              host.trace == old(host.trace) + [c] && r == host.Answer(c)
  {
    if a.reserveBorrow.Some? {
      var c := RefreshReserveCall(a.kaminoLendingProgram, a.reserveBorrow.value, a.lendingMarket, a.scopeOracle);
      r := host.Invoke(c.instruction, c.accountInfos);
    } else {
      r := Ok(());
    }
  }

  /** Builds both lists by pushes, each reserve only when its flag is set
      (and, for the borrow reserve, when one was supplied). */
  method RefreshObligation(a: DepositAccounts, flags: bv8, host: Host) returns (r: Result<()>)
    modifies host
    ensures host.trace == old(host.trace) + [RefreshObligationCall(a, flags)]
    ensures r == host.Answer(RefreshObligationCall(a, flags))
  {
    var metas := [Readonly(a.lendingMarket, false), Writable(a.obligation, false)];
    if HasCollateral(flags) {
      metas := metas + [Readonly(a.reserveCollateral, false)];
    }
    if flags & FLAG_HAS_BORROWS != 0 {
      if a.reserveBorrow.Some? {
        metas := metas + [Readonly(a.reserveBorrow.value, false)];
      }
    }
    var infos := [a.lendingMarket, a.obligation];
    if HasCollateral(flags) {
      infos := infos + [a.reserveCollateral];
    }
    if flags & FLAG_HAS_BORROWS != 0 {
      if a.reserveBorrow.Some? {
        infos := infos + [a.reserveBorrow.value];
      }
    }
    var ix := Instruction(a.kaminoLendingProgram, metas, REFRESH_OBLIGATION_DISCRIMINATOR);
    assert Invocation(ix, infos, []) == RefreshObligationCall(a, flags);
    r := host.Invoke(ix, infos);
  }

  method Deposit(a: DepositAccounts, bump: byte, amount: u64, host: Host) returns (r: Result<()>)
    modifies host
    ensures host.trace == old(host.trace) + [DepositCall(a, bump, amount)]
    ensures r == host.Answer(DepositCall(a, bump, amount))
  {
    var c := DepositCall(a, bump, amount);
    r := host.InvokeSigned(c.instruction, c.accountInfos, AuthoritySignerSeeds(bump));
  }
}
