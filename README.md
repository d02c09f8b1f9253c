# Leveraged looping on a lending market — a Dafny model of the instruction builders

The program opens and unwinds leveraged positions on a lending market by
calling two programs it does not own: the lending program and a swap
aggregator. Each handler takes the keys of its accounts, builds one
cross-program call (the target program, an ordered list of account slots
with signer and writable flags, and a byte payload), and issues it. A
handler issues the call either unsigned or signed with the seeds
`["auth", bump]` of the program's own authority.

This project models the four handler files and the constants they share:

- `Bytes`: Rust's `u16`/`u64` and their little-endian encodings, with
  round-trip lemmas in both directions.
- `Cpi`: account slots, instructions, and a `Host` class. The host records
  every issued call in `trace` and answers each call through a pass/fail
  oracle that stands for the called program. It also defines the
  predicates used to state the signing discipline.
- `Constant`: the flag bits of the caller's flags byte and the authority's
  signer seeds.
- `Kamino`: the lending program's opcodes, the opcode-plus-amount payload
  with its round trip, and the six-slot refresh-reserve call, which all
  contexts build the same way.
- `Jupiter`: the aggregator's route tags, and the amount and slippage
  fields read at fixed offsets from the end of a route payload. It also
  holds the loops that pass the caller's trailing accounts through, and the
  shared-accounts route call.
- `RepayIx`, `LoopingIx`, `DepositIx` and `InitializeIx`: one module per
  handler file.
  - Each call the handlers build is a function whose contract states its
    slots, flags, payload and seeds.
  - Each handler is a method proved to append exactly that call to the
    host's trace, or, when a check fails, to return the error and issue
    nothing.
  - The unwind and leverage contexts are classes, because their reload
    step overwrites the output vault's balance. The deposit and setup
    contexts change nothing, so their handlers take the accounts as a
    value.

The checks before a swap:

- A route payload must be at least 19 bytes long. A shorter payload makes
  the offset arithmetic underflow and aborts the program, modelled as
  `Err(Panic)`.
- The `u64` at `len-19..len-11` must equal the expected amount.
- The `u16` at `len-3..len-1` must equal 50.
- Its leading tag must name an accepted route.
- The unwind path checks amount and slippage before the tag. The leverage
  path checks the tag first. `CheckSwapForCollateral` and
  `CheckSwapCollateral` keep each file's own order, so the same malformed
  payload can fail with different errors on the two paths.
- A shared-accounts route indexes the caller's first three accounts. If
  fewer are supplied, the program aborts.

## Model

| member | source | states |
|---|---|---|
| Bytes.FromLeToLe | programs/anchor-looping/src/instructions/repay.rs:314-315 | decoding the little-endian encoding of any value that fits the width gives the value back |
| Bytes.ToLeFromLe | programs/anchor-looping/src/instructions/repay.rs:314-315 | encoding a decoded byte string at its own width gives back the same bytes |
| Bytes.FromLe | programs/anchor-looping/src/instructions/repay.rs:314-315 | the value an n-byte little-endian string denotes is below 256^n, so eight bytes always make a `u64` |
| Bytes.U64RoundTrip | programs/anchor-looping/src/instructions/looping.rs:297 | `u64::from_le_bytes(x.to_le_bytes()) == x` |
| Bytes.U64BytesRoundTrip | programs/anchor-looping/src/instructions/looping.rs:319 | every eight-byte slice is the encoding of the `u64` read from it |
| Bytes.U16RoundTrip | programs/anchor-looping/src/instructions/looping.rs:320 | `u16::from_le_bytes(x.to_le_bytes()) == x` |
| Bytes.U64ToLeBytesInjective | programs/anchor-looping/src/instructions/deposit.rs:292 | distinct amounts have distinct encodings |
| Bytes.U64MaxBytes | programs/anchor-looping/src/instructions/repay.rs:461 | `u64::MAX.to_le_bytes()` is eight 0xFF bytes |
| Bytes.ToLeDigit | programs/anchor-looping/src/instructions/repay.rs:295 | byte i of a little-endian encoding is digit i of the value in base 256 |
| Bytes.ToLeAllOnes | programs/anchor-looping/src/instructions/repay.rs:461 | the largest value a width holds is encoded as all 0xFF bytes |
| Bytes.U64ToLeBytesDigits | programs/anchor-looping/src/instructions/repay.rs:295 | `amount.to_le_bytes()` is eight bytes, byte i being digit i of the amount in base 256 |
| Bytes.U64FromLeBytesDigits | programs/anchor-looping/src/instructions/repay.rs:314 | `u64::from_le_bytes` reads the eight bytes as base-256 digits, least significant first |
| Bytes.U16FromLeBytes | programs/anchor-looping/src/instructions/repay.rs:315 | `u16::from_le_bytes` is the low byte plus 256 times the high byte |
| Constant.AuthoritySignerSeeds | programs/anchor-looping/src/instructions/looping.rs:252-255 | exactly one signer, whose two seeds are `b"auth"` and the one-byte bump, in that order |
| Cpi.Host.Invoke | programs/anchor-looping/src/instructions/repay.rs:162-165 | `invoke` appends exactly one call, with no signer seeds, to the trace |
| Cpi.Host.InvokeSigned | programs/anchor-looping/src/instructions/repay.rs:299-303 | `invoke_signed` appends exactly one call, with the given seeds, to the trace |
| Kamino.OpcodeWithAmount | programs/anchor-looping/src/instructions/repay.rs:293-296 | the payload is 16 bytes and starts with the opcode |
| Kamino.AmountRoundTrip | programs/anchor-looping/src/instructions/repay.rs:293-296 | the lending program reads back exactly the amount that was encoded after the opcode |
| Kamino.PayloadRoundTrip | programs/anchor-looping/src/instructions/deposit.rs:290-293 | every 16-byte payload is the encoding of its own tag and amount |
| Kamino.RefreshReserveCall | programs/anchor-looping/src/instructions/repay.rs:138-168 | six slots `[reserve (writable), market, lending program ×3, scope oracle]`, no signer, data is only the refresh opcode, sent without seeds, and the four accounts handed along cover every slot |
| Jupiter.TailAnchoredToEnd | programs/anchor-looping/src/instructions/repay.rs:310-315 | the amount and slippage read depend only on the last 19 bytes of the payload |
| Jupiter.StartsWithBytes | programs/anchor-looping/src/instructions/repay.rs:323 | `starts_with(tag)` holds exactly when the payload is at least as long as the tag and agrees with it byte for byte, and then the payload is the tag followed by the rest |
| Jupiter.TailAmount | programs/anchor-looping/src/instructions/repay.rs:311-314 | the amount read at `len - 19 .. len - 11` is the `u64` whose encoding is exactly those eight bytes |
| Jupiter.TailSlippage | programs/anchor-looping/src/instructions/repay.rs:311-315 | the slippage read at `len - 3 .. len - 1` is the `u16` whose encoding is exactly those two bytes |
| Jupiter.SwapPayload | programs/anchor-looping/src/instructions/repay.rs:310-312 | a route payload (tag, route fields, amount, other amount, slippage, last byte) is 27 bytes longer than its route fields and starts with its tag |
| Jupiter.SwapPayloadFields | programs/anchor-looping/src/instructions/repay.rs:310-315 | a payload laid out that way yields its own amount and slippage at `len-19` and `len-3` |
| Jupiter.SwapPayloadDecomposes | programs/anchor-looping/src/instructions/looping.rs:312-320 | every payload of at least 27 bytes has that layout, with the fields the checks read |
| Jupiter.PassThroughMeta | programs/anchor-looping/src/instructions/repay.rs:349-355 | a caller account becomes a slot with its own key and writability, never marked as a signer |
| Jupiter.PassThroughMetas | programs/anchor-looping/src/instructions/repay.rs:349-355 | each caller account becomes a slot with its key, its writability, and never the signer flag |
| Jupiter.ExtendMetas | programs/anchor-looping/src/instructions/looping.rs:358-364 | the loop appends exactly the pass-through slots of the caller accounts, in order, after the fixed slots |
| Jupiter.ExtendInfos | programs/anchor-looping/src/instructions/looping.rs:341 | the loop appends every caller account's key, in order, after the fixed accounts |
| Jupiter.PassThroughCovered | programs/anchor-looping/src/instructions/repay.rs:374-397 | if the fixed slots are covered by the fixed accounts, the appended pass-through slots are covered by the caller accounts handed along |
| Jupiter.SharedAccountsFixedMetas | programs/anchor-looping/src/instructions/looping.rs:343-357 | 13 fixed slots; the user transfer authority at slot 2 is the only signer; the caller's first three accounts fill slots 1, 4 and 5; slots 3 to 6 are exactly the writable ones |
| Jupiter.SharedAccountsRouteCall | programs/anchor-looping/src/instructions/looping.rs:328-372 | the shared-accounts call forwards the payload unchanged to the aggregator and carries the given seeds; its first 13 slots are exactly `SharedAccountsFixedMetas`, with the caller's first three accounts as program authority (slot 1) and program source and destination accounts (slots 4, 5), followed by the caller's accounts from the fourth on; the user transfer authority at slot 2 is the single signer slot; every slot's key is handed along |
| RepayIx.RefreshObligationCall | programs/anchor-looping/src/instructions/repay.rs:214-243 | always `[market, obligation, collateral reserve, borrow reserve]`, only the market read-only, no signer, the accounts handed along equal the slot keys in order, no seeds |
| RepayIx.WithdrawCollateralCall | programs/anchor-looping/src/instructions/repay.rs:245-306 | 17 slots; the authority at slot 0 is writable and the only signer; the input vault receives the liquidity at slot 9; the payload is the withdraw opcode followed by `amount`; signed with the authority's seeds; every slot's key is handed along |
| RepayIx.CheckSwapForCollateral | programs/anchor-looping/src/instructions/repay.rs:308-404 | short payload → abort; wrong tail amount or slippage → `require_eq!` failure, before the tag is looked at; then exact-out or shared-accounts exact-out, each exactly when its tag matches and the tail checks pass (the shared shape also needs three caller accounts); any other tag → `InvalidInstructionData` |
| RepayIx.UnknownTagRejected | programs/anchor-looping/src/instructions/repay.rs:401-402 | a payload with good tail fields but an unknown tag is rejected as invalid instruction data |
| RepayIx.ExactOutPayloadVerdict | programs/anchor-looping/src/instructions/repay.rs:314-323 | an exact-out payload quoting `q` at `bps` is accepted exactly when `q == amount` and `bps == 50` |
| RepayIx.SharedExactOutPayloadVerdict | programs/anchor-looping/src/instructions/repay.rs:314-315 | a shared-accounts exact-out payload is accepted exactly when it quotes the amount at 50 and three caller accounts are present |
| RepayIx.ExactOutFixedMetas | programs/anchor-looping/src/instructions/repay.rs:336-348 | 11 fixed slots; the authority at slot 1 is the only signer; only the two vaults are writable |
| RepayIx.ExactOutCall | programs/anchor-looping/src/instructions/repay.rs:323-357 | the exact-out call forwards the payload unchanged to the aggregator, signed with the authority's seeds; its first 11 slots are exactly `ExactOutFixedMetas` (vaults at slots 2 and 3 writable, mints at 5 and 6), followed by every caller account as a pass-through slot; the authority at slot 1 is the one signer slot; every slot's key is handed along |
| RepayIx.SwapForCollateralCall | programs/anchor-looping/src/instructions/repay.rs:406-412 | the payload is forwarded byte for byte to the aggregator, signed with the authority's seeds; the slots are those of the matched route |
| RepayIx.RepayDebtCall | programs/anchor-looping/src/instructions/repay.rs:417-472 | 13 slots; the authority at slot 0 is the only signer; the output vault is the source at slot 6; the payload is the repay opcode followed by eight 0xFF bytes, i.e. it always repays `u64::MAX`; signed |
| RepayIx.RepayAllData | programs/anchor-looping/src/instructions/repay.rs:459-462 | the repay payload `[opcode, u64::MAX.to_le_bytes()]` is the opcode followed by eight 0xFF bytes, and the amount read back from it is `u64::MAX` |
| RepayIx.RepayDebtMetas | programs/anchor-looping/src/instructions/repay.rs:423-437 | the 13 repay slots in order; the authority first, writable and the only signer; the output vault writable at slot 6 |
| RepayIx.SignersAreAuthorityOnly | programs/anchor-looping/src/instructions/repay.rs:336-348 | every call of the unwind path marks only the authority as a signer, and only on calls carrying its seeds; no caller account ever becomes a signer slot |
| RepayIx.Repay.RefreshReserveCollateral | programs/anchor-looping/src/instructions/repay.rs:138-168 | issues exactly the collateral reserve's refresh call, unsigned |
| RepayIx.Repay.RefreshReserveBorrow | programs/anchor-looping/src/instructions/repay.rs:176-206 | issues exactly the borrow reserve's refresh call, unsigned |
| RepayIx.Repay.RefreshObligation | programs/anchor-looping/src/instructions/repay.rs:214-243 | the push-built lists make exactly `RefreshObligationCall` |
| RepayIx.Repay.WithdrawCollateral | programs/anchor-looping/src/instructions/repay.rs:245-306 | issues exactly `WithdrawCollateralCall` for `amount` |
| RepayIx.Repay.SwapForCollateral | programs/anchor-looping/src/instructions/repay.rs:308-415 | a rejected payload returns the check's error with the trace unchanged; an accepted one appends exactly the matched route's swap call |
| RepayIx.Repay.RepayDebt | programs/anchor-looping/src/instructions/repay.rs:417-472 | a failed reload returns before any call; otherwise the re-read balance is stored and exactly `RepayDebtCall` is issued, whatever that balance is |
| LoopingIx.RefreshObligationCall | programs/anchor-looping/src/instructions/looping.rs:216-249 | `[market, obligation, collateral reserve]`, plus the borrow reserve exactly when bit 1 is set; only the market read-only; no signer; the accounts handed along equal the slot keys in order |
| LoopingIx.RefreshObligationOnlyBorrowsBit | programs/anchor-looping/src/instructions/looping.rs:222 | two flags bytes that agree on bit 1 give the same call |
| LoopingIx.RefreshObligationIgnoresCollateralBit | programs/anchor-looping/src/instructions/looping.rs:221-233 | toggling bit 0 never changes the call |
| LoopingIx.BorrowCall | programs/anchor-looping/src/instructions/looping.rs:251-308 | 15 slots; the authority at slot 0 is writable and the only signer; the input vault receives the borrow at slot 8; the payload is the borrow opcode followed by `amount`; signed; every slot's key is handed along |
| LoopingIx.CheckSwapCollateral | programs/anchor-looping/src/instructions/looping.rs:310-340 | short payload → abort; wrong tag → `InvalidInstructionData`, before the tail is checked; wrong amount or slippage → `require_eq!` failure; fewer than three caller accounts → abort; accepted exactly when all checks pass |
| LoopingIx.SharedRoutePayloadVerdict | programs/anchor-looping/src/instructions/looping.rs:316-320 | a shared-accounts route payload is accepted exactly when it quotes the amount at 50 and three caller accounts are present |
| LoopingIx.OtherTagRejected | programs/anchor-looping/src/instructions/looping.rs:316-318 | any other tag is invalid instruction data, whatever the tail says |
| LoopingIx.SwapCollateralCall | programs/anchor-looping/src/instructions/looping.rs:328-372 | the payload is forwarded unchanged to the aggregator, signed; the first 13 slots are exactly the shared-accounts fixed slots, with the caller's first three accounts at slots 1 (read-only), 4 and 5 (writable); the authority at slot 2 is the only signer; the input vault is the source at slot 3 and the output vault the destination at slot 6; the caller's accounts from the fourth on follow |
| LoopingIx.DepositCall | programs/anchor-looping/src/instructions/looping.rs:377-441 | 17 slots; the authority at slot 0 is the only signer; the output vault is the source at slot 9; both farm-state slots are writable; the payload is the deposit opcode followed by `balance`; signed |
| LoopingIx.DepositCallInjective | programs/anchor-looping/src/instructions/looping.rs:429-430 | the deposit payload determines the balance it deposits |
| LoopingIx.SignersAreAuthorityOnly | programs/anchor-looping/src/instructions/looping.rs:358-364 | every call of the leverage path marks only the authority as a signer, and only on calls carrying its seeds |
| LoopingIx.Looping.RefreshReserveCollateral | programs/anchor-looping/src/instructions/looping.rs:140-170 | issues exactly the collateral reserve's refresh call, unsigned |
| LoopingIx.Looping.RefreshReserveBorrow | programs/anchor-looping/src/instructions/looping.rs:178-208 | issues exactly the borrow reserve's refresh call, unsigned |
| LoopingIx.Looping.RefreshObligation | programs/anchor-looping/src/instructions/looping.rs:216-249 | the conditionally pushed lists make exactly `RefreshObligationCall(flags)` |
| LoopingIx.Looping.BorrowFromCollateral | programs/anchor-looping/src/instructions/looping.rs:251-308 | issues exactly `BorrowCall` for `amount` |
| LoopingIx.Looping.SwapCollateral | programs/anchor-looping/src/instructions/looping.rs:310-375 | a rejected payload returns the check's error with the trace unchanged; an accepted one appends exactly `SwapCollateralCall` |
| LoopingIx.Looping.Deposit | programs/anchor-looping/src/instructions/looping.rs:377-441 | a failed reload returns before any call; otherwise the re-read balance is stored and the issued payload carries exactly that balance |
| DepositIx.RefreshObligationCall | programs/anchor-looping/src/instructions/deposit.rs:198-239 | `[market, obligation]`, then the collateral reserve when bit 0 is set, then the borrow reserve when bit 1 is set and one was supplied; appended reserves are read-only; the accounts handed along equal the slot keys in order |
| DepositIx.RefreshObligationNoFlags | programs/anchor-looping/src/instructions/deposit.rs:199-210 | with neither flag bit set, only the market and the obligation are listed |
| DepositIx.RefreshObligationOnlyLowBits | programs/anchor-looping/src/instructions/deposit.rs:203-206 | two flags bytes that agree on bits 0 and 1 give the same call |
| DepositIx.RefreshObligationWithoutBorrowReserve | programs/anchor-looping/src/instructions/deposit.rs:206-210 | without a borrow reserve, bit 1 has no effect |
| DepositIx.DepositCall | programs/anchor-looping/src/instructions/deposit.rs:241-303 | 17 slots; the authority at slot 0 is the only signer; the caller's source liquidity at slot 9; both farm-state slots read-only; the payload is the deposit opcode followed by `amount`; signed; the accounts handed along equal the slot keys |
| DepositIx.SignersAreAuthorityOnly | programs/anchor-looping/src/instructions/deposit.rs:247-265 | every call of the deposit path marks only the authority as a signer, and only on the call carrying its seeds |
| DepositIx.RefreshReserveCollateral | programs/anchor-looping/src/instructions/deposit.rs:116-146 | issues exactly the collateral reserve's refresh call, unsigned |
| DepositIx.RefreshReserveBorrow | programs/anchor-looping/src/instructions/deposit.rs:156-190 | without a borrow reserve, succeeds with no call; otherwise issues exactly that reserve's refresh call |
| DepositIx.RefreshObligation | programs/anchor-looping/src/instructions/deposit.rs:198-239 | the conditionally pushed lists make exactly `RefreshObligationCall(flags)` |
| DepositIx.Deposit | programs/anchor-looping/src/instructions/deposit.rs:241-303 | issues exactly `DepositCall` for the caller's `amount` |
| InitializeIx.InitUserMetadataCall | programs/anchor-looping/src/instructions/initialize.rs:99-139 | 6 slots; the authority (read-only) and the payer (writable) are the only signers; the payload is the opcode followed by the 32-byte all-zero key, 40 bytes; signed; the accounts handed along equal the slot keys |
| InitializeIx.InitObligationCall | programs/anchor-looping/src/instructions/initialize.rs:148-193 | 9 slots; the authority and the payer are the only signers; the system program fills both seed slots; the payload is the opcode followed by tag 0 and id 0, 10 bytes; signed; the 7 accounts handed along cover every slot |
| InitializeIx.InitObligationFarmsCall | programs/anchor-looping/src/instructions/initialize.rs:198-242 | 11 slots; the payer is the only signer; the authority is named but not a signer; the payload is the opcode followed by mode 0, 9 bytes; sent without seeds |
| InitializeIx.SignersAccountedForInSetup | programs/anchor-looping/src/instructions/initialize.rs:105-112 | setup marks only the payer and the authority as signers, and the authority only on calls carrying its seeds |
| InitializeIx.InitializeUserMetadata | programs/anchor-looping/src/instructions/initialize.rs:99-139 | issues exactly `InitUserMetadataCall`, signed |
| InitializeIx.InitializeObligation | programs/anchor-looping/src/instructions/initialize.rs:148-193 | issues exactly `InitObligationCall`, signed |
| InitializeIx.InitializeObligationFarmsForReserve | programs/anchor-looping/src/instructions/initialize.rs:198-242 | issues exactly `InitObligationFarmsCall`, unsigned |

## Left out

- The authority's address and bump derivation (programs/anchor-looping/src/constant.rs:3-4) and every `seeds`/`bump` account constraint. These rest on program-address hashing. The bump is a parameter of each privileged call, and the program ids are keys in the accounts values.
- The lending program, the swap aggregator and the runtime's `invoke`. They are foreign code. The host records each call and answers it through an oracle.
- `TokenAccount::reload`. It is an account read. It is modelled as an optional new balance, where `None` stands for a failed read.
- The framework's account validation (`#[derive(Accounts)]`, account types, address constraints) and the flags of the accounts handed along. The model keeps only their keys, so `InfosCoverMetas` and `accountInfos == Keys(...)` are stated on keys.
- The entry points in programs/anchor-looping/src/lib.rs. They are not part of this model, and the order in which a client chains the handlers is not modelled either.
- The TypeScript tests in tests/. They are network and client code.
- The contents of a route payload between its tag and its 19-byte tail. The program never reads them.
- CheckSwapCollateral and CheckSwapForCollateral: the model follows a build with overflow checks enabled, where a payload shorter than 19 bytes aborts at the offset subtraction; both are `Err(Panic)`. The workspace's build profile is not part of this model. Without overflow checks the unwind path still aborts, at the slice of programs/anchor-looping/src/instructions/repay.rs:314. The leverage path differs: the subtraction at programs/anchor-looping/src/instructions/looping.rs:313-314 wraps, and the tag comparison at line 316 runs first. So a payload of 8 to 18 bytes with a wrong tag returns `InvalidInstructionData` (line 317) there, where the model says `Err(Panic)`.
