/** What this program relies on of the swap aggregator's payloads and
    account lists: the leading eight-byte route tag, the amount and slippage
    fields at fixed offsets from the END of the payload, and the way the
    caller's trailing accounts are passed through. Route internals between
    the tag and the tail are never read. */
module Jupiter {
  import opened Bytes
  import opened Cpi

  const SHARED_ACCOUNTS_ROUTE_DISCRIMINATOR: seq<byte> := [193, 32, 155, 51, 65, 214, 156, 129]
  const SHARED_ACCOUNTS_EXACT_OUT_ROUTE_DISCRIMINATOR: seq<byte> := [176, 209, 105, 168, 154, 125, 69, 62]
  const EXACT_OUT_ROUTE_DISCRIMINATOR: seq<byte> := [208, 51, 239, 151, 123, 43, 237, 92]

  /** The only slippage tolerance accepted, in basis points. */
  const SLIPPAGE_BPS: u16 := 50

  /** The tail the checks read: amount (8), the other quoted amount (8),
      slippage (2) and one last byte (1). A shorter payload makes the offset
      arithmetic `len - 2 - 1 - 8 - 8` underflow. */
  const TAIL_LEN: nat := 19

  /** `data.starts_with(tag)`. */
  predicate StartsWith(data: seq<byte>, tag: seq<byte>) {
    |tag| <= |data| && data[..|tag|] == tag
  }

  /** A payload starts with a tag exactly when it is at least as long and
      agrees with the tag byte for byte; it is then the tag followed by the rest. */
  lemma StartsWithBytes(data: seq<byte>, tag: seq<byte>)
    ensures StartsWith(data, tag) <==> |tag| <= |data| && forall i :: 0 <= i < |tag| ==> data[i] == tag[i]
    ensures StartsWith(data, tag) ==> data == tag + data[|tag|..]
  {
    if |tag| <= |data| {
      assert data == data[..|tag|] + data[|tag|..];
    }
  }

  /** The `u64` read at `len - 19 .. len - 11`: the amount whose encoding is
      exactly those eight bytes. */
  function TailAmount(data: seq<byte>): (r: u64)
    requires |data| >= TAIL_LEN
    ensures U64ToLeBytes(r) == data[|data| - 19 .. |data| - 11]
  {
    U64BytesRoundTrip(data[|data| - 19 .. |data| - 11]);
    U64FromLeBytes(data[|data| - 19 .. |data| - 11])
  }

  /** The `u16` read at `len - 3 .. len - 1`: the slippage whose encoding is
      exactly those two bytes. */
  function TailSlippage(data: seq<byte>): (r: u16)
    requires |data| >= TAIL_LEN
    ensures U16ToLeBytes(r) == data[|data| - 3 .. |data| - 1]
  {
    U16BytesRoundTrip(data[|data| - 3 .. |data| - 1]);
    U16FromLeBytes(data[|data| - 3 .. |data| - 1])
  }

  /** The layout of a route payload: tag, route fields, amount, the other
      quoted amount, slippage in basis points, and a last byte. */
  function SwapPayload(tag: seq<byte>, route: seq<byte>, amount: u64, otherAmount: seq<byte>,
                       slippageBps: u16, last: byte): (p: seq<byte>)
    requires |tag| == 8 && |otherAmount| == 8
    ensures |p| == |route| + 27
    ensures StartsWith(p, tag)
  {
    tag + route + U64ToLeBytes(amount) + otherAmount + U16ToLeBytes(slippageBps) + [last]
  }

  /** The tail fields depend on the last 19 bytes alone, whatever precedes them. */
  lemma {:induction false} TailAnchoredToEnd(prefix: seq<byte>, tail: seq<byte>)
    requires |tail| == TAIL_LEN
    ensures TailAmount(prefix + tail) == U64FromLeBytes(tail[..8])
    ensures TailSlippage(prefix + tail) == U16FromLeBytes(tail[16..18])
  {
    var d := prefix + tail;
    assert d[|d| - 19 .. |d| - 11] == tail[..8];
    assert d[|d| - 3 .. |d| - 1] == tail[16..18];
  }

  /** A payload laid out as above carries its amount and slippage in the tail fields. */
  lemma {:induction false} SwapPayloadFields(tag: seq<byte>, route: seq<byte>, amount: u64, otherAmount: seq<byte>,
                                             slippageBps: u16, last: byte)
    requires |tag| == 8 && |otherAmount| == 8
    ensures TailAmount(SwapPayload(tag, route, amount, otherAmount, slippageBps, last)) == amount
    ensures TailSlippage(SwapPayload(tag, route, amount, otherAmount, slippageBps, last)) == slippageBps
  {
    var tail := U64ToLeBytes(amount) + otherAmount + U16ToLeBytes(slippageBps) + [last];
    assert SwapPayload(tag, route, amount, otherAmount, slippageBps, last) == (tag + route) + tail;
    TailAnchoredToEnd(tag + route, tail);
    assert tail[..8] == U64ToLeBytes(amount);
    assert tail[16..18] == U16ToLeBytes(slippageBps);
    U64RoundTrip(amount);
    U16RoundTrip(slippageBps);
  }

  /** Every payload long enough to hold a tag and a tail has that layout. */
  lemma {:induction false} SwapPayloadDecomposes(p: seq<byte>)
    requires |p| >= 8 + TAIL_LEN
    ensures p == SwapPayload(p[..8], p[8 .. |p| - 19], TailAmount(p), p[|p| - 11 .. |p| - 3],
                             TailSlippage(p), p[|p| - 1])
  {
    var n := |p|;
    U64BytesRoundTrip(p[n - 19 .. n - 11]);
    U16BytesRoundTrip(p[n - 3 .. n - 1]);
    assert p == p[..8] + p[8 .. n - 19] + p[n - 19 .. n - 11] + p[n - 11 .. n - 3] + p[n - 3 .. n - 1] + [p[n - 1]];
  }

  /** A trailing caller account as the swap sees it: never a signer, writable as supplied. */
  function PassThroughMeta(acc: AccountInfo): (m: AccountMeta)
    ensures m.pubkey == acc.key && m.isWritable == acc.isWritable
    ensures !m.isSigner
  {
    AccountMeta(acc.key, false, acc.isWritable)
  }

  function PassThroughMetas(remaining: seq<AccountInfo>): (r: seq<AccountMeta>)
    ensures |r| == |remaining|
    ensures forall i :: 0 <= i < |r| ==> r[i] == PassThroughMeta(remaining[i])
    ensures NoSigner(r)
  {
    seq(|remaining|, i requires 0 <= i < |remaining| => PassThroughMeta(remaining[i]))
  }

  /** `accounts.extend(remaining.iter().map(...))`: each caller account, in
      order, as a non-signer slot with the caller's writability. */
  method ExtendMetas(accounts: seq<AccountMeta>, remaining: seq<AccountInfo>) returns (r: seq<AccountMeta>)
    ensures |r| == |accounts| + |remaining|
    ensures r[..|accounts|] == accounts
    ensures forall i :: 0 <= i < |remaining| ==>
              r[|accounts| + i] == AccountMeta(remaining[i].key, false, remaining[i].isWritable)
    ensures r == accounts + PassThroughMetas(remaining)
  {
    r := accounts;
    var i := 0;
    while i < |remaining|
      invariant 0 <= i <= |remaining|
      invariant |r| == |accounts| + i
      invariant r[..|accounts|] == accounts
      invariant forall k :: 0 <= k < i ==> r[|accounts| + k] == PassThroughMeta(remaining[k])
    {
      r := r + [PassThroughMeta(remaining[i])];
      i := i + 1;
    }
    assert r == accounts + PassThroughMetas(remaining);
  }

  /** `account_infos.extend(remaining.iter().map(clone))`: every caller account, in order. */
  method ExtendInfos(infos: seq<Pubkey>, remaining: seq<AccountInfo>) returns (r: seq<Pubkey>)
    ensures |r| == |infos| + |remaining|
    ensures r[..|infos|] == infos
    ensures forall i :: 0 <= i < |remaining| ==> r[|infos| + i] == remaining[i].key
    ensures r == infos + InfoKeys(remaining)
  {
    r := infos;
    var i := 0;
    while i < |remaining|
      invariant 0 <= i <= |remaining|
      invariant |r| == |infos| + i
      invariant r[..|infos|] == infos
      invariant forall k :: 0 <= k < i ==> r[|infos| + k] == remaining[k].key
    {
      r := r + [remaining[i].key];
      i := i + 1;
    }
    assert r == infos + InfoKeys(remaining);
  }

  /** When the fixed slots' keys are all handed along, so are those of the
      caller accounts appended after them, since every caller account is. */
  lemma PassThroughCovered(fixed: seq<AccountMeta>, fixedInfos: seq<Pubkey>, remaining: seq<AccountInfo>, skip: nat)
    requires skip <= |remaining|
    requires forall i :: 0 <= i < |fixed| ==> fixed[i].pubkey in fixedInfos
    ensures var metas := fixed + PassThroughMetas(remaining[skip..]);
            forall i :: 0 <= i < |metas| ==> metas[i].pubkey in fixedInfos + InfoKeys(remaining)
  {
    var metas := fixed + PassThroughMetas(remaining[skip..]);
    var infos := fixedInfos + InfoKeys(remaining);
    forall i | 0 <= i < |metas|
      ensures metas[i].pubkey in infos
    {
      if i < |fixed| {
        assert metas[i] == fixed[i];
      } else {
        var j := i - |fixed| + skip;
        assert metas[i].pubkey == remaining[j].key;
        assert infos[|fixedInfos| + j] == remaining[j].key;
      }
    }
  }

  /** The thirteen fixed slots of a shared-accounts route: the caller's first
      three accounts fill slots 1 (program authority, read-only), 4 and 5
      (program source and destination token accounts, writable); the user's
      transfer authority at slot 2 is the one signer; the aggregator's own id
      fills the unused fee and token-2022 slots and the program slot. */
  function SharedAccountsFixedMetas(
    tokenProgram: Pubkey, programAuthority: Pubkey, userTransferAuthority: Pubkey,
    sourceTokenAccount: Pubkey, programSourceTokenAccount: Pubkey, programDestinationTokenAccount: Pubkey,
    destinationTokenAccount: Pubkey, sourceMint: Pubkey, destinationMint: Pubkey,
    eventAuthority: Pubkey, jupiterProgram: Pubkey): (r: seq<AccountMeta>)
    ensures |r| == 13
    ensures SoleSignerAt(r, 2) && r[2].pubkey == userTransferAuthority
    ensures r[1] == AccountMeta(programAuthority, false, false)
    ensures r[4] == AccountMeta(programSourceTokenAccount, false, true)
    ensures r[5] == AccountMeta(programDestinationTokenAccount, false, true)
    ensures Keys(r) == [tokenProgram, programAuthority, userTransferAuthority, sourceTokenAccount,
                        programSourceTokenAccount, programDestinationTokenAccount, destinationTokenAccount,
                        sourceMint, destinationMint, jupiterProgram, jupiterProgram, eventAuthority, jupiterProgram]
    ensures forall i :: 0 <= i < 13 ==> (r[i].isWritable <==> i in {3, 4, 5, 6})
  {
    [
      Readonly(tokenProgram, false),
      Readonly(programAuthority, false),
      Readonly(userTransferAuthority, true),
      Writable(sourceTokenAccount, false),
      Writable(programSourceTokenAccount, false),
      Writable(programDestinationTokenAccount, false),
      Writable(destinationTokenAccount, false),
      Readonly(sourceMint, false),
      Readonly(destinationMint, false),
      Readonly(jupiterProgram, false),
      Readonly(jupiterProgram, false),
      Readonly(eventAuthority, false),
      Readonly(jupiterProgram, false)
    ]
  }

  /** A shared-accounts route call: the thirteen fixed slots, then the
      caller's accounts from the fourth on as pass-through slots; the
      accounts handed along are the fixed roles followed by every caller
      account. The payload is forwarded unchanged. */
  function SharedAccountsRouteCall(
    tokenProgram: Pubkey, userTransferAuthority: Pubkey, sourceTokenAccount: Pubkey,
    destinationTokenAccount: Pubkey, sourceMint: Pubkey, destinationMint: Pubkey,
    eventAuthority: Pubkey, jupiterProgram: Pubkey,
    data: seq<byte>, remaining: seq<AccountInfo>, signerSeeds: seq<seq<seq<byte>>>): (c: Invocation)
    requires |remaining| >= 3
    ensures c.instruction.programId == jupiterProgram
    ensures c.instruction.data == data
    ensures c.signerSeeds == signerSeeds
    ensures |c.instruction.accounts| == 13 + (|remaining| - 3)
    ensures c.instruction.accounts[..13] == SharedAccountsFixedMetas(
              tokenProgram, remaining[0].key, userTransferAuthority, sourceTokenAccount, remaining[1].key,
              remaining[2].key, destinationTokenAccount, sourceMint, destinationMint, eventAuthority, jupiterProgram)
    ensures SoleSignerAt(c.instruction.accounts, 2)
    ensures c.instruction.accounts[2].pubkey == userTransferAuthority
    ensures c.instruction.accounts[1].pubkey == remaining[0].key
    ensures c.instruction.accounts[4].pubkey == remaining[1].key
    ensures c.instruction.accounts[5].pubkey == remaining[2].key
    ensures c.instruction.accounts[13..] == PassThroughMetas(remaining[3..])
    ensures InfosCoverMetas(c)
  {
    var fixed := SharedAccountsFixedMetas(tokenProgram, remaining[0].key, userTransferAuthority,
                                          sourceTokenAccount, remaining[1].key, remaining[2].key,
                                          destinationTokenAccount, sourceMint, destinationMint,
                                          eventAuthority, jupiterProgram);
    var fixedInfos := [tokenProgram, remaining[0].key, userTransferAuthority, sourceTokenAccount,
                       remaining[1].key, remaining[2].key, destinationTokenAccount, sourceMint,
                       destinationMint, eventAuthority, jupiterProgram];
    assert forall i :: 0 <= i < |fixed| ==> fixed[i].pubkey == Keys(fixed)[i];
    PassThroughCovered(fixed, fixedInfos, remaining, 3);
    var c := Invocation(Instruction(jupiterProgram, fixed + PassThroughMetas(remaining[3..]), data),
                        fixedInfos + InfoKeys(remaining), signerSeeds);
    assert c.instruction.accounts[..13] == fixed;
    assert c.instruction.accounts[13..] == PassThroughMetas(remaining[3..]);
    c
  }
}
