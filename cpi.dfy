/** The runtime's view of a cross-program call: account metas, instructions,
    the accounts handed along with them, and the host that receives each call.
    The host keeps the trace of calls issued and answers each one through a
    pass/fail oracle that stands for the called program. */
module Cpi {
  import opened Bytes

  /** A 32-byte account address. */
  type Pubkey = k: seq<byte> | |k| == 32 witness seq(32, _ => 0)

  /** `Pubkey::default()`: 32 zero bytes. */
  const DEFAULT_PUBKEY: Pubkey := [0, 0, 0, 0, 0, 0, 0, 0, 0, 0, 0, 0, 0, 0, 0, 0,
                                   0, 0, 0, 0, 0, 0, 0, 0, 0, 0, 0, 0, 0, 0, 0, 0]

  datatype Option<+T> = None | Some(value: T)

  /** What a handler returns: Rust's `Result<T>`. */
  datatype Result<+T> = Ok(value: T) | Err(error: Error)

  /** The ways a handler stops short.
      Panic: an arithmetic underflow or an index out of bounds aborts the program.
      RequireEqViolated: a `require_eq!` failed.
      InvalidInstructionData: `ProgramError::InvalidInstructionData`.
      ReloadFailed: re-reading a token account failed.
      ExternalProgramFailed: the called program rejected the call. */
  datatype Error =
    | Panic
    | RequireEqViolated
    | InvalidInstructionData
    | ReloadFailed
    | ExternalProgramFailed

  /** One slot of an instruction's account list. */
  datatype AccountMeta = AccountMeta(pubkey: Pubkey, isSigner: bool, isWritable: bool)

  /** `AccountMeta::new`: a writable slot. */
  function Writable(key: Pubkey, isSigner: bool): AccountMeta {
    AccountMeta(key, isSigner, true)
  }

  /** `AccountMeta::new_readonly`: a read-only slot. */
  function Readonly(key: Pubkey, isSigner: bool): AccountMeta {
    AccountMeta(key, isSigner, false)
  }

  /** An account handed to the program by its caller. */
  datatype AccountInfo = AccountInfo(key: Pubkey, isWritable: bool)

  datatype Instruction = Instruction(programId: Pubkey, accounts: seq<AccountMeta>, data: seq<byte>)

  /** One issued call: `invoke_signed(instruction, account_infos, signer_seeds)`.
      A plain `invoke` is the same call with no signer seeds. */
  datatype Invocation = Invocation(
    instruction: Instruction,
    accountInfos: seq<Pubkey>,
    signerSeeds: seq<seq<seq<byte>>>)

  /** The keys of an account list, in order. */
  function Keys(metas: seq<AccountMeta>): (r: seq<Pubkey>)
    ensures |r| == |metas|
    ensures forall i :: 0 <= i < |r| ==> r[i] == metas[i].pubkey
  {
    seq(|metas|, i requires 0 <= i < |metas| => metas[i].pubkey)
  }

  /** The keys of caller-supplied accounts, in order. */
  function InfoKeys(infos: seq<AccountInfo>): (r: seq<Pubkey>)
    ensures |r| == |infos|
    ensures forall i :: 0 <= i < |r| ==> r[i] == infos[i].key
  {
    seq(|infos|, i requires 0 <= i < |infos| => infos[i].key)
  }

  /** Slot k, and no other slot, is marked as a signer. */
  predicate SoleSignerAt(metas: seq<AccountMeta>, k: nat) {
    k < |metas| && forall i :: 0 <= i < |metas| ==> (metas[i].isSigner <==> i == k)
  }

  /** No slot is marked as a signer. */
  predicate NoSigner(metas: seq<AccountMeta>) {
    forall i :: 0 <= i < |metas| ==> !metas[i].isSigner
  }

  /** Every key the instruction names is among the accounts handed to the runtime. */
  predicate InfosCoverMetas(c: Invocation) {
    forall i :: 0 <= i < |c.instruction.accounts| ==> c.instruction.accounts[i].pubkey in c.accountInfos
  }

  /** Every slot marked as a signer is `authority`, and the call carries
      `authoritySeeds`, the only seeds the program can sign with. */
  predicate OnlyAuthoritySigns(c: Invocation, authority: Pubkey, authoritySeeds: seq<seq<seq<byte>>>) {
    forall i :: 0 <= i < |c.instruction.accounts| && c.instruction.accounts[i].isSigner ==>
      c.instruction.accounts[i].pubkey == authority && c.signerSeeds == authoritySeeds
  }

  /** Every slot marked as a signer is `payer`, who signs the transaction
      itself, or `authority` on a call that carries `authoritySeeds`, the
      only seeds the program can sign with. */
  predicate SignersAccountedFor(c: Invocation, payer: Pubkey, authority: Pubkey,
                                authoritySeeds: seq<seq<seq<byte>>>) {
    forall i :: 0 <= i < |c.instruction.accounts| && c.instruction.accounts[i].isSigner ==>
      c.instruction.accounts[i].pubkey == payer
      || (c.instruction.accounts[i].pubkey == authority && c.signerSeeds == authoritySeeds)
  }

  /** The runtime that receives cross-program calls. `trace` lists every
      call issued so far, in order; `accepts` says whether the called
      program lets a call succeed. */
  class Host {
    var trace: seq<Invocation>
    const accepts: Invocation -> bool

    constructor (accepts: Invocation -> bool)
      ensures trace == [] && this.accepts == accepts
    {
      trace := [];
      this.accepts := accepts;
    }

    /** The result the called program hands back for a call. */
    function Answer(c: Invocation): Result<()> {
      if accepts(c) then Ok(()) else Err(ExternalProgramFailed)
    }

    /** `invoke`: issues the call with no signer seeds. */
    method Invoke(ix: Instruction, accountInfos: seq<Pubkey>) returns (r: Result<()>)
      modifies this
      ensures trace == old(trace) + [Invocation(ix, accountInfos, [])]
      ensures r == Answer(Invocation(ix, accountInfos, []))
    {
      var c := Invocation(ix, accountInfos, []);
      trace := trace + [c];
      r := Answer(c);
    }

    /** `invoke_signed`: issues the call with the seeds that sign for program-derived signers. */
    method InvokeSigned(ix: Instruction, accountInfos: seq<Pubkey>, signerSeeds: seq<seq<seq<byte>>>)
      returns (r: Result<()>)
      modifies this
      ensures trace == old(trace) + [Invocation(ix, accountInfos, signerSeeds)]
      ensures r == Answer(Invocation(ix, accountInfos, signerSeeds))
    {
      var c := Invocation(ix, accountInfos, signerSeeds);
      trace := trace + [c];
      r := Answer(c);
    }
  }
}
