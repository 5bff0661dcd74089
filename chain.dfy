/**
 * What the client sees of the Solana network and the libraries it calls:
 * public keys, the library functions that parse and derive them, a snapshot
 * of the accounts the RPC connection can read, instructions, and the
 * `Transaction` object the dialogs fill in.
 */
module Chain {
  import opened Optional
  import opened Bytes

  /** A 32-byte public key (`PublicKey.toBuffer()`). */
  type Key = s: seq<Byte> | |s| == 32 witness seq(32, _ => 0)

  /** A recent blockhash in its base-58 text form. */
  type Blockhash = string

  /**
   * The key and address functions of the Solana libraries, taken as given.
   * - `parsePublicKey`: `new PublicKey(text)`; `None` where the constructor throws.
   * - `isOnCurve`: whether a key lies on the ed25519 curve (a wallet key does, a
   *   program-derived address does not).
   * - `findProgramAddress`: `PublicKey.findProgramAddressSync(seeds, programId)`,
   *   the address and its bump seed.
   * - `associatedTokenAddress`: the address `getAssociatedTokenAddressSync`
   *   derives for a (mint, owner) pair under the token and associated-token programs.
   */
  datatype Web3 = Web3(
    parsePublicKey: string -> Option<Key>,
    isOnCurve: Key -> bool,
    findProgramAddress: (seq<seq<Byte>>, Key) -> (Key, Byte),
    associatedTokenAddress: (Key, Key) -> Key)

  /**
   * `getAssociatedTokenAddressSync(mint, owner, allowOwnerOffCurve)`: the library
   * throws when the owner is off the curve and that is not allowed.
   */
  function AssociatedTokenAddress(web3: Web3, mint: Key, owner: Key, allowOwnerOffCurve: bool): (r: Option<Key>)
    ensures r.None? <==> !allowOwnerOffCurve && !web3.isOnCurve(owner)
    ensures r.Some? ==> r.value == web3.associatedTokenAddress(mint, owner)
  {
    if !allowOwnerOffCurve && !web3.isOnCurve(owner) then None
    else Some(web3.associatedTokenAddress(mint, owner))
  }

  /** The decoded `offer` account of the escrow program: the fields the client reads. */
  datatype OfferRecord = OfferRecord(
    id: nat,
    maker: Key,
    tokenMintA: Key,
    tokenMintB: Key,
    tokenBWantedAmount: nat)

  /**
   * One snapshot of what the RPC connection answers.
   * - `reachable`: false when every call throws (network failure).
   * - `accounts`: the addresses for which `getAccountInfo` returns an account.
   * - `offerAccounts`: the addresses `program.account.offer.fetch` decodes, and the record.
   * - `tokenAccounts`: the addresses `getAccount` reads as token accounts, and their amount.
   * - `latestBlockhash`: what `getLatestBlockhash` returns.
   */
  datatype Network = Network(
    reachable: bool,
    accounts: set<Key>,
    offerAccounts: map<Key, OfferRecord>,
    tokenAccounts: map<Key, nat>,
    latestBlockhash: Blockhash)
  {
    /** Every decoded account is an account that exists. */
    predicate Valid() {
      offerAccounts.Keys <= accounts && tokenAccounts.Keys <= accounts
    }
  }

  /** The instructions the client puts into transactions. */
  datatype Instruction =
      /** `createAssociatedTokenAccountInstruction(payer, ata, owner, mint)` */
    | CreateAssociatedTokenAccount(payer: Key, ata: Key, owner: Key, mint: Key)
      /** `createTransferInstruction(source, destination, owner, amount)` of the token program */
    | TokenTransfer(source: Key, destination: Key, owner: Key, amount: nat)
      /** `SystemProgram.transfer({fromPubkey, toPubkey, lamports})` */
    | SystemTransfer(fromPubkey: Key, toPubkey: Key, lamports: nat)

  /** A `Transaction` of `@solana/web3.js` while the client fills it in. */
  class Transaction {
    var instructions: seq<Instruction>
    var feePayer: Option<Key>
    var recentBlockhash: Option<Blockhash>

    constructor ()
      ensures instructions == [] && feePayer == None && recentBlockhash == None
    {
      instructions := [];
      feePayer := None;
      recentBlockhash := None;
    }

    /** `transaction.add(ix)`: appends one instruction and changes nothing else. */
    method Add(ix: Instruction)
      modifies this
      ensures instructions == old(instructions) + [ix]
      ensures feePayer == old(feePayer) && recentBlockhash == old(recentBlockhash)
    {
      instructions := instructions + [ix];
    }
  }
}
