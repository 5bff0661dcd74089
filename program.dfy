/**
 * The escrow service of the client (`EscrowProgram`): the offer address
 * derived from a fixed seed list, the lookup that reconciles an offer record
 * with the live balance of its vault, and the offer-existence check.
 */
module Escrow {
  import opened Optional
  import opened Bytes
  import opened Decimal
  import opened Chain

  /** The first seed of every offer address: the UTF-8 bytes of "offer". */
  const OfferTag: seq<Byte> := AsciiBytes("offer")

  lemma OfferTagBytes()
    ensures OfferTag == [0x6f, 0x66, 0x66, 0x65, 0x72]
  {
  }

  /**
   * The seed list of an offer address: "offer", the maker's 32 key bytes, and the
   * offer id as 8 little-endian bytes, in that order. Only ids below 2^64 fit.
   */
  function OfferSeeds(maker: Key, offerId: nat): (seeds: seq<seq<Byte>>)
    requires offerId < TwoTo64
    ensures |seeds| == 3 && seeds[0] == OfferTag && seeds[1] == maker
    ensures |seeds[2]| == 8 && FromLittleEndian(seeds[2]) == offerId
  {
    Pow256Of8();
    LittleEndianRoundTrip(offerId, 8);
    [OfferTag, maker, LittleEndian(offerId, 8)]
  }

  /** Distinct (maker, id) pairs give distinct seed lists. */
  lemma OfferSeedsInjective(maker1: Key, id1: nat, maker2: Key, id2: nat)
    requires id1 < TwoTo64 && id2 < TwoTo64
    requires OfferSeeds(maker1, id1) == OfferSeeds(maker2, id2)
    ensures maker1 == maker2 && id1 == id2
  {
    assert OfferSeeds(maker1, id1)[2] == OfferSeeds(maker2, id2)[2];
  }

  /** Every reordering of the three seeds is a different seed list. */
  lemma OfferSeedsOrderSensitive(maker: Key, offerId: nat)
    requires offerId < TwoTo64
    ensures var s := OfferSeeds(maker, offerId);
      && s != [s[0], s[2], s[1]] && s != [s[1], s[0], s[2]] && s != [s[1], s[2], s[0]]
      && s != [s[2], s[0], s[1]] && s != [s[2], s[1], s[0]]
  {
    var s := OfferSeeds(maker, offerId);
    assert |s[0]| == 5 && |s[1]| == 32 && |s[2]| == 8;
  }

  /**
   * `createOfferPda`: the program-derived address of an offer. `None` where
   * encoding the id throws, that is for ids of 2^64 and above.
   */
  function OfferPda(web3: Web3, programId: Key, maker: Key, offerId: nat): (r: Option<Key>)
    ensures r.Some? <==> offerId < TwoTo64
    ensures r.Some? ==> r.value == web3.findProgramAddress(OfferSeeds(maker, offerId), programId).0
  {
    if offerId < TwoTo64 then Some(web3.findProgramAddress(OfferSeeds(maker, offerId), programId).0)
    else None
  }

  /** The vault of an offer: the token account of `mint` owned by the offer address. */
  function Vault(web3: Web3, mint: Key, offerAddress: Key): (vault: Key)
    ensures AssociatedTokenAddress(web3, mint, offerAddress, true) == Some(vault)
  {
    AssociatedTokenAddress(web3, mint, offerAddress, true).value
  }

  /** The reconciled view of an offer that `getOffer` returns. */
  datatype FoundOffer = FoundOffer(
    id: string,
    offerId: nat,
    maker: Key,
    tokenMintA: Key,
    tokenMintB: Key,
    tokenBWantedAmount: nat,
    tokenAOfferedAmount: nat,
    offerAddress: Key,
    vault: Key)

  /** The record of an offer can be fetched: the id encodes, the network answers and the account decodes. */
  predicate RecordFetched(net: Network, web3: Web3, programId: Key, maker: Key, offerId: nat) {
    var pda := OfferPda(web3, programId, maker, offerId);
    pda.Some? && net.reachable && pda.value in net.offerAccounts
  }

  /**
   * `getOffer`: the offer record, with the offered amount replaced by the live
   * balance of the vault (0 when the vault cannot be read); `None` when the
   * record cannot be fetched.
   */
  function LookupOffer(net: Network, web3: Web3, programId: Key, maker: Key, offerId: nat): (r: Option<FoundOffer>)
    ensures r.None? <==> !RecordFetched(net, web3, programId, maker, offerId)
    ensures r.Some? ==>
      var pda := OfferPda(web3, programId, maker, offerId).value;
      var record := net.offerAccounts[pda];
      var o := r.value;
      && o.offerAddress == pda
      && o.vault == web3.associatedTokenAddress(record.tokenMintA, pda)
      && (o.vault in net.tokenAccounts ==> o.tokenAOfferedAmount == net.tokenAccounts[o.vault])
      && (o.vault !in net.tokenAccounts ==> o.tokenAOfferedAmount == 0)
      && o.offerId == record.id && o.id == NatToDecimal(record.id) && ParseDecimal(o.id) == Some(record.id)
      && o.maker == record.maker && o.tokenMintA == record.tokenMintA
      && o.tokenMintB == record.tokenMintB && o.tokenBWantedAmount == record.tokenBWantedAmount
  {
    if !RecordFetched(net, web3, programId, maker, offerId) then None
    else
      var offerAddress := OfferPda(web3, programId, maker, offerId).value;
      var record := net.offerAccounts[offerAddress];
      var vault := Vault(web3, record.tokenMintA, offerAddress);
      var amount := if vault in net.tokenAccounts then net.tokenAccounts[vault] else 0;
      DecimalRoundTrip(record.id);
      Some(FoundOffer(NatToDecimal(record.id), record.id, record.maker, record.tokenMintA,
                      record.tokenMintB, record.tokenBWantedAmount, amount, offerAddress, vault))
  }

  /**
   * An offer is live exactly when its record can be fetched and its vault holds
   * a positive balance; a fetched record with an empty or missing vault is taken.
   */
  lemma LiveIffRecordAndFundedVault(net: Network, web3: Web3, programId: Key, maker: Key, offerId: nat)
    ensures var r := LookupOffer(net, web3, programId, maker, offerId);
      (r.Some? && r.value.tokenAOfferedAmount > 0) <==>
        && RecordFetched(net, web3, programId, maker, offerId)
        && var pda := OfferPda(web3, programId, maker, offerId).value;
           var vault := Vault(web3, net.offerAccounts[pda].tokenMintA, pda);
           vault in net.tokenAccounts && net.tokenAccounts[vault] > 0
  {
  }

  /**
   * The address a lookup reports is `createOfferPda` of maker and id, which
   * reads no network state: every network snapshot yields the same address.
   */
  lemma LookupAddressIsOfferPda(net: Network, web3: Web3, programId: Key, maker: Key, offerId: nat)
    ensures LookupOffer(net, web3, programId, maker, offerId).Some? ==>
      && offerId < TwoTo64
      && LookupOffer(net, web3, programId, maker, offerId).value.offerAddress
         == web3.findProgramAddress(OfferSeeds(maker, offerId), programId).0
  {
  }

  /** `checkOfferExists` answers true: the address for (wallet, id) holds an account. */
  predicate OfferAccountExists(net: Network, web3: Web3, programId: Key, wallet: Key, offerId: nat) {
    var pda := OfferPda(web3, programId, wallet, offerId);
    pda.Some? && net.reachable && pda.value in net.accounts
  }

  /** On a consistent network, an offer the wallet can look up is one the existence check reports. */
  lemma FetchedOfferExists(net: Network, web3: Web3, programId: Key, wallet: Key, offerId: nat)
    requires net.Valid()
    requires LookupOffer(net, web3, programId, wallet, offerId).Some?
    ensures OfferAccountExists(net, web3, programId, wallet, offerId)
  {
  }

  /**
   * The client of the escrow program. The connection, the wallet's key, the
   * library functions and the program id are fixed at construction.
   */
  class EscrowProgram {
    const connection: Network
    const wallet: Key
    const web3: Web3
    const programId: Key

    constructor (connection: Network, wallet: Key, web3: Web3, programId: Key)
      ensures this.connection == connection && this.wallet == wallet
      ensures this.web3 == web3 && this.programId == programId
    {
      this.connection := connection;
      this.wallet := wallet;
      this.web3 := web3;
      this.programId := programId;
    }

    /** `checkOfferExists`: looks for the account at the wallet's own offer address; false on any error. */
    method CheckOfferExists(offerId: nat) returns (found: bool)
      ensures found <==> OfferAccountExists(connection, web3, programId, wallet, offerId)
    {
      var offerAddress := OfferPda(web3, programId, wallet, offerId);
      if offerAddress.None? || !connection.reachable {
        return false;
      }
      found := offerAddress.value in connection.accounts;
    }

    /** `getOffer`: fetches the record, derives the vault and takes its balance as the offered amount. */
    method GetOffer(maker: Key, offerId: nat) returns (r: Option<FoundOffer>)
      ensures r == LookupOffer(connection, web3, programId, maker, offerId)
    {
      var offerAddress := OfferPda(web3, programId, maker, offerId);
      if offerAddress.None? || !connection.reachable || offerAddress.value !in connection.offerAccounts {
        return None;
      }
      var offerAccount := connection.offerAccounts[offerAddress.value];
      var vault := Vault(web3, offerAccount.tokenMintA, offerAddress.value);
      var tokenAOfferedAmount := 0;
      if vault in connection.tokenAccounts {
        tokenAOfferedAmount := connection.tokenAccounts[vault];
      }
      r := Some(FoundOffer(NatToDecimal(offerAccount.id), offerAccount.id, offerAccount.maker,
                           offerAccount.tokenMintA, offerAccount.tokenMintB,
                           offerAccount.tokenBWantedAmount, tokenAOfferedAmount,
                           offerAddress.value, vault));
    }

    /** `makeOffer`: not implemented; always returns null. */
    method MakeOffer(tokenMintA: Key, tokenMintB: Key, tokenAmountA: real, tokenAmountB: real,
                     userOfferId: string) returns (r: Option<string>)
      ensures r == None
    {
      r := None;
    }

    /** `takeOffer`: not implemented; always returns null. */
    method TakeOffer(maker: Key, offer: Key, tokenMintA: Key, tokenMintB: Key) returns (r: Option<string>)
      ensures r == None
    {
      r := None;
    }
  }
}
