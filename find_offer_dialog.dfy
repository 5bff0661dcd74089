/**
 * The "Find Offer" dialog: its search turns the form and the lookup into
 * exactly one outcome and keeps `foundOffer` and `isSearching` in step.
 */
module FindOffer {
  import opened Optional
  import opened Decimal
  import opened Chain
  import opened Escrow

  /** What a search ends with (the message the dialog shows). */
  datatype SearchOutcome =
    | MissingInput      // asks for both the maker address and the offer id
    | NoWallet          // asks to connect a wallet
    | SearchError       // the inputs could not be read
    | NotFound          // no offer for this maker and id
    | AlreadyTaken      // the offer exists but its vault is empty
    | Found(offer: FoundOffer)

  /** What pressing the take button does. */
  datatype TakeOutcome = ConnectWallet | NothingToTake | HandedOver(offer: FoundOffer)

  /** The two inputs of the form. */
  datatype Field = MakerAddress | OfferId

  /** `handleSearch` as a function of the form, the wallet and the network. */
  function Search(makerAddress: string, offerId: string, wallet: Option<Key>,
                  net: Network, web3: Web3, programId: Key): (o: SearchOutcome)
    ensures o.MissingInput? <==> makerAddress == [] || offerId == []
    ensures o.NoWallet? <==> makerAddress != [] && offerId != [] && wallet.None?
    ensures o.SearchError? <==>
      && makerAddress != [] && offerId != [] && wallet.Some?
      && (web3.parsePublicKey(makerAddress).None? || ParseDecimal(offerId).None?)
    ensures (o.NotFound? || o.AlreadyTaken? || o.Found?) ==>
      && makerAddress != [] && offerId != [] && wallet.Some?
      && web3.parsePublicKey(makerAddress).Some? && ParseDecimal(offerId).Some?
      && var r := LookupOffer(net, web3, programId, web3.parsePublicKey(makerAddress).value,
                              ParseDecimal(offerId).value);
      && (o.NotFound? ==> r.None?)
      && (o.AlreadyTaken? ==> r.Some? && r.value.tokenAOfferedAmount == 0)
      && (o.Found? ==> r == Some(o.offer) && o.offer.tokenAOfferedAmount > 0)
  {
    if makerAddress == [] || offerId == [] then MissingInput
    else if wallet.None? then NoWallet
    else
      var maker := web3.parsePublicKey(makerAddress);
      var id := ParseDecimal(offerId);
      if maker.None? || id.None? then SearchError
      else
        match LookupOffer(net, web3, programId, maker.value, id.value)
        case None => NotFound
        case Some(offer) => if offer.tokenAOfferedAmount == 0 then AlreadyTaken else Found(offer)
  }

  /**
   * Once the form is filled, a wallet is present and both inputs parse, the
   * outcome is decided by the network alone: no record is "not found", a record
   * whose vault is empty or missing is "already taken", and a funded vault is "found".
   */
  lemma SearchSplitsOnRecordAndVault(makerAddress: string, offerId: string, wallet: Option<Key>,
                                     net: Network, web3: Web3, programId: Key)
    requires makerAddress != [] && offerId != [] && wallet.Some?
    requires web3.parsePublicKey(makerAddress).Some? && ParseDecimal(offerId).Some?
    ensures var maker := web3.parsePublicKey(makerAddress).value;
      var id := ParseDecimal(offerId).value;
      var o := Search(makerAddress, offerId, wallet, net, web3, programId);
      && (o.NotFound? <==> !RecordFetched(net, web3, programId, maker, id))
      && (RecordFetched(net, web3, programId, maker, id) ==>
            var pda := OfferPda(web3, programId, maker, id).value;
            var vault := Vault(web3, net.offerAccounts[pda].tokenMintA, pda);
            var funded := vault in net.tokenAccounts && net.tokenAccounts[vault] > 0;
            (o.AlreadyTaken? <==> !funded) && (o.Found? <==> funded))
  {
    var maker := web3.parsePublicKey(makerAddress).value;
    var id := ParseDecimal(offerId).value;
    LiveIffRecordAndFundedVault(net, web3, programId, maker, id);
  }

  /**
   * Maker M, id "7", a vault holding 500 units: the search finds the offer with
   * 500 offered. Once the vault is drained to 0, the same search reports it taken.
   */
  lemma LiveThenDrained(makerText: string, maker: Key, wallet: Key, net: Network, web3: Web3, programId: Key)
    requires makerText != [] && web3.parsePublicKey(makerText) == Some(maker)
    requires RecordFetched(net, web3, programId, maker, 7)
    requires var pda := OfferPda(web3, programId, maker, 7).value;
      var vault := Vault(web3, net.offerAccounts[pda].tokenMintA, pda);
      vault in net.tokenAccounts && net.tokenAccounts[vault] == 500
    ensures var o := Search(makerText, "7", Some(wallet), net, web3, programId);
      o.Found? && o.offer.tokenAOfferedAmount == 500
    ensures var pda := OfferPda(web3, programId, maker, 7).value;
      var vault := Vault(web3, net.offerAccounts[pda].tokenMintA, pda);
      var drained := net.(tokenAccounts := net.tokenAccounts[vault := 0]);
      Search(makerText, "7", Some(wallet), drained, web3, programId) == AlreadyTaken
  {
    assert ParseDecimal("7") == Some(7);
  }

  /** The dialog's state: the form, the offer on display and the busy flag. */
  class FindOfferDialog {
    const isWalletConnected: bool
    var isOpen: bool
    var isSearching: bool
    var foundOffer: Option<FoundOffer>
    var makerAddress: string
    var offerId: string

    constructor (isWalletConnected: bool)
      ensures this.isWalletConnected == isWalletConnected
      ensures !isOpen && !isSearching && foundOffer == None && makerAddress == [] && offerId == []
    {
      this.isWalletConnected := isWalletConnected;
      isOpen := false;
      isSearching := false;
      foundOffer := None;
      makerAddress := [];
      offerId := [];
    }

    /**
     * `handleSearch`. Empty inputs stop it before anything changes; otherwise
     * `foundOffer` is cleared before the lookup, set only to a live offer, and
     * `isSearching` is false again at the end.
     */
    method HandleSearch(wallet: Option<Key>, net: Network, web3: Web3, programId: Key)
      returns (outcome: SearchOutcome)
      modifies this
      ensures outcome == Search(old(makerAddress), old(offerId), wallet, net, web3, programId)
      ensures makerAddress == old(makerAddress) && offerId == old(offerId) && isOpen == old(isOpen)
      ensures outcome.MissingInput? ==> isSearching == old(isSearching) && foundOffer == old(foundOffer)
      ensures !outcome.MissingInput? ==> !isSearching
      ensures !outcome.MissingInput? ==> foundOffer == if outcome.Found? then Some(outcome.offer) else None
    {
      if makerAddress == [] || offerId == [] {
        return MissingInput;
      }
      isSearching := true;
      foundOffer := None;

      if wallet.None? {
        isSearching := false;
        return NoWallet;
      }
      var contract := new EscrowProgram(net, wallet.value, web3, programId);
      var maker := web3.parsePublicKey(makerAddress);
      var id := ParseDecimal(offerId);
      if maker.None? || id.None? {
        // `new PublicKey` or `new BN` threw inside the try
        outcome := SearchError;
      } else {
        var offer := contract.GetOffer(maker.value, id.value);
        if offer.None? {
          outcome := NotFound;
        } else if offer.value.tokenAOfferedAmount == 0 {
          outcome := AlreadyTaken;
        } else {
          foundOffer := offer;
          outcome := Found(offer.value);
        }
      }
      isSearching := false;
    }

    /**
     * `handleTakeOffer`. Without a connected wallet it only asks to connect;
     * with one and an offer on display it hands the offer over, closes the
     * dialog and clears the offer and both inputs.
     */
    method HandleTakeOffer() returns (outcome: TakeOutcome)
      modifies this
      ensures !isWalletConnected ==> outcome == ConnectWallet
      ensures isWalletConnected && old(foundOffer).None? ==> outcome == NothingToTake
      ensures isWalletConnected && old(foundOffer).Some? ==> outcome == HandedOver(old(foundOffer).value)
      ensures outcome.HandedOver? ==>
        && !isOpen && foundOffer == None && makerAddress == [] && offerId == []
        && isSearching == old(isSearching)
      ensures !outcome.HandedOver? ==> unchanged(this)
    {
      if !isWalletConnected {
        // select the first wallet adapter and connect; nothing else changes
        return ConnectWallet;
      }
      if foundOffer.None? {
        return NothingToTake;
      }
      outcome := HandedOver(foundOffer.value);
      isOpen := false;
      foundOffer := None;
      makerAddress, offerId := [], [];
    }

    /** `handleInputChange`: stores the new text of one input and clears the offer on display. */
    method HandleInputChange(field: Field, value: string)
      modifies this
      ensures field == MakerAddress ==> makerAddress == value && offerId == old(offerId)
      ensures field == OfferId ==> offerId == value && makerAddress == old(makerAddress)
      ensures foundOffer == None
      ensures isOpen == old(isOpen) && isSearching == old(isSearching)
    {
      match field {
        case MakerAddress => makerAddress := value;
        case OfferId => offerId := value;
      }
      foundOffer := None;
    }
  }
}
