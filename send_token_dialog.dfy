/**
 * The "Send" dialog of a fungible token: the validation chain against the
 * token balance, the floor conversion to base units, and the instruction
 * list that creates the recipient's token account only when it is missing.
 */
module SendToken {
  import opened Optional
  import opened Chain
  import opened SendForm

  /** `balance / Math.pow(10, decimals)`: the balance in display units. */
  function DisplayBalance(balance: nat, decimals: nat): (r: real)
    ensures r >= 0.0 && r * Pow10(decimals) as real == balance as real
  {
    balance as real / Pow10(decimals) as real
  }

  /**
   * The checks of `handleSend` in order: the shared form checks first, then
   * an amount above the display balance is rejected. An amount equal to it passes.
   */
  function CheckTokenSend(wallet: Option<Key>, recipient: string, amount: string, web3: Web3,
                          numbers: NumberText, balance: nat, decimals: nat): (r: Result<Transfer, InputError>)
    ensures var form := CheckForm(wallet, recipient, amount, web3, numbers);
      && (form.Err? ==> r == form)
      && (form.Ok? ==> (r == Err(InsufficientBalance) <==> form.value.amount > DisplayBalance(balance, decimals)))
      && (form.Ok? && form.value.amount <= DisplayBalance(balance, decimals) ==> r == form)
      && (r.Ok? ==> r == form && r.value.amount <= DisplayBalance(balance, decimals))
  {
    var form := CheckForm(wallet, recipient, amount, web3, numbers);
    if form.Err? then form
    else if form.value.amount > DisplayBalance(balance, decimals) then Err(InsufficientBalance)
    else form
  }

  /** `rawAmount = Math.floor(amount * 10^decimals)`: the amount in base units, rounded down. */
  function RawAmount(amount: real, decimals: nat): (r: int)
    ensures r as real <= amount * Pow10(decimals) as real < r as real + 1.0
    ensures amount >= 0.0 ==> r >= 0
  {
    FloorScale(amount, Pow10(decimals))
  }

  /** A positive amount within the display balance is between 0 and the balance in base units. */
  lemma RawAmountWithinBalance(amount: real, balance: nat, decimals: nat)
    requires 0.0 < amount <= DisplayBalance(balance, decimals)
    ensures 0 <= RawAmount(amount, decimals) <= balance
  {
    FloorScaleWithin(amount, DisplayBalance(balance, decimals), Pow10(decimals));
  }

  /** Whatever passes the checks is sent as at most the whole balance, in base units. */
  lemma AcceptedSendWithinBalance(wallet: Option<Key>, recipient: string, amount: string, web3: Web3,
                                  numbers: NumberText, balance: nat, decimals: nat)
    requires CheckTokenSend(wallet, recipient, amount, web3, numbers, balance, decimals).Ok?
    ensures var t := CheckTokenSend(wallet, recipient, amount, web3, numbers, balance, decimals).value;
      0 <= RawAmount(t.amount, decimals) <= balance
  {
    var t := CheckTokenSend(wallet, recipient, amount, web3, numbers, balance, decimals).value;
    RawAmountWithinBalance(t.amount, balance, decimals);
  }

  /** The whole display balance passes the balance check and is sent as exactly the balance. */
  lemma FullBalanceAccepted(wallet: Option<Key>, recipient: string, amount: string, web3: Web3,
                            numbers: NumberText, balance: nat, decimals: nat)
    requires CheckForm(wallet, recipient, amount, web3, numbers).Ok?
    requires CheckForm(wallet, recipient, amount, web3, numbers).value.amount == DisplayBalance(balance, decimals)
    ensures CheckTokenSend(wallet, recipient, amount, web3, numbers, balance, decimals).Ok?
    ensures RawAmount(DisplayBalance(balance, decimals), decimals) == balance
  {
    var d := DisplayBalance(balance, decimals);
    assert d * Pow10(decimals) as real == balance as real;
  }

  /** A larger raw balance never shows as a smaller display balance. */
  lemma DisplayBalanceMonotone(balance1: nat, balance2: nat, decimals: nat)
    requires balance1 <= balance2
    ensures DisplayBalance(balance1, decimals) <= DisplayBalance(balance2, decimals)
  {
  }

  /** Scaling by a factor of at least 1 keeps a strict order. */
  lemma ScaleKeepsOrder(x: real, y: real, scale: real)
    requires x > y && scale >= 1.0
    ensures x * scale > y * scale
  {
    assert (x - y) * (scale - 1.0) >= 0.0;
  }

  /**
   * With a balance of at least one base unit, a form whose amount is below one
   * base unit (`DisplayBalance(1, decimals)` in display units) passes every
   * check, yet is rounded down to a transfer of zero base units.
   */
  lemma SubUnitAmountSendsZero(wallet: Option<Key>, recipient: string, amount: string, web3: Web3,
                               numbers: NumberText, balance: nat, decimals: nat)
    requires balance >= 1
    requires CheckForm(wallet, recipient, amount, web3, numbers).Ok?
    requires CheckForm(wallet, recipient, amount, web3, numbers).value.amount < DisplayBalance(1, decimals)
    ensures CheckTokenSend(wallet, recipient, amount, web3, numbers, balance, decimals).Ok?
    ensures RawAmount(CheckForm(wallet, recipient, amount, web3, numbers).value.amount, decimals) == 0
  {
    var a := CheckForm(wallet, recipient, amount, web3, numbers).value.amount;
    DisplayBalanceMonotone(1, balance, decimals);
    ScaleKeepsOrder(DisplayBalance(1, decimals), a, Pow10(decimals) as real);
  }

  /**
   * The instruction list of a token send: when the recipient's token account
   * does not exist, an instruction creating it (paid by the sender) comes first;
   * the transfer of `rawAmount` from the sender's account, signed by the
   * sender, always comes last.
   */
  function TokenTransferInstructions(sender: Key, recipient: Key, mint: Key, senderAta: Key, recipientAta: Key,
                                     rawAmount: nat, recipientAtaExists: bool): (r: seq<Instruction>)
    ensures |r| == if recipientAtaExists then 1 else 2
    ensures r[|r| - 1] == TokenTransfer(senderAta, recipientAta, sender, rawAmount)
    ensures !recipientAtaExists ==> r[0] == CreateAssociatedTokenAccount(sender, recipientAta, recipient, mint)
  {
    var create := if recipientAtaExists then []
                  else [CreateAssociatedTokenAccount(sender, recipientAta, recipient, mint)];
    create + [TokenTransfer(senderAta, recipientAta, sender, rawAmount)]
  }

  /** The list creates an account exactly when the recipient's is missing, and holds exactly one transfer. */
  lemma CreatesAccountOnlyWhenMissing(sender: Key, recipient: Key, mint: Key, senderAta: Key, recipientAta: Key,
                                      rawAmount: nat, recipientAtaExists: bool)
    ensures var r := TokenTransferInstructions(sender, recipient, mint, senderAta, recipientAta, rawAmount, recipientAtaExists);
      && ((exists i :: 0 <= i < |r| && r[i].CreateAssociatedTokenAccount?) <==> !recipientAtaExists)
      && (forall i :: 0 <= i < |r| && r[i].TokenTransfer? ==> i == |r| - 1)
  {
    var r := TokenTransferInstructions(sender, recipient, mint, senderAta, recipientAta, rawAmount, recipientAtaExists);
    if !recipientAtaExists {
      assert r[0].CreateAssociatedTokenAccount?;
    }
  }

  /** The accounts a token send uses: the mint and the two associated token accounts. */
  datatype TokenAccounts = TokenAccounts(mint: Key, senderAta: Key, recipientAta: Key)

  /**
   * Parses the mint and derives both associated token accounts; `None` where
   * any of these throws (an unparsable mint, an owner off the curve).
   */
  function ResolveAccounts(web3: Web3, mint: string, sender: Key, recipient: Key): (r: Option<TokenAccounts>)
    ensures r.None? <==>
      web3.parsePublicKey(mint).None? || !web3.isOnCurve(sender) || !web3.isOnCurve(recipient)
    ensures r.Some? ==>
      var m := web3.parsePublicKey(mint).value;
      r.value == TokenAccounts(m, web3.associatedTokenAddress(m, sender), web3.associatedTokenAddress(m, recipient))
  {
    var mintKey := web3.parsePublicKey(mint);
    if mintKey.None? then None
    else
      var senderAta := AssociatedTokenAddress(web3, mintKey.value, sender, false);
      var recipientAta := AssociatedTokenAddress(web3, mintKey.value, recipient, false);
      if senderAta.None? || recipientAta.None? then None
      else Some(TokenAccounts(mintKey.value, senderAta.value, recipientAta.value))
  }

  /** The dialog for one token: fixed props and the form state. */
  class SendTokenDialog {
    const mint: string
    const symbol: string
    const balance: nat
    const decimals: nat
    var open: bool
    var recipient: string
    var amount: string
    var loading: bool

    constructor (mint: string, symbol: string, balance: nat, decimals: nat)
      ensures this.mint == mint && this.symbol == symbol
      ensures this.balance == balance && this.decimals == decimals
      ensures !open && recipient == [] && amount == [] && !loading
    {
      this.mint := mint;
      this.symbol := symbol;
      this.balance := balance;
      this.decimals := decimals;
      open := false;
      recipient := [];
      amount := [];
      loading := false;
    }

    /**
     * `handleSend`. A failed check changes nothing and builds nothing. Past the
     * checks, `tx` is the transaction handed to the wallet for signing (null when
     * an error came first); `loading` ends false, and only a confirmed send
     * closes the dialog and clears both fields.
     */
    method HandleSend(wallet: Option<Key>, web3: Web3, numbers: NumberText, net: Network, confirmed: bool)
      returns (outcome: SendOutcome, tx: Transaction?)
      modifies this
      ensures var check := CheckTokenSend(wallet, old(recipient), old(amount), web3, numbers, balance, decimals);
        check.Err? ==> outcome == Rejected(check.error) && tx == null && unchanged(this)
      ensures var check := CheckTokenSend(wallet, old(recipient), old(amount), web3, numbers, balance, decimals);
        check.Ok? ==>
          var t := check.value;
          var accounts := ResolveAccounts(web3, mint, t.sender, t.recipient);
          && !loading
          && (tx != null <==> accounts.Some? && net.reachable)
          && (tx != null ==>
                && fresh(tx)
                && tx.instructions == TokenTransferInstructions(t.sender, t.recipient, accounts.value.mint,
                     accounts.value.senderAta, accounts.value.recipientAta, RawAmount(t.amount, decimals),
                     accounts.value.recipientAta in net.accounts)
                && tx.feePayer == Some(t.sender)
                && tx.recentBlockhash == Some(net.latestBlockhash))
          && (outcome == Sent <==> tx != null && confirmed)
          && (outcome == Sent || outcome == SendFailed)
      ensures outcome == Sent ==> !open && recipient == [] && amount == []
      ensures outcome != Sent ==> open == old(open) && recipient == old(recipient) && amount == old(amount)
    {
      tx := null;
      if wallet.None? || recipient == [] || amount == [] {
        return Rejected(MissingField), null;
      }
      var recipientPubkey := web3.parsePublicKey(recipient);
      if recipientPubkey.None? {
        return Rejected(InvalidRecipient), null;
      }
      var amountNumber := numbers.parseFloat(amount);
      if amountNumber.None? || amountNumber.value <= 0.0 {
        return Rejected(InvalidAmount), null;
      }
      if amountNumber.value > DisplayBalance(balance, decimals) {
        return Rejected(InsufficientBalance), null;
      }

      loading := true;
      outcome := SendFailed;
      var sender := wallet.value;
      var mintPubkey := web3.parsePublicKey(mint);
      var rawAmount := RawAmount(amountNumber.value, decimals);
      if mintPubkey.Some? {
        var senderAta := AssociatedTokenAddress(web3, mintPubkey.value, sender, false);
        var recipientAta := AssociatedTokenAddress(web3, mintPubkey.value, recipientPubkey.value, false);
        if senderAta.Some? && recipientAta.Some? && net.reachable {
          var transaction := new Transaction();
          if recipientAta.value !in net.accounts {
            transaction.Add(CreateAssociatedTokenAccount(sender, recipientAta.value,
                                                         recipientPubkey.value, mintPubkey.value));
          }
          transaction.Add(TokenTransfer(senderAta.value, recipientAta.value, sender, rawAmount));
          transaction.feePayer := Some(sender);
          transaction.recentBlockhash := Some(net.latestBlockhash);
          tx := transaction;
          if confirmed {
            outcome := Sent;
            open := false;
            recipient := [];
            amount := [];
          }
        }
      }
      loading := false;
    }

    /** `handleMaxClick`: fills in the whole display balance. */
    method HandleMaxClick(numbers: NumberText)
      modifies this
      ensures amount == numbers.toString(DisplayBalance(balance, decimals))
      ensures recipient == old(recipient) && open == old(open) && loading == old(loading)
    {
      amount := numbers.toString(DisplayBalance(balance, decimals));
    }
  }

  /**
   * With a filled-in recipient, the amount the Max button writes passes every
   * check when the balance is positive, and is sent as the whole balance in
   * base units, provided `parseFloat` reads back what `toString` wrote.
   */
  lemma MaxClickSendsWholeBalance(wallet: Key, recipient: string, web3: Web3, numbers: NumberText,
                                  balance: nat, decimals: nat)
    requires balance > 0 && recipient != [] && web3.parsePublicKey(recipient).Some?
    requires var text := numbers.toString(DisplayBalance(balance, decimals));
      text != [] && numbers.parseFloat(text) == Some(DisplayBalance(balance, decimals))
    ensures var text := numbers.toString(DisplayBalance(balance, decimals));
      var check := CheckTokenSend(Some(wallet), recipient, text, web3, numbers, balance, decimals);
      check.Ok? && RawAmount(check.value.amount, decimals) == balance
  {
    var d := DisplayBalance(balance, decimals);
    var text := numbers.toString(d);
    assert d * Pow10(decimals) as real == balance as real;
    assert d > 0.0;
    FullBalanceAccepted(Some(wallet), recipient, text, web3, numbers, balance, decimals);
  }
}
