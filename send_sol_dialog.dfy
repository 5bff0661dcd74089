/**
 * The "Send SOL" dialog: the validation chain with a fixed fee reserve, the
 * floor conversion to lamports, and a transaction holding a single system
 * transfer. Balances and amounts are in SOL, as exact reals.
 */
module SendSol {
  import opened Optional
  import opened Chain
  import opened SendForm

  /** The SOL kept back for transaction fees. */
  const FeeReserve: real := 0.001

  /** `LAMPORTS_PER_SOL`. */
  const LamportsPerSol: nat := 1_000_000_000

  /** `Math.max(0, balance - 0.001)`: the most the dialog lets one send. */
  function MaxAmount(balance: real): (r: real)
    ensures r >= 0.0 && r >= balance - FeeReserve
    ensures r == 0.0 || r == balance - FeeReserve
  {
    if balance - FeeReserve > 0.0 then balance - FeeReserve else 0.0
  }

  /**
   * The checks of `handleSend` in order: the shared form checks first, then
   * an amount above `MaxAmount(balance)` is rejected.
   */
  function CheckSolSend(wallet: Option<Key>, recipient: string, amount: string, web3: Web3,
                        numbers: NumberText, balance: real): (r: Result<Transfer, InputError>)
    ensures var form := CheckForm(wallet, recipient, amount, web3, numbers);
      && (form.Err? ==> r == form)
      && (form.Ok? ==> (r == Err(InsufficientBalance) <==> form.value.amount > MaxAmount(balance)))
      && (form.Ok? && form.value.amount <= MaxAmount(balance) ==> r == form)
      && (r.Ok? ==> r == form && r.value.amount <= MaxAmount(balance))
  {
    var form := CheckForm(wallet, recipient, amount, web3, numbers);
    if form.Err? then form
    else if form.value.amount > MaxAmount(balance) then Err(InsufficientBalance)
    else form
  }

  /** `Math.floor(amount * LAMPORTS_PER_SOL)`: the amount in lamports, rounded down. */
  function Lamports(amount: real): (r: int)
    ensures r as real <= amount * LamportsPerSol as real < r as real + 1.0
    ensures amount >= 0.0 ==> r >= 0
  {
    FloorScale(amount, LamportsPerSol)
  }

  /** Sending the whole of a positive balance leaves nothing for fees, so it is rejected. */
  lemma WholeBalanceRejected(wallet: Option<Key>, recipient: string, amount: string, web3: Web3,
                             numbers: NumberText, balance: real)
    requires balance > 0.0
    requires CheckForm(wallet, recipient, amount, web3, numbers).Ok?
    requires CheckForm(wallet, recipient, amount, web3, numbers).value.amount == balance
    ensures CheckSolSend(wallet, recipient, amount, web3, numbers, balance) == Err(InsufficientBalance)
  {
  }

  /** With no more than the reserve in the wallet, every amount that passes the form checks is rejected. */
  lemma ReserveOnlyBalanceRejectsAll(wallet: Option<Key>, recipient: string, amount: string, web3: Web3,
                                     numbers: NumberText, balance: real)
    requires balance <= FeeReserve
    requires CheckForm(wallet, recipient, amount, web3, numbers).Ok?
    ensures CheckSolSend(wallet, recipient, amount, web3, numbers, balance) == Err(InsufficientBalance)
  {
  }

  /** The balance less the reserve is exactly the largest amount that passes. */
  lemma BalanceLessReserveAccepted(wallet: Option<Key>, recipient: string, amount: string, web3: Web3,
                                   numbers: NumberText, balance: real)
    requires balance > FeeReserve
    requires CheckForm(wallet, recipient, amount, web3, numbers).Ok?
    ensures CheckForm(wallet, recipient, amount, web3, numbers).value.amount == balance - FeeReserve ==>
      CheckSolSend(wallet, recipient, amount, web3, numbers, balance).Ok?
    ensures CheckForm(wallet, recipient, amount, web3, numbers).value.amount > balance - FeeReserve ==>
      CheckSolSend(wallet, recipient, amount, web3, numbers, balance) == Err(InsufficientBalance)
  {
  }

  /**
   * What passes the checks is sent as a non-negative number of lamports that
   * leaves at least the reserve (10^6 lamports) of the balance.
   */
  lemma AcceptedSendLeavesReserve(wallet: Option<Key>, recipient: string, amount: string, web3: Web3,
                                  numbers: NumberText, balance: real)
    requires CheckSolSend(wallet, recipient, amount, web3, numbers, balance).Ok?
    ensures var t := CheckSolSend(wallet, recipient, amount, web3, numbers, balance).value;
      && 0 <= Lamports(t.amount)
      && Lamports(t.amount) as real + 1_000_000.0 <= balance * LamportsPerSol as real
  {
    var t := CheckSolSend(wallet, recipient, amount, web3, numbers, balance).value;
    assert MaxAmount(balance) == balance - FeeReserve;
    FloorScaleWithin(t.amount, balance - FeeReserve, LamportsPerSol);
  }

  /** The dialog: the SOL balance it was given and the form state. */
  class SendSolDialog {
    const balance: real
    var open: bool
    var recipient: string
    var amount: string
    var loading: bool

    constructor (balance: real)
      ensures this.balance == balance
      ensures !open && recipient == [] && amount == [] && !loading
    {
      this.balance := balance;
      open := false;
      recipient := [];
      amount := [];
      loading := false;
    }

    /**
     * `handleSend`. A failed check changes nothing and builds nothing. Past the
     * checks, `tx` is the transaction handed to the wallet for signing (null when
     * the blockhash could not be fetched): one system transfer of the amount in
     * lamports, paid by the wallet. `loading` ends false, and only a confirmed
     * send closes the dialog and clears both fields.
     */
    method HandleSend(wallet: Option<Key>, web3: Web3, numbers: NumberText, net: Network, confirmed: bool)
      returns (outcome: SendOutcome, tx: Transaction?)
      modifies this
      ensures var check := CheckSolSend(wallet, old(recipient), old(amount), web3, numbers, balance);
        check.Err? ==> outcome == Rejected(check.error) && tx == null && unchanged(this)
      ensures var check := CheckSolSend(wallet, old(recipient), old(amount), web3, numbers, balance);
        check.Ok? ==>
          var t := check.value;
          && !loading
          && (tx != null <==> net.reachable)
          && (tx != null ==>
                && fresh(tx)
                && tx.instructions == [SystemTransfer(t.sender, t.recipient, Lamports(t.amount))]
                && tx.feePayer == Some(t.sender)
                && tx.recentBlockhash == Some(net.latestBlockhash))
          && (outcome == Sent <==> tx != null && confirmed)
          && (outcome == Sent || outcome == SendFailed)
      ensures outcome == Sent ==> !open && recipient == [] && amount == []
      ensures outcome != Sent ==> open == old(open) && recipient == old(recipient) && amount == old(amount)
    {
      tx := null;
      if wallet.None? || recipient == [] || amount == [] {
        return Rejected(MissingField), null;
      }
      var recipientPubkey := web3.parsePublicKey(recipient);
      if recipientPubkey.None? {
        return Rejected(InvalidRecipient), null;
      }
      var amountNumber := numbers.parseFloat(amount);
      if amountNumber.None? || amountNumber.value <= 0.0 {
        return Rejected(InvalidAmount), null;
      }
      var maxAmount := MaxAmount(balance);
      if amountNumber.value > maxAmount {
        return Rejected(InsufficientBalance), null;
      }

      loading := true;
      outcome := SendFailed;
      var lamports := Lamports(amountNumber.value);
      var transaction := new Transaction();
      transaction.Add(SystemTransfer(wallet.value, recipientPubkey.value, lamports));
      transaction.feePayer := Some(wallet.value);
      if net.reachable {
        transaction.recentBlockhash := Some(net.latestBlockhash);
        tx := transaction;
        if confirmed {
          outcome := Sent;
          open := false;
          recipient := [];
          amount := [];
        }
      }
      loading := false;
    }

    /** `handleMaxClick`: fills in `MaxAmount(balance)`, written with nine decimals. */
    method HandleMaxClick(numbers: NumberText)
      modifies this
      ensures amount == numbers.toFixed9(MaxAmount(balance))
      ensures recipient == old(recipient) && open == old(open) && loading == old(loading)
    {
      var maxAmount := MaxAmount(balance);
      amount := numbers.toFixed9(maxAmount);
    }
  }

  /**
   * The Max button and the balance check use the same bound: with a valid
   * recipient, and `parseFloat` reading back what `toFixed(9)` wrote, the
   * amount the button writes passes every check exactly when the balance
   * exceeds the reserve, and is then the balance less the reserve; otherwise
   * it is zero and rejected as an invalid amount.
   */
  lemma MaxClickAgreesWithCheck(wallet: Key, recipient: string, web3: Web3, numbers: NumberText, balance: real)
    requires recipient != [] && web3.parsePublicKey(recipient).Some?
    requires var text := numbers.toFixed9(MaxAmount(balance));
      text != [] && numbers.parseFloat(text) == Some(MaxAmount(balance))
    ensures var check := CheckSolSend(Some(wallet), recipient, numbers.toFixed9(MaxAmount(balance)),
                                      web3, numbers, balance);
      && (check.Ok? <==> balance > FeeReserve)
      && (check.Ok? ==> check.value.amount == balance - FeeReserve)
      && (!check.Ok? ==> check == Err(InvalidAmount))
  {
  }
}
