/**
 * What the two send dialogs share: the first three checks of `handleSend`,
 * in their fixed order, and the floor conversion of an amount to base units.
 * Amounts are exact reals here; the dialogs compute with doubles.
 */
module SendForm {
  import opened Optional
  import opened Chain

  /** The rejections `handleSend` reports before it touches the network. */
  datatype InputError =
    | MissingField         // no wallet, or an empty field
    | InvalidRecipient     // the recipient is not a public key
    | InvalidAmount        // the amount is not a number above zero
    | InsufficientBalance  // the amount exceeds what may be sent

  /** How a send ends: rejected by a check, failed after the checks, or confirmed. */
  datatype SendOutcome = Rejected(error: InputError) | SendFailed | Sent

  /**
   * The number-to-text functions of JavaScript, taken as given.
   * - `parseFloat`: the number a text denotes; `None` for NaN.
   * - `toString`, `toFixed9`: `x.toString()` and `x.toFixed(9)`.
   */
  datatype NumberText = NumberText(
    parseFloat: string -> Option<real>,
    toString: real -> string,
    toFixed9: real -> string)

  /** A send that passed the form checks: who pays, who receives, how much (in display units). */
  datatype Transfer = Transfer(sender: Key, recipient: Key, amount: real)

  /** A wallet is present and neither text field is empty. */
  predicate Filled(wallet: Option<Key>, recipient: string, amount: string) {
    wallet.Some? && recipient != [] && amount != []
  }

  /**
   * The checks both dialogs run first, in order: every field filled, the
   * recipient a valid key, the amount a number above zero. The first check that
   * fails decides the error.
   */
  function CheckForm(wallet: Option<Key>, recipient: string, amount: string,
                     web3: Web3, numbers: NumberText): (r: Result<Transfer, InputError>)
    ensures r == Err(MissingField) <==> !Filled(wallet, recipient, amount)
    ensures r == Err(InvalidRecipient) <==>
      Filled(wallet, recipient, amount) && web3.parsePublicKey(recipient).None?
    ensures r == Err(InvalidAmount) <==>
      && Filled(wallet, recipient, amount) && web3.parsePublicKey(recipient).Some?
      && (numbers.parseFloat(amount).None? || numbers.parseFloat(amount).value <= 0.0)
    ensures r != Err(InsufficientBalance)
    ensures r.Ok? ==>
      && wallet == Some(r.value.sender)
      && web3.parsePublicKey(recipient) == Some(r.value.recipient)
      && numbers.parseFloat(amount) == Some(r.value.amount)
      && r.value.amount > 0.0
  {
    if !Filled(wallet, recipient, amount) then Err(MissingField)
    else
      var recipientKey := web3.parsePublicKey(recipient);
      if recipientKey.None? then Err(InvalidRecipient)
      else
        var amountNumber := numbers.parseFloat(amount);
        if amountNumber.None? || amountNumber.value <= 0.0 then Err(InvalidAmount)
        else Ok(Transfer(wallet.value, recipientKey.value, amountNumber.value))
  }

  /** 10 to the power `n` (`Math.pow(10, n)`). */
  function Pow10(n: nat): (r: nat)
    ensures r >= 1
  {
    if n == 0 then 1 else 10 * Pow10(n - 1)
  }

  /**
   * `Math.floor(amount * scale)`: the largest whole number of base units not
   * above the amount.
   */
  function FloorScale(amount: real, scale: nat): (r: int)
    ensures r as real <= amount * scale as real < r as real + 1.0
  {
    (amount * scale as real).Floor
  }

  /** Rounding down never sends more than asked: the base units, scaled back, do not exceed the amount. */
  lemma FloorScaleNeverOverSends(amount: real, scale: nat)
    requires scale >= 1
    ensures FloorScale(amount, scale) as real / scale as real <= amount
    ensures amount - 1.0 / scale as real < FloorScale(amount, scale) as real / scale as real
  {
    var s := scale as real;
    var f := FloorScale(amount, scale) as real;
    assert f / s * s == f;
    assert amount * s / s == amount;
  }

  /** A positive amount at most `limit` display units is at most `limit * scale` base units, and not negative. */
  lemma FloorScaleWithin(amount: real, limit: real, scale: nat)
    requires 0.0 < amount <= limit && scale >= 1
    ensures 0 <= FloorScale(amount, scale)
    ensures FloorScale(amount, scale) as real <= limit * scale as real
  {
    var s := scale as real;
    assert amount * s <= limit * s;
    assert 0.0 <= amount * s;
  }
}
