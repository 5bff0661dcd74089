# Escrow client core, modelled in Dafny

This project models the decision-making core of a React client for a Solana
escrow program:

- **Offer addresses.** An offer lives at a program-derived address. Its seed
  list is fixed: the bytes of `"offer"`, the maker's 32-byte key, and the offer
  id as 8 little-endian bytes.
- **Offer lookup.** The client fetches the offer record. It then derives the
  vault, which is the associated token account of the offered mint owned by
  the offer address. The vault's live balance replaces the offered amount; a
  vault that cannot be read counts as 0.
- **Offer search.** The "Find Offer" dialog turns each search into exactly one
  outcome: missing input, no wallet, error, not found, already taken, or found.
  It keeps `foundOffer` and `isSearching` consistent with that outcome.
- **Token send.** A fixed chain of checks runs first. The amount is then
  floored to base units. The instruction list creates the recipient's token
  account first, but only when that account is missing.
- **SOL send.** The same chain of checks runs, with a reserve of 0.001 SOL kept
  back for fees. The amount is floored to lamports and sent as one system
  transfer.

Files, one module each:

- `optional.dfy`: `Option` and `Result`.
- `bytes.dfy`: bytes and the little-endian u64 encoding.
- `decimal.dfy`: bn.js decimal text of offer ids.
- `chain.dfy`: keys, library functions, the network snapshot, instructions and
  the `Transaction` object.
- `program.dfy`: the escrow service, `src/solana-service/program.ts`.
- `find_offer_dialog.dfy`: `src/components/dialogs/find-offer-dialog.tsx`.
- `send_form.dfy`: the checks and floor scaling the two send dialogs share.
- `send_token_dialog.dfy`: `src/components/dialogs/send-token-dialog.tsx`.
- `send_sol_dialog.dfy`: `src/components/dialogs/send-sol-dialog.tsx`.

The dialogs and the transaction change state step by step in the source, so
they are classes whose methods update fields. Each handler's `ensures` ties
its outcome and new state to the functions that specify it: `Search`,
`CheckTokenSend`, `CheckSolSend` and `TokenTransferInstructions`. The lemmas
about those functions state the properties.

Calls into libraries and the network are inputs to the model:

- `Web3` bundles the library functions as total function values:
  `new PublicKey(text)`, the curve check, `findProgramAddressSync` and the
  associated-token-address derivation.
- `Network` is one snapshot of what the RPC connection answers. It has a
  reachable flag, the set of existing accounts (`getAccountInfo`), the
  decodable offer records (`program.account.offer.fetch`), token-account
  balances (`getAccount`) and the latest blockhash.
- `NumberText` holds `parseFloat`, `toString` and `toFixed(9)`.
- A boolean `confirmed` stands for signing, sending and confirmation all
  succeeding.

Amounts are exact reals, and `Math.floor` is `.Floor`.

The model follows the code, including where it is looser than a careful design would be:

- A failed record fetch (network error included) makes `getOffer` return
  `null`. The dialog reports that as "not found"; there is no separate
  "lookup failed" outcome.
- Signing refusal, submission rejection and confirmation failure all end in
  one "failed to send" outcome.
- The amount check rejects NaN and amounts ≤ 0. It does not check finiteness.
- `makeOffer` and `takeOffer` are stubs that always return `null`.

## Model

| member | source | states |
|---|---|---|
| `Bytes.LittleEndian` | src/solana-service/program.ts:34 | `offerId.toArrayLike(Buffer, "le", 8)`: the encoding of an id below 256^width has exactly `width` bytes |
| `Bytes.LittleEndianRoundTrip` | src/solana-service/program.ts:34 | decoding the little-endian bytes of `n` gives back `n`, for every `n` below 256^width |
| `Bytes.FromLittleEndianRoundTrip` | src/solana-service/program.ts:34 | every byte string is the encoding of the number it denotes, so the 8-byte encoding is a bijection onto [0, 2^64) |
| `Bytes.LittleEndianInjective` | src/solana-service/program.ts:34 | distinct ids in range have distinct encodings |
| `Bytes.AsciiBytes` | src/solana-service/program.ts:32 | `Buffer.from` of an ASCII string has one byte per character, equal to its code point |
| `Bytes.Pow256Of8` | src/solana-service/program.ts:34 | eight bytes hold exactly the values below 2^64 |
| `Escrow.OfferTagBytes` | src/solana-service/program.ts:32 | the first seed is the five bytes of "offer" |
| `Escrow.OfferSeeds` | src/solana-service/program.ts:30-36 | the seed list is exactly ["offer", the maker's key, 8 bytes that decode to the id], in that order |
| `Escrow.OfferSeedsInjective` | src/solana-service/program.ts:30-36 | equal seed lists come only from equal (maker, id) pairs |
| `Escrow.OfferSeedsOrderSensitive` | src/solana-service/program.ts:30-36 | each of the five reorderings of the three seeds is a different seed list |
| `Escrow.OfferPda` | src/solana-service/program.ts:29-37 | `createOfferPda`: an address exactly for ids below 2^64 (a larger id makes the 8-byte encoding throw), and that address is the one `findProgramAddressSync` derives from `OfferSeeds` under the program id |
| `Escrow.LookupAddressIsOfferPda` | src/solana-service/program.ts:53 | the address a successful lookup reports is the `findProgramAddressSync` address of the offer's seeds, which reads no network state, so every network snapshot yields the same address |
| `Escrow.Vault` | src/solana-service/program.ts:56-61 | the vault derivation allows an off-curve owner, so it never fails for an offer address |
| `Escrow.LookupOffer` | src/solana-service/program.ts:51-87 | `null` exactly when the record cannot be fetched (id too large, network down, no decodable record); otherwise the vault is the ATA of (tokenMintA, offer address), the offered amount is the vault balance (0 when the vault is unreadable), and id, maker, mints and wanted amount are copied from the record, with `id` exactly `NatToDecimal` of the record's id (its `toString()` text) |
| `Escrow.LiveIffRecordAndFundedVault` | src/solana-service/program.ts:56-70 | the lookup returns an offer with a positive offered amount exactly when the record is fetched and its vault holds a positive balance |
| `Escrow.FetchedOfferExists` | src/solana-service/program.ts:40-49 | on a consistent network, an offer of the wallet that the lookup finds is one the existence check reports |
| `Escrow.EscrowProgram.constructor` | src/solana-service/program.ts:20-27 | the connection, wallet, libraries and program id are fixed at construction |
| `Escrow.EscrowProgram.CheckOfferExists` | src/solana-service/program.ts:40-49 | true exactly when the account at the offer address for the wallet's own key exists; false when the id does not encode or the network fails |
| `Escrow.EscrowProgram.GetOffer` | src/solana-service/program.ts:51-87 | the sequential lookup, which overwrites the offered amount with the vault balance when the vault is read, returns exactly `LookupOffer` |
| `Escrow.EscrowProgram.MakeOffer` | src/solana-service/program.ts:89-110 | always returns null, whatever the inputs |
| `Escrow.EscrowProgram.TakeOffer` | src/solana-service/program.ts:112-125 | always returns null, whatever the inputs |
| `Decimal.NatToDecimal` | src/solana-service/program.ts:73 | `BN.toString()` writes a non-empty run of digits with no leading zero |
| `Decimal.ParseDecimal` | src/components/dialogs/find-offer-dialog.tsx:90 | `new BN(text)` on the offer-id field: the model accepts exactly a non-empty run of decimal digits (see "Offer ids" under Left out for the texts bn.js also accepts) |
| `Decimal.DecimalRoundTrip` | src/solana-service/program.ts:73 | reading back the decimal text of a number gives the number |
| `Decimal.NatToDecimalInjective` | src/solana-service/program.ts:73 | distinct ids have distinct decimal texts |
| `FindOffer.Search` | src/components/dialogs/find-offer-dialog.tsx:63-112 | exactly one outcome, in this order: missing input (either field empty), no wallet, error (the maker key or the id does not parse), not found (null lookup), already taken (zero offered amount), found (positive offered amount, carrying the looked-up offer) |
| `FindOffer.SearchSplitsOnRecordAndVault` | src/components/dialogs/find-offer-dialog.tsx:93-104 | with valid inputs, "not found" holds exactly when no record is fetched; with a record, "already taken" holds exactly when the vault is empty or missing, and "found" exactly when it is funded |
| `FindOffer.LiveThenDrained` | src/components/dialogs/find-offer-dialog.tsx:93-104 | maker M, id "7", vault at 500: the search finds the offer with 500 offered; after the vault is drained to 0 the same search reports it taken |
| `FindOffer.FindOfferDialog.constructor` | src/components/dialogs/find-offer-dialog.tsx:46-54 | the dialog starts closed and idle, with no offer and both fields empty |
| `FindOffer.FindOfferDialog.HandleSearch` | src/components/dialogs/find-offer-dialog.tsx:63-112 | returns `Search` of the form. Empty input changes nothing. Otherwise `isSearching` ends false and `foundOffer` is the found offer, or null on every other outcome. The form is unchanged |
| `FindOffer.FindOfferDialog.HandleTakeOffer` | src/components/dialogs/find-offer-dialog.tsx:114-127 | without a connected wallet it asks to connect and changes nothing; with one and an offer shown, it hands that offer over, closes the dialog and clears the offer and both fields |
| `FindOffer.FindOfferDialog.HandleInputChange` | src/components/dialogs/find-offer-dialog.tsx:129-136 | sets the edited field only and always clears `foundOffer` |
| `Chain.AssociatedTokenAddress` | src/components/dialogs/send-token-dialog.tsx:86-92 | `getAssociatedTokenAddressSync`: fails exactly when the owner is off the curve and off-curve owners are not allowed; otherwise the library's derived address for (mint, owner) |
| `Chain.Transaction.constructor` | src/components/dialogs/send-token-dialog.tsx:102 | a new transaction has no instructions, fee payer or blockhash |
| `Chain.Transaction.Add` | src/components/dialogs/send-token-dialog.tsx:121-130 | `transaction.add` appends one instruction at the end and changes nothing else |
| `SendForm.CheckForm` | src/components/dialogs/send-token-dialog.tsx:56-73 | the checks both dialogs share, where the first failure decides: missing wallet, recipient or amount; recipient not a key; amount NaN or ≤ 0. A pass carries the wallet, the parsed recipient and a positive amount |
| `SendForm.FloorScale` | src/components/dialogs/send-token-dialog.tsx:84 | `Math.floor(amount * scale)` is the largest whole number not above `amount * scale` |
| `SendForm.FloorScaleNeverOverSends` | src/components/dialogs/send-token-dialog.tsx:84 | the floored base units, scaled back, never exceed the amount and fall short of it by less than one base unit |
| `SendForm.FloorScaleWithin` | src/components/dialogs/send-sol-dialog.tsx:70 | a positive amount up to a limit floors to between 0 and the limit in base units |
| `SendForm.Pow10` | src/components/dialogs/send-token-dialog.tsx:53 | `Math.pow(10, decimals)` is at least 1 |
| `SendToken.DisplayBalance` | src/components/dialogs/send-token-dialog.tsx:53 | the display balance scaled by 10^decimals is the raw balance, and is never negative |
| `SendToken.CheckTokenSend` | src/components/dialogs/send-token-dialog.tsx:56-78 | a failed shared check wins. Past it, "insufficient balance" holds exactly when the amount exceeds balance / 10^decimals; an amount within that limit is accepted as exactly the transfer the form check produced, and a pass carries an amount within it |
| `SendToken.RawAmount` | src/components/dialogs/send-token-dialog.tsx:84 | `rawAmount` is the floor of amount × 10^decimals, non-negative for non-negative amounts |
| `SendToken.RawAmountWithinBalance` | src/components/dialogs/send-token-dialog.tsx:75-84 | a positive amount within the display balance floors to 0 ≤ rawAmount ≤ balance |
| `SendToken.AcceptedSendWithinBalance` | src/components/dialogs/send-token-dialog.tsx:56-84 | every send that passes the checks transfers between 0 and the whole balance in base units |
| `SendToken.FullBalanceAccepted` | src/components/dialogs/send-token-dialog.tsx:75 | an amount equal to the display balance passes and is sent as exactly the raw balance |
| `SendToken.SubUnitAmountSendsZero` | src/components/dialogs/send-token-dialog.tsx:70-84 | with a balance of at least one base unit, an amount that passes the form checks and lies below one base unit passes every check, including the balance check, yet floors to a transfer of 0 base units |
| `SendToken.ResolveAccounts` | src/components/dialogs/send-token-dialog.tsx:83-100 | no accounts exactly when the mint does not parse or the sender or recipient is off the curve (the ATA derivations forbid off-curve owners); otherwise the parsed mint and the ATAs of (mint, sender) and (mint, recipient) |
| `SendToken.TokenTransferInstructions` | src/components/dialogs/send-token-dialog.tsx:104-130 | [create recipient ATA (payer = sender), transfer] when the recipient ATA is missing, [transfer] otherwise. The transfer is last and moves rawAmount from the sender ATA to the recipient ATA, with the sender as authority |
| `SendToken.CreatesAccountOnlyWhenMissing` | src/components/dialogs/send-token-dialog.tsx:104-118 | a create-account instruction appears exactly when the recipient's account is missing, and the list holds exactly one transfer, at the end |
| `SendToken.SendTokenDialog.constructor` | src/components/dialogs/send-token-dialog.tsx:36-47 | props are fixed; the form starts closed, empty and idle |
| `SendToken.SendTokenDialog.HandleSend` | src/components/dialogs/send-token-dialog.tsx:55-155 | a failed check reports its error and changes nothing. Past the checks, `loading` ends false, and a transaction reaches the wallet exactly when the mint parses, both ATAs derive and the network answers. That transaction holds `TokenTransferInstructions` for the live existence of the recipient ATA, with the wallet as fee payer and the latest blockhash. Only a confirmed send clears recipient and amount and closes the dialog |
| `SendToken.SendTokenDialog.HandleMaxClick` | src/components/dialogs/send-token-dialog.tsx:157-159 | the amount field becomes the text of the display balance; nothing else changes |
| `SendToken.MaxClickSendsWholeBalance` | src/components/dialogs/send-token-dialog.tsx:157-159 | if `parseFloat` reads back what `toString` wrote, the Max amount passes every check for a positive balance and is sent as exactly the raw balance |
| `SendSol.MaxAmount` | src/components/dialogs/send-sol-dialog.tsx:61 | `Math.max(0, balance - 0.001)` is never negative and is either 0 or the balance less the reserve |
| `SendSol.CheckSolSend` | src/components/dialogs/send-sol-dialog.tsx:40-65 | a failed shared check wins. Past it, "insufficient balance" holds exactly when the amount exceeds `MaxAmount(balance)`; an amount within that limit is accepted as exactly the transfer the form check produced, and a pass carries an amount within it |
| `SendSol.Lamports` | src/components/dialogs/send-sol-dialog.tsx:70 | `lamports` is the floor of amount × 10^9: at most amount × 10^9, and non-negative for non-negative amounts |
| `SendSol.WholeBalanceRejected` | src/components/dialogs/send-sol-dialog.tsx:61-65 | sending the whole of a positive balance is rejected as insufficient |
| `SendSol.ReserveOnlyBalanceRejectsAll` | src/components/dialogs/send-sol-dialog.tsx:61-65 | with a balance of at most 0.001, every amount that passes the form checks is rejected as insufficient |
| `SendSol.BalanceLessReserveAccepted` | src/components/dialogs/send-sol-dialog.tsx:61-65 | above the reserve, the balance less 0.001 passes and anything more is rejected |
| `SendSol.AcceptedSendLeavesReserve` | src/components/dialogs/send-sol-dialog.tsx:61-70 | every send that passes is a non-negative number of lamports that leaves at least 10^6 lamports of the balance |
| `SendSol.SendSolDialog.constructor` | src/components/dialogs/send-sol-dialog.tsx:30-34 | the balance prop is fixed; the form starts closed, empty and idle |
| `SendSol.SendSolDialog.HandleSend` | src/components/dialogs/send-sol-dialog.tsx:40-103 | a failed check reports its error and changes nothing. Past the checks, `loading` ends false, and a transaction reaches the wallet exactly when the network answers. It holds exactly one system transfer of `Lamports(amount)` from the wallet to the recipient, with the wallet as fee payer. Only a confirmed send clears recipient and amount and closes the dialog |
| `SendSol.SendSolDialog.HandleMaxClick` | src/components/dialogs/send-sol-dialog.tsx:105-109 | the amount field becomes `MaxAmount(balance)` written with nine decimals; nothing else changes |
| `SendSol.MaxClickAgreesWithCheck` | src/components/dialogs/send-sol-dialog.tsx:105-108 | the Max button and the check use the same bound. The Max amount passes exactly when the balance exceeds the reserve, and it is then the balance less 0.001. Otherwise it is 0 and rejected as an invalid amount |

## Left out

- Program-derived and associated-token addresses are hashes computed by
  library code. They are function values in `Web3`, as are key parsing and
  the curve check. `findProgramAddressSync` failing to find a bump is not
  modelled.
- The network is one fixed snapshot (`Network`). Concurrent changes between
  two RPC calls of one handler are not modelled.
- Signing, submission and confirmation are one boolean. The transaction id is
  not modelled.
- Numbers are exact reals, not IEEE doubles. `parseFloat`, `toString` and
  `toFixed(9)` are given functions (`NumberText`); the model does not parse or
  format decimal text. Double rounding in `balance / 10^decimals`,
  `balance - 0.001` and the floor products is not captured.
- MaxClickSendsWholeBalance: assumes that `parseFloat` reads back what
  `toString` wrote. With doubles this can fail by rounding.
- MaxClickAgreesWithCheck: assumes that `parseFloat` reads back what
  `toFixed(9)` wrote. In exact arithmetic that holds when the balance is a
  whole number of lamports.
- Offer ids: `new BN(text)` also accepts a leading minus sign and strips
  whitespace. The model accepts only a non-empty run of digits and treats
  any other text as unparseable. Its effect on the address seeds is not modelled.
- Toasts, `console` logging and query-cache invalidation are side effects with
  no state the model tracks. Each outcome datatype notes the message its
  constructors stand for.
- HandleSearch, HandleInputChange, SendTokenDialog.HandleSend and
  SendSolDialog.HandleSend: each handler is modelled as one atomic step, so UI
  events that arrive while a search or send is awaiting the network are not
  modelled. In particular the find-offer inputs stay enabled during
  `await contract.getOffer` (find-offer-dialog.tsx:88, 158-177), so an input
  change can clear `foundOffer` and then the finishing search sets it again
  (find-offer-dialog.tsx:104) to an offer for the old inputs; the model's
  "an input change clears `foundOffer`" holds only when events do not interleave.
- HandleSearch, SendTokenDialog.HandleSend and SendSolDialog.HandleSend: only
  the end state is stated. That `isSearching` and `loading` are true while
  the lookup or send is in flight is not stated.
- React state setters are modelled as immediate field updates. `setIsOpen`
  from the dialog's own open/close control is not modelled.
- Rendering and the pages are UI glue: `src/App.tsx`,
  `src/pages/wallet-balances.tsx`, `src/pages/offer-confirmation.tsx` and
  `src/pages/exchange-page.tsx`. In the exchange page, `confirmTakeOffer`
  only maps the always-null `takeOffer` result to an error message.
- `src/hooks/useHeliusBalances.ts` is a polling hook whose fetch returns
  empty balances.
- The escrow IDL, the program id (`config.contractAddress`) and
  `useMetadata` are not part of this model. The program id is a parameter.
  An offer record holds only the fields the client reads.
