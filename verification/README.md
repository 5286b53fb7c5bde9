# Retail transaction checkout, modelled in Dafny

`RetailTransaction` (lib/retail_transaction.rb) is a point-of-sale checkout
driven by a five-state machine: `ringing_up` (initial), `collecting_payment`,
`processing_payment`, `payment_declined` and `settled`. The object holds its
current state, an ordered list of opaque items and an optional opaque
`payment_info`. It also exposes a `payment_token` reader.

Two direct mutators check the state before they write a field:

- `add_item` appends, and only while ringing up;
- `payment_info=` overwrites, and only while collecting payment or after a decline.

Five events move between states:

- `check_out` is guarded by "not empty";
- `reopen` has no guard;
- `process_payment` is guarded by "payment info present";
- `payment_authorized` and `payment_declined` have no guard.

An event fired from a state that is not one of its sources, or with its
guard false, raises `AASM::InvalidTransition` and changes nothing.

The Dafny project has four modules:

- `Wrappers` (wrappers.dfy): `Option`, standing for Ruby's `nil`.
- `TransactionSpec` (transaction_spec.dfy): the states and events as
  datatypes. `Sources`, `Target` and `Guard` give the transition table.
  `Allowed` gives the states in which each mutator may run. `Step` gives the
  effect of one call on a value snapshot `Tx` of the object, and `Outcome`
  tells normal return apart from the error raised. An `InvalidOperation` is
  the plain `raise` of a mutator. An `InvalidTransition` is the event error.
  Each error names the current state. `Run` replays a series of calls. `Inv`
  is the invariant of reachable transactions.
- `Reachability` (reachability.dfy): lemmas over `Run`. A snapshot is
  reachable from a new transaction exactly when it satisfies `Inv`. Items
  only grow. A settled transaction never changes. The payment token is never
  set.
- `RetailTransactions` (retail_transaction.dfy): the class
  `RetailTransaction`, with the fields `state`, `items`, `paymentInfo` and
  `paymentToken`, which its methods update in place. A ghost `history`
  records every call made on the object. `Valid()` says the fields equal the
  replay of that history from a new transaction, and so satisfy `Inv`. Each
  method states its whole new state, and also that its effect is `Step`'s.
  `DeclineThenSettle` is a client scenario: a declined payment, a reopen and
  a retry.

Two consequences of the code are worth stating:

- `payment_token` has a reader (lib/retail_transaction.rb:10) and `paid?`
  tests it (lines 34-36), but nothing assigns `@payment_token`, not even
  `payment_authorized`. So `paid?` is false in every reachable state,
  `settled` included. The model keeps the field, never writes it, and
  proves this (`NeverPaid`, `IsPaid`).
- `payment_info=` raises while ringing up (lines 24-26). So a retry after
  `reopen` must check out again before changing the card.
  `DeclineThenSettle` shows the change rejected with `InvalidOperation`
  after `reopen` and a further `add_item`, and accepted after the next
  `check_out`.

## Model

| member | source | states |
|---|---|---|
| `TransactionSpec.Sources` | lib/retail_transaction.rb:45-65 | No event has `settled` as a source, so `settled` is terminal. No event fires from its own target. Every event has at least one source. |
| `TransactionSpec.Step` | lib/retail_transaction.rb:16-65 | A rejected call changes nothing, and its error names the state at the call. Only events change the state. Only `payment_info=` changes the payment info. Items only grow, by at most one. No call touches the payment token. |
| `RetailTransactions.RetailTransaction.constructor` | lib/retail_transaction.rb:6-8 | A new transaction is ringing up, with no items, no payment info and no token. It is valid and its history is empty. |
| `RetailTransactions.RetailTransaction.Items` | lib/retail_transaction.rb:12-14 | Returns the stored items. The result is a value, so a caller cannot change the stored list through it. |
| `RetailTransactions.RetailTransaction.IsEmpty` | lib/retail_transaction.rb:30-32 | True exactly when there are no items. |
| `RetailTransactions.RetailTransaction.IsPaid` | lib/retail_transaction.rb:34-36 | True exactly when a token is present, and therefore false for every valid transaction. |
| `RetailTransactions.RetailTransaction.AddItem` | lib/retail_transaction.rb:16-21 | Succeeds exactly when ringing up, and then appends the item at the end. Otherwise it fails with `InvalidOperation(AddsItem, state)` and the items are unchanged. The state, the payment info and the token never change. |
| `RetailTransactions.RetailTransaction.SetPaymentInfo` | lib/retail_transaction.rb:23-28 | Succeeds exactly in `collecting_payment` or `payment_declined`, and then overwrites the payment info (nil included). Otherwise it fails with `InvalidOperation(SetsPaymentInfo, state)` and the payment info is unchanged. Nothing else changes. |
| `RetailTransactions.RetailTransaction.Fire` | lib/retail_transaction.rb:38-66 | An event succeeds exactly from one of its source states with its guard true, and then moves to its target. Otherwise it fails with `InvalidTransition(event, state)`. Items, payment info and token never change. |
| `RetailTransactions.RetailTransaction.CheckOut` | lib/retail_transaction.rb:45-48 | Moves `ringing_up` to `collecting_payment` exactly when there are items. Otherwise it raises `InvalidTransition` and the state is unchanged. |
| `RetailTransactions.RetailTransaction.Reopen` | lib/retail_transaction.rb:50-52 | Moves `collecting_payment` or `payment_declined` to `ringing_up`, keeping the items and the payment info. From any other state, `settled` included, it raises `InvalidTransition`. |
| `RetailTransactions.RetailTransaction.ProcessPayment` | lib/retail_transaction.rb:54-57 | Moves `collecting_payment` or `payment_declined` to `processing_payment` exactly when payment info is present. Otherwise, `processing_payment` itself included, it raises `InvalidTransition`. |
| `RetailTransactions.RetailTransaction.PaymentAuthorized` | lib/retail_transaction.rb:59-61 | Moves `processing_payment` to `settled` and leaves the token unset. From any other state it raises and changes nothing. |
| `RetailTransactions.RetailTransaction.PaymentDeclined` | lib/retail_transaction.rb:63-65 | Moves `processing_payment` to `payment_declined`. From any other state it raises and changes nothing. |
| `RetailTransactions.DeclineThenSettle` | test/retail_transaction_test.rb:109-150 | Runs add, check out, set card, process, decline, reopen, add, check out, set another card, process and authorize, and every one of these calls is accepted. Setting the card while ringing up is rejected with `InvalidOperation`. The transaction ends settled with both items in order and the second card, and it is not paid. |
| `Reachability.InitValid` | lib/retail_transaction.rb:6-8 | A new transaction satisfies the invariant, is ringing up and has no items. |
| `Reachability.StepValid` | lib/retail_transaction.rb:16-65 | Every call, accepted or rejected, keeps the invariant. |
| `Reachability.RunValid` | lib/retail_transaction.rb:16-65 | Any series of calls keeps the invariant: outside `ringing_up` there are items; with payment info there are items; in `processing_payment` or `settled` payment info is present; no token is set. |
| `Reachability.ValidReachable` | lib/retail_transaction.rb:16-65 | Gives, for every snapshot satisfying the invariant, a series of calls that produces it from a new transaction. |
| `Reachability.ReachableIffValid` | lib/retail_transaction.rb:16-65 | A snapshot is reachable from a new transaction if and only if it satisfies the invariant. |
| `Reachability.ItemsOnlyGrow` | lib/retail_transaction.rb:16-21 | After any series of calls, the earlier items are still a prefix of the items, in place and in order. |
| `Reachability.SettledAbsorbs` | lib/retail_transaction.rb:38-66 | From `settled` every call is rejected and no series of calls changes anything. |
| `Reachability.NeverPaid` | lib/retail_transaction.rb:34-36 | No series of calls on a new transaction sets the payment token, so `paid?` never holds. |

## Left out

- The internals of the AASM library are not modelled: callbacks, persistence, the whiny/non-whiny setting, the bang and non-bang event variants, and reflection. Only the behaviour the class relies on is modelled: an event fires from a listed source with its guard true, and otherwise it raises and nothing changes.
- The state predicates AASM generates (`ringing_up?` and the others) and `aasm.current_state` are read as the public `state` field. The `payment_info` and `payment_token` readers are the public fields `paymentInfo` and `paymentToken`.
- Exception classes and message text are not modelled. The `Failure` value keeps what the messages carry: which mutator or event was called, and the current state.
- The contents of items and of payment info are opaque type parameters, because the code only stores them, counts them or tests them for nil.
- Concurrent use of one transaction is not modelled, because the class has no locking and is used by one caller at a time.
- RetailTransactions.RetailTransaction.AddItem: does not return what Ruby's `add_item` returns. `@items << item` (lib/retail_transaction.rb:20) returns the live items array, not a copy, so a caller can change the stored items through it and bypass the `dup` in `items`. For example, clearing that array after `check_out` leaves a transaction in `collecting_payment` with no items, which can then go on to `processing_payment`. The model returns only the outcome. `Inv`, `RunValid`, `ReachableIffValid`, `ItemsOnlyGrow` and `SettledAbsorbs` therefore hold only for callers that do not change the returned array.
- Reachability.ReachableIffValid: the backward direction takes a payment info value `card` as an argument. If the payment info type had no values, a declined transaction with nil payment info would satisfy the invariant but could not be reached.
