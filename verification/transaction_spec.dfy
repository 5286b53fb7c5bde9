/**
 * The checkout lifecycle of a retail transaction as pure values: the five
 * states, the five events with their source states, targets and guards, the
 * two direct mutators, and `Step`, the effect of one call on a snapshot of
 * the transaction. The class in module RetailTransactions is proved against
 * `Step`; the lemmas in module Reachability are stated over `Run`.
 */
module TransactionSpec {
  import opened Wrappers

  /** The lifecycle states; `RingingUp` is the initial one. */
  datatype State = RingingUp | CollectingPayment | ProcessingPayment | PaymentDeclined | Settled

  /** The events of the state machine. */
  datatype Event = CheckOut | Reopen | ProcessPayment | PaymentAuthorized | PaymentDeclined

  /** The two direct mutators, named in the errors they raise. */
  datatype Mutator = AddsItem | SetsPaymentInfo

  /**
   * `InvalidOperation`: a mutator called in a state that forbids it.
   * `InvalidTransition`: an event fired from a state that is not one of its
   * sources, or whose guard is false. Both name the state at the call.
   */
  datatype Failure =
    | InvalidOperation(mutator: Mutator, state: State)
    | InvalidTransition(event: Event, state: State)

  /** What a call reports: normal return, or the error it raises. */
  datatype Outcome = Pass | Fail(error: Failure)

  /** A snapshot of the transaction's fields; items and payment data are opaque. */
  datatype Tx<Item, Info, Token> = Tx(
    state: State,
    items: seq<Item>,
    paymentInfo: Option<Info>,
    paymentToken: Option<Token>)

  /** One call a client can make on the transaction. */
  datatype Op<Item, Info> =
    | AddItem(item: Item)
    | SetPaymentInfo(info: Option<Info>)
    | Trigger(event: Event)

  /** A new transaction: ringing up, no items, no payment info, no token. */
  function Init<Item, Info, Token>(): (t: Tx<Item, Info, Token>)
  {
    Tx(RingingUp, [], None, None)
  }

  /** The states an event may fire from (the `from:` of its transition). */
  function Sources(e: Event): (r: set<State>)
    ensures Settled !in r
    ensures Target(e) !in r
    ensures |r| >= 1
  {
    match e
    case CheckOut => {RingingUp}
    case Reopen => {CollectingPayment, State.PaymentDeclined}
    case ProcessPayment => {CollectingPayment, State.PaymentDeclined}
    case PaymentAuthorized => {ProcessingPayment}
    case PaymentDeclined => {ProcessingPayment}
  }

  /** The state an event moves to (the `to:` of its transition). */
  function Target(e: Event): (s: State)
  {
    match e
    case CheckOut => CollectingPayment
    case Reopen => RingingUp
    case ProcessPayment => ProcessingPayment
    case PaymentAuthorized => Settled
    case PaymentDeclined => State.PaymentDeclined
  }

  /**
   * The guard of an event on the current fields: checking out needs a
   * non-empty item list, processing a payment needs payment info.
   */
  predicate Guard<Item, Info, Token>(e: Event, t: Tx<Item, Info, Token>)
  {
    match e
    case CheckOut => |t.items| != 0
    case ProcessPayment => t.paymentInfo.Some?
    case _ => true
  }

  /** The states from which a direct mutator is allowed. */
  function Allowed(m: Mutator): (r: set<State>)
  {
    match m
    case AddsItem => {RingingUp}
    case SetsPaymentInfo => {CollectingPayment, State.PaymentDeclined}
  }

  /**
   * The effect of one call: the snapshot afterwards and the outcome.
   * A failing call changes nothing; only the setter touches the payment
   * info, only events touch the state, items only grow, and nothing ever
   * touches the payment token.
   */
  ghost function Step<Item, Info, Token>(t: Tx<Item, Info, Token>, op: Op<Item, Info>): (r: (Tx<Item, Info, Token>, Outcome))
    ensures r.1.Fail? ==> r.0 == t && r.1.error.state == t.state
    ensures r.0.state != t.state ==> op.Trigger?
    ensures r.0.paymentInfo != t.paymentInfo ==> op.SetPaymentInfo?
    ensures t.items <= r.0.items && |r.0.items| <= |t.items| + 1
    ensures r.0.paymentToken == t.paymentToken
  {
    match op
    case AddItem(x) =>
      if t.state in Allowed(AddsItem) then (t.(items := t.items + [x]), Pass)
      else (t, Fail(InvalidOperation(AddsItem, t.state)))
    case SetPaymentInfo(i) =>
      if t.state in Allowed(SetsPaymentInfo) then (t.(paymentInfo := i), Pass)
      else (t, Fail(InvalidOperation(SetsPaymentInfo, t.state)))
    case Trigger(e) =>
      if t.state in Sources(e) && Guard(e, t) then (t.(state := Target(e)), Pass)
      else (t, Fail(InvalidTransition(e, t.state)))
  }

  /** The snapshot after a series of calls, each failing call leaving it as it was. */
  ghost function Run<Item, Info, Token>(t: Tx<Item, Info, Token>, ops: seq<Op<Item, Info>>): Tx<Item, Info, Token>
    decreases |ops|
  {
    if |ops| == 0 then t else Run(Step(t, ops[0]).0, ops[1..])
  }

  /**
   * What holds of every transaction a client can produce: outside ringing up
   * there are items; payment info is only ever stored once there are items;
   * a payment being processed or settled has payment info; no token is set.
   */
  ghost predicate Inv<Item, Info, Token>(t: Tx<Item, Info, Token>)
  {
    && (t.state != RingingUp ==> |t.items| != 0)
    && (t.paymentInfo.Some? ==> |t.items| != 0)
    && (t.state in {ProcessingPayment, Settled} ==> t.paymentInfo.Some?)
    && t.paymentToken.None?
  }
}
