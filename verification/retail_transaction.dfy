/**
 * The retail transaction object: its state, items, payment info and
 * payment token are fields that its methods update in place. Every method
 * does to these fields what `Step` says its call does, and keeps the
 * object equal to the replay of the calls made on it so far.
 */
module RetailTransactions {
  import opened Wrappers
  import opened TransactionSpec
  import opened Reachability

  class RetailTransaction<Item, Info, Token> {
    var state: State
    var items: seq<Item>
    var paymentInfo: Option<Info>
    var paymentToken: Option<Token>

    /** Every call made on this object since it was created, in order. */
    ghost var history: seq<Op<Item, Info>>

    /** The fields as a value. */
    function Snapshot(): (t: Tx<Item, Info, Token>)
      reads this
    {
      Tx(state, items, paymentInfo, paymentToken)
    }

    /** The object is what its history produces from a new transaction, and so keeps `Inv`. */
    ghost predicate Valid()
      reads this
    {
      Run(Init(), history) == Snapshot() && Inv(Snapshot())
    }

    constructor ()
      ensures Valid() && history == []
      ensures state == RingingUp && items == [] && paymentInfo == None && paymentToken == None
    {
      state := RingingUp;
      items := [];
      paymentInfo := None;
      paymentToken := None;
      history := [];
    }

    /** A copy of the items; a sequence is a value, so the caller cannot change the stored one. */
    function Items(): (s: seq<Item>)
      reads this
      ensures s == items
    {
      items
    }

    /** `empty?`: there are no items. */
    predicate IsEmpty()
      reads this
      ensures IsEmpty() <==> items == []
    {
      |items| == 0
    }

    /** `paid?`: a payment token is present, which never happens to a valid transaction. */
    predicate IsPaid()
      reads this
      ensures IsPaid() <==> paymentToken.Some?
      ensures Valid() ==> !IsPaid()
    {
      paymentToken.Some?
    }

    /** Records one more call in the history, given that its effect on the fields is `Step`'s. */
    ghost method Record(before: Tx<Item, Info, Token>, op: Op<Item, Info>, r: Outcome)
      requires Run(Init(), history) == before && Inv(before)
      requires (Snapshot(), r) == Step(before, op)
      modifies this`history
      ensures history == old(history) + [op]
      ensures Valid()
    {
      RunAppend(Init<Item, Info, Token>(), history, [op]);
      RunOne(before, op);
      StepValid(before, op);
      history := history + [op];
    }

    /** `add_item`: appends while ringing up; raises in every other state. */
    method AddItem(item: Item) returns (r: Outcome)
      requires Valid()
      modifies this
      ensures Valid() && history == old(history) + [Op.AddItem(item)]
      ensures (Snapshot(), r) == Step(old(Snapshot()), Op.AddItem(item))
      ensures r.Pass? <==> old(state) == RingingUp
      ensures r.Fail? ==> r.error == InvalidOperation(AddsItem, old(state))
      ensures items == if r.Pass? then old(items) + [item] else old(items)
      ensures state == old(state) && paymentInfo == old(paymentInfo) && paymentToken == old(paymentToken)
    {
      ghost var before := Snapshot();
      if state == RingingUp {
        items := items + [item];
        r := Pass;
      } else {
        r := Fail(InvalidOperation(AddsItem, state));
      }
      Record(before, Op.AddItem(item), r);
    }

    /** `payment_info=`: overwrites while collecting payment or declined; raises otherwise. */
    method SetPaymentInfo(info: Option<Info>) returns (r: Outcome)
      requires Valid()
      modifies this
      ensures Valid() && history == old(history) + [Op.SetPaymentInfo(info)]
      ensures (Snapshot(), r) == Step(old(Snapshot()), Op.SetPaymentInfo(info))
      ensures r.Pass? <==> old(state) == CollectingPayment || old(state) == State.PaymentDeclined
      ensures r.Fail? ==> r.error == InvalidOperation(SetsPaymentInfo, old(state))
      ensures paymentInfo == if r.Pass? then info else old(paymentInfo)
      ensures state == old(state) && items == old(items) && paymentToken == old(paymentToken)
    {
      ghost var before := Snapshot();
      if state == CollectingPayment || state == State.PaymentDeclined {
        paymentInfo := info;
        r := Pass;
      } else {
        r := Fail(InvalidOperation(SetsPaymentInfo, state));
      }
      Record(before, Op.SetPaymentInfo(info), r);
    }

    /**
     * Fires an event as the state machine does: from one of its source states
     * with its guard true it moves to its target; otherwise it raises and
     * nothing changes.
     */
    method Fire(e: Event) returns (r: Outcome)
      requires Valid()
      modifies this
      ensures Valid() && history == old(history) + [Trigger(e)]
      ensures (Snapshot(), r) == Step(old(Snapshot()), Trigger(e))
      ensures r.Pass? <==> old(state) in Sources(e) && Guard(e, old(Snapshot()))
      ensures r.Fail? ==> r.error == InvalidTransition(e, old(state))
      ensures state == if r.Pass? then Target(e) else old(state)
      ensures items == old(items) && paymentInfo == old(paymentInfo) && paymentToken == old(paymentToken)
    {
      ghost var before := Snapshot();
      if state in Sources(e) && Guard(e, Snapshot()) {
        state := Target(e);
        r := Pass;
      } else {
        r := Fail(InvalidTransition(e, state));
      }
      Record(before, Trigger(e), r);
    }

    /** `check_out`: ringing up with items moves to collecting payment. */
    method CheckOut() returns (r: Outcome)
      requires Valid()
      modifies this
      ensures Valid() && history == old(history) + [Trigger(Event.CheckOut)]
      ensures r.Pass? <==> old(state) == RingingUp && old(items) != []
      ensures r.Fail? ==> r.error == InvalidTransition(Event.CheckOut, old(state))
      ensures state == if r.Pass? then CollectingPayment else old(state)
      ensures items == old(items) && paymentInfo == old(paymentInfo) && paymentToken == old(paymentToken)
    {
      r := Fire(Event.CheckOut);
    }

    /** `reopen`: collecting payment or declined goes back to ringing up, keeping items and payment info. */
    method Reopen() returns (r: Outcome)
      requires Valid()
      modifies this
      ensures Valid() && history == old(history) + [Trigger(Event.Reopen)]
      ensures r.Pass? <==> old(state) == CollectingPayment || old(state) == State.PaymentDeclined
      ensures r.Fail? ==> r.error == InvalidTransition(Event.Reopen, old(state))
      ensures state == if r.Pass? then RingingUp else old(state)
      ensures items == old(items) && paymentInfo == old(paymentInfo) && paymentToken == old(paymentToken)
    {
      r := Fire(Event.Reopen);
    }

    /** `process_payment`: collecting payment or declined, with payment info, moves to processing. */
    method ProcessPayment() returns (r: Outcome)
      requires Valid()
      modifies this
      ensures Valid() && history == old(history) + [Trigger(Event.ProcessPayment)]
      ensures r.Pass? <==> (old(state) == CollectingPayment || old(state) == State.PaymentDeclined) && old(paymentInfo).Some?
      ensures r.Fail? ==> r.error == InvalidTransition(Event.ProcessPayment, old(state))
      ensures state == if r.Pass? then ProcessingPayment else old(state)
      ensures items == old(items) && paymentInfo == old(paymentInfo) && paymentToken == old(paymentToken)
    {
      r := Fire(Event.ProcessPayment);
    }

    /** `payment_authorized`: processing moves to settled; the token is left unset. */
    method PaymentAuthorized() returns (r: Outcome)
      requires Valid()
      modifies this
      ensures Valid() && history == old(history) + [Trigger(Event.PaymentAuthorized)]
      ensures r.Pass? <==> old(state) == ProcessingPayment
      ensures r.Fail? ==> r.error == InvalidTransition(Event.PaymentAuthorized, old(state))
      ensures state == if r.Pass? then Settled else old(state)
      ensures items == old(items) && paymentInfo == old(paymentInfo) && paymentToken == old(paymentToken)
    {
      r := Fire(Event.PaymentAuthorized);
    }

    /** `payment_declined`: processing moves to payment declined. */
    method PaymentDeclined() returns (r: Outcome)
      requires Valid()
      modifies this
      ensures Valid() && history == old(history) + [Trigger(Event.PaymentDeclined)]
      ensures r.Pass? <==> old(state) == ProcessingPayment
      ensures r.Fail? ==> r.error == InvalidTransition(Event.PaymentDeclined, old(state))
      ensures state == if r.Pass? then State.PaymentDeclined else old(state)
      ensures items == old(items) && paymentInfo == old(paymentInfo) && paymentToken == old(paymentToken)
    {
      r := Fire(Event.PaymentDeclined);
    }
  }

  /**
   * A checkout whose first payment is declined: reopen, add a second item,
   * try to change the card while ringing up (rejected), check out again,
   * change the card and be authorized. Ends settled with both items, the
   * second card, and not paid.
   */
  method DeclineThenSettle<Item, Info, Token>(first: Item, second: Item, card: Info, otherCard: Info)
    returns (accepted: bool, rejected: Outcome, final: State, bought: seq<Item>, charged: Option<Info>, paid: bool)
    ensures accepted
    ensures rejected == Fail(InvalidOperation(SetsPaymentInfo, RingingUp))
    ensures final == Settled && bought == [first, second] && charged == Some(otherCard) && !paid
  {
    var tx := new RetailTransaction<Item, Info, Token>();
    var r1 := tx.AddItem(first);
    var r2 := tx.CheckOut();
    var r3 := tx.SetPaymentInfo(Some(card));
    var r4 := tx.ProcessPayment();
    var r5 := tx.PaymentDeclined();
    var r6 := tx.Reopen();
    var r7 := tx.AddItem(second);
    rejected := tx.SetPaymentInfo(Some(otherCard));
    var r8 := tx.CheckOut();
    var r9 := tx.SetPaymentInfo(Some(otherCard));
    var r10 := tx.ProcessPayment();
    var r11 := tx.PaymentAuthorized();
    accepted := r1.Pass? && r2.Pass? && r3.Pass? && r4.Pass? && r5.Pass? && r6.Pass?
      && r7.Pass? && r8.Pass? && r9.Pass? && r10.Pass? && r11.Pass?;
    final, bought, charged, paid := tx.state, tx.Items(), tx.paymentInfo, tx.IsPaid();
  }
}
