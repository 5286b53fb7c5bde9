/**
 * What a client can and cannot bring a transaction to, by any series of
 * the modelled calls from a new one (a caller who alters the array that
 * `add_item` returns is outside this): the reachable snapshots are exactly those that
 * satisfy `Inv`; items only grow; a settled transaction never changes; and
 * the payment token is never set, so no reachable transaction is paid.
 */
module Reachability {
  import opened Wrappers
  import opened TransactionSpec

  /** The calls that add the given items, in order. */
  function AddAll<Item, Info>(xs: seq<Item>): (ops: seq<Op<Item, Info>>)
    ensures |ops| == |xs|
    ensures forall k :: 0 <= k < |xs| ==> ops[k] == AddItem(xs[k])
  {
    if |xs| == 0 then [] else [AddItem(xs[0])] + AddAll(xs[1..])
  }

  /** A new transaction satisfies the invariant. */
  lemma InitValid<Item, Info, Token>()
    ensures Inv(Init<Item, Info, Token>())
    ensures Init<Item, Info, Token>().state == RingingUp && Init<Item, Info, Token>().items == []
  {
  }

  /** Every call, accepted or rejected, keeps the invariant. */
  lemma StepValid<Item, Info, Token>(t: Tx<Item, Info, Token>, op: Op<Item, Info>)
    requires Inv(t)
    ensures Inv(Step(t, op).0)
  {
  }

  /** Any series of calls keeps the invariant. */
  lemma {:induction false} RunValid<Item, Info, Token>(t: Tx<Item, Info, Token>, ops: seq<Op<Item, Info>>)
    requires Inv(t)
    ensures Inv(Run(t, ops))
    decreases |ops|
  {
    if |ops| != 0 {
      StepValid(t, ops[0]);
      RunValid(Step(t, ops[0]).0, ops[1..]);
    }
  }

  /** Running two series of calls one after the other. */
  lemma {:induction false} RunAppend<Item, Info, Token>(t: Tx<Item, Info, Token>, a: seq<Op<Item, Info>>, b: seq<Op<Item, Info>>)
    ensures Run(t, a + b) == Run(Run(t, a), b)
    decreases |a|
  {
    if |a| == 0 {
      assert a + b == b;
    } else {
      assert (a + b)[0] == a[0];
      assert (a + b)[1..] == a[1..] + b;
      RunAppend(Step(t, a[0]).0, a[1..], b);
    }
  }

  /** Adding items one by one while ringing up appends them in order. */
  lemma {:induction false} AddAllRun<Item, Info, Token>(t: Tx<Item, Info, Token>, xs: seq<Item>)
    requires t.state == RingingUp
    ensures Run(t, AddAll(xs)) == t.(items := t.items + xs)
    decreases |xs|
  {
    if |xs| != 0 {
      var u := Step(t, AddItem(xs[0])).0;
      assert u == t.(items := t.items + [xs[0]]);
      AddAllRun(u, xs[1..]);
      assert t.items + [xs[0]] + xs[1..] == t.items + xs;
    }
  }

  /** A single call. */
  lemma RunOne<Item, Info, Token>(t: Tx<Item, Info, Token>, a: Op<Item, Info>)
    ensures Run(t, [a]) == Step(t, a).0
  {
    assert [a][1..] == [];
  }

  /** Two calls in a row. */
  lemma RunTwo<Item, Info, Token>(t: Tx<Item, Info, Token>, a: Op<Item, Info>, b: Op<Item, Info>)
    ensures Run(t, [a, b]) == Step(Step(t, a).0, b).0
  {
    assert [a, b][1..] == [b];
    RunOne(Step(t, a).0, b);
  }

  /** Three calls in a row. */
  lemma RunThree<Item, Info, Token>(t: Tx<Item, Info, Token>, a: Op<Item, Info>, b: Op<Item, Info>, c: Op<Item, Info>)
    ensures Run(t, [a, b, c]) == Step(Step(Step(t, a).0, b).0, c).0
  {
    assert [a, b, c][1..] == [b, c];
    RunTwo(Step(t, a).0, b, c);
  }

  /** Items only grow: what was there stays, in its place and order. */
  lemma {:induction false} ItemsOnlyGrow<Item, Info, Token>(t: Tx<Item, Info, Token>, ops: seq<Op<Item, Info>>)
    ensures t.items <= Run(t, ops).items
    decreases |ops|
  {
    if |ops| != 0 {
      ItemsOnlyGrow(Step(t, ops[0]).0, ops[1..]);
    }
  }

  /** Settled is terminal: every call from it fails, and no series of calls changes anything. */
  lemma {:induction false} SettledAbsorbs<Item, Info, Token>(t: Tx<Item, Info, Token>, ops: seq<Op<Item, Info>>)
    requires t.state == Settled
    ensures Run(t, ops) == t
    ensures |ops| != 0 ==> Step(t, ops[0]).1.Fail?
    decreases |ops|
  {
    if |ops| != 0 {
      assert Step(t, ops[0]).1.Fail?;
      SettledAbsorbs(t, ops[1..]);
    }
  }

  /** No series of calls ever sets the payment token, so `paid?` never holds. */
  lemma {:induction false} NeverPaid<Item, Info, Token>(ops: seq<Op<Item, Info>>)
    ensures Run(Init<Item, Info, Token>(), ops).paymentToken.None?
  {
    InitValid<Item, Info, Token>();
    RunValid(Init<Item, Info, Token>(), ops);
  }

  /**
   * Every snapshot satisfying the invariant is reachable, given any payment
   * info value `card` (needed only to pass through a declined payment).
   */
  lemma ValidReachable<Item, Info, Token>(t: Tx<Item, Info, Token>, card: Info) returns (ops: seq<Op<Item, Info>>)
    requires Inv(t)
    ensures Run(Init(), ops) == t
  {
    var prefix: seq<Op<Item, Info>> := AddAll(t.items);
    var u: Tx<Item, Info, Token> := Init<Item, Info, Token>().(items := t.items);
    AddAllRun(Init<Item, Info, Token>(), t.items);
    assert Run(Init(), prefix) == u;
    // Each script below checks out (there are items whenever it is used)
    // and then stores the payment info the target state needs.
    var rest: seq<Op<Item, Info>>;
    match t.state {
      case RingingUp =>
        if t.paymentInfo.None? {
          rest := [];
        } else {
          rest := [Trigger(CheckOut), SetPaymentInfo(t.paymentInfo), Trigger(Reopen)];
          RunThree(u, Trigger(CheckOut), SetPaymentInfo(t.paymentInfo), Trigger(Reopen));
        }
      case CollectingPayment =>
        rest := [Trigger(CheckOut), SetPaymentInfo(t.paymentInfo)];
        RunTwo(u, Trigger(CheckOut), SetPaymentInfo(t.paymentInfo));
      case ProcessingPayment =>
        rest := [Trigger(CheckOut), SetPaymentInfo(t.paymentInfo), Trigger(ProcessPayment)];
        RunThree(u, Trigger(CheckOut), SetPaymentInfo(t.paymentInfo), Trigger(ProcessPayment));
      case Settled =>
        var processing := [Trigger(CheckOut), SetPaymentInfo(t.paymentInfo), Trigger(ProcessPayment)];
        rest := processing + [Trigger(PaymentAuthorized)];
        RunThree(u, Trigger(CheckOut), SetPaymentInfo(t.paymentInfo), Trigger(ProcessPayment));
        RunAppend(u, processing, [Trigger(PaymentAuthorized)]);
        RunOne(Run(u, processing), Trigger(PaymentAuthorized));
      case PaymentDeclined =>
        var declined := [Trigger(CheckOut), SetPaymentInfo(Some(card)), Trigger(ProcessPayment)];
        var retry := [Trigger(Event.PaymentDeclined), SetPaymentInfo(t.paymentInfo)];
        rest := declined + retry;
        RunThree(u, Trigger(CheckOut), SetPaymentInfo(Some(card)), Trigger(ProcessPayment));
        RunAppend(u, declined, retry);
        RunTwo(Run(u, declined), Trigger(Event.PaymentDeclined), SetPaymentInfo(t.paymentInfo));
    }
    assert Run(u, rest) == t;
    ops := prefix + rest;
    RunAppend(Init<Item, Info, Token>(), prefix, rest);
  }

  /**
   * The reachable snapshots (those some series of calls on a new transaction
   * produces) are exactly those satisfying the invariant.
   */
  lemma ReachableIffValid<Item, Info, Token>(t: Tx<Item, Info, Token>, card: Info)
    ensures (exists ops: seq<Op<Item, Info>> :: Run(Init(), ops) == t) <==> Inv(t)
  {
    if exists ops: seq<Op<Item, Info>> :: Run(Init(), ops) == t {
      var ops: seq<Op<Item, Info>> :| Run(Init(), ops) == t;
      InitValid<Item, Info, Token>();
      RunValid(Init<Item, Info, Token>(), ops);
    }
    if Inv(t) {
      var ops := ValidReachable(t, card);
      assert Run(Init(), ops) == t;
    }
  }
}
