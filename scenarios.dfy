/**
 * Walk-throughs of the payment flow: a press that starts a payment, a `handlePayment`
 * that opens the form, an approval that completes the payment, a declined purchase, a
 * token reply without a token, and a second press after `handlePay` that decides
 * exactly as the first.
 */
module Scenarios {
  import opened Options
  import opened Catalog
  import opened Formatting
  import PlayButton
  import opened WrapperPlayButton

  /** The price of 10 soles is sent as "10.00"; user 42 and movie 7 are sent as "42" and "7". */
  lemma ConcreteTexts()
    ensures ToFixed2(1000) == "10.00"
    ensures NatToString(42) == "42" && NatToString(7) == "7"
  {
    assert NatToString(1) == "1";
    assert NatToString(10) == "10";
    assert NatToString(4) == "4";
  }

  /** A signed-in user whose fetched list is empty starts the payment of a full-price title. */
  method PressStartsPayment(movie: Movie)
    requires movie.paymentType == Code("PT")
  {
    var flow := new PaymentFlow(movie, "4001834", "pk");
    flow.StartUserFetch();
    flow.CompleteUserFetch(FetchOk([UserRow(42, Some([]))]));
    var a := flow.Press(true, PlayButton.Authenticated);
    assert a == PlayButton.StartPayment;
  }

  /** `handlePayment` for a fetched user ends with the form open; the spinner goes up only once the token arrives. */
  method PurchaseOpensForm(movie: Movie, order: DynamicOrder, user: UserRow) {
    var flow := new PaymentFlow(movie, "4001834", "pk");
    flow.CompleteUserFetch(FetchOk([user]));
    flow.HandlePay(order);
    assert !flow.isLoading;
    flow.ReceiveToken(0, Authorization(Some(TokenBody(Some("tok"), None))), true);
    assert flow.isLoading && flow.attempts[0].stage == FormOpen("tok", 2);
    assert flow.log[2] == FormLoaded(0, "tok", ConfigFor(flow.attempts[0].ctx));
  }

  /** From any open form, an approving callback and a settlement answered with `1` complete the payment. */
  method ApprovalCompletesPayment(flow: PaymentFlow, k: nat)
    requires flow.Valid() && k < |flow.attempts| && flow.attempts[k].stage.FormOpen?
    modifies flow
  {
    ghost var n := |flow.log|;
    ghost var call := SettlementCallFor(flow.attempts[k].ctx);
    flow.GatewayResponds(k, "00");
    assert flow.log[n + 1] == SettlementRequested(k, call);
    assert !Answered(flow.log, n + 1) by {
      forall j | 0 <= j < |flow.log| && flow.log[j].SettlementAnswered? ensures flow.log[j].settlement != n + 1 {
        assert EventOk(flow.log, flow.attempts, j);
      }
    }
    flow.SettlementResponds(n + 1, Some(1));
    assert flow.isPaymentCompleted && !flow.isLoading;
  }

  /** The gateway declines with "05": no settlement is requested and the spinner comes down. */
  method DeclinedPurchase(movie: Movie, order: DynamicOrder) {
    var flow := new PaymentFlow(movie, "4001834", "pk");
    flow.HandlePay(order);
    flow.ReceiveToken(0, Authorization(Some(TokenBody(Some("tok"), None))), true);
    flow.GatewayResponds(0, "05");
    assert |flow.log| == 4 && !flow.log[3].SettlementRequested?;
    assert !flow.isLoading && !flow.isPaymentCompleted;
  }

  /** A reply without `response` carries the default error, loads no form and leaves the flags alone. */
  method MissingToken(movie: Movie, order: DynamicOrder) {
    var flow := new PaymentFlow(movie, "4001834", "pk");
    flow.HandlePay(order);
    flow.ReceiveToken(0, Authorization(None), true);
    assert flow.log[1] == TokenReceived(0, None, Some("NODE_API"));
    assert flow.attempts[0].stage == NoToken && !flow.isLoading;
  }

  /**
   * Nothing stops a second press before the first token reply: after `handlePay` the
   * button decides exactly as before, so a press that started a payment starts another.
   */
  method DoublePress(flow: PaymentFlow, order: DynamicOrder)
    requires flow.Valid() && flow.userMovieList.Some?
    modifies flow
  {
    var first := flow.Press(true, PlayButton.Authenticated);
    ghost var n := |flow.attempts|;
    flow.HandlePay(order);
    var second := flow.Press(true, PlayButton.Authenticated);
    assert second == first && |flow.attempts| == n + 1;
  }
}
